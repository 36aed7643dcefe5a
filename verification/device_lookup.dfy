/**
  Looking up the camera by its friendly name: the enumeration order of the
  video-capture devices is kept, and the first device whose name equals the
  wanted one, ignoring case, is chosen.
 */
module DeviceLookup {
  import opened Wrappers

  /** A video-capture device as the enumeration reports it. */
  datatype Device = Device(id: string, name: string)

  /**
    Upper-cases an ASCII letter; every other character is its own fold. The
    fold never yields a lower-case letter, so folding twice changes nothing,
    and only lower-case letters are moved.
   */
  function FoldChar(c: char): (f: char)
    ensures !('a' <= f <= 'z')
    ensures f != c ==> 'a' <= c <= 'z'
    ensures 'a' <= c <= 'z' ==> 'A' <= f <= 'Z'
  {
    if 'a' <= c <= 'z' then (c as int - 32) as char else c
  }

  /** Folding a folded character changes nothing. */
  lemma FoldCharIdempotent(c: char)
    ensures FoldChar(FoldChar(c)) == FoldChar(c)
  {
  }

  /** Ordinal comparison of two names after case folding. */
  predicate EqualsIgnoreCase(a: string, b: string)
  {
    |a| == |b| && forall i :: 0 <= i < |a| ==> FoldChar(a[i]) == FoldChar(b[i])
  }

  /**
    The case-insensitive comparison is an equivalence: a name matches itself,
    the order of the two names does not matter, and matches chain.
   */
  lemma EqualsIgnoreCaseIsEquivalence(a: string, b: string, c: string)
    ensures EqualsIgnoreCase(a, a)
    ensures EqualsIgnoreCase(a, b) ==> EqualsIgnoreCase(b, a)
    ensures EqualsIgnoreCase(a, b) && EqualsIgnoreCase(b, c) ==> EqualsIgnoreCase(a, c)
  {
  }

  /** Names differing only in the case of ASCII letters are equal ignoring case. */
  lemma CaseOnlyDifferencesIgnored(a: string, b: string)
    requires |a| == |b|
    requires forall i :: 0 <= i < |a| ==> a[i] == b[i] || FoldChar(a[i]) == b[i] || a[i] == FoldChar(b[i])
    ensures EqualsIgnoreCase(a, b)
  {
  }

  predicate Matches(d: Device, name: string)
  {
    EqualsIgnoreCase(name, d.name)
  }

  /** Index i holds the first device, in enumeration order, that matches name. */
  ghost predicate IsFirstMatch(devices: seq<Device>, name: string, i: int)
  {
    && 0 <= i < |devices|
    && Matches(devices[i], name)
    && forall j :: 0 <= j < i ==> !Matches(devices[j], name)
  }

  /** No enumerated device matches name. */
  ghost predicate NoMatch(devices: seq<Device>, name: string)
  {
    forall j :: 0 <= j < |devices| ==> !Matches(devices[j], name)
  }

  /** Position of the first matching device, or None when nothing matches. */
  function FindIndex(devices: seq<Device>, name: string): (r: Option<nat>)
    ensures r.Some? ==> IsFirstMatch(devices, name, r.value)
    ensures r.None? <==> NoMatch(devices, name)
    decreases |devices|
  {
    if |devices| == 0 then None
    else if Matches(devices[0], name) then Some(0)
    else match FindIndex(devices[1..], name)
      case None => None
      case Some(i) => Some(i + 1)
  }

  /** The device the page opens: the first match, or None (the page's null result). */
  function FindDevice(devices: seq<Device>, name: string): (r: Option<Device>)
    ensures r.None? <==> NoMatch(devices, name)
    ensures r.Some? ==> exists i :: IsFirstMatch(devices, name, i) && devices[i] == r.value
    ensures forall i :: IsFirstMatch(devices, name, i) ==> r == Some(devices[i])
  {
    match FindIndex(devices, name)
    case None => None
    case Some(i) => Some(devices[i])
  }

  /**
    The page's foreach loop, returning the device it stops at: the loop form
    of the search, checked against the first-match definition FindDevice.
   */
  method FindCameraDevice(devices: seq<Device>, name: string) returns (r: Option<Device>)
    ensures r.None? <==> NoMatch(devices, name)
    ensures r.Some? ==> exists i :: IsFirstMatch(devices, name, i) && devices[i] == r.value
    ensures r == FindDevice(devices, name)
  {
    var k := 0;
    while k < |devices|
      invariant 0 <= k <= |devices|
      invariant forall j :: 0 <= j < k ==> !Matches(devices[j], name)
    {
      if Matches(devices[k], name) {
        assert IsFirstMatch(devices, name, k);
        return Some(devices[k]);
      }
      k := k + 1;
    }
    return None;
  }
}
