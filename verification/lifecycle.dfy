/**
  The events that drive the page: navigation, suspend and resume, window
  visibility, the rotate button and the exclusive-control notification. Each
  event sets the flag it owns and reconciles; a run is a sequence of events
  applied one after the other, each treated as one atomic step.
 */
module Lifecycle {
  import opened Wrappers
  import opened DeviceLookup
  import opened CameraPage

  /**
    An event as the page receives it. Events that reconcile carry the window's
    visibility at that moment and the platform's answers should the camera be
    opened.
   */
  datatype Event =
    | NavigatedTo(windowVisible: bool, platform: Platform)
    | NavigatedFrom(windowVisible: bool, platform: Platform)
    | Suspending(windowVisible: bool, platform: Platform)
    | Resuming(windowVisible: bool, platform: Platform)
    | VisibilityChanged(windowVisible: bool, platform: Platform)
    | RotateClicked
    | ExclusiveControlChanged(status: ControlStatus, previewStarts: bool)

  /** The events that end in a reconcile. */
  predicate Reconciles(e: Event)
  {
    !e.RotateClicked? && !e.ExclusiveControlChanged?
  }

  /** The input flag an event owns, set as its handler sets it before reconciling. */
  function Signal(p: Page, e: Event): (q: Page)
    requires Reconciles(e)
    ensures SameCamera(p, q) && q.isUiActive == p.isUiActive
    ensures e.NavigatedTo? ==> q.isActivePage && q.isSuspending == p.isSuspending
    ensures e.NavigatedFrom? ==> !q.isActivePage && q.isSuspending == p.isSuspending
    ensures e.Suspending? ==> q.isSuspending && q.isActivePage == p.isActivePage
    ensures e.Resuming? ==> !q.isSuspending && q.isActivePage == p.isActivePage
    ensures e.VisibilityChanged? ==> q == p
  {
    match e
    case NavigatedTo(_, _) => p.(isActivePage := true)
    case NavigatedFrom(_, _) => p.(isActivePage := false)
    case Suspending(_, _) => p.(isSuspending := true)
    case Resuming(_, _) => p.(isSuspending := false)
    case VisibilityChanged(_, _) => p
  }

  /** One event: set the input flag it owns, then reconcile; or rotate; or the exclusive-control retry. */
  function Apply(p: Page, e: Event): (r: Step)
    requires Consistent(p)
    ensures Consistent(r.page) && Balanced(p, r)
    ensures Valid(p) ==> Valid(r.page)
    ensures e.NavigatedTo? ==> r.page.isActivePage && (r.page.isUiActive <==> e.windowVisible && !p.isSuspending)
    ensures e.NavigatedFrom? ==> !r.page.isActivePage && !r.page.isUiActive
    ensures e.Suspending? ==> r.page.isSuspending && !r.page.isUiActive
    ensures e.Suspending? && Valid(p) ==> !r.page.hasCapture && !r.page.isPreviewing
    ensures e.Resuming? ==> !r.page.isSuspending && (r.page.isUiActive <==> p.isActivePage && e.windowVisible)
    ensures e.VisibilityChanged? ==> r.page.isUiActive == WantUiActive(p, e.windowVisible)
    ensures !e.RotateClicked? ==> r.page.rotateDegree == p.rotateDegree
    ensures Reconciles(e) ==> r == Reconcile(Signal(p, e), e.windowVisible, e.platform)
    ensures e.RotateClicked? ==> r == Rotate(p)
    ensures e.ExclusiveControlChanged? ==> r == OnExclusiveControlChanged(p, e.status, e.previewStarts)
  {
    if e.RotateClicked? then Rotate(p)
    else if e.ExclusiveControlChanged? then OnExclusiveControlChanged(p, e.status, e.previewStarts)
    else
      var q := Signal(p, e);
      assert Valid(p) ==> Valid(q);
      Reconcile(q, e.windowVisible, e.platform)
  }

  /** Events applied in order; the effects are concatenated in the same order. */
  function Run(p: Page, events: seq<Event>): (r: Step)
    requires Valid(p)
    ensures Valid(r.page)
    ensures Balanced(p, r)
    decreases |events|
  {
    if |events| == 0 then Step(p, [])
    else
      var first := Apply(p, events[0]);
      var rest := Run(first.page, events[1..]);
      assert multiset(first.effects + rest.effects) == multiset(first.effects) + multiset(rest.effects);
      Step(rest.page, first.effects + rest.effects)
  }

  /**
    From the freshly constructed page, whatever the events, successful preview
    starts never run ahead of stops by more than one, nor behind them; and the
    preview runs exactly when they differ.
   */
  lemma StartsAndStopsAlternate(events: seq<Event>)
    ensures var r := Run(Initial, events);
      && Count(r.effects, StopPreview) <= Count(r.effects, StartPreview(true)) <= Count(r.effects, StopPreview) + 1
      && (r.page.isPreviewing <==> Count(r.effects, StartPreview(true)) != Count(r.effects, StopPreview))
  {
  }

  /** Reconciling again with the same inputs does nothing, whatever the platform answers. */
  lemma ReconcileIdempotent(p: Page, windowVisible: bool, platform: Platform, again: Platform)
    ensures var first := Reconcile(p, windowVisible, platform);
      Reconcile(first.page, windowVisible, again) == Step(first.page, [])
  {
  }

  /**
    The flag is recorded before the open attempt and never reverted: when the
    device is missing, the page believes the UI is active while there is no
    handle and no preview, and no later reconcile with the same inputs retries,
    even once the device has appeared.
   */
  lemma MissingDeviceLeavesUiActive(p: Page, windowVisible: bool, platform: Platform, later: Platform)
    requires Valid(p) && !p.isUiActive && WantUiActive(p, windowVisible)
    requires NoMatch(platform.devices, CameraDeviceName)
    ensures var r := Reconcile(p, windowVisible, platform);
      && r.page.isUiActive && !r.page.hasCapture && !r.page.isInitialized && !r.page.isPreviewing
      && Count(r.effects, ShowMessage(DeviceNotFoundTitle)) == 1
      && Reconcile(r.page, windowVisible, later) == Step(r.page, [])
  {
  }

  /** Cleaning up twice is cleaning up once; the second pass makes no platform call. */
  lemma CleanupIdempotent(p: Page)
    ensures var once := Cleanup(p);
      Cleanup(once.page) == Step(once.page, [])
  {
  }

  /** Four quarter turns bring any degree in [0, 360) back to itself. */
  lemma FourRotationsIdentity(p: Page)
    requires 0 <= p.rotateDegree < 360
    ensures Rotate(Rotate(Rotate(Rotate(p).page).page).page).page == p
  {
  }

  /**
    The degree survives a stop and start: hiding the window closes the camera,
    showing it again reopens it, and the restarted preview gets the same
    degree without anyone supplying it again.
   */
  lemma RotationReappliedOnRestart(p: Page, platform: Platform)
    requires Valid(p) && p.isUiActive && p.isActivePage && !p.isSuspending
    requires !NoMatch(platform.devices, CameraDeviceName) && platform.accessGranted && platform.previewStarts
    ensures var hidden := Apply(p, VisibilityChanged(false, platform));
      var shown := Apply(hidden.page, VisibilityChanged(true, platform));
      && !hidden.page.isPreviewing
      && shown.page.isPreviewing
      && Rotations(shown.effects) == [p.rotateDegree]
  {
  }

  /**
    Activating the page while its window is hidden opens nothing; showing the
    window afterwards makes exactly one open attempt.
   */
  lemma ActivateHiddenThenShow(p: Page, platform: Platform)
    requires Valid(p) && !p.isUiActive && !p.isSuspending
    ensures var activated := Apply(p, NavigatedTo(false, platform));
      var shown := Apply(activated.page, VisibilityChanged(true, platform));
      && activated == Step(p.(isActivePage := true), [])
      && Count(shown.effects, EnumerateDevices) == 1
      && shown.page.isUiActive
  {
  }
}
