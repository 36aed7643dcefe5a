/**
  The camera-lifecycle flags of the page and the transitions that change them.
  Each awaited platform call is treated as one atomic step; what the page asks
  of the platform is recorded as a sequence of effects, and the platform's
  answers (the enumerated devices, whether access is granted, whether the
  preview starts) are passed in as an oracle.
 */
module CameraPage {
  import opened Wrappers
  import opened DeviceLookup

  /** The one camera the page looks for. */
  const CameraDeviceName: string := "C922 Pro Stream Webcam"

  /** Titles of the dialogs the page shows. */
  const DeviceNotFoundTitle: string := "Camera device not found"
  const AccessDeniedTitle: string := "UnauthorizedAccessException"
  const SharedReadOnlyTitle: string := "CaptureDeviceExclusiveControlStatusChanged"

  /** A call the page makes into the platform. */
  datatype Effect =
    | EnumerateDevices
    | CreateCapture
    | InitializeCapture(deviceId: string, granted: bool)
      /** A start-preview call; started is false when it failed with a file-load error. */
    | StartPreview(started: bool)
    | SetPreviewRotation(degree: int)
    | StopPreview
      /** Detaching the preview surface and releasing the display request. */
    | ReleasePreview
    | DisposeCapture
    | ShowMessage(title: string)

  /** What the platform answers during one initialization. */
  datatype Platform = Platform(devices: seq<Device>, accessGranted: bool, previewStarts: bool)

  /**
    The page's lifecycle flags. hasCapture stands for a non-null capture
    handle; retryArmed for the exclusive-control handler being subscribed on
    the current handle.
   */
  datatype Page = Page(
    isActivePage: bool,
    isSuspending: bool,
    isUiActive: bool,
    hasCapture: bool,
    isInitialized: bool,
    isPreviewing: bool,
    rotateDegree: int,
    retryArmed: bool)

  /** A transition's result: the new page and the platform calls made on the way. */
  datatype Step = Step(page: Page, effects: seq<Effect>)

  /** The page as its constructor leaves it. */
  const Initial: Page := Page(false, false, false, false, false, false, 0, false)

  /** previewing ==> initialized ==> handle present, and the retry handler only on an initialized handle. */
  predicate Consistent(p: Page)
  {
    && (p.isPreviewing ==> p.isInitialized)
    && (p.isInitialized ==> p.hasCapture)
    && (p.retryArmed ==> p.isInitialized)
  }

  predicate RightAngle(d: int)
  {
    d == 0 || d == 90 || d == 180 || d == 270
  }

  /** Every state the page can reach satisfies this: no handle is left open while the UI is inactive. */
  predicate Valid(p: Page)
  {
    && Consistent(p)
    && RightAngle(p.rotateDegree)
    && (!p.isUiActive ==> !p.hasCapture)
  }

  /** How many times e occurs in effects. */
  function Count(effects: seq<Effect>, e: Effect): nat
  {
    multiset(effects)[e]
  }

  function Flag(b: bool): nat
  {
    if b then 1 else 0
  }

  /**
    Successful preview starts and preview stops balance: every start that
    succeeded is matched by a stop, except the one still running.
   */
  predicate Balanced(before: Page, r: Step)
  {
    Count(r.effects, StartPreview(true)) + Flag(before.isPreviewing)
      == Count(r.effects, StopPreview) + Flag(r.page.isPreviewing)
  }

  /** The rotations pushed to the preview, in order. */
  function Rotations(effects: seq<Effect>): seq<int>
    decreases |effects|
  {
    if |effects| == 0 then []
    else (if effects[0].SetPreviewRotation? then [effects[0].degree] else []) + Rotations(effects[1..])
  }

  lemma {:induction false} RotationsAppend(a: seq<Effect>, b: seq<Effect>)
    ensures Rotations(a + b) == Rotations(a) + Rotations(b)
    decreases |a|
  {
    if |a| == 0 {
      assert a + b == b;
    } else {
      var head := if a[0].SetPreviewRotation? then [a[0].degree] else [];
      assert (a + b)[0] == a[0];
      assert (a + b)[1..] == a[1..] + b;
      RotationsAppend(a[1..], b);
      assert Rotations(a + b) == head + (Rotations(a[1..]) + Rotations(b));
      assert head + (Rotations(a[1..]) + Rotations(b)) == (head + Rotations(a[1..])) + Rotations(b);
    }
  }

  /** A sequence of effects that sets no rotation pushes none. */
  lemma {:induction false} RotationsNone(effects: seq<Effect>)
    requires forall i :: 0 <= i < |effects| ==> !effects[i].SetPreviewRotation?
    ensures Rotations(effects) == []
    decreases |effects|
  {
    if |effects| > 0 {
      RotationsNone(effects[1..]);
    }
  }

  /** The page is nothing but its input flags changed: the camera flags and the degree are kept. */
  predicate SameCamera(p: Page, q: Page)
  {
    && q.hasCapture == p.hasCapture
    && q.isInitialized == p.isInitialized
    && q.isPreviewing == p.isPreviewing
    && q.retryArmed == p.retryArmed
    && q.rotateDegree == p.rotateDegree
  }

  /** The page's own inputs and the degree are kept: only camera flags may change. */
  predicate SameInputs(p: Page, q: Page)
  {
    && q.isActivePage == p.isActivePage
    && q.isSuspending == p.isSuspending
    && q.isUiActive == p.isUiActive
    && q.rotateDegree == p.rotateDegree
  }

  // ---------------------------------------------------------------------------
  // Preview start and stop

  /**
    Binds the preview surface and starts the preview; started is the
    platform's answer. A failed start subscribes the exclusive-control
    handler. The current degree is pushed only when the preview runs.
   */
  function StartPreviewOn(p: Page, started: bool): (r: Step)
    requires p.hasCapture
    ensures !p.isPreviewing ==> (r.page.isPreviewing <==> started)
    ensures !p.isPreviewing ==> Rotations(r.effects) == (if started then [p.rotateDegree] else [])
    ensures r.page.retryArmed <==> p.retryArmed || !started
    ensures SameInputs(p, r.page) && r.page.hasCapture && r.page.isInitialized == p.isInitialized
    ensures p.isInitialized && Consistent(p) ==> Consistent(r.page)
    ensures Count(r.effects, StartPreview(true)) == Flag(started)
    ensures Count(r.effects, StopPreview) == 0 && Count(r.effects, EnumerateDevices) == 0
    ensures !p.isPreviewing ==> Balanced(p, r)
  {
    var previewing := p.isPreviewing || started;
    var q := p.(isPreviewing := previewing, retryArmed := p.retryArmed || !started);
    if previewing then
      var effects := [StartPreview(started), SetPreviewRotation(p.rotateDegree)];
      assert Rotations(effects[1..][1..]) == [];
      Step(q, effects)
    else
      var effects := [StartPreview(started)];
      assert Rotations(effects[1..]) == [];
      Step(q, effects)
  }

  /** Stops a running preview, then always detaches the surface. */
  function StopPreviewOn(p: Page): (r: Step)
    ensures !r.page.isPreviewing
    ensures r.page == p.(isPreviewing := false)
    ensures Count(r.effects, StopPreview) == Flag(p.isPreviewing)
    ensures Count(r.effects, StartPreview(true)) == 0
    ensures Rotations(r.effects) == []
  {
    if p.isPreviewing then
      var effects := [StopPreview, ReleasePreview];
      assert Rotations(effects[1..][1..]) == [];
      Step(p.(isPreviewing := false), effects)
    else
      var effects := [ReleasePreview];
      assert Rotations(effects[1..]) == [];
      Step(p, effects)
  }

  // ---------------------------------------------------------------------------
  // Initialize and cleanup

  /**
    What follows the initialization attempt: an initialized handle starts the
    preview, an uninitialized one (access was denied) shows a dialog.
   */
  function AfterInitialize(p: Page, previewStarts: bool): (r: Step)
    requires p.hasCapture
    ensures !p.isInitialized ==> r.page == p && Count(r.effects, ShowMessage(AccessDeniedTitle)) == 1
    ensures p.isInitialized ==> Count(r.effects, ShowMessage(AccessDeniedTitle)) == 0
    ensures p.isInitialized && !p.isPreviewing ==> (r.page.isPreviewing <==> previewStarts)
    ensures !p.isPreviewing ==> Rotations(r.effects) == (if p.isInitialized && previewStarts then [p.rotateDegree] else [])
    ensures SameInputs(p, r.page) && r.page.hasCapture && r.page.isInitialized == p.isInitialized
    ensures Count(r.effects, EnumerateDevices) == 0
    ensures Consistent(p) ==> Consistent(r.page)
    ensures !p.isPreviewing ==> Balanced(p, r)
  {
    if p.isInitialized then StartPreviewOn(p, previewStarts)
    else
      var denied := [ShowMessage(AccessDeniedTitle)];
      RotationsNone(denied);
      Step(p, denied)
  }

  /**
    Creates a handle for the device found and initializes it; platform says
    whether access is granted. The initialized flag is only ever raised here.
   */
  function OpenCapture(p: Page, device: Device, platform: Platform): (r: Step)
    requires !p.hasCapture
    ensures r.page.hasCapture
    ensures Count(r.effects, EnumerateDevices) == 1
    ensures InitializeCapture(device.id, platform.accessGranted) in r.effects
    // access denied: a handle, but neither initialized nor previewing, one dialog
    ensures Consistent(p) && !platform.accessGranted ==>
      && !r.page.isInitialized && !r.page.isPreviewing
      && Count(r.effects, ShowMessage(AccessDeniedTitle)) == 1
      && Rotations(r.effects) == []
    // granted: initialized, previewing exactly when the start succeeds, current degree applied then
    ensures Consistent(p) && platform.accessGranted ==>
      && r.page.isInitialized
      && (r.page.isPreviewing <==> platform.previewStarts)
      && Rotations(r.effects) == (if platform.previewStarts then [p.rotateDegree] else [])
      && Count(r.effects, ShowMessage(AccessDeniedTitle)) == 0
    ensures SameInputs(p, r.page)
    ensures Consistent(p) ==> Consistent(r.page) && Balanced(p, r)
  {
    var created := p.(hasCapture := true, isInitialized := p.isInitialized || platform.accessGranted);
    var openCalls := [EnumerateDevices, CreateCapture, InitializeCapture(device.id, platform.accessGranted)];
    RotationsNone(openCalls);
    var rest := AfterInitialize(created, platform.previewStarts);
    RotationsAppend(openCalls, rest.effects);
    var effects := openCalls + rest.effects;
    assert effects[2] == InitializeCapture(device.id, platform.accessGranted);
    assert multiset(effects) == multiset(openCalls) + multiset(rest.effects);
    assert Count(openCalls, StartPreview(true)) == 0 && Count(openCalls, StopPreview) == 0;
    assert Count(openCalls, ShowMessage(AccessDeniedTitle)) == 0;
    assert Count(openCalls, EnumerateDevices) == 1;
    Step(rest.page, effects)
  }

  /**
    Opens the camera unless a handle already exists: the device is looked up
    by name, and a missing device shows a dialog and leaves the page as it was.
   */
  function Initialize(p: Page, platform: Platform): (r: Step)
    ensures p.hasCapture ==> r == Step(p, [])
    // without a handle exactly one open attempt is made
    ensures !p.hasCapture ==> Count(r.effects, EnumerateDevices) == 1
    // device not found: the page is unchanged (so no handle), one dialog
    ensures !p.hasCapture && NoMatch(platform.devices, CameraDeviceName) ==>
      && r.page == p
      && Count(r.effects, ShowMessage(DeviceNotFoundTitle)) == 1
      && Rotations(r.effects) == []
    // the handle is initialized on the first device whose name matches
    ensures !p.hasCapture ==> forall i :: IsFirstMatch(platform.devices, CameraDeviceName, i) ==>
      && r == OpenCapture(p, platform.devices[i], platform)
      && InitializeCapture(platform.devices[i].id, platform.accessGranted) in r.effects
    ensures SameInputs(p, r.page)
    ensures Consistent(p) ==> Consistent(r.page) && Balanced(p, r)
  {
    if p.hasCapture then Step(p, [])
    else match FindDevice(platform.devices, CameraDeviceName)
      case None =>
        var notFound := [EnumerateDevices, ShowMessage(DeviceNotFoundTitle)];
        RotationsNone(notFound);
        Step(p, notFound)
      case Some(device) => OpenCapture(p, device, platform)
  }

  /**
    Closes the camera: stop a running preview of an initialized handle, clear
    the initialized flag, and dispose of the handle if there is one.
   */
  function Cleanup(p: Page): (r: Step)
    ensures !r.page.hasCapture && !r.page.isInitialized && !r.page.retryArmed
    ensures Consistent(p) ==> !r.page.isPreviewing
    ensures Consistent(p) ==> Consistent(r.page)
    ensures SameInputs(p, r.page)
    ensures Rotations(r.effects) == []
    ensures Count(r.effects, DisposeCapture) == Flag(p.hasCapture)
    ensures Consistent(p) ==> Balanced(p, r)
  {
    var stopped := if p.isInitialized && p.isPreviewing then StopPreviewOn(p) else Step(p, []);
    var closed := stopped.page.(isInitialized := false);
    if closed.hasCapture then
      RotationsAppend(stopped.effects, [DisposeCapture]);
      Step(closed.(hasCapture := false, retryArmed := false), stopped.effects + [DisposeCapture])
    else
      Step(closed.(retryArmed := false), stopped.effects)
  }

  // ---------------------------------------------------------------------------
  // Reconcile

  /** The page wants the camera when it is the active page, the window is visible and the app is not suspending. */
  predicate WantUiActive(p: Page, windowVisible: bool)
  {
    p.isActivePage && windowVisible && !p.isSuspending
  }

  /**
    Recomputes the wanted state and, when it differs from isUiActive, records
    it first and then opens or closes the camera.
   */
  function Reconcile(p: Page, windowVisible: bool, platform: Platform): (r: Step)
    ensures r.page.isUiActive == WantUiActive(p, windowVisible)
    ensures p.isUiActive == WantUiActive(p, windowVisible) ==> r == Step(p, [])
    ensures r.page.isActivePage == p.isActivePage && r.page.isSuspending == p.isSuspending
    ensures r.page.rotateDegree == p.rotateDegree
    ensures Consistent(p) ==> Consistent(r.page) && Balanced(p, r)
    ensures Valid(p) ==> Valid(r.page)
    ensures !WantUiActive(p, windowVisible) && Valid(p) ==> !r.page.hasCapture && !r.page.isPreviewing
    // a camera that becomes wanted is opened; one that stops being wanted is closed
    ensures !p.isUiActive && WantUiActive(p, windowVisible) ==> r == Initialize(p.(isUiActive := true), platform)
    ensures p.isUiActive && !WantUiActive(p, windowVisible) ==> r == Cleanup(p.(isUiActive := false))
    ensures Valid(p) && !p.isUiActive && WantUiActive(p, windowVisible) ==>
      && Count(r.effects, EnumerateDevices) == 1
      && (NoMatch(platform.devices, CameraDeviceName) ==> !r.page.hasCapture && !r.page.isPreviewing)
      && (!NoMatch(platform.devices, CameraDeviceName) ==> r.page.hasCapture)
      && (!NoMatch(platform.devices, CameraDeviceName) && !platform.accessGranted ==>
            !r.page.isInitialized && !r.page.isPreviewing)
      && (!NoMatch(platform.devices, CameraDeviceName) && platform.accessGranted ==>
            r.page.isInitialized && (r.page.isPreviewing <==> platform.previewStarts)
            && Rotations(r.effects) == (if platform.previewStarts then [p.rotateDegree] else []))
  {
    var want := WantUiActive(p, windowVisible);
    if p.isUiActive == want then Step(p, [])
    else
      var marked := p.(isUiActive := want);
      if want then Initialize(marked, platform) else Cleanup(marked)
  }

  // ---------------------------------------------------------------------------
  // Rotation

  /** The C# remainder: truncates toward zero, so its sign follows the dividend. */
  function CSharpRem(a: int, b: int): int
    requires b > 0
  {
    if a >= 0 then a % b else -((-a) % b)
  }

  /**
    Turns the preview a quarter turn: the degree advances by 90 modulo 360 and
    is pushed to the preview only when it is running.
   */
  function Rotate(p: Page): (r: Step)
    ensures r.page == p.(rotateDegree := r.page.rotateDegree)
    ensures p.rotateDegree >= -90 ==> 0 <= r.page.rotateDegree < 360
    ensures 0 <= p.rotateDegree < 270 ==> r.page.rotateDegree == p.rotateDegree + 90
    ensures 270 <= p.rotateDegree < 360 ==> r.page.rotateDegree == p.rotateDegree - 270
    ensures RightAngle(p.rotateDegree) ==> RightAngle(r.page.rotateDegree)
    ensures Rotations(r.effects) == (if p.isPreviewing then [r.page.rotateDegree] else [])
    ensures Count(r.effects, StartPreview(true)) == 0 && Count(r.effects, StopPreview) == 0
  {
    var d := CSharpRem(p.rotateDegree + 90, 360);
    var effects := if p.isPreviewing then [SetPreviewRotation(d)] else [];
    assert p.isPreviewing ==> Rotations(effects[1..]) == [];
    Step(p.(rotateDegree := d), effects)
  }

  // ---------------------------------------------------------------------------
  // Exclusive control

  datatype ControlStatus = SharedReadOnlyAvailable | ExclusiveControlAvailable | OtherStatus

  /**
    The handler subscribed after a failed start: read-only sharing shows a
    dialog; regained exclusive control restarts a preview that is not running.
   */
  function OnExclusiveControlChanged(p: Page, status: ControlStatus, previewStarts: bool): (r: Step)
    requires p.retryArmed ==> p.hasCapture
    ensures !p.retryArmed ==> r == Step(p, [])
    ensures status != ExclusiveControlAvailable ==> r.page == p
    ensures p.retryArmed && status == SharedReadOnlyAvailable ==> r.effects == [ShowMessage(SharedReadOnlyTitle)]
    ensures status == OtherStatus ==> r.effects == []
    ensures p.isPreviewing ==> r.page == p && Rotations(r.effects) == []
    ensures p.retryArmed && status == ExclusiveControlAvailable && !p.isPreviewing ==>
      (r.page.isPreviewing <==> previewStarts)
      && Rotations(r.effects) == (if previewStarts then [p.rotateDegree] else [])
    ensures SameInputs(p, r.page) && r.page.hasCapture == p.hasCapture && r.page.isInitialized == p.isInitialized
    ensures Consistent(p) ==> Consistent(r.page) && Balanced(p, r)
  {
    if !p.retryArmed then Step(p, [])
    else match status
      case SharedReadOnlyAvailable => Step(p, [ShowMessage(SharedReadOnlyTitle)])
      case ExclusiveControlAvailable => if p.isPreviewing then Step(p, []) else StartPreviewOn(p, previewStarts)
      case OtherStatus => Step(p, [])
  }
}
