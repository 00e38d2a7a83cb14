/** `ui.TradeableFlutterActivity`: the full-page host. It reads its launch
    arguments from the intent extras, waits a bounded number of rounds for the
    embedded bridge to report TFS initialisation, shows the Flutter view once
    ready, sends it one view state, and detaches it and stops the engine when
    destroyed. The remembered Compose state of `TradeableFullPageContent` and
    of its `FlutterViewContainer` are fields of the two classes below. */
module FlutterActivity {
  import opened Values
  import opened Engine
  import Lists
  import WrapperBridge

  const MAX_INIT_RETRIES: nat := 50
  const INIT_RETRY_DELAY_MS: nat := 100
  const TIMEOUT_MESSAGE: string := "SDK initialization timeout"

  datatype InitState = Initializing | Ready | Failed(error: string)

  /** What `onCreate` reads from the intent. */
  datatype LaunchArgs = LaunchArgs(mode: string, text: string, topicId: int, width: real, height: real)

  /** `getStringExtra(k) ?: default`, `getIntExtra(k, 0)`, `getDoubleExtra(k, 0.0)`:
      an extra that is absent or of another type gives the default. */
  function ReadLaunchArgs(extras: Payload): (r: LaunchArgs)
    ensures r.mode == OrElse(AsString(extras, "mode"), "fullscreen")
    ensures r.text == OrElse(AsString(extras, "text"), "Open Fullscreen")
    ensures r.topicId == OrElse(AsInt(extras, "topicId"), 0)
    ensures r.width == OrElse(AsDouble(extras, "width"), 0.0)
    ensures r.height == OrElse(AsDouble(extras, "height"), 0.0)
    ensures extras == map[] ==> r == LaunchArgs("fullscreen", "Open Fullscreen", 0, 0.0, 0.0)
  {
    LaunchArgs(OrElse(AsString(extras, "mode"), "fullscreen"),
               OrElse(AsString(extras, "text"), "Open Fullscreen"),
               OrElse(AsInt(extras, "topicId"), 0),
               OrElse(AsDouble(extras, "width"), 0.0),
               OrElse(AsDouble(extras, "height"), 0.0))
  }

  /** `if (v > 0) v else fallback`: never a non-positive size once the
      fallback is positive, and a positive size passes through. */
  function SizeOr(v: real, fallback: real): (r: real)
    ensures v > 0.0 ==> r == v
    ensures v <= 0.0 ==> r == fallback
    ensures fallback > 0.0 ==> r > 0.0
  {
    if v > 0.0 then v else fallback
  }

  /** The state sent once the view is ready: the launch arguments with
      width and height falling back to 400 and 600. */
  function FullscreenViewState(args: LaunchArgs): (vs: WrapperBridge.ViewState)
    ensures vs.mode == args.mode && vs.text == args.text && vs.topicId == args.topicId
    ensures vs.width > 0.0 && vs.height > 0.0
    ensures args.width > 0.0 ==> vs.width == args.width
    ensures args.height > 0.0 ==> vs.height == args.height
  {
    WrapperBridge.ViewState(args.mode, args.text, SizeOr(args.width, 400.0), SizeOr(args.height, 600.0), args.topicId)
  }

  /** The waiting loop. `tfsInitialized(i)` is what `isTFSInitialized()`
      answers after `i` delays. The loop stops at the first round the flag is
      up, or after MAX_INIT_RETRIES rounds; the state is Ready exactly when the
      flag is up at the end, and the time waited is one delay per round. */
  method AwaitTfsInitialization(tfsInitialized: nat -> bool) returns (retries: nat, state: InitState, waitedMs: nat)
    ensures retries <= MAX_INIT_RETRIES
    ensures forall i :: 0 <= i < retries ==> !tfsInitialized(i)
    ensures retries < MAX_INIT_RETRIES ==> tfsInitialized(retries)
    ensures tfsInitialized(0) ==> retries == 0
    ensures state == (if tfsInitialized(retries) then Ready else Failed(TIMEOUT_MESSAGE))
    ensures state.Failed? ==> retries == MAX_INIT_RETRIES
    ensures waitedMs == retries * INIT_RETRY_DELAY_MS <= MAX_INIT_RETRIES * INIT_RETRY_DELAY_MS
  {
    retries := 0;
    waitedMs := 0;
    while !tfsInitialized(retries) && retries < MAX_INIT_RETRIES
      invariant retries <= MAX_INIT_RETRIES
      invariant forall i :: 0 <= i < retries ==> !tfsInitialized(i)
      invariant waitedMs == retries * INIT_RETRY_DELAY_MS
      decreases MAX_INIT_RETRIES - retries
    {
      waitedMs := waitedMs + INIT_RETRY_DELAY_MS;
      retries := retries + 1;
    }
    if !tfsInitialized(retries) {
      state := Failed(TIMEOUT_MESSAGE);
      return;
    }
    state := Ready;
  }

  class TradeableFlutterActivity {
    const args: LaunchArgs
    const bridge: WrapperBridge.FlutterBridge
    var flutterView: FlutterView?
    var initState: InitState
    var viewReady: bool

    /** `onCreate` and the first composition. */
    constructor (extras: Payload, bridge: WrapperBridge.FlutterBridge)
      ensures args == ReadLaunchArgs(extras) && this.bridge == bridge
      ensures flutterView == null && initState == Initializing && !viewReady
    {
      args := ReadLaunchArgs(extras);
      this.bridge := bridge;
      flutterView := null;
      initState := Initializing;
      viewReady := false;
    }

    /** The first `LaunchedEffect`: Initializing becomes Ready or
        Failed("SDK initialization timeout"), nothing else. */
    method RunInitialization(tfsInitialized: nat -> bool)
      modifies this`initState
      ensures initState == Ready || initState == Failed(TIMEOUT_MESSAGE)
      ensures initState == Ready <==> exists i :: 0 <= i <= MAX_INIT_RETRIES && tfsInitialized(i)
    {
      var retries, state, _ := AwaitTfsInitialization(tfsInitialized);
      initState := state;
      if state == Ready {
        assert tfsInitialized(retries);
      } else {
        assert forall i :: 0 <= i <= MAX_INIT_RETRIES ==> !tfsInitialized(i) by {
          forall i | 0 <= i <= MAX_INIT_RETRIES ensures !tfsInitialized(i) {
            if i < retries {
            } else {
              assert i == retries;
            }
          }
        }
      }
    }

    /** The `onViewCreated` callback: the view is remembered and marked ready. */
    method OnViewCreated(view: FlutterView)
      modifies this`flutterView, this`viewReady
      ensures flutterView == view && viewReady
    {
      flutterView := view;
      viewReady := true;
    }

    /** The second `LaunchedEffect`: only a ready view gets a view state. */
    method SendViewStateIfReady()
      requires bridge.Valid()
      modifies bridge`trace
      ensures bridge.Valid()
      ensures bridge.trace == old(bridge.trace) +
        (if viewReady then bridge.SetDataEffects(FullscreenViewState(args)) else [])
    {
      if viewReady {
        var vs := FullscreenViewState(args);
        bridge.SendViewState(vs.mode, vs.text, vs.width, vs.height, vs.topicId);
      }
    }

    /** With a view held: detach it, forget it, then stop the engine. With
        none: the bridge is left alone. */
    method OnDestroy()
      requires bridge.Valid()
      modifies this`flutterView, bridge`flutterViews, bridge`trace
      ensures bridge.Valid() && flutterView == null
      ensures old(flutterView) == null ==>
        bridge.flutterViews == old(bridge.flutterViews) && bridge.trace == old(bridge.trace)
      ensures old(flutterView) != null ==>
        && bridge.flutterViews == Lists.RemoveFirst<FlutterView>(old(bridge.flutterViews), old(flutterView))
        && bridge.trace == old(bridge.trace) + [DetachFromEngine(old(flutterView))] + bridge.OnEngine(WrapperBridge.STOP_EVENTS)
    {
      if flutterView != null {
        bridge.DetachView(flutterView);
        flutterView := null;
        bridge.StopEngine();
      }
    }

    method OnPause()
      requires bridge.Valid()
      modifies bridge`trace
      ensures bridge.Valid() && bridge.trace == old(bridge.trace) + bridge.OnEngine(WrapperBridge.PAUSE_EVENTS)
    {
      bridge.PauseEngine();
    }

    /** Resumes whether or not a view exists yet. */
    method OnResume()
      requires bridge.Valid()
      modifies bridge`trace
      ensures bridge.Valid() && bridge.trace == old(bridge.trace) + bridge.OnEngine(WrapperBridge.RESUME_EVENTS)
    {
      bridge.ResumeEngine();
    }
  }

  /** The activity's `FlutterViewContainer`: installs a close handler that
      finishes the activity, creates the view, and on disposal clears the
      handler and detaches the view whatever the mode. */
  class FlutterViewContainer {
    const bridge: WrapperBridge.FlutterBridge
    const finishActivity: Handler
    var flutterView: FlutterView?
    var viewCreated: bool

    constructor (bridge: WrapperBridge.FlutterBridge, finishActivity: Handler)
      ensures this.bridge == bridge && this.finishActivity == finishActivity
      ensures flutterView == null && !viewCreated
    {
      this.bridge := bridge;
      this.finishActivity := finishActivity;
      flutterView := null;
      viewCreated := false;
    }

    /** The `DisposableEffect` body. */
    method Enter()
      requires bridge.Valid()
      modifies bridge`closeHandler
      ensures bridge.Valid() && bridge.closeHandler == Some(finishActivity)
    {
      bridge.SetupCloseHandler(Some(finishActivity));
    }

    /** The `AndroidView` factory; it is composed only once the activity is
        Ready. A failed creation propagates and no state changes. */
    method Factory(activity: TradeableFlutterActivity) returns (r: Result<FlutterView, WrapperBridge.BridgeError>)
      requires bridge.Valid() && activity.initState == Ready
      modifies this`flutterView, this`viewCreated, bridge`flutterViews, bridge`trace,
        activity`flutterView, activity`viewReady
      ensures bridge.Valid()
      ensures r.Err? <==> old(bridge.flutterEngine) == null
      ensures r.Err? ==> unchanged(this) && unchanged(activity) && unchanged(bridge)
      ensures r.Ok? ==>
        && flutterView == r.value && viewCreated
        && activity.flutterView == r.value && activity.viewReady
        && bridge.flutterViews == old(bridge.flutterViews) + [r.value]
    {
      r := bridge.CreateFlutterView();
      if r.Ok? {
        flutterView := r.value;
        activity.OnViewCreated(r.value);
        viewCreated := true;
      }
    }

    /** `onDispose`. */
    method Dispose()
      requires bridge.Valid()
      modifies bridge`closeHandler, bridge`flutterViews, bridge`trace
      ensures bridge.Valid() && bridge.closeHandler == None
      ensures flutterView == null ==>
        bridge.flutterViews == old(bridge.flutterViews) && bridge.trace == old(bridge.trace)
      ensures flutterView != null ==>
        && bridge.flutterViews == Lists.RemoveFirst<FlutterView>(old(bridge.flutterViews), flutterView)
        && bridge.trace == old(bridge.trace) + [DetachFromEngine(flutterView)]
    {
      bridge.SetupCloseHandler(None);
      if flutterView != null {
        bridge.DetachView(flutterView);
      }
    }
  }
}
