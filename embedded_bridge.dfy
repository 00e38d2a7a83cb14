/** `android.wrapper.FlutterBridge`: owns the single Flutter engine and its three
    method channels, keeps the registry of views attached to the engine, holds
    the close-handler slot, and records whether the Dart side acknowledged TFS
    initialisation. Every call it makes to the engine, a view, a channel or the
    close handler is appended to `trace`. */
module WrapperBridge {
  import opened Values
  import opened Engine
  import Lists
  import AuthHandlers
  import NavigationHandlers

  const BASE_CHANNEL: string := "embedded_flutter"
  const AUTH_CHANNEL: string := "embedded_flutter/auth"
  const NAV_CHANNEL: string := "embedded_flutter/navigation"

  /** The lifecycle messages of `pauseEngine`, `stopEngine` and of `resumeEngine`/`startEngine`. */
  const PAUSE_EVENTS: seq<Effect> := [Lifecycle(AppIsInactive), Lifecycle(AppIsPaused)]
  const STOP_EVENTS: seq<Effect> := [Lifecycle(AppIsInactive), Lifecycle(AppIsPaused), Lifecycle(AppIsDetached)]
  const RESUME_EVENTS: seq<Effect> := [Lifecycle(AppIsResumed)]

  datatype BridgeError = IllegalState(message: string)

  /** The state `sendViewState` hands to Flutter. */
  datatype ViewState = ViewState(mode: string, text: string, width: real, height: real, topicId: int)

  /** Reads a view state back out of a `setData` argument. */
  function ViewStateOf(data: Payload): (r: Option<ViewState>)
  {
    match (AsString(data, "mode"), AsString(data, "text"), AsDouble(data, "width"),
           AsDouble(data, "height"), AsInt(data, "topicId"))
    case (Some(m), Some(t), Some(w), Some(h), Some(i)) => Some(ViewState(m, t, w, h, i))
    case _ => None
  }

  /** The argument of `setData`: exactly the keys mode, text, width, height and
      topicId, from which the view state can be read back unchanged. */
  function ViewStatePayload(vs: ViewState): (r: Payload)
    ensures r.Keys == {"mode", "text", "width", "height", "topicId"}
    ensures ViewStateOf(r) == Some(vs)
  {
    map["mode" := Str(vs.mode), "text" := Str(vs.text), "width" := Dbl(vs.width),
        "height" := Dbl(vs.height), "topicId" := Int(vs.topicId)]
  }

  /** The inbound calls on the base channel that ask the host to close. */
  predicate IsCloseRequest(methodName: string)
  {
    methodName == "closeCard" || methodName == "closeFullscreen"
  }

  class FlutterBridge {
    var flutterEngine: FlutterEngine?
    var baseChannel: MethodChannel?
    var authChannel: MethodChannel?
    var navChannel: MethodChannel?
    var flutterViews: seq<FlutterView>
    var closeHandler: Option<Handler>
    const authHandler: AuthHandlers.AuthHandler
    const navigationHandler: NavigationHandlers.NavigationHandler
    var isInitialized: bool
    var isTFSInitialized: bool
    var trace: seq<Effect>

    /** The engine and the three channels exist exactly once `initialize` ran;
        views are only registered on an initialized bridge, each at most once. */
    ghost predicate Valid()
      reads this
    {
      && (isInitialized <==> flutterEngine != null)
      && (isInitialized ==>
            && baseChannel != null && baseChannel.name == BASE_CHANNEL
            && authChannel != null && authChannel.name == AUTH_CHANNEL
            && navChannel != null && navChannel.name == NAV_CHANNEL)
      && (!isInitialized ==> baseChannel == null && authChannel == null && navChannel == null && flutterViews == [])
      && Lists.NoDuplicates(flutterViews)
    }

    /** What `baseChannel?.invokeMethod("setData", …)` does. */
    function SetDataEffects(vs: ViewState): seq<Effect>
      reads this
    {
      if baseChannel != null then [InvokeMethod(BASE_CHANNEL, "setData", ViewStatePayload(vs))] else []
    }

    /** `flutterEngine?.lifecycleChannel?…`: the messages reach an existing engine only. */
    function OnEngine(events: seq<Effect>): seq<Effect>
      reads this
    {
      if flutterEngine != null then events else []
    }

    constructor ()
      ensures Valid() && !isInitialized && !isTFSInitialized
      ensures flutterViews == [] && closeHandler == None && trace == []
      ensures fresh(authHandler) && fresh(navigationHandler)
      ensures authHandler.authState == map[] && !authHandler.isInitialized
      ensures navigationHandler.navigationState == map[]
    {
      flutterEngine, baseChannel, authChannel, navChannel := null, null, null, null;
      flutterViews := [];
      closeHandler := None;
      authHandler := new AuthHandlers.AuthHandler();
      navigationHandler := new NavigationHandlers.NavigationHandler();
      isInitialized, isTFSInitialized := false, false;
      trace := [];
    }

    /** Idempotent: a second call returns at once, so the engine and channels
        are created once and the flag stays true. */
    method Initialize()
      requires Valid()
      modifies this
      ensures Valid() && isInitialized
      ensures old(isInitialized) ==> unchanged(this)
      ensures !old(isInitialized) ==>
        && fresh(flutterEngine) && fresh(baseChannel) && fresh(authChannel) && fresh(navChannel)
        && trace == old(trace) + [ExecuteDefaultEntrypoint, SetMethodCallHandler(BASE_CHANNEL)]
      ensures flutterViews == old(flutterViews) && closeHandler == old(closeHandler)
      ensures isTFSInitialized == old(isTFSInitialized)
    {
      if isInitialized {
        return;
      }
      flutterEngine := new FlutterEngine();
      trace := trace + [ExecuteDefaultEntrypoint];
      baseChannel := new MethodChannel(BASE_CHANNEL);
      authChannel := new MethodChannel(AUTH_CHANNEL);
      navChannel := new MethodChannel(NAV_CHANNEL);
      trace := trace + [SetMethodCallHandler(BASE_CHANNEL)];
      isInitialized := true;
    }

    /** Without an engine: an illegal-state error and nothing changes. With one:
        the engine is moved to resumed, a new view is attached and appended to
        the registry, and the views already there stay attached. */
    method CreateFlutterView() returns (r: Result<FlutterView, BridgeError>)
      requires Valid()
      modifies this`flutterViews, this`trace
      ensures Valid()
      ensures r.Err? <==> flutterEngine == null
      ensures r.Err? ==>
        && r.error == IllegalState("FlutterEngine not initialized")
        && flutterViews == old(flutterViews) && trace == old(trace)
      ensures r.Ok? ==>
        && fresh(r.value)
        && flutterViews == old(flutterViews) + [r.value]
        && trace == old(trace) + [Lifecycle(AppIsResumed), AttachToEngine(r.value)]
    {
      if flutterEngine == null {
        return Err(IllegalState("FlutterEngine not initialized"));
      }
      trace := trace + [Lifecycle(AppIsResumed)];
      var view := new FlutterView();
      trace := trace + [AttachToEngine(view)];
      flutterViews := flutterViews + [view];
      r := Ok(view);
    }

    /** The slot holds the last handler given; `None` clears it. */
    method SetupCloseHandler(handler: Option<Handler>)
      requires Valid()
      modifies this`closeHandler
      ensures Valid() && closeHandler == handler
    {
      closeHandler := handler;
    }

    /** Detaches the view and removes its occurrence from the registry; the
        other views keep their places, and a repeated call leaves the registry
        as it is. */
    method DetachView(view: FlutterView)
      requires Valid()
      modifies this`flutterViews, this`trace
      ensures Valid()
      ensures flutterViews == Lists.RemoveFirst(old(flutterViews), view)
      ensures view !in flutterViews
      ensures forall w :: w != view ==> (w in flutterViews <==> w in old(flutterViews))
      ensures view !in old(flutterViews) ==> flutterViews == old(flutterViews)
      ensures trace == old(trace) + [DetachFromEngine(view)]
    {
      trace := trace + [DetachFromEngine(view)];
      Lists.RemoveFirstNoDuplicates(flutterViews, view);
      if view !in flutterViews {
        Lists.RemoveFirstAbsent(flutterViews, view);
      }
      flutterViews := Lists.RemoveFirst(flutterViews, view);
    }

    /** The handler installed on the base channel by `initialize`: a close
        request runs the current close handler, if any, and succeeds; any other
        method is not implemented and runs nothing. */
    method HandleBaseChannelCall(methodName: string) returns (reply: Reply)
      requires Valid() && isInitialized
      modifies this`trace
      ensures Valid()
      ensures reply == (if IsCloseRequest(methodName) then Success else NotImplemented)
      ensures trace == old(trace) +
        (if IsCloseRequest(methodName) && closeHandler.Some? then [InvokeCloseHandler(closeHandler.value)] else [])
    {
      if IsCloseRequest(methodName) {
        if closeHandler.Some? {
          trace := trace + [InvokeCloseHandler(closeHandler.value)];
        }
        reply := Success;
      } else {
        reply := NotImplemented;
      }
    }

    method PauseEngine()
      requires Valid()
      modifies this`trace
      ensures Valid() && trace == old(trace) + OnEngine(PAUSE_EVENTS)
    {
      if flutterEngine != null {
        trace := trace + PAUSE_EVENTS;
      }
    }

    method ResumeEngine()
      requires Valid()
      modifies this`trace
      ensures Valid() && trace == old(trace) + OnEngine(RESUME_EVENTS)
    {
      if flutterEngine != null {
        trace := trace + RESUME_EVENTS;
      }
    }

    /** Inactive, then paused, then detached. */
    method StopEngine()
      requires Valid()
      modifies this`trace
      ensures Valid() && trace == old(trace) + OnEngine(STOP_EVENTS)
    {
      if flutterEngine != null {
        trace := trace + STOP_EVENTS;
      }
    }

    method StartEngine()
      requires Valid()
      modifies this`trace
      ensures Valid() && trace == old(trace) + OnEngine(RESUME_EVENTS)
    {
      if flutterEngine != null {
        trace := trace + RESUME_EVENTS;
      }
    }

    /** Fire and forget: `setData` with the five-key view state. */
    method SendViewState(mode: string, text: string := "", width: real := 300.0, height: real := 200.0, topicId: int := 0)
      requires Valid()
      modifies this`trace
      ensures Valid() && trace == old(trace) + SetDataEffects(ViewState(mode, text, width, height, topicId))
    {
      if baseChannel != null {
        trace := trace + [InvokeMethod(BASE_CHANNEL, "setData", ViewStatePayload(ViewState(mode, text, width, height, topicId)))];
      }
    }

    /** Sends the six credential fields on the auth channel; `reply` is the
        Dart side's answer. Only a success sets the flag, and nothing clears it. */
    method InitializeTFS(p: AuthHandlers.TfsParams, reply: Reply)
      requires Valid()
      modifies this`trace, this`isTFSInitialized
      ensures Valid()
      ensures authChannel == null ==> trace == old(trace) && isTFSInitialized == old(isTFSInitialized)
      ensures authChannel != null ==>
        && trace == old(trace) + [InvokeMethod(AUTH_CHANNEL, "initializeTFS", AuthHandlers.TfsAuthData(p))]
        && isTFSInitialized == (old(isTFSInitialized) || reply.Success?)
    {
      if authChannel != null {
        trace := trace + [InvokeMethod(AUTH_CHANNEL, "initializeTFS", AuthHandlers.TfsAuthData(p))];
        match reply {
          case Success => isTFSInitialized := true;
          case Error(_, _) =>
          case NotImplemented =>
        }
      }
    }

    /** Sends `navigateTo` with the arguments only; the route is only logged. */
    method NavigateTo(route: string, arguments: Payload := map[])
      requires Valid()
      modifies this`trace
      ensures Valid()
      ensures trace == old(trace) + (if navChannel != null then [InvokeMethod(NAV_CHANNEL, "navigateTo", arguments)] else [])
    {
      if navChannel != null {
        trace := trace + [InvokeMethod(NAV_CHANNEL, "navigateTo", arguments)];
      }
    }

    /** Only the navigation handler's state changes; the bridge itself does not. */
    method UpdateNavigationState(screenData: Payload)
      requires Valid()
      modifies navigationHandler
      ensures Valid() && unchanged(this)
      ensures navigationHandler.navigationState == screenData
    {
      navigationHandler.UpdateState(screenData);
    }
  }
}
