/** `core.TradeableSDK`: the singleton entry point. It holds the configuration,
    the mock bridge, the initialized flag and the current credentials. The
    coroutine that `initialize` launches is one sequential step here. */
module TradeableSdk {
  import opened Values
  import opened Config
  import Numerals
  import SdkBridge

  /** The application context an Android caller passes in; opaque. */
  datatype Context = Context(id: nat)

  /** `params.parameters["topicId"]?.toIntOrNull() ?: 0`. */
  function TopicIdOf(parameters: map<string, string>): (r: int)
    ensures "topicId" !in parameters ==> r == 0
    ensures "topicId" in parameters && Numerals.ToIntOrNull(parameters["topicId"]).Some? ==>
      r == Numerals.ToIntOrNull(parameters["topicId"]).value
    ensures "topicId" in parameters && Numerals.ToIntOrNull(parameters["topicId"]).None? ==> r == 0
    ensures Numerals.INT_MIN <= r <= Numerals.INT_MAX
  {
    if "topicId" in parameters then OrElse(Numerals.ToIntOrNull(parameters["topicId"]), 0) else 0
  }

  /** The extras of the intent `openFullPage` starts: exactly mode, text and
      topicId, with mode "fullscreen" and text the title or "Fullscreen". */
  function FullPageExtras(params: PageParams): (r: Payload)
    ensures r.Keys == {"mode", "text", "topicId"}
    ensures AsString(r, "mode") == Some("fullscreen")
    ensures AsString(r, "text") == Some(if params.title.Some? then params.title.value else "Fullscreen")
    ensures AsInt(r, "topicId") == Some(TopicIdOf(params.parameters))
  {
    map["mode" := Str("fullscreen"),
        "text" := Str(OrElse(params.title, "Fullscreen")),
        "topicId" := Int(TopicIdOf(params.parameters))]
  }

  /** A page whose topicId parameter is a 32-bit number written in decimal
      opens with exactly that topic id. */
  lemma FullPageTopicIdRoundTrip(params: PageParams, n: int)
    requires Numerals.INT_MIN <= n <= Numerals.INT_MAX
    requires "topicId" in params.parameters && params.parameters["topicId"] == Numerals.IntToString(n)
    ensures AsInt(FullPageExtras(params), "topicId") == Some(n)
  {
    Numerals.ToIntOrNullInvertsToString(n);
  }

  class TradeableSDK {
    var applicationContext: Option<Context>
    var config: Option<TradeableConfig>
    var flutterBridge: SdkBridge.FlutterBridge?
    var isInitialized: bool
    var currentCredentials: Option<Credentials>
    /** What the host's optional listeners received, in order. */
    var analyticsDelivered: seq<AnalyticsEvent>
    var callbacksDelivered: seq<CallbackEvent>

    /** A bridge exists exactly while a configuration is held, it was built
        from that configuration, and the SDK is initialized only over a
        warmed-up bridge. */
    ghost predicate Valid()
      reads this, flutterBridge
    {
      && (config.Some? <==> flutterBridge != null)
      && (config.Some? <==> applicationContext.Some?)
      && (flutterBridge != null ==> flutterBridge.config == config.value)
      && (isInitialized ==> flutterBridge != null && flutterBridge.isEngineReady)
    }

    constructor ()
      ensures Valid()
      ensures applicationContext == None && config == None && flutterBridge == null
      ensures !isInitialized && currentCredentials == None
      ensures analyticsDelivered == [] && callbacksDelivered == []
    {
      applicationContext, config, flutterBridge := None, None, null;
      isInitialized := false;
      currentCredentials := None;
      analyticsDelivered, callbacksDelivered := [], [];
    }

    /** `config?.debugMode == true`. */
    function IsDebugMode(): (r: bool)
      reads this
      ensures r <==> config.Some? && config.value.debugMode
    {
      match config
      case None => false
      case Some(c) => c.debugMode
    }

    /** The bridge's log gating reads the SDK's debug mode; while the bridge is
        the SDK's own, its configuration gives the same answer. */
    lemma BridgeDebugModeAgrees()
      requires Valid() && flutterBridge != null
      ensures flutterBridge.DebugMode() == IsDebugMode()
    {
    }

    /** A second call does nothing. A first call stores the context and the
        configuration and builds a fresh bridge; when pre-warming completes
        (`preWarmThrows` false) the SDK becomes initialized and then fetches
        credentials, `fetched` being the outcome of `onRefreshCredentials`. */
    method Initialize(context: Context, cfg: TradeableConfig, preWarmThrows: bool, fetched: Option<Credentials>)
      requires Valid()
      modifies this
      ensures Valid()
      ensures old(isInitialized) ==> unchanged(this)
      ensures !old(isInitialized) ==>
        && applicationContext == Some(context) && config == Some(cfg)
        && fresh(flutterBridge)
        && isInitialized == !preWarmThrows
        && flutterBridge.isEngineReady == !preWarmThrows
      ensures !old(isInitialized) && !preWarmThrows && fetched.Some? ==>
        currentCredentials == fetched && flutterBridge.cachedCredentials == fetched
      ensures !old(isInitialized) && (preWarmThrows || fetched.None?) ==>
        currentCredentials == old(currentCredentials) && flutterBridge.cachedCredentials == None
      ensures analyticsDelivered == old(analyticsDelivered) && callbacksDelivered == old(callbacksDelivered)
    {
      if isInitialized {
        return;
      }
      applicationContext := Some(context);
      config := Some(cfg);
      var bridge := new SdkBridge.FlutterBridge(cfg);
      flutterBridge := bridge;
      if !preWarmThrows {
        bridge.PreWarmEngine();
        isInitialized := true;
        var _ := RefreshCredentials(fetched);
      }
    }

    /** Without a configuration: `null`, nothing changes. Otherwise `fetched`
        is the outcome of `onRefreshCredentials`: on success the credentials
        become current, are handed to the bridge and are returned; on failure
        the result is `null` and nothing changes. */
    method RefreshCredentials(fetched: Option<Credentials>) returns (r: Option<Credentials>)
      requires Valid()
      modifies this`currentCredentials, flutterBridge
      ensures Valid()
      ensures config.None? ==> r.None? && currentCredentials == old(currentCredentials)
      ensures config.Some? && fetched.Some? ==>
        && r == fetched && currentCredentials == fetched
        && flutterBridge.cachedCredentials == fetched
        && flutterBridge.isEngineReady == old(flutterBridge.isEngineReady)
      ensures config.Some? && fetched.None? ==>
        r.None? && currentCredentials == old(currentCredentials) && unchanged(flutterBridge)
    {
      if config.None? {
        return None;
      }
      match fetched {
        case None =>
          r := None;
        case Some(credentials) =>
          currentCredentials := Some(credentials);
          flutterBridge.UpdateCredentials(credentials);
          r := Some(credentials);
      }
    }

    /** Before initialization no page is started; afterwards the started
        page's extras are `FullPageExtras(params)`. */
    method OpenFullPage(params: PageParams) returns (started: Option<Payload>)
      ensures started.None? <==> !isInitialized
      ensures started.Some? ==> started.value == FullPageExtras(params)
    {
      if !isInitialized {
        return None;
      }
      started := Some(FullPageExtras(params));
    }

    /** The dashboard is the page "/dashboard" with no parameters or title. */
    method OpenDashboard() returns (started: Option<Payload>)
      ensures started.None? <==> !isInitialized
      ensures started.Some? ==>
        && started.value == FullPageExtras(PageParams("/dashboard", map[], None))
        && started.value.Keys == {"mode", "text", "topicId"}
        && AsString(started.value, "mode") == Some("fullscreen")
        && AsString(started.value, "text") == Some("Fullscreen")
        && AsInt(started.value, "topicId") == Some(0)
    {
      started := OpenFullPage(PageParams("/dashboard", map[], None));
    }

    /** Delivered to the host only when a configuration with an analytics
        listener is held. */
    method HandleAnalyticsEvent(event: AnalyticsEvent)
      modifies this`analyticsDelivered
      ensures analyticsDelivered == old(analyticsDelivered) +
        (if config.Some? && config.value.hasAnalyticsListener then [event] else [])
    {
      if config.Some? && config.value.hasAnalyticsListener {
        analyticsDelivered := analyticsDelivered + [event];
      }
    }

    method HandleCallback(event: CallbackEvent)
      modifies this`callbacksDelivered
      ensures callbacksDelivered == old(callbacksDelivered) +
        (if config.Some? && config.value.hasCallbackListener then [event] else [])
    {
      if config.Some? && config.value.hasCallbackListener {
        callbacksDelivered := callbacksDelivered + [event];
      }
    }

    /** Destroys the bridge, if any, then drops it, the configuration and the
        context, and clears the flag and the credentials. */
    method Destroy()
      requires Valid()
      modifies this, flutterBridge
      ensures Valid()
      ensures flutterBridge == null && config == None && applicationContext == None
      ensures !isInitialized && currentCredentials == None
      ensures old(flutterBridge) != null ==>
        && !old(flutterBridge).isEngineReady && old(flutterBridge).cachedCredentials == None
        && old(flutterBridge).log == old(flutterBridge.log) + SdkBridge.Emitted(old(IsDebugMode()), SdkBridge.Destroyed, false)
      ensures analyticsDelivered == old(analyticsDelivered) && callbacksDelivered == old(callbacksDelivered)
    {
      if flutterBridge != null {
        flutterBridge.Destroy();
      }
      flutterBridge := null;
      config := None;
      applicationContext := None;
      isInitialized := false;
      currentCredentials := None;
    }
  }
}
