/** `bridge.FlutterBridge`: the mock bridge the SDK facade drives. It keeps a
    ready flag and the last credentials, and logs what it would do. */
module SdkBridge {
  import opened Values
  import opened Config
  import MessageCodec

  datatype Level = Debug | Error

  /** The messages the bridge logs (their interpolated text is not modelled). */
  datatype Message =
    | PreWarming
    | PreWarmed
    | CredentialsCached
    | CredentialsUpdated
    | NavigateRejected
    | Navigating(route: string, parameters: map<string, string>)
    | Destroyed

  datatype LogLine = LogLine(level: Level, message: Message)

  /** What `log(message, error)` writes: a line only in debug mode or for an
      error, at error level exactly when it is one. */
  function Emitted(debugMode: bool, message: Message, error: bool): (r: seq<LogLine>)
    ensures r != [] <==> debugMode || error
    ensures r != [] ==> r == [LogLine(if error then Error else Debug, message)]
  {
    if debugMode || error then [LogLine(if error then Error else Debug, message)] else []
  }

  /** Reads credentials back out of their five-key map. */
  function CredentialsOf(data: Payload): (r: Option<Credentials>)
  {
    match (AsString(data, "authorization"), AsString(data, "portalToken"), AsString(data, "appId"),
           AsString(data, "clientId"), AsString(data, "publicKey"))
    case (Some(a), Some(p), Some(i), Some(c), Some(k)) => Some(Credentials(a, p, i, c, k))
    case _ => None
  }

  /** The five-key map of `getInitData`, copied field by field. */
  function CredentialsPayload(c: Credentials): (r: Payload)
    ensures r.Keys == {"authorization", "portalToken", "appId", "clientId", "publicKey"}
    ensures CredentialsOf(r) == Some(c)
  {
    map["authorization" := Str(c.authorization), "portalToken" := Str(c.portalToken), "appId" := Str(c.appId),
        "clientId" := Str(c.clientId), "publicKey" := Str(c.publicKey)]
  }

  class FlutterBridge {
    const config: TradeableConfig
    var isEngineReady: bool
    var cachedCredentials: Option<Credentials>
    var log: seq<LogLine>

    // `log` consults `TradeableSDK.isDebugMode()`; while this bridge is the
    // SDK's bridge that is `config.debugMode` (see TradeableSdk.Valid).
    function DebugMode(): (r: bool)
    {
      config.debugMode
    }

    constructor (config: TradeableConfig)
      ensures this.config == config
      ensures !isEngineReady && cachedCredentials == None && log == []
    {
      this.config := config;
      isEngineReady := false;
      cachedCredentials := None;
      log := [];
    }

    method Log(message: Message, error: bool := false)
      modifies this`log
      ensures log == old(log) + Emitted(DebugMode(), message, error)
    {
      if DebugMode() || error {
        log := log + [LogLine(if error then Error else Debug, message)];
      }
    }

    /** Simulated warm-up: afterwards the bridge is ready. */
    method PreWarmEngine()
      modifies this`isEngineReady, this`log
      ensures IsReady()
      ensures log == old(log) + Emitted(DebugMode(), PreWarming, false) + Emitted(DebugMode(), PreWarmed, false)
    {
      Log(PreWarming);
      isEngineReady := true;
      Log(PreWarmed);
    }

    /** Stores the credentials whether or not the engine is ready. */
    method UpdateCredentials(credentials: Credentials)
      modifies this`cachedCredentials, this`log
      ensures cachedCredentials == Some(credentials)
      ensures log == old(log) + Emitted(DebugMode(), if isEngineReady then CredentialsUpdated else CredentialsCached, false)
    {
      cachedCredentials := Some(credentials);
      if !isEngineReady {
        Log(CredentialsCached);
        return;
      }
      Log(CredentialsUpdated);
    }

    /** Before the engine is ready this only logs an error. */
    method NavigateTo(route: string, parameters: map<string, string>)
      modifies this`log
      ensures !isEngineReady ==> log == old(log) + [LogLine(Error, NavigateRejected)]
      ensures isEngineReady ==> log == old(log) + Emitted(DebugMode(), Navigating(route, parameters), false)
    {
      if !isEngineReady {
        Log(NavigateRejected, error := true);
        return;
      }
      Log(Navigating(route, parameters));
    }

    /** Exactly the keys baseUrl and credentials; credentials is `null` when
        nothing is cached and otherwise the five-key copy of the cache. */
    function GetInitData(): (r: Payload)
      reads this
      ensures r.Keys == {"baseUrl", "credentials"}
      ensures AsString(r, "baseUrl") == Some(config.baseUrl)
      ensures cachedCredentials.None? <==> r["credentials"] == Null
      ensures cachedCredentials.Some? ==>
        r["credentials"].KMap? && CredentialsOf(r["credentials"].m) == cachedCredentials
      ensures cachedCredentials.Some? ==> r["credentials"] == KMap(CredentialsPayload(cachedCredentials.value))
    {
      map["baseUrl" := Str(config.baseUrl),
          "credentials" := match cachedCredentials
                           case None => Null
                           case Some(c) => KMap(CredentialsPayload(c))]
    }

    /** `getInitDataJson`: the JSON object whose text is sent; it decodes back
        to `getInitData()`. */
    function GetInitDataJson(): (r: Payload)
      reads this
      ensures r.Keys == {"baseUrl", "credentials"}
      ensures MessageCodec.Decode(r) == GetInitData()
    {
      var data := GetInitData();
      assert MessageCodec.IsPlain(data["credentials"]);
      MessageCodec.DecodeInvertsEncode(data);
      MessageCodec.Encode(data)
    }

    /** `isReady()`. */
    function IsReady(): (r: bool)
      reads this
      ensures r <==> isEngineReady
    {
      isEngineReady
    }

    /** Not ready and nothing cached, so later init data has `null` credentials. */
    method Destroy()
      modifies this`isEngineReady, this`cachedCredentials, this`log
      ensures !IsReady() && cachedCredentials == None
      ensures GetInitData()["credentials"] == Null
      ensures log == old(log) + Emitted(DebugMode(), Destroyed, false)
    {
      isEngineReady := false;
      cachedCredentials := None;
      Log(Destroyed);
    }
  }
}
