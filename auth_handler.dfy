/** `AuthHandler`: the last authentication data handed over, and whether TFS
    initialisation was requested. */
module AuthHandlers {
  import opened Values

  /** The six arguments of `initializeTFS` / `handleInitializeTFS`. */
  datatype TfsParams = TfsParams(
    baseUrl: string,
    authToken: string,
    portalToken: string,
    appId: string,
    clientId: string,
    publicKey: string)

  /** Reads the six string entries back; `None` if one is missing or not a string. */
  function TfsParamsOf(data: Payload): (r: Option<TfsParams>)
  {
    match (AsString(data, "baseUrl"), AsString(data, "authToken"), AsString(data, "portalToken"),
           AsString(data, "appId"), AsString(data, "clientId"), AsString(data, "publicKey"))
    case (Some(b), Some(a), Some(p), Some(i), Some(c), Some(k)) => Some(TfsParams(b, a, p, i, c, k))
    case _ => None
  }

  /** The map both the auth handler stores and the bridge sends on the auth
      channel: exactly the six credential keys, each holding its argument. */
  function TfsAuthData(p: TfsParams): (r: Payload)
    ensures r.Keys == {"baseUrl", "authToken", "portalToken", "appId", "clientId", "publicKey"}
    ensures forall k :: k in r ==> r[k].Str?
    ensures TfsParamsOf(r) == Some(p)
  {
    map["baseUrl" := Str(p.baseUrl), "authToken" := Str(p.authToken), "portalToken" := Str(p.portalToken),
        "appId" := Str(p.appId), "clientId" := Str(p.clientId), "publicKey" := Str(p.publicKey)]
  }

  class AuthHandler {
    var authState: Payload
    var isInitialized: bool

    constructor ()
      ensures authState == map[] && !isInitialized
    {
      authState := map[];
      isInitialized := false;
    }

    /** Only logs; the channel hookup is not written yet. */
    method Initialize()
      ensures unchanged(this)
    {
    }

    method HandleInitializeTFS(p: TfsParams)
      modifies this
      ensures authState == TfsAuthData(p)
      ensures isInitialized
    {
      authState := TfsAuthData(p);
      isInitialized := true;
    }

    /** Replaces the state wholesale; the flag is untouched, so once true it stays true. */
    method UpdateAuthState(data: Payload)
      modifies this
      ensures authState == data
      ensures isInitialized == old(isInitialized)
    {
      authState := data;
    }
  }
}
