/** The plain data holders of `TradeableConfig.kt`. */
module Config {
  import opened Values

  datatype Credentials = Credentials(
    authorization: string,
    portalToken: string,
    appId: string,
    clientId: string,
    publicKey: string)

  /** `TradeableConfig`. The suspend callback `onRefreshCredentials` is
      represented by its outcome at each call (a parameter of the operations
      that call it); of the two optional listeners only their presence is
      kept, since what they do is the host application's business. */
  datatype TradeableConfig = TradeableConfig(
    baseUrl: string,
    hasAnalyticsListener: bool,
    hasCallbackListener: bool,
    debugMode: bool)

  datatype AnalyticsEvent = AnalyticsEvent(eventName: string, data: Option<Payload>)

  datatype CallbackEvent = CallbackEvent(action: string, route: Option<string>, parameters: Option<Payload>)

  datatype PageParams = PageParams(route: string, parameters: map<string, string>, title: Option<string>)
}
