/**
  What both bot versions share about the exchange: the two websocket
  endpoints, Python truthiness of optional strings, the HTTP session the
  constructor builds, and the credential guard in front of order placement.
 */
module Exchange {
  import opened Wrappers

  const TestnetUrl: string := "wss://stream-testnet.bybit.com/v5/public/linear"
  const MainnetUrl: string := "wss://stream.bybit.com/v5/public/linear"

  /** Python truthiness of a `str` or `None`: present and non-empty. */
  predicate Truthy(o: Option<string>)
  {
    o.Some? && o.value != ""
  }

  /** The websocket URL chosen by the effective testnet flag. */
  function Endpoint(testnet: bool): (url: string)
    ensures url == TestnetUrl <==> testnet
    ensures url == MainnetUrl <==> !testnet
  {
    if testnet then TestnetUrl else MainnetUrl
  }

  /** The `pybit` HTTP session the constructor builds (its behaviour is foreign). */
  datatype HttpSession =
    | Authenticated(testnet: bool, key: string, secret: string)
    | Public(testnet: bool)

  /** A constructed bot: its credentials, testnet flag, endpoint and HTTP session. */
  datatype Config = Config(
    apiKey: Option<string>,
    apiSecret: Option<string>,
    testnet: bool,
    wsUrl: string,
    http: HttpSession)

  /**
    The constructor once key, secret and flag are resolved: the endpoint
    follows the flag, and the session carries credentials exactly when both
    are truthy.
   */
  function MakeConfig(apiKey: Option<string>, apiSecret: Option<string>, testnet: bool): (c: Config)
    ensures c.apiKey == apiKey && c.apiSecret == apiSecret && c.testnet == testnet
    ensures c.wsUrl == TestnetUrl <==> testnet
    ensures c.http.testnet == testnet
    ensures c.http.Authenticated? <==> Truthy(apiKey) && Truthy(apiSecret)
    ensures c.http.Authenticated? ==> c.http.key == apiKey.value && c.http.secret == apiSecret.value
  {
    var http :=
      if Truthy(apiKey) && Truthy(apiSecret) then Authenticated(testnet, apiKey.value, apiSecret.value)
      else Public(testnet);
    Config(apiKey, apiSecret, testnet, Endpoint(testnet), http)
  }

  /** The arguments of `place_order`. */
  datatype OrderRequest = OrderRequest(symbol: string, side: string, orderType: string, qty: string)

  /** `place_order()` with every argument defaulted. */
  const DefaultOrder: OrderRequest := OrderRequest("BTCUSDT", "Buy", "Market", "0.001")

  /** The call handed to the HTTP session's own `place_order`. */
  datatype OrderCall = OrderCall(category: string, symbol: string, side: string, orderType: string, qty: string)

  /**
    What `place_order` does before the foreign call: either it refuses
    (prints that credentials are required and returns None, never touching
    the session) or it hands one call to the session.
   */
  datatype OrderAttempt = Refused | Sent(session: HttpSession, call: OrderCall)

  /** The credential guard of `place_order`. */
  function PlaceOrder(c: Config, req: OrderRequest): (a: OrderAttempt)
    ensures a.Refused? <==> !Truthy(c.apiKey) || !Truthy(c.apiSecret)
    ensures a.Sent? ==> a.session == c.http
    ensures a.Sent? ==> a.call == OrderCall("linear", req.symbol, req.side, req.orderType, req.qty)
  {
    if !Truthy(c.apiKey) || !Truthy(c.apiSecret) then Refused
    else Sent(c.http, OrderCall("linear", req.symbol, req.side, req.orderType, req.qty))
  }

  /**
    The guard and the constructor agree: an order is only ever sent through a
    session that was built with the bot's credentials.
   */
  lemma SentOnlyWhenAuthenticated(apiKey: Option<string>, apiSecret: Option<string>, testnet: bool, req: OrderRequest)
    ensures PlaceOrder(MakeConfig(apiKey, apiSecret, testnet), req).Sent?
        <==> MakeConfig(apiKey, apiSecret, testnet).http.Authenticated?
  {
  }
}
