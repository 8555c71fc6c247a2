/**
 * The Fyers brokerage adapter: its construction from a client id and an
 * access token, the translation of a generic order into the brokerage's wire
 * record, and the translation of the brokerage's replies (to an order, an
 * order-book request and a token refresh) into the backend's own results.
 * The HTTP exchange itself is not modelled: each operation receives the reply
 * the brokerage gave.
 */
module Fyers {
  import opened Wrappers
  import Text
  import opened Models

  // ---------------------------------------------------------------------------
  // The adapter

  /** An adapter bound to one account; all of its fields are fixed at construction. */
  datatype FyersBroker = FyersBroker(appId: string, accessToken: string, authToken: string)

  const MissingCredentials: string := "App ID and Access Token are required"

  /** The constructor: refuses an empty app id or token, and derives the `Authorization` header value. */
  function NewFyersBroker(appId: string, accessToken: string): (r: Result<FyersBroker>)
    ensures r.Err? <==> appId == "" || accessToken == ""
    ensures r.Err? ==> r.error == MissingCredentials
    ensures r.Ok? ==> r.value.appId == appId && r.value.accessToken == accessToken
    ensures r.Ok? ==> r.value.authToken == appId + ":" + accessToken
  {
    if appId == "" || accessToken == "" then Err(MissingCredentials)
    else Ok(FyersBroker(appId, accessToken, appId + ":" + accessToken))
  }

  /** The part of an authorization value before its last colon. */
  function BeforeLastColon(s: string): (r: Option<string>)
    ensures r.Some? ==> |r.value| < |s| && s[|r.value|] == ':' && r.value == s[..|r.value|]
    ensures r.Some? ==> forall i :: |r.value| < i < |s| ==> s[i] != ':'
    decreases |s|
  {
    if s == [] then None
    else if s[|s| - 1] == ':' then Some(s[..|s| - 1])
    else BeforeLastColon(s[..|s| - 1])
  }

  /**
   * When the token has no colon (Fyers tokens are JWTs, which have none), the
   * authorization value splits back into app id and token.
   */
  lemma {:induction false} AuthTokenSplits(appId: string, token: string)
    requires forall i :: 0 <= i < |token| ==> token[i] != ':'
    ensures BeforeLastColon(appId + ":" + token) == Some(appId)
    decreases |token|
  {
    var s := appId + ":" + token;
    if token != [] {
      assert s[..|s| - 1] == appId + ":" + token[..|token| - 1];
      AuthTokenSplits(appId, token[..|token| - 1]);
    } else {
      assert s[..|s| - 1] == appId;
    }
  }

  // ---------------------------------------------------------------------------
  // Orders

  /**
   * A generic order as the callers build it. The trade path sets only symbol,
   * quantity and side; the rollover path also sets a product type and a tag.
   */
  datatype OrderRequest = OrderRequest(
    symbol: string,
    qty: int,
    side: string,
    productType: Option<string>,
    orderTag: Option<string>,
    limitPrice: Option<int>,
    stopPrice: Option<int>,
    validity: Option<string>)

  /** The record posted to the brokerage's order endpoint. */
  datatype FyersRequest = FyersRequest(
    symbol: string,
    qty: int,
    orderType: int,
    side: int,
    productType: string,
    limitPrice: int,
    stopPrice: int,
    validity: string,
    disclosedQty: int,
    offlineOrder: bool,
    stopLoss: int,
    takeProfit: int,
    orderTag: string)

  const MarketOrder: int := 2
  const BuySide: int := 1
  const SellSide: int := -1

  /** `mapToFyersRequest`: a market order whose absent or empty optional fields take fixed defaults. */
  function MapToFyersRequest(req: OrderRequest): (r: FyersRequest)
    ensures r.symbol == req.symbol && r.qty == req.qty
    ensures r.orderType == MarketOrder
    ensures r.side == (if req.side == "buy" then BuySide else SellSide)
    ensures r.productType == OrElse(req.productType, "INTRADAY")
    ensures r.orderTag == OrElse(req.orderTag, "algo_trade")
    ensures r.validity == OrElse(req.validity, "DAY")
    ensures r.limitPrice == req.limitPrice.GetOr(0) && r.stopPrice == req.stopPrice.GetOr(0)
    ensures r.disclosedQty == 0 && !r.offlineOrder && r.stopLoss == 0 && r.takeProfit == 0
  {
    FyersRequest(
      req.symbol, req.qty, MarketOrder,
      if req.side == "buy" then BuySide else SellSide,
      OrElse(req.productType, "INTRADAY"),
      req.limitPrice.GetOr(0), req.stopPrice.GetOr(0),
      OrElse(req.validity, "DAY"),
      0, false, 0, 0,
      OrElse(req.orderTag, "algo_trade"))
  }

  /** Only the exact lower-case word `buy` gives a buy; `BUY`, `Buy` and anything else give a sell. */
  lemma SideIsCaseSensitive(req: OrderRequest)
    ensures MapToFyersRequest(req).side == BuySide <==> req.side == "buy"
    ensures req.side == "BUY" ==> MapToFyersRequest(req).side == SellSide
  {
  }

  // ---------------------------------------------------------------------------
  // Replies

  /** An entry of the brokerage's order book; status 2 marks an open order. */
  datatype BookOrder = BookOrder(symbol: string, status: int, orderId: string, qty: int)

  /**
   * What one call to the brokerage produced: a reply body, or a transport
   * failure carrying the reply's `message` (when there was a reply) and the
   * error's own message.
   */
  datatype WireReply =
    | Reply(s: string, code: int, message: string, id: Option<string>, orderBook: Option<seq<BookOrder>>)
    | TransportError(responseMessage: Option<string>, errorMessage: string)

  /** `OrderResponse`. */
  datatype OrderResponse = OrderResponse(success: bool, orderId: Option<string>, message: string, error: Option<string>)

  /** The response `placeOrder` gives for a reply; it never throws. */
  function PlaceOrderResponse(w: WireReply): (r: OrderResponse)
    ensures r.success <==> w.Reply? && w.s == "ok"
    ensures r.success ==> r.orderId == w.id && r.message == w.message && r.error == None
    ensures w.Reply? && w.s != "ok" ==>
      r.message == w.message && r.error == Some("Order failed with code: " + Text.IntToString(w.code))
    ensures w.TransportError? ==>
      r.message == "Order placement failed" && r.error == Some(OrElse(w.responseMessage, w.errorMessage))
  {
    match w
    case Reply(s, code, message, id, _) =>
      if s == "ok" then OrderResponse(true, id, message, None)
      else OrderResponse(false, None, message, Some("Order failed with code: " + Text.IntToString(code)))
    case TransportError(responseMessage, errorMessage) =>
      OrderResponse(false, None, "Order placement failed", Some(OrElse(responseMessage, errorMessage)))
  }

  /** Every failed order carries an error and every successful one carries none. */
  lemma PlaceOrderErrorIffFailed(w: WireReply)
    ensures PlaceOrderResponse(w).error.None? <==> PlaceOrderResponse(w).success
  {
  }

  /** The code a failed order reports can be read back out of its error text. */
  lemma FailedOrderCodeReadable(w: WireReply)
    requires w.Reply? && w.s != "ok"
    ensures var e := PlaceOrderResponse(w).error.value;
      |e| > 24 && e[..24] == "Order failed with code: " && Text.ParseInt(e[24..]) == Some(w.code)
  {
    var e := PlaceOrderResponse(w).error.value;
    assert e[24..] == Text.IntToString(w.code);
    Text.IntToStringRoundTrip(w.code);
  }

  /** The order-book body `getOrderBook` returns. */
  datatype OrderBookResponse = OrderBookResponse(s: string, code: int, message: string, orderBook: Option<seq<BookOrder>>)

  /** `getOrderBook`: an ok body passes through; a non-ok body becomes an `error` body with an empty book; a transport failure throws. */
  function GetOrderBook(w: WireReply): (r: Result<OrderBookResponse>)
    ensures r.Err? <==> w.TransportError?
    ensures w.Reply? && w.s == "ok" ==> r == Ok(OrderBookResponse(w.s, w.code, w.message, w.orderBook))
    ensures w.Reply? && w.s != "ok" ==>
      r.value.s == "error" && r.value.message == w.message && r.value.orderBook == Some([])
      && r.value.code == (if w.code == 0 then 400 else w.code)
    ensures w.TransportError? ==> r.error == "Failed to fetch orders: " + OrElse(w.responseMessage, w.errorMessage)
  {
    match w
    case Reply(s, code, message, _, book) =>
      if s == "ok" then Ok(OrderBookResponse(s, code, message, book))
      else Ok(OrderBookResponse("error", if code == 0 then 400 else code, message, Some([])))
    case TransportError(responseMessage, errorMessage) =>
      Err("Failed to fetch orders: " + OrElse(responseMessage, errorMessage))
  }

  /** A non-ok reply is never reported as ok, and never carries orders. */
  lemma GetOrderBookNeverLaundersFailure(w: WireReply)
    requires w.Reply? && w.s != "ok"
    ensures GetOrderBook(w).Ok? && GetOrderBook(w).value.s != "ok"
    ensures GetOrderBook(w).value.code != 0
    ensures GetOrderBook(w).value.orderBook == Some([])
  {
  }

  /** The reply to a token refresh: the body's `access_token`, or a transport failure. */
  datatype TokenReply = TokenBody(accessToken: Option<string>) | TokenTransportError(message: string)

  /** `getNewToken`: the new token, or an error naming the account when the body has none. */
  function GetNewToken(b: FyersBroker, w: TokenReply): (r: Result<string>)
    ensures r.Ok? <==> w.TokenBody? && w.accessToken.Some? && w.accessToken.value != ""
    ensures r.Ok? ==> r.value == w.accessToken.value
    ensures w.TokenBody? && r.Err? ==> r.error == "Failed to refresh token for appId: " + b.appId
  {
    match w
    case TokenBody(t) =>
      if t.Some? && t.value != "" then Ok(t.value) else Err("Failed to refresh token for appId: " + b.appId)
    case TokenTransportError(message) => Err(message)
  }
}
