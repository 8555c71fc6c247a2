/**
 * The trading-signal webhook: the body is checked in a fixed order and the
 * reply is 400 with the first error or 200 echoing the normalised signal.
 * The handler only validates; it enqueues nothing.
 */
module WebhookController {
  import opened Wrappers
  import opened Models
  import opened JsValues
  import Text

  datatype WebhookBody = WebhookBody(strategyId: JsValue, qty: JsValue, side: JsValue)

  /** The signal a valid body denotes, with the quantity converted to a number. */
  datatype WebhookRequest = WebhookRequest(strategyId: string, qty: int, side: string)

  datatype WebhookCheck = Invalid(error: string) | Valid(data: WebhookRequest)

  /** The reply: a status code and either the error or the echoed signal. */
  datatype WebhookReply = WebhookReply(status: int, error: Option<string>, data: Option<WebhookRequest>)

  const MissingFields: string := "Missing required fields. 'strategyId', 'qty', and 'side' are required."
  const InvalidStrategyId: string := "Invalid strategyId. Must be a valid MongoDB ObjectId."
  const StrategyNotFound: string := "Strategy not found"
  const BadQuantity: string := "Quantity must be a positive integer"
  const BadSide: string := "Side must be either 'buy' or 'sell'"

  /** `["buy", "sell"].includes(side)`: strict equality, so case matters. */
  predicate IsSide(v: JsValue) {
    v == Str("buy") || v == Str("sell")
  }

  /** `validateWebhookRequest`. */
  function ValidateWebhook(body: WebhookBody, strategies: map<Id, Strategy>): (r: WebhookCheck)
    ensures r.Valid? <==>
      IsObjectIdValue(body.strategyId) && ObjectIdOf(body.strategyId.s) in strategies
      && ToInteger(body.qty).Some? && ToInteger(body.qty).value > 0
      && Truthy(body.qty) && IsSide(body.side)
    ensures r.Valid? ==> r.data == WebhookRequest(body.strategyId.s, ToInteger(body.qty).value, body.side.s)
    ensures r.Valid? ==> r.data.qty > 0 && (r.data.side == "buy" || r.data.side == "sell")
  {
    if !Truthy(body.strategyId) || !Truthy(body.qty) || !Truthy(body.side) then Invalid(MissingFields)
    else if !IsObjectIdValue(body.strategyId) then Invalid(InvalidStrategyId)
    else if ObjectIdOf(body.strategyId.s) !in strategies then Invalid(StrategyNotFound)
    else match ToInteger(body.qty)
      case None => Invalid(BadQuantity)
      case Some(q) =>
        if q <= 0 then Invalid(BadQuantity)
        else if !IsSide(body.side) then Invalid(BadSide)
        else Valid(WebhookRequest(body.strategyId.s, q, body.side.s))
  }

  /** `webhookController`: 400 with the error, or 200 with the signal. */
  function WebhookControllerReply(body: WebhookBody, strategies: map<Id, Strategy>): (r: WebhookReply)
    ensures r.status == 200 || r.status == 400
    ensures r.status == 200 <==> ValidateWebhook(body, strategies).Valid?
    ensures r.status == 400 ==> r.error == Some(ValidateWebhook(body, strategies).error) && r.data.None?
    ensures r.status == 200 ==> r.data == Some(ValidateWebhook(body, strategies).data) && r.error.None?
  {
    match ValidateWebhook(body, strategies)
    case Invalid(e) => WebhookReply(400, Some(e), None)
    case Valid(d) => WebhookReply(200, None, Some(d))
  }

  // ---------------------------------------------------------------------------
  // Properties

  /** A quantity of zero, numeric or the empty string, is reported as a missing field; the text "0" is not. */
  lemma ZeroQuantityIsMissing(strategyId: JsValue, side: JsValue, strategies: map<Id, Strategy>)
    requires Truthy(strategyId) && Truthy(side)
    ensures ValidateWebhook(WebhookBody(strategyId, Num(0), side), strategies) == Invalid(MissingFields)
    ensures ValidateWebhook(WebhookBody(strategyId, Str(""), side), strategies) == Invalid(MissingFields)
    ensures IsObjectIdValue(strategyId) && ObjectIdOf(strategyId.s) in strategies ==>
      ValidateWebhook(WebhookBody(strategyId, Str("0"), side), strategies) == Invalid(BadQuantity)
  {
    assert ToInteger(Str("0")) == Some(0) by {
      ToIntegerOfDecimal(0);
      assert Text.IntToString(0) == [Text.DigitChar(0)] == "0";
    }
  }

  /** An unknown strategy is reported before any problem with the quantity or the side. */
  lemma StrategyCheckedFirst(body: WebhookBody, strategies: map<Id, Strategy>)
    requires Truthy(body.qty) && Truthy(body.side)
    requires IsObjectIdValue(body.strategyId) && ObjectIdOf(body.strategyId.s) !in strategies
    ensures ValidateWebhook(body, strategies) == Invalid(StrategyNotFound)
  {
  }

  /** Sides are compared exactly: upper-case `BUY` is refused even when everything else is valid. */
  lemma SideIsExact(strategyId: string, qty: int, strategies: map<Id, Strategy>)
    requires IsObjectIdText(strategyId) && ObjectIdOf(strategyId) in strategies && qty > 0
    ensures ValidateWebhook(WebhookBody(Str(strategyId), Num(qty), Str("BUY")), strategies) == Invalid(BadSide)
    ensures ValidateWebhook(WebhookBody(Str(strategyId), Num(qty), Str("buy")), strategies) ==
      Valid(WebhookRequest(strategyId, qty, "buy"))
  {
  }

  /** A quantity sent as decimal text is accepted as the number it spells, when positive. */
  lemma DecimalQuantityAccepted(strategyId: string, qty: int, side: string, strategies: map<Id, Strategy>)
    requires IsObjectIdText(strategyId) && ObjectIdOf(strategyId) in strategies && qty > 0
    requires side == "buy" || side == "sell"
    ensures ValidateWebhook(WebhookBody(Str(strategyId), Str(Text.IntToString(qty)), Str(side)), strategies) ==
      Valid(WebhookRequest(strategyId, qty, side))
  {
    ToIntegerOfDecimal(qty);
  }
}
