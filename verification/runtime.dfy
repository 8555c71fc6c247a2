/**
 * The world the queue handlers act on: the strategy, instrument and broker
 * collections, and an ordered record of every strategy write and every order
 * sent to the brokerage. The brokerage's reply to an order is an oracle
 * indexed by the order's position in that record, so that a handler's effect
 * is a function of its inputs.
 */
module Runtime {
  import opened Wrappers
  import opened Models
  import opened Fyers
  import Seqs

  /** One externally visible step: a strategy write or an order sent on behalf of an account. */
  datatype Event =
    | RollOverCleared(strategyId: Id)
    | SymbolUpdated(strategyId: Id, instrumentId: Id)
    | OrderSent(appId: string, request: FyersRequest)

  /** The order events for a list of generic orders sent in turn by one adapter. */
  function OrderEvents(appId: string, reqs: seq<OrderRequest>): (r: seq<Event>)
    ensures |r| == |reqs|
    ensures forall i :: 0 <= i < |reqs| ==> r[i] == OrderSent(appId, MapToFyersRequest(reqs[i]))
  {
    seq(|reqs|, i requires 0 <= i < |reqs| => OrderSent(appId, MapToFyersRequest(reqs[i])))
  }

  lemma OrderEventsSnoc(appId: string, reqs: seq<OrderRequest>, i: nat)
    requires i < |reqs|
    ensures OrderEvents(appId, reqs[..i + 1]) == OrderEvents(appId, reqs[..i]) + [OrderSent(appId, MapToFyersRequest(reqs[i]))]
  {
  }

  /** What one write event does to the strategy collection; orders leave it alone. */
  function ApplyEvent(strategies: map<Id, Strategy>, e: Event): (r: map<Id, Strategy>)
    ensures r.Keys == strategies.Keys
  {
    match e
    case RollOverCleared(id) =>
      if id in strategies then strategies[id := strategies[id].(rollOverOn := None)] else strategies
    case SymbolUpdated(id, inst) =>
      if id in strategies then strategies[id := strategies[id].(symbol := inst)] else strategies
    case OrderSent(_, _) => strategies
  }

  function ApplyEvents(strategies: map<Id, Strategy>, es: seq<Event>): (r: map<Id, Strategy>)
    ensures r.Keys == strategies.Keys
    decreases |es|
  {
    if es == [] then strategies else ApplyEvents(ApplyEvent(strategies, es[0]), es[1..])
  }

  lemma {:induction false} ApplyEventsAppend(m: map<Id, Strategy>, a: seq<Event>, b: seq<Event>)
    ensures ApplyEvents(m, a + b) == ApplyEvents(ApplyEvents(m, a), b)
    decreases |a|
  {
    if a == [] {
      assert a + b == b;
    } else {
      assert (a + b)[0] == a[0] && (a + b)[1..] == a[1..] + b;
      ApplyEventsAppend(ApplyEvent(m, a[0]), a[1..], b);
    }
  }

  /** Orders never touch the strategy collection. */
  lemma {:induction false} ApplyOrderEvents(m: map<Id, Strategy>, appId: string, reqs: seq<OrderRequest>)
    ensures ApplyEvents(m, OrderEvents(appId, reqs)) == m
    decreases |reqs|
  {
    if reqs != [] {
      assert OrderEvents(appId, reqs)[1..] == OrderEvents(appId, reqs[1..]);
      ApplyOrderEvents(m, appId, reqs[1..]);
    }
  }

  /** `Instrument.findById`: the instrument with that id, if any. */
  function FindInstrument(instruments: seq<Instrument>, id: Id): (r: Option<Instrument>)
    ensures r.Some? ==> r.value in instruments && r.value.id == id
    ensures r.None? <==> forall i :: 0 <= i < |instruments| ==> instruments[i].id != id
  {
    Seqs.Find(instruments, (x: Instrument) => x.id == id)
  }

  /** `BrokerModel.findById`. */
  function FindBroker(brokers: seq<BrokerDoc>, id: Id): (r: Option<BrokerDoc>)
    ensures r.Some? ==> r.value in brokers && r.value.id == id
    ensures r.None? <==> forall i :: 0 <= i < |brokers| ==> brokers[i].id != id
  {
    Seqs.Find(brokers, (x: BrokerDoc) => x.id == id)
  }

  class Backend {
    var strategies: map<Id, Strategy>
    var instruments: seq<Instrument>
    var brokers: seq<BrokerDoc>
    var log: seq<Event>
    /** The brokerage's reply to the order sent as the n-th event of the log. */
    const replyTo: (nat, FyersRequest) -> WireReply

    constructor (strategies: map<Id, Strategy>, instruments: seq<Instrument>, brokers: seq<BrokerDoc>,
                 replyTo: (nat, FyersRequest) -> WireReply)
      ensures this.strategies == strategies && this.instruments == instruments && this.brokers == brokers
      ensures this.replyTo == replyTo && log == []
    {
      this.strategies := strategies;
      this.instruments := instruments;
      this.brokers := brokers;
      this.replyTo := replyTo;
      log := [];
    }

    /** `broker.placeOrder(request)`: sends the wire record and maps the reply; never throws. */
    method PlaceOrder(b: FyersBroker, req: OrderRequest) returns (resp: OrderResponse)
      modifies this`log
      ensures log == old(log) + [OrderSent(b.appId, MapToFyersRequest(req))]
      ensures resp == PlaceOrderResponse(replyTo(|old(log)|, MapToFyersRequest(req)))
    {
      var wire := MapToFyersRequest(req);
      resp := PlaceOrderResponse(replyTo(|log|, wire));
      log := log + [OrderSent(b.appId, wire)];
    }

    /** `Strategy.findByIdAndUpdate(id, { rollOverOn: null })`. */
    method ClearRollOver(id: Id)
      modifies this`strategies, this`log
      ensures log == old(log) + [RollOverCleared(id)]
      ensures strategies == ApplyEvent(old(strategies), RollOverCleared(id))
    {
      strategies := ApplyEvent(strategies, RollOverCleared(id));
      log := log + [RollOverCleared(id)];
    }

    /** Points a strategy at another instrument. */
    method UpdateSymbol(id: Id, instrumentId: Id)
      modifies this`strategies, this`log
      ensures log == old(log) + [SymbolUpdated(id, instrumentId)]
      ensures strategies == ApplyEvent(old(strategies), SymbolUpdated(id, instrumentId))
    {
      strategies := ApplyEvent(strategies, SymbolUpdated(id, instrumentId));
      log := log + [SymbolUpdated(id, instrumentId)];
    }
  }
}
