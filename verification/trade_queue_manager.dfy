/**
 * The trade queue's worker: for a trade signal it loads the strategy, the
 * instrument the strategy trades and the strategy's brokerage adapter, and
 * places one market order. Every failure is caught and handed to
 * `job.moveToFailed` with the strategy id where BullMQ expects the worker's
 * lock token; the reason is recorded only if the two coincide, and otherwise
 * that call's lock-mismatch error escapes the handler.
 */
module TradeQueueManager {
  import opened Wrappers
  import opened Models
  import opened Fyers
  import opened Runtime
  import opened JobQueue
  import opened BrokerResolution
  import Text

  const QueueName: string := "trade-queue"
  const JobName: string := "trade"
  const TradePriority: int := 1
  const OrderPlacementFailed: string := "Order placement failed"

  /**
   * Steps 1 to 3 of `processJob`: the adapter to use and the order to place,
   * or the message of the error thrown on the way.
   */
  function PrepareOrder(strategies: map<Id, Strategy>, instruments: seq<Instrument>, brokers: seq<BrokerDoc>,
                        strategyId: string, qty: int, side: string): (r: Result<(FyersBroker, OrderRequest)>)
    ensures r.Ok? <==>
      IsObjectIdText(strategyId) && ObjectIdOf(strategyId) in strategies
      && FindInstrument(instruments, strategies[ObjectIdOf(strategyId)].symbol).Some?
      && GetBrokerInstance(strategies, brokers, strategies[ObjectIdOf(strategyId)].id).Some?
    ensures r.Ok? ==>
      var s := strategies[ObjectIdOf(strategyId)];
      && r.value.0 == GetBrokerInstance(strategies, brokers, s.id).value
      && r.value.1 == OrderRequest(FindInstrument(instruments, s.symbol).value.fyersSymbol, qty, side, None, None, None, None, None)
    ensures !IsObjectIdText(strategyId) ==> r == Err(CastFailed)
    ensures IsObjectIdText(strategyId) && ObjectIdOf(strategyId) !in strategies ==>
      r == Err("Strategy not found: " + strategyId)
    ensures IsObjectIdText(strategyId) && ObjectIdOf(strategyId) in strategies
            && FindInstrument(instruments, strategies[ObjectIdOf(strategyId)].symbol).None? ==>
      r == Err("Symbol not found: " + strategies[ObjectIdOf(strategyId)].symbol)
    ensures IsObjectIdText(strategyId) && ObjectIdOf(strategyId) in strategies
            && FindInstrument(instruments, strategies[ObjectIdOf(strategyId)].symbol).Some?
            && GetBrokerInstance(strategies, brokers, strategies[ObjectIdOf(strategyId)].id).None? ==>
      r == Err("Failed to initialize broker instance for strategy: " + strategyId)
  {
    match FindStrategy(strategies, strategyId)
    case Err(e) => Err(e)
    case Ok(None) => Err("Strategy not found: " + strategyId)
    case Ok(Some(strategy)) =>
      match FindInstrument(instruments, strategy.symbol)
      case None => Err("Symbol not found: " + strategy.symbol)
      case Some(symbol) =>
        match GetBrokerInstance(strategies, brokers, strategy.id)
        case None => Err("Failed to initialize broker instance for strategy: " + strategyId)
        case Some(broker) => Ok((broker, OrderRequest(symbol.fyersSymbol, qty, side, None, None, None, None, None)))
  }

  /** The failure reason an order response leads to: none for a success, else its error or a fixed fallback. */
  function OrderFailure(resp: OrderResponse): (r: Option<string>)
    ensures r.None? <==> resp.success
    ensures r.Some? ==> r.value != ""
  {
    if resp.success then None else Some(OrElse(resp.error, OrderPlacementFailed))
  }

  class TradeQueueManager {
    const queue: Queue

    /** The manager's queue is the trade queue, with its defaults. */
    ghost predicate Valid()
      reads this, queue
    {
      queue.Valid() && queue.name == QueueName && queue.defaults == TradeQueueDefaults
    }

    constructor ()
      ensures fresh(queue) && Valid() && queue.jobs == []
    {
      queue := new Queue(QueueName, TradeQueueDefaults);
    }

    /**
     * `processJob`: at most one order; an error goes to `moveToFailed` with the
     * strategy id as the token, and `thrown` is the error escaping the handler.
     */
    method ProcessJob(job: Job, backend: Backend) returns (thrown: Option<string>)
      requires job.data.TradeData?
      modifies backend`log, job`progress, job`failedReason
      ensures var d := job.data;
        match PrepareOrder(old(backend.strategies), old(backend.instruments), old(backend.brokers), d.strategyId, d.qty, d.side)
        case Err(e) =>
          && backend.log == old(backend.log) && job.progress == old(job.progress)
          && (job.failedReason, thrown) == MoveToFailedEffect(e, d.strategyId, job.lockToken, old(job.failedReason))
        case Ok((broker, req)) =>
          var failure := OrderFailure(PlaceOrderResponse(backend.replyTo(|old(backend.log)|, MapToFyersRequest(req))));
          && backend.log == old(backend.log) + [OrderSent(broker.appId, MapToFyersRequest(req))]
          && (failure.Some? ==>
                job.progress == old(job.progress)
                && (job.failedReason, thrown) == MoveToFailedEffect(failure.value, d.strategyId, job.lockToken, old(job.failedReason)))
          && (failure.None? ==> job.failedReason == old(job.failedReason) && job.progress == 100 && thrown == None)
    {
      var d := job.data;
      var prepared := PrepareOrder(backend.strategies, backend.instruments, backend.brokers, d.strategyId, d.qty, d.side);
      if prepared.Err? {
        thrown := job.MoveToFailed(prepared.error, d.strategyId);
        return;
      }
      var (broker, req) := prepared.value;
      var orderResponse := backend.PlaceOrder(broker, req);
      if !orderResponse.success {
        thrown := job.MoveToFailed(OrElse(orderResponse.error, OrderPlacementFailed), d.strategyId);
        return;
      }
      job.UpdateProgress(100);
      thrown := None;
    }

    /** `addTradeJob`: the caller's options with priority 1. */
    method AddTradeJob(data: JobData, options: JobOptions) returns (id: nat)
      requires Valid()
      modifies queue
      ensures Valid()
      ensures queue.jobs == old(queue.jobs) + [QueuedJob(id, JobName, data, Merge(WithPriority(options, TradePriority), TradeQueueDefaults))]
    {
      id := queue.Add(JobName, data, WithPriority(options, TradePriority));
    }
  }

  /** `getInstance`: the manager is created once and shared. */
  class Instances {
    var instance: TradeQueueManager?

    constructor ()
      ensures instance == null
    {
      instance := null;
    }

    method GetInstance() returns (m: TradeQueueManager)
      modifies this
      ensures old(instance) != null ==> m == old(instance)
      ensures old(instance) == null ==> fresh(m) && fresh(m.queue) && m.queue.jobs == [] && m.Valid()
      ensures instance == m
    {
      if instance == null {
        instance := new TradeQueueManager();
      }
      m := instance;
    }
  }

  // ---------------------------------------------------------------------------
  // Properties of a trade job

  /**
   * A worker's lock token is a UUID, which contains a hyphen; a strategy id
   * has none. So the handler's own `moveToFailed` never records the reason: it
   * throws the lock-mismatch error and leaves the reason as it was.
   */
  lemma StrategyIdNeverUnlocks(reason: string, strategyId: string, lockToken: string, before: Option<string>)
    requires '-' in lockToken && '-' !in strategyId
    ensures MoveToFailedEffect(reason, strategyId, lockToken, before) == (before, Some(LockMismatch))
  {
  }

  /** A trade job's options always carry priority 1, and three attempts unless the caller says otherwise. */
  lemma TradeOptions(options: JobOptions)
    ensures var o := Merge(WithPriority(options, TradePriority), TradeQueueDefaults);
      o.priority == Some(1) && o.delay == options.delay
      && o.attempts == (if options.attempts.Some? then options.attempts else Some(3))
  {
  }

  /** The trade path sends the signal's side in the lower-case form the adapter expects, so buys buy and sells sell. */
  lemma TradeSidesReachTheWire(req: OrderRequest)
    requires req.side == "buy" || req.side == "sell"
    ensures MapToFyersRequest(req).side == (if req.side == "buy" then BuySide else SellSide)
  {
  }

  /**
   * The failure reason of a rejected order: the reply's code for a non-ok
   * reply; for a transport failure the reply's or the error's message, and the
   * fallback only when both are empty.
   */
  lemma FailureReasons(w: WireReply)
    requires !(w.Reply? && w.s == "ok")
    ensures w.Reply? ==>
      OrderFailure(PlaceOrderResponse(w)) == Some("Order failed with code: " + Text.IntToString(w.code))
    ensures w.TransportError? ==>
      OrderFailure(PlaceOrderResponse(w)) ==
        Some(if OrElse(w.responseMessage, w.errorMessage) == "" then OrderPlacementFailed else OrElse(w.responseMessage, w.errorMessage))
  {
  }

  /**
   * Strategies store the broker enumeration value `fyers` in their `broker`
   * field, which is not a broker record id, so a trade job for such a
   * strategy fails before any order is sent.
   */
  lemma EnumBrokerTradeFails(strategies: map<Id, Strategy>, instruments: seq<Instrument>, brokers: seq<BrokerDoc>,
                             strategyId: string, qty: int, side: string)
    requires IsObjectIdText(strategyId) && ObjectIdOf(strategyId) in strategies
    requires FindInstrument(instruments, strategies[ObjectIdOf(strategyId)].symbol).Some?
    requires IsAvailableBroker(strategies[ObjectIdOf(strategyId)].broker)
    requires strategies[ObjectIdOf(strategyId)].id == ObjectIdOf(strategyId)
    ensures PrepareOrder(strategies, instruments, brokers, strategyId, qty, side) ==
      Err("Failed to initialize broker instance for strategy: " + strategyId)
  {
    var s := strategies[ObjectIdOf(strategyId)];
    ObjectIdOfCanonical(strategyId);
    EnumBrokerNeverResolves(strategies, brokers, s.id);
  }
}
