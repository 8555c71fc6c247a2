/**
 * The rollover queue's worker: for one strategy it clears the scheduled
 * roll-over date, and when the strategy holds positions it moves the strategy
 * to the next monthly contract, closes the positions held in the old contract
 * and reopens every position in the new one.
 *
 * The helpers that fetch the open positions and find the next contract are
 * parameters (`Collaborators`), as are the adapter the orders go through and
 * the broker symbol of the contract being closed.
 */
module RolloverQueueManager {
  import opened Wrappers
  import opened Models
  import opened Fyers
  import opened Runtime
  import opened JobQueue
  import opened TradeFunctions

  const QueueName: string := "rollover-queue"
  const JobName: string := "rollover"
  const RolloverPriority: int := 2
  const NoStrategyData: string := "No strategy data found in job"

  /** How a job ends: normally, or with the error it throws (which makes the queue retry it). */
  datatype Outcome = Completed | Threw(message: string)

  /** What the worker calls but does not define. */
  datatype Collaborators = Collaborators(
    openPositions: string -> Result<seq<Position>>,
    nextContract: Id -> Result<Option<Instrument>>,
    broker: FyersBroker,
    heldSymbol: string)

  /**
   * The writes and orders of a rollover that gets to the orders: clear the
   * date, point the strategy at `next`, send every close, then every reopen.
   */
  function FullRollover(id: Id, c: Collaborators, positions: seq<Position>, next: Instrument): seq<Event> {
    [RollOverCleared(id), SymbolUpdated(id, next.id)]
    + OrderEvents(c.broker.appId, CloseRequests(positions, c.heldSymbol))
    + OrderEvents(c.broker.appId, OpenRequests(positions, next))
  }

  /** `processJob`: how a job for `strategy` ends, and the writes and orders it makes, in order. */
  function Rollover(strategy: Option<JobStrategy>, c: Collaborators): (Outcome, seq<Event>) {
    if strategy.None? then (Threw(NoStrategyData), [])
    else
      var s := strategy.value;
      if !IsObjectIdText(s.id) then (Threw(CastFailed), [])
      else
        var cleared := [RollOverCleared(ObjectIdOf(s.id))];
        match c.openPositions(s.id)
        case Err(e) => (Threw(e), cleared)
        case Ok(positions) =>
          if positions == [] then (Completed, cleared)
          else if !IsObjectIdText(s.symbol) then (Threw(BsonInvalidId), cleared)
          else match c.nextContract(ObjectIdOf(s.symbol))
            case Err(e) => (Threw(e), cleared)
            case Ok(None) => (Threw("No next contract found for strategy " + s.name), cleared)
            case Ok(Some(next)) => (Completed, FullRollover(ObjectIdOf(s.id), c, positions, next))
  }

  class RolloverQueueManager {
    const queue: Queue

    /** The manager's queue is the rollover queue, with its defaults. */
    ghost predicate Valid()
      reads this, queue
    {
      queue.Valid() && queue.name == QueueName && queue.defaults == RolloverQueueDefaults
    }

    constructor ()
      ensures fresh(queue) && Valid() && queue.jobs == []
    {
      queue := new Queue(QueueName, RolloverQueueDefaults);
    }

    /** `processJob`. */
    method ProcessJob(job: Job, backend: Backend, c: Collaborators) returns (outcome: Outcome)
      requires job.data.RolloverData?
      modifies backend`strategies, backend`log, job`progress
      ensures outcome == Rollover(job.data.strategy, c).0
      ensures backend.log == old(backend.log) + Rollover(job.data.strategy, c).1
      ensures backend.strategies == ApplyEvents(old(backend.strategies), Rollover(job.data.strategy, c).1)
      ensures job.progress == if outcome.Completed? then 100 else old(job.progress)
    {
      var strategy := job.data.strategy;
      if strategy.None? {
        assert Rollover(strategy, c) == (Threw(NoStrategyData), []);
        return Threw(NoStrategyData);
      }
      var s := strategy.value;
      if !IsObjectIdText(s.id) {
        assert Rollover(strategy, c) == (Threw(CastFailed), []);
        return Threw(CastFailed);
      }
      var id := ObjectIdOf(s.id);
      ghost var before := backend.strategies;
      backend.ClearRollOver(id);
      assert backend.strategies == ApplyEvents(before, [RollOverCleared(id)]);

      var openPositions := c.openPositions(s.id);
      if openPositions.Err? {
        assert Rollover(strategy, c) == (Threw(openPositions.error), [RollOverCleared(id)]);
        return Threw(openPositions.error);
      }
      if |openPositions.value| == 0 {
        assert Rollover(strategy, c) == (Completed, [RollOverCleared(id)]);
        job.UpdateProgress(100);
        return Completed;
      }

      if !IsObjectIdText(s.symbol) {
        assert Rollover(strategy, c) == (Threw(BsonInvalidId), [RollOverCleared(id)]);
        return Threw(BsonInvalidId);
      }
      var nextSymbol := c.nextContract(ObjectIdOf(s.symbol));
      if nextSymbol.Err? {
        assert Rollover(strategy, c) == (Threw(nextSymbol.error), [RollOverCleared(id)]);
        return Threw(nextSymbol.error);
      }
      if nextSymbol.value.None? {
        assert Rollover(strategy, c) == (Threw("No next contract found for strategy " + s.name), [RollOverCleared(id)]);
        return Threw("No next contract found for strategy " + s.name);
      }
      var next := nextSymbol.value.value;
      RolloverReachesOrders(strategy, c, openPositions.value, next);
      backend.UpdateSymbol(id, next.id);
      CloseAllPositions(backend, c.broker, openPositions.value, c.heldSymbol);
      OpenNewPositions(backend, c.broker, openPositions.value, next);
      job.UpdateProgress(100);
      outcome := Completed;
      RegroupLog(old(backend.log), RollOverCleared(id), SymbolUpdated(id, next.id),
        OrderEvents(c.broker.appId, CloseRequests(openPositions.value, c.heldSymbol)),
        OrderEvents(c.broker.appId, OpenRequests(openPositions.value, next)));
      FullRolloverState(before, id, c, openPositions.value, next);
    }

    /** `addRolloverJob`: the caller's options with priority 2. */
    method AddRolloverJob(data: JobData, options: JobOptions) returns (id: nat)
      requires Valid()
      modifies queue
      ensures Valid()
      ensures queue.jobs == old(queue.jobs) + [QueuedJob(id, JobName, data, Merge(WithPriority(options, RolloverPriority), RolloverQueueDefaults))]
    {
      id := queue.Add(JobName, data, WithPriority(options, RolloverPriority));
    }

    /** `scheduleRolloverJob`: as `addRolloverJob`, delayed until `scheduleTime` (milliseconds) as seen at `now`. */
    method ScheduleRolloverJob(data: JobData, scheduleTime: int, now: int, options: JobOptions) returns (id: nat)
      requires Valid()
      modifies queue
      ensures Valid()
      ensures queue.jobs == old(queue.jobs) + [QueuedJob(id, JobName, data,
        Merge(WithPriority(options, RolloverPriority).(delay := Some(scheduleTime - now)), RolloverQueueDefaults))]
    {
      id := queue.Add(JobName, data, WithPriority(options, RolloverPriority).(delay := Some(scheduleTime - now)));
    }
  }

  lemma RegroupLog(prefix: seq<Event>, a: Event, b: Event, xs: seq<Event>, ys: seq<Event>)
    ensures prefix + [a] + [b] + xs + ys == prefix + ([a, b] + xs + ys)
  {
  }

  /** The effective options of a queued rollover job: priority 2 and a delay whatever the caller passed. */
  lemma ScheduledOptions(options: JobOptions, scheduleTime: int, now: int)
    ensures var o := Merge(WithPriority(options, RolloverPriority).(delay := Some(scheduleTime - now)), RolloverQueueDefaults);
      o.priority == Some(2) && o.delay == Some(scheduleTime - now)
      && o.attempts == (if options.attempts.Some? then options.attempts else Some(3))
  {
  }

  /** `getInstance`: the manager is created once and shared. */
  class Instances {
    var instance: RolloverQueueManager?

    constructor ()
      ensures instance == null && Valid()
    {
      instance := null;
    }

    /** The shared manager, once created, is a valid one. */
    ghost predicate Valid()
      reads this, if instance == null then {} else {instance, instance.queue}
    {
      instance != null ==> instance.Valid()
    }

    method GetInstance() returns (m: RolloverQueueManager)
      requires Valid()
      modifies this
      ensures Valid() && m.Valid()
      ensures old(instance) != null ==> m == old(instance)
      ensures old(instance) == null ==> fresh(m) && fresh(m.queue) && m.queue.jobs == []
      ensures instance == m
    {
      if instance == null {
        instance := new RolloverQueueManager();
      }
      m := instance;
    }
  }

  // ---------------------------------------------------------------------------
  // Properties of a rollover

  /**
   * The roll-over date is cleared before anything else is looked at: every job
   * whose strategy id is well-formed clears it, however the job then ends.
   */
  lemma ClearsFirst(strategy: Option<JobStrategy>, c: Collaborators)
    requires strategy.Some? && IsObjectIdText(strategy.value.id)
    ensures var events := Rollover(strategy, c).1;
      |events| >= 1 && events[0] == RollOverCleared(ObjectIdOf(strategy.value.id))
  {
  }

  /** A job that throws has at most cleared the roll-over date: no symbol change, no order. */
  lemma FailureSendsNoOrder(strategy: Option<JobStrategy>, c: Collaborators)
    requires Rollover(strategy, c).0.Threw?
    ensures |Rollover(strategy, c).1| <= 1
    ensures forall i :: 0 <= i < |Rollover(strategy, c).1| ==> Rollover(strategy, c).1[i].RollOverCleared?
  {
  }

  /** A strategy without open positions completes after only clearing its date. */
  lemma NoPositionsOnlyClears(strategy: Option<JobStrategy>, c: Collaborators)
    requires strategy.Some? && IsObjectIdText(strategy.value.id)
    requires c.openPositions(strategy.value.id) == Ok([])
    ensures Rollover(strategy, c) == (Completed, [RollOverCleared(ObjectIdOf(strategy.value.id))])
  {
  }

  /** When no next contract exists the job throws, naming the strategy, and has sent nothing. */
  lemma NoNextContractThrows(strategy: Option<JobStrategy>, c: Collaborators)
    requires strategy.Some? && IsObjectIdText(strategy.value.id) && IsObjectIdText(strategy.value.symbol)
    requires c.openPositions(strategy.value.id).Ok? && c.openPositions(strategy.value.id).value != []
    requires c.nextContract(ObjectIdOf(strategy.value.symbol)) == Ok(None)
    ensures Rollover(strategy, c) == (Threw("No next contract found for strategy " + strategy.value.name),
                                      [RollOverCleared(ObjectIdOf(strategy.value.id))])
  {
  }

  /** The job gets as far as the orders: well-formed ids, open positions, and a next contract. */
  predicate ReachesOrders(strategy: Option<JobStrategy>, c: Collaborators, positions: seq<Position>, next: Instrument) {
    && strategy.Some? && IsObjectIdText(strategy.value.id) && IsObjectIdText(strategy.value.symbol)
    && c.openPositions(strategy.value.id) == Ok(positions) && positions != []
    && c.nextContract(ObjectIdOf(strategy.value.symbol)) == Ok(Some(next))
  }

  lemma RolloverReachesOrders(strategy: Option<JobStrategy>, c: Collaborators, positions: seq<Position>, next: Instrument)
    requires ReachesOrders(strategy, c, positions, next)
    ensures Rollover(strategy, c) == (Completed, FullRollover(ObjectIdOf(strategy.value.id), c, positions, next))
  {
  }

  /** The element at `i` of three joined lists, when it falls in the middle one. */
  lemma MiddleAt(a: seq<Event>, b: seq<Event>, c: seq<Event>, i: nat)
    requires |a| <= i < |a| + |b|
    ensures (a + b + c)[i] == b[i - |a|]
  {
  }

  /** The element at `i` of three joined lists, when it falls in the last one. */
  lemma LastAt(a: seq<Event>, b: seq<Event>, c: seq<Event>, i: nat)
    requires |a| + |b| <= i < |a| + |b| + |c|
    ensures (a + b + c)[i] == c[i - |a| - |b|]
  {
  }

  /** The event at `i` of two writes followed by two runs of orders, when it falls in the first run. */
  lemma FirstRunAt(writes: seq<Event>, appId: string, first: seq<OrderRequest>, second: seq<OrderRequest>, i: nat)
    requires |writes| == 2 && 2 <= i < 2 + |first|
    ensures (writes + OrderEvents(appId, first) + OrderEvents(appId, second))[i]
      == OrderSent(appId, MapToFyersRequest(first[i - 2]))
  {
    MiddleAt(writes, OrderEvents(appId, first), OrderEvents(appId, second), i);
  }

  /** The event at `i` of two writes followed by two runs of orders, when it falls in the second run. */
  lemma SecondRunAt(writes: seq<Event>, appId: string, first: seq<OrderRequest>, second: seq<OrderRequest>, i: nat)
    requires |writes| == 2 && 2 + |first| <= i < 2 + |first| + |second|
    ensures (writes + OrderEvents(appId, first) + OrderEvents(appId, second))[i]
      == OrderSent(appId, MapToFyersRequest(second[i - 2 - |first|]))
  {
    LastAt(writes, OrderEvents(appId, first), OrderEvents(appId, second), i);
  }

  /** The event at position `i` of a full rollover, when that is a close, as the request it sends. */
  lemma CloseEventAt(id: Id, c: Collaborators, positions: seq<Position>, next: Instrument, i: nat)
    requires 2 <= i < 2 + |CloseRequests(positions, c.heldSymbol)|
    ensures |FullRollover(id, c, positions, next)| > i
    ensures FullRollover(id, c, positions, next)[i] ==
      OrderSent(c.broker.appId, MapToFyersRequest(CloseRequests(positions, c.heldSymbol)[i - 2]))
  {
    FirstRunAt([RollOverCleared(id), SymbolUpdated(id, next.id)], c.broker.appId,
               CloseRequests(positions, c.heldSymbol), OpenRequests(positions, next), i);
  }

  /** The order a full rollover sends at position `i` of its events, when that is a close. */
  lemma FullRolloverCloseAt(id: Id, c: Collaborators, positions: seq<Position>, next: Instrument, i: nat)
    requires 2 <= i < 2 + |PositionsIn(positions, c.heldSymbol)|
    ensures |FullRollover(id, c, positions, next)| > i
    ensures FullRollover(id, c, positions, next)[i] ==
      OrderSent(c.broker.appId, MapToFyersRequest(CloseOrderFor(PositionsIn(positions, c.heldSymbol)[i - 2])))
  {
    CloseEventAt(id, c, positions, next, i);
  }

  /** The event at position `i` of a full rollover, when that is a reopen, as the request it sends. */
  lemma OpenEventAt(id: Id, c: Collaborators, positions: seq<Position>, next: Instrument, i: nat)
    requires 2 + |CloseRequests(positions, c.heldSymbol)| <= i < 2 + |CloseRequests(positions, c.heldSymbol)| + |OpenRequests(positions, next)|
    ensures |FullRollover(id, c, positions, next)| > i
    ensures FullRollover(id, c, positions, next)[i] ==
      OrderSent(c.broker.appId, MapToFyersRequest(OpenRequests(positions, next)[i - 2 - |CloseRequests(positions, c.heldSymbol)|]))
  {
    SecondRunAt([RollOverCleared(id), SymbolUpdated(id, next.id)], c.broker.appId,
                CloseRequests(positions, c.heldSymbol), OpenRequests(positions, next), i);
  }

  /** The order a full rollover sends at position `i` of its events, when that is a reopen. */
  lemma FullRolloverOpenAt(id: Id, c: Collaborators, positions: seq<Position>, next: Instrument, i: nat)
    requires 2 + |PositionsIn(positions, c.heldSymbol)| <= i < 2 + |PositionsIn(positions, c.heldSymbol)| + |positions|
    ensures |FullRollover(id, c, positions, next)| > i
    ensures FullRollover(id, c, positions, next)[i] ==
      OrderSent(c.broker.appId, MapToFyersRequest(OpenOrderFor(positions[i - 2 - |PositionsIn(positions, c.heldSymbol)|], next)))
  {
    OpenEventAt(id, c, positions, next, i);
  }

  /** A full rollover begins with its two writes and sends one close per position held in the old contract and one reopen per position. */
  lemma FullRolloverWrites(id: Id, c: Collaborators, positions: seq<Position>, next: Instrument)
    ensures var events := FullRollover(id, c, positions, next);
      && |events| == 2 + |PositionsIn(positions, c.heldSymbol)| + |positions|
      && events[0] == RollOverCleared(id)
      && events[1] == SymbolUpdated(id, next.id)
  {
  }

  /** The closes come right after the writes, in the order of the positions held in the old contract. */
  lemma FullRolloverCloses(id: Id, c: Collaborators, positions: seq<Position>, next: Instrument)
    ensures var events := FullRollover(id, c, positions, next);
      var held := PositionsIn(positions, c.heldSymbol);
      forall k :: 0 <= k < |held| ==>
        2 + k < |events| && events[2 + k] == OrderSent(c.broker.appId, MapToFyersRequest(CloseOrderFor(held[k])))
  {
    var held := PositionsIn(positions, c.heldSymbol);
    forall k | 0 <= k < |held|
      ensures 2 + k < |FullRollover(id, c, positions, next)|
      ensures FullRollover(id, c, positions, next)[2 + k] == OrderSent(c.broker.appId, MapToFyersRequest(CloseOrderFor(held[k])))
    {
      FullRolloverCloseAt(id, c, positions, next, 2 + k);
    }
  }

  /** The reopens come last, one per position, in the positions' order. */
  lemma FullRolloverOpens(id: Id, c: Collaborators, positions: seq<Position>, next: Instrument)
    ensures var events := FullRollover(id, c, positions, next);
      var n := |PositionsIn(positions, c.heldSymbol)|;
      && |events| == 2 + n + |positions|
      && forall k :: 0 <= k < |positions| ==>
        events[2 + n + k] == OrderSent(c.broker.appId, MapToFyersRequest(OpenOrderFor(positions[k], next)))
  {
    var openReqs := OpenRequests(positions, next);
    SecondRun([RollOverCleared(id), SymbolUpdated(id, next.id)], c.broker.appId,
              CloseRequests(positions, c.heldSymbol), openReqs);
    forall k | 0 <= k < |positions| ensures openReqs[k] == OpenOrderFor(positions[k], next) {
    }
  }

  /** Every event of the second run of orders, by its index in that run. */
  lemma SecondRun(writes: seq<Event>, appId: string, first: seq<OrderRequest>, second: seq<OrderRequest>)
    requires |writes| == 2
    ensures var events := writes + OrderEvents(appId, first) + OrderEvents(appId, second);
      && |events| == 2 + |first| + |second|
      && forall k :: 0 <= k < |second| ==> events[2 + |first| + k] == OrderSent(appId, MapToFyersRequest(second[k]))
  {
    forall k | 0 <= k < |second|
      ensures (writes + OrderEvents(appId, first) + OrderEvents(appId, second))[2 + |first| + k]
        == OrderSent(appId, MapToFyersRequest(second[k]))
    {
      SecondRunAt(writes, appId, first, second, 2 + |first| + k);
    }
  }

  /** Every close is sent before any reopen, and only after the strategy points at the new contract. */
  lemma ClosesBeforeOpens(id: Id, c: Collaborators, positions: seq<Position>, next: Instrument, i: nat, j: nat)
    requires i < j < |FullRollover(id, c, positions, next)|
    ensures var events := FullRollover(id, c, positions, next);
      events[j].OrderSent? && events[j].request.orderTag == "rollover_close" ==>
        !(events[i].OrderSent? && events[i].request.orderTag == "rollover_open")
    ensures var events := FullRollover(id, c, positions, next);
      events[i].OrderSent? ==> i >= 2 && events[1] == SymbolUpdated(id, next.id)
  {
    var events := FullRollover(id, c, positions, next);
    FullRolloverWrites(id, c, positions, next);
    if 2 <= i {
      OrderTagAt(id, c, positions, next, i);
    }
    if 2 <= j {
      OrderTagAt(id, c, positions, next, j);
    }
    assert |"rollover_close"| != |"rollover_open"|;
    TagsInOrder(events, 2 + |PositionsIn(positions, c.heldSymbol)|, i, j, "rollover_close", "rollover_open");
  }

  /** In events whose orders carry one tag before `n` and another from `n` on, no order of the first kind follows one of the second. */
  lemma TagsInOrder(events: seq<Event>, n: int, i: nat, j: nat, first: string, second: string)
    requires i < j < |events| && first != second
    requires !events[0].OrderSent? && !events[1].OrderSent?
    requires 2 <= i ==> events[i].OrderSent? && events[i].request.orderTag == if i < n then first else second
    requires 2 <= j ==> events[j].OrderSent? && events[j].request.orderTag == if j < n then first else second
    ensures events[j].OrderSent? && events[j].request.orderTag == first ==>
      !(events[i].OrderSent? && events[i].request.orderTag == second)
    ensures events[i].OrderSent? ==> i >= 2
  {
  }

  /** Every event after the two writes is an order, tagged as a close up to the last close and as a reopen after it. */
  lemma OrderTagAt(id: Id, c: Collaborators, positions: seq<Position>, next: Instrument, i: nat)
    requires 2 <= i < |FullRollover(id, c, positions, next)|
    ensures var events := FullRollover(id, c, positions, next);
      events[i].OrderSent? && events[i].request.orderTag ==
        if i < 2 + |PositionsIn(positions, c.heldSymbol)| then "rollover_close" else "rollover_open"
  {
    FullRolloverWrites(id, c, positions, next);
    if i < 2 + |PositionsIn(positions, c.heldSymbol)| {
      FullRolloverCloseAt(id, c, positions, next, i);
    } else {
      FullRolloverOpenAt(id, c, positions, next, i);
    }
  }

  /** The two writes of a rollover: the strategy loses its roll-over date and points at the next contract. */
  lemma RolloverWrites(strategies: map<Id, Strategy>, id: Id, next: Instrument)
    ensures ApplyEvents(strategies, [RollOverCleared(id), SymbolUpdated(id, next.id)]) ==
      if id in strategies then strategies[id := strategies[id].(rollOverOn := None, symbol := next.id)] else strategies
  {
    var writes := [RollOverCleared(id), SymbolUpdated(id, next.id)];
    var m1 := ApplyEvent(strategies, writes[0]);
    var m2 := ApplyEvent(m1, writes[1]);
    assert writes[1..][1..] == [];
    assert ApplyEvents(m2, []) == m2;
    assert ApplyEvents(m1, writes[1..]) == m2;
  }

  /**
   * What a full rollover leaves in the strategy collection: the strategy
   * points at the next contract and has no roll-over date; nothing else changes.
   */
  lemma FullRolloverState(strategies: map<Id, Strategy>, id: Id, c: Collaborators, positions: seq<Position>, next: Instrument)
    ensures ApplyEvents(strategies, FullRollover(id, c, positions, next)) ==
      if id in strategies then strategies[id := strategies[id].(rollOverOn := None, symbol := next.id)] else strategies
  {
    var writes := [RollOverCleared(id), SymbolUpdated(id, next.id)];
    var closeReqs := CloseRequests(positions, c.heldSymbol);
    var openReqs := OpenRequests(positions, next);
    var closes := OrderEvents(c.broker.appId, closeReqs);
    var opens := OrderEvents(c.broker.appId, openReqs);
    assert FullRollover(id, c, positions, next) == writes + closes + opens;
    ApplyEventsAppend(strategies, writes + closes, opens);
    ApplyEventsAppend(strategies, writes, closes);
    RolloverWrites(strategies, id, next);
    ApplyOrderEvents(ApplyEvents(strategies, writes), c.broker.appId, closeReqs);
    ApplyOrderEvents(ApplyEvents(strategies, writes + closes), c.broker.appId, openReqs);
  }

  /**
   * Rolling over a book of long positions (recorded as `BUY`) sends only sell
   * orders: the closes sell, and so do the reopens, because the recorded side
   * is passed on verbatim and only `buy` means buy.
   */
  lemma LongBookOnlySells(id: Id, c: Collaborators, positions: seq<Position>, next: Instrument)
    requires forall k :: 0 <= k < |positions| ==> positions[k].side == "BUY"
    ensures var events := FullRollover(id, c, positions, next);
      forall i :: 0 <= i < |events| && events[i].OrderSent? ==> events[i].request.side == SellSide
  {
    var n := |PositionsIn(positions, c.heldSymbol)|;
    var events := FullRollover(id, c, positions, next);
    FullRolloverWrites(id, c, positions, next);
    forall i | 0 <= i < |events| && events[i].OrderSent? ensures events[i].request.side == SellSide {
      if i < 2 + n {
        FullRolloverCloseAt(id, c, positions, next, i);
        assert PositionsIn(positions, c.heldSymbol)[i - 2] in positions;
      } else {
        FullRolloverOpenAt(id, c, positions, next, i);
      }
    }
  }
}
