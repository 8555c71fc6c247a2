/**
 * The manual rollover endpoint: it looks the strategy up and puts a rollover
 * job for it on the shared rollover queue.
 */
module RolloverController {
  import opened Wrappers
  import opened Models
  import opened Runtime
  import opened JobQueue
  import RQ = RolloverQueueManager

  /** A reply: its status code, its message, and the id of the job queued. */
  datatype RolloverReply = RolloverReply(status: int, message: string, jobId: Option<nat>)

  const MissingStrategyId: string := "Missing strategyId in request parameters"
  const StrategyNotFound: string := "Strategy not found"
  const JobQueued: string := "Rollover job added to queue"
  const InternalError: string := "Internal server error"

  /** The job data for a strategy: its id, name and symbol, each as text. */
  function RolloverJobFor(s: Strategy): (r: JobData)
    ensures r.RolloverData? && r.strategy.Some?
    ensures r.strategy.value.id == s.id && r.strategy.value.name == s.name && r.strategy.value.symbol == s.symbol
  {
    RolloverData(Some(JobStrategy(s.id, s.name, s.symbol)))
  }

  /** The options a job queued without options of its own ends up with. */
  const QueuedOptions: JobOptions := Merge(WithPriority(NoOptions, RQ.RolloverPriority), RolloverQueueDefaults)

  /** The replies that do not queue a job: an empty id, an id that is not an ObjectId, an unknown strategy. */
  function Refusal(strategies: map<Id, Strategy>, strategyId: string): (r: Option<RolloverReply>)
    ensures r.None? <==> strategyId != "" && IsObjectIdText(strategyId) && ObjectIdOf(strategyId) in strategies
    ensures r.Some? ==> r.value.jobId.None? && r.value.status in {400, 404, 500}
    ensures r.Some? && r.value.status == 400 <==> strategyId == ""
  {
    if strategyId == "" then Some(RolloverReply(400, MissingStrategyId, None))
    else if !IsObjectIdText(strategyId) then Some(RolloverReply(500, InternalError, None))
    else if ObjectIdOf(strategyId) !in strategies then Some(RolloverReply(404, StrategyNotFound, None))
    else None
  }

  /** `rollover`: the refusal, or a job for the strategy on the shared rollover queue and 200 with its id. */
  method Rollover(backend: Backend, managers: RQ.Instances, strategyId: string) returns (reply: RolloverReply)
    requires managers.Valid()
    modifies managers, if managers.instance == null then {} else {managers.instance.queue}
    ensures managers.Valid()
    ensures Refusal(old(backend.strategies), strategyId).Some? ==>
      reply == Refusal(old(backend.strategies), strategyId).value && managers.instance == old(managers.instance)
      && (managers.instance != null ==> managers.instance.queue.jobs == old(managers.instance.queue.jobs))
    ensures Refusal(old(backend.strategies), strategyId).None? ==>
      var s := backend.strategies[ObjectIdOf(strategyId)];
      && reply.status == 200 && reply.message == JobQueued && reply.jobId.Some?
      && managers.instance != null
      && (old(managers.instance) != null ==> managers.instance == old(managers.instance))
      && managers.instance.queue.jobs ==
           (if old(managers.instance) == null then [] else old(managers.instance.queue.jobs))
           + [QueuedJob(reply.jobId.value, RQ.JobName, RolloverJobFor(s), QueuedOptions)]
  {
    var refused := Refusal(backend.strategies, strategyId);
    if refused.Some? {
      return refused.value;
    }
    var strategy := backend.strategies[ObjectIdOf(strategyId)];
    var manager := managers.GetInstance();
    var id := manager.AddRolloverJob(RolloverJobFor(strategy), NoOptions);
    return RolloverReply(200, JobQueued, Some(id));
  }

  /** A job queued here runs at priority 2 with three attempts and no delay. */
  lemma QueuedOptionsAre()
    ensures QueuedOptions == JobOptions(Some(2), None, Some(3))
  {
  }

  /**
   * The job queued for a stored strategy (one kept under its own id) names that
   * strategy again: when the worker runs it, its first write clears that very
   * strategy's roll-over date.
   */
  lemma QueuedJobTargetsStrategy(strategies: map<Id, Strategy>, strategyId: string, c: RQ.Collaborators)
    requires Refusal(strategies, strategyId).None?
    requires strategies[ObjectIdOf(strategyId)].id == ObjectIdOf(strategyId)
    ensures var job := RolloverJobFor(strategies[ObjectIdOf(strategyId)]);
      var events := RQ.Rollover(job.strategy, c).1;
      |events| >= 1 && events[0] == RollOverCleared(ObjectIdOf(strategyId))
  {
    var k := ObjectIdOf(strategyId);
    ObjectIdOfCanonical(strategyId);
    RQ.ClearsFirst(RolloverJobFor(strategies[k]).strategy, c);
  }
}
