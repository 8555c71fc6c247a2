/**
 * The part of a BullMQ queue the managers use: adding a named job with options
 * merged over the queue's defaults, and a job being worked on, whose progress
 * and failure reason the handler sets. Scheduling, retries, back-off and
 * retention happen inside the library and are not modelled.
 */
module JobQueue {
  import opened Wrappers
  import opened Models

  /** The options of one job; an absent field falls back to the queue's default. */
  datatype JobOptions = JobOptions(priority: Option<int>, delay: Option<int>, attempts: Option<int>)

  const NoOptions: JobOptions := JobOptions(None, None, None)

  /** The defaults of the trade queue: three attempts, priority 1. */
  const TradeQueueDefaults: JobOptions := JobOptions(Some(1), None, Some(3))

  /** The defaults of the rollover queue: three attempts, priority 2. */
  const RolloverQueueDefaults: JobOptions := JobOptions(Some(2), None, Some(3))

  /** `{ ...options, priority: p }`: the caller's options with the priority overridden. */
  function WithPriority(options: JobOptions, p: int): (r: JobOptions)
    ensures r.priority == Some(p)
    ensures r.delay == options.delay && r.attempts == options.attempts
  {
    options.(priority := Some(p))
  }

  /** The caller's option where given, the queue's default otherwise. */
  function Merge(given: JobOptions, defaults: JobOptions): (r: JobOptions)
    ensures r.priority == (if given.priority.Some? then given.priority else defaults.priority)
    ensures r.delay == (if given.delay.Some? then given.delay else defaults.delay)
    ensures r.attempts == (if given.attempts.Some? then given.attempts else defaults.attempts)
  {
    JobOptions(
      if given.priority.Some? then given.priority else defaults.priority,
      if given.delay.Some? then given.delay else defaults.delay,
      if given.attempts.Some? then given.attempts else defaults.attempts)
  }

  /** The strategy summary a rollover job carries. */
  datatype JobStrategy = JobStrategy(id: string, name: string, symbol: string)

  /** The payloads the backend enqueues. */
  datatype JobData =
    | RolloverData(strategy: Option<JobStrategy>)
    | TradeData(strategyId: string, qty: int, side: string)
    | StrategySnapshot(saved: Strategy)

  datatype QueuedJob = QueuedJob(id: nat, name: string, data: JobData, options: JobOptions)

  /** A named queue: the jobs added so far, in order, and the next job id. */
  class Queue {
    const name: string
    const defaults: JobOptions
    var jobs: seq<QueuedJob>
    var nextId: nat

    /** Ids are handed out in increasing order, so each names one job. */
    ghost predicate Valid()
      reads this
    {
      forall i :: 0 <= i < |jobs| ==> jobs[i].id < nextId && (i > 0 ==> jobs[i - 1].id < jobs[i].id)
    }

    constructor (name: string, defaults: JobOptions)
      ensures this.name == name && this.defaults == defaults
      ensures jobs == [] && Valid()
    {
      this.name := name;
      this.defaults := defaults;
      jobs := [];
      nextId := 1;
    }

    /** `queue.add(name, data, options)`: appends one job and returns its id. */
    method Add(jobName: string, data: JobData, options: JobOptions) returns (id: nat)
      requires Valid()
      modifies this
      ensures Valid()
      ensures id == old(nextId) && nextId == old(nextId) + 1
      ensures jobs == old(jobs) + [QueuedJob(id, jobName, data, Merge(options, defaults))]
    {
      id := nextId;
      jobs := jobs + [QueuedJob(id, jobName, data, Merge(options, defaults))];
      nextId := nextId + 1;
    }
  }

  /** The error BullMQ raises when a job is moved on with a token other than its lock token. */
  const LockMismatch: string := "Lock mismatch"

  /**
   * What `job.moveToFailed(error, token)` leaves as the job's failure reason,
   * and the error it throws: with the job's lock token it records the message;
   * with any other token it is refused and records nothing.
   */
  function MoveToFailedEffect(reason: string, token: string, lockToken: string, before: Option<string>)
    : (r: (Option<string>, Option<string>))
    ensures token == lockToken ==> r == (Some(reason), None)
    ensures token != lockToken ==> r == (before, Some(LockMismatch))
  {
    if token == lockToken then (Some(reason), None) else (before, Some(LockMismatch))
  }

  /** A job in a worker's hands, locked with the worker's token. */
  class Job {
    const data: JobData
    const lockToken: string
    var progress: int
    var failedReason: Option<string>

    constructor (data: JobData, lockToken: string)
      ensures this.data == data && this.lockToken == lockToken && progress == 0 && failedReason == None
    {
      this.data := data;
      this.lockToken := lockToken;
      progress := 0;
      failedReason := None;
    }

    /** `job.updateProgress(p)`. */
    method UpdateProgress(p: int)
      modifies this`progress
      ensures progress == p
    {
      progress := p;
    }

    /** `job.moveToFailed(error, token)`: the reason is recorded only under the lock token; otherwise the call throws. */
    method MoveToFailed(reason: string, token: string) returns (thrown: Option<string>)
      modifies this`failedReason
      ensures (failedReason, thrown) == MoveToFailedEffect(reason, token, lockToken, old(failedReason))
    {
      if token == lockToken {
        failedReason := Some(reason);
        thrown := None;
      } else {
        thrown := Some(LockMismatch);
      }
    }
  }
}
