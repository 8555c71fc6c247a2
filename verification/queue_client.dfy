/**
 * The legacy Redis task queue: three lists of tasks (pending, processing and
 * completed), each with its head at index 0. New tasks are pushed at the head
 * of the pending list and taken from its tail, so tasks leave in the order
 * they came; a finished task moves to the head of the completed list, which
 * keeps only its newest thousand entries.
 */
module TaskQueue {
  import opened Wrappers

  datatype TaskStatus = Pending | Processing | Completed | Failed

  /** The trade signal a task carries. */
  datatype TradeTask = TradeTask(strategyId: string, qty: int, side: string, timestamp: string)

  /** A task as stored; `id` stands for the generated uuid. */
  datatype QueueTask = QueueTask(id: nat, data: TradeTask, status: TaskStatus, createdAt: string,
                                 processedAt: Option<string>, error: Option<string>)

  /** How many completed tasks the list keeps. */
  const CompletedLimit: nat := 1000

  // ---------------------------------------------------------------------------
  // The lists as values

  /** `LPUSH`: the new element becomes the head. */
  function Push<T>(list: seq<T>, x: T): (r: seq<T>)
    ensures |r| == |list| + 1 && r[0] == x && r[1..] == list
  {
    [x] + list
  }

  /** The elements a run of `RPOP`s removes, in the order it removes them: last element first. */
  function Drain<T>(list: seq<T>): (r: seq<T>)
    ensures |r| == |list|
    decreases |list|
  {
    if list == [] then [] else [list[|list| - 1]] + Drain(list[..|list| - 1])
  }

  /** The list after pushing each of `xs` in turn. */
  function PushAll<T>(list: seq<T>, xs: seq<T>): (r: seq<T>)
    ensures |r| == |list| + |xs|
    decreases |xs|
  {
    if xs == [] then list else PushAll(Push(list, xs[0]), xs[1..])
  }

  /** The last element of a list is the first one a drain removes. */
  lemma DrainSnoc<T>(init: seq<T>, last: T)
    ensures Drain(init + [last]) == [last] + Drain(init)
  {
    assert (init + [last])[..|init|] == init;
  }

  /** Draining a list made of a newer part in front of an older part yields the older part first. */
  lemma {:induction false} DrainAppend<T>(newer: seq<T>, older: seq<T>)
    ensures Drain(newer + older) == Drain(older) + Drain(newer)
    decreases |older|
  {
    if older == [] {
      assert newer + older == newer;
    } else {
      var init := older[..|older| - 1];
      var last := older[|older| - 1];
      assert older == init + [last];
      assert newer + older == (newer + init) + [last];
      calc {
        Drain(newer + older);
        Drain((newer + init) + [last]);
        { DrainSnoc(newer + init, last); }
        [last] + Drain(newer + init);
        { DrainAppend(newer, init); }
        [last] + (Drain(init) + Drain(newer));
        ([last] + Drain(init)) + Drain(newer);
        { DrainSnoc(init, last); }
        Drain(older) + Drain(newer);
      }
    }
  }

  lemma {:induction false} PushAllShape<T>(list: seq<T>, xs: seq<T>)
    ensures PushAll(list, xs) == Drain(xs) + list
    decreases |xs|
  {
    if xs != [] {
      PushAllShape(Push(list, xs[0]), xs[1..]);
      assert Drain(xs[1..]) + Push(list, xs[0]) == (Drain(xs[1..]) + [xs[0]]) + list;
      DrainAppend(xs[1..], [xs[0]]);
      assert Drain([xs[0]]) == [xs[0]];
      assert [xs[0]] + xs[1..] == xs;
      DrainOfDrain(xs);
    }
  }

  /** The head of a list is the last element a drain removes. */
  lemma {:induction false} DrainOfDrain<T>(xs: seq<T>)
    requires xs != []
    ensures Drain(xs[1..]) + [xs[0]] == Drain(xs)
    decreases |xs|
  {
    if |xs| > 1 {
      var last := xs[|xs| - 1];
      DrainOfDrain(xs[..|xs| - 1]);
      assert xs[..|xs| - 1][1..] == xs[1..][..|xs[1..]| - 1];
      assert xs[..|xs| - 1][0] == xs[0];
    }
  }

  /** FIFO: pushing tasks one by one and then popping the tail until empty yields them in the order they were pushed. */
  lemma FirstInFirstOut<T>(xs: seq<T>)
    ensures Drain(PushAll([], xs)) == xs
  {
    PushAllShape([], xs);
    assert Drain(xs) + [] == Drain(xs);
    DrainTwice(xs);
  }

  /** Draining reverses, so draining twice gives the list back. */
  lemma {:induction false} DrainTwice<T>(xs: seq<T>)
    ensures Drain(Drain(xs)) == xs
    decreases |xs|
  {
    if xs != [] {
      var last := xs[|xs| - 1];
      var init := xs[..|xs| - 1];
      DrainAppend([last], Drain(init));
      DrainTwice(init);
      assert Drain([last]) == [last];
      assert init + [last] == xs;
    }
  }

  /** The index of the first task with the given id. */
  function IndexOf(tasks: seq<QueueTask>, id: nat): (r: Option<nat>)
    ensures r.Some? ==> r.value < |tasks| && tasks[r.value].id == id && (forall j :: 0 <= j < r.value ==> tasks[j].id != id)
    ensures r.None? <==> forall j :: 0 <= j < |tasks| ==> tasks[j].id != id
    decreases |tasks|
  {
    if tasks == [] then None
    else if tasks[0].id == id then Some(0)
    else match IndexOf(tasks[1..], id)
      case None => None
      case Some(k) => Some(k + 1)
  }

  /** The list without its element at `k`. */
  function RemoveAt<T>(s: seq<T>, k: nat): (r: seq<T>)
    requires k < |s|
    ensures |r| == |s| - 1
    ensures forall j :: 0 <= j < k ==> r[j] == s[j]
    ensures forall j :: k <= j < |r| ==> r[j] == s[j + 1]
  {
    s[..k] + s[k + 1..]
  }

  /** `LREM list 1 x`: removes the first element equal to `x`, if any. */
  function RemoveFirst<T(==)>(s: seq<T>, x: T): (r: seq<T>)
    ensures x !in s ==> r == s
    ensures x in s ==> |r| == |s| - 1
    decreases |s|
  {
    if s == [] then []
    else if s[0] == x then s[1..]
    else [s[0]] + RemoveFirst(s[1..], x)
  }

  /** Removing the first copy of the element at the first index carrying its id removes exactly that index. */
  lemma {:induction false} RemoveFirstAtIndex(s: seq<QueueTask>, k: nat)
    requires k < |s| && IndexOf(s, s[k].id) == Some(k)
    ensures RemoveFirst(s, s[k]) == RemoveAt(s, k)
    decreases k
  {
    if k > 0 {
      var t := s[1..];
      assert s[0].id != s[k].id;
      assert t[k - 1] == s[k];
      assert IndexOf(t, s[k].id) == Some(k - 1);
      RemoveFirstAtIndex(t, k - 1);
      assert RemoveFirst(s, s[k]) == [s[0]] + RemoveFirst(t, s[k]);
      RemoveAtTail(s, k);
    }
  }

  /** Removing a later index keeps the head in front. */
  lemma RemoveAtTail<T>(s: seq<T>, k: nat)
    requires 0 < k < |s|
    ensures RemoveAt(s, k) == [s[0]] + RemoveAt(s[1..], k - 1)
  {
    assert s[..k] == [s[0]] + s[1..][..k - 1];
    assert s[k + 1..] == s[1..][k..];
  }

  /** `LTRIM list 0 999`: the newest thousand entries. */
  function Trim<T>(s: seq<T>): (r: seq<T>)
    ensures |r| <= CompletedLimit
    ensures |r| == if |s| <= CompletedLimit then |s| else CompletedLimit
    ensures forall j :: 0 <= j < |r| ==> r[j] == s[j]
  {
    if |s| <= CompletedLimit then s else s[..CompletedLimit]
  }

  /** A non-empty error string: the test `error ? … : …` applies to it. */
  predicate ErrorGiven(error: Option<string>) {
    error.Some? && error.value != ""
  }

  /** The task as `completeTask` stores it. */
  function Finished(task: QueueTask, error: Option<string>, now: string): (r: QueueTask)
    ensures r.id == task.id && r.data == task.data && r.createdAt == task.createdAt
    ensures r.status == (if ErrorGiven(error) then Failed else Completed)
    ensures r.processedAt == Some(now)
    ensures r.error == (if ErrorGiven(error) then error else task.error)
  {
    task.(status := if ErrorGiven(error) then Failed else Completed,
          processedAt := Some(now),
          error := if ErrorGiven(error) then error else task.error)
  }

  /** The status stored with the first task of `tasks` carrying `id`. */
  function StatusIn(tasks: seq<QueueTask>, id: nat): Option<TaskStatus> {
    match IndexOf(tasks, id)
    case None => None
    case Some(k) => Some(tasks[k].status)
  }

  /** The answer of `getTaskStatus`: the lists are searched pending first, then processing, then completed. */
  function StatusOf(pending: seq<QueueTask>, processing: seq<QueueTask>, completed: seq<QueueTask>, id: nat): Option<TaskStatus> {
    if StatusIn(pending, id).Some? then StatusIn(pending, id)
    else if StatusIn(processing, id).Some? then StatusIn(processing, id)
    else StatusIn(completed, id)
  }

  // ---------------------------------------------------------------------------
  // The invariant of the three lists

  predicate HasId(tasks: seq<QueueTask>, id: nat) {
    exists j :: 0 <= j < |tasks| && tasks[j].id == id
  }

  predicate Disjoint(a: seq<QueueTask>, b: seq<QueueTask>) {
    forall i, j :: 0 <= i < |a| && 0 <= j < |b| ==> a[i].id != b[j].id
  }

  predicate DistinctIds(tasks: seq<QueueTask>) {
    forall i, j :: 0 <= i < j < |tasks| ==> tasks[i].id != tasks[j].id
  }

  /** Newer ids nearer the head: the pending list in push order. */
  predicate NewestFirst(tasks: seq<QueueTask>) {
    forall i, j :: 0 <= i < j < |tasks| ==> tasks[i].id > tasks[j].id
  }

  predicate AllWithStatus(tasks: seq<QueueTask>, s: TaskStatus) {
    forall i :: 0 <= i < |tasks| ==> tasks[i].status == s
  }

  predicate AllFinished(tasks: seq<QueueTask>) {
    forall i :: 0 <= i < |tasks| ==> tasks[i].status == Completed || tasks[i].status == Failed
  }

  predicate IdsBelow(tasks: seq<QueueTask>, bound: nat) {
    forall i :: 0 <= i < |tasks| ==> tasks[i].id < bound
  }

  /**
   * What the three lists keep between calls: every id in at most one list
   * and at most once in it, every id issued already, pending tasks in push
   * order, each list holding tasks of its own status, and at most a thousand
   * completed tasks.
   */
  predicate WellFormed(pending: seq<QueueTask>, processing: seq<QueueTask>, completed: seq<QueueTask>, nextId: nat) {
    && NewestFirst(pending) && DistinctIds(processing) && DistinctIds(completed)
    && Disjoint(pending, processing) && Disjoint(pending, completed) && Disjoint(processing, completed)
    && IdsBelow(pending, nextId) && IdsBelow(processing, nextId) && IdsBelow(completed, nextId)
    && AllWithStatus(pending, Pending) && AllWithStatus(processing, Processing) && AllFinished(completed)
    && |completed| <= CompletedLimit
  }

  /**
   * Where an id is decides what `getTaskStatus` answers: each list's status
   * when the id is in it, and nothing when it is in none of them, in
   * particular for an id not issued yet.
   */
  lemma StatusReflectsList(pending: seq<QueueTask>, processing: seq<QueueTask>, completed: seq<QueueTask>, nextId: nat, id: nat)
    requires WellFormed(pending, processing, completed, nextId)
    ensures StatusOf(pending, processing, completed, id).None? <==>
      !HasId(pending, id) && !HasId(processing, id) && !HasId(completed, id)
    ensures HasId(pending, id) ==> StatusOf(pending, processing, completed, id) == Some(Pending)
    ensures HasId(processing, id) ==> StatusOf(pending, processing, completed, id) == Some(Processing)
    ensures HasId(completed, id) ==>
      StatusOf(pending, processing, completed, id) == Some(Completed) || StatusOf(pending, processing, completed, id) == Some(Failed)
    ensures id >= nextId ==> StatusOf(pending, processing, completed, id).None?
  {
    if HasId(processing, id) {
      var j :| 0 <= j < |processing| && processing[j].id == id;
      assert !HasId(pending, id);
    }
    if HasId(completed, id) {
      var j :| 0 <= j < |completed| && completed[j].id == id;
      assert !HasId(pending, id) && !HasId(processing, id);
    }
    if id >= nextId {
      assert !HasId(pending, id) && !HasId(processing, id) && !HasId(completed, id);
    }
  }

  /** Adding a task with the next id keeps the lists well formed. */
  lemma AddKeepsWellFormed(pending: seq<QueueTask>, processing: seq<QueueTask>, completed: seq<QueueTask>, nextId: nat, t: QueueTask)
    requires WellFormed(pending, processing, completed, nextId)
    requires t.id == nextId && t.status == Pending
    ensures WellFormed(Push(pending, t), processing, completed, nextId + 1)
  {
  }

  /** Moving the oldest pending task to the head of the processing list, as processing, keeps the lists well formed. */
  lemma DequeueKeepsWellFormed(pending: seq<QueueTask>, processing: seq<QueueTask>, completed: seq<QueueTask>, nextId: nat)
    requires WellFormed(pending, processing, completed, nextId)
    requires pending != []
    ensures var last := |pending| - 1;
      WellFormed(pending[..last], Push(processing, pending[last].(status := Processing)), completed, nextId)
  {
  }

  /** Moving a processing task, finished, to the head of the trimmed completed list keeps the lists well formed. */
  lemma CompleteKeepsWellFormed(pending: seq<QueueTask>, processing: seq<QueueTask>, completed: seq<QueueTask>, nextId: nat,
                                k: nat, error: Option<string>, now: string)
    requires WellFormed(pending, processing, completed, nextId)
    requires k < |processing|
    ensures WellFormed(pending, RemoveAt(processing, k), Trim(Push(completed, Finished(processing[k], error, now))), nextId)
  {
    var c := Push(completed, Finished(processing[k], error, now));
    assert DistinctIds(c);
    assert Disjoint(pending, c);
  }

  /** The oldest pending task is at the tail: its id is the smallest there. */
  lemma OldestAtTail(pending: seq<QueueTask>)
    requires NewestFirst(pending) && pending != []
    ensures forall j :: 0 <= j < |pending| ==> pending[|pending| - 1].id <= pending[j].id
  {
  }

  // ---------------------------------------------------------------------------
  // The client

  /** `tasks.findIndex(t => t.id === id)`, with `None` for -1. */
  method FindIndex(tasks: seq<QueueTask>, id: nat) returns (r: Option<nat>)
    ensures r == IndexOf(tasks, id)
  {
    var i := 0;
    while i < |tasks|
      invariant 0 <= i <= |tasks|
      invariant forall j :: 0 <= j < i ==> tasks[j].id != id
    {
      if tasks[i].id == id {
        IndexOfFirst(tasks, id, i);
        return Some(i);
      }
      i := i + 1;
    }
    return None;
  }

  lemma IndexOfFirst(tasks: seq<QueueTask>, id: nat, i: nat)
    requires i < |tasks| && tasks[i].id == id
    requires forall j :: 0 <= j < i ==> tasks[j].id != id
    ensures IndexOf(tasks, id) == Some(i)
  {
    match IndexOf(tasks, id)
    case None =>
    case Some(k) =>
  }

  class QueueClient {
    var pending: seq<QueueTask>
    var processing: seq<QueueTask>
    var completed: seq<QueueTask>
    /** The next id to hand out; it stands for the uuid generator. */
    var nextId: nat

    ghost predicate Valid()
      reads this
    {
      WellFormed(pending, processing, completed, nextId)
    }

    constructor ()
      ensures Valid()
      ensures pending == [] && processing == [] && completed == []
    {
      pending, processing, completed := [], [], [];
      nextId := 0;
    }

    /** `addTask`: a new pending task at the head of the pending list; returns its id. */
    method AddTask(task: TradeTask, now: string) returns (id: nat)
      requires Valid()
      modifies this
      ensures Valid()
      ensures id == old(nextId) && nextId == id + 1
      ensures pending == Push(old(pending), QueueTask(id, task, Pending, now, None, None))
      ensures processing == old(processing) && completed == old(completed)
      ensures StatusOf(pending, processing, completed, id) == Some(Pending)
    {
      id := nextId;
      var t := QueueTask(id, task, Pending, now, None, None);
      AddKeepsWellFormed(pending, processing, completed, nextId, t);
      pending := Push(pending, t);
      nextId := nextId + 1;
      assert pending[0].id == id;
      StatusReflectsList(pending, processing, completed, nextId, id);
    }

    /**
     * `getNextTask`: `RPOPLPUSH` moves the oldest pending task to the head of
     * the processing list, where it is rewritten as processing; nothing
     * happens to an empty pending list.
     */
    method GetNextTask() returns (r: Option<QueueTask>)
      requires Valid()
      modifies this`pending, this`processing
      ensures Valid()
      ensures old(pending) == [] ==> r.None? && pending == old(pending) && processing == old(processing)
      ensures old(pending) != [] ==>
        var last := |old(pending)| - 1;
        && r == Some(old(pending)[last].(status := Processing))
        && pending == old(pending)[..last]
        && processing == Push(old(processing), r.value)
      ensures r.Some? ==> forall j :: 0 <= j < |old(pending)| ==> r.value.id <= old(pending)[j].id
    {
      if pending == [] {
        return None;
      }
      var last := |pending| - 1;
      DequeueKeepsWellFormed(pending, processing, completed, nextId);
      OldestAtTail(pending);
      var t := pending[last];
      pending := pending[..last];
      processing := Push(processing, t);
      var task := t.(status := Processing);
      UpdateTask(task);
      IndexOfFirst(processing, task.id, 0);
      return Some(task);
    }

    /** `updateTask`: overwrites the first processing entry with the task's id, if there is one. */
    method UpdateTask(task: QueueTask)
      modifies this`processing
      ensures processing == match IndexOf(old(processing), task.id)
        case None => old(processing)
        case Some(k) => old(processing)[k := task]
    {
      var k := FindIndex(processing, task.id);
      if k.Some? {
        processing := processing[k.value := task];
      }
    }

    /**
     * `completeTask`: a task not being processed is ignored; otherwise it
     * leaves the processing list and goes, finished, to the head of the
     * completed list, which is trimmed to its newest thousand.
     */
    method CompleteTask(taskId: nat, error: Option<string>, now: string)
      requires Valid()
      modifies this`processing, this`completed
      ensures Valid()
      ensures match IndexOf(old(processing), taskId)
        case None => processing == old(processing) && completed == old(completed)
        case Some(k) =>
          && processing == RemoveAt(old(processing), k)
          && completed == Trim(Push(old(completed), Finished(old(processing)[k], error, now)))
    {
      var k := FindIndex(processing, taskId);
      if k.None? {
        return;
      }
      var taskStr := processing[k.value];
      RemoveFirstAtIndex(processing, k.value);
      CompleteKeepsWellFormed(pending, processing, completed, nextId, k.value, error, now);
      processing := RemoveFirst(processing, taskStr);
      completed := Push(completed, Finished(taskStr, error, now));
      completed := Trim(completed);
    }

    /** `getTaskStatus`: the status of the task with this id, searching pending, processing and completed in turn. */
    method GetTaskStatus(taskId: nat) returns (r: Option<TaskStatus>)
      ensures r == StatusOf(pending, processing, completed, taskId)
    {
      var queues := [pending, processing, completed];
      for qi := 0 to 3
        invariant forall j :: 0 <= j < qi ==> IndexOf(queues[j], taskId).None?
      {
        var k := FindIndex(queues[qi], taskId);
        if k.Some? {
          assert StatusIn(queues[qi], taskId) == Some(queues[qi][k.value].status);
          assert forall j :: 0 <= j < qi ==> StatusIn(queues[j], taskId).None?;
          assert qi == 0 || qi == 1 || qi == 2;
          assert queues[0] == pending && queues[1] == processing && queues[2] == completed;
          return Some(queues[qi][k.value].status);
        }
      }
      assert forall j :: 0 <= j < 3 ==> StatusIn(queues[j], taskId).None?;
      assert queues[0] == pending && queues[1] == processing && queues[2] == completed;
      return None;
    }
  }

  /** `getInstance`: one client, created on first use. */
  class Instances {
    var instance: QueueClient?

    constructor ()
      ensures instance == null
    {
      instance := null;
    }

    method GetInstance() returns (c: QueueClient)
      modifies this
      ensures old(instance) != null ==> c == old(instance)
      ensures old(instance) == null ==> fresh(c) && c.Valid() && c.pending == [] && c.processing == [] && c.completed == []
      ensures instance == c
    {
      if instance == null {
        instance := new QueueClient();
      }
      c := instance;
    }
  }
}
