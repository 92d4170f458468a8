/**
 The seller runtime as a state machine: one step per stretch of code between awaits, any number of
 concurrent activities, crashes at any moment, and a durable snapshot that a restart resumes from.
 */
module SellerMachine {
  import opened Wrappers
  import opened SellerResult
  import opened SellerStore

  /**
   Where one call of runQueuedTask stands: waiting for its first persist, about to call the executor,
   inside the executor, past it, or past it after a later throw made it finalize a second time.
   */
  datatype Stage = Started | Persisted | Executing | Settled | Refailed

  datatype System = System(
    store: Store,
    durable: Store,
    runs: map<TaskId, Stage>,      // the calls of runQueuedTask in flight
    owed: nat,                     // continuations that still have to call scheduleProcessQueue
    pending: map<TaskId, Task>,    // inbox tasks between the lookup and the insert
    executed: seq<RequestId>,      // every call of the executor, over all crashes
    arrival: map<TaskId, nat>,     // when each task was pushed
    used: set<TaskId>,             // every task id ever drawn
    orphans: set<TaskId>,          // tasks that were RUNNING in a snapshot a restart resumed from
    dormant: bool                  // restarted, and nothing enqueued since
  )

  function Init(workers: int): System {
    System(EmptyStore(workers), EmptyStore(workers), map[], 0, map[], [], map[], {}, {}, false)
  }

  datatype Event =
    | Submit(task: Task)                       // POST /controller/tasks
    | Receive(task: Task)                      // an envelope reaches the lookup in processSellerInbox
    | Accept(id: TaskId)                       // ... and, past the token check, is enqueued
    | Reject(id: TaskId, result: Finished)     // ... or is stored as already completed
    | Schedule                                 // one turn of a scheduleProcessQueue loop
    | Snapshot                                 // any persistSellerState
    | PersistRun(id: TaskId)                   // the persist at the head of runQueuedTask
    | Execute(id: TaskId)                      // the call of the executor
    | ReturnDeferred(id: TaskId)
    | ReturnResult(id: TaskId, result: Finished)
    | Refinalize(id: TaskId, result: Finished) // a send, metric or persist threw after the executor returned
    | ReleaseRun(id: TaskId)                   // the finally block
    | Crash                                    // the process dies and restarts from the last snapshot

  ghost predicate FreshTask(s: System, t: Task) {
    && t.id != "" && t.id !in s.used
    && t.status == QUEUED && !t.deferred && t.result == None
  }

  ghost predicate RunAt(s: System, id: TaskId, stage: Stage) {
    id in s.runs && s.runs[id] == stage && id in s.store.tasks
  }

  ghost predicate Enabled(s: System, e: Event) {
    match e
    case Submit(t) => FreshTask(s, t)
    case Receive(t) => FreshTask(s, t)
    case Accept(id) => id in s.pending
    case Reject(id, _) => id in s.pending
    case Schedule => s.owed > 0
    case Snapshot => true
    case PersistRun(id) => RunAt(s, id, Started)
    case Execute(id) => RunAt(s, id, Persisted)
    case ReturnDeferred(id) => RunAt(s, id, Executing)
    case ReturnResult(id, _) => RunAt(s, id, Executing)
    case Refinalize(id, _) => RunAt(s, id, Settled)
    case ReleaseRun(id) => RunAt(s, id, Settled) || RunAt(s, id, Refailed)
    case Crash => true
  }

  /** No other entry point is between its lookup and its insert for the same request. */
  ghost predicate Exclusive(s: System, e: Event) {
    (e.Submit? || e.Receive?) ==> forall p | p in s.pending :: s.pending[p].RequestId() != e.task.RequestId()
  }

  /** What an insert needs: the request is not indexed. A posted task is looked up in the same stretch as its insert. */
  ghost predicate Guarded(s: System, e: Event) {
    (e.Accept? || e.Reject?) && e.id in s.pending ==> s.pending[e.id].RequestId() !in s.store.requestIndex
  }

  function Push(s: System, t: Task): System {
    s.(store := Enqueue(s.store, t), owed := s.owed + 1, dormant := false,
       arrival := s.arrival[t.id := |s.arrival|], used := s.used + {t.id}, pending := s.pending - {t.id})
  }

  function Running(m: Store): set<TaskId> {
    set t | t in m.tasks && m.tasks[t].status == RUNNING
  }

  ghost function Step(s: System, e: Event): System
    requires Enabled(s, e)
  {
    match e
    case Submit(t) => if TaskForRequest(s.store, t.RequestId()).Some? then s else Push(s, t)
    case Receive(t) =>
      if TaskForRequest(s.store, t.RequestId()).Some? then s
      else s.(pending := s.pending[t.id := t], used := s.used + {t.id})
    case Accept(id) => Push(s, s.pending[id])
    case Reject(id, result) =>
      s.(store := Remember(s.store, s.pending[id].(status := COMPLETED, result := Some(result))),
         pending := s.pending - {id})
    case Schedule =>
      (match ScheduleOnce(s.store)
       case Exit(m) => s.(store := m, owed := s.owed - 1)
       case Skip(m) => s.(store := m)
       case Start(m, id) => s.(store := m, runs := s.runs[id := Started]))
    case Snapshot => s.(durable := s.store)
    case PersistRun(id) => s.(durable := s.store, runs := s.runs[id := Persisted])
    case Execute(id) =>
      s.(runs := s.runs[id := Executing], executed := s.executed + [s.store.tasks[id].RequestId()])
    case ReturnDeferred(id) => s.(store := Defer(s.store, id), runs := s.runs[id := Settled])
    case ReturnResult(id, result) => s.(store := Complete(s.store, id, result), runs := s.runs[id := Settled])
    case Refinalize(id, result) => s.(store := Complete(s.store, id, result), runs := s.runs[id := Refailed])
    case ReleaseRun(id) =>
      s.(store := Release(s.store, id), runs := s.runs - {id}, owed := s.owed + 1, dormant := false)
    case Crash =>
      s.(store := Rehydrate(s.durable), runs := map[], owed := 0, pending := map[],
         orphans := s.orphans + Running(s.durable), dormant := true)
  }

  // ----- runs -----

  ghost predicate Next(s: System, e: Event, s': System) {
    Enabled(s, e) && s' == Step(s, e)
  }

  /** A run: the states a fresh seller goes through, and the events between them. */
  ghost predicate IsRun(workers: int, states: seq<System>, events: seq<Event>) {
    && |states| == |events| + 1 && states[0] == Init(workers)
    && forall i {:trigger events[i]} | 0 <= i < |events| :: Next(states[i], events[i], states[i + 1])
  }

  /** No two entry points ever handle the same request at once. */
  ghost predicate NoOverlap(states: seq<System>, events: seq<Event>) {
    && |states| == |events| + 1
    && forall i {:trigger events[i]} | 0 <= i < |events| :: Exclusive(states[i], events[i])
  }

  /** Every insert of a run finds its request not indexed. */
  ghost predicate GuardedRun(states: seq<System>, events: seq<Event>) {
    && |states| == |events| + 1
    && forall i {:trigger events[i]} | 0 <= i < |events| :: Guarded(states[i], events[i])
  }

  // ----- the invariant -----

  ghost predicate TaskOk(m: Store, t: TaskId)
    requires t in m.tasks
  {
    && t != "" && m.tasks[t].id == t
    && m.tasks[t].RequestId() in m.requestIndex && m.requestIndex[m.tasks[t].RequestId()] == t
    && (m.tasks[t].status == QUEUED <==> t in m.queue)
    && (m.tasks[t].status == COMPLETED <==> m.tasks[t].result.Some?)
  }

  /** tasks and requestIndex are inverse to each other; QUEUED means queued, COMPLETED means there is a result. */
  ghost predicate StoreOk(m: Store) {
    && (forall t | t in m.tasks :: TaskOk(m, t))
    && (forall r | r in m.requestIndex ::
          m.requestIndex[r] in m.tasks && m.tasks[m.requestIndex[r]].RequestId() == r)
    && NoDup(m.queue) && Known(m.tasks, m.queue)
    && m.workerConcurrency >= 1
  }

  /** x is to be started before y: smaller priority, then earlier enqueued_at, then pushed first. */
  ghost predicate Earlier(tasks: map<TaskId, Task>, arrival: map<TaskId, nat>, x: TaskId, y: TaskId) {
    && x in tasks && y in tasks && x in arrival && y in arrival
    && (Compare(tasks, x, y) < 0 || (Compare(tasks, x, y) == 0 && arrival[x] < arrival[y]))
  }

  ghost predicate InOrder(tasks: map<TaskId, Task>, arrival: map<TaskId, nat>, q: seq<TaskId>) {
    && (forall t | t in q :: t in arrival)
    && forall i, j | 0 <= i < j < |q| :: Earlier(tasks, arrival, q[i], q[j])
  }

  ghost predicate ActiveOk(s: System) {
    && NoDup(s.store.active) && SeqToSet(s.store.active) == s.runs.Keys
    && |s.store.active| <= s.store.workerConcurrency
    && forall t | t in s.runs ::
         && t in s.store.tasks && s.store.tasks[t].status != QUEUED
         && (if s.runs[t].Settled? || s.runs[t].Refailed? then s.store.tasks[t].status == COMPLETED
             || s.store.tasks[t].deferred
             else s.store.tasks[t].status == RUNNING)
  }

  /** Nothing runs but the active tasks, the deferred ones, and those a crash interrupted. */
  ghost predicate RunningOk(s: System) {
    forall t | t in s.store.tasks && s.store.tasks[t].status == RUNNING ::
      t in s.store.active || s.store.tasks[t].deferred || t in s.orphans
  }

  ghost predicate PendingOk(s: System) {
    && (forall p | p in s.pending ::
          && s.pending[p].id == p && p != "" && p in s.used
          && s.pending[p].status == QUEUED && !s.pending[p].deferred && s.pending[p].result == None
          && p !in s.store.tasks && p !in s.arrival)
  }

  ghost predicate UsedOk(s: System) {
    && s.store.tasks.Keys <= s.used && s.durable.tasks.Keys <= s.used && s.arrival.Keys <= s.used
    && (forall t | t in s.arrival :: s.arrival[t] < |s.arrival|)
    && s.durable.workerConcurrency == s.store.workerConcurrency
  }

  /** r is indexed in m and its task has left m's queue. */
  ghost predicate Dequeued(m: Store, r: RequestId) {
    r in m.requestIndex && m.requestIndex[r] !in m.queue
  }

  /** The executor has not been called yet. */
  predicate Pending(stage: Stage) {
    stage.Started? || stage.Persisted?
  }

  /** A waiting task and a free worker mean that some continuation will still schedule. */
  ghost predicate WorkOk(s: System) {
    s.store.queue != [] && |s.store.active| < s.store.workerConcurrency ==> s.owed > 0 || s.dormant
  }

  ghost predicate Inv(s: System) {
    && StoreOk(s.store) && StoreOk(s.durable)
    && InOrder(s.store.tasks, s.arrival, s.store.queue) && InOrder(s.durable.tasks, s.arrival, s.durable.queue)
    && ActiveOk(s) && RunningOk(s) && PendingOk(s) && UsedOk(s) && WorkOk(s)
  }

  lemma InitInv(workers: int)
    ensures Inv(Init(workers))
  {
  }

  // ----- pushing a task -----

  lemma InsertInOrder(tasks: map<TaskId, Task>, arrival: map<TaskId, nat>, q: seq<TaskId>, x: TaskId)
    requires Known(tasks, q + [x]) && InOrder(tasks, arrival, q)
    requires x in arrival && forall y | y in q :: arrival[y] < arrival[x]
    ensures InOrder(tasks, arrival, OrderedInsert(tasks, q, x))
  {
    assert Sorted(tasks, q) by {
      forall i, j | 0 <= i < j < |q| ensures Compare(tasks, q[i], q[j]) <= 0 {
        assert Earlier(tasks, arrival, q[i], q[j]);
      }
    }
    var k := InsertPlace(tasks, q, x);
    var r := OrderedInsert(tasks, q, x);
    assert |r| == |q| + 1;
    forall i, j | 0 <= i < j < |r| ensures Earlier(tasks, arrival, r[i], r[j]) {
      InsertedPair(tasks, arrival, q, x, k, i, j);
    }
  }

  /** Two neighbours, near or far, of a queue into which x was inserted at k. */
  lemma InsertedPair(tasks: map<TaskId, Task>, arrival: map<TaskId, nat>, q: seq<TaskId>, x: TaskId, k: nat, i: nat,
                     j: nat)
    requires k <= |q| && i < j <= |q| && Known(tasks, q + [x]) && InOrder(tasks, arrival, q)
    requires x in arrival && forall y | y in q :: arrival[y] < arrival[x]
    requires forall l | 0 <= l < k :: Compare(tasks, q[l], x) <= 0
    requires forall l | k <= l < |q| :: Compare(tasks, q[l], x) > 0
    ensures var r := q[..k] + [x] + q[k..]; Earlier(tasks, arrival, r[i], r[j])
  {
    hide Compare;
    var r := q[..k] + [x] + q[k..];
    assert r[i] == (if i < k then q[i] else if i == k then x else q[i - 1]);
    assert r[j] == (if j < k then q[j] else if j == k then x else q[j - 1]);
    if i == k {
      CompareSwaps(tasks, x, q[j - 1]);
      assert x in q + [x] && q[j - 1] in q + [x];
    } else if j == k {
      assert x in q + [x] && q[i] in q + [x];
    } else {
      var i', j' := if i < k then i else i - 1, if j < k then j else j - 1;
      assert Earlier(tasks, arrival, q[i'], q[j']);
    }
  }

  lemma InOrderNoDup(tasks: map<TaskId, Task>, arrival: map<TaskId, nat>, q: seq<TaskId>)
    requires InOrder(tasks, arrival, q)
    ensures NoDup(q)
  {
    forall i, j | 0 <= i < j < |q| ensures q[i] != q[j] {
      assert Earlier(tasks, arrival, q[i], q[j]);
    }
  }

  lemma GrowInOrder(tasks: map<TaskId, Task>, arrival: map<TaskId, nat>, q: seq<TaskId>, t: Task)
    requires InOrder(tasks, arrival, q) && t.id !in arrival
    ensures InOrder(tasks[t.id := t], arrival[t.id := |arrival|], q)
  {
    forall i, j | 0 <= i < j < |q| ensures Earlier(tasks[t.id := t], arrival[t.id := |arrival|], q[i], q[j]) {
      assert Earlier(tasks, arrival, q[i], q[j]);
    }
  }

  /** The store after a push: the queue in order, with exactly one more task in it. */
  lemma EnqueueStore(m: Store, arrival: map<TaskId, nat>, t: Task)
    requires InOrder(m.tasks, arrival, m.queue) && Known(m.tasks, m.queue)
    requires t.id !in arrival && forall x | x in arrival :: arrival[x] < |arrival|
    ensures InOrder(Enqueue(m, t).tasks, arrival[t.id := |arrival|], Enqueue(m, t).queue)
    ensures forall x :: x in Enqueue(m, t).queue <==> x in m.queue || x == t.id
  {
    var tasks, arrival' := m.tasks[t.id := t], arrival[t.id := |arrival|];
    GrowInOrder(m.tasks, arrival, m.queue, t);
    assert Sorted(tasks, m.queue) by {
      forall i, j | 0 <= i < j < |m.queue| ensures Compare(tasks, m.queue[i], m.queue[j]) <= 0 {
        assert Earlier(tasks, arrival', m.queue[i], m.queue[j]);
      }
    }
    PushThenSort(tasks, m.queue, t.id);
    InsertInOrder(tasks, arrival', m.queue, t.id);
  }

  /** m' is m with the task t added, under a new id and for a request not indexed before. */
  ghost predicate StoreGrown(m: Store, m': Store, t: Task) {
    && t.id != "" && t.id !in m.tasks && t.RequestId() !in m.requestIndex
    && (t.status == COMPLETED <==> t.result.Some?) && t.status != RUNNING
    && m'.tasks == m.tasks[t.id := t] && m'.requestIndex == m.requestIndex[t.RequestId() := t.id]
    && m'.active == m.active && m'.workerConcurrency == m.workerConcurrency
    && (forall x :: x in m'.queue <==> x in m.queue || (x == t.id && t.status == QUEUED))
  }

  ghost predicate Grown(s: System, s': System, t: Task) {
    && StoreGrown(s.store, s'.store, t) && t.id !in s.arrival
    && s'.durable == s.durable && s'.runs == s.runs && s'.executed == s.executed && s'.orphans == s.orphans
    && s'.pending == s.pending - {t.id} && s'.used == s.used + {t.id}
    && s'.arrival == (if t.status == QUEUED then s.arrival[t.id := |s.arrival|] else s.arrival)
  }

  lemma GrowStoreOk(m: Store, m': Store, t: Task)
    requires StoreOk(m) && StoreGrown(m, m', t) && NoDup(m'.queue)
    ensures StoreOk(m')
  {
    forall x | x in m'.tasks ensures TaskOk(m', x) {
      assert x != t.id ==> TaskOk(m, x);
    }
  }

  lemma GrowDurableInOrder(s: System, s': System, t: Task)
    requires InOrder(s.durable.tasks, s.arrival, s.durable.queue) && Grown(s, s', t)
    ensures InOrder(s'.durable.tasks, s'.arrival, s'.durable.queue)
  {
    var q := s.durable.queue;
    forall i, j | 0 <= i < j < |q| ensures Earlier(s.durable.tasks, s'.arrival, q[i], q[j]) {
      assert Earlier(s.durable.tasks, s.arrival, q[i], q[j]);
    }
  }

  lemma GrowActive(s: System, s': System, t: Task)
    requires ActiveOk(s) && RunningOk(s) && Grown(s, s', t)
    ensures ActiveOk(s') && RunningOk(s')
  {
  }

  lemma GrowPending(s: System, s': System, t: Task)
    requires PendingOk(s) && Grown(s, s', t)
    ensures PendingOk(s')
  {
  }

  lemma GrowUsed(s: System, s': System, t: Task)
    requires UsedOk(s) && Grown(s, s', t)
    ensures UsedOk(s')
  {
  }

  /** What one more task asks of the rest of the state. */
  lemma GrownKeepsInv(s: System, s': System, t: Task)
    requires Inv(s) && Grown(s, s', t) && NoDup(s'.store.queue) && WorkOk(s')
    requires InOrder(s'.store.tasks, s'.arrival, s'.store.queue)
    ensures Inv(s')
  {
    hide StoreOk, ActiveOk, RunningOk, PendingOk, UsedOk, WorkOk, InOrder, NoDup;
    assert StoreGrown(s.store, s'.store, t) && s'.durable == s.durable;
    hide Grown, StoreGrown;
    GrowStoreOk(s.store, s'.store, t);
    GrowDurableInOrder(s, s', t);
    GrowActive(s, s', t);
    GrowPending(s, s', t);
    GrowUsed(s, s', t);
  }

  lemma PushIsGrown(s: System, t: Task)
    requires t.id != "" && t.id !in s.store.tasks && t.id !in s.arrival && t.RequestId() !in s.store.requestIndex
    requires t.status == QUEUED && !t.deferred && t.result == None
    requires forall x :: x in Enqueue(s.store, t).queue <==> x in s.store.queue || x == t.id
    ensures Grown(s, Push(s, t), t) && WorkOk(Push(s, t))
  {
    hide StableSort, OrderedInsert;
  }

  lemma PushGrows(s: System, t: Task)
    requires StoreOk(s.store) && UsedOk(s) && InOrder(s.store.tasks, s.arrival, s.store.queue)
    requires t.id != "" && t.id !in s.store.tasks && t.id !in s.arrival && t.RequestId() !in s.store.requestIndex
    requires t.status == QUEUED && !t.deferred && t.result == None
    ensures var s' := Push(s, t);
            && Grown(s, s', t) && InOrder(s'.store.tasks, s'.arrival, s'.store.queue)
            && NoDup(s'.store.queue) && WorkOk(s')
  {
    EnqueueStore(s.store, s.arrival, t) by {
      hide TaskOk;
    }
    PushIsGrown(s, t);
    var s' := Push(s, t);
    assert s'.store == Enqueue(s.store, t) && s'.arrival == s.arrival[t.id := |s.arrival|];
    hide StableSort, OrderedInsert, InOrder, StoreOk, NoDup, Enqueue, Push, Grown, WorkOk;
    InOrderNoDup(s'.store.tasks, s'.arrival, s'.store.queue);
  }

  lemma PushKeepsInv(s: System, t: Task)
    requires Inv(s) && t.id != "" && t.id !in s.store.tasks && t.id !in s.arrival
    requires t.status == QUEUED && !t.deferred && t.result == None
    requires t.RequestId() !in s.store.requestIndex
    ensures Inv(Push(s, t))
  {
    PushGrows(s, t);
    hide Push, StoreOk, ActiveOk, RunningOk, PendingOk, UsedOk, WorkOk, InOrder, NoDup, Grown;
    GrownKeepsInv(s, Push(s, t), t);
  }

  lemma AcceptKeepsInv(s: System, id: TaskId)
    requires Inv(s) && id in s.pending && Guarded(s, Accept(id))
    ensures Inv(Push(s, s.pending[id]))
  {
    PushKeepsInv(s, s.pending[id]);
  }

  lemma RejectIs(s: System, id: TaskId, result: Finished)
    requires id in s.pending
    ensures Step(s, Reject(id, result)) ==
            s.(store := Remember(s.store, s.pending[id].(status := COMPLETED, result := Some(result))),
               pending := s.pending - {id})
  {
  }

  lemma RejectGrows(s: System, id: TaskId, result: Finished)
    requires StoreOk(s.store) && PendingOk(s) && InOrder(s.store.tasks, s.arrival, s.store.queue) && WorkOk(s)
    requires id in s.pending && Guarded(s, Reject(id, result))
    ensures var s', t := Step(s, Reject(id, result)), s.pending[id].(status := COMPLETED, result := Some(result));
            && Grown(s, s', t) && InOrder(s'.store.tasks, s'.arrival, s'.store.queue)
            && NoDup(s'.store.queue) && WorkOk(s')
  {
    RejectIs(s, id, result);
    hide InOrder, Step;
    var s', t := Step(s, Reject(id, result)), s.pending[id].(status := COMPLETED, result := Some(result));
    assert s'.used == s.used + {id};
    SameKeysInOrder(s.store.tasks, s'.store.tasks, s.arrival, s.store.queue);
  }

  lemma RejectKeepsInv(s: System, id: TaskId, result: Finished)
    requires Inv(s) && id in s.pending && Guarded(s, Reject(id, result))
    ensures Inv(Step(s, Reject(id, result)))
  {
    RejectGrows(s, id, result);
    var t := s.pending[id].(status := COMPLETED, result := Some(result));
    hide Step, StoreOk, ActiveOk, RunningOk, PendingOk, UsedOk, WorkOk, InOrder, NoDup, Grown, Guarded;
    GrownKeepsInv(s, Step(s, Reject(id, result)), t);
  }

  // ----- changing one task -----

  /** Tasks keep their priority and enqueued_at. */
  ghost predicate SameKeys(a: map<TaskId, Task>, b: map<TaskId, Task>) {
    forall t | t in a :: t in b && b[t].priority == a[t].priority && b[t].enqueuedAt == a[t].enqueuedAt
  }

  lemma SameKeysInOrder(a: map<TaskId, Task>, b: map<TaskId, Task>, arrival: map<TaskId, nat>, q: seq<TaskId>)
    requires SameKeys(a, b) && InOrder(a, arrival, q)
    ensures InOrder(b, arrival, q)
  {
    forall i, j | 0 <= i < j < |q| ensures Earlier(b, arrival, q[i], q[j]) {
      assert Earlier(a, arrival, q[i], q[j]);
    }
  }

  lemma StartKeepsStoreOk(m: Store, m': Store, id: TaskId)
    requires StoreOk(m) && ScheduleOnce(m) == Start(m', id)
    ensures StoreOk(m') && id !in m'.queue && SameKeys(m.tasks, m'.tasks) && m'.queue == m.queue[1..]
    ensures m.tasks[id].status == QUEUED
  {
    assert m.queue == [id] + m'.queue;
    assert TaskOk(m, id);
    forall x | x in m'.tasks ensures TaskOk(m', x) {
      assert TaskOk(m, x);
    }
  }

  lemma TailInOrder(tasks: map<TaskId, Task>, arrival: map<TaskId, nat>, q: seq<TaskId>)
    requires q != [] && InOrder(tasks, arrival, q)
    ensures InOrder(tasks, arrival, q[1..])
    ensures forall u | u in q[1..] :: Earlier(tasks, arrival, q[0], u)
  {
  }

  lemma StartIsInactive(s: System, m': Store, id: TaskId)
    requires StoreOk(s.store) && ActiveOk(s) && ScheduleOnce(s.store) == Start(m', id)
    ensures id !in s.runs && id !in s.store.active
    ensures m'.active == s.store.active + [id] && |m'.active| <= m'.workerConcurrency
    ensures m'.tasks == s.store.tasks[id := s.store.tasks[id].(status := RUNNING)]
  {
    StartKeepsStoreOk(s.store, m', id);
    assert forall x | x in s.store.active :: x in SeqToSet(s.store.active);
  }

  lemma StartKeepsActive(s: System, s': System, id: TaskId)
    requires ActiveOk(s) && RunningOk(s) && id in s.store.tasks && id !in s.runs && id !in s.store.active
    requires s'.store.tasks == s.store.tasks[id := s.store.tasks[id].(status := RUNNING)]
    requires s'.store.active == s.store.active + [id] && |s'.store.active| <= s'.store.workerConcurrency
    requires s'.runs == s.runs[id := Started] && s'.orphans == s.orphans
    ensures ActiveOk(s') && RunningOk(s')
  {
    NoDupAppend(s.store.active, id);
    assert SeqToSet(s'.store.active) == SeqToSet(s.store.active) + {id};
  }

  /** A step that neither adds nor removes tasks, requests or pending work. */
  lemma FramePending(s: System, s': System)
    requires PendingOk(s) && UsedOk(s)
    requires s'.pending == s.pending && s'.used == s.used && s'.arrival == s.arrival
    requires s'.store.tasks.Keys == s.store.tasks.Keys && s'.store.requestIndex == s.store.requestIndex
    requires s'.store.workerConcurrency == s.store.workerConcurrency == s'.durable.workerConcurrency
    requires s'.durable.tasks.Keys <= s.used
    ensures PendingOk(s') && UsedOk(s')
  {
  }

  lemma StartPending(s: System, m': Store, id: TaskId)
    requires PendingOk(s) && UsedOk(s) && ScheduleOnce(s.store) == Start(m', id)
    ensures PendingOk(s.(store := m', runs := s.runs[id := Started]))
    ensures UsedOk(s.(store := m', runs := s.runs[id := Started]))
  {
    FramePending(s, s.(store := m', runs := s.runs[id := Started]));
  }

  lemma StartKeepsInv(s: System, m': Store, id: TaskId)
    requires Inv(s) && ScheduleOnce(s.store) == Start(m', id) && s.owed > 0
    ensures Inv(s.(store := m', runs := s.runs[id := Started]))
  {
    hide StoreOk, ActiveOk, RunningOk, PendingOk, UsedOk, InOrder;
    var s' := s.(store := m', runs := s.runs[id := Started]);
    StartKeepsStoreOk(s.store, m', id);
    StartIsInactive(s, m', id);
    StartKeepsActive(s, s', id);
    TailInOrder(s.store.tasks, s.arrival, s.store.queue);
    SameKeysInOrder(s.store.tasks, m'.tasks, s.arrival, m'.queue);
    StartPending(s, m', id);
  }

  lemma HeadIsKnown(m: Store)
    requires StoreOk(m) && m.queue != []
    ensures m.queue[0] in m.tasks && m.queue[0] != ""
  {
    assert TaskOk(m, m.queue[0]);
  }

  lemma FrameRunsOwed(s: System, owed: nat)
    requires ActiveOk(s) && RunningOk(s) && PendingOk(s) && UsedOk(s)
    ensures var s' := s.(owed := owed); ActiveOk(s') && RunningOk(s') && PendingOk(s') && UsedOk(s')
  {
  }

  lemma ExitSays(m: Store, m': Store)
    requires StoreOk(m) && ScheduleOnce(m) == Exit(m')
    ensures m' == m && (m.queue == [] || |m.active| >= m.workerConcurrency)
  {
    if m.queue != [] {
      HeadIsKnown(m);
    }
  }

  lemma ExitKeepsInv(s: System, m: Store)
    requires Inv(s) && s.owed > 0 && ScheduleOnce(s.store) == Exit(m)
    ensures Inv(s.(store := m, owed := s.owed - 1))
  {
    hide StoreOk, InOrder, ActiveOk, RunningOk, PendingOk, UsedOk, ScheduleOnce;
    ExitSays(s.store, m);
    FrameRunsOwed(s, s.owed - 1);
  }

  lemma ScheduleKeepsInv(s: System)
    requires Inv(s) && s.owed > 0
    ensures Inv(Step(s, Schedule))
  {
    hide StoreOk, ActiveOk, RunningOk, PendingOk, UsedOk, InOrder;
    if s.store.queue != [] {
      HeadIsKnown(s.store);
    }
    match ScheduleOnce(s.store)
    case Exit(m') =>
      ExitKeepsInv(s, m');
    case Skip(_) =>
      assert false;
    case Start(m', id) =>
      StartKeepsInv(s, m', id);
  }

  /** m' differs from m in one task that is not queued before or after, and whose key and request stay. */
  ghost predicate OneTaskChanged(m: Store, m': Store, id: TaskId) {
    && id in m.tasks && id in m'.tasks && m' == m.(tasks := m'.tasks) && m'.tasks == m.tasks[id := m'.tasks[id]]
    && m'.tasks[id].id == id && m'.tasks[id].info == m.tasks[id].info
    && m'.tasks[id].priority == m.tasks[id].priority && m'.tasks[id].enqueuedAt == m.tasks[id].enqueuedAt
    && m.tasks[id].status != QUEUED && m'.tasks[id].status != QUEUED
    && (m'.tasks[id].status == COMPLETED <==> m'.tasks[id].result.Some?)
  }

  lemma ChangeKeepsStoreOk(m: Store, m': Store, id: TaskId)
    requires StoreOk(m) && OneTaskChanged(m, m', id)
    ensures StoreOk(m') && SameKeys(m.tasks, m'.tasks)
  {
    forall x | x in m'.tasks ensures TaskOk(m', x) {
      assert TaskOk(m, x);
    }
  }

  lemma ChangePending(s: System, s': System, id: TaskId)
    requires PendingOk(s) && UsedOk(s) && OneTaskChanged(s.store, s'.store, id)
    requires s' == s.(store := s'.store, runs := s'.runs)
    ensures PendingOk(s') && UsedOk(s')
  {
    FramePending(s, s');
  }

  lemma ChangeActive(s: System, s': System, id: TaskId, stage: Stage)
    requires ActiveOk(s) && RunningOk(s) && OneTaskChanged(s.store, s'.store, id) && id in s.runs
    requires s' == s.(store := s'.store, runs := s.runs[id := stage]) && (stage.Settled? || stage.Refailed?)
    requires s'.store.tasks[id].status == RUNNING ==> s'.store.tasks[id].deferred
    ensures ActiveOk(s') && RunningOk(s')
  {
    assert s'.runs.Keys == s.runs.Keys;
  }

  lemma ChangeKeepsInv(s: System, s': System, id: TaskId, stage: Stage)
    requires Inv(s) && OneTaskChanged(s.store, s'.store, id) && id in s.runs && s.runs[id] != Started
    requires s' == s.(store := s'.store, runs := s.runs[id := stage]) && (stage.Settled? || stage.Refailed?)
    requires s'.store.tasks[id].status == RUNNING ==> s'.store.tasks[id].deferred
    ensures Inv(s')
  {
    hide StoreOk, ActiveOk, RunningOk, PendingOk, UsedOk, InOrder;
    ChangeKeepsStoreOk(s.store, s'.store, id);
    SameKeysInOrder(s.store.tasks, s'.store.tasks, s.arrival, s.store.queue);
    ChangeActive(s, s', id, stage);
    ChangePending(s, s', id);
  }

  lemma SnapshotActive(s: System, runs: map<TaskId, Stage>)
    requires ActiveOk(s) && RunningOk(s) && runs.Keys == s.runs.Keys
    requires forall t | t in runs :: runs[t] == s.runs[t] || (s.runs[t] == Started && runs[t] == Persisted)
    ensures ActiveOk(s.(durable := s.store, runs := runs)) && RunningOk(s.(durable := s.store, runs := runs))
  {
  }

  lemma SnapshotKeepsInv(s: System, runs: map<TaskId, Stage>)
    requires Inv(s) && runs.Keys == s.runs.Keys
    requires forall t | t in runs :: runs[t] == s.runs[t] || (s.runs[t] == Started && runs[t] == Persisted)
    ensures Inv(s.(durable := s.store, runs := runs))
  {
    FramePending(s, s.(durable := s.store, runs := runs));
    SnapshotActive(s, runs);
    hide StoreOk, PendingOk, InOrder, ActiveOk, RunningOk, UsedOk;
  }

  lemma ExecuteActive(s: System, id: TaskId)
    requires ActiveOk(s) && RunningOk(s) && RunAt(s, id, Persisted)
    ensures ActiveOk(Step(s, Execute(id))) && RunningOk(Step(s, Execute(id)))
  {
    assert Step(s, Execute(id)).runs.Keys == s.runs.Keys;
  }

  lemma ExecuteKeepsInv(s: System, id: TaskId)
    requires Inv(s) && RunAt(s, id, Persisted)
    ensures Inv(Step(s, Execute(id)))
  {
    hide StoreOk, ActiveOk, RunningOk, PendingOk, UsedOk, InOrder;
    ExecuteActive(s, id);
    ExecutePending(s, id);
  }

  lemma ExecutePending(s: System, id: TaskId)
    requires PendingOk(s) && UsedOk(s) && RunAt(s, id, Persisted)
    ensures PendingOk(Step(s, Execute(id))) && UsedOk(Step(s, Execute(id)))
  {
  }

  lemma ReleaseSays(s: System, id: TaskId)
    requires Enabled(s, ReleaseRun(id))
    ensures var s' := Step(s, ReleaseRun(id));
            && s'.store == s.store.(active := Without(s.store.active, id)) && s'.runs == s.runs - {id}
            && s'.orphans == s.orphans
  {
    hide Without;
  }

  lemma WithoutSet(s: seq<TaskId>, x: TaskId)
    ensures SeqToSet(Without(s, x)) == SeqToSet(s) - {x}
  {
    hide Without;
  }

  /** One settled task less. */
  lemma LessActive(s: System, s': System, id: TaskId)
    requires ActiveOk(s) && RunningOk(s) && (RunAt(s, id, Settled) || RunAt(s, id, Refailed))
    requires s'.store == s.store.(active := Without(s.store.active, id)) && s'.runs == s.runs - {id}
    requires s'.orphans == s.orphans
    ensures ActiveOk(s') && RunningOk(s')
  {
    hide Without, NoDup, SeqToSet;
    WithoutNoDup(s.store.active, id);
    WithoutSet(s.store.active, id);
  }

  lemma ReleaseActive(s: System, id: TaskId)
    requires ActiveOk(s) && RunningOk(s) && (RunAt(s, id, Settled) || RunAt(s, id, Refailed))
    ensures ActiveOk(Step(s, ReleaseRun(id))) && RunningOk(Step(s, ReleaseRun(id)))
  {
    hide Without;
    ReleaseSays(s, id);
    hide Step, ActiveOk, RunningOk;
    LessActive(s, Step(s, ReleaseRun(id)), id);
  }

  lemma SameTasksStoreOk(m: Store, m': Store)
    requires StoreOk(m) && m'.tasks == m.tasks && m'.requestIndex == m.requestIndex && m'.queue == m.queue
    requires m'.workerConcurrency >= 1
    ensures StoreOk(m')
  {
    forall x | x in m'.tasks ensures TaskOk(m', x) {
      assert TaskOk(m, x);
    }
  }

  lemma ReleaseKeepsInv(s: System, id: TaskId)
    requires Inv(s) && (RunAt(s, id, Settled) || RunAt(s, id, Refailed))
    ensures Inv(Step(s, ReleaseRun(id)))
  {
    ReleaseActive(s, id);
    SameTasksStoreOk(s.store, Step(s, ReleaseRun(id)).store);
    FramePending(s, Step(s, ReleaseRun(id)));
  }

  lemma CrashKeepsInv(s: System)
    requires Inv(s)
    ensures Inv(Step(s, Crash))
  {
    SameTasksStoreOk(s.durable, Step(s, Crash).store);
  }

  // ----- every reachable state -----

  lemma StepKeepsInv(s: System, e: Event)
    requires Inv(s) && Enabled(s, e) && Guarded(s, e)
    ensures Inv(Step(s, e))
  {
    hide Inv;
    match e
    case Submit(t) => SubmitKeepsInv(s, t);
    case Receive(t) => ReceiveKeepsInv(s, t);
    case Accept(id) => AcceptKeepsInv(s, id);
    case Reject(id, result) => RejectKeepsInv(s, id, result);
    case Schedule => ScheduleKeepsInv(s);
    case Snapshot => SnapshotKeepsInv(s, s.runs);
    case PersistRun(id) => SnapshotKeepsInv(s, s.runs[id := Persisted]);
    case Execute(id) => ExecuteKeepsInv(s, id);
    case ReturnDeferred(id) => ReturnKeepsInv(s, e, id);
    case ReturnResult(id, _) => ReturnKeepsInv(s, e, id);
    case Refinalize(id, _) => ReturnKeepsInv(s, e, id);
    case ReleaseRun(id) => ReleaseKeepsInv(s, id);
    case Crash => CrashKeepsInv(s);
  }

  lemma UnknownRequest(m: Store, r: RequestId)
    requires StoreOk(m)
    ensures TaskForRequest(m, r) == None <==> r !in m.requestIndex
  {
    if r in m.requestIndex {
      assert TaskOk(m, m.requestIndex[r]);
    }
  }

  lemma SubmitKeepsInv(s: System, t: Task)
    requires Inv(s) && FreshTask(s, t)
    ensures Inv(Step(s, Submit(t)))
  {
    UnknownRequest(s.store, t.RequestId());
    if TaskForRequest(s.store, t.RequestId()) == None {
      PushKeepsInv(s, t);
    }
  }

  lemma FrameRuns(s: System, s': System)
    requires s'.store == s.store && s'.durable == s.durable && s'.runs == s.runs && s'.executed == s.executed
    requires s'.orphans == s.orphans && s'.owed == s.owed && s'.dormant == s.dormant
    ensures ActiveOk(s) ==> ActiveOk(s')
    ensures RunningOk(s) ==> RunningOk(s')
    ensures WorkOk(s) ==> WorkOk(s')
  {
  }

  lemma ReceivePending(s: System, t: Task)
    requires PendingOk(s) && UsedOk(s) && FreshTask(s, t)
    ensures var s' := s.(pending := s.pending[t.id := t], used := s.used + {t.id}); PendingOk(s') && UsedOk(s')
  {
    assert t.id !in s.store.tasks && t.id !in s.arrival;
  }

  lemma ReceiveKeepsInv(s: System, t: Task)
    requires Inv(s) && FreshTask(s, t)
    ensures Inv(Step(s, Receive(t)))
  {
    UnknownRequest(s.store, t.RequestId());
    if TaskForRequest(s.store, t.RequestId()) == None {
      ReceivePending(s, t);
      FrameRuns(s, Step(s, Receive(t)));
      hide StoreOk, ActiveOk, RunningOk, WorkOk, PendingOk, UsedOk, InOrder, FreshTask, Exclusive;
    }
  }

  lemma ResultChangesOne(m: Store, id: TaskId, result: Finished)
    requires id in m.tasks && m.tasks[id].id == id && m.tasks[id].status != QUEUED
    ensures OneTaskChanged(m, Complete(m, id, result), id) && Complete(m, id, result).tasks[id].status == COMPLETED
  {
  }

  lemma DeferralChangesOne(m: Store, id: TaskId)
    requires id in m.tasks && m.tasks[id].id == id && m.tasks[id].result == None
    requires m.tasks[id].status == RUNNING
    ensures OneTaskChanged(m, Defer(m, id), id) && Defer(m, id).tasks[id].deferred
  {
  }

  lemma RunningTask(s: System, id: TaskId)
    requires StoreOk(s.store) && ActiveOk(s) && id in s.runs
    ensures id in s.store.tasks && s.store.tasks[id].id == id && s.store.tasks[id].status != QUEUED
    ensures s.runs[id] == Executing ==> s.store.tasks[id].status == RUNNING && s.store.tasks[id].result == None
  {
    assert TaskOk(s.store, id);
  }

  predicate Returns(e: Event, id: TaskId) {
    e == ReturnDeferred(id) || (e.ReturnResult? && e.id == id) || (e.Refinalize? && e.id == id)
  }

  lemma ReturnIs(s: System, e: Event, id: TaskId)
    requires Enabled(s, e) && Returns(e, id)
    ensures id in s.store.tasks && id in s.runs && s.runs[id] != Started
    ensures e.ReturnDeferred? ==> s.runs[id] == Executing
    ensures Step(s, e) == s.(store := if e.ReturnDeferred? then Defer(s.store, id) else Complete(s.store, id, e.result),
                             runs := s.runs[id := if e.Refinalize? then Refailed else Settled])
  {
    hide Defer, Complete;
  }

  lemma ReturnChangesOne(s: System, e: Event, id: TaskId)
    requires StoreOk(s.store) && ActiveOk(s) && Enabled(s, e)
    requires Returns(e, id)
    ensures OneTaskChanged(s.store, Step(s, e).store, id) && id in s.runs && s.runs[id] != Started
    ensures Step(s, e).store.tasks[id].status == RUNNING ==> Step(s, e).store.tasks[id].deferred
  {
    ReturnIs(s, e, id);
    RunningTask(s, id);
    if e.ReturnDeferred? {
      DeferralChangesOne(s.store, id);
    } else {
      ResultChangesOne(s.store, id, e.result);
    }
    hide Step, StoreOk, ActiveOk, OneTaskChanged, Defer, Complete;
  }

  lemma ReturnKeepsInv(s: System, e: Event, id: TaskId)
    requires Inv(s) && Enabled(s, e)
    requires Returns(e, id)
    ensures Inv(Step(s, e))
  {
    ReturnIs(s, e, id);
    hide Step, StoreOk, ActiveOk, RunningOk, PendingOk, UsedOk, InOrder;
    ReturnChangesOne(s, e, id);
    ChangeKeepsInv(s, Step(s, e), id, if e.Refinalize? then Refailed else Settled);
  }

  lemma StepOf(workers: int, states: seq<System>, events: seq<Event>, i: nat)
    requires IsRun(workers, states, events) && GuardedRun(states, events) && i + 1 < |states|
    ensures i < |events| && Enabled(states[i], events[i]) && Guarded(states[i], events[i])
    ensures states[i + 1] == Step(states[i], events[i])
  {
    assert Next(states[i], events[i], states[i + 1]);
    hide Enabled, Step, Guarded;
  }

  lemma {:induction false} RunKeepsInv(workers: int, states: seq<System>, events: seq<Event>, i: nat)
    requires IsRun(workers, states, events) && GuardedRun(states, events) && i < |states|
    ensures Inv(states[i])
  {
    if i == 0 {
      InitInv(workers);
      hide Inv, GuardedRun;
    } else {
      StepOf(workers, states, events, i - 1);
      hide *;
      RunKeepsInv(workers, states, events, i - 1);
      StepKeepsInv(states[i - 1], events[i - 1]);
    }
  }

  // ----- entry points that do not overlap keep the guard -----

  /** Nothing between lookup and insert is indexed yet, nor twice on its way. */
  ghost predicate PendingFree(pending: map<TaskId, Task>, index: map<RequestId, TaskId>) {
    && (forall p | p in pending :: pending[p].RequestId() !in index)
    && (forall p, q | p in pending && q in pending && p != q :: pending[p].RequestId() != pending[q].RequestId())
  }

  lemma OneMoreIndexed(pending: map<TaskId, Task>, index: map<RequestId, TaskId>, t: Task)
    requires PendingFree(pending, index) && forall p | p in pending && p != t.id ::
               pending[p].RequestId() != t.RequestId()
    ensures PendingFree(pending - {t.id}, index[t.RequestId() := t.id])
  {
  }

  lemma OneMorePending(pending: map<TaskId, Task>, index: map<RequestId, TaskId>, t: Task)
    requires PendingFree(pending, index) && t.RequestId() !in index
    requires forall p | p in pending :: pending[p].RequestId() != t.RequestId()
    ensures PendingFree(pending[t.id := t], index)
  {
  }

  lemma InsertStaysFree(s: System, t: Task)
    requires PendingFree(s.pending, s.store.requestIndex)
    requires forall p | p in s.pending && p != t.id :: s.pending[p].RequestId() != t.RequestId()
    ensures PendingFree(Push(s, t).pending, Push(s, t).store.requestIndex)
  {
    hide StableSort, PendingFree;
    OneMoreIndexed(s.pending, s.store.requestIndex, t);
  }

  /** The steps that neither look a request up nor insert one. */
  lemma OtherStepsStayFree(s: System, e: Event)
    requires PendingFree(s.pending, s.store.requestIndex) && Enabled(s, e)
    requires !e.Submit? && !e.Receive? && !e.Accept? && !e.Reject?
    ensures PendingFree(Step(s, e).pending, Step(s, e).store.requestIndex)
  {
    hide PendingFree, Without, Running;
    NothingPending(Step(s, e).store.requestIndex);
  }

  lemma NothingPending(index: map<RequestId, TaskId>)
    ensures PendingFree(map[], index)
  {
  }

  lemma PendingStaysFree(s: System, e: Event)
    requires StoreOk(s.store) && PendingOk(s) && PendingFree(s.pending, s.store.requestIndex) && Enabled(s, e)
             && Exclusive(s, e)
    ensures PendingFree(Step(s, e).pending, Step(s, e).store.requestIndex)
  {
    match e
    case Submit(t) =>
      InsertStaysFree(s, t);
      hide PendingFree, Push;
    case Receive(t) =>
      UnknownRequest(s.store, t.RequestId());
      hide StoreOk, PendingFree, TaskForRequest;
      if t.RequestId() !in s.store.requestIndex {
        OneMorePending(s.pending, s.store.requestIndex, t);
      }
    case Accept(id) =>
      InsertStaysFree(s, s.pending[id]);
      hide PendingFree, Push;
    case Reject(id, _) =>
      OneMoreIndexed(s.pending, s.store.requestIndex, s.pending[id]);
      hide PendingFree, StoreOk;
    case _ =>
      OtherStepsStayFree(s, e);
      hide Step, PendingFree;
  }

  lemma {:induction false} NoOverlapStates(workers: int, states: seq<System>, events: seq<Event>, i: nat)
    requires IsRun(workers, states, events) && NoOverlap(states, events) && i < |states|
    ensures Inv(states[i]) && PendingFree(states[i].pending, states[i].store.requestIndex)
  {
    if i == 0 {
      InitInv(workers);
    } else {
      NoOverlapStates(workers, states, events, i - 1);
      var s, e := states[i - 1], events[i - 1];
      assert Next(s, e, states[i]) && Exclusive(s, e);
      assert StoreOk(s.store) && PendingOk(s);
      FreeIsGuarded(s, e);
      hide Inv, PendingFree, Exclusive, Step, StoreOk, PendingOk, Guarded;
      StepKeepsInv(s, e);
      PendingStaysFree(s, e);
    }
  }

  lemma FreeIsGuarded(s: System, e: Event)
    requires PendingFree(s.pending, s.store.requestIndex)
    ensures Guarded(s, e)
  {
  }

  /** If no two entry points ever handle the same request at once, every insert finds its request not indexed. */
  lemma NoOverlapMeansGuarded(workers: int, states: seq<System>, events: seq<Event>)
    requires IsRun(workers, states, events) && NoOverlap(states, events)
    ensures GuardedRun(states, events)
  {
    hide PendingFree, Guarded;
    forall i | 0 <= i < |events| ensures Guarded(states[i], events[i]) {
      NoOverlapStates(workers, states, events, i);
      FreeIsGuarded(states[i], events[i]);
    }
  }
}
