/** What the seller runtime guarantees over every run, and where each guarantee stops. */
module SellerGuarantees {
  import opened Wrappers
  import opened Json
  import opened SellerResult
  import opened SellerStore
  import opened SellerMachine
  import Once = SellerOnce

  /** In a careful run, over any number of crashes and redeliveries, the executor is called at most once per request. */
  lemma ExecutedAtMostOnce(workers: int, states: seq<System>, events: seq<Event>, i: nat)
    requires IsRun(workers, states, events) && Once.CarefulRun(states, events) && i < |states|
    ensures NoDup(states[i].executed)
  {
    hide *;
    Once.RunKeepsOnce(workers, states, events, i);
    Once.NeverTwice(states[i]);
  }

  /** When the executor is called, the snapshot on disk has the request indexed and out of the queue. */
  lemma SnapshotBeforeExecution(workers: int, states: seq<System>, events: seq<Event>, i: nat)
    requires IsRun(workers, states, events) && Once.CarefulRun(states, events)
    requires i < |events| && events[i].Execute?
    ensures events[i].id in states[i].store.tasks
    ensures var r := states[i].store.tasks[events[i].id].RequestId();
            Dequeued(states[i].durable, r) && r !in states[i].executed
  {
    hide Once.OnceInv, Once.CarefulRun, Step;
    Once.RunKeepsOnce(workers, states, events, i);
    assert Next(states[i], events[i], states[i + 1]);
    Once.ExecutesNew(states[i], events[i].id);
    Once.IndexedOnDisk(states[i]);
  }

  /** The shape of every reachable state, crashes included. */
  lemma ReachableStates(workers: int, states: seq<System>, events: seq<Event>, i: nat)
    requires IsRun(workers, states, events) && GuardedRun(states, events) && i < |states|
    ensures var s := states[i];
            var m := s.store;
            && NoDup(m.queue) && NoDup(m.active) && SeqToSet(m.queue) !! SeqToSet(m.active)
            && |m.active| <= m.workerConcurrency
            && (forall t | t in m.tasks ::
                  && (m.tasks[t].status == QUEUED <==> t in m.queue)
                  && (m.tasks[t].status == RUNNING ==> t in m.active || m.tasks[t].deferred || t in s.orphans)
                  && (m.tasks[t].status == COMPLETED <==> m.tasks[t].result.Some?)
                  && TaskForRequest(m, m.tasks[t].RequestId()) == Some(m.tasks[t]))
            && (forall r | r in m.requestIndex ::
                m.requestIndex[r] in m.tasks && m.tasks[m.requestIndex[r]].RequestId() == r)
  {
    RunKeepsInv(workers, states, events, i);
    var s := states[i];
    assert forall t | t in s.store.tasks :: TaskOk(s.store, t);
    forall t | t in s.store.queue ensures t !in s.store.active {
      assert t in s.store.active ==> t in SeqToSet(s.store.active);
    }
  }

  lemma HeadStarts(m: Store, m': Store, id: TaskId)
    requires ScheduleOnce(m) == Start(m', id)
    ensures m.queue != [] && m.queue[0] == id && id in m.tasks
  {
  }

  /** What it means to come before another task, in the fields of both. */
  lemma EarlierSays(tasks: map<TaskId, Task>, arrival: map<TaskId, nat>, x: TaskId, y: TaskId)
    requires Earlier(tasks, arrival, x, y)
    ensures x in tasks && y in tasks && x in arrival && y in arrival
    ensures tasks[x].priority < tasks[y].priority
            || (tasks[x].priority == tasks[y].priority
                && (tasks[x].enqueuedAt < tasks[y].enqueuedAt
                    || (tasks[x].enqueuedAt == tasks[y].enqueuedAt && arrival[x] < arrival[y])))
  {
  }

  lemma HeadIsEarlier(tasks: map<TaskId, Task>, arrival: map<TaskId, nat>, q: seq<TaskId>)
    requires q != [] && InOrder(tasks, arrival, q) && q[0] in tasks
    ensures q[0] in arrival
    ensures forall u | u in q && u != q[0] ::
              && u in tasks && u in arrival
              && (tasks[q[0]].priority < tasks[u].priority
                  || (tasks[q[0]].priority == tasks[u].priority
                      && (tasks[q[0]].enqueuedAt < tasks[u].enqueuedAt
                          || (tasks[q[0]].enqueuedAt == tasks[u].enqueuedAt && arrival[q[0]] < arrival[u]))))
  {
    TailInOrder(tasks, arrival, q);
    hide Earlier, InOrder;
    assert q == [q[0]] + q[1..];
    forall u | u in q && u != q[0] ensures Earlier(tasks, arrival, q[0], u) {
    }
    forall u | Earlier(tasks, arrival, q[0], u)
      ensures u in tasks && u in arrival
      ensures q[0] in tasks && q[0] in arrival
      ensures tasks[q[0]].priority < tasks[u].priority
              || (tasks[q[0]].priority == tasks[u].priority
                  && (tasks[q[0]].enqueuedAt < tasks[u].enqueuedAt
                      || (tasks[q[0]].enqueuedAt == tasks[u].enqueuedAt && arrival[q[0]] < arrival[u])))
    {
      EarlierSays(tasks, arrival, q[0], u);
    }
  }

  /** A started task has the least (priority, enqueued_at, arrival) of all that wait. */
  lemma StartedIsLeast(workers: int, states: seq<System>, events: seq<Event>, i: nat, m: Store, id: TaskId)
    requires IsRun(workers, states, events) && GuardedRun(states, events) && i < |states|
    requires ScheduleOnce(states[i].store) == Start(m, id)
    ensures id in states[i].store.queue && id in states[i].store.tasks && id in states[i].arrival
    ensures var tasks, arrival := states[i].store.tasks, states[i].arrival;
            forall u | u in states[i].store.queue && u != id ::
              && u in tasks && u in arrival
              && (tasks[id].priority < tasks[u].priority
                  || (tasks[id].priority == tasks[u].priority
                      && (tasks[id].enqueuedAt < tasks[u].enqueuedAt
                          || (tasks[id].enqueuedAt == tasks[u].enqueuedAt && arrival[id] < arrival[u]))))
  {
    RunKeepsInv(workers, states, events, i);
    var s := states[i];
    HeadStarts(s.store, m, id);
    HeadIsEarlier(s.store.tasks, s.arrival, s.store.queue);
    hide *;
  }

  // ----- work conservation -----

  lemma {:induction false} NeverDormantWithoutCrash(workers: int, states: seq<System>, events: seq<Event>, i: nat)
    requires IsRun(workers, states, events) && Crash !in events && i < |states|
    ensures !states[i].dormant && states[i].orphans == {}
  {
    if i > 0 {
      NeverDormantWithoutCrash(workers, states, events, i - 1);
      assert Next(states[i - 1], events[i - 1], states[i]);
      hide Enqueue, ScheduleOnce, TaskForRequest;
    }
  }

  /** Without crashes, only active and deferred tasks are RUNNING. */
  lemma RunningMeansActiveOrDeferred(workers: int, states: seq<System>, events: seq<Event>, i: nat, t: TaskId)
    requires IsRun(workers, states, events) && GuardedRun(states, events) && Crash !in events && i < |states|
    requires t in states[i].store.tasks && states[i].store.tasks[t].status == RUNNING
    ensures t in states[i].store.active || states[i].store.tasks[t].deferred
  {
    RunKeepsInv(workers, states, events, i);
    NeverDormantWithoutCrash(workers, states, events, i);
  }

  /** Restarted, and nothing enqueued since: nobody is left to schedule. */
  ghost predicate DormantOk(s: System) {
    s.dormant ==> s.owed == 0 && s.runs == map[] && s.store.active == []
  }

  lemma StepKeepsDormant(s: System, e: Event)
    requires DormantOk(s) && Enabled(s, e)
    ensures DormantOk(Step(s, e))
  {
    hide Enqueue, ScheduleOnce, TaskForRequest, FreshTask, Running, Without;
    match e
    case Submit(_) =>
    case Receive(_) =>
    case Accept(_) =>
    case Reject(_, _) =>
    case Schedule =>
    case _ =>
  }

  lemma StartsAwake(workers: int)
    ensures DormantOk(Init(workers))
  {
  }

  lemma {:induction false} RunKeepsDormant(workers: int, states: seq<System>, events: seq<Event>, i: nat)
    requires IsRun(workers, states, events) && i < |states|
    ensures DormantOk(states[i])
  {
    hide Step, Enabled, DormantOk, Init;
    if i == 0 {
      StartsAwake(workers);
    } else {
      RunKeepsDormant(workers, states, events, i - 1);
      assert Next(states[i - 1], events[i - 1], states[i]);
      StepKeepsDormant(states[i - 1], events[i - 1]);
    }
  }

  /** A waiting task and a free worker mean that somebody still owes a scheduling call. */
  ghost predicate Conserves(s: System) {
    s.store.queue != [] && |s.store.active| < s.store.workerConcurrency ==> s.owed > 0
  }

  /**
   Over all runs, crashes included: work is conserved unless, and only unless, a restored queue has seen no enqueue.
   */
  lemma WorkConservationIff(workers: int, states: seq<System>, events: seq<Event>, i: nat)
    requires IsRun(workers, states, events) && GuardedRun(states, events) && i < |states|
    ensures Conserves(states[i]) <==> !(states[i].dormant && states[i].store.queue != [])
  {
    RunKeepsInv(workers, states, events, i);
    RunKeepsDormant(workers, states, events, i);
    hide IsRun, GuardedRun, InOrder, ActiveOk, RunningOk, PendingOk, UsedOk, NoDup, Known;
  }

  /** ... so right after a restart it is conserved exactly when the snapshot's queue was empty. */
  lemma RestartConservesIff(workers: int, states: seq<System>, events: seq<Event>, i: nat)
    requires IsRun(workers, states, events) && i < |events| && events[i] == Crash
    ensures Conserves(states[i + 1]) <==> states[i].durable.queue == []
  {
    assert Next(states[i], events[i], states[i + 1]);
  }

  /** Without crashes, a waiting task and a free worker mean somebody still owes a scheduling call. */
  lemma WorkConservation(workers: int, states: seq<System>, events: seq<Event>, i: nat)
    requires IsRun(workers, states, events) && GuardedRun(states, events) && Crash !in events && i < |states|
    ensures var s := states[i];
            s.store.queue != [] && |s.store.active| < s.store.workerConcurrency ==> s.owed > 0
  {
    RunKeepsInv(workers, states, events, i);
    NeverDormantWithoutCrash(workers, states, events, i);
  }

  /** ... so when every activity has ended, the queue is empty. */
  lemma IdleMeansDrained(workers: int, states: seq<System>, events: seq<Event>, i: nat)
    requires IsRun(workers, states, events) && GuardedRun(states, events) && Crash !in events && i < |states|
    requires states[i].owed == 0 && states[i].runs == map[]
    ensures states[i].store.queue == []
  {
    RunKeepsInv(workers, states, events, i);
    WorkConservation(workers, states, events, i);
    EmptyMembers(states[i].store.active);
  }

  lemma EmptyMembers(s: seq<TaskId>)
    ensures SeqToSet(s) == {} ==> s == []
  {
    if s != [] {
      assert s[0] in SeqToSet(s);
    }
  }

  function SampleTask(id: TaskId): Task {
    Task(id, 5, 0, QUEUED, false, None, TaskInfo("r", "s", "x", Null, 0), Route("", "b"))
  }

  lemma EnqueueIntoEmpty(m: Store, t: Task)
    requires m.queue == []
    ensures Enqueue(m, t).queue == [t.id]
  {
    var tasks := Remember(m, t).tasks;
    assert m.queue + [t.id] == [t.id] && [t.id][..0] == [];
    assert StableSort(tasks, [t.id]) == OrderedInsert(tasks, StableSort(tasks, []), t.id) == [] + [t.id];
  }

  lemma ExtendRun(workers: int, states: seq<System>, events: seq<Event>, e: Event)
      returns (states': seq<System>, events': seq<Event>)
    requires IsRun(workers, states, events) && Enabled(states[|events|], e)
    ensures events' == events + [e] && states' == states + [Step(states[|events|], e)]
    ensures IsRun(workers, states', events')
    ensures GuardedRun(states, events) && Guarded(states[|events|], e) ==> GuardedRun(states', events')
  {
    events', states' := events + [e], states + [Step(states[|events|], e)];
    assert forall i | 0 <= i < |events| :: events'[i] == events[i];
  }

  /** With a crash it fails: a restored queue waits, all workers free, until the next enqueue. */
  lemma RestoredQueueWaits() returns (states: seq<System>, events: seq<Event>)
    ensures IsRun(1, states, events) && GuardedRun(states, events)
    ensures var s := states[|events|];
            s.store.queue != [] && s.store.active == [] && s.owed == 0 && s.runs == map[]
  {
    states, events := [Init(1)], [];
    states, events := ExtendRun(1, states, events, Submit(SampleTask("a")));
    EnqueueIntoEmpty(Init(1).store, SampleTask("a"));
    states, events := ExtendRun(1, states, events, Snapshot);
    states, events := ExtendRun(1, states, events, Crash);
  }

  // ----- the gap between lookup and insert -----

  lemma InsertAgrees(s: System, t: Task)
    requires StoreOk(s.store) && InOrder(s.store.tasks, s.arrival, s.store.queue) && UsedOk(s) && FreshTask(s, t)
    requires t.RequestId() !in s.store.requestIndex
    ensures StoreOk(Enqueue(s.store, t))
  {
    EnqueueStore(s.store, s.arrival, t);
    var m := Enqueue(s.store, t);
    InOrderNoDup(m.tasks, s.arrival[t.id := |s.arrival|], m.queue);
    hide StableSort, OrderedInsert, InOrder, StoreOk;
    assert StoreGrown(s.store, m, t);
    GrowStoreOk(s.store, m, t);
  }

  /** Inserting a fresh task keeps tasks and requestIndex in agreement exactly when its request is not indexed yet. */
  lemma InsertKeepsAgreementIff(s: System, t: Task)
    requires Inv(s) && FreshTask(s, t)
    ensures StoreOk(Enqueue(s.store, t)) <==> t.RequestId() !in s.store.requestIndex
  {
    hide StableSort, OrderedInsert, InOrder, ActiveOk, RunningOk, WorkOk, PendingOk;
    if t.RequestId() in s.store.requestIndex {
      var m, first := Enqueue(s.store, t), s.store.requestIndex[t.RequestId()];
      assert m.requestIndex[t.RequestId()] == t.id && first != t.id;
      assert !TaskOk(m, first);
    } else {
      InsertAgrees(s, t);
    }
  }

  lemma PushOntoEmpty(s: System, t: Task)
    requires s.store.queue == []
    ensures var s' := Push(s, t);
            && s'.store.tasks == s.store.tasks[t.id := t] && s'.store.queue == [t.id] && s'.owed == s.owed + 1
            && s'.store.active == s.store.active && s'.store.workerConcurrency == s.store.workerConcurrency
            && s'.runs == s.runs && s'.pending == s.pending - {t.id} && s'.executed == s.executed
  {
    EnqueueIntoEmpty(s.store, t);
    hide StableSort;
  }

  /** Pushing one task onto an empty queue and scheduling once starts it. */
  lemma PushAndStart(s: System, t: Task)
    requires s.store.queue == [] && |s.store.active| < MaxWorkers(s.store) && t.id != ""
    ensures var s' := Step(Push(s, t), Schedule);
            && s'.store.tasks == s.store.tasks[t.id := t.(status := RUNNING)] && s'.store.queue == []
            && s'.store.active == s.store.active + [t.id] && s'.store.workerConcurrency == s.store.workerConcurrency
            && s'.runs == s.runs[t.id := Started] && s'.pending == s.pending - {t.id} && s'.executed == s.executed
  {
    PushOntoEmpty(s, t);
    hide Push;
    assert Push(s, t).store.queue[0] == t.id;
  }

  // ----- results are written once -----

  ghost predicate Overwrites(e: Event) {
    e.Crash? || e.Refinalize?
  }

  /** The facts about a task with a result that no step but an overwriting one can touch. */
  ghost predicate Shelved(s: System, t: TaskId) {
    && t in s.store.tasks && s.store.tasks[t].result.Some?
    && t in s.used && t !in s.pending && t !in s.store.queue
    && (t in s.runs ==> !s.runs[t].Executing?)
    && (forall p | p in s.pending :: s.pending[p].id == p)
  }

  lemma ResultIsShelved(s: System, t: TaskId)
    requires Inv(s) && t in s.store.tasks && s.store.tasks[t].result.Some?
    ensures Shelved(s, t)
  {
    assert TaskOk(s.store, t);
  }

  lemma InsertKeepsResult(s: System, e: Event, t: TaskId)
    requires Shelved(s, t) && Enabled(s, e) && (e.Submit? || e.Receive? || e.Accept? || e.Reject?)
    ensures t in Step(s, e).store.tasks && Step(s, e).store.tasks[t].result == s.store.tasks[t].result
  {
    hide StableSort, OrderedInsert, TaskForRequest;
    match e
    case Submit(x) => assert x.id != t;
    case Receive(x) =>
    case Accept(id) => assert s.pending[id].id != t;
    case Reject(id, _) => assert s.pending[id].id != t;
  }

  lemma StepKeepsResult(s: System, e: Event, t: TaskId)
    requires Shelved(s, t) && Enabled(s, e) && !Overwrites(e)
    ensures t in Step(s, e).store.tasks && Step(s, e).store.tasks[t].result == s.store.tasks[t].result
  {
    if e.Submit? || e.Receive? || e.Accept? || e.Reject? {
      InsertKeepsResult(s, e, t);
      hide *;
    } else {
      hide StableSort, OrderedInsert, Without, Running, TaskForRequest, FreshTask, Push;
      match e
      case Schedule => assert ScheduleOnce(s.store).Start? ==> ScheduleOnce(s.store).id in s.store.queue;
      case ReturnResult(id, _) => assert id != t;
      case _ =>
    }
  }

  /** As long as no send, metric or persist throws and the process lives, a stored result never changes. */
  lemma {:induction false} ResultsAreFinal(workers: int, states: seq<System>, events: seq<Event>, i: nat, j: nat,
                                           t: TaskId)
    requires IsRun(workers, states, events) && GuardedRun(states, events) && i <= j < |states|
    requires forall k | i <= k < j :: !Overwrites(events[k])
    requires t in states[i].store.tasks && states[i].store.tasks[t].result.Some?
    ensures t in states[j].store.tasks && states[j].store.tasks[t].result == states[i].store.tasks[t].result
  {
    if i < j {
      ResultsAreFinal(workers, states, events, i, j - 1, t);
      RunKeepsInv(workers, states, events, j - 1);
      ResultIsShelved(states[j - 1], t);
      assert Next(states[j - 1], events[j - 1], states[j]);
      StepKeepsResult(states[j - 1], events[j - 1], t);
    }
  }
}
