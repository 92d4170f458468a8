/**
 At most one execution per request, and exactly which runs have it: those in which no envelope is accepted while its
 request was executed or still may be. Rejections and requests that are merely indexed do not matter.
 */
module SellerOnce {
  import opened Wrappers
  import opened SellerResult
  import opened SellerStore
  import opened SellerMachine

  // ----- what an accept must not find -----

  /** The task waits in the queue, or has been started and not reached the executor yet. */
  predicate Lives(queue: seq<TaskId>, runs: map<TaskId, Stage>, t: TaskId) {
    t in queue || (t in runs && Pending(runs[t]))
  }

  ghost predicate LiveFor(s: System, t: TaskId, r: RequestId) {
    t in s.store.tasks && s.store.tasks[t].RequestId() == r && Lives(s.store.queue, s.runs, t)
  }

  /** The executor was called for the request, or some task of it is on its way there. */
  ghost predicate MayExecute(s: System, r: RequestId) {
    r in s.executed || exists t :: LiveFor(s, t, r)
  }

  ghost predicate Careful(s: System, e: Event) {
    e.Accept? && e.id in s.pending ==> !MayExecute(s, s.pending[e.id].RequestId())
  }

  /** No envelope is accepted whose request was executed or still may be. */
  ghost predicate CarefulRun(states: seq<System>, events: seq<Event>) {
    && |states| == |events| + 1
    && forall i {:trigger events[i]} | 0 <= i < |events| :: Careful(states[i], events[i])
  }

  // ----- the invariant -----

  /** Every task's request is indexed, and every index entry leads to a task of its request. */
  ghost predicate IndexCovers(m: Store) {
    && (forall t | t in m.tasks :: t != "" && m.tasks[t].RequestId() in m.requestIndex)
    && (forall r | r in m.requestIndex ::
          m.requestIndex[r] in m.tasks && m.tasks[m.requestIndex[r]].RequestId() == r)
  }

  ghost predicate QueueFine(m: Store) {
    Known(m.tasks, m.queue) && NoDup(m.queue)
  }

  /** The tasks on their way to the executor are for different requests, none of them executed. */
  ghost predicate LiveFine(tasks: map<TaskId, Task>, queue: seq<TaskId>, runs: map<TaskId, Stage>,
                           executed: seq<RequestId>)
  {
    && (forall t | t in runs :: t in tasks && t !in queue)
    && (forall x, y | x in tasks && y in tasks && Lives(queue, runs, x) && Lives(queue, runs, y) ::
          tasks[x].RequestId() == tasks[y].RequestId() ==> x == y)
    && (forall x | x in tasks && Lives(queue, runs, x) :: tasks[x].RequestId() !in executed)
  }

  /** What is persisted is indexed on disk, and no longer queued there. */
  ghost predicate PersistedFine(s: System) {
    forall t | t in s.runs && s.runs[t] == Persisted && t in s.store.tasks ::
      && s.store.tasks[t].RequestId() in s.durable.requestIndex
      && forall y | y in s.durable.queue && y in s.durable.tasks ::
           s.durable.tasks[y].RequestId() != s.store.tasks[t].RequestId()
  }

  ghost predicate DoneFine(s: System) {
    NoDup(s.executed) && forall r | r in s.executed :: r in s.store.requestIndex && r in s.durable.requestIndex
  }

  /** Ids are drawn once. */
  ghost predicate IdsFine(s: System) {
    && s.store.tasks.Keys <= s.used && s.durable.tasks.Keys <= s.used
    && forall p | p in s.pending :: s.pending[p].id == p && p != "" && p in s.used && p !in s.store.tasks
  }

  ghost predicate OnceInv(s: System) {
    && IndexCovers(s.store) && IndexCovers(s.durable) && QueueFine(s.store) && QueueFine(s.durable)
    && LiveFine(s.store.tasks, s.store.queue, s.runs, s.executed)
    && LiveFine(s.durable.tasks, s.durable.queue, map[], s.executed)
    && PersistedFine(s) && DoneFine(s) && IdsFine(s)
  }

  lemma InitOnce(workers: int)
    ensures OnceInv(Init(workers))
  {
  }

  // ----- the live tasks, step by step -----

  /** No task becomes live and none changes its request. */
  lemma FewerLive(tasks: map<TaskId, Task>, tasks': map<TaskId, Task>, queue: seq<TaskId>, runs: map<TaskId, Stage>,
                  runs': map<TaskId, Stage>, executed: seq<RequestId>)
    requires LiveFine(tasks, queue, runs, executed) && tasks'.Keys == tasks.Keys
    requires forall t | t in tasks :: tasks'[t].RequestId() == tasks[t].RequestId()
    requires runs'.Keys <= runs.Keys && forall t | t in runs' && Pending(runs'[t]) :: Pending(runs[t])
    ensures LiveFine(tasks', queue, runs', executed)
  {
  }

  /** A new task of a request that nobody is about to execute. */
  lemma OneMoreLive(tasks: map<TaskId, Task>, queue: seq<TaskId>, queue': seq<TaskId>, runs: map<TaskId, Stage>,
                    executed: seq<RequestId>, t: Task)
    requires LiveFine(tasks, queue, runs, executed) && t.id !in tasks && t.RequestId() !in executed
    requires Known(tasks, queue) && forall y :: y in queue' <==> y in queue || y == t.id
    requires forall x | x in tasks && Lives(queue, runs, x) :: tasks[x].RequestId() != t.RequestId()
    ensures LiveFine(tasks[t.id := t], queue', runs, executed)
  {
  }

  /** A new task that is not queued. */
  lemma OneMoreDead(tasks: map<TaskId, Task>, queue: seq<TaskId>, runs: map<TaskId, Stage>, executed: seq<RequestId>,
                    t: Task)
    requires LiveFine(tasks, queue, runs, executed) && Known(tasks, queue) && t.id !in tasks
    ensures LiveFine(tasks[t.id := t], queue, runs, executed)
  {
  }

  lemma StartedLives(tasks: map<TaskId, Task>, queue: seq<TaskId>, runs: map<TaskId, Stage>, executed: seq<RequestId>,
                     id: TaskId)
    requires LiveFine(tasks, queue, runs, executed) && NoDup(queue) && queue != [] && queue[0] == id && id in tasks
    ensures LiveFine(tasks[id := tasks[id].(status := RUNNING)], queue[1..], runs[id := Started], executed)
  {
    assert queue == [id] + queue[1..];
  }

  lemma ExecutedLives(tasks: map<TaskId, Task>, queue: seq<TaskId>, runs: map<TaskId, Stage>, executed: seq<RequestId>,
                      id: TaskId)
    requires LiveFine(tasks, queue, runs, executed) && id in tasks && id in runs && Pending(runs[id])
    ensures LiveFine(tasks, queue, runs[id := Executing], executed + [tasks[id].RequestId()])
  {
    assert Lives(queue, runs, id);
  }

  /** On disk, where nothing runs, only the queue counts. */
  lemma DiskLives(tasks: map<TaskId, Task>, queue: seq<TaskId>, runs: map<TaskId, Stage>, executed: seq<RequestId>)
    requires LiveFine(tasks, queue, runs, executed)
    ensures LiveFine(tasks, queue, map[], executed)
  {
  }

  // ----- inserts -----

  lemma {:induction false} InsertNoDup(tasks: map<TaskId, Task>, q: seq<TaskId>, x: TaskId)
    requires NoDup(q) && x !in q
    ensures NoDup(OrderedInsert(tasks, q, x))
  {
    hide Compare;
    if q == [] || Compare(tasks, q[|q| - 1], x) <= 0 {
      NoDupAppend(q, x);
    } else {
      var init, last := q[..|q| - 1], q[|q| - 1];
      assert q == init + [last];
      InsertNoDup(tasks, init, x);
      NoDupAppend(OrderedInsert(tasks, init, x), last);
    }
  }

  lemma {:induction false} SortedOnce(tasks: map<TaskId, Task>, q: seq<TaskId>)
    requires NoDup(q)
    ensures NoDup(StableSort(tasks, q)) && forall y :: y in StableSort(tasks, q) <==> y in q
  {
    if q != [] {
      var init, last := q[..|q| - 1], q[|q| - 1];
      assert q == init + [last];
      SortedOnce(tasks, init);
      InsertNoDup(tasks, StableSort(tasks, init), last);
      hide OrderedInsert, Compare;
    }
  }

  lemma PushedQueue(m: Store, t: Task)
    requires QueueFine(m) && t.id !in m.tasks
    ensures QueueFine(Enqueue(m, t)) && forall y :: y in Enqueue(m, t).queue <==> y in m.queue || y == t.id
  {
    assert t.id !in m.queue;
    NoDupAppend(m.queue, t.id);
    SortedOnce(Remember(m, t).tasks, m.queue + [t.id]);
    hide StableSort, NoDup;
  }

  lemma PushedIndex(m: Store, m': Store, t: Task)
    requires IndexCovers(m) && t.id != "" && t.id !in m.tasks
    requires m'.tasks == m.tasks[t.id := t] && m'.requestIndex == m.requestIndex[t.RequestId() := t.id]
    ensures IndexCovers(m')
  {
  }

  /** The disk and the persisted runs are untouched by a new task in memory. */
  lemma InsertFrame(s: System, s': System, t: Task)
    requires PersistedFine(s) && DoneFine(s) && IdsFine(s) && t.id !in s.store.tasks
    requires LiveFine(s.store.tasks, s.store.queue, s.runs, s.executed)
    requires s'.store.tasks == s.store.tasks[t.id := t]
    requires s'.store.requestIndex == s.store.requestIndex[t.RequestId() := t.id]
    requires s'.durable == s.durable && s'.runs == s.runs && s'.executed == s.executed
    requires s'.used == s.used + {t.id} && s'.pending == s.pending - {t.id}
    ensures PersistedFine(s') && DoneFine(s') && IdsFine(s')
  {
  }

  lemma PushIs(s: System, t: Task)
    ensures var s' := Push(s, t);
            && s'.store == Enqueue(s.store, t) && s'.store.tasks == s.store.tasks[t.id := t]
            && s'.store.requestIndex == s.store.requestIndex[t.RequestId() := t.id]
            && s'.durable == s.durable && s'.runs == s.runs && s'.executed == s.executed
            && s'.used == s.used + {t.id} && s'.pending == s.pending - {t.id}
  {
    hide StableSort;
  }

  lemma PushOnce(s: System, t: Task)
    requires OnceInv(s) && t.id != "" && t.id !in s.store.tasks && !MayExecute(s, t.RequestId())
    ensures OnceInv(Push(s, t))
  {
    assert forall x | x in s.store.tasks && Lives(s.store.queue, s.runs, x) ::
             s.store.tasks[x].RequestId() != t.RequestId() by {
      forall x | x in s.store.tasks && Lives(s.store.queue, s.runs, x)
        ensures s.store.tasks[x].RequestId() != t.RequestId()
      {
        assert !LiveFor(s, x, t.RequestId());
      }
    }
    PushIs(s, t);
    var s' := Push(s, t);
    hide Push, Enqueue, PersistedFine, DoneFine, IdsFine, IndexCovers, LiveFine, Lives;
    PushedQueue(s.store, t);
    PushedIndex(s.store, s'.store, t);
    OneMoreLive(s.store.tasks, s.store.queue, s'.store.queue, s.runs, s.executed, t);
    InsertFrame(s, s', t);
  }

  /** What a request that is not indexed tells. */
  lemma UnindexedIsIdle(s: System, r: RequestId)
    requires OnceInv(s) && r !in s.store.requestIndex
    ensures !MayExecute(s, r) && TaskForRequest(s.store, r) == None
  {
    hide LiveFine, PersistedFine, IdsFine, QueueFine, Lives;
  }

  lemma LookupIsIndex(s: System, r: RequestId)
    requires OnceInv(s) && TaskForRequest(s.store, r) == None
    ensures r !in s.store.requestIndex
  {
    hide LiveFine, PersistedFine, IdsFine, QueueFine, DoneFine;
  }

  lemma SubmitOnce(s: System, t: Task)
    requires OnceInv(s) && FreshTask(s, t)
    ensures OnceInv(Step(s, Submit(t)))
  {
    if TaskForRequest(s.store, t.RequestId()) == None {
      LookupIsIndex(s, t.RequestId());
      UnindexedIsIdle(s, t.RequestId());
      FreshIsNew(s, t);
      hide OnceInv, Push, FreshTask, MayExecute, TaskForRequest;
      PushOnce(s, t);
    }
  }

  lemma FreshIsNew(s: System, t: Task)
    requires OnceInv(s) && FreshTask(s, t)
    ensures t.id != "" && t.id !in s.store.tasks && t.id !in s.used
  {
    hide LiveFine, PersistedFine, IndexCovers, QueueFine, DoneFine;
  }

  lemma ReceiveOnce(s: System, t: Task)
    requires OnceInv(s) && FreshTask(s, t)
    ensures OnceInv(Step(s, Receive(t)))
  {
    FreshIsNew(s, t);
    hide LiveFine, IndexCovers, QueueFine, TaskForRequest;
  }

  lemma AcceptOnce(s: System, id: TaskId)
    requires OnceInv(s) && id in s.pending && Careful(s, Accept(id))
    ensures OnceInv(Step(s, Accept(id)))
  {
    assert s.pending[id].id == id && id != "" && id !in s.store.tasks;
    hide OnceInv, Push, MayExecute;
    PushOnce(s, s.pending[id]);
  }

  lemma RejectOnce(s: System, id: TaskId, result: Finished)
    requires OnceInv(s) && id in s.pending
    ensures OnceInv(Step(s, Reject(id, result)))
  {
    RejectIs(s, id, result);
    assert s.pending[id].id == id && id != "" && id !in s.store.tasks && s.used == s.used + {id};
    hide Step, PersistedFine, DoneFine, IdsFine, IndexCovers, LiveFine;
    var s', t := Step(s, Reject(id, result)), s.pending[id].(status := COMPLETED, result := Some(result));
    PushedIndex(s.store, s'.store, t);
    OneMoreDead(s.store.tasks, s.store.queue, s.runs, s.executed, t);
    InsertFrame(s, s', t);
    hide NoDup;
  }

  // ----- runs -----

  /** Nothing but tasks, queue and runs of the memory changes, and no task changes its request. */
  ghost predicate OnlyRuns(s: System, s': System) {
    && s'.store.tasks.Keys == s.store.tasks.Keys && s'.store.requestIndex == s.store.requestIndex
    && (forall t | t in s.store.tasks :: s'.store.tasks[t].RequestId() == s.store.tasks[t].RequestId())
    && s'.durable == s.durable && s'.executed == s.executed && s'.used == s.used && s'.pending == s.pending
    && (forall t | t in s'.runs && s'.runs[t] == Persisted :: t in s.runs && s.runs[t] == Persisted)
  }

  lemma RunFrame(s: System, s': System)
    requires DoneFine(s) && IdsFine(s) && PersistedFine(s) && IndexCovers(s.store) && OnlyRuns(s, s')
    ensures DoneFine(s') && IdsFine(s') && PersistedFine(s') && IndexCovers(s'.store)
  {
  }

  lemma RunsOnly(s: System, s': System)
    requires OnceInv(s) && OnlyRuns(s, s') && QueueFine(s'.store)
    requires LiveFine(s'.store.tasks, s'.store.queue, s'.runs, s.executed)
    ensures OnceInv(s')
  {
    hide LiveFine, QueueFine, IndexCovers, DoneFine, IdsFine, PersistedFine;
    RunFrame(s, s');
  }

  lemma StartIs(m: Store, m': Store, id: TaskId)
    requires ScheduleOnce(m) == Start(m', id)
    ensures m.queue != [] && m.queue[0] == id && id in m.tasks && m'.queue == m.queue[1..]
    ensures m'.tasks == m.tasks[id := m.tasks[id].(status := RUNNING)] && m'.requestIndex == m.requestIndex
  {
  }

  lemma TailFine(m: Store, m': Store, id: TaskId)
    requires QueueFine(m) && m.queue != [] && id in m.tasks && m'.queue == m.queue[1..]
    requires m'.tasks == m.tasks[id := m.tasks[id].(status := RUNNING)]
    ensures QueueFine(m') && NoDup(m.queue)
  {
  }

  lemma StartsOnlyRuns(s: System, m: Store, id: TaskId)
    requires id in s.store.tasks && m.requestIndex == s.store.requestIndex
    requires m.tasks == s.store.tasks[id := s.store.tasks[id].(status := RUNNING)]
    ensures OnlyRuns(s, s.(store := m, runs := s.runs[id := Started]))
  {
  }

  lemma StartOnce(s: System, m: Store, id: TaskId)
    requires OnceInv(s) && ScheduleOnce(s.store) == Start(m, id)
    ensures OnceInv(s.(store := m, runs := s.runs[id := Started]))
  {
    hide LiveFine, QueueFine, IndexCovers, PersistedFine, DoneFine, IdsFine, ScheduleOnce, OnlyRuns;
    StartIs(s.store, m, id);
    var s' := s.(store := m, runs := s.runs[id := Started]);
    TailFine(s.store, m, id);
    StartsOnlyRuns(s, m, id);
    StartedLives(s.store.tasks, s.store.queue, s.runs, s.executed, id);
    RunsOnly(s, s');
  }

  /** The loop never finds a task it does not know. */
  lemma ExitIs(m: Store)
    requires IndexCovers(m) && QueueFine(m)
    ensures !ScheduleOnce(m).Skip? && (ScheduleOnce(m).Exit? ==> ScheduleOnce(m).store == m)
  {
    if m.queue != [] {
      assert m.queue[0] in m.queue;
    }
  }

  lemma ScheduleSteps(s: System)
    requires s.owed > 0
    ensures match ScheduleOnce(s.store)
            case Exit(m) => Step(s, Schedule) == s.(store := m, owed := s.owed - 1)
            case Start(m, id) => Step(s, Schedule) == s.(store := m, runs := s.runs[id := Started])
            case Skip(_) => true
  {
    hide ScheduleOnce;
  }

  lemma OwedOnce(s: System, owed: nat)
    requires OnceInv(s)
    ensures OnceInv(s.(owed := owed))
  {
    hide LiveFine, QueueFine, IndexCovers;
  }

  lemma ScheduleOnceMore(s: System)
    requires OnceInv(s) && s.owed > 0
    ensures OnceInv(Step(s, Schedule))
  {
    ExitIs(s.store);
    hide *;
    ScheduleSteps(s);
    match ScheduleOnce(s.store)
    case Exit(_) => OwedOnce(s, s.owed - 1);
    case Start(m, id) => StartOnce(s, m, id);
    case Skip(_) =>
  }

  /** One run is persisted, or none. */
  ghost predicate OnePersisted(runs: map<TaskId, Stage>, runs': map<TaskId, Stage>) {
    && runs'.Keys == runs.Keys
    && forall t | t in runs' :: runs'[t] == runs[t] || (runs[t] == Started && runs'[t] == Persisted)
  }

  lemma PersistFrame(s: System, runs: map<TaskId, Stage>)
    requires DoneFine(s) && IdsFine(s)
    ensures DoneFine(s.(durable := s.store, runs := runs)) && IdsFine(s.(durable := s.store, runs := runs))
  {
  }

  /** A snapshot of memory, one run being persisted perhaps. */
  lemma PersistOnce(s: System, runs: map<TaskId, Stage>)
    requires OnceInv(s) && OnePersisted(s.runs, runs)
    ensures OnceInv(s.(durable := s.store, runs := runs))
  {
    hide LiveFine, QueueFine, IndexCovers, DoneFine, IdsFine, PersistedFine;
    FewerLive(s.store.tasks, s.store.tasks, s.store.queue, s.runs, runs, s.executed);
    DiskLives(s.store.tasks, s.store.queue, s.runs, s.executed);
    PersistedIsLive(s, runs);
    PersistFrame(s, runs);
  }

  lemma PersistedIsLive(s: System, runs: map<TaskId, Stage>)
    requires LiveFine(s.store.tasks, s.store.queue, s.runs, s.executed) && IndexCovers(s.store)
    requires OnePersisted(s.runs, runs)
    ensures PersistedFine(s.(durable := s.store, runs := runs))
  {
    forall t, y | t in runs && runs[t] == Persisted && t in s.store.tasks && y in s.store.queue && y in s.store.tasks
      ensures s.store.tasks[y].RequestId() != s.store.tasks[t].RequestId()
    {
      assert Lives(s.store.queue, s.runs, t) && Lives(s.store.queue, s.runs, y);
    }
    hide LiveFine;
  }

  lemma ExecuteIs(s: System, id: TaskId)
    requires RunAt(s, id, Persisted)
    ensures Step(s, Execute(id)) ==
            s.(runs := s.runs[id := Executing], executed := s.executed + [s.store.tasks[id].RequestId()])
  {
  }

  lemma ExecutesNew(s: System, id: TaskId)
    requires OnceInv(s) && RunAt(s, id, Persisted)
    ensures var r := s.store.tasks[id].RequestId();
            && r !in s.executed && r in s.store.requestIndex && r in s.durable.requestIndex
            && forall y | y in s.durable.queue && y in s.durable.tasks :: s.durable.tasks[y].RequestId() != r
  {
    assert Lives(s.store.queue, s.runs, id);
    hide QueueFine, DoneFine, IdsFine;
  }

  lemma IndexedOnDisk(s: System)
    requires OnceInv(s)
    ensures forall r | r in s.durable.requestIndex ::
              var t := s.durable.requestIndex[r]; t in s.durable.tasks && s.durable.tasks[t].RequestId() == r
  {
    hide LiveFine, QueueFine;
  }

  lemma NeverTwice(s: System)
    requires OnceInv(s)
    ensures NoDup(s.executed)
  {
    hide NoDup, LiveFine, QueueFine;
  }

  lemma DiskUnexecuted(tasks: map<TaskId, Task>, queue: seq<TaskId>, executed: seq<RequestId>, r: RequestId)
    requires LiveFine(tasks, queue, map[], executed)
    requires forall y | y in queue && y in tasks :: tasks[y].RequestId() != r
    ensures LiveFine(tasks, queue, map[], executed + [r])
  {
  }

  lemma ExecuteFrame(s: System, id: TaskId, r: RequestId)
    requires PersistedFine(s) && DoneFine(s) && IdsFine(s) && id in s.runs
    requires r !in s.executed && r in s.store.requestIndex && r in s.durable.requestIndex
    ensures var s' := s.(runs := s.runs[id := Executing], executed := s.executed + [r]);
            PersistedFine(s') && DoneFine(s') && IdsFine(s')
  {
    NoDupAppend(s.executed, r);
    hide NoDup;
  }

  lemma ExecuteOnce(s: System, id: TaskId)
    requires OnceInv(s) && Enabled(s, Execute(id))
    ensures OnceInv(Step(s, Execute(id)))
  {
    hide LiveFine, IndexCovers, QueueFine, PersistedFine, DoneFine, IdsFine, Step;
    ExecutesNew(s, id);
    ExecuteIs(s, id);
    var r := s.store.tasks[id].RequestId();
    ExecutedLives(s.store.tasks, s.store.queue, s.runs, s.executed, id);
    DiskUnexecuted(s.durable.tasks, s.durable.queue, s.executed, r);
    ExecuteFrame(s, id, r);
  }

  /** The store changes a task at most, and a run ends or leaves the executor. */
  lemma LaterOnce(s: System, s': System)
    requires OnceInv(s) && OnlyRuns(s, s') && s'.store.queue == s.store.queue
    requires s'.runs.Keys <= s.runs.Keys && forall t | t in s'.runs && Pending(s'.runs[t]) :: Pending(s.runs[t])
    ensures OnceInv(s')
  {
    assert QueueFine(s'.store);
    hide LiveFine, QueueFine, IndexCovers, PersistedFine, DoneFine, IdsFine;
    FewerLive(s.store.tasks, s'.store.tasks, s.store.queue, s.runs, s'.runs, s.executed);
    RunsOnly(s, s');
  }

  lemma ReturnOnce(s: System, e: Event, id: TaskId)
    requires OnceInv(s) && Enabled(s, e) && Returns(e, id)
    ensures OnceInv(Step(s, e))
  {
    hide OnceInv, Step, Enabled;
    ReturnIs(s, e, id);
    assert OnlyRuns(s, Step(s, e));
    hide OnlyRuns;
    LaterOnce(s, Step(s, e));
  }

  lemma ReleaseIs(s: System, id: TaskId)
    requires Enabled(s, ReleaseRun(id))
    ensures var s' := Step(s, ReleaseRun(id));
            && s'.store.tasks == s.store.tasks && s'.store.queue == s.store.queue
            && s'.store.requestIndex == s.store.requestIndex && s'.durable == s.durable && s'.executed == s.executed
            && s'.used == s.used && s'.pending == s.pending && s'.runs == s.runs - {id}
  {
    hide Without;
  }

  lemma ReleaseOnce(s: System, id: TaskId)
    requires OnceInv(s) && Enabled(s, ReleaseRun(id))
    ensures OnceInv(Step(s, ReleaseRun(id)))
  {
    hide OnceInv, Step, Enabled;
    ReleaseIs(s, id);
    LaterOnce(s, Step(s, ReleaseRun(id)));
  }

  lemma CrashOnce(s: System)
    requires OnceInv(s)
    ensures OnceInv(Step(s, Crash))
  {
    hide Running, LiveFine, NoDup;
    var s' := Step(s, Crash);
    assert s'.store.tasks == s.durable.tasks && s'.store.queue == s.durable.queue;
    assert s'.store.requestIndex == s.durable.requestIndex;
  }

  // ----- every run -----

  lemma StepKeepsOnce(s: System, e: Event)
    requires OnceInv(s) && Enabled(s, e) && Careful(s, e)
    ensures OnceInv(Step(s, e))
  {
    hide OnceInv, Careful;
    match e
    case Submit(t) => SubmitOnce(s, t);
    case Receive(t) => ReceiveOnce(s, t);
    case Accept(id) => AcceptOnce(s, id);
    case Reject(id, result) => RejectOnce(s, id, result);
    case Schedule => ScheduleOnceMore(s);
    case Snapshot => PersistOnce(s, s.runs);
    case PersistRun(id) => PersistOnce(s, s.runs[id := Persisted]);
    case Execute(id) => ExecuteOnce(s, id);
    case ReturnDeferred(id) => ReturnOnce(s, e, id);
    case ReturnResult(id, _) => ReturnOnce(s, e, id);
    case Refinalize(id, _) => ReturnOnce(s, e, id);
    case ReleaseRun(id) => ReleaseOnce(s, id);
    case Crash => CrashOnce(s);
  }

  lemma {:induction false} RunKeepsOnce(workers: int, states: seq<System>, events: seq<Event>, i: nat)
    requires IsRun(workers, states, events) && CarefulRun(states, events) && i < |states|
    ensures OnceInv(states[i])
  {
    if i == 0 {
      InitOnce(workers);
      hide OnceInv;
    } else {
      NextCareful(workers, states, events, i - 1);
      hide *;
      RunKeepsOnce(workers, states, events, i - 1);
      StepKeepsOnce(states[i - 1], events[i - 1]);
    }
  }

  lemma NextCareful(workers: int, states: seq<System>, events: seq<Event>, i: nat)
    requires IsRun(workers, states, events) && CarefulRun(states, events) && i + 1 < |states|
    ensures i < |events| && Enabled(states[i], events[i]) && Careful(states[i], events[i])
    ensures states[i + 1] == Step(states[i], events[i])
  {
    assert Next(states[i], events[i], states[i + 1]);
    hide Enabled, Step, Careful;
  }

  lemma GuardedIsCareful(s: System, e: Event)
    requires OnceInv(s) && Guarded(s, e)
    ensures Careful(s, e)
  {
    if e.Accept? && e.id in s.pending {
      UnindexedIsIdle(s, s.pending[e.id].RequestId());
    }
    hide OnceInv, MayExecute;
  }

  lemma {:induction false} GuardedKeepsOnce(workers: int, states: seq<System>, events: seq<Event>, n: nat)
    requires IsRun(workers, states, events) && GuardedRun(states, events) && n < |states|
    ensures OnceInv(states[n])
  {
    if n == 0 {
      InitOnce(workers);
    } else {
      GuardedKeepsOnce(workers, states, events, n - 1);
      StepOf(workers, states, events, n - 1);
      hide *;
      GuardedIsCareful(states[n - 1], events[n - 1]);
      StepKeepsOnce(states[n - 1], events[n - 1]);
    }
  }

  /** In particular, a run is careful if every insert finds its request not indexed. */
  lemma GuardedMeansCareful(workers: int, states: seq<System>, events: seq<Event>)
    requires IsRun(workers, states, events) && GuardedRun(states, events)
    ensures CarefulRun(states, events)
  {
    hide OnceInv, Careful, Guarded, Next;
    forall i | 0 <= i < |events| ensures Careful(states[i], events[i]) {
      GuardedKeepsOnce(workers, states, events, i);
      GuardedIsCareful(states[i], events[i]);
    }
  }
}
