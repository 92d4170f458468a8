/** packages/seller-runtime-core: the seller state object, updated in place as the runtime updates it. */
module SellerRuntime {
  import opened Wrappers
  import opened Json
  import opened Contracts
  import opened SellerResult
  import opened ResultContents
  import opened SellerStore

  /** What serializeSellerState writes: the two maps as lists of entries. */
  datatype Snapshot = Snapshot(
    tasks: seq<(TaskId, Task)>,
    requestIndex: seq<(RequestId, TaskId)>,
    queue: seq<TaskId>,
    activeTaskIds: seq<TaskId>,
    workerConcurrency: int
  )

  /** The map that setting the entries one after the other gives. */
  function FromEntries<K, V>(entries: seq<(K, V)>): map<K, V> {
    if entries == [] then map[]
    else FromEntries(entries[..|entries| - 1])[entries[|entries| - 1].0 := entries[|entries| - 1].1]
  }

  /** `Array.from(map.entries())`, in some order. */
  method Entries<K(==), V>(m: map<K, V>) returns (entries: seq<(K, V)>)
    ensures FromEntries(entries) == m
    ensures |entries| == |m|
  {
    entries := [];
    var left := m.Keys;
    while left != {}
      invariant left <= m.Keys
      invariant FromEntries(entries) == map k | k in m && k !in left :: m[k]
      invariant |entries| + |left| == |m|
    {
      var k :| k in left;
      left := left - {k};
      assert (entries + [(k, m[k])])[..|entries|] == entries;
      entries := entries + [(k, m[k])];
    }
    assert |m.Keys| == |m|;
  }

  ghost function StoreOf(s: Snapshot): Store {
    Store(FromEntries(s.tasks), FromEntries(s.requestIndex), s.queue, s.activeTaskIds, s.workerConcurrency)
  }

  class SellerState {
    var tasks: map<TaskId, Task>
    var requestIndex: map<RequestId, TaskId>
    var queue: seq<TaskId>
    var activeTaskIds: seq<TaskId>
    var workerConcurrency: int

    function View(): Store
      reads this
    {
      Store(tasks, requestIndex, queue, activeTaskIds, workerConcurrency)
    }

    constructor (workers: int)
      ensures View() == EmptyStore(workers)
    {
      tasks, requestIndex, queue, activeTaskIds := map[], map[], [], [];
      workerConcurrency := if workers < 1 then 1 else workers;
    }

    method RememberTask(task: Task)
      modifies this`tasks, this`requestIndex
      ensures View() == Remember(old(View()), task)
      ensures task.id != "" ==> TaskForRequest(View(), task.RequestId()) == Some(task)
    {
      tasks := tasks[task.id := task];
      requestIndex := requestIndex[task.RequestId() := task.id];
    }

    /** enqueueTask up to its await. */
    method EnqueueTask(task: Task)
      modifies this`tasks, this`requestIndex, this`queue
      ensures View() == Enqueue(old(View()), task)
      ensures Sorted(tasks, old(queue)) ==> queue == OrderedInsert(tasks, old(queue), task.id)
      ensures Known(tasks, old(queue)) ==>
                forall i, j | 0 <= i < j < |queue| && queue[i] in tasks && queue[j] in tasks ::
                  tasks[queue[i]].priority < tasks[queue[j]].priority
                  || (tasks[queue[i]].priority == tasks[queue[j]].priority
                      && tasks[queue[i]].enqueuedAt <= tasks[queue[j]].enqueuedAt)
      ensures Known(tasks, old(queue)) && InStartOrder(tasks, old(queue)) && task.id !in old(queue) ==>
                forall i, j | 0 <= i < j < |queue| && queue[i] == task.id && queue[j] in tasks ::
                  tasks[task.id].priority < tasks[queue[j]].priority
                  || (tasks[task.id].priority == tasks[queue[j]].priority
                      && tasks[task.id].enqueuedAt < tasks[queue[j]].enqueuedAt)
    {
      hide Sorted, InStartOrder, OrderedInsert, Known;
      RememberTask(task);
      PushThenSortIfSorted(tasks, queue, task.id);
      queue := queue + [task.id];
      queue := StableSort(tasks, queue);
      SortedAsPushed(tasks, old(queue), task.id, queue);
    }

    /** scheduleProcessQueue; each started task is one call of runQueuedTask. */
    method ScheduleProcessQueue() returns (started: seq<TaskId>)
      modifies this`tasks, this`queue, this`activeTaskIds
      ensures (View(), started) == ScheduleAll(old(View()))
      ensures "" !in old(queue) ==> queue == [] || (|activeTaskIds| >= 1 && |activeTaskIds| >= workerConcurrency)
      ensures activeTaskIds == old(activeTaskIds) + started
    {
      started := [];
      if "" !in queue {
        ScheduleFillsWorkers(View());
      }
      ScheduleGrowsActive(View());
      ghost var (end, all) := ScheduleAll(View());
      hide Known, ScheduleAll;
      assert [] + all == all;
      while |activeTaskIds| < MaxWorkers(View())
        invariant ScheduleAll(View()).0 == end && started + ScheduleAll(View()).1 == all
        decreases |queue|
      {
        ScheduleTurn(started, View());
        if queue == [] {
          return;
        }
        var nextTaskId := queue[0];
        queue := queue[1..];
        if nextTaskId == "" {
          return;
        }
        if nextTaskId !in tasks {
          continue;
        }
        tasks := tasks[nextTaskId := tasks[nextTaskId].(status := RUNNING)];
        activeTaskIds := activeTaskIds + [nextTaskId];
        started := started + [nextTaskId];
      }
      ScheduleTurn(started, View());
    }

    /** finalizeTask, or failTask when the execution threw, up to the first await. */
    method FinalizeTask(h: Host, key: PrivateKey, limit: nat, id: TaskId, completedAt: int, outcome: Outcome)
      requires id in tasks
      modifies this`tasks
      ensures View() == Complete(old(View()), id, Finish(h, key, limit, old(tasks[id].info), completedAt, outcome))
      ensures tasks[id].status == COMPLETED && tasks[id].result.Some?
      ensures SignedBy(h, key, tasks[id].result.value.package)
      ensures PackageTells(h, limit, outcome, tasks[id].result.value.package)
      ensures PackageIdentifies(h, key, old(tasks[id].info), completedAt, tasks[id].result.value.package)
      ensures forall t :: t in tasks <==> t in old(tasks)
      ensures forall t :: t in tasks && t != id ==> tasks[t] == old(tasks[t])
    {
      hide Finish, SignedBy, PackageTells, PackageIdentifies;
      FinishIsSigned(h, key, limit, tasks[id].info, completedAt, outcome);
      FinishTells(h, key, limit, tasks[id].info, completedAt, outcome);
      FinishIdentifies(h, key, limit, tasks[id].info, completedAt, outcome);
      var task := tasks[id].(status := COMPLETED);
      var result := Finish(h, key, limit, task.info, completedAt, outcome);
      tasks := tasks[id := task.(result := Some(result))];
    }

    /** The filter in runQueuedTask's finally block. */
    method ReleaseTask(id: TaskId)
      modifies this`activeTaskIds
      ensures View() == Release(old(View()), id)
      ensures forall x :: x in activeTaskIds <==> x in old(activeTaskIds) && x != id
    {
      ghost var released := Release(View(), id);
      hide Without;
      var kept, i := [], 0;
      while i < |activeTaskIds|
        invariant i <= |activeTaskIds|
        invariant kept + Without(activeTaskIds[i..], id) == released.active
      {
        WithoutStep(kept, activeTaskIds, id, i);
        if activeTaskIds[i] != id {
          kept := kept + [activeTaskIds[i]];
        }
        i := i + 1;
      }
      WithoutNone(activeTaskIds[i..], id);
      assert kept + [] == kept;
      activeTaskIds := kept;
    }

    method Serialize() returns (snapshot: Snapshot)
      ensures StoreOf(snapshot) == View()
    {
      var t := Entries(tasks);
      var r := Entries(requestIndex);
      snapshot := Snapshot(t, r, queue, activeTaskIds, workerConcurrency);
    }

    method Hydrate(snapshot: Snapshot)
      modifies this
      ensures snapshot.workerConcurrency != 0 ==> View() == Rehydrate(StoreOf(snapshot))
      ensures snapshot.workerConcurrency == 0 ==>
                View() == Rehydrate(StoreOf(snapshot).(workerConcurrency := old(workerConcurrency)))
      ensures activeTaskIds == [] && workerConcurrency >= 1
    {
      var workers := if snapshot.workerConcurrency != 0 then snapshot.workerConcurrency else workerConcurrency;
      tasks := map[];
      for i := 0 to |snapshot.tasks|
        invariant tasks == FromEntries(snapshot.tasks[..i])
      {
        assert snapshot.tasks[..i + 1][..i] == snapshot.tasks[..i];
        tasks := tasks[snapshot.tasks[i].0 := snapshot.tasks[i].1];
      }
      assert snapshot.tasks[..|snapshot.tasks|] == snapshot.tasks;
      requestIndex := map[];
      for i := 0 to |snapshot.requestIndex|
        invariant tasks == FromEntries(snapshot.tasks)
        invariant requestIndex == FromEntries(snapshot.requestIndex[..i])
      {
        assert snapshot.requestIndex[..i + 1][..i] == snapshot.requestIndex[..i];
        requestIndex := requestIndex[snapshot.requestIndex[i].0 := snapshot.requestIndex[i].1];
      }
      assert snapshot.requestIndex[..|snapshot.requestIndex|] == snapshot.requestIndex;
      queue := snapshot.queue;
      activeTaskIds := [];
      workerConcurrency := if workers < 1 then 1 else workers;
    }
  }

  /** One turn of the scheduling loop, with `started` started so far. */
  lemma ScheduleTurn(started: seq<TaskId>, s: Store)
    ensures match ScheduleOnce(s)
            case Exit(s') => ScheduleAll(s).0 == s' && started + ScheduleAll(s).1 == started
            case Skip(s') => ScheduleAll(s) == ScheduleAll(s')
            case Start(s', id) =>
              && ScheduleAll(s).0 == ScheduleAll(s').0
              && started + ScheduleAll(s).1 == (started + [id]) + ScheduleAll(s').1
  {
    hide ScheduleOnce;
  }

  /** One turn of the filter loop. */
  lemma WithoutStep(kept: seq<TaskId>, s: seq<TaskId>, x: TaskId, i: nat)
    requires i < |s|
    ensures kept + Without(s[i..], x) == (if s[i] == x then kept else kept + [s[i]]) + Without(s[i + 1..], x)
  {
    assert s[i..][1..] == s[i + 1..];
    assert Without(s[i..], x) == (if s[i] == x then [] else [s[i]]) + Without(s[i + 1..], x);
    hide Without;
  }

  lemma WithoutNone(s: seq<TaskId>, x: TaskId)
    requires s == []
    ensures Without(s, x) == []
  {
  }

  lemma SortedAsPushed(tasks: map<TaskId, Task>, q: seq<TaskId>, x: TaskId, r: seq<TaskId>)
    requires x in tasks && r == StableSort(tasks, q + [x])
    ensures Known(tasks, q) ==>
              forall i, j | 0 <= i < j < |r| && r[i] in tasks && r[j] in tasks ::
                tasks[r[i]].priority < tasks[r[j]].priority
                || (tasks[r[i]].priority == tasks[r[j]].priority && tasks[r[i]].enqueuedAt <= tasks[r[j]].enqueuedAt)
    ensures Known(tasks, q) && InStartOrder(tasks, q) && x !in q ==>
              forall i, j | 0 <= i < j < |r| && r[i] == x && r[j] in tasks ::
                tasks[x].priority < tasks[r[j]].priority
                || (tasks[x].priority == tasks[r[j]].priority && tasks[x].enqueuedAt < tasks[r[j]].enqueuedAt)
  {
    hide StableSort;
    if Known(tasks, q) {
      assert Known(tasks, q + [x]);
      SortIsInOrder(tasks, q + [x]);
      if InStartOrder(tasks, q) && x !in q {
        NewestOfEqualsIsLast(tasks, q, x);
      }
    }
  }

  lemma PushThenSortIfSorted(tasks: map<TaskId, Task>, q: seq<TaskId>, x: TaskId)
    ensures Sorted(tasks, q) ==> StableSort(tasks, q + [x]) == OrderedInsert(tasks, q, x)
  {
    if Sorted(tasks, q) {
      PushThenSort(tasks, q, x);
    }
  }

  /** A process that is restarted from its last snapshot resumes from the serialized state with no active task. */
  method SaveThenRestart(state: SellerState) returns (next: SellerState)
    requires state.workerConcurrency != 0
    ensures fresh(next) && next.View() == Rehydrate(state.View())
  {
    var snapshot := state.Serialize();
    next := new SellerState(1);
    next.Hydrate(snapshot);
  }
}
