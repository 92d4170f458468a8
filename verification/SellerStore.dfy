/**
 packages/seller-runtime-core: the seller's in-memory state as a value, and the effect of each
 uninterrupted stretch of the runtime's code on it.
 */
module SellerStore {
  import opened Wrappers
  import opened SellerResult

  type TaskId = string
  type RequestId = string

  datatype TaskStatus = QUEUED | RUNNING | COMPLETED

  datatype Task = Task(
    id: TaskId,
    priority: int,
    enqueuedAt: int,
    status: TaskStatus,
    deferred: bool,
    result: Option<Finished>,
    info: TaskInfo,
    route: Route
  ) {
    function RequestId(): RequestId { info.requestId }

    function Target(): string { route.Target() }
  }

  datatype Store = Store(
    tasks: map<TaskId, Task>,
    requestIndex: map<RequestId, TaskId>,
    queue: seq<TaskId>,
    active: seq<TaskId>,
    workerConcurrency: int
  )

  function MaxWorkers(s: Store): int {
    if s.workerConcurrency < 1 then 1 else s.workerConcurrency
  }

  function EmptyStore(workers: int): Store {
    Store(map[], map[], [], [], if workers < 1 then 1 else workers)
  }

  /** getTaskByRequestId; the empty id is falsy. */
  function TaskForRequest(s: Store, r: RequestId): Option<Task> {
    if r in s.requestIndex && s.requestIndex[r] != "" && s.requestIndex[r] in s.tasks
    then Some(s.tasks[s.requestIndex[r]])
    else None
  }

  function Remember(s: Store, t: Task): Store {
    s.(tasks := s.tasks[t.id := t], requestIndex := s.requestIndex[t.RequestId() := t.id])
  }

  // ----- the queue order -----

  /** The comparator passed to `queue.sort`. */
  function Compare(tasks: map<TaskId, Task>, left: TaskId, right: TaskId): int {
    if left !in tasks || right !in tasks then 0
    else if tasks[left].priority != tasks[right].priority then tasks[left].priority - tasks[right].priority
    else tasks[left].enqueuedAt - tasks[right].enqueuedAt
  }

  /** Insertion after the last element whose key is not greater than that of `x`. */
  function OrderedInsert(tasks: map<TaskId, Task>, q: seq<TaskId>, x: TaskId): (r: seq<TaskId>)
    ensures |r| == |q| + 1
    ensures forall y :: y in r <==> y in q || y == x
  {
    if q == [] || Compare(tasks, q[|q| - 1], x) <= 0 then q + [x]
    else OrderedInsert(tasks, q[..|q| - 1], x) + [q[|q| - 1]]
  }

  /** `array.sort(compare)`: one algorithm that meets section 23.1.3.30 of ECMA-262. */
  function StableSort(tasks: map<TaskId, Task>, q: seq<TaskId>): seq<TaskId> {
    if q == [] then []
    else OrderedInsert(tasks, StableSort(tasks, q[..|q| - 1]), q[|q| - 1])
  }

  /** The first stretch of enqueueTask, up to its first await. */
  function Enqueue(s: Store, t: Task): Store {
    var m := Remember(s, t);
    m.(queue := StableSort(m.tasks, m.queue + [t.id]))
  }

  // ----- the scheduling loop -----

  datatype Iteration = Exit(store: Store) | Skip(store: Store) | Start(store: Store, id: TaskId)

  /** One turn of scheduleProcessQueue's loop, its guard included. */
  function ScheduleOnce(s: Store): Iteration {
    if |s.active| >= MaxWorkers(s) then Exit(s)
    else if s.queue == [] then Exit(s)
    else
      var id, rest := s.queue[0], s.(queue := s.queue[1..]);
      if id == "" then Exit(rest)
      else if id !in s.tasks then Skip(rest)
      else Start(rest.(tasks := s.tasks[id := s.tasks[id].(status := RUNNING)], active := s.active + [id]), id)
  }

  /** The whole loop: the state it leaves and the tasks it started, in order. */
  function ScheduleAll(s: Store): (r: (Store, seq<TaskId>))
    decreases |s.queue|
  {
    match ScheduleOnce(s)
    case Exit(s') => (s', [])
    case Skip(s') => ScheduleAll(s')
    case Start(s', id) => var (end, started) := ScheduleAll(s'); (end, [id] + started)
  }

  // ----- the end of a run -----

  /** finalizeTask up to its first await. */
  function Complete(s: Store, id: TaskId, result: Finished): Store
    requires id in s.tasks
  {
    s.(tasks := s.tasks[id := s.tasks[id].(status := COMPLETED, result := Some(result))])
  }

  function Defer(s: Store, id: TaskId): Store
    requires id in s.tasks
  {
    s.(tasks := s.tasks[id := s.tasks[id].(status := RUNNING, deferred := true)])
  }

  function Release(s: Store, id: TaskId): Store {
    s.(active := Without(s.active, id))
  }

  /** hydrateSellerState(serializeSellerState(s)): the active set is dropped, nothing is scheduled. */
  function Rehydrate(s: Store): Store {
    s.(active := [], workerConcurrency := MaxWorkers(s))
  }

  // ----- push then sort is ordered insertion -----

  ghost predicate Known(tasks: map<TaskId, Task>, q: seq<TaskId>) {
    forall x | x in q :: x in tasks
  }

  ghost predicate Sorted(tasks: map<TaskId, Task>, q: seq<TaskId>) {
    forall i, j | 0 <= i < j < |q| :: Compare(tasks, q[i], q[j]) <= 0
  }

  function Position(q: seq<TaskId>, x: TaskId): (i: nat)
    ensures x in q ==> i < |q| && q[i] == x
  {
    if q == [] || q[0] == x then 0 else Position(q[1..], x) + 1
  }

  lemma {:induction false} PositionOf(q: seq<TaskId>, i: nat)
    requires NoDup(q) && i < |q|
    ensures Position(q, q[i]) == i
  {
    if i > 0 {
      PositionOf(q[1..], i - 1);
    }
  }

  /** x precedes y in the result of a stable sort of `before`. */
  ghost predicate Precedes(tasks: map<TaskId, Task>, before: seq<TaskId>, x: TaskId, y: TaskId) {
    Compare(tasks, x, y) < 0 || (Compare(tasks, x, y) == 0 && Position(before, x) < Position(before, y))
  }

  ghost predicate StrictlySorted(tasks: map<TaskId, Task>, before: seq<TaskId>, a: seq<TaskId>) {
    forall i, j | 0 <= i < j < |a| :: Precedes(tasks, before, a[i], a[j])
  }

  /** What ECMA-262 promises of `sort` with a consistent comparator on an array without duplicates. */
  ghost predicate IsStableSort(tasks: map<TaskId, Task>, before: seq<TaskId>, after: seq<TaskId>) {
    && multiset(after) == multiset(before)
    && StrictlySorted(tasks, before, after)
  }

  lemma {:induction false} InsertSorted(tasks: map<TaskId, Task>, q: seq<TaskId>, x: TaskId)
    requires Known(tasks, q + [x]) && Sorted(tasks, q)
    ensures Sorted(tasks, OrderedInsert(tasks, q, x))
  {
    if q != [] && Compare(tasks, q[|q| - 1], x) > 0 {
      var init, last := q[..|q| - 1], q[|q| - 1];
      InsertSorted(tasks, init, x);
      var r := OrderedInsert(tasks, init, x);
      forall i | 0 <= i < |r| ensures Compare(tasks, r[i], last) <= 0 {
        assert r[i] in init || r[i] == x;
      }
    }
  }

  lemma CompareThrough(tasks: map<TaskId, Task>, a: TaskId, b: TaskId, c: TaskId)
    requires a in tasks && b in tasks && c in tasks && Compare(tasks, a, b) <= 0 && Compare(tasks, b, c) <= 0
    ensures Compare(tasks, a, c) <= 0
  {
  }

  lemma InsertBeforeLast(init: seq<TaskId>, last: TaskId, x: TaskId, k: nat)
    requires k <= |init|
    ensures var q := init + [last]; q[..k] + [x] + q[k..] == (init[..k] + [x] + init[k..]) + [last]
  {
  }

  lemma NoneIsLater(tasks: map<TaskId, Task>, q: seq<TaskId>, x: TaskId)
    requires Known(tasks, q) && x in tasks && Sorted(tasks, q) && (q != [] ==> Compare(tasks, q[|q| - 1], x) <= 0)
    ensures forall i | 0 <= i < |q| :: Compare(tasks, q[i], x) <= 0
  {
    forall i | 0 <= i < |q| ensures Compare(tasks, q[i], x) <= 0 {
      if i < |q| - 1 {
        CompareThrough(tasks, q[i], q[|q| - 1], x);
      }
    }
  }

  lemma NothingToInsertBefore(q: seq<TaskId>, x: TaskId)
    ensures q[..|q|] + [x] + q[|q|..] == q + [x]
  {
  }

  /** Where the new element lands: everything not greater stays before it, the greater ones follow in order. */
  lemma {:induction false} InsertPlace(tasks: map<TaskId, Task>, q: seq<TaskId>, x: TaskId) returns (k: nat)
    requires Known(tasks, q + [x]) && Sorted(tasks, q)
    ensures k <= |q| && OrderedInsert(tasks, q, x) == q[..k] + [x] + q[k..]
    ensures forall i | 0 <= i < k :: Compare(tasks, q[i], x) <= 0
    ensures forall i | k <= i < |q| :: Compare(tasks, q[i], x) > 0
  {
    hide Compare;
    if q == [] || Compare(tasks, q[|q| - 1], x) <= 0 {
      k := |q|;
      assert x in q + [x] && forall i | 0 <= i < |q| :: q[i] in q + [x];
      NoneIsLater(tasks, q, x);
      NothingToInsertBefore(q, x);
    } else {
      var init, last := q[..|q| - 1], q[|q| - 1];
      assert q == init + [last];
      k := InsertPlace(tasks, init, x);
      InsertBeforeLast(init, last, x, k);
    }
  }

  /** The order of the queue: smaller priority first, then earlier enqueued_at. */
  ghost predicate InStartOrder(tasks: map<TaskId, Task>, q: seq<TaskId>)
    requires Known(tasks, q)
  {
    forall i, j | 0 <= i < j < |q| ::
      tasks[q[i]].priority < tasks[q[j]].priority
      || (tasks[q[i]].priority == tasks[q[j]].priority && tasks[q[i]].enqueuedAt <= tasks[q[j]].enqueuedAt)
  }

  lemma SortedIsInOrder(tasks: map<TaskId, Task>, q: seq<TaskId>)
    requires Known(tasks, q)
    ensures Sorted(tasks, q) <==> InStartOrder(tasks, q)
  {
  }

  /** The new task goes after all that are not to be started later, and before all that are. */
  lemma InsertShape(tasks: map<TaskId, Task>, q: seq<TaskId>, x: TaskId) returns (k: nat)
    requires Known(tasks, q) && x in tasks && InStartOrder(tasks, q)
    ensures k <= |q| && OrderedInsert(tasks, q, x) == q[..k] + [x] + q[k..]
    ensures forall i | 0 <= i < k ::
              tasks[q[i]].priority < tasks[x].priority
              || (tasks[q[i]].priority == tasks[x].priority && tasks[q[i]].enqueuedAt <= tasks[x].enqueuedAt)
    ensures forall i | k <= i < |q| ::
              tasks[q[i]].priority > tasks[x].priority
              || (tasks[q[i]].priority == tasks[x].priority && tasks[q[i]].enqueuedAt > tasks[x].enqueuedAt)
  {
    SortedIsInOrder(tasks, q);
    hide Sorted, InStartOrder, OrderedInsert;
    assert Known(tasks, q + [x]);
    k := InsertPlace(tasks, q, x);
  }

  /** Whatever it was, a sorted queue is in the order in which its tasks are to be started. */
  lemma {:induction false} SortIsInOrder(tasks: map<TaskId, Task>, q: seq<TaskId>)
    requires Known(tasks, q)
    ensures Known(tasks, StableSort(tasks, q)) && InStartOrder(tasks, StableSort(tasks, q))
    ensures Sorted(tasks, StableSort(tasks, q))
  {
    if q != [] {
      var init, last := q[..|q| - 1], q[|q| - 1];
      SortIsInOrder(tasks, init);
      hide Sorted, InStartOrder, OrderedInsert, Compare;
      InsertSorted(tasks, StableSort(tasks, init), last);
      SortedIsInOrder(tasks, StableSort(tasks, q));
    }
  }

  /** A task that is new to an ordered queue is started before exactly those that come strictly later. */
  lemma NewestOfEqualsIsLast(tasks: map<TaskId, Task>, q: seq<TaskId>, x: TaskId)
    requires Known(tasks, q) && x in tasks && x !in q && InStartOrder(tasks, q)
    ensures var r := StableSort(tasks, q + [x]);
            && Known(tasks, r)
            && forall i, j | 0 <= i < j < |r| && r[i] == x ::
                 tasks[x].priority < tasks[r[j]].priority
                 || (tasks[x].priority == tasks[r[j]].priority && tasks[x].enqueuedAt < tasks[r[j]].enqueuedAt)
  {
    SortedIsInOrder(tasks, q);
    PushThenSort(tasks, q, x);
    hide Sorted, StableSort, OrderedInsert;
    var k := InsertShape(tasks, q, x);
    var r := q[..k] + [x] + q[k..];
    hide InStartOrder;
    forall i, j | 0 <= i < j < |r| && r[i] == x
      ensures tasks[x].priority < tasks[r[j]].priority
              || (tasks[x].priority == tasks[r[j]].priority && tasks[x].enqueuedAt < tasks[r[j]].enqueuedAt)
    {
      assert i == k && r[j] == q[j - 1];
    }
  }

  lemma {:induction false} SortOfSorted(tasks: map<TaskId, Task>, q: seq<TaskId>)
    requires Sorted(tasks, q)
    ensures StableSort(tasks, q) == q
  {
    if q != [] {
      var init, last := q[..|q| - 1], q[|q| - 1];
      SortOfSorted(tasks, init);
      assert q == init + [last];
      assert init != [] ==> Compare(tasks, init[|init| - 1], last) <= 0;
    }
  }

  /** push then sort is insertion. */
  lemma PushThenSort(tasks: map<TaskId, Task>, q: seq<TaskId>, x: TaskId)
    requires Sorted(tasks, q)
    ensures StableSort(tasks, q + [x]) == OrderedInsert(tasks, q, x)
  {
    assert (q + [x])[..|q|] == q;
    SortOfSorted(tasks, q);
  }

  lemma CompareSwaps(tasks: map<TaskId, Task>, x: TaskId, y: TaskId)
    ensures Compare(tasks, x, y) < 0 <==> Compare(tasks, y, x) > 0
  {
  }

  /** Two elements of a sorted queue into which x was inserted at k are in the order of a stable sort. */
  lemma InsertedPrecedes(tasks: map<TaskId, Task>, q: seq<TaskId>, x: TaskId, k: nat, i: nat, j: nat)
    requires k <= |q| && i < j <= |q| && Sorted(tasks, q) && NoDup(q + [x])
    requires forall l | 0 <= l < k :: Compare(tasks, q[l], x) <= 0
    requires forall l | k <= l < |q| :: Compare(tasks, q[l], x) > 0
    ensures var r := q[..k] + [x] + q[k..]; Precedes(tasks, q + [x], r[i], r[j])
  {
    hide Compare;
    var r, before := q[..k] + [x] + q[k..], q + [x];
    var bi := if i < k then i else if i == k then |q| else i - 1;
    var bj := if j < k then j else if j == k then |q| else j - 1;
    assert r[i] == before[bi] && r[j] == before[bj];
    PositionOf(before, bi);
    PositionOf(before, bj);
    if i == k {
      CompareSwaps(tasks, x, q[j - 1]);
    }
  }

  lemma InsertIsStableSort(tasks: map<TaskId, Task>, q: seq<TaskId>, x: TaskId)
    requires Known(tasks, q + [x]) && Sorted(tasks, q) && NoDup(q + [x])
    ensures IsStableSort(tasks, q + [x], OrderedInsert(tasks, q, x))
  {
    hide Compare, Precedes, NoDup, Sorted;
    var k := InsertPlace(tasks, q, x);
    assert q == q[..k] + q[k..];
    var after := OrderedInsert(tasks, q, x);
    forall i, j | 0 <= i < j < |after| ensures Precedes(tasks, q + [x], after[i], after[j]) {
      InsertedPrecedes(tasks, q, x, k, i, j);
    }
  }

  lemma RestOf(a: seq<TaskId>)
    requires a != []
    ensures multiset(a[1..]) == multiset(a) - multiset{a[0]}
  {
    assert a == [a[0]] + a[1..];
  }

  lemma SameHead(tasks: map<TaskId, Task>, before: seq<TaskId>, a: seq<TaskId>, b: seq<TaskId>)
    requires StrictlySorted(tasks, before, a) && StrictlySorted(tasks, before, b)
    requires a != [] && b != [] && a[0] in b && b[0] in a
    ensures a[0] == b[0]
  {
    var i :| 0 <= i < |a| && a[i] == b[0];
    var j :| 0 <= j < |b| && b[j] == a[0];
    assert i == 0 || Precedes(tasks, before, a[0], b[0]);
    assert j == 0 || Precedes(tasks, before, b[0], a[0]);
  }

  lemma {:induction false} StrictOrderIsUnique(tasks: map<TaskId, Task>, before: seq<TaskId>, a: seq<TaskId>,
                                               b: seq<TaskId>)
    requires multiset(a) == multiset(b)
    requires StrictlySorted(tasks, before, a) && StrictlySorted(tasks, before, b)
    ensures a == b
  {
    if a != [] {
      assert a[0] in multiset(b) && b[0] in multiset(a);
      SameHead(tasks, before, a, b);
      RestOf(a);
      RestOf(b);
      StrictOrderIsUnique(tasks, before, a[1..], b[1..]);
    } else {
      assert |multiset(b)| == |b| == 0;
    }
  }

  /**
   Whatever stable sort the engine uses, pushing onto a sorted queue and sorting it again gives
   exactly the insertion of the new task after the last one whose key is not greater.
   */
  lemma EnqueueIsOrderedInsertion(tasks: map<TaskId, Task>, q: seq<TaskId>, x: TaskId, r: seq<TaskId>)
    requires Known(tasks, q) && x in tasks && InStartOrder(tasks, q) && NoDup(q + [x])
    ensures IsStableSort(tasks, q + [x], r) <==> r == OrderedInsert(tasks, q, x)
    ensures r == OrderedInsert(tasks, q, x) ==>
              Known(tasks, r)
              && forall i, j | 0 <= i < j < |r| ::
                   tasks[r[i]].priority < tasks[r[j]].priority
                   || (tasks[r[i]].priority == tasks[r[j]].priority && tasks[r[i]].enqueuedAt <= tasks[r[j]].enqueuedAt)
  {
    SortedIsInOrder(tasks, q);
    assert Known(tasks, q + [x]);
    InsertIsStableSort(tasks, q, x);
    if IsStableSort(tasks, q + [x], r) {
      StrictOrderIsUnique(tasks, q + [x], r, OrderedInsert(tasks, q, x));
    }
    hide Sorted, StrictlySorted, OrderedInsert;
    InsertSorted(tasks, q, x);
    SortedIsInOrder(tasks, OrderedInsert(tasks, q, x));
  }

  lemma {:induction false} ScheduleGrowsActive(s: Store)
    ensures ScheduleAll(s).0.active == s.active + ScheduleAll(s).1
    decreases |s.queue|
  {
    match ScheduleOnce(s)
    case Exit(_) =>
    case Skip(s') => ScheduleGrowsActive(s');
    case Start(s', _) => ScheduleGrowsActive(s');
  }

  /** After the loop no worker is free or nothing waits, unless it stopped on an empty id. */
  lemma {:induction false} ScheduleFillsWorkers(s: Store)
    requires "" !in s.queue
    ensures var (end, started) := ScheduleAll(s);
            end.queue == [] || (|end.active| >= 1 && |end.active| >= end.workerConcurrency)
    decreases |s.queue|
  {
    match ScheduleOnce(s)
    case Exit(_) =>
    case Skip(s') => ScheduleFillsWorkers(s');
    case Start(s', _) => ScheduleFillsWorkers(s');
  }
}
