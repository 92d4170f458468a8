/**
 At-most-once execution is exact: an envelope that is accepted carelessly can always be carried on, without another
 careless accept, to a second execution of its request.
 */
module SellerOverlap {
  import opened Wrappers
  import opened SellerResult
  import opened SellerStore
  import opened SellerMachine
  import opened SellerGuarantees
  import Once = SellerOnce

  /** More events, none of them an accept. */
  ghost predicate Adds(events: seq<Event>, events': seq<Event>) {
    events <= events' && forall i | |events| <= i < |events'| :: !events'[i].Accept?
  }

  lemma AddsChain(a: seq<Event>, b: seq<Event>, c: seq<Event>)
    requires Adds(a, b) && Adds(b, c)
    ensures Adds(a, c)
  {
  }

  lemma Extend(workers: int, states: seq<System>, events: seq<Event>, e: Event)
      returns (states': seq<System>, events': seq<Event>)
    requires IsRun(workers, states, events) && Enabled(states[|events|], e)
    ensures IsRun(workers, states', events') && events' == events + [e]
    ensures states'[|events'|] == Step(states[|events|], e)
    ensures !e.Accept? ==> Adds(events, events')
  {
    hide Step, Enabled;
    states', events' := ExtendRun(workers, states, events, e);
  }

  // ----- draining the queue -----

  /** Nothing runs, somebody will schedule, and every queued task is known. */
  ghost predicate Clean(s: System) {
    s.runs == map[] && s.store.active == [] && s.owed > 0 && Runnable(s.store.tasks, s.store.queue)
  }

  ghost predicate Runnable(tasks: map<TaskId, Task>, q: seq<TaskId>) {
    forall x | x in q :: x in tasks && x != ""
  }

  /** One task runs. */
  ghost predicate Lone(s: System, id: TaskId, stage: Stage) {
    && s.runs == map[id := stage] && s.store.active == [id] && id in s.store.tasks
    && Runnable(s.store.tasks, s.store.queue)
  }

  ghost predicate SameInfo(a: map<TaskId, Task>, b: map<TaskId, Task>) {
    forall t | t in a :: t in b && b[t].info == a[t].info
  }

  ghost function Requests(tasks: map<TaskId, Task>, q: seq<TaskId>): (r: seq<RequestId>)
    requires Runnable(tasks, q)
    ensures |r| == |q| && forall i | 0 <= i < |r| :: q[i] in tasks && r[i] == tasks[q[i]].RequestId()
  {
    seq(|q|, i requires 0 <= i < |q| => assert q[i] in q; tasks[q[i]].RequestId())
  }

  lemma StartHead(s: System)
    requires Clean(s) && s.store.queue != []
    ensures var id, s' := s.store.queue[0], Step(s, Schedule);
            && Lone(s', id, Started) && s'.store.queue == s.store.queue[1..]
            && SameInfo(s.store.tasks, s'.store.tasks) && s'.executed == s.executed
  {
    assert s.store.queue[0] in s.store.queue;
    assert [] + [s.store.queue[0]] == [s.store.queue[0]];
  }

  lemma PersistHead(s: System, id: TaskId)
    requires Lone(s, id, Started)
    ensures Enabled(s, PersistRun(id)) && Lone(Step(s, PersistRun(id)), id, Persisted)
    ensures Step(s, PersistRun(id)).store == s.store && Step(s, PersistRun(id)).executed == s.executed
  {
  }

  lemma ExecuteHead(s: System, id: TaskId)
    requires Lone(s, id, Persisted)
    ensures Enabled(s, Execute(id)) && Lone(Step(s, Execute(id)), id, Executing)
    ensures Step(s, Execute(id)).store == s.store
    ensures Step(s, Execute(id)).executed == s.executed + [s.store.tasks[id].RequestId()]
  {
  }

  lemma DeferHead(s: System, id: TaskId)
    requires Lone(s, id, Executing)
    ensures Enabled(s, ReturnDeferred(id))
    ensures var s' := Step(s, ReturnDeferred(id));
            && Lone(s', id, Settled) && s'.store.queue == s.store.queue && s'.executed == s.executed
            && SameInfo(s.store.tasks, s'.store.tasks)
  {
  }

  lemma ReleaseHead(s: System, id: TaskId)
    requires Lone(s, id, Settled)
    ensures Enabled(s, ReleaseRun(id))
    ensures var s' := Step(s, ReleaseRun(id));
            Clean(s') && s'.store.queue == s.store.queue && s'.store.tasks == s.store.tasks && s'.executed == s.executed
  {
    assert Without([id], id) == [] by {
      assert [id][1..] == [];
    }
  }

  /** The head of the queue is started and executed. */
  lemma StartAndExecute(workers: int, states: seq<System>, events: seq<Event>)
      returns (states': seq<System>, events': seq<Event>)
    requires IsRun(workers, states, events) && Clean(states[|events|]) && states[|events|].store.queue != []
    ensures IsRun(workers, states', events') && Adds(events, events')
    ensures var s, s' := states[|events|], states'[|events'|];
            && Lone(s', s.store.queue[0], Executing) && s'.store.queue == s.store.queue[1..]
            && SameInfo(s.store.tasks, s'.store.tasks) && s.store.queue[0] in s'.store.tasks
            && s'.executed == s.executed + [s'.store.tasks[s.store.queue[0]].RequestId()]
  {
    var s := states[|events|];
    var id := s.store.queue[0];
    StartHead(s);
    assert Enabled(s, Schedule);
    hide Step, Enabled, Adds, Lone, Clean, Next, SameInfo;
    states', events' := Extend(workers, states, events, Schedule);
    var events1 := events';
    PersistHead(states'[|events'|], id);
    states', events' := Extend(workers, states', events', PersistRun(id));
    var events2 := events';
    AddsChain(events, events1, events2);
    LoneIsKnown(states'[|events'|], id, Persisted);
    ExecuteHead(states'[|events'|], id);
    states', events' := Extend(workers, states', events', Execute(id));
    AddsChain(events, events2, events');
  }

  /** The head of the queue is started, executed and released. */
  lemma RunHead(workers: int, states: seq<System>, events: seq<Event>)
      returns (states': seq<System>, events': seq<Event>)
    requires IsRun(workers, states, events) && Clean(states[|events|]) && states[|events|].store.queue != []
    ensures IsRun(workers, states', events') && Adds(events, events')
    ensures var s, s' := states[|events|], states'[|events'|];
            && Clean(s') && s'.store.queue == s.store.queue[1..] && SameInfo(s.store.tasks, s'.store.tasks)
            && s.store.queue[0] in s.store.tasks
            && s'.executed == s.executed + [s.store.tasks[s.store.queue[0]].RequestId()]
  {
    var s := states[|events|];
    var id := s.store.queue[0];
    assert id in s.store.queue;
    assert id in s.store.tasks;
    hide Step, Enabled, Adds, Lone, Clean, Next, SameInfo;
    states', events' := StartAndExecute(workers, states, events);
    var events1 := events';
    var s3 := states'[|events'|];
    DeferHead(s3, id);
    states', events' := Extend(workers, states', events', ReturnDeferred(id));
    var events2 := events';
    AddsChain(events, events1, events2);
    var s4 := states'[|events'|];
    ReleaseHead(s4, id);
    states', events' := Extend(workers, states', events', ReleaseRun(id));
    AddsChain(events, events2, events');
    SameInfoChain(s.store.tasks, s3.store.tasks, s4.store.tasks);
  }

  lemma SameInfoChain(a: map<TaskId, Task>, b: map<TaskId, Task>, c: map<TaskId, Task>)
    requires SameInfo(a, b) && SameInfo(b, c)
    ensures SameInfo(a, c) && forall t | t in a :: t in b && b[t].info == a[t].info
  {
  }

  lemma LoneIsKnown(s: System, id: TaskId, stage: Stage)
    requires Lone(s, id, stage)
    ensures id in s.store.tasks
  {
  }

  lemma CleanIsRunnable(s: System)
    requires Clean(s)
    ensures Runnable(s.store.tasks, s.store.queue)
  {
  }

  lemma RequestsFirst(a: map<TaskId, Task>, b: map<TaskId, Task>, q: seq<TaskId>)
    requires q != [] && Runnable(a, q) && Runnable(b, q[1..]) && SameInfo(a, b)
    ensures Requests(a, q) == [a[q[0]].RequestId()] + Requests(b, q[1..])
  {
    assert q[0] in q;
    forall i | 0 <= i < |q| ensures Requests(a, q)[i] == ([a[q[0]].RequestId()] + Requests(b, q[1..]))[i] {
      assert q[i] in q;
    }
  }

  lemma Regroup(a: seq<RequestId>, x: RequestId, b: seq<RequestId>)
    ensures a + [x] + b == a + ([x] + b)
  {
  }

  /** Every queued task is executed, in order. */
  lemma {:induction false} DrainQueue(workers: int, states: seq<System>, events: seq<Event>)
      returns (states': seq<System>, events': seq<Event>)
    requires IsRun(workers, states, events) && Clean(states[|events|])
    ensures IsRun(workers, states', events') && Adds(events, events')
    ensures var s := states[|events|];
            && Runnable(s.store.tasks, s.store.queue)
            && states'[|events'|].executed == s.executed + Requests(s.store.tasks, s.store.queue)
    decreases |states[|events|].store.queue|
  {
    var s := states[|events|];
    CleanIsRunnable(s);
    if s.store.queue == [] {
      states', events' := states, events;
      assert Requests(s.store.tasks, s.store.queue) == [];
    } else {
      hide Next, Clean, SameInfo, Requests, Runnable;
      var states1, events1 := RunHead(workers, states, events);
      var s1 := states1[|events1|];
      CleanIsRunnable(s1);
      states', events' := DrainQueue(workers, states1, events1);
      AddsChain(events, events1, events');
      RequestsFirst(s.store.tasks, s1.store.tasks, s.store.queue);
      Regroup(s.executed, s.store.tasks[s.store.queue[0]].RequestId(), Requests(s1.store.tasks, s1.store.queue));
    }
  }

  // ----- getting there: a restart and one more task -----

  lemma {:induction false} LongerThanAll(s: set<string>) returns (n: nat)
    ensures forall x | x in s :: |x| < n
  {
    if s == {} {
      n := 0;
    } else {
      var x :| x in s;
      var m := LongerThanAll(s - {x});
      n := if |x| < m then m else |x| + 1;
      assert forall y | y in s :: y == x || y in s - {x};
    }
  }

  lemma NewString(s: set<string>) returns (x: string)
    ensures x !in s && x != ""
  {
    var n := LongerThanAll(s);
    x := seq(n + 1, _ => 'x');
    assert |x| == n + 1;
  }

  lemma {:induction false} SortKeepsMembers(tasks: map<TaskId, Task>, q: seq<TaskId>)
    ensures forall y :: y in StableSort(tasks, q) <==> y in q
  {
    if q != [] {
      var init, last := q[..|q| - 1], q[|q| - 1];
      SortKeepsMembers(tasks, init);
      assert q == init + [last];
      hide OrderedInsert, Compare;
    }
  }

  lemma PushMembers(s: System, t: Task)
    ensures forall y :: y in Push(s, t).store.queue <==> y in s.store.queue || y == t.id
  {
    var tasks := Remember(s.store, t).tasks;
    SortKeepsMembers(tasks, s.store.queue + [t.id]);
    hide StableSort;
  }

  /** Whatever runs, a snapshot, a restart and a new task lead to a clean state with all that was queued. */
  lemma RestartClean(workers: int, states: seq<System>, events: seq<Event>)
      returns (states': seq<System>, events': seq<Event>)
    requires IsRun(workers, states, events) && Runnable(states[|events|].store.tasks, states[|events|].store.queue)
    requires states[|events|].store.tasks.Keys <= states[|events|].used
    ensures IsRun(workers, states', events') && Adds(events, events')
    ensures var s, s' := states[|events|], states'[|events'|];
            && Clean(s') && SameInfo(s.store.tasks, s'.store.tasks) && s'.executed == s.executed
            && forall x | x in s.store.queue :: x in s'.store.queue
  {
    hide Step, Enabled, Adds, Push, Next, Clean, Runnable, SameInfo;
    var s := states[|events|];
    AfterRestart(s);
    states', events' := Extend(workers, states, events, Snapshot);
    var events1 := events';
    states', events' := Extend(workers, states', events', Crash);
    var events2 := events';
    AddsChain(events, events1, events2);
    var s2 := states'[|events'|];
    var id := NewString(s.used);
    var r := NewString(s.store.requestIndex.Keys);
    var t := SampleTask(id).(info := SampleTask(id).info.(requestId := r));
    SubmitNew(s2, t);
    states', events' := Extend(workers, states', events', Submit(t));
    AddsChain(events, events2, events');
    PushMembers(s2, t);
    PushIsClean(s2, t);
    PushExecutesNothing(s2, t);
  }

  lemma PushExecutesNothing(s: System, t: Task)
    ensures Push(s, t).executed == s.executed
  {
  }

  lemma AfterRestart(s: System)
    ensures Enabled(s, Snapshot) && Enabled(Step(s, Snapshot), Crash)
    ensures var s2 := Step(Step(s, Snapshot), Crash);
            s2.store == Rehydrate(s.store) && s2.runs == map[] && s2.used == s.used && s2.executed == s.executed
  {
    hide Running;
  }

  lemma SubmitNew(s: System, t: Task)
    requires FreshTask(s, t) && t.RequestId() !in s.store.requestIndex
    ensures Enabled(s, Submit(t)) && Step(s, Submit(t)) == Push(s, t)
  {
    NewRequest(s.store, t.RequestId());
    hide TaskForRequest, Push, FreshTask;
  }

  lemma NewRequest(m: Store, r: RequestId)
    requires r !in m.requestIndex
    ensures TaskForRequest(m, r) == None
  {
  }

  lemma PushIsClean(s: System, t: Task)
    requires s.runs == map[] && s.store.active == [] && Runnable(s.store.tasks, s.store.queue)
    requires t.id != "" && t.id !in s.store.tasks
    ensures Clean(Push(s, t)) && SameInfo(s.store.tasks, Push(s, t).store.tasks)
  {
    PushMembers(s, t);
    hide StableSort;
  }

  // ----- the converse -----

  lemma Twice(executed: seq<RequestId>, later: seq<RequestId>, i: nat, j: nat)
    requires j < |later|
    requires (i < |executed| && executed[i] == later[j])
             || (i < |later| && i != j && later[i] == later[j] && later[j] !in executed)
    ensures !NoDup(executed + later)
  {
    var all := executed + later;
    assert all[|executed| + j] == later[j];
    if i < |executed| && executed[i] == later[j] {
      assert all[i] == later[j];
    } else {
      assert all[|executed| + i] == later[j];
    }
  }

  /** An accepted task whose request was executed, or is queued as well, leads to a second execution. */
  lemma AcceptedTwice(workers: int, states: seq<System>, events: seq<Event>, id: TaskId, r: RequestId)
      returns (states': seq<System>, events': seq<Event>)
    requires IsRun(workers, states, events)
    requires var s := states[|events|];
             && Runnable(s.store.tasks, s.store.queue) && s.store.tasks.Keys <= s.used
             && id in s.store.queue && id in s.store.tasks && s.store.tasks[id].RequestId() == r
             && (r in s.executed || exists t ::
                 t in s.store.queue && t != id && t in s.store.tasks && s.store.tasks[t].RequestId() == r)
    ensures IsRun(workers, states', events') && Adds(events, events') && !NoDup(states'[|events'|].executed)
  {
    hide Adds, Next, NoDup, Clean, Runnable;
    var s := states[|events|];
    var states1, events1 := RestartClean(workers, states, events);
    var s1 := states1[|events1|];
    states', events' := DrainQueue(workers, states1, events1);
    AddsChain(events, events1, events');
    var later := Requests(s1.store.tasks, s1.store.queue);
    var j := PlaceOf(s1.store.tasks, s1.store.queue, id);
    if r in s.executed {
      var i :| 0 <= i < |s.executed| && s.executed[i] == r;
      Twice(s.executed, later, i, j);
    } else {
      var t :| t in s.store.queue && t != id && t in s.store.tasks && s.store.tasks[t].RequestId() == r;
      var i := PlaceOf(s1.store.tasks, s1.store.queue, t);
      Twice(s.executed, later, i, j);
    }
  }

  lemma PlaceOf(tasks: map<TaskId, Task>, q: seq<TaskId>, t: TaskId) returns (i: nat)
    requires Runnable(tasks, q) && t in q
    ensures t in tasks && i < |q| && q[i] == t && Requests(tasks, q)[i] == tasks[t].RequestId()
  {
    i :| 0 <= i < |q| && q[i] == t;
  }

  lemma PushFacts(s: System, t: Task)
    ensures var s' := Push(s, t);
            && s'.store.tasks == s.store.tasks[t.id := t] && s'.used == s.used + {t.id} && s'.executed == s.executed
  {
    hide StableSort;
  }

  lemma AcceptIs(s: System, id: TaskId)
    requires id in s.pending
    ensures Enabled(s, Accept(id)) && Step(s, Accept(id)) == Push(s, s.pending[id])
  {
    hide Push;
  }

  lemma PushedState(s: System, t: Task)
    requires Runnable(s.store.tasks, s.store.queue) && s.store.tasks.Keys <= s.used && t.id != ""
             && t.id !in s.store.tasks
    ensures var s' := Push(s, t);
            && Runnable(s'.store.tasks, s'.store.queue) && s'.store.tasks.Keys <= s'.used && s'.executed == s.executed
            && t.id in s'.store.queue && t.id in s'.store.tasks && s'.store.tasks[t.id].info == t.info
            && (forall x | x in s.store.queue :: x in s'.store.queue) && SameInfo(s.store.tasks, s'.store.tasks)
  {
    PushMembers(s, t);
    PushFacts(s, t);
    hide Push;
  }

  lemma StateIsRunnable(s: System)
    requires Once.OnceInv(s)
    ensures Runnable(s.store.tasks, s.store.queue) && s.store.tasks.Keys <= s.used
    ensures forall p | p in s.pending :: s.pending[p].id == p && p != "" && p !in s.store.tasks && p !in s.store.queue
  {
    hide Once.LiveFine, Once.PersistedFine, Once.DoneFine;
  }

  /** The state after an accept, careful or not. */
  lemma AcceptedState(s: System, id: TaskId)
    requires Once.OnceInv(s) && id in s.pending
    ensures var s' := Step(s, Accept(id));
            && Runnable(s'.store.tasks, s'.store.queue) && s'.store.tasks.Keys <= s'.used && s'.executed == s.executed
            && id in s'.store.queue && id in s'.store.tasks && s'.store.tasks[id].info == s.pending[id].info
            && (forall x | x in s.store.queue :: x in s'.store.queue) && SameInfo(s.store.tasks, s'.store.tasks)
            && s'.runs == s.runs && id !in s.store.tasks
  {
    StateIsRunnable(s);
    AcceptIs(s, id);
    hide *;
    PushedState(s, s.pending[id]);
  }

  /** One or two more steps take a run that has not reached the executor there. */
  lemma ReachExecutor(workers: int, states: seq<System>, events: seq<Event>, t: TaskId)
      returns (states': seq<System>, events': seq<Event>)
    requires IsRun(workers, states, events)
    requires var s := states[|events|]; t in s.runs && Pending(s.runs[t]) && t in s.store.tasks
    ensures IsRun(workers, states', events') && Adds(events, events')
    ensures var s, s' := states[|events|], states'[|events'|];
            && s'.store == s.store && s'.used == s.used && s.store.tasks[t].RequestId() in s'.executed
  {
    hide Adds, Next;
    states', events' := states, events;
    if states[|events|].runs[t] == Started {
      states', events' := Extend(workers, states', events', PersistRun(t));
    } else {
      AddsNone(events);
    }
    var events1 := events';
    states', events' := Extend(workers, states', events', Execute(t));
    AddsChain(events, events1, events');
  }

  lemma AddsNone(events: seq<Event>)
    ensures Adds(events, events)
  {
  }

  /** After a careless accept, steps that are no accepts lead to a second execution of the request. */
  lemma CarelessExecutesTwice(workers: int, states: seq<System>, events: seq<Event>, id: TaskId)
      returns (states': seq<System>, events': seq<Event>)
    requires IsRun(workers, states, events) && Once.OnceInv(states[|events|]) && id in states[|events|].pending
    requires Once.MayExecute(states[|events|], states[|events|].pending[id].RequestId())
    ensures IsRun(workers, states', events') && Adds(events + [Accept(id)], events')
    ensures !NoDup(states'[|events'|].executed)
  {
    var s := states[|events|];
    var r := s.pending[id].RequestId();
    AcceptedState(s, id);
    AcceptIs(s, id);
    hide Step, NoDup, Push, Next, Adds, Runnable, Once.OnceInv;
    states', events' := Extend(workers, states, events, Accept(id));
    var accepted := events';
    AddsNone(accepted);
    if r !in s.executed {
      var t :| Once.LiveFor(s, t, r);
      if t !in s.store.queue {
        states', events' := ReachExecutor(workers, states', events', t);
      }
    }
    var reached := events';
    states', events' := AcceptedTwice(workers, states', events', id, r);
    AddsChain(accepted, reached, events');
  }

  // ----- exactly which runs -----

  /** A run that begins with the first n events of another and goes on without a careless accept. */
  ghost predicate Continues(workers: int, events: seq<Event>, n: nat, states': seq<System>, events': seq<Event>) {
    && IsRun(workers, states', events') && n <= |events| && n <= |events'| && events'[..n] == events[..n]
    && forall i {:trigger events'[i]} | n <= i < |events'| :: Once.Careful(states'[i], events'[i])
  }

  /** However a run or a beginning of it is carried on, without a careless accept, no request is executed twice. */
  ghost predicate Sound(workers: int, events: seq<Event>) {
    forall n: nat, states': seq<System>, events': seq<Event> :: SoundAt(workers, events, n, states', events')
  }

  ghost predicate SoundAt(workers: int, events: seq<Event>, n: nat, states': seq<System>, events': seq<Event>) {
    Continues(workers, events, n, states', events') ==> NoDup(states'[|events'|].executed)
  }

  /** Runs with the same first events go through the same first states. */
  lemma {:induction false} SameStart(workers: int, states: seq<System>, events: seq<Event>, states': seq<System>,
                                     events': seq<Event>, n: nat, i: nat)
    requires IsRun(workers, states, events) && IsRun(workers, states', events') && i <= n
    requires n <= |events| && n <= |events'| && events'[..n] == events[..n]
    ensures states'[i] == states[i]
    decreases i
  {
    if i > 0 {
      SameStart(workers, states, events, states', events', n, i - 1);
      assert events[i - 1] == events[..n][i - 1] && events'[i - 1] == events'[..n][i - 1];
      assert Next(states[i - 1], events[i - 1], states[i]) && Next(states'[i - 1], events'[i - 1], states'[i]);
      hide Step, Enabled;
    }
  }

  lemma CarefulIsSound(workers: int, states: seq<System>, events: seq<Event>)
    requires IsRun(workers, states, events) && Once.CarefulRun(states, events)
    ensures Sound(workers, events)
  {
    hide NoDup, Next, Once.Careful;
    forall n: nat, states': seq<System>, events': seq<Event> ensures SoundAt(workers, events, n, states', events') {
      if Continues(workers, events, n, states', events') {
        forall i | 0 <= i < |events'| ensures Once.Careful(states'[i], events'[i]) {
          if i < n {
            SameStart(workers, states, events, states', events', n, i);
            assert events'[i] == events'[..n][i] == events[..n][i] == events[i];
          }
        }
        ExecutedAtMostOnce(workers, states', events', |events'|);
      }
    }
  }

  /** A run whose first n steps are careful, and the next not. */
  lemma CarelessIsUnsound(workers: int, states: seq<System>, events: seq<Event>, n: nat)
    requires IsRun(workers, states, events) && n < |events| && !Once.Careful(states[n], events[n])
    requires forall i | 0 <= i < n :: Once.Careful(states[i], events[i])
    ensures !Sound(workers, events)
  {
    hide NoDup, Next, Once.OnceInv, Once.MayExecute;
    var states0, events0 := states[..n + 1], events[..n];
    Beginning(workers, states, events, n);
    assert Once.CarefulRun(states0, events0) by {
      forall i | 0 <= i < |events0| ensures Once.Careful(states0[i], events0[i]) {
        assert states0[i] == states[i] && events0[i] == events[i];
      }
    }
    Once.RunKeepsOnce(workers, states0, events0, n);
    var id := events[n].id;
    var states', events' := CarelessExecutesTwice(workers, states0, events0, id);
    var begun := events0 + [Accept(id)];
    assert begun == events[..n + 1];
    assert Continues(workers, events, n + 1, states', events');
    assert !SoundAt(workers, events, n + 1, states', events');
  }

  lemma Beginning(workers: int, states: seq<System>, events: seq<Event>, n: nat)
    requires IsRun(workers, states, events) && n <= |events|
    ensures IsRun(workers, states[..n + 1], events[..n])
  {
    hide Next;
    forall i | 0 <= i < n ensures Next(states[..n + 1][i], events[..n][i], states[..n + 1][i + 1]) {
      assert Next(states[i], events[i], states[i + 1]);
    }
  }

  lemma FirstCareless(states: seq<System>, events: seq<Event>, i: nat) returns (n: nat)
    requires |states| == |events| + 1 && i < |events| && !Once.Careful(states[i], events[i])
    ensures n <= i && !Once.Careful(states[n], events[n]) && forall k | 0 <= k < n :: Once.Careful(states[k], events[k])
  {
    hide Once.Careful;
    n := 0;
    while Once.Careful(states[n], events[n])
      invariant n <= i && forall k | 0 <= k < n :: Once.Careful(states[k], events[k])
      decreases i - n
    {
      n := n + 1;
    }
  }

  /** The runs in which no request can come to be executed twice are exactly the careful ones. */
  lemma AtMostOnceIff(workers: int, states: seq<System>, events: seq<Event>)
    requires IsRun(workers, states, events)
    ensures Once.CarefulRun(states, events) <==> Sound(workers, events)
  {
    hide Sound, Once.Careful, Next;
    if Once.CarefulRun(states, events) {
      CarefulIsSound(workers, states, events);
    } else {
      var i :| 0 <= i < |events| && !Once.Careful(states[i], events[i]);
      var n := FirstCareless(states, events, i);
      CarelessIsUnsound(workers, states, events, n);
    }
  }

  // ----- such runs exist -----

  /** An envelope waits for its token check while a posted task for the same request is started. */
  lemma PostedTaskStarts(a: Task, b: Task) returns (states: seq<System>, events: seq<Event>)
    requires a == SampleTask("a") && b == SampleTask("b")
    ensures IsRun(2, states, events)
    ensures var s := states[|events|];
            && s.store.tasks == map["b" := b.(status := RUNNING)] && s.store.requestIndex == map["r" := "b"]
            && s.runs == map["b" := Started] && s.pending == map["a" := a] && s.executed == [] && Crash !in events
            && s.store.queue == [] && s.store.active == ["b"] && s.store.workerConcurrency == 2
  {
    hide Step, Enabled, Push, Next, ScheduleOnce;
    FirstReceived(a);
    var s1 := Step(Init(2), Receive(a));
    states, events := [Init(2)], [];
    states, events := Extend(2, states, events, Receive(a));
    SecondPosted(s1, b);
    SecondStarted(s1, b);
    states, events := Extend(2, states, events, Submit(b));
    states, events := Extend(2, states, events, Schedule);
  }

  lemma FirstReceived(a: Task)
    requires a == SampleTask("a")
    ensures Enabled(Init(2), Receive(a))
    ensures var s := Step(Init(2), Receive(a)); s == Init(2).(pending := map["a" := a], used := {"a"})
  {
    NewRequest(Init(2).store, "r");
    hide TaskForRequest;
  }

  lemma SecondPosted(s: System, b: Task)
    requires s == Init(2).(pending := map["a" := SampleTask("a")], used := {"a"}) && b == SampleTask("b")
    ensures Enabled(s, Submit(b)) && Step(s, Submit(b)) == Push(s, b) && Enabled(Push(s, b), Schedule)
    ensures s.store.queue == [] && |s.store.active| < MaxWorkers(s.store)
    ensures s.store.tasks == map[] && s.store.requestIndex == map[] && s.runs == map[]
    ensures s.store.active == [] && s.store.workerConcurrency == 2 && s.executed == []
  {
    SubmitNew(s, b);
    hide Enqueue, TaskForRequest;
  }

  lemma StartKeepsIndex(s: System)
    requires s.owed > 0
    ensures Enabled(s, Schedule) && Step(s, Schedule).store.requestIndex == s.store.requestIndex
  {
    ScheduleKeepsIndex(s.store);
    hide ScheduleOnce;
  }

  lemma PushIndexes(s: System, t: Task)
    ensures Push(s, t).owed == s.owed + 1 && Push(s, t).store.requestIndex ==
            s.store.requestIndex[t.RequestId() := t.id]
  {
    EnqueueKeepsIndex(s.store, t);
    hide Enqueue;
  }

  lemma SecondStarted(s: System, b: Task)
    requires s.store.queue == [] && |s.store.active| < MaxWorkers(s.store) && s.store.tasks == map[] && s.runs == map[]
    requires s.store.requestIndex == map[] && s.pending == map["a" := SampleTask("a")] && b == SampleTask("b")
    ensures Enabled(Push(s, b), Schedule)
    ensures var s' := Step(Push(s, b), Schedule);
            && s'.store.tasks == map["b" := b.(status := RUNNING)] && s'.store.requestIndex == map["r" := "b"]
            && s'.runs == map["b" := Started] && s'.pending == map["a" := SampleTask("a")]
            && s'.executed == s.executed && s'.store.queue == [] && s'.store.active == s.store.active + ["b"]
            && s'.store.workerConcurrency == s.store.workerConcurrency
  {
    hide Push, Step, Enabled, MaxWorkers;
    PushAndStart(s, b);
    PushIndexes(s, b);
    StartKeepsIndex(Push(s, b));
  }

  lemma EnqueueKeepsIndex(m: Store, t: Task)
    ensures Enqueue(m, t).requestIndex == m.requestIndex[t.RequestId() := t.id]
  {
    hide StableSort;
  }

  lemma ScheduleKeepsIndex(m: Store)
    ensures ScheduleOnce(m).store.requestIndex == m.requestIndex
  {
  }

  lemma StartedRuns(s: System, id: TaskId)
    requires RunAt(s, id, Started)
    ensures Enabled(s, PersistRun(id)) && Enabled(Step(s, PersistRun(id)), Execute(id))
    ensures var s' := Step(Step(s, PersistRun(id)), Execute(id));
            && s'.store == s.store && s'.runs == s.runs[id := Executing] && s'.owed == s.owed
            && s'.pending == s.pending && s'.executed == s.executed + [s.store.tasks[id].RequestId()]
  {
  }

  /** A started task is persisted and handed to the executor. */
  lemma PersistAndExecute(workers: int, states: seq<System>, events: seq<Event>, id: TaskId)
      returns (states': seq<System>, events': seq<Event>)
    requires IsRun(workers, states, events) && RunAt(states[|events|], id, Started)
    ensures IsRun(workers, states', events') && events' == events + [PersistRun(id), Execute(id)]
    ensures var s, s' := states[|events|], states'[|events'|];
            && s'.store == s.store && s'.runs == s.runs[id := Executing] && s'.owed == s.owed
            && s'.pending == s.pending && s'.executed == s.executed + [s.store.tasks[id].RequestId()]
  {
    StartedRuns(states[|events|], id);
    hide Step, Enabled, Next;
    states', events' := Extend(workers, states, events, PersistRun(id));
    states', events' := Extend(workers, states', events', Execute(id));
  }

  /** When the inbox and POST /controller/tasks overlap on one request, it is executed twice; no crash is needed. */
  lemma OverlapExecutesTwice() returns (states: seq<System>, events: seq<Event>)
    ensures IsRun(2, states, events) && Crash !in events && states[|events|].executed == ["r", "r"]
  {
    var a, b := SampleTask("a"), SampleTask("b");
    hide Next, Step, Enabled, Push, ScheduleOnce;
    states, events := PostedTaskStarts(a, b);
    states, events := PersistAndExecute(2, states, events, "b");
    var s := states[|events|];
    AcceptIs(s, "a");
    states, events := Extend(2, states, events, Accept("a"));
    SecondAccepted(s);
    states, events := Extend(2, states, events, Schedule);
    states, events := PersistAndExecute(2, states, events, "a");
  }

  /** The other worker starts the accepted task. */
  lemma SecondAccepted(s: System)
    requires s.store.queue == [] && s.store.active == ["b"] && s.store.workerConcurrency == 2
    requires s.pending == map["a" := SampleTask("a")]
    ensures var s' := Push(s, SampleTask("a"));
            && Enabled(s', Schedule) && RunAt(Step(s', Schedule), "a", Started)
            && Step(s', Schedule).executed == s.executed
            && Step(s', Schedule).store.tasks["a"].RequestId() == "r"
  {
    PushAndStart(s, SampleTask("a"));
    PushIndexes(s, SampleTask("a"));
    hide Push, Step;
  }
}
