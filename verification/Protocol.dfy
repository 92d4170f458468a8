/**
 Buyer, hub and seller together: one run interleaves the buyer's requests, the two hub queues and the
 seller runtime, with duplicate deliveries, replays, timeouts, crashes and failing sends in any order.
 */
module Protocol {
  import opened Wrappers
  import opened Json
  import opened Contracts
  import opened SellerResult
  import opened SellerStore
  import opened BuyerRequest
  import opened Hub
  import opened RoundTrip
  import Seller = SellerMachine
  import Once = SellerOnce
  import Buyer = BuyerMachine
  import Inbox = BuyerInbox

  datatype Parties = Parties(h: Host, key: PrivateKey, limit: nat, identity: Identity, workers: int)

  /** Why a task ended: its execution, or the token check or a guardrail. */
  datatype Cause = Ran(outcome: Outcome) | Refused(code: Json, message: Json)

  /** One signature of the seller. */
  datatype Entry = Entry(info: TaskInfo, at: int, cause: Cause)

  function Signed(p: Parties, e: Entry): Finished {
    match e.cause
    case Ran(o) => Finish(p.h, p.key, p.limit, e.info, e.at, o)
    case Refused(code, message) => Rejection(p.h, p.key, e.info, e.at, code, message)
  }

  datatype World = World(
    requests: Inbox.Requests,
    seller: Seller.System,
    toSeller: Queue,
    toBuyer: Queue,
    sellerMail: set<Message>,      // everything that was ever in the seller's queue
    buyerMail: set<Message>,
    handled: set<string>,          // messages the seller has dealt with and may acknowledge
    settled: set<string>,          // messages the buyer has dealt with and may acknowledge
    origin: map<TaskId, Message>,  // the envelope each inbox task was made from
    log: set<Entry>,
    dispatched: set<RequestId>
  )

  /** `copy` is the id of the message that reached the buyer's queue; None when the send failed or went elsewhere. */
  datatype Event =
    | BuyerChanges(change: Buyer.Event)
    | SendTask(id: RequestId, messageId: string, priority: int)
    | ForeignTask(m: Message)                                          // somebody else writes to the seller
    | ForeignMail(m: Message)                                          // somebody else writes to the buyer
    | BuyerHandles(m: Message)                                         // polled now or before, and again perhaps
    | BuyerAcks(messageId: string)
    | SellerReceives(m: Message, task: Task, copy: Option<string>)     // the lookup, and a replay if it finds a result
    | SellerAccepts(id: TaskId)
    | SellerRejects(id: TaskId, entry: Entry, copy: Option<string>)
    | SellerAcks(messageId: string)
    | Finishes(id: TaskId, entry: Entry, again: bool, copy: Option<string>)
    | SellerWorks(work: Seller.Event)

  function Init(p: Parties): World {
    World(map[], Seller.Init(p.workers), [], [], {}, {}, {}, {}, map[], {}, {})
  }

  predicate Addressed(identity: Identity, m: Message)
    requires m.payload.TaskRequested?
  {
    && (Given(m.payload.sellerId) ==> m.payload.sellerId.value == identity.sellerId)
    && (Given(m.payload.subagentId) ==> m.payload.subagentId.value in identity.subagentIds)
  }

  function SellerEvent(p: Parties, e: Event): Option<Seller.Event> {
    match e
    case SellerReceives(_, task, _) => Some(Seller.Receive(task))
    case SellerAccepts(id) => Some(Seller.Accept(id))
    case SellerRejects(id, entry, _) => Some(Seller.Reject(id, Signed(p, entry)))
    case Finishes(id, entry, again, _) =>
      Some(if again then Seller.Refinalize(id, Signed(p, entry)) else Seller.ReturnResult(id, Signed(p, entry)))
    case SellerWorks(s) => Some(s)
    case _ => None
  }

  ghost predicate MayReceive(p: Parties, w: World, m: Message, task: Task) {
    && m in w.sellerMail && m.payload.TaskRequested? && m.requestId != "" && Addressed(p.identity, m)
    && task == TaskOf(p.identity, task.id, task.enqueuedAt, m)
  }

  ghost predicate MayReject(w: World, id: TaskId, entry: Entry, copy: Option<string>) {
    && id in w.origin && id in w.seller.pending && entry.info == w.seller.pending[id].info && entry.cause.Refused?
    && (copy.Some? ==> w.seller.pending[id].Target() == BUYER)
  }

  ghost predicate MayFinish(w: World, id: TaskId, entry: Entry, again: bool, copy: Option<string>) {
    && id in w.seller.store.tasks && entry.info == w.seller.store.tasks[id].info
    && entry.cause.Ran? && (again ==> entry.cause.outcome.Threw?)
    && (copy.Some? ==> w.seller.store.tasks[id].Target() == BUYER)
  }

  /** The seller's steps that involve no message. */
  predicate Silent(s: Seller.Event) {
    s.Submit? || s.Schedule? || s.Snapshot? || s.PersistRun? || s.Execute? || s.ReturnDeferred? || s.ReleaseRun?
    || s.Crash?
  }

  ghost predicate Enabled(p: Parties, w: World, e: Event) {
    && (SellerEvent(p, e).Some? ==> Seller.Enabled(w.seller, SellerEvent(p, e).value))
    && match e
       case BuyerChanges(Create(r)) => Buyer.Brand(r)
       case BuyerChanges(Touch(id, _)) => id in w.requests
       case SendTask(id, _, _) => id in w.requests
       case ForeignTask(_) => true
       case ForeignMail(_) => true
       case BuyerHandles(m) => m in w.buyerMail
       case BuyerAcks(messageId) => messageId in w.settled
       case SellerReceives(m, task, _) => MayReceive(p, w, m, task)
       case SellerAccepts(id) => id in w.origin
       case SellerRejects(id, entry, copy) => MayReject(w, id, entry, copy)
       case SellerAcks(messageId) => messageId in w.handled
       case Finishes(id, entry, again, copy) => MayFinish(w, id, entry, again, copy)
       case SellerWorks(s) => Silent(s)
  }

  // ----- what an event does to each part -----

  /** sendResultEnvelope */
  function ResultMessage(messageId: string, requestId: RequestId, f: Finished): Message {
    Message(messageId, requestId, TaskResult(f.package, AttachmentsOf(f.artifacts)))
  }

  function ToSeller(w: World, e: Event): seq<Message> {
    match e
    case SendTask(id, messageId, priority) =>
      if id in w.requests then [DispatchEnvelope(w.requests[id], messageId, priority, Route("", BUYER))] else []
    case ForeignTask(m) => [m]
    case _ => []
  }

  function Copy(copy: Option<string>, requestId: RequestId, f: Finished): seq<Message> {
    if copy.Some? then [ResultMessage(copy.value, requestId, f)] else []
  }

  function ToBuyer(p: Parties, w: World, e: Event): seq<Message> {
    match e
    case ForeignMail(m) => [m]
    case SellerReceives(m, _, copy) =>
      (match TaskForRequest(w.seller.store, m.requestId)
       case Some(existing) => if existing.result.Some? then Copy(copy, existing.RequestId(), existing.result.value)
           else []
       case None => [])
    case SellerRejects(_, entry, copy) => Copy(copy, entry.info.requestId, Signed(p, entry))
    case Finishes(_, entry, _, copy) => Copy(copy, entry.info.requestId, Signed(p, entry))
    case _ => []
  }

  function RequestsAfter(p: Parties, w: World, e: Event): Inbox.Requests {
    match e
    case BuyerChanges(Create(r)) => w.requests[r.terms.requestId := r]
    case BuyerChanges(Touch(id, c)) =>
      if id in w.requests then w.requests[id := Buyer.Apply(p.h, w.requests[id], c)] else w.requests
    case BuyerHandles(m) => Inbox.Received(p.h, w.requests, m)
    case _ => w.requests
  }

  ghost function SettledAfter(p: Parties, w: World, e: Event): set<string> {
    if e.BuyerHandles? && Inbox.Recognised(w.requests.Keys, e.m) && !Inbox.Throws(p.h, w.requests, e.m)
    then w.settled + {e.m.messageId} else w.settled
  }

  function HandledAfter(w: World, e: Event): set<string> {
    match e
    case SellerReceives(m, _, _) =>
      if TaskForRequest(w.seller.store, m.requestId).Some? then w.handled + {m.messageId} else w.handled
    case SellerAccepts(id) => if id in w.origin then w.handled + {w.origin[id].messageId} else w.handled
    case SellerRejects(id, _, _) => if id in w.origin then w.handled + {w.origin[id].messageId} else w.handled
    case _ => w.handled
  }

  function LogAfter(w: World, e: Event): set<Entry> {
    match e
    case SellerRejects(_, entry, _) => w.log + {entry}
    case Finishes(_, entry, _, _) => w.log + {entry}
    case _ => w.log
  }

  ghost function Step(p: Parties, w: World, e: Event): World
    requires Enabled(p, w, e)
  {
    World(
      RequestsAfter(p, w, e),
      if SellerEvent(p, e).Some? then Seller.Step(w.seller, SellerEvent(p, e).value) else w.seller,
      if e.SellerAcks? then AfterAck(w.toSeller, e.messageId) else w.toSeller + ToSeller(w, e),
      if e.BuyerAcks? then AfterAck(w.toBuyer, e.messageId) else w.toBuyer + ToBuyer(p, w, e),
      w.sellerMail + SeqToSet(ToSeller(w, e)),
      w.buyerMail + SeqToSet(ToBuyer(p, w, e)),
      HandledAfter(w, e),
      SettledAfter(p, w, e),
      if e.SellerReceives? then w.origin[e.task.id := e.m] else w.origin,
      LogAfter(w, e),
      if e.SendTask? then w.dispatched + {e.id} else w.dispatched)
  }

  ghost predicate Next(p: Parties, w: World, e: Event, w': World) {
    Enabled(p, w, e) && w' == Step(p, w, e)
  }

  ghost predicate IsRun(p: Parties, states: seq<World>, events: seq<Event>) {
    && |states| == |events| + 1 && states[0] == Init(p)
    && forall i {:trigger events[i]} | 0 <= i < |events| :: Next(p, states[i], events[i], states[i + 1])
  }

  /** The parts of the next world, one by one. */
  lemma StepParts(p: Parties, w: World, e: Event)
    requires Enabled(p, w, e)
    ensures var w' := Step(p, w, e);
            && w'.requests == RequestsAfter(p, w, e)
            && w'.seller ==
            (if SellerEvent(p, e).Some? then Seller.Step(w.seller, SellerEvent(p, e).value) else w.seller)
            && w'.toSeller == (if e.SellerAcks? then AfterAck(w.toSeller, e.messageId) else w.toSeller + ToSeller(w, e))
            && w'.toBuyer == (if e.BuyerAcks? then AfterAck(w.toBuyer, e.messageId) else w.toBuyer + ToBuyer(p, w, e))
            && w'.sellerMail == w.sellerMail + SeqToSet(ToSeller(w, e))
            && w'.buyerMail == w.buyerMail + SeqToSet(ToBuyer(p, w, e))
            && w'.handled == HandledAfter(w, e) && w'.settled == SettledAfter(p, w, e)
            && w'.origin == (if e.SellerReceives? then w.origin[e.task.id := e.m] else w.origin)
            && w'.log == LogAfter(w, e)
            && w'.dispatched == (if e.SendTask? then w.dispatched + {e.id} else w.dispatched)
  {
    hide Enabled, SellerEvent, RequestsAfter, ToSeller, ToBuyer, HandledAfter, SettledAfter, LogAfter, Seller.Step,
         AfterAck;
  }

  // ----- what a run may be asked for -----

  /** Every insert of the seller finds its request not indexed. */
  ghost predicate GuardedRun(p: Parties, states: seq<World>, events: seq<Event>) {
    && |states| == |events| + 1
    && forall i {:trigger events[i]} | 0 <= i < |events| && SellerEvent(p, events[i]).Some? ::
         Seller.Guarded(states[i].seller, SellerEvent(p, events[i]).value)
  }

  /** No envelope is accepted whose request was executed or still may be. */
  ghost predicate CarefulRun(p: Parties, states: seq<World>, events: seq<Event>) {
    && |states| == |events| + 1
    && forall i {:trigger events[i]} | 0 <= i < |events| && SellerEvent(p, events[i]).Some? ::
         Once.Careful(states[i].seller, SellerEvent(p, events[i]).value)
  }

  // ----- what the seller's steps do to its tasks -----

  /** Task ids are drawn once. */
  ghost predicate IdsOk(s: Seller.System) {
    && s.store.tasks.Keys <= s.used && s.durable.tasks.Keys <= s.used
    && (forall q | q in s.pending ::
        s.pending[q].id == q && q in s.used && q !in s.store.tasks && s.pending[q].result == None)
  }

  /** Past the call of the executor, the request is on the list of executions. */
  ghost predicate RanOk(s: Seller.System) {
    forall t | t in s.runs && !Seller.Pending(s.runs[t]) ::
      t in s.store.tasks && s.store.tasks[t].RequestId() in s.executed
  }

  ghost predicate SameTask(a: Task, b: Task) {
    a.id == b.id && a.info == b.info && a.route == b.route
  }

  /** Tasks stay, with what identifies them, and the index only grows. */
  ghost predicate TasksStay(m: Store, m': Store) {
    && (forall t | t in m.tasks :: t in m'.tasks && SameTask(m.tasks[t], m'.tasks[t]))
    && m.requestIndex.Keys <= m'.requestIndex.Keys
  }

  lemma ScheduleKeepsTasks(m: Store)
    ensures TasksStay(m, ScheduleOnce(m).store)
    ensures ScheduleOnce(m).store.tasks.Keys == m.tasks.Keys && ScheduleOnce(m).store.requestIndex == m.requestIndex
    ensures forall t | t in m.tasks :: ScheduleOnce(m).store.tasks[t].result == m.tasks[t].result
  {
  }

  lemma EnqueueKeepsTasks(m: Store, t: Task)
    ensures Enqueue(m, t).tasks == m.tasks[t.id := t]
    ensures Enqueue(m, t).requestIndex == m.requestIndex[t.RequestId() := t.id]
  {
  }

  lemma UpdateKeepsTasks(m: Store, m': Store, t: TaskId, x: Task)
    requires m'.tasks == m.tasks[t := x] && (t in m.tasks ==> SameTask(m.tasks[t], x))
    requires m.requestIndex.Keys <= m'.requestIndex.Keys
    ensures TasksStay(m, m')
  {
  }

  lemma PushStays(s: Seller.System, t: Task)
    requires t.id !in s.store.tasks
    ensures TasksStay(s.store, Seller.Push(s, t).store)
  {
    hide Enqueue, TasksStay;
    EnqueueKeepsTasks(s.store, t);
    UpdateKeepsTasks(s.store, Enqueue(s.store, t), t.id, t);
  }

  lemma InsertStays(s: Seller.System, e: Seller.Event)
    requires IdsOk(s) && Seller.Enabled(s, e) && (e.Submit? || e.Accept? || e.Reject?)
    ensures TasksStay(s.store, Seller.Step(s, e).store)
  {
    hide TasksStay, Seller.Push, TaskForRequest;
    SameTasksStay(s.store, s.store);
    match e
    case Submit(t) => PushStays(s, t);
    case Accept(id) => PushStays(s, s.pending[id]);
    case Reject(id, result) =>
      Seller.RejectIs(s, id, result);
      hide Seller.Step;
      var t := s.pending[id].(status := COMPLETED, result := Some(result));
      UpdateKeepsTasks(s.store, Remember(s.store, t), id, t);
  }

  lemma ReturnStays(s: Seller.System, e: Seller.Event)
    requires IdsOk(s) && Seller.Enabled(s, e) && (e.ReturnDeferred? || e.ReturnResult? || e.Refinalize?)
    ensures TasksStay(s.store, Seller.Step(s, e).store)
  {
    Seller.ReturnIs(s, e, e.id);
    hide TasksStay, Seller.Step, Seller.Enabled;
    var m' := Seller.Step(s, e).store;
    UpdateKeepsTasks(s.store, m', e.id, m'.tasks[e.id]);
  }

  /** The steps that leave tasks and index alone. */
  predicate Quiet(e: Seller.Event) {
    e.Receive? || e.Snapshot? || e.PersistRun? || e.Execute? || e.ReleaseRun?
  }

  lemma QuietSteps(s: Seller.System, e: Seller.Event)
    requires Seller.Enabled(s, e) && Quiet(e)
    ensures Seller.Step(s, e).store.tasks == s.store.tasks
    ensures Seller.Step(s, e).store.requestIndex == s.store.requestIndex
  {
    hide ScheduleOnce, Without, TaskForRequest, Seller.FreshTask, Seller.Push, Seller.Running, Remember, Complete,
         Defer, Rehydrate;
  }

  lemma ScheduleIs(s: Seller.System)
    requires Seller.Enabled(s, Seller.Schedule)
    ensures Seller.Step(s, Seller.Schedule).store == ScheduleOnce(s.store).store
  {
    hide ScheduleOnce;
  }

  lemma StepKeepsTasks(s: Seller.System, e: Seller.Event)
    requires IdsOk(s) && Seller.Enabled(s, e) && !e.Crash?
    ensures TasksStay(s.store, Seller.Step(s, e).store)
  {
    if e.Submit? || e.Accept? || e.Reject? {
      InsertStays(s, e);
      hide *;
    } else if e.ReturnDeferred? || e.ReturnResult? || e.Refinalize? {
      ReturnStays(s, e);
      hide *;
    } else if e.Schedule? {
      hide *;
      ScheduleIs(s);
      ScheduleKeepsTasks(s.store);
    } else {
      assert Quiet(e);
      hide *;
      QuietSteps(s, e);
      SameTasksStay(s.store, Seller.Step(s, e).store);
    }
  }

  lemma SameTasksStay(m: Store, m': Store)
    requires m'.tasks == m.tasks && m'.requestIndex == m.requestIndex
    ensures TasksStay(m, m')
  {
  }

  lemma StepKeepsIds(s: Seller.System, e: Seller.Event)
    requires IdsOk(s) && Seller.Enabled(s, e)
    ensures IdsOk(Seller.Step(s, e))
  {
    hide StableSort, OrderedInsert, Without, Seller.Running;
    if e.Schedule? {
      ScheduleKeepsTasks(s.store);
      hide ScheduleOnce;
    }
  }

  lemma StepKeepsRan(s: Seller.System, e: Seller.Event)
    requires IdsOk(s) && RanOk(s) && Seller.Enabled(s, e)
    ensures RanOk(Seller.Step(s, e)) && forall r | r in s.executed :: r in Seller.Step(s, e).executed
  {
    if !e.Crash? {
      StepKeepsTasks(s, e);
      StagesAdvance(s, e);
      ExecutedGrows(s, e);
      hide IdsOk, Seller.Step, Seller.Enabled, Seller.Pending;
    }
  }

  lemma ExecutedGrows(s: Seller.System, e: Seller.Event)
    requires Seller.Enabled(s, e)
    ensures forall r | r in s.executed :: r in Seller.Step(s, e).executed
    ensures e.Execute? ==> e.id in s.store.tasks && s.store.tasks[e.id].RequestId() in Seller.Step(s, e).executed
  {
    hide Enqueue, ScheduleOnce, Without, Seller.Running, TaskForRequest, Seller.FreshTask;
  }

  /** The executor has been called for a run only if it had been before, or is now. */
  lemma StagesAdvance(s: Seller.System, e: Seller.Event)
    requires Seller.Enabled(s, e)
    ensures var runs := Seller.Step(s, e).runs;
            forall t | t in runs && !Seller.Pending(runs[t]) ::
              (t in s.runs && !Seller.Pending(s.runs[t])) || (e.Execute? && e.id == t)
  {
    hide Enqueue, ScheduleOnce, Without, Seller.Running, TaskForRequest, Seller.FreshTask;
  }

  ghost predicate FromStep(s: Seller.System, e: Seller.Event, t: TaskId, after: Task) {
    || (t in s.store.tasks && after.result == s.store.tasks[t].result && SameTask(s.store.tasks[t], after))
    || (e.Reject? && e.id == t && after.result == Some(e.result) && t in s.pending && SameTask(s.pending[t], after))
    || ((e.ReturnResult? || e.Refinalize?) && e.id == t && after.result == Some(e.result)
        && t in s.store.tasks && SameTask(s.store.tasks[t], after))
  }

  lemma PushedHaveNoResult(s: Seller.System, x: Task, t: TaskId)
    requires x.result == None && t in Enqueue(s.store, x).tasks && Enqueue(s.store, x).tasks[t].result.Some?
    ensures t in s.store.tasks && Enqueue(s.store, x).tasks[t] == s.store.tasks[t]
  {
    EnqueueKeepsTasks(s.store, x);
    hide Enqueue;
  }

  lemma PushingKeepsResults(s: Seller.System, e: Seller.Event, t: TaskId)
    requires Seller.Enabled(s, e) && IdsOk(s) && (e.Submit? || e.Accept?)
    requires t in Seller.Step(s, e).store.tasks && Seller.Step(s, e).store.tasks[t].result.Some?
    ensures t in s.store.tasks && Seller.Step(s, e).store.tasks[t].result == s.store.tasks[t].result
  {
    var x := if e.Submit? then e.task else s.pending[e.id];
    assert x.result == None;
    hide Enqueue, TaskForRequest, IdsOk, Seller.Enabled;
    if Seller.Step(s, e).store != s.store {
      PushedHaveNoResult(s, x, t);
    }
  }

  lemma SilentKeepsResults(s: Seller.System, e: Seller.Event, t: TaskId)
    requires Seller.Enabled(s, e) && !e.Submit? && !e.Accept? && !e.Crash? && !e.Reject? && !e.ReturnResult?
             && !e.Refinalize?
    requires t in Seller.Step(s, e).store.tasks
    ensures t in s.store.tasks && Seller.Step(s, e).store.tasks[t].result == s.store.tasks[t].result
  {
    hide ScheduleOnce, Without, TaskForRequest, Seller.FreshTask;
    ScheduleKeepsTasks(s.store);
  }

  lemma WritingKeepsOthers(s: Seller.System, e: Seller.Event, t: TaskId)
    requires IdsOk(s) && Seller.Enabled(s, e) && (e.Reject? || e.ReturnResult? || e.Refinalize?)
    requires t in Seller.Step(s, e).store.tasks
    ensures t != e.id ==> t in s.store.tasks && Seller.Step(s, e).store.tasks[t] == s.store.tasks[t]
    ensures t == e.id ==> Seller.Step(s, e).store.tasks[t].result == Some(e.result)
    ensures t == e.id && e.Reject? ==> SameTask(s.pending[t], Seller.Step(s, e).store.tasks[t])
  {
    hide Seller.FreshTask;
  }

  /** A result is written by a rejection, a return or a second finalization, and by nothing else. */
  lemma ResultsComeFrom(s: Seller.System, e: Seller.Event, t: TaskId)
    requires IdsOk(s) && Seller.Enabled(s, e) && !e.Crash?
    requires t in Seller.Step(s, e).store.tasks && Seller.Step(s, e).store.tasks[t].result.Some?
    ensures FromStep(s, e, t, Seller.Step(s, e).store.tasks[t])
  {
    StepKeepsTasks(s, e);
    assert e.Reject? ==> e.id in s.pending;
    assert e.ReturnResult? || e.Refinalize? ==> e.id in s.store.tasks;
    if e.Reject? || e.ReturnResult? || e.Refinalize? {
      WritingKeepsOthers(s, e, t);
    } else if e.Submit? || e.Accept? {
      PushingKeepsResults(s, e, t);
    } else {
      SilentKeepsResults(s, e, t);
    }
    hide Seller.Step, Seller.Enabled, IdsOk, SameTask;
    if e.Reject? && t != e.id {
      assert SameTask(s.store.tasks[t], Seller.Step(s, e).store.tasks[t]);
    }
  }

  /** The seller's steps that write a result, and what they carry. */
  lemma WhoSigns(p: Parties, w: World, e: Event, s: Seller.Event)
    requires Enabled(p, w, e) && SellerEvent(p, e) == Some(s)
    ensures Seller.Enabled(w.seller, s)
    ensures s.Reject? ==>
              && e.SellerRejects? && s.id == e.id && s.result == Signed(p, e.entry)
              && e.id in w.seller.pending && e.entry.info == w.seller.pending[e.id].info
    ensures s.ReturnResult? || s.Refinalize? ==>
              && e.Finishes? && s.id == e.id && s.result == Signed(p, e.entry)
              && e.id in w.seller.store.tasks && e.entry.info == w.seller.store.tasks[e.id].info
  {
    assert e.SellerRejects? ==> MayReject(w, e.id, e.entry, e.copy);
    assert e.Finishes? ==> MayFinish(w, e.id, e.entry, e.again, e.copy);
    assert e.SellerWorks? ==> Silent(s);
    hide Seller.Enabled, Signed;
  }

  /** In the protocol, a result was there before, or this event signs it for its task. */
  lemma KeptOrSigned(p: Parties, w: World, e: Event, s: Seller.Event, t: TaskId)
    requires Enabled(p, w, e) && IdsOk(w.seller) && SellerEvent(p, e) == Some(s) && !s.Crash?
    requires var tasks := Seller.Step(w.seller, s).store.tasks; t in tasks && tasks[t].result.Some?
    ensures var after := Seller.Step(w.seller, s).store.tasks[t];
            || (t in w.seller.store.tasks && after.result == w.seller.store.tasks[t].result
                && SameTask(w.seller.store.tasks[t], after))
            || (e.SellerRejects? && e.id == t && t in w.seller.pending && after.result == Some(Signed(p, e.entry))
                && SameTask(w.seller.pending[t], after) && e.entry.info == after.info)
            || (e.Finishes? && e.id == t && t in w.seller.store.tasks && after.result == Some(Signed(p, e.entry))
                && SameTask(w.seller.store.tasks[t], after) && e.entry.info == after.info)
  {
    hide Enabled, SellerEvent, Seller.Enabled, IdsOk, Seller.Step, Signed;
    WhoSigns(p, w, e, s);
    ResultsComeFrom(w.seller, s, t);
  }
}
