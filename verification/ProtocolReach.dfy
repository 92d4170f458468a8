/**
 The protocol can do its job: for every outcome of an execution there is a run that ends with the verdict it calls
 for.
 */
module ProtocolReach {
  import opened Wrappers
  import opened Json
  import opened Contracts
  import opened SellerResult
  import opened SellerStore
  import opened BuyerRequest
  import opened Hub
  import opened RoundTrip
  import opened Protocol
  import opened ProtocolSafety
  import opened ProtocolDelivery
  import Seller = SellerMachine
  import Guarantees = SellerGuarantees
  import Buyer = BuyerMachine
  import Inbox = BuyerInbox

  /** A request bound to this seller, with its key pinned. */
  ghost predicate Ours(p: Parties, r: Request) {
    && p.h.Lawful() && r == NewRequest(r.terms, r.binding, r.ackDeadlineAt) && r.terms.requestId != ""
    && r.binding.expectedSigner == Some(p.h.publicPem(p.key))
    && r.binding.sellerId == Some(p.identity.sellerId)
    && r.binding.subagentId.Some? && r.binding.subagentId.value in p.identity.subagentIds
  }

  function Envelope(r: Request): Message {
    DispatchEnvelope(r, "m1", 5, Route("", BUYER))
  }

  function TaskFor(p: Parties, r: Request, now: int): Task {
    TaskOf(p.identity, "t1", now, Envelope(r))
  }

  // ----- runs that meet every assumption of the safety and the delivery theorems -----

  ghost predicate Fine(p: Parties, w: World, e: Event) {
    && Enabled(p, w, e) && Admitted(p, w, e, true) && Reliable(p, w, e)
    && (SellerEvent(p, e).Some? ==> Seller.Guarded(w.seller, SellerEvent(p, e).value))
    && !e.ForeignTask? && !(e.SellerWorks? && e.work.Submit?)
  }

  ghost predicate IsFine(p: Parties, states: seq<World>, events: seq<Event>) {
    && IsRun(p, states, events) && IsAdmitted(p, states, events, true) && IsReliable(p, states, events)
    && GuardedRun(p, states, events) && NoStrangers(events)
  }

  lemma NothingYet(p: Parties)
    ensures IsFine(p, [Init(p)], [])
  {
    hide Enabled, Step, Admitted, Reliable;
  }

  lemma StaysReliable(p: Parties, states: seq<World>, events: seq<Event>, w: World, e: Event)
    requires IsReliable(p, states, events) && Reliable(p, states[|events|], e)
    ensures IsReliable(p, states + [w], events + [e])
  {
    hide Reliable;
  }

  lemma StaysGuarded(p: Parties, states: seq<World>, events: seq<Event>, w: World, e: Event)
    requires GuardedRun(p, states, events)
    requires SellerEvent(p, e).Some? ==> Seller.Guarded(states[|events|].seller, SellerEvent(p, e).value)
    ensures GuardedRun(p, states + [w], events + [e])
  {
    hide SellerEvent, Seller.Guarded;
  }

  lemma StaysQuiet(events: seq<Event>, e: Event)
    requires NoStrangers(events) && !e.ForeignTask? && !(e.SellerWorks? && e.work.Submit?)
    ensures NoStrangers(events + [e])
  {
  }

  lemma Extend(p: Parties, states: seq<World>, events: seq<Event>, e: Event)
      returns (states': seq<World>, events': seq<Event>)
    requires IsFine(p, states, events) && Fine(p, states[|events|], e)
    ensures |states'| == |events'| + 1 && events' == events + [e] && states'[|events'|] == Step(p, states[|events|], e)
    ensures IsFine(p, states', events')
  {
    assert |states| == |events| + 1;
    hide Enabled, Step, Admitted, Reliable, Seller.Guarded, SellerEvent, IsRun, IsAdmitted, IsReliable, GuardedRun,
         NoStrangers;
    StaysReliable(p, states, events, Step(p, states[|events|], e), e);
    StaysGuarded(p, states, events, Step(p, states[|events|], e), e);
    StaysQuiet(events, e);
    states', events' := OneMoreStep(p, states, events, e, true);
  }

  /** The buyer's part of a world: the request as it was made, and the envelope sent. */
  ghost predicate Dispatched(p: Parties, w: World, r: Request) {
    w.requests == map[r.terms.requestId := r] && Envelope(r) in w.sellerMail && w.buyerMail == {}
  }

  lemma DispatchIt(p: Parties, r: Request) returns (states: seq<World>, events: seq<Event>)
    requires Ours(p, r)
    ensures IsFine(p, states, events) && Dispatched(p, states[|events|], r)
            && states[|events|].seller == Seller.Init(p.workers)
  {
    var id := r.terms.requestId;
    NothingYet(p);
    states, events := [Init(p)], [];
    CreateIsFine(p, r);
    states, events := Extend(p, states, events, BuyerChanges(Buyer.Create(r)));
    var w1 := states[1];
    SendIsFine(p, w1, r);
    states, events := Extend(p, states, events, SendTask(id, "m1", 5));
  }

  lemma CreateIsFine(p: Parties, r: Request)
    requires Ours(p, r)
    ensures Fine(p, Init(p), BuyerChanges(Buyer.Create(r)))
    ensures var w := Step(p, Init(p), BuyerChanges(Buyer.Create(r)));
            w.requests == map[r.terms.requestId := r] && w.seller == Seller.Init(p.workers) && w.buyerMail == {}
            && w.sellerMail == {}
  {
  }

  lemma SendIsFine(p: Parties, w: World, r: Request)
    requires w.requests == map[r.terms.requestId := r] && w.seller == Seller.Init(p.workers) && w.buyerMail == {}
             && w.sellerMail == {}
    ensures var e := SendTask(r.terms.requestId, "m1", 5);
            Fine(p, w, e) && Dispatched(p, Step(p, w, e), r) && Step(p, w, e).seller == w.seller
  {
    var e := SendTask(r.terms.requestId, "m1", 5);
    assert ToSeller(w, e) == [Envelope(r)];
    assert Envelope(r) in SeqToSet(ToSeller(w, e));
  }

  /** The seller holds the task, started, and nothing else. */
  ghost predicate HasStarted(p: Parties, s: Seller.System, t: Task, stage: Seller.Stage) {
    s.store.tasks == map[t.id := t.(status := RUNNING)] && t.id in s.runs && s.runs[t.id] == stage
  }

  lemma SendsNothing(p: Parties, w: World, e: Event)
    requires e.SellerAccepts? || e.SellerWorks? || (e.SellerReceives? && e.copy == None)
    ensures ToBuyer(p, w, e) == [] && ToSeller(w, e) == [] && SellerEvent(p, e).Some?
  {
  }

  lemma SellerStepIsFine(p: Parties, w: World, e: Event)
    requires Enabled(p, w, e) && ToBuyer(p, w, e) == [] && ToSeller(w, e) == []
    requires e.SellerAccepts? || e.SellerWorks? || e.SellerReceives?
    requires (e.SellerAccepts? ==> w.seller.store.requestIndex == map[])
             && (e.SellerWorks? ==> !e.work.Submit? && !e.work.Crash?)
    ensures Fine(p, w, e)
  {
    assert e.SellerWorks? ==> Silent(e.work);
    hide Enabled, ToBuyer, ToSeller;
  }

  lemma SellerStep(p: Parties, w: World, e: Event, r: Request)
    requires Enabled(p, w, e) && Dispatched(p, w, r)
    requires e.SellerAccepts? || e.SellerWorks? || (e.SellerReceives? && e.copy == None)
    requires (e.SellerAccepts? ==> w.seller.store.requestIndex == map[])
             && (e.SellerWorks? ==> !e.work.Submit? && !e.work.Crash?)
    ensures Fine(p, w, e) && Dispatched(p, Step(p, w, e), r)
    ensures Step(p, w, e).seller == Seller.Step(w.seller, SellerEvent(p, e).value)
    ensures e.SellerReceives? ==> Step(p, w, e).origin == w.origin[e.task.id := e.m]
  {
    SendsNothing(p, w, e);
    SellerStepIsFine(p, w, e);
    hide Enabled, Fine, ToBuyer, ToSeller, SellerEvent;
    StepParts(p, w, e);
    hide Step, Seller.Step, Envelope, HandledAfter, SettledAfter, LogAfter;
  }

  lemma ReceiveSays(p: Parties, w: World, r: Request, now: int)
    requires Ours(p, r) && Dispatched(p, w, r) && w.seller == Seller.Init(p.workers)
    ensures var t := TaskFor(p, r, now);
            var e := SellerReceives(Envelope(r), t, None);
            && t.id == "t1" && Enabled(p, w, e) && SellerEvent(p, e) == Some(Seller.Receive(t))
            && Seller.Step(w.seller, Seller.Receive(t)) ==
            Seller.Init(p.workers).(pending := map["t1" := t], used := {"t1"})
  {
    var t := TaskFor(p, r, now);
    assert t == TaskOf(p.identity, t.id, t.enqueuedAt, Envelope(r)) && t.id == "t1";
    assert Addressed(p.identity, Envelope(r));
    assert TaskForRequest(w.seller.store, t.RequestId()) == None;
  }

  lemma ReceiveIt(p: Parties, states: seq<World>, events: seq<Event>, r: Request, now: int)
      returns (states': seq<World>, events': seq<Event>)
    requires Ours(p, r) && IsFine(p, states, events)
    requires Dispatched(p, states[|events|], r) && states[|events|].seller == Seller.Init(p.workers)
    ensures IsFine(p, states', events') && Dispatched(p, states'[|events'|], r)
    ensures var w, t := states'[|events'|], TaskFor(p, r, now);
            w.seller == Seller.Init(p.workers).(pending := map["t1" := t], used := {"t1"}) && "t1" in w.origin
  {
    var w, t := states[|events|], TaskFor(p, r, now);
    hide *;
    var e := SellerReceives(Envelope(r), t, None);
    ReceiveSays(p, w, r, now);
    SellerStep(p, w, e, r);
    states', events' := Extend(p, states, events, e);
  }

  lemma AcceptIt(p: Parties, states: seq<World>, events: seq<Event>, r: Request, t: Task)
      returns (states': seq<World>, events': seq<Event>)
    requires IsFine(p, states, events) && Dispatched(p, states[|events|], r) && t.id == "t1"
    requires states[|events|].seller == Seller.Init(p.workers).(pending := map["t1" := t], used := {"t1"})
    requires "t1" in states[|events|].origin
    ensures IsFine(p, states', events') && Dispatched(p, states'[|events'|], r)
    ensures states'[|events'|].seller == Seller.Push(states[|events|].seller, t)
  {
    hide Enqueue, Dispatched;
    var w, e := states[|events|], SellerAccepts("t1");
    assert Enabled(p, w, e);
    SellerStep(p, w, e, r);
    hide Enabled, Step;
    states', events' := Extend(p, states, events, e);
  }

  lemma MayWork(p: Parties, w: World, s: Seller.Event)
    requires Silent(s) && Seller.Enabled(w.seller, s)
    ensures Enabled(p, w, SellerWorks(s)) && SellerEvent(p, SellerWorks(s)) == Some(s)
  {
    hide Seller.Enabled;
  }

  lemma StartSays(p: Parties, s: Seller.System, t: Task)
    requires s == Seller.Init(p.workers).(pending := map["t1" := t], used := {"t1"}) && t.id == "t1"
    ensures var s1 := Seller.Push(s, t);
            && Silent(Seller.Schedule) && Seller.Enabled(s1, Seller.Schedule)
            && HasStarted(p, Seller.Step(s1, Seller.Schedule), t, Seller.Started)
  {
    Guarantees.PushAndStart(s, t);
    hide Enqueue, Seller.Step;
  }

  lemma StartIt(p: Parties, states: seq<World>, events: seq<Event>, r: Request, s: Seller.System, t: Task)
      returns (states': seq<World>, events': seq<Event>)
    requires IsFine(p, states, events) && Dispatched(p, states[|events|], r) && t.id == "t1"
    requires s == Seller.Init(p.workers).(pending := map["t1" := t], used := {"t1"})
    requires states[|events|].seller == Seller.Push(s, t)
    ensures IsFine(p, states', events') && Dispatched(p, states'[|events'|], r)
    ensures HasStarted(p, states'[|events'|].seller, t, Seller.Started)
  {
    var w, e := states[|events|], SellerWorks(Seller.Schedule);
    hide *;
    StartSays(p, s, t);
    MayWork(p, w, Seller.Schedule);
    SellerStep(p, w, e, r);
    states', events' := Extend(p, states, events, e);
  }

  lemma WorkSays(p: Parties, t: Task, before: Seller.System, s: Seller.Event, from: Seller.Stage, to: Seller.Stage)
    requires HasStarted(p, before, t, from)
    requires (s == Seller.PersistRun(t.id) && from == Seller.Started && to == Seller.Persisted)
             || (s == Seller.Execute(t.id) && from == Seller.Persisted && to == Seller.Executing)
    ensures Silent(s) && Seller.Enabled(before, s) && HasStarted(p, Seller.Step(before, s), t, to)
  {
    assert Seller.RunAt(before, t.id, from);
  }

  lemma WorkStep(p: Parties, states: seq<World>, events: seq<Event>, r: Request, t: Task, s: Seller.Event,
                 from: Seller.Stage, to: Seller.Stage)
      returns (states': seq<World>, events': seq<Event>)
    requires IsFine(p, states, events) && Dispatched(p, states[|events|], r)
             && HasStarted(p, states[|events|].seller, t, from)
    requires (s == Seller.PersistRun(t.id) && from == Seller.Started && to == Seller.Persisted)
             || (s == Seller.Execute(t.id) && from == Seller.Persisted && to == Seller.Executing)
    ensures IsFine(p, states', events') && Dispatched(p, states'[|events'|], r)
            && HasStarted(p, states'[|events'|].seller, t, to)
  {
    var w, e := states[|events|], SellerWorks(s);
    hide *;
    WorkSays(p, t, w.seller, s, from, to);
    MayWork(p, w, s);
    SellerStep(p, w, e, r);
    states', events' := Extend(p, states, events, e);
  }

  lemma FinishIt(p: Parties, states: seq<World>, events: seq<Event>, r: Request, t: Task, entry: Entry)
      returns (states': seq<World>, events': seq<Event>)
    requires IsFine(p, states, events) && Dispatched(p, states[|events|], r)
    requires HasStarted(p, states[|events|].seller, t, Seller.Executing) && t.Target() == BUYER
    requires entry.cause.Ran? && entry.info == t.info
    ensures IsFine(p, states', events') && states'[|events'|].requests == map[r.terms.requestId := r]
    ensures ResultMessage("m2", t.RequestId(), Signed(p, entry)) in states'[|events'|].buyerMail
  {
    hide Signed;
    var w, e := states[|events|], Finishes(t.id, entry, false, Some("m2"));
    assert Seller.RunAt(w.seller, t.id, Seller.Executing);
    assert MayFinish(w, t.id, entry, false, Some("m2"));
    assert Enabled(p, w, e);
    var m := ResultMessage("m2", t.RequestId(), Signed(p, entry));
    assert ToBuyer(p, w, e) == [m];
    assert m in SeqToSet([m]);
    assert Fine(p, w, e);
    states', events' := Extend(p, states, events, e);
    hide Enabled, Seller.Step;
  }

  lemma HandleSays(p: Parties, w: World, r: Request, f: Finished)
    requires w.requests == map[r.terms.requestId := r] && r.terms.requestId != "" && !Terminal(r.status)
    requires Get(f.package, REQUEST_ID) == Str(r.terms.requestId)
    requires ResultMessage("m2", r.terms.requestId, f) in w.buyerMail
    ensures var m := ResultMessage("m2", r.terms.requestId, f);
            && Enabled(p, w, BuyerHandles(m)) && ToBuyer(p, w, BuyerHandles(m)) == []
            && RequestsAfter(p, w, BuyerHandles(m)) ==
               map[r.terms.requestId := ApplyResult(p.h, r, f.package, AttachmentsOf(f.artifacts))]
  {
    hide ApplyResult, Get, AttachedItems;
    assert Inbox.Names(w.requests.Keys, Str(r.terms.requestId));
  }

  lemma HandlingIsFine(p: Parties, w: World, m: Message)
    requires Enabled(p, w, BuyerHandles(m)) && ToBuyer(p, w, BuyerHandles(m)) == []
    ensures Fine(p, w, BuyerHandles(m))
  {
    assert SellerEvent(p, BuyerHandles(m)) == None && ToSeller(w, BuyerHandles(m)) == [];
    hide Enabled, ToBuyer, ToSeller;
  }

  lemma HandleIt(p: Parties, states: seq<World>, events: seq<Event>, r: Request, f: Finished)
      returns (states': seq<World>, events': seq<Event>)
    requires IsFine(p, states, events) && states[|events|].requests == map[r.terms.requestId := r]
    requires r.terms.requestId != "" && !Terminal(r.status) && Get(f.package, REQUEST_ID) == Str(r.terms.requestId)
    requires ResultMessage("m2", r.terms.requestId, f) in states[|events|].buyerMail
    ensures IsFine(p, states', events')
    ensures states'[|events'|].requests ==
            map[r.terms.requestId := ApplyResult(p.h, r, f.package, AttachmentsOf(f.artifacts))]
  {
    var w, m := states[|events|], ResultMessage("m2", r.terms.requestId, f);
    hide ApplyResult, Enabled, Step, ToBuyer, RequestsAfter, ResultMessage, Get, AttachmentsOf, Fine, IsFine;
    HandleSays(p, w, r, f);
    HandlingIsFine(p, w, m);
    StepParts(p, w, BuyerHandles(m));
    states', events' := Extend(p, states, events, BuyerHandles(m));
  }

  lemma Concludes(p: Parties, r: Request, now: int, at: int, o: Outcome)
    requires Ours(p, r)
    ensures var t := TaskFor(p, r, now);
            t.id == "t1" && t.Target() == BUYER && t.RequestId() == r.terms.requestId && !Terminal(r.status)
            && r.terms.requestId != ""
    ensures var f := Signed(p, Entry(TaskFor(p, r, now).info, at, Ran(o)));
            var after := ApplyResult(p.h, r, f.package, AttachmentsOf(f.artifacts));
            && Get(f.package, REQUEST_ID) == Str(r.terms.requestId)
            && after.status == StatusOf(ExpectedVerdict(p.h, p.limit, EffectiveExecution(o)))
            && after.timeline == r.timeline + [ExpectedVerdict(p.h, p.limit, EffectiveExecution(o))]
  {
    VerdictIsOutcome(p.h, p.key, p.limit, r, p.identity, Envelope(r), "t1", now, at, o);
    SignedPackage(p, Entry(TaskFor(p, r, now).info, at, Ran(o)));
    hide ExpectedVerdict, EffectiveExecution, Finish, StatusOf, ApplyResult, ReturnedOk, AttachmentsOf, Get;
  }

  /**
   Whatever an execution comes to, a run of the protocol takes a request bound to this seller to the verdict it calls
   for.
   */
  lemma EveryOutcomeIsReachable(p: Parties, r: Request, now: int, at: int, o: Outcome)
      returns (states: seq<World>, events: seq<Event>)
    requires Ours(p, r)
    ensures IsFine(p, states, events)
    ensures var after := states[|events|].requests;
            && r.terms.requestId in after
            && after[r.terms.requestId].status == StatusOf(ExpectedVerdict(p.h, p.limit, EffectiveExecution(o)))
            && after[r.terms.requestId].timeline == r.timeline + [ExpectedVerdict(p.h, p.limit, EffectiveExecution(o))]
  {
    hide ExpectedVerdict, EffectiveExecution, StatusOf, TaskFor, TaskOf, Enabled, Step, Dispatched, HasStarted, Next,
         IsAdmitted, IsReliable, GuardedRun, NoStrangers, ApplyResult, Signed, Ours, Seller.Push, AttachmentsOf, Get;
    Concludes(p, r, now, at, o);
    var t := TaskFor(p, r, now);
    var entry := Entry(t.info, at, Ran(o));
    states, events := DispatchIt(p, r);
    states, events := ReceiveIt(p, states, events, r, now);
    var s := states[|events|].seller;
    states, events := AcceptIt(p, states, events, r, t);
    states, events := StartIt(p, states, events, r, s, t);
    states, events := WorkStep(p, states, events, r, t, Seller.PersistRun("t1"), Seller.Started, Seller.Persisted);
    states, events := WorkStep(p, states, events, r, t, Seller.Execute("t1"), Seller.Persisted, Seller.Executing);
    states, events := FinishIt(p, states, events, r, t, entry);
    states, events := HandleIt(p, states, events, r, Signed(p, entry));
  }
}
