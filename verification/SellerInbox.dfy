/**
 packages/seller-runtime-core, processSellerInbox: one pass over the polled envelopes, undisturbed by other activity.
 */
module SellerInbox {
  import opened Wrappers
  import opened Json
  import opened Contracts
  import opened SellerResult
  import opened ResultContents
  import opened SellerStore
  import opened SellerRuntime
  import opened BuyerRequest
  import opened Hub
  import opened RoundTrip
  import opened Protocol

  /**
   What the world contributes while one envelope is handled: fresh ids, the clock, and the token check's or a
   guardrail's veto.
   */
  datatype Draw = Draw(id: TaskId, now: int, messageId: string, refusal: Option<Refusal>)

  datatype Refusal = Refusal(code: Json, message: Json)

  function RejectedTask(p: Parties, t: Task, d: Draw): Task
    requires d.refusal.Some?
  {
    t.(status := COMPLETED,
       result := Some(Rejection(p.h, p.key, t.info, d.now, d.refusal.value.code, d.refusal.value.message)))
  }

  predicate Mine(p: Parties, m: Message) {
    m.payload.TaskRequested? && Addressed(p.identity, m)
  }

  /** The seller's state after one envelope. */
  function HandledStore(p: Parties, s: Store, m: Message, d: Draw): Store {
    if !Mine(p, m) || TaskForRequest(s, m.requestId).Some? then s
    else
      var t := TaskOf(p.identity, d.id, d.now, m);
      if d.refusal.Some? then Remember(s, RejectedTask(p, t, d)) else ScheduleAll(Enqueue(s, t)).0
  }

  /** A replay goes to the stored delivery address, or else to whoever sent the envelope. */
  function ReplayTarget(existing: Task, m: Message): string
    requires m.payload.TaskRequested?
  {
    if existing.route.address == "" && m.payload.route.sender != "" then m.payload.route.sender else existing.Target()
  }

  /** The result envelope that handling it sends, and to whom: a replay, or a rejection. */
  function Sent(p: Parties, s: Store, m: Message, d: Draw): Option<(string, Message)> {
    if !Mine(p, m) then None
    else
      match TaskForRequest(s, m.requestId)
      case Some(existing) =>
        var target := ReplayTarget(existing, m);
        if existing.result.Some? && target != ""
        then Some((target, ResultMessage(d.messageId, existing.RequestId(), existing.result.value)))
        else None
      case None =>
        var t := TaskOf(p.identity, d.id, d.now, m);
        if d.refusal.Some? && t.Target() != "" then
          Some((t.Target(), ResultMessage(d.messageId, t.RequestId(), RejectedTask(p, t, d).result.value)))
        else None
  }

  /** What is in r's queue after one envelope; acknowledgements go to the adapter's own queue, whatever was polled. */
  function HandledQueue(p: Parties, own: string, r: string, q: Queue, s: Store, m: Message, d: Draw): Queue {
    var sent := Sent(p, s, m, d);
    var grown := if sent.Some? && sent.value.0 == r then q + [sent.value.1] else q;
    if Mine(p, m) && r == own then AfterAck(grown, m.messageId) else grown
  }

  function PassStore(p: Parties, s: Store, items: Queue, draws: seq<Draw>): Store
    requires |draws| >= |items|
  {
    if items == [] then s
    else
      var n := |items| - 1;
      HandledStore(p, PassStore(p, s, items[..n], draws), items[n], draws[n])
  }

  function PassQueue(p: Parties, own: string, r: string, q: Queue, s: Store, items: Queue, draws: seq<Draw>): Queue
    requires |draws| >= |items|
  {
    if items == [] then q
    else
      var n := |items| - 1;
      HandledQueue(p, own, r, PassQueue(p, own, r, q, s, items[..n], draws), PassStore(p, s, items[..n], draws),
                   items[n], draws[n])
  }

  class Inbox {
    const p: Parties
    const hub: LocalHub
    const state: SellerState
    const own: string

    constructor (p: Parties, hub: LocalHub, state: SellerState, own: string)
      ensures this.p == p && this.hub == hub && this.state == state && this.own == own
    {
      this.p, this.hub, this.state, this.own := p, hub, state, own;
    }

    method SendResult(target: string, m: Message)
      modifies hub
      ensures forall r :: hub.Contents(r) == if target != "" && r == target then old(hub.Contents(r)) + [m]
              else old(hub.Contents(r))
    {
      if target != "" {
        hub.Send(target, m);
      }
    }

    /** A request that is already indexed: its result, if there is one, is sent once more. */
    method Replay(existing: Task, m: Message, d: Draw)
      requires m.payload.TaskRequested?
      modifies hub
      ensures forall r :: hub.Contents(r) ==
                          if existing.result.Some? && ReplayTarget(existing, m) != "" && r == ReplayTarget(existing, m)
                          then old(hub.Contents(r)) + [ResultMessage(d.messageId, existing.RequestId(),
                                                                     existing.result.value)]
                          else old(hub.Contents(r))
    {
      if existing.result.Some? {
        var target := existing.route.address;
        if target == "" {
          target := m.payload.route.sender;
        }
        if target == "" {
          target := existing.route.sender;
        }
        SendResult(target, ResultMessage(d.messageId, existing.RequestId(), existing.result.value));
      }
    }

    method HandleEnvelope(m: Message, d: Draw)
      modifies hub, state
      ensures state.View() == HandledStore(p, old(state.View()), m, d)
      ensures forall r :: hub.Contents(r) == HandledQueue(p, own, r, old(hub.Contents(r)), old(state.View()), m, d)
    {
      hide TaskForRequest, TaskOf, Rejection, ScheduleAll, Enqueue, AfterAck;
      if !m.payload.TaskRequested? || !Addressed(p.identity, m) {
        return;
      }
      var existing := TaskForRequest(state.View(), m.requestId);
      if existing.Some? {
        Replay(existing.value, m, d);
        var acked := hub.Ack(own, m.messageId);
        return;
      }
      var task := TaskOf(p.identity, d.id, d.now, m);
      if d.refusal.Some? {
        task := RejectedTask(p, task, d);
        state.RememberTask(task);
        SendResult(task.Target(), ResultMessage(d.messageId, task.RequestId(), task.result.value));
      } else {
        state.EnqueueTask(task);
        var started := state.ScheduleProcessQueue();
      }
      var acked := hub.Ack(own, m.messageId);
    }

    method ProcessSellerInbox(receiver: string, limit: nat, draws: seq<Draw>)
      requires |draws| >= limit
      modifies hub, state
      ensures var q := old(hub.Contents(receiver));
              var items := Polled(q, limit);
              && state.View() == PassStore(p, old(state.View()), items, draws)
              && forall r ::
                hub.Contents(r) == PassQueue(p, own, r, old(hub.Contents(r)), old(state.View()), items, draws)
    {
      hide HandledStore, HandledQueue, Polled;
      var items := hub.Poll(receiver, limit);
      for k := 0 to |items|
        invariant state.View() == PassStore(p, old(state.View()), items[..k], draws)
        invariant forall r ::
                    hub.Contents(r) == PassQueue(p, own, r, old(hub.Contents(r)), old(state.View()), items[..k], draws)
      {
        assert items[..k + 1][..k] == items[..k];
        HandleEnvelope(items[k], draws[k]);
      }
      assert items[..|items|] == items;
    }
  }

  // ----- what a pass does to the queue it polled -----

  /** The envelopes for somebody else; they stay. */
  function Others(p: Parties, ms: Queue): Queue {
    if ms == [] then []
    else Others(p, ms[..|ms| - 1]) + (if Mine(p, ms[|ms| - 1]) then [] else [ms[|ms| - 1]])
  }

  /** No result of the pass is sent to r. */
  ghost predicate SendsNothingTo(p: Parties, r: string, s: Store, items: Queue, draws: seq<Draw>)
    requires |draws| >= |items|
  {
    forall k | 0 <= k < |items| ::
      var sent := Sent(p, PassStore(p, s, items[..k], draws), items[k], draws[k]); sent.Some? ==> sent.value.0 != r
  }

  lemma {:induction false} OthersDiffer(p: Parties, q: Queue, k: nat)
    requires k < |q| && UniqueIds(q)
    ensures forall i | 0 <= i < |Others(p, q[..k])| :: Others(p, q[..k])[i].messageId != q[k].messageId
  {
    OthersMembers(p, q[..k]);
    hide Mine;
    forall i | 0 <= i < |Others(p, q[..k])| ensures Others(p, q[..k])[i].messageId != q[k].messageId {
      assert Others(p, q[..k])[i] in q[..k];
    }
  }

  lemma {:induction false} OthersMembers(p: Parties, ms: Queue)
    ensures forall m | m in Others(p, ms) :: m in ms
  {
    hide Mine;
    if ms != [] {
      OthersMembers(p, ms[..|ms| - 1]);
    }
  }

  lemma SendsNothingBefore(p: Parties, r: string, s: Store, q: Queue, n: nat, k: nat, draws: seq<Draw>)
    requires k < n <= |q| && n <= |draws| && SendsNothingTo(p, r, s, q[..n], draws)
    ensures SendsNothingTo(p, r, s, q[..k], draws)
    ensures var sent := Sent(p, PassStore(p, s, q[..k], draws), q[k], draws[k]); sent.Some? ==> sent.value.0 != r
  {
    hide Sent, PassStore;
    assert q[..n][..k] == q[..k] && q[..n][k] == q[k];
    assert forall j | 0 <= j < k :: q[..n][..j] == q[..k][..j] && q[..n][j] == q[..k][j];
  }

  /** Handling the first envelope that is left of a partly drained queue. */
  lemma HandledHead(p: Parties, own: string, kept: Queue, m: Message, rest: Queue, s: Store, d: Draw)
    requires forall i | 0 <= i < |kept| :: kept[i].messageId != m.messageId
    requires Sent(p, s, m, d).Some? ==> Sent(p, s, m, d).value.0 != own
    ensures HandledQueue(p, own, own, kept + [m] + rest, s, m, d) == kept + (if Mine(p, m) then [] else [m]) + rest
  {
    hide Sent, Mine;
    AckMiddle(kept, m, rest);
    assert kept + [] == kept;
  }

  /** A pass over the adapter's own queue takes away exactly the polled envelopes that are addressed to this seller. */
  lemma {:induction false} PassDrains(p: Parties, own: string, q: Queue, s: Store, n: nat, draws: seq<Draw>)
    requires n <= |q| && n <= |draws| && UniqueIds(q) && SendsNothingTo(p, own, s, q[..n], draws)
    ensures PassQueue(p, own, own, q, s, q[..n], draws) == Others(p, q[..n]) + q[n..]
  {
    hide HandledQueue, SendsNothingTo, UniqueIds, Mine, Sent, PassStore;
    if n == 0 {
      assert q[..0] == [] && [] + q[0..] == q;
    } else {
      var k := n - 1;
      assert q[..n][..k] == q[..k] && q[..n][k] == q[k];
      SendsNothingBefore(p, own, s, q, n, k, draws);
      PassDrains(p, own, q, s, k, draws);
      OthersDiffer(p, q, k);
      var kept := Others(p, q[..k]);
      assert kept + q[k..] == kept + [q[k]] + q[n..];
      HandledHead(p, own, kept, q[k], q[n..], PassStore(p, s, q[..k], draws), draws[k]);
    }
  }

  /** A pull from another receiver's queue acknowledges in the wrong place: that queue keeps everything. */
  lemma {:induction false} ForeignPullDrainsNothing(p: Parties, own: string, r: string, q: Queue, s: Store,
                                                    items: Queue, draws: seq<Draw>)
    requires r != own && |draws| >= |items| && SendsNothingTo(p, r, s, items, draws)
    ensures PassQueue(p, own, r, q, s, items, draws) == q
  {
    if items != [] {
      var init := items[..|items| - 1];
      assert SendsNothingTo(p, r, s, init, draws) by {
        assert forall j | 0 <= j < |init| :: init[..j] == items[..j];
      }
      ForeignPullDrainsNothing(p, own, r, q, s, init, draws);
      hide Mine, Sent, PassStore;
    }
  }

  // ----- the task an envelope becomes -----

  function OneOf(a: string, b: string, c: string): (r: string)
    ensures r == "" <==> a == "" && b == "" && c == ""
  {
    if a != "" then a else if b != "" then b else c
  }

  /** The request, the buyer's terms, and where to answer are the envelope's; what it leaves out is filled in. */
  ghost predicate MadeFrom(identity: Identity, m: Message, d: Draw, t: Task)
    requires m.payload.TaskRequested?
  {
    && t.id == d.id && t.enqueuedAt == d.now && t.info.acceptedAt == d.now
    && t.info.requestId == m.requestId && t.info.verification == m.payload.verification
    && (m.payload.priority != 0 ==> t.priority == m.payload.priority) && (m.payload.priority == 0 ==> t.priority == 5)
    && (m.payload.sellerId.Some? && m.payload.sellerId.value != "" ==> t.info.sellerId == m.payload.sellerId.value)
    && (m.payload.sellerId == None || m.payload.sellerId == Some("") ==> t.info.sellerId == identity.sellerId)
    && (m.payload.subagentId.Some? && m.payload.subagentId.value != "" ==>
          t.info.subagentId == m.payload.subagentId.value)
    && (m.payload.subagentId == None || m.payload.subagentId == Some("") ==>
          t.info.subagentId == if identity.subagentIds == [] then "" else identity.subagentIds[0])
    && t.Target() == OneOf(m.payload.route.address, m.payload.route.sender, "buyer-controller")
  }

  lemma TaskIsMadeFrom(identity: Identity, m: Message, d: Draw)
    requires m.payload.TaskRequested?
    ensures MadeFrom(identity, m, d, TaskOf(identity, d.id, d.now, m))
    ensures var t := TaskOf(identity, d.id, d.now, m); t.status == QUEUED && !t.deferred && t.result == None
  {
  }

  /** From dispatch to task: request, priority and the parties it is bound to arrive, and so does where to answer. */
  lemma DispatchBecomesTask(identity: Identity, r: Request, messageId: string, priority: int, route: Route, d: Draw)
    ensures var t := TaskOf(identity, d.id, d.now, DispatchEnvelope(r, messageId, priority, route));
            && t.info.requestId == r.terms.requestId && t.priority == (if priority == 0 then 5 else priority)
            && (r.binding.sellerId.Some? && r.binding.sellerId.value != "" ==>
                  t.info.sellerId == r.binding.sellerId.value)
            && (r.binding.subagentId.Some? && r.binding.subagentId.value != "" ==>
                  t.info.subagentId == r.binding.subagentId.value)
            && t.info.verification == (if Truthy(r.binding.verification) then r.binding.verification else Null)
            && t.Target() == OneOf(route.address, route.sender, "buyer-controller")
  {
    hide Truthy;
  }

  /** Scheduling changes nothing of a task but that it may start. */
  lemma {:induction false} SchedulingKeepsFields(s: Store, t: TaskId)
    requires t in s.tasks
    ensures var tasks := ScheduleAll(s).0.tasks;
            && t in tasks && tasks[t] == s.tasks[t].(status := tasks[t].status)
            && (tasks[t].status == s.tasks[t].status || tasks[t].status == RUNNING)
    decreases |s.queue|
  {
    match ScheduleOnce(s)
    case Exit(_) =>
    case Skip(s') => SchedulingKeepsFields(s', t);
    case Start(s', _) => SchedulingKeepsFields(s', t);
  }

  /** The envelope is a task for this seller, and for one of its subagents, as far as it says so. */
  ghost predicate ForMe(p: Parties, m: Message) {
    && m.payload.TaskRequested?
    && (m.payload.sellerId == None || m.payload.sellerId.value == "" || m.payload.sellerId.value == p.identity.sellerId)
    && (m.payload.subagentId == None || m.payload.subagentId.value == ""
        || m.payload.subagentId.value in p.identity.subagentIds)
  }

  lemma ForMeIff(p: Parties, m: Message)
    ensures ForMe(p, m) <==> Mine(p, m)
  {
  }

  /**
   An envelope for this seller with an unknown request becomes a task made from it: waiting or running, or, when it is
   turned away, completed with a signed error that says why. Any other envelope leaves the state as it is.
   */
  lemma EnvelopeBecomesTask(p: Parties, s: Store, m: Message, d: Draw)
    ensures var s' := HandledStore(p, s, m, d);
            if ForMe(p, m) && TaskForRequest(s, m.requestId) == None then
              && d.id in s'.tasks && MadeFrom(p.identity, m, d, s'.tasks[d.id])
              && s'.requestIndex == s.requestIndex[m.requestId := d.id]
              && Answered(p, d, s'.tasks[d.id])
            else s' == s
  {
    hide TaskForRequest, Answered, RejectedTask;
    ForMeIff(p, m);
    if ForMe(p, m) && TaskForRequest(s, m.requestId) == None {
      var t := TaskOf(p.identity, d.id, d.now, m);
      TaskIsMadeFrom(p.identity, m, d);
      hide ForMe, Mine, TaskOf, MadeFrom, Enqueue, ScheduleAll;
      if d.refusal == None {
        EnqueueKeepsTasks(s, t);
        SchedulingKeepsTasks(Enqueue(s, t));
        SchedulingKeepsFields(Enqueue(s, t), d.id);
        OnlyStarted(p, m, d, t, HandledStore(p, s, m, d).tasks[d.id]);
      } else {
        RefusedIsAnswered(p, m, d, t);
      }
    }
  }

  /** Waiting or running without a result; or completed, with the refusal as its signed result. */
  ghost predicate Answered(p: Parties, d: Draw, t: Task) {
    match d.refusal
    case None => (t.status == QUEUED || t.status == RUNNING) && t.result == None
    case Some(refusal) =>
      && t.status == COMPLETED && t.result.Some? && t.result.value.artifacts == []
      && SignedBy(p.h, p.key, t.result.value.package)
      && ReportsError(t.result.value.package, refusal.code, refusal.message, false, true,
                      Obj(map[TOKENS_IN := Num(0), TOKENS_OUT := Num(0)]))
  }

  lemma OnlyStarted(p: Parties, m: Message, d: Draw, t: Task, t': Task)
    requires m.payload.TaskRequested? && MadeFrom(p.identity, m, d, t) && d.refusal == None && t.result == None
    requires t.status == QUEUED && t' == t.(status := t'.status) && (t'.status == QUEUED || t'.status == RUNNING)
    ensures MadeFrom(p.identity, m, d, t') && Answered(p, d, t')
  {
  }

  lemma RefusedIsAnswered(p: Parties, m: Message, d: Draw, t: Task)
    requires m.payload.TaskRequested? && MadeFrom(p.identity, m, d, t) && d.refusal.Some?
    ensures MadeFrom(p.identity, m, d, RejectedTask(p, t, d)) && Answered(p, d, RejectedTask(p, t, d))
  {
    hide Rejection, ReportsError, SignedBy;
    RejectionTells(p.h, p.key, t.info, d.now, d.refusal.value.code, d.refusal.value.message);
  }

  // ----- what is sent -----

  /**
   Handling an envelope answers it at once in two cases, and in no other: its request has a result, which goes to the
   stored delivery address, or else to this envelope's sender, or else to the first; or it is turned away.
   */
  lemma SentIff(p: Parties, s: Store, m: Message, d: Draw)
    ensures var known, sent := TaskForRequest(s, m.requestId), Sent(p, s, m, d);
            if !ForMe(p, m) then sent == None
            else if known.Some? then
              var t := known.value;
              var target := OneOf(t.route.address, m.payload.route.sender, t.route.sender);
              && (sent.Some? <==> t.result.Some? && target != "")
              && (sent.Some? ==>
                    sent == Some((target, Message(d.messageId, t.info.requestId,
                                                  TaskResult(t.result.value.package,
                                                             AttachmentsOf(t.result.value.artifacts))))))
            else
              && (sent.Some? <==> d.refusal.Some?)
              && (sent.Some? ==>
                    && sent.value.0 == OneOf(m.payload.route.address, m.payload.route.sender, "buyer-controller")
                    && sent.value.1.messageId == d.messageId && sent.value.1.requestId == m.requestId)
  {
    ForMeIff(p, m);
    hide TaskForRequest, AttachmentsOf, Mine;
    if m.payload.TaskRequested? {
      TaskIsMadeFrom(p.identity, m, d);
    }
    hide Rejection, TaskOf;
  }

  // ----- dedupe -----

  lemma {:induction false} SchedulingKeepsTasks(s: Store)
    ensures ScheduleAll(s).0.tasks.Keys == s.tasks.Keys && ScheduleAll(s).0.requestIndex == s.requestIndex
    decreases |s.queue|
  {
    match ScheduleOnce(s)
    case Exit(_) =>
    case Skip(s') => SchedulingKeepsTasks(s');
    case Start(s', _) => SchedulingKeepsTasks(s');
  }

  /** One more task is known, and nothing is forgotten. */
  lemma OneMoreKnown(s: Store, s': Store, t: Task, r: RequestId)
    requires t.id != "" && s'.tasks.Keys == s.tasks.Keys + {t.id}
             && s'.requestIndex == s.requestIndex[t.RequestId() := t.id]
    ensures TaskForRequest(s, r).Some? ==> TaskForRequest(s', r).Some?
    ensures TaskForRequest(s', t.RequestId()).Some?
  {
  }

  lemma RememberKeepsTasks(s: Store, t: Task)
    ensures Remember(s, t).tasks.Keys == s.tasks.Keys + {t.id}
            && Remember(s, t).requestIndex == s.requestIndex[t.RequestId() := t.id]
  {
  }

  lemma HandledAdds(p: Parties, s: Store, m: Message, d: Draw) returns (t: Task)
    requires Mine(p, m) && TaskForRequest(s, m.requestId) == None
    ensures t.id == d.id && t.RequestId() == m.requestId
    ensures var s' := HandledStore(p, s, m, d);
            s'.tasks.Keys == s.tasks.Keys + {t.id} && s'.requestIndex == s.requestIndex[t.RequestId() := t.id]
  {
    t := TaskOf(p.identity, d.id, d.now, m);
    assert t.id == d.id && t.RequestId() == m.requestId;
    hide TaskOf, TaskForRequest, Rejection, Mine;
    if d.refusal == None {
      EnqueueKeepsTasks(s, t);
      SchedulingKeepsTasks(Enqueue(s, t));
    } else {
      RememberKeepsTasks(s, RejectedTask(p, t, d));
    }
    hide Enqueue, ScheduleAll, Remember;
  }

  /** Once known, a request stays known; and an envelope for this seller makes its request known. */
  lemma HandledIsKnown(p: Parties, s: Store, m: Message, d: Draw, r: RequestId)
    requires d.id != ""
    ensures TaskForRequest(s, r).Some? ==> TaskForRequest(HandledStore(p, s, m, d), r).Some?
    ensures Mine(p, m) && r == m.requestId ==> TaskForRequest(HandledStore(p, s, m, d), r).Some?
  {
    if Mine(p, m) && TaskForRequest(s, m.requestId) == None {
      var t := HandledAdds(p, s, m, d);
      hide *;
      OneMoreKnown(s, HandledStore(p, s, m, d), t, r);
    }
  }

  lemma {:induction false} PassMakesKnown(p: Parties, s: Store, items: Queue, draws: seq<Draw>, r: RequestId)
    requires |draws| >= |items| && forall k | 0 <= k < |items| :: draws[k].id != ""
    ensures TaskForRequest(s, r).Some? ==> TaskForRequest(PassStore(p, s, items, draws), r).Some?
    ensures (exists m :: m in items && Mine(p, m) && m.requestId == r) ==>
              TaskForRequest(PassStore(p, s, items, draws), r).Some?
  {
    if items != [] {
      var n := |items| - 1;
      var init, last := items[..n], items[n];
      PassMakesKnown(p, s, init, draws, r);
      HandledIsKnown(p, PassStore(p, s, init, draws), last, draws[n], r);
      assert items == init + [last];
      hide HandledStore, Mine, TaskForRequest;
    }
  }

  /** Redelivery is harmless: a second pass over the same envelopes leaves the seller's state exactly as it is. */
  lemma SecondPassChangesNothing(p: Parties, s: Store, items: Queue, draws: seq<Draw>, again: seq<Draw>)
    requires |draws| >= |items| && |again| >= |items| && forall k | 0 <= k < |items| :: draws[k].id != ""
    ensures PassStore(p, PassStore(p, s, items, draws), items, again) == PassStore(p, s, items, draws)
  {
    var s' := PassStore(p, s, items, draws);
    forall m | m in items && Mine(p, m) ensures TaskForRequest(s', m.requestId).Some? {
      PassMakesKnown(p, s, items, draws, m.requestId);
    }
    KnownPass(p, s', items, again);
  }

  lemma {:induction false} KnownPass(p: Parties, s: Store, items: Queue, draws: seq<Draw>)
    requires |draws| >= |items| && forall m | m in items && Mine(p, m) :: TaskForRequest(s, m.requestId).Some?
    ensures PassStore(p, s, items, draws) == s
  {
    if items != [] {
      var n := |items| - 1;
      assert items == items[..n] + [items[n]];
      KnownPass(p, s, items[..n], draws);
      assert items[n] in items;
      hide TaskForRequest, Mine;
    }
  }
}
