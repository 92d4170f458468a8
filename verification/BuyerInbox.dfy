/** packages/buyer-controller-core, pollBuyerInbox: results are applied first and acknowledged afterwards. */
module BuyerInbox {
  import opened Wrappers
  import opened Json
  import opened Contracts
  import opened BuyerRequest
  import opened BuyerMachine
  import opened Hub

  const POLL_LIMIT := 10

  type Requests = map<string, Request>

  /** `Map.get(request_id)` finds a record, the id being truthy. */
  predicate Names(known: set<string>, id: Json) {
    id.Str? && id.s != "" && id.s in known
  }

  /** The messages a pass acknowledges: results of known requests, and unparsable bodies that name a request. */
  predicate Recognised(known: set<string>, m: Message) {
    match m.payload
    case TaskResult(package, _) => Names(known, Get(package, REQUEST_ID))
    case Unparsable => m.requestId != ""
    case _ => false
  }

  /** `envelope.attachments || []` */
  function Carried(m: Message): Json
    requires m.payload.TaskResult?
  {
    OrElse(m.payload.attachments, NO_ATTACHMENTS)
  }

  /** What one recognised message does to the requests. */
  function Received(h: Host, requests: Requests, m: Message): Requests {
    match m.payload
    case TaskResult(package, _) =>
      if Names(requests.Keys, Get(package, REQUEST_ID))
      then
        var id := Get(package, REQUEST_ID).s;
        requests[id := Apply(h, requests[id], InboxResult(package, Carried(m)))]
      else requests
    case Unparsable =>
      if m.requestId != "" && m.requestId in requests
      then requests[m.requestId := Apply(h, requests[m.requestId], InboxUnparsable)]
      else requests
    case _ => requests
  }

  function ReceivedAll(h: Host, requests: Requests, ms: seq<Message>): Requests {
    if ms == [] then requests
    else Received(h, ReceivedAll(h, requests, ms[..|ms| - 1]), ms[|ms| - 1])
  }

  /** Applying this message makes verifyArtifactBindings throw. */
  ghost predicate Throws(h: Host, requests: Requests, m: Message) {
    && m.payload.TaskResult? && Names(requests.Keys, Get(m.payload.package, REQUEST_ID))
    && var r := requests[Get(m.payload.package, REQUEST_ID).s];
       !Terminal(r.status) && VerdictOf(h, r, m.payload.package, Carried(m)) == None
  }

  /** Handling this message throws: in the check of its artifacts, or in the metric call that follows a verdict. */
  ghost predicate Stops(h: Host, requests: Requests, m: Message, metricFails: set<string>) {
    && m.payload.TaskResult? && Names(requests.Keys, Get(m.payload.package, REQUEST_ID))
    && var r := requests[Get(m.payload.package, REQUEST_ID).s];
       !Terminal(r.status)
       && (VerdictOf(h, r, m.payload.package, Carried(m)) == None || m.messageId in metricFails)
  }

  /** With unique ids, the queue is left with the first n messages that were not recognised, and the rest. */
  ghost predicate DrainedTo(known: set<string>, q: Queue, n: nat, now: Queue)
    requires n <= |q|
  {
    UniqueIds(q) ==> now == Unrecognised(known, q[..n]) + q[n..]
  }

  /** None of the first n messages stops the pass. */
  ghost predicate GoesThrough(h: Host, requests: Requests, items: Queue, n: nat, metricFails: set<string>)
    requires n <= |items|
  {
    forall k | 0 <= k < n :: !Stops(h, ReceivedAll(h, requests, items[..k]), items[k], metricFails)
  }

  /** What a pass reads. */
  function Prefix(q: Queue): Queue {
    Polled(q, POLL_LIMIT)
  }

  /** The messages that stay. */
  function Unrecognised(known: set<string>, ms: seq<Message>): seq<Message> {
    if ms == [] then []
    else Unrecognised(known, ms[..|ms| - 1]) + (if Recognised(known, ms[|ms| - 1]) then [] else [ms[|ms| - 1]])
  }

  /** The queue a pass leaves when nothing throws: the polled messages it did not recognise, then the rest. */
  function AfterPass(known: set<string>, q: Queue): Queue {
    Unrecognised(known, Prefix(q)) + q[|Prefix(q)|..]
  }

  class Inbox {
    const hub: LocalHub
    var requests: Requests

    constructor (hub: LocalHub, requests: Requests)
      ensures this.hub == hub && this.requests == requests
    {
      this.hub, this.requests := hub, requests;
    }

    /** One turn of the loop: apply, then acknowledge; `threw` when it ended in between. */
    method HandleMessage(h: Host, receiver: string, m: Message, metricFails: set<string>) returns (threw: bool)
      modifies this, hub
      ensures requests == Received(h, old(requests), m)
      ensures threw <==> Stops(h, old(requests), m, metricFails)
      ensures hub.Contents(receiver) == if Recognised(old(requests.Keys), m) && !threw
                                        then AfterAck(old(hub.Contents(receiver)), m.messageId)
                                        else old(hub.Contents(receiver))
      ensures forall r | r != receiver :: hub.Contents(r) == old(hub.Contents(r))
    {
      threw := false;
      match m.payload {
        case Unparsable =>
          if m.requestId != "" {
            if m.requestId in requests {
              requests := requests[m.requestId := Apply(h, requests[m.requestId], InboxUnparsable)];
            }
            var acked := hub.Ack(receiver, m.messageId);
          }
        case TaskResult(package, _) =>
          var attachments := Carried(m);
          var id := Get(package, REQUEST_ID);
          if Names(requests.Keys, id) {
            var r := requests[id.s];
            requests := requests[id.s := Apply(h, r, InboxResult(package, attachments))];
            if !Terminal(r.status) {
              if VerdictOf(h, r, package, attachments) == None || m.messageId in metricFails {
                threw := true;
                return;
              }
            }
            var acked := hub.Ack(receiver, m.messageId);
          }
        case _ =>
      }
    }

    /** `handled` is how many of the polled messages the pass got through; `threw` when that is not all of them. */
    method PollBuyerInbox(h: Host, receiver: string, metricFails: set<string>) returns (threw: bool, handled: nat)
      modifies this, hub
      ensures var items := Prefix(old(hub.Contents(receiver)));
              && handled <= |items| && (threw <==> handled < |items|)
              && GoesThrough(h, old(requests), items, handled, metricFails)
              && (threw ==> Stops(h, ReceivedAll(h, old(requests), items[..handled]), items[handled], metricFails))
              && requests == ReceivedAll(h, old(requests), items[..if threw then handled + 1 else handled])
      ensures handled <= |old(hub.Contents(receiver))|
      ensures DrainedTo(old(requests.Keys), old(hub.Contents(receiver)), handled, hub.Contents(receiver))
      ensures forall r | r != receiver :: hub.Contents(r) == old(hub.Contents(r))
    {
      hide Received, Stops, Recognised, DrainedTo, ReceivedAll, AfterAck, GoesThrough;
      threw := false;
      var items := hub.Poll(receiver, POLL_LIMIT);
      ghost var q := old(hub.Contents(receiver));
      ghost var known := old(requests.Keys);
      assert items == Prefix(q) && items <= q;
      NothingYet(h, old(requests), known, q);
      hide Prefix, Polled;
      handled := 0;
      while handled < |items|
        invariant 0 <= handled <= |items|
        invariant GoesThrough(h, old(requests), items, handled, metricFails)
        invariant requests == ReceivedAll(h, old(requests), items[..handled])
        invariant DrainedTo(known, q, handled, hub.Contents(receiver))
        invariant forall r | r != receiver :: hub.Contents(r) == old(hub.Contents(r))
      {
        KeysStay(h, old(requests), items[..handled]);
        ReceivedNext(h, old(requests), items, handled);
        DrainOne(known, q, handled, hub.Contents(receiver));
        threw := HandleMessage(h, receiver, items[handled], metricFails);
        if threw {
          return;
        }
        OneMoreThrough(h, old(requests), items, handled, metricFails);
        handled := handled + 1;
      }
    }
  }

  lemma DrainOne(known: set<string>, q: Queue, n: nat, now: Queue)
    requires n < |q| && DrainedTo(known, q, n, now)
    ensures DrainedTo(known, q, n + 1, if Recognised(known, q[n]) then AfterAck(now, q[n].messageId) else now)
  {
    hide Recognised, Unrecognised, UniqueIds, AfterAck;
    if UniqueIds(q) {
      AckHead(known, q, n);
    }
  }

  lemma OneMoreThrough(h: Host, requests: Requests, items: Queue, n: nat, metricFails: set<string>)
    requires n < |items| && GoesThrough(h, requests, items, n, metricFails)
    requires !Stops(h, ReceivedAll(h, requests, items[..n]), items[n], metricFails)
    ensures GoesThrough(h, requests, items, n + 1, metricFails)
  {
    hide Stops, ReceivedAll;
  }

  lemma NothingYet(h: Host, requests: Requests, known: set<string>, q: Queue)
    ensures DrainedTo(known, q, 0, q) && ReceivedAll(h, requests, Prefix(q)[..0]) == requests
    ensures forall metricFails :: GoesThrough(h, requests, Prefix(q), 0, metricFails)
  {
  }

  lemma ReceivedNext(h: Host, requests: Requests, ms: seq<Message>, k: nat)
    requires k < |ms|
    ensures ReceivedAll(h, requests, ms[..k + 1]) == Received(h, ReceivedAll(h, requests, ms[..k]), ms[k])
  {
    hide Received;
    assert ms[..k + 1][..k] == ms[..k];
  }

  lemma UnrecognisedNext(known: set<string>, q: Queue, k: nat)
    requires k < |q|
    ensures Unrecognised(known, q[..k + 1]) ==
            if Recognised(known, q[k]) then Unrecognised(known, q[..k]) else Unrecognised(known, q[..k]) + [q[k]]
  {
    hide Recognised;
    assert q[..k + 1][..k] == q[..k];
  }

  /** Acknowledging the k-th message of a queue whose earlier recognised messages are gone. */
  lemma AckHead(known: set<string>, q: Queue, k: nat)
    requires k < |q| && UniqueIds(q)
    ensures var now := Unrecognised(known, q[..k]) + q[k..];
            Unrecognised(known, q[..k + 1]) + q[k + 1..] ==
            if Recognised(known, q[k]) then AfterAck(now, q[k].messageId) else now
  {
    hide Recognised, Unrecognised, UniqueIds, AfterAck;
    var kept, m := Unrecognised(known, q[..k]), q[k];
    KeptIdsDiffer(known, q, k);
    UnrecognisedNext(known, q, k);
    assert q[k..] == [m] + q[k + 1..];
    if Recognised(known, m) {
      AckMiddle(kept, m, q[k + 1..]);
      assert kept + q[k..] == kept + [m] + q[k + 1..];
    } else {
      assert kept + [m] + q[k + 1..] == kept + q[k..];
    }
  }

  lemma KeptIdsDiffer(known: set<string>, q: Queue, k: nat)
    requires k < |q| && UniqueIds(q)
    ensures forall i | 0 <= i < |Unrecognised(known, q[..k])| ::
              Unrecognised(known, q[..k])[i].messageId != q[k].messageId
  {
    hide Recognised;
    UnrecognisedMembers(known, q[..k]);
    forall m | m in Unrecognised(known, q[..k]) ensures m.messageId != q[k].messageId {
      assert m in q[..k];
    }
    hide UniqueIds, Unrecognised;
    forall i | 0 <= i < |Unrecognised(known, q[..k])|
      ensures Unrecognised(known, q[..k])[i].messageId != q[k].messageId
    {
      assert Unrecognised(known, q[..k])[i] in Unrecognised(known, q[..k]);
    }
  }

  lemma {:induction false} UnrecognisedMembers(known: set<string>, ms: seq<Message>)
    ensures forall m | m in Unrecognised(known, ms) :: m in ms
  {
    hide Recognised;
    if ms != [] {
      UnrecognisedMembers(known, ms[..|ms| - 1]);
    }
  }

  // ----- what one message does -----

  /** A result that names the known request `id`. */
  ghost predicate ResultFor(known: set<string>, m: Message, id: string) {
    id in known && id != "" && m.payload.TaskResult? && Get(m.payload.package, REQUEST_ID) == Str(id)
  }

  /** Acknowledged are the results of known requests and the bodies that do not parse but come with some request id. */
  lemma RecognisedIff(known: set<string>, m: Message)
    ensures Recognised(known, m) <==>
            (m.payload.Unparsable? && m.requestId != "") || exists id :: ResultFor(known, m, id)
  {
    if m.payload.TaskResult? && Names(known, Get(m.payload.package, REQUEST_ID)) {
      assert ResultFor(known, m, Get(m.payload.package, REQUEST_ID).s);
    }
  }

  /** An active request gets the result as it was sent, attachments included, or learns that it does not parse. */
  lemma ReceivedSays(h: Host, requests: Requests, m: Message, id: string)
    requires id in requests
    ensures ResultFor(requests.Keys, m, id) ==>
              var attachments := if Truthy(m.payload.attachments) then m.payload.attachments else Arr([]);
              Received(h, requests, m) ==
              if Terminal(requests[id].status) then requests
              else requests[id := ApplyResult(h, requests[id], m.payload.package, attachments)]
    ensures m.payload.Unparsable? && m.requestId == id && id != "" ==>
              Received(h, requests, m) ==
              if Terminal(requests[id].status) then requests
              else requests[id := requests[id].(status := UNVERIFIED,
                                                lastError := Unverifiable(RESULT_BODY_INVALID_JSON),
                                                timeline := requests[id].timeline
                                                            + [Rejected(RESULT_BODY_INVALID_JSON)])]
    ensures !ResultFor(requests.Keys, m, id) && !(m.payload.Unparsable? && m.requestId == id && id != "") ==>
              id in Received(h, requests, m) && Received(h, requests, m)[id] == requests[id]
  {
    hide ApplyResult, Terminal;
    assert requests[id := requests[id]] == requests;
  }

  // ----- progress -----

  lemma {:induction false} UnrecognisedLength(known: set<string>, ms: seq<Message>)
    ensures |Unrecognised(known, ms)| <= |ms|
    ensures |Unrecognised(known, ms)| == |ms| <==> forall m | m in ms :: !Recognised(known, m)
    ensures |Unrecognised(known, ms)| == 0 <==> forall m | m in ms :: Recognised(known, m)
  {
    if ms != [] {
      var init, last := ms[..|ms| - 1], ms[|ms| - 1];
      var rest, kept := Unrecognised(known, init), Recognised(known, last);
      UnrecognisedLength(known, init);
      assert |Unrecognised(known, ms)| == |rest| + if kept then 0 else 1;
      hide Recognised, Unrecognised;
      LastOrBefore(ms);
    }
  }

  lemma LastOrBefore(ms: seq<Message>)
    requires ms != []
    ensures forall m :: m in ms <==> m in ms[..|ms| - 1] || m == ms[|ms| - 1]
  {
    assert ms == ms[..|ms| - 1] + [ms[|ms| - 1]];
  }

  /** A pass shortens the queue by min(10, length) exactly when everything it polled is recognised ... */
  lemma PassShortensIff(known: set<string>, q: Queue)
    ensures |AfterPass(known, q)| == |q| - (if |q| < 10 then |q| else 10) <==>
            forall m | m in Prefix(q) :: Recognised(known, m)
  {
    UnrecognisedLength(known, Prefix(q));
  }

  /** ... and not at all exactly when nothing it polls is recognised, as long as no request it names is created. */
  lemma PassStuckIff(known: set<string>, q: Queue)
    ensures AfterPass(known, q) == q <==> forall m | m in Prefix(q) :: !Recognised(known, m)
  {
    UnrecognisedLength(known, Prefix(q));
    if forall m | m in Prefix(q) :: !Recognised(known, m) {
      AllUnrecognised(known, Prefix(q));
    }
  }

  lemma {:induction false} AllUnrecognised(known: set<string>, ms: seq<Message>)
    requires forall m | m in ms :: !Recognised(known, m)
    ensures Unrecognised(known, ms) == ms
  {
    if ms != [] {
      AllUnrecognised(known, ms[..|ms| - 1]);
      assert ms == ms[..|ms| - 1] + [ms[|ms| - 1]];
    }
  }

  /**
   A result whose check throws does so again at every later pass exactly while its request stays active, if it stays
   bound as it was.
   */
  lemma ThrowsAgainIff(h: Host, requests: Requests, later: Requests, m: Message)
    requires Throws(h, requests, m)
    ensures Throws(h, Received(h, requests, m), m)
    ensures var id := Get(m.payload.package, REQUEST_ID).s;
            id in later && later[id].terms == requests[id].terms && later[id].binding == requests[id].binding ==>
              (Throws(h, later, m) <==> !Terminal(later[id].status))
  {
    var id := Get(m.payload.package, REQUEST_ID).s;
    var r := requests[id];
    hide Carried;
    VerdictFollowsBinding(h, r, r.(resultPackage := Some(m.payload.package)), m.payload.package, Carried(m));
    if id in later && later[id].terms == r.terms && later[id].binding == r.binding {
      VerdictFollowsBinding(h, r, later[id], m.payload.package, Carried(m));
    }
    hide VerdictOf;
  }

  /** What such a result is: its context and signature pass, and then the check of its artifacts throws. */
  lemma MessageThrowsIff(h: Host, requests: Requests, m: Message)
    requires m.payload.TaskResult? && Names(requests.Keys, Get(m.payload.package, REQUEST_ID))
    ensures var r := requests[Get(m.payload.package, REQUEST_ID).s];
            Throws(h, requests, m) <==> !Terminal(r.status) && Hangs(h, r, m.payload.package, Carried(m))
  {
    NoVerdictIff(h, requests[Get(m.payload.package, REQUEST_ID).s], m.payload.package, Carried(m));
    hide VerdictOf, Hangs, Carried;
  }

  lemma VerdictFollowsBinding(h: Host, a: Request, b: Request, package: Record, attachments: Json)
    requires a.terms == b.terms && a.binding == b.binding
    ensures VerdictOf(h, a, package, attachments) == VerdictOf(h, b, package, attachments)
  {
  }

  /** ... and at the head of the queue it ends such a pass before anything is acknowledged: the queue stays as it is. */
  lemma ThrowingHeadBlocks(h: Host, requests: Requests, q: Queue, handled: nat, now: Queue, metricFails: set<string>)
    requires q != [] && UniqueIds(q) && Throws(h, requests, q[0]) && handled <= |Prefix(q)|
    requires GoesThrough(h, requests, Prefix(q), handled, metricFails) && DrainedTo(requests.Keys, q, handled, now)
    ensures handled == 0 && now == q
  {
    assert ReceivedAll(h, requests, Prefix(q)[..0]) == requests && Stops(h, requests, q[0], metricFails);
    hide VerdictOf, Stops, Throws;
    assert handled == 0;
    assert Unrecognised(requests.Keys, q[..0]) + q[0..] == q;
  }

  /** Whatever a pass acknowledges has made its request terminal, or its request was so before. */
  lemma {:induction false} AckedMeansTerminal(h: Host, requests: Requests, ms: seq<Message>, m: Message)
    requires m in ms && m.payload.TaskResult? && Recognised(requests.Keys, m)
    requires forall k | 0 <= k < |ms| :: !Throws(h, ReceivedAll(h, requests, ms[..k]), ms[k])
    ensures var id := Get(m.payload.package, REQUEST_ID).s; var after := ReceivedAll(h, requests, ms);
            after.Keys == requests.Keys && Terminal(after[id].status)
  {
    var init, last := ms[..|ms| - 1], ms[|ms| - 1];
    var before := ReceivedAll(h, requests, init);
    var id := Get(m.payload.package, REQUEST_ID).s;
    assert forall k | 0 <= k < |init| :: ms[..k] == init[..k];
    assert ReceivedAll(h, requests, ms) == Received(h, before, last) && !Throws(h, before, last);
    KeysStay(h, requests, init);
    KeysStay(h, requests, ms);
    hide Received, ReceivedAll, Throws, Recognised;
    if m in init {
      AckedMeansTerminal(h, requests, init, m);
      StaysTerminalReceived(h, before, last, id);
    } else {
      LastOrBefore(ms);
      ReceivedEnds(h, before, m);
    }
  }

  lemma ReceivedEnds(h: Host, requests: Requests, m: Message)
    requires m.payload.TaskResult? && Recognised(requests.Keys, m) && !Throws(h, requests, m)
    ensures var id := Get(m.payload.package, REQUEST_ID).s;
            id in Received(h, requests, m) && Terminal(Received(h, requests, m)[id].status)
  {
    VerdictIsVerdict(h, requests[Get(m.payload.package, REQUEST_ID).s], m.payload.package, Carried(m));
    hide VerdictOf, StatusOf, IsVerdict;
  }

  lemma StaysTerminalReceived(h: Host, requests: Requests, m: Message, id: string)
    requires id in requests && Terminal(requests[id].status)
    ensures id in Received(h, requests, m) && Terminal(Received(h, requests, m)[id].status)
  {
  }

  lemma {:induction false} KeysStay(h: Host, requests: Requests, ms: seq<Message>)
    ensures ReceivedAll(h, requests, ms).Keys == requests.Keys
  {
    if ms != [] {
      KeysStay(h, requests, ms[..|ms| - 1]);
    }
  }
}
