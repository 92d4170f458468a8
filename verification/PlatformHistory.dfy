/**
 What the platform's request records keep over every run: bindings, issued tokens, display codes and the capped log.
 */
module PlatformHistory {
  import opened Wrappers
  import opened PlatformEvents
  import opened PlatformRequests

  datatype World = World(
    requests: Records,
    history: map<string, seq<PlatformEvent>>,     // every event ever appended, none evicted
    issued: set<Claims>,                          // the claims of every token
    codes: set<(string, string)>                  // request id and display code of every delivery-meta object made
  )

  function HistoryOf(w: World, id: string): seq<PlatformEvent> {
    if id in w.history then w.history[id] else []
  }

  function Step(limit: int, w: World, e: Event): World {
    match EffectOf(w.requests, e)
    case Only(_) => w
    case Write(answer, r, pushed) =>
      World(After(limit, w.requests, e),
            w.history[e.requestId := HistoryOf(w, e.requestId) + pushed],
            if answer.Token? then w.issued + {answer.claims} else w.issued,
            if e.DeliveryMeta? || e.ReviewTest? then w.codes + {(e.requestId, r.displayCode.value)} else w.codes)
  }

  /** Ids of users and of catalog entries are not empty, and neither is a generated display code. */
  predicate Sane(e: Event) {
    match e
    case IssueToken(userId, _, _, _, _, _) => userId != ""
    case DeliveryMeta(userId, _, _, _, _, _, _, _, newCode, _) => userId != "" && newCode != ""
    case ReviewTest(_, sellerId, subagentId, _, newCode, _) => sellerId != "" && subagentId != "" && newCode != ""
    case _ => true
  }

  ghost predicate IsRun(limit: int, states: seq<World>, events: seq<Event>) {
    && |states| == |events| + 1 && states[0] == World(map[], map[], {}, {})
    && forall i {:trigger events[i]} | 0 <= i < |events| ::
      Sane(events[i]) && states[i + 1] == Step(limit, states[i], events[i])
  }

  /** Review tests are started under new request ids. */
  ghost predicate FreshReviews(states: seq<World>, events: seq<Event>) {
    && |states| == |events| + 1
    && forall i {:trigger events[i]} | 0 <= i < |events| && events[i].ReviewTest? ::
      events[i].requestId !in states[i].requests
  }

  // ----- the invariant -----

  ghost predicate Bound(r: Record) {
    && r.buyerId.Some? && r.buyerId.value != "" && r.sellerId.Some? && r.sellerId.value != ""
    && r.subagentId.Some? && r.subagentId.value != ""
  }

  ghost predicate SameBinding(a: Record, b: Record) {
    a.buyerId == b.buyerId && a.sellerId == b.sellerId && a.subagentId == b.subagentId
  }

  /** The event is one that a request should have once: an acknowledgement by the seller, or an outcome. */
  predicate Marks(e: PlatformEvent, t: EventType) {
    e.eventType == t && (t == Acked ==> e.bySeller)
  }

  ghost predicate NoTwo(events: seq<PlatformEvent>, t: EventType) {
    forall i, j | 0 <= i < j < |events| :: !(Marks(events[i], t) && Marks(events[j], t))
  }

  /** At most one acknowledgement and one event of each outcome are retained, the outcomes being the bound seller's. */
  ghost predicate LogOk(r: Record) {
    && NoTwo(r.events, Acked) && NoTwo(r.events, Completed) && NoTwo(r.events, Failed)
    && (forall e | e in r.events && (e.eventType == Completed || e.eventType == Failed) ::
          e.sellerId == r.sellerId && e.subagentId == r.subagentId)
  }

  ghost predicate RecordsOk(m: Records) {
    forall id | id in m :: Bound(m[id]) && LogOk(m[id])
  }

  ghost predicate HistoryOk(limit: int, w: World) {
    && w.history.Keys <= w.requests.Keys
    && forall id | id in w.requests :: w.requests[id].events == Capped(limit, HistoryOf(w, id))
  }

  ghost predicate IssuedOk(issued: set<Claims>, m: Records) {
    forall c | c in issued :: c.requestId in m && Carries(c, m[c.requestId])
  }

  ghost predicate CodesOk(codes: set<(string, string)>, m: Records) {
    forall d | d in codes :: d.0 in m && m[d.0].displayCode == Some(d.1) && d.1 != ""
  }

  ghost predicate Inv(limit: int, w: World) {
    RecordsOk(w.requests) && HistoryOk(limit, w) && IssuedOk(w.issued, w.requests) && CodesOk(w.codes, w.requests)
  }

  // ----- the capped log -----

  /** Capping after every push keeps exactly the last min(n, limit) entries of the history. */
  lemma CappedAgain(limit: int, history: seq<PlatformEvent>, e: PlatformEvent)
    ensures Capped(limit, Capped(limit, history) + [e]) == Capped(limit, history + [e])
  {
    if |history| > MaxEvents(limit) {
      assert Capped(limit, history) + [e] == (history + [e])[|history| - MaxEvents(limit)..];
    }
  }

  lemma {:induction false} AppendAllIsCapped(limit: int, r: Record, history: seq<PlatformEvent>,
                                             pushed: seq<PlatformEvent>)
    requires r.events == Capped(limit, history)
    ensures AppendAll(limit, r, pushed) == r.(events := Capped(limit, history + pushed))
  {
    hide Capped;
    if pushed == [] {
      assert history + [] == history;
    } else {
      var init, last := pushed[..|pushed| - 1], pushed[|pushed| - 1];
      AppendAllIsCapped(limit, r, history, init);
      CappedAgain(limit, history + init, last);
      assert history + init + [last] == history + pushed;
    }
  }

  lemma CappedKeepsLog(limit: int, r: Record)
    requires LogOk(r)
    ensures LogOk(r.(events := Capped(limit, r.events)))
  {
  }

  /** An append that repeats nothing the list retains. */
  ghost predicate Novel(r: Record, e: PlatformEvent) {
    && (SellerAck(e) ==> !HasSellerAck(r.events))
    && (e.eventType == Completed || e.eventType == Failed ==>
          e.sellerId == r.sellerId && e.subagentId == r.subagentId && forall x | x in r.events ::
            x.eventType != e.eventType)
  }

  lemma AppendKeepsLog(limit: int, r: Record, e: PlatformEvent)
    requires LogOk(r) && Novel(r, e)
    ensures LogOk(Append(limit, r, e))
  {
    var events := r.events + [e];
    forall i, j | 0 <= i < j < |events| ensures !(SellerAck(events[i]) && SellerAck(events[j])) {
      assert i < |r.events| && events[i] in r.events;
    }
    forall i, j | 0 <= i < j < |events| && events[i].eventType == events[j].eventType
      ensures events[j].eventType != Completed && events[j].eventType != Failed
    {
      assert i < |r.events| && events[i] in r.events;
    }
    CappedKeepsLog(limit, r.(events := events));
  }

  // ----- one step -----

  /** A route writes a bound record; it never alters a binding, except a review test on an existing request. */
  lemma WritesBound(m: Records, e: Event)
    requires Sane(e) && (forall id | id in m :: Bound(m[id])) && EffectOf(m, e).Write?
    ensures var r := EffectOf(m, e).record;
            && Bound(r) && (EffectOf(m, e).answer.Token? ==> Carries(EffectOf(m, e).answer.claims, r))
            && (EffectOf(m, e).answer.Token? ==> EffectOf(m, e).answer.claims.requestId == e.requestId)
            && (e.requestId in m && !e.ReviewTest? ==> SameBinding(r, m[e.requestId]))
            && r.events == RecordOf(m, e.requestId).events
            && (e.DeliveryMeta? || e.ReviewTest? ==> r.displayCode.Some? && r.displayCode.value != "")
            && (e.requestId in m && m[e.requestId].displayCode.Some? && m[e.requestId].displayCode.value != "" ==>
                  r.displayCode == m[e.requestId].displayCode)
  {
  }

  lemma WritesNovel(m: Records, e: Event)
    requires Sane(e) && EffectOf(m, e).Write? && !e.ReviewTest?
    requires e.requestId in m ==> Bound(m[e.requestId]) && LogOk(m[e.requestId])
    ensures var w := EffectOf(m, e); |w.pushed| <= 1 && (w.pushed != [] ==> Novel(w.record, w.pushed[0]))
    ensures e.requestId in m ==> LogOk(EffectOf(m, e).record)
  {
    match e
    case Ack(_, _, _, _, _, _) => assert SameBinding(EffectOf(m, e).record, m[e.requestId]);
    case Lifecycle(_, failed, _, sellerId, subagentId, _, _) =>
      var r := m[e.requestId];
      assert SameBinding(EffectOf(m, e).record, r);
      assert !HasMatching(r.events, if failed then Failed else Completed, sellerId, subagentId) ==>
          forall x | x in r.events :: x.eventType != if failed then Failed else Completed;
    case _ =>
  }

  lemma WriteKeepsLog(limit: int, m: Records, e: Event)
    requires Sane(e) && EffectOf(m, e).Write? && (e.ReviewTest? ==> e.requestId !in m)
    requires e.requestId in m ==> Bound(m[e.requestId]) && LogOk(m[e.requestId])
    ensures LogOk(AppendAll(limit, EffectOf(m, e).record, EffectOf(m, e).pushed))
  {
    var r, pushed := EffectOf(m, e).record, EffectOf(m, e).pushed;
    if e.ReviewTest? {
      AppendTwo(limit, r, pushed[0], pushed[1]);
      hide EffectOf;
      AppendKeepsLog(limit, r, pushed[0]);
      AppendKeepsLog(limit, Append(limit, r, pushed[0]), pushed[1]);
    } else {
      WritesNovel(m, e);
      if e.requestId !in m {
        assert e.IssueToken? && r.events == [];
      }
      hide EffectOf, LogOk, Novel;
      if pushed != [] {
        assert pushed == [pushed[0]];
        AppendOne(limit, r, pushed[0]);
        AppendKeepsLog(limit, r, pushed[0]);
      }
    }
  }

  /** What a writing step leaves: one bound record, with the binding and the code it had if it was there before ... */
  ghost predicate WritesRecord(limit: int, w: World, e: Event, w': World, r: Record) {
    && w'.requests == w.requests[e.requestId := r] && Bound(r)
    && w'.history == w.history[e.requestId := HistoryOf(w', e.requestId)]
    && r.events == Capped(limit, HistoryOf(w', e.requestId))
    && (e.requestId in w.requests ==>
          && SameBinding(r, w.requests[e.requestId])
          && (Truthy(w.requests[e.requestId].displayCode) ==> r.displayCode == w.requests[e.requestId].displayCode))
  }

  /** ... and a token and a delivery-meta object that agree with it. */
  ghost predicate WritesClaims(w: World, e: Event, w': World, r: Record) {
    && (forall c | c in w'.issued && c !in w.issued :: c.requestId == e.requestId && Carries(c, r))
    && (forall d | d in w'.codes && d !in w.codes :: d.0 == e.requestId && r.displayCode == Some(d.1) && d.1 != "")
  }

  predicate Truthy(code: Option<string>) {
    code.Some? && code.value != ""
  }

  lemma StepOfWrite(limit: int, w: World, e: Event)
    requires EffectOf(w.requests, e).Write?
    ensures var effect, w' := EffectOf(w.requests, e), Step(limit, w, e);
            && w'.requests == w.requests[e.requestId := AppendAll(limit, effect.record, effect.pushed)]
            && w'.history == w.history[e.requestId := HistoryOf(w, e.requestId) + effect.pushed]
            && w'.issued == (if effect.answer.Token? then w.issued + {effect.answer.claims} else w.issued)
            && (forall d | d in w'.codes && d !in w.codes ::
                  d.0 == e.requestId && effect.record.displayCode == Some(d.1) && (e.DeliveryMeta? || e.ReviewTest?))
  {
  }

  function Written(limit: int, w: World, e: Event): Record
    requires EffectOf(w.requests, e).Write?
  {
    AppendAll(limit, EffectOf(w.requests, e).record, EffectOf(w.requests, e).pushed)
  }

  lemma WrittenIs(limit: int, w: World, e: Event)
    requires HistoryOk(limit, w) && RecordsOk(w.requests) && Sane(e) && EffectOf(w.requests, e).Write?
    ensures var effect := EffectOf(w.requests, e);
            Written(limit, w, e) == effect.record.(events := Capped(limit, HistoryOf(w, e.requestId) + effect.pushed))
  {
    WritesBound(w.requests, e);
    HistoryOfRecord(limit, w, e.requestId);
    var effect := EffectOf(w.requests, e);
    hide EffectOf, HistoryOk, RecordsOk, Capped;
    AppendAllIsCapped(limit, effect.record, HistoryOf(w, e.requestId), effect.pushed);
  }

  lemma StepWrites(limit: int, w: World, e: Event)
    requires RecordsOk(w.requests) && HistoryOk(limit, w)
    requires Sane(e) && (e.ReviewTest? ==> e.requestId !in w.requests) && EffectOf(w.requests, e).Write?
    ensures WritesRecord(limit, w, e, Step(limit, w, e), Written(limit, w, e))
  {
    WritesBound(w.requests, e);
    StepOfWrite(limit, w, e);
    WrittenIs(limit, w, e);
    var effect, w', r := EffectOf(w.requests, e), Step(limit, w, e), Written(limit, w, e);
    hide EffectOf, Step, LogOk, Capped, AppendAll, RecordsOk, HistoryOk, Carries, Sane, Written;
    assert w'.requests == w.requests[e.requestId := r];
    assert HistoryOf(w', e.requestId) == HistoryOf(w, e.requestId) + effect.pushed;
    assert w'.history == w.history[e.requestId := HistoryOf(w', e.requestId)];
    hide HistoryOf;
    assert r.events == Capped(limit, HistoryOf(w', e.requestId));
    assert Bound(r);
  }

  lemma StepIssues(limit: int, w: World, e: Event)
    requires RecordsOk(w.requests) && HistoryOk(limit, w)
    requires Sane(e) && (e.ReviewTest? ==> e.requestId !in w.requests) && EffectOf(w.requests, e).Write?
    ensures WritesClaims(w, e, Step(limit, w, e), Written(limit, w, e))
  {
    WritesBound(w.requests, e);
    StepOfWrite(limit, w, e);
    WrittenIs(limit, w, e);
    hide EffectOf, Step, LogOk, Capped, AppendAll, RecordsOk, HistoryOk, Bound, SameBinding, Sane;
  }

  lemma HistoryOfRecord(limit: int, w: World, id: string)
    requires HistoryOk(limit, w)
    ensures RecordOf(w.requests, id).events == Capped(limit, HistoryOf(w, id))
  {
    if id !in w.requests {
      assert id !in w.history;
    }
  }

  lemma StepKeepsRecords(limit: int, w: World, e: Event, w': World, r: Record)
    requires WritesRecord(limit, w, e, w', r) && LogOk(r) && RecordsOk(w.requests) && HistoryOk(limit, w)
    ensures RecordsOk(w'.requests) && HistoryOk(limit, w')
  {
    hide LogOk, Bound, Capped;
  }

  lemma StepKeepsIssued(limit: int, w: World, e: Event, w': World, r: Record)
    requires WritesRecord(limit, w, e, w', r) && WritesClaims(w, e, w', r) && IssuedOk(w.issued, w.requests)
             && CodesOk(w.codes, w.requests)
    ensures IssuedOk(w'.issued, w'.requests) && CodesOk(w'.codes, w'.requests)
  {
    hide Bound, Capped;
  }

  lemma StepKeepsInv(limit: int, w: World, e: Event)
    requires Inv(limit, w) && Sane(e) && (e.ReviewTest? ==> e.requestId !in w.requests)
    ensures Inv(limit, Step(limit, w, e))
  {
    if EffectOf(w.requests, e).Write? {
      var r := Written(limit, w, e);
      StepWrites(limit, w, e);
      StepIssues(limit, w, e);
      WriteKeepsLog(limit, w.requests, e);
      hide EffectOf, AppendAll, LogOk, Capped, Step, Bound, WritesRecord, WritesClaims, RecordsOk, HistoryOk, IssuedOk,
           CodesOk;
      StepKeepsRecords(limit, w, e, Step(limit, w, e), r);
      StepKeepsIssued(limit, w, e, Step(limit, w, e), r);
    }
  }

  // ----- every run -----

  lemma {:induction false} RunKeepsInv(limit: int, states: seq<World>, events: seq<Event>, i: nat)
    requires IsRun(limit, states, events) && FreshReviews(states, events) && i < |states|
    ensures Inv(limit, states[i])
  {
    if i > 0 {
      RunKeepsInv(limit, states, events, i - 1);
      assert Sane(events[i - 1]) && states[i] == Step(limit, states[i - 1], events[i - 1]);
      StepKeepsInv(limit, states[i - 1], events[i - 1]);
    }
    hide Step, EffectOf;
  }

  lemma StepKeepsBinding(limit: int, w: World, e: Event, id: string)
    requires Inv(limit, w) && Sane(e) && (e.ReviewTest? ==> e.requestId !in w.requests) && id in w.requests
    ensures id in Step(limit, w, e).requests && SameBinding(Step(limit, w, e).requests[id], w.requests[id])
  {
    if EffectOf(w.requests, e).Write? {
      StepWrites(limit, w, e);
      hide EffectOf, Written, Step, Inv;
    }
  }

  /** A stored request has its buyer, seller and subagent bound, and they never change. */
  lemma {:induction false} BindingsArePermanent(limit: int, states: seq<World>, events: seq<Event>, i: nat, j: nat,
                                                id: string)
    requires IsRun(limit, states, events) && FreshReviews(states, events) && i <= j < |states|
             && id in states[i].requests
    ensures Bound(states[i].requests[id])
    ensures id in states[j].requests && SameBinding(states[j].requests[id], states[i].requests[id])
  {
    hide Step, Sane, HistoryOk, IssuedOk, CodesOk, LogOk, Bound;
    RunKeepsInv(limit, states, events, i);
    if i < j {
      BindingsArePermanent(limit, states, events, i, j - 1, id);
      RunKeepsInv(limit, states, events, j - 1);
      var w, e := states[j - 1], events[j - 1];
      assert Sane(e) && states[j] == Step(limit, w, e);
      hide Inv;
      StepKeepsBinding(limit, w, e, id);
    }
  }

  /** Every token ever issued for a request carries exactly its binding, now and for ever. */
  lemma TokensCarryTheBinding(limit: int, states: seq<World>, events: seq<Event>, i: nat, c: Claims)
    requires IsRun(limit, states, events) && FreshReviews(states, events) && i < |states| && c in states[i].issued
    ensures c.requestId in states[i].requests && Carries(c, states[i].requests[c.requestId])
  {
    RunKeepsInv(limit, states, events, i);
  }

  /** All delivery-meta objects of a request show the same display code. */
  lemma DisplayCodeIsStable(limit: int, states: seq<World>, events: seq<Event>, i: nat, id: string, a: string,
                            b: string)
    requires IsRun(limit, states, events) && FreshReviews(states, events) && i < |states|
    requires (id, a) in states[i].codes && (id, b) in states[i].codes
    ensures a == b && a != ""
  {
    RunKeepsInv(limit, states, events, i);
  }

  /** The retained log is the last min(n, limit) events of the full history, a limit of 0 standing for the default. */
  lemma LogIsEndOfHistory(limit: int, states: seq<World>, events: seq<Event>, i: nat, id: string)
    requires IsRun(limit, states, events) && FreshReviews(states, events) && i < |states| && id in states[i].requests
    ensures var h, kept := HistoryOf(states[i], id), states[i].requests[id].events;
            var max := if limit == 0 then 5000 else if limit < 1 then 1 else limit;
            |kept| == (if |h| < max then |h| else max) && kept == h[|h| - |kept|..]
  {
    RunKeepsInv(limit, states, events, i);
    assert HistoryOf(states[i], id)[0..] == HistoryOf(states[i], id);
  }

  /** At most one seller ACKED, one COMPLETED and one FAILED event are retained, evictions included. */
  lemma RetainedAtMostOnce(limit: int, states: seq<World>, events: seq<Event>, i: nat, id: string)
    requires IsRun(limit, states, events) && FreshReviews(states, events) && i < |states| && id in states[i].requests
    ensures NoTwo(states[i].requests[id].events, Acked)
    ensures NoTwo(states[i].requests[id].events, Completed) && NoTwo(states[i].requests[id].events, Failed)
  {
    RunKeepsInv(limit, states, events, i);
  }

  // ----- where it stops -----

  /** A review test keeps the binding of an existing request exactly when it was already that review test's. */
  lemma ReviewTestKeepsBindingIff(limit: int, w: World, e: Event)
    requires e.ReviewTest? && e.requestId in w.requests
    ensures SameBinding(Step(limit, w, e).requests[e.requestId], w.requests[e.requestId]) <==>
            w.requests[e.requestId].buyerId == Some(REVIEW_BUYER)
            && w.requests[e.requestId].sellerId == Some(e.sellerId)
            && w.requests[e.requestId].subagentId == Some(e.subagentId)
  {
    var effect := EffectOf(w.requests, e);
    AppendTwo(limit, effect.record, effect.pushed[0], effect.pushed[1]);
  }

  /** A route reports t for the request and is accepted. */
  predicate Reports(w: World, e: Event, id: string, t: EventType) {
    && e.requestId == id && EffectOf(w.requests, e).Write?
    && ((e.Ack? && t == Acked) || (e.Lifecycle? && t == if e.failed then Failed else Completed))
  }

  predicate HasMark(events: seq<PlatformEvent>, t: EventType) {
    exists x :: x in events && Marks(x, t)
  }

  /** No event of the kind has been evicted. */
  ghost predicate NoneEvicted(limit: int, history: seq<PlatformEvent>, t: EventType) {
    forall k | 0 <= k < |history| - MaxEvents(limit) :: !Marks(history[k], t)
  }

  /** What a report pushes: its one event, unless the log retains one of the kind. */
  lemma ReportPushes(w: World, e: Event, id: string, t: EventType)
    requires RecordsOk(w.requests) && Sane(e) && Reports(w, e, id, t)
    ensures id in w.requests
    ensures var pushed := EffectOf(w.requests, e).pushed;
            if HasMark(w.requests[id].events, t) then pushed == []
            else |pushed| == 1 && Marks(pushed[0], t)
  {
    var r := w.requests[id];
    assert Bound(r) && LogOk(r);
    if e.Ack? {
      assert forall x :: Marks(x, Acked) <==> SellerAck(x);
      assert HasMark(r.events, t) <==> HasSellerAck(r.events);
    } else {
      assert forall x | x in r.events && Marks(x, t) ::
               x.sellerId == Some(e.sellerId) && x.subagentId == Some(e.subagentId);
      assert HasMark(r.events, t) <==> HasMatching(r.events, t, e.sellerId, e.subagentId);
    }
  }

  /** Every other route pushes nothing of the kind. */
  lemma OthersPushNone(w: World, e: Event, t: EventType)
    requires t == Acked || t == Completed || t == Failed
    requires EffectOf(w.requests, e).Write? && !Reports(w, e, e.requestId, t)
    ensures forall x | x in EffectOf(w.requests, e).pushed :: !Marks(x, t)
  {
  }

  /** The end of a history holds the mark exactly if the rest does not, as long as it holds it once. */
  lemma MarkIsRetainedIff(limit: int, h: seq<PlatformEvent>, t: EventType)
    requires NoTwo(h, t) && HasMark(h, t)
    ensures HasMark(Capped(limit, h), t) <==> NoneEvicted(limit, h, t)
  {
    var i :| 0 <= i < |h| && Marks(h[i], t);
    var from := |h| - |Capped(limit, h)|;
    if i >= from {
      assert Capped(limit, h)[i - from] == h[i];
    }
  }

  lemma OneMoreMark(h: seq<PlatformEvent>, x: PlatformEvent, t: EventType)
    requires NoTwo(h, t) && Marks(x, t)
    ensures NoTwo(h + [x], t) <==> !HasMark(h, t)
  {
    if HasMark(h, t) {
      var i :| 0 <= i < |h| && Marks(h[i], t);
      assert (h + [x])[i] == h[i] && (h + [x])[|h|] == x;
    }
  }

  lemma NoMarkNoTwo(h: seq<PlatformEvent>, pushed: seq<PlatformEvent>, t: EventType)
    requires forall x | x in pushed :: !Marks(x, t)
    ensures NoTwo(h + pushed, t) <==> NoTwo(h, t)
  {
    PrefixNoTwo(h, pushed, t);
  }

  lemma PrefixNoTwo(h: seq<PlatformEvent>, pushed: seq<PlatformEvent>, t: EventType)
    ensures NoTwo(h + pushed, t) ==> NoTwo(h, t)
  {
    assert forall i | 0 <= i < |h| :: (h + pushed)[i] == h[i];
  }

  /** An accepted report repeats what the history holds if and only if that has been evicted from the log. */
  lemma ReportRepeatsIff(limit: int, w: World, e: Event, id: string, t: EventType)
    requires Inv(limit, w) && Sane(e) && Reports(w, e, id, t) && NoTwo(HistoryOf(w, id), t)
    ensures NoTwo(HistoryOf(Step(limit, w, e), id), t) <==> NoneEvicted(limit, HistoryOf(w, id), t)
  {
    ReportPushes(w, e, id, t);
    HistoryOfRecord(limit, w, id);
    StepOfWrite(limit, w, e);
    var h, pushed := HistoryOf(w, id), EffectOf(w.requests, e).pushed;
    assert HistoryOf(Step(limit, w, e), id) == h + pushed;
    hide EffectOf, Step, Inv, NoTwo, Marks, Capped, HasMark, NoneEvicted, HistoryOf;
    if pushed == [] {
      assert h + pushed == h;
      RetainedIsInHistory(limit, h, t);
      MarkIsRetainedIff(limit, h, t);
    } else {
      assert pushed == [pushed[0]];
      OneMoreMark(h, pushed[0], t);
      if HasMark(h, t) {
        MarkIsRetainedIff(limit, h, t);
      } else {
        NoMarkNoneEvicted(limit, h, t);
      }
    }
  }

  lemma RetainedIsInHistory(limit: int, h: seq<PlatformEvent>, t: EventType)
    requires HasMark(Capped(limit, h), t)
    ensures HasMark(h, t)
  {
  }

  lemma NoMarkNoneEvicted(limit: int, h: seq<PlatformEvent>, t: EventType)
    requires !HasMark(h, t)
    ensures NoneEvicted(limit, h, t)
  {
  }

  /** One step of the next theorem. */
  lemma StepRepeatsIff(limit: int, w: World, e: Event, id: string, t: EventType)
    requires t == Acked || t == Completed || t == Failed
    requires Inv(limit, w) && Sane(e)
    ensures NoTwo(HistoryOf(Step(limit, w, e), id), t) <==>
            NoTwo(HistoryOf(w, id), t) && (Reports(w, e, id, t) ==> NoneEvicted(limit, HistoryOf(w, id), t))
  {
    if EffectOf(w.requests, e).Write? && e.requestId == id {
      var h, pushed := HistoryOf(w, id), EffectOf(w.requests, e).pushed;
      StepOfWrite(limit, w, e);
      assert HistoryOf(Step(limit, w, e), id) == h + pushed;
      if !Reports(w, e, id, t) {
        OthersPushNone(w, e, t);
        NoMarkNoTwo(h, pushed, t);
      } else {
        PrefixNoTwo(h, pushed, t);
        if NoTwo(h, t) {
          ReportRepeatsIff(limit, w, e, id, t);
        }
      }
      hide EffectOf, Step, Inv, NoTwo, Marks, NoneEvicted, HistoryOf;
    } else {
      OthersUntouched(limit, w, e, id);
      hide EffectOf, Step, Inv, NoTwo, NoneEvicted, HistoryOf;
    }
  }

  lemma OthersUntouched(limit: int, w: World, e: Event, id: string)
    requires !(EffectOf(w.requests, e).Write? && e.requestId == id)
    ensures HistoryOf(Step(limit, w, e), id) == HistoryOf(w, id)
  {
    if EffectOf(w.requests, e).Write? {
      StepOfWrite(limit, w, e);
      hide Step, EffectOf;
    }
  }

  /**
   Over a whole run, evictions included: the history of a request holds no second acknowledgement, or no second
   outcome of a kind, if and only if each accepted report of that kind found none evicted.
   */
  lemma {:induction false} HistoryRepeatsIff(limit: int, states: seq<World>, events: seq<Event>, n: nat, id: string,
                                             t: EventType)
    requires t == Acked || t == Completed || t == Failed
    requires IsRun(limit, states, events) && FreshReviews(states, events) && n < |states|
    ensures NoTwo(HistoryOf(states[n], id), t) <==>
            forall i | 0 <= i < n && Reports(states[i], events[i], id, t) ::
              NoneEvicted(limit, HistoryOf(states[i], id), t)
  {
    hide Step, Inv, Reports, NoTwo, NoneEvicted, Sane;
    if n == 0 {
      EmptyNoTwo(t);
    } else {
      hide HistoryOf;
      HistoryRepeatsIff(limit, states, events, n - 1, id, t);
      RunKeepsInv(limit, states, events, n - 1);
      assert Sane(events[n - 1]) && states[n] == Step(limit, states[n - 1], events[n - 1]);
      StepRepeatsIff(limit, states[n - 1], events[n - 1], id, t);
    }
  }

  lemma EmptyNoTwo(t: EventType)
    ensures NoTwo([], t)
  {
  }

  function SampleIssue(at: int): Event {
    IssueToken("u", "r", "s", "x", true, at)
  }

  function SampleAck(at: int): Event {
    Ack(Caller("s", ["x"]), "r", "s", "x", 1, at)
  }

  /** The sample request, bound, its log holding one event that is no acknowledgement. */
  ghost predicate Waiting(w: World) {
    && "r" in w.requests && w.requests["r"].buyerId == Some("u") && w.requests["r"].sellerId == Some("s")
    && w.requests["r"].subagentId == Some("x") && !HasSellerAck(w.requests["r"].events)
  }

  /** A token issued for the sample request; with a cap of one event this evicts whatever was logged. */
  lemma IssueStep(w: World, at: int)
    requires "r" !in w.requests || (w.requests["r"].buyerId == Some("u") && w.requests["r"].sellerId == Some("s")
                                    && w.requests["r"].subagentId == Some("x"))
    ensures Waiting(Step(1, w, SampleIssue(at)))
    ensures HistoryOf(Step(1, w, SampleIssue(at)), "r") == HistoryOf(w, "r") + [Plain(TaskTokenIssued, at)]
  {
    OneWrite(w, SampleIssue(at));
  }

  lemma AckStep(w: World, at: int)
    requires Waiting(w)
    ensures var w' := Step(1, w, SampleAck(at));
            && |HistoryOf(w', "r")| == |HistoryOf(w, "r")| + 1 && HistoryOf(w, "r") < HistoryOf(w', "r")
            && SellerAck(HistoryOf(w', "r")[|HistoryOf(w, "r")|])
            && "r" in w'.requests && w'.requests["r"].buyerId == Some("u") && w'.requests["r"].sellerId == Some("s")
            && w'.requests["r"].subagentId == Some("x")
  {
    OneWrite(w, SampleAck(at));
  }

  /** With a cap of one event, an eviction lets the history, though not the log, hold two acknowledgements. */
  lemma EvictionRepeatsAck() returns (states: seq<World>, events: seq<Event>)
    ensures IsRun(1, states, events) && FreshReviews(states, events)
    ensures !NoTwo(HistoryOf(states[|events|], "r"), Acked)
  {
    hide Step, Waiting, HistoryOf, SellerAck;
    events := [SampleIssue(0), SampleAck(1), SampleIssue(2), SampleAck(3)];
    var s0 := World(map[], map[], {}, {});
    IssueStep(s0, 0);
    var s1 := Step(1, s0, events[0]);
    AckStep(s1, 1);
    var s2 := Step(1, s1, events[1]);
    IssueStep(s2, 2);
    var s3 := Step(1, s2, events[2]);
    AckStep(s3, 3);
    var s4 := Step(1, s3, events[3]);
    states := [s0, s1, s2, s3, s4];
    var h1, h2, h3, h4 := HistoryOf(s1, "r"), HistoryOf(s2, "r"), HistoryOf(s3, "r"), HistoryOf(s4, "r");
    assert h4[|h1|] == h2[|h1|] && SellerAck(h4[|h1|]) && SellerAck(h4[|h3|]) && |h1| < |h3|;
  }

  /** A step of the sample run: the log holds the one event just pushed, and the history has it added. */
  lemma OneWrite(w: World, e: Event)
    requires e.IssueToken? || e.Ack?
    requires EffectOf(w.requests, e).Write? && |EffectOf(w.requests, e).pushed| == 1
    ensures var effect, w' := EffectOf(w.requests, e), Step(1, w, e);
            && w'.requests == w.requests[e.requestId := effect.record.(events := effect.pushed)]
            && HistoryOf(w', e.requestId) == HistoryOf(w, e.requestId) + effect.pushed
  {
    var effect := EffectOf(w.requests, e);
    assert effect.pushed == [effect.pushed[0]];
    AppendOne(1, effect.record, effect.pushed[0]);
    assert Capped(1, effect.record.events + effect.pushed) == effect.pushed;
  }
}
