/**
 The buyer controller as a state machine: its requests, and the routes and loops that change them
 in any order. Verdicts and timeouts are followed over whole runs.
 */
module BuyerMachine {
  import opened Wrappers
  import opened Json
  import opened Contracts
  import opened PlatformEvents
  import opened BuyerRequest

  /** One uninterrupted change of one request; the posted body is None when it is `null`. */
  datatype Change =
    | Evaluate(now: int, config: Config)                              // background loop and both GET routes
    | MarkSent(now: int)                                              // mark-sent, dispatch, remote-requests
    | AckRoute(now: int)                                              // POST .../ack
    | Sync(events: seq<PlatformEvent>)                                // event sync, single or batched
    | PostResult(body: Option<Record>)                                // POST .../result, test and apply together
    | LateResult(body: Option<Record>)                                // its apply, the test having passed earlier
    | InboxResult(package: Record, attachments: Json)
    | InboxUnparsable
    | DecideRoute(continueWait: bool, now: int)
    | PrepareRoute(sellerId: string, subagentId: string, verification: Json, signer: Option<string>)
    | DraftRoute

  /** applyResultPackage without attachments; `null` is stored before it makes the first check throw. */
  function ApplyPosted(h: Host, r: Request, body: Option<Record>): Request {
    match body
    case Some(b) => ApplyResult(h, r, b, NO_ATTACHMENTS)
    case None => r.(resultPackage := None)
  }

  function Apply(h: Host, r: Request, c: Change): Request {
    match c
    case Evaluate(now, config) => Evaluated(r, now, config)
    case MarkSent(now) => if Terminal(r.status) then r else SetSent(r, now)
    case AckRoute(now) => if Terminal(r.status) then r else Acknowledge(r, Some(now))
    case Sync(events) => ApplyEvents(r, events)
    case PostResult(body) => if Terminal(r.status) then r else ApplyPosted(h, r, body)
    case LateResult(body) => ApplyPosted(h, r, body)
    case InboxResult(body, attachments) => if Terminal(r.status) then r else ApplyResult(h, r, body, attachments)
    case InboxUnparsable => if Terminal(r.status) then r else MarkUnparsable(r)
    case DecideRoute(continueWait, now) => Decide(r, continueWait, now)
    case PrepareRoute(sellerId, subagentId, verification, signer) =>
      Prepare(r, sellerId, subagentId, verification, signer)
    case DraftRoute => DraftContract(r)
  }

  type Requests = map<string, Request>

  datatype Event = Create(r: Request) | Touch(id: string, change: Change)

  /** A record as createRequestRecord makes it. */
  ghost predicate Brand(r: Request) {
    r == NewRequest(r.terms, r.binding, r.ackDeadlineAt)
  }

  ghost predicate Next(h: Host, m: Requests, e: Event, m': Requests) {
    match e
    case Create(r) => Brand(r) && m' == m[r.terms.requestId := r]
    case Touch(id, c) => id in m && m' == m[id := Apply(h, m[id], c)]
  }

  ghost predicate IsRun(h: Host, states: seq<Requests>, events: seq<Event>) {
    && |states| == |events| + 1 && states[0] == map[]
    && forall i {:trigger events[i]} | 0 <= i < |events| :: Next(h, states[i], events[i], states[i + 1])
  }

  // ----- what the guarantees ask of a run -----

  /** A request id is never created again. */
  ghost predicate FreshIds(states: seq<Requests>, events: seq<Event>) {
    && |states| == |events| + 1
    && forall i {:trigger events[i]} | 0 <= i < |events| && events[i].Create? ::
      events[i].r.terms.requestId !in states[i]
  }

  /** A posted result that is applied although its request has become terminal since the route's test. */
  predicate ComesLate(m: Requests, e: Event) {
    e.Touch? && e.change.LateResult? && e.id in m && Terminal(m[e.id].status)
  }

  /** Every posted result is applied while its test still holds. */
  ghost predicate AllInTime(states: seq<Requests>, events: seq<Event>) {
    && |states| == |events| + 1
    && forall i {:trigger events[i]} | 0 <= i < |events| :: !ComesLate(states[i], events[i])
  }

  /** Every ACKED event of the platform is dated. */
  ghost predicate AcksDated(events: seq<Event>) {
    forall e, p | e in events && e.Touch? && e.change.Sync? && p in e.change.events ::
      p.eventType == Acked ==> p.at.Some?
  }

  // ----- verdicts -----

  predicate IsVerdict(m: Mark) {
    m.Rejected? || m == Became(SUCCEEDED) || m == Became(FAILED)
  }

  function Verdicts(timeline: seq<Mark>): seq<Mark> {
    if timeline == [] then []
    else Verdicts(timeline[..|timeline| - 1]) + (if IsVerdict(timeline[|timeline| - 1]) then [timeline[|timeline| - 1]]
                                                 else [])
  }

  /** SUCCEEDED, FAILED and UNVERIFIED are exactly the states with one verdict in the timeline, and it says which. */
  ghost predicate VerdictOk(r: Request) {
    if Terminal(r.status) && r.status != TIMED_OUT
    then |Verdicts(r.timeline)| == 1 && StatusOf(Verdicts(r.timeline)[0]) == r.status
    else Verdicts(r.timeline) == []
  }

  lemma VerdictsAppend(timeline: seq<Mark>, m: Mark)
    ensures Verdicts(timeline + [m]) == Verdicts(timeline) + (if IsVerdict(m) then [m] else [])
  {
    assert (timeline + [m])[..|timeline|] == timeline;
  }

  lemma VerdictIsVerdict(h: Host, r: Request, body: Record, attachments: Json)
    ensures var v := VerdictOf(h, r, body, attachments);
            v.Some? ==> IsVerdict(v.value) && Terminal(StatusOf(v.value)) && StatusOf(v.value) != TIMED_OUT
  {
  }

  predicate IsResult(c: Change) {
    c.PostResult? || c.LateResult? || c.InboxResult? || c.InboxUnparsable?
  }

  /**
   A change that is no result appends at most one entry, never a verdict, and makes nothing terminal but TIMED_OUT.
   */
  lemma QuietChange(h: Host, r: Request, c: Change)
    requires !IsResult(c)
    ensures var r' := Apply(h, r, c);
            && (r'.timeline == r.timeline || exists m :: !IsVerdict(m) && r'.timeline == r.timeline + [m])
            && r'.resultPackage == r.resultPackage
            && (if Terminal(r.status) then r'.status == r.status else !Terminal(r'.status) || r'.status == TIMED_OUT)
  {
    match c
    case Evaluate(_, _) =>
    case MarkSent(_) => assert !IsVerdict(Became(SENT));
    case AckRoute(_) => assert !IsVerdict(Became(ACKED));
    case Sync(_) => assert !IsVerdict(Became(ACKED));
    case DecideRoute(continueWait, _) => assert !IsVerdict(Decided(continueWait));
    case PrepareRoute(_, _, _, _) => assert !IsVerdict(Mark.Prepared);
    case DraftRoute => assert !IsVerdict(ContractDrafted);
  }

  lemma QuietKeepsVerdict(h: Host, r: Request, c: Change)
    requires VerdictOk(r) && !IsResult(c)
    ensures VerdictOk(Apply(h, r, c))
  {
    QuietChange(h, r, c);
    hide Apply;
    var r' := Apply(h, r, c);
    if r'.timeline != r.timeline {
      var m :| !IsVerdict(m) && r'.timeline == r.timeline + [m];
      VerdictsAppend(r.timeline, m);
    }
  }

  lemma ResultKeepsVerdict(h: Host, r: Request, body: Record, attachments: Json)
    requires VerdictOk(r) && !Terminal(r.status)
    ensures VerdictOk(ApplyResult(h, r, body, attachments))
  {
    VerdictIsVerdict(h, r, body, attachments);
    var v := VerdictOf(h, r, body, attachments);
    hide VerdictOf;
    if v.Some? {
      VerdictsAppend(r.timeline, v.value);
    }
  }

  lemma PostedKeepsVerdict(h: Host, r: Request, body: Option<Record>)
    requires VerdictOk(r) && !Terminal(r.status)
    ensures VerdictOk(ApplyPosted(h, r, body))
  {
    if body.Some? {
      ResultKeepsVerdict(h, r, body.value, NO_ATTACHMENTS);
      hide ApplyResult, Verdicts;
    }
  }

  lemma ApplyKeepsVerdict(h: Host, r: Request, c: Change)
    requires VerdictOk(r) && (c.LateResult? ==> !Terminal(r.status))
    ensures VerdictOk(Apply(h, r, c))
  {
    hide VerdictOk, VerdictOf;
    if !IsResult(c) {
      QuietKeepsVerdict(h, r, c);
    } else if !Terminal(r.status) {
      match c
      case PostResult(body) => PostedKeepsVerdict(h, r, body);
      case LateResult(body) => PostedKeepsVerdict(h, r, body);
      case InboxResult(body, attachments) => ResultKeepsVerdict(h, r, body, attachments);
      case InboxUnparsable => UnparsableKeepsVerdict(r);
    }
  }

  lemma UnparsableKeepsVerdict(r: Request)
    requires VerdictOk(r) && !Terminal(r.status)
    ensures VerdictOk(MarkUnparsable(r))
  {
    VerdictsAppend(r.timeline, Rejected(RESULT_BODY_INVALID_JSON));
  }

  /** What a reader may take as final: the status, the verdicts in the timeline, and the package. */
  ghost predicate SameOutcome(a: Request, b: Request) {
    a.status == b.status && Verdicts(a.timeline) == Verdicts(b.timeline) && a.resultPackage == b.resultPackage
  }

  /** A terminal request keeps its outcome, whatever else happens to it. */
  lemma TerminalIsFinal(h: Host, r: Request, c: Change)
    requires Terminal(r.status) && !c.LateResult?
    ensures SameOutcome(Apply(h, r, c), r)
  {
    if !IsResult(c) {
      QuietChange(h, r, c);
      var r' := Apply(h, r, c);
      hide Apply;
      if r'.timeline != r.timeline {
        var m :| !IsVerdict(m) && r'.timeline == r.timeline + [m];
        VerdictsAppend(r.timeline, m);
        assert Verdicts(r.timeline) + [] == Verdicts(r.timeline);
      }
    }
  }

  lemma ApplyKeepsTerms(h: Host, r: Request, c: Change)
    ensures Apply(h, r, c).terms == r.terms
  {
  }

  // ----- posted results that come late -----

  /** Without attachments nothing is searched, so no check throws. */
  lemma PostedConcludes(h: Host, r: Request, body: Record)
    ensures VerdictOf(h, r, body, NO_ATTACHMENTS) != None
  {
    NeverThrows(h, DeclaredIn(body));
    hide ContextMatches, SignatureOk, CheckArtifacts;
  }

  lemma {:induction false} NeverThrows(h: Host, declared: seq<Json>)
    ensures CheckArtifacts(h, declared, []) != Throw
  {
  }

  lemma LateVerdict(h: Host, r: Request, body: Record)
    ensures var r', v := ApplyPosted(h, r, Some(body)), VerdictOf(h, r, body, NO_ATTACHMENTS);
            && v.Some? && IsVerdict(v.value) && r'.resultPackage == Some(body)
            && Terminal(r'.status) && r'.status != TIMED_OUT && StatusOf(v.value) == r'.status
            && Verdicts(r'.timeline) == Verdicts(r.timeline) + [v.value]
  {
    PostedConcludes(h, r, body);
    VerdictIsVerdict(h, r, body, NO_ATTACHMENTS);
    var v := VerdictOf(h, r, body, NO_ATTACHMENTS);
    hide VerdictOf;
    VerdictsAppend(r.timeline, v.value);
  }

  /** Status and timeline still match after a posted result unless it is an object and there was a verdict. */
  lemma LateResultMatchesIff(h: Host, r: Request, body: Option<Record>)
    requires VerdictOk(r)
    ensures VerdictOk(ApplyPosted(h, r, body)) <==> !Terminal(r.status) || r.status == TIMED_OUT || body == None
  {
    if body.Some? {
      LateVerdict(h, r, body.value);
    }
    hide ApplyResult, VerdictOf, Verdicts;
  }

  /** It leaves a terminal request's outcome alone exactly when it is `null` and there was no package. */
  lemma LateResultHarmlessIff(h: Host, r: Request, body: Option<Record>)
    requires Terminal(r.status)
    ensures SameOutcome(ApplyPosted(h, r, body), r) <==> body == None && r.resultPackage == None
  {
    if body.Some? {
      LateVerdict(h, r, body.value);
    }
    hide ApplyResult, VerdictOf, Verdicts;
  }

  // ----- whole runs -----

  /** The request has its verdict, and a posted result comes late. */
  predicate SecondVerdict(m: Requests, e: Event) {
    ComesLate(m, e) && m[e.id].status != TIMED_OUT && e.change.body.Some?
  }

  ghost predicate NoSecondVerdict(states: seq<Requests>, events: seq<Event>) {
    && |states| == |events| + 1
    && forall i {:trigger events[i]} | 0 <= i < |events| :: !SecondVerdict(states[i], events[i])
  }

  ghost predicate AllMatch(m: Requests) {
    forall id | id in m :: VerdictOk(m[id])
  }

  lemma BrandMatches(r: Request)
    requires Brand(r)
    ensures VerdictOk(r)
  {
    assert r.timeline == [Became(CREATED)] && r.timeline[..0] == [];
  }

  lemma StepKeepsMatch(h: Host, m: Requests, e: Event, m': Requests)
    requires Next(h, m, e, m') && AllMatch(m)
    ensures AllMatch(m') <==> !SecondVerdict(m, e)
  {
    match e
    case Create(r) => BrandMatches(r); hide VerdictOk;
    case Touch(id, c) =>
      assert VerdictOk(m[id]);
      if c.LateResult? {
        LateResultMatchesIff(h, m[id], c.body);
      } else {
        ApplyKeepsVerdict(h, m[id], c);
      }
      hide VerdictOk, Apply, VerdictOf;
      assert m'[id] == Apply(h, m[id], c);
  }

  lemma {:induction false} RunKeepsVerdicts(h: Host, states: seq<Requests>, events: seq<Event>, i: nat)
    requires IsRun(h, states, events) && NoSecondVerdict(states, events) && i < |states|
    ensures AllMatch(states[i])
  {
    if i > 0 {
      hide Next, SecondVerdict, AllMatch;
      RunKeepsVerdicts(h, states, events, i - 1);
      assert Next(h, states[i - 1], events[i - 1], states[i]) && !SecondVerdict(states[i - 1], events[i - 1]);
      StepKeepsMatch(h, states[i - 1], events[i - 1], states[i]);
    }
  }

  /**
   SUCCEEDED, FAILED and UNVERIFIED are, all along a run, exactly the states with one verdict in the timeline if and
   only if no posted object comes late for a request that has its verdict.
   */
  lemma VerdictsMatchTimelineIff(h: Host, states: seq<Requests>, events: seq<Event>)
    requires IsRun(h, states, events)
    ensures (forall i | 0 <= i < |states| :: AllMatch(states[i])) <==> NoSecondVerdict(states, events)
  {
    hide Next, SecondVerdict, AllMatch;
    if NoSecondVerdict(states, events) {
      forall i | 0 <= i < |states| ensures AllMatch(states[i]) {
        RunKeepsVerdicts(h, states, events, i);
      }
    }
    if forall i | 0 <= i < |states| :: AllMatch(states[i]) {
      forall i | 0 <= i < |events| ensures !SecondVerdict(states[i], events[i]) {
        assert Next(h, states[i], events[i], states[i + 1]) && AllMatch(states[i]) && AllMatch(states[i + 1]);
        StepKeepsMatch(h, states[i], events[i], states[i + 1]);
      }
    }
  }

  /** In particular when every posted result is applied while its test still holds. */
  lemma VerdictsMatchTimeline(h: Host, states: seq<Requests>, events: seq<Event>, i: nat, id: string)
    requires IsRun(h, states, events) && AllInTime(states, events) && i < |states| && id in states[i]
    ensures VerdictOk(states[i][id])
  {
    hide Next, VerdictOk, ComesLate;
    assert NoSecondVerdict(states, events) by {
      forall k | 0 <= k < |events| ensures !SecondVerdict(states[k], events[k]) {
        assert !ComesLate(states[k], events[k]);
      }
    }
    RunKeepsVerdicts(h, states, events, i);
  }

  /** A posted result comes late, and is no `null` for a request without a package. */
  predicate Disturbs(m: Requests, e: Event) {
    ComesLate(m, e) && (e.change.body.Some? || m[e.id].resultPackage.Some?)
  }

  ghost predicate Undisturbed(states: seq<Requests>, events: seq<Event>) {
    && |states| == |events| + 1
    && forall i {:trigger events[i]} | 0 <= i < |events| :: !Disturbs(states[i], events[i])
  }

  /** m' keeps every outcome of m. */
  ghost predicate KeepsOutcomes(m: Requests, m': Requests) {
    forall id | id in m && Terminal(m[id].status) :: id in m' && SameOutcome(m'[id], m[id])
  }

  lemma StepKeepsOutcomes(h: Host, m: Requests, e: Event, m': Requests)
    requires Next(h, m, e, m') && (e.Create? ==> e.r.terms.requestId !in m)
    ensures KeepsOutcomes(m, m') <==> !Disturbs(m, e)
  {
    match e
    case Create(_) =>
    case Touch(id, c) =>
      if Terminal(m[id].status) {
        if c.LateResult? {
          LateResultHarmlessIff(h, m[id], c.body);
        } else {
          TerminalIsFinal(h, m[id], c);
        }
      }
      hide Apply, VerdictOf, Verdicts;
      assert m'[id] == Apply(h, m[id], c);
  }

  lemma OutcomesChain(a: Requests, b: Requests, c: Requests)
    requires KeepsOutcomes(a, b) && KeepsOutcomes(b, c)
    ensures KeepsOutcomes(a, c)
  {
    hide Verdicts;
  }

  lemma {:induction false} RunKeepsOutcomes(h: Host, states: seq<Requests>, events: seq<Event>, i: nat, j: nat)
    requires IsRun(h, states, events) && FreshIds(states, events) && Undisturbed(states, events) && i <= j < |states|
    ensures KeepsOutcomes(states[i], states[j])
  {
    if i < j {
      hide Next, Disturbs, KeepsOutcomes;
      RunKeepsOutcomes(h, states, events, i, j - 1);
      var e := events[j - 1];
      assert Next(h, states[j - 1], e, states[j]) && !Disturbs(states[j - 1], e);
      assert e.Create? ==> e.r.terms.requestId !in states[j - 1];
      StepKeepsOutcomes(h, states[j - 1], e, states[j]);
      OutcomesChain(states[i], states[j - 1], states[j]);
    }
  }

  /**
   Outcomes are final all along a run - once terminal, a request keeps its status, its verdicts and its package - if
   and only if no posted result comes late, `null` for a request without a package apart.
   */
  lemma OutcomesAreFinalIff(h: Host, states: seq<Requests>, events: seq<Event>)
    requires IsRun(h, states, events) && FreshIds(states, events)
    ensures (forall i, j | 0 <= i <= j < |states| :: KeepsOutcomes(states[i], states[j])) <==>
            Undisturbed(states, events)
  {
    hide Next, Disturbs, KeepsOutcomes;
    if Undisturbed(states, events) {
      forall i, j | 0 <= i <= j < |states| ensures KeepsOutcomes(states[i], states[j]) {
        RunKeepsOutcomes(h, states, events, i, j);
      }
    }
    if forall i, j | 0 <= i <= j < |states| :: KeepsOutcomes(states[i], states[j]) {
      forall i | 0 <= i < |events| ensures !Disturbs(states[i], events[i]) {
        var e := events[i];
        assert Next(h, states[i], e, states[i + 1]) && KeepsOutcomes(states[i], states[i + 1]);
        assert e.Create? ==> e.r.terms.requestId !in states[i];
        StepKeepsOutcomes(h, states[i], e, states[i + 1]);
      }
    }
  }

  /** Once terminal, a request keeps its status and its result package for the rest of the run. */
  lemma VerdictsAreFinal(h: Host, states: seq<Requests>, events: seq<Event>, i: nat, j: nat, id: string)
    requires IsRun(h, states, events) && FreshIds(states, events) && Undisturbed(states, events) && i <= j < |states|
    requires id in states[i] && Terminal(states[i][id].status)
    ensures id in states[j]
    ensures states[j][id].status == states[i][id].status && states[j][id].resultPackage == states[i][id].resultPackage
  {
    hide Next, Disturbs, Verdicts;
    RunKeepsOutcomes(h, states, events, i, j);
  }

  /** In particular when every posted result is applied while its test still holds. */
  lemma TimelyVerdictsAreFinal(h: Host, states: seq<Requests>, events: seq<Event>, i: nat, j: nat, id: string)
    requires IsRun(h, states, events) && FreshIds(states, events) && AllInTime(states, events) && i <= j < |states|
    requires id in states[i] && Terminal(states[i][id].status)
    ensures id in states[j]
    ensures states[j][id].status == states[i][id].status && states[j][id].resultPackage == states[i][id].resultPackage
  {
    hide Next, ComesLate;
    assert Undisturbed(states, events) by {
      forall k | 0 <= k < |events| ensures !Disturbs(states[k], events[k]) {
        assert !ComesLate(states[k], events[k]);
      }
    }
    VerdictsAreFinal(h, states, events, i, j, id);
  }

  /** GET .../result: the package it reports, None while it says "not available". */
  function ReadResult(r: Request): Option<Record> {
    if Terminal(r.status) then r.resultPackage else None
  }

  /** A result posted to an active request can be read at once, whatever its verdict; before, nothing can. */
  lemma PostedIsReadable(h: Host, r: Request, body: Record)
    requires !Terminal(r.status)
    ensures ReadResult(r) == None && ReadResult(Apply(h, r, PostResult(Some(body)))) == Some(body)
  {
    PostedConcludes(h, r, body);
    VerdictIsVerdict(h, r, body, NO_ATTACHMENTS);
    hide VerdictOf;
  }

  /** Once the result is available it stays available, and it is the same package forever. */
  lemma ResultReadIsStable(h: Host, states: seq<Requests>, events: seq<Event>, i: nat, j: nat, id: string)
    requires IsRun(h, states, events) && FreshIds(states, events) && Undisturbed(states, events) && i <= j < |states|
    requires id in states[i] && ReadResult(states[i][id]).Some?
    ensures id in states[j] && ReadResult(states[j][id]) == ReadResult(states[i][id])
  {
    hide Next, Disturbs;
    VerdictsAreFinal(h, states, events, i, j, id);
  }

  /** Even when a late POST result may interleave, a terminal request never becomes active again. */
  lemma {:induction false} TerminalNeverReopens(h: Host, states: seq<Requests>, events: seq<Event>, i: nat, j: nat,
                                                id: string)
    requires IsRun(h, states, events) && FreshIds(states, events) && i <= j < |states|
    requires id in states[i] && Terminal(states[i][id].status)
    ensures id in states[j] && Terminal(states[j][id].status)
  {
    if i < j {
      TerminalNeverReopens(h, states, events, i, j - 1, id);
      assert Next(h, states[j - 1], events[j - 1], states[j]);
      match events[j - 1]
      case Create(_) =>
      case Touch(_, c) => StaysTerminal(h, states[j - 1][id], c); hide Apply;
    }
  }

  lemma StaysTerminal(h: Host, r: Request, c: Change)
    requires Terminal(r.status)
    ensures Terminal(Apply(h, r, c).status)
  {
    if c.LateResult? {
      if c.body.Some? {
        LateVerdict(h, r, c.body.value);
      }
    } else {
      TerminalIsFinal(h, r, c);
    }
    hide ApplyResult, VerdictOf;
  }

  const UNBOUND: Binding := Binding(None, None, Null, None)

  /** A bare unsigned body for an unbound request: nothing is checked but its id. */
  lemma BareBody(h: Host, r: Request, body: Record)
    requires r.binding == UNBOUND && Get(body, REQUEST_ID) == Str(r.terms.requestId)
    requires Get(body, RESULT_VERSION) == Get(body, SIGNATURE_BASE64) == Get(body, SIGNATURE_VALID) == Undefined
    requires Get(body, SCHEMA_VALID) == Undefined
    ensures ContextMatches(r.terms.requestId, r.binding, body) && SignatureOk(h, r.binding, body)
    ensures Get(body, ARTIFACTS) == Undefined ==>
              VerdictOf(h, r, body, NO_ATTACHMENTS) ==
              Some(Became(if Get(body, STATUS) == Str("ok") then SUCCEEDED else FAILED))
  {
  }

  function SampleRequest(): Request {
    NewRequest(Terms("r", 120, 90000, 300000), UNBOUND, None)
  }

  lemma AppliedTo(h: Host, r: Request, body: Record, status: Status)
    requires VerdictOf(h, r, body, NO_ATTACHMENTS) == Some(Became(status))
    ensures var r' := ApplyResult(h, r, body, NO_ATTACHMENTS);
            r'.status == status && r'.timeline == r.timeline + [Became(status)] && r'.binding == r.binding
            && r'.terms == r.terms
  {
    hide VerdictOf;
  }

  function OkBody(): Record {
    map[REQUEST_ID := Str("r"), STATUS := Str("ok")]
  }

  function FailedBody(): Record {
    map[REQUEST_ID := Str("r")]
  }

  lemma SampleSucceeds(h: Host, r: Request)
    requires r.binding == UNBOUND && r.terms.requestId == "r"
    ensures VerdictOf(h, r, OkBody(), NO_ATTACHMENTS) == Some(Became(SUCCEEDED))
  {
    BareBody(h, r, OkBody());
    hide VerdictOf;
  }

  lemma SampleFails(h: Host, r: Request)
    requires r.binding == UNBOUND && r.terms.requestId == "r"
    ensures VerdictOf(h, r, FailedBody(), NO_ATTACHMENTS) == Some(Became(FAILED))
  {
    BareBody(h, r, FailedBody());
    hide VerdictOf;
  }

  /** A run in which two results are posted at once, and the later one turns the success into a failure. */
  lemma LateResultOverwrites(h: Host) returns (states: seq<Requests>, events: seq<Event>)
    ensures IsRun(h, states, events) && |states| == 4
    ensures "r" in states[2] && states[2]["r"].status == SUCCEEDED && VerdictOk(states[2]["r"])
    ensures "r" in states[3] && states[3]["r"].status == FAILED
    ensures Verdicts(states[3]["r"].timeline) == [Became(SUCCEEDED), Became(FAILED)]
  {
    hide VerdictOf, ApplyResult, OkBody, FailedBody;
    var r0 := SampleRequest();
    SampleSucceeds(h, r0);
    AppliedTo(h, r0, OkBody(), SUCCEEDED);
    var r1 := ApplyResult(h, r0, OkBody(), NO_ATTACHMENTS);
    SampleFails(h, r1);
    AppliedTo(h, r1, FailedBody(), FAILED);
    var r2 := ApplyResult(h, r1, FailedBody(), NO_ATTACHMENTS);
    BrandMatches(r0);
    VerdictsAppend(r0.timeline, Became(SUCCEEDED));
    VerdictsAppend(r1.timeline, Became(FAILED));
    events := [Create(r0), Touch("r", PostResult(Some(OkBody()))), Touch("r", LateResult(Some(FailedBody())))];
    states := [map[], map["r" := r0], map["r" := r1], map["r" := r2]];
    assert Next(h, states[0], events[0], states[1]);
    assert Next(h, states[1], events[1], states[2]);
    assert Next(h, states[2], events[2], states[3]);
  }

  // ----- when the check of the artifacts throws -----

  /** A search for the attachment of this name reaches a null one, or the artifact itself is null. */
  ghost predicate SearchBreaks(items: seq<Json>, artifact: Json) {
    && items != []
    && (IsNull(artifact)
        || exists k :: 0 <= k < |items| && IsNull(items[k]) && forall j | 0 <= j < k :: !SameName(items[j], artifact))
  }

  /** The k-th attachment is the first with the name of the artifact. */
  ghost predicate FirstNamed(items: seq<Json>, artifact: Json, k: int) {
    && 0 <= k < |items| && SameName(items[k], artifact) && !IsNull(items[k])
    && forall j | 0 <= j < k :: !IsNull(items[j]) && !SameName(items[j], artifact)
  }

  /** A size that is compared cannot be converted. */
  predicate SizeThrows(h: Host, declared: Json, actual: Json) {
    Unconvertible(declared) || (h.numberOf(declared).Some? && Unconvertible(actual))
  }

  predicate SizeOk(h: Host, declared: Json, actual: Json) {
    h.numberOf(declared).Some? ==> h.numberOf(actual) == h.numberOf(declared)
  }

  /** A content that is digested is neither a string nor anything else a buffer can be made from. */
  predicate ContentThrows(h: Host, digest: Json, content: Json) {
    Truthy(digest) && Truthy(content) && !content.Str? && BufferOf(h, content) == None
  }

  ghost predicate ItemThrows(h: Host, artifact: Json, item: Json) {
    && Truthy(item) && MediaTypeOk(artifact, item)
    && (SizeThrows(h, Prop(artifact, BYTE_SIZE), Prop(item, BYTE_SIZE))
        || (SizeOk(h, Prop(artifact, BYTE_SIZE), Prop(item, BYTE_SIZE))
            && ContentThrows(h, Prop(artifact, SHA256), Prop(item, CONTENT_BASE64))))
  }

  ghost predicate ArtifactThrows(h: Host, artifact: Json, items: seq<Json>) {
    || SearchBreaks(items, artifact)
    || (!IsNull(artifact) && exists k :: FirstNamed(items, artifact, k) && ItemThrows(h, artifact, items[k]))
  }

  /** A declared artifact makes the check throw, and all before it pass. */
  ghost predicate ThrowFirst(h: Host, declared: seq<Json>, items: seq<Json>) {
    exists i :: 0 <= i < |declared| && ArtifactThrows(h, declared[i], items)
                && forall j | 0 <= j < i :: CheckArtifact(h, declared[j], items) == Pass
  }

  /** The attachments are no array to search, or the first check that does not pass is one that throws. */
  ghost predicate BindingsThrow(h: Host, body: Record, attachments: Json) {
    if DeclaredIn(body) == [] then IsNull(attachments)
    else !attachments.Arr? || ThrowFirst(h, DeclaredIn(body), attachments.items)
  }

  lemma NamedLater(items: seq<Json>, artifact: Json)
    requires items != [] && !IsNull(items[0]) && !SameName(items[0], artifact)
    ensures forall k | FirstNamed(items, artifact, k) :: k > 0 && FirstNamed(items[1..], artifact, k - 1)
    ensures forall k | FirstNamed(items[1..], artifact, k) :: FirstNamed(items, artifact, k + 1)
  {
    hide SameName;
  }

  lemma {:induction false} SearchIs(items: seq<Json>, artifact: Json)
    ensures FindAttachment(items, artifact) == Broken <==> SearchBreaks(items, artifact)
    ensures !IsNull(artifact) ==>
              forall k | FirstNamed(items, artifact, k) :: FindAttachment(items, artifact) == Hit(items[k])
    ensures FindAttachment(items, artifact).Hit? ==> !IsNull(artifact) && exists k :: FirstNamed(items, artifact, k)
  {
    hide SameName;
    if items != [] && !IsNull(items[0]) && !IsNull(artifact) && !SameName(items[0], artifact) {
      SearchIs(items[1..], artifact);
      BreaksLater(items, artifact);
      NamedLater(items, artifact);
      hide SearchBreaks, FirstNamed;
    } else if items != [] && FindAttachment(items, artifact).Hit? {
      assert FirstNamed(items, artifact, 0);
    }
  }

  lemma BreaksLater(items: seq<Json>, artifact: Json)
    requires items != [] && !IsNull(items[0]) && !IsNull(artifact) && !SameName(items[0], artifact)
    ensures SearchBreaks(items, artifact) <==> SearchBreaks(items[1..], artifact)
  {
    hide SameName;
    var rest := items[1..];
    if SearchBreaks(items, artifact) {
      var k :| 0 <= k < |items| && IsNull(items[k]) && forall j | 0 <= j < k :: !SameName(items[j], artifact);
      assert rest[k - 1] == items[k] && forall j | 0 <= j < k - 1 :: rest[j] == items[j + 1];
    }
    if SearchBreaks(rest, artifact) {
      var k :| 0 <= k < |rest| && IsNull(rest[k]) && forall j | 0 <= j < k :: !SameName(rest[j], artifact);
      assert items[k + 1] == rest[k] && forall j | 0 < j < k + 1 :: items[j] == rest[j - 1];
    }
  }

  lemma ItemThrowsIff(h: Host, artifact: Json, items: seq<Json>, item: Json)
    requires FindAttachment(items, artifact) == Hit(item)
    ensures CheckArtifact(h, artifact, items) == Throw <==> ItemThrows(h, artifact, item)
  {
    hide Unconvertible, SameName, FindAttachment;
  }

  lemma ArtifactThrowsIff(h: Host, artifact: Json, items: seq<Json>)
    ensures CheckArtifact(h, artifact, items) == Throw <==> ArtifactThrows(h, artifact, items)
  {
    SearchIs(items, artifact);
    var found := FindAttachment(items, artifact);
    if found.Hit? {
      ItemThrowsIff(h, artifact, items, found.item);
      hide CheckArtifact;
    }
    hide FindAttachment, SearchBreaks, FirstNamed, ItemThrows, CheckSize, CheckDigest, MediaTypeOk;
  }

  lemma ThrowFirstSteps(h: Host, declared: seq<Json>, items: seq<Json>)
    requires declared != []
    ensures ThrowFirst(h, declared, items) <==>
            ArtifactThrows(h, declared[0], items)
            || (CheckArtifact(h, declared[0], items) == Pass && ThrowFirst(h, declared[1..], items))
  {
    hide CheckArtifact, ArtifactThrows;
    var rest := declared[1..];
    if ThrowFirst(h, declared, items) && !ArtifactThrows(h, declared[0], items) {
      var i :| 0 <= i < |declared| && ArtifactThrows(h, declared[i], items)
               && forall j | 0 <= j < i :: CheckArtifact(h, declared[j], items) == Pass;
      assert rest[i - 1] == declared[i] && forall j | 0 <= j < i - 1 :: rest[j] == declared[j + 1];
    } else if CheckArtifact(h, declared[0], items) == Pass && ThrowFirst(h, rest, items) {
      var i :| 0 <= i < |rest| && ArtifactThrows(h, rest[i], items)
               && forall j | 0 <= j < i :: CheckArtifact(h, rest[j], items) == Pass;
      assert declared[i + 1] == rest[i] && forall j | 0 < j < i + 1 :: declared[j] == rest[j - 1];
    }
  }

  lemma {:induction false} ArtifactsThrowIff(h: Host, declared: seq<Json>, items: seq<Json>)
    ensures CheckArtifacts(h, declared, items) == Throw <==> ThrowFirst(h, declared, items)
  {
    if declared != [] {
      ThrowFirstSteps(h, declared, items);
      ArtifactsThrowIff(h, declared[1..], items);
      ArtifactThrowsIff(h, declared[0], items);
      hide CheckArtifact, ThrowFirst, ArtifactThrows;
    }
  }

  /**
   The check of the artifact bindings throws exactly when there are artifacts and the attachments are no array, or the
   first artifact that does not pass is one whose search, size or content makes it throw.
   */
  lemma ThrowsIff(h: Host, body: Record, attachments: Json)
    ensures CheckBindings(h, body, attachments) == Throw <==> BindingsThrow(h, body, attachments)
  {
    if attachments.Arr? {
      ArtifactsThrowIff(h, DeclaredIn(body), attachments.items);
    }
    hide CheckArtifacts, ThrowFirst, DeclaredIn;
  }

  // ----- result packages -----

  /** Only a verdict comes with a package, and only an unparsable body is a verdict without one. */
  ghost predicate PackageOk(r: Request) {
    && (r.resultPackage.Some? ==> Terminal(r.status) && r.status != TIMED_OUT)
    && (Terminal(r.status) && r.status != TIMED_OUT ==>
          (r.resultPackage == None <==> Rejected(RESULT_BODY_INVALID_JSON) in r.timeline))
    && (!Terminal(r.status) || r.status == TIMED_OUT ==> Rejected(RESULT_BODY_INVALID_JSON) !in r.timeline)
  }

  /** Context and signature pass, and then the check of the artifacts throws. */
  ghost predicate Hangs(h: Host, r: Request, body: Record, attachments: Json) {
    && ContextMatches(r.terms.requestId, r.binding, body) && SignatureOk(h, r.binding, body)
    && BindingsThrow(h, body, attachments)
  }

  lemma NoVerdictIff(h: Host, r: Request, body: Record, attachments: Json)
    ensures VerdictOf(h, r, body, attachments) == None <==> Hangs(h, r, body, attachments)
    ensures VerdictOf(h, r, body, attachments) != Some(Rejected(RESULT_BODY_INVALID_JSON))
  {
    ThrowsIff(h, body, attachments);
    hide ContextMatches, SignatureOk, CheckBindings, BindingsThrow;
  }

  /**
   The changes after which package and verdict no longer match: a result from the inbox that leaves an active request
   with a package but no verdict, an object posted late where the verdict was that a body is no JSON, and a `null`
   posted late that wipes out a package.
   */
  ghost predicate Mismatches(h: Host, r: Request, c: Change) {
    match c
    case InboxResult(body, attachments) => !Terminal(r.status) && Hangs(h, r, body, attachments)
    case LateResult(Some(_)) => Rejected(RESULT_BODY_INVALID_JSON) in r.timeline
    case LateResult(None) => r.resultPackage.Some?
    case _ => false
  }

  lemma ResultKeepsPackageIff(h: Host, r: Request, body: Record, attachments: Json)
    requires PackageOk(r) && !Terminal(r.status)
    ensures PackageOk(ApplyResult(h, r, body, attachments)) <==> !Hangs(h, r, body, attachments)
  {
    NoVerdictIff(h, r, body, attachments);
    VerdictIsVerdict(h, r, body, attachments);
    hide VerdictOf, Hangs;
  }

  lemma PostedKeepsPackageIff(h: Host, r: Request, body: Record)
    requires PackageOk(r)
    ensures PackageOk(ApplyPosted(h, r, Some(body))) <==> Rejected(RESULT_BODY_INVALID_JSON) !in r.timeline
  {
    PostedConcludes(h, r, body);
    NoVerdictIff(h, r, body, NO_ATTACHMENTS);
    VerdictIsVerdict(h, r, body, NO_ATTACHMENTS);
    hide VerdictOf, Hangs;
  }

  lemma QuietKeepsPackage(h: Host, r: Request, c: Change)
    requires PackageOk(r) && !IsResult(c)
    ensures PackageOk(Apply(h, r, c))
  {
    hide Apply;
    QuietChange(h, r, c);
    var r' := Apply(h, r, c);
    if r'.timeline != r.timeline {
      var m :| !IsVerdict(m) && r'.timeline == r.timeline + [m];
      assert m != Rejected(RESULT_BODY_INVALID_JSON);
    }
  }

  /** Packages and verdicts still match after a change exactly when it is none of those. */
  lemma ApplyKeepsPackageIff(h: Host, r: Request, c: Change)
    requires PackageOk(r)
    ensures PackageOk(Apply(h, r, c)) <==> !Mismatches(h, r, c)
  {
    if !IsResult(c) {
      QuietKeepsPackage(h, r, c);
      hide Apply, PackageOk;
      return;
    }
    match c
    case PostResult(Some(body)) => PostedKeepsPackageIff(h, r, body); hide ApplyPosted;
    case LateResult(Some(body)) => PostedKeepsPackageIff(h, r, body); hide ApplyPosted;
    case InboxResult(body, attachments) =>
      if !Terminal(r.status) {
        ResultKeepsPackageIff(h, r, body, attachments);
        hide ApplyResult, Hangs, PackageOk;
      }
    case _ =>
  }

  ghost predicate NoneMismatches(h: Host, states: seq<Requests>, events: seq<Event>) {
    && |states| == |events| + 1
    && forall i {:trigger events[i]} | 0 <= i < |events| && events[i].Touch? && events[i].id in states[i] ::
         !Mismatches(h, states[i][events[i].id], events[i].change)
  }

  ghost predicate PackagesOk(m: Requests) {
    forall id | id in m :: PackageOk(m[id])
  }

  lemma StepKeepsPackagesIff(h: Host, m: Requests, e: Event, m': Requests)
    requires Next(h, m, e, m') && PackagesOk(m)
    ensures PackagesOk(m') <==> (e.Touch? ==> !Mismatches(h, m[e.id], e.change))
  {
    match e
    case Create(r) => assert PackageOk(r); hide PackageOk;
    case Touch(id, c) =>
      assert PackageOk(m[id]);
      ApplyKeepsPackageIff(h, m[id], c);
      hide Apply, PackageOk, Mismatches;
      assert m'[id] == Apply(h, m[id], c);
  }

  lemma {:induction false} RunKeepsPackages(h: Host, states: seq<Requests>, events: seq<Event>, i: nat)
    requires IsRun(h, states, events) && NoneMismatches(h, states, events) && i < |states|
    ensures PackagesOk(states[i])
  {
    if i > 0 {
      hide Mismatches, PackageOk, Apply;
      RunKeepsPackages(h, states, events, i - 1);
      assert Next(h, states[i - 1], events[i - 1], states[i]);
      StepKeepsPackagesIff(h, states[i - 1], events[i - 1], states[i]);
    }
  }

  /**
   All along a run, late results included, only verdicts come with a package and only an unparsable body is a verdict
   without one, if and only if no change mismatches them.
   */
  lemma PackagesMatchVerdictsIff(h: Host, states: seq<Requests>, events: seq<Event>)
    requires IsRun(h, states, events)
    ensures (forall i | 0 <= i < |states| :: PackagesOk(states[i])) <==> NoneMismatches(h, states, events)
  {
    hide Mismatches, PackagesOk, Apply;
    if NoneMismatches(h, states, events) {
      forall i | 0 <= i < |states| ensures PackagesOk(states[i]) {
        RunKeepsPackages(h, states, events, i);
      }
    }
    if forall i | 0 <= i < |states| :: PackagesOk(states[i]) {
      forall i | 0 <= i < |events| && events[i].Touch? && events[i].id in states[i]
        ensures !Mismatches(h, states[i][events[i].id], events[i].change)
      {
        assert Next(h, states[i], events[i], states[i + 1]) && PackagesOk(states[i]) && PackagesOk(states[i + 1]);
        StepKeepsPackagesIff(h, states[i], events[i], states[i + 1]);
      }
    }
  }

  /** One ordinary attachment, and a package that declares a null artifact. */
  function OneAttachment(): Json {
    Arr([Obj(map[NAME := Str("a")])])
  }

  function NullArtifactBody(): Record {
    map[REQUEST_ID := Str("r"), ARTIFACTS := Arr([Null])]
  }

  lemma NullArtifactHangs(h: Host, r: Request)
    requires r.binding == UNBOUND && r.terms.requestId == "r"
    ensures Hangs(h, r, NullArtifactBody(), OneAttachment())
  {
    var body := NullArtifactBody();
    BareBody(h, r, body);
    assert DeclaredIn(body) == [Null];
    var items := OneAttachment().items;
    assert IsNull([Null][0]) && SearchBreaks(items, [Null][0]) && ArtifactThrows(h, [Null][0], items);
    assert ThrowFirst(h, [Null], items);
    hide ContextMatches, SignatureOk, ThrowFirst, DeclaredIn;
  }

  /** A run that ends with a timed-out request holding a package: a null artifact made its check throw. */
  lemma NullArtifactLeavesPackage(h: Host) returns (states: seq<Requests>, events: seq<Event>)
    ensures IsRun(h, states, events) && AllInTime(states, events) && |states| == 4
    ensures "r" in states[3] && states[3]["r"].status == TIMED_OUT && states[3]["r"].resultPackage.Some?
  {
    hide VerdictOf, Hangs, NullArtifactBody, OneAttachment;
    var r0, body := SampleRequest(), NullArtifactBody();
    var arrives, late := InboxResult(body, OneAttachment()), Evaluate(300000, Config(true, true));
    NullArtifactHangs(h, r0);
    NoVerdictIff(h, r0, body, OneAttachment());
    var r1 := Apply(h, r0, arrives);
    assert r1 == r0.(resultPackage := Some(body));
    var r2 := Apply(h, r1, late);
    events := [Create(r0), Touch("r", arrives), Touch("r", late)];
    states := [map[], map["r" := r0], map["r" := r1], map["r" := r2]];
    assert Next(h, states[0], events[0], states[1]);
    assert Next(h, states[1], events[1], states[2]);
    assert Next(h, states[2], events[2], states[3]);
  }

  // ----- timeouts -----

  ghost predicate AckOk(r: Request) {
    && (Became(ACKED) in r.timeline ==> r.acknowledgedAt.Some?)
    && (r.acknowledgedAt.Some? ==> r.lastError != Timeout(DELIVERY_OR_ACCEPTANCE_TIMEOUT))
  }

  lemma ApplyKeepsAck(h: Host, r: Request, c: Change)
    requires AckOk(r)
    requires c.Sync? ==> forall p | p in c.events :: p.eventType == Acked ==> p.at.Some?
    ensures AckOk(Apply(h, r, c))
  {
    match c
    case PostResult(Some(body)) => VerdictIsVerdict(h, r, body, NO_ATTACHMENTS); hide VerdictOf;
    case LateResult(Some(body)) => VerdictIsVerdict(h, r, body, NO_ATTACHMENTS); hide VerdictOf;
    case InboxResult(body, attachments) => VerdictIsVerdict(h, r, body, attachments); hide VerdictOf;
    case _ =>
  }

  /** A request that was ever acknowledged never ends in DELIVERY_OR_ACCEPTANCE_TIMEOUT, re-dispatched or not. */
  lemma {:induction false} AcknowledgedNeverDeliveryTimeout(h: Host, states: seq<Requests>, events: seq<Event>, i: nat,
                                                            id: string)
    requires IsRun(h, states, events) && AcksDated(events) && i < |states| && id in states[i]
    ensures AckOk(states[i][id])
    ensures Became(ACKED) in states[i][id].timeline ==>
              states[i][id].lastError != Timeout(DELIVERY_OR_ACCEPTANCE_TIMEOUT)
  {
    if i > 0 {
      assert Next(h, states[i - 1], events[i - 1], states[i]);
      assert events[i - 1] in events;
      if id in states[i - 1] {
        AcknowledgedNeverDeliveryTimeout(h, states, events, i - 1, id);
      }
      if events[i - 1].Touch? {
        AcknowledgedNeverDeliveryTimeout(h, states, events, i - 1, events[i - 1].id);
        ApplyKeepsAck(h, states[i - 1][events[i - 1].id], events[i - 1].change);
      }
    }
  }

  /** The change that may take an active request to TIMED_OUT, and when. */
  ghost predicate TimesOut(r: Request, c: Change) {
    && !Terminal(r.status)
    && match c
       case DecideRoute(continueWait, _) => !continueWait
       case Evaluate(now, config) =>
         && r.decision != CONTINUE_WAIT
         && ((config.hardTimeoutAutoFinalize && now >= r.terms.hardTimeoutAt)
             || (r.ackDeadlineAt.Some? && now >= r.ackDeadlineAt.value && r.acknowledgedAt == None))
       case _ => false
  }

  lemma OnlyTimeoutsTimeOut(h: Host, r: Request, c: Change)
    requires r.status != TIMED_OUT && Apply(h, r, c).status == TIMED_OUT
    ensures TimesOut(r, c)
  {
    if IsResult(c) {
      match c
      case PostResult(Some(body)) => VerdictIsVerdict(h, r, body, NO_ATTACHMENTS);
      case LateResult(Some(body)) => VerdictIsVerdict(h, r, body, NO_ATTACHMENTS);
      case InboxResult(body, attachments) => VerdictIsVerdict(h, r, body, attachments);
      case _ =>
      hide VerdictOf;
    }
  }

  /** A timed-out request was stopped by its user or timed out past a deadline, not told to go on waiting. */
  lemma {:induction false} TimeoutsAreSound(h: Host, states: seq<Requests>, events: seq<Event>, i: nat, id: string)
      returns (k: nat)
    requires IsRun(h, states, events) && i < |states| && id in states[i] && states[i][id].status == TIMED_OUT
    ensures k < i && events[k].Touch? && events[k].id == id && id in states[k]
            && TimesOut(states[k][id], events[k].change)
  {
    assert i > 0;
    assert Next(h, states[i - 1], events[i - 1], states[i]);
    if id in states[i - 1] && states[i - 1][id].status == TIMED_OUT {
      k := TimeoutsAreSound(h, states, events, i - 1, id);
    } else {
      k := i - 1;
      OnlyTimeoutsTimeOut(h, states[k][id], events[k].change);
    }
  }

  /** Nothing is left to finalize at time t. */
  ghost predicate Settled(r: Request, t: int) {
    Terminal(r.status) || r.decision == CONTINUE_WAIT || r.terms.hardTimeoutAt > t
  }

  lemma ApplyKeepsSettled(h: Host, r: Request, c: Change, t: int)
    requires Settled(r, t)
    ensures Settled(Apply(h, r, c), t)
  {
    if Terminal(r.status) {
      StaysTerminal(h, r, c);
    } else {
      match c
      case PostResult(Some(body)) => VerdictIsVerdict(h, r, body, NO_ATTACHMENTS);
      case LateResult(Some(body)) => VerdictIsVerdict(h, r, body, NO_ATTACHMENTS);
      case InboxResult(body, attachments) => VerdictIsVerdict(h, r, body, attachments);
      case _ =>
      hide VerdictOf;
    }
  }

  ghost predicate Evaluates(e: Event, id: string, t: int) {
    e.Touch? && e.id == id && e.change.Evaluate? && e.change.now >= t && e.change.config.hardTimeoutAutoFinalize
  }

  lemma {:induction false} SettledStays(h: Host, states: seq<Requests>, events: seq<Event>, i: nat, j: nat, id: string,
                                        t: int)
    requires IsRun(h, states, events) && FreshIds(states, events) && i <= j < |states|
    requires id in states[i] && Settled(states[i][id], t)
    ensures id in states[j] && Settled(states[j][id], t)
  {
    if i < j {
      SettledStays(h, states, events, i, j - 1, id, t);
      assert Next(h, states[j - 1], events[j - 1], states[j]);
      if events[j - 1].Touch? {
        if events[j - 1].id == id {
          ApplyKeepsSettled(h, states[j - 1][id], events[j - 1].change, t);
        }
      }
    }
  }

  lemma {:induction false} RequestsStay(h: Host, states: seq<Requests>, events: seq<Event>, i: nat, j: nat, id: string)
    requires IsRun(h, states, events) && i <= j < |states| && id in states[i]
    ensures id in states[j]
  {
    if i < j {
      RequestsStay(h, states, events, i, j - 1, id);
      assert Next(h, states[j - 1], events[j - 1], states[j]);
    }
  }

  lemma EvaluationSettles(h: Host, r: Request, c: Change, t: int)
    requires c.Evaluate? && c.now >= t && c.config.hardTimeoutAutoFinalize
    ensures Settled(Apply(h, r, c), t)
  {
  }

  /**
   After a pass that, between states i and j, evaluates every request of state i at a time not before t with
   auto-finalize on, no request of state i is active past its hard timeout at t unless told to go on waiting.
   */
  lemma PassSettlesEverything(h: Host, states: seq<Requests>, events: seq<Event>, i: nat, j: nat, t: int)
    requires IsRun(h, states, events) && FreshIds(states, events) && i <= j < |states|
    requires forall id | id in states[i] :: exists k :: i <= k < j && Evaluates(events[k], id, t)
    ensures forall id | id in states[i] :: id in states[j] && Settled(states[j][id], t)
  {
    forall id | id in states[i] ensures id in states[j] && Settled(states[j][id], t) {
      var k :| i <= k < j && Evaluates(events[k], id, t);
      RequestsStay(h, states, events, i, k, id);
      assert Next(h, states[k], events[k], states[k + 1]);
      EvaluationSettles(h, states[k][id], events[k].change, t);
      hide Apply, Settled, FreshIds;
      SettledStays(h, states, events, k + 1, j, id, t);
    }
  }
}
