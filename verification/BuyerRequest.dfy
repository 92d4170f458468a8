/** packages/buyer-controller-core: one request record and everything that changes it. */
module BuyerRequest {
  import opened Wrappers
  import opened Json
  import opened Contracts
  import opened PlatformEvents

  datatype Status = CREATED | SENT | ACKED | SUCCEEDED | FAILED | UNVERIFIED | TIMED_OUT

  predicate Terminal(s: Status) {
    s.SUCCEEDED? || s.FAILED? || s.UNVERIFIED? || s.TIMED_OUT?
  }

  datatype Decision = PENDING | CONTINUE_WAIT | STOP_WAIT

  datatype TimeoutCode = DELIVERY_OR_ACCEPTANCE_TIMEOUT | EXEC_TIMEOUT_HARD | EXEC_TIMEOUT_MANUAL_STOP

  datatype Reason =
    | RESULT_CONTEXT_MISMATCH | RESULT_SIGNATURE_INVALID | RESULT_ARTIFACT_INVALID | RESULT_SCHEMA_INVALID
    | RESULT_BODY_INVALID_JSON

  /** last_error_code */
  datatype ErrorCode = NoError | Timeout(code: TimeoutCode) | Unverifiable(reason: Reason) | Reported(value: Json)

  /** The `event` of a timeline entry. */
  datatype Mark =
    | Became(status: Status) | Rejected(reason: Reason) | Prepared | ContractDrafted | Decided(continueWait: bool)

  /** What is fixed when the record is created. */
  datatype Terms = Terms(requestId: string, ackDeadlineS: int, softTimeoutAt: int, hardTimeoutAt: int)

  /** Whom the request is bound to, and how its result will be recognised. */
  datatype Binding = Binding(sellerId: Option<string>, subagentId: Option<string>, verification: Json,
                             expectedSigner: Option<string>)

  /** What the platform last reported. */
  datatype PlatformView = PlatformView(events: seq<PlatformEvent>, completedAt: Option<int>, failedAt: Option<int>)

  datatype Request = Request(
    terms: Terms,
    binding: Binding,
    status: Status,
    decision: Decision,
    needsConfirmation: bool,
    timeline: seq<Mark>,
    ackDeadlineAt: Option<int>,
    sentAt: Option<int>,
    acknowledgedAt: Option<int>,
    ackEtaHintS: Option<int>,
    timedOutAt: Option<int>,
    platform: PlatformView,
    resultPackage: Option<Record>,
    lastError: ErrorCode
  )

  datatype Config = Config(askByDefault: bool, hardTimeoutAutoFinalize: bool)

  /** `{ attachments = [] } = {}`; an attachment may be any value. */
  const NO_ATTACHMENTS: Json := Arr([])

  function NewRequest(terms: Terms, binding: Binding, ackDeadlineAt: Option<int>): Request {
    Request(terms, binding, CREATED, PENDING, false, [Became(CREATED)], ackDeadlineAt, None, None, None, None,
            PlatformView([], None, None), None, NoError)
  }

  // ----- the result verification ladder -----

  /** Outcome of a check that may throw on malformed input. */
  datatype Check = Pass | Fail | Throw

  /** What `attachments.find` comes to; reading the name of `null` throws. */
  datatype Search = Hit(item: Json) | Miss | Broken

  predicate SameName(item: Json, artifact: Json) {
    SameValue(Prop(item, NAME), Prop(artifact, NAME))
  }

  function FindAttachment(items: seq<Json>, artifact: Json): Search {
    if items == [] then Miss
    else if IsNull(items[0]) || IsNull(artifact) then Broken
    else if SameName(items[0], artifact) then Hit(items[0])
    else FindAttachment(items[1..], artifact)
  }

  function CheckSize(h: Host, declared: Json, actual: Json): Check {
    if Unconvertible(declared) then Throw
    else if h.numberOf(declared) == None then Pass
    else if Unconvertible(actual) then Throw
    else if h.numberOf(actual) != h.numberOf(declared) then Fail
    else Pass
  }

  function CheckDigest(h: Host, declared: Json, content: Json): Check {
    if !Truthy(declared) then Pass
    else
      match BufferOf(h, OrElse(content, Str("")))
      case None => Throw
      case Some(bytes) => if Str(h.sha256(bytes)) == declared then Pass else Fail
  }

  predicate MediaTypeOk(artifact: Json, item: Json) {
    Truthy(Prop(artifact, MEDIA_TYPE)) ==> SameValue(Prop(item, MEDIA_TYPE), Prop(artifact, MEDIA_TYPE))
  }

  /** One turn of the loop in verifyArtifactBindings. */
  function CheckArtifact(h: Host, artifact: Json, items: seq<Json>): Check {
    match FindAttachment(items, artifact)
    case Broken => Throw
    case Miss => Fail
    case Hit(item) =>
      if !Truthy(item) || !MediaTypeOk(artifact, item) then Fail
      else
        match CheckSize(h, Prop(artifact, BYTE_SIZE), Prop(item, BYTE_SIZE))
        case Pass => CheckDigest(h, Prop(artifact, SHA256), Prop(item, CONTENT_BASE64))
        case c => c
  }

  function CheckArtifacts(h: Host, declared: seq<Json>, items: seq<Json>): Check {
    if declared == [] then Pass
    else
      match CheckArtifact(h, declared[0], items)
      case Pass => CheckArtifacts(h, declared[1..], items)
      case c => c
  }

  function DeclaredIn(body: Record): seq<Json> {
    if Get(body, ARTIFACTS).Arr? then Get(body, ARTIFACTS).items else []
  }

  /** verifyArtifactBindings: only arrays have a `find`. */
  function CheckBindings(h: Host, body: Record, attachments: Json): Check {
    if DeclaredIn(body) == [] then
      if IsNull(attachments) then Throw else if LengthOf(attachments) == Num(0) then Pass else Fail
    else if !attachments.Arr? then Throw
    else CheckArtifacts(h, DeclaredIn(body), attachments.items)
  }

  /** An id that is neither missing nor empty. */
  predicate Given(id: Option<string>) {
    id.Some? && id.value != ""
  }

  predicate ContextMatches(requestId: string, b: Binding, body: Record) {
    && Get(body, REQUEST_ID) == Str(requestId)
    && (Get(body, RESULT_VERSION).Str? ==> Get(body, RESULT_VERSION) == Str("0.1.0"))
    && (Given(b.sellerId) ==> Get(body, SELLER_ID) == Str(b.sellerId.value))
    && (Given(b.subagentId) ==> Get(body, SUBAGENT_ID) == Str(b.subagentId.value))
    && (Truthy(Prop(b.verification, DISPLAY_CODE)) ==>
          Prop(Get(body, VERIFICATION), DISPLAY_CODE) == Prop(b.verification, DISPLAY_CODE))
  }

  predicate SignatureOk(h: Host, b: Binding, body: Record) {
    var signature := Get(body, SIGNATURE_BASE64);
    if !Truthy(signature) then Get(body, SIGNATURE_VALID) != Bool(false)
    else
      && Given(b.expectedSigner) && BufferOf(h, signature).Some?
      && h.verify(b.expectedSigner.value, CanonicalOf(body), BufferOf(h, signature).value)
  }

  /** What applyResultPackage concludes of an object; None when it throws half-way. */
  function VerdictOf(h: Host, r: Request, body: Record, attachments: Json): Option<Mark> {
    if !ContextMatches(r.terms.requestId, r.binding, body) then Some(Rejected(RESULT_CONTEXT_MISMATCH))
    else if !SignatureOk(h, r.binding, body) then Some(Rejected(RESULT_SIGNATURE_INVALID))
    else
      match CheckBindings(h, body, attachments)
      case Throw => None
      case Fail => Some(Rejected(RESULT_ARTIFACT_INVALID))
      case Pass =>
        if Get(body, SCHEMA_VALID) == Bool(false) then Some(Rejected(RESULT_SCHEMA_INVALID))
        else if Get(body, STATUS) == Str("ok") then Some(Became(SUCCEEDED))
        else Some(Became(FAILED))
  }

  function StatusOf(m: Mark): Status {
    match m
    case Became(s) => s
    case _ => UNVERIFIED
  }

  function ErrorOf(m: Mark, body: Record): ErrorCode {
    match m
    case Rejected(reason) => Unverifiable(reason)
    case Became(FAILED) => Reported(OrElse(Prop(Get(body, ERROR), CODE), Str("EXEC_UNKNOWN")))
    case _ => NoError
  }

  function ApplyResult(h: Host, r: Request, body: Record, attachments: Json): Request {
    var received := r.(resultPackage := Some(body));
    match VerdictOf(h, r, body, attachments)
    case None => received
    case Some(m) => received.(status := StatusOf(m), lastError := ErrorOf(m, body), timeline := r.timeline + [m])
  }

  /** Some property of the package is not what the request expects. */
  ghost predicate Differs(r: Request, body: Record) {
    || Get(body, REQUEST_ID) != Str(r.terms.requestId)
    || (Get(body, RESULT_VERSION).Str? && Get(body, RESULT_VERSION) != Str("0.1.0"))
    || (r.binding.sellerId.Some? && r.binding.sellerId.value != ""
        && Get(body, SELLER_ID) != Str(r.binding.sellerId.value))
    || (r.binding.subagentId.Some? && r.binding.subagentId.value != ""
        && Get(body, SUBAGENT_ID) != Str(r.binding.subagentId.value))
    || (Truthy(Prop(r.binding.verification, DISPLAY_CODE))
        && Prop(Get(body, VERIFICATION), DISPLAY_CODE) != Prop(r.binding.verification, DISPLAY_CODE))
  }

  lemma ContextSays(r: Request, body: Record)
    ensures Differs(r, body) <==> !ContextMatches(r.terms.requestId, r.binding, body)
  {
    hide Get, Prop, Truthy;
  }

  /** The record that each verdict leaves. */
  lemma AppliedSays(h: Host, r: Request, body: Record, attachments: Json)
    ensures var v, after := VerdictOf(h, r, body, attachments), ApplyResult(h, r, body, attachments);
            && (v == None ==> after == r.(resultPackage := Some(body)))
            && (v.Some? && v.value.Rejected? ==> after == Refused(r, body, v.value.reason))
            && (v == Some(Became(SUCCEEDED)) ==>
                  after == r.(resultPackage := Some(body), status := SUCCEEDED, lastError := NoError,
                              timeline := r.timeline + [Became(SUCCEEDED)]))
            && (v == Some(Became(FAILED)) ==>
                  after == r.(resultPackage := Some(body), status := FAILED, timeline := r.timeline + [Became(FAILED)],
                              lastError := Reported(OrElse(Prop(Get(body, ERROR), CODE), Str("EXEC_UNKNOWN")))))
  {
    hide VerdictOf, Get, Prop, OrElse;
  }

  /** The record the ladder leaves, rung by rung. */
  lemma LadderSays(h: Host, r: Request, body: Record, attachments: Json)
    ensures var v, after := VerdictOf(h, r, body, attachments), ApplyResult(h, r, body, attachments);
            if !ContextMatches(r.terms.requestId, r.binding, body)
            then v.Some? && after == Refused(r, body, RESULT_CONTEXT_MISMATCH)
            else if !SignatureOk(h, r.binding, body)
            then v.Some? && after == Refused(r, body, RESULT_SIGNATURE_INVALID)
            else if CheckBindings(h, body, attachments) == Throw
            then v == None && after == r.(resultPackage := Some(body))
            else if CheckBindings(h, body, attachments) == Fail
            then v.Some? && after == Refused(r, body, RESULT_ARTIFACT_INVALID)
            else if Get(body, SCHEMA_VALID) == Bool(false)
            then v.Some? && after == Refused(r, body, RESULT_SCHEMA_INVALID)
            else v.Some? && after ==
                 if Get(body, STATUS) == Str("ok")
                 then r.(resultPackage := Some(body), status := SUCCEEDED, lastError := NoError,
                         timeline := r.timeline + [Became(SUCCEEDED)])
                 else r.(resultPackage := Some(body), status := FAILED, timeline := r.timeline + [Became(FAILED)],
                         lastError := Reported(OrElse(Prop(Get(body, ERROR), CODE), Str("EXEC_UNKNOWN"))))
  {
    hide ContextMatches, SignatureOk, CheckBindings, Get, Prop, OrElse, ApplyResult, Refused;
    AppliedSays(h, r, body, attachments);
  }

  function Refused(r: Request, body: Record, reason: Reason): Request {
    r.(resultPackage := Some(body), status := UNVERIFIED, lastError := Unverifiable(reason),
       timeline := r.timeline + [Rejected(reason)])
  }

  // ----- the other changes -----

  function TimeOut(r: Request, now: int, code: TimeoutCode): Request {
    r.(status := TIMED_OUT, timedOutAt := Some(now), lastError := Timeout(code), needsConfirmation := false)
  }

  /** `new Date(0)` is falsy as a deadline. */
  predicate AckOverdue(r: Request, now: int) {
    && r.status == SENT && r.ackDeadlineAt.Some? && r.ackDeadlineAt.value != 0 && now >= r.ackDeadlineAt.value
    && r.acknowledgedAt == None && r.decision != CONTINUE_WAIT
  }

  function Evaluated(r: Request, now: int, config: Config): Request {
    if Terminal(r.status) then r
    else if AckOverdue(r, now) then TimeOut(r, now, DELIVERY_OR_ACCEPTANCE_TIMEOUT)
    else
      var asked := if config.askByDefault && now >= r.terms.softTimeoutAt && r.decision == PENDING
                   then r.(needsConfirmation := true) else r;
      if config.hardTimeoutAutoFinalize && now >= r.terms.hardTimeoutAt && r.decision != CONTINUE_WAIT
      then TimeOut(asked, now, EXEC_TIMEOUT_HARD)
      else asked
  }

  lemma TerminalIs(s: Status)
    ensures Terminal(s) <==> s != CREATED && s != SENT && s != ACKED
  {
  }

  /** The record that an evaluation leaves, case by case. */
  lemma EvaluatedSays(r: Request, now: int, config: Config)
    ensures var late := r.status == SENT && r.acknowledgedAt == None && r.decision != CONTINUE_WAIT
                        && r.ackDeadlineAt.Some? && r.ackDeadlineAt.value != 0 && r.ackDeadlineAt.value <= now;
            var over := config.hardTimeoutAutoFinalize && r.terms.hardTimeoutAt <= now && r.decision != CONTINUE_WAIT;
            var ask := config.askByDefault && r.terms.softTimeoutAt <= now && r.decision == PENDING;
            Evaluated(r, now, config) ==
            if r.status != CREATED && r.status != SENT && r.status != ACKED then r
            else if late || over then
              r.(status := TIMED_OUT, timedOutAt := Some(now), needsConfirmation := false,
                 lastError := Timeout(if late then DELIVERY_OR_ACCEPTANCE_TIMEOUT else EXEC_TIMEOUT_HARD))
            else r.(needsConfirmation := r.needsConfirmation || ask)
  {
  }

  function SetSent(r: Request, now: int): Request {
    r.(status := SENT, lastError := NoError, sentAt := if r.sentAt == None then Some(now) else r.sentAt,
       ackDeadlineAt := Some(now + r.terms.ackDeadlineS * 1000), timeline := r.timeline + [Became(SENT)])
  }

  function Acknowledge(r: Request, at: Option<int>): Request {
    r.(status := ACKED, acknowledgedAt := at, lastError := NoError, timeline := r.timeline + [Became(ACKED)])
  }

  function FirstOf(a: Option<int>, b: Option<int>): Option<int> {
    if a.Some? then a else b
  }

  function FinishTime(e: Option<PlatformEvent>): Option<int> {
    if e.Some? then FirstOf(e.value.finishedAt, e.value.at) else None
  }

  function Noted(events: seq<PlatformEvent>): PlatformView {
    PlatformView(events, FinishTime(FindEvent(events, Completed)), FinishTime(FindEvent(events, Failed)))
  }

  function ApplyEvents(r: Request, events: seq<PlatformEvent>): Request {
    match FindEvent(events, Acked)
    case Some(ack) =>
      if Terminal(r.status) || r.status == ACKED then r.(platform := Noted(events))
      else Acknowledge(r, ack.at).(ackEtaHintS := ack.etaHintS, platform := Noted(events))
    case None => r.(platform := Noted(events))
  }

  /** What is kept of the platform's events: all of them, and when the request completed or failed. */
  lemma EventsNoted(events: seq<PlatformEvent>)
    ensures var view, done, failed := Noted(events), FindEvent(events, Completed), FindEvent(events, Failed);
            && view.events == events
            && (done.Some? && done.value.finishedAt.Some? ==> view.completedAt == done.value.finishedAt)
            && (done.Some? && done.value.finishedAt == None ==> view.completedAt == done.value.at)
            && (failed.Some? && failed.value.finishedAt.Some? ==> view.failedAt == failed.value.finishedAt)
            && (failed.Some? && failed.value.finishedAt == None ==> view.failedAt == failed.value.at)
            && (done == None ==> view.completedAt == None) && (failed == None ==> view.failedAt == None)
  {
    hide FindEvent;
  }

  lemma EventsSay(r: Request, events: seq<PlatformEvent>)
    ensures var ack := FindEvent(events, Acked);
            ApplyEvents(r, events) ==
            if ack.Some? && !Terminal(r.status) && r.status != ACKED
            then r.(platform := Noted(events), status := ACKED, lastError := NoError, acknowledgedAt := ack.value.at,
                    ackEtaHintS := ack.value.etaHintS, timeline := r.timeline + [Became(ACKED)])
            else r.(platform := Noted(events))
  {
    hide FindEvent, Noted, Terminal;
  }

  function Decide(r: Request, continueWait: bool, now: int): Request {
    var decided := r.(decision := if continueWait then CONTINUE_WAIT else STOP_WAIT, needsConfirmation := false);
    var stopped := if !continueWait && !Terminal(r.status)
                   then decided.(status := TIMED_OUT, lastError := Timeout(EXEC_TIMEOUT_MANUAL_STOP),
                                 timedOutAt := Some(now))
                   else decided;
    stopped.(timeline := r.timeline + [Decided(continueWait)])
  }

  function MarkUnparsable(r: Request): Request {
    r.(status := UNVERIFIED, lastError := Unverifiable(RESULT_BODY_INVALID_JSON),
       timeline := r.timeline + [Rejected(RESULT_BODY_INVALID_JSON)])
  }

  /** prepareBuyerRequest once the platform has answered; a conflicting signer key throws before anything changes. */
  function Prepare(r: Request, sellerId: string, subagentId: string, verification: Json,
                   signer: Option<string>): Request {
    var b := r.binding;
    if b.expectedSigner.Some? && signer.Some? && b.expectedSigner != signer then r
    else r.(binding := Binding(Some(sellerId), Some(subagentId), OrElse(OrElse(verification, b.verification), Null),
                               if b.expectedSigner.Some? then b.expectedSigner else signer),
            lastError := NoError, timeline := r.timeline + [Mark.Prepared])
  }

  function DraftContract(r: Request): Request {
    r.(timeline := r.timeline + [ContractDrafted])
  }

  // ----- the record as the controller mutates it -----

  class RequestRecord {
    const terms: Terms
    var binding: Binding
    var status: Status
    var decision: Decision
    var needsConfirmation: bool
    var timeline: seq<Mark>
    var ackDeadlineAt: Option<int>
    var sentAt: Option<int>
    var acknowledgedAt: Option<int>
    var ackEtaHintS: Option<int>
    var timedOutAt: Option<int>
    var platform: PlatformView
    var resultPackage: Option<Record>
    var lastError: ErrorCode

    function View(): Request
      reads this
    {
      Request(terms, binding, status, decision, needsConfirmation, timeline, ackDeadlineAt, sentAt, acknowledgedAt,
              ackEtaHintS, timedOutAt, platform, resultPackage, lastError)
    }

    constructor (r: Request)
      ensures View() == r
    {
      terms, binding, status, decision := r.terms, r.binding, r.status, r.decision;
      needsConfirmation, timeline, ackDeadlineAt, sentAt := r.needsConfirmation, r.timeline, r.ackDeadlineAt, r.sentAt;
      acknowledgedAt, ackEtaHintS, timedOutAt := r.acknowledgedAt, r.ackEtaHintS, r.timedOutAt;
      platform, resultPackage, lastError := r.platform, r.resultPackage, r.lastError;
    }

    method EvaluateTimeouts(now: int, config: Config) returns (fired: bool)
      modifies this`status, this`timedOutAt, this`lastError, this`needsConfirmation
      ensures View() == Evaluated(old(View()), now, config)
      ensures fired <==> old(status) != status
      ensures fired ==> !Terminal(old(status)) && status == TIMED_OUT && timedOutAt == Some(now) && lastError.Timeout?
      ensures !fired ==> status == old(status) && lastError == old(lastError)
      ensures fired && lastError == Timeout(DELIVERY_OR_ACCEPTANCE_TIMEOUT) <==>
              && old(status) == SENT && acknowledgedAt == None && decision != CONTINUE_WAIT
              && ackDeadlineAt.Some? && ackDeadlineAt.value != 0 && ackDeadlineAt.value <= now
      ensures fired && lastError == Timeout(EXEC_TIMEOUT_HARD) <==>
              && (old(status) == CREATED || old(status) == SENT || old(status) == ACKED)
              && config.hardTimeoutAutoFinalize && terms.hardTimeoutAt <= now && decision != CONTINUE_WAIT
              && !(fired && lastError == Timeout(DELIVERY_OR_ACCEPTANCE_TIMEOUT))
      ensures (old(status) == CREATED || old(status) == SENT || old(status) == ACKED) && !fired ==>
                (needsConfirmation <==>
                   || old(needsConfirmation)
                   || (config.askByDefault && terms.softTimeoutAt <= now && decision == PENDING))
    {
      hide Evaluated, Terminal;
      EvaluatedSays(View(), now, config);
      TerminalIs(status);
      if Terminal(status) {
        return false;
      }
      if status == SENT && ackDeadlineAt.Some? && ackDeadlineAt.value != 0 && now >= ackDeadlineAt.value
         && acknowledgedAt == None && decision != CONTINUE_WAIT {
        status := TIMED_OUT;
        timedOutAt := Some(now);
        lastError := Timeout(DELIVERY_OR_ACCEPTANCE_TIMEOUT);
        needsConfirmation := false;
        return true;
      }
      if config.askByDefault && now >= terms.softTimeoutAt && decision == PENDING {
        needsConfirmation := true;
      }
      if config.hardTimeoutAutoFinalize && now >= terms.hardTimeoutAt && decision != CONTINUE_WAIT {
        status := TIMED_OUT;
        timedOutAt := Some(now);
        lastError := Timeout(EXEC_TIMEOUT_HARD);
        needsConfirmation := false;
        return true;
      }
      return false;
    }

    method MarkUpdated(event: Mark)
      modifies this`timeline
      ensures View() == old(View()).(timeline := old(timeline) + [event])
    {
      timeline := timeline + [event];
    }

    method SetSentState(now: int)
      modifies this`status, this`lastError, this`sentAt, this`ackDeadlineAt, this`timeline
      ensures View() == SetSent(old(View()), now)
      ensures status == SENT && lastError == NoError && timeline == old(timeline) + [Became(SENT)]
      ensures sentAt == if old(sentAt).Some? then old(sentAt) else Some(now)
      ensures ackDeadlineAt == Some(now + terms.ackDeadlineS * 1000)
    {
      ghost var r := View();
      status := SENT;
      lastError := NoError;
      if sentAt == None {
        sentAt := Some(now);
      }
      ackDeadlineAt := Some(now + terms.ackDeadlineS * 1000);
      assert View() == SetSent(r, now).(timeline := r.timeline);
      MarkUpdated(Became(SENT));
    }

    /** applyResultPackage; `threw` when a declared artifact is null. */
    method ApplyResultPackage(h: Host, body: Record, attachments: Json) returns (threw: bool)
      modifies this`status, this`lastError, this`timeline, this`resultPackage
      ensures View() == ApplyResult(h, old(View()), body, attachments)
      ensures threw <==> VerdictOf(h, old(View()), body, attachments) == None
      ensures resultPackage == Some(body)
      ensures if threw then status == old(status) && timeline == old(timeline)
              else Terminal(status) && status != TIMED_OUT
      ensures !threw && lastError == Unverifiable(RESULT_CONTEXT_MISMATCH) <==> Differs(old(View()), body)
    {
      hide ContextMatches, SignatureOk, CheckBindings, Get, Prop, OrElse, VerdictOf, ApplyResult;
      LadderSays(h, View(), body, attachments);
      ContextSays(View(), body);
      hide Differs;
      ghost var r := View();
      threw := false;
      resultPackage := Some(body);
      assert View() == r.(resultPackage := Some(body));
      if !ContextMatches(terms.requestId, binding, body) {
        Refuse(RESULT_CONTEXT_MISMATCH);
        return;
      }
      if !SignatureOk(h, binding, body) {
        Refuse(RESULT_SIGNATURE_INVALID);
        return;
      }
      match CheckBindings(h, body, attachments)
      case Throw =>
        threw := true;
        return;
      case Fail =>
        Refuse(RESULT_ARTIFACT_INVALID);
        return;
      case Pass =>
      if Get(body, SCHEMA_VALID) == Bool(false) {
        Refuse(RESULT_SCHEMA_INVALID);
        return;
      }
      if Get(body, STATUS) == Str("ok") {
        status := SUCCEEDED;
        lastError := NoError;
        MarkUpdated(Became(SUCCEEDED));
        return;
      }
      status := FAILED;
      lastError := Reported(OrElse(Prop(Get(body, ERROR), CODE), Str("EXEC_UNKNOWN")));
      MarkUpdated(Became(FAILED));
    }

    method Refuse(reason: Reason)
      modifies this`status, this`lastError, this`timeline
      ensures View() == old(View()).(status := UNVERIFIED, lastError := Unverifiable(reason),
                                     timeline := old(timeline) + [Rejected(reason)])
    {
      status := UNVERIFIED;
      lastError := Unverifiable(reason);
      MarkUpdated(Rejected(reason));
    }

    method ApplyPlatformEvents(events: seq<PlatformEvent>) returns (acked: bool)
      modifies this`status, this`lastError, this`timeline, this`acknowledgedAt, this`ackEtaHintS, this`platform
      ensures View() == ApplyEvents(old(View()), events)
      ensures acked <==> FindEvent(events, Acked).Some?
      ensures status == if acked && !Terminal(old(status)) then ACKED else old(status)
      ensures acked && !Terminal(old(status)) && old(status) != ACKED ==>
                && acknowledgedAt == FindEvent(events, Acked).value.at && lastError == NoError
                && ackEtaHintS == FindEvent(events, Acked).value.etaHintS
    {
      hide FindEvent, Noted, Terminal, ApplyEvents;
      EventsSay(View(), events);
      ghost var r := View();
      var ackEvent := FindEvent(events, Acked);
      platform := Noted(events);
      acked := ackEvent.Some?;
      if ackEvent.Some? && !Terminal(status) && status != ACKED {
        status := ACKED;
        lastError := NoError;
        acknowledgedAt := ackEvent.value.at;
        ackEtaHintS := ackEvent.value.etaHintS;
        assert View() == ApplyEvents(r, events).(timeline := r.timeline);
        MarkUpdated(Became(ACKED));
      }
    }

    method DecideTimeout(continueWait: bool, now: int)
      modifies this`status, this`lastError, this`timeline, this`timedOutAt, this`decision, this`needsConfirmation
      ensures View() == Decide(old(View()), continueWait, now)
      ensures if Terminal(old(status)) || continueWait then status == old(status) && lastError == old(lastError)
              else status == TIMED_OUT && lastError == Timeout(EXEC_TIMEOUT_MANUAL_STOP) && timedOutAt == Some(now)
      ensures decision == (if continueWait then CONTINUE_WAIT else STOP_WAIT) && !needsConfirmation
      ensures timeline == old(timeline) + [Decided(continueWait)]
    {
      hide Terminal;
      ghost var r := View();
      decision := if continueWait then CONTINUE_WAIT else STOP_WAIT;
      needsConfirmation := false;
      if !continueWait && !Terminal(status) {
        status := TIMED_OUT;
        lastError := Timeout(EXEC_TIMEOUT_MANUAL_STOP);
        timedOutAt := Some(now);
      }
      assert View() == Decide(r, continueWait, now).(timeline := r.timeline);
      MarkUpdated(Decided(continueWait));
    }
  }
}
