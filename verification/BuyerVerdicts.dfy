/** When exactly the buyer accepts a result, refuses it or gives up waiting, in the fields of request and package. */
module BuyerVerdicts {
  import opened Wrappers
  import opened Json
  import opened Contracts
  import opened BuyerRequest
  import opened BuyerMachine

  /** The values that a condition takes for false. */
  ghost predicate Falsy(v: Json) {
    v == Undefined || v == Null || v == Bool(false) || v == Num(0) || v == Str("")
  }

  // ----- the context -----

  /** A result is a mismatch if and only if one of five properties of its package is not what the request expects. */
  lemma MismatchIff(h: Host, r: Request, body: Record, attachments: Json)
    ensures VerdictOf(h, r, body, attachments) == Some(Rejected(RESULT_CONTEXT_MISMATCH)) <==>
            || Get(body, REQUEST_ID) != Str(r.terms.requestId)
            || (Get(body, RESULT_VERSION).Str? && Get(body, RESULT_VERSION) != Str("0.1.0"))
            || (r.binding.sellerId.Some? && r.binding.sellerId.value != ""
                && Get(body, SELLER_ID) != Str(r.binding.sellerId.value))
            || (r.binding.subagentId.Some? && r.binding.subagentId.value != ""
                && Get(body, SUBAGENT_ID) != Str(r.binding.subagentId.value))
            || (!Falsy(Prop(r.binding.verification, DISPLAY_CODE))
                && Prop(Get(body, VERIFICATION), DISPLAY_CODE) != Prop(r.binding.verification, DISPLAY_CODE))
  {
    hide SignatureOk, CheckBindings, Get, Prop;
  }

  // ----- the signature -----

  /** A text holds the bytes it is the base64 of; what an array or an object holds is the host's to say. */
  ghost predicate Decodes(h: Host, v: Json, bytes: Bytes) {
    || (v.Str? && bytes == h.fromBase64(v.s))
    || ((v.Arr? || v.Obj?) && h.bufferOf(v) == Some(bytes))
  }

  lemma DecodesIff(h: Host, v: Json)
    ensures BufferOf(h, v).Some? ==> Decodes(h, v, BufferOf(h, v).value)
    ensures forall bytes :: Decodes(h, v, bytes) ==> BufferOf(h, v) == Some(bytes)
  {
  }

  /** Unsigned and not said to be invalid, or signed by the pinned key over the bytes recomputed from the package. */
  ghost predicate Authentic(h: Host, r: Request, body: Record) {
    var signature, pin := Get(body, SIGNATURE_BASE64), r.binding.expectedSigner;
    || (Falsy(signature) && Get(body, SIGNATURE_VALID) != Bool(false))
    || (!Falsy(signature) && pin.Some? && pin.value != ""
        && exists bytes :: Decodes(h, signature, bytes) && h.verify(pin.value, CanonicalOf(body), bytes))
  }

  lemma AuthenticIff(h: Host, r: Request, body: Record)
    ensures Authentic(h, r, body) <==> SignatureOk(h, r.binding, body)
  {
    hide CanonicalOf, BufferOf, Get, Decodes;
    DecodesIff(h, Get(body, SIGNATURE_BASE64));
  }

  // ----- the artifacts -----

  /** The first attachment of the artifact's name, before which nothing is null. */
  ghost predicate Found(items: seq<Json>, artifact: Json, j: int) {
    && 0 <= j < |items| && !artifact.Null? && !artifact.Undefined?
    && (forall k | 0 <= k <= j :: !items[k].Null? && !items[k].Undefined?)
    && SameValue(Prop(items[j], NAME), Prop(artifact, NAME))
    && forall k | 0 <= k < j :: !SameValue(Prop(items[k], NAME), Prop(artifact, NAME))
  }

  /** Type, size and digest are as declared, as far as they are declared. */
  ghost predicate AsDeclared(h: Host, artifact: Json, item: Json) {
    var mediaType, size, digest := Prop(artifact, MEDIA_TYPE), Prop(artifact, BYTE_SIZE), Prop(artifact, SHA256);
    var actual, content := Prop(item, BYTE_SIZE), Prop(item, CONTENT_BASE64);
    && !Falsy(item)
    && (Falsy(mediaType) || SameValue(Prop(item, MEDIA_TYPE), mediaType))
    && !Unconvertible(size)
    && (h.numberOf(size) == None || (!Unconvertible(actual) && h.numberOf(actual) == h.numberOf(size)))
    && (Falsy(digest)
        || exists bytes :: Decodes(h, if Falsy(content) then Str("") else content, bytes)
                           && digest == Str(h.sha256(bytes)))
  }

  lemma {:induction false} FoundIff(items: seq<Json>, artifact: Json, j: nat)
    requires j < |items|
    ensures Found(items, artifact, j) ==> FindAttachment(items, artifact) == Hit(items[j])
  {
    hide Prop, SameValue;
    if Found(items, artifact, j) && j > 0 {
      assert Found(items[1..], artifact, j - 1);
      FoundIff(items[1..], artifact, j - 1);
    }
  }

  lemma {:induction false} HitIsFound(items: seq<Json>, artifact: Json) returns (j: nat)
    requires FindAttachment(items, artifact).Hit?
    ensures j < |items| && Found(items, artifact, j) && FindAttachment(items, artifact) == Hit(items[j])
  {
    hide Prop, SameValue;
    if SameName(items[0], artifact) {
      j := 0;
    } else {
      j := HitIsFound(items[1..], artifact);
      j := j + 1;
    }
  }

  lemma ItemPassesIff(h: Host, artifact: Json, items: seq<Json>, item: Json)
    requires FindAttachment(items, artifact) == Hit(item)
    ensures CheckArtifact(h, artifact, items) == Pass <==> AsDeclared(h, artifact, item)
  {
    hide Prop, SameValue, FindAttachment, BufferOf, Decodes;
    DecodesIff(h, OrElse(Prop(item, CONTENT_BASE64), Str("")));
    assert Falsy(Prop(item, CONTENT_BASE64)) <==> !Truthy(Prop(item, CONTENT_BASE64));
  }

  /** An artifact passes if and only if the first attachment of its name is as declared. */
  lemma ArtifactPassesIff(h: Host, artifact: Json, items: seq<Json>)
    ensures CheckArtifact(h, artifact, items) == Pass <==>
            exists j | 0 <= j < |items| :: Found(items, artifact, j) && AsDeclared(h, artifact, items[j])
  {
    hide AsDeclared, Found;
    if FindAttachment(items, artifact).Hit? {
      var j := HitIsFound(items, artifact);
      ItemPassesIff(h, artifact, items, items[j]);
      hide FindAttachment, CheckArtifact;
      forall i | 0 <= i < |items| && Found(items, artifact, i) && AsDeclared(h, artifact, items[i])
        ensures CheckArtifact(h, artifact, items) == Pass
      {
        FoundIff(items, artifact, i);
      }
    } else {
      forall i | 0 <= i < |items| && Found(items, artifact, i) ensures false {
        FoundIff(items, artifact, i);
      }
    }
  }

  /** Nothing declared and nothing attached, or every declared artifact attached as declared. */
  ghost predicate Attached(h: Host, body: Record, attachments: Json) {
    var declared := Get(body, ARTIFACTS);
    if declared.Arr? && declared.items != [] then
      && attachments.Arr?
      && forall i | 0 <= i < |declared.items| ::
           exists j | 0 <= j < |attachments.items| ::
             Found(attachments.items, declared.items[i], j)
             && AsDeclared(h, declared.items[i], attachments.items[j])
    else
      !attachments.Null? && !attachments.Undefined? && LengthOf(attachments) == Num(0)
  }

  lemma {:induction false} AllPassIff(h: Host, declared: seq<Json>, items: seq<Json>)
    ensures CheckArtifacts(h, declared, items) == Pass <==>
            forall i | 0 <= i < |declared| :: CheckArtifact(h, declared[i], items) == Pass
  {
    hide CheckArtifact;
    if declared != [] {
      AllPassIff(h, declared[1..], items);
      assert forall i | 1 <= i < |declared| :: declared[i] == declared[1..][i - 1];
    }
  }

  lemma AttachedIff(h: Host, body: Record, attachments: Json)
    ensures Attached(h, body, attachments) <==> CheckBindings(h, body, attachments) == Pass
  {
    hide CheckArtifact, Found, AsDeclared, LengthOf, Get;
    if attachments.Arr? && DeclaredIn(body) != [] {
      AllPassIff(h, DeclaredIn(body), attachments.items);
      forall i | 0 <= i < |DeclaredIn(body)|
        ensures CheckArtifact(h, DeclaredIn(body)[i], attachments.items) == Pass <==>
                exists j | 0 <= j < |attachments.items| ::
                  Found(attachments.items, DeclaredIn(body)[i], j)
                  && AsDeclared(h, DeclaredIn(body)[i], attachments.items[j])
      {
        ArtifactPassesIff(h, DeclaredIn(body)[i], attachments.items);
      }
    }
  }

  // ----- the whole ladder -----

  /** Each verdict, if and only if the checks before it pass and its own does not. */
  lemma VerdictIff(h: Host, r: Request, body: Record, attachments: Json)
    ensures var v, schemaValid := VerdictOf(h, r, body, attachments), Get(body, SCHEMA_VALID) != Bool(false);
            && (v == Some(Rejected(RESULT_CONTEXT_MISMATCH)) <==> Differs(r, body))
            && (v == Some(Rejected(RESULT_SIGNATURE_INVALID)) <==> !Differs(r, body) && !Authentic(h, r, body))
            && (v == None <==> !Differs(r, body) && Authentic(h, r, body) && BindingsThrow(h, body, attachments))
            && (v == Some(Rejected(RESULT_ARTIFACT_INVALID)) <==>
                  && !Differs(r, body) && Authentic(h, r, body)
                  && !Attached(h, body, attachments) && !BindingsThrow(h, body, attachments))
            && (v == Some(Rejected(RESULT_SCHEMA_INVALID)) <==>
                  !Differs(r, body) && Authentic(h, r, body) && Attached(h, body, attachments) && !schemaValid)
            && (v == Some(Became(SUCCEEDED)) <==>
                  && !Differs(r, body) && Authentic(h, r, body) && Attached(h, body, attachments) && schemaValid
                  && Get(body, STATUS) == Str("ok"))
            && (v == Some(Became(FAILED)) <==>
                  && !Differs(r, body) && Authentic(h, r, body) && Attached(h, body, attachments) && schemaValid
                  && Get(body, STATUS) != Str("ok"))
  {
    hide Differs, Authentic, Attached, BindingsThrow, ContextMatches, SignatureOk, CheckBindings, Get;
    ContextSays(r, body);
    AuthenticIff(h, r, body);
    AttachedIff(h, body, attachments);
    ThrowsIff(h, body, attachments);
  }

  // ----- over runs -----

  /** The package and attachments that a change brings, and that are tested against the request. */
  ghost predicate Brings(c: Change, body: Record, attachments: Json) {
    || (c == PostResult(Some(body)) && attachments == Arr([]))
    || (c == LateResult(Some(body)) && attachments == Arr([]))
    || c == InboxResult(body, attachments)
  }

  ghost predicate Concluded(r: Request) {
    r.status == SUCCEEDED || r.status == FAILED
  }

  /** Such a package, on which the request concludes, fits it in every respect. */
  ghost predicate Fits(h: Host, r: Request, body: Record, attachments: Json, status: Status) {
    && !Differs(r, body) && Authentic(h, r, body) && Attached(h, body, attachments)
    && Get(body, SCHEMA_VALID) != Bool(false) && (status == SUCCEEDED <==> Get(body, STATUS) == Str("ok"))
  }

  lemma AppliedConcludes(h: Host, r: Request, body: Record, attachments: Json)
    ensures var after := ApplyResult(h, r, body, attachments);
            && after.resultPackage == Some(body)
            && (Concluded(after) ==> VerdictOf(h, r, body, attachments) == None
                                     || Fits(h, r, body, attachments, after.status))
  {
    VerdictIff(h, r, body, attachments);
    hide VerdictOf, Differs, Authentic, Attached, BindingsThrow, Get;
  }

  lemma QuietConcludesNothing(h: Host, r: Request, c: Change)
    requires !IsResult(c) || c.InboxUnparsable? || c == PostResult(None) || c == LateResult(None)
    ensures var after := Apply(h, r, c);
            && (Concluded(after) ==> after.status == r.status)
            && (after.resultPackage.Some? && Concluded(after) ==> after.resultPackage == r.resultPackage)
  {
    if !IsResult(c) {
      QuietChange(h, r, c);
    }
  }

  ghost predicate ConcludesNow(h: Host, r: Request, c: Change, after: Request) {
    exists body, attachments ::
      && Brings(c, body, attachments) && Fits(h, r, body, attachments, after.status)
      && after.resultPackage == Some(body)
  }

  /**
   A change either leaves a request as it had concluded, apart from a posted `null` that takes its package, or brings
   a package that fits it.
   */
  lemma StepConcludes(h: Host, r: Request, c: Change)
    requires Concluded(Apply(h, r, c))
    ensures var after := Apply(h, r, c);
            || (after.status == r.status && (after.resultPackage.Some? ==> after.resultPackage == r.resultPackage))
            || ConcludesNow(h, r, c, after)
  {
    hide VerdictOf, Fits;
    match c
    case PostResult(Some(body)) => AppliedConcludes(h, r, body, NO_ATTACHMENTS); PostedConcludes(h, r, body);
    case LateResult(Some(body)) => AppliedConcludes(h, r, body, NO_ATTACHMENTS); PostedConcludes(h, r, body);
    case InboxResult(body, attachments) => AppliedConcludes(h, r, body, attachments);
    case _ => QuietConcludesNothing(h, r, c);
  }

  /**
   Over every run: a request that is SUCCEEDED or FAILED became so on a package that agreed with it on the request,
   the version, and the seller, subagent and display code it was bound to, and it has held no other package since.
   */
  lemma {:induction false} ConcludedOnAgreement(h: Host, states: seq<Requests>, events: seq<Event>, i: nat, id: string)
      returns (k: nat, body: Record, attachments: Json)
    requires IsRun(h, states, events) && i < |states| && id in states[i] && Concluded(states[i][id])
    ensures k < i && events[k].Touch? && events[k].id == id && id in states[k]
    ensures Brings(events[k].change, body, attachments)
    ensures Fits(h, states[k][id], body, attachments, states[i][id].status)
    ensures states[i][id].resultPackage.Some? ==> states[i][id].resultPackage == Some(body)
  {
    hide Apply, Fits, Brings;
    assert i > 0;
    assert Next(h, states[i - 1], events[i - 1], states[i]);
    if events[i - 1].Touch? && events[i - 1].id == id {
      StepConcludes(h, states[i - 1][id], events[i - 1].change);
      if ConcludesNow(h, states[i - 1][id], events[i - 1].change, states[i][id]) {
        body, attachments :|
          && Brings(events[i - 1].change, body, attachments)
          && Fits(h, states[i - 1][id], body, attachments, states[i][id].status)
          && states[i][id].resultPackage == Some(body);
        k := i - 1;
      } else {
        k, body, attachments := ConcludedOnAgreement(h, states, events, i - 1, id);
      }
    } else {
      k, body, attachments := ConcludedOnAgreement(h, states, events, i - 1, id);
    }
  }

  // ----- sending, acknowledging and preparing -----

  /** Sending and acknowledging move every active request and no other; only sending sets a deadline. */
  lemma RoutesMoveIff(h: Host, r: Request, now: int)
    ensures var sent, acked := Apply(h, r, MarkSent(now)), Apply(h, r, AckRoute(now));
            var active := r.status == CREATED || r.status == SENT || r.status == ACKED;
            && (sent.status == SENT && sent.timeline == r.timeline + [Became(SENT)] <==> active)
            && (acked.status == ACKED && acked.timeline == r.timeline + [Became(ACKED)] <==> active)
            && (!active ==> sent == r && acked == r)
            && (active ==> sent.ackDeadlineAt == Some(now + r.terms.ackDeadlineS * 1000) && sent.lastError == NoError)
            && (active ==> sent.sentAt == (if r.sentAt == None then Some(now) else r.sentAt))
            && (active ==> acked.acknowledgedAt == Some(now) && acked.lastError == NoError)
            && sent.acknowledgedAt == r.acknowledgedAt && acked.ackDeadlineAt == r.ackDeadlineAt
            && acked.sentAt == r.sentAt
  {
  }

  /**
   Preparing binds a request to the seller and subagent it is given, unless they come with another key than the one
   that is pinned; a key that is pinned stays, and the first one that is given becomes so.
   */
  lemma PreparesIff(h: Host, r: Request, sellerId: string, subagentId: string, verification: Json,
                    signer: Option<string>)
    ensures var after, pin := Apply(h, r, PrepareRoute(sellerId, subagentId, verification, signer)),
                              r.binding.expectedSigner;
            && (after == r <==> pin.Some? && signer.Some? && pin.value != signer.value)
            && (after != r ==>
                  && after.binding.sellerId == Some(sellerId) && after.binding.subagentId == Some(subagentId)
                  && after.binding.expectedSigner == (if pin.Some? then pin else signer)
                  && (!Falsy(verification) ==> after.binding.verification == verification)
                  && (Falsy(verification) && !Falsy(r.binding.verification) ==>
                        after.binding.verification == r.binding.verification)
                  && after.status == r.status && after.lastError == NoError)
  {
    var prepared := r.timeline + [Mark.Prepared];
    assert |prepared| == |r.timeline| + 1;
  }

  // ----- timeouts -----

  /** When evaluating a request ends it, with which code, and when it only asks its user. */
  lemma EvaluationIff(h: Host, r: Request, now: int, config: Config)
    ensures var after := Apply(h, r, Evaluate(now, config));
            var active := r.status == CREATED || r.status == SENT || r.status == ACKED;
            var late := r.status == SENT && r.ackDeadlineAt.Some? && r.ackDeadlineAt.value != 0
                        && r.ackDeadlineAt.value <= now && r.acknowledgedAt == None && r.decision != CONTINUE_WAIT;
            var over := config.hardTimeoutAutoFinalize && r.terms.hardTimeoutAt <= now && r.decision != CONTINUE_WAIT;
            && (!active ==> after == r)
            && (active ==>
                  && (after.status == TIMED_OUT && after.lastError == Timeout(DELIVERY_OR_ACCEPTANCE_TIMEOUT) <==> late)
                  && (after.status == TIMED_OUT && after.lastError == Timeout(EXEC_TIMEOUT_HARD) <==> over && !late)
                  && (late || over ==>
                        after == r.(status := TIMED_OUT, timedOutAt := Some(now), lastError := after.lastError,
                                    needsConfirmation := false))
                  && (!late && !over ==>
                        && (after.needsConfirmation <==>
                              || r.needsConfirmation
                              || (config.askByDefault && r.terms.softTimeoutAt <= now && r.decision == PENDING))
                        && after == r.(needsConfirmation := after.needsConfirmation)))
  {
  }

  /** Not SENT and unacknowledged past a deadline at or before t, unless told to wait; a deadline of 0 is none. */
  ghost predicate NotLate(r: Request, t: int) {
    (&& r.status == SENT && r.acknowledgedAt == None
     && r.ackDeadlineAt.Some? && r.ackDeadlineAt.value != 0 && r.ackDeadlineAt.value <= t)
    ==> r.decision == CONTINUE_WAIT
  }

  /** Sending again gives a deadline past t. */
  ghost predicate SentPast(r: Request, c: Change, t: int) {
    c.MarkSent? ==> c.now + r.terms.ackDeadlineS * 1000 > t
  }

  lemma ApplyKeepsNotLate(h: Host, r: Request, c: Change, t: int)
    requires NotLate(r, t) && SentPast(r, c, t)
    ensures NotLate(Apply(h, r, c), t)
  {
    if IsResult(c) {
      match c
      case PostResult(Some(body)) => VerdictIsVerdict(h, r, body, NO_ATTACHMENTS);
      case LateResult(Some(body)) => VerdictIsVerdict(h, r, body, NO_ATTACHMENTS);
      case InboxResult(body, attachments) => VerdictIsVerdict(h, r, body, attachments);
      case _ =>
      hide VerdictOf;
    }
  }

  lemma EvaluatedNotLate(h: Host, r: Request, now: int, config: Config, t: int)
    requires now >= t
    ensures NotLate(Apply(h, r, Evaluate(now, config)), t)
  {
  }

  /** What is sent between states i and j is given a deadline past t. */
  ghost predicate AllSentPast(states: seq<Requests>, events: seq<Event>, i: nat, j: nat, t: int)
    requires |states| == |events| + 1 && i <= j < |states|
  {
    forall k {:trigger events[k]} | i <= k < j && events[k].Touch? && events[k].id in states[k] ::
      SentPast(states[k][events[k].id], events[k].change, t)
  }

  /** It is evaluated between states i and j, at a time not before t. */
  ghost predicate Visited(events: seq<Event>, i: nat, j: nat, id: string, t: int)
    requires i <= j <= |events|
  {
    exists k :: i <= k < j && events[k].Touch? && events[k].id == id && events[k].change.Evaluate?
                && events[k].change.now >= t
  }

  lemma FreshAt(states: seq<Requests>, events: seq<Event>, k: nat)
    requires FreshIds(states, events) && k < |events| && events[k].Create?
    ensures events[k].r.terms.requestId !in states[k]
  {
  }

  lemma {:induction false} NotLateStays(h: Host, states: seq<Requests>, events: seq<Event>, i: nat, j: nat, id: string,
                                        t: int)
    requires IsRun(h, states, events) && FreshIds(states, events) && i <= j < |states|
    requires AllSentPast(states, events, i, j, t)
    requires id in states[i] && NotLate(states[i][id], t)
    ensures id in states[j] && NotLate(states[j][id], t)
  {
    if i < j {
      hide Apply, NotLate, SentPast, FreshIds;
      assert events[j - 1] == events[j - 1] && AllSentPast(states, events, i, j - 1, t);
      if events[j - 1].Create? {
        FreshAt(states, events, j - 1);
      }
      NotLateStays(h, states, events, i, j - 1, id, t);
      assert Next(h, states[j - 1], events[j - 1], states[j]);
      if events[j - 1].Touch? && events[j - 1].id == id {
        ApplyKeepsNotLate(h, states[j - 1][id], events[j - 1].change, t);
      }
    }
  }

  lemma VisitedNotLate(h: Host, states: seq<Requests>, events: seq<Event>, i: nat, j: nat, id: string, t: int)
    requires IsRun(h, states, events) && FreshIds(states, events) && i <= j < |states|
    requires id in states[i] && Visited(events, i, j, id, t) && AllSentPast(states, events, i, j, t)
    ensures id in states[j] && NotLate(states[j][id], t)
  {
    hide Apply, NotLate, FreshIds, SentPast, AllSentPast;
    var k :| i <= k < j && events[k].Touch? && events[k].id == id && events[k].change.Evaluate?
             && events[k].change.now >= t;
    RequestsStay(h, states, events, i, k, id);
    assert Next(h, states[k], events[k], states[k + 1]);
    EvaluatedNotLate(h, states[k][id], events[k].change.now, events[k].change.config, t);
    SentPastLater(states, events, i, j, k + 1, t);
    NotLateStays(h, states, events, k + 1, j, id, t);
  }

  lemma SentPastLater(states: seq<Requests>, events: seq<Event>, i: nat, j: nat, k: nat, t: int)
    requires |states| == |events| + 1 && i <= k <= j < |states| && AllSentPast(states, events, i, j, t)
    ensures AllSentPast(states, events, k, j, t)
  {
    hide SentPast;
  }

  /**
   After a pass that, between states i and j, evaluates every request of state i at a time not before t, none of them
   is still SENT and unacknowledged past a deadline at or before t, unless told to go on waiting; whatever is sent
   meanwhile is given a deadline past t.
   */
  lemma PassLeavesNoneLate(h: Host, states: seq<Requests>, events: seq<Event>, i: nat, j: nat, t: int)
    requires IsRun(h, states, events) && FreshIds(states, events) && i <= j < |states|
    requires forall id | id in states[i] :: Visited(events, i, j, id, t)
    requires AllSentPast(states, events, i, j, t)
    ensures forall id | id in states[i] :: id in states[j] && NotLate(states[j][id], t)
  {
    hide *;
    forall id | id in states[i] ensures id in states[j] && NotLate(states[j][id], t) {
      VisitedNotLate(h, states, events, i, j, id, t);
    }
  }
}
