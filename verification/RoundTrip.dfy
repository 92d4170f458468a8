/**
 From the buyer's dispatch through the seller's execution and signature back to the buyer's verdict:
 the verdict is the outcome of the execution, case by case.
 */
module RoundTrip {
  import opened Wrappers
  import opened Json
  import opened Contracts
  import opened SellerResult
  import opened ResultContents
  import opened SellerStore
  import opened BuyerRequest
  import opened Hub

  /** The receiver name of the buyer, which it also puts into `from`. */
  const BUYER := "buyer-controller"

  datatype Identity = Identity(sellerId: string, subagentIds: seq<string>)

  /** buildDispatchEnvelope */
  function DispatchEnvelope(r: Request, messageId: string, priority: int, route: Route): Message {
    Message(messageId, r.terms.requestId,
            TaskRequested(r.binding.sellerId, r.binding.subagentId, OrElse(r.binding.verification, Null), priority,
                          route))
  }

  /** createTaskRecord for an envelope from the inbox. */
  function TaskOf(identity: Identity, id: TaskId, now: int, m: Message): Task
    requires m.payload.TaskRequested?
  {
    var sellerId := if Given(m.payload.sellerId) then m.payload.sellerId.value else identity.sellerId;
    var subagentId := if Given(m.payload.subagentId) then m.payload.subagentId.value
                      else if identity.subagentIds != [] then identity.subagentIds[0] else "";
    Task(id, if m.payload.priority == 0 then 5 else m.payload.priority, now, QUEUED, false, None,
         TaskInfo(m.requestId, sellerId, subagentId, m.payload.verification, now),
         Route(m.payload.route.address, if m.payload.route.sender != "" then m.payload.route.sender else BUYER))
  }

  function AttachmentOf(a: Artifact): Json {
    Obj(map[NAME := Str(a.name), MEDIA_TYPE := Str(a.mediaType), CONTENT_BASE64 := Str(a.contentBase64),
            BYTE_SIZE := Num(a.byteSize)])
  }

  function AttachedItems(artifacts: seq<Artifact>): (r: seq<Json>)
    ensures |r| == |artifacts|
  {
    seq(|artifacts|, i requires 0 <= i < |artifacts| => AttachmentOf(artifacts[i]))
  }

  /** The attachments of sendResultEnvelope. */
  function AttachmentsOf(artifacts: seq<Artifact>): Json {
    Arr(AttachedItems(artifacts))
  }

  // ----- artifact bindings -----

  ghost predicate Materialized(h: Host, a: Artifact) {
    a.mediaType != "" && a.sha256 != "" && a.sha256 == h.sha256(h.fromBase64(a.contentBase64))
  }

  predicate SameContent(a: Artifact, b: Artifact) {
    a.mediaType == b.mediaType && a.byteSize == b.byteSize && a.sha256 == b.sha256
  }

  /** Artifacts of one name are indistinguishable; in particular it holds when names are distinct. */
  predicate NamesAgree(artifacts: seq<Artifact>) {
    forall i, j | 0 <= i < j < |artifacts| ::
      artifacts[i].name == artifacts[j].name ==> SameContent(artifacts[i], artifacts[j])
  }

  lemma {:induction false} FindsFirst(items: seq<Json>, artifact: Json, j: nat)
    requires j < |items| && SameName(items[j], artifact) && !IsNull(artifact)
    requires forall k | 0 <= k <= j :: !IsNull(items[k])
    requires forall k | 0 <= k < j :: !SameName(items[k], artifact)
    ensures FindAttachment(items, artifact) == Hit(items[j])
  {
    hide SameName;
    if j > 0 {
      FindsFirst(items[1..], artifact, j - 1);
    }
  }

  lemma AttachmentSays(a: Artifact)
    ensures var item := AttachmentOf(a);
            && Prop(item, NAME) == Str(a.name) && Prop(item, MEDIA_TYPE) == Str(a.mediaType)
            && Prop(item, BYTE_SIZE) == Num(a.byteSize) && Prop(item, CONTENT_BASE64) == Str(a.contentBase64)
            && Truthy(item) && !IsNull(item)
  {
  }

  function FirstNamed(artifacts: seq<Artifact>, name: string): (j: nat)
    ensures (exists a :: a in artifacts && a.name == name) ==> j < |artifacts| && artifacts[j].name == name
    ensures forall k | 0 <= k < j && k < |artifacts| :: artifacts[k].name != name
  {
    if artifacts == [] || artifacts[0].name == name then 0 else FirstNamed(artifacts[1..], name) + 1
  }

  lemma SameNamed(a: Artifact, b: Artifact)
    ensures SameName(AttachmentOf(b), Declared(a)) <==> b.name == a.name
    ensures !IsNull(Declared(a))
  {
    AttachmentSays(b);
    DeclaredProps(a);
    hide AttachmentOf, Prop;
  }

  /** A declared artifact is checked against the first attachment of its name. */
  lemma CheckDeclared(h: Host, artifacts: seq<Artifact>, i: nat)
    requires h.Lawful() && i < |artifacts| && forall a | a in artifacts :: Materialized(h, a)
    ensures var j := FirstNamed(artifacts, artifacts[i].name);
            && j <= i
            && CheckArtifact(h, Declared(artifacts[i]), AttachedItems(artifacts)) ==
               if SameContent(artifacts[j], artifacts[i]) then Pass else Fail
  {
    var a := artifacts[i];
    assert a in artifacts;
    var j := FirstNamed(artifacts, a.name);
    assert artifacts[j] in artifacts;
    var items := AttachedItems(artifacts);
    forall k | 0 <= k < |artifacts|
      ensures !IsNull(items[k]) && (SameName(items[k], Declared(a)) <==> artifacts[k].name == a.name)
    {
      AttachmentSays(artifacts[k]);
      SameNamed(a, artifacts[k]);
    }
    hide AttachmentOf, Declared, SameName, IsNull;
    SameNamed(a, a);
    FindsFirst(items, Declared(a), j);
    hide FindAttachment, FirstNamed, CheckArtifact;
    CheckAgainst(h, a, artifacts[j], items);
  }

  lemma CheckAgainst(h: Host, a: Artifact, b: Artifact, items: seq<Json>)
    requires h.Lawful() && Materialized(h, a) && Materialized(h, b)
    requires FindAttachment(items, Declared(a)) == Hit(AttachmentOf(b))
    ensures CheckArtifact(h, Declared(a), items) == if SameContent(b, a) then Pass else Fail
  {
    DeclaredProps(a);
    AttachmentSays(b);
    SizesAgree(h, a.byteSize, b.byteSize);
    DigestsAgree(h, a, b);
    hide Declared, AttachmentOf, Prop, FindAttachment, CheckSize, CheckDigest;
  }

  lemma SizesAgree(h: Host, declared: int, actual: int)
    requires h.Lawful()
    ensures CheckSize(h, Num(declared), Num(actual)) == if declared == actual then Pass else Fail
  {
    assert h.numberOf(Num(declared)) == Some(declared) && h.numberOf(Num(actual)) == Some(actual);
  }

  lemma DigestsAgree(h: Host, a: Artifact, b: Artifact)
    requires Materialized(h, a) && Materialized(h, b)
    ensures CheckDigest(h, Str(a.sha256), Str(b.contentBase64)) == if a.sha256 == b.sha256 then Pass else Fail
  {
  }

  lemma DeclaredProps(a: Artifact)
    ensures var d := Declared(a);
            && Prop(d, NAME) == Str(a.name) && Prop(d, MEDIA_TYPE) == Str(a.mediaType)
            && Prop(d, BYTE_SIZE) == Num(a.byteSize) && Prop(d, SHA256) == Str(a.sha256)
  {
  }

  lemma {:induction false} CheckAll(h: Host, declared: seq<Json>, attachments: seq<Json>)
    requires forall d | d in declared :: CheckArtifact(h, d, attachments) != Throw
    ensures CheckArtifacts(h, declared, attachments) ==
            if forall d | d in declared :: CheckArtifact(h, d, attachments) == Pass then Pass else Fail
  {
    hide CheckArtifact;
    if declared != [] {
      assert declared == [declared[0]] + declared[1..];
      CheckAll(h, declared[1..], attachments);
    }
  }

  /** Every artifact has the content of the first of its name. */
  ghost predicate LikeTheFirst(artifacts: seq<Artifact>, i: nat)
    requires i < |artifacts|
  {
    var j := FirstNamed(artifacts, artifacts[i].name);
    j < |artifacts| && SameContent(artifacts[j], artifacts[i])
  }

  lemma NamesAgreeIff(artifacts: seq<Artifact>)
    ensures NamesAgree(artifacts) <==> forall i | 0 <= i < |artifacts| :: LikeTheFirst(artifacts, i)
  {
    forall i | 0 <= i < |artifacts|
      ensures var j := FirstNamed(artifacts, artifacts[i].name); j <= i && artifacts[j].name == artifacts[i].name
    {
      assert artifacts[i] in artifacts;
    }
    if forall i | 0 <= i < |artifacts| :: LikeTheFirst(artifacts, i) {
      forall i, j | 0 <= i < j < |artifacts| && artifacts[i].name == artifacts[j].name
        ensures SameContent(artifacts[i], artifacts[j])
      {
        assert LikeTheFirst(artifacts, i) && LikeTheFirst(artifacts, j);
      }
    }
  }

  /** The bindings of a materialized artifact list verify exactly when equal names mean equal content. */
  lemma BindingsIff(h: Host, artifacts: seq<Artifact>)
    requires h.Lawful() && forall a | a in artifacts :: Materialized(h, a)
    ensures CheckArtifacts(h, DeclaredAll(artifacts), AttachedItems(artifacts)) ==
            if NamesAgree(artifacts) then Pass else Fail
  {
    var declared, attachments := DeclaredAll(artifacts), AttachedItems(artifacts);
    forall i: nat | i < |artifacts|
      ensures CheckArtifact(h, declared[i], attachments) == if LikeTheFirst(artifacts, i) then Pass else Fail
    {
      CheckDeclared(h, artifacts, i);
    }
    NamesAgreeIff(artifacts);
    hide CheckArtifact, Declared, DeclaredAll, AttachedItems, NamesAgree, LikeTheFirst, Materialized;
    CheckAll(h, declared, attachments);
    if forall d | d in declared :: CheckArtifact(h, d, attachments) == Pass {
      forall i: nat | i < |artifacts| ensures LikeTheFirst(artifacts, i) {
        assert declared[i] in declared;
      }
    }
  }

  lemma MaterializedOk(h: Host, artifacts: seq<ExecArtifact>)
    requires h.Lawful()
    ensures forall a | a in MaterializeArtifacts(h, artifacts) :: Materialized(h, a)
  {
    forall a | a in MaterializeArtifacts(h, artifacts) ensures Materialized(h, a) {
      var i :| 0 <= i < |artifacts| && a == Materialize(h, artifacts[i], i);
      assert h.fromBase64(h.toBase64(ContentBytes(h, artifacts[i]))) == ContentBytes(h, artifacts[i]);
    }
  }

  // ----- the expected verdict -----

  function ArtifactsIn(h: Host, e: Execution): seq<Artifact> {
    if e.Execution? && e.artifacts.Some? then MaterializeArtifacts(h, e.artifacts.value) else []
  }

  /** What the buyer should conclude, read off the execution alone. */
  function ExpectedVerdict(h: Host, limit: nat, e: Execution): Mark {
    var artifacts := ArtifactsIn(h, e);
    if TotalBytes(artifacts) > limit then Became(FAILED)
    else if e.Execution? && e.status == Str("ok") then
      if !NamesAgree(artifacts) then Rejected(RESULT_ARTIFACT_INVALID)
      else if e.schemaValid == Bool(false) then Rejected(RESULT_SCHEMA_INVALID)
      else Became(SUCCEEDED)
    else if artifacts != [] then Rejected(RESULT_ARTIFACT_INVALID)
    else if e.Execution? && e.status == Str("error") && e.schemaValid == Bool(false)
    then Rejected(RESULT_SCHEMA_INVALID)
    else Became(FAILED)
  }

  /** ... and the error code it should record with a failure. */
  function ExpectedCode(h: Host, limit: nat, e: Execution): Json {
    if TotalBytes(ArtifactsIn(h, e)) > limit then Str("RESULT_ARTIFACT_TOO_LARGE")
    else if e.Execution? && e.status == Str("error") then OrElse(Prop(e.error, CODE), Str("EXECUTOR_RUNTIME_ERROR"))
    else Str("EXECUTOR_INVALID_RESULT")
  }

  // ----- the package the buyer receives -----

  /** The properties of a package that tie it to its task ... */
  ghost predicate ContextSays(package: Record, info: TaskInfo) {
    && Get(package, REQUEST_ID) == Str(info.requestId) && Get(package, RESULT_VERSION) == Str("0.1.0")
    && Get(package, SELLER_ID) == Str(info.sellerId) && Get(package, SUBAGENT_ID) == Str(info.subagentId)
    && Get(package, VERIFICATION) == OrElse(info.verification, Null)
  }

  function CodeIn(p: Prepared): Json {
    if p.Prepared? && p.status == Str("error") then OrElse(Prop(p.error, CODE), Str("EXECUTOR_RUNTIME_ERROR"))
    else Str("EXECUTOR_INVALID_RESULT")
  }

  /** ... and those that report how it ended. */
  ghost predicate OutcomeSays(package: Record, p: Prepared) {
    if p.Prepared? && p.status == Str("ok") then
      && Get(package, STATUS) == Str("ok") && Get(package, ARTIFACTS) == Arr(DeclaredAll(p.artifacts))
      && Get(package, SCHEMA_VALID) == Bool(p.schemaValid != Bool(false))
    else
      && Get(package, STATUS) == Str("error") && Get(package, ARTIFACTS) == Undefined
      && Get(package, SCHEMA_VALID) == Bool(!(p.Prepared? && p.status == Str("error") && p.schemaValid == Bool(false)))
      && Prop(Get(package, ERROR), CODE) == CodeIn(p)
  }

  const TOLD: set<Key> :=
    {REQUEST_ID, RESULT_VERSION, SELLER_ID, SUBAGENT_ID, VERIFICATION, STATUS, ARTIFACTS, SCHEMA_VALID, ERROR}

  lemma GetPlus(a: Record, b: Record, k: Key)
    ensures Get(a + b, k) == if k in b then b[k] else Get(a, k)
  {
  }

  lemma BaseSays(info: TaskInfo, completedAt: int, more: Record)
    requires REQUEST_ID !in more && RESULT_VERSION !in more && SELLER_ID !in more && SUBAGENT_ID !in more
    requires VERIFICATION !in more
    ensures ContextSays(BasePayload(info, completedAt) + more, info)
  {
    hide Timing, OrElse;
  }

  lemma BaseIsSilent(info: TaskInfo, completedAt: int)
    ensures forall k | k in [STATUS, ARTIFACTS, SCHEMA_VALID, ERROR] :: k !in BasePayload(info, completedAt)
  {
    hide Timing, OrElse;
  }

  lemma ErrorFieldsSay(code: Json, message: Json, retryable: bool, schemaValid: bool, usage: Json)
    ensures var f := ErrorFields(code, message, retryable, schemaValid, usage);
            && f.Keys == {STATUS, ERROR, SCHEMA_VALID, USAGE}
            && f[STATUS] == Str("error") && f[SCHEMA_VALID] == Bool(schemaValid) && Prop(f[ERROR], CODE) == code
  {
    hide OrElse;
  }

  lemma OkFieldsSay(p: Prepared)
    requires p.Prepared?
    ensures var f := OkFields(p);
            && f.Keys == {STATUS, OUTPUT, ARTIFACTS, SCHEMA_VALID, USAGE}
            && f[STATUS] == Str("ok") && f[ARTIFACTS] == Arr(DeclaredAll(p.artifacts))
            && f[SCHEMA_VALID] == Bool(p.schemaValid != Bool(false))
  {
    hide OrElse, DeclaredAll;
  }

  lemma ErrorSays(info: TaskInfo, completedAt: int, code: Json, message: Json, retryable: bool, schemaValid: bool,
                  usage: Json)
    ensures var package := ErrorPayload(info, completedAt, code, message, retryable, schemaValid, usage);
            && ContextSays(package, info)
            && Get(package, STATUS) == Str("error") && Get(package, ARTIFACTS) == Undefined
            && Get(package, SCHEMA_VALID) == Bool(schemaValid) && Prop(Get(package, ERROR), CODE) == code
  {
    hide BasePayload, ErrorFields, ContextSays;
    ErrorFieldsSay(code, message, retryable, schemaValid, usage);
    BaseSays(info, completedAt, ErrorFields(code, message, retryable, schemaValid, usage));
    BaseIsSilent(info, completedAt);
  }

  lemma OkSays(info: TaskInfo, completedAt: int, p: Prepared)
    requires p.Prepared? && p.status == Str("ok")
    ensures ContextSays(BuildPayload(info, completedAt, p), info) && OutcomeSays(BuildPayload(info, completedAt, p), p)
  {
    hide BasePayload, OkFields, ContextSays, DeclaredAll;
    OkFieldsSay(p);
    BaseSays(info, completedAt, OkFields(p));
  }

  lemma FailureSays(info: TaskInfo, completedAt: int, p: Prepared)
    requires !(p.Prepared? && p.status == Str("ok"))
    ensures ContextSays(BuildPayload(info, completedAt, p), info) && OutcomeSays(BuildPayload(info, completedAt, p), p)
  {
    hide ErrorPayload, ContextSays, OrElse, Prop, Get;
    if p.Prepared? && p.status == Str("error") {
      ErrorSays(info, completedAt, OrElse(Prop(p.error, CODE), Str("EXECUTOR_RUNTIME_ERROR")),
                OrElse(Prop(p.error, MESSAGE), Str("Seller executor reported an error")),
                Prop(p.error, RETRYABLE) == Bool(true), p.schemaValid != Bool(false), p.usage);
    } else {
      var message := if p.NotAnObject? then Str("Seller executor returned an invalid result object")
                     else Str("Seller executor must return status 'ok' or 'error'");
      ErrorSays(info, completedAt, Str("EXECUTOR_INVALID_RESULT"), message, false, true, Undefined);
    }
  }

  lemma PayloadSays(info: TaskInfo, completedAt: int, p: Prepared)
    ensures ContextSays(BuildPayload(info, completedAt, p), info) && OutcomeSays(BuildPayload(info, completedAt, p), p)
  {
    if p.Prepared? && p.status == Str("ok") {
      OkSays(info, completedAt, p);
    } else {
      FailureSays(info, completedAt, p);
    }
    hide BuildPayload, ContextSays, OutcomeSays;
  }

  /** Signing adds three properties and hides none. */
  lemma SigningHides(h: Host, key: PrivateKey, payload: Record, k: Key)
    requires k in TOLD
    ensures Get(SignPayload(h, key, payload), k) == Get(payload, k)
  {
    hide CanonicalOf;
    GetPlus(payload, SignatureFields(h, key, payload), k);
  }

  lemma SignedSays(h: Host, key: PrivateKey, payload: Record, info: TaskInfo, p: Prepared)
    requires ContextSays(payload, info) && OutcomeSays(payload, p)
    ensures ContextSays(SignPayload(h, key, payload), info) && OutcomeSays(SignPayload(h, key, payload), p)
  {
    hide SignPayload, DeclaredAll, OrElse;
    forall k | k in TOLD ensures Get(SignPayload(h, key, payload), k) == Get(payload, k) {
      SigningHides(h, key, payload, k);
    }
    hide Get;
    var told := TOLD;
    assert {REQUEST_ID, RESULT_VERSION, SELLER_ID, SUBAGENT_ID, VERIFICATION, STATUS, ARTIFACTS, SCHEMA_VALID, ERROR} ==
           told;
  }

  /** The buyer's check recomputes the bytes that were signed, so its verdict on the signature is yes. */
  lemma SignatureVerifies(h: Host, key: PrivateKey, b: Binding, payload: Record)
    requires h.Lawful() && b.expectedSigner == Some(h.publicPem(key))
    ensures SignatureOk(h, b, SignPayload(h, key, payload))
  {
    SignPayloadIsSigned(h, key, payload);
    var package := SignPayload(h, key, payload);
    var m := CanonicalOf(package);
    assert h.sign(key, m) != "" && h.verify(h.publicPem(key), m, h.fromBase64(h.sign(key, m)));
  }

  lemma ContextIsMatched(r: Request, m: Message, info: TaskInfo, package: Record)
    requires m.payload.TaskRequested?
    requires m == DispatchEnvelope(r, m.messageId, m.payload.priority, m.payload.route)
    requires info.requestId == m.requestId && info.verification == m.payload.verification
    requires Given(m.payload.sellerId) ==> info.sellerId == m.payload.sellerId.value
    requires Given(m.payload.subagentId) ==> info.subagentId == m.payload.subagentId.value
    requires ContextSays(package, info)
    ensures ContextMatches(r.terms.requestId, r.binding, package)
  {
  }

  /** Effective execution, prepared: what Prepare does to the execution, in the terms of the expected verdict. */
  lemma PreparedSays(h: Host, limit: nat, e: Execution)
    requires !e.NullExecution?
    ensures var p, artifacts := SellerResult.Prepare(h, limit, e), ArtifactsIn(h, e);
            && (TotalBytes(artifacts) > limit ==>
                  p.Prepared? && p.status == Str("error") && p.artifacts == [] && p.schemaValid == Bool(true)
                  && Prop(p.error, CODE) == Str("RESULT_ARTIFACT_TOO_LARGE"))
            && (TotalBytes(artifacts) <= limit ==>
                  && (e.Execution? <==> p.Prepared?) && ArtifactsOf(p) == artifacts
                  && (e.Execution? ==> p.status == e.status && p.error == e.error && p.schemaValid == e.schemaValid))
  {
    assert TotalBytes([]) == 0;
  }

  lemma VerdictOnPackage(h: Host, r: Request, package: Record, p: Prepared)
    requires h.Lawful() && OutcomeSays(package, p) && forall a | a in ArtifactsOf(p) :: Materialized(h, a)
    requires ContextMatches(r.terms.requestId, r.binding, package) && SignatureOk(h, r.binding, package)
    ensures VerdictOf(h, r, package, AttachmentsOf(ArtifactsOf(p))) == Some(
              if p.Prepared? && p.status == Str("ok") then
                if !NamesAgree(p.artifacts) then Rejected(RESULT_ARTIFACT_INVALID)
                else if p.schemaValid == Bool(false) then Rejected(RESULT_SCHEMA_INVALID)
                else Became(SUCCEEDED)
              else if ArtifactsOf(p) != [] then Rejected(RESULT_ARTIFACT_INVALID)
              else if p.Prepared? && p.status == Str("error") && p.schemaValid == Bool(false)
              then Rejected(RESULT_SCHEMA_INVALID)
              else Became(FAILED))
  {
    hide ContextMatches, SignatureOk;
    if p.Prepared? && p.status == Str("ok") && p.artifacts != [] {
      BindingsIff(h, p.artifacts);
    }
  }

  lemma PreparedMaterialized(h: Host, limit: nat, e: Execution)
    requires h.Lawful() && !e.NullExecution?
    ensures forall a | a in ArtifactsOf(SellerResult.Prepare(h, limit, e)) :: Materialized(h, a)
  {
    hide Materialized;
    if e.Execution? && e.artifacts.Some? {
      MaterializedOk(h, e.artifacts.value);
    }
  }

  lemma ReportedCode(p: Prepared, package: Record)
    requires OutcomeSays(package, p) && !(p.Prepared? && p.status == Str("ok"))
    ensures ErrorOf(Became(FAILED), package) == Reported(CodeIn(p))
  {
    hide Get;
  }

  lemma PreparedCode(h: Host, limit: nat, e: Execution)
    requires !e.NullExecution? && ExpectedVerdict(h, limit, e) == Became(FAILED)
    ensures var p := SellerResult.Prepare(h, limit, e);
            !(p.Prepared? && p.status == Str("ok")) && CodeIn(p) == ExpectedCode(h, limit, e)
  {
    PreparedSays(h, limit, e);
    hide SellerResult.Prepare, ArtifactsIn, TotalBytes, NamesAgree, Prop;
  }

  lemma FailureCode(h: Host, limit: nat, e: Execution, package: Record)
    requires !e.NullExecution? && OutcomeSays(package, SellerResult.Prepare(h, limit, e))
    requires ExpectedVerdict(h, limit, e) == Became(FAILED)
    ensures ErrorOf(Became(FAILED), package) == Reported(ExpectedCode(h, limit, e))
  {
    PreparedCode(h, limit, e);
    hide *;
    ReportedCode(SellerResult.Prepare(h, limit, e), package);
  }

  lemma VerdictOnOutcome(h: Host, limit: nat, r: Request, e: Execution, package: Record)
    requires h.Lawful() && !e.NullExecution? && OutcomeSays(package, SellerResult.Prepare(h, limit, e))
    requires ContextMatches(r.terms.requestId, r.binding, package) && SignatureOk(h, r.binding, package)
    ensures VerdictOf(h, r, package, AttachmentsOf(ArtifactsOf(SellerResult.Prepare(h, limit, e)))) ==
            Some(ExpectedVerdict(h, limit, e))
  {
    PreparedMaterialized(h, limit, e);
    PreparedSays(h, limit, e);
    hide OutcomeSays, ContextMatches, SignatureOk, VerdictOf, SellerResult.Prepare, NamesAgree, Materialized,
         ArtifactsIn, TotalBytes, Prop;
    VerdictOnPackage(h, r, package, SellerResult.Prepare(h, limit, e));
    assert TotalBytes([]) == 0 <= limit;
  }

  lemma AppliedVerdict(h: Host, r: Request, package: Record, attachments: Json, v: Mark)
    requires VerdictOf(h, r, package, attachments) == Some(v)
    ensures var after := ApplyResult(h, r, package, attachments);
            && after.timeline == r.timeline + [v] && after.status == StatusOf(v)
            && after.lastError == ErrorOf(v, package) && after.resultPackage == Some(package)
  {
    hide VerdictOf;
  }

  lemma ExpectedFailure(h: Host, limit: nat, e: Execution)
    ensures StatusOf(ExpectedVerdict(h, limit, e)) == FAILED <==> ExpectedVerdict(h, limit, e) == Became(FAILED)
  {
  }

  /** What a request that succeeded was told: the executor's own output, usage and artifacts. */
  ghost predicate OutputArrives(o: Outcome, package: Record) {
    && o.Returned? && o.execution.Execution? && o.execution.status == Str("ok")
    && Get(package, OUTPUT) == (if o.execution.output.Some? then o.execution.output.value else Null)
    && (Truthy(o.execution.usage) ==> Get(package, USAGE) == o.execution.usage)
  }

  lemma OkTells(h: Host, limit: nat, o: Outcome, package: Record)
    requires PackageTells(h, limit, o, package) && ReturnedOk(h, limit, o)
    ensures OutputArrives(o, package)
  {
    if o.execution.artifacts.Some? {
      TotalIsContent(h, o.execution.artifacts.value);
    }
    hide Get, Prop, Truthy, MaterializeArtifacts, ContentSize, TotalBytes;
  }

  lemma SucceededReturned(h: Host, limit: nat, o: Outcome)
    requires ExpectedVerdict(h, limit, EffectiveExecution(o)) == Became(SUCCEEDED)
    ensures ReturnedOk(h, limit, o)
  {
    assert RuntimeError("").status == Str("error");
    hide Get, Prop, Truthy, MaterializeArtifacts, TotalBytes, NamesAgree;
  }

  lemma SucceededMeansOk(h: Host, limit: nat, o: Outcome, package: Record)
    requires PackageTells(h, limit, o, package)
    requires ExpectedVerdict(h, limit, EffectiveExecution(o)) == Became(SUCCEEDED)
    ensures OutputArrives(o, package)
  {
    SucceededReturned(h, limit, o);
    hide *;
    OkTells(h, limit, o, package);
  }

  /** An attachment with the name, type, size and content of the executor's artifact. */
  ghost predicate Delivers(h: Host, a: ExecArtifact, item: Json) {
    && (a.name != "" ==> Prop(item, NAME) == Str(a.name))
    && (a.mediaType != "" ==> Prop(item, MEDIA_TYPE) == Str(a.mediaType))
    && Prop(item, CONTENT_BASE64).Str?
    && ContentIs(h, a, h.fromBase64(Prop(item, CONTENT_BASE64).s))
    && Prop(item, BYTE_SIZE) == Num(|h.fromBase64(Prop(item, CONTENT_BASE64).s)|)
  }

  lemma AttachmentDelivers(h: Host, a: ExecArtifact, place: nat, finished: Artifact)
    requires ArtifactTells(h, a, place, finished)
    ensures Delivers(h, a, AttachmentOf(finished))
  {
    AttachmentSays(finished);
    hide AttachmentOf, ContentIs, Prop, Digits, Truthy;
  }

  lemma AllDeliver(h: Host, artifacts: seq<ExecArtifact>, finished: seq<Artifact>)
    requires |finished| == |artifacts|
    requires forall i | 0 <= i < |finished| :: ArtifactTells(h, artifacts[i], i + 1, finished[i])
    ensures forall i | 0 <= i < |finished| :: Delivers(h, artifacts[i], AttachedItems(finished)[i])
  {
    hide ArtifactTells, Delivers, AttachmentOf;
    forall i: nat | i < |finished| ensures Delivers(h, artifacts[i], AttachedItems(finished)[i]) {
      AttachmentDelivers(h, artifacts[i], i + 1, finished[i]);
    }
  }

  lemma AttachmentsAre(artifacts: seq<Artifact>)
    ensures AttachmentsOf(artifacts) == Arr(AttachedItems(artifacts)) && |AttachedItems(artifacts)| == |artifacts|
  {
    hide AttachedItems;
  }

  /** Of an ok execution within the limit every artifact arrives, in its place and with its content. */
  lemma ArtifactsArrive(h: Host, key: PrivateKey, limit: nat, info: TaskInfo, completedAt: int, e: Execution)
    requires h.Lawful() && e.Execution? && e.status == Str("ok") && e.artifacts.Some?
    requires ContentSize(h, e.artifacts.value) <= limit
    ensures var f := Finish(h, key, limit, info, completedAt, Returned(e));
            var attachments := AttachmentsOf(f.artifacts);
            && DeclaresAll(f.package, f.artifacts)
            && attachments.Arr? && |attachments.items| == |e.artifacts.value|
            && forall i | 0 <= i < |attachments.items| :: Delivers(h, e.artifacts.value[i], attachments.items[i])
  {
    hide *;
    FinishCarries(h, key, limit, info, completedAt, e);
    AllDeliver(h, e.artifacts.value, Finish(h, key, limit, info, completedAt, Returned(e)).artifacts);
    AttachmentsAre(Finish(h, key, limit, info, completedAt, Returned(e)).artifacts);
  }

  /**
   Seller-to-buyer round trip: for a task made from the request's own envelope and a pinned key that is the
   seller's, the verdict and the error code are those of the execution.
   */
  lemma VerdictIsOutcome(h: Host, key: PrivateKey, limit: nat, r: Request, identity: Identity, m: Message, id: TaskId,
                         now: int, completedAt: int, o: Outcome)
    requires h.Lawful() && r.binding.expectedSigner == Some(h.publicPem(key)) && !Terminal(r.status)
    requires m.payload.TaskRequested? && m == DispatchEnvelope(r, m.messageId, m.payload.priority, m.payload.route)
    ensures var e := EffectiveExecution(o);
            var f := Finish(h, key, limit, TaskOf(identity, id, now, m).info, completedAt, o);
            var after := ApplyResult(h, r, f.package, AttachmentsOf(f.artifacts));
            && after.timeline == r.timeline + [ExpectedVerdict(h, limit, e)]
            && after.status == StatusOf(ExpectedVerdict(h, limit, e))
            && (after.status == FAILED ==> after.lastError == Reported(ExpectedCode(h, limit, e)))
            && after.resultPackage == Some(f.package) && PackageTells(h, limit, o, f.package)
            && (after.status == SUCCEEDED ==> OutputArrives(o, f.package))
            && Get(f.package, REQUEST_ID) == Str(r.terms.requestId)
  {
    var info, p := TaskOf(identity, id, now, m).info, PreparedOutcome(h, limit, o);
    var e, payload := EffectiveExecution(o), BuildPayload(info, completedAt, p);
    var package := SignPayload(h, key, payload);
    ExpectedFailure(h, limit, e);
    FinishTells(h, key, limit, info, completedAt, o);
    assert Finish(h, key, limit, info, completedAt, o).package == package;
    if ExpectedVerdict(h, limit, e) == Became(SUCCEEDED) {
      SucceededMeansOk(h, limit, o, package);
    }
    assert StatusOf(ExpectedVerdict(h, limit, e)) == SUCCEEDED ==> ExpectedVerdict(h, limit, e) == Became(SUCCEEDED);
    hide BuildPayload, SignPayload, VerdictOf, ContextMatches, SignatureOk, SellerResult.Prepare, OutcomeSays,
         ContextSays, ExpectedVerdict, ExpectedCode, DispatchEnvelope, EffectiveExecution, ApplyResult, StatusOf,
         ErrorOf;
    PayloadSays(info, completedAt, p);
    SignedSays(h, key, payload, info, p);
    SignatureVerifies(h, key, r.binding, payload);
    ContextIsMatched(r, m, info, package);
    VerdictOnOutcome(h, limit, r, e, package);
    AppliedVerdict(h, r, package, AttachmentsOf(ArtifactsOf(p)), ExpectedVerdict(h, limit, e));
    if ExpectedVerdict(h, limit, e) == Became(FAILED) {
      FailureCode(h, limit, e, package);
    }
  }
}
