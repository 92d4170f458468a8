/** What a finished package tells of the execution it reports, property by property. */
module ResultContents {
  import opened Wrappers
  import opened Json
  import opened Contracts
  import opened SellerResult

  /** What the artifacts amount to, read off the executor's own list. */
  ghost function ContentSize(h: Host, artifacts: seq<ExecArtifact>): nat {
    if artifacts == [] then 0
    else ContentSize(h, artifacts[..|artifacts| - 1]) + |ContentBytes(h, artifacts[|artifacts| - 1])|
  }

  ghost predicate ReportsError(package: Record, code: Json, message: Json, retryable: bool, schemaValid: bool,
                               usage: Json)
  {
    && Get(package, STATUS) == Str("error") && Get(package, OUTPUT) == Undefined && Get(package, ARTIFACTS) == Undefined
    && Prop(Get(package, ERROR), CODE) == code && Prop(Get(package, ERROR), MESSAGE) == message
    && Prop(Get(package, ERROR), RETRYABLE) == Bool(retryable)
    && Get(package, SCHEMA_VALID) == Bool(schemaValid) && Get(package, USAGE) == usage
  }

  ghost predicate ReportsOutput(package: Record, output: Json, schemaValid: bool, usage: Json) {
    && Get(package, STATUS) == Str("ok") && Get(package, OUTPUT) == output && Get(package, ERROR) == Undefined
    && Get(package, SCHEMA_VALID) == Bool(schemaValid) && Get(package, USAGE) == usage
  }

  /** The package says of the execution what it returned, or why it did not. */
  ghost predicate PackageTells(h: Host, limit: nat, o: Outcome, package: Record) {
    var noUsage := Obj(map[TOKENS_IN := Num(0), TOKENS_OUT := Num(0)]);
    match o
    case Threw(message) =>
      ReportsError(package, Str("EXECUTOR_RUNTIME_ERROR"),
                   Str(if message == "" then "Seller executor reported an error" else message), false, true, noUsage)
    case Returned(NullExecution) =>
      ReportsError(package, Str("EXECUTOR_RUNTIME_ERROR"),
                   Str("Cannot read properties of null (reading 'artifacts')"), false, true, noUsage)
    case Returned(Primitive) =>
      ReportsError(package, Str("EXECUTOR_INVALID_RESULT"),
                   Str("Seller executor returned an invalid result object"), false, true, noUsage)
    case Returned(Execution(status, error, output, artifacts, schemaValid, usage)) =>
      var used := if Truthy(usage) then usage else noUsage;
      if artifacts.Some? && ContentSize(h, artifacts.value) > limit then
        ReportsError(package, Str("RESULT_ARTIFACT_TOO_LARGE"),
                     Str("artifact payload exceeds email limit " + Digits(limit) + " bytes"), false, true, used)
      else if status == Str("error") then
        ReportsError(package,
                     if Truthy(Prop(error, CODE)) then Prop(error, CODE) else Str("EXECUTOR_RUNTIME_ERROR"),
                     if Truthy(Prop(error, MESSAGE)) then Prop(error, MESSAGE)
                     else Str("Seller executor reported an error"),
                     Prop(error, RETRYABLE) == Bool(true), schemaValid != Bool(false), used)
      else if status == Str("ok") then
        ReportsOutput(package, if output.Some? then output.value else Null, schemaValid != Bool(false), used)
      else
        ReportsError(package, Str("EXECUTOR_INVALID_RESULT"),
                     Str("Seller executor must return status 'ok' or 'error'"), false, true, noUsage)
  }

  // ----- sizes -----

  lemma {:induction false} TotalAppend(a: seq<Artifact>, x: Artifact)
    ensures TotalBytes(a + [x]) == TotalBytes(a) + x.byteSize
  {
    if a == [] {
      assert a + [x] == [x] && [x][1..] == [];
    } else {
      assert (a + [x])[0] == a[0] && (a + [x])[1..] == a[1..] + [x];
      TotalAppend(a[1..], x);
    }
  }

  lemma {:induction false} TotalIsContent(h: Host, artifacts: seq<ExecArtifact>)
    ensures TotalBytes(MaterializeArtifacts(h, artifacts)) == ContentSize(h, artifacts)
  {
    if artifacts != [] {
      var n := |artifacts| - 1;
      TotalIsContent(h, artifacts[..n]);
      TotalAppend(MaterializeArtifacts(h, artifacts[..n]), Materialize(h, artifacts[n], n));
      assert MaterializeArtifacts(h, artifacts) ==
             MaterializeArtifacts(h, artifacts[..n]) + [Materialize(h, artifacts[n], n)];
    }
  }

  // ----- payloads -----

  /** The properties the two reports are about. */
  ghost predicate SameReport(a: Record, b: Record) {
    && Get(a, STATUS) == Get(b, STATUS) && Get(a, OUTPUT) == Get(b, OUTPUT) && Get(a, ARTIFACTS) == Get(b, ARTIFACTS)
    && Get(a, ERROR) == Get(b, ERROR) && Get(a, SCHEMA_VALID) == Get(b, SCHEMA_VALID) && Get(a, USAGE) == Get(b, USAGE)
  }

  /** The base payload says nothing about them. */
  lemma BaseIsSilent(info: TaskInfo, completedAt: int, fields: Record)
    ensures SameReport(BasePayload(info, completedAt) + fields, fields)
  {
    var base := BasePayload(info, completedAt);
    assert STATUS !in base && OUTPUT !in base && ARTIFACTS !in base && ERROR !in base && SCHEMA_VALID !in base
           && USAGE !in base;
    hide BasePayload;
  }

  lemma SigningKeepsReport(h: Host, key: PrivateKey, payload: Record)
    ensures SameReport(SignPayload(h, key, payload), payload)
  {
    var fields := SignatureFields(h, key, payload);
    assert STATUS !in fields && OUTPUT !in fields && ARTIFACTS !in fields && ERROR !in fields
           && SCHEMA_VALID !in fields && USAGE !in fields;
    hide SignatureFields;
  }

  lemma ErrorFieldsTell(code: Json, message: Json, retryable: bool, schemaValid: bool, usage: Json)
    ensures ReportsError(ErrorFields(code, message, retryable, schemaValid, usage), code, message, retryable,
                         schemaValid,
                         if Truthy(usage) then usage else Obj(map[TOKENS_IN := Num(0), TOKENS_OUT := Num(0)]))
  {
  }

  lemma OkFieldsTell(p: Prepared)
    requires p.Prepared?
    ensures ReportsOutput(OkFields(p), if p.output.Some? then p.output.value else Null, p.schemaValid != Bool(false),
                          if Truthy(p.usage) then p.usage else Obj(map[TOKENS_IN := Num(0), TOKENS_OUT := Num(0)]))
  {
    hide DeclaredAll;
  }

  lemma ErrorPayloadTells(info: TaskInfo, at: int, code: Json, message: Json, retryable: bool, schemaValid: bool,
                          usage: Json)
    ensures ReportsError(ErrorPayload(info, at, code, message, retryable, schemaValid, usage), code, message, retryable,
                         schemaValid,
                         if Truthy(usage) then usage else Obj(map[TOKENS_IN := Num(0), TOKENS_OUT := Num(0)]))
  {
    hide BasePayload, ErrorFields, Prop, Get, Truthy;
    ErrorFieldsTell(code, message, retryable, schemaValid, usage);
    BaseIsSilent(info, at, ErrorFields(code, message, retryable, schemaValid, usage));
  }

  /** The report on a prepared execution. */
  ghost predicate PreparedTells(p: Prepared, package: Record) {
    var noUsage := Obj(map[TOKENS_IN := Num(0), TOKENS_OUT := Num(0)]);
    match p
    case NotAnObject =>
      ReportsError(package, Str("EXECUTOR_INVALID_RESULT"),
                   Str("Seller executor returned an invalid result object"), false, true, noUsage)
    case Prepared(status, error, output, _, schemaValid, usage) =>
      var used := if Truthy(usage) then usage else noUsage;
      if status == Str("error") then
        ReportsError(package,
                     if Truthy(Prop(error, CODE)) then Prop(error, CODE) else Str("EXECUTOR_RUNTIME_ERROR"),
                     if Truthy(Prop(error, MESSAGE)) then Prop(error, MESSAGE)
                     else Str("Seller executor reported an error"),
                     Prop(error, RETRYABLE) == Bool(true), schemaValid != Bool(false), used)
      else if status == Str("ok") then
        ReportsOutput(package, if output.Some? then output.value else Null, schemaValid != Bool(false), used)
      else
        ReportsError(package, Str("EXECUTOR_INVALID_RESULT"),
                     Str("Seller executor must return status 'ok' or 'error'"), false, true, noUsage)
  }

  lemma PayloadTells(info: TaskInfo, at: int, p: Prepared)
    ensures PreparedTells(p, BuildPayload(info, at, p))
  {
    hide ErrorPayload, BasePayload, OkFields, Get, Prop, ReportsError, ReportsOutput;
    assert Truthy(Undefined) == false;
    match p
    case NotAnObject =>
      ErrorPayloadTells(info, at, Str("EXECUTOR_INVALID_RESULT"),
                        Str("Seller executor returned an invalid result object"), false, true, Undefined);
    case Prepared(status, error, _, _, schemaValid, usage) =>
      if status == Str("error") {
        ErrorPayloadTells(info, at, OrElse(Prop(error, CODE), Str("EXECUTOR_RUNTIME_ERROR")),
                          OrElse(Prop(error, MESSAGE), Str("Seller executor reported an error")),
                          Prop(error, RETRYABLE) == Bool(true), schemaValid != Bool(false), usage);
      } else if status == Str("ok") {
        OkPayloadTells(info, at, p);
      } else {
        ErrorPayloadTells(info, at, Str("EXECUTOR_INVALID_RESULT"),
                          Str("Seller executor must return status 'ok' or 'error'"), false, true, Undefined);
      }
  }

  lemma OkPayloadTells(info: TaskInfo, at: int, p: Prepared)
    requires p.Prepared?
    ensures ReportsOutput(BasePayload(info, at) + OkFields(p), if p.output.Some? then p.output.value else Null,
                          p.schemaValid != Bool(false),
                          if Truthy(p.usage) then p.usage else Obj(map[TOKENS_IN := Num(0), TOKENS_OUT := Num(0)]))
  {
    hide BasePayload, OkFields, Get, Truthy;
    OkFieldsTell(p);
    BaseIsSilent(info, at, OkFields(p));
  }

  lemma AllErrorsSame(a: Record, b: Record)
    requires SameReport(a, b)
    ensures forall code, message, retryable, schemaValid, usage ::
              ReportsError(b, code, message, retryable, schemaValid, usage) ==>
                ReportsError(a, code, message, retryable, schemaValid, usage)
  {
    hide Get, Prop;
  }

  lemma AllOutputsSame(a: Record, b: Record)
    requires SameReport(a, b)
    ensures forall output, schemaValid, usage ::
              ReportsOutput(b, output, schemaValid, usage) ==> ReportsOutput(a, output, schemaValid, usage)
  {
    hide Get, Prop;
  }

  lemma SameReportTells(p: Prepared, a: Record, b: Record)
    requires SameReport(a, b) && PreparedTells(p, b)
    ensures PreparedTells(p, a)
  {
    AllErrorsSame(a, b);
    AllOutputsSame(a, b);
    hide SameReport, ReportsError, ReportsOutput, Get, Prop, Truthy;
  }

  lemma TooLargeSays(limit: nat)
    ensures var error := TooLarge(limit);
            && Prop(error, CODE) == Str("RESULT_ARTIFACT_TOO_LARGE") && Prop(error, RETRYABLE) == Bool(false)
            && Prop(error, MESSAGE) == Str("artifact payload exceeds email limit " + Digits(limit) + " bytes")
            && Truthy(Prop(error, CODE)) && Truthy(Prop(error, MESSAGE))
  {
    hide Digits;
    var text := "artifact payload exceeds email limit " + Digits(limit) + " bytes";
    assert text[0] == 'a';
  }

  lemma RuntimeErrorSays(message: string)
    ensures var error := RuntimeError(message).error;
            && Prop(error, CODE) == Str("EXECUTOR_RUNTIME_ERROR") && Prop(error, MESSAGE) == Str(message)
            && Prop(error, RETRYABLE) == Bool(false)
    ensures Truthy(Str("EXECUTOR_RUNTIME_ERROR")) && (Truthy(Str(message)) <==> message != "")
    ensures Truthy(NO_USAGE)
  {
  }

  lemma RuntimeErrorPrepared(h: Host, limit: nat, message: string)
    ensures Prepare(h, limit, RuntimeError(message)) ==
            Prepared(Str("error"), RuntimeError(message).error, None, [], Bool(true), NO_USAGE)
  {
    assert TotalBytes([]) == 0;
  }

  /** The failure of an execution that threw is reported as one. */
  lemma RuntimeErrorTells(h: Host, limit: nat, message: string, package: Record)
    requires PreparedTells(Prepare(h, limit, RuntimeError(message)), package)
    ensures PackageTells(h, limit, Threw(message), package)
  {
    RuntimeErrorPrepared(h, limit, message);
    RuntimeErrorSays(message);
    hide Prepare, RuntimeError, ReportsError, ReportsOutput, Prop, Truthy;
  }

  lemma PreparedExecution(h: Host, limit: nat, e: Execution)
    requires e.Execution?
    ensures var size := if e.artifacts.Some? then ContentSize(h, e.artifacts.value) else 0;
            var p := Prepare(h, limit, e);
            && p.Prepared?
            && (size <= limit ==>
                  && p.status == e.status && p.error == e.error && p.output == e.output
                  && p.schemaValid == e.schemaValid && p.usage == e.usage)
            && (size > limit ==>
                  && p.status == Str("error") && p.error == TooLarge(limit) && p.schemaValid == Bool(true)
                  && p.usage == OrElse(e.usage, NO_USAGE))
  {
    if e.artifacts.Some? {
      TotalIsContent(h, e.artifacts.value);
    }
    assert TotalBytes([]) == 0;
    hide MaterializeArtifacts, TotalBytes, ContentSize, TooLarge, OrElse;
  }

  lemma UsageSays(usage: Json)
    ensures Truthy(OrElse(usage, NO_USAGE))
    ensures OrElse(usage, NO_USAGE) ==
            if Truthy(usage) then usage else Obj(map[TOKENS_IN := Num(0), TOKENS_OUT := Num(0)])
  {
  }

  lemma ExecutionTells(h: Host, limit: nat, e: Execution, package: Record)
    requires e.Execution? && PreparedTells(Prepare(h, limit, e), package)
    ensures PackageTells(h, limit, Returned(e), package)
  {
    hide Prepare, ContentSize, ReportsError, ReportsOutput, Prop, Truthy, TooLarge, Digits, OrElse;
    PreparedExecution(h, limit, e);
    TooLargeSays(limit);
    UsageSays(e.usage);
  }

  /** Preparing an outcome changes what has to be reported in the two cases the code provides for, and in no other. */
  lemma PreparedIsOutcome(h: Host, limit: nat, o: Outcome, package: Record)
    requires PreparedTells(PreparedOutcome(h, limit, o), package)
    ensures PackageTells(h, limit, o, package)
  {
    hide Prepare, PreparedTells, ReportsError, ReportsOutput, RuntimeError, ContentSize, Prop, Truthy;
    match o
    case Threw(message) => RuntimeErrorTells(h, limit, message, package);
    case Returned(NullExecution) =>
      RuntimeErrorTells(h, limit, "Cannot read properties of null (reading 'artifacts')", package);
    case Returned(Primitive) => PrimitiveTells(h, limit, package);
    case Returned(Execution(_, _, _, _, _, _)) => ExecutionTells(h, limit, o.execution, package);
  }

  lemma PrimitiveTells(h: Host, limit: nat, package: Record)
    requires PreparedTells(Prepare(h, limit, Primitive), package)
    ensures PackageTells(h, limit, Returned(Primitive), package)
  {
    hide ReportsError, ReportsOutput;
  }

  /** What is stored, signed and sent tells of the outcome. */
  lemma FinishTells(h: Host, key: PrivateKey, limit: nat, info: TaskInfo, completedAt: int, o: Outcome)
    ensures PackageTells(h, limit, o, Finish(h, key, limit, info, completedAt, o).package)
  {
    var p := PreparedOutcome(h, limit, o);
    var payload := BuildPayload(info, completedAt, p);
    hide PackageTells, PreparedTells, BuildPayload, SignPayload, PreparedOutcome, SameReport;
    PayloadTells(info, completedAt, p);
    SigningKeepsReport(h, key, payload);
    SameReportTells(p, SignPayload(h, key, payload), payload);
    PreparedIsOutcome(h, limit, o, SignPayload(h, key, payload));
  }

  /** What is stored, signed and sent for a task that was turned away says with which code and message. */
  lemma RejectionTells(h: Host, key: PrivateKey, info: TaskInfo, completedAt: int, code: Json, message: Json)
    ensures var f := Rejection(h, key, info, completedAt, code, message);
            && f.artifacts == [] && SignedBy(h, key, f.package)
            && ReportsError(f.package, code, message, false, true, Obj(map[TOKENS_IN := Num(0), TOKENS_OUT := Num(0)]))
  {
    hide ErrorPayload, SignPayload, ReportsError, SignedBy, SameReport;
    var payload := ErrorPayload(info, completedAt, code, message, false, true, Undefined);
    ErrorPayloadTells(info, completedAt, code, message, false, true, Undefined);
    SigningKeepsReport(h, key, payload);
    SignPayloadIsSigned(h, key, payload);
    AllErrorsSame(SignPayload(h, key, payload), payload);
  }

  // ----- whom and when it is about -----

  /** The package names its task's request, seller, subagent and verification, when it was accepted and finished. */
  ghost predicate PackageIdentifies(h: Host, key: PrivateKey, info: TaskInfo, completedAt: int, package: Record) {
    && Get(package, MESSAGE_TYPE) == Str("remote_subagent_result") && Get(package, RESULT_VERSION) == Str("0.1.0")
    && Get(package, REQUEST_ID) == Str(info.requestId)
    && Get(package, SELLER_ID) == Str(info.sellerId) && Get(package, SUBAGENT_ID) == Str(info.subagentId)
    && Get(package, VERIFICATION) == (if Truthy(info.verification) then info.verification else Null)
    && Prop(Get(package, TIMING), ACCEPTED_AT) == Num(info.acceptedAt)
    && Prop(Get(package, TIMING), FINISHED_AT) == Num(completedAt)
    && (completedAt >= info.acceptedAt ==>
          Prop(Get(package, TIMING), ELAPSED_MS) == Num(completedAt - info.acceptedAt))
    && (completedAt < info.acceptedAt ==> Prop(Get(package, TIMING), ELAPSED_MS) == Num(0))
    && Get(package, SIGNATURE_ALGORITHM) == Str("Ed25519")
    && Get(package, SIGNER_PUBLIC_KEY_PEM) == Str(h.publicPem(key))
  }

  ghost predicate SameHeader(a: Record, b: Record) {
    && Get(a, MESSAGE_TYPE) == Get(b, MESSAGE_TYPE) && Get(a, RESULT_VERSION) == Get(b, RESULT_VERSION)
    && Get(a, REQUEST_ID) == Get(b, REQUEST_ID) && Get(a, SELLER_ID) == Get(b, SELLER_ID)
    && Get(a, SUBAGENT_ID) == Get(b, SUBAGENT_ID) && Get(a, VERIFICATION) == Get(b, VERIFICATION)
    && Get(a, TIMING) == Get(b, TIMING)
  }

  lemma HeaderStays(base: Record, fields: Record)
    requires MESSAGE_TYPE !in fields && RESULT_VERSION !in fields && REQUEST_ID !in fields && SELLER_ID !in fields
    requires SUBAGENT_ID !in fields && VERIFICATION !in fields && TIMING !in fields
    ensures SameHeader(base + fields, base)
  {
  }

  lemma ErrorHeader(info: TaskInfo, at: int, code: Json, message: Json, retryable: bool, schemaValid: bool, usage: Json)
    ensures SameHeader(ErrorPayload(info, at, code, message, retryable, schemaValid, usage), BasePayload(info, at))
  {
    hide BasePayload, SameHeader, OrElse;
    HeaderStays(BasePayload(info, at), ErrorFields(code, message, retryable, schemaValid, usage));
  }

  lemma OkHeader(info: TaskInfo, at: int, p: Prepared)
    requires p.Prepared?
    ensures SameHeader(BasePayload(info, at) + OkFields(p), BasePayload(info, at))
  {
    hide BasePayload, SameHeader, OrElse, DeclaredAll;
    HeaderStays(BasePayload(info, at), OkFields(p));
  }

  lemma PayloadHeader(info: TaskInfo, at: int, p: Prepared)
    ensures SameHeader(BuildPayload(info, at, p), BasePayload(info, at))
  {
    hide BasePayload, ErrorPayload, OkFields, SameHeader, OrElse, Prop;
    match p
    case NotAnObject =>
      ErrorHeader(info, at, Str("EXECUTOR_INVALID_RESULT"), Str("Seller executor returned an invalid result object"),
                  false, true, Undefined);
    case Prepared(status, error, _, _, schemaValid, usage) =>
      if status == Str("error") {
        ErrorHeader(info, at, OrElse(Prop(error, CODE), Str("EXECUTOR_RUNTIME_ERROR")),
                    OrElse(Prop(error, MESSAGE), Str("Seller executor reported an error")),
                    Prop(error, RETRYABLE) == Bool(true), schemaValid != Bool(false), usage);
      } else if status == Str("ok") {
        OkHeader(info, at, p);
      } else {
        ErrorHeader(info, at, Str("EXECUTOR_INVALID_RESULT"),
                    Str("Seller executor must return status 'ok' or 'error'"), false, true, Undefined);
      }
  }

  lemma SignedHeader(h: Host, key: PrivateKey, payload: Record)
    ensures SameHeader(SignPayload(h, key, payload), payload)
    ensures Get(SignPayload(h, key, payload), SIGNATURE_ALGORITHM) == Str("Ed25519")
    ensures Get(SignPayload(h, key, payload), SIGNER_PUBLIC_KEY_PEM) == Str(h.publicPem(key))
  {
    var fields := SignatureFields(h, key, payload);
    HeaderStays(payload, fields);
    hide SameHeader, CanonicalOf;
  }

  lemma BaseIdentifies(info: TaskInfo, at: int)
    ensures var base := BasePayload(info, at);
            && Get(base, MESSAGE_TYPE) == Str("remote_subagent_result") && Get(base, RESULT_VERSION) == Str("0.1.0")
            && Get(base, REQUEST_ID) == Str(info.requestId)
            && Get(base, SELLER_ID) == Str(info.sellerId) && Get(base, SUBAGENT_ID) == Str(info.subagentId)
            && Get(base, VERIFICATION) == (if Truthy(info.verification) then info.verification else Null)
            && Get(base, TIMING) == Timing(info, at)
  {
    hide Timing;
  }

  lemma TimingSays(info: TaskInfo, at: int)
    ensures Prop(Timing(info, at), ACCEPTED_AT) == Num(info.acceptedAt)
    ensures Prop(Timing(info, at), FINISHED_AT) == Num(at)
    ensures Prop(Timing(info, at), ELAPSED_MS) == Num(if at < info.acceptedAt then 0 else at - info.acceptedAt)
  {
  }

  lemma FinishIdentifies(h: Host, key: PrivateKey, limit: nat, info: TaskInfo, completedAt: int, o: Outcome)
    ensures PackageIdentifies(h, key, info, completedAt, Finish(h, key, limit, info, completedAt, o).package)
  {
    var p := PreparedOutcome(h, limit, o);
    var payload := BuildPayload(info, completedAt, p);
    hide BasePayload, BuildPayload, SignPayload, PreparedOutcome, Timing, Prop, Get, Truthy;
    PayloadHeader(info, completedAt, p);
    SignedHeader(h, key, payload);
    BaseIdentifies(info, completedAt);
    TimingSays(info, completedAt);
  }

  // ----- the artifacts -----

  /** The content of the executor's artifact: its buffer, or its base64, or its text, or nothing. */
  ghost predicate ContentIs(h: Host, a: ExecArtifact, bytes: Bytes) {
    && (a.content.Buffer? ==> bytes == a.content.bytes)
    && (!a.content.Buffer? && a.contentBase64 != "" ==> bytes == h.fromBase64(a.contentBase64))
    && (a.content.Text? && a.contentBase64 == "" ==> bytes == h.utf8(a.content.text))
    && (a.content.NoContent? && a.contentBase64 == "" ==> bytes == [])
  }

  /** A finished artifact names, describes and carries the executor's. */
  ghost predicate ArtifactTells(h: Host, a: ExecArtifact, place: nat, finished: Artifact) {
    && ContentIs(h, a, h.fromBase64(finished.contentBase64))
    && finished.byteSize == |h.fromBase64(finished.contentBase64)|
    && finished.sha256 == h.sha256(h.fromBase64(finished.contentBase64))
    && finished.name == (if a.name == "" then "artifact-" + Digits(place) + ".bin" else a.name)
    && finished.mediaType == (if a.mediaType == "" then "application/octet-stream" else a.mediaType)
    && finished.artifactId == (if a.artifactId == "" then "art_" + Digits(place) else a.artifactId)
  }

  /** What is declared of it in the package: everything but the content. */
  ghost predicate Declares(item: Json, a: Artifact) {
    && Prop(item, ARTIFACT_ID) == Str(a.artifactId) && Prop(item, NAME) == Str(a.name)
    && Prop(item, MEDIA_TYPE) == Str(a.mediaType) && Prop(item, BYTE_SIZE) == Num(a.byteSize)
    && Prop(item, SHA256) == Str(a.sha256) && Prop(item, CONTENT_BASE64) == Undefined
  }

  lemma DeclaredSays(a: Artifact)
    ensures Declares(Declared(a), a)
  {
  }

  lemma MaterializedTells(h: Host, a: ExecArtifact, index: nat)
    requires h.Lawful()
    ensures ArtifactTells(h, a, index + 1, Materialize(h, a, index))
  {
    hide Digits;
    assert h.fromBase64(h.toBase64(ContentBytes(h, a))) == ContentBytes(h, a);
  }

  /** The package declares what is attached, one item for each artifact. */
  ghost predicate DeclaresAll(package: Record, artifacts: seq<Artifact>) {
    && Get(package, ARTIFACTS).Arr? && |Get(package, ARTIFACTS).items| == |artifacts|
    && forall i | 0 <= i < |artifacts| :: Declares(Get(package, ARTIFACTS).items[i], artifacts[i])
  }

  lemma OkArtifacts(h: Host, key: PrivateKey, info: TaskInfo, at: int, p: Prepared)
    requires p.Prepared? && p.status == Str("ok")
    ensures DeclaresAll(SignPayload(h, key, BuildPayload(info, at, p)), p.artifacts)
  {
    var payload := BuildPayload(info, at, p);
    SigningKeepsReport(h, key, payload);
    BaseIsSilent(info, at, OkFields(p));
    assert Get(OkFields(p), ARTIFACTS) == Arr(DeclaredAll(p.artifacts));
    assert Str("ok") != Str("error");
    hide SignPayload, BasePayload, OkFields, Get, Declared, Declares;
    forall i | 0 <= i < |p.artifacts| ensures Declares(DeclaredAll(p.artifacts)[i], p.artifacts[i]) {
      DeclaredSays(p.artifacts[i]);
    }
  }

  /** An ok execution that fits the limit sends every artifact, each declared in the signed package. */
  lemma FinishCarries(h: Host, key: PrivateKey, limit: nat, info: TaskInfo, completedAt: int, e: Execution)
    requires h.Lawful() && e.Execution? && e.status == Str("ok") && e.artifacts.Some?
    requires ContentSize(h, e.artifacts.value) <= limit
    ensures var f := Finish(h, key, limit, info, completedAt, Returned(e));
            && DeclaresAll(f.package, f.artifacts) && |f.artifacts| == |e.artifacts.value|
            && forall i | 0 <= i < |f.artifacts| :: ArtifactTells(h, e.artifacts.value[i], i + 1, f.artifacts[i])
  {
    var p := PreparedOutcome(h, limit, Returned(e));
    TotalIsContent(h, e.artifacts.value);
    assert p.Prepared? && p.status == Str("ok") && p.artifacts == MaterializeArtifacts(h, e.artifacts.value);
    OkArtifacts(h, key, info, completedAt, p);
    hide SignPayload, BuildPayload, DeclaresAll, PreparedOutcome, ArtifactTells, Materialize;
    forall i | 0 <= i < |p.artifacts| ensures ArtifactTells(h, e.artifacts.value[i], i + 1, p.artifacts[i]) {
      MaterializedTells(h, e.artifacts.value[i], i);
    }
  }

  // ----- numerals -----

  function Numeral(s: string): int {
    if s == "" then 0 else Numeral(s[..|s| - 1]) * 10 + (s[|s| - 1] as int - '0' as int)
  }

  lemma NumeralAppends(init: string, d: nat)
    requires d < 10
    ensures var last := ('0' as int + d) as char;
            '0' <= last <= '9' && init + [last] != "" && Numeral(init + [last]) == Numeral(init) * 10 + d
  {
    var last := ('0' as int + d) as char;
    assert (init + [last])[..|init|] == init;
  }

  /** The numbers in names and messages are written in decimal. */
  lemma {:induction false} DigitsAreDecimal(n: nat)
    ensures Digits(n) != "" && Numeral(Digits(n)) == n
    ensures forall c | c in Digits(n) :: '0' <= c <= '9'
  {
    if n >= 10 {
      DigitsAreDecimal(n / 10);
      NumeralAppends(Digits(n / 10), n % 10);
    } else {
      NumeralAppends("", n);
    }
  }
}
