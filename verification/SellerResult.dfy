/**
 packages/seller-runtime-core: from what an executor returned to the signed result package
 and the attachments that travel with it.
 */
module SellerResult {
  import opened Wrappers
  import opened Json
  import opened Contracts

  /** The fields of a task that its result repeats; they never change after the task record is made. */
  datatype TaskInfo = TaskInfo(requestId: string, sellerId: string, subagentId: string, verification: Json,
                               acceptedAt: int)

  /** Where a result goes: the delivery address, or else whoever sent the task; "" stands for a missing string. */
  datatype Route = Route(address: string, sender: string) {
    function Target(): string {
      if address != "" then address else sender
    }
  }

  datatype Content = Buffer(bytes: Bytes) | Text(text: string) | NoContent

  /** An artifact as the executor hands it over; "" stands for a missing string. */
  datatype ExecArtifact =
    ExecArtifact(artifactId: string, name: string, mediaType: string, content: Content, contentBase64: string)

  datatype Artifact =
    Artifact(artifactId: string, name: string, mediaType: string, byteSize: nat, sha256: string, contentBase64: string)

  /**
   `null`, a string, number or boolean, or an object with these properties; artifacts is None unless it is an array, and
   `undefined` arrives as the object without properties that the default parameter puts in its place.
   */
  datatype Execution =
    | NullExecution
    | Primitive
    | Execution(status: Json, error: Json, output: Option<Json>, artifacts: Option<seq<ExecArtifact>>,
                schemaValid: Json, usage: Json)

  /** An execution whose artifacts have been materialized and measured. */
  datatype Prepared =
    | NotAnObject
    | Prepared(status: Json, error: Json, output: Option<Json>, artifacts: seq<Artifact>, schemaValid: Json,
               usage: Json)

  const NO_USAGE: Json := Obj(map[TOKENS_IN := Num(0), TOKENS_OUT := Num(0)])

  function Digits(n: nat): string {
    (if n < 10 then "" else Digits(n / 10)) + [('0' as int + n % 10) as char]
  }

  // ----- artifacts -----

  function ContentBytes(h: Host, a: ExecArtifact): Bytes {
    if a.content.Buffer? then a.content.bytes
    else if a.contentBase64 != "" then h.fromBase64(a.contentBase64)
    else if a.content.Text? then h.utf8(a.content.text)
    else []
  }

  function Materialize(h: Host, a: ExecArtifact, index: nat): Artifact {
    var bytes := ContentBytes(h, a);
    Artifact(
      if a.artifactId != "" then a.artifactId else "art_" + Digits(index + 1),
      if a.name != "" then a.name else "artifact-" + Digits(index + 1) + ".bin",
      if a.mediaType != "" then a.mediaType else "application/octet-stream",
      |bytes|, h.sha256(bytes), h.toBase64(bytes))
  }

  function MaterializeArtifacts(h: Host, artifacts: seq<ExecArtifact>): seq<Artifact> {
    seq(|artifacts|, i requires 0 <= i < |artifacts| => Materialize(h, artifacts[i], i))
  }

  function TotalBytes(artifacts: seq<Artifact>): nat {
    if artifacts == [] then 0 else artifacts[0].byteSize + TotalBytes(artifacts[1..])
  }

  function TooLarge(limit: nat): Json {
    Obj(map[CODE := Str("RESULT_ARTIFACT_TOO_LARGE"),
            MESSAGE := Str("artifact payload exceeds email limit " + Digits(limit) + " bytes"),
            RETRYABLE := Bool(false)])
  }

  /** applyExecutionArtifacts then enforceArtifactSizeLimit; `null` is the one input they throw on. */
  function Prepare(h: Host, limit: nat, execution: Execution): Prepared
    requires !execution.NullExecution?
  {
    match execution
    case Primitive => NotAnObject
    case Execution(status, error, output, artifacts, schemaValid, usage) =>
      var materialized := if artifacts.Some? then MaterializeArtifacts(h, artifacts.value) else [];
      if TotalBytes(materialized) <= limit then Prepared(status, error, output, materialized, schemaValid, usage)
      else Prepared(Str("error"),
                    TooLarge(limit), None, [], Bool(true), OrElse(usage, NO_USAGE))
  }

  // ----- payload -----

  function Timing(info: TaskInfo, completedAt: int): Json {
    Obj(map[ACCEPTED_AT := Num(info.acceptedAt), FINISHED_AT := Num(completedAt),
            ELAPSED_MS := Num(if completedAt < info.acceptedAt then 0 else completedAt - info.acceptedAt)])
  }

  function BasePayload(info: TaskInfo, completedAt: int): Record {
    map[MESSAGE_TYPE := Str("remote_subagent_result"),
        REQUEST_ID := Str(info.requestId),
        RESULT_VERSION := Str("0.1.0"),
        SELLER_ID := Str(info.sellerId),
        SUBAGENT_ID := Str(info.subagentId),
        VERIFICATION := OrElse(info.verification, Null),
        TIMING := Timing(info, completedAt)]
  }

  function ErrorFields(code: Json, message: Json, retryable: bool, schemaValid: bool, usage: Json): Record {
    map[STATUS := Str("error"),
        ERROR := Obj(map[CODE := code, MESSAGE := message, RETRYABLE := Bool(retryable)]),
        SCHEMA_VALID := Bool(schemaValid),
        USAGE := OrElse(usage, NO_USAGE)]
  }

  function ErrorPayload(info: TaskInfo, completedAt: int, code: Json, message: Json, retryable: bool, schemaValid: bool,
                        usage: Json): Record
  {
    BasePayload(info, completedAt) + ErrorFields(code, message, retryable, schemaValid, usage)
  }

  function OkFields(p: Prepared): Record
    requires p.Prepared?
  {
    map[STATUS := Str("ok"),
        OUTPUT := if p.output.Some? then p.output.value else Null,
        ARTIFACTS := Arr(DeclaredAll(p.artifacts)),
        SCHEMA_VALID := Bool(p.schemaValid != Bool(false)),
        USAGE := OrElse(p.usage, NO_USAGE)]
  }

  /** sanitizeArtifactsForResult: everything but the content. */
  function Declared(a: Artifact): Json {
    Obj(map[ARTIFACT_ID := Str(a.artifactId), NAME := Str(a.name), MEDIA_TYPE := Str(a.mediaType),
            BYTE_SIZE := Num(a.byteSize), SHA256 := Str(a.sha256),
            DELIVERY := Obj(map[KIND := Str("email_attachment")])])
  }

  function DeclaredAll(artifacts: seq<Artifact>): (d: seq<Json>)
    ensures |d| == |artifacts|
  {
    seq(|artifacts|, i requires 0 <= i < |artifacts| => Declared(artifacts[i]))
  }

  function BuildPayload(info: TaskInfo, completedAt: int, p: Prepared): Record {
    if p.NotAnObject? then
      ErrorPayload(info, completedAt, Str("EXECUTOR_INVALID_RESULT"),
                   Str("Seller executor returned an invalid result object"), false, true, Undefined)
    else if p.status == Str("error") then
      ErrorPayload(info, completedAt, OrElse(Prop(p.error, CODE), Str("EXECUTOR_RUNTIME_ERROR")),
                   OrElse(Prop(p.error, MESSAGE), Str("Seller executor reported an error")),
                   Prop(p.error, RETRYABLE) == Bool(true), p.schemaValid != Bool(false), p.usage)
    else if p.status != Str("ok") then
      ErrorPayload(info, completedAt, Str("EXECUTOR_INVALID_RESULT"),
                   Str("Seller executor must return status 'ok' or 'error'"), false, true, Undefined)
    else
      BasePayload(info, completedAt) + OkFields(p)
  }

  function SignatureFields(h: Host, key: PrivateKey, payload: Record): Record {
    map[SIGNATURE_ALGORITHM := Str("Ed25519"),
        SIGNER_PUBLIC_KEY_PEM := Str(h.publicPem(key)),
        SIGNATURE_BASE64 := Str(h.sign(key, CanonicalOf(payload)))]
  }

  function SignPayload(h: Host, key: PrivateKey, payload: Record): Record {
    payload + SignatureFields(h, key, payload)
  }

  // ----- what finalizeTask stores and sends -----

  /** A finished task: its package and execution_artifacts. */
  datatype Finished = Finished(package: Record, artifacts: seq<Artifact>)

  /** How an execution ended: the executor returned, or something threw. */
  datatype Outcome = Returned(execution: Execution) | Threw(message: string)

  function RuntimeError(message: string): Execution {
    Execution(Str("error"),
              Obj(map[CODE := Str("EXECUTOR_RUNTIME_ERROR"), MESSAGE := Str(message), RETRYABLE := Bool(false)]),
              None, None, Bool(true), NO_USAGE)
  }

  /** The execution finalizeTask is called with last: a returned `null` makes it throw, and failTask takes over. */
  function EffectiveExecution(o: Outcome): (e: Execution)
    ensures !e.NullExecution?
  {
    match o
    case Returned(NullExecution) => RuntimeError("Cannot read properties of null (reading 'artifacts')")
    case Returned(e) => e
    case Threw(message) => RuntimeError(message)
  }

  function PreparedOutcome(h: Host, limit: nat, o: Outcome): Prepared {
    Prepare(h, limit, EffectiveExecution(o))
  }

  function ArtifactsOf(p: Prepared): seq<Artifact> {
    if p.Prepared? then p.artifacts else []
  }

  function Finish(h: Host, key: PrivateKey, limit: nat, info: TaskInfo, completedAt: int, o: Outcome): Finished {
    var p := PreparedOutcome(h, limit, o);
    Finished(SignPayload(h, key, BuildPayload(info, completedAt, p)), ArtifactsOf(p))
  }

  /** The package stored for a task that the token check or a guardrail turned away. */
  function Rejection(h: Host, key: PrivateKey, info: TaskInfo, completedAt: int, code: Json, message: Json): Finished {
    Finished(SignPayload(h, key, ErrorPayload(info, completedAt, code, message, false, true, Undefined)), [])
  }

  // ----- what every such package satisfies -----

  /** Signed with `key` over exactly the bytes that the buyer will recompute from the package. */
  ghost predicate SignedBy(h: Host, key: PrivateKey, package: Record) {
    Get(package, SIGNATURE_BASE64) == Str(h.sign(key, CanonicalOf(package)))
  }

  lemma SignPayloadIsSigned(h: Host, key: PrivateKey, payload: Record)
    ensures SignedBy(h, key, SignPayload(h, key, payload))
  {
    ExtraKeysUnsigned(payload, SignatureFields(h, key, payload));
  }

  lemma FinishIsSigned(h: Host, key: PrivateKey, limit: nat, info: TaskInfo, completedAt: int, o: Outcome)
    ensures SignedBy(h, key, Finish(h, key, limit, info, completedAt, o).package)
  {
    SignPayloadIsSigned(h, key, BuildPayload(info, completedAt, PreparedOutcome(h, limit, o)));
  }

  /** A package says "ok" exactly when the executor said "ok" and its artifacts fit the limit. */
  ghost predicate ReturnedOk(h: Host, limit: nat, o: Outcome) {
    && o.Returned? && o.execution.Execution? && o.execution.status == Str("ok")
    && (o.execution.artifacts.Some? ==> TotalBytes(MaterializeArtifacts(h, o.execution.artifacts.value)) <= limit)
  }

  lemma PlusStatus(base: Record, fields: Record, status: string)
    requires STATUS in fields && fields[STATUS] == Str(status)
    ensures Get(base + fields, STATUS) == Str(status)
  {
  }

  lemma ErrorStatus(info: TaskInfo, completedAt: int, code: Json, message: Json, retryable: bool, schemaValid: bool,
                    usage: Json)
    ensures Get(ErrorPayload(info, completedAt, code, message, retryable, schemaValid, usage), STATUS) == Str("error")
  {
    hide BasePayload, Get, OrElse;
    PlusStatus(BasePayload(info, completedAt), ErrorFields(code, message, retryable, schemaValid, usage), "error");
  }

  lemma PayloadStatus(info: TaskInfo, completedAt: int, p: Prepared)
    ensures Get(BuildPayload(info, completedAt, p), STATUS) ==
            Str(if p.Prepared? && p.status == Str("ok") then "ok" else "error")
  {
    hide ErrorPayload, BasePayload, DeclaredAll, OrElse, Prop, Get;
    if p.Prepared? && p.status == Str("ok") {
      PlusStatus(BasePayload(info, completedAt), OkFields(p), "ok");
    } else if p.Prepared? && p.status == Str("error") {
      ErrorStatus(info, completedAt, OrElse(Prop(p.error, CODE), Str("EXECUTOR_RUNTIME_ERROR")),
                  OrElse(Prop(p.error, MESSAGE), Str("Seller executor reported an error")),
                  Prop(p.error, RETRYABLE) == Bool(true), p.schemaValid != Bool(false), p.usage);
    } else {
      var message := if p.NotAnObject? then Str("Seller executor returned an invalid result object")
                     else Str("Seller executor must return status 'ok' or 'error'");
      ErrorStatus(info, completedAt, Str("EXECUTOR_INVALID_RESULT"), message, false, true, Undefined);
    }
  }

  lemma PreparedStatus(h: Host, limit: nat, o: Outcome)
    ensures var p := PreparedOutcome(h, limit, o);
            p.Prepared? && p.status == Str("ok") <==> ReturnedOk(h, limit, o)
  {
    assert TotalBytes([]) == 0;
  }

  lemma OkPackageMeansOkExecution(h: Host, key: PrivateKey, limit: nat, info: TaskInfo, completedAt: int, o: Outcome)
    ensures Get(Finish(h, key, limit, info, completedAt, o).package, STATUS) == Str("ok") <==> ReturnedOk(h, limit, o)
  {
    hide BuildPayload, PreparedOutcome;
    PreparedStatus(h, limit, o);
    PayloadStatus(info, completedAt, PreparedOutcome(h, limit, o));
  }
}
