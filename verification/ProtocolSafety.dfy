/** What a SUCCEEDED request proves about the seller, over every run of the protocol, strangers' mail included. */
module ProtocolSafety {
  import opened Wrappers
  import opened Json
  import opened Contracts
  import opened SellerResult
  import opened ResultContents
  import opened SellerStore
  import opened BuyerRequest
  import opened Hub
  import opened RoundTrip
  import opened Protocol
  import Seller = SellerMachine
  import Buyer = BuyerMachine
  import Inbox = BuyerInbox

  // ----- what is assumed of strangers -----

  /** The package is signed, and its signature is one of the seller's key over what would be recomputed from it. */
  ghost predicate Verifies(p: Parties, package: Record) {
    && Truthy(Get(package, SIGNATURE_BASE64)) && BufferOf(p.h, Get(package, SIGNATURE_BASE64)).Some?
    && p.h.verify(p.h.publicPem(p.key), CanonicalOf(package), BufferOf(p.h, Get(package, SIGNATURE_BASE64)).value)
  }

  /**
   A package nobody could forge: `exact` says that it is one the seller signed, otherwise only that if its signature
   verifies under the seller's key, then the seller signed the same bytes.
   */
  ghost predicate Sourced(p: Parties, log: set<Entry>, package: Record, exact: bool) {
    if exact then exists e :: e in log && Signed(p, e).package == package
    else Verifies(p, package) ==> exists e :: e in log && CanonicalOf(Signed(p, e).package) == CanonicalOf(package)
  }

  /** A result is sourced, wherever it comes from; a posted `null` does not hit a request that has succeeded. */
  ghost predicate ChangeAdmitted(p: Parties, log: set<Entry>, r: Request, c: Buyer.Change, exact: bool) {
    match c
    case PostResult(Some(body)) => Sourced(p, log, body, exact)
    case LateResult(Some(body)) => Sourced(p, log, body, exact)
    case LateResult(None) => r.status != SUCCEEDED
    case InboxResult(package, _) => Sourced(p, log, package, exact)
    case _ => true
  }

  /** Neither strangers nor those who post results forge. */
  ghost predicate Admitted(p: Parties, w: World, e: Event, exact: bool) {
    match e
    case ForeignMail(m) => m.payload.TaskResult? ==> Sourced(p, w.log, m.payload.package, exact)
    case BuyerChanges(Touch(id, c)) => id in w.requests ==> ChangeAdmitted(p, w.log, w.requests[id], c, exact)
    case _ => true
  }

  ghost predicate IsAdmitted(p: Parties, states: seq<World>, events: seq<Event>, exact: bool) {
    && |states| == |events| + 1
    && forall i {:trigger events[i]} | 0 <= i < |events| :: Admitted(p, states[i], events[i], exact)
  }

  // ----- the invariant -----

  /** Every stored result is one of the signatures, for the very task it is stored with. */
  ghost predicate ResultsTraced(p: Parties, log: set<Entry>, tasks: map<TaskId, Task>) {
    forall t | t in tasks && tasks[t].result.Some? ::
      exists e :: e in log && e.info == tasks[t].info && Signed(p, e) == tasks[t].result.value
  }

  ghost predicate MailSourced(p: Parties, log: set<Entry>, mail: set<Message>, exact: bool) {
    forall m | m in mail && m.payload.TaskResult? :: Sourced(p, log, m.payload.package, exact)
  }

  /** Only requests on the list of executions have an execution signed for them. */
  ghost predicate LogOk(log: set<Entry>, executed: seq<RequestId>) {
    forall e | e in log && e.cause.Ran? :: e.info.requestId in executed
  }

  /** A signature that was found is still the one of the pinned key. */
  ghost predicate StillSigned(p: Parties, r: Request, package: Record) {
    Truthy(Get(package, SIGNATURE_BASE64)) ==> SignatureOk(p.h, r.binding, package)
  }

  /** A SUCCEEDED request holds a sourced package that names it and says ok. */
  ghost predicate SuccessOk(p: Parties, log: set<Entry>, id: string, r: Request, exact: bool) {
    && r.terms.requestId == id
    && (r.status == SUCCEEDED ==>
          && r.resultPackage.Some? && Get(r.resultPackage.value, REQUEST_ID) == Str(id)
          && Get(r.resultPackage.value, STATUS) == Str("ok") && Sourced(p, log, r.resultPackage.value, exact)
          && StillSigned(p, r, r.resultPackage.value))
  }

  ghost predicate RequestsOk(p: Parties, log: set<Entry>, requests: Inbox.Requests, exact: bool) {
    forall id | id in requests :: SuccessOk(p, log, id, requests[id], exact)
  }

  ghost predicate Safe(p: Parties, w: World, exact: bool) {
    && IdsOk(w.seller) && RanOk(w.seller) && LogOk(w.log, w.seller.executed)
    && ResultsTraced(p, w.log, w.seller.store.tasks) && ResultsTraced(p, w.log, w.seller.durable.tasks)
    && MailSourced(p, w.log, w.buyerMail, exact) && RequestsOk(p, w.log, w.requests, exact)
  }

  // ----- what a signature says -----

  /** A signed package names the request of its task, and says ok exactly when the executor did. */
  lemma SignedPackage(p: Parties, e: Entry)
    ensures Get(Signed(p, e).package, REQUEST_ID) == Str(e.info.requestId)
    ensures Get(Signed(p, e).package, STATUS) == Str("ok") <==>
            e.cause.Ran? && ReturnedOk(p.h, p.limit, e.cause.outcome)
    ensures SignedBy(p.h, p.key, Signed(p, e).package)
  {
    match e.cause
    case Ran(o) =>
      FinishIsSigned(p.h, p.key, p.limit, e.info, e.at, o);
      OkPackageMeansOkExecution(p.h, p.key, p.limit, e.info, e.at, o);
      FinishedNames(p, e, o);
    case Refused(code, message) =>
      RejectionSays(p, e, code, message);
  }

  lemma FinishedNames(p: Parties, e: Entry, o: Outcome)
    ensures Get(Finish(p.h, p.key, p.limit, e.info, e.at, o).package, REQUEST_ID) == Str(e.info.requestId)
  {
    var payload := BuildPayload(e.info, e.at, PreparedOutcome(p.h, p.limit, o));
    PayloadSays(e.info, e.at, PreparedOutcome(p.h, p.limit, o));
    hide BuildPayload, OutcomeSays, PreparedOutcome;
    SigningHides(p.h, p.key, payload, REQUEST_ID);
    hide SignPayload;
  }

  lemma RejectionSays(p: Parties, e: Entry, code: Json, message: Json)
    ensures var f := Rejection(p.h, p.key, e.info, e.at, code, message);
            && Get(f.package, REQUEST_ID) == Str(e.info.requestId) && Get(f.package, STATUS) == Str("error")
            && SignedBy(p.h, p.key, f.package)
  {
    var payload := ErrorPayload(e.info, e.at, code, message, false, true, Undefined);
    ErrorSays(e.info, e.at, code, message, false, true, Undefined);
    SignPayloadIsSigned(p.h, p.key, payload);
    hide ErrorPayload, SignedBy;
    SigningHides(p.h, p.key, payload, REQUEST_ID);
    SigningHides(p.h, p.key, payload, STATUS);
    hide SignPayload;
  }

  // ----- growth of the log -----

  lemma LogGrows(p: Parties, w: World, e: Event)
    ensures w.log <= LogAfter(w, e)
  {
  }

  lemma TracedGrows(p: Parties, a: set<Entry>, b: set<Entry>, tasks: map<TaskId, Task>)
    requires a <= b && ResultsTraced(p, a, tasks)
    ensures ResultsTraced(p, b, tasks)
  {
    hide Signed;
  }

  lemma SourcedGrows(p: Parties, a: set<Entry>, b: set<Entry>, package: Record, exact: bool)
    requires a <= b && Sourced(p, a, package, exact)
    ensures Sourced(p, b, package, exact)
  {
    hide Signed, CanonicalOf, Verifies;
  }

  lemma MailGrows(p: Parties, a: set<Entry>, b: set<Entry>, mail: set<Message>, exact: bool)
    requires a <= b && MailSourced(p, a, mail, exact)
    ensures MailSourced(p, b, mail, exact)
  {
    hide Sourced;
    forall m | m in mail && m.payload.TaskResult? ensures Sourced(p, b, m.payload.package, exact) {
      SourcedGrows(p, a, b, m.payload.package, exact);
    }
  }

  lemma RequestsGrow(p: Parties, a: set<Entry>, b: set<Entry>, requests: Inbox.Requests, exact: bool)
    requires a <= b && RequestsOk(p, a, requests, exact)
    ensures RequestsOk(p, b, requests, exact)
  {
    hide Sourced, StillSigned, Get;
    forall id | id in requests ensures SuccessOk(p, b, id, requests[id], exact) {
      assert SuccessOk(p, a, id, requests[id], exact);
      if requests[id].status == SUCCEEDED {
        SourcedGrows(p, a, b, requests[id].resultPackage.value, exact);
      }
    }
  }

  /** What the seller signs is sourced either way. */
  lemma OwnIsSourced(p: Parties, log: set<Entry>, e: Entry, exact: bool)
    requires e in log
    ensures Sourced(p, log, Signed(p, e).package, exact)
  {
    hide Signed, CanonicalOf, Verifies;
  }

  // ----- the seller's side -----

  lemma CrashRehydrates(s: Seller.System)
    ensures var s' := Seller.Step(s, Seller.Crash); s'.store.tasks == s.durable.tasks && s'.durable == s.durable
  {
    hide Seller.Running;
  }

  lemma ResultsStayTraced(p: Parties, w: World, e: Event)
    requires Enabled(p, w, e) && IdsOk(w.seller)
    requires ResultsTraced(p, w.log, w.seller.store.tasks) && ResultsTraced(p, w.log, w.seller.durable.tasks)
    ensures var w' := Step(p, w, e);
            ResultsTraced(p, w'.log, w'.seller.store.tasks) && ResultsTraced(p, w'.log, w'.seller.durable.tasks)
  {
    var w' := Step(p, w, e);
    LogGrows(p, w, e);
    StepParts(p, w, e);
    assert SellerEvent(p, e).Some? ==> Seller.Enabled(w.seller, SellerEvent(p, e).value);
    hide Step, Enabled, LogAfter, ResultsTraced, IdsOk, Seller.Enabled, ToSeller, ToBuyer, RequestsAfter, HandledAfter,
         SettledAfter;
    TracedGrows(p, w.log, w'.log, w.seller.store.tasks);
    TracedGrows(p, w.log, w'.log, w.seller.durable.tasks);
    if SellerEvent(p, e).Some? {
      var s := SellerEvent(p, e).value;
      if s.Crash? {
        CrashRehydrates(w.seller);
      } else {
        StoreStaysTraced(p, w, e, s);
        DurableStaysTraced(p, w, e, s);
      }
      hide Seller.Step;
    }
  }

  lemma StoreStaysTraced(p: Parties, w: World, e: Event, s: Seller.Event)
    requires Enabled(p, w, e) && IdsOk(w.seller) && SellerEvent(p, e) == Some(s) && !s.Crash?
    requires ResultsTraced(p, w.log, w.seller.store.tasks)
    ensures ResultsTraced(p, LogAfter(w, e), Seller.Step(w.seller, s).store.tasks)
  {
    var after, log := Seller.Step(w.seller, s).store.tasks, LogAfter(w, e);
    LogGrows(p, w, e);
    hide Seller.Step, Signed, Enabled, IdsOk, SellerEvent;
    forall t | t in after && after[t].result.Some?
      ensures exists x :: x in log && x.info == after[t].info && Signed(p, x) == after[t].result.value
    {
      KeptOrSigned(p, w, e, s, t);
      if t in w.seller.store.tasks && after[t].result == w.seller.store.tasks[t].result
         && SameTask(w.seller.store.tasks[t], after[t]) {
        var x :| x in w.log && x.info == w.seller.store.tasks[t].info
                 && Signed(p, x) == w.seller.store.tasks[t].result.value;
        assert x in log;
      } else {
        hide ResultsTraced;
        assert e.SellerRejects? || e.Finishes?;
        assert e.entry in log;
      }
    }
  }

  /** A snapshot is a copy of a store. */
  lemma DurableStaysTraced(p: Parties, w: World, e: Event, s: Seller.Event)
    requires Enabled(p, w, e) && SellerEvent(p, e) == Some(s) && !s.Crash?
    ensures Seller.Step(w.seller, s).durable == w.seller.durable || Seller.Step(w.seller, s).durable == w.seller.store
    ensures Seller.Step(w.seller, s).durable != w.seller.durable ==> Seller.Step(w.seller, s).store == w.seller.store
  {
    hide Enqueue, ScheduleOnce, Remember, Complete, Defer, Release, TaskForRequest, Signed, Seller.FreshTask;
  }

  lemma SellerStaysOk(p: Parties, w: World, e: Event)
    requires Enabled(p, w, e) && IdsOk(w.seller) && RanOk(w.seller)
    ensures var s := Step(p, w, e).seller;
            IdsOk(s) && RanOk(s) && forall r | r in w.seller.executed :: r in s.executed
  {
    if SellerEvent(p, e).Some? {
      var s := SellerEvent(p, e).value;
      StepKeepsIds(w.seller, s);
      StepKeepsRan(w.seller, s);
      hide Seller.Step, IdsOk, RanOk, SellerEvent;
    }
  }

  lemma FinishingRan(p: Parties, w: World, e: Event)
    requires Enabled(p, w, e) && e.Finishes? && RanOk(w.seller)
    ensures e.entry.info.requestId in w.seller.executed
  {
    hide Signed, Seller.FreshTask, MayReceive, MayReject, Silent, Buyer.Brand;
    assert MayFinish(w, e.id, e.entry, e.again, e.copy);
    var id := e.id;
    assert Seller.RunAt(w.seller, id, if e.again then Seller.Settled else Seller.Executing);
    hide Enabled;
  }

  lemma ExecutionsLogged(p: Parties, w: World, e: Event)
    requires Enabled(p, w, e) && RanOk(w.seller) && LogOk(w.log, w.seller.executed)
    ensures LogOk(LogAfter(w, e), w.seller.executed)
  {
    if e.Finishes? {
      FinishingRan(p, w, e);
    }
    assert e.SellerRejects? ==> e.entry.cause.Refused?;
    hide Enabled, RanOk;
  }

  // ----- the mail -----

  lemma MailStaysSourced(p: Parties, w: World, e: Event, exact: bool)
    requires Admitted(p, w, e, exact) && ResultsTraced(p, w.log, w.seller.store.tasks)
    requires MailSourced(p, w.log, w.buyerMail, exact)
    ensures MailSourced(p, LogAfter(w, e), w.buyerMail + SeqToSet(ToBuyer(p, w, e)), exact)
  {
    LogGrows(p, w, e);
    MailGrows(p, w.log, LogAfter(w, e), w.buyerMail, exact);
    forall m | m in ToBuyer(p, w, e) && m.payload.TaskResult?
      ensures Sourced(p, LogAfter(w, e), m.payload.package, exact)
    {
      SentIsSourced(p, w, e, m, exact);
    }
    hide Sourced, ToBuyer, LogAfter, Admitted, ResultsTraced;
  }

  lemma SentIsSourced(p: Parties, w: World, e: Event, m: Message, exact: bool)
    requires Admitted(p, w, e, exact) && ResultsTraced(p, w.log, w.seller.store.tasks)
    requires m in ToBuyer(p, w, e) && m.payload.TaskResult?
    ensures Sourced(p, LogAfter(w, e), m.payload.package, exact)
  {
    hide Signed, Sourced;
    match e
    case ForeignMail(_) =>
    case SellerReceives(x, _, _) => ReplayIsSourced(p, w, x.requestId, exact); hide TaskForRequest, ResultsTraced;
    case SellerRejects(_, entry, _) => OwnIsSourced(p, LogAfter(w, e), entry, exact);
    case Finishes(_, entry, _, _) => OwnIsSourced(p, LogAfter(w, e), entry, exact);
  }

  lemma ReplayIsSourced(p: Parties, w: World, r: RequestId, exact: bool)
    requires ResultsTraced(p, w.log, w.seller.store.tasks)
    ensures var existing := TaskForRequest(w.seller.store, r);
            existing.Some? && existing.value.result.Some? ==>
              Sourced(p, w.log, existing.value.result.value.package, exact)
  {
    hide Signed, Sourced;
    var existing := TaskForRequest(w.seller.store, r);
    if existing.Some? && existing.value.result.Some? {
      var t := w.seller.store.requestIndex[r];
      assert t in w.seller.store.tasks;
      var e :| e in w.log && e.info == existing.value.info && Signed(p, e) == existing.value.result.value;
      OwnIsSourced(p, w.log, e, exact);
    }
  }

  // ----- the buyer's side -----

  /** A pinned signer stays. */
  lemma SignerStays(h: Host, r: Request, c: Buyer.Change)
    ensures r.binding.expectedSigner.Some? ==> Buyer.Apply(h, r, c).binding.expectedSigner == r.binding.expectedSigner
  {
    hide VerdictOf;
  }

  lemma SignatureFollowsSigner(h: Host, a: Binding, b: Binding, body: Record)
    requires a.expectedSigner.Some? ==> b.expectedSigner == a.expectedSigner
    requires SignatureOk(h, a, body) && Truthy(Get(body, SIGNATURE_BASE64))
    ensures SignatureOk(h, b, body)
  {
  }

  lemma ChangeKeepsSuccess(p: Parties, log: set<Entry>, id: string, r: Request, c: Buyer.Change, exact: bool)
    requires SuccessOk(p, log, id, r, exact) && !Buyer.IsResult(c)
    ensures SuccessOk(p, log, id, Buyer.Apply(p.h, r, c), exact)
  {
    Buyer.QuietChange(p.h, r, c);
    Buyer.ApplyKeepsTerms(p.h, r, c);
    SignerStays(p.h, r, c);
    if r.status == SUCCEEDED && Truthy(Get(r.resultPackage.value, SIGNATURE_BASE64)) {
      SignatureFollowsSigner(p.h, r.binding, Buyer.Apply(p.h, r, c).binding, r.resultPackage.value);
    }
    hide Buyer.Apply, Sourced, SignatureOk, Get;
  }

  /**
   A verdict of success is only reached on a package that names the request, says ok, and passed the signature check.
   */
  lemma SuccessSays(h: Host, r: Request, body: Record, attachments: Json)
    requires VerdictOf(h, r, body, attachments) == Some(Became(SUCCEEDED))
    ensures Get(body, REQUEST_ID) == Str(r.terms.requestId) && Get(body, STATUS) == Str("ok")
            && SignatureOk(h, r.binding, body)
  {
  }

  lemma ResultKeepsSuccess(p: Parties, log: set<Entry>, id: string, r: Request, body: Record,
                           attachments: Json, exact: bool)
    requires SuccessOk(p, log, id, r, exact) && Sourced(p, log, body, exact)
    requires !Terminal(r.status) || VerdictOf(p.h, r, body, attachments) != None
    ensures SuccessOk(p, log, id, ApplyResult(p.h, r, body, attachments), exact)
  {
    var v := VerdictOf(p.h, r, body, attachments);
    if v == Some(Became(SUCCEEDED)) {
      SuccessSays(p.h, r, body, attachments);
    }
    Buyer.VerdictIsVerdict(p.h, r, body, attachments);
    hide VerdictOf, Sourced, Get, Buyer.IsVerdict, SignatureOk;
  }

  lemma PostedKeepsSuccess(p: Parties, log: set<Entry>, id: string, r: Request, body: Record, exact: bool)
    requires SuccessOk(p, log, id, r, exact) && Sourced(p, log, body, exact)
    ensures SuccessOk(p, log, id, Buyer.ApplyPosted(p.h, r, Some(body)), exact)
  {
    hide Sourced, SuccessOk, ApplyResult, VerdictOf;
    Buyer.PostedConcludes(p.h, r, body);
    ResultKeepsSuccess(p, log, id, r, body, NO_ATTACHMENTS, exact);
  }

  /** A request that is not SUCCEEDED has nothing to show. */
  lemma NoSuccessIsOk(p: Parties, log: set<Entry>, id: string, r: Request, r': Request, exact: bool)
    requires SuccessOk(p, log, id, r, exact) && r'.terms == r.terms && r'.status != SUCCEEDED
    ensures SuccessOk(p, log, id, r', exact)
  {
    hide Sourced, StillSigned, Get;
  }

  /** Any admitted change of a request, late results included. */
  lemma ApplyKeepsSuccess(p: Parties, log: set<Entry>, id: string, r: Request, c: Buyer.Change, exact: bool)
    requires SuccessOk(p, log, id, r, exact) && ChangeAdmitted(p, log, r, c, exact)
    ensures SuccessOk(p, log, id, Buyer.Apply(p.h, r, c), exact)
  {
    hide Sourced, ApplyResult, StillSigned, SuccessOk;
    if !Buyer.IsResult(c) {
      ChangeKeepsSuccess(p, log, id, r, c, exact);
    } else {
      match c
      case PostResult(Some(body)) => PostedKeepsSuccess(p, log, id, r, body, exact);
      case LateResult(Some(body)) => PostedKeepsSuccess(p, log, id, r, body, exact);
      case PostResult(None) =>
        if !Terminal(r.status) {
          NoSuccessIsOk(p, log, id, r, Buyer.Apply(p.h, r, c), exact);
        }
      case LateResult(None) => NoSuccessIsOk(p, log, id, r, Buyer.Apply(p.h, r, c), exact);
      case InboxResult(package, attachments) =>
        if !Terminal(r.status) {
          ResultKeepsSuccess(p, log, id, r, package, attachments, exact);
        }
      case InboxUnparsable =>
        if !Terminal(r.status) {
          NoSuccessIsOk(p, log, id, r, Buyer.Apply(p.h, r, c), exact);
        }
    }
  }

  lemma ReceivedKeepsSuccess(p: Parties, w: World, m: Message, exact: bool)
    requires RequestsOk(p, w.log, w.requests, exact)
    requires m.payload.TaskResult? ==> Sourced(p, w.log, m.payload.package, exact)
    ensures RequestsOk(p, w.log, Inbox.Received(p.h, w.requests, m), exact)
  {
    hide Buyer.Apply, SuccessOk, Sourced;
    match m.payload
    case TaskResult(package, _) =>
      var id := Get(package, REQUEST_ID);
      if Inbox.Names(w.requests.Keys, id) {
        ApplyKeepsSuccess(p, w.log, id.s, w.requests[id.s], Buyer.InboxResult(package, Inbox.Carried(m)), exact);
      }
    case Unparsable =>
      if m.requestId in w.requests {
        ApplyKeepsSuccess(p, w.log, m.requestId, w.requests[m.requestId], Buyer.InboxUnparsable, exact);
      }
    case _ =>
  }

  lemma NewIsOk(p: Parties, log: set<Entry>, r: Request, exact: bool)
    requires Buyer.Brand(r)
    ensures SuccessOk(p, log, r.terms.requestId, r, exact)
  {
  }

  lemma RequestsStayOk(p: Parties, w: World, e: Event, exact: bool)
    requires Enabled(p, w, e) && Admitted(p, w, e, exact)
    requires RequestsOk(p, w.log, w.requests, exact) && MailSourced(p, w.log, w.buyerMail, exact)
    ensures RequestsOk(p, w.log, RequestsAfter(p, w, e), exact)
  {
    hide Sourced, SellerEvent;
    match e
    case BuyerHandles(m) =>
      ReceivedKeepsSuccess(p, w, m, exact);
      hide Inbox.Received;
    case BuyerChanges(Create(r)) =>
      NewIsOk(p, w.log, r, exact);
      hide SuccessOk, Enabled;
    case BuyerChanges(Touch(id, c)) =>
      assert id in w.requests;
      hide Enabled, Buyer.Apply;
      ApplyKeepsSuccess(p, w.log, id, w.requests[id], c, exact);
      hide SuccessOk;
    case _ =>
  }

  // ----- whole runs -----

  lemma StepIsSafe(p: Parties, w: World, e: Event, exact: bool)
    requires Enabled(p, w, e) && Admitted(p, w, e, exact) && Safe(p, w, exact)
    ensures Safe(p, Step(p, w, e), exact)
  {
    ExecutionsLogged(p, w, e);
    SellerStaysOk(p, w, e);
    ResultsStayTraced(p, w, e);
    MailStaysSourced(p, w, e, exact);
    RequestsStayOk(p, w, e, exact);
    LogGrows(p, w, e);
    RequestsGrow(p, w.log, LogAfter(w, e), RequestsAfter(p, w, e), exact);
    hide Enabled, Admitted, IdsOk, RanOk, ResultsTraced, MailSourced, RequestsOk, SellerEvent, Seller.Step, LogAfter,
         RequestsAfter, ToBuyer;
  }

  lemma {:induction false} RunIsSafe(p: Parties, states: seq<World>, events: seq<Event>, i: nat, exact: bool)
    requires IsRun(p, states, events) && IsAdmitted(p, states, events, exact) && i < |states|
    ensures Safe(p, states[i], exact)
  {
    hide Safe, Admitted, Enabled, Step;
    if i == 0 {
      InitIsSafe(p, exact);
    } else {
      RunIsSafe(p, states, events, i - 1, exact);
      assert Next(p, states[i - 1], events[i - 1], states[i]) && Admitted(p, states[i - 1], events[i - 1], exact);
      StepIsSafe(p, states[i - 1], events[i - 1], exact);
    }
  }

  lemma InitIsSafe(p: Parties, exact: bool)
    ensures Safe(p, Init(p), exact)
  {
  }

  /** The step of the run that made a signature. */
  ghost predicate Makes(e: Event, entry: Entry) {
    (e.Finishes? && e.entry == entry) || (e.SellerRejects? && e.entry == entry)
  }

  lemma SignedByStep(p: Parties, w: World, e: Event, entry: Entry)
    requires Enabled(p, w, e) && entry in Step(p, w, e).log && entry !in w.log
    ensures Makes(e, entry) && (e.SellerRejects? ==> entry.cause.Refused?)
  {
  }

  lemma {:induction false} SignedDuringRun(p: Parties, states: seq<World>, events: seq<Event>, i: nat, entry: Entry)
      returns (k: nat)
    requires IsRun(p, states, events) && i < |states| && entry in states[i].log
    ensures k < i && Makes(events[k], entry) && (events[k].SellerRejects? ==> entry.cause.Refused?)
  {
    hide Enabled, Step;
    assert i > 0 && Next(p, states[i - 1], events[i - 1], states[i]);
    if entry in states[i - 1].log {
      k := SignedDuringRun(p, states, events, i - 1, entry);
    } else {
      k := i - 1;
      SignedByStep(p, states[k], events[k], entry);
    }
  }

  /** SUCCEEDED, pinned to the seller's key, with a package that carries a signature. */
  ghost predicate SucceededSigned(p: Parties, r: Request) {
    && r.status == SUCCEEDED && r.binding.expectedSigner == Some(p.h.publicPem(p.key))
    && r.resultPackage.Some? && Truthy(Get(r.resultPackage.value, SIGNATURE_BASE64))
  }

  lemma SignedVerifies(p: Parties, log: set<Entry>, id: string, r: Request)
    requires SuccessOk(p, log, id, r, false) && SucceededSigned(p, r)
    ensures Verifies(p, r.resultPackage.value)
  {
  }

  lemma SignatureSource(p: Parties, log: set<Entry>, id: string, r: Request) returns (entry: Entry)
    requires SuccessOk(p, log, id, r, false) && SucceededSigned(p, r)
    ensures entry in log && AgreeOn(SIGNED_KEYS, r.resultPackage.value, Signed(p, entry).package)
    ensures Get(Signed(p, entry).package, REQUEST_ID) == Str(id) && Get(Signed(p, entry).package, STATUS) == Str("ok")
  {
    SignedVerifies(p, log, id, r);
    var package := r.resultPackage.value;
    hide Signed, Verifies, CanonicalOf, StillSigned, SucceededSigned;
    assert Sourced(p, log, package, false);
    entry :| entry in log && CanonicalOf(Signed(p, entry).package) == CanonicalOf(package);
    SignedKeysAgree(package, Signed(p, entry).package);
    hide Get;
    assert REQUEST_ID in SIGNED_KEYS && STATUS in SIGNED_KEYS;
  }

  /** What the seller signed for an ok execution reports it. */
  lemma SignedOutput(p: Parties, e: Entry)
    requires e.cause.Ran? && ReturnedOk(p.h, p.limit, e.cause.outcome)
    ensures OutputArrives(e.cause.outcome, Signed(p, e).package)
  {
    FinishTells(p.h, p.key, p.limit, e.info, e.at, e.cause.outcome);
    hide PackageTells, ReturnedOk, Finish, OutputArrives;
    OkTells(p.h, p.limit, e.cause.outcome, Signed(p, e).package);
  }

  lemma OutputFollows(o: Outcome, a: Record, b: Record)
    requires OutputArrives(o, b) && Get(a, OUTPUT) == Get(b, OUTPUT) && Get(a, USAGE) == Get(b, USAGE)
    ensures OutputArrives(o, a)
  {
    hide Get, Truthy;
  }

  /**
   If the buyer holds SUCCEEDED for a request pinned to the seller's key, and the stored package carries a signature,
   then the executor was called for that request and, at step k of the run, returned ok for it; and on all signed keys
   the package is the one the seller signed for that very task. Strangers may write what they like, short of forging.
   */
  lemma SucceededMeansExecuted(p: Parties, states: seq<World>, events: seq<Event>, i: nat, id: string)
      returns (k: nat, entry: Entry)
    requires IsRun(p, states, events) && IsAdmitted(p, states, events, false) && i < |states|
    requires id in states[i].requests && SucceededSigned(p, states[i].requests[id])
    ensures k < i && events[k].Finishes? && events[k].entry == entry
    ensures entry.cause.Ran? && ReturnedOk(p.h, p.limit, entry.cause.outcome) && entry.info.requestId == id
    ensures id in states[i].seller.executed
    ensures OutputArrives(entry.cause.outcome, states[i].requests[id].resultPackage.value)
    ensures var a, b := states[i].requests[id].resultPackage.value, Signed(p, entry).package;
            && Get(a, MESSAGE_TYPE) == Get(b, MESSAGE_TYPE) && Get(a, REQUEST_ID) == Get(b, REQUEST_ID)
            && Get(a, RESULT_VERSION) == Get(b, RESULT_VERSION) && Get(a, SELLER_ID) == Get(b, SELLER_ID)
            && Get(a, SUBAGENT_ID) == Get(b, SUBAGENT_ID) && Get(a, VERIFICATION) == Get(b, VERIFICATION)
            && Get(a, STATUS) == Get(b, STATUS) && Get(a, OUTPUT) == Get(b, OUTPUT)
            && Get(a, ARTIFACTS) == Get(b, ARTIFACTS) && Get(a, ERROR) == Get(b, ERROR)
            && Get(a, TIMING) == Get(b, TIMING) && Get(a, USAGE) == Get(b, USAGE)
  {
    RunIsSafe(p, states, events, i, false);
    hide Next, Admitted, IdsOk, RanOk, ResultsTraced, MailSourced, SucceededSigned, SuccessOk, AgreeOn, Signed,
         ReturnedOk, OutputArrives, Get;
    assert SuccessOk(p, states[i].log, id, states[i].requests[id], false);
    entry := SignatureSource(p, states[i].log, id, states[i].requests[id]);
    SignedPackage(p, entry);
    SignedOutput(p, entry);
    TwelveKeys(states[i].requests[id].resultPackage.value, Signed(p, entry).package);
    OutputFollows(entry.cause.outcome, states[i].requests[id].resultPackage.value, Signed(p, entry).package);
    k := SignedDuringRun(p, states, events, i, entry);
  }

  /**
   When all results come from this seller, a signer need not be pinned, and the stored package is exactly the signed
   one.
   */
  lemma SucceededThroughOwnSeller(p: Parties, states: seq<World>, events: seq<Event>, i: nat, id: string)
      returns (k: nat, entry: Entry)
    requires IsRun(p, states, events) && IsAdmitted(p, states, events, true) && i < |states|
    requires id in states[i].requests && states[i].requests[id].status == SUCCEEDED
    ensures k < i && events[k].Finishes? && events[k].entry == entry
    ensures entry.cause.Ran? && ReturnedOk(p.h, p.limit, entry.cause.outcome) && entry.info.requestId == id
    ensures id in states[i].seller.executed
    ensures states[i].requests[id].resultPackage == Some(Signed(p, entry).package)
    ensures OutputArrives(entry.cause.outcome, Signed(p, entry).package)
  {
    RunIsSafe(p, states, events, i, true);
    hide Next, Admitted, IdsOk, RanOk, ResultsTraced, MailSourced, Signed, StillSigned, Get, ReturnedOk, OutputArrives;
    assert SuccessOk(p, states[i].log, id, states[i].requests[id], true);
    var package := states[i].requests[id].resultPackage.value;
    assert Sourced(p, states[i].log, package, true);
    entry :| entry in states[i].log && Signed(p, entry).package == package;
    SignedPackage(p, entry);
    SignedOutput(p, entry);
    k := SignedDuringRun(p, states, events, i, entry);
  }

  // ----- without a signature there is no such guarantee -----

  /** Wherever this package makes a pinned request succeed, the executor was called for it. */
  ghost predicate Warrants(p: Parties, id: string, package: Record) {
    forall states: seq<World>, events: seq<Event>, i: nat :: WarrantedAt(p, id, package, states, events, i)
  }

  ghost predicate WarrantedAt(p: Parties, id: string, package: Record, states: seq<World>, events: seq<Event>, i: nat) {
    (&& IsRun(p, states, events) && IsAdmitted(p, states, events, false) && i < |states| && id in states[i].requests
     && HoldsSuccess(p, states[i].requests[id], package)) ==>
      id in states[i].seller.executed
  }

  ghost predicate HoldsSuccess(p: Parties, r: Request, package: Record) {
    r.status == SUCCEEDED && r.binding.expectedSigner == Some(p.h.publicPem(p.key)) && r.resultPackage == Some(package)
  }

  lemma NoSteps(p: Parties, exact: bool)
    ensures IsRun(p, [Init(p)], []) && IsAdmitted(p, [Init(p)], [], exact)
  {
  }

  lemma OneMoreStep(p: Parties, states: seq<World>, events: seq<Event>, e: Event, exact: bool)
      returns (states': seq<World>, events': seq<Event>)
    requires IsRun(p, states, events) && IsAdmitted(p, states, events, exact)
    requires Enabled(p, states[|events|], e) && Admitted(p, states[|events|], e, exact)
    ensures events' == events + [e] && states' == states + [Step(p, states[|events|], e)]
    ensures IsRun(p, states', events') && IsAdmitted(p, states', events', exact)
  {
    hide Enabled, Step, Admitted;
    events', states' := events + [e], states + [Step(p, states[|events|], e)];
    forall i | 0 <= i < |events'|
      ensures Next(p, states'[i], events'[i], states'[i + 1]) && Admitted(p, states'[i], events'[i], exact)
    {
      if i < |events| {
        assert events'[i] == events[i] && Next(p, states[i], events[i], states[i + 1]);
      }
    }
  }

  /** A stranger's unsigned package that passes the ladder: the request succeeds though nothing was ever executed. */
  lemma UnsignedSucceeds(p: Parties, r: Request, package: Record, attachments: Json)
      returns (states: seq<World>, events: seq<Event>)
    requires Buyer.Brand(r) && r.terms.requestId != "" && r.binding.expectedSigner == Some(p.h.publicPem(p.key))
    requires VerdictOf(p.h, r, package, attachments) == Some(Became(SUCCEEDED))
             && !Truthy(Get(package, SIGNATURE_BASE64))
    ensures IsRun(p, states, events) && IsAdmitted(p, states, events, false) && |states| == 4
    ensures r.terms.requestId in states[3].requests && HoldsSuccess(p, states[3].requests[r.terms.requestId], package)
    ensures states[3].seller.executed == []
  {
    hide VerdictOf, Get, Admitted, Enabled, Step, Next, IsRun, IsAdmitted, Init, Buyer.Brand;
    var m := Message("x", r.terms.requestId, TaskResult(package, attachments));
    SuccessSays(p.h, r, package, attachments);
    var w1 := FirstCreated(p, r);
    var w2 := MailArrives(p, w1, r, m);
    var w3 := MailHandled(p, w2, r, m, package, attachments);
    UnsignedIsAdmitted(p, Init(p), w1, w2, r, m, package, attachments);
    NoSteps(p, false);
    states, events := OneMoreStep(p, [Init(p)], [], BuyerChanges(Buyer.Create(r)), false);
    states, events := OneMoreStep(p, states, events, ForeignMail(m), false);
    states, events := OneMoreStep(p, states, events, BuyerHandles(m), false);
  }

  lemma UnsignedIsAdmitted(p: Parties, w0: World, w1: World, w2: World, r: Request, m: Message, package: Record,
                           attachments: Json)
    requires m.payload == TaskResult(package, attachments) && !Truthy(Get(package, SIGNATURE_BASE64))
    ensures Admitted(p, w0, BuyerChanges(Buyer.Create(r)), false)
    ensures Admitted(p, w1, ForeignMail(m), false) && Admitted(p, w2, BuyerHandles(m), false)
  {
    assert !Verifies(p, package);
    assert Sourced(p, w1.log, package, false);
    hide Sourced;
  }

  lemma FirstCreated(p: Parties, r: Request) returns (w: World)
    requires Buyer.Brand(r)
    ensures Enabled(p, Init(p), BuyerChanges(Buyer.Create(r))) && w == Step(p, Init(p), BuyerChanges(Buyer.Create(r)))
    ensures w.requests == map[r.terms.requestId := r] && w.seller.executed == []
  {
    w := Step(p, Init(p), BuyerChanges(Buyer.Create(r)));
  }

  lemma MailArrives(p: Parties, w: World, r: Request, m: Message) returns (w': World)
    requires w.requests == map[r.terms.requestId := r]
    ensures Enabled(p, w, ForeignMail(m)) && w' == Step(p, w, ForeignMail(m))
    ensures w'.requests == w.requests && w'.seller == w.seller && m in w'.buyerMail
  {
    w' := Step(p, w, ForeignMail(m));
    assert m in SeqToSet([m]);
  }

  /** Attachments that are falsy are none, and a package that succeeds with them succeeds without any. */
  lemma CarriedSucceeds(h: Host, r: Request, package: Record, attachments: Json)
    requires VerdictOf(h, r, package, attachments) == Some(Became(SUCCEEDED))
    ensures VerdictOf(h, r, package, OrElse(attachments, NO_ATTACHMENTS)) == Some(Became(SUCCEEDED))
  {
    hide ContextMatches, SignatureOk, CheckArtifacts, DeclaredIn;
  }

  lemma MailIsApplied(p: Parties, w: World, r: Request, m: Message, package: Record, attachments: Json)
    requires w.requests == map[r.terms.requestId := r] && m in w.buyerMail && r.terms.requestId != "" && Buyer.Brand(r)
    requires m.payload == TaskResult(package, attachments) && Get(package, REQUEST_ID) == Str(r.terms.requestId)
    requires VerdictOf(p.h, r, package, attachments) == Some(Became(SUCCEEDED))
    ensures Enabled(p, w, BuyerHandles(m)) && r.terms.requestId in Inbox.Received(p.h, w.requests, m)
    ensures Inbox.Received(p.h, w.requests, m)[r.terms.requestId] ==
            r.(resultPackage := Some(package), status := SUCCEEDED, lastError := NoError,
               timeline := r.timeline + [Became(SUCCEEDED)])
  {
    hide VerdictOf, Get, NO_ATTACHMENTS, OrElse;
    CarriedSucceeds(p.h, r, package, attachments);
    assert Inbox.Carried(m) == OrElse(attachments, NO_ATTACHMENTS);
    hide Inbox.Carried;
  }

  lemma MailHandled(p: Parties, w: World, r: Request, m: Message, package: Record, attachments: Json)
      returns (w': World)
    requires w.requests == map[r.terms.requestId := r] && m in w.buyerMail && r.terms.requestId != "" && Buyer.Brand(r)
    requires m.payload == TaskResult(package, attachments) && Get(package, REQUEST_ID) == Str(r.terms.requestId)
    requires VerdictOf(p.h, r, package, attachments) == Some(Became(SUCCEEDED))
    ensures Enabled(p, w, BuyerHandles(m)) && w' == Step(p, w, BuyerHandles(m)) && w'.seller == w.seller
    ensures r.terms.requestId in w'.requests
    ensures w'.requests[r.terms.requestId] ==
            r.(resultPackage := Some(package), status := SUCCEEDED, lastError := NoError,
                                                 timeline := r.timeline + [Became(SUCCEEDED)])
  {
    MailIsApplied(p, w, r, m, package, attachments);
    w' := Step(p, w, BuyerHandles(m));
    assert SellerEvent(p, BuyerHandles(m)) == None;
    StepParts(p, w, BuyerHandles(m));
    hide VerdictOf, Step, Inbox.Received, Buyer.Brand, Get;
  }

  lemma SignedWarrants(p: Parties, id: string, package: Record)
    requires Truthy(Get(package, SIGNATURE_BASE64))
    ensures Warrants(p, id, package)
  {
    hide Next, Admitted, Get;
    forall states: seq<World>, events: seq<Event>, i: nat ensures WarrantedAt(p, id, package, states, events, i) {
      if IsRun(p, states, events) && IsAdmitted(p, states, events, false) && i < |states| && id in states[i].requests
         && HoldsSuccess(p, states[i].requests[id], package) {
        var k, entry := SucceededMeansExecuted(p, states, events, i, id);
      }
    }
  }

  /**
   Of the packages that make a request pinned to the seller's key succeed, exactly those that carry a signature
   warrant that the executor was called for it.
   */
  lemma WarrantsIffSigned(p: Parties, r: Request, package: Record, attachments: Json)
    requires Buyer.Brand(r) && r.terms.requestId != "" && r.binding.expectedSigner == Some(p.h.publicPem(p.key))
    requires VerdictOf(p.h, r, package, attachments) == Some(Became(SUCCEEDED))
    ensures Warrants(p, r.terms.requestId, package) <==> Truthy(Get(package, SIGNATURE_BASE64))
  {
    hide VerdictOf, IsRun, IsAdmitted, HoldsSuccess, Get;
    if Truthy(Get(package, SIGNATURE_BASE64)) {
      SignedWarrants(p, r.terms.requestId, package);
    } else {
      var states, events := UnsignedSucceeds(p, r, package, attachments);
      assert !WarrantedAt(p, r.terms.requestId, package, states, events, 3);
    }
  }
}
