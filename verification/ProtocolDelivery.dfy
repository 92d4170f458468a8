/** No message is stranded: while the seller lives and its sends succeed, every dispatched request gets its answer. */
module ProtocolDelivery {
  import opened Wrappers
  import opened Json
  import opened Contracts
  import opened SellerResult
  import opened SellerStore
  import opened BuyerRequest
  import opened Hub
  import opened RoundTrip
  import opened Protocol
  import opened ProtocolSafety
  import Seller = SellerMachine
  import Once = SellerOnce
  import Buyer = BuyerMachine
  import Inbox = BuyerInbox

  // ----- what delivery asks of a run, step by step -----

  ghost predicate Unseen(mail: set<Message>, sent: seq<Message>) {
    forall m, x | m in sent && x in mail :: x.messageId != m.messageId
  }

  /** The process lives, message and request ids are new, and a result for the buyer reaches its queue. */
  ghost predicate Reliable(p: Parties, w: World, e: Event) {
    && !(e.SellerWorks? && e.work.Crash?)
    && Unseen(w.sellerMail, ToSeller(w, e)) && Unseen(w.buyerMail, ToBuyer(p, w, e))
    && (e.BuyerChanges? && e.change.Create? ==> e.change.r.terms.requestId !in w.requests)
    && (e.Finishes? && e.id in w.seller.store.tasks && w.seller.store.tasks[e.id].Target() == BUYER ==> e.copy.Some?)
    && (e.SellerRejects? && e.id in w.seller.pending && w.seller.pending[e.id].Target() == BUYER ==> e.copy.Some?)
  }

  ghost predicate IsReliable(p: Parties, states: seq<World>, events: seq<Event>) {
    && |states| == |events| + 1
    && forall i {:trigger events[i]} | 0 <= i < |events| :: Reliable(p, states[i], events[i])
  }

  // ----- a queue, everything that was ever in it, and what may be acknowledged -----

  ghost predicate MailboxOk(q: Queue, mail: set<Message>, done: set<string>) {
    && (forall m | m in q :: m in mail)
    && (forall a, b | a in mail && b in mail && a.messageId == b.messageId :: a == b)
    && (forall id | id in done :: exists m :: m in mail && m.messageId == id)
  }

  lemma MailboxGrows(q: Queue, mail: set<Message>, done: set<string>, sent: seq<Message>)
    requires MailboxOk(q, mail, done) && Unseen(mail, sent) && |sent| <= 1
    ensures MailboxOk(q + sent, mail + SeqToSet(sent), done)
  {
    forall id | id in done ensures exists m :: m in mail + SeqToSet(sent) && m.messageId == id {
      var m :| m in mail && m.messageId == id;
      assert m in mail + SeqToSet(sent);
    }
  }

  lemma MailboxAcks(q: Queue, mail: set<Message>, done: set<string>, id: string)
    requires MailboxOk(q, mail, done)
    ensures MailboxOk(AfterAck(q, id), mail, done)
  {
    AckRemovesOne(q, id);
  }

  // ----- the seller's queue -----

  ghost predicate Requested(q: Queue, r: RequestId) {
    exists m :: m in q && m.payload.TaskRequested? && m.requestId == r
  }

  /** A request the seller may acknowledge is indexed. */
  ghost predicate HandledOk(w: World) {
    forall m | m in w.sellerMail && m.messageId in w.handled :: m.requestId in w.seller.store.requestIndex
  }

  ghost predicate OriginOk(w: World) {
    forall q | q in w.seller.pending ::
      q in w.origin && w.origin[q] in w.sellerMail && w.origin[q].requestId == w.seller.pending[q].RequestId()
  }

  /** Every dispatched request still has its envelope in the queue, or is indexed. */
  ghost predicate NoneStranded(w: World) {
    forall r | r in w.dispatched :: Requested(w.toSeller, r) || r in w.seller.store.requestIndex
  }

  ghost predicate Keyed(requests: Inbox.Requests) {
    forall id | id in requests :: requests[id].terms.requestId == id
  }

  ghost predicate SellerSide(w: World) {
    && IdsOk(w.seller) && MailboxOk(w.toSeller, w.sellerMail, w.handled)
    && HandledOk(w) && OriginOk(w) && NoneStranded(w)
  }

  lemma AtMostOne(w: World, e: Event)
    ensures |ToSeller(w, e)| <= 1
  {
  }

  /** More may be acknowledged once more of the messages there have been dealt with. */
  lemma MoreDone(q: Queue, mail: set<Message>, done: set<string>, done': set<string>)
    requires MailboxOk(q, mail, done)
    requires forall id | id in done' :: id in done || exists m :: m in mail && m.messageId == id
    ensures MailboxOk(q, mail, done')
  {
  }

  lemma SellerMailbox(p: Parties, w: World, e: Event)
    requires Enabled(p, w, e) && Reliable(p, w, e) && MailboxOk(w.toSeller, w.sellerMail, w.handled) && OriginOk(w)
    ensures var w' := Step(p, w, e); MailboxOk(w'.toSeller, w'.sellerMail, w'.handled)
  {
    var w' := Step(p, w, e);
    NewlyHandled(p, w, e);
    StepParts(p, w, e);
    AtMostOne(w, e);
    assert Unseen(w.sellerMail, ToSeller(w, e)) && (e.SellerAcks? ==> ToSeller(w, e) == []);
    hide Step, Enabled, Reliable, HandledAfter, OriginOk, ToBuyer, NowIndexed, SellerEvent, RequestsAfter, SettledAfter,
         LogAfter, ToSeller, Unseen;
    if e.SellerAcks? {
      MailboxAcks(w.toSeller, w.sellerMail, w.handled, e.messageId);
    } else {
      MailboxGrows(w.toSeller, w.sellerMail, w.handled, ToSeller(w, e));
    }
    MoreDone(w'.toSeller, w'.sellerMail, w.handled, w'.handled);
  }

  /** What becomes acknowledgeable is a message of the queue whose request is now indexed. */
  lemma NewlyHandled(p: Parties, w: World, e: Event)
    requires Enabled(p, w, e) && OriginOk(w)
    ensures forall id | id in HandledAfter(w, e) ::
              || id in w.handled
              || exists m :: m in w.sellerMail && m.messageId == id && NowIndexed(p, w, e, m)
  {
    hide Signed, Seller.Step;
    forall id | id in HandledAfter(w, e) && id !in w.handled
      ensures exists m :: m in w.sellerMail && m.messageId == id && NowIndexed(p, w, e, m)
    {
      match e
      case SellerReceives(m, _, _) => assert NowIndexed(p, w, e, m);
      case SellerAccepts(t) => assert NowIndexed(p, w, e, w.origin[t]);
      case SellerRejects(t, _, _) => assert NowIndexed(p, w, e, w.origin[t]);
    }
  }

  /** The lookup found this message's request, or the step inserts it. */
  ghost predicate NowIndexed(p: Parties, w: World, e: Event, m: Message) {
    || m.requestId in w.seller.store.requestIndex
    || (e.SellerAccepts? && e.id in w.seller.pending && w.seller.pending[e.id].RequestId() == m.requestId)
    || (e.SellerRejects? && e.id in w.seller.pending && w.seller.pending[e.id].RequestId() == m.requestId)
  }

  lemma InsertIndexes(s: Seller.System, e: Seller.Event)
    requires Seller.Enabled(s, e)
    ensures (e.Accept? || e.Reject?) && e.id in s.pending ==>
              s.pending[e.id].RequestId() in Seller.Step(s, e).store.requestIndex
  {
    if e.Accept? {
      EnqueueKeepsTasks(s.store, s.pending[e.id]);
      hide Enqueue;
    } else if e.Reject? {
      Seller.RejectIs(s, e.id, e.result);
      hide Seller.Step;
    }
  }

  lemma InsertOf(p: Parties, e: Event)
    ensures e.SellerAccepts? ==> SellerEvent(p, e) == Some(Seller.Accept(e.id))
    ensures e.SellerRejects? ==> SellerEvent(p, e) == Some(Seller.Reject(e.id, Signed(p, e.entry)))
  {
    hide Signed;
  }

  lemma Lives(p: Parties, w: World, e: Event)
    requires Reliable(p, w, e) && SellerEvent(p, e).Some?
    ensures !SellerEvent(p, e).value.Crash?
  {
    hide Unseen, ToSeller, ToBuyer, Signed;
  }

  lemma SellerIsEnabled(p: Parties, w: World, e: Event)
    requires Enabled(p, w, e) && SellerEvent(p, e).Some?
    ensures Seller.Enabled(w.seller, SellerEvent(p, e).value)
  {
    hide Seller.Enabled, SellerEvent;
  }

  lemma IndexGrows(p: Parties, w: World, e: Event)
    requires Enabled(p, w, e) && Reliable(p, w, e) && IdsOk(w.seller)
    ensures w.seller.store.requestIndex.Keys <= Step(p, w, e).seller.store.requestIndex.Keys
    ensures forall m | NowIndexed(p, w, e, m) :: m.requestId in Step(p, w, e).seller.store.requestIndex
  {
    hide Step, Enabled, Reliable, SellerEvent, Seller.Step, Seller.Enabled, IdsOk;
    StepParts(p, w, e);
    if SellerEvent(p, e).Some? {
      var s := SellerEvent(p, e).value;
      Lives(p, w, e);
      SellerIsEnabled(p, w, e);
      InsertOf(p, e);
      StepKeepsTasks(w.seller, s);
      InsertIndexes(w.seller, s);
    } else {
      InsertOf(p, e);
    }
  }

  lemma HandledStaysOk(p: Parties, w: World, e: Event)
    requires Enabled(p, w, e) && Reliable(p, w, e) && SellerSide(w)
    ensures HandledOk(Step(p, w, e))
  {
    var w' := Step(p, w, e);
    NewlyHandled(p, w, e);
    IndexGrows(p, w, e);
    hide Enabled, HandledAfter, OriginOk, ToBuyer, ToSeller, SellerEvent, IdsOk, NoneStranded, Seller.Step;
    forall m | m in w'.sellerMail && m.messageId in w'.handled ensures m.requestId in w'.seller.store.requestIndex {
      if m.messageId in w.handled {
        var x :| x in w.sellerMail && x.messageId == m.messageId;
        assert m in w.sellerMail;
      } else {
        var x :| x in w.sellerMail && x.messageId == m.messageId && NowIndexed(p, w, e, x);
        assert m in w.sellerMail && m == x;
      }
    }
  }

  lemma PendingComes(s: Seller.System, e: Seller.Event, q: TaskId)
    requires Seller.Enabled(s, e) && q in Seller.Step(s, e).pending
    ensures || (q in s.pending && Seller.Step(s, e).pending[q] == s.pending[q])
            || (e.Receive? && q == e.task.id && Seller.Step(s, e).pending[q] == e.task)
  {
    hide Enqueue, ScheduleOnce, Without, Seller.Running, TaskForRequest;
  }

  /** A pending task was pending before, or has just been received. */
  ghost predicate Comes(w: World, e: Event, w': World, q: TaskId)
    requires q in w'.seller.pending
  {
    || (q in w.seller.pending && w'.seller.pending[q] == w.seller.pending[q])
    || (e.SellerReceives? && q == e.task.id && w'.seller.pending[q] == e.task)
  }

  lemma OriginKept(w: World, e: Event, w': World)
    requires OriginOk(w) && w.sellerMail <= w'.sellerMail && forall q | q in w'.seller.pending :: Comes(w, e, w', q)
    requires w'.origin == if e.SellerReceives? then w.origin[e.task.id := e.m] else w.origin
    requires e.SellerReceives? ==>
               e.m in w.sellerMail && e.m.requestId == e.task.RequestId() && e.task.id !in w.seller.pending
    ensures OriginOk(w')
  {
  }

  lemma ReceivedTask(p: Parties, w: World, e: Event)
    requires Enabled(p, w, e) && e.SellerReceives?
    ensures e.m in w.sellerMail && e.m.requestId == e.task.RequestId() && e.task.id !in w.seller.used
  {
    assert MayReceive(p, w, e.m, e.task);
  }

  lemma PendingAreUsed(s: Seller.System)
    requires IdsOk(s)
    ensures s.pending.Keys <= s.used
  {
  }

  lemma PendingOf(p: Parties, w: World, e: Event, w': World, q: TaskId)
    requires Enabled(p, w, e) && q in w'.seller.pending
    requires w'.seller == if SellerEvent(p, e).Some? then Seller.Step(w.seller, SellerEvent(p, e).value) else w.seller
    ensures Comes(w, e, w', q)
  {
    if SellerEvent(p, e).Some? {
      SellerIsEnabled(p, w, e);
      if SellerEvent(p, e).value.Receive? {
        OnlyReceives(p, w, e);
      }
      hide Enabled, Seller.Step, Seller.Enabled, SellerEvent;
      PendingComes(w.seller, SellerEvent(p, e).value, q);
    }
  }

  lemma OnlyReceives(p: Parties, w: World, e: Event)
    requires Enabled(p, w, e) && SellerEvent(p, e).Some? && SellerEvent(p, e).value.Receive?
    ensures e.SellerReceives? && SellerEvent(p, e).value.task == e.task
  {
    assert e.SellerWorks? ==> Silent(e.work);
    hide Seller.Enabled;
  }

  lemma OriginStaysOk(p: Parties, w: World, e: Event)
    requires Enabled(p, w, e) && IdsOk(w.seller) && OriginOk(w)
    ensures OriginOk(Step(p, w, e))
  {
    hide Enabled, IdsOk, Seller.Step, Step, OriginOk, ToBuyer, ToSeller, RequestsAfter, SettledAfter, HandledAfter,
         LogAfter, Seller.Enabled, SellerEvent, Comes;
    StepParts(p, w, e);
    var w' := Step(p, w, e);
    forall q | q in w'.seller.pending ensures Comes(w, e, w', q) {
      PendingOf(p, w, e, w', q);
    }
    if e.SellerReceives? {
      ReceivedTask(p, w, e);
      PendingAreUsed(w.seller);
    }
    OriginKept(w, e, w');
  }

  lemma AcksHandled(p: Parties, w: World, e: Event)
    requires Enabled(p, w, e) && e.SellerAcks?
    ensures e.messageId in w.handled
  {
  }

  /** What the queue holds after a step, as far as envelopes for r go. */
  lemma EnvelopesStay(p: Parties, w: World, e: Event, r: RequestId)
    requires Enabled(p, w, e) && HandledOk(w) && MailboxOk(w.toSeller, w.sellerMail, w.handled)
             && Requested(w.toSeller, r)
    ensures Requested(Step(p, w, e).toSeller, r) || r in w.seller.store.requestIndex
  {
    hide Enabled, Step, Seller.Step, ToSeller, SellerEvent, HandledAfter, SettledAfter, RequestsAfter, ToBuyer,
         LogAfter;
    StepParts(p, w, e);
    var m :| m in w.toSeller && m.payload.TaskRequested? && m.requestId == r;
    if e.SellerAcks? {
      AcksHandled(p, w, e);
      AckRemovesOne(w.toSeller, e.messageId);
    } else {
      assert m in Step(p, w, e).toSeller;
    }
  }

  lemma StrandsNone(p: Parties, w: World, e: Event)
    requires Enabled(p, w, e) && Reliable(p, w, e) && SellerSide(w) && Keyed(w.requests)
    ensures NoneStranded(Step(p, w, e))
  {
    var w' := Step(p, w, e);
    IndexGrows(p, w, e);
    if e.SendTask? {
      var m := ToSeller(w, e)[0];
      assert m in w'.toSeller && m.requestId == e.id;
    }
    hide Enabled, Step, Reliable;
    forall r | r in w.dispatched ensures Requested(w'.toSeller, r) || r in w'.seller.store.requestIndex {
      if Requested(w.toSeller, r) {
        EnvelopesStay(p, w, e, r);
      }
    }
    DispatchedGrows(p, w, e);
  }

  lemma DispatchedGrows(p: Parties, w: World, e: Event)
    requires Enabled(p, w, e)
    ensures Step(p, w, e).dispatched == if e.SendTask? then w.dispatched + {e.id} else w.dispatched
  {
  }

  // ----- the buyer's queue -----

  ghost predicate Answers(m: Message, r: RequestId) {
    m.payload.TaskResult? && Get(m.payload.package, REQUEST_ID) == Str(r)
  }

  predicate Over(requests: Inbox.Requests, r: RequestId) {
    r in requests && Terminal(requests[r].status)
  }

  /** A result for r waits in the buyer's queue, or r is terminal. */
  ghost predicate Answered(w: World, r: RequestId) {
    (exists m :: m in w.toBuyer && Answers(m, r)) || Over(w.requests, r)
  }

  ghost predicate ResultsDelivered(w: World) {
    forall t | t in w.seller.store.tasks && w.seller.store.tasks[t].result.Some?
           && w.seller.store.tasks[t].Target() == BUYER ::
      Answered(w, w.seller.store.tasks[t].RequestId())
  }

  /** A result that the buyer may acknowledge has made its request terminal. */
  ghost predicate SettledOk(w: World) {
    forall m, r | m in w.buyerMail && m.messageId in w.settled && Answers(m, r) :: Over(w.requests, r)
  }

  ghost predicate BuyerSide(w: World) {
    && Keyed(w.requests) && MailboxOk(w.toBuyer, w.buyerMail, w.settled) && SettledOk(w) && ResultsDelivered(w)
  }

  lemma KeysStay(p: Parties, w: World, e: Event)
    requires Enabled(p, w, e) && Keyed(w.requests)
    ensures Keyed(RequestsAfter(p, w, e))
  {
    hide SellerEvent, Buyer.Apply;
    match e
    case BuyerChanges(Touch(id, c)) => Buyer.ApplyKeepsTerms(p.h, w.requests[id], c);
    case BuyerHandles(m) => ReceivedKeepsKeys(p.h, w.requests, m);
    case _ =>
  }

  lemma ReceivedKeepsKeys(h: Host, requests: Inbox.Requests, m: Message)
    requires Keyed(requests)
    ensures Keyed(Inbox.Received(h, requests, m))
  {
    hide Buyer.Apply;
    match m.payload
    case TaskResult(package, _) =>
      var id := Get(package, REQUEST_ID);
      if Inbox.Names(requests.Keys, id) {
        Buyer.ApplyKeepsTerms(h, requests[id.s], Buyer.InboxResult(package, Inbox.Carried(m)));
      }
    case Unparsable =>
      if m.requestId in requests {
        Buyer.ApplyKeepsTerms(h, requests[m.requestId], Buyer.InboxUnparsable);
      }
    case _ =>
  }

  /** What is over stays over. */
  lemma OverStays(p: Parties, w: World, e: Event, r: RequestId)
    requires Enabled(p, w, e) && Reliable(p, w, e) && Over(w.requests, r)
    ensures Over(RequestsAfter(p, w, e), r)
  {
    hide SellerEvent, Buyer.Apply, ToBuyer, ToSeller;
    match e
    case BuyerChanges(Touch(id, c)) => Buyer.StaysTerminal(p.h, w.requests[r], c);
    case BuyerHandles(m) =>
      hide Enabled, Reliable;
      if m.payload.TaskResult? {
        Buyer.StaysTerminal(p.h, w.requests[r], Buyer.InboxResult(m.payload.package, Inbox.Carried(m)));
      } else {
        Buyer.StaysTerminal(p.h, w.requests[r], Buyer.InboxUnparsable);
      }
    case _ =>
  }

  /** What becomes acknowledgeable has just ended its request. */
  lemma NewlySettled(p: Parties, w: World, e: Event)
    requires Enabled(p, w, e)
    ensures forall id | id in SettledAfter(p, w, e) && id !in w.settled ::
              e.BuyerHandles? && e.m in w.buyerMail && e.m.messageId == id
              && forall r | Answers(e.m, r) :: Over(RequestsAfter(p, w, e), r)
  {
    if e.BuyerHandles? && Inbox.Recognised(w.requests.Keys, e.m) && !Inbox.Throws(p.h, w.requests, e.m) {
      if e.m.payload.TaskResult? {
        HandledIsOver(p.h, w.requests, e.m);
      }
      hide Inbox.Received, Inbox.Throws, Inbox.Recognised, SellerEvent;
    }
  }

  lemma HandledIsOver(h: Host, requests: Inbox.Requests, m: Message)
    requires m.payload.TaskResult? && Inbox.Recognised(requests.Keys, m) && !Inbox.Throws(h, requests, m)
    ensures forall r | Answers(m, r) :: Over(Inbox.Received(h, requests, m), r)
  {
    var r := requests[Get(m.payload.package, REQUEST_ID).s];
    Buyer.VerdictIsVerdict(h, r, m.payload.package, Inbox.Carried(m));
    hide VerdictOf, StatusOf, Buyer.IsVerdict;
  }

  lemma BuyerMailbox(p: Parties, w: World, e: Event)
    requires Enabled(p, w, e) && Reliable(p, w, e) && MailboxOk(w.toBuyer, w.buyerMail, w.settled)
    ensures var w' := Step(p, w, e); MailboxOk(w'.toBuyer, w'.buyerMail, w'.settled)
  {
    hide Step, HandledAfter, ToSeller, ToBuyer, SettledAfter, RequestsAfter, LogAfter, SellerEvent;
    StepParts(p, w, e);
    NewlySettled(p, w, e);
    OneAtATime(p, w, e);
    var w' := Step(p, w, e);
    if e.BuyerAcks? {
      MailboxAcks(w.toBuyer, w.buyerMail, w.settled, e.messageId);
    } else {
      MailboxGrows(w.toBuyer, w.buyerMail, w.settled, ToBuyer(p, w, e));
    }
    hide Unseen, Enabled;
    assert w.buyerMail <= w'.buyerMail;
  }

  lemma OneAtATime(p: Parties, w: World, e: Event)
    ensures |ToBuyer(p, w, e)| <= 1 && (e.BuyerAcks? ==> ToBuyer(p, w, e) == [])
  {
    hide Signed;
  }

  lemma SettledStaysOk(p: Parties, w: World, e: Event)
    requires Enabled(p, w, e) && Reliable(p, w, e) && MailboxOk(w.toBuyer, w.buyerMail, w.settled) && SettledOk(w)
    ensures SettledOk(Step(p, w, e))
  {
    var w' := Step(p, w, e);
    NewlySettled(p, w, e);
    assert Unseen(w.buyerMail, ToBuyer(p, w, e));
    forall m, r | m in w'.buyerMail && m.messageId in w'.settled && Answers(m, r) ensures Over(w'.requests, r) {
      hide HandledAfter, ToSeller, ToBuyer, SettledAfter, RequestsAfter, Seller.Step, SellerEvent, LogAfter, Answers,
           Over;
      if m.messageId in w.settled {
        var x :| x in w.buyerMail && x.messageId == m.messageId;
        assert m in w.buyerMail;
        OverStays(p, w, e, r);
      } else {
        hide Enabled, Reliable;
        assert e.m in w.buyerMail && e.m.messageId == m.messageId;
        assert m in w.buyerMail;
      }
    }
  }

  /** An answered request stays answered: its result stays queued until the buyer has used it. */
  lemma AnsweredStays(p: Parties, w: World, e: Event, r: RequestId)
    requires Enabled(p, w, e) && Reliable(p, w, e) && BuyerSide(w) && Answered(w, r)
    ensures Answered(Step(p, w, e), r)
  {
    var w' := Step(p, w, e);
    assert e.BuyerAcks? ==> e.messageId in w.settled;
    if Over(w.requests, r) {
      OverStays(p, w, e, r);
    } else {
      var m :| m in w.toBuyer && Answers(m, r);
      hide HandledAfter, ToSeller, ToBuyer, SettledAfter, RequestsAfter, Seller.Step, SellerEvent, LogAfter, Answers,
           Enabled, Reliable;
      if e.BuyerAcks? {
        assert m.messageId != e.messageId;
        AckRemovesOne(w.toBuyer, e.messageId);
      }
      assert m in w'.toBuyer;
    }
  }

  lemma SignedAnswers(p: Parties, entry: Entry, messageId: string)
    ensures Answers(ResultMessage(messageId, entry.info.requestId, Signed(p, entry)), entry.info.requestId)
  {
    SignedPackage(p, entry);
    hide Signed, Get;
  }

  lemma QueuedIsAnswered(w: World, m: Message, r: RequestId)
    requires m in w.toBuyer && Answers(m, r)
    ensures Answered(w, r)
  {
  }

  lemma SendsCopy(p: Parties, w: World, e: Event)
    requires (e.Finishes? || e.SellerRejects?) && e.copy.Some?
    ensures ToBuyer(p, w, e) == [ResultMessage(e.copy.value, e.entry.info.requestId, Signed(p, e.entry))]
  {
    hide Signed, ResultMessage;
  }

  /** A result that a step writes for the buyer is in the buyer's queue after it. */
  lemma NewResultIsSent(p: Parties, w: World, e: Event, r: RequestId)
    requires Enabled(p, w, e) && (e.Finishes? || e.SellerRejects?) && e.copy.Some? && e.entry.info.requestId == r
    ensures Answered(Step(p, w, e), r)
  {
    hide *;
    var m := ResultMessage(e.copy.value, r, Signed(p, e.entry));
    SignedAnswers(p, e.entry, e.copy.value);
    SendsCopy(p, w, e);
    StepParts(p, w, e);
    assert m in Step(p, w, e).toBuyer;
    QueuedIsAnswered(Step(p, w, e), m, r);
  }

  /** A result for the buyer was there before, or this step writes and sends it. */
  lemma KeptOrSent(p: Parties, w: World, e: Event, t: TaskId)
    requires Enabled(p, w, e) && Reliable(p, w, e) && IdsOk(w.seller)
    requires var tasks := Step(p, w, e).seller.store.tasks;
             t in tasks && tasks[t].result.Some?
             && tasks[t].Target() == BUYER
    ensures var after := Step(p, w, e).seller.store.tasks[t];
            || (t in w.seller.store.tasks && after.result == w.seller.store.tasks[t].result
                && SameTask(w.seller.store.tasks[t], after))
            || ((e.Finishes? || e.SellerRejects?) && e.copy.Some? && e.entry.info == after.info)
  {
    hide Enabled, Step, IdsOk, Signed, Seller.Step, SellerEvent, Unseen, ToBuyer, ToSeller, RequestsAfter, SettledAfter,
         HandledAfter, LogAfter;
    StepParts(p, w, e);
    if SellerEvent(p, e).Some? {
      Lives(p, w, e);
      KeptOrSigned(p, w, e, SellerEvent(p, e).value, t);
    }
  }

  lemma ResultIsAnswered(p: Parties, w: World, e: Event, t: TaskId)
    requires Enabled(p, w, e) && Reliable(p, w, e) && BuyerSide(w) && IdsOk(w.seller)
    requires var tasks := Step(p, w, e).seller.store.tasks;
             t in tasks && tasks[t].result.Some?
             && tasks[t].Target() == BUYER
    ensures Answered(Step(p, w, e), Step(p, w, e).seller.store.tasks[t].RequestId())
  {
    hide Step, Enabled, Reliable, IdsOk, Answered;
    var after := Step(p, w, e).seller.store.tasks[t];
    KeptOrSent(p, w, e, t);
    if t in w.seller.store.tasks && SameTask(w.seller.store.tasks[t], after)
       && after.result == w.seller.store.tasks[t].result {
      AnsweredStays(p, w, e, after.RequestId());
    } else {
      NewResultIsSent(p, w, e, after.RequestId());
    }
  }

  lemma DeliversResults(p: Parties, w: World, e: Event)
    requires Enabled(p, w, e) && Reliable(p, w, e) && BuyerSide(w) && IdsOk(w.seller)
    ensures ResultsDelivered(Step(p, w, e))
  {
    var w' := Step(p, w, e);
    hide Step, Enabled, Reliable, IdsOk, Answered, BuyerSide;
    forall t | t in w'.seller.store.tasks && w'.seller.store.tasks[t].result.Some?
           && w'.seller.store.tasks[t].Target() == BUYER
      ensures Answered(w', w'.seller.store.tasks[t].RequestId())
    {
      ResultIsAnswered(p, w, e, t);
    }
  }

  // ----- whole runs -----

  ghost predicate Delivers(w: World) {
    SellerSide(w) && BuyerSide(w)
  }

  lemma SidesOf(w: World)
    requires Delivers(w)
    ensures SellerSide(w) && BuyerSide(w)
    ensures IdsOk(w.seller) && MailboxOk(w.toSeller, w.sellerMail, w.handled) && HandledOk(w) && OriginOk(w)
            && NoneStranded(w)
    ensures Keyed(w.requests) && MailboxOk(w.toBuyer, w.buyerMail, w.settled) && SettledOk(w) && ResultsDelivered(w)
  {
    hide IdsOk, MailboxOk, HandledOk, OriginOk, NoneStranded, Keyed, SettledOk, ResultsDelivered;
  }

  lemma JoinSides(w: World)
    requires IdsOk(w.seller) && MailboxOk(w.toSeller, w.sellerMail, w.handled) && HandledOk(w) && OriginOk(w)
             && NoneStranded(w)
    requires Keyed(w.requests) && MailboxOk(w.toBuyer, w.buyerMail, w.settled) && SettledOk(w) && ResultsDelivered(w)
    ensures Delivers(w)
  {
    hide IdsOk, MailboxOk, HandledOk, OriginOk, NoneStranded, Keyed, SettledOk, ResultsDelivered;
  }

  lemma IdsStay(p: Parties, w: World, e: Event)
    requires Enabled(p, w, e) && IdsOk(w.seller)
    ensures IdsOk(Step(p, w, e).seller)
  {
    StepParts(p, w, e);
    if SellerEvent(p, e).Some? {
      hide Seller.Enabled, Seller.Step, IdsOk, Step;
      StepKeepsIds(w.seller, SellerEvent(p, e).value);
    }
  }

  lemma StepDelivers(p: Parties, w: World, e: Event)
    requires Enabled(p, w, e) && Reliable(p, w, e) && Delivers(w)
    ensures Delivers(Step(p, w, e))
  {
    SidesOf(w);
    hide *;
    SellerMailbox(p, w, e);
    HandledStaysOk(p, w, e);
    OriginStaysOk(p, w, e);
    StrandsNone(p, w, e);
    BuyerMailbox(p, w, e);
    SettledStaysOk(p, w, e);
    DeliversResults(p, w, e);
    KeysStay(p, w, e);
    IdsStay(p, w, e);
    StepParts(p, w, e);
    JoinSides(Step(p, w, e));
  }

  lemma InitDelivers(p: Parties)
    ensures Delivers(Init(p))
  {
  }

  lemma {:induction false} RunDelivers(p: Parties, states: seq<World>, events: seq<Event>, i: nat)
    requires IsRun(p, states, events) && IsReliable(p, states, events) && i < |states|
    ensures Delivers(states[i])
  {
    hide Delivers, Reliable, Enabled, Step;
    if i == 0 {
      InitDelivers(p);
    } else {
      RunDelivers(p, states, events, i - 1);
      assert Next(p, states[i - 1], events[i - 1], states[i]) && Reliable(p, states[i - 1], events[i - 1]);
      StepDelivers(p, states[i - 1], events[i - 1]);
    }
  }

  /** Every dispatched request has its task envelope in the seller's queue or its id in requestIndex. */
  lemma NoStrandedTask(p: Parties, states: seq<World>, events: seq<Event>, i: nat, r: RequestId)
    requires IsRun(p, states, events) && IsReliable(p, states, events) && i < |states| && r in states[i].dispatched
    ensures Requested(states[i].toSeller, r) || r in states[i].seller.store.requestIndex
  {
    hide Reliable, Enabled, Step, Requested, IsRun, IsReliable;
    RunDelivers(p, states, events, i);
  }

  /** Every finished task that replies to the buyer has a result in the buyer's queue or a terminal buyer request. */
  lemma NoStrandedResult(p: Parties, states: seq<World>, events: seq<Event>, i: nat, t: TaskId)
    requires IsRun(p, states, events) && IsReliable(p, states, events) && i < |states|
    requires var tasks := states[i].seller.store.tasks;
             t in tasks && tasks[t].result.Some?
             && tasks[t].Target() == BUYER
    ensures Answered(states[i], states[i].seller.store.tasks[t].RequestId())
  {
    hide Reliable, Enabled, Step, Answered, IsRun, IsReliable;
    RunDelivers(p, states, events, i);
  }

  // ----- the seller's own guarantees, inside the protocol -----

  lemma SellerStepKeepsInv(p: Parties, w: World, e: Event)
    requires Enabled(p, w, e) && Seller.Inv(w.seller)
    requires SellerEvent(p, e).Some? ==> Seller.Guarded(w.seller, SellerEvent(p, e).value)
    ensures Seller.Inv(Step(p, w, e).seller)
  {
    hide Seller.Inv, Seller.Step, Seller.Guarded, SellerEvent;
    if SellerEvent(p, e).Some? {
      Seller.StepKeepsInv(w.seller, SellerEvent(p, e).value);
    }
  }

  lemma {:induction false} SellerKeepsInv(p: Parties, states: seq<World>, events: seq<Event>, i: nat)
    requires IsRun(p, states, events) && GuardedRun(p, states, events) && i < |states|
    ensures Seller.Inv(states[i].seller)
  {
    hide Seller.Inv, Enabled, Step, SellerEvent, Seller.Guarded;
    if i == 0 {
      Seller.InitInv(p.workers);
    } else {
      SellerKeepsInv(p, states, events, i - 1);
      assert Next(p, states[i - 1], events[i - 1], states[i]);
      SellerStepKeepsInv(p, states[i - 1], events[i - 1]);
    }
  }

  lemma SellerStepKeepsOnce(p: Parties, w: World, e: Event)
    requires Enabled(p, w, e) && Once.OnceInv(w.seller)
    requires SellerEvent(p, e).Some? ==> Once.Careful(w.seller, SellerEvent(p, e).value)
    ensures Once.OnceInv(Step(p, w, e).seller)
  {
    hide Once.OnceInv, Once.Careful, Seller.Step, SellerEvent;
    if SellerEvent(p, e).Some? {
      Once.StepKeepsOnce(w.seller, SellerEvent(p, e).value);
    }
  }

  lemma {:induction false} SellerKeepsOnce(p: Parties, states: seq<World>, events: seq<Event>, i: nat)
    requires IsRun(p, states, events) && CarefulRun(p, states, events) && i < |states|
    ensures Once.OnceInv(states[i].seller)
  {
    hide Once.OnceInv, Enabled, Step, SellerEvent, Once.Careful;
    if i == 0 {
      Once.InitOnce(p.workers);
    } else {
      SellerKeepsOnce(p, states, events, i - 1);
      assert Next(p, states[i - 1], events[i - 1], states[i]);
      SellerStepKeepsOnce(p, states[i - 1], events[i - 1]);
    }
  }

  /** Such a request was executed exactly once, crashes and redeliveries included. */
  lemma SucceededMeansExecutedOnce(p: Parties, states: seq<World>, events: seq<Event>, i: nat, id: string)
    requires IsRun(p, states, events) && IsAdmitted(p, states, events, false) && CarefulRun(p, states, events)
    requires i < |states| && id in states[i].requests && SucceededSigned(p, states[i].requests[id])
    ensures multiset(states[i].seller.executed)[id] == 1
  {
    hide Enabled, Step, IsRun, CarefulRun, IsAdmitted, Once.OnceInv;
    var k, entry := SucceededMeansExecuted(p, states, events, i, id);
    SellerKeepsOnce(p, states, events, i);
    hide SucceededSigned;
    Once.NeverTwice(states[i].seller);
    OnceInNoDup(states[i].seller.executed, id);
  }

  lemma {:induction false} GuardedKeepsOnce(p: Parties, states: seq<World>, events: seq<Event>, i: nat)
    requires IsRun(p, states, events) && GuardedRun(p, states, events) && i < |states|
    ensures Once.OnceInv(states[i].seller)
  {
    hide Once.OnceInv, Enabled, Step, SellerEvent, Once.Careful, Seller.Guarded;
    if i == 0 {
      Once.InitOnce(p.workers);
    } else {
      GuardedKeepsOnce(p, states, events, i - 1);
      assert Next(p, states[i - 1], events[i - 1], states[i]);
      if SellerEvent(p, events[i - 1]).Some? {
        Once.GuardedIsCareful(states[i - 1].seller, SellerEvent(p, events[i - 1]).value);
      }
      SellerStepKeepsOnce(p, states[i - 1], events[i - 1]);
    }
  }

  /** Runs whose inserts find their request not indexed are careful, here as well. */
  lemma GuardedMeansCareful(p: Parties, states: seq<World>, events: seq<Event>)
    requires IsRun(p, states, events) && GuardedRun(p, states, events)
    ensures CarefulRun(p, states, events)
  {
    hide Once.OnceInv, Next, SellerEvent, Once.Careful, Seller.Guarded;
    forall i | 0 <= i < |events| && SellerEvent(p, events[i]).Some?
      ensures Once.Careful(states[i].seller, SellerEvent(p, events[i]).value)
    {
      GuardedKeepsOnce(p, states, events, i);
      Once.GuardedIsCareful(states[i].seller, SellerEvent(p, events[i]).value);
    }
  }

  lemma {:induction false} OnceInNoDup(s: seq<RequestId>, x: RequestId)
    requires NoDup(s) && x in s
    ensures multiset(s)[x] == 1
  {
    var init, last := s[..|s| - 1], s[|s| - 1];
    assert s == init + [last];
    if x in init {
      OnceInNoDup(init, x);
    }
  }

  // ----- at rest -----

  /** Only the buyer's own envelopes reach the seller. */
  ghost predicate NoStrangers(events: seq<Event>) {
    forall e | e in events :: !e.ForeignTask? && !(e.SellerWorks? && e.work.Submit?)
  }

  /** Without a crash no task is orphaned, and without strangers every task replies to the buyer. */
  ghost predicate Private(w: World) {
    && w.seller.orphans == {}
    && (forall m | m in w.sellerMail && m.payload.TaskRequested? ::
        (m.payload.route.address == "" && m.payload.route.sender == BUYER))
    && (forall q | q in w.seller.pending :: w.seller.pending[q].Target() == BUYER)
    && (forall t | t in w.seller.store.tasks :: w.seller.store.tasks[t].Target() == BUYER)
  }

  lemma NoNewOrphans(s: Seller.System, e: Seller.Event)
    requires Seller.Enabled(s, e) && !e.Crash?
    ensures Seller.Step(s, e).orphans == s.orphans
  {
    hide Enqueue, ScheduleOnce, Remember, Complete, Defer, Release, TaskForRequest, Seller.FreshTask;
    match e
    case Submit(_) =>
    case Receive(_) =>
    case Accept(_) =>
    case Reject(_, _) =>
    case Schedule =>
    case _ =>
  }

  lemma AcceptPushes(s: Seller.System, id: TaskId)
    requires id in s.pending
    ensures Seller.Step(s, Seller.Accept(id)).store == Enqueue(s.store, s.pending[id])
  {
    hide Enqueue;
  }

  lemma TasksComeFrom(s: Seller.System, e: Seller.Event, t: TaskId)
    requires IdsOk(s) && Seller.Enabled(s, e) && !e.Crash? && !e.Submit? && t in Seller.Step(s, e).store.tasks
    ensures || (t in s.store.tasks && Seller.Step(s, e).store.tasks[t].Target() == s.store.tasks[t].Target())
            || (t in s.pending && Seller.Step(s, e).store.tasks[t].Target() == s.pending[t].Target())
  {
    if e.Accept? {
      EnqueueKeepsTasks(s.store, s.pending[e.id]);
      AcceptPushes(s, e.id);
      hide Seller.Step, Enqueue, IdsOk;
    } else if e.Reject? {
      Seller.RejectIs(s, e.id, e.result);
      hide Seller.Step;
    } else if e.ReturnDeferred? || e.ReturnResult? || e.Refinalize? {
      Seller.ReturnIs(s, e, e.id);
      hide Seller.Step, Seller.Enabled;
    } else if e.Schedule? {
      ScheduleIs(s);
      ScheduleKeepsTasks(s.store);
      hide Seller.Step, Seller.Enabled, ScheduleOnce, IdsOk;
    } else {
      QuietSteps(s, e);
      hide Seller.Step, Seller.Enabled, IdsOk;
    }
  }

  lemma MailStaysPrivate(p: Parties, w: World, e: Event)
    requires Private(w) && !e.ForeignTask?
    ensures forall m | m in w.sellerMail + SeqToSet(ToSeller(w, e)) && m.payload.TaskRequested? ::
              (m.payload.route.address == "" && m.payload.route.sender == BUYER)
  {
  }

  lemma SellerStaysPrivate(p: Parties, w: World, e: Event, s: Seller.Event)
    requires Enabled(p, w, e) && IdsOk(w.seller) && Private(w) && SellerEvent(p, e) == Some(s) && !s.Crash?
             && !s.Submit?
    ensures var after := Seller.Step(w.seller, s);
            && after.orphans == {}
            && (forall q | q in after.pending :: after.pending[q].Target() == BUYER)
            && (forall t | t in after.store.tasks :: after.store.tasks[t].Target() == BUYER)
  {
    var after := Seller.Step(w.seller, s);
    assert e.SellerReceives? ==> MayReceive(p, w, e.m, e.task);
    NoNewOrphans(w.seller, s);
    hide Seller.Step, Signed, IdsOk, Enabled;
    forall q | q in after.pending ensures after.pending[q].Target() == BUYER {
      PendingComes(w.seller, s, q);
    }
    forall t | t in after.store.tasks ensures after.store.tasks[t].Target() == BUYER {
      TasksComeFrom(w.seller, s, t);
    }
  }

  lemma NoCrashNoSubmit(p: Parties, w: World, e: Event)
    requires Enabled(p, w, e) && Reliable(p, w, e) && !(e.SellerWorks? && e.work.Submit?)
    ensures SellerEvent(p, e).Some? ==> !SellerEvent(p, e).value.Crash? && !SellerEvent(p, e).value.Submit?
  {
    hide Signed, Unseen, MayReceive, MayReject, MayFinish, Seller.Enabled;
  }

  lemma StaysPrivate(p: Parties, w: World, e: Event)
    requires Enabled(p, w, e) && Reliable(p, w, e) && IdsOk(w.seller) && Private(w)
    requires !e.ForeignTask? && !(e.SellerWorks? && e.work.Submit?)
    ensures Private(Step(p, w, e))
  {
    hide Enabled, Reliable, IdsOk, Seller.Step, SellerEvent, ToSeller, ToBuyer, RequestsAfter, HandledAfter,
         SettledAfter, LogAfter;
    MailStaysPrivate(p, w, e);
    NoCrashNoSubmit(p, w, e);
    if SellerEvent(p, e).Some? {
      SellerStaysPrivate(p, w, e, SellerEvent(p, e).value);
    }
  }

  lemma {:induction false} RunStaysPrivate(p: Parties, states: seq<World>, events: seq<Event>, i: nat)
    requires IsRun(p, states, events) && IsReliable(p, states, events) && NoStrangers(events) && i < |states|
    ensures Private(states[i])
  {
    hide Private, Delivers, Reliable, Enabled, Step;
    if i == 0 {
      InitIsPrivate(p);
    } else {
      RunStaysPrivate(p, states, events, i - 1);
      RunDelivers(p, states, events, i - 1);
      assert Next(p, states[i - 1], events[i - 1], states[i]) && Reliable(p, states[i - 1], events[i - 1]);
      assert events[i - 1] in events;
      DeliversIds(states[i - 1]);
      StaysPrivate(p, states[i - 1], events[i - 1]);
    }
  }

  lemma InitIsPrivate(p: Parties)
    ensures Private(Init(p))
  {
  }

  lemma DeliversIds(w: World)
    requires Delivers(w)
    ensures IdsOk(w.seller)
  {
  }

  /** Nothing is left to do: both queues are drained, and no task waits, runs or was deferred. */
  ghost predicate AtRest(w: World) {
    && (forall m | m in w.toSeller :: !m.payload.TaskRequested?)
    && (forall m | m in w.toBuyer :: !m.payload.TaskResult?)
    && w.seller.store.queue == [] && w.seller.store.active == []
    && (forall t | t in w.seller.store.tasks :: !w.seller.store.tasks[t].deferred)
  }

  /** An indexed request whose task neither waits nor runs has its result. */
  lemma IdleMeansResult(s: Seller.System, r: RequestId)
    requires Seller.Inv(s) && r in s.store.requestIndex && s.store.queue == [] && s.store.active == []
             && s.orphans == {}
    requires forall t | t in s.store.tasks :: !s.store.tasks[t].deferred
    ensures var t := s.store.requestIndex[r];
            t in s.store.tasks && s.store.tasks[t].RequestId() == r && s.store.tasks[t].result.Some?
  {
    assert Seller.TaskOk(s.store, s.store.requestIndex[r]);
  }

  /** When everything has come to rest, every request that was dispatched is terminal. */
  lemma AtRestAllTerminal(p: Parties, states: seq<World>, events: seq<Event>, i: nat)
    requires IsRun(p, states, events) && IsReliable(p, states, events) && GuardedRun(p, states, events)
             && NoStrangers(events)
    requires i < |states| && AtRest(states[i])
    ensures forall r | r in states[i].dispatched :: Over(states[i].requests, r)
  {
    var w := states[i];
    SellerKeepsInv(p, states, events, i);
    RunStaysPrivate(p, states, events, i);
    forall r | r in w.dispatched ensures Over(w.requests, r) {
      NoStrandedTask(p, states, events, i, r);
      IdleMeansResult(w.seller, r);
      hide IsRun, IsReliable, GuardedRun, NoStrangers, Seller.Inv;
      NoStrandedResult(p, states, events, i, w.seller.store.requestIndex[r]);
    }
  }
}
