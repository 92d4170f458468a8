/**
 apps/platform-api: the platform's request records. Token issue, delivery meta, seller acknowledgement, lifecycle
 events and review tests are the only routes that write them.
 */
module PlatformRequests {
  import opened Wrappers
  import opened PlatformEvents

  datatype Record = Record(
    buyerId: Option<string>,
    sellerId: Option<string>,
    subagentId: Option<string>,
    signer: Option<string>,
    displayCode: Option<string>,
    events: seq<PlatformEvent>
  )

  type Records = map<string, Record>

  datatype Claims = Claims(buyerId: string, requestId: string, sellerId: string, subagentId: string)

  datatype Refusal =
    | Invalid | SubagentNotFound | RequestNotFound | OtherBuyer | BindingMismatch | TokenInvalid | TokenMismatch
    | NotOwner

  datatype Answer = Refused(why: Refusal) | Token(claims: Claims) | Meta(displayCode: string) | Accepted

  const REVIEW_BUYER := "buyer_review_bot"

  const NEW_RECORD: Record := Record(None, None, None, None, None, [])

  /** The claims are the record's binding. */
  ghost predicate Carries(c: Claims, r: Record) {
    r.buyerId == Some(c.buyerId) && r.sellerId == Some(c.sellerId) && r.subagentId == Some(c.subagentId)
  }

  /** getOrCreateRequest */
  function RecordOf(m: Records, id: string): Record {
    if id in m then m[id] else NEW_RECORD
  }

  /** `!bound || bound === value` */
  predicate Fits(bound: Option<string>, value: string) {
    bound.Some? && bound.value != "" ==> bound.value == value
  }

  // ----- the capped event log -----

  /** `Math.max(1, Number(limit || DEFAULT_TELEMETRY_HISTORY_LIMIT))` */
  function MaxEvents(limit: int): (max: nat)
    ensures max >= 1
  {
    if limit == 0 then 5000 else if limit < 1 then 1 else limit
  }

  /** pushCapped: the list without its oldest entries. */
  function Capped(limit: int, events: seq<PlatformEvent>): seq<PlatformEvent> {
    if |events| > MaxEvents(limit) then events[|events| - MaxEvents(limit)..] else events
  }

  function Append(limit: int, r: Record, e: PlatformEvent): Record {
    r.(events := Capped(limit, r.events + [e]))
  }

  predicate SellerAck(e: PlatformEvent) {
    e.eventType == Acked && e.bySeller
  }

  /** `request.events.some(...)` */
  predicate HasSellerAck(events: seq<PlatformEvent>) {
    exists e :: e in events && SellerAck(e)
  }

  /** findMatchingRequestEvent finds one. */
  predicate HasMatching(events: seq<PlatformEvent>, t: EventType, sellerId: string, subagentId: string) {
    exists e :: e in events && e.eventType == t && e.sellerId == Some(sellerId) && e.subagentId == Some(subagentId)
  }

  function Plain(t: EventType, at: int): PlatformEvent {
    PlatformEvent(t, Some(at), false, None, None, None, None)
  }

  // ----- the routes -----

  datatype Caller = Caller(sellerId: string, subagentIds: seq<string>)

  datatype Event =
    /** POST /v1/tokens/task; `visible`: the catalog lists this subagent of this seller publicly. */
    | IssueToken(userId: string, requestId: string, sellerId: string, subagentId: string, visible: bool, at: int)
    /** POST .../delivery-meta; `token` is None without a token, and holds None for one that does not parse. */
    | DeliveryMeta(userId: string, requestId: string, sellerId: string, subagentId: string, deliveryOk: bool,
                   visible: bool, token: Option<Option<Claims>>, signer: string, newCode: string, at: int)
    /** POST .../ack */
    | Ack(caller: Caller, requestId: string, sellerId: string, subagentId: string, etaHintS: int, at: int)
    /** POST .../events, with COMPLETED or FAILED. */
    | Lifecycle(caller: Caller, failed: bool, requestId: string, sellerId: string, subagentId: string, finishedAt: int,
                at: int)
    /** POST /v1/admin/subagents/:id/review-tests, for a subagent of this seller. */
    | ReviewTest(requestId: string, sellerId: string, subagentId: string, signer: string, newCode: string, at: int)

  /** What a route does: nothing but answer, or replace one record, having pushed `pushed` on its log. */
  datatype Effect = Only(answer: Answer) | Write(answer: Answer, record: Record, pushed: seq<PlatformEvent>)

  function Bind(r: Record, buyerId: string, sellerId: string, subagentId: string): Record {
    r.(buyerId := Some(buyerId), sellerId := Some(sellerId), subagentId := Some(subagentId))
  }

  function CodeOf(r: Record, newCode: string): string {
    if r.displayCode.Some? && r.displayCode.value != "" then r.displayCode.value else newCode
  }

  predicate Owns(caller: Caller, sellerId: string, subagentId: string) {
    caller.sellerId == sellerId && subagentId in caller.subagentIds
  }

  function IssueEffect(m: Records, e: Event): Effect
    requires e.IssueToken?
  {
    var r := RecordOf(m, e.requestId);
    if e.requestId == "" || e.sellerId == "" || e.subagentId == "" then Only(Refused(Invalid))
    else if !e.visible then Only(Refused(SubagentNotFound))
    else if !Fits(r.buyerId, e.userId) then Only(Refused(OtherBuyer))
    else if !Fits(r.sellerId, e.sellerId) || !Fits(r.subagentId, e.subagentId) then Only(Refused(BindingMismatch))
    else Write(Token(Claims(e.userId, e.requestId, e.sellerId, e.subagentId)),
               Bind(r, e.userId, e.sellerId, e.subagentId), [Plain(TaskTokenIssued, e.at)])
  }

  function MetaEffect(m: Records, e: Event): Effect
    requires e.DeliveryMeta?
  {
    if e.sellerId == "" || e.subagentId == "" || !e.deliveryOk then Only(Refused(Invalid))
    else if !e.visible then Only(Refused(SubagentNotFound))
    else if e.token == Some(None) then Only(Refused(TokenInvalid))
    else if e.token.Some? && e.token.value != Some(Claims(e.userId, e.requestId, e.sellerId, e.subagentId))
    then Only(Refused(TokenMismatch))
    else if e.requestId !in m then Only(Refused(RequestNotFound))
    else
      var r := m[e.requestId];
      if !Fits(r.buyerId, e.userId) then Only(Refused(OtherBuyer))
      else if !Fits(r.sellerId, e.sellerId) || !Fits(r.subagentId, e.subagentId) then Only(Refused(BindingMismatch))
      else
        var code := CodeOf(r, e.newCode);
        Write(Meta(code),
              Bind(r, e.userId, e.sellerId, e.subagentId).(signer := Some(e.signer), displayCode := Some(code)),
              [Plain(DeliveryMetaIssued, e.at)])
  }

  /** The checks that ack and events share; None when they pass. */
  function SellerRefusal(m: Records, caller: Caller, requestId: string, sellerId: string,
                         subagentId: string): Option<Refusal> {
    if sellerId == "" || subagentId == "" then Some(Invalid)
    else if !Owns(caller, sellerId, subagentId) then Some(NotOwner)
    else if requestId !in m then Some(RequestNotFound)
    else if !Fits(m[requestId].sellerId, sellerId) || !Fits(m[requestId].subagentId, subagentId)
    then Some(BindingMismatch)
    else None
  }

  function AckEffect(m: Records, e: Event): Effect
    requires e.Ack?
  {
    var refusal := SellerRefusal(m, e.caller, e.requestId, e.sellerId, e.subagentId);
    if refusal.Some? then Only(Refused(refusal.value))
    else
      var r := m[e.requestId].(sellerId := Some(e.sellerId), subagentId := Some(e.subagentId));
      Write(Accepted, r, if HasSellerAck(r.events) then []
                         else [PlatformEvent(Acked, Some(e.at), true, None, None, None, Some(e.etaHintS))])
  }

  function LifecycleEffect(m: Records, e: Event): Effect
    requires e.Lifecycle?
  {
    var refusal := SellerRefusal(m, e.caller, e.requestId, e.sellerId, e.subagentId);
    if refusal.Some? then Only(Refused(refusal.value))
    else
      var t := if e.failed then Failed else Completed;
      var r := m[e.requestId].(sellerId := Some(e.sellerId), subagentId := Some(e.subagentId));
      Write(Accepted, r, if HasMatching(r.events, t, e.sellerId, e.subagentId) then []
                         else [PlatformEvent(t, Some(e.at), true, Some(e.sellerId), Some(e.subagentId),
                                             Some(e.finishedAt), None)])
  }

  function ReviewEffect(m: Records, e: Event): Effect
    requires e.ReviewTest?
  {
    var r := RecordOf(m, e.requestId);
    Write(Token(Claims(REVIEW_BUYER, e.requestId, e.sellerId, e.subagentId)),
          Bind(r, REVIEW_BUYER, e.sellerId, e.subagentId).(signer := Some(e.signer),
                                                           displayCode := Some(CodeOf(r, e.newCode))),
          [Plain(TaskTokenIssued, e.at), Plain(DeliveryMetaIssued, e.at)])
  }

  function EffectOf(m: Records, e: Event): Effect {
    match e
    case IssueToken(_, _, _, _, _, _) => IssueEffect(m, e)
    case DeliveryMeta(_, _, _, _, _, _, _, _, _, _) => MetaEffect(m, e)
    case Ack(_, _, _, _, _, _) => AckEffect(m, e)
    case Lifecycle(_, _, _, _, _, _, _) => LifecycleEffect(m, e)
    case ReviewTest(_, _, _, _, _, _) => ReviewEffect(m, e)
  }

  function AppendAll(limit: int, r: Record, pushed: seq<PlatformEvent>): Record {
    if pushed == [] then r else Append(limit, AppendAll(limit, r, pushed[..|pushed| - 1]), pushed[|pushed| - 1])
  }

  function After(limit: int, m: Records, e: Event): Records {
    match EffectOf(m, e)
    case Only(_) => m
    case Write(_, r, pushed) => m[e.requestId := AppendAll(limit, r, pushed)]
  }

  // ----- who may do what -----

  /** The record, if there is one, is bound to nothing else. */
  ghost predicate Bindable(bound: Option<string>, value: string) {
    bound == None || bound == Some("") || bound == Some(value)
  }

  /** A known request may be acknowledged or reported on by the seller it may be bound to, for a subagent of its own. */
  ghost predicate MayReport(m: Records, caller: Caller, requestId: string, sellerId: string, subagentId: string) {
    && sellerId != "" && subagentId != "" && caller.sellerId == sellerId && subagentId in caller.subagentIds
    && requestId in m && Bindable(m[requestId].sellerId, sellerId) && Bindable(m[requestId].subagentId, subagentId)
  }

  lemma MayReportIff(m: Records, caller: Caller, requestId: string, sellerId: string, subagentId: string)
    ensures SellerRefusal(m, caller, requestId, sellerId, subagentId) == None <==>
            MayReport(m, caller, requestId, sellerId, subagentId)
  {
  }

  /** A request may be bound by the user, and to the seller and subagent, that it is not bound away from. */
  ghost predicate MayBind(m: Records, userId: string, requestId: string, sellerId: string, subagentId: string) {
    requestId in m ==>
      && Bindable(m[requestId].buyerId, userId)
      && Bindable(m[requestId].sellerId, sellerId) && Bindable(m[requestId].subagentId, subagentId)
  }

  /** The seller and subagent of a record. */
  ghost predicate BoundTo(r: Record, sellerId: string, subagentId: string) {
    r.sellerId == Some(sellerId) && r.subagentId == Some(subagentId)
  }

  ghost predicate LastIs(events: seq<PlatformEvent>, e: PlatformEvent) {
    events != [] && events[|events| - 1] == e
  }

  // ----- the registry, updated in place -----

  class Registry {
    const limit: int
    var requests: Records

    constructor (limit: int, m: Records)
      ensures this.limit == limit && requests == m
    {
      this.limit, requests := limit, m;
    }

    /** appendRequestEvent: pushCapped on the record's log. */
    method AppendRequestEvent(id: string, e: PlatformEvent)
      requires id in requests
      modifies this
      ensures requests == old(requests)[id := Append(limit, old(requests)[id], e)]
    {
      var events := requests[id].events + [e];
      var max := if limit == 0 then 5000 else if limit < 1 then 1 else limit;
      if |events| > max {
        events := events[|events| - max..];
      }
      requests := requests[id := requests[id].(events := events)];
    }

    method IssueTaskToken(userId: string, requestId: string, sellerId: string, subagentId: string, visible: bool,
                          at: int)
        returns (answer: Answer)
      modifies this
      ensures var e := IssueToken(userId, requestId, sellerId, subagentId, visible, at);
              requests == After(limit, old(requests), e) && answer == EffectOf(old(requests), e).answer
      ensures answer.Refused? ==> requests == old(requests)
      ensures answer.Token? <==>
              && requestId != "" && sellerId != "" && subagentId != "" && visible
              && MayBind(old(requests), userId, requestId, sellerId, subagentId)
      ensures answer.Token? ==> requestId in requests && Carries(answer.claims, requests[requestId])
                                && answer.claims == Claims(userId, requestId, sellerId, subagentId)
                                && LastIs(requests[requestId].events,
                                          PlatformEvent(TaskTokenIssued, Some(at), false, None, None, None, None))
    {
      AfterIs(limit, requests, IssueToken(userId, requestId, sellerId, subagentId, visible, at));
      hide After, Capped;
      if requestId == "" || sellerId == "" || subagentId == "" {
        return Refused(Invalid);
      }
      if !visible {
        return Refused(SubagentNotFound);
      }
      if requestId in requests {
        var r := requests[requestId];
        if !Fits(r.buyerId, userId) {
          return Refused(OtherBuyer);
        }
        if !Fits(r.sellerId, sellerId) || !Fits(r.subagentId, subagentId) {
          return Refused(BindingMismatch);
        }
      }
      var bound := Bind(RecordOf(requests, requestId), userId, sellerId, subagentId);
      AppendHas(limit, bound, Plain(TaskTokenIssued, at));
      requests := requests[requestId := bound];
      AppendRequestEvent(requestId, Plain(TaskTokenIssued, at));
      return Token(Claims(userId, requestId, sellerId, subagentId));
    }

    method IssueDeliveryMeta(userId: string, requestId: string, sellerId: string, subagentId: string, deliveryOk: bool,
                             visible: bool, token: Option<Option<Claims>>, signer: string, newCode: string, at: int)
        returns (answer: Answer)
      modifies this
      ensures var e :=
              DeliveryMeta(userId, requestId, sellerId, subagentId, deliveryOk, visible, token, signer, newCode, at);
              requests == After(limit, old(requests), e) && answer == EffectOf(old(requests), e).answer
      ensures answer.Refused? ==> requests == old(requests)
      ensures answer.Meta? <==>
              && sellerId != "" && subagentId != "" && deliveryOk && visible && requestId in old(requests)
              && (token == None || token == Some(Some(Claims(userId, requestId, sellerId, subagentId))))
              && MayBind(old(requests), userId, requestId, sellerId, subagentId)
      ensures answer.Meta? ==> requestId in requests && requests[requestId].displayCode == Some(answer.displayCode)
                               && BoundTo(requests[requestId], sellerId, subagentId)
                               && requests[requestId].buyerId == Some(userId)
                               && requests[requestId].signer == Some(signer)
                               && LastIs(requests[requestId].events,
                                         PlatformEvent(DeliveryMetaIssued, Some(at), false, None, None, None, None))
    {
      AfterIs(limit, requests,
              DeliveryMeta(userId, requestId, sellerId, subagentId, deliveryOk, visible, token, signer, newCode, at));
      hide After, Capped;
      if sellerId == "" || subagentId == "" || !deliveryOk {
        return Refused(Invalid);
      }
      if !visible {
        return Refused(SubagentNotFound);
      }
      if token.Some? {
        if token.value == None {
          return Refused(TokenInvalid);
        }
        var claims := token.value.value;
        if claims.requestId != requestId || claims.sellerId != sellerId || claims.subagentId != subagentId
           || claims.buyerId != userId {
          return Refused(TokenMismatch);
        }
      }
      if requestId !in requests {
        return Refused(RequestNotFound);
      }
      var r := requests[requestId];
      if !Fits(r.buyerId, userId) {
        return Refused(OtherBuyer);
      }
      if !Fits(r.sellerId, sellerId) || !Fits(r.subagentId, subagentId) {
        return Refused(BindingMismatch);
      }
      var code := CodeOf(r, newCode);
      r := Bind(r, userId, sellerId, subagentId).(signer := Some(signer), displayCode := Some(code));
      AppendHas(limit, r, Plain(DeliveryMetaIssued, at));
      requests := requests[requestId := r];
      AppendRequestEvent(requestId, Plain(DeliveryMetaIssued, at));
      return Meta(code);
    }

    /** The checks at the head of ack and events. */
    method CheckSeller(caller: Caller, requestId: string, sellerId: string, subagentId: string)
        returns (refusal: Option<Refusal>)
      ensures refusal == SellerRefusal(requests, caller, requestId, sellerId, subagentId)
    {
      if sellerId == "" || subagentId == "" {
        return Some(Invalid);
      }
      if caller.sellerId != sellerId || subagentId !in caller.subagentIds {
        return Some(NotOwner);
      }
      if requestId !in requests {
        return Some(RequestNotFound);
      }
      var r := requests[requestId];
      if !Fits(r.sellerId, sellerId) || !Fits(r.subagentId, subagentId) {
        return Some(BindingMismatch);
      }
      return None;
    }

    method AckRequest(caller: Caller, requestId: string, sellerId: string, subagentId: string, etaHintS: int, at: int)
        returns (answer: Answer)
      modifies this
      ensures var e := Ack(caller, requestId, sellerId, subagentId, etaHintS, at);
              requests == After(limit, old(requests), e) && answer == EffectOf(old(requests), e).answer
      ensures answer.Refused? ==> requests == old(requests)
      ensures answer.Accepted? <==> MayReport(old(requests), caller, requestId, sellerId, subagentId)
      ensures answer.Accepted? ==> requestId in requests && BoundTo(requests[requestId], sellerId, subagentId)
                                   && HasSellerAck(requests[requestId].events)
      ensures answer.Accepted? ==>
                if HasSellerAck(old(requests)[requestId].events)
                then requests[requestId].events == old(requests)[requestId].events
                else LastIs(requests[requestId].events,
                            PlatformEvent(Acked, Some(at), true, None, None, None, Some(etaHintS)))
    {
      MayReportIff(requests, caller, requestId, sellerId, subagentId);
      AfterIs(limit, requests, Ack(caller, requestId, sellerId, subagentId, etaHintS, at));
      hide After, Capped;
      var refusal := CheckSeller(caller, requestId, sellerId, subagentId);
      if refusal.Some? {
        return Refused(refusal.value);
      }
      var r := requests[requestId].(sellerId := Some(sellerId), subagentId := Some(subagentId));
      requests := requests[requestId := r];
      if !HasSellerAck(r.events) {
        var e := PlatformEvent(Acked, Some(at), true, None, None, None, Some(etaHintS));
        AppendHas(limit, r, e);
        AppendRequestEvent(requestId, e);
      }
      return Accepted;
    }

    method AppendLifecycle(caller: Caller, failed: bool, requestId: string, sellerId: string, subagentId: string,
                           finishedAt: int, at: int) returns (answer: Answer)
      modifies this
      ensures var e := Lifecycle(caller, failed, requestId, sellerId, subagentId, finishedAt, at);
              requests == After(limit, old(requests), e) && answer == EffectOf(old(requests), e).answer
      ensures answer.Refused? ==> requests == old(requests)
      ensures answer.Accepted? <==> MayReport(old(requests), caller, requestId, sellerId, subagentId)
      ensures answer.Accepted? ==>
                requestId in requests && BoundTo(requests[requestId], sellerId, subagentId)
                && HasMatching(requests[requestId].events, if failed then Failed else Completed, sellerId, subagentId)
      ensures answer.Accepted? ==>
                var t, before := if failed then Failed else Completed, old(requests)[requestId].events;
                if HasMatching(before, t, sellerId, subagentId) then requests[requestId].events == before
                else LastIs(requests[requestId].events,
                            PlatformEvent(t, Some(at), true, Some(sellerId), Some(subagentId), Some(finishedAt), None))
    {
      MayReportIff(requests, caller, requestId, sellerId, subagentId);
      AfterIs(limit, requests, Lifecycle(caller, failed, requestId, sellerId, subagentId, finishedAt, at));
      hide After, Capped;
      var refusal := CheckSeller(caller, requestId, sellerId, subagentId);
      if refusal.Some? {
        return Refused(refusal.value);
      }
      var t := if failed then Failed else Completed;
      var r := requests[requestId].(sellerId := Some(sellerId), subagentId := Some(subagentId));
      requests := requests[requestId := r];
      if !HasMatching(r.events, t, sellerId, subagentId) {
        var e := PlatformEvent(t, Some(at), true, Some(sellerId), Some(subagentId), Some(finishedAt), None);
        AppendHas(limit, r, e);
        AppendRequestEvent(requestId, e);
      }
      return Accepted;
    }

    method StartReviewTest(requestId: string, sellerId: string, subagentId: string, signer: string, newCode: string,
                           at: int)
        returns (answer: Answer)
      modifies this
      ensures var e := ReviewTest(requestId, sellerId, subagentId, signer, newCode, at);
              requests == After(limit, old(requests), e) && answer == EffectOf(old(requests), e).answer
      ensures answer.Token? && requestId in requests && Carries(answer.claims, requests[requestId])
      ensures answer.claims == Claims("buyer_review_bot", requestId, sellerId, subagentId)
      ensures BoundTo(requests[requestId], sellerId, subagentId) && requests[requestId].signer == Some(signer)
    {
      ReviewWrites(limit, requests, ReviewTest(requestId, sellerId, subagentId, signer, newCode, at));
      hide Append, EffectOf, After, Carries;
      ghost var m := requests;
      var r := RecordOf(requests, requestId);
      r := Bind(r, REVIEW_BUYER, sellerId, subagentId).(signer := Some(signer),
                                                        displayCode := Some(CodeOf(r, newCode)));
      ghost var written := Append(limit, Append(limit, r, Plain(TaskTokenIssued, at)), Plain(DeliveryMetaIssued, at));
      assert After(limit, m, ReviewTest(requestId, sellerId, subagentId, signer, newCode, at)) ==
             m[requestId := written];
      hide RecordOf, Bind, CodeOf, Plain;
      requests := requests[requestId := r];
      AppendRequestEvent(requestId, Plain(TaskTokenIssued, at));
      AppendRequestEvent(requestId, Plain(DeliveryMetaIssued, at));
      return Token(Claims(REVIEW_BUYER, requestId, sellerId, subagentId));
    }
  }

  /** What a route with at most one event leaves. */
  lemma AfterIs(limit: int, m: Records, e: Event)
    ensures EffectOf(m, e).Only? ==> After(limit, m, e) == m
    ensures EffectOf(m, e).Write? && EffectOf(m, e).pushed == [] ==>
              After(limit, m, e) == m[e.requestId := EffectOf(m, e).record]
    ensures EffectOf(m, e).Write? && |EffectOf(m, e).pushed| == 1 ==>
              After(limit, m, e) == m[e.requestId := Append(limit, EffectOf(m, e).record, EffectOf(m, e).pushed[0])]
  {
    var effect := EffectOf(m, e);
    hide EffectOf, Append;
    if effect.Write? && |effect.pushed| == 1 {
      assert effect.pushed == [effect.pushed[0]];
      AppendOne(limit, effect.record, effect.pushed[0]);
    }
  }

  lemma AppendHas(limit: int, r: Record, e: PlatformEvent)
    ensures e in Append(limit, r, e).events && LastIs(Append(limit, r, e).events, e)
  {
    var events := r.events + [e];
    assert events[|events| - 1] == e;
  }

  lemma ReviewWrites(limit: int, m: Records, e: Event)
    requires e.ReviewTest?
    ensures var r := ReviewEffect(m, e).record;
            && After(limit, m, e) ==
            m[e.requestId :=
              Append(limit, Append(limit, r, Plain(TaskTokenIssued, e.at)), Plain(DeliveryMetaIssued, e.at))]
            && EffectOf(m, e).answer == Token(Claims(REVIEW_BUYER, e.requestId, e.sellerId, e.subagentId))
            && Carries(EffectOf(m, e).answer.claims, After(limit, m, e)[e.requestId])
            && BoundTo(After(limit, m, e)[e.requestId], e.sellerId, e.subagentId)
            && After(limit, m, e)[e.requestId].signer == Some(e.signer)
  {
    AppendTwo(limit, ReviewEffect(m, e).record, Plain(TaskTokenIssued, e.at), Plain(DeliveryMetaIssued, e.at));
    hide Append;
  }

  lemma AppendOne(limit: int, r: Record, e: PlatformEvent)
    ensures AppendAll(limit, r, [e]) == Append(limit, r, e)
  {
    assert [e][..0] == [];
  }

  lemma AppendTwo(limit: int, r: Record, a: PlatformEvent, b: PlatformEvent)
    ensures AppendAll(limit, r, [a, b]) == Append(limit, Append(limit, r, a), b)
  {
    AppendOne(limit, r, a);
    assert [a, b][..1] == [a];
  }
}
