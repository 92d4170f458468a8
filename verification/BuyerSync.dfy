/**
 packages/buyer-controller-core, syncBuyerActiveRequests, against the two event routes of apps/platform-api:
 batching, falling back and retrying never change what a request ends up with.
 */
module BuyerSync {
  import opened Wrappers
  import opened PlatformEvents
  import opened BuyerRequest

  // ----- the platform's side -----

  datatype Caller = BuyerCaller(userId: string) | SellerCaller(sellerId: string, subagentIds: seq<string>) | AdminCaller

  datatype Stored = Stored(buyerId: Option<string>, sellerId: Option<string>, subagentId: Option<string>,
                           events: seq<PlatformEvent>)

  datatype Refusal = Unauthorized | Forbidden | NotFound | BadRequest

  predicate Readable(r: Stored, caller: Caller) {
    match caller
    case BuyerCaller(userId) => r.buyerId == Some(userId)
    case SellerCaller(sellerId, subagentIds) =>
      r.sellerId == Some(sellerId) && (r.subagentId.Some? ==> r.subagentId.value in subagentIds)
    case AdminCaller => true
  }

  type Platform = map<string, Stored>

  /** GET /v1/requests/:id/events; no route matches the empty id. */
  function GetEvents(p: Platform, caller: Option<Caller>, id: string): Result<seq<PlatformEvent>, Refusal> {
    if id == "" then Err(NotFound)
    else if caller == None then Err(Unauthorized)
    else if id !in p then Err(NotFound)
    else if !Readable(p[id], caller.value) then Err(Forbidden)
    else Ok(p[id].events)
  }

  /** Who gets the events of a request: its own buyer, the seller and subagent it is bound to, and administrators. */
  lemma EventsReadableIff(p: Platform, caller: Option<Caller>, id: string)
    ensures var r := GetEvents(p, caller, id);
            && (r.Ok? <==>
                  && id != "" && caller.Some? && id in p
                  && (caller.value.BuyerCaller? ==> p[id].buyerId == Some(caller.value.userId))
                  && (caller.value.SellerCaller? ==>
                        && p[id].sellerId == Some(caller.value.sellerId)
                        && (p[id].subagentId == None || p[id].subagentId.value in caller.value.subagentIds)))
            && (r.Ok? ==> r.value == p[id].events)
            && (r == Err(Unauthorized) <==> id != "" && caller == None)
            && (r == Err(NotFound) <==> id == "" || (caller.Some? && id !in p))
            && r != Err(BadRequest)
  {
  }

  function Found(p: Platform, caller: Option<Caller>, id: string): Option<seq<PlatformEvent>> {
    match GetEvents(p, caller, id)
    case Ok(events) => Some(events)
    case Err(_) => None
  }

  /** An item of the batch answer; events is None when `found` is false. */
  datatype Item = Item(requestId: string, events: Option<seq<PlatformEvent>>)

  function NonEmpty(ids: seq<string>): (r: seq<string>)
    ensures |r| <= |ids|
    ensures forall x :: x in r <==> x in ids && x != ""
  {
    if ids == [] then [] else (if ids[0] == "" then [] else [ids[0]]) + NonEmpty(ids[1..])
  }

  /** POST /v1/requests/events/batch. */
  method GetEventsBatch(p: Platform, caller: Option<Caller>, requestIds: seq<string>)
      returns (r: Result<seq<Item>, Refusal>)
    ensures caller == None ==> r == Err(Unauthorized)
    ensures caller.Some? ==> (r.Ok? <==> 0 < |NonEmpty(requestIds)| <= 100)
    ensures r.Ok? ==> |r.value| == |NonEmpty(requestIds)|
    ensures r.Ok? ==> forall k | 0 <= k < |r.value| ::
              && r.value[k].requestId == NonEmpty(requestIds)[k]
              && r.value[k].events == Found(p, caller, r.value[k].requestId)
  {
    if caller == None {
      return Err(Unauthorized);
    }
    var ids := NonEmpty(requestIds);
    if |ids| == 0 || |ids| > 100 {
      return Err(BadRequest);
    }
    var items: seq<Item> := [];
    for k := 0 to |ids|
      invariant |items| == k
      invariant forall l | 0 <= l < k ::
                  && items[l].requestId == ids[l]
                  && items[l].events == Found(p, caller, ids[l])
    {
      assert ids[k] != "" by { assert ids[k] in ids; }
      if ids[k] !in p || !Readable(p[ids[k]], caller.value) {
        items := items + [Item(ids[k], None)];
      } else {
        items := items + [Item(ids[k], Some(p[ids[k]].events))];
      }
    }
    return Ok(items);
  }

  // ----- the buyer's side -----

  /** Re-applying the same events changes nothing. */
  lemma ApplyEventsIdempotent(r: Request, events: seq<PlatformEvent>)
    ensures ApplyEvents(ApplyEvents(r, events), events) == ApplyEvents(r, events)
  {
  }

  type Client = string

  /**
   What stays fixed during one pass: the platform, whose credentials each client has, and which client a request uses.
   */
  datatype Setting = Setting(platform: Platform, callers: map<Client, Caller>, clients: map<string, Client>) {
    function CallerOf(client: Client): Option<Caller> {
      if client in callers then Some(callers[client]) else None
    }
  }

  /** A request synced alone, through its own client; a refused call leaves it as it is. */
  function SyncAlone(s: Setting, client: Client, id: string, r: Request): Request {
    match GetEvents(s.platform, s.CallerOf(client), id)
    case Ok(events) => ApplyEvents(r, events)
    case Err(_) => r
  }

  function SyncThese(s: Setting, client: Client, m: map<string, Request>, ids: set<string>): (r: map<string, Request>)
    ensures r.Keys == m.Keys
  {
    map id | id in m :: if id in ids then SyncAlone(s, client, id, m[id]) else m[id]
  }

  predicate ToSync(s: Setting, m: map<string, Request>, id: string) {
    id in m && !Terminal(m[id].status) && id in s.clients
  }

  /** The reference: each active request that has a client is synced alone. */
  function SyncEach(s: Setting, m: map<string, Request>): map<string, Request> {
    map id | id in m :: if ToSync(s, m, id) then SyncAlone(s, s.clients[id], id, m[id]) else m[id]
  }

  /** What a pass leaves of a request: its events are taken over if it is active, has a client, and may read them. */
  lemma SyncEachSays(s: Setting, m: map<string, Request>, id: string)
    requires id in m
    ensures var after, status := SyncEach(s, m), m[id].status;
            && after.Keys == m.Keys
            && if (status == CREATED || status == SENT || status == ACKED) && id in s.clients
                  && GetEvents(s.platform, s.CallerOf(s.clients[id]), id).Ok?
               then after[id] == ApplyEvents(m[id], s.platform[id].events) else after[id] == m[id]
  {
    EventsReadableIff(s.platform, if id in s.clients then s.CallerOf(s.clients[id]) else None, id);
    hide GetEvents, ApplyEvents;
  }

  /** `new Map(items.map(...)).get(id)`: the last item with this id. */
  function ItemFor(items: seq<Item>, id: string): (r: Option<Item>)
    ensures r == None ==> forall item | item in items :: item.requestId != id
    ensures r.Some? ==> r.value in items && r.value.requestId == id
  {
    if items == [] then None
    else if items[|items| - 1].requestId == id then Some(items[|items| - 1])
    else ItemFor(items[..|items| - 1], id)
  }

  /** The items the platform answers a batch of ids with. */
  ghost predicate AnswerTo(s: Setting, client: Client, batch: seq<string>, items: seq<Item>) {
    && |items| == |NonEmpty(batch)|
    && forall k | 0 <= k < |items| ::
         && items[k].requestId == NonEmpty(batch)[k]
         && items[k].events == Found(s.platform, s.CallerOf(client), items[k].requestId)
  }

  class BuyerController {
    var requests: map<string, Request>

    constructor (m: map<string, Request>)
      ensures requests == m
    {
      requests := m;
    }

    /** The catch block: each request of the batch on its own, failures ignored. */
    method SyncBatchOneByOne(s: Setting, client: Client, batch: seq<string>)
      requires forall id | id in batch :: id in requests
      modifies this
      ensures requests == SyncThese(s, client, old(requests), SeqToSet(batch))
    {
      for k := 0 to |batch|
        invariant requests == SyncThese(s, client, old(requests), SeqToSet(batch[..k]))
      {
        assert SeqToSet(batch[..k + 1]) == SeqToSet(batch[..k]) + {batch[k]} by {
          assert batch[..k + 1] == batch[..k] + [batch[k]];
        }
        var id := batch[k];
        SyncOneMore(s, client, old(requests), SeqToSet(batch[..k]), id);
        match GetEvents(s.platform, s.CallerOf(client), id)
        case Ok(events) => requests := requests[id := ApplyEvents(requests[id], events)];
        case Err(_) =>
      }
      assert batch[..|batch|] == batch;
    }

    /** What the batched answer says about one request, applied to it. */
    method ApplyItem(s: Setting, client: Client, batch: seq<string>, items: seq<Item>, id: string) returns (acked: bool)
      requires id in batch && id in requests && AnswerTo(s, client, batch, items)
      modifies this
      ensures requests == old(requests)[id := SyncAlone(s, client, id, old(requests)[id])]
    {
      var item := ItemFor(items, id);
      AnswerMatchesSingle(s, client, batch, items, id);
      acked := false;
      if item.Some? && item.value.events.Some? {
        requests := requests[id := ApplyEvents(requests[id], item.value.events.value)];
        acked := FindEvent(item.value.events.value, Acked).Some?;
      }
    }

    /** One batch: the batched call, and one by one when it is refused or a metric call throws half-way. */
    method SyncBatch(s: Setting, client: Client, batch: seq<string>, metricThrows: set<string>)
      requires forall id | id in batch :: id in requests
      modifies this
      ensures requests == SyncThese(s, client, old(requests), SeqToSet(batch))
    {
      var response := GetEventsBatch(s.platform, s.CallerOf(client), batch);
      if response.Err? {
        SyncBatchOneByOne(s, client, batch);
        return;
      }
      hide SyncAlone, Found, GetEvents;
      for k := 0 to |batch|
        invariant requests == SyncThese(s, client, old(requests), SeqToSet(batch[..k]))
      {
        assert SeqToSet(batch[..k + 1]) == SeqToSet(batch[..k]) + {batch[k]} by {
          assert batch[..k + 1] == batch[..k] + [batch[k]];
        }
        SyncOneMore(s, client, old(requests), SeqToSet(batch[..k]), batch[k]);
        var acked := ApplyItem(s, client, batch, response.value, batch[k]);
        if acked && batch[k] in metricThrows {
          SyncTwice(s, client, old(requests), SeqToSet(batch[..k + 1]), SeqToSet(batch));
          SyncBatchOneByOne(s, client, batch);
          return;
        }
      }
      assert batch[..|batch|] == batch;
    }

    /** The batches of one client, `batchSize` at a time. */
    method SyncGroup(s: Setting, client: Client, ids: seq<string>, batchSize: int, metricThrows: set<string>)
      requires batchSize >= 1 && forall id | id in ids :: id in requests
      modifies this
      ensures requests == SyncThese(s, client, old(requests), SeqToSet(ids))
    {
      hide SyncThese;
      var index := 0;
      SyncNone(s, client, requests);
      assert SeqToSet(Sliced(ids, 0, 0)) == {};
      while index < |ids|
        invariant 0 <= index
        invariant requests == SyncThese(s, client, old(requests), SeqToSet(Sliced(ids, 0, index)))
        decreases |ids| - index
      {
        SlicesJoin(ids, index, index + batchSize);
        SyncUnion(s, client, old(requests), SeqToSet(Sliced(ids, 0, index)),
                  SeqToSet(Sliced(ids, index, index + batchSize)));
        SyncBatch(s, client, Sliced(ids, index, index + batchSize), metricThrows);
        index := index + batchSize;
      }
      assert Sliced(ids, 0, index) == ids;
    }

    /** The first loop: the active requests that have a client, grouped by it, in some order. */
    method GroupActive(s: Setting) returns (groups: map<Client, seq<string>>)
      ensures forall c, id :: c in groups && id in groups[c] <==> ToSync(s, requests, id) && s.clients[id] == c
    {
      groups := map[];
      var left := requests.Keys;
      while left != {}
        invariant left <= requests.Keys
        invariant forall c, id :: c in groups && id in groups[c] <==>
                    ToSync(s, requests, id) && id !in left && s.clients[id] == c
      {
        var id :| id in left;
        left := left - {id};
        if ToSync(s, requests, id) {
          var c := s.clients[id];
          groups := groups[c := (if c in groups then groups[c] else []) + [id]];
        }
      }
    }

    /** The event half of syncBuyerActiveRequests, for any batch size and whatever metric calls throw. */
    method SyncActiveEvents(s: Setting, batchSize: int, metricThrows: set<string>)
      modifies this
      ensures requests == SyncEach(s, old(requests))
    {
      var size := if batchSize < 1 then 1 else batchSize;
      var groups := GroupActive(s);
      var left := groups.Keys;
      while left != {}
        invariant left <= groups.Keys
        invariant requests == SyncOutside(s, old(requests), left)
      {
        var c :| c in left;
        GroupDone(s, old(requests), c, left, groups[c]);
        SyncGroup(s, c, groups[c], size, metricThrows);
        left := left - {c};
      }
    }

    /** The second half: every request's timeouts, at a clock that has reached `start`. */
    method EvaluateAll(start: int, config: Config, clock: map<string, int>)
      requires forall id | id in requests :: id in clock && clock[id] >= start
      modifies this
      ensures requests == map id | id in old(requests) :: Evaluated(old(requests)[id], clock[id], config)
      ensures config.hardTimeoutAutoFinalize ==>
                forall id | id in requests :: Terminal(requests[id].status) || requests[id].decision == CONTINUE_WAIT
                                              || requests[id].terms.hardTimeoutAt > start
      ensures forall id | id in requests && requests[id].status == SENT && requests[id].acknowledgedAt == None ::
                requests[id].decision != CONTINUE_WAIT && requests[id].ackDeadlineAt.Some? ==>
                  requests[id].ackDeadlineAt.value == 0 || requests[id].ackDeadlineAt.value > start
    {
      var left := requests.Keys;
      while left != {}
        invariant left <= requests.Keys
        invariant requests == map id | id in old(requests) ::
                                if id in left then old(requests)[id]
                                else Evaluated(old(requests)[id], clock[id], config)
      {
        var id :| id in left;
        left := left - {id};
        requests := requests[id := Evaluated(requests[id], clock[id], config)];
      }
    }
  }

  /** `ids.slice(from, to)` for 0 <= from <= to: an end past the last element is the last. */
  function Sliced(ids: seq<string>, from: nat, to: nat): (r: seq<string>)
    requires from <= to
    ensures from == 0 && to >= |ids| ==> r == ids
  {
    if |ids| <= from then [] else if |ids| <= to then ids[from..] else ids[from..to]
  }

  lemma SlicesJoin(ids: seq<string>, from: nat, to: nat)
    requires from <= to
    ensures SeqToSet(Sliced(ids, 0, to)) == SeqToSet(Sliced(ids, 0, from)) + SeqToSet(Sliced(ids, from, to))
    ensures forall id | id in Sliced(ids, from, to) :: id in ids
  {
    assert Sliced(ids, 0, to) == Sliced(ids, 0, from) + Sliced(ids, from, to);
  }

  lemma SyncNone(s: Setting, client: Client, m: map<string, Request>)
    ensures SyncThese(s, client, m, {}) == m
  {
  }

  /** What is synced when all clients but those in `left` are done. */
  function SyncOutside(s: Setting, m: map<string, Request>, left: set<Client>): map<string, Request> {
    map id | id in m ::
      if ToSync(s, m, id) && s.clients[id] !in left then SyncAlone(s, s.clients[id], id, m[id]) else m[id]
  }

  /** Syncing the group of one more client. */
  lemma GroupDone(s: Setting, m: map<string, Request>, c: Client, left: set<Client>, ids: seq<string>)
    requires c in left && forall id :: id in ids <==> ToSync(s, m, id) && s.clients[id] == c
    ensures SyncThese(s, c, SyncOutside(s, m, left), SeqToSet(ids)) == SyncOutside(s, m, left - {c})
  {
    hide SyncAlone;
  }

  lemma AnswerMatchesSingle(s: Setting, client: Client, batch: seq<string>, items: seq<Item>, id: string)
    requires id in batch && AnswerTo(s, client, batch, items)
    ensures var item := ItemFor(items, id);
            match GetEvents(s.platform, s.CallerOf(client), id)
            case Ok(e) => item.Some? && item.value.events == Some(e)
            case Err(_) => item == None || item.value.events == None
  {
    if id != "" {
      var k :| 0 <= k < |items| && NonEmpty(batch)[k] == id;
      assert items[k] in items;
    }
  }

  lemma SyncOneMore(s: Setting, client: Client, m: map<string, Request>, done: set<string>, id: string)
    requires id in m
    ensures var now := SyncThese(s, client, m, done);
            now[id := SyncAlone(s, client, id, now[id])] == SyncThese(s, client, m, done + {id})
  {
    match GetEvents(s.platform, s.CallerOf(client), id)
    case Ok(events) => ApplyEventsIdempotent(m[id], events);
    case Err(_) =>
  }

  lemma SyncTwice(s: Setting, client: Client, m: map<string, Request>, some: set<string>, all: set<string>)
    requires some <= all
    ensures SyncThese(s, client, SyncThese(s, client, m, some), all) == SyncThese(s, client, m, all)
  {
    forall id | id in m && id in some
      ensures SyncAlone(s, client, id, SyncAlone(s, client, id, m[id])) == SyncAlone(s, client, id, m[id])
    {
      match GetEvents(s.platform, s.CallerOf(client), id)
      case Ok(events) => ApplyEventsIdempotent(m[id], events);
      case Err(_) =>
    }
  }

  lemma SyncUnion(s: Setting, client: Client, m: map<string, Request>, a: set<string>, b: set<string>)
    ensures SyncThese(s, client, SyncThese(s, client, m, a), b) == SyncThese(s, client, m, a + b)
  {
    forall id | id in m && id in a && id in b
      ensures SyncAlone(s, client, id, SyncAlone(s, client, id, m[id])) == SyncAlone(s, client, id, m[id])
    {
      match GetEvents(s.platform, s.CallerOf(client), id)
      case Ok(events) => ApplyEventsIdempotent(m[id], events);
      case Err(_) =>
    }
  }
}
