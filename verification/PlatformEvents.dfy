/** The events a platform request carries, as the platform appends them and the buyer reads them. */
module PlatformEvents {
  import opened Wrappers

  datatype EventType = TaskTokenIssued | DeliveryMetaIssued | Acked | Completed | Failed

  datatype PlatformEvent = PlatformEvent(
    eventType: EventType,
    at: Option<int>,
    bySeller: bool,                 // actor_type is "seller"
    sellerId: Option<string>,
    subagentId: Option<string>,
    finishedAt: Option<int>,
    etaHintS: Option<int>
  )

  /** `events.find(event => event.event_type === t)` */
  function FindEvent(events: seq<PlatformEvent>, t: EventType): (r: Option<PlatformEvent>)
    ensures r.Some? <==> exists e :: e in events && e.eventType == t
    ensures r.Some? ==> r.value in events && r.value.eventType == t
  {
    if events == [] then None
    else if events[0].eventType == t then Some(events[0])
    else FindEvent(events[1..], t)
  }

  /** It is the first one. */
  lemma {:induction false} FindsFirstEvent(events: seq<PlatformEvent>, t: EventType, i: nat)
    requires i < |events| && events[i].eventType == t && forall k | 0 <= k < i :: events[k].eventType != t
    ensures FindEvent(events, t) == Some(events[i])
  {
    if i > 0 {
      FindsFirstEvent(events[1..], t, i - 1);
    }
  }
}
