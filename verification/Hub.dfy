/** packages/transports/local: the in-process message hub between buyer and seller. */
module Hub {
  import opened Wrappers
  import opened Json
  import opened BuyerRequest
  import SellerResult

  datatype Payload =
    | TaskRequested(sellerId: Option<string>, subagentId: Option<string>, verification: Json, priority: int,
                    route: SellerResult.Route)
    | TaskResult(package: Record, attachments: Json)
    | Unparsable                       // a body that is not JSON
    | Unrelated                        // no result package in any of the places looked at

  datatype Message = Message(messageId: string, requestId: string, payload: Payload)

  type Queue = seq<Message>

  function QueueOf(queues: map<string, Queue>, receiver: string): Queue {
    if receiver in queues then queues[receiver] else []
  }

  /** Removes the first message with this id. */
  function AfterAck(q: Queue, id: string): (r: Queue) {
    if q == [] then []
    else if q[0].messageId == id then q[1..]
    else [q[0]] + AfterAck(q[1..], id)
  }

  /** What a poll returns. */
  function Polled(q: Queue, limit: nat): Queue {
    if |q| <= limit then q else q[..limit]
  }

  ghost predicate UniqueIds(q: Queue) {
    forall i, j | 0 <= i < j < |q| :: q[i].messageId != q[j].messageId
  }

  predicate Holds(q: Queue, id: string) {
    exists m :: m in q && m.messageId == id
  }

  class LocalHub {
    var queues: map<string, Queue>

    function Contents(receiver: string): Queue
      reads this
    {
      QueueOf(queues, receiver)
    }

    constructor ()
      ensures forall r :: Contents(r) == []
    {
      queues := map[];
    }

    method GetQueue(receiver: string) returns (q: Queue)
      modifies this
      ensures q == Contents(receiver) && forall r :: Contents(r) == old(Contents(r))
    {
      if receiver !in queues {
        queues := queues[receiver := []];
      }
      q := queues[receiver];
    }

    method Send(target: string, m: Message)
      modifies this
      ensures Contents(target) == old(Contents(target)) + [m]
      ensures forall r | r != target :: Contents(r) == old(Contents(r))
    {
      var q := GetQueue(target);
      queues := queues[target := q + [m]];
    }

    /** Reads a prefix and removes nothing. */
    method Poll(receiver: string, limit: nat) returns (items: seq<Message>)
      modifies this
      ensures forall r :: Contents(r) == old(Contents(r))
      ensures items == Polled(Contents(receiver), limit) && items <= Contents(receiver)
      ensures |items| == if |Contents(receiver)| < limit then |Contents(receiver)| else limit
    {
      var q := GetQueue(receiver);
      items := if |q| <= limit then q else q[..limit];
    }

    method Ack(receiver: string, messageId: string) returns (acked: bool)
      modifies this
      ensures Contents(receiver) == AfterAck(old(Contents(receiver)), messageId)
      ensures forall r | r != receiver :: Contents(r) == old(Contents(r))
      ensures acked <==> Holds(old(Contents(receiver)), messageId)
    {
      var q := GetQueue(receiver);
      var index := 0;
      while index < |q| && q[index].messageId != messageId
        invariant index <= |q|
        invariant forall i | 0 <= i < index :: q[i].messageId != messageId
      {
        index := index + 1;
      }
      AckedAt(q, messageId, index);
      acked := index < |q|;
      if acked {
        queues := queues[receiver := q[..index] + q[index + 1..]];
      }
    }
  }

  lemma {:induction false} AckedAt(q: Queue, id: string, index: nat)
    requires index <= |q| && (forall i | 0 <= i < index :: q[i].messageId != id)
    requires index < |q| ==> q[index].messageId == id
    ensures AfterAck(q, id) == if index < |q| then q[..index] + q[index + 1..] else q
  {
    if q != [] && index > 0 {
      AckedAt(q[1..], id, index - 1);
      assert q == [q[0]] + q[1..];
    }
  }

  lemma {:induction false} AckMiddle(kept: Queue, m: Message, rest: Queue)
    requires forall i | 0 <= i < |kept| :: kept[i].messageId != m.messageId
    ensures AfterAck(kept + [m] + rest, m.messageId) == kept + rest
  {
    var q := kept + [m] + rest;
    if kept == [] {
      assert q[1..] == rest;
    } else {
      assert q[1..] == kept[1..] + [m] + rest;
      AckMiddle(kept[1..], m, rest);
      assert kept + rest == [kept[0]] + (kept[1..] + rest);
    }
  }

  /** An ack takes away one message with that id, if there is one, and leaves the order of the rest. */
  lemma {:induction false} AckRemovesOne(q: Queue, id: string)
    ensures |AfterAck(q, id)| == if Holds(q, id) then |q| - 1 else |q|
    ensures forall m | m in AfterAck(q, id) :: m in q
    ensures forall m | m in q && m.messageId != id :: m in AfterAck(q, id)
  {
    if q != [] {
      var first, rest := q[0], q[1..];
      AckRemovesOne(rest, id);
      assert q == [first] + rest;
      assert Holds(q, id) <==> first.messageId == id || Holds(rest, id);
      hide Holds;
    }
  }

  /** Unique ids stay unique, and the acknowledged one is gone. */
  lemma {:induction false} AckKeepsUnique(q: Queue, id: string)
    requires UniqueIds(q)
    ensures UniqueIds(AfterAck(q, id)) && !Holds(AfterAck(q, id), id)
  {
    if q != [] {
      var first, rest := q[0], q[1..];
      AckKeepsUnique(rest, id);
      AckRemovesOne(rest, id);
      assert q == [first] + rest;
      if first.messageId != id {
        var kept := AfterAck(rest, id);
        forall j | 0 <= j < |kept| ensures kept[j].messageId != first.messageId {
          assert kept[j] in rest;
        }
        assert AfterAck(q, id) == [first] + kept;
      }
      hide AfterAck;
    }
  }
}
