/** A transport that records what is sent, and queues it for collection. */
module InMemoryTransports {
  import opened Envelopes

  datatype Error = UnsupportedDelay | NotSerializable

  predicate IsMessageId(s: Stamp) { s.TransportMessageId? }

  /** What a serializer makes of an envelope, or nothing when encoding or decoding fails. */
  type RoundTrip<!M> = Envelope<M> -> Option<Envelope<M>>

  /** What `send` records: the envelope, round-tripped when there is a serializer, under a new message id. */
  function Recorded<M>(e: Envelope<M>, trip: Option<RoundTrip<M>>, id: int): Option<Envelope<M>> {
    var recorded := if trip.None? then Some(e) else trip.value(e);
    if recorded.None? then None else Some(recorded.value.WithStamps([TransportMessageId(id)]))
  }

  /** What `send` returns: the envelope it was given, with the ids the recorded one carries. */
  function Stamped<M>(e: Envelope<M>, recorded: Envelope<M>): Envelope<M> {
    e.WithStamps(recorded.All(IsMessageId))
  }

  class InMemoryTransport<M> {
    const trip: Option<RoundTrip<M>>
    var sent: seq<Envelope<M>>
    var queue: seq<Envelope<M>>
    var rejected: seq<Envelope<M>>
    /** What was collected since the transport was built or cleared. */
    ghost var collected: seq<Envelope<M>>

    /** The record is what was collected and what is queued, in the order sent. */
    ghost predicate Valid()
      reads this
    {
      sent == collected + queue
    }

    constructor (trip: Option<RoundTrip<M>>)
      ensures Valid() && sent == [] && rejected == [] && this.trip == trip
    {
      this.trip := trip;
      sent, queue, rejected, collected := [], [], [], [];
    }

    /** A delay cannot be honoured, and is refused before anything is recorded. `id` is the identifier drawn. */
    method Send(e: Envelope<M>, id: int) returns (error: Option<Error>, returned: Envelope<M>)
      requires Valid()
      modifies this
      ensures Valid() && rejected == old(rejected) && collected == old(collected)
      ensures error == if e.Last(IsDelay).Some? then Some(UnsupportedDelay)
                       else if trip.Some? && trip.value(e).None? then Some(NotSerializable) else None
      ensures error.Some? ==> sent == old(sent) && queue == old(queue)
      ensures error.None? ==>
                && sent == old(sent) + [Recorded(e, trip, id).value]
                && queue == old(queue) + [Recorded(e, trip, id).value]
                && (trip.None? ==> Recorded(e, trip, id).value == e.WithStamps([TransportMessageId(id)]))
                && (trip.Some? ==> trip.value(e).Some? && Recorded(e, trip, id).value == trip.value(e).value.WithStamps([TransportMessageId(id)]))
                && returned == Stamped(e, Recorded(e, trip, id).value)
                && returned.message == e.message && Receipt(returned) == Receipt(e)
                && returned.Last(IsMessageId) == Some(TransportMessageId(id))
    {
      returned := e;
      if e.Last(IsDelay).Some? {
        return Some(UnsupportedDelay), e;
      }
      var recorded := Recorded(e, trip, id);
      if recorded.None? {
        return Some(NotSerializable), e;
      }
      Associates(collected, queue, [recorded.value]);
      sent := sent + [recorded.value];
      queue := queue + [recorded.value];
      returned := Stamped(e, recorded.value);
      ReturnedCarriesId(e, recorded.value, id);
      error := None;
    }

    method Reject(e: Envelope<M>)
      requires Valid()
      modifies this`rejected
      ensures Valid() && rejected == old(rejected) + [e]
    {
      rejected := rejected + [e];
    }

    method Clear()
      modifies this
      ensures Valid() && sent == [] && queue == [] && rejected == [] && collected == []
    {
      sent, queue, rejected, collected := [], [], [], [];
    }
  }

  lemma ReturnedCarriesId<M>(e: Envelope<M>, recorded: Envelope<M>, id: int)
    requires exists before :: recorded == Envelope(recorded.message, before + [TransportMessageId(id)])
    ensures var returned := Stamped(e, recorded);
            Receipt(returned) == Receipt(e) && returned.Last(IsMessageId) == Some(TransportMessageId(id))
  {
    var before :| recorded == Envelope(recorded.message, before + [TransportMessageId(id)]);
    KeptSatisfies(IsMessageId, recorded.stamps);
    NoReceiptAdded(e, recorded.All(IsMessageId));
    KeptDistributes(IsMessageId, before, [TransportMessageId(id)]);
    assert [TransportMessageId(id)][1..] == [];
    KeptKept(IsMessageId, recorded.stamps);
    LastAddedWins(e, IsMessageId, recorded.All(IsMessageId));
  }

  /**
   What ids come back, with a serializer or without: those the envelope had, those that made the round trip, and the
   new one. So an envelope sent again carries each of its earlier ids twice exactly when the round trip keeps them.
   */
  lemma EarlierIdsRepeat<M>(e: Envelope<M>, trip: Option<RoundTrip<M>>, id: int)
    requires Recorded(e, trip, id).Some?
    ensures var made := if trip.None? then e else trip.value(e).value;
            var returned := Stamped(e, Recorded(e, trip, id).value);
            && returned.All(IsMessageId) == e.All(IsMessageId) + (made.All(IsMessageId) + [TransportMessageId(id)])
            && (returned.All(IsMessageId) == e.All(IsMessageId) + (e.All(IsMessageId) + [TransportMessageId(id)])
                <==> made.All(IsMessageId) == e.All(IsMessageId))
  {
    var new_ := [TransportMessageId(id)];
    var made := if trip.None? then e else trip.value(e).value;
    var recorded := Recorded(e, trip, id).value;
    KeptDistributes(IsMessageId, made.stamps, new_);
    assert Kept(IsMessageId, new_) == new_ + Kept(IsMessageId, []);
    KeptKept(IsMessageId, recorded.stamps);
    KeptDistributes(IsMessageId, e.stamps, recorded.All(IsMessageId));
    SameMiddle(e.All(IsMessageId), made.All(IsMessageId), e.All(IsMessageId), new_);
  }

  lemma SameMiddle<T>(before: seq<T>, a: seq<T>, b: seq<T>, after: seq<T>)
    ensures before + (a + after) == before + (b + after) <==> a == b
  {
    if before + (a + after) == before + (b + after) {
      assert (before + (a + after))[|before|..] == a + after && (before + (b + after))[|before|..] == b + after;
      assert (a + after)[..|a|] == a && (b + after)[..|a|] == b;
    }
  }

  lemma {:induction false} KeptKept(keep: Stamp -> bool, s: seq<Stamp>)
    ensures Kept(keep, Kept(keep, s)) == Kept(keep, s)
  {
    if s != [] {
      KeptKept(keep, s[1..]);
      KeptDistributes(keep, if keep(s[0]) then [s[0]] else [], Kept(keep, s[1..]));
    }
  }

  /** One call of `get`: its receipts are numbered as it hands envelopes out. */
  class Stream<M> {
    const transport: InMemoryTransport<M>
    var receipt: nat

    constructor (transport: InMemoryTransport<M>)
      ensures this.transport == transport && receipt == 0
    {
      this.transport := transport;
      receipt := 0;
    }

    /** The oldest envelope queued, stamped with where it came from and its receipt; nothing when the queue is empty. */
    method Next() returns (next: Option<Envelope<M>>)
      requires transport.Valid()
      modifies this`receipt, transport`queue, transport`collected
      ensures transport.Valid()
      ensures next.None? <==> old(transport.queue) == []
      ensures next.None? ==> receipt == old(receipt) && transport.queue == [] && transport.collected == old(transport.collected)
      ensures next.Some? ==>
                && receipt == old(receipt) + 1 && Receipt(next.value) == Some(receipt)
                && next.value == old(transport.queue)[0].WithStamps([Received("in-memory"), AckReceipt(receipt)])
                && transport.queue == old(transport.queue)[1..]
                && transport.collected == old(transport.collected) + [old(transport.queue)[0]]
    {
      if transport.queue == [] {
        return None;
      }
      var e := transport.queue[0];
      assert transport.queue == [e] + transport.queue[1..];
      Associates(transport.collected, [e], transport.queue[1..]);
      transport.queue := transport.queue[1..];
      transport.collected := transport.collected + [e];
      receipt := receipt + 1;
      ReceiptAdded(e, [Received("in-memory")], receipt);
      assert [Received("in-memory")] + [AckReceipt(receipt)] == [Received("in-memory"), AckReceipt(receipt)];
      next := Some(e.WithStamps([Received("in-memory"), AckReceipt(receipt)]));
    }
  }
}
