/** From `send` to settlement: in-memory transports drained through one chained receiver. */
module EndToEnd {
  import opened Envelopes
  import opened ReceiveProtocol
  import T = InMemoryTransports

  /**
   `sent` is the record nothing drains; `queues` is what each transport still holds; `rejected` is what was rejected,
   as it was collected.
   */
  datatype System<+E> = System(sent: seq<From<E>>, queues: seq<seq<E>>, rejected: seq<From<E>>, receiving: State<E>)

  datatype Event<+E> =
    | Send(position: nat, envelope: E)
    | Poll(position: nat)
    | Cancel(position: nat)
    | Receiver(move: Move<E>)

  function Initially<E>(transports: nat): System<E> {
    System([], seq(transports, _ => []), [], ReceiveProtocol.Initially(transports))
  }

  /** A waiting fetch takes the oldest envelope of its transport, or finds the transport exhausted. */
  function Polled<E>(s: System<E>, p: nat): System<E> {
    if p >= |s.queues| || p !in s.receiving.fetch || !s.receiving.fetch[p].Pending? then s
    else if s.queues[p] == [] then s.(receiving := Ended(s.receiving, p, Exhausted))
    else s.(queues := s.queues[p := s.queues[p][1..]], receiving := Ended(s.receiving, p, Ready(s.queues[p][0])))
  }

  function Apply<E>(s: System<E>, e: Event<E>): System<E> {
    match e
    case Send(p, envelope) =>
      if p >= |s.queues| then s
      else s.(sent := s.sent + [From(p, envelope)], queues := s.queues[p := s.queues[p] + [envelope]])
    case Poll(p) => Polled(s, p)
    case Cancel(p) => s.(receiving := Ended(s.receiving, p, Cancelled))
    case Receiver(move) =>
      if move.FetchEnds? then s
      else s.(receiving := ReceiveProtocol.Apply(s.receiving, move), rejected := s.rejected + Rejecting(s, move))
  }

  /** What a settlement makes a transport record as rejected. */
  function Rejecting<E>(s: System<E>, move: Move<E>): seq<From<E>> {
    if move.Settle? && move.kind.Reject? && move.ticket in s.receiving.ledger.outstanding
    then [s.receiving.ledger.outstanding[move.ticket]] else []
  }

  function Run<E>(s: System<E>, events: seq<Event<E>>): System<E>
    decreases |events|
  {
    if events == [] then s else Run(Apply(s, events[0]), events[1..])
  }

  // ---------------------------------------------------------------------------------------------
  // Where an envelope handed out is now
  // ---------------------------------------------------------------------------------------------

  /** What was handed out of `p` under one of the first `n` tickets and is still to be settled. */
  ghost function InFlight<E>(l: Ledger<E>, n: nat, p: nat): multiset<E>
    requires n <= |l.out|
  {
    if n == 0 then multiset{}
    else InFlight(l, n - 1, p) + Outstanding(l, n, p)
  }

  ghost function Outstanding<E>(l: Ledger<E>, t: nat, p: nat): multiset<E>
    requires 1 <= t <= |l.out|
  {
    if t in l.outstanding && l.out[t - 1].position == p then multiset{l.out[t - 1].envelope} else multiset{}
  }

  ghost function SettledAs<E>(settled: seq<Settlement<E>>, p: nat, kind: Kind): multiset<E> {
    if settled == [] then multiset{}
    else
      var last := settled[|settled| - 1];
      SettledAs(settled[..|settled| - 1], p, kind)
      + (if last.origin.position == p && last.kind == kind then multiset{last.origin.envelope} else multiset{})
  }

  lemma SettledAsAppend<E>(settled: seq<Settlement<E>>, x: Settlement<E>, p: nat, kind: Kind)
    ensures SettledAs(settled + [x], p, kind)
            == SettledAs(settled, p, kind)
               + (if x.origin.position == p && x.kind == kind then multiset{x.origin.envelope} else multiset{})
  {
    assert (settled + [x])[..|settled + [x]| - 1] == settled;
  }

  /** Each envelope handed out of `p` is in flight, acknowledged or rejected: one of them, once. */
  ghost predicate Partitioned<E>(l: Ledger<E>, p: nat) {
    multiset(Of(l.out, p))
    == InFlight(l, |l.out|, p) + SettledAs(l.settled, p, Ack) + SettledAs(l.settled, p, Reject)
  }

  lemma {:induction false} InFlightSame<E>(l: Ledger<E>, l': Ledger<E>, n: nat, p: nat)
    requires n <= |l.out| && n <= |l'.out| && l'.out[..n] == l.out[..n]
    requires forall t :: 1 <= t <= n ==> (t in l.outstanding <==> t in l'.outstanding)
    ensures InFlight(l', n, p) == InFlight(l, n, p)
  {
    if n > 0 {
      assert l'.out[..n][..n - 1] == l'.out[..n - 1] && l.out[..n][..n - 1] == l.out[..n - 1];
      assert l'.out[n - 1] == l'.out[..n][n - 1] && l.out[n - 1] == l.out[..n][n - 1];
      InFlightSame(l, l', n - 1, p);
    }
  }

  lemma OutstandingWithout<E>(l: Ledger<E>, t: nat, n: nat, p: nat)
    requires 1 <= n <= |l.out|
    ensures Outstanding(l.(outstanding := l.outstanding - {t}), n, p) == if n == t then multiset{} else Outstanding(l, n, p)
  {
  }

  lemma {:induction false} InFlightLess<E>(l: Ledger<E>, l': Ledger<E>, t: nat, n: nat, p: nat)
    requires 1 <= t <= n <= |l.out| && l' == l.(outstanding := l.outstanding - {t})
    ensures InFlight(l, n, p) == InFlight(l', n, p) + Outstanding(l, t, p)
  {
    OutstandingWithout(l, t, n, p);
    if n == t {
      InFlightSame(l, l', n - 1, p);
      TakenOut(InFlight(l, n - 1, p), Outstanding(l', n, p), Outstanding(l, n, p));
    } else {
      InFlightLess(l, l', t, n - 1, p);
      AddedToBoth(InFlight(l, n - 1, p), InFlight(l', n - 1, p), Outstanding(l, t, p), Outstanding(l, n, p));
    }
  }

  lemma TakenOut<E>(a: multiset<E>, nothing: multiset<E>, taken: multiset<E>)
    requires nothing == multiset{}
    ensures a + taken == (a + nothing) + taken
  {
  }

  lemma AddedToBoth<E>(a: multiset<E>, b: multiset<E>, more: multiset<E>, c: multiset<E>)
    requires a == b + more
    ensures a + c == (b + c) + more
  {
  }

  lemma MovedAcross<E>(a: multiset<E>, b: multiset<E>, c: multiset<E>, moved: multiset<E>)
    ensures (a + moved) + b + c == a + (b + moved) + c
    ensures (a + moved) + b + c == a + b + (c + moved)
  {
  }

  lemma HandPartitions<E>(l: Ledger<E>, f: From<E>, p: nat)
    requires Tickets(l) && Partitioned(l, p)
    ensures Partitioned(Hand(l, f), p)
  {
    var l' := Hand(l, f);
    OfAppend(l.out, f, p);
    InFlightSame(l, l', |l.out|, p);
    assert multiset(Of(l.out, p) + [f.envelope]) == multiset(Of(l.out, p)) + multiset{f.envelope};
  }

  lemma SettledPartitions<E>(l: Ledger<E>, ticket: nat, kind: Kind, p: nat)
    requires Tickets(l) && Partitioned(l, p)
    ensures Partitioned(Settled(l, ticket, kind), p)
  {
    if ticket in l.outstanding {
      var after := Settled(l, ticket, kind);
      var x := Settlement(ticket, l.outstanding[ticket], kind);
      var moved := Outstanding(l, ticket, p);
      var less := l.(outstanding := l.outstanding - {ticket});
      InFlightLess(l, less, ticket, |l.out|, p);
      InFlightSame(less, after, |l.out|, p);
      assert InFlight(l, |l.out|, p) == InFlight(after, |l.out|, p) + moved;
      SettledAsAppend(l.settled, x, p, Ack);
      SettledAsAppend(l.settled, x, p, Reject);
      MovedAcross(InFlight(after, |l.out|, p), SettledAs(l.settled, p, Ack), SettledAs(l.settled, p, Reject), moved);
      if kind == Ack {
        assert SettledAs(after.settled, p, Ack) == SettledAs(l.settled, p, Ack) + moved;
      } else {
        assert SettledAs(after.settled, p, Reject) == SettledAs(l.settled, p, Reject) + moved;
      }
    }
  }

  // ---------------------------------------------------------------------------------------------
  // Over every run
  // ---------------------------------------------------------------------------------------------

  ghost predicate Carried<E>(s: System<E>, p: nat)
    requires p < |s.queues|
  {
    && Of(s.sent, p) == Of(s.receiving.arrived, p) + s.queues[p]
    && Partitioned(s.receiving.ledger, p)
    && RejectedAsSettled(s.rejected, s.receiving.ledger.settled, p)
  }

  /** What the transport at `p` recorded as rejected is exactly what was settled as rejected on it. */
  ghost predicate RejectedAsSettled<E>(rejected: seq<From<E>>, settled: seq<Settlement<E>>, p: nat) {
    multiset(Of(rejected, p)) == SettledAs(settled, p, Reject)
  }

  ghost predicate SystemInv<E>(s: System<E>) {
    && Inv(s.receiving)
    && s.receiving.receivers == |s.queues|
    && forall p: nat :: p < |s.queues| ==> Carried(s, p)
  }

  lemma RejectedOn<E>(rejected: seq<From<E>>, settled: seq<Settlement<E>>, x: Settlement<E>, p: nat)
    requires RejectedAsSettled(rejected, settled, p)
    ensures RejectedAsSettled(if x.kind.Reject? then rejected + [x.origin] else rejected, settled + [x], p)
  {
    SettledAsAppend(settled, x, p, Reject);
    if x.kind.Reject? {
      OfAppend(rejected, x.origin, p);
      if x.origin.position == p {
        assert multiset(Of(rejected, p) + [x.origin.envelope]) == multiset(Of(rejected, p)) + multiset{x.origin.envelope};
      }
    }
  }

  lemma SettlingRejects<E>(s: System<E>, move: Move<E>, p: nat)
    requires RejectedAsSettled(s.rejected, s.receiving.ledger.settled, p) && !move.FetchEnds?
    ensures var s' := Apply(s, Receiver(move)); RejectedAsSettled(s'.rejected, s'.receiving.ledger.settled, p)
  {
    var s' := Apply(s, Receiver(move));
    var l := s.receiving.ledger;
    if move.Settle? && move.ticket in l.outstanding {
      var x := Settlement(move.ticket, l.outstanding[move.ticket], move.kind);
      RejectedOn(s.rejected, l.settled, x, p);
      assert s'.receiving.ledger.settled == l.settled + [x];
      if move.kind.Reject? {
        assert s'.rejected == s.rejected + [x.origin];
      } else {
        assert s'.rejected == s.rejected;
      }
    } else {
      NothingSettled(s, move);
    }
  }

  lemma NothingSettled<E>(s: System<E>, move: Move<E>)
    requires !move.FetchEnds? && (move.Settle? ==> move.ticket !in s.receiving.ledger.outstanding)
    ensures var s' := Apply(s, Receiver(move));
            s'.rejected == s.rejected && s'.receiving.ledger.settled == s.receiving.ledger.settled
  {
    AdvancedHands(s.receiving);
    assert s.rejected + [] == s.rejected;
  }

  lemma ReceiverKeeps<E>(s: System<E>, move: Move<E>)
    requires SystemInv(s) && !move.FetchEnds?
    ensures SystemInv(Apply(s, Receiver(move)))
  {
    ApplyKeeps(s.receiving, move);
    var s' := Apply(s, Receiver(move));
    AdvancedHands(s.receiving);
    forall p: nat | p < |s.queues| ensures Carried(s', p) {
      assert Carried(s, p);
      SettlingRejects(s, move, p);
      if move.Settle? { SettledPartitions(s.receiving.ledger, move.ticket, move.kind, p); }
      if move.Advance? && Handing(s.receiving) != [] { HandPartitions(s.receiving.ledger, Handing(s.receiving)[0], p); }
    }
  }

  lemma PollKeeps<E>(s: System<E>, x: nat)
    requires SystemInv(s)
    ensures SystemInv(Polled(s, x))
  {
    var s' := Polled(s, x);
    ApplyKeeps(s.receiving, FetchEnds(x, Exhausted));
    if x < |s.queues| && s.queues[x] != [] {
      var head := s.queues[x][0];
      ApplyKeeps(s.receiving, FetchEnds(x, Ready(head)));
      forall p: nat | p < |s'.queues| ensures Carried(s', p) {
        assert Carried(s, p);
        TakenFromQueue(s, x, p);
      }
    } else {
      forall p: nat | p < |s'.queues| ensures Carried(s', p) { assert Carried(s, p); }
    }
  }

  lemma TakenFromQueue<E>(s: System<E>, x: nat, p: nat)
    requires x < |s.queues| && s.queues[x] != [] && p < |s.queues| && Carried(s, p)
    ensures Carried(Polled(s, x), p)
  {
    var s', head, rest := Polled(s, x), s.queues[x][0], s.queues[x][1..];
    if s' != s {
      assert s'.receiving.ledger == s.receiving.ledger && s'.receiving.arrived == s.receiving.arrived + [From(x, head)];
      ArrivedFrom(s.receiving.arrived, From(x, head), p);
      if x == p {
        HeadAndRest(Of(s.receiving.arrived, p), head, s.queues[p]);
        assert s'.queues[p] == rest;
      }
    }
  }

  lemma ArrivedFrom<E>(arrived: seq<From<E>>, f: From<E>, p: nat)
    ensures f.position == p ==> Of(arrived + [f], p) == Of(arrived, p) + [f.envelope]
    ensures f.position != p ==> Of(arrived + [f], p) == Of(arrived, p)
  {
    OfAppend(arrived, f, p);
    assert Of(arrived, p) + [] == Of(arrived, p);
  }

  lemma HeadAndRest<E>(before: seq<E>, head: E, queue: seq<E>)
    requires queue != [] && queue[0] == head
    ensures before + queue == (before + [head]) + queue[1..]
  {
  }

  lemma SendKeeps<E>(s: System<E>, x: nat, envelope: E)
    requires SystemInv(s)
    ensures SystemInv(Apply(s, Send(x, envelope)))
  {
    var s' := Apply(s, Send(x, envelope));
    forall p: nat | p < |s'.queues| ensures Carried(s', p) {
      assert Carried(s, p);
      if x < |s.queues| {
        OfAppend(s.sent, From(x, envelope), p);
        Associates(Of(s.receiving.arrived, x), s.queues[x], [envelope]);
      }
    }
  }

  lemma CancelKeeps<E>(s: System<E>, x: nat)
    requires SystemInv(s)
    ensures SystemInv(Apply(s, Cancel(x)))
  {
    var s' := Apply(s, Cancel(x));
    ApplyKeeps(s.receiving, FetchEnds(x, Fetch.Cancelled));
    forall p: nat | p < |s'.queues| ensures Carried(s', p) { assert Carried(s, p); }
  }

  lemma {:induction false} RunKeepsSystem<E>(s: System<E>, events: seq<Event<E>>)
    requires SystemInv(s)
    ensures SystemInv(Run(s, events)) && |Run(s, events).queues| == |s.queues|
    decreases |events|
  {
    if events != [] {
      match events[0] {
        case Send(x, envelope) => SendKeeps(s, x, envelope);
        case Poll(x) => PollKeeps(s, x);
        case Cancel(x) => CancelKeeps(s, x);
        case Receiver(move) => if !move.FetchEnds? { ReceiverKeeps(s, move); }
      }
      RunKeepsSystem(Apply(s, events[0]), events[1..]);
    }
  }

  lemma {:induction false} InitiallyCarried<E>(transports: nat)
    ensures SystemInv(Initially<E>(transports))
  {
    var s := Initially<E>(transports);
    forall p: nat | p < |s.queues| ensures Carried(s, p) {
      assert Of(s.sent, p) == [] && Of(s.receiving.arrived, p) == [] && Of(s.rejected, p) == [];
    }
  }

  /**
   End to end, for every sequence of sends, collections, stops and settlements: what was sent to a
   transport is, in the order sent, what was handed out of it, then the envelope of it that is kept if
   there is one, then what it still queues; what was handed out of it is exactly what is in flight,
   acknowledged or rejected, each envelope once; and it recorded as rejected exactly what was rejected.
   */
  lemma EverythingAccountedFor<E>(transports: nat, events: seq<Event<E>>, p: nat)
    requires p < transports
    ensures var s := Run(Initially(transports), events);
            && |s.queues| == transports
            && Of(s.sent, p) == Of(s.receiving.ledger.out, p) + StillKept(s.receiving, p) + s.queues[p]
            && Partitioned(s.receiving.ledger, p)
            && RejectedAsSettled(s.rejected, s.receiving.ledger.settled, p)
  {
    InitiallyCarried<E>(transports);
    RunKeepsSystem(Initially(transports), events);
    var s := Run(Initially(transports), events);
    assert Carried(s, p) && ConservedOf(s.receiving, p);
  }

  /** What `events` sends to transports that exist. */
  function Sends<E>(transports: nat, events: seq<Event<E>>): seq<From<E>> {
    if events == [] then []
    else
      (if events[0].Send? && events[0].position < transports then [From(events[0].position, events[0].envelope)] else [])
      + Sends(transports, events[1..])
  }

  /** The record is what was sent, whatever was drained in between. */
  lemma {:induction false} RecordNeverDrained<E>(s: System<E>, events: seq<Event<E>>)
    ensures Run(s, events).sent == s.sent + Sends(|s.queues|, events)
    decreases |events|
  {
    if events == [] {
      assert s.sent + [] == s.sent;
    } else {
      var s' := Apply(s, events[0]);
      assert |s'.queues| == |s.queues|;
      RecordNeverDrained(s', events[1..]);
      var now := if events[0].Send? && events[0].position < |s.queues| then [From(events[0].position, events[0].envelope)] else [];
      assert s'.sent == s.sent + now;
      Associates(s.sent, now, Sends(|s.queues|, events[1..]));
    }
  }

  // ---------------------------------------------------------------------------------------------
  // The transports as they are
  // ---------------------------------------------------------------------------------------------

  function Messages<M>(envelopes: seq<Envelope<M>>): seq<M> {
    seq(|envelopes|, i requires 0 <= i < |envelopes| => envelopes[i].message)
  }

  lemma OneMoreMessage<M>(envelopes: seq<Envelope<M>>, e: Envelope<M>)
    ensures Messages(envelopes + [e]) == Messages(envelopes) + [e.message]
  {
  }

  /** Each transport records, queues and rejects what the system says; what it rejects may carry more stamps. */
  ghost predicate Mirrors<M>(transports: seq<T.InMemoryTransport<M>>, s: System<Envelope<M>>)
    reads transports
  {
    && |transports| == |s.queues|
    && (forall p, q :: 0 <= p < q < |transports| ==> transports[p] != transports[q])
    && (forall p: nat :: p < |transports| ==>
          && transports[p].Valid()
          && transports[p].sent == Of(s.sent, p) && transports[p].queue == s.queues[p]
          && Messages(transports[p].rejected) == Messages(Of(s.rejected, p)))
  }

  /** `send` on a transport is the system's step, of the envelope as the transport records it; a refusal is no step. */
  method SendTo<M>(transports: seq<T.InMemoryTransport<M>>, p: nat, e: Envelope<M>, id: int, ghost s: System<Envelope<M>>)
      returns (error: Option<T.Error>, ghost t: System<Envelope<M>>)
    requires Mirrors(transports, s) && p < |transports|
    modifies transports[p]
    ensures Mirrors(transports, t)
    ensures error.Some? ==> t == s
    ensures error.None? ==>
              var recorded := T.Recorded(e, transports[p].trip, id);
              recorded.Some? && t == Apply(s, Send(p, recorded.value))
  {
    t := s;
    var returned: Envelope<M>;
    error, returned := transports[p].Send(e, id);
    if error.None? {
      ghost var recorded := T.Recorded(e, transports[p].trip, id).value;
      t := Apply(s, Send(p, recorded));
      forall q: nat | q < |transports| ensures Of(t.sent, q) == Of(s.sent, q) + (if q == p then [recorded] else []) {
        OfAppend(s.sent, From(p, recorded), q);
      }
    }
  }

  /** A fetch of a transport's stream is the system's step; what it yields is stamped with the transport's name and a receipt. */
  method FetchFrom<M>(transports: seq<T.InMemoryTransport<M>>, stream: T.Stream<M>, p: nat, ghost s: System<Envelope<M>>)
      returns (next: Option<Envelope<M>>, ghost t: System<Envelope<M>>)
    requires Mirrors(transports, s) && p < |transports| && stream.transport == transports[p]
    requires p in s.receiving.fetch && s.receiving.fetch[p].Pending?
    modifies stream, transports[p]
    ensures Mirrors(transports, t) && t == Apply(s, Poll(p))
    ensures next.None? <==> s.queues[p] == []
    ensures next.Some? ==> next.value == s.queues[p][0].WithStamps([Received("in-memory"), AckReceipt(stream.receipt)])
  {
    next := stream.Next();
    t := Apply(s, Poll(p));
  }

  /** `reject` on a transport is the system's step of rejecting a ticket that came from it, with whatever stamps it gained. */
  method RejectOn<M>(transports: seq<T.InMemoryTransport<M>>, p: nat, e: Envelope<M>, ghost ticket: nat, ghost s: System<Envelope<M>>)
      returns (ghost t: System<Envelope<M>>)
    requires Mirrors(transports, s) && p < |transports| && ticket in s.receiving.ledger.outstanding
    requires s.receiving.ledger.outstanding[ticket].position == p
    requires s.receiving.ledger.outstanding[ticket].envelope.message == e.message
    modifies transports[p]
    ensures Mirrors(transports, t) && t == Apply(s, Receiver(Settle(ticket, Reject)))
  {
    transports[p].Reject(e);
    t := Apply(s, Receiver(Settle(ticket, Reject)));
    ghost var f := s.receiving.ledger.outstanding[ticket];
    forall q: nat | q < |transports| ensures Of(t.rejected, q) == Of(s.rejected, q) + (if q == p then [f.envelope] else []) {
      OfAppend(s.rejected, f, q);
    }
    OneMoreMessage(old(transports[p].rejected), e);
    OneMoreMessage(Of(s.rejected, p), f.envelope);
    assert forall q: nat :: q < |transports| && q != p ==> Of(s.rejected, q) + [] == Of(s.rejected, q);
  }
}
