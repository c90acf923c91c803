/**
 Settling through chained receivers nested to any depth.

 A chained receiver is a receiver, so one may collect from another: each level hands an envelope on
 under a ticket of its own, and each level a settlement passes takes its ticket back and restores the
 receipt of the level below.
 */
module NestedSettlement {
  import opened Envelopes
  import opened Sequences

  type Env = Envelope<nat>

  /** Where a chained receiver keeps an envelope: delivered but not handed out yet, or under a ticket. */
  datatype Slot = Transit(arrival: nat) | Ticketed(ticket: nat)

  /** An envelope as collected, and where from. `delivery` is a history: which delivery of a transport it was. */
  datatype Entry = Entry(position: nat, envelope: Env, delivery: nat)

  /** What a receiver hands on, and the history of which delivery it was. */
  datatype Handed = Handed(envelope: Env, delivery: nat)

  /** A receiver: a transport, or receivers chained, each slot holding the envelope as collected. */
  datatype Node =
    | Leaf
    | Chained(children: seq<Node>, names: Option<seq<string>>, tickets: nat, arrivals: nat, held: map<Slot, Entry>)

  /** What reaches a transport: where it is, the envelope it is given, and whether to ack or reject it. */
  datatype Delivery = Delivery(path: seq<nat>, envelope: Env, kind: Kind)

  /** Where an envelope under a ticket came from: the transport, its ticket just above it, and what it yielded. */
  datatype Origin = Origin(path: seq<nat>, bottom: nat, yielded: Env)

  // ---------------------------------------------------------------------------------------------
  // The operations
  // ---------------------------------------------------------------------------------------------

  /** `path` leads through chained receivers to a transport. */
  predicate Leads(n: Node, path: seq<nat>) {
    && n.Chained? && path != [] && path[0] < |n.children|
    && (if |path| == 1 then n.children[path[0]].Leaf? else Leads(n.children[path[0]], path[1..]))
  }

  /** The transport at `path` delivers `e` to the receiver chained around it. */
  function Offer(n: Node, path: seq<nat>, e: Env, delivery: nat): Node {
    if n.Leaf? || path == [] || path[0] >= |n.children| then n
    else if |path| > 1 then n.(children := n.children[path[0] := Offer(n.children[path[0]], path[1..], e, delivery)])
    else if n.children[path[0]].Leaf? then Arrives(n, Entry(path[0], e, delivery))
    else n
  }

  function Arrives(n: Node, f: Entry): Node
    requires n.Chained?
  {
    n.(arrivals := n.arrivals + 1, held := n.held[Transit(n.arrivals) := f])
  }

  /** `_ticketed`: record where the envelope came from, and return it stamped with its ticket. */
  function Stamps(n: Node, position: nat): seq<Stamp>
    requires n.Chained?
  {
    (if n.names.Some? && position < |n.names.value| then [Received(n.names.value[position])] else [])
    + [AckReceipt(n.tickets)]
  }

  /** The chained receiver at `path` hands out what arrived as `k`, to the receiver around it or to the consumer. */
  function HandOut(n: Node, path: seq<nat>, k: nat): (Node, Option<Handed>) {
    if n.Leaf? then (n, None)
    else if path == [] then
      if Transit(k) !in n.held then (n, None)
      else
        var f := n.held[Transit(k)];
        (n.(tickets := n.tickets + 1, held := (n.held - {Transit(k)})[Ticketed(n.tickets) := f]),
         Some(Handed(f.envelope.WithStamps(Stamps(n, f.position)), f.delivery)))
    else if path[0] >= |n.children| then (n, None)
    else
      var (child, handed) := HandOut(n.children[path[0]], path[1..], k);
      var after := n.(children := n.children[path[0] := child]);
      (if handed.Some? then Arrives(after, Entry(path[0], handed.value.envelope, handed.value.delivery)) else after, None)
  }

  /** `ack` and `reject`: take the ticket, and forward to the receiver the envelope came from. */
  function Settle(n: Node, e: Env, kind: Kind): (Node, seq<Delivery>) {
    if n.Leaf? then (n, [Delivery([], e, kind)])
    else if Receipt(e).None? || Receipt(e).value < 0
            || Ticketed(Receipt(e).value) !in n.held then (n, [])
    else
      var slot := Ticketed(Receipt(e).value);
      var f := n.held[slot];
      if f.position >= |n.children| then (n, [])
      else
        var (child, reached) := Settle(n.children[f.position], Restored(e, f.envelope), kind);
        (n.(held := n.held - {slot}, children := n.children[f.position := child]), Under(f.position, reached))
  }

  function Under(position: nat, reached: seq<Delivery>): seq<Delivery> {
    if reached == [] then []
    else [reached[0].(path := [position] + reached[0].path)] + Under(position, reached[1..])
  }

  // ---------------------------------------------------------------------------------------------
  // Tickets lead down to a transport
  // ---------------------------------------------------------------------------------------------

  predicate Has(n: Node, ticket: int) {
    n.Chained? && ticket >= 0 && Ticketed(ticket) in n.held
  }

  /** What `f` refers to is still to be settled below: a transport, or a ticket of the receiver it came from. */
  predicate Refers(children: seq<Node>, f: Entry) {
    && f.position < |children|
    && (children[f.position].Chained? ==>
          Receipt(f.envelope).Some? && Has(children[f.position], Receipt(f.envelope).value))
  }

  predicate Apart(children: seq<Node>, f: Entry, g: Entry) {
    f.position == g.position && f.position < |children| && children[f.position].Chained?
    ==> Receipt(f.envelope) != Receipt(g.envelope)
  }

  /** Numbers not given out yet name no slot; every slot refers down, no two of them to the same ticket. */
  ghost predicate Sound(n: Node) {
    n.Chained? ==>
      && (forall i :: 0 <= i < |n.children| ==> Sound(n.children[i]))
      && (forall s :: s in n.held ==> (if s.Transit? then s.arrival < n.arrivals else s.ticket < n.tickets))
      && (forall s :: s in n.held ==> Refers(n.children, n.held[s]))
      && (forall s, t :: s in n.held && t in n.held && s != t ==> Apart(n.children, n.held[s], n.held[t]))
  }

  ghost function OriginOf(n: Node, ticket: int): Origin
    requires Sound(n) && Has(n, ticket)
  {
    var f := n.held[Ticketed(ticket)];
    assert Refers(n.children, f);
    var child := n.children[f.position];
    if child.Leaf? then Origin([f.position], ticket, f.envelope)
    else
      var below := OriginOf(child, Receipt(f.envelope).value);
      below.(path := [f.position] + below.path)
  }

  /** Distinct tickets lead to distinct deliveries of the transports. */
  lemma {:induction false} OriginsApart(n: Node, a: int, b: int)
    requires Sound(n) && Has(n, a) && Has(n, b) && a != b
    ensures OriginOf(n, a).path != OriginOf(n, b).path || OriginOf(n, a).bottom != OriginOf(n, b).bottom
  {
    var f, g := n.held[Ticketed(a)], n.held[Ticketed(b)];
    assert Refers(n.children, f) && Refers(n.children, g) && Apart(n.children, f, g);
    if f.position == g.position && n.children[f.position].Chained? {
      var ra, rb := Receipt(f.envelope).value, Receipt(g.envelope).value;
      OriginsApart(n.children[f.position], ra, rb);
      var pa, pb := OriginOf(n.children[f.position], ra).path, OriginOf(n.children[f.position], rb).path;
      assert [f.position] + pa == [f.position] + pb ==> pa == ([f.position] + pb)[1..];
    } else if f.position != g.position {
      assert OriginOf(n, a).path[0] == f.position && OriginOf(n, b).path[0] == g.position;
    }
  }

  // ---------------------------------------------------------------------------------------------
  // Delivering and handing out
  // ---------------------------------------------------------------------------------------------

  /** `m` is `n` with more under way: what was under a ticket still is, and still came from where it did. */
  ghost predicate Extends(n: Node, m: Node) {
    && Sound(n) && Sound(m)
    && (n.Leaf? <==> m.Leaf?)
    && (n.Chained? ==> n.tickets <= m.tickets)
    && forall t: int :: Has(n, t) ==> Has(m, t) && m.held[Ticketed(t)] == n.held[Ticketed(t)] && OriginOf(m, t) == OriginOf(n, t)
  }

  lemma ChildExtends(n: Node, i: nat, child: Node)
    requires Sound(n) && n.Chained? && i < |n.children| && Extends(n.children[i], child)
    ensures Extends(n, n.(children := n.children[i := child]))
  {
    var m := n.(children := n.children[i := child]);
    forall s | s in m.held ensures Refers(m.children, m.held[s]) {
      assert Refers(n.children, n.held[s]);
    }
    forall s, t | s in m.held && t in m.held && s != t ensures Apart(m.children, m.held[s], m.held[t]) {
      assert Apart(n.children, n.held[s], n.held[t]);
    }
    assert Sound(m);
    forall t: int | Has(n, t) ensures OriginOf(m, t) == OriginOf(n, t) {
      assert Refers(n.children, n.held[Ticketed(t)]);
    }
  }

  lemma ArrivesExtends(n: Node, f: Entry)
    requires Sound(n) && n.Chained? && Refers(n.children, f)
    requires forall s :: s in n.held ==> Apart(n.children, n.held[s], f) && Apart(n.children, f, n.held[s])
    ensures Extends(n, Arrives(n, f))
  {
    var m := Arrives(n, f);
    assert Transit(n.arrivals) !in n.held;
    assert Sound(m);
  }

  lemma {:induction false} OfferExtends(n: Node, path: seq<nat>, e: Env, delivery: nat)
    requires Sound(n)
    ensures Extends(n, Offer(n, path, e, delivery))
  {
    if n.Chained? && path != [] && path[0] < |n.children| {
      if |path| > 1 {
        OfferExtends(n.children[path[0]], path[1..], e, delivery);
        ChildExtends(n, path[0], Offer(n.children[path[0]], path[1..], e, delivery));
      } else if n.children[path[0]].Leaf? {
        ArrivesExtends(n, Entry(path[0], e, delivery));
      }
    }
  }

  lemma TicketSound(n: Node, k: nat)
    requires Sound(n) && n.Chained? && Transit(k) in n.held
    ensures Sound(HandOut(n, [], k).0)
  {
    var m := HandOut(n, [], k).0;
    var f := n.held[Transit(k)];
    assert forall s :: s in m.held ==> m.held[s] == (if s == Ticketed(n.tickets) then f else n.held[s]);
    forall s, t | s in m.held && t in m.held && s != t ensures Apart(m.children, m.held[s], m.held[t]) {
      var s0 := if s == Ticketed(n.tickets) then Transit(k) else s;
      var t0 := if t == Ticketed(n.tickets) then Transit(k) else t;
      assert Apart(n.children, n.held[s0], n.held[t0]);
    }
  }

  /** What is handed out is under the next ticket of the receiver that hands it out. */
  lemma TicketExtends(n: Node, k: nat)
    requires Sound(n) && n.Chained? && Transit(k) in n.held
    ensures var (m, handed) := HandOut(n, [], k);
            && Extends(n, m) && m.Chained? && m.tickets == n.tickets + 1
            && Receipt(handed.value.envelope) == Some(n.tickets)
            && m.held[Ticketed(n.tickets)] == n.held[Transit(k)]
            && !Has(n, n.tickets)
            && forall t: int :: Has(m, t) <==> Has(n, t) || t == n.tickets
  {
    var m := HandOut(n, [], k).0;
    var f := n.held[Transit(k)];
    var named := if n.names.Some? && f.position < |n.names.value| then [Received(n.names.value[f.position])] else [];
    ReceiptAdded(f.envelope, named, n.tickets);
    assert Ticketed(n.tickets) !in n.held;
    TicketSound(n, k);
    forall t: int | Has(n, t) ensures OriginOf(m, t) == OriginOf(n, t) {
      assert Refers(n.children, n.held[Ticketed(t)]);
    }
  }

  lemma {:induction false} HandOutExtends(n: Node, path: seq<nat>, k: nat)
    requires Sound(n)
    ensures Extends(n, HandOut(n, path, k).0)
    ensures HandOut(n, path, k).1.Some? ==> path == [] && n.Chained? && Transit(k) in n.held
  {
    if n.Chained? && path != [] && path[0] < |n.children| {
      var i := path[0];
      var (child, handed) := HandOut(n.children[i], path[1..], k);
      HandOutExtends(n.children[i], path[1..], k);
      ChildExtends(n, i, child);
      if handed.Some? {
        TicketExtends(n.children[i], k);
        var after := n.(children := n.children[i := child]);
        var f := Entry(i, handed.value.envelope, handed.value.delivery);
        forall s | s in after.held
          ensures Apart(after.children, after.held[s], f) && Apart(after.children, f, after.held[s])
        {
          assert Refers(n.children, n.held[s]);
        }
        ArrivesExtends(after, f);
      }
    } else if n.Chained? && path == [] && Transit(k) in n.held {
      TicketExtends(n, k);
    }
  }

  // ---------------------------------------------------------------------------------------------
  // Settling
  // ---------------------------------------------------------------------------------------------

  /** `got` is `given` with nothing but receipts added, the transport's own counting when it minted one. */
  ghost predicate Faithful(given: Env, yielded: Env, got: Env) {
    && got.message == given.message
    && |given.stamps| <= |got.stamps| && got.stamps[..|given.stamps|] == given.stamps
    && (forall s :: s in got.stamps[|given.stamps|..] ==> s.AckReceipt?)
    && (Receipt(yielded).Some? ==> Receipt(got) == Receipt(yielded))
  }

  /** An envelope that carries no ticket still to be settled settles nothing. */
  lemma UnknownTicketSettlesNothing(n: Node, e: Env, kind: Kind)
    requires n.Chained? && (Receipt(e).None? || !Has(n, Receipt(e).value))
    ensures Settle(n, e, kind) == (n, [])
  {
  }

  lemma RestoredFaithfully(e: Env, collected: Env)
    ensures Faithful(e, collected, Restored(e, collected))
    ensures Receipt(collected).Some? ==> Receipt(Restored(e, collected)) == Receipt(collected)
  {
    if Receipt(collected).Some? {
      ReceiptAdded(e, [], Receipt(collected).value);
      assert [] + [AckReceipt(Receipt(collected).value)] == [AckReceipt(Receipt(collected).value)];
    }
  }

  /** What is left once `ticket` was settled: every other ticket, leading where it led. */
  ghost predicate SettledOnly(n: Node, m: Node, ticket: int) {
    && Sound(n) && Sound(m) && n.Chained? && m.Chained? && m.tickets == n.tickets
    && (forall t: int :: Has(m, t) <==> Has(n, t) && t != ticket)
    && (forall t: int :: Has(m, t) && Has(n, t) ==> m.held[Ticketed(t)] == n.held[Ticketed(t)] && OriginOf(m, t) == OriginOf(n, t))
  }

  /**
   An envelope settled by its ticket reaches, once, the transport it came from, through every level:
   with the kind it was settled with, every stamp the consumer left on it, and the transport's own
   receipt as the one that counts.
   */
  lemma {:induction false} SettleReachesOrigin(n: Node, e: Env, kind: Kind)
    requires Sound(n) && Receipt(e).Some? && Has(n, Receipt(e).value)
    ensures var (m, reached) := Settle(n, e, kind);
            var origin := OriginOf(n, Receipt(e).value);
            && SettledOnly(n, m, Receipt(e).value)
            && |reached| == 1 && reached[0].path == origin.path && reached[0].kind == kind
            && Faithful(e, origin.yielded, reached[0].envelope)
  {
    var ticket := Receipt(e).value;
    var f := n.held[Ticketed(ticket)];
    assert Refers(n.children, f);
    var child := n.children[f.position];
    var forwarded := Restored(e, f.envelope);
    RestoredFaithfully(e, f.envelope);
    var (below, reached) := Settle(child, forwarded, kind);
    if child.Chained? {
      SettleReachesOrigin(child, forwarded, kind);
      FaithfulThrough(e, f.envelope, forwarded, OriginOf(child, Receipt(f.envelope).value).yielded, reached[0].envelope);
    }
    assert Under(f.position, reached) == [reached[0].(path := [f.position] + reached[0].path)];
    SettledHere(n, ticket, below);
  }

  lemma FaithfulThrough(e: Env, collected: Env, forwarded: Env, yielded: Env, got: Env)
    requires Faithful(e, collected, forwarded) && Faithful(forwarded, yielded, got)
    ensures Faithful(e, yielded, got)
  {
    var n, m := |e.stamps|, |forwarded.stamps|;
    assert got.stamps[..n] == got.stamps[..m][..n];
    assert got.stamps[n..] == forwarded.stamps[n..] + got.stamps[m..];
  }

  lemma SettledHere(n: Node, ticket: int, below: Node)
    requires Sound(n) && Has(n, ticket)
    requires var f := n.held[Ticketed(ticket)];
             f.position < |n.children|
             && (n.children[f.position].Leaf? ==> below == n.children[f.position])
             && (n.children[f.position].Chained? ==>
                   Receipt(f.envelope).Some? && SettledOnly(n.children[f.position], below, Receipt(f.envelope).value))
    ensures var f := n.held[Ticketed(ticket)];
            SettledOnly(n, n.(held := n.held - {Ticketed(ticket)}, children := n.children[f.position := below]), ticket)
  {
    var slot := Ticketed(ticket);
    var f := n.held[slot];
    var m := n.(held := n.held - {slot}, children := n.children[f.position := below]);
    forall s | s in m.held ensures Refers(m.children, m.held[s]) {
      assert Refers(n.children, n.held[s]) && Apart(n.children, n.held[s], f);
    }
    forall s, t | s in m.held && t in m.held && s != t ensures Apart(m.children, m.held[s], m.held[t]) {
      assert Apart(n.children, n.held[s], n.held[t]);
    }
    assert Sound(m);
    forall t: int | Has(m, t) && Has(n, t) ensures OriginOf(m, t) == OriginOf(n, t) {
      assert Refers(n.children, n.held[Ticketed(t)]) && Refers(m.children, m.held[Ticketed(t)]);
    }
  }

  // ---------------------------------------------------------------------------------------------
  // What is under way is what the transports delivered
  // ---------------------------------------------------------------------------------------------

  /** A delivery: the transport it was made by, and the envelope it yielded. */
  datatype Offered = Offered(path: seq<nat>, envelope: Env)

  /** `e` is what was delivered, with nothing but stamps added. */
  predicate Carries(e: Env, delivered: Env) {
    e.message == delivered.message && delivered.stamps <= e.stamps
  }

  /** `f` is the delivery it says it is: of the very transport, or of the ticket below that it refers to. */
  ghost predicate Stems(children: seq<Node>, at: seq<nat>, f: Entry, log: seq<Offered>) {
    && f.position < |children| && f.delivery < |log| && Carries(f.envelope, log[f.delivery].envelope)
    && (children[f.position].Leaf? ==> log[f.delivery] == Offered(at + [f.position], f.envelope))
    && (children[f.position].Chained? && Receipt(f.envelope).Some? && Has(children[f.position], Receipt(f.envelope).value) ==>
          children[f.position].held[Ticketed(Receipt(f.envelope).value)].delivery == f.delivery)
  }

  ghost predicate Traced(n: Node, at: seq<nat>, log: seq<Offered>) {
    n.Chained? ==>
      && (forall i :: 0 <= i < |n.children| ==> Traced(n.children[i], at + [i], log))
      && (forall s :: s in n.held ==> Stems(n.children, at, n.held[s], log))
  }

  /** Where a ticket leads is where the delivery behind it was made. */
  lemma {:induction false} OriginIsDelivery(n: Node, at: seq<nat>, log: seq<Offered>, ticket: int)
    requires Sound(n) && Traced(n, at, log) && Has(n, ticket)
    ensures var d := n.held[Ticketed(ticket)].delivery;
            d < |log| && log[d] == Offered(at + OriginOf(n, ticket).path, OriginOf(n, ticket).yielded)
  {
    var f := n.held[Ticketed(ticket)];
    assert Refers(n.children, f) && Stems(n.children, at, f, log);
    var child := n.children[f.position];
    if child.Chained? {
      var below := OriginOf(child, Receipt(f.envelope).value);
      OriginIsDelivery(child, at + [f.position], log, Receipt(f.envelope).value);
      assert at + [f.position] + below.path == at + ([f.position] + below.path);
    }
  }

  /** Another delivery leaves what is under way as it was. */
  lemma {:induction false} TracedOn(n: Node, at: seq<nat>, log: seq<Offered>, x: Offered)
    requires Traced(n, at, log)
    ensures Traced(n, at, log + [x])
  {
    if n.Chained? {
      forall i | 0 <= i < |n.children| ensures Traced(n.children[i], at + [i], log + [x]) {
        TracedOn(n.children[i], at + [i], log, x);
      }
      forall s | s in n.held ensures Stems(n.children, at, n.held[s], log + [x]) {
        assert Stems(n.children, at, n.held[s], log);
      }
    }
  }

  /** A child with other tickets: those still referred to are the deliveries they were. */
  lemma ChildTraced(n: Node, at: seq<nat>, log: seq<Offered>, i: nat, child: Node)
    requires Traced(n, at, log) && n.Chained? && i < |n.children| && Traced(child, at + [i], log)
    requires n.children[i].Leaf? <==> child.Leaf?
    requires forall t: int :: Has(child, t) && Has(n.children[i], t) ==> child.held[Ticketed(t)] == n.children[i].held[Ticketed(t)]
    requires forall s :: s in n.held ==> Refers(n.children, n.held[s])
    ensures Traced(n.(children := n.children[i := child]), at, log)
  {
    var m := n.(children := n.children[i := child]);
    forall s | s in m.held ensures Stems(m.children, at, m.held[s], log) {
      assert Stems(n.children, at, n.held[s], log) && Refers(n.children, n.held[s]);
    }
  }

  lemma {:induction false} OfferTraced(n: Node, at: seq<nat>, log: seq<Offered>, path: seq<nat>, e: Env)
    requires Sound(n) && Traced(n, at, log) && Leads(n, path) && log != [] && log[|log| - 1] == Offered(at + path, e)
    ensures Traced(Offer(n, path, e, |log| - 1), at, log)
  {
    var i, d := path[0], |log| - 1;
    if |path| > 1 {
      var child := Offer(n.children[i], path[1..], e, d);
      assert at + [i] + path[1..] == at + path;
      OfferTraced(n.children[i], at + [i], log, path[1..], e);
      OfferExtends(n.children[i], path[1..], e, d);
      ChildTraced(n, at, log, i, child);
    } else {
      assert at + path == at + [i];
      var m := Arrives(n, Entry(i, e, d));
      forall s | s in m.held ensures Stems(m.children, at, m.held[s], log) {
        assert s in n.held ==> Stems(n.children, at, n.held[s], log);
      }
    }
  }

  /** What is handed out is the delivery it was, with nothing but stamps added. */
  lemma {:induction false} HandOutTraced(n: Node, at: seq<nat>, log: seq<Offered>, path: seq<nat>, k: nat)
    requires Sound(n) && Traced(n, at, log)
    ensures var (m, handed) := HandOut(n, path, k);
            && Traced(m, at, log)
            && (handed.Some? ==> handed.value.delivery < |log| && Carries(handed.value.envelope, log[handed.value.delivery].envelope))
  {
    if n.Chained? && path == [] && Transit(k) in n.held {
      TicketTraced(n, at, log, k);
    } else if n.Chained? && path != [] && path[0] < |n.children| {
      var i := path[0];
      var (child, handed) := HandOut(n.children[i], path[1..], k);
      HandOutTraced(n.children[i], at + [i], log, path[1..], k);
      HandOutExtends(n.children[i], path[1..], k);
      HandOutExtends(n, path, k);
      ChildTraced(n, at, log, i, child);
      if handed.Some? {
        TicketExtends(n.children[i], k);
        ArrivalTraced(n.(children := n.children[i := child]), at, log, Entry(i, handed.value.envelope, handed.value.delivery));
      }
    }
  }

  lemma TicketTraced(n: Node, at: seq<nat>, log: seq<Offered>, k: nat)
    requires Traced(n, at, log) && n.Chained? && Transit(k) in n.held
    ensures var (m, handed) := HandOut(n, [], k);
            Traced(m, at, log) && handed.value.delivery < |log| && Carries(handed.value.envelope, log[handed.value.delivery].envelope)
  {
    var m := HandOut(n, [], k).0;
    assert Stems(n.children, at, n.held[Transit(k)], log);
    forall s | s in m.held ensures Stems(m.children, at, m.held[s], log) {
      assert s in n.held ==> Stems(n.children, at, n.held[s], log);
    }
  }

  lemma ArrivalTraced(n: Node, at: seq<nat>, log: seq<Offered>, f: Entry)
    requires n.Chained? && Traced(n, at, log) && Stems(n.children, at, f, log)
    ensures Traced(Arrives(n, f), at, log)
  {
    var m := Arrives(n, f);
    forall s | s in m.held ensures Stems(m.children, at, m.held[s], log) {
      assert s in n.held ==> Stems(n.children, at, n.held[s], log);
    }
  }

  lemma {:induction false} SettleTraced(n: Node, at: seq<nat>, log: seq<Offered>, e: Env, kind: Kind)
    requires Sound(n) && Traced(n, at, log) && n.Chained?
    ensures Traced(Settle(n, e, kind).0, at, log)
  {
    if Receipt(e).Some? && Has(n, Receipt(e).value) {
      var slot := Ticketed(Receipt(e).value);
      var f := n.held[slot];
      assert Refers(n.children, f);
      var child := n.children[f.position];
      var below := Settle(child, Restored(e, f.envelope), kind).0;
      if child.Chained? {
        RestoredFaithfully(e, f.envelope);
        SettleTraced(child, at + [f.position], log, Restored(e, f.envelope), kind);
        SettleReachesOrigin(child, Restored(e, f.envelope), kind);
      }
      ChildTraced(n, at, log, f.position, below);
    }
  }

  /**
   An envelope settled by its ticket reaches, once, the transport whose delivery it is, through every level:
   with the kind it was settled with, every stamp the consumer left on it, and the transport's own receipt.
   */
  lemma SettleReachesDelivery(n: Node, at: seq<nat>, log: seq<Offered>, e: Env, kind: Kind)
    requires Sound(n) && Traced(n, at, log) && Receipt(e).Some? && Has(n, Receipt(e).value)
    ensures var (m, reached) := Settle(n, e, kind);
            var d := n.held[Ticketed(Receipt(e).value)].delivery;
            && SettledOnly(n, m, Receipt(e).value)
            && d < |log| && |reached| == 1 && at + reached[0].path == log[d].path && reached[0].kind == kind
            && Faithful(e, log[d].envelope, reached[0].envelope)
  {
    SettleReachesOrigin(n, e, kind);
    OriginIsDelivery(n, at, log, Receipt(e).value);
  }

  // ---------------------------------------------------------------------------------------------
  // Each delivery is under way in one place
  // ---------------------------------------------------------------------------------------------

  ghost predicate Keeps(n: Node, delivery: nat)
    requires n.Chained?
  {
    exists k: nat :: Transit(k) in n.held && n.held[Transit(k)].delivery == delivery
  }

  /** The delivery waits somewhere below to be handed out. */
  ghost predicate InTransit(n: Node, delivery: nat) {
    n.Chained? && (Keeps(n, delivery) || exists i :: 0 <= i < |n.children| && InTransit(n.children[i], delivery))
  }

  ghost predicate OnceEach(n: Node) {
    n.Chained? ==>
      && (forall i :: 0 <= i < |n.children| ==> OnceEach(n.children[i]))
      && (forall i, j, d :: 0 <= i < |n.children| && 0 <= j < |n.children| && InTransit(n.children[i], d) && InTransit(n.children[j], d) ==> i == j)
      && (forall i, d :: 0 <= i < |n.children| && InTransit(n.children[i], d) ==> !Keeps(n, d))
      && (forall k: nat, l: nat ::
            (Transit(k) in n.held && Transit(l) in n.held && n.held[Transit(k)].delivery == n.held[Transit(l)].delivery) ==> k == l)
  }

  lemma ArrivalTransit(n: Node, f: Entry)
    requires Sound(n) && OnceEach(n) && n.Chained? && !InTransit(n, f.delivery)
    ensures OnceEach(Arrives(n, f))
    ensures forall d: nat :: InTransit(Arrives(n, f), d) <==> InTransit(n, d) || d == f.delivery
  {
    var m := Arrives(n, f);
    assert Transit(n.arrivals) !in n.held;
    forall d: nat ensures Keeps(m, d) <==> Keeps(n, d) || d == f.delivery {
      if Keeps(n, d) {
        var k: nat :| Transit(k) in n.held && n.held[Transit(k)].delivery == d;
        assert Transit(k) in m.held && m.held[Transit(k)].delivery == d;
      }
      assert m.held[Transit(n.arrivals)].delivery == f.delivery;
    }
  }

  /** One child with other deliveries in transit, none of them in transit elsewhere. */
  lemma ChildTransit(n: Node, i: nat, child: Node)
    requires OnceEach(n) && n.Chained? && i < |n.children| && OnceEach(child)
    requires forall d: nat :: InTransit(child, d) && !InTransit(n.children[i], d) ==> !InTransit(n, d)
    ensures var m := n.(children := n.children[i := child]);
            && OnceEach(m)
            && (forall d: nat :: Keeps(m, d) <==> Keeps(n, d))
            && (forall d: nat :: InTransit(m, d) <==> InTransit(child, d) || (InTransit(n, d) && !InTransit(n.children[i], d)))
  {
    var m := n.(children := n.children[i := child]);
    forall d: nat ensures Keeps(m, d) <==> Keeps(n, d) && (InTransit(child, d) ==> !Keeps(n, d)) {
      assert InTransit(n.children[i], d) ==> !Keeps(n, d);
    }
    forall d: nat ensures InTransit(m, d) <==> InTransit(child, d) || (InTransit(n, d) && !InTransit(n.children[i], d)) {
      assert InTransit(child, d) ==> InTransit(m.children[i], d);
      if InTransit(n, d) && !InTransit(n.children[i], d) && !Keeps(n, d) {
        var j :| 0 <= j < |n.children| && InTransit(n.children[j], d);
        assert InTransit(m.children[j], d);
      }
    }
  }

  lemma {:induction false} OfferTransit(n: Node, path: seq<nat>, e: Env, delivery: nat)
    requires Sound(n) && OnceEach(n) && Leads(n, path) && !InTransit(n, delivery)
    ensures OnceEach(Offer(n, path, e, delivery))
    ensures forall d: nat :: InTransit(Offer(n, path, e, delivery), d) <==> InTransit(n, d) || d == delivery
  {
    if |path| > 1 {
      OfferTransit(n.children[path[0]], path[1..], e, delivery);
      ChildTransit(n, path[0], Offer(n.children[path[0]], path[1..], e, delivery));
    } else {
      ArrivalTransit(n, Entry(path[0], e, delivery));
    }
  }

  lemma TicketTransit(n: Node, k: nat)
    requires OnceEach(n) && n.Chained? && Transit(k) in n.held
    ensures var m := HandOut(n, [], k).0;
            var gone := n.held[Transit(k)].delivery;
            OnceEach(m) && InTransit(n, gone) && forall d: nat :: InTransit(m, d) <==> InTransit(n, d) && d != gone
  {
    var m := HandOut(n, [], k).0;
    var gone := n.held[Transit(k)].delivery;
    assert Keeps(n, gone);
    forall d: nat ensures Keeps(m, d) <==> Keeps(n, d) && d != gone {
      if Keeps(n, d) && d != gone {
        var l: nat :| Transit(l) in n.held && n.held[Transit(l)].delivery == d;
        assert Transit(l) in m.held && m.held[Transit(l)].delivery == d;
      }
    }
  }

  /** Handing out moves one delivery one level up; from the outermost level it is under way no more. */
  lemma {:induction false} HandOutTransit(n: Node, path: seq<nat>, k: nat)
    requires Sound(n) && OnceEach(n)
    ensures var (m, handed) := HandOut(n, path, k);
            && OnceEach(m)
            && (handed.Some? ==> InTransit(n, handed.value.delivery))
            && (forall d: nat :: InTransit(m, d) <==> InTransit(n, d) && (handed.Some? ==> d != handed.value.delivery))
  {
    if n.Chained? && path == [] && Transit(k) in n.held {
      TicketTransit(n, k);
    } else if n.Chained? && path != [] && path[0] < |n.children| {
      var i := path[0];
      var (child, handed) := HandOut(n.children[i], path[1..], k);
      HandOutTransit(n.children[i], path[1..], k);
      HandOutExtends(n.children[i], path[1..], k);
      ChildExtends(n, i, child);
      ChildTransit(n, i, child);
      if handed.Some? {
        ArrivalTransit(n.(children := n.children[i := child]), Entry(i, handed.value.envelope, handed.value.delivery));
      }
    }
  }

  lemma {:induction false} SettleTransit(n: Node, e: Env, kind: Kind)
    requires OnceEach(n)
    ensures OnceEach(Settle(n, e, kind).0)
    ensures forall d: nat :: InTransit(Settle(n, e, kind).0, d) <==> InTransit(n, d)
  {
    if Receipt(e).Some? && Has(n, Receipt(e).value) && n.held[Ticketed(Receipt(e).value)].position < |n.children| {
      var slot := Ticketed(Receipt(e).value);
      var f := n.held[slot];
      var below := Settle(n.children[f.position], Restored(e, f.envelope), kind).0;
      SettleTransit(n.children[f.position], Restored(e, f.envelope), kind);
      var m := n.(held := n.held - {slot});
      forall d: nat ensures Keeps(m, d) <==> Keeps(n, d) {
        if Keeps(n, d) {
          var k: nat :| Transit(k) in n.held && n.held[Transit(k)].delivery == d;
          assert Transit(k) in m.held && m.held[Transit(k)].delivery == d;
        }
      }
      ChildTransit(m, f.position, below);
    }
  }

  // ---------------------------------------------------------------------------------------------
  // Over every run
  // ---------------------------------------------------------------------------------------------

  datatype Asked = Asked(index: nat, left: seq<Stamp>, kind: Kind)

  /**
   A consumer of the outermost receiver. `offered` is what the transports delivered; `handed` what it was handed,
   and `deliveries` which deliveries those were; `first` the first time each was settled; `reached` what reached
   the transports.
   */
  datatype System = System(root: Node, offered: seq<Offered>, handed: seq<Env>, deliveries: seq<nat>,
                           first: seq<Asked>, reached: seq<Delivery>)

  datatype Move =
    | Delivers(path: seq<nat>, envelope: Env)
    | HandsOut(path: seq<nat>, arrival: nat)
    | Settles(asked: Asked)

  predicate AskedOf(first: seq<Asked>, index: nat) {
    exists j :: 0 <= j < |first| && first[j].index == index
  }

  /** What the consumer settles with: the envelope as handed, and whatever it left on it but receipts. */
  function Left(s: System, a: Asked): Env
    requires a.index < |s.handed|
  {
    s.handed[a.index].WithStamps(a.left)
  }

  function Apply(s: System, m: Move): System {
    match m
    case Delivers(path, e) =>
      if !Leads(s.root, path) then s
      else s.(root := Offer(s.root, path, e, |s.offered|), offered := s.offered + [Offered(path, e)])
    case HandsOut(path, k) =>
      var (root, handed) := HandOut(s.root, path, k);
      if handed.None? then s.(root := root)
      else s.(root := root, handed := s.handed + [handed.value.envelope], deliveries := s.deliveries + [handed.value.delivery])
    case Settles(a) =>
      if a.index >= |s.handed| || (exists x | x in a.left :: x.AckReceipt?) then s
      else
        var (root, reached) := Settle(s.root, Left(s, a), a.kind);
        s.(root := root, reached := s.reached + reached,
           first := if AskedOf(s.first, a.index) then s.first else s.first + [a])
  }

  function Run(s: System, moves: seq<Move>): System
    decreases |moves|
  {
    if moves == [] then s else Run(Apply(s, moves[0]), moves[1..])
  }

  ghost predicate Inv(s: System) {
    && Sound(s.root) && s.root.Chained? && s.root.tickets == |s.handed| + 1 && |s.deliveries| == |s.handed|
    && Accounted(s)
    && (forall i: nat :: i < |s.handed| ==> HandedInv(s, i))
    && |s.reached| == |s.first|
    && (forall j: nat :: j < |s.first| ==> ReachedInv(s, j))
    && (forall i, j :: 0 <= i < j < |s.first| ==> s.first[i].index != s.first[j].index)
  }

  /** Each delivery is under way in one place, or was handed to the consumer, once. */
  ghost predicate Accounted(s: System) {
    && Traced(s.root, [], s.offered) && OnceEach(s.root)
    && NoRepeats(s.deliveries)
    && (forall d :: d in s.deliveries ==> d < |s.offered|)
    && (forall d: nat :: InTransit(s.root, d) <==> d < |s.offered| && d !in s.deliveries)
  }

  /** Envelope `i` is the delivery it is said to be, under ticket `i + 1` until it is settled. */
  ghost predicate HandedInv(s: System, i: nat)
    requires i < |s.handed| == |s.deliveries|
  {
    && s.deliveries[i] < |s.offered| && Carries(s.handed[i], s.offered[s.deliveries[i]].envelope)
    && Receipt(s.handed[i]) == Some(i + 1)
    && (Has(s.root, i + 1) <==> !AskedOf(s.first, i))
    && (Has(s.root, i + 1) ==> s.root.held[Ticketed(i + 1)].delivery == s.deliveries[i])
  }

  /** What reached a transport is what it delivered, settled as first asked for, with its own receipt. */
  ghost predicate ReachedInv(s: System, j: nat)
    requires j < |s.first| == |s.reached| && |s.deliveries| == |s.handed|
  {
    var a := s.first[j];
    && a.index < |s.handed| && s.deliveries[a.index] < |s.offered|
    && s.reached[j].path == s.offered[s.deliveries[a.index]].path
    && s.reached[j].kind == a.kind
    && Faithful(Left(s, a), s.offered[s.deliveries[a.index]].envelope, s.reached[j].envelope)
  }

  lemma HandsOutAccounted(s: System, path: seq<nat>, k: nat)
    requires Inv(s)
    ensures Accounted(Apply(s, HandsOut(path, k)))
  {
    var s' := Apply(s, HandsOut(path, k));
    HandOutTraced(s.root, [], s.offered, path, k);
    HandOutTransit(s.root, path, k);
    var handed := HandOut(s.root, path, k).1;
    if handed.Some? {
      forall d: nat ensures d in s'.deliveries <==> d in s.deliveries || d == handed.value.delivery {
      }
    }
  }

  lemma HandsOutKeeps(s: System, path: seq<nat>, k: nat)
    requires Inv(s)
    ensures Inv(Apply(s, HandsOut(path, k)))
  {
    var s' := Apply(s, HandsOut(path, k));
    var handed := HandOut(s.root, path, k).1;
    HandsOutAccounted(s, path, k);
    HandOutTraced(s.root, [], s.offered, path, k);
    HandOutExtends(s.root, path, k);
    if handed.Some? {
      TicketExtends(s.root, k);
    } else {
      HandOutTickets(s.root, path, k);
    }
    forall i: nat | i < |s'.handed| ensures HandedInv(s', i) {
      if i < |s.handed| { assert HandedInv(s, i); } else { NotAskedYet(s); }
      HandOutAddsOne(s.root, path, k, i + 1);
    }
    forall j: nat | j < |s'.first| ensures ReachedInv(s', j) { assert ReachedInv(s, j); }
  }

  lemma NotAskedYet(s: System)
    requires Inv(s)
    ensures !AskedOf(s.first, |s.handed|)
  {
    forall j: nat | j < |s.first| ensures s.first[j].index != |s.handed| { assert ReachedInv(s, j); }
  }

  lemma HandOutTickets(n: Node, path: seq<nat>, k: nat)
    requires n.Chained? && HandOut(n, path, k).1.None?
    ensures HandOut(n, path, k).0.Chained? && HandOut(n, path, k).0.tickets == n.tickets
  {
  }

  /** Handing out puts no envelope under a ticket but the one handed out. */
  lemma HandOutAddsOne(n: Node, path: seq<nat>, k: nat, t: int)
    requires Sound(n) && n.Chained?
    ensures var (m, handed) := HandOut(n, path, k);
            Has(m, t) <==> Has(n, t) || (handed.Some? && t == n.tickets)
  {
    if path == [] && Transit(k) in n.held {
      TicketExtends(n, k);
    }
  }

  lemma OfferTickets(n: Node, path: seq<nat>, e: Env, delivery: nat, t: int)
    requires n.Chained?
    ensures Has(Offer(n, path, e, delivery), t) <==> Has(n, t)
    ensures Offer(n, path, e, delivery).Chained? && Offer(n, path, e, delivery).tickets == n.tickets
  {
  }

  lemma DeliversAccounted(s: System, path: seq<nat>, e: Env)
    requires Inv(s) && Leads(s.root, path)
    ensures Accounted(Apply(s, Delivers(path, e)))
  {
    TracedOn(s.root, [], s.offered, Offered(path, e));
    assert [] + path == path;
    OfferTraced(s.root, [], s.offered + [Offered(path, e)], path, e);
    OfferTransit(s.root, path, e, |s.offered|);
  }

  lemma DeliversKeeps(s: System, path: seq<nat>, e: Env)
    requires Inv(s) && Leads(s.root, path)
    ensures Inv(Apply(s, Delivers(path, e)))
  {
    var s' := Apply(s, Delivers(path, e));
    DeliversAccounted(s, path, e);
    OfferExtends(s.root, path, e, |s.offered|);
    OfferTickets(s.root, path, e, |s.offered|, 0);
    forall i: nat | i < |s'.handed| ensures HandedInv(s', i) {
      assert HandedInv(s, i);
      OfferTickets(s.root, path, e, |s.offered|, i + 1);
    }
    forall j: nat | j < |s'.first| ensures ReachedInv(s', j) { assert ReachedInv(s, j); }
  }

  lemma SettlesKeeps(s: System, a: Asked)
    requires Inv(s)
    ensures Inv(Apply(s, Settles(a)))
  {
    var s' := Apply(s, Settles(a));
    if a.index < |s.handed| && forall x :: x in a.left ==> !x.AckReceipt? {
      assert HandedInv(s, a.index);
      NoReceiptAdded(s.handed[a.index], a.left);
      if AskedOf(s.first, a.index) {
        UnknownTicketSettlesNothing(s.root, Left(s, a), a.kind);
        assert s'.reached == s.reached;
      } else {
        SettleReachesDelivery(s.root, [], s.offered, Left(s, a), a.kind);
        assert [] + Settle(s.root, Left(s, a), a.kind).1[0].path == Settle(s.root, Left(s, a), a.kind).1[0].path;
        SettleTraced(s.root, [], s.offered, Left(s, a), a.kind);
        SettleTransit(s.root, Left(s, a), a.kind);
        FirstSettlement(s, a);
      }
    }
  }

  lemma FirstSettlement(s: System, a: Asked)
    requires Inv(s) && a.index < |s.handed| && !AskedOf(s.first, a.index)
    requires forall x :: x in a.left ==> !x.AckReceipt?
    requires Accounted(Apply(s, Settles(a))) && s.deliveries[a.index] < |s.offered|
    requires var (root, reached) := Settle(s.root, Left(s, a), a.kind);
             var delivered := s.offered[s.deliveries[a.index]];
             && SettledOnly(s.root, root, a.index + 1)
             && |reached| == 1 && reached[0].path == delivered.path && reached[0].kind == a.kind
             && Faithful(Left(s, a), delivered.envelope, reached[0].envelope)
    ensures Inv(Apply(s, Settles(a)))
  {
    var s' := Apply(s, Settles(a));
    assert s'.first == s.first + [a] && s'.handed == s.handed && s'.deliveries == s.deliveries && s'.offered == s.offered;
    forall i: nat | i < |s'.handed| ensures HandedInv(s', i) {
      assert HandedInv(s, i);
      OneMoreAsked(s.first, a, i);
    }
    forall j: nat | j < |s'.first| ensures ReachedInv(s', j) {
      if j < |s.first| { assert ReachedInv(s, j); }
    }
  }

  lemma OneMoreAsked(first: seq<Asked>, a: Asked, i: nat)
    ensures AskedOf(first + [a], i) <==> AskedOf(first, i) || i == a.index
  {
    assert (first + [a])[|first|] == a;
    if AskedOf(first, i) {
      var j :| 0 <= j < |first| && first[j].index == i;
      assert (first + [a])[j].index == i;
    }
  }

  lemma {:induction false} RunKeeps(s: System, moves: seq<Move>)
    requires Inv(s)
    ensures Inv(Run(s, moves))
    decreases |moves|
  {
    if moves != [] {
      match moves[0] {
        case Delivers(path, e) => if Leads(s.root, path) { DeliversKeeps(s, path, e); }
        case HandsOut(path, k) => HandsOutKeeps(s, path, k);
        case Settles(a) => SettlesKeeps(s, a);
      }
      RunKeeps(Apply(s, moves[0]), moves[1..]);
    }
  }

  /** Receivers as they are built: no ticket given, nothing held. */
  predicate Fresh(n: Node) {
    n.Chained? ==>
      n.tickets == 1 && n.arrivals == 0 && n.held == map[] && forall i :: 0 <= i < |n.children| ==> Fresh(n.children[i])
  }

  lemma {:induction false} FreshIsSound(n: Node, at: seq<nat>)
    requires Fresh(n)
    ensures Sound(n) && Traced(n, at, []) && OnceEach(n) && forall d: nat :: !InTransit(n, d)
  {
    if n.Chained? {
      forall i | 0 <= i < |n.children|
        ensures Sound(n.children[i]) && Traced(n.children[i], at + [i], []) && OnceEach(n.children[i])
                && forall d: nat :: !InTransit(n.children[i], d)
      {
        FreshIsSound(n.children[i], at + [i]);
      }
    }
  }

  /**
   Through receivers nested to any depth, with envelopes delivered and handed out in any order, and settled in any
   order and any number of times. Every envelope handed out is a delivery of some transport, no two the same one,
   with nothing but stamps added, and every other delivery is still under way. What reaches the transports is one
   settlement per settled envelope, in the order first settled, of the kind first asked for, at the transport that
   delivered it, with every stamp the consumer left and the transport's own receipt.
   */
  lemma SettledOnceAtTheOrigin(root: Node, moves: seq<Move>)
    requires Fresh(root) && root.Chained?
    ensures var s := Run(System(root, [], [], [], [], []), moves);
            && |s.deliveries| == |s.handed| && NoRepeats(s.deliveries)
            && (forall i :: 0 <= i < |s.handed| ==>
                  s.deliveries[i] < |s.offered| && Carries(s.handed[i], s.offered[s.deliveries[i]].envelope))
            && (forall d: nat :: d < |s.offered| ==> (d in s.deliveries <==> !InTransit(s.root, d)))
            && |s.reached| == |s.first|
            && (forall i, j :: 0 <= i < j < |s.first| ==> s.first[i].index != s.first[j].index)
            && forall j: nat :: j < |s.first| ==> ReachedInv(s, j)
  {
    FreshIsSound(root, []);
    RunKeeps(System(root, [], [], [], [], []), moves);
    var s := Run(System(root, [], [], [], [], []), moves);
    forall i: nat | i < |s.handed| ensures s.deliveries[i] < |s.offered| && Carries(s.handed[i], s.offered[s.deliveries[i]].envelope) {
      assert HandedInv(s, i);
    }
  }

  /** What a chained receiver keeps can be handed out, and is then kept no more. */
  lemma KeptIsHandedOut(n: Node, k: nat)
    requires n.Chained? && Transit(k) in n.held
    ensures var (m, handed) := HandOut(n, [], k);
            && handed.Some? && Transit(k) !in m.held
            && handed.value.delivery == n.held[Transit(k)].delivery
            && handed.value.envelope == n.held[Transit(k)].envelope.WithStamps(Stamps(n, n.held[Transit(k)].position))
  {
  }

  /** Handed out by a receiver inside, an envelope moves up to the one around it, as collected from that position. */
  lemma MovesUp(n: Node, i: nat, k: nat)
    requires Sound(n) && n.Chained? && i < |n.children| && n.children[i].Chained? && Transit(k) in n.children[i].held
    ensures var (m, handed) := HandOut(n, [i], k);
            var inside := HandOut(n.children[i], [], k);
            && handed == None && m.Chained? && m.children == n.children[i := inside.0]
            && Transit(n.arrivals) in m.held
            && m.held[Transit(n.arrivals)] == Entry(i, inside.1.value.envelope, inside.1.value.delivery)
            && forall s :: s in n.held ==> s in m.held && m.held[s] == n.held[s]
  {
    assert [i][1..] == [];
    assert Transit(n.arrivals) !in n.held;
  }
}
