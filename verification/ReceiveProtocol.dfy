/**
 Collecting from several receivers at once, as the moves that can interleave.

 A receiver is known by its position. Fetches complete at any time, the generator advances from one
 suspension to the next, and the consumer closes it, settles, and asks again. Any sequence of moves
 is a run; a move that is not possible changes nothing.
 */
module ReceiveProtocol {
  import opened Envelopes
  import opened Sequences

  /** What waiting for a receiver's next message came to. */
  datatype Fetch<+E> = Pending | Ready(envelope: E) | Exhausted | Broken | Cancelled

  /** Where the generator stands. `todo` is what is left of one sorted round of completed fetches. */
  datatype Phase = Idle | Serving | Waiting | Round(todo: seq<nat>) | Abandoning

  datatype Settlement<+E> = Settlement(ticket: nat, origin: From<E>, kind: Kind)

  /**
   Who handed out what: the ticket counter, the envelopes under a ticket still to be settled, and the
   histories `out`, what was handed out, and `settled`, what was forwarded to an origin.
   */
  datatype Ledger<+E> = Ledger(tickets: nat, outstanding: map<nat, From<E>>, out: seq<From<E>>, settled: seq<Settlement<E>>)

  /**
   `order` is the insertion order of the dictionary of live fetches, `fetch` its content. `arrived` is
   the history of what the receivers delivered, `since` how much had been handed out when a receiver's
   fetch completed, and `dry` the receivers that ran dry since the streams were opened.
   */
  datatype State<+E> = State(receivers: nat, phase: Phase, order: seq<nat>, fetch: map<nat, Fetch<E>>,
                             leftovers: seq<From<E>>, ledger: Ledger<E>, arrived: seq<From<E>>, since: map<nat, nat>,
                             dry: set<nat>)

  datatype Move<+E> =
    | FetchEnds(position: nat, outcome: Fetch<E>)
    | Get
    | Advance
    | Close
    | Settle(ticket: nat, kind: Kind)

  function Initially<E>(receivers: nat): State<E> {
    State(receivers, Idle, [], map[], [], Ledger(1, map[], [], []), [], map[], {})
  }

  function Upto(n: nat): seq<nat> {
    seq(n, i => i)
  }

  function Without(order: seq<nat>, p: nat): seq<nat> {
    if order == [] then []
    else (if order[0] == p then [] else [order[0]]) + Without(order[1..], p)
  }

  predicate Done<E>(s: State<E>, p: nat) {
    p in s.fetch && !s.fetch[p].Pending?
  }

  /** The completed fetches among the first `n` positions, by position. */
  function Completed<E>(s: State<E>, n: nat): seq<nat> {
    if n == 0 then [] else Completed(s, n - 1) + (if Done(s, n - 1) then [n - 1] else [])
  }

  /** What abandoned fetches delivered as they were stopped, in the order the fetches were started. */
  function Delivered<E>(fetch: map<nat, Fetch<E>>, order: seq<nat>): seq<From<E>> {
    if order == [] then []
    else (if order[0] in fetch && fetch[order[0]].Ready? then [From(order[0], fetch[order[0]].envelope)] else [])
         + Delivered(fetch, order[1..])
  }

  /** Record where `f` came from under the next ticket, and hand it out. */
  function Hand<E>(l: Ledger<E>, f: From<E>): Ledger<E> {
    l.(tickets := l.tickets + 1, outstanding := l.outstanding[l.tickets := f], out := l.out + [f])
  }

  /** A ticket is taken once: settling again finds nothing and forwards nothing. */
  function Settled<E>(l: Ledger<E>, ticket: nat, kind: Kind): Ledger<E> {
    if ticket !in l.outstanding then l
    else l.(outstanding := l.outstanding - {ticket},
            settled := l.settled + [Settlement(ticket, l.outstanding[ticket], kind)])
  }

  function Forget<E>(s: State<E>, p: nat): State<E> {
    s.(order := Without(s.order, p), fetch := s.fetch - {p})
  }

  function Refetch<E>(s: State<E>, p: nat): State<E> {
    s.(order := s.order + [p], fetch := s.fetch[p := Pending])
  }

  function ServeLeftover<E>(s: State<E>): State<E>
    requires s.leftovers != []
  {
    s.(leftovers := s.leftovers[1..], ledger := Hand(s.ledger, s.leftovers[0]))
  }

  function OpenStreams<E>(s: State<E>): State<E> {
    s.(phase := Waiting, order := Upto(s.receivers), fetch := map p | p in Upto(s.receivers) :: Pending, dry := {})
  }

  function Process<E>(s: State<E>): State<E>
    requires s.phase.Round? && s.phase.todo != [] && s.phase.todo[0] in s.fetch
  {
    var p := s.phase.todo[0];
    var rest := Round(s.phase.todo[1..]);
    match s.fetch[p]
    case Ready(e) => Refetch(Forget(s, p), p).(phase := rest, ledger := Hand(s.ledger, From(p, e)))
    case Exhausted => Forget(s, p).(phase := rest)
    case _ => Forget(s, p).(phase := Abandoning)
  }

  function Abandon<E>(s: State<E>): State<E> {
    s.(phase := Idle, order := [], fetch := map[], leftovers := s.leftovers + Delivered(s.fetch, s.order))
  }

  /** One step of the generator, from one place it may be suspended at to the next. */
  function Advanced<E>(s: State<E>): State<E> {
    match s.phase
    case Idle => s
    case Serving => if s.leftovers != [] then ServeLeftover(s) else OpenStreams(s)
    case Waiting =>
      if s.order == [] then s.(phase := Idle)
      else if Completed(s, s.receivers) == [] then s
      else s.(phase := Round(Completed(s, s.receivers)))
    case Round(todo) =>
      if todo == [] then s.(phase := Waiting)
      else if todo[0] in s.fetch then Process(s) else s
    case Abandoning =>
      if forall p :: p in s.fetch ==> !s.fetch[p].Pending? then Abandon(s) else s
  }

  function Ended<E>(s: State<E>, p: nat, outcome: Fetch<E>): State<E> {
    if p !in s.fetch || !s.fetch[p].Pending? || outcome.Pending? || (outcome.Cancelled? && !s.phase.Abandoning?) then s
    else
      var ended := s.(fetch := s.fetch[p := outcome]);
      if outcome.Ready? then
        ended.(arrived := s.arrived + [From(p, outcome.envelope)], since := s.since[p := |s.ledger.out|])
      else if outcome.Exhausted? then ended.(dry := s.dry + {p})
      else ended
  }

  function Apply<E>(s: State<E>, m: Move<E>): State<E> {
    match m
    case FetchEnds(p, outcome) => Ended(s, p, outcome)
    case Get => if s.phase.Idle? then s.(phase := Serving) else s
    case Advance => Advanced(s)
    case Close =>
      if s.phase.Serving? then s.(phase := Idle)
      else if s.phase.Waiting? || s.phase.Round? then s.(phase := Abandoning)
      else s
    case Settle(ticket, kind) => s.(ledger := Settled(s.ledger, ticket, kind))
  }

  function Run<E>(s: State<E>, moves: seq<Move<E>>): State<E>
    decreases |moves|
  {
    if moves == [] then s else Run(Apply(s, moves[0]), moves[1..])
  }

  /** What `log` holds of the receiver at `p`, in order. */
  function Of<E>(log: seq<From<E>>, p: nat): seq<E> {
    if log == [] then []
    else Of(log[..|log| - 1], p) + (if log[|log| - 1].position == p then [log[|log| - 1].envelope] else [])
  }

  /** What the receiver at `p` delivered that was not handed out yet. */
  function StillKept<E>(s: State<E>, p: nat): seq<E> {
    Of(s.leftovers, p) + (if p in s.fetch && s.fetch[p].Ready? then [s.fetch[p].envelope] else [])
  }

  // ---------------------------------------------------------------------------------------------
  // The shape every reachable state has
  // ---------------------------------------------------------------------------------------------

  predicate Increasing(todo: seq<nat>) {
    forall i, j :: 0 <= i < j < |todo| ==> todo[i] < todo[j]
  }

  predicate OneEach<E>(leftovers: seq<From<E>>) {
    forall i, j :: 0 <= i < j < |leftovers| ==> leftovers[i].position != leftovers[j].position
  }

  /** At most one live fetch and one leftover per receiver, and no leftovers while streams are open. */
  ghost predicate Shape<E>(s: State<E>) {
    && NoRepeats(s.order) && OneEach(s.leftovers)
    && (forall p :: p in s.order <==> p in s.fetch)
    && (forall p :: p in s.fetch ==> p < s.receivers)
    && (forall i :: 0 <= i < |s.leftovers| ==> s.leftovers[i].position < s.receivers)
    && (s.phase.Idle? || s.phase.Serving? ==> s.order == [])
    && (!s.phase.Idle? && !s.phase.Serving? ==> s.leftovers == [])
    && (s.phase.Round? ==> Increasing(s.phase.todo) && forall p :: p in s.phase.todo ==> Done(s, p))
    && (forall p :: p in s.fetch && s.fetch[p].Cancelled? ==> s.phase.Abandoning?)
  }

  /** Every envelope delivered is in one place, and each receiver's order is kept across all of them. */
  ghost predicate Conserved<E>(s: State<E>) {
    forall p :: ConservedOf(s, p)
  }

  ghost predicate ConservedOf<E>(s: State<E>, p: nat) {
    Of(s.arrived, p) == Of(s.ledger.out, p) + StillKept(s, p)
  }

  /** Each envelope handed out is under one ticket of its own until it is settled, once. */
  ghost predicate Tickets<E>(l: Ledger<E>) {
    && l.tickets == |l.out| + 1
    && (forall t :: t in l.outstanding ==> 1 <= t <= |l.out| && l.outstanding[t] == l.out[t - 1])
    && (forall i :: 0 <= i < |l.settled| ==> Closes(l, l.settled[i]))
    && (forall i, j :: 0 <= i < j < |l.settled| ==> l.settled[i].ticket != l.settled[j].ticket)
    && (forall t :: 1 <= t <= |l.out| && t !in l.outstanding ==> Closed(l, t))
  }

  ghost predicate Closes<E>(l: Ledger<E>, x: Settlement<E>) {
    1 <= x.ticket <= |l.out| && x.origin == l.out[x.ticket - 1] && x.ticket !in l.outstanding
  }

  ghost predicate Closed<E>(l: Ledger<E>, ticket: nat) {
    exists x :: x in l.settled && x.ticket == ticket
  }

  // ---------------------------------------------------------------------------------------------
  // Lemmas on the sequences
  // ---------------------------------------------------------------------------------------------

  lemma UptoHas(n: nat)
    ensures forall p: nat :: p in Upto(n) <==> p < n
  {
    forall p: nat ensures p in Upto(n) <==> p < n {
      assert p < n ==> Upto(n)[p] == p;
    }
  }

  lemma OfAppend<E>(log: seq<From<E>>, f: From<E>, p: nat)
    ensures Of(log + [f], p) == Of(log, p) + (if f.position == p then [f.envelope] else [])
  {
    assert (log + [f])[..|log + [f]| - 1] == log;
  }

  lemma {:induction false} OfFirst<E>(log: seq<From<E>>, p: nat)
    requires log != []
    ensures Of(log, p) == (if log[0].position == p then [log[0].envelope] else []) + Of(log[1..], p)
  {
    if |log| == 1 {
      assert log[..0] == [] && log[1..] == [];
    } else {
      OfFirst(log[..|log| - 1], p);
      assert log[..|log| - 1][1..] == log[1..][..|log[1..]| - 1];
    }
  }

  lemma {:induction false} WithoutHas(order: seq<nat>, p: nat)
    requires NoRepeats(order)
    ensures NoRepeats(Without(order, p))
    ensures forall x :: x in Without(order, p) <==> x in order && x != p
  {
    if order != [] {
      var rest := order[1..];
      assert forall x :: x in order <==> x == order[0] || x in rest;
      assert order[0] !in rest;
      WithoutHas(rest, p);
    }
  }

  lemma {:induction false} CompletedHas<E>(s: State<E>, n: nat)
    ensures forall p: nat :: p in Completed(s, n) <==> p < n && Done(s, p)
    ensures Increasing(Completed(s, n))
  {
    if n > 0 {
      CompletedHas(s, n - 1);
      var less := Completed(s, n - 1);
      forall i | 0 <= i < |less| ensures less[i] < n - 1 { assert less[i] in less; }
    }
  }

  lemma {:induction false} DeliveredOf<E>(fetch: map<nat, Fetch<E>>, order: seq<nat>, p: nat)
    requires NoRepeats(order)
    ensures Of(Delivered(fetch, order), p)
            == if p in order && p in fetch && fetch[p].Ready? then [fetch[p].envelope] else []
  {
    if order != [] {
      var first, d := order[0], Delivered(fetch, order[1..]);
      DeliveredOf(fetch, order[1..], p);
      if first in fetch && fetch[first].Ready? {
        var all := [From(first, fetch[first].envelope)] + d;
        assert Delivered(fetch, order) == all && all[1..] == d;
        OfFirst(all, p);
      } else {
        assert Delivered(fetch, order) == d;
      }
    }
  }

  lemma {:induction false} DeliveredHas<E>(fetch: map<nat, Fetch<E>>, order: seq<nat>)
    requires NoRepeats(order)
    ensures OneEach(Delivered(fetch, order))
    ensures forall i :: 0 <= i < |Delivered(fetch, order)| ==> Delivered(fetch, order)[i].position in order
  {
    if order != [] {
      var first, rest := order[0], order[1..];
      var d, all := Delivered(fetch, rest), Delivered(fetch, order);
      DeliveredHas(fetch, rest);
      assert order == [first] + rest;
      assert first !in rest;
      if first in fetch && fetch[first].Ready? {
        assert all == [From(first, fetch[first].envelope)] + d;
        forall i | 1 <= i < |all| ensures all[i].position in order && all[i].position != first {
          assert all[i] == d[i - 1] && d[i - 1].position in rest;
        }
      } else {
        assert all == d;
      }
    }
  }

  // ---------------------------------------------------------------------------------------------
  // Every move keeps the shape
  // ---------------------------------------------------------------------------------------------

  lemma ForgetKeepsShape<E>(s: State<E>, p: nat, phase: Phase)
    requires Shape(s) && s.phase.Round? && s.phase.todo != [] && p == s.phase.todo[0]
    requires phase == Round(s.phase.todo[1..]) || phase == Abandoning
    ensures Shape(Forget(s, p).(phase := phase))
  {
    WithoutHas(s.order, p);
    var s' := Forget(s, p).(phase := phase);
    if phase.Round? {
      forall x | x in phase.todo ensures Done(s', x) {
        assert x in s.phase.todo && x != p;
      }
    }
  }

  lemma ProcessKeepsShape<E>(s: State<E>)
    requires Shape(s) && s.phase.Round? && s.phase.todo != [] && s.phase.todo[0] in s.fetch
    ensures Shape(Process(s))
  {
    var p := s.phase.todo[0];
    ForgetKeepsShape(s, p, Round(s.phase.todo[1..]));
    ForgetKeepsShape(s, p, Abandoning);
    if s.fetch[p].Ready? {
      WithoutHas(s.order, p);
      RefetchKeepsShape(Forget(s, p).(phase := Round(s.phase.todo[1..])), p);
    }
  }

  lemma RefetchKeepsShape<E>(s: State<E>, p: nat)
    requires Shape(s) && s.phase.Round? && p !in s.order && p < s.receivers
    ensures Shape(Refetch(s, p))
  {
    var s' := Refetch(s, p);
    forall x | x in s'.phase.todo ensures Done(s', x) {
      assert Done(s, x);
    }
    assert forall x :: x in s'.order <==> x in s.order || x == p;
  }

  lemma AbandonKeepsShape<E>(s: State<E>)
    requires Shape(s) && s.phase.Abandoning?
    ensures Shape(Abandon(s))
  {
    DeliveredHas(s.fetch, s.order);
    assert [] + Delivered(s.fetch, s.order) == Delivered(s.fetch, s.order);
    assert forall p :: p in s.order ==> p < s.receivers;
  }

  lemma OpenKeepsShape<E>(s: State<E>)
    requires Shape(s) && s.phase.Serving? && s.leftovers == []
    ensures Shape(OpenStreams(s))
  {
  }

  lemma AdvancedKeepsShape<E>(s: State<E>)
    requires Shape(s)
    ensures Shape(Advanced(s))
  {
    match s.phase
    case Idle =>
    case Serving => if s.leftovers == [] { OpenKeepsShape(s); }
    case Waiting => CompletedHas(s, s.receivers);
    case Round(todo) => if todo != [] && todo[0] in s.fetch { ProcessKeepsShape(s); }
    case Abandoning => AbandonKeepsShape(s);
  }

  lemma EndedKeepsShape<E>(s: State<E>, p: nat, outcome: Fetch<E>)
    requires Shape(s)
    ensures Shape(Ended(s, p, outcome))
  {
  }

  lemma ApplyKeepsShape<E>(s: State<E>, m: Move<E>)
    requires Shape(s)
    ensures Shape(Apply(s, m))
  {
    match m
    case FetchEnds(p, outcome) => EndedKeepsShape(s, p, outcome);
    case Advance => AdvancedKeepsShape(s);
    case Get =>
    case Close =>
    case Settle(_, _) =>
  }

  /** What the next step of the generator hands out, if it hands anything out. */
  function Handing<E>(s: State<E>): seq<From<E>> {
    if s.phase.Serving? && s.leftovers != [] then [s.leftovers[0]]
    else if s.phase.Round? && s.phase.todo != [] && s.phase.todo[0] in s.fetch && s.fetch[s.phase.todo[0]].Ready? then
      [From(s.phase.todo[0], s.fetch[s.phase.todo[0]].envelope)]
    else []
  }

  lemma AdvancedHands<E>(s: State<E>)
    ensures var s' := Advanced(s);
            && s'.ledger == (if Handing(s) == [] then s.ledger else Hand(s.ledger, Handing(s)[0]))
            && s'.arrived == s.arrived && s'.since == s.since && s'.receivers == s.receivers
  {
  }

  // ---------------------------------------------------------------------------------------------
  // Every move conserves what was delivered, in each receiver's order
  // ---------------------------------------------------------------------------------------------

  lemma ApplyConserves<E>(s: State<E>, m: Move<E>)
    requires Shape(s) && Conserved(s)
    ensures Conserved(Apply(s, m))
  {
    forall p ensures ConservedOf(Apply(s, m), p) {
      assert ConservedOf(s, p);
      if m.FetchEnds? { EndedConserves(s, m.position, m.outcome, p); }
      if m.Advance? { AdvancedConserves(s, p); }
    }
  }

  lemma EndedConserves<E>(s: State<E>, x: nat, outcome: Fetch<E>, p: nat)
    requires ConservedOf(s, p)
    ensures ConservedOf(Ended(s, x, outcome), p)
  {
    if outcome.Ready? {
      OfAppend(s.arrived, From(x, outcome.envelope), p);
      if x == p {
        var left := Of(s.leftovers, p);
        assert left + [] == left;
        Associates(Of(s.ledger.out, p), left, [outcome.envelope]);
      }
    }
  }

  lemma AdvancedConserves<E>(s: State<E>, p: nat)
    requires Shape(s) && ConservedOf(s, p)
    ensures ConservedOf(Advanced(s), p)
  {
    AdvancedHands(s);
    AdvancedKeeps(s, p);
    Associates(Of(s.ledger.out, p), HandingOf(s, p), StillKept(Advanced(s), p));
    if Handing(s) != [] {
      OfAppend(s.ledger.out, Handing(s)[0], p);
    }
    assert Of(s.ledger.out, p) + [] == Of(s.ledger.out, p);
  }

  /** What the next step of the generator hands out of the receiver at `p`. */
  function HandingOf<E>(s: State<E>, p: nat): seq<E> {
    if Handing(s) != [] && Handing(s)[0].position == p then [Handing(s)[0].envelope] else []
  }

  /** What a step of the generator hands out is what it no longer keeps. */
  lemma AdvancedKeeps<E>(s: State<E>, p: nat)
    requires Shape(s)
    ensures StillKept(s, p) == HandingOf(s, p) + StillKept(Advanced(s), p)
  {
    match s.phase
    case Serving => if s.leftovers != [] { ServeKeeps(s, p); }
    case Abandoning => AbandonKeeps(s, p);
    case Round(todo) => if todo != [] && todo[0] in s.fetch { ProcessKeeps(s, p); }
    case Idle =>
    case Waiting =>
  }

  lemma ServeKeeps<E>(s: State<E>, p: nat)
    requires Shape(s) && s.phase.Serving? && s.leftovers != []
    ensures StillKept(s, p) == HandingOf(s, p) + StillKept(ServeLeftover(s), p)
  {
    assert s.order == [] && p !in s.fetch;
    OfFirst(s.leftovers, p);
    assert StillKept(ServeLeftover(s), p) == Of(s.leftovers[1..], p);
  }

  lemma AbandonKeeps<E>(s: State<E>, p: nat)
    requires Shape(s) && s.leftovers == []
    ensures StillKept(Abandon(s), p) == StillKept(s, p)
  {
    DeliveredOf(s.fetch, s.order, p);
    assert [] + Delivered(s.fetch, s.order) == Delivered(s.fetch, s.order);
  }

  lemma ProcessKeeps<E>(s: State<E>, p: nat)
    requires s.phase.Round? && s.phase.todo != [] && s.phase.todo[0] in s.fetch && s.leftovers == []
    ensures StillKept(s, p) == HandingOf(s, p) + StillKept(Process(s), p)
  {
  }

  // ---------------------------------------------------------------------------------------------
  // Every move keeps the tickets
  // ---------------------------------------------------------------------------------------------

  lemma HandKeepsTickets<E>(l: Ledger<E>, f: From<E>)
    requires Tickets(l)
    ensures Tickets(Hand(l, f))
  {
    var l' := Hand(l, f);
    assert forall i :: 0 <= i < |l'.settled| ==> Closes(l, l.settled[i]);
    forall t | 1 <= t <= |l'.out| && t !in l'.outstanding ensures Closed(l', t) {
      assert Closed(l, t);
    }
  }

  lemma ClosedStays<E>(l: Ledger<E>, x: Settlement<E>, t: nat)
    requires Closed(l, t)
    ensures exists y :: y in l.settled + [x] && y.ticket == t
  {
    var y :| y in l.settled && y.ticket == t;
    assert y in l.settled + [x];
  }

  lemma SettledKeepsTickets<E>(l: Ledger<E>, ticket: nat, kind: Kind)
    requires Tickets(l)
    ensures Tickets(Settled(l, ticket, kind))
  {
    if ticket in l.outstanding {
      var l' := Settled(l, ticket, kind);
      var x := Settlement(ticket, l.outstanding[ticket], kind);
      assert forall i :: 0 <= i < |l.settled| ==> Closes(l, l.settled[i]);
      assert l'.settled[|l.settled|] == x && x in l'.settled;
      forall t | 1 <= t <= |l'.out| && t !in l'.outstanding ensures Closed(l', t) {
        if t != ticket {
          ClosedStays(l, x, t);
        }
      }
    }
  }

  lemma ApplyKeepsTickets<E>(s: State<E>, m: Move<E>)
    requires Tickets(s.ledger)
    ensures Tickets(Apply(s, m).ledger)
  {
    if m.Settle? { SettledKeepsTickets(s.ledger, m.ticket, m.kind); }
    if m.Advance? {
      AdvancedHands(s);
      if Handing(s) != [] { HandKeepsTickets(s.ledger, Handing(s)[0]); }
    }
  }

  // ---------------------------------------------------------------------------------------------
  // Over every run
  // ---------------------------------------------------------------------------------------------

  ghost predicate Inv<E>(s: State<E>) {
    && Shape(s) && Conserved(s) && Tickets(s.ledger)
    && forall i :: 0 <= i < |s.ledger.out| ==> s.ledger.out[i].position < s.receivers
  }

  lemma ApplyKeeps<E>(s: State<E>, m: Move<E>)
    requires Inv(s)
    ensures Inv(Apply(s, m)) && Apply(s, m).receivers == s.receivers
  {
    ApplyKeepsShape(s, m);
    ApplyConserves(s, m);
    ApplyKeepsTickets(s, m);
    if m.Advance? { AdvancedHands(s); }
  }

  lemma {:induction false} RunKeeps<E>(s: State<E>, moves: seq<Move<E>>)
    requires Inv(s)
    ensures Inv(Run(s, moves)) && Run(s, moves).receivers == s.receivers
    decreases |moves|
  {
    if moves != [] {
      ApplyKeeps(s, moves[0]);
      RunKeeps(Apply(s, moves[0]), moves[1..]);
    }
  }

  /**
   Nothing a receiver delivers is lost, duplicated or overtaken: in every run, through every stop,
   failure and restart, what was handed out of a receiver is a prefix of what it delivered, and the
   rest, at most one envelope, is the one leftover or the one completed fetch of that receiver.
   */
  lemma HandedOutInOrder<E>(receivers: nat, moves: seq<Move<E>>, p: nat)
    ensures var s := Run(Initially(receivers), moves);
            && Of(s.arrived, p) == Of(s.ledger.out, p) + StillKept(s, p)
            && |StillKept(s, p)| <= 1
            && (s.phase.Idle? ==> StillKept(s, p) == Of(s.leftovers, p))
  {
    RunKeeps(Initially(receivers), moves);
    var s := Run(Initially(receivers), moves);
    assert ConservedOf(s, p);
    OneEachOf(s.leftovers, p);
  }

  lemma {:induction false} OneEachOf<E>(leftovers: seq<From<E>>, p: nat)
    requires OneEach(leftovers)
    ensures |Of(leftovers, p)| <= 1
    ensures (forall i :: 0 <= i < |leftovers| ==> leftovers[i].position != p) ==> Of(leftovers, p) == []
  {
    if leftovers != [] {
      OneEachOf(leftovers[..|leftovers| - 1], p);
    }
  }

  // ---------------------------------------------------------------------------------------------
  // When collecting goes on, and when it ends
  // ---------------------------------------------------------------------------------------------

  predicate Open<E>(s: State<E>) {
    s.phase.Waiting? || s.phase.Round?
  }

  /** While the streams are open every receiver is being fetched from, unless it ran dry. */
  ghost predicate Live<E>(s: State<E>) {
    && (Open(s) ==> forall p: nat :: p < s.receivers ==> p in s.fetch || p in s.dry)
    && (forall p: nat :: p in s.fetch && s.fetch[p].Exhausted? ==> p in s.dry)
    && (Open(s) ==> forall p: nat :: p in s.fetch && p in s.dry ==> s.fetch[p].Exhausted?)
  }

  lemma ProcessStaysLive<E>(s: State<E>)
    requires Shape(s) && Live(s) && s.phase.Round? && s.phase.todo != [] && s.phase.todo[0] in s.fetch
    ensures Live(Process(s))
  {
    assert s.phase.todo[0] in s.phase.todo && Done(s, s.phase.todo[0]);
  }

  lemma ApplyStaysLive<E>(s: State<E>, m: Move<E>)
    requires Shape(s) && Live(s)
    ensures Live(Apply(s, m))
  {
    if m.Advance? && s.phase.Round? && s.phase.todo != [] && s.phase.todo[0] in s.fetch {
      ProcessStaysLive(s);
    } else if m.Advance? && s.phase.Serving? && s.leftovers == [] {
      UptoHas(s.receivers);
    }
  }

  lemma {:induction false} RunStaysLive<E>(s: State<E>, moves: seq<Move<E>>)
    requires Shape(s) && Live(s)
    ensures Shape(Run(s, moves)) && Live(Run(s, moves)) && Run(s, moves).receivers == s.receivers
    decreases |moves|
  {
    if moves != [] {
      ApplyKeepsShape(s, moves[0]);
      ApplyStaysLive(s, moves[0]);
      AdvancedHands(s);
      RunStaysLive(Apply(s, moves[0]), moves[1..]);
    }
  }

  /**
   Abandoning begins exactly when the consumer closes while streams are open, or when the round comes to a fetch whose
   receiver failed: never because a receiver ran dry.
   */
  lemma AbandonsExactly<E>(receivers: nat, moves: seq<Move<E>>, m: Move<E>)
    ensures var s := Run(Initially(receivers), moves);
            !s.phase.Abandoning? && Apply(s, m).phase.Abandoning?
            <==> Open(s) && (m.Close? || (m.Advance? && s.phase.Round? && s.phase.todo != []
                                          && s.phase.todo[0] in s.fetch && s.fetch[s.phase.todo[0]].Broken?))
  {
    var s := Run(Initially(receivers), moves);
    RunStaysLive(Initially<E>(receivers), moves);
    if s.phase.Round? && s.phase.todo != [] {
      assert s.phase.todo[0] in s.phase.todo && Done(s, s.phase.todo[0]);
    }
  }

  /**
   While streams are open, every receiver that did not run dry is being fetched from; and collecting ends by itself
   exactly when none is left, every receiver having run dry since the streams were opened.
   */
  lemma EndsWhenAllRanDry<E>(receivers: nat, moves: seq<Move<E>>, m: Move<E>)
    ensures var s := Run(Initially(receivers), moves);
            && (Open(s) ==> forall p: nat :: p < receivers ==> p in s.fetch || p in s.dry)
            && (Open(s) && Apply(s, m).phase.Idle? <==> m.Advance? && s.phase.Waiting? && s.order == [])
            && (Open(s) && Apply(s, m).phase.Idle? ==> forall p: nat :: p < receivers ==> p in s.dry)
  {
    RunStaysLive(Initially<E>(receivers), moves);
  }

  /** A receiver running dry is no concern of the others: its fetch goes, every other stays as it was, and the round goes on. */
  lemma DryLeavesTheOthers<E>(receivers: nat, moves: seq<Move<E>>)
    requires var s := Run(Initially(receivers), moves);
             s.phase.Round? && s.phase.todo != [] && s.phase.todo[0] in s.fetch && s.fetch[s.phase.todo[0]].Exhausted?
    ensures var s := Run(Initially(receivers), moves);
            var t := Apply(s, Advance);
            && t.phase == Round(s.phase.todo[1..]) && t.ledger == s.ledger && t.leftovers == s.leftovers
            && t.fetch == s.fetch - {s.phase.todo[0]}
            && (forall p: nat :: p in t.order <==> p in s.order && p != s.phase.todo[0])
  {
    var s := Run(Initially(receivers), moves);
    RunStaysLive(Initially<E>(receivers), moves);
    WithoutHas(s.order, s.phase.todo[0]);
  }

  /** A receiver that delivered is fetched from again before its envelope is handed out, and every other fetch stays as it was. */
  lemma DeliveredIsFetchedAgain<E>(receivers: nat, moves: seq<Move<E>>)
    requires var s := Run(Initially(receivers), moves);
             s.phase.Round? && s.phase.todo != [] && s.phase.todo[0] in s.fetch && s.fetch[s.phase.todo[0]].Ready?
    ensures var s := Run(Initially(receivers), moves);
            var p := s.phase.todo[0];
            var t := Apply(s, Advance);
            && t.phase == Round(s.phase.todo[1..]) && t.fetch == s.fetch[p := Pending]
            && t.ledger.out == s.ledger.out + [From(p, s.fetch[p].envelope)]
  {
    var s := Run(Initially(receivers), moves);
    var p := s.phase.todo[0];
    assert (s.fetch - {p})[p := Pending] == s.fetch[p := Fetch<E>.Pending];
  }

  /** A round is of every fetch that completed by then, those of the receivers given first before the others. */
  lemma WakesToEveryCompleted<E>(receivers: nat, moves: seq<Move<E>>)
    requires var s := Run(Initially(receivers), moves); s.phase.Waiting? && exists p: nat :: Done(s, p)
    ensures var s := Run(Initially(receivers), moves);
            var t := Apply(s, Advance);
            && t.phase.Round? && Increasing(t.phase.todo) && (forall p: nat :: p in t.phase.todo <==> Done(s, p))
            && t.fetch == s.fetch && t.ledger == s.ledger
  {
    var s := Run(Initially(receivers), moves);
    RunStaysLive(Initially<E>(receivers), moves);
    CompletedHas(s, s.receivers);
    var p: nat :| Done(s, p);
    assert p in s.fetch && p in s.order && p in Completed(s, s.receivers);
  }

  /** Leftovers go out first, the oldest first, before any stream is opened. */
  lemma LeftoversGoFirst<E>(s: State<E>)
    requires s.phase.Serving?
    ensures var t := Apply(s, Advance);
            if s.leftovers != [] then
              t.phase.Serving? && t.leftovers == s.leftovers[1..] && t.ledger.out == s.ledger.out + [s.leftovers[0]] && t.fetch == s.fetch
            else t.phase.Waiting? && t.ledger == s.ledger && forall p: nat :: p < s.receivers ==> p in t.fetch && t.fetch[p].Pending?
  {
    UptoHas(s.receivers);
  }
}
