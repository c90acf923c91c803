/** How long a receiver that delivered can be passed by: the receivers that never run dry starve nobody. */
module BoundedBypass {
  import opened Envelopes
  import opened Sequences
  import opened ReceiveProtocol

  function Positions<E>(log: seq<From<E>>): seq<nat> {
    seq(|log|, i requires 0 <= i < |log| => log[i].position)
  }

  /** What the receiver at `p` delivered is still to be handed out. */
  predicate Waits<E>(s: State<E>, p: nat) {
    (p in s.fetch && s.fetch[p].Ready?) || p in Positions(s.leftovers)
  }

  predicate Before(order: seq<nat>, q: nat, p: nat) {
    order != [] && (if order[0] == q then p in order[1..] else Before(order[1..], q, p))
  }

  /** How many more envelopes of `q` can be handed out ahead of the one `p` delivered. */
  function Ahead<E>(s: State<E>, q: nat, p: nat): nat {
    match s.phase
    case Idle => if Before(Positions(s.leftovers), q, p) then 1 else 0
    case Serving => if Before(Positions(s.leftovers), q, p) then 1 else 0
    case Abandoning => if Before(s.order, q, p) then 1 else 0
    case Waiting => if q < p || Before(s.order, q, p) then 1 else 0
    case Round(todo) =>
      if p in todo then (if (q in todo && q < p) || Before(s.order, q, p) then 1 else 0)
      else if q in todo then (if q < p then 2 else 1)
      else (if q < p || Before(s.order, q, p) then 1 else 0)
  }

  /** What was handed out since the envelope that `p` waits to hand out was delivered. */
  function Passed<E>(s: State<E>, p: nat): seq<From<E>>
    requires p in s.since && s.since[p] <= |s.ledger.out|
  {
    s.ledger.out[s.since[p]..]
  }

  /** At most two of `q`, and none of `p` itself, come before the envelope `p` waits to hand out. */
  ghost predicate Fair<E>(s: State<E>, p: nat, q: nat) {
    Waits(s, p) ==>
      && p in s.since && s.since[p] <= |s.ledger.out|
      && (if q == p then Of(Passed(s, p), p) == [] else |Of(Passed(s, p), q)| + Ahead(s, q, p) <= 2)
  }

  ghost predicate Bounded<E>(s: State<E>) {
    forall p: nat, q: nat :: Fair(s, p, q)
  }

  // ---------------------------------------------------------------------------------------------
  // The order of live fetches
  // ---------------------------------------------------------------------------------------------

  lemma {:induction false} BeforeWithin(order: seq<nat>, q: nat, p: nat)
    ensures Before(order, q, p) ==> q in order && p in order
  {
    if order != [] && order[0] != q {
      BeforeWithin(order[1..], q, p);
    }
  }

  lemma {:induction false} BeforeWithout(order: seq<nat>, x: nat, q: nat, p: nat)
    requires x != p && NoRepeats(order)
    ensures Before(Without(order, x), q, p) <==> x != q && Before(order, q, p)
  {
    if order != [] {
      BeforeWithout(order[1..], x, q, p);
      WithoutHas(order[1..], x);
      if order[0] == x {
        BeforeWithin(Without(order[1..], x), q, p);
        assert Without(order, x) == Without(order[1..], x);
      } else {
        assert Without(order, x)[1..] == Without(order[1..], x);
      }
    }
  }

  lemma {:induction false} BeforeAppend(order: seq<nat>, x: nat, q: nat, p: nat)
    requires x != p
    ensures Before(order + [x], q, p) <==> Before(order, q, p)
  {
    if order == [] {
      assert (order + [x])[1..] == [];
    } else {
      assert (order + [x])[1..] == order[1..] + [x];
      BeforeAppend(order[1..], x, q, p);
    }
  }

  lemma {:induction false} BeforeDelivered<E>(fetch: map<nat, Fetch<E>>, order: seq<nat>, q: nat, p: nat)
    ensures Before(Positions(Delivered(fetch, order)), q, p) ==> Before(order, q, p)
    ensures p in Positions(Delivered(fetch, order)) ==> p in order && p in fetch && fetch[p].Ready?
  {
    if order != [] {
      BeforeDelivered(fetch, order[1..], q, p);
      var d := Delivered(fetch, order[1..]);
      if order[0] in fetch && fetch[order[0]].Ready? {
        assert Positions(Delivered(fetch, order)) == [order[0]] + Positions(d);
        assert Positions(Delivered(fetch, order))[1..] == Positions(d);
      } else {
        assert Delivered(fetch, order) == d;
        BeforeWithin(order[1..], q, p);
      }
    }
  }

  // ---------------------------------------------------------------------------------------------
  // Every move keeps the bound
  // ---------------------------------------------------------------------------------------------

  function HandedOf<E>(s: State<E>, q: nat): nat {
    if Handing(s) != [] && Handing(s)[0].position == q then 1 else 0
  }

  lemma ServeShrinks<E>(s: State<E>, q: nat, p: nat)
    requires Shape(s) && s.phase.Serving? && s.leftovers != [] && q != p && Waits(Advanced(s), p)
    ensures Waits(s, p) && HandedOf(s, p) == 0
    ensures HandedOf(s, q) + Ahead(Advanced(s), q, p) <= Ahead(s, q, p)
  {
    var all, rest := Positions(s.leftovers), Positions(s.leftovers[1..]);
    assert all[1..] == rest;
    BeforeWithin(rest, q, p);
    assert forall x :: x in rest ==> x in all && x != all[0];
  }

  lemma ProcessWaits<E>(s: State<E>, p: nat)
    requires Shape(s) && s.phase.Round? && s.phase.todo != [] && s.phase.todo[0] in s.fetch && Waits(Process(s), p)
    ensures Waits(s, p) && HandedOf(s, p) == 0 && s.phase.todo[0] != p
  {
  }

  /** Handing out of `q` spends the one it had ahead. */
  lemma ProcessSpends<E>(s: State<E>, q: nat, p: nat)
    requires Shape(s) && s.phase.Round? && s.phase.todo != [] && s.phase.todo[0] in s.fetch
    requires q != p && s.phase.todo[0] == q
    ensures 1 + Ahead(Process(s), q, p) <= Ahead(s, q, p)
  {
    ProcessReorders(s, q, p);
    InTail(s.phase.todo, p);
    InTail(s.phase.todo, q);
  }

  lemma ProcessPasses<E>(s: State<E>, q: nat, p: nat)
    requires Shape(s) && s.phase.Round? && s.phase.todo != [] && s.phase.todo[0] in s.fetch
    requires s.phase.todo[0] != q && s.phase.todo[0] != p
    ensures Ahead(Process(s), q, p) <= Ahead(s, q, p)
  {
    ProcessReorders(s, q, p);
    InTail(s.phase.todo, p);
    InTail(s.phase.todo, q);
  }

  lemma ProcessShrinks<E>(s: State<E>, q: nat, p: nat)
    requires Shape(s) && s.phase.Round? && s.phase.todo != [] && s.phase.todo[0] in s.fetch
    requires q != p && Waits(Advanced(s), p)
    ensures Waits(s, p) && HandedOf(s, p) == 0
    ensures HandedOf(s, q) + Ahead(Advanced(s), q, p) <= Ahead(s, q, p)
  {
    ProcessWaits(s, p);
    if s.phase.todo[0] == q {
      ProcessSpends(s, q, p);
    } else {
      ProcessPasses(s, q, p);
    }
  }

  lemma ProcessReorders<E>(s: State<E>, q: nat, p: nat)
    requires Shape(s) && s.phase.Round? && s.phase.todo != [] && s.phase.todo[0] in s.fetch && s.phase.todo[0] != p
    ensures Before(Process(s).order, q, p) <==> s.phase.todo[0] != q && Before(s.order, q, p)
  {
    var x := s.phase.todo[0];
    BeforeWithout(s.order, x, q, p);
    BeforeAppend(Without(s.order, x), x, q, p);
  }

  lemma InTail(todo: seq<nat>, x: nat)
    requires todo != [] && Increasing(todo)
    ensures x in todo[1..] <==> x in todo && x != todo[0]
    ensures x in todo ==> todo[0] <= x
  {
    assert todo == [todo[0]] + todo[1..];
  }

  lemma AbandonShrinks<E>(s: State<E>, q: nat, p: nat)
    requires Shape(s) && s.phase.Abandoning? && q != p && Waits(Abandon(s), p)
    ensures Waits(s, p) && Ahead(Abandon(s), q, p) <= Ahead(s, q, p)
  {
    AbandonKeepsDelivered(s);
    AbandonedLeaves(s, Abandon(s), q, p);
  }

  lemma AbandonedLeaves<E>(s: State<E>, t: State<E>, q: nat, p: nat)
    requires s.phase.Abandoning? && t.phase.Idle? && t.fetch == map[] && Waits(t, p)
    requires t.leftovers == Delivered(s.fetch, s.order)
    ensures Waits(s, p) && Ahead(t, q, p) <= Ahead(s, q, p)
  {
    KeptInOrder(s.fetch, s.order, t.leftovers, q, p);
  }

  lemma KeptInOrder<E>(fetch: map<nat, Fetch<E>>, order: seq<nat>, leftovers: seq<From<E>>, q: nat, p: nat)
    requires leftovers == Delivered(fetch, order)
    ensures Before(Positions(leftovers), q, p) ==> Before(order, q, p)
    ensures p in Positions(leftovers) ==> p in fetch && fetch[p].Ready?
  {
    BeforeDelivered(fetch, order, q, p);
  }

  lemma AbandonKeepsDelivered<E>(s: State<E>)
    requires s.leftovers == []
    ensures Abandon(s).leftovers == Delivered(s.fetch, s.order)
  {
    assert [] + Delivered(s.fetch, s.order) == Delivered(s.fetch, s.order);
  }

  lemma WakeShrinks<E>(s: State<E>, q: nat, p: nat)
    requires Shape(s) && s.phase.Waiting? && s.order != [] && q != p && Waits(s, p)
    ensures Ahead(s.(phase := Round(Completed(s, s.receivers))), q, p) <= Ahead(s, q, p)
  {
    CompletedHas(s, s.receivers);
    assert Done(s, p);
  }

  /** A step of the generator spends what can still be handed out ahead of `p`, and never adds to it. */
  lemma AdvancedShrinks<E>(s: State<E>, q: nat, p: nat)
    requires Shape(s) && q != p && Waits(Advanced(s), p)
    ensures Waits(s, p) && HandedOf(s, p) == 0
    ensures HandedOf(s, q) + Ahead(Advanced(s), q, p) <= Ahead(s, q, p)
  {
    assert Waits(s, p) || s.phase.Abandoning? || s.phase.Serving? || s.phase.Round?;
    match s.phase
    case Idle =>
    case Serving => if s.leftovers != [] { ServeShrinks(s, q, p); }
    case Waiting => if s.order != [] && Completed(s, s.receivers) != [] { WakeShrinks(s, q, p); }
    case Round(todo) => if todo != [] && todo[0] in s.fetch { ProcessShrinks(s, q, p); }
    case Abandoning => if Advanced(s) != s { AbandonShrinks(s, q, p); }
  }

  lemma ClosedShrinks<E>(s: State<E>, q: nat, p: nat)
    requires Shape(s) && q != p && Waits(s, p)
    ensures Waits(Apply(s, Close), p) && Ahead(Apply(s, Close), q, p) <= Ahead(s, q, p)
  {
  }

  lemma AdvancedKeepsFair<E>(s: State<E>, p: nat, q: nat)
    requires Shape(s) && Fair(s, p, q)
    ensures Fair(Advanced(s), p, q)
  {
    AdvancedHands(s);
    if Waits(Advanced(s), p) {
      AdvancedShrinks(s, if q == p then p + 1 else q, p);
      AdvancedPasses(s, p, q);
    }
  }

  lemma AdvancedPasses<E>(s: State<E>, p: nat, q: nat)
    requires p in s.since && s.since[p] <= |s.ledger.out|
    ensures p in Advanced(s).since && Advanced(s).since[p] <= |Advanced(s).ledger.out|
    ensures |Of(Passed(Advanced(s), p), q)| == |Of(Passed(s, p), q)| + HandedOf(s, q)
  {
    AdvancedHands(s);
    if Handing(s) != [] {
      assert Passed(Advanced(s), p) == Passed(s, p) + [Handing(s)[0]];
      OfAppend(Passed(s, p), Handing(s)[0], q);
    }
  }

  lemma EndedKeepsFair<E>(s: State<E>, x: nat, outcome: Fetch<E>, p: nat, q: nat)
    requires Shape(s) && Fair(s, p, q)
    ensures Fair(Ended(s, x, outcome), p, q)
  {
    var s' := Ended(s, x, outcome);
    if Waits(s', p) && !Waits(s, p) {
      assert p == x && Passed(s', p) == [];
    }
  }

  lemma ClosedKeepsFair<E>(s: State<E>, p: nat, q: nat)
    requires Shape(s) && Fair(s, p, q)
    ensures Fair(Apply(s, Close), p, q)
  {
    if Waits(s, p) && q != p {
      ClosedShrinks(s, q, p);
    }
  }

  /** Asking again and settling leave what waits, and what passed it by, as they were. */
  lemma QuietKeepsFair<E>(s: State<E>, m: Move<E>, p: nat, q: nat)
    requires Shape(s) && Fair(s, p, q) && (m.Get? || m.Settle?)
    ensures Fair(Apply(s, m), p, q)
  {
    var s' := Apply(s, m);
    assert s'.ledger.out == s.ledger.out && s'.since == s.since;
    assert Waits(s', p) <==> Waits(s, p);
    assert Ahead(s', q, p) == Ahead(s, q, p);
  }

  lemma ApplyKeepsFair<E>(s: State<E>, m: Move<E>, p: nat, q: nat)
    requires Shape(s) && Fair(s, p, q)
    ensures Fair(Apply(s, m), p, q)
  {
    match m
    case FetchEnds(x, outcome) => EndedKeepsFair(s, x, outcome, p, q);
    case Advance => AdvancedKeepsFair(s, p, q);
    case Close => ClosedKeepsFair(s, p, q);
    case _ => QuietKeepsFair(s, m, p, q);
  }

  lemma ApplyKeepsBound<E>(s: State<E>, m: Move<E>)
    requires Shape(s) && Bounded(s)
    ensures Bounded(Apply(s, m))
  {
    forall p: nat, q: nat ensures Fair(Apply(s, m), p, q) {
      assert Fair(s, p, q);
      ApplyKeepsFair(s, m, p, q);
    }
  }

  lemma {:induction false} RunKeepsBound<E>(s: State<E>, moves: seq<Move<E>>)
    requires Inv(s) && Bounded(s)
    ensures Inv(Run(s, moves)) && Bounded(Run(s, moves)) && Run(s, moves).receivers == s.receivers
    decreases |moves|
  {
    if moves != [] {
      ApplyKeeps(s, moves[0]);
      ApplyKeepsBound(s, moves[0]);
      RunKeepsBound(Apply(s, moves[0]), moves[1..]);
    }
  }

  // ---------------------------------------------------------------------------------------------
  // The bound
  // ---------------------------------------------------------------------------------------------

  /** Every envelope of a log counted at its own receiver. */
  function Total<E>(log: seq<From<E>>, n: nat): nat {
    if n == 0 then 0 else Total(log, n - 1) + |Of(log, n - 1)|
  }

  lemma {:induction false} TotalAppend<E>(log: seq<From<E>>, f: From<E>, n: nat)
    ensures Total(log + [f], n) == Total(log, n) + (if f.position < n then 1 else 0)
  {
    if n > 0 {
      TotalAppend(log, f, n - 1);
      OfAppend(log, f, n - 1);
    }
  }

  lemma {:induction false} TotalIsLength<E>(log: seq<From<E>>, n: nat)
    requires forall i :: 0 <= i < |log| ==> log[i].position < n
    ensures Total(log, n) == |log|
  {
    if log == [] {
      TotalOfNothing<E>(n);
    } else {
      var less := log[..|log| - 1];
      assert log == less + [log[|log| - 1]];
      TotalIsLength(less, n);
      TotalAppend(less, log[|log| - 1], n);
    }
  }

  lemma {:induction false} TotalOfNothing<E>(n: nat)
    ensures Total<E>([], n) == 0
  {
    if n > 0 { TotalOfNothing<E>(n - 1); }
  }

  lemma {:induction false} TotalBounded<E>(log: seq<From<E>>, n: nat, p: nat)
    requires forall q: nat :: |Of(log, q)| <= if q == p then 0 else 2
    ensures Total(log, n) <= 2 * (if p < n then n - 1 else n)
  {
    if n > 0 { TotalBounded(log, n - 1, p); }
  }

  /**
   Bounded bypass: among n receivers, once a receiver delivered an envelope at most 2(n - 1) envelopes
   of the others are handed out before it, whatever the others deliver and however often the
   collection is stopped and taken up again.
   */
  lemma BypassIsBounded<E>(receivers: nat, moves: seq<Move<E>>, p: nat)
    requires Waits(Run(Initially(receivers), moves), p)
    ensures var s := Run(Initially(receivers), moves);
            && p < receivers && p in s.since && s.since[p] <= |s.ledger.out|
            && |Passed(s, p)| <= 2 * (receivers - 1)
            && Of(Passed(s, p), p) == []
  {
    var start := Initially<E>(receivers);
    InitiallyBounded<E>(receivers);
    RunKeepsBound(start, moves);
    var s := Run(start, moves);
    WaitsWithin(s, p);
    FairToAll(s, p);
    TotalBounded(Passed(s, p), receivers, p);
    TotalIsLength(Passed(s, p), receivers);
  }

  lemma InitiallyBounded<E>(receivers: nat)
    ensures Inv(Initially<E>(receivers)) && Bounded(Initially<E>(receivers))
  {
    var s := Initially<E>(receivers);
    forall p: nat, q: nat ensures Fair(s, p, q) {
      assert !Waits(s, p);
    }
  }

  lemma WaitsWithin<E>(s: State<E>, p: nat)
    requires Shape(s) && Waits(s, p)
    ensures p < s.receivers
  {
    if p !in s.fetch {
      var i :| 0 <= i < |s.leftovers| && Positions(s.leftovers)[i] == p;
    }
  }

  lemma FairToAll<E>(s: State<E>, p: nat)
    requires Bounded(s) && Waits(s, p)
    ensures p in s.since && s.since[p] <= |s.ledger.out|
    ensures Of(Passed(s, p), p) == []
    ensures forall q: nat :: |Of(Passed(s, p), q)| <= if q == p then 0 else 2
  {
    assert Fair(s, p, p);
    forall q: nat ensures |Of(Passed(s, p), q)| <= if q == p then 0 else 2 {
      assert Fair(s, p, q);
    }
  }

  // ---------------------------------------------------------------------------------------------
  // The bound is met
  // ---------------------------------------------------------------------------------------------

  ghost predicate Reaches<E(!new)>(s: State<E>, t: State<E>) {
    exists moves :: Run(s, moves) == t
  }

  lemma {:induction false} RunJoin<E>(s: State<E>, a: seq<Move<E>>, b: seq<Move<E>>)
    ensures Run(s, a + b) == Run(Run(s, a), b)
    decreases |a|
  {
    if a == [] {
      assert a + b == b;
    } else {
      assert (a + b)[0] == a[0] && (a + b)[1..] == a[1..] + b;
      RunJoin(Apply(s, a[0]), a[1..], b);
    }
  }

  lemma ReachesNext<E(!new)>(s: State<E>, t: State<E>, m: Move<E>)
    requires Reaches(s, t)
    ensures Reaches(s, Apply(t, m))
  {
    var moves :| Run(s, moves) == t;
    RunJoin(s, moves, [m]);
    assert [m][1..] == [];
    assert Run(s, moves + [m]) == Apply(t, m);
  }

  lemma ReachesItself<E(!new)>(s: State<E>)
    ensures Reaches(s, s)
  {
    assert Run(s, []) == s;
  }

  /** `n` receivers are being collected from, and `out` envelopes went out. */
  ghost predicate Collecting<E>(s: State<E>, n: nat, out: nat) {
    && Shape(s) && s.receivers == n && s.leftovers == [] && |s.ledger.out| == out
    && (forall p: nat :: p in s.fetch <==> p < n)
  }

  lemma DeliverOne<E(!new)>(from: State<E>, s: State<E>, n: nat, out: nat, p: nat, e: E) returns (t: State<E>)
    requires Reaches(from, s) && Collecting(s, n, out) && p < n && s.fetch[p].Pending?
    ensures Reaches(from, t) && Collecting(t, n, out) && t.phase == s.phase
    ensures t.fetch == s.fetch[p := Ready(e)] && t.since == s.since[p := out]
  {
    t := Ended(s, p, Ready(e));
    ApplyKeepsShape(s, FetchEnds(p, Ready(e)));
    ReachesNext(from, s, FetchEnds(p, Ready(e)));
  }

  /** The first `k` receivers deliver. */
  lemma {:induction false} DeliverToFirst<E(!new)>(from: State<E>, s: State<E>, n: nat, out: nat, k: nat, e: E) returns (t: State<E>)
    requires Reaches(from, s) && Collecting(s, n, out) && k <= n && forall p: nat :: p < k ==> s.fetch[p].Pending?
    ensures Reaches(from, t) && Collecting(t, n, out) && t.phase == s.phase
    ensures forall p: nat :: p < n ==> t.fetch[p] == if p < k then Ready(e) else s.fetch[p]
    ensures forall p: nat :: k <= p && p in s.since ==> p in t.since && t.since[p] == s.since[p]
  {
    t := s;
    if k > 0 {
      var less := DeliverToFirst(from, s, n, out, k - 1, e);
      t := DeliverOne(from, less, n, out, k - 1, e);
    }
  }

  /** One completed fetch of a round is handed out. */
  lemma HandOutOne<E(!new)>(from: State<E>, s: State<E>, n: nat, out: nat) returns (t: State<E>)
    requires Reaches(from, s) && Collecting(s, n, out)
    requires s.phase.Round? && s.phase.todo != [] && s.phase.todo[0] < n && s.fetch[s.phase.todo[0]].Ready?
    ensures Reaches(from, t) && Collecting(t, n, out + 1) && t.phase == Round(s.phase.todo[1..]) && t.since == s.since
    ensures forall p: nat :: p < n ==> t.fetch[p] == if p == s.phase.todo[0] then Pending else s.fetch[p]
  {
    t := Advanced(s);
    assert s.phase.todo[0] in s.phase.todo && Done(s, s.phase.todo[0]);
    AdvancedKeepsShape(s);
    ReachesNext(from, s, Advance);
  }

  lemma PrefixHas(todo: seq<nat>, c: nat)
    requires 0 < c <= |todo| && Increasing(todo)
    ensures todo[c - 1] !in todo[..c - 1]
    ensures forall p: nat :: p in todo[..c] <==> p in todo[..c - 1] || p == todo[c - 1]
  {
    assert todo[..c] == todo[..c - 1] + [todo[c - 1]];
  }

  /** The first `c` completed fetches of a round are handed out. */
  lemma {:induction false} HandOutFirst<E(!new)>(from: State<E>, s: State<E>, n: nat, out: nat, c: nat) returns (t: State<E>)
    requires Reaches(from, s) && Collecting(s, n, out) && s.phase.Round? && c <= |s.phase.todo|
    requires forall i :: 0 <= i < c ==> s.phase.todo[i] < n && s.fetch[s.phase.todo[i]].Ready?
    ensures Reaches(from, t) && Collecting(t, n, out + c) && t.phase == Round(s.phase.todo[c..]) && t.since == s.since
    ensures forall p: nat :: p < n ==> t.fetch[p] == if p in s.phase.todo[..c] then Pending else s.fetch[p]
  {
    t := s;
    if c > 0 {
      var todo := s.phase.todo;
      var less := HandOutFirst(from, s, n, out, c - 1);
      PrefixHas(todo, c);
      assert less.phase.todo[0] == todo[c - 1];
      t := HandOutOne(from, less, n, out + c - 1);
      assert less.phase.todo[1..] == todo[c..];
    }
  }

  lemma {:induction false} CompletedUpto<E>(s: State<E>, m: nat)
    requires forall p: nat :: p < m ==> Done(s, p)
    ensures Completed(s, m) == Upto(m)
  {
    if m > 0 {
      CompletedUpto(s, m - 1);
      assert Upto(m) == Upto(m - 1) + [m - 1];
    }
  }

  /** A round begins with the first `k` receivers completed, and the last one completed or not. */
  lemma RoundBegins<E(!new)>(from: State<E>, s: State<E>, n: nat, out: nat, k: nat) returns (t: State<E>)
    requires Reaches(from, s) && Collecting(s, n, out) && s.phase.Waiting? && 0 < k && n - 1 <= k <= n
    requires forall p: nat :: p < n ==> (Done(s, p) <==> p < k)
    ensures Reaches(from, t) && Collecting(t, n, out) && t.phase == Round(Upto(k)) && t.fetch == s.fetch && t.since == s.since
  {
    t := Advanced(s);
    CompletedUpto(s, k);
    assert Completed(s, n) == Upto(k) + [];
    assert Upto(k)[0] == 0 && 0 in s.order;
    AdvancedKeepsShape(s);
    ReachesNext(from, s, Advance);
  }

  lemma RoundEnds<E(!new)>(from: State<E>, s: State<E>, n: nat, out: nat) returns (t: State<E>)
    requires Reaches(from, s) && Collecting(s, n, out) && s.phase == Round([])
    ensures Reaches(from, t) && Collecting(t, n, out) && t.phase == Waiting && t.fetch == s.fetch && t.since == s.since
  {
    t := Advanced(s);
    AdvancedKeepsShape(s);
    ReachesNext(from, s, Advance);
  }

  lemma Opens<E(!new)>(n: nat) returns (t: State<E>)
    requires n > 0
    ensures Reaches(Initially<E>(n), t) && Collecting(t, n, 0) && t.phase.Waiting? && forall p: nat :: p < n ==> t.fetch[p].Pending?
  {
    var s0 := Initially<E>(n);
    t := OpenStreams(s0.(phase := Serving));
    ReachesItself(s0);
    ReachesNext(s0, s0, Get);
    ReachesNext(s0, Apply(s0, Get), Advance);
    ApplyKeepsShape(s0, Get);
    ApplyKeepsShape(Apply(s0, Get), Advance);
    UptoHas(n);
  }

  /** What the last of `n` receivers delivered waits, and `count` envelopes of the others went out meanwhile. */
  ghost predicate PassedBy<E>(s: State<E>, p: nat, count: nat) {
    Waits(s, p) && p in s.since && s.since[p] <= |s.ledger.out| && |Passed(s, p)| == count
  }

  /** All but the last of the receivers deliver and are handed out, the last one completed at the latest meanwhile. */
  lemma FirstRound<E(!new)>(n: nat, e: E) returns (t: State<E>)
    requires n >= 2
    ensures Reaches(Initially<E>(n), t) && Collecting(t, n, n - 1) && t.phase == Round([])
    ensures forall p: nat :: p < n ==> t.fetch[p] == if p < n - 1 then Pending else Ready(e)
    ensures n - 1 in t.since && t.since[n - 1] == 0
  {
    var s0 := Initially<E>(n);
    var atStart := Opens<E>(n);
    var delivered := DeliverToFirst(s0, atStart, n, 0, n - 1, e);
    var begun := RoundBegins(s0, delivered, n, 0, n - 1);
    var all := DeliverOne(s0, begun, n, 0, n - 1, e);
    t := HandOutFirst(s0, all, n, 0, n - 1);
    UptoHas(n - 1);
    assert Upto(n - 1)[n - 1..] == [] && Upto(n - 1)[..n - 1] == Upto(n - 1);
  }

  /** They deliver again, and the next round begins with every receiver completed. */
  lemma SecondRoundBegins<E(!new)>(n: nat, e: E) returns (t: State<E>)
    requires n >= 2
    ensures Reaches(Initially<E>(n), t) && Collecting(t, n, n - 1) && t.phase == Round(Upto(n))
    ensures forall p: nat :: p < n ==> t.fetch[p] == Ready(e)
    ensures n - 1 in t.since && t.since[n - 1] == 0
  {
    var s0 := Initially<E>(n);
    var first := FirstRound(n, e);
    var waiting := RoundEnds(s0, first, n, n - 1);
    var delivered := DeliverToFirst(s0, waiting, n, n - 1, n - 1, e);
    t := RoundBegins(s0, delivered, n, n - 1, n);
  }

  /** The bound is met, for any number of receivers: 2(n - 1) envelopes of the others can go out before one that was delivered. */
  lemma BoundIsMet<E(!new)>(n: nat, e: E)
    requires n >= 2
    ensures exists moves :: PassedBy(Run(Initially<E>(n), moves), n - 1, 2 * (n - 1))
  {
    var begun := SecondRoundBegins(n, e);
    UptoHas(n - 1);
    assert Upto(n)[..n - 1] == Upto(n - 1);
    var last := HandOutFirst(Initially<E>(n), begun, n, n - 1, n - 1);
    assert n - 1 !in Upto(n - 1) && last.fetch[n - 1] == Ready(e);
    assert PassedBy(last, n - 1, 2 * (n - 1));
    var moves :| Run(Initially<E>(n), moves) == last;
  }
}
