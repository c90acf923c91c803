/** Running every handler of a message and keeping every failure under a name of its own. */
module HandleMessage {
  import opened Envelopes
  import opened Sequences

  type Env = Envelope<nat>

  // ---------------------------------------------------------------------------------------------
  // Numbered names
  // ---------------------------------------------------------------------------------------------

  const DIGITS := "0123456789"

  function Decimal(n: nat): (digits: string)
    ensures digits != []
  {
    if n < 10 then [DIGITS[n]] else Decimal(n / 10) + [DIGITS[n % 10]]
  }

  /** `name`, `name#2`, `name#3`, … */
  function Numbered(name: string, count: nat): string
    requires count >= 1
  {
    if count == 1 then name else name + "#" + Decimal(count)
  }

  lemma DigitsDiffer(i: nat, j: nat)
    requires i < 10 && j < 10 && DIGITS[i] == DIGITS[j]
    ensures i == j
  {
  }

  lemma {:induction false} DecimalInjective(m: nat, n: nat)
    requires Decimal(m) == Decimal(n)
    ensures m == n
  {
    var a, b := Decimal(m), Decimal(n);
    assert a[|a| - 1] == DIGITS[m % 10] && b[|b| - 1] == DIGITS[n % 10];
    DigitsDiffer(m % 10, n % 10);
    if m >= 10 && n >= 10 {
      assert a[..|a| - 1] == Decimal(m / 10) && b[..|b| - 1] == Decimal(n / 10);
      DecimalInjective(m / 10, n / 10);
    }
  }

  lemma NumberedInjective(name: string, i: nat, j: nat)
    requires i >= 1 && j >= 1 && Numbered(name, i) == Numbered(name, j)
    ensures i == j
  {
    var a, b := Numbered(name, i), Numbered(name, j);
    if i > 1 && j > 1 {
      assert a[|name| + 1..] == Decimal(i) && b[|name| + 1..] == Decimal(j);
      DecimalInjective(i, j);
    }
  }

  // ---------------------------------------------------------------------------------------------
  // The names that failures are kept under
  // ---------------------------------------------------------------------------------------------

  /** A dictionary in insertion order. */
  type Errors = seq<(string, int)>

  predicate Taken(errors: Errors, key: string) {
    exists i :: 0 <= i < |errors| && errors[i].0 == key
  }

  ghost function Names(errors: Errors): set<string> {
    set i | 0 <= i < |errors| :: errors[i].0
  }

  lemma {:induction false} NoMoreNamesThanErrors(errors: Errors)
    ensures |Names(errors)| <= |errors|
  {
    if errors != [] {
      var less := errors[..|errors| - 1];
      NoMoreNamesThanErrors(less);
      assert Names(errors) == Names(less) + {errors[|errors| - 1].0};
    }
  }

  ghost function Candidates(name: string, n: nat): set<string> {
    set k | 1 <= k <= n :: Numbered(name, k)
  }

  lemma {:induction false} CandidatesAllDiffer(name: string, n: nat)
    ensures |Candidates(name, n)| == n
  {
    if n > 0 {
      CandidatesAllDiffer(name, n - 1);
      assert Candidates(name, n) == Candidates(name, n - 1) + {Numbered(name, n)};
      forall k | 1 <= k <= n - 1 ensures Numbered(name, k) != Numbered(name, n) {
        if Numbered(name, k) == Numbered(name, n) { NumberedInjective(name, k, n); }
      }
    }
  }

  /** By pigeonhole: no more candidates are taken than there are errors. */
  lemma TakenAtMost(errors: Errors, name: string, n: nat)
    requires forall k :: 1 <= k <= n ==> Taken(errors, Numbered(name, k))
    ensures n <= |errors|
  {
    CandidatesAllDiffer(name, n);
    NoMoreNamesThanErrors(errors);
    forall x | x in Candidates(name, n) ensures x in Names(errors) {
      var k :| 1 <= k <= n && x == Numbered(name, k);
      assert Taken(errors, Numbered(name, k));
    }
    SmallerSet(Candidates(name, n), Names(errors));
  }

  lemma SmallerSet<T>(a: set<T>, b: set<T>)
    requires a <= b
    ensures |a| <= |b|
  {
    assert b == a + (b - a);
  }

  /** The first of `name`, `name#2`, … that no failure is kept under, found within |errors| + 1 probes. */
  method Unused(errors: Errors, name: string) returns (key: string, ghost count: nat)
    ensures 1 <= count <= |errors| + 1 && key == Numbered(name, count)
    ensures !Taken(errors, key)
    ensures forall k :: 1 <= k < count ==> Taken(errors, Numbered(name, k))
  {
    var n := 1;
    key := name;
    TakenAtMost(errors, name, 0);
    while Taken(errors, key)
      invariant n >= 1 && key == Numbered(name, n)
      invariant forall k :: 1 <= k < n ==> Taken(errors, Numbered(name, k))
      invariant n - 1 <= |errors|
      decreases |errors| + 1 - n
    {
      TakenAtMost(errors, name, n);
      n := n + 1;
      key := name + "#" + Decimal(n);
    }
    count := n;
  }

  // ---------------------------------------------------------------------------------------------
  // Running the handlers
  // ---------------------------------------------------------------------------------------------

  datatype Invoked = Returns(result: int) | Raises(error: int)

  /** A handler: the name it was registered under, and what it does with the message as stamped so far. */
  datatype Descriptor = Descriptor(name: string, invoke: Env -> Invoked)

  datatype Outcome =
    | NoHandlerForMessage
    | HandlersFailed(envelope: Env, errors: Errors)
    | PassedOn(envelope: Env)

  /** The envelope each handler finds: the message with a stamp for every earlier one that succeeded. */
  function Stamped(e: Env, ds: seq<Descriptor>): Env {
    if ds == [] then e
    else
      var before := Stamped(e, ds[..|ds| - 1]);
      var d := ds[|ds| - 1];
      match d.invoke(before)
      case Returns(result) => before.WithStamps([Handled(d.name, result)])
      case Raises(_) => before
  }

  /** What was raised, by the name of the handler that raised it, in the order the handlers ran. */
  function Raised(e: Env, ds: seq<Descriptor>): seq<(string, int)> {
    if ds == [] then []
    else
      var d := ds[|ds| - 1];
      Raised(e, ds[..|ds| - 1])
      + (match d.invoke(Stamped(e, ds[..|ds| - 1]))
         case Returns(_) => []
         case Raises(error) => [(d.name, error)])
  }

  /** `errors` keeps `raised`: same order, same failures, no two under one name, each under its handler's name numbered. */
  ghost predicate Keeps(errors: Errors, raised: seq<(string, int)>) {
    && |errors| == |raised|
    && (forall i, j :: 0 <= i < j < |errors| ==> errors[i].0 != errors[j].0)
    && (forall i :: 0 <= i < |errors| ==>
          && errors[i].1 == raised[i].1
          && exists k: nat :: 1 <= k <= i + 1 && errors[i].0 == Numbered(raised[i].0, k))
  }

  lemma KeepsOneMore(errors: Errors, raised: seq<(string, int)>, name: string, count: nat, error: int)
    requires Keeps(errors, raised)
    requires 1 <= count <= |errors| + 1 && !Taken(errors, Numbered(name, count))
    ensures Keeps(errors + [(Numbered(name, count), error)], raised + [(name, error)])
  {
    var key := Numbered(name, count);
    var errors', raised' := errors + [(key, error)], raised + [(name, error)];
    forall i, j | 0 <= i < j < |errors'| ensures errors'[i].0 != errors'[j].0 {
      assert errors'[i] == errors[i];
    }
    forall i | 0 <= i < |errors'| ensures exists k: nat :: 1 <= k <= i + 1 && errors'[i].0 == Numbered(raised'[i].0, k) {
      if i < |errors| {
        var k: nat :| 1 <= k <= i + 1 && errors[i].0 == Numbered(raised[i].0, k);
        assert errors'[i].0 == Numbered(raised'[i].0, k);
      } else {
        assert errors'[i].0 == Numbered(raised'[i].0, count);
      }
    }
  }

  method Handle(e: Env, ds: seq<Descriptor>, requireHandler: bool) returns (r: Outcome)
    ensures ds == [] && requireHandler ==> r == NoHandlerForMessage
    ensures ds != [] || !requireHandler ==>
              if Raised(e, ds) == [] then r == PassedOn(Stamped(e, ds))
              else r.HandlersFailed? && r.envelope == Stamped(e, ds) && Keeps(r.errors, Raised(e, ds))
  {
    if ds == [] && requireHandler {
      return NoHandlerForMessage;
    }
    var errors: Errors := [];
    var envelope := e;
    for i := 0 to |ds|
      invariant envelope == Stamped(e, ds[..i])
      invariant Keeps(errors, Raised(e, ds[..i]))
    {
      var d := ds[i];
      assert ds[..i + 1][..i] == ds[..i];
      match d.invoke(envelope)
      case Raises(error) =>
        var key, count := Unused(errors, d.name);
        KeepsOneMore(errors, Raised(e, ds[..i]), d.name, count, error);
        errors := errors + [(key, error)];
      case Returns(result) =>
        envelope := envelope.WithStamps([Handled(d.name, result)]);
    }
    assert ds[..|ds|] == ds;
    r := if errors != [] then HandlersFailed(envelope, errors) else PassedOn(envelope);
  }

  /** Every handler is accounted for: it left a stamp or its failure is kept, one of them, in the order they ran. */
  lemma {:induction false} EveryHandlerAccounted(e: Env, ds: seq<Descriptor>)
    ensures var stamps := Stamped(e, ds).stamps;
            && |e.stamps| <= |stamps| && stamps[..|e.stamps|] == e.stamps
            && |stamps| - |e.stamps| + |Raised(e, ds)| == |ds|
            && Stamped(e, ds).message == e.message
            && (forall s :: s in stamps[|e.stamps|..] ==> s.Handled?)
  {
    if ds != [] {
      var less, d := ds[..|ds| - 1], ds[|ds| - 1];
      EveryHandlerAccounted(e, less);
      var n, before := |e.stamps|, Stamped(e, less);
      var after := Stamped(e, ds).stamps;
      match d.invoke(before)
      case Raises(_) =>
      case Returns(result) =>
        assert after[n..] == before.stamps[n..] + [Handled(d.name, result)];
        assert after[..n] == before.stamps[..n];
    }
  }

  /** What one handler is: what it leaves on the envelope it is handed, and what is kept of its failure. */
  function Leaves(d: Descriptor, invoked: Invoked): seq<Stamp> {
    match invoked
    case Returns(result) => [Handled(d.name, result)]
    case Raises(_) => []
  }

  function FailsWith(d: Descriptor, invoked: Invoked): seq<(string, int)> {
    match invoked
    case Returns(_) => []
    case Raises(error) => [(d.name, error)]
  }

  /** `left` and `kept` are what each handler left and failed with, handed the message with what those before it left. */
  ghost predicate InTurn(e: Env, ds: seq<Descriptor>, left: seq<seq<Stamp>>, kept: seq<seq<(string, int)>>) {
    && |left| == |ds| && |kept| == |ds|
    && forall i :: 0 <= i < |ds| ==>
         var invoked := ds[i].invoke(e.WithStamps(Flat(left[..i])));
         left[i] == Leaves(ds[i], invoked) && kept[i] == FailsWith(ds[i], invoked)
  }

  lemma OneMoreInTurn(e: Env, ds: seq<Descriptor>, d: Descriptor, left: seq<seq<Stamp>>, kept: seq<seq<(string, int)>>)
    requires InTurn(e, ds, left, kept)
    ensures var invoked := d.invoke(e.WithStamps(Flat(left)));
            InTurn(e, ds + [d], left + [Leaves(d, invoked)], kept + [FailsWith(d, invoked)])
  {
    var invoked := d.invoke(e.WithStamps(Flat(left)));
    var all, left', kept' := ds + [d], left + [Leaves(d, invoked)], kept + [FailsWith(d, invoked)];
    forall i | 0 <= i < |all|
      ensures var now := all[i].invoke(e.WithStamps(Flat(left'[..i])));
              left'[i] == Leaves(all[i], now) && kept'[i] == FailsWith(all[i], now)
    {
      assert left'[..i] == left[..i];
      assert i == |ds| ==> left[..i] == left;
    }
  }

  lemma StampedNext(e: Env, ds: seq<Descriptor>, d: Descriptor)
    ensures var invoked := d.invoke(Stamped(e, ds));
            && Stamped(e, ds + [d]) == Stamped(e, ds).WithStamps(Leaves(d, invoked))
            && Raised(e, ds + [d]) == Raised(e, ds) + FailsWith(d, invoked)
  {
    assert (ds + [d])[..|ds + [d]| - 1] == ds;
    assert Stamped(e, ds).WithStamps([]) == Stamped(e, ds);
  }

  lemma FlatNext<T>(parts: seq<seq<T>>, part: seq<T>)
    ensures Flat(parts + [part]) == Flat(parts) + part
  {
    assert (parts + [part])[..|parts|] == parts;
  }

  /** What handling comes to is what each handler left, and what is kept of each. */
  ghost predicate ComesTo(e: Env, ds: seq<Descriptor>, left: seq<seq<Stamp>>, kept: seq<seq<(string, int)>>) {
    InTurn(e, ds, left, kept) && Stamped(e, ds) == e.WithStamps(Flat(left)) && Raised(e, ds) == Flat(kept)
  }

  lemma OneMoreComesTo(e: Env, ds: seq<Descriptor>, d: Descriptor, left: seq<seq<Stamp>>, kept: seq<seq<(string, int)>>)
    requires ComesTo(e, ds, left, kept)
    ensures var invoked := d.invoke(Stamped(e, ds));
            ComesTo(e, ds + [d], left + [Leaves(d, invoked)], kept + [FailsWith(d, invoked)])
  {
    var invoked := d.invoke(Stamped(e, ds));
    OneMoreInTurn(e, ds, d, left, kept);
    StampedNext(e, ds, d);
    FlatNext(left, Leaves(d, invoked));
    FlatNext(kept, FailsWith(d, invoked));
    Associates(e.stamps, Flat(left), Leaves(d, invoked));
  }

  /**
   In the order they ran, each handler is handed the message with the stamps of those before it that returned, and leaves
   exactly a stamp with its own name and its own result, or a failure under its own name with its own error.
   */
  lemma {:induction false} EachInTurn(e: Env, ds: seq<Descriptor>) returns (left: seq<seq<Stamp>>, kept: seq<seq<(string, int)>>)
    ensures ComesTo(e, ds, left, kept)
  {
    if ds == [] {
      left, kept := [], [];
      assert e.WithStamps(Flat<Stamp>([])) == e;
    } else {
      var less, d := ds[..|ds| - 1], ds[|ds| - 1];
      assert ds == less + [d];
      left, kept := EachInTurn(e, less);
      OneMoreComesTo(e, less, d, left, kept);
      var invoked := d.invoke(Stamped(e, less));
      left, kept := left + [Leaves(d, invoked)], kept + [FailsWith(d, invoked)];
    }
  }
}
