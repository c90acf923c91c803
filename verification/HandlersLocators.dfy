/**
 The registry binding message types to handlers: what was declared, and the live index of what is called,
 which is what was declared with every decorator applied in turn.

 A decorator is equal to another as it says itself, told here by `key`. It may raise.
 */
module HandlersLocators {
  import opened Envelopes
  import opened Sequences

  type Type = nat

  /** `handler` is the identity of what was declared, `call` of what runs. */
  datatype Descriptor = Descriptor(handler: nat, name: string, wantsEnvelope: bool, call: nat)

  datatype Wrap = Wrap(key: int, apply: Descriptor -> Option<Descriptor>)

  type Index = map<Type, seq<Descriptor>>

  datatype State = State(declared: Index, live: Index, decorators: seq<Wrap>)

  /** The decorators in the order given, the first applied to the descriptor as it was declared. */
  function Decorated(decorators: seq<Wrap>, d: Descriptor): Option<Descriptor> {
    if decorators == [] then Some(d)
    else
      var before := Decorated(decorators[..|decorators| - 1], d);
      if before.None? then None else decorators[|decorators| - 1].apply(before.value)
  }

  function AllDecorated(decorators: seq<Wrap>, ds: seq<Descriptor>): Option<seq<Descriptor>> {
    if ds == [] then Some([])
    else
      var before := AllDecorated(decorators, ds[..|ds| - 1]);
      var last := Decorated(decorators, ds[|ds| - 1]);
      if before.None? || last.None? then None else Some(before.value + [last.value])
  }

  function At(index: Index, t: Type): seq<Descriptor> {
    if t in index then index[t] else []
  }

  /** A signature the bus cannot call is refused: there is no descriptor. A decorator that raises stops the registration too. */
  ghost function Registered(s: State, t: Type, d: Option<Descriptor>): State {
    if d.None? || Decorated(s.decorators, d.value).None? then s
    else s.(declared := s.declared[t := At(s.declared, t) + [d.value]],
            live := s.live[t := At(s.live, t) + [Decorated(s.decorators, d.value).value]])
  }

  function KeyOf(w: Wrap): int { w.key }

  /** One equal to a decorator already there takes its place. */
  function Put(decorators: seq<Wrap>, w: Wrap): seq<Wrap> {
    if decorators == [] then [w]
    else if decorators[0].key == w.key then [w] + decorators[1..]
    else [decorators[0]] + Put(decorators[1..], w)
  }

  ghost predicate Raises(declared: Index, decorators: seq<Wrap>) {
    exists t :: t in declared && AllDecorated(decorators, declared[t]).None?
  }

  ghost function Rebuilt(declared: Index, decorators: seq<Wrap>): Index
    requires !Raises(declared, decorators)
  {
    map t | t in declared :: AllDecorated(decorators, declared[t]).value
  }

  /** The decorator is in the list before the index is built anew, and stays there when building it fails. */
  ghost function WithDecorator(s: State, w: Wrap): State {
    var decorators := Put(s.decorators, w);
    s.(decorators := decorators, live := if Raises(s.declared, decorators) then s.live else Rebuilt(s.declared, decorators))
  }

  // ---------------------------------------------------------------------------------------------
  // The live index against the declared one
  // ---------------------------------------------------------------------------------------------

  ghost predicate Match(decorators: seq<Wrap>, declared: seq<Descriptor>, live: seq<Descriptor>) {
    AllDecorated(decorators, declared) == Some(live)
  }

  /** The live index is the declared one with the current decorators applied to every entry, in place. */
  ghost predicate Agrees(s: State) {
    s.live.Keys == s.declared.Keys && forall t :: t in s.declared ==> Match(s.decorators, s.declared[t], s.live[t])
  }

  datatype Call = Register(messageType: Type, descriptor: Option<Descriptor>) | Decorate(wrap: Wrap)

  ghost function After(s: State, c: Call): State {
    match c
    case Register(t, d) => Registered(s, t, d)
    case Decorate(w) => WithDecorator(s, w)
  }

  function Initially(): State {
    State(map[], map[], [])
  }

  ghost function History(calls: seq<Call>): State {
    if calls == [] then Initially() else After(History(calls[..|calls| - 1]), calls[|calls| - 1])
  }

  /** Whether the last `decorate` of `calls` raised. */
  ghost predicate LastDecorateRaised(calls: seq<Call>) {
    if calls == [] then false
    else
      var less, last := calls[..|calls| - 1], calls[|calls| - 1];
      if last.Decorate? then Raises(History(less).declared, Put(History(less).decorators, last.wrap))
      else LastDecorateRaised(less)
  }

  lemma AllDecoratedSnoc(decorators: seq<Wrap>, ds: seq<Descriptor>, d: Descriptor)
    ensures AllDecorated(decorators, ds + [d])
            == if AllDecorated(decorators, ds).None? || Decorated(decorators, d).None? then None
               else Some(AllDecorated(decorators, ds).value + [Decorated(decorators, d).value])
  {
    assert (ds + [d])[..|ds + [d]| - 1] == ds;
  }

  lemma MatchSnoc(decorators: seq<Wrap>, declared: seq<Descriptor>, live: seq<Descriptor>, d: Descriptor)
    requires Decorated(decorators, d).Some?
    ensures Match(decorators, declared, live)
            <==> Match(decorators, declared + [d], live + [Decorated(decorators, d).value])
  {
    AllDecoratedSnoc(decorators, declared, d);
    var done := Decorated(decorators, d).value;
    assert (live + [done])[..|live|] == live;
    if AllDecorated(decorators, declared).Some? {
      var built := AllDecorated(decorators, declared).value;
      assert (built + [done])[..|built|] == built;
    }
  }

  /** One registration leaves the two indexes agreeing, or disagreeing, as they were. */
  lemma RegisterKeeps(s: State, t: Type, d: Option<Descriptor>)
    requires s.live.Keys == s.declared.Keys
    ensures Registered(s, t, d).live.Keys == Registered(s, t, d).declared.Keys
    ensures Agrees(Registered(s, t, d)) <==> Agrees(s)
  {
    if d.Some? && Decorated(s.decorators, d.value).Some? {
      var after := Registered(s, t, d);
      MatchSnoc(s.decorators, At(s.declared, t), At(s.live, t), d.value);
      if Agrees(after) {
        forall x | x in s.declared ensures Match(s.decorators, s.declared[x], s.live[x]) {
          assert x in after.declared;
        }
      }
    }
  }

  /**
   After any history of registrations and decorations, the live index is the declared one under the current
   decorators exactly when the last `decorate` did not raise.
   */
  lemma {:induction false} LiveAgreesUnlessDecorateRaised(calls: seq<Call>)
    ensures History(calls).live.Keys == History(calls).declared.Keys
    ensures Agrees(History(calls)) <==> !LastDecorateRaised(calls)
  {
    if calls != [] {
      var less, last := calls[..|calls| - 1], calls[|calls| - 1];
      LiveAgreesUnlessDecorateRaised(less);
      match last
      case Register(t, d) => RegisterKeeps(History(less), t, d);
      case Decorate(w) =>
        var s := WithDecorator(History(less), w);
        if Raises(s.declared, s.decorators) {
          var t :| t in s.declared && AllDecorated(s.decorators, s.declared[t]).None?;
        }
    }
  }

  /** For instance: a handler is registered, a decorator raises on it, and the index stays as it was, beside the new decorator. */
  lemma IndexLeftBehindForInstance(d: Descriptor, w: Wrap)
    requires w.apply(d) == None
    ensures var s := History([Register(0, Some(d)), Decorate(w)]);
            s.decorators == [w] && s.live == map[0 := [d]] && !Agrees(s)
  {
    var first, calls := [Register(0, Some(d))], [Register(0, Some(d)), Decorate(w)];
    assert calls[..1] == first && first[..0] == [];
    assert History(first) == Registered(Initially(), 0, Some(d));
    assert [] + [d] == [d];
    var s := State(map[0 := [d]], map[0 := [d]], []);
    assert History(first) == s && History(calls) == WithDecorator(s, w);
    assert [w][..0] == [] && Decorated([w], d) == None;
    assert [d][..0] == [] && AllDecorated([w], [d]) == None;
    assert Raises(s.declared, [w]);
    LiveAgreesUnlessDecorateRaised(calls);
  }

  // ---------------------------------------------------------------------------------------------
  // The decorators
  // ---------------------------------------------------------------------------------------------

  /** The decorators given by `calls`, in order. */
  function Given(calls: seq<Call>): seq<Wrap> {
    if calls == [] then []
    else
      var before := Given(calls[..|calls| - 1]);
      if calls[|calls| - 1].Decorate? then before + [calls[|calls| - 1].wrap] else before
  }

  /** `w` is the last of `given` with its key. */
  ghost predicate Latest(given: seq<Wrap>, w: Wrap) {
    exists i :: 0 <= i < |given| && given[i] == w && forall j :: i < j < |given| ==> given[j].key != w.key
  }

  lemma KeysOf(w: Wrap, rest: seq<Wrap>)
    ensures Keys(KeyOf, [w] + rest) == [w.key] + Keys(KeyOf, rest)
  {
    KeysJoin(KeyOf, [w], rest);
    assert KeyOf(w) == w.key;
    assert Keys(KeyOf, [w]) == [KeyOf(w)];
  }

  lemma {:induction false} PutKeys(decorators: seq<Wrap>, w: Wrap)
    ensures Keys(KeyOf, Put(decorators, w))
            == if w.key in Keys(KeyOf, decorators) then Keys(KeyOf, decorators) else Keys(KeyOf, decorators) + [w.key]
    ensures forall x :: x in Put(decorators, w) ==> x == w || x in decorators
  {
    if decorators == [] {
      KeysOf(w, []);
      assert [w] + [] == [w];
    } else {
      var head, rest := decorators[0], decorators[1..];
      assert decorators == [head] + rest;
      KeysOf(head, rest);
      if head.key == w.key {
        KeysOf(w, rest);
        assert w.key == Keys(KeyOf, decorators)[0];
      } else {
        PutKeys(rest, w);
        KeysOf(head, Put(rest, w));
        Associates([head.key], Keys(KeyOf, rest), [w.key]);
      }
    }
  }

  lemma {:induction false} PutOthers(decorators: seq<Wrap>, w: Wrap)
    requires NoRepeats(Keys(KeyOf, decorators))
    ensures forall x :: x in Put(decorators, w) && x.key == w.key ==> x == w
  {
    if decorators != [] {
      var head, rest := decorators[0], decorators[1..];
      assert decorators == [head] + rest;
      KeysOf(head, rest);
      assert Keys(KeyOf, decorators)[1..] == Keys(KeyOf, rest);
      if head.key == w.key {
        forall x | x in rest ensures x.key != w.key {
          var i :| 0 <= i < |rest| && rest[i] == x;
          assert Keys(KeyOf, rest)[i] == KeyOf(x);
          assert Keys(KeyOf, decorators)[0] != Keys(KeyOf, decorators)[i + 1];
        }
      } else {
        PutOthers(rest, w);
      }
    }
  }

  lemma LatestStays(given: seq<Wrap>, w: Wrap, x: Wrap)
    requires x == w || (x.key != w.key && Latest(given, x))
    ensures Latest(given + [w], x)
  {
    if x == w {
      assert (given + [w])[|given|] == w;
    } else {
      var i :| 0 <= i < |given| && given[i] == x && forall j :: i < j < |given| ==> given[j].key != x.key;
      assert (given + [w])[i] == x;
    }
  }

  ghost predicate AsGiven(decorators: seq<Wrap>, given: seq<Wrap>) {
    && Keys(KeyOf, decorators) == Keys(KeyOf, FirstOfEach(KeyOf, given))
    && NoRepeats(Keys(KeyOf, decorators))
    && forall w :: w in decorators ==> Latest(given, w)
  }

  lemma GivenOneMore(decorators: seq<Wrap>, given: seq<Wrap>, w: Wrap)
    requires AsGiven(decorators, given)
    ensures AsGiven(Put(decorators, w), given + [w])
  {
    PutKeys(decorators, w);
    PutOthers(decorators, w);
    FirstOfEachHas(KeyOf, given + [w]);
    FirstOfEachSnoc(KeyOf, given, w);
    var first := FirstOfEach(KeyOf, given);
    if w.key !in Keys(KeyOf, first) {
      KeysJoin(KeyOf, first, [w]);
      KeysOf(w, []);
      assert [w] + [] == [w];
    }
    forall x | x in Put(decorators, w) ensures Latest(given + [w], x) {
      LatestStays(given, w, x);
    }
  }

  /**
   After any history: one decorator for each key given, in the order the keys were first given, and for each
   key the one given last.
   */
  lemma {:induction false} DecoratorsAre(calls: seq<Call>)
    ensures AsGiven(History(calls).decorators, Given(calls))
  {
    if calls != [] {
      var less, last := calls[..|calls| - 1], calls[|calls| - 1];
      DecoratorsAre(less);
      if last.Decorate? {
        GivenOneMore(History(less).decorators, Given(less), last.wrap);
      }
    }
  }

  // ---------------------------------------------------------------------------------------------
  // Looking handlers up
  // ---------------------------------------------------------------------------------------------

  function HandlerOf(d: Descriptor): nat { d.handler }

  /** What is bound along the method resolution order, the most specific first. */
  function Along(index: Index, mro: seq<Type>): seq<Descriptor> {
    if mro == [] then [] else Along(index, mro[..|mro| - 1]) + At(index, mro[|mro| - 1])
  }

  function HandlersFor(index: Index, mro: seq<Type>): seq<Descriptor> {
    FirstOfEach(HandlerOf, Along(index, mro))
  }

  /** Decorators replace what runs and leave `handler` saying what was declared. */
  ghost predicate KeepHandler(decorators: seq<Wrap>) {
    forall w, d :: w in decorators && w.apply(d).Some? ==> w.apply(d).value.handler == d.handler
  }

  lemma {:induction false} DecoratedKeepsHandler(decorators: seq<Wrap>, d: Descriptor)
    requires KeepHandler(decorators) && Decorated(decorators, d).Some?
    ensures Decorated(decorators, d).value.handler == d.handler
  {
    if decorators != [] {
      DecoratedKeepsHandler(decorators[..|decorators| - 1], d);
      assert decorators[|decorators| - 1] in decorators;
    }
  }

  lemma {:induction false} AllDecoratedJoin(decorators: seq<Wrap>, a: seq<Descriptor>, b: seq<Descriptor>)
    requires AllDecorated(decorators, a).Some? && AllDecorated(decorators, b).Some?
    ensures AllDecorated(decorators, a + b) == Some(AllDecorated(decorators, a).value + AllDecorated(decorators, b).value)
  {
    if b == [] {
      assert a + b == a;
      assert AllDecorated(decorators, a).value + [] == AllDecorated(decorators, a).value;
    } else {
      var less := b[..|b| - 1];
      assert (a + b)[..|a + b| - 1] == a + less;
      AllDecoratedJoin(decorators, a, less);
      Associates(AllDecorated(decorators, a).value, AllDecorated(decorators, less).value,
                 [Decorated(decorators, b[|b| - 1]).value]);
    }
  }

  lemma {:induction false} AlongDecorated(s: State, mro: seq<Type>)
    requires Agrees(s)
    ensures AllDecorated(s.decorators, Along(s.declared, mro)) == Some(Along(s.live, mro))
  {
    if mro != [] {
      var less, last := mro[..|mro| - 1], mro[|mro| - 1];
      AlongDecorated(s, less);
      AllDecoratedJoin(s.decorators, Along(s.declared, less), At(s.declared, last));
    }
  }

  lemma {:induction false} FirstDecorated(decorators: seq<Wrap>, ds: seq<Descriptor>)
    requires KeepHandler(decorators) && AllDecorated(decorators, ds).Some?
    ensures var first := FirstOfEach(HandlerOf, AllDecorated(decorators, ds).value);
            && AllDecorated(decorators, FirstOfEach(HandlerOf, ds)) == Some(first)
            && Keys(HandlerOf, first) == Keys(HandlerOf, FirstOfEach(HandlerOf, ds))
  {
    if ds != [] {
      var less, last := ds[..|ds| - 1], ds[|ds| - 1];
      FirstDecorated(decorators, less);
      DecoratedKeepsHandler(decorators, last);
      var lessDone, done := AllDecorated(decorators, less).value, Decorated(decorators, last).value;
      FirstOfEachSnoc(HandlerOf, lessDone, done);
      if last.handler !in Keys(HandlerOf, FirstOfEach(HandlerOf, less)) {
        var first := FirstOfEach(HandlerOf, less);
        AllDecoratedSnoc(decorators, first, last);
        KeysJoin(HandlerOf, first, [last]);
        KeysJoin(HandlerOf, FirstOfEach(HandlerOf, lessDone), [done]);
        assert Keys(HandlerOf, [last]) == Keys(HandlerOf, [done]);
      }
    }
  }

  /**
   Whatever was registered and decorated before, provided the last `decorate` did not raise: a lookup finds
   each handler declared along the order once, where it comes first, under the current decorators.
   */
  lemma LookupFindsDeclared(calls: seq<Call>, mro: seq<Type>)
    requires !LastDecorateRaised(calls) && KeepHandler(History(calls).decorators)
    ensures var s := History(calls);
            && AllDecorated(s.decorators, HandlersFor(s.declared, mro)) == Some(HandlersFor(s.live, mro))
            && NoRepeats(Keys(HandlerOf, HandlersFor(s.live, mro)))
            && (forall h :: h in Keys(HandlerOf, HandlersFor(s.live, mro)) <==> h in Keys(HandlerOf, Along(s.declared, mro)))
            && Subsequence(HandlersFor(s.declared, mro), Along(s.declared, mro))
  {
    var s := History(calls);
    LiveAgreesUnlessDecorateRaised(calls);
    AlongDecorated(s, mro);
    FirstDecorated(s.decorators, Along(s.declared, mro));
    FirstOfEachHas(HandlerOf, Along(s.declared, mro));
    FirstOfEachHas(HandlerOf, Along(s.live, mro));
  }

  // ---------------------------------------------------------------------------------------------
  // The registry as it is kept
  // ---------------------------------------------------------------------------------------------

  lemma {:induction false} StaysRaised(decorators: seq<Wrap>, d: Descriptor, n: nat)
    requires n <= |decorators| && Decorated(decorators[..n], d).None?
    ensures Decorated(decorators, d).None?
    decreases |decorators| - n
  {
    if n == |decorators| {
      assert decorators[..n] == decorators;
    } else {
      assert decorators[..n + 1][..n] == decorators[..n];
      StaysRaised(decorators, d, n + 1);
    }
  }

  lemma {:induction false} AllStayRaised(decorators: seq<Wrap>, ds: seq<Descriptor>, n: nat)
    requires n <= |ds| && AllDecorated(decorators, ds[..n]).None?
    ensures AllDecorated(decorators, ds).None?
    decreases |ds| - n
  {
    if n == |ds| {
      assert ds[..n] == ds;
    } else {
      assert ds[..n + 1][..n] == ds[..n];
      AllStayRaised(decorators, ds, n + 1);
    }
  }

  /** `found` is what is left of `passed`, and `seen` the handlers in it. */
  ghost predicate FoundSoFar(passed: seq<Descriptor>, found: seq<Descriptor>, seen: set<nat>) {
    found == FirstOfEach(HandlerOf, passed) && forall h :: h in seen <==> h in Keys(HandlerOf, found)
  }

  lemma FoundMore(passed: seq<Descriptor>, found: seq<Descriptor>, seen: set<nat>, d: Descriptor)
    requires FoundSoFar(passed, found, seen)
    ensures if d.handler in seen then FoundSoFar(passed + [d], found, seen)
            else FoundSoFar(passed + [d], found + [d], seen + {d.handler})
  {
    FirstOfEachSnoc(HandlerOf, passed, d);
    KeysJoin(HandlerOf, found, [d]);
    assert Keys(HandlerOf, [d]) == [HandlerOf(d)];
  }

  class HandlersLocator {
    var declared: Index
    var handlers: Index
    var decorators: seq<Wrap>

    ghost function Model(): State
      reads this
    {
      State(declared, handlers, decorators)
    }

    constructor ()
      ensures Model() == Initially()
    {
      declared, handlers, decorators := map[], map[], [];
    }

    method DecoratedNow(descriptor: Descriptor) returns (r: Option<Descriptor>)
      ensures r == Decorated(decorators, descriptor)
    {
      var d := descriptor;
      for i := 0 to |decorators|
        invariant Decorated(decorators[..i], descriptor) == Some(d)
      {
        assert decorators[..i + 1][..i] == decorators[..i];
        var wrapped := decorators[i].apply(d);
        if wrapped.None? {
          StaysRaised(decorators, descriptor, i + 1);
          return None;
        }
        d := wrapped.value;
      }
      assert decorators[..|decorators|] == decorators;
      r := Some(d);
    }

    method Register(messageType: Type, descriptor: Option<Descriptor>) returns (bound: Option<Descriptor>)
      modifies this`declared, this`handlers
      ensures Model() == Registered(old(Model()), messageType, descriptor)
      ensures bound == if descriptor.None? then None else Decorated(decorators, descriptor.value)
    {
      if descriptor.None? {
        return None;
      }
      bound := DecoratedNow(descriptor.value);
      if bound.Some? {
        declared := declared[messageType := At(declared, messageType) + [descriptor.value]];
        handlers := handlers[messageType := At(handlers, messageType) + [bound.value]];
      }
    }

    method RedecoratedAll(ds: seq<Descriptor>) returns (r: Option<seq<Descriptor>>)
      ensures r == AllDecorated(decorators, ds)
    {
      var done: seq<Descriptor> := [];
      for i := 0 to |ds|
        invariant AllDecorated(decorators, ds[..i]) == Some(done)
      {
        assert ds[..i + 1][..i] == ds[..i];
        var d := DecoratedNow(ds[i]);
        if d.None? {
          AllStayRaised(decorators, ds, i + 1);
          return None;
        }
        done := done + [d.value];
      }
      assert ds[..|ds|] == ds;
      r := Some(done);
    }

    /** The position of the decorator equal to `w`, or the length when there is none. */
    method IndexOf(w: Wrap) returns (at: nat)
      ensures at <= |decorators| && (at < |decorators| ==> decorators[at].key == w.key)
      ensures forall i :: 0 <= i < at ==> decorators[i].key != w.key
    {
      at := 0;
      while at < |decorators| && decorators[at].key != w.key
        invariant at <= |decorators| && forall i :: 0 <= i < at ==> decorators[i].key != w.key
      {
        at := at + 1;
      }
    }

    /** Put `w` in the list, then build the whole index anew; a decorator that raises leaves the old index. */
    method Decorate(w: Wrap) returns (raised: bool)
      modifies this`decorators, this`handlers
      ensures Model() == WithDecorator(old(Model()), w)
      ensures raised <==> Raises(declared, decorators)
    {
      var at := IndexOf(w);
      PutAt(decorators, w, at);
      decorators := if at < |decorators| then decorators[at := w] else decorators + [w];
      var rebuilt: Index := map[];
      var todo := declared.Keys;
      while todo != {}
        invariant handlers == old(handlers) && decorators == Put(old(decorators), w)
        invariant todo <= declared.Keys && rebuilt.Keys == declared.Keys - todo
        invariant forall t :: t in rebuilt ==> AllDecorated(decorators, declared[t]) == Some(rebuilt[t])
      {
        var t :| t in todo;
        var ds := RedecoratedAll(declared[t]);
        if ds.None? {
          return true;
        }
        rebuilt := rebuilt[t := ds.value];
        todo := todo - {t};
      }
      assert rebuilt == Rebuilt(declared, decorators);
      handlers := rebuilt;
      raised := false;
    }

    /** Go on with what one type of the order has bound. */
    static method AddBound(bound: seq<Descriptor>, found: seq<Descriptor>, seen: set<nat>, ghost passed: seq<Descriptor>)
        returns (foundNow: seq<Descriptor>, seenNow: set<nat>)
      requires FoundSoFar(passed, found, seen)
      ensures FoundSoFar(passed + bound, foundNow, seenNow)
    {
      foundNow, seenNow := found, seen;
      assert passed + bound[..0] == passed;
      for j := 0 to |bound|
        invariant FoundSoFar(passed + bound[..j], foundNow, seenNow)
      {
        FoundMore(passed + bound[..j], foundNow, seenNow, bound[j]);
        assert passed + bound[..j + 1] == passed + bound[..j] + [bound[j]];
        if bound[j].handler !in seenNow {
          seenNow := seenNow + {bound[j].handler};
          foundNow := foundNow + [bound[j]];
        }
      }
      assert bound[..|bound|] == bound;
    }

    method FindHandlers(mro: seq<Type>) returns (found: seq<Descriptor>)
      ensures found == HandlersFor(handlers, mro)
    {
      found := [];
      var seen: set<nat> := {};
      for i := 0 to |mro|
        invariant FoundSoFar(Along(handlers, mro[..i]), found, seen)
      {
        assert mro[..i + 1][..i] == mro[..i];
        found, seen := AddBound(At(handlers, mro[i]), found, seen, Along(handlers, mro[..i]));
      }
      assert mro[..|mro|] == mro;
    }
  }

  lemma {:induction false} PutAt(decorators: seq<Wrap>, w: Wrap, at: nat)
    requires at <= |decorators| && (at < |decorators| ==> decorators[at].key == w.key)
    requires forall i :: 0 <= i < at ==> decorators[i].key != w.key
    ensures Put(decorators, w) == if at < |decorators| then decorators[at := w] else decorators + [w]
  {
    if at > 0 {
      PutAt(decorators[1..], w, at - 1);
    }
  }

  /** What was registered for `t`, in order: each registration whose signature and decorators let it through. */
  ghost function Accepted(calls: seq<Call>, t: Type): seq<Descriptor> {
    if calls == [] then []
    else
      var less, last := calls[..|calls| - 1], calls[|calls| - 1];
      if last.Register? && last.messageType == t && last.descriptor.Some?
         && Decorated(History(less).decorators, last.descriptor.value).Some?
      then Accepted(less, t) + [last.descriptor.value] else Accepted(less, t)
  }

  /** After any history, what is declared for a type is what was registered for it and let through, in order. */
  lemma {:induction false} DeclaredAre(calls: seq<Call>, t: Type)
    ensures At(History(calls).declared, t) == Accepted(calls, t)
  {
    if calls != [] {
      DeclaredAre(calls[..|calls| - 1], t);
    }
  }

  /** `steps` goes from `d` to what it is decorated to, one decorator at a time, the first given first. */
  ghost predicate Steps(decorators: seq<Wrap>, d: Descriptor, steps: seq<Descriptor>) {
    && |steps| == |decorators| + 1 && steps[0] == d
    && forall i :: 0 <= i < |decorators| ==> decorators[i].apply(steps[i]) == Some(steps[i + 1])
  }

  /** Decorators apply in the order given, the first to the descriptor as it was declared; one that raises ends it. */
  lemma {:induction false} DecoratesInOrder(decorators: seq<Wrap>, d: Descriptor, steps: seq<Descriptor>)
    requires Steps(decorators, d, steps)
    ensures Decorated(decorators, d) == Some(steps[|decorators|])
  {
    if decorators != [] {
      DecoratesInOrder(decorators[..|decorators| - 1], d, steps[..|decorators|]);
    }
  }

  lemma {:induction false} DecoratedSteps(decorators: seq<Wrap>, d: Descriptor) returns (steps: seq<Descriptor>)
    requires Decorated(decorators, d).Some?
    ensures Steps(decorators, d, steps)
  {
    if decorators == [] {
      steps := [d];
    } else {
      steps := DecoratedSteps(decorators[..|decorators| - 1], d);
      DecoratesInOrder(decorators[..|decorators| - 1], d, steps);
      steps := steps + [Decorated(decorators, d).value];
    }
  }

  /** What is bound along an order is what is bound to each type of it, one after the other, the most specific first. */
  lemma {:induction false} AlongInOrder(index: Index, mro: seq<Type>)
    ensures Along(index, mro) == FlatMap((t: Type) => At(index, t), mro)
  {
    if mro != [] {
      var f := (t: Type) => At(index, t);
      AlongInOrder(index, mro[..|mro| - 1]);
      assert Keys(f, mro)[..|mro| - 1] == Keys(f, mro[..|mro| - 1]);
    }
  }
}
