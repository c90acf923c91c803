/**
 Delegating to whichever transport factory recognises a DSN: a tree of factories, some of which discover
 adapters by scheme, against the list of its leaves from left to right.

 A DSN is told by its scheme, and whether an adapter recognises it is taken to depend on nothing else.
 */
module TransportFactories {
  import opened Envelopes
  import opened Sequences

  type Scheme = string

  datatype Adapter =
    | Supplied(id: nat, schemes: set<Scheme>, closes: bool)
    | Discovered(id: nat, schemes: set<Scheme>, closes: bool)

  /** A discovering factory is told by `id`: the same object may stand at several places. */
  datatype Factory =
    | Leaf(adapter: Adapter)
    | Composite(children: seq<Factory>)
    | Discovering(id: nat)

  /** What the installed distributions have for a scheme, for a discovering factory with a serializer or with none. */
  datatype Offer = Nothing | NeedsSerializer | Offered(schemes: set<Scheme>, closes: bool)

  type Offers = (nat, Scheme) -> Offer

  type Cache = seq<(Scheme, Adapter)>

  /** What each discovering factory keeps, in the order it was found, and how many adapters discovery built. */
  datatype State = State(found: map<nat, Cache>, built: nat)

  datatype Answer = Hit(adapter: Adapter) | Miss | Refused

  function CacheOf(s: State, id: nat): Cache {
    if id in s.found then s.found[id] else []
  }

  function Lookup(cache: Cache, scheme: Scheme): Option<Adapter> {
    if cache == [] then None
    else if cache[0].0 == scheme then Some(cache[0].1) else Lookup(cache[1..], scheme)
  }

  /** Asking one leaf, and what is kept afterwards. */
  function Ask(offers: Offers, s: State, leaf: Factory, scheme: Scheme): (Answer, State)
    requires !leaf.Composite?
  {
    match leaf
    case Leaf(a) => (if scheme in a.schemes then Hit(a) else Miss, s)
    case Discovering(id) =>
      var known := Lookup(CacheOf(s, id), scheme);
      if known.Some? then (Hit(known.value), s)
      else
        match offers(id, scheme)
        case Nothing => (Miss, s)
        case NeedsSerializer => (Refused, s)
        case Offered(schemes, closes) =>
          if scheme !in schemes then (Miss, s)
          else
            var a := Discovered(s.built, schemes, closes);
            (Hit(a), State(s.found[id := CacheOf(s, id) + [(scheme, a)]], s.built + 1))
  }

  ghost predicate Leaves(leaves: seq<Factory>) {
    forall f :: f in leaves ==> !f.Composite?
  }

  /** The leaves asked from left to right, until one recognises the scheme or asking fails. */
  ghost function Search(offers: Offers, s: State, leaves: seq<Factory>, scheme: Scheme): (Answer, State)
    requires Leaves(leaves)
  {
    if leaves == [] then (Miss, s)
    else
      var first := Ask(offers, s, leaves[0], scheme);
      if first.0.Miss? then Search(offers, first.1, leaves[1..], scheme) else first
  }

  function Flattened(f: Factory): (leaves: seq<Factory>)
    ensures Leaves(leaves)
    decreases f, if f.Composite? then |f.children| + 1 else 0
  {
    if f.Composite? then FlattenedUpto(f, |f.children|) else [f]
  }

  function FlattenedUpto(f: Factory, n: nat): (leaves: seq<Factory>)
    requires f.Composite? && n <= |f.children|
    ensures Leaves(leaves)
    decreases f, n
  {
    if n == 0 then [] else FlattenedUpto(f, n - 1) + Flattened(f.children[n - 1])
  }

  // ---------------------------------------------------------------------------------------------
  // Searching a list of leaves
  // ---------------------------------------------------------------------------------------------

  lemma {:induction false} SearchJoin(offers: Offers, s: State, a: seq<Factory>, b: seq<Factory>, scheme: Scheme)
    requires Leaves(a) && Leaves(b)
    ensures Search(offers, s, a + b, scheme)
            == if Search(offers, s, a, scheme).0.Miss? then Search(offers, s, b, scheme) else Search(offers, s, a, scheme)
    ensures Search(offers, s, a, scheme).0.Miss? ==> Search(offers, s, a, scheme).1 == s
  {
    if a == [] {
      assert a + b == b;
    } else {
      assert (a + b)[1..] == a[1..] + b;
      SearchJoin(offers, s, a[1..], b, scheme);
    }
  }

  /**
   The answer is that of the first leaf that recognises the scheme, or fails being asked. Nothing is found
   exactly when every leaf, asked by itself, does not recognise it.
   */
  lemma {:induction false} SearchIsFirst(offers: Offers, s: State, leaves: seq<Factory>, scheme: Scheme)
    requires Leaves(leaves)
    ensures Search(offers, s, leaves, scheme).0.Miss?
            <==> forall k :: 0 <= k < |leaves| ==> Ask(offers, s, leaves[k], scheme).0.Miss?
    ensures !Search(offers, s, leaves, scheme).0.Miss? ==>
              exists k :: 0 <= k < |leaves| && Ask(offers, s, leaves[k], scheme) == Search(offers, s, leaves, scheme)
                          && forall j :: 0 <= j < k ==> Ask(offers, s, leaves[j], scheme).0.Miss?
  {
    if leaves != [] && Ask(offers, s, leaves[0], scheme).0.Miss? {
      var rest := leaves[1..];
      SearchIsFirst(offers, s, rest, scheme);
      assert forall j :: 0 < j < |leaves| ==> leaves[j] == rest[j - 1];
      if !Search(offers, s, rest, scheme).0.Miss? {
        var k :| 0 <= k < |rest| && Ask(offers, s, rest[k], scheme) == Search(offers, s, rest, scheme)
                 && forall j :: 0 <= j < k ==> Ask(offers, s, rest[j], scheme).0.Miss?;
        assert leaves[k + 1] == rest[k];
      }
    }
  }

  lemma {:induction false} LookupAdded(cache: Cache, scheme: Scheme, a: Adapter, other: Scheme)
    ensures Lookup(cache + [(scheme, a)], other)
            == if Lookup(cache, other).Some? then Lookup(cache, other) else if other == scheme then Some(a) else None
  {
    if cache == [] {
      assert cache + [(scheme, a)] == [(scheme, a)] && [(scheme, a)][1..] == [];
    } else {
      assert (cache + [(scheme, a)])[1..] == cache[1..] + [(scheme, a)];
      LookupAdded(cache[1..], scheme, a, other);
    }
  }

  /** Nothing kept is ever replaced, and only what is on offer is kept. */
  ghost predicate Grows(offers: Offers, s: State, t: State) {
    forall id, scheme :: Lookup(CacheOf(t, id), scheme) == Lookup(CacheOf(s, id), scheme)
                         || (Lookup(CacheOf(s, id), scheme).None? && OnOffer(offers, id, scheme))
  }

  ghost predicate OnOffer(offers: Offers, id: nat, scheme: Scheme) {
    offers(id, scheme).Offered? && scheme in offers(id, scheme).schemes
  }

  lemma AskGrows(offers: Offers, s: State, leaf: Factory, scheme: Scheme)
    requires !leaf.Composite?
    ensures Grows(offers, s, Ask(offers, s, leaf, scheme).1)
  {
    var t := Ask(offers, s, leaf, scheme).1;
    forall id, other
      ensures Lookup(CacheOf(t, id), other) == Lookup(CacheOf(s, id), other)
              || (Lookup(CacheOf(s, id), other).None? && OnOffer(offers, id, other))
    {
      if t != s && id == leaf.id {
        var made := offers(id, scheme);
        LookupAdded(CacheOf(s, id), scheme, Discovered(s.built, made.schemes, made.closes), other);
      }
    }
  }

  lemma SearchGrows(offers: Offers, s: State, leaves: seq<Factory>, scheme: Scheme)
    requires Leaves(leaves)
    ensures Grows(offers, s, Search(offers, s, leaves, scheme).1)
  {
    SearchIsFirst(offers, s, leaves, scheme);
    SearchJoin(offers, s, leaves, [], scheme);
    if !Search(offers, s, leaves, scheme).0.Miss? {
      var k :| 0 <= k < |leaves| && Ask(offers, s, leaves[k], scheme) == Search(offers, s, leaves, scheme);
      AskGrows(offers, s, leaves[k], scheme);
    }
  }

  /** Asking builds nothing: it is answered from what is kept, or by a leaf that needs no discovery. */
  ghost predicate Quiet(offers: Offers, s: State, leaves: seq<Factory>, scheme: Scheme)
    requires Leaves(leaves)
  {
    Search(offers, s, leaves, scheme).1 == s
  }

  lemma AskStays(offers: Offers, s: State, t: State, leaf: Factory, scheme: Scheme)
    requires !leaf.Composite? && Grows(offers, s, t) && Ask(offers, s, leaf, scheme).1 == s
    ensures Ask(offers, t, leaf, scheme) == (Ask(offers, s, leaf, scheme).0, t)
  {
    if leaf.Discovering? {
      assert Lookup(CacheOf(t, leaf.id), scheme) == Lookup(CacheOf(s, leaf.id), scheme)
             || (Lookup(CacheOf(s, leaf.id), scheme).None? && OnOffer(offers, leaf.id, scheme));
    }
  }

  lemma {:induction false} SearchStays(offers: Offers, s: State, t: State, leaves: seq<Factory>, scheme: Scheme)
    requires Leaves(leaves) && Grows(offers, s, t) && Quiet(offers, s, leaves, scheme)
    ensures Search(offers, t, leaves, scheme) == (Search(offers, s, leaves, scheme).0, t)
  {
    if leaves != [] {
      var first := Ask(offers, s, leaves[0], scheme);
      if first.0.Miss? {
        SearchStays(offers, s, t, leaves[1..], scheme);
      }
      AskStays(offers, s, t, leaves[0], scheme);
    }
  }

  lemma AskedAgain(offers: Offers, s: State, leaf: Factory, scheme: Scheme)
    requires !leaf.Composite?
    ensures Ask(offers, Ask(offers, s, leaf, scheme).1, leaf, scheme) == Ask(offers, s, leaf, scheme)
  {
    if leaf.Discovering? && Ask(offers, s, leaf, scheme).1 != s {
      LookupAdded(CacheOf(s, leaf.id), scheme, Ask(offers, s, leaf, scheme).0.adapter, scheme);
    }
  }

  /** Asking again finds the same object and builds nothing. */
  lemma {:induction false} SearchAgain(offers: Offers, s: State, leaves: seq<Factory>, scheme: Scheme)
    requires Leaves(leaves)
    ensures var t := Search(offers, s, leaves, scheme).1;
            Search(offers, t, leaves, scheme) == Search(offers, s, leaves, scheme)
  {
    if leaves != [] {
      var first := Ask(offers, s, leaves[0], scheme);
      AskedAgain(offers, s, leaves[0], scheme);
      if first.0.Miss? {
        var rest := leaves[1..];
        SearchAgain(offers, s, rest, scheme);
        SearchGrows(offers, s, rest, scheme);
        AskStays(offers, s, Search(offers, s, rest, scheme).1, leaves[0], scheme);
      }
    }
  }

  // ---------------------------------------------------------------------------------------------
  // Any run of requests
  // ---------------------------------------------------------------------------------------------

  /** A request: whichever factory is asked, for whichever scheme. */
  datatype Request = Request(factory: Factory, scheme: Scheme)

  ghost function Run(offers: Offers, s: State, requests: seq<Request>): State
    decreases |requests|
  {
    if requests == [] then s
    else Run(offers, Search(offers, s, Flattened(requests[0].factory), requests[0].scheme).1, requests[1..])
  }

  lemma {:induction false} RunGrows(offers: Offers, s: State, requests: seq<Request>)
    ensures Grows(offers, s, Run(offers, s, requests))
    decreases |requests|
  {
    if requests != [] {
      var leaves, scheme := Flattened(requests[0].factory), requests[0].scheme;
      SearchGrows(offers, s, leaves, scheme);
      var t := Search(offers, s, leaves, scheme).1;
      RunGrows(offers, t, requests[1..]);
      GrowsOn(offers, s, t, Run(offers, s, requests));
    }
  }

  lemma GrowsOn(offers: Offers, s: State, t: State, u: State)
    requires Grows(offers, s, t) && Grows(offers, t, u)
    ensures Grows(offers, s, u)
  {
  }

  /**
   What a factory was once found to be served by, it is served by for good: the same object, or the same
   refusal, however many requests are made of any factories in between.
   */
  lemma ServedForGood(offers: Offers, s: State, f: Factory, scheme: Scheme, requests: seq<Request>)
    ensures var (answer, t) := Search(offers, s, Flattened(f), scheme);
            var later := Run(offers, t, requests);
            Search(offers, later, Flattened(f), scheme) == (answer, later)
  {
    var t := Search(offers, s, Flattened(f), scheme).1;
    SearchAgain(offers, s, Flattened(f), scheme);
    RunGrows(offers, t, requests);
    SearchStays(offers, t, Run(offers, t, requests), Flattened(f), scheme);
  }

  /** What is kept for a scheme recognises it, and was built by discovery. */
  ghost predicate Sound(s: State) {
    forall id, scheme | Lookup(CacheOf(s, id), scheme).Some? ::
      var a := Lookup(CacheOf(s, id), scheme).value; a.Discovered? && a.id < s.built && scheme in a.schemes
  }

  lemma AskSound(offers: Offers, s: State, leaf: Factory, scheme: Scheme)
    requires !leaf.Composite? && Sound(s)
    ensures Sound(Ask(offers, s, leaf, scheme).1)
    ensures Ask(offers, s, leaf, scheme).0.Hit? ==> scheme in Ask(offers, s, leaf, scheme).0.adapter.schemes
  {
    var t := Ask(offers, s, leaf, scheme).1;
    forall id, other | Lookup(CacheOf(t, id), other).Some?
      ensures var a := Lookup(CacheOf(t, id), other).value; a.Discovered? && a.id < t.built && other in a.schemes
    {
      var was := Lookup(CacheOf(s, id), other);
      assert was.Some? ==> was.value.Discovered? && was.value.id < s.built && other in was.value.schemes;
      if t != s && id == leaf.id {
        var made := offers(id, scheme);
        LookupAdded(CacheOf(s, id), scheme, Discovered(s.built, made.schemes, made.closes), other);
      }
    }
  }

  /** After any run of requests, what is found recognises the scheme it was found for. */
  lemma {:induction false} FoundRecognises(offers: Offers, s: State, requests: seq<Request>, f: Factory, scheme: Scheme)
    requires Sound(s)
    ensures var answer := Search(offers, Run(offers, s, requests), Flattened(f), scheme).0;
            answer.Hit? ==> scheme in answer.adapter.schemes
    decreases |requests|
  {
    if requests == [] {
      SearchSound(offers, s, Flattened(f), scheme);
    } else {
      var leaves := Flattened(requests[0].factory);
      SearchSound(offers, s, leaves, requests[0].scheme);
      FoundRecognises(offers, Search(offers, s, leaves, requests[0].scheme).1, requests[1..], f, scheme);
    }
  }

  lemma {:induction false} SearchSound(offers: Offers, s: State, leaves: seq<Factory>, scheme: Scheme)
    requires Leaves(leaves) && Sound(s)
    ensures Sound(Search(offers, s, leaves, scheme).1)
    ensures Search(offers, s, leaves, scheme).0.Hit? ==> scheme in Search(offers, s, leaves, scheme).0.adapter.schemes
  {
    if leaves != [] {
      AskSound(offers, s, leaves[0], scheme);
      if Ask(offers, s, leaves[0], scheme).0.Miss? {
        SearchSound(offers, Ask(offers, s, leaves[0], scheme).1, leaves[1..], scheme);
      }
    }
  }

  // ---------------------------------------------------------------------------------------------
  // Closing
  // ---------------------------------------------------------------------------------------------

  function Adapters(cache: Cache): seq<Adapter> {
    if cache == [] then [] else [cache[0].1] + Adapters(cache[1..])
  }

  /** The adapters behind one leaf: discovery's are those found so far. */
  function Behind(s: State, leaf: Factory): seq<Adapter>
    requires !leaf.Composite?
  {
    if leaf.Leaf? then [leaf.adapter] else Adapters(CacheOf(s, leaf.id))
  }

  function Closing(adapters: seq<Adapter>): seq<Adapter> {
    if adapters == [] then []
    else (if adapters[0].closes then [adapters[0]] else []) + Closing(adapters[1..])
  }

  function AllBehind(s: State, leaves: seq<Factory>): seq<Adapter>
    requires Leaves(leaves)
  {
    if leaves == [] then [] else Behind(s, leaves[0]) + AllBehind(s, leaves[1..])
  }

  /** Each in turn; one that raises is the last. */
  function UntilRaise(raises: Adapter -> bool, adapters: seq<Adapter>): seq<Adapter> {
    if adapters == [] then []
    else if raises(adapters[0]) then [adapters[0]]
    else [adapters[0]] + UntilRaise(raises, adapters[1..])
  }

  ghost predicate AnyRaises(raises: Adapter -> bool, adapters: seq<Adapter>) {
    exists a :: a in adapters && raises(a)
  }

  lemma {:induction false} ClosingJoin(a: seq<Adapter>, b: seq<Adapter>)
    ensures Closing(a + b) == Closing(a) + Closing(b)
  {
    if a == [] {
      assert a + b == b;
    } else {
      assert (a + b)[1..] == a[1..] + b;
      ClosingJoin(a[1..], b);
      Associates(if a[0].closes then [a[0]] else [], Closing(a[1..]), Closing(b));
    }
  }

  lemma {:induction false} BehindJoin(s: State, a: seq<Factory>, b: seq<Factory>)
    requires Leaves(a) && Leaves(b)
    ensures AllBehind(s, a + b) == AllBehind(s, a) + AllBehind(s, b)
  {
    if a == [] {
      assert a + b == b;
    } else {
      assert (a + b)[1..] == a[1..] + b;
      BehindJoin(s, a[1..], b);
      Associates(Behind(s, a[0]), AllBehind(s, a[1..]), AllBehind(s, b));
    }
  }

  lemma {:induction false} UntilRaiseJoin(raises: Adapter -> bool, a: seq<Adapter>, b: seq<Adapter>)
    ensures UntilRaise(raises, a + b) == if AnyRaises(raises, a) then UntilRaise(raises, a) else a + UntilRaise(raises, b)
    ensures AnyRaises(raises, UntilRaise(raises, a)) <==> AnyRaises(raises, a)
    ensures !AnyRaises(raises, a) ==> UntilRaise(raises, a) == a
  {
    if a == [] {
      assert a + b == b;
    } else {
      var rest := a[1..];
      assert a == [a[0]] + rest && (a + b)[1..] == rest + b;
      UntilRaiseJoin(raises, rest, b);
      assert AnyRaises(raises, a) <==> raises(a[0]) || AnyRaises(raises, rest);
      Associates([a[0]], rest, UntilRaise(raises, b));
    }
  }

  // ---------------------------------------------------------------------------------------------
  // The tree as it is walked
  // ---------------------------------------------------------------------------------------------

  function AsBool(answer: Answer): Option<bool> {
    match answer
    case Hit(_) => Some(true)
    case Miss => Some(false)
    case Refused => None
  }

  lemma UptoNext(offers: Offers, s: State, f: Factory, i: nat, scheme: Scheme)
    requires f.Composite? && i < |f.children|
    requires Search(offers, s, FlattenedUpto(f, i), scheme) == (Miss, s)
    ensures var answer := Search(offers, s, Flattened(f.children[i]), scheme);
            if answer.0.Miss? then answer == (Miss, s) && Search(offers, s, FlattenedUpto(f, i + 1), scheme) == (Miss, s)
            else Search(offers, s, Flattened(f), scheme) == answer
    decreases |f.children| - i
  {
    SearchJoin(offers, s, FlattenedUpto(f, i), Flattened(f.children[i]), scheme);
    SearchJoin(offers, s, Flattened(f.children[i]), [], scheme);
    if !Search(offers, s, Flattened(f.children[i]), scheme).0.Miss? {
      Rest(offers, s, f, i + 1, scheme);
    }
  }

  lemma {:induction false} Rest(offers: Offers, s: State, f: Factory, i: nat, scheme: Scheme)
    requires f.Composite? && i <= |f.children|
    requires !Search(offers, s, FlattenedUpto(f, i), scheme).0.Miss?
    ensures Search(offers, s, Flattened(f), scheme) == Search(offers, s, FlattenedUpto(f, i), scheme)
    decreases |f.children| - i
  {
    if i < |f.children| {
      SearchJoin(offers, s, FlattenedUpto(f, i), Flattened(f.children[i]), scheme);
      Rest(offers, s, f, i + 1, scheme);
    }
  }

  /** What closing `f` comes to, were none to raise. */
  function ToClose(s: State, f: Factory): seq<Adapter> {
    Closing(AllBehind(s, Flattened(f)))
  }

  function ToCloseUpto(s: State, f: Factory, n: nat): seq<Adapter>
    requires f.Composite? && n <= |f.children|
  {
    Closing(AllBehind(s, FlattenedUpto(f, n)))
  }

  lemma ToCloseNext(s: State, f: Factory, i: nat)
    requires f.Composite? && i < |f.children|
    ensures ToCloseUpto(s, f, i + 1) == ToCloseUpto(s, f, i) + ToClose(s, f.children[i])
  {
    BehindJoin(s, FlattenedUpto(f, i), Flattened(f.children[i]));
    ClosingJoin(AllBehind(s, FlattenedUpto(f, i)), AllBehind(s, Flattened(f.children[i])));
  }

  lemma {:induction false} RaisedStops(raises: Adapter -> bool, s: State, f: Factory, i: nat)
    requires f.Composite? && i <= |f.children| && AnyRaises(raises, ToCloseUpto(s, f, i))
    ensures UntilRaise(raises, ToClose(s, f)) == UntilRaise(raises, ToCloseUpto(s, f, i))
    decreases |f.children| - i
  {
    if i < |f.children| {
      ToCloseNext(s, f, i);
      UntilRaiseJoin(raises, ToCloseUpto(s, f, i), ToClose(s, f.children[i]));
      RaisedStops(raises, s, f, i + 1);
    }
  }

  /** What every discovering factory of one process keeps. */
  class TransportFactories {
    const offers: Offers
    var found: map<nat, Cache>
    var built: nat

    ghost function Model(): State
      reads this
    {
      State(found, built)
    }

    constructor (offers: Offers)
      ensures this.offers == offers && Model() == State(map[], 0) && Sound(Model())
    {
      this.offers := offers;
      found, built := map[], 0;
    }

    method Discover(id: nat, scheme: Scheme) returns (answer: Answer)
      modifies this
      ensures (answer, Model()) == Ask(offers, old(Model()), Discovering(id), scheme)
    {
      var known := Lookup(CacheOf(State(found, built), id), scheme);
      if known.Some? {
        return Hit(known.value);
      }
      var offer := offers(id, scheme);
      if offer.NeedsSerializer? {
        return Refused;
      }
      if offer.Nothing? || scheme !in offer.schemes {
        return Miss;
      }
      var a := Discovered(built, offer.schemes, offer.closes);
      found := found[id := CacheOf(State(found, built), id) + [(scheme, a)]];
      built := built + 1;
      answer := Hit(a);
    }

    /** `supports`: whether any factory behind `f` recognises the scheme, or nothing when asking failed. */
    method Supports(f: Factory, scheme: Scheme) returns (yes: Option<bool>)
      modifies this
      ensures Model() == Search(offers, old(Model()), Flattened(f), scheme).1
      ensures yes == AsBool(Search(offers, old(Model()), Flattened(f), scheme).0)
      decreases f
    {
      match f
      case Leaf(a) =>
        yes := Some(scheme in a.schemes);
      case Discovering(id) =>
        var answer := Discover(id, scheme);
        yes := AsBool(answer);
      case Composite(children) =>
        for i := 0 to |children|
          invariant Model() == old(Model()) && Search(offers, Model(), FlattenedUpto(f, i), scheme) == (Miss, Model())
        {
          UptoNext(offers, Model(), f, i, scheme);
          yes := Supports(children[i], scheme);
          if yes != Some(false) {
            return;
          }
        }
        yes := Some(false);
    }

    /** `serving`: the adapter itself, seen through any factory it is behind. */
    method Serving(f: Factory, scheme: Scheme) returns (answer: Answer)
      modifies this
      ensures (answer, Model()) == Search(offers, old(Model()), Flattened(f), scheme)
      decreases f
    {
      match f
      case Leaf(a) =>
        answer := if scheme in a.schemes then Hit(a) else Miss;
      case Discovering(id) =>
        answer := Discover(id, scheme);
      case Composite(children) =>
        for i := 0 to |children|
          invariant Model() == old(Model()) && Search(offers, Model(), FlattenedUpto(f, i), scheme) == (Miss, Model())
        {
          UptoNext(offers, Model(), f, i, scheme);
          SearchAgain(offers, Model(), Flattened(children[i]), scheme);
          var yes := Supports(children[i], scheme);
          if yes.None? {
            return Refused;
          }
          if yes.value {
            answer := Serving(children[i], scheme);
            return;
          }
        }
        answer := Miss;
    }

    static method CloseEach(adapters: seq<Adapter>, raises: Adapter -> bool) returns (closed: seq<Adapter>, raised: bool)
      ensures closed == UntilRaise(raises, Closing(adapters))
      ensures raised <==> AnyRaises(raises, closed)
    {
      closed := [];
      for i := 0 to |adapters|
        invariant closed + UntilRaise(raises, Closing(adapters[i..])) == UntilRaise(raises, Closing(adapters))
        invariant !AnyRaises(raises, closed)
      {
        ghost var rest := Closing(adapters[i + 1..]);
        assert adapters[i..][1..] == adapters[i + 1..];
        if adapters[i].closes {
          assert ([adapters[i]] + rest)[1..] == rest;
          Associates(closed, [adapters[i]], UntilRaise(raises, rest));
          closed := closed + [adapters[i]];
          if raises(adapters[i]) {
            assert adapters[i] in closed;
            return closed, true;
          }
        } else {
          assert [] + rest == rest;
        }
      }
      raised := false;
    }

    /** `close_publishers`, and whether it raised. A factory with nothing to release is skipped. */
    method ClosePublishers(f: Factory, raises: Adapter -> bool) returns (closed: seq<Adapter>, raised: bool)
      ensures closed == UntilRaise(raises, ToClose(Model(), f))
      ensures raised <==> AnyRaises(raises, closed)
      decreases f
    {
      match f
      case Leaf(a) =>
        assert AllBehind(Model(), Flattened(f)) == [a];
        closed, raised := CloseEach([a], raises);
      case Discovering(id) =>
        assert AllBehind(Model(), Flattened(f)) == Adapters(CacheOf(Model(), id));
        closed, raised := CloseEach(Adapters(CacheOf(State(found, built), id)), raises);
      case Composite(children) =>
        closed := [];
        for i := 0 to |children|
          invariant closed == ToCloseUpto(Model(), f, i) && !AnyRaises(raises, closed)
        {
          var more, failed := ClosePublishers(children[i], raises);
          CloseMore(raises, Model(), f, i, more);
          closed := closed + more;
          if failed {
            return closed, true;
          }
        }
        UntilRaiseJoin(raises, closed, []);
        raised := false;
    }
  }

  lemma CloseMore(raises: Adapter -> bool, s: State, f: Factory, i: nat, more: seq<Adapter>)
    requires f.Composite? && i < |f.children|
    requires more == UntilRaise(raises, ToClose(s, f.children[i]))
    requires !AnyRaises(raises, ToCloseUpto(s, f, i))
    ensures AnyRaises(raises, ToCloseUpto(s, f, i) + more) <==> AnyRaises(raises, more)
    ensures if AnyRaises(raises, more) then ToCloseUpto(s, f, i) + more == UntilRaise(raises, ToClose(s, f))
            else ToCloseUpto(s, f, i) + more == ToCloseUpto(s, f, i + 1)
  {
    var before, next := ToCloseUpto(s, f, i), ToClose(s, f.children[i]);
    ToCloseNext(s, f, i);
    UntilRaiseJoin(raises, before, next);
    UntilRaiseJoin(raises, next, []);
    assert forall a :: a in before + more <==> a in before || a in more;
    if AnyRaises(raises, more) {
      var a :| a in next && raises(a);
      assert a in before + next;
      RaisedStops(raises, s, f, i + 1);
    }
  }

  // ---------------------------------------------------------------------------------------------
  // What the leaves are, and what each of them answers
  // ---------------------------------------------------------------------------------------------

  /** A factory over others is its children's leaves, one child after the other, from left to right. */
  lemma FlattenedLeftToRight(f: Factory)
    requires f.Composite?
    ensures Flattened(f) == FlatMap((x: Factory) => Flattened(x), f.children)
  {
    FlattenedUptoLeftToRight(f, |f.children|);
    assert f.children[..|f.children|] == f.children;
  }

  lemma {:induction false} FlattenedUptoLeftToRight(f: Factory, n: nat)
    requires f.Composite? && n <= |f.children|
    ensures FlattenedUpto(f, n) == FlatMap((x: Factory) => Flattened(x), f.children[..n])
  {
    if n > 0 {
      var all := (x: Factory) => Flattened(x);
      FlattenedUptoLeftToRight(f, n - 1);
      var keys := Keys(all, f.children[..n]);
      assert keys[..n - 1] == Keys(all, f.children[..n - 1]) && keys[n - 1] == all(f.children[n - 1]);
    }
  }

  /**
   What a factory that discovers answers: what it keeps for the scheme; or else what is on offer, built anew, kept for
   the scheme and for no other; or a refusal, when what is on offer needs a serializer it has not.
   */
  lemma DiscoversExactly(offers: Offers, s: State, id: nat, scheme: Scheme)
    ensures var (answer, t) := Ask(offers, s, Discovering(id), scheme);
            var known := Lookup(CacheOf(s, id), scheme);
            && (known.Some? ==> answer == Hit(known.value) && t == s)
            && (known.None? && OnOffer(offers, id, scheme) ==>
                  && answer == Hit(Discovered(s.built, offers(id, scheme).schemes, offers(id, scheme).closes))
                  && t.built == s.built + 1 && Lookup(CacheOf(t, id), scheme) == Some(answer.adapter)
                  && (forall x, other :: x != id || other != scheme ==> Lookup(CacheOf(t, x), other) == Lookup(CacheOf(s, x), other)))
            && (answer.Refused? <==> known.None? && offers(id, scheme).NeedsSerializer?)
            && (answer.Miss? <==> known.None? && !offers(id, scheme).NeedsSerializer? && !OnOffer(offers, id, scheme))
  {
    var made := offers(id, scheme);
    if Lookup(CacheOf(s, id), scheme).None? && OnOffer(offers, id, scheme) {
      forall other {
        LookupAdded(CacheOf(s, id), scheme, Discovered(s.built, made.schemes, made.closes), other);
      }
    }
  }

  lemma {:induction false} ClosingHas(adapters: seq<Adapter>, a: Adapter)
    ensures multiset(Closing(adapters))[a] == if a.closes then multiset(adapters)[a] else 0
  {
    if adapters != [] {
      ClosingHas(adapters[1..], a);
      assert adapters == [adapters[0]] + adapters[1..];
      var head := if adapters[0].closes then [adapters[0]] else [];
      assert Closing(adapters) == head + Closing(adapters[1..]);
    }
  }

  lemma {:induction false} BehindInOrder(s: State, leaves: seq<Factory>)
    requires Leaves(leaves)
    ensures AllBehind(s, leaves) == FlatMap((f: Factory) => if f.Composite? then [] else Behind(s, f), leaves)
  {
    if leaves != [] {
      BehindInOrder(s, leaves[1..]);
      assert leaves == [leaves[0]] + leaves[1..];
      FlatMapFirst((f: Factory) => if f.Composite? then [] else Behind(s, f), leaves[0], leaves[1..]);
    }
  }

  /** What closing comes to: each closing adapter behind the leaves, as often as it stands there, and no other; all of them when none raises. */
  lemma ClosesEachOccurrence(s: State, f: Factory, raises: Adapter -> bool, a: Adapter)
    ensures multiset(ToClose(s, f))[a] == if a.closes then multiset(AllBehind(s, Flattened(f)))[a] else 0
    ensures !AnyRaises(raises, ToClose(s, f)) ==> UntilRaise(raises, ToClose(s, f)) == ToClose(s, f)
  {
    ClosingHas(AllBehind(s, Flattened(f)), a);
    UntilRaiseJoin(raises, ToClose(s, f), []);
  }

  /** One that raises ends it: those before it were closed, those after it are not. */
  lemma {:induction false} FirstRaiseEnds(raises: Adapter -> bool, adapters: seq<Adapter>, k: nat)
    requires k < |adapters| && raises(adapters[k]) && forall i :: 0 <= i < k ==> !raises(adapters[i])
    ensures UntilRaise(raises, adapters) == adapters[..k + 1]
  {
    if k > 0 {
      FirstRaiseEnds(raises, adapters[1..], k - 1);
      assert [adapters[0]] + adapters[1..][..k] == adapters[..k + 1];
    }
  }
}
