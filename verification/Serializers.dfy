/**
 Encoding an envelope into a body and headers, and back.

 The codec that writes values is taken to be exact: what it agrees to write it reads back. Everything
 else, the grouping of stamps under one header per class name and their return as a list, is here.
 */
module Serializers {
  import opened Envelopes
  import opened Sequences
  import M = MessageRegistry

  /** A message: its class and its content. */
  datatype Message = Message(class_: M.Class, content: int)

  type Env = Envelope<Message>

  /** Writing refuses with `None`; so does reading what does not fit the class. */
  datatype Codec<!T> = Codec(
    writeMessage: (M.Class, int) -> Option<T>, readMessage: (T, M.Class) -> Option<int>,
    writeStamps: (StampClass, seq<Stamp>) -> Option<T>, readStamps: (T, StampClass) -> Option<seq<Stamp>>)

  ghost predicate Exact<T(!new)>(codec: Codec<T>) {
    && (forall c, x :: codec.writeMessage(c, x).Some? ==> codec.readMessage(codec.writeMessage(c, x).value, c) == Some(x))
    && (forall c, xs :: codec.writeStamps(c, xs).Some? ==> codec.readStamps(codec.writeStamps(c, xs).value, c) == Some(xs))
  }

  /** A header: its key, told by whether it is the type header or a stamp's, and its text. */
  datatype Header<T> = TypeHeader(name: string) | StampHeader(name: string, text: T)

  datatype Encoded<T> = Encoded(body: T, headers: seq<Header<T>>)

  datatype Failure = EncodingFailed | MissingType | UndeclaredType | BodyDoesNotFit | StampDoesNotFit(name: string)

  datatype Result<R> = Ok(value: R) | Err(failure: Failure)

  /** The stamp classes a serializer restores, by name. */
  type Known = map<string, StampClass>

  predicate Sendable(s: Stamp) { ClassOf(s).sendable }

  function NameOf(s: Stamp): string { ClassOf(s).name }

  // ---------------------------------------------------------------------------------------------
  // The normal form
  // ---------------------------------------------------------------------------------------------

  function Named(name: string, s: seq<Stamp>): seq<Stamp> {
    Kept(x => NameOf(x) == name, s)
  }

  /** The class names of `s`, in order of first appearance. */
  function FirstNames(s: seq<Stamp>): seq<string> {
    Keys(NameOf, FirstOfEach(NameOf, s))
  }

  function Spread(names: seq<string>, s: seq<Stamp>): seq<Stamp> {
    if names == [] then [] else Spread(names[..|names| - 1], s) + Named(names[|names| - 1], s)
  }

  function KnownOnly(known: Known, s: seq<Stamp>): seq<Stamp> {
    Kept(x => NameOf(x) in known, s)
  }

  /** The stamps that make the trip, grouped by class name in order of first appearance. */
  function Normal(known: Known, s: seq<Stamp>): seq<Stamp> {
    var sent := KnownOnly(known, Kept(Sendable, s));
    Spread(FirstNames(sent), sent)
  }

  // ---------------------------------------------------------------------------------------------
  // Grouping
  // ---------------------------------------------------------------------------------------------

  type Groups = seq<(string, seq<Stamp>)>

  /** `grouped.setdefault(name, []).append(stamp)`, on a dictionary in insertion order. */
  function AddTo(groups: Groups, s: Stamp): Groups {
    if groups == [] then [(NameOf(s), [s])]
    else if groups[0].0 == NameOf(s) then [(groups[0].0, groups[0].1 + [s])] + groups[1..]
    else [groups[0]] + AddTo(groups[1..], s)
  }

  function GroupsFor(names: seq<string>, s: seq<Stamp>): Groups {
    if names == [] then [] else [(names[0], Named(names[0], s))] + GroupsFor(names[1..], s)
  }

  /** One group per class name, in order of first appearance, each with its stamps in their order. */
  function Grouped(s: seq<Stamp>): Groups {
    GroupsFor(FirstNames(s), s)
  }

  lemma NamedSnoc(name: string, s: seq<Stamp>, x: Stamp)
    ensures Named(name, s + [x]) == Named(name, s) + (if NameOf(x) == name then [x] else [])
  {
    KeptDistributes(y => NameOf(y) == name, s, [x]);
    assert [x][1..] == [];
  }

  lemma FirstNamesSnoc(s: seq<Stamp>, x: Stamp)
    ensures FirstNames(s + [x]) == if NameOf(x) in FirstNames(s) then FirstNames(s) else FirstNames(s) + [NameOf(x)]
  {
    FirstOfEachSnoc(NameOf, s, x);
    var first := FirstOfEach(NameOf, s);
    assert Keys(NameOf, first + [x]) == Keys(NameOf, first) + [NameOf(x)];
  }

  lemma {:induction false} OtherGroups(names: seq<string>, s: seq<Stamp>, x: Stamp)
    requires NameOf(x) !in names
    ensures GroupsFor(names, s + [x]) == GroupsFor(names, s)
  {
    if names != [] {
      assert names[0] in names && names[0] != NameOf(x);
      NamedSnoc(names[0], s, x);
      assert Named(names[0], s + [x]) == Named(names[0], s);
      OtherGroups(names[1..], s, x);
    }
  }

  lemma {:induction false} AddToGroups(names: seq<string>, s: seq<Stamp>, x: Stamp)
    requires NoRepeats(names)
    requires NameOf(x) !in names ==> Named(NameOf(x), s) == []
    ensures AddTo(GroupsFor(names, s), x)
            == GroupsFor(if NameOf(x) in names then names else names + [NameOf(x)], s + [x])
  {
    var name := NameOf(x);
    if names == [] {
      NamedSnoc(name, s, x);
      assert names + [name] == [name] && [name][1..] == [];
      assert Named(name, s + [x]) == [x];
      assert GroupsFor([name], s + [x]) == [(name, [x])];
    } else {
      NamedSnoc(names[0], s, x);
      if names[0] == name {
        OtherGroups(names[1..], s, x);
      } else {
        var rest := names[1..];
        AddToGroups(rest, s, x);
        assert Named(names[0], s + [x]) == Named(names[0], s);
        assert GroupsFor(names, s)[1..] == GroupsFor(rest, s);
        assert name in rest <==> name in names by {
          assert names == [names[0]] + rest;
        }
        assert (names + [name])[1..] == rest + [name];
      }
    }
  }

  lemma {:induction false} UnseenName(s: seq<Stamp>, name: string)
    requires name !in FirstNames(s)
    ensures Named(name, s) == []
  {
    FirstOfEachHas(NameOf, s);
    forall x | x in s ensures NameOf(x) != name {
      var i :| 0 <= i < |s| && s[i] == x;
      assert Keys(NameOf, s)[i] == NameOf(x);
    }
    NoneKept(y => NameOf(y) == name, s);
  }

  lemma GroupedSnoc(s: seq<Stamp>, x: Stamp)
    ensures AddTo(Grouped(s), x) == Grouped(s + [x])
  {
    FirstOfEachHas(NameOf, s);
    if NameOf(x) !in FirstNames(s) {
      UnseenName(s, NameOf(x));
    }
    AddToGroups(FirstNames(s), s, x);
    FirstNamesSnoc(s, x);
  }

  method GroupStamps(s: seq<Stamp>) returns (groups: Groups)
    ensures groups == Grouped(s)
  {
    groups := [];
    assert FirstNames([]) == [];
    for i := 0 to |s|
      invariant groups == Grouped(s[..i])
    {
      GroupedSnoc(s[..i], s[i]);
      assert s[..i + 1] == s[..i] + [s[i]];
      groups := AddTo(groups, s[i]);
    }
    assert s[..|s|] == s;
  }

  // ---------------------------------------------------------------------------------------------
  // Encoding and decoding
  // ---------------------------------------------------------------------------------------------

  /** One header per group, or nothing when the codec refuses a group: it is written as the class of its first stamp. */
  function HeadersFor<T>(codec: Codec<T>, groups: Groups): Option<seq<Header<T>>> {
    if groups == [] then Some([])
    else
      var before := HeadersFor(codec, groups[..|groups| - 1]);
      var (name, stamps) := groups[|groups| - 1];
      if before.None? || stamps == [] then None
      else
        var text := codec.writeStamps(ClassOf(stamps[0]), stamps);
        if text.None? then None else Some(before.value + [StampHeader(name, text.value)])
  }

  function Encoding<T>(codec: Codec<T>, tables: M.Tables, e: Env): Result<Encoded<T>> {
    var body := codec.writeMessage(e.message.class_, e.message.content);
    var headers := HeadersFor(codec, Grouped(Kept(Sendable, e.stamps)));
    if body.None? || headers.None? then Err(EncodingFailed)
    else Ok(Encoded(body.value, [TypeHeader(tables.Name(e.message.class_))] + headers.value))
  }

  method Encode<T>(codec: Codec<T>, tables: M.Tables, e: Env) returns (r: Result<Encoded<T>>)
    ensures r == Encoding(codec, tables, e)
  {
    var body := codec.writeMessage(e.message.class_, e.message.content);
    if body.None? {
      return Err(EncodingFailed);
    }
    var groups := GroupStamps(Kept(Sendable, e.stamps));
    var headers: seq<Header<T>> := [];
    for i := 0 to |groups|
      invariant HeadersFor(codec, groups[..i]) == Some(headers)
    {
      var (name, stamps) := groups[i];
      assert groups[..i + 1][..i] == groups[..i];
      if stamps == [] {
        NoHeaders(codec, groups, i);
        return Err(EncodingFailed);
      }
      var text := codec.writeStamps(ClassOf(stamps[0]), stamps);
      if text.None? {
        NoHeaders(codec, groups, i);
        return Err(EncodingFailed);
      }
      headers := headers + [StampHeader(name, text.value)];
    }
    assert groups[..|groups|] == groups;
    r := Ok(Encoded(body.value, [TypeHeader(tables.Name(e.message.class_))] + headers));
  }

  lemma NoHeaders<T>(codec: Codec<T>, groups: Groups, i: nat)
    requires i < |groups| && HeadersFor(codec, groups[..i + 1]) == None
    ensures HeadersFor(codec, groups) == None
    decreases |groups| - i
  {
    if i + 1 == |groups| {
      assert groups[..i + 1] == groups;
    } else {
      assert groups[..i + 2][..i + 1] == groups[..i + 1];
      NoHeaders(codec, groups, i + 1);
    }
  }

  function TypeIn<T>(headers: seq<Header<T>>): Option<string> {
    if headers == [] then None
    else if headers[0].TypeHeader? then Some(headers[0].name) else TypeIn(headers[1..])
  }

  /** Reading stamp headers in order: one of no known class is dropped, one that does not fit fails. */
  function StampsIn<T>(codec: Codec<T>, known: Known, headers: seq<Header<T>>): Result<seq<Stamp>> {
    if headers == [] then Ok([])
    else
      var before := StampsIn(codec, known, headers[..|headers| - 1]);
      var h := headers[|headers| - 1];
      if before.Err? || h.TypeHeader? || h.name !in known then before
      else
        var stamps := codec.readStamps(h.text, known[h.name]);
        if stamps.None? then Err(StampDoesNotFit(h.name)) else Ok(before.value + stamps.value)
  }

  method Decode<T>(codec: Codec<T>, tables: M.Tables, known: Known, encoded: Encoded<T>) returns (r: Result<Env>)
    ensures r == Decoded(codec, tables, known, encoded)
  {
    var name := TypeIn(encoded.headers);
    if name.None? || name.value == "" {
      return Err(MissingType);
    }
    var class_ := tables.TypeFor(name.value);
    if class_.None? {
      return Err(UndeclaredType);
    }
    var content := codec.readMessage(encoded.body, class_.value);
    if content.None? {
      return Err(BodyDoesNotFit);
    }
    var stamps: seq<Stamp> := [];
    for i := 0 to |encoded.headers|
      invariant StampsIn(codec, known, encoded.headers[..i]) == Ok(stamps)
    {
      var h := encoded.headers[i];
      assert encoded.headers[..i + 1][..i] == encoded.headers[..i];
      if h.StampHeader? && h.name in known {
        var read := codec.readStamps(h.text, known[h.name]);
        if read.None? {
          FailureStays(codec, known, encoded.headers, i);
          return Err(StampDoesNotFit(h.name));
        }
        stamps := stamps + read.value;
      }
    }
    assert encoded.headers[..|encoded.headers|] == encoded.headers;
    r := Ok(Envelope(Message(class_.value, content.value), stamps));
  }

  lemma FailureStays<T>(codec: Codec<T>, known: Known, headers: seq<Header<T>>, i: nat)
    requires i < |headers| && StampsIn(codec, known, headers[..i + 1]).Err?
    ensures StampsIn(codec, known, headers) == StampsIn(codec, known, headers[..i + 1])
    decreases |headers| - i
  {
    if i + 1 == |headers| {
      assert headers[..i + 1] == headers;
    } else {
      assert headers[..i + 2][..i + 1] == headers[..i + 1];
      FailureStays(codec, known, headers, i + 1);
    }
  }

  function Decoded<T>(codec: Codec<T>, tables: M.Tables, known: Known, encoded: Encoded<T>): Result<Env> {
    var name := TypeIn(encoded.headers);
    if name.None? || name.value == "" then Err(MissingType)
    else
      var class_ := tables.TypeFor(name.value);
      if class_.None? then Err(UndeclaredType)
      else
        var content := codec.readMessage(encoded.body, class_.value);
        if content.None? then Err(BodyDoesNotFit)
        else
          match StampsIn(codec, known, encoded.headers)
          case Err(failure) => Err(failure)
          case Ok(stamps) => Ok(Envelope(Message(class_.value, content.value), stamps))
  }

  // ---------------------------------------------------------------------------------------------
  // The round trip
  // ---------------------------------------------------------------------------------------------

  /** Stamp classes are told apart by name: those of `s` that are known are known as themselves. */
  predicate ToldApart(known: Known, s: seq<Stamp>) {
    forall x | x in s :: NameOf(x) in known ==> known[NameOf(x)] == ClassOf(x)
  }

  /** `Spread`, leaving out the names that are not known. */
  function SpreadKnown(known: Known, names: seq<string>, s: seq<Stamp>): seq<Stamp> {
    if names == [] then []
    else
      var last := names[|names| - 1];
      var before := SpreadKnown(known, names[..|names| - 1], s);
      if last in known then before + Named(last, s) else before
  }

  lemma {:induction false} GroupsSnoc(names: seq<string>, s: seq<Stamp>)
    requires names != []
    ensures GroupsFor(names, s)
            == GroupsFor(names[..|names| - 1], s) + [(names[|names| - 1], Named(names[|names| - 1], s))]
  {
    if |names| > 1 {
      GroupsSnoc(names[1..], s);
      assert names[1..][..|names| - 2] == names[..|names| - 1][1..];
    }
  }

  lemma {:induction false} HeadersReadBack<T(!new)>(codec: Codec<T>, known: Known, names: seq<string>, s: seq<Stamp>, type_: string)
    requires Exact(codec) && ToldApart(known, s)
    requires HeadersFor(codec, GroupsFor(names, s)).Some?
    ensures var headers := HeadersFor(codec, GroupsFor(names, s)).value;
            && StampsIn(codec, known, [TypeHeader(type_)] + headers) == Ok(SpreadKnown(known, names, s))
            && TypeIn([TypeHeader(type_)] + headers) == Some(type_)
  {
    if names == [] {
      var only: seq<Header<T>> := [TypeHeader(type_)];
      assert only + [] == only && only[..0] == [];
    } else {
      var less, name := names[..|names| - 1], names[|names| - 1];
      GroupsSnoc(names, s);
      var groups := GroupsFor(names, s);
      assert groups[..|groups| - 1] == GroupsFor(less, s);
      HeadersReadBack(codec, known, less, s, type_);
      var before := [TypeHeader(type_)] + HeadersFor(codec, GroupsFor(less, s)).value;
      var stamps := Named(name, s);
      var header := StampHeader(name, codec.writeStamps(ClassOf(stamps[0]), stamps).value);
      var all := [TypeHeader(type_)] + HeadersFor(codec, groups).value;
      assert all == before + [header] && all[..|all| - 1] == before;
      KeptSatisfies(x => NameOf(x) == name, s);
      assert stamps[0] in stamps;
    }
  }

  lemma {:induction false} NamedOfKept(keep: Stamp -> bool, name: string, s: seq<Stamp>)
    requires forall x :: x in s && NameOf(x) == name ==> keep(x)
    ensures Named(name, Kept(keep, s)) == Named(name, s)
  {
    if s != [] {
      NamedOfKept(keep, name, s[1..]);
      KeptDistributes(x => NameOf(x) == name, if keep(s[0]) then [s[0]] else [], Kept(keep, s[1..]));
    }
  }

  function KnownNames(known: Known, names: seq<string>): seq<string> {
    if names == [] then []
    else
      var last := names[|names| - 1];
      var before := KnownNames(known, names[..|names| - 1]);
      if last in known then before + [last] else before
  }

  lemma {:induction false} KnownNamesHave(known: Known, names: seq<string>)
    ensures forall n :: n in KnownNames(known, names) <==> n in names && n in known
  {
    if names != [] {
      KnownNamesHave(known, names[..|names| - 1]);
      assert names == names[..|names| - 1] + [names[|names| - 1]];
    }
  }

  lemma KnownNamesSnoc(known: Known, names: seq<string>, name: string)
    ensures KnownNames(known, names + [name])
            == if name in known then KnownNames(known, names) + [name] else KnownNames(known, names)
  {
    assert (names + [name])[..|names + [name]| - 1] == names;
  }

  lemma KnownOnlySnoc(known: Known, s: seq<Stamp>, x: Stamp)
    ensures KnownOnly(known, s + [x])
            == if NameOf(x) in known then KnownOnly(known, s) + [x] else KnownOnly(known, s)
  {
    KeptDistributes(y => NameOf(y) in known, s, [x]);
    assert [x][1..] == [];
  }

  lemma {:induction false} FirstNamesOfKnown(known: Known, s: seq<Stamp>)
    ensures FirstNames(KnownOnly(known, s)) == KnownNames(known, FirstNames(s))
  {
    if s != [] {
      var less, x := s[..|s| - 1], s[|s| - 1];
      FirstNamesOfKnown(known, less);
      assert s == less + [x];
      FirstNamesSnoc(less, x);
      KnownOnlySnoc(known, less, x);
      KnownNamesHave(known, FirstNames(less));
      if NameOf(x) in known {
        FirstNamesSnoc(KnownOnly(known, less), x);
      }
      KnownNamesSnoc(known, FirstNames(less), NameOf(x));
    }
  }

  lemma {:induction false} SpreadOfKnown(known: Known, names: seq<string>, s: seq<Stamp>)
    ensures SpreadKnown(known, names, s) == Spread(KnownNames(known, names), KnownOnly(known, s))
  {
    if names != [] {
      var less, last := names[..|names| - 1], names[|names| - 1];
      SpreadOfKnown(known, less, s);
      if last in known {
        NamedOfKept(x => NameOf(x) in known, last, s);
        var before := KnownNames(known, less);
        assert (before + [last])[..|before|] == before;
      }
    }
  }

  lemma KeptToldApart(known: Known, keep: Stamp -> bool, s: seq<Stamp>)
    requires ToldApart(known, s)
    ensures ToldApart(known, Kept(keep, s))
  {
    KeptSatisfies(keep, s);
  }

  /**
   The round trip. What is encoded is decoded to the same message, with the stamps that make the trip in
   normal form, exactly when its class is found under the name it travels by and that name is not empty.
   */
  lemma RoundTrip<T(!new)>(codec: Codec<T>, tables: M.Tables, known: Known, e: Env)
    requires Exact(codec) && ToldApart(known, e.stamps)
    requires Encoding(codec, tables, e).Ok?
    ensures var name := tables.Name(e.message.class_);
            Decoded(codec, tables, known, Encoding(codec, tables, e).value)
              == Ok(Envelope(e.message, Normal(known, e.stamps)))
            <==> tables.TypeFor(name) == Some(e.message.class_) && name != ""
  {
    var name := tables.Name(e.message.class_);
    var sendable := Kept(Sendable, e.stamps);
    KeptToldApart(known, Sendable, e.stamps);
    HeadersReadBack(codec, known, FirstNames(sendable), sendable, name);
    SpreadOfKnown(known, FirstNames(sendable), sendable);
    FirstNamesOfKnown(known, sendable);
  }

  /**
   After any history of registrations: an envelope makes the round trip exactly when its class was declared,
   under a name that is not empty. (An explicit empty name is accepted when a class is registered, and read as
   a missing header when the message arrives.)
   */
  lemma RoundTripForDeclared<T(!new)>(codec: Codec<T>, registrations: seq<(M.Class, Option<string>)>, known: Known, e: Env)
    requires Exact(codec) && ToldApart(known, e.stamps)
    requires Encoding(codec, M.History(M.Tables(map[], map[]), registrations), e).Ok?
    ensures var tables := M.History(M.Tables(map[], map[]), registrations);
            Decoded(codec, tables, known, Encoding(codec, tables, e).value)
              == Ok(Envelope(e.message, Normal(known, e.stamps)))
            <==> e.message.class_ in tables.nameOf && tables.nameOf[e.message.class_] != ""
  {
    var tables := M.History(M.Tables(map[], map[]), registrations);
    M.FoundExactlyWhenDeclared(registrations, e.message.class_);
    RoundTrip(codec, tables, known, e);
  }

  /** The registration that fails: a class declared under the empty name cannot be read back. */
  lemma EmptyNameIsReadAsMissing<T(!new)>(codec: Codec<T>, known: Known, e: Env)
    requires Exact(codec) && ToldApart(known, e.stamps)
    requires Encoding(codec, M.Tables(map[], map[]).Registered(e.message.class_, Some("")), e).Ok?
    ensures var tables := M.Tables(map[], map[]).Registered(e.message.class_, Some(""));
            && e.message.class_ in tables.nameOf
            && Decoded(codec, tables, known, Encoding(codec, tables, e).value) == Err(MissingType)
  {
    var sendable := Kept(Sendable, e.stamps);
    KeptToldApart(known, Sendable, e.stamps);
    HeadersReadBack(codec, known, FirstNames(sendable), sendable, "");
  }

  // ---------------------------------------------------------------------------------------------
  // Whatever arrives
  // ---------------------------------------------------------------------------------------------

  /** Read as exactly the class asked for: the codec refuses anything else. */
  ghost predicate ReadsAsAsked<T(!new)>(codec: Codec<T>) {
    forall text, c, s :: codec.readStamps(text, c).Some? && s in codec.readStamps(text, c).value ==> ClassOf(s) == c
  }

  lemma {:induction false} StampsAreKnown<T(!new)>(codec: Codec<T>, known: Known, headers: seq<Header<T>>)
    requires ReadsAsAsked(codec)
    ensures StampsIn(codec, known, headers).Ok? ==>
              forall s :: s in StampsIn(codec, known, headers).value ==> ClassOf(s) in known.Values
  {
    if headers != [] {
      StampsAreKnown(codec, known, headers[..|headers| - 1]);
    }
  }

  /**
   Decoding is an allow-list. Whatever arrives, well formed or not: what is decoded is a declared message, found
   under the name its header gives, and carries stamps of known classes only.
   */
  lemma OnlyDeclaredIsDecoded<T(!new)>(codec: Codec<T>, registrations: seq<(M.Class, Option<string>)>, known: Known, encoded: Encoded<T>)
    requires ReadsAsAsked(codec)
    ensures var tables := M.History(M.Tables(map[], map[]), registrations);
            var decoded := Decoded(codec, tables, known, encoded);
            decoded.Ok? ==>
              && decoded.value.message.class_ in tables.nameOf
              && TypeIn(encoded.headers).Some?
              && tables.TypeFor(TypeIn(encoded.headers).value) == Some(decoded.value.message.class_)
              && forall s :: s in decoded.value.stamps ==> ClassOf(s) in known.Values
  {
    M.HistoryKeepsInverse(M.Tables(map[], map[]), registrations);
    StampsAreKnown(codec, known, encoded.headers);
  }

  // ---------------------------------------------------------------------------------------------
  // What the normal form keeps
  // ---------------------------------------------------------------------------------------------

  lemma {:induction false} OneName(name: string, s: seq<Stamp>)
    requires s != [] && forall x :: x in s ==> NameOf(x) == name
    ensures FirstNames(s) == [name]
  {
    var less, x := s[..|s| - 1], s[|s| - 1];
    assert s == less + [x];
    FirstNamesSnoc(less, x);
    if less != [] {
      OneName(name, less);
    }
  }

  lemma {:induction false} FirstNamesJoin(a: seq<Stamp>, b: seq<Stamp>, name: string)
    requires b != [] && forall x :: x in b ==> NameOf(x) == name
    requires name !in FirstNames(a)
    ensures FirstNames(a + b) == FirstNames(a) + [name]
  {
    var less, x := b[..|b| - 1], b[|b| - 1];
    assert a + b == (a + less) + [x];
    FirstNamesSnoc(a + less, x);
    if less == [] {
      assert a + less == a;
    } else {
      FirstNamesJoin(a, less, name);
      assert name == (FirstNames(a) + [name])[|FirstNames(a)|];
    }
  }

  lemma {:induction false} SpreadNamed(names: seq<string>, s: seq<Stamp>, n: string)
    requires NoRepeats(names)
    ensures Named(n, Spread(names, s)) == if n in names then Named(n, s) else []
  {
    if names != [] {
      var less, last := names[..|names| - 1], names[|names| - 1];
      assert names == less + [last];
      SpreadNamed(less, s, n);
      KeptDistributes(x => NameOf(x) == n, Spread(less, s), Named(last, s));
      KeptSatisfies(x => NameOf(x) == last, s);
      if n == last {
        AllKept(x => NameOf(x) == n, Named(last, s));
      } else {
        NoneKept(x => NameOf(x) == n, Named(last, s));
      }
    }
  }

  /** Spreading puts each name's stamps together, the names in the order given. */
  lemma {:induction false} SpreadNames(names: seq<string>, s: seq<Stamp>)
    requires NoRepeats(names) && forall n :: n in names ==> Named(n, s) != []
    ensures FirstNames(Spread(names, s)) == names
  {
    if names != [] {
      var less, last := names[..|names| - 1], names[|names| - 1];
      assert names == less + [last];
      SpreadNames(less, s);
      KeptSatisfies(x => NameOf(x) == last, s);
      FirstNamesJoin(Spread(less, s), Named(last, s), last);
    }
  }

  lemma {:induction false} AllKept(keep: Stamp -> bool, s: seq<Stamp>)
    requires forall x :: x in s ==> keep(x)
    ensures Kept(keep, s) == s
  {
    if s != [] {
      AllKept(keep, s[1..]);
    }
  }

  lemma {:induction false} SeenName(s: seq<Stamp>, name: string)
    ensures name in FirstNames(s) <==> Named(name, s) != []
  {
    if name !in FirstNames(s) {
      UnseenName(s, name);
    } else {
      FirstOfEachHas(NameOf, s);
      var i :| 0 <= i < |s| && Keys(NameOf, s)[i] == name;
      assert s == s[..i] + [s[i]] + s[i + 1..];
      KeptDistributes(x => NameOf(x) == name, s[..i] + [s[i]], s[i + 1..]);
      NamedSnoc(name, s[..i], s[i]);
    }
  }

  lemma SpreadOfFirstNames(s: seq<Stamp>)
    ensures FirstNames(Spread(FirstNames(s), s)) == FirstNames(s)
    ensures forall n :: Named(n, Spread(FirstNames(s), s)) == Named(n, s)
  {
    FirstOfEachHas(NameOf, s);
    forall n ensures n in FirstNames(s) <==> Named(n, s) != [] {
      SeenName(s, n);
    }
    SpreadNames(FirstNames(s), s);
    forall n ensures Named(n, Spread(FirstNames(s), s)) == Named(n, s) {
      SpreadNamed(FirstNames(s), s, n);
    }
  }

  lemma {:induction false} SpreadIsSame(names: seq<string>, s: seq<Stamp>, t: seq<Stamp>)
    requires forall n :: n in names ==> Named(n, s) == Named(n, t)
    ensures Spread(names, s) == Spread(names, t)
  {
    if names != [] {
      SpreadIsSame(names[..|names| - 1], s, t);
    }
  }

  lemma {:induction false} SpreadHas(names: seq<string>, s: seq<Stamp>)
    ensures forall x :: x in Spread(names, s) ==> x in s
  {
    if names != [] {
      SpreadHas(names[..|names| - 1], s);
      KeptSatisfies(x => NameOf(x) == names[|names| - 1], s);
    }
  }

  /**
   Exactly the sendable stamps of known names make the trip: for each name they keep their order,
   and the names come in the order in which they first appeared.
   */
  lemma NormalKeepsEachName(known: Known, s: seq<Stamp>)
    ensures FirstNames(Normal(known, s)) == KnownNames(known, FirstNames(Kept(Sendable, s)))
    ensures forall n :: Named(n, Normal(known, s)) == if n in known then Named(n, Kept(Sendable, s)) else []
  {
    var sendable := Kept(Sendable, s);
    var sent := KnownOnly(known, sendable);
    SpreadOfFirstNames(sent);
    FirstNamesOfKnown(known, sendable);
    forall n ensures Named(n, sent) == if n in known then Named(n, sendable) else [] {
      if n in known {
        NamedOfKept(x => NameOf(x) in known, n, sendable);
      } else {
        KeptSatisfies(x => NameOf(x) in known, sendable);
        NoneKept(x => NameOf(x) == n, sent);
      }
    }
  }

  /** A second trip changes nothing. */
  lemma NormalIsNormal(known: Known, s: seq<Stamp>)
    ensures Normal(known, Normal(known, s)) == Normal(known, s)
  {
    var sendable := Kept(Sendable, s);
    var sent := KnownOnly(known, sendable);
    var normal := Spread(FirstNames(sent), sent);
    SpreadHas(FirstNames(sent), sent);
    KeptSatisfies(Sendable, s);
    KeptSatisfies(x => NameOf(x) in known, sendable);
    AllKept(Sendable, normal);
    AllKept(x => NameOf(x) in known, normal);
    SpreadOfFirstNames(sent);
    SpreadIsSame(FirstNames(sent), sent, normal);
  }

  // ---------------------------------------------------------------------------------------------
  // What is written, and what is refused
  // ---------------------------------------------------------------------------------------------

  /** The codec writes the stamps of `name`, as a list of their class. */
  predicate Writes<T>(codec: Codec<T>, name: string, s: seq<Stamp>) {
    Named(name, s) != [] && codec.writeStamps(ClassOf(Named(name, s)[0]), Named(name, s)).Some?
  }

  /** `h` is the header of the stamps of `name`. */
  predicate HeaderOf<T(==)>(codec: Codec<T>, name: string, s: seq<Stamp>, h: Header<T>) {
    Writes(codec, name, s) && h == StampHeader(name, codec.writeStamps(ClassOf(Named(name, s)[0]), Named(name, s)).value)
  }

  lemma {:induction false} HeadersExactly<T>(codec: Codec<T>, names: seq<string>, s: seq<Stamp>)
    ensures var headers := HeadersFor(codec, GroupsFor(names, s));
            && (headers.Some? <==> forall i :: 0 <= i < |names| ==> Writes(codec, names[i], s))
            && (headers.Some? ==> |headers.value| == |names| && forall i :: 0 <= i < |names| ==> HeaderOf(codec, names[i], s, headers.value[i]))
  {
    if names != [] {
      var less, n := names[..|names| - 1], |names| - 1;
      HeadersExactly(codec, less, s);
      GroupsSnoc(names, s);
      var groups := GroupsFor(names, s);
      assert groups[..|groups| - 1] == GroupsFor(less, s);
    }
  }

  /**
   An envelope is refused exactly when the codec refuses its message or the stamps of some class name; otherwise it is the
   body, its type header first, and one header for each class name of its sendable stamps, in order of first appearance.
   */
  lemma EncodesExactly<T>(codec: Codec<T>, tables: M.Tables, e: Env)
    ensures var sendable := Kept(Sendable, e.stamps);
            var names := FirstNames(sendable);
            var body := codec.writeMessage(e.message.class_, e.message.content);
            var encoded := Encoding(codec, tables, e);
            && (encoded.Ok? <==> body.Some? && forall i :: 0 <= i < |names| ==> Writes(codec, names[i], sendable))
            && (encoded.Ok? ==>
                  && encoded.value.body == body.value && |encoded.value.headers| == |names| + 1
                  && encoded.value.headers[0] == TypeHeader(tables.Name(e.message.class_))
                  && forall i :: 0 <= i < |names| ==> HeaderOf(codec, names[i], sendable, encoded.value.headers[i + 1]))
  {
    HeadersExactly(codec, FirstNames(Kept(Sendable, e.stamps)), Kept(Sendable, e.stamps));
  }

  /** A header that can be read: a stamp header of a known class has to fit it. */
  predicate Fits<T>(codec: Codec<T>, known: Known, h: Header<T>) {
    h.StampHeader? && h.name in known ==> codec.readStamps(h.text, known[h.name]).Some?
  }

  predicate AllFit<T>(codec: Codec<T>, known: Known, headers: seq<Header<T>>) {
    forall i :: 0 <= i < |headers| ==> Fits(codec, known, headers[i])
  }

  /** The stamps a header holds, when it is read: none of the type header and of those of no known class. */
  function Reading<T>(codec: Codec<T>, known: Known): Header<T> -> seq<Stamp> {
    (h: Header<T>) =>
      if h.StampHeader? && h.name in known && codec.readStamps(h.text, known[h.name]).Some?
      then codec.readStamps(h.text, known[h.name]).value else []
  }

  /** The header `k` is the first that does not fit. */
  predicate FirstMisfit<T>(codec: Codec<T>, known: Known, headers: seq<Header<T>>, k: nat) {
    k < |headers| && !Fits(codec, known, headers[k]) && AllFit(codec, known, headers[..k])
  }

  lemma {:induction false} StampsReadInOrder<T>(codec: Codec<T>, known: Known, headers: seq<Header<T>>)
    requires AllFit(codec, known, headers)
    ensures StampsIn(codec, known, headers) == Ok(FlatMap(Reading(codec, known), headers))
  {
    if headers == [] {
      assert Keys(Reading(codec, known), headers) == [];
    } else {
      StampsReadInOrder(codec, known, headers[..|headers| - 1]);
      FlatMapLast(Reading(codec, known), headers);
      assert Fits(codec, known, headers[|headers| - 1]);
      var read := FlatMap(Reading(codec, known), headers[..|headers| - 1]);
      assert read + [] == read;
    }
  }

  lemma {:induction false} FirstMisfitIsToBlame<T>(codec: Codec<T>, known: Known, headers: seq<Header<T>>, k: nat)
    requires FirstMisfit(codec, known, headers, k)
    ensures StampsIn(codec, known, headers) == Err(StampDoesNotFit(headers[k].name))
  {
    var less := headers[..|headers| - 1];
    if k < |less| {
      assert less[..k] == headers[..k];
      FirstMisfitIsToBlame(codec, known, less, k);
    } else {
      assert less == headers[..k];
      StampsReadInOrder(codec, known, less);
    }
  }

  /** The message `encoded` names and its body is read as, or why there is none. */
  function Read<T>(codec: Codec<T>, tables: M.Tables, encoded: Encoded<T>): Result<Message> {
    match TypeIn(encoded.headers)
    case None => Err(MissingType)
    case Some(name) =>
      if name == "" then Err(MissingType)
      else
        match tables.TypeFor(name)
        case None => Err(UndeclaredType)
        case Some(class_) =>
          var content := codec.readMessage(encoded.body, class_);
          if content.None? then Err(BodyDoesNotFit) else Ok(Message(class_, content.value))
  }

  /**
   What decoding comes to, for whatever arrives: the reason there is no message, if there is none; or else the first stamp
   header that does not fit is to blame; or else the message, and the stamps of every known header as read, in order.
   */
  lemma DecodesExactly<T>(codec: Codec<T>, tables: M.Tables, known: Known, encoded: Encoded<T>)
    ensures var r := Decoded(codec, tables, known, encoded);
            match Read(codec, tables, encoded)
            case Err(failure) => r == Err(failure)
            case Ok(message) =>
              && (AllFit(codec, known, encoded.headers) ==> r == Ok(Envelope(message, FlatMap(Reading(codec, known), encoded.headers))))
              && (forall k: nat :: FirstMisfit(codec, known, encoded.headers, k) ==> r == Err(StampDoesNotFit(encoded.headers[k].name)))
  {
    if AllFit(codec, known, encoded.headers) {
      StampsReadInOrder(codec, known, encoded.headers);
    }
    forall k: nat | FirstMisfit(codec, known, encoded.headers, k)
      ensures StampsIn(codec, known, encoded.headers) == Err(StampDoesNotFit(encoded.headers[k].name))
    {
      FirstMisfitIsToBlame(codec, known, encoded.headers, k);
    }
  }
}
