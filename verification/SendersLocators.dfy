/** Which transports a message goes to, and when an unknown one can turn up. */
module SendersLocators {
  import opened Envelopes
  import opened Sequences
  import S = SendMessage

  /** A route is keyed by a message type or by a text, of which only the catch-all is looked up. */
  datatype Key = OfType(type_: nat) | Text(text: string)

  const WILDCARD := "*"

  type Routes = map<Key, seq<string>>

  /** What a message says of its own routing: names stamped on it, its bases, and the names declared on its class. */
  datatype Message = Message(stamped: Option<seq<string>>, mro: seq<nat>, declared: seq<string>)

  function At(routes: Routes, key: Key): seq<string> {
    if key in routes then routes[key] else []
  }

  function Matched(routes: Routes, mro: seq<nat>): seq<string> {
    if mro == [] then [] else Matched(routes, mro[..|mro| - 1]) + At(routes, OfType(mro[|mro| - 1]))
  }

  /** Where the names of a message come from, the most specific source that has any. */
  datatype Source = Stamped | Table | CatchAll | DeclaredOnMessage

  predicate Uses(routes: Routes, m: Message, source: Source) {
    match source
    case Stamped => m.stamped.Some?
    case Table => m.stamped.None? && exists i :: 0 <= i < |m.mro| && At(routes, OfType(m.mro[i])) != []
    case CatchAll =>
      m.stamped.None? && At(routes, Text(WILDCARD)) != [] && forall i :: 0 <= i < |m.mro| ==> At(routes, OfType(m.mro[i])) == []
    case DeclaredOnMessage =>
      m.stamped.None? && At(routes, Text(WILDCARD)) == [] && forall i :: 0 <= i < |m.mro| ==> At(routes, OfType(m.mro[i])) == []
  }

  function NamesFrom(routes: Routes, m: Message, source: Source): seq<string> {
    match source
    case Stamped => if m.stamped.Some? then m.stamped.value else []
    case Table => Matched(routes, m.mro)
    case CatchAll => At(routes, Text(WILDCARD))
    case DeclaredOnMessage => m.declared
  }

  lemma {:induction false} MatchedNothing(routes: Routes, mro: seq<nat>)
    ensures Matched(routes, mro) == [] <==> forall i :: 0 <= i < |mro| ==> At(routes, OfType(mro[i])) == []
  {
    if mro != [] {
      var less := mro[..|mro| - 1];
      MatchedNothing(routes, less);
      if Matched(routes, mro) == [] {
        forall i | 0 <= i < |mro| ensures At(routes, OfType(mro[i])) == [] {
          assert i < |less| ==> less[i] == mro[i];
        }
      }
    }
  }

  method TransportNames(routes: Routes, m: Message) returns (names: seq<string>)
    ensures forall source :: Uses(routes, m, source) ==> names == NamesFrom(routes, m, source)
  {
    if m.stamped.Some? {
      return m.stamped.value;
    }
    var matched: seq<string> := [];
    for i := 0 to |m.mro|
      invariant matched == Matched(routes, m.mro[..i])
    {
      assert m.mro[..i + 1][..i] == m.mro[..i];
      matched := matched + At(routes, OfType(m.mro[i]));
    }
    assert m.mro[..|m.mro|] == m.mro;
    MatchedNothing(routes, m.mro);
    if matched != [] {
      return matched;
    }
    var wildcard := At(routes, Text(WILDCARD));
    if wildcard != [] {
      return wildcard;
    }
    names := m.declared;
  }

  /** Every route names transports that exist. */
  ghost predicate Known(routes: Routes, senders: map<string, S.Sender>) {
    forall key, name :: key in routes && name in routes[key] ==> name in senders
  }

  /** Building the table fails on the first route naming an unknown transport. */
  method Build(routes: Routes, senders: map<string, S.Sender>) returns (unknown: Option<string>)
    ensures unknown.None? <==> Known(routes, senders)
    ensures unknown.Some? ==> unknown.value !in senders
  {
    var todo := routes.Keys;
    while todo != {}
      invariant todo <= routes.Keys
      invariant forall key, name :: key in routes && key !in todo && name in routes[key] ==> name in senders
    {
      var key :| key in todo;
      for i := 0 to |routes[key]|
        invariant forall j :: 0 <= j < i ==> routes[key][j] in senders
      {
        if routes[key][i] !in senders {
          return Some(routes[key][i]);
        }
      }
      todo := todo - {key};
    }
    unknown := None;
  }

  lemma {:induction false} MatchedKnown(routes: Routes, senders: map<string, S.Sender>, mro: seq<nat>)
    requires Known(routes, senders)
    ensures forall name :: name in Matched(routes, mro) ==> name in senders
  {
    if mro != [] {
      MatchedKnown(routes, senders, mro[..|mro| - 1]);
    }
  }

  lemma {:induction false} UnknownStops(e: S.Env, names: seq<string>, senders: map<string, S.Sender>, n: nat)
    requires n <= |names|
    ensures var all := S.SendAll(e, names[..n], senders);
            all.broken.Some? && all.broken.value.UnknownTransport? ==>
              all.broken.value.name in names && all.broken.value.name !in senders
  {
    if n > 0 {
      assert names[..n][..n - 1] == names[..n - 1];
      UnknownStops(e, names, senders, n - 1);
    }
  }

  /** With a table that was accepted, an unknown transport is met only by names the table does not give. */
  lemma UnknownOnlyOutsideTable(routes: Routes, senders: map<string, S.Sender>, m: Message, e: S.Env, source: Source)
    requires Known(routes, senders) && Uses(routes, m, source)
    ensures var all := S.SendAll(e, S.Routed(NamesFrom(routes, m, source)), senders);
            all.broken.Some? && all.broken.value.UnknownTransport? ==> source.Stamped? || source.DeclaredOnMessage?
  {
    var names := NamesFrom(routes, m, source);
    MatchedKnown(routes, senders, m.mro);
    FirstOfEachHas(S.Itself, names);
    S.KeysOfThemselves(names);
    S.KeysOfThemselves(S.Routed(names));
    UnknownStops(e, S.Routed(names), senders, |S.Routed(names)|);
    assert S.Routed(names)[..|S.Routed(names)|] == S.Routed(names);
  }

  /** Exactly one source is used. */
  lemma OneSource(routes: Routes, m: Message)
    ensures exists source :: Uses(routes, m, source) && forall other :: Uses(routes, m, other) ==> other == source
  {
    var source :=
      if m.stamped.Some? then Stamped
      else if Matched(routes, m.mro) != [] then Table
      else if At(routes, Text(WILDCARD)) != [] then CatchAll
      else DeclaredOnMessage;
    MatchedNothing(routes, m.mro);
    assert Uses(routes, m, source);
  }

  /** What the table gives along an order is what it gives for each base, one after the other, the most specific first. */
  lemma {:induction false} MatchedInOrder(routes: Routes, mro: seq<nat>)
    ensures Matched(routes, mro) == FlatMap((base: nat) => At(routes, OfType(base)), mro)
  {
    if mro != [] {
      MatchedInOrder(routes, mro[..|mro| - 1]);
      FlatMapLast((base: nat) => At(routes, OfType(base)), mro);
    }
  }
}
