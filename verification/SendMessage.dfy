/** Handing a routed message to its senders: each on its own copy, what each added kept. */
module SendMessage {
  import opened Envelopes
  import opened Sequences

  type Env = Envelope<nat>

  // ---------------------------------------------------------------------------------------------
  // What a sender added
  // ---------------------------------------------------------------------------------------------

  function RemoveFirst(s: seq<Stamp>, x: Stamp): seq<Stamp> {
    if s == [] then [] else if s[0] == x then s[1..] else [s[0]] + RemoveFirst(s[1..], x)
  }

  datatype Matched = Matched(unmatched: seq<Stamp>, added: seq<Stamp>)

  /** The greedy matching: each stamp `before` had accounts for one equal stamp of `returned` only. */
  function Matching(returned: seq<Stamp>, before: seq<Stamp>): Matched {
    if returned == [] then Matched(before, [])
    else
      var m := Matching(returned[..|returned| - 1], before);
      var s := returned[|returned| - 1];
      if s in m.unmatched then Matched(RemoveFirst(m.unmatched, s), m.added)
      else Matched(m.unmatched, m.added + [s])
  }

  function Additions(returned: Env, before: Env): seq<Stamp> {
    Matching(returned.stamps, before.stamps).added
  }

  lemma {:induction false} RemoveFirstLess(s: seq<Stamp>, x: Stamp)
    requires x in s
    ensures multiset(RemoveFirst(s, x)) == multiset(s) - multiset{x}
  {
    assert s == [s[0]] + s[1..];
    if s[0] != x {
      RemoveFirstLess(s[1..], x);
    }
  }

  lemma OneMore(r: multiset<Stamp>, b: multiset<Stamp>, s: Stamp)
    ensures s in b - r ==> (r + multiset{s}) - b == r - b && b - (r + multiset{s}) == (b - r) - multiset{s}
    ensures s !in b - r ==> (r + multiset{s}) - b == (r - b) + multiset{s} && b - (r + multiset{s}) == b - r
  {
  }

  lemma MatchingSnoc(returned: seq<Stamp>, s: Stamp, before: seq<Stamp>)
    ensures var m := Matching(returned, before);
            Matching(returned + [s], before)
            == if s in m.unmatched then Matched(RemoveFirst(m.unmatched, s), m.added)
               else Matched(m.unmatched, m.added + [s])
  {
    assert (returned + [s])[..|returned + [s]| - 1] == returned;
  }

  /**
   What a sender added is what it returned less what it was given, counted with repeats, in the order
   it returned it; and what is unmatched is what it dropped.
   */
  lemma {:induction false} AdditionsAreTheDifference(returned: seq<Stamp>, before: seq<Stamp>)
    ensures var m := Matching(returned, before);
            && multiset(m.added) == multiset(returned) - multiset(before)
            && multiset(m.unmatched) == multiset(before) - multiset(returned)
            && Subsequence(m.added, returned)
  {
    if returned != [] {
      var less, s := returned[..|returned| - 1], returned[|returned| - 1];
      var m := Matching(less, before);
      AdditionsAreTheDifference(less, before);
      assert returned == less + [s];
      SubsequenceGrows(m.added, less, s);
      assert multiset(returned) == multiset(less) + multiset{s};
      assert s in m.unmatched <==> s in multiset(m.unmatched);
      OneMore(multiset(less), multiset(before), s);
      if s in m.unmatched {
        RemoveFirstLess(m.unmatched, s);
      } else {
        assert multiset(m.added + [s]) == multiset(m.added) + multiset{s};
      }
    }
  }

  /** Matching a list against one it begins with: the shortcut finds what the matching would. */
  lemma {:induction false} PrefixMatches(before: seq<Stamp>, more: seq<Stamp>)
    ensures Matching(before + more, before) == Matched([], more)
  {
    if more == [] {
      assert before + more == before;
      SelfMatches(before, |before|);
      assert before[..|before|] == before;
    } else {
      var less, s := more[..|more| - 1], more[|more| - 1];
      PrefixMatches(before, less);
      MatchingSnoc(before + less, s, before);
      assert more == less + [s];
      Associates(before, less, [s]);
    }
  }

  lemma {:induction false} SelfMatches(before: seq<Stamp>, n: nat)
    requires n <= |before|
    ensures Matching(before[..n], before) == Matched(before[n..], [])
  {
    if n > 0 {
      SelfMatches(before, n - 1);
      MatchingSnoc(before[..n - 1], before[n - 1], before);
      assert before[..n] == before[..n - 1] + [before[n - 1]];
      assert before[n - 1..][0] == before[n - 1] && before[n - 1..][1..] == before[n..];
    }
  }

  method AddedBy(returned: Env, before: Env) returns (added: seq<Stamp>)
    ensures added == Additions(returned, before)
  {
    var count := |before.stamps|;
    if count <= |returned.stamps| && returned.stamps[..count] == before.stamps {
      PrefixMatches(before.stamps, returned.stamps[count..]);
      assert returned.stamps == before.stamps + returned.stamps[count..];
      return returned.stamps[count..];
    }
    var unmatched := before.stamps;
    added := [];
    for i := 0 to |returned.stamps|
      invariant Matching(returned.stamps[..i], before.stamps) == Matched(unmatched, added)
    {
      var s := returned.stamps[i];
      MatchingSnoc(returned.stamps[..i], s, before.stamps);
      assert returned.stamps[..i + 1] == returned.stamps[..i] + [s];
      if s in unmatched {
        unmatched := RemoveFirst(unmatched, s);
      } else {
        added := added + [s];
      }
    }
    assert returned.stamps[..|returned.stamps|] == returned.stamps;
  }

  // ---------------------------------------------------------------------------------------------
  // The fan-out
  // ---------------------------------------------------------------------------------------------

  datatype Sending = Accepted(envelope: Env) | Refused(error: int)

  /** A sender by the name of its class and what `send` does with what it is handed. */
  datatype Sender = Sender(senderClass: string, send: Env -> Sending)

  datatype Call = Call(name: string, handed: Env)

  datatype Error = SenderRaised(error: int) | UnknownTransport(name: string) | NoSenderForMessage

  datatype Result = Returned(envelope: Env) | PassedOn(envelope: Env) | Raised(error: Error)

  /** The fan-out so far: the calls made, in order, what each added, and what broke it off if anything did. */
  datatype FanOut = FanOut(calls: seq<Call>, added: seq<Stamp>, broken: Option<Error>)

  function HandedTo(e: Env, name: string, sender: Sender): Env {
    e.WithStamps([Sent(sender.senderClass, name)])
  }

  /** Sending to each routed name in turn, up to the first that is unknown or refuses. */
  function SendAll(e: Env, names: seq<string>, senders: map<string, Sender>): FanOut {
    if names == [] then FanOut([], [], None)
    else
      var sofar := SendAll(e, names[..|names| - 1], senders);
      var name := names[|names| - 1];
      if sofar.broken.Some? then sofar
      else if name !in senders then sofar.(broken := Some(UnknownTransport(name)))
      else
        var handed := HandedTo(e, name, senders[name]);
        match senders[name].send(handed)
        case Refused(error) => FanOut(sofar.calls + [Call(name, handed)], sofar.added, Some(SenderRaised(error)))
        case Accepted(returned) => FanOut(sofar.calls + [Call(name, handed)], sofar.added + Additions(returned, e), None)
  }

  function Itself(name: string): string { name }

  /** The names in the order they are first routed to, each once. */
  function Routed(names: seq<string>): seq<string> {
    FirstOfEach(Itself, names)
  }

  method Handle(e: Env, names: seq<string>, senders: map<string, Sender>, requireSender: bool, handleUnrouted: bool)
    returns (r: Result, calls: seq<Call>)
    ensures e.Last(IsReceived).Some? ==> r == PassedOn(e) && calls == []
    ensures e.Last(IsReceived).None? ==>
              var all := SendAll(e, Routed(names), senders);
              && calls == all.calls
              && (all.broken.Some? ==> r == Raised(all.broken.value))
              && (all.broken.None? && names != [] ==>
                    var sent := e.WithStamps(all.added);
                    r == if sent.Last(IsReceived).Some? then PassedOn(sent) else Returned(sent))
              && (names == [] ==>
                    r == if requireSender then Raised(NoSenderForMessage)
                         else if handleUnrouted then PassedOn(e) else Returned(e))
  {
    calls := [];
    if e.Last(IsReceived).Some? {
      return PassedOn(e), calls;
    }
    var fan := FanOutTo(e, names, senders);
    calls := fan.calls;
    if fan.broken.Some? {
      r := Raised(fan.broken.value);
    } else if names != [] {
      var stamped := e.WithStamps(fan.added);
      r := if stamped.Last(IsReceived).None? then Returned(stamped) else PassedOn(stamped);
    } else if requireSender {
      r := Raised(NoSenderForMessage);
    } else {
      r := if handleUnrouted then PassedOn(e) else Returned(e);
    }
  }

  /** Send to each name in turn that was not sent to yet, keeping what each sender added. */
  method FanOutTo(e: Env, names: seq<string>, senders: map<string, Sender>) returns (fan: FanOut)
    ensures fan == SendAll(e, Routed(names), senders)
  {
    fan := FanOut([], [], None);
    var seen: seq<string> := [];
    for i := 0 to |names|
      invariant seen == Routed(names[..i]) && fan.broken == None
      invariant fan == SendAll(e, seen, senders)
    {
      var name := names[i];
      RoutedNext(names, i);
      if name !in seen {
        assert (seen + [name])[..|seen + [name]| - 1] == seen;
        seen := seen + [name];
        if name !in senders {
          fan := fan.(broken := Some(UnknownTransport(name)));
        } else {
          var handed := HandedTo(e, name, senders[name]);
          var sending := senders[name].send(handed);
          if sending.Refused? {
            fan := FanOut(fan.calls + [Call(name, handed)], fan.added, Some(SenderRaised(sending.error)));
          } else {
            var more := AddedBy(sending.envelope, e);
            fan := FanOut(fan.calls + [Call(name, handed)], fan.added + more, None);
          }
        }
        if fan.broken.Some? {
          BrokenStays(e, names, i, senders);
          return;
        }
      }
    }
    assert names[..|names|] == names;
  }

  lemma RoutedNext(names: seq<string>, i: nat)
    requires i < |names|
    ensures var before := Routed(names[..i]);
            Routed(names[..i + 1]) == if names[i] in before then before else before + [names[i]]
  {
    FirstOfEachSnoc(Itself, names[..i], names[i]);
    KeysOfThemselves(Routed(names[..i]));
    assert names[..i + 1] == names[..i] + [names[i]];
  }

  lemma KeysOfThemselves(names: seq<string>)
    ensures Keys(Itself, names) == names
  {
    var keys := Keys(Itself, names);
    assert forall i :: 0 <= i < |keys| ==> keys[i] == Itself(names[i]);
  }

  /** Once a fan-out broke off at a name, no later name changes anything. */
  lemma BrokenStays(e: Env, names: seq<string>, i: nat, senders: map<string, Sender>)
    requires i < |names| && SendAll(e, Routed(names[..i + 1]), senders).broken.Some?
    ensures SendAll(e, Routed(names), senders) == SendAll(e, Routed(names[..i + 1]), senders)
    decreases |names| - i
  {
    if i + 1 == |names| {
      assert names[..i + 1] == names;
    } else {
      var now, next := Routed(names[..i + 1]), Routed(names[..i + 2]);
      assert names[..i + 2] == names[..i + 1] + [names[i + 1]];
      FirstOfEachSnoc(Itself, names[..i + 1], names[i + 1]);
      if next != now {
        assert next[..|next| - 1] == now;
      }
      BrokenStays(e, names, i + 1, senders);
    }
  }

  // ---------------------------------------------------------------------------------------------
  // What the fan-out comes to
  // ---------------------------------------------------------------------------------------------

  function Reply(e: Env, name: string, senders: map<string, Sender>): Sending
    requires name in senders
  {
    senders[name].send(HandedTo(e, name, senders[name]))
  }

  predicate Accepts(e: Env, name: string, senders: map<string, Sender>) {
    name in senders && Reply(e, name, senders).Accepted?
  }

  predicate AllAccept(e: Env, names: seq<string>, senders: map<string, Sender>) {
    forall j :: 0 <= j < |names| ==> Accepts(e, names[j], senders)
  }

  /** What each sender added, by itself. */
  function EachAdded(e: Env, names: seq<string>, senders: map<string, Sender>): seq<seq<Stamp>>
    requires AllAccept(e, names, senders)
  {
    seq(|names|, i requires 0 <= i < |names| => Additions(Reply(e, names[i], senders).envelope, e))
  }

  /** The fan-out stops at the name `k`: unknown, the first that is, every sender before it having accepted. */
  ghost predicate StopsUnknown(e: Env, names: seq<string>, senders: map<string, Sender>, k: nat) {
    k < |names| && names[k] !in senders && AllAccept(e, names[..k], senders)
  }

  lemma {:induction false} CompleteWhenAllAccept(e: Env, names: seq<string>, senders: map<string, Sender>)
    ensures SendAll(e, names, senders).broken.None? <==> AllAccept(e, names, senders)
    ensures AllAccept(e, names, senders) ==> |SendAll(e, names, senders).calls| == |names|
  {
    if names != [] {
      CompleteWhenAllAccept(e, names[..|names| - 1], senders);
    }
  }

  lemma {:induction false} StopsAtUnknown(e: Env, names: seq<string>, senders: map<string, Sender>, k: nat)
    requires StopsUnknown(e, names, senders, k)
    ensures SendAll(e, names, senders).broken == Some(UnknownTransport(names[k])) && |SendAll(e, names, senders).calls| == k
  {
    var less := names[..|names| - 1];
    if k < |less| {
      assert less[..k] == names[..k];
      StopsAtUnknown(e, less, senders, k);
    } else {
      assert less == names[..k];
      CompleteWhenAllAccept(e, less, senders);
    }
  }

  lemma {:induction false} UnknownWasReached(e: Env, names: seq<string>, senders: map<string, Sender>)
    requires var broken := SendAll(e, names, senders).broken; broken.Some? && broken.value.UnknownTransport?
    ensures exists k: nat :: StopsUnknown(e, names, senders, k)
  {
    var less, n := names[..|names| - 1], |names| - 1;
    if SendAll(e, less, senders).broken.Some? {
      UnknownWasReached(e, less, senders);
      var k: nat :| StopsUnknown(e, less, senders, k);
      assert less[..k] == names[..k];
      assert StopsUnknown(e, names, senders, k);
    } else {
      CompleteWhenAllAccept(e, less, senders);
      assert StopsUnknown(e, names, senders, n);
    }
  }

  /**
   When a fan-out is cut short by a transport that does not exist: exactly when a routed name that is not the first is
   no sender, and every sender before the first such name accepts. The calls made until then stay made.
   */
  lemma CutShortExactly(e: Env, names: seq<string>, senders: map<string, Sender>)
    ensures var all := SendAll(e, Routed(names), senders);
            && (all.broken.Some? && all.broken.value.UnknownTransport? && all.calls != []
                <==> exists k: nat :: k > 0 && StopsUnknown(e, Routed(names), senders, k))
            && (forall k: nat :: StopsUnknown(e, Routed(names), senders, k) ==>
                  all.broken == Some(UnknownTransport(Routed(names)[k])) && |all.calls| == k)
  {
    var routed := Routed(names);
    var all := SendAll(e, routed, senders);
    forall k: nat | StopsUnknown(e, routed, senders, k)
      ensures all.broken == Some(UnknownTransport(routed[k])) && |all.calls| == k
    {
      StopsAtUnknown(e, routed, senders, k);
    }
    if all.broken.Some? && all.broken.value.UnknownTransport? {
      UnknownWasReached(e, routed, senders);
    }
  }

  /** For instance: the one sender there is has the message when the name after it turns out to be unknown. */
  lemma CutShortForInstance(e: Env, send: Env -> Sending)
    requires forall x :: send(x).Accepted?
    ensures var all := SendAll(e, Routed(["known", "unknown"]), map["known" := Sender("Sender", send)]);
            all.broken == Some(UnknownTransport("unknown")) && |all.calls| == 1
  {
    var senders := map["known" := Sender("Sender", send)];
    FirstOfEachSnoc(Itself, [], "known");
    FirstOfEachSnoc(Itself, ["known"], "unknown");
    KeysOfThemselves(["known"]);
    assert [] + ["known"] == ["known"] && ["known"] + ["unknown"] == ["known", "unknown"];
    assert "known"[0] != "unknown"[0];
    assert StopsUnknown(e, Routed(["known", "unknown"]), senders, 1);
    CutShortExactly(e, ["known", "unknown"], senders);
  }

  lemma {:induction false} CallsAreIsolated(e: Env, names: seq<string>, senders: map<string, Sender>)
    ensures var all := SendAll(e, names, senders);
            && |all.calls| <= |names| && (all.broken.None? ==> |all.calls| == |names|)
            && (forall i :: 0 <= i < |all.calls| ==>
                  names[i] in senders && all.calls[i] == Call(names[i], HandedTo(e, names[i], senders[names[i]])))
  {
    if names != [] {
      CallsAreIsolated(e, names[..|names| - 1], senders);
    }
  }

  lemma {:induction false} AdditionsAreEachSenders(e: Env, names: seq<string>, senders: map<string, Sender>)
    requires AllAccept(e, names, senders)
    ensures SendAll(e, names, senders).broken == None
    ensures SendAll(e, names, senders).added == Flat(EachAdded(e, names, senders))
  {
    if names != [] {
      var n := |names| - 1;
      AdditionsAreEachSenders(e, names[..n], senders);
      assert EachAdded(e, names, senders)[..n] == EachAdded(e, names[..n], senders);
    }
  }

  /**
   Isolation and accounting. Each routed name is sent to once, in routing order, and handed the
   message as it was before any of them with its own `Sent` stamp alone; when every sender accepts,
   the stamps added are each sender's own additions, in that order.
   */
  lemma FanOutIsolatesSenders(e: Env, names: seq<string>, senders: map<string, Sender>)
    ensures var all := SendAll(e, names, senders);
            && |all.calls| <= |names|
            && (forall i :: 0 <= i < |all.calls| ==>
                  names[i] in senders && all.calls[i] == Call(names[i], HandedTo(e, names[i], senders[names[i]])))
            && (AllAccept(e, names, senders) ==>
                  all.broken.None? && |all.calls| == |names| && all.added == Flat(EachAdded(e, names, senders)))
  {
    CallsAreIsolated(e, names, senders);
    if AllAccept(e, names, senders) {
      AdditionsAreEachSenders(e, names, senders);
    }
  }

  /** A sender that appends to what it is handed: its additions are its `Sent` stamp and what it appended. */
  lemma AppendingSenderAdds(e: Env, name: string, sender: Sender, own: seq<Stamp>)
    requires sender.send(HandedTo(e, name, sender)) == Accepted(HandedTo(e, name, sender).WithStamps(own))
    ensures Additions(sender.send(HandedTo(e, name, sender)).envelope, e) == [Sent(sender.senderClass, name)] + own
  {
    var mine := [Sent(sender.senderClass, name)];
    PrefixMatches(e.stamps, mine + own);
    Associates(e.stamps, mine, own);
  }

  /** Every routed name is sent to, and none twice. */
  lemma RoutedOnceEach(names: seq<string>)
    ensures NoRepeats(Routed(names))
    ensures forall name :: name in Routed(names) <==> name in names
    ensures Subsequence(Routed(names), names)
  {
    FirstOfEachHas(Itself, names);
    KeysOfThemselves(names);
    KeysOfThemselves(Routed(names));
  }

  /** The fan-out stops at the sender `k`, the first that refuses, every sender before it having accepted. */
  ghost predicate StopsRefused(e: Env, names: seq<string>, senders: map<string, Sender>, k: nat) {
    k < |names| && names[k] in senders && Reply(e, names[k], senders).Refused? && AllAccept(e, names[..k], senders)
  }

  lemma {:induction false} StopsAtRefusal(e: Env, names: seq<string>, senders: map<string, Sender>, k: nat)
    requires StopsRefused(e, names, senders, k)
    ensures SendAll(e, names, senders).broken == Some(SenderRaised(Reply(e, names[k], senders).error))
    ensures |SendAll(e, names, senders).calls| == k + 1
  {
    var less := names[..|names| - 1];
    if k < |less| {
      assert less[..k] == names[..k];
      StopsAtRefusal(e, less, senders, k);
    } else {
      assert less == names[..k];
      CompleteWhenAllAccept(e, less, senders);
    }
  }

  lemma {:induction false} RefusalWasReached(e: Env, names: seq<string>, senders: map<string, Sender>)
    requires var broken := SendAll(e, names, senders).broken; broken.Some? && broken.value.SenderRaised?
    ensures exists k: nat :: StopsRefused(e, names, senders, k)
  {
    var less, n := names[..|names| - 1], |names| - 1;
    if SendAll(e, less, senders).broken.Some? {
      RefusalWasReached(e, less, senders);
      var k: nat :| StopsRefused(e, less, senders, k);
      assert less[..k] == names[..k];
      assert StopsRefused(e, names, senders, k);
    } else {
      CompleteWhenAllAccept(e, less, senders);
      assert StopsRefused(e, names, senders, n);
    }
  }

  /** A sender that refuses ends the fan-out, exactly then, with its own error and after its own call; nobody after it is called. */
  lemma RefusedExactly(e: Env, names: seq<string>, senders: map<string, Sender>)
    ensures var all := SendAll(e, Routed(names), senders);
            && (all.broken.Some? && all.broken.value.SenderRaised? <==> exists k: nat :: StopsRefused(e, Routed(names), senders, k))
            && (forall k: nat :: StopsRefused(e, Routed(names), senders, k) ==>
                  all.broken == Some(SenderRaised(Reply(e, Routed(names)[k], senders).error)) && |all.calls| == k + 1)
  {
    var routed := Routed(names);
    var all := SendAll(e, routed, senders);
    forall k: nat | StopsRefused(e, routed, senders, k)
      ensures all.broken == Some(SenderRaised(Reply(e, routed[k], senders).error)) && |all.calls| == k + 1
    {
      StopsAtRefusal(e, routed, senders, k);
    }
    if all.broken.Some? && all.broken.value.SenderRaised? {
      RefusalWasReached(e, routed, senders);
    }
  }
}
