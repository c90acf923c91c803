/**
 What dispatching a message does, said without a cursor, a queue or a context variable.

 A message is a finite tree: handling it at a middleware runs a script of further dispatches,
 now or later and through any bus, and of failures.
 */
module DispatchSpec {
  import opened Envelopes
  import opened Sequences

  datatype Message = Message(name: nat, actions: seq<Action>)

  /** One step of what handling a message asks for, run by the middleware whose script is `at`. */
  datatype Action =
    | Dispatch(at: nat, bus: nat, payload: Envelope<Message>, stamps: seq<Stamp>, guarded: bool)
    | Raise(at: nat, code: nat)

  /** A link in a chain: the hold-back middleware, or one that works around the rest of the chain. */
  datatype Middleware =
    | HoldBack
    | Work(tag: nat, before: nat, after: nat, marks: seq<Stamp>, passesOn: bool)

  type Chains = nat -> seq<Middleware>

  datatype Error =
    | Raised(code: nat)
    | DelayedMessageHandling(handled: Envelope<Message>, errors: seq<Error>)

  datatype Outcome = Returned(envelope: Envelope<Message>) | Failed(error: Error)

  datatype Event = Entered(tag: nat, name: nat) | Left(tag: nat, name: nat)

  /** A message held back, with the rest of its own chain. */
  datatype Item = Item(envelope: Envelope<Message>, rest: seq<Middleware>)

  /** What one run leaves: what happened, what it held back, how it ended. */
  datatype Ran = Ran(trace: seq<Event>, held: seq<Item>, outcome: Outcome)

  datatype Script = Script(trace: seq<Event>, held: seq<Item>, error: Option<Error>)

  datatype Drained = Drained(trace: seq<Event>, errors: seq<Error>)

  /** What a middleware makes of its own two scripts and of the rest of the chain between them. */
  function Around(w: Middleware, e: Envelope<Message>, before: Script, inner: Ran, after: Script): Ran
    requires w.Work?
  {
    var entered := [Entered(w.tag, e.message.name)] + before.trace;
    if before.error.Some? then Ran(entered, before.held, Failed(before.error.value))
    else
      var r := Closing(w, e, inner, after);
      Ran(entered + r.trace, before.held + r.held, r.outcome)
  }

  /** The rest of the chain, then, unless that raised, the middleware's closing script. */
  function Closing(w: Middleware, e: Envelope<Message>, inner: Ran, after: Script): Ran
    requires w.Work?
  {
    if inner.outcome.Failed? then inner
    else if after.error.Some? then
      Ran(inner.trace + after.trace, inner.held + after.held, Failed(after.error.value))
    else
      Ran(inner.trace + after.trace + [Left(w.tag, e.message.name)], inner.held + after.held, inner.outcome)
  }

  /** One dispatch of a script, followed by what the rest of the script does. */
  function Then(first: Ran, guarded: bool, rest: Script): Script {
    if first.outcome.Failed? && !guarded then Script(first.trace, first.held, Some(first.outcome.error))
    else Script(first.trace + rest.trace, first.held + rest.held, rest.error)
  }

  function Bare(e: Envelope<Message>): Envelope<Message> {
    if e.Last(IsDispatchAfter).Some? then e.WithoutStamps(IsDispatchAfter) else e
  }

  /** Running the rest of a chain while a message is being handled: stamped messages are held back. */
  function Inline(chains: Chains, chain: seq<Middleware>, e: Envelope<Message>): Ran
    decreases e.message, |chain|
  {
    if chain == [] then Ran([], [], Returned(e))
    else match chain[0]
      case HoldBack =>
        if e.Last(IsDispatchAfter).Some? then Ran([], [Item(Bare(e), chain[1..])], Returned(Bare(e)))
        else Inline(chains, chain[1..], e)
      case Work(_, before, after, marks, passesOn) =>
        var marked := e.WithStamps(marks);
        Around(chain[0], e,
               InlineScript(chains, e.message.actions, before),
               if passesOn then Inline(chains, chain[1..], marked) else Ran([], [], Returned(marked)),
               InlineScript(chains, e.message.actions, after))
  }

  function InlineScript(chains: Chains, actions: seq<Action>, tag: nat): Script
    decreases actions
  {
    if actions == [] then Script([], [], None)
    else if actions[0].at != tag then InlineScript(chains, actions[1..], tag)
    else match actions[0]
      case Raise(_, code) => Script([], [], Some(Raised(code)))
      case Dispatch(_, bus, payload, stamps, guarded) =>
        Then(Inline(chains, chains(bus), payload.WithStamps(stamps)), guarded,
             InlineScript(chains, actions[1..], tag))
  }

  /** The size of everything handling `m` along `chain` can dispatch, each dispatch counted as often as it is made. */
  function Weight(chains: Chains, chain: seq<Middleware>, m: Message): nat
    decreases m, |chain|
  {
    if chain == [] then 1
    else match chain[0]
      case HoldBack => 1 + Weight(chains, chain[1..], m)
      case Work(_, before, after, _, _) =>
        1 + ScriptWeight(chains, m.actions, before) + Weight(chains, chain[1..], m)
          + ScriptWeight(chains, m.actions, after)
  }

  function ScriptWeight(chains: Chains, actions: seq<Action>, tag: nat): nat
    decreases actions
  {
    if actions == [] then 0
    else
      (if actions[0].at == tag && actions[0].Dispatch?
       then Weight(chains, chains(actions[0].bus), actions[0].payload.message) else 0)
      + ScriptWeight(chains, actions[1..], tag)
  }

  function QueueWeight(chains: Chains, queue: seq<Item>): nat {
    if queue == [] then 0
    else Weight(chains, queue[0].rest, queue[0].envelope.message) + QueueWeight(chains, queue[1..])
  }

  lemma {:induction false} QueueWeightDistributes(chains: Chains, a: seq<Item>, b: seq<Item>)
    ensures QueueWeight(chains, a + b) == QueueWeight(chains, a) + QueueWeight(chains, b)
  {
    if a == [] {
      assert a + b == b;
    } else {
      assert (a + b)[1..] == a[1..] + b;
      QueueWeightDistributes(chains, a[1..], b);
    }
  }

  /** What handling a message holds back weighs less than the message: the drain's measure. */
  lemma {:induction false} HeldWeighsLess(chains: Chains, chain: seq<Middleware>, e: Envelope<Message>)
    ensures QueueWeight(chains, Inline(chains, chain, e).held) < Weight(chains, chain, e.message)
    decreases e.message, |chain|
  {
    if chain != [] {
      match chain[0]
      case HoldBack =>
        HeldWeighsLess(chains, chain[1..], e);
        var one := Item(Bare(e), chain[1..]);
        assert [one][1..] == [];
      case Work(_, before, after, marks, passesOn) =>
        var marked := e.WithStamps(marks);
        var first := InlineScript(chains, e.message.actions, before);
        var inner := if passesOn then Inline(chains, chain[1..], marked) else Ran([], [], Returned(marked));
        var last := InlineScript(chains, e.message.actions, after);
        ScriptHeldWeighsNoMore(chains, e.message.actions, before);
        ScriptHeldWeighsNoMore(chains, e.message.actions, after);
        HeldWeighsLess(chains, chain[1..], marked);
        QueueWeightDistributes(chains, inner.held, last.held);
        QueueWeightDistributes(chains, first.held, Closing(chain[0], e, inner, last).held);
    }
  }

  lemma {:induction false} ScriptHeldWeighsNoMore(chains: Chains, actions: seq<Action>, tag: nat)
    ensures QueueWeight(chains, InlineScript(chains, actions, tag).held) <= ScriptWeight(chains, actions, tag)
    decreases actions
  {
    if actions != [] {
      ScriptHeldWeighsNoMore(chains, actions[1..], tag);
      if actions[0].at == tag && actions[0].Dispatch? {
        var a := actions[0];
        var e := a.payload.WithStamps(a.stamps);
        HeldWeighsLess(chains, chains(a.bus), e);
        QueueWeightDistributes(chains, Inline(chains, chains(a.bus), e).held,
                               InlineScript(chains, actions[1..], tag).held);
      }
    }
  }

  function Resume(chains: Chains, item: Item): Ran {
    Inline(chains, item.rest, item.envelope)
  }

  /** Resuming the oldest held message puts a lighter queue in its place. */
  lemma ResumingLightens(chains: Chains, queue: seq<Item>)
    requires queue != []
    ensures QueueWeight(chains, queue[1..] + Resume(chains, queue[0]).held) < QueueWeight(chains, queue)
  {
    HeldWeighsLess(chains, queue[0].rest, queue[0].envelope);
    QueueWeightDistributes(chains, queue[1..], Resume(chains, queue[0]).held);
  }

  /** Emptying a queue from the front, what each resumed message holds back joining the end. */
  function Drain(chains: Chains, queue: seq<Item>): Drained
    decreases QueueWeight(chains, queue)
  {
    if queue == [] then Drained([], [])
    else
      ResumingLightens(chains, queue);
      var one := Resume(chains, queue[0]);
      var rest := Drain(chains, queue[1..] + one.held);
      Drained(one.trace + rest.trace, FailureOf(one) + rest.errors)
  }

  function FailureOf(r: Ran): seq<Error> {
    if r.outcome.Failed? then [r.outcome.error] else []
  }

  /** Handling `e` as the current message: its own chain first, then what that held back. */
  function AsCurrent(chains: Chains, chain: seq<Middleware>, e: Envelope<Message>): Ran {
    var first := Inline(chains, chain, e);
    if first.outcome.Failed? then Ran(first.trace, [], first.outcome)
    else
      var d := Drain(chains, first.held);
      Ran(first.trace + d.trace, [],
          if d.errors == [] then first.outcome
          else Failed(DelayedMessageHandling(first.outcome.envelope, d.errors)))
  }

  /** Running the rest of a chain with nothing being handled: nothing is held back past the end. */
  function Top(chains: Chains, chain: seq<Middleware>, e: Envelope<Message>): Ran
    decreases e.message, |chain|
  {
    if chain == [] then Ran([], [], Returned(e))
    else match chain[0]
      case HoldBack => AsCurrent(chains, chain[1..], Bare(e))
      case Work(_, before, after, marks, passesOn) =>
        var marked := e.WithStamps(marks);
        Around(chain[0], e,
               TopScript(chains, e.message.actions, before),
               if passesOn then Top(chains, chain[1..], marked) else Ran([], [], Returned(marked)),
               TopScript(chains, e.message.actions, after))
  }

  function TopScript(chains: Chains, actions: seq<Action>, tag: nat): Script
    decreases actions
  {
    if actions == [] then Script([], [], None)
    else if actions[0].at != tag then TopScript(chains, actions[1..], tag)
    else match actions[0]
      case Raise(_, code) => Script([], [], Some(Raised(code)))
      case Dispatch(_, bus, payload, stamps, guarded) =>
        Then(Top(chains, chains(bus), payload.WithStamps(stamps)), guarded,
             TopScript(chains, actions[1..], tag))
  }

  /** Running a chain in a context whose queue is `open`, or where nothing is being handled. */
  function Run(chains: Chains, open: bool, chain: seq<Middleware>, e: Envelope<Message>): Ran {
    if open then Inline(chains, chain, e) else Top(chains, chain, e)
  }

  function RunScript(chains: Chains, open: bool, actions: seq<Action>, tag: nat): Script {
    if open then InlineScript(chains, actions, tag) else TopScript(chains, actions, tag)
  }

  /** What is left of a middleware's work once its opening script is done. */
  function RunInside(chains: Chains, open: bool, w: Middleware, rest: seq<Middleware>, e: Envelope<Message>): Ran
    requires w.Work?
  {
    var marked := e.WithStamps(w.marks);
    Closing(w, e,
            if w.passesOn then Run(chains, open, rest, marked) else Ran([], [], Returned(marked)),
            RunScript(chains, open, e.message.actions, w.after))
  }

  lemma RunWork(chains: Chains, open: bool, w: Middleware, rest: seq<Middleware>, e: Envelope<Message>)
    requires w.Work?
    ensures var before := RunScript(chains, open, e.message.actions, w.before);
            var entered := [Entered(w.tag, e.message.name)] + before.trace;
            var inside := RunInside(chains, open, w, rest, e);
            Run(chains, open, [w] + rest, e)
            == if before.error.Some? then Ran(entered, before.held, Failed(before.error.value))
               else Ran(entered + inside.trace, before.held + inside.held, inside.outcome)
  {
    assert ([w] + rest)[1..] == rest;
  }

  // ---------------------------------------------------------------------------------------------
  // The order held messages are resumed in
  // ---------------------------------------------------------------------------------------------

  /** The held messages in the order they are resumed. */
  function Resumed(chains: Chains, queue: seq<Item>): seq<Item>
    decreases QueueWeight(chains, queue)
  {
    if queue == [] then []
    else
      ResumingLightens(chains, queue);
      [queue[0]] + Resumed(chains, queue[1..] + Resume(chains, queue[0]).held)
  }

  /** What the messages of `items` hold back, taken in order. */
  function HeldBy(chains: Chains, items: seq<Item>): seq<Item> {
    if items == [] then [] else Resume(chains, items[0]).held + HeldBy(chains, items[1..])
  }

  function Traces(chains: Chains, items: seq<Item>): seq<Event> {
    if items == [] then [] else Resume(chains, items[0]).trace + Traces(chains, items[1..])
  }

  function Failures(chains: Chains, items: seq<Item>): seq<Error> {
    if items == [] then [] else FailureOf(Resume(chains, items[0])) + Failures(chains, items[1..])
  }

  /** What is held back, what happens and what is raised when `items` are resumed is that of each by itself, in order. */
  lemma {:induction false} OfEachInTurn(chains: Chains, items: seq<Item>)
    ensures HeldBy(chains, items) == FlatMap((x: Item) => Resume(chains, x).held, items)
    ensures Traces(chains, items) == FlatMap((x: Item) => Resume(chains, x).trace, items)
    ensures Failures(chains, items)
            == FlatMap((x: Item) => match Resume(chains, x).outcome case Returned(_) => [] case Failed(error) => [error], items)
  {
    if items != [] {
      OfEachInTurn(chains, items[1..]);
      assert items == [items[0]] + items[1..];
      FlatMapFirst((x: Item) => Resume(chains, x).held, items[0], items[1..]);
      FlatMapFirst((x: Item) => Resume(chains, x).trace, items[0], items[1..]);
      FlatMapFirst((x: Item) => match Resume(chains, x).outcome case Returned(_) => [] case Failed(error) => [error],
                   items[0], items[1..]);
    }
  }

  /** The drain runs exactly the resumed messages, one after the other, and reports exactly their failures. */
  lemma {:induction false} DrainRunsResumed(chains: Chains, queue: seq<Item>)
    ensures Drain(chains, queue) == Drained(Traces(chains, Resumed(chains, queue)), Failures(chains, Resumed(chains, queue)))
    decreases QueueWeight(chains, queue)
  {
    if queue != [] {
      ResumingLightens(chains, queue);
      var tail := queue[1..] + Resume(chains, queue[0]).held;
      DrainRunsResumed(chains, tail);
      assert Resumed(chains, queue)[1..] == Resumed(chains, tail);
    }
  }

  /**
   Messages are resumed in the order they were held back, each exactly once: first those the
   current message held, then those each resumed message held, in the order of the resumptions.
   No other order is like that.
   */
  lemma {:induction false} ResumedInTheOrderHeld(chains: Chains, queue: seq<Item>, order: seq<Item>)
    ensures order == Resumed(chains, queue) <==> order == queue + HeldBy(chains, order)
    decreases QueueWeight(chains, queue)
  {
    if queue == [] {
      if order == HeldBy(chains, order) {
        NothingHoldsItself(chains, order);
      }
      assert queue + HeldBy(chains, order) == HeldBy(chains, order);
    } else {
      ResumingLightens(chains, queue);
      var tail := queue[1..] + Resume(chains, queue[0]).held;
      if order != [] && order[0] == queue[0] {
        ResumedInTheOrderHeld(chains, tail, order[1..]);
        HeadOfTheOrder(chains, queue, order[1..]);
        assert order == [queue[0]] + order[1..];
        assert Resumed(chains, queue)[1..] == Resumed(chains, tail);
      } else {
        assert (queue + HeldBy(chains, order))[0] == queue[0];
      }
    }
  }

  lemma HeadOfTheOrder(chains: Chains, queue: seq<Item>, later: seq<Item>)
    requires queue != []
    ensures var order := [queue[0]] + later;
            order == queue + HeldBy(chains, order)
            <==> later == queue[1..] + Resume(chains, queue[0]).held + HeldBy(chains, later)
  {
    var order := [queue[0]] + later;
    var rest, held, laterHeld := queue[1..], Resume(chains, queue[0]).held, HeldBy(chains, later);
    assert order[1..] == later && HeldBy(chains, order) == held + laterHeld;
    assert queue == [queue[0]] + rest;
    Associates([queue[0]], rest, held + laterHeld);
    Associates(rest, held, laterHeld);
    assert ([queue[0]] + (rest + held + laterHeld))[1..] == rest + held + laterHeld;
  }

  /** No run of messages is exactly what it holds back itself. */
  lemma NothingHoldsItself(chains: Chains, items: seq<Item>)
    requires items == HeldBy(chains, items)
    ensures items == []
  {
    HeldByWeighsLess(chains, items);
  }

  lemma {:induction false} HeldByWeighsLess(chains: Chains, items: seq<Item>)
    ensures items != [] ==> QueueWeight(chains, HeldBy(chains, items)) < QueueWeight(chains, items)
  {
    if items != [] {
      HeldByWeighsLess(chains, items[1..]);
      HeldWeighsLess(chains, items[0].rest, items[0].envelope);
      QueueWeightDistributes(chains, Resume(chains, items[0]).held, HeldBy(chains, items[1..]));
      assert items[1..] == [] ==> HeldBy(chains, items[1..]) == [];
    }
  }

  /**
   The whole of one current message: if its chain raises, nothing held back goes out. Otherwise its
   own trace comes first, unbroken, then each held message once in the order held, and what is
   raised is exactly what the held messages raised, in that order.
   */
  lemma CurrentThenHeld(chains: Chains, chain: seq<Middleware>, e: Envelope<Message>, order: seq<Item>)
    requires order == Inline(chains, chain, e).held + HeldBy(chains, order)
    ensures var own := Inline(chains, chain, e);
            var r := AsCurrent(chains, chain, e);
            if own.outcome.Failed? then r.trace == own.trace && r.outcome == own.outcome
            else
              && r.trace == own.trace + Traces(chains, order)
              && (r.outcome == own.outcome <==> Failures(chains, order) == [])
              && (Failures(chains, order) != [] ==>
                    r.outcome == Failed(DelayedMessageHandling(own.outcome.envelope, Failures(chains, order))))
  {
    var held := Inline(chains, chain, e).held;
    ResumedInTheOrderHeld(chains, held, order);
    DrainRunsResumed(chains, held);
  }

  // ---------------------------------------------------------------------------------------------
  // A failed dispatch that was caught
  // ---------------------------------------------------------------------------------------------

  const WORKS := Work(0, 1, 2, [], true)

  /** A message that dispatches one for later, then raises. */
  function HoldsThenRaises(later: nat, code: nat): Message {
    Message(1, [Dispatch(1, 0, Envelope(Message(later, []), []), [DispatchAfterCurrentBus], false), Raise(1, code)])
  }

  lemma HoldingThenRaising(chains: Chains, later: nat, code: nat)
    requires chains(0) == [HoldBack, WORKS]
    ensures Inline(chains, [HoldBack, WORKS], Envelope(HoldsThenRaises(later, code), []))
            == Ran([Entered(0, 1)], [Item(Envelope(Message(later, []), []), [WORKS])], Failed(Raised(code)))
  {
    var m := HoldsThenRaises(later, code);
    var stamped := Envelope(Message(later, []), []).WithStamps([DispatchAfterCurrentBus]);
    assert stamped.stamps == [DispatchAfterCurrentBus];
    assert Kept(IsDispatchAfter, [DispatchAfterCurrentBus]) == [DispatchAfterCurrentBus] + Kept(IsDispatchAfter, []);
    assert Kept(x => !IsDispatchAfter(x), [DispatchAfterCurrentBus]) == Kept(x => !IsDispatchAfter(x), []);
    assert [HoldBack, WORKS][1..] == [WORKS];
    assert Inline(chains, chains(0), stamped) == Ran([], [Item(Envelope(Message(later, []), []), [WORKS])], Returned(Envelope(Message(later, []), [])));
    assert m.actions[1..] == [Raise(1, code)];
    assert InlineScript(chains, m.actions[1..], 1) == Script([], [], Some(Raised(code)));
    var script := InlineScript(chains, m.actions, 1);
    assert script == Script([], [Item(Envelope(Message(later, []), []), [WORKS])], Some(Raised(code)));
    assert Envelope(m, []).Last(IsDispatchAfter) == None;
  }

  /**
   For instance: a current message catches the failure of one it dispatched, which had held another back. The held one
   goes out all the same, once the current message returned.
   */
  lemma CaughtFailureStillGoesOut(chains: Chains, later: nat, code: nat)
    requires chains(0) == [HoldBack, WORKS]
    ensures var current := Message(0, [Dispatch(1, 0, Envelope(HoldsThenRaises(later, code), []), [], true)]);
            var r := AsCurrent(chains, [WORKS], Envelope(current, []));
            && r.outcome == Returned(Envelope(current, []))
            && r.trace == [Entered(0, 0), Entered(0, 1), Left(0, 0), Entered(0, later), Left(0, later)]
  {
    var inner := Envelope(HoldsThenRaises(later, code), []);
    var current := Message(0, [Dispatch(1, 0, inner, [], true)]);
    var held := Item(Envelope(Message(later, []), []), [WORKS]);
    HoldingThenRaising(chains, later, code);
    assert inner.WithStamps([]) == inner;
    assert current.actions[1..] == [] && [WORKS][1..] == [];
    assert InlineScript(chains, current.actions, 1) == Script([Entered(0, 1)], [held], None);
    assert InlineScript(chains, current.actions, 2) == Script([], [], None);
    assert Envelope(current, []).WithStamps([]) == Envelope(current, []);
    assert Inline(chains, [WORKS], Envelope(current, []))
           == Ran([Entered(0, 0), Entered(0, 1), Left(0, 0)], [held], Returned(Envelope(current, [])));
    assert held.envelope.WithStamps([]) == held.envelope;
    assert Inline(chains, [], held.envelope) == Ran([], [], Returned(held.envelope));
    assert InlineScript(chains, held.envelope.message.actions, 1) == InlineScript(chains, held.envelope.message.actions, 2)
           == Script([], [], None);
    assert [Entered(0, later)] + [] + ([] + [] + [Left(0, later)]) == [Entered(0, later), Left(0, later)];
    assert Resume(chains, held) == Ran([Entered(0, later), Left(0, later)], [], Returned(held.envelope));
    assert [held][1..] + [] == [];
    assert Drain(chains, [held]) == Drained([Entered(0, later), Left(0, later)], []);
  }

  // ---------------------------------------------------------------------------------------------
  // What the stamp decides, and what it does not
  // ---------------------------------------------------------------------------------------------

  lemma BareIsBare(e: Envelope<Message>)
    ensures Bare(e).Last(IsDispatchAfter) == None && Bare(e).message == e.message
    ensures Bare(Bare(e)) == Bare(e)
    ensures forall of: Stamp -> bool :: (forall x :: of(x) ==> !IsDispatchAfter(x)) ==> Bare(e).All(of) == e.All(of)
  {
    WithoutKeepsTheOthers(e, IsDispatchAfter, x => false);
    forall of: Stamp -> bool | forall x :: of(x) ==> !IsDispatchAfter(x) ensures Bare(e).All(of) == e.All(of) {
      WithoutKeepsTheOthers(e, IsDispatchAfter, of);
    }
  }

  /**
   While a message is being handled, a stamped one is held back with the rest of its chain, and nothing of it runs;
   one without the stamp runs as if the hold-back middleware were not there.
   */
  lemma HeldBackExactly(chains: Chains, rest: seq<Middleware>, e: Envelope<Message>)
    ensures Run(chains, true, [HoldBack] + rest, e)
            == if e.Last(IsDispatchAfter).Some? then Ran([], [Item(Bare(e), rest)], Returned(Bare(e)))
               else Run(chains, true, rest, e)
  {
    assert ([HoldBack] + rest)[1..] == rest;
  }

  /**
   With nothing being handled, the stamp makes no difference: the message is the current one. Its trace begins with what
   its chain does inline; if that raised nothing else happens, otherwise each message held back follows once, in the
   order held, and what is raised is exactly what they raised.
   */
  lemma OutermostIsCurrent(chains: Chains, rest: seq<Middleware>, e: Envelope<Message>, order: seq<Item>)
    requires order == Run(chains, true, rest, Bare(e)).held + HeldBy(chains, order)
    ensures var own := Run(chains, true, rest, Bare(e));
            var r := Run(chains, false, [HoldBack] + rest, e);
            && r == Run(chains, false, [HoldBack] + rest, Bare(e))
            && r.held == [] && own.trace <= r.trace
            && if own.outcome.Failed? then r.trace == own.trace && r.outcome == own.outcome
               else
                 && r.trace == own.trace + Traces(chains, order)
                 && (r.outcome == own.outcome <==> Failures(chains, order) == [])
                 && (Failures(chains, order) != [] ==>
                       r.outcome == Failed(DelayedMessageHandling(own.outcome.envelope, Failures(chains, order))))
  {
    BareIsBare(e);
    assert ([HoldBack] + rest)[1..] == rest;
    CurrentThenHeld(chains, rest, Bare(e), order);
  }

  /** So it enters the middleware after the hold-back, stamped or not. */
  lemma OutermostEnters(chains: Chains, w: Middleware, rest: seq<Middleware>, e: Envelope<Message>)
    requires w.Work?
    ensures var r := Run(chains, false, [HoldBack, w] + rest, e);
            r.trace != [] && r.trace[0] == Entered(w.tag, e.message.name)
  {
    var inner := [w] + rest;
    assert [HoldBack, w] + rest == [HoldBack] + inner;
    BareIsBare(e);
    RunWork(chains, true, w, rest, Bare(e));
    var own := Run(chains, true, inner, Bare(e));
    assert own.trace[0] == Entered(w.tag, e.message.name);
    ResumedInTheOrderHeld(chains, own.held, Resumed(chains, own.held));
    OutermostIsCurrent(chains, inner, e, Resumed(chains, own.held));
  }

  // ---------------------------------------------------------------------------------------------
  // Chains and scripts
  // ---------------------------------------------------------------------------------------------

  function Marks(chain: seq<Middleware>): seq<Stamp> {
    if chain == [] then [] else (if chain[0].Work? then chain[0].marks else []) + Marks(chain[1..])
  }

  /** Each middleware entered in order, and left in the opposite order. */
  function InAndOut(chain: seq<Middleware>, name: nat): seq<Event> {
    if chain == [] then []
    else
      var inner := InAndOut(chain[1..], name);
      if chain[0].Work? then [Entered(chain[0].tag, name)] + inner + [Left(chain[0].tag, name)] else inner
  }

  /**
   The composition. A message that asks for nothing goes through every middleware of its chain once, in order, each
   around the rest, and comes back with what each marked it with; past the last one it is returned as it is.
   */
  lemma {:induction false} ChainIsComposed(chains: Chains, open: bool, chain: seq<Middleware>, e: Envelope<Message>)
    requires e.message.actions == [] && forall w :: w in chain ==> w.Work? && w.passesOn
    ensures Run(chains, open, chain, e) == Ran(InAndOut(chain, e.message.name), [], Returned(e.WithStamps(Marks(chain))))
    decreases |chain|
  {
    if chain == [] {
      assert e.stamps + [] == e.stamps;
    } else {
      var w, rest := chain[0], chain[1..];
      var marked := e.WithStamps(w.marks);
      assert chain == [w] + rest;
      ChainIsComposed(chains, open, rest, marked);
      Associates(e.stamps, w.marks, Marks(rest));
      RunWork(chains, open, w, rest, e);
      assert [Entered(w.tag, e.message.name)] + [] == [Entered(w.tag, e.message.name)];
      assert InAndOut(rest, e.message.name) + [] == InAndOut(rest, e.message.name);
      Associates([Entered(w.tag, e.message.name)], InAndOut(rest, e.message.name), [Left(w.tag, e.message.name)]);
    }
  }

  /** The steps of a script that are its middleware's to run, in order. */
  function StepsAt(actions: seq<Action>, tag: nat): seq<Action> {
    if actions == [] then []
    else (if actions[0].at == tag then [actions[0]] else []) + StepsAt(actions[1..], tag)
  }

  /** What dispatching one step comes to. */
  function RanBy(chains: Chains, open: bool, a: Action): Ran
    requires a.Dispatch?
  {
    Run(chains, open, chains(a.bus), a.payload.WithStamps(a.stamps))
  }

  /** A step the script goes on after: a dispatch that returned, or whose failure is caught. */
  predicate GoesOnAfter(chains: Chains, open: bool, a: Action) {
    a.Dispatch? && (a.guarded || RanBy(chains, open, a).outcome.Returned?)
  }

  function TraceOf(chains: Chains, open: bool, a: Action): seq<Event> {
    if a.Dispatch? then RanBy(chains, open, a).trace else []
  }

  function HeldIn(chains: Chains, open: bool, a: Action): seq<Item> {
    if a.Dispatch? then RanBy(chains, open, a).held else []
  }

  /** The first `n` steps ran and no more: all were gone on after but the last, which was the end or raised. */
  ghost predicate RunsFirst(chains: Chains, open: bool, steps: seq<Action>, n: nat, r: Script) {
    && n <= |steps|
    && r.trace == FlatMap((a: Action) => TraceOf(chains, open, a), steps[..n])
    && r.held == FlatMap((a: Action) => HeldIn(chains, open, a), steps[..n])
    && (forall i :: 0 <= i < n - 1 ==> GoesOnAfter(chains, open, steps[i]))
    && (r.error == None ==> n == |steps| && forall i :: 0 <= i < n ==> GoesOnAfter(chains, open, steps[i]))
    && (r.error.Some? ==> n > 0 && Raises(chains, open, steps[n - 1], r.error.value))
  }

  predicate Raises(chains: Chains, open: bool, a: Action, error: Error) {
    match a
    case Raise(_, code) => error == Raised(code)
    case Dispatch(_, _, _, _, guarded) => !guarded && RanBy(chains, open, a).outcome == Failed(error)
  }

  lemma RunsOneMore(chains: Chains, open: bool, steps: seq<Action>, n: nat, first: Action, rest: Script)
    requires RunsFirst(chains, open, steps, n, rest) && GoesOnAfter(chains, open, first)
    ensures RunsFirst(chains, open, [first] + steps, n + 1, Then(RanBy(chains, open, first), first.guarded, rest))
  {
    assert ([first] + steps)[..n + 1] == [first] + steps[..n];
    FlatMapFirst((a: Action) => TraceOf(chains, open, a), first, steps[..n]);
    FlatMapFirst((a: Action) => HeldIn(chains, open, a), first, steps[..n]);
  }

  lemma RunsOnlyFirst(chains: Chains, open: bool, first: Action, steps: seq<Action>, error: Error)
    requires Raises(chains, open, first, error)
    ensures RunsFirst(chains, open, [first] + steps, 1,
                      Script(TraceOf(chains, open, first), HeldIn(chains, open, first), Some(error)))
  {
    assert ([first] + steps)[..1] == [first] + [];
    FlatMapFirst((a: Action) => TraceOf(chains, open, a), first, []);
    FlatMapFirst((a: Action) => HeldIn(chains, open, a), first, []);
  }

  /**
   A script runs its steps in order, each dispatch by itself, up to the first that raises and is not caught, and ends
   with what that raised; a failure that is caught stops nothing.
   */
  lemma {:induction false} ScriptStopsAtFirstFailure(chains: Chains, open: bool, actions: seq<Action>, tag: nat)
    ensures exists n: nat :: RunsFirst(chains, open, StepsAt(actions, tag), n, RunScript(chains, open, actions, tag))
    decreases |actions|
  {
    if actions == [] {
      assert RunsFirst(chains, open, StepsAt(actions, tag), 0, RunScript(chains, open, actions, tag));
    } else {
      var a, rest := actions[0], actions[1..];
      ScriptStopsAtFirstFailure(chains, open, rest, tag);
      var more := RunScript(chains, open, rest, tag);
      var n: nat :| RunsFirst(chains, open, StepsAt(rest, tag), n, more);
      if a.at != tag {
        assert [] + StepsAt(rest, tag) == StepsAt(rest, tag);
        assert RunsFirst(chains, open, StepsAt(actions, tag), n, RunScript(chains, open, actions, tag));
      } else if GoesOnAfter(chains, open, a) {
        RunsOneMore(chains, open, StepsAt(rest, tag), n, a, more);
        assert RunsFirst(chains, open, StepsAt(actions, tag), n + 1, RunScript(chains, open, actions, tag));
      } else {
        RunsOnlyFirst(chains, open, a, StepsAt(rest, tag),
                      if a.Raise? then Raised(a.code) else RanBy(chains, open, a).outcome.error);
        assert RunsFirst(chains, open, StepsAt(actions, tag), 1, RunScript(chains, open, actions, tag));
      }
    }
  }
}
