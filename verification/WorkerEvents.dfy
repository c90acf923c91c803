/** What a worker's surroundings can see of it, and what can go wrong around it. */
module WorkerEvents {
  import opened Envelopes

  type Env = Envelope<nat>

  /** An exception. One raised by handlers holds what each of them raised, in order. */
  datatype Failure = Plain(exceptionClass: string, text: string) | HandlersFailed(text: string, errors: seq<Failure>)

  /**
   What the worker does, and what its surroundings do to it: `Arrived` is the receiver delivering to a fetch; `Heard`
   is what a listener left on the envelope it was told of, `SkipAsked` that it decided against handling it, `BusReturned`
   what the dispatch came to, and `Threw` what a listener or the dispatch raised. `Broke` is what nothing catches: raised
   by the receiver, a settlement, the resetter, or a listener told of a failure or of the worker itself.
   */
  datatype Event =
    | StopAsked
    | Started
    | Arrived(envelope: Env)
    | Collected(envelope: Env)
    | MessageReceived(name: string, envelope: Env)
    | Heard(added: seq<Stamp>)
    | SkipAsked
    | Threw(error: Failure)
    | Broke(error: Failure)
    | BusCalled(envelope: Env)
    | BusReturned(envelope: Env)
    | MessageHandled(name: string, envelope: Env)
    | MessageFailed(name: string, envelope: Env, error: Failure)
    | Acked(envelope: Env)
    | Rejected(envelope: Env)
    | Reset
    | Running
    | Closed
    | Stopped

  /** What the receiver delivered, in order. */
  function Arrivals(events: seq<Event>): seq<Env> {
    if events == [] then []
    else
      var before := Arrivals(events[..|events| - 1]);
      if events[|events| - 1].Arrived? then before + [events[|events| - 1].envelope] else before
  }

  /** What the worker collected, in order. */
  function Collections(events: seq<Event>): seq<Env> {
    if events == [] then []
    else
      var before := Collections(events[..|events| - 1]);
      if events[|events| - 1].Collected? then before + [events[|events| - 1].envelope] else before
  }

  lemma OneMoreEvent(events: seq<Event>, e: Event)
    ensures Arrivals(events + [e]) == if e.Arrived? then Arrivals(events) + [e.envelope] else Arrivals(events)
    ensures Collections(events + [e]) == if e.Collected? then Collections(events) + [e.envelope] else Collections(events)
  {
    assert (events + [e])[..|events + [e]| - 1] == events;
  }

  lemma {:induction false} ArrivalsJoin(a: seq<Event>, b: seq<Event>)
    ensures Arrivals(a + b) == Arrivals(a) + Arrivals(b)
  {
    if b == [] {
      assert a + b == a;
    } else {
      var less, n := b[..|b| - 1], |a + b| - 1;
      assert (a + b)[..n] == a + less && (a + b)[n] == b[|b| - 1];
      ArrivalsJoin(a, less);
      if b[|b| - 1].Arrived? {
        Associates(Arrivals(a), Arrivals(less), [b[|b| - 1].envelope]);
      }
    }
  }

  lemma {:induction false} CollectionsJoin(a: seq<Event>, b: seq<Event>)
    ensures Collections(a + b) == Collections(a) + Collections(b)
  {
    if b == [] {
      assert a + b == a;
    } else {
      var less, n := b[..|b| - 1], |a + b| - 1;
      assert (a + b)[..n] == a + less && (a + b)[n] == b[|b| - 1];
      CollectionsJoin(a, less);
      if b[|b| - 1].Collected? {
        Associates(Collections(a), Collections(less), [b[|b| - 1].envelope]);
      }
    }
  }

  /** What happened since the last message was collected, beginning with that; nothing when none was. */
  function Since(events: seq<Event>): seq<Event> {
    if events == [] then []
    else
      var before, e := Since(events[..|events| - 1]), events[|events| - 1];
      if e.Collected? then [e] else if before == [] then [] else before + [e]
  }

  function FirstThrown(events: seq<Event>): Option<Failure> {
    if events == [] then None
    else
      var before, e := FirstThrown(events[..|events| - 1]), events[|events| - 1];
      if before.Some? then before else if e.Threw? then Some(e.error) else None
  }

  lemma OneMoreSince(events: seq<Event>, e: Event)
    ensures Since(events + [e]) == if e.Collected? then [e] else if Since(events) == [] then [] else Since(events) + [e]
  {
    assert (events + [e])[..|events + [e]| - 1] == events;
  }

  lemma OneMoreThrown(events: seq<Event>, e: Event)
    ensures FirstThrown(events + [e])
            == if FirstThrown(events).Some? then FirstThrown(events) else if e.Threw? then Some(e.error) else None
  {
    assert (events + [e])[..|events + [e]| - 1] == events;
  }

  /** What was raised and caught by nothing, in order. */
  function Breaks(events: seq<Event>): seq<Failure> {
    if events == [] then []
    else (if events[0].Broke? then [events[0].error] else []) + Breaks(events[1..])
  }

  function LastOf(failures: seq<Failure>): Option<Failure> {
    if failures == [] then None else Some(failures[|failures| - 1])
  }

  lemma {:induction false} BreaksJoin(a: seq<Event>, b: seq<Event>)
    ensures Breaks(a + b) == Breaks(a) + Breaks(b)
  {
    if a == [] {
      assert a + b == b;
    } else {
      assert (a + b)[0] == a[0] && (a + b)[1..] == a[1..] + b;
      BreaksJoin(a[1..], b);
      Associates(if a[0].Broke? then [a[0].error] else [], Breaks(a[1..]), Breaks(b));
    }
  }

  lemma {:induction false} NothingBreaks(events: seq<Event>)
    requires forall x :: x in events ==> !x.Broke?
    ensures Breaks(events) == []
  {
    if events != [] {
      NothingBreaks(events[1..]);
    }
  }

  lemma {:induction false} NothingCollected(events: seq<Event>)
    requires forall x :: x in events ==> !x.Collected?
    ensures Collections(events) == []
  {
    if events != [] {
      NothingCollected(events[..|events| - 1]);
    }
  }

  lemma OneBreak(error: Failure)
    ensures Breaks([Broke(error)]) == [error]
  {
    assert [Broke(error)][1..] == [];
  }

  lemma OneMoreBreak(events: seq<Event>, e: Event)
    ensures Breaks(events + [e]) == if e.Broke? then Breaks(events) + [e.error] else Breaks(events)
  {
    BreaksJoin(events, [e]);
    assert [e][1..] == [];
  }
}
