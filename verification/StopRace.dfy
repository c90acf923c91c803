/**
 Waiting for the next message and for a stop at once.

 The wait holds two asyncio tasks: one fetches the receiver's next message, one waits for the stop. They end, the
 stop is asked for and the wait wakes up in any order. Any sequence of moves is a run; a move that is not possible,
 or that comes when the wait is over, changes nothing.
 */
module StopRace {
  import opened Envelopes
  import opened WorkerEvents

  datatype Fetch = NotStarted | Pending | Delivered(envelope: Env) | Dry | Failed(error: Failure) | Cancelled

  datatype Phase = Waiting | Cancelling | Returned(envelope: Option<Env>) | Raised(error: Failure)

  /** `stopped` is the event the worker's `stop` sets; `halted` says that the wait for it ended. `events` is a history. */
  datatype Wait = Wait(stopped: bool, fetch: Fetch, halted: bool, phase: Phase, events: seq<Event>)

  datatype Move =
    | Ask
    | FetchEnds(outcome: Fetch)
    | HaltEnds
    | Wake

  function Begin(stopped: bool): Wait {
    if stopped then Wait(true, NotStarted, false, Returned(None), []) else Wait(false, Pending, false, Waiting, [])
  }

  predicate Over(w: Wait) {
    w.phase.Returned? || w.phase.Raised?
  }

  predicate Ended(f: Fetch) {
    !f.NotStarted? && !f.Pending?
  }

  /** What is returned, or raised, once the fetch ended. */
  function ResultOf(f: Fetch): Phase
    requires Ended(f)
  {
    match f
    case Delivered(e) => Returned(Some(e))
    case Dry => Returned(None)
    case Failed(error) => Raised(error)
    case Cancelled => Returned(None)
  }

  /** One of the two ended: a fetch still pending is cancelled and waited for. */
  function Woken(w: Wait): Wait {
    if w.phase.Waiting? && w.fetch.Pending? then (if w.halted then w.(phase := Cancelling) else w)
    else if Ended(w.fetch) then w.(phase := ResultOf(w.fetch))
    else w
  }

  /** What the end of the fetch shows: a delivery, or a receiver that raised. */
  function Seen(outcome: Fetch): seq<Event> {
    match outcome
    case Delivered(e) => [Arrived(e)]
    case Failed(error) => [Broke(error)]
    case _ => []
  }

  function Apply(w: Wait, m: Move): Wait {
    if Over(w) then w
    else
      match m
      case Ask => w.(stopped := true, events := w.events + [StopAsked])
      case FetchEnds(outcome) =>
        if !w.fetch.Pending? || !Ended(outcome) then w
        else w.(fetch := outcome, events := w.events + Seen(outcome))
      case HaltEnds => w.(halted := w.stopped)
      case Wake => Woken(w)
  }

  function Run(w: Wait, moves: seq<Move>): Wait
    decreases |moves|
  {
    if moves == [] then w else Run(Apply(w, moves[0]), moves[1..])
  }

  // ---------------------------------------------------------------------------------------------
  // What every run keeps
  // ---------------------------------------------------------------------------------------------

  /** What was seen is what the fetch came to. */
  ghost predicate EventsRight(w: Wait) {
    && Arrivals(w.events) == (if w.fetch.Delivered? then [w.fetch.envelope] else [])
    && Breaks(w.events) == (if w.fetch.Failed? then [w.fetch.error] else [])
    && Collections(w.events) == []
    && (forall e :: e in w.events ==> e.StopAsked? || e.Arrived? || e.Broke?)
  }

  ghost predicate StepsRight(w: Wait) {
    && (w.halted || w.phase.Cancelling? || StopAsked in w.events ==> w.stopped)
    && (w.fetch.NotStarted? ==> w == Begin(true))
    && (w.stopped && !w.fetch.NotStarted? ==> StopAsked in w.events)
    && (Over(w) ==> w == Begin(true) || (Ended(w.fetch) && w.phase == ResultOf(w.fetch)))
  }

  ghost predicate Sound(w: Wait) {
    EventsRight(w) && StepsRight(w)
  }

  lemma EventsStayRight(w: Wait, m: Move)
    requires EventsRight(w) && !Over(w)
    ensures EventsRight(Apply(w, m))
  {
    if m.Ask? {
      OneMoreEvent(w.events, StopAsked);
      OneMoreBreak(w.events, StopAsked);
    } else if m.FetchEnds? && w.fetch.Pending? && Ended(m.outcome) {
      SeenStaysRight(w, m.outcome);
    }
  }

  lemma SeenStaysRight(w: Wait, outcome: Fetch)
    requires EventsRight(w) && w.fetch.Pending? && Ended(outcome)
    ensures EventsRight(w.(fetch := outcome, events := w.events + Seen(outcome)))
  {
    match outcome
    case Delivered(e) =>
      OneMoreEvent(w.events, Arrived(e));
      OneMoreBreak(w.events, Arrived(e));
    case Failed(error) =>
      OneMoreEvent(w.events, Broke(error));
      OneMoreBreak(w.events, Broke(error));
    case Dry => assert w.events + [] == w.events;
    case Cancelled => assert w.events + [] == w.events;
  }

  lemma StepsStayRight(w: Wait, m: Move)
    requires StepsRight(w) && !Over(w)
    ensures StepsRight(Apply(w, m))
  {
    var v := Apply(w, m);
    assert StopAsked in v.events <==> StopAsked in w.events || m.Ask?;
  }

  lemma ApplyKeeps(w: Wait, m: Move)
    requires Sound(w)
    ensures Sound(Apply(w, m))
  {
    if !Over(w) {
      EventsStayRight(w, m);
      StepsStayRight(w, m);
    }
  }

  lemma {:induction false} RunKeeps(w: Wait, moves: seq<Move>)
    requires Sound(w)
    ensures Sound(Run(w, moves))
    decreases |moves|
  {
    if moves != [] {
      ApplyKeeps(w, moves[0]);
      RunKeeps(Apply(w, moves[0]), moves[1..]);
    }
  }

  /**
   However the fetch, the stop and the wake-ups interleave: a wait that is over returned an envelope exactly when the
   receiver delivered it, together with the stop or to a fetch already cancelled included. It returned nothing only if
   the stop was set before it began, the receiver ran dry, or the fetch was cancelled, and raised only what the fetch
   failed with.
   */
  lemma ReturnsWhatArrived(stopped: bool, moves: seq<Move>)
    requires Over(Run(Begin(stopped), moves))
    ensures var w := Run(Begin(stopped), moves);
            && (forall e :: w.phase == Returned(Some(e)) <==> Arrivals(w.events) == [e])
            && |Arrivals(w.events)| <= 1
            && (w.phase == Returned(None) <==> stopped || w.fetch.Dry? || w.fetch.Cancelled?)
            && (forall error :: w.phase == Raised(error) <==> w.fetch == Failed(error))
            && Breaks(w.events) == (if w.phase.Raised? then [w.phase.error] else [])
            && (w.stopped <==> stopped || StopAsked in w.events)
  {
    RunKeeps(Begin(stopped), moves);
    if stopped {
      StopAlreadySet(moves);
    } else {
      HasStarted(Begin(false), moves);
    }
  }

  lemma {:induction false} HasStarted(w: Wait, moves: seq<Move>)
    requires !w.fetch.NotStarted?
    ensures !Run(w, moves).fetch.NotStarted?
    decreases |moves|
  {
    if moves != [] {
      HasStarted(Apply(w, moves[0]), moves[1..]);
    }
  }

  /** With the stop set before the wait begins, it is over at once: no fetch is started, whatever happens. */
  lemma {:induction false} StopAlreadySet(moves: seq<Move>)
    ensures Run(Begin(true), moves) == Begin(true)
    decreases |moves|
  {
    if moves != [] {
      StopAlreadySet(moves[1..]);
    }
  }

  // ---------------------------------------------------------------------------------------------
  // Once stopped, the wait ends
  // ---------------------------------------------------------------------------------------------

  /** How many steps of its own a stopped wait still has before it. */
  function StepsLeft(w: Wait): nat {
    match w.phase
    case Waiting => if w.halted then 2 else 3
    case Cancelling => 1
    case _ => 0
  }

  /** The next step of the wait itself: it is told of the stop, then wakes up. */
  function OwnStep(w: Wait): Move {
    if w.phase.Waiting? && !w.halted then HaltEnds else Wake
  }

  /**
   Once the stop is set, no further delivery is needed. Whatever happens, the steps left never grow, and each step of
   the wait's own brings the end nearer; the one thing it waits for is that the fetch it cancelled ends, in whichever
   way.
   */
  lemma StoppedWaitEnds(stopped: bool, moves: seq<Move>, m: Move)
    ensures var w := Run(Begin(stopped), moves);
            w.stopped ==>
              && Apply(w, m).stopped && StepsLeft(Apply(w, m)) <= StepsLeft(w)
              && (StepsLeft(w) == 0 <==> Over(w))
              && (!Over(w) && !(w.phase.Cancelling? && w.fetch.Pending?) ==> StepsLeft(Apply(w, OwnStep(w))) < StepsLeft(w))
  {
    RunKeeps(Begin(stopped), moves);
  }

  /** For instance: from any point a stop, three steps of the wait and the end of the cancelled fetch are enough. */
  lemma StopEndsTheWait(stopped: bool, moves: seq<Move>)
    ensures var asked := Apply(Run(Begin(stopped), moves), Ask);
            var cancelling := Apply(Apply(asked, HaltEnds), Wake);
            && Over(Apply(Apply(cancelling, FetchEnds(Cancelled)), Wake))
            && Arrivals(cancelling.events) == Arrivals(asked.events)
  {
    RunKeeps(Begin(stopped), moves);
    ApplyKeeps(Run(Begin(stopped), moves), Ask);
    HaltIsTold(Apply(Run(Begin(stopped), moves), Ask));
  }

  lemma HaltIsTold(w: Wait)
    requires Sound(w) && (Over(w) || w.stopped)
    ensures var cancelling := Apply(Apply(w, HaltEnds), Wake);
            Over(Apply(Apply(cancelling, FetchEnds(Cancelled)), Wake)) && cancelling.events == w.events
  {
    if !Over(w) {
      WakesToCancel(Apply(w, HaltEnds));
    }
  }

  lemma WakesToCancel(w: Wait)
    requires !Over(w) && (w.halted || w.phase.Cancelling?) && !w.fetch.NotStarted?
    ensures var cancelling := Apply(w, Wake);
            Over(Apply(Apply(cancelling, FetchEnds(Cancelled)), Wake)) && cancelling.events == w.events
  {
  }

  /** The fetch ends before anything else happens. */
  function AtOnce(outcome: Fetch): (moves: seq<Move>)
    requires Ended(outcome)
    ensures var w := Run(Begin(false), moves);
            && w.phase == ResultOf(outcome) && !w.stopped
            && w.events == Seen(outcome)
  {
    var moves := [FetchEnds(outcome), Wake];
    assert [] + Seen(outcome) == Seen(outcome);
    assert moves[1..] == [Wake] && [Wake][1..] == [];
    moves
  }

  /** A wait seen to its end. */
  type Waited = moves: seq<Move> | Over(Run(Begin(false), moves)) ghost witness AtOnce(Dry)

  lemma EndsEitherWay(stopped: bool, moves: Waited)
    ensures Over(Run(Begin(stopped), moves))
  {
    if stopped {
      StopAlreadySet(moves);
    }
  }
}
