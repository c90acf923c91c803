/**
 What one worker does, over every pattern of what its surroundings do to it: which messages arrive,
 what the bus, the listeners, the transport and the resetter raise, and when it is asked to stop.
 */
module WorkerSpec {
  import opened Envelopes
  import opened WorkerEvents
  import R = StopRace

  datatype Config = Config(dispatcher: bool, resetter: bool, receiverName: Option<string>)

  datatype Listener = Listener(added: seq<Stamp>, raises: Option<Failure>)

  datatype Bus = Dispatched(result: Env) | Raises(error: Failure)

  /** What happens while the worker waits for a message and around that message, and where a stop is asked for. */
  datatype Round = Round(
    waiting: R.Waited, received: Listener, skips: bool, bus: Bus, handled: Listener, failed: Listener,
    settleRaises: Option<Failure>, resetRaises: Option<Failure>, runningRaises: Option<Failure>,
    stopInHand: bool, stopOnceSettled: bool, stopWhileRunning: bool)

  /** What happens around one run. */
  datatype Session = Session(
    startRaises: Option<Failure>, stopWhileStarting: bool, rounds: seq<Round>,
    stopWhileClosing: bool, closeRaises: Option<Failure>, stoppedRaises: Option<Failure>)

  /** The worker's two fields: the event of the run going on, set or not, and a stop asked for before it. */
  datatype Control = Control(stopped: Option<bool>, stopRequested: bool)

  datatype Result = Handled(envelope: Env) | Skipped(envelope: Env) | Failed(envelope: Env, error: Failure)

  datatype Done = Done(events: seq<Event>, raised: Option<Failure>)

  function Announced(cfg: Config, e: Event): seq<Event> {
    if cfg.dispatcher then [e] else []
  }

  function Asked(asked: bool): seq<Event> {
    if asked then [StopAsked] else []
  }

  /** What nothing catches, if it was raised. */
  function Broken(raised: Option<Failure>): seq<Event> {
    if raised.Some? then [Broke(raised.value)] else []
  }

  function ReceivedFrom(e: Env): string {
    match e.Last(IsReceived)
    case Some(Received(name)) => name
    case _ => ""
  }

  function NameOf(cfg: Config, e: Env): string {
    if cfg.receiverName.Some? then cfg.receiverName.value else ReceivedFrom(e)
  }

  /** The envelope the handlers see: received under the name the worker was built for. */
  function InHand(cfg: Config, e: Env): Env {
    if cfg.receiverName.Some? && e.Last(IsReceived) != Some(Received(cfg.receiverName.value))
    then e.WithStamps([Received(cfg.receiverName.value)]) else e
  }

  /** What went wrong is what a handler raised, not that handlers failed. */
  function CauseOf(error: Failure): Failure {
    if error.HandlersFailed? && error.errors != [] then error.errors[0] else error
  }

  function Reason(error: Failure): Stamp {
    match CauseOf(error)
    case Plain(c, t) => ErrorDetails(c, t)
    case HandlersFailed(t, _) => ErrorDetails("HandlersFailedError", t)
  }

  /** A listener is told: it leaves what it added, or raises. */
  function Notified(e: Event, l: Listener): seq<Event> {
    [e, if l.raises.Some? then Threw(l.raises.value) else Heard(l.added)]
  }

  function BusAsked(x: Env, bus: Bus): seq<Event> {
    [BusCalled(x), if bus.Raises? then Threw(bus.error) else BusReturned(bus.result)]
  }

  /** `handle`: announce the message, dispatch it unless skipped, announce it handled. */
  function Handling(cfg: Config, name: string, e: Env, r: Round): (seq<Event>, Result) {
    if !cfg.dispatcher then Dispatching(cfg, name, e, r)
    else
      var heard := Notified(MessageReceived(name, e), r.received);
      if r.received.raises.Some? then (heard, Failed(e, r.received.raises.value))
      else
        var current := e.WithStamps(r.received.added);
        if r.skips then (heard + [SkipAsked], Skipped(current))
        else
          var (events, result) := Dispatching(cfg, name, current, r);
          (heard + events, result)
  }

  function Dispatching(cfg: Config, name: string, e: Env, r: Round): (seq<Event>, Result) {
    var asked := BusAsked(e, r.bus);
    if r.bus.Raises? then (asked, Failed(e, r.bus.error))
    else if !cfg.dispatcher then (asked, Result.Handled(r.bus.result))
    else
      (asked + Notified(MessageHandled(name, r.bus.result), r.handled),
       if r.handled.raises.Some? then Failed(r.bus.result, r.handled.raises.value)
       else Result.Handled(r.bus.result.WithStamps(r.handled.added)))
  }

  /** A later exception takes the place of an earlier one. */
  function Over(later: Option<Failure>, earlier: Option<Failure>): Option<Failure> {
    if later.Some? then later else earlier
  }

  /** Settle what handling came to: ack, or announce why it failed and reject, whatever a listener raises. */
  function Settling(cfg: Config, name: string, result: Result, r: Round): Done {
    if !result.Failed? then Done([Acked(result.envelope)] + Broken(r.settleRaises), r.settleRaises)
    else
      var stamped := result.envelope.WithStamps([Reason(result.error)]);
      if !cfg.dispatcher then Done([Rejected(stamped)] + Broken(r.settleRaises), r.settleRaises)
      else
        Done(FailureNotified(name, stamped, result.error, r.failed)
             + ([Rejected(stamped.WithStamps(r.failed.added))] + Broken(r.settleRaises)),
             Over(r.settleRaises, r.failed.raises))
  }

  /** What a listener told of a failure left on the envelope stays, whether it raised then or not. */
  function FailureNotified(name: string, stamped: Env, error: Failure, l: Listener): seq<Event> {
    [MessageFailed(name, stamped, error), Heard(l.added)] + Broken(l.raises)
  }

  function Resets(cfg: Config, r: Round): seq<Event> {
    if cfg.resetter then [Reset] + Broken(r.resetRaises) else []
  }

  /** `_settle`: everything that happens with one collected message in hand. */
  function Settled(cfg: Config, e: Env, r: Round): Done {
    var name := NameOf(cfg, e);
    var (handling, result) := Handling(cfg, name, InHand(cfg, e), r);
    var settling := Settling(cfg, name, result, r);
    Done(Asked(r.stopInHand) + handling + settling.events + Asked(r.stopOnceSettled) + Resets(cfg, r),
         Over(if cfg.resetter then r.resetRaises else None, settling.raised))
  }

  /** The wait for a message, begun with a stop set or not. */
  function Waited(stop: bool, r: Round): R.Wait {
    R.Run(R.Begin(stop), r.waiting)
  }

  /** Everything from the wait for a message to its settlement. */
  function Collecting(cfg: Config, waited: seq<Event>, e: Env, r: Round): seq<Event> {
    waited + [Collected(e)] + Settled(cfg, e, r).events
  }

  function Announcement(cfg: Config, r: Round): seq<Event> {
    Announced(cfg, Running) + Asked(r.stopWhileRunning) + (if cfg.dispatcher then Broken(r.runningRaises) else [])
  }

  /** The loop of a run, from a state where a stop was asked for or not. */
  function Loop(cfg: Config, stop: bool, rounds: seq<Round>): Done
    decreases |rounds|
  {
    if rounds == [] then Done([], None)
    else
      var r := rounds[0];
      var w := Waited(stop, r);
      R.EndsEitherWay(stop, r.waiting);
      match w.phase
      case Raised(error) => Done(w.events, Some(error))
      case Returned(None) => Done(w.events, None)
      case Returned(Some(e)) =>
        var raised := Settled(cfg, e, r).raised;
        if raised.Some? then Done(Collecting(cfg, w.events, e, r), raised)
        else if cfg.dispatcher && r.runningRaises.Some? then
          Done(Collecting(cfg, w.events, e, r) + Announcement(cfg, r), r.runningRaises)
        else
          var later := Loop(cfg, w.stopped || StopsIn(r), rounds[1..]);
          Done(Collecting(cfg, w.events, e, r) + Announcement(cfg, r) + later.events, later.raised)
  }

  /** A stop that is set is met before anything is fetched. */
  lemma LoopOnceStopped(cfg: Config, rounds: seq<Round>)
    ensures Loop(cfg, true, rounds) == Done([], None)
  {
    if rounds != [] {
      R.StopAlreadySet(rounds[0].waiting);
    }
  }

  /** What a round that begins with no stop set collects, if anything. */
  function Got(r: Round): Option<Env> {
    match Waited(false, r).phase
    case Returned(e) => e
    case _ => None
  }

  predicate StopsIn(r: Round) {
    r.stopInHand || r.stopOnceSettled || r.stopWhileRunning
  }

  /** `stop`: set the event of the run going on, or leave word for the next. */
  function AfterStop(c: Control): Control {
    if c.stopped.Some? then c.(stopped := Some(true)) else c.(stopRequested := true)
  }

  /** The run starting: a stop left for it is taken up. Should starting raise, its event stays behind. */
  function AfterRun(cfg: Config, c: Control, s: Session): Control {
    if s.startRaises.Some? then Control(Some(c.stopRequested || s.stopWhileStarting), false)
    else Control(None, s.stopWhileClosing)
  }

  function Starting(cfg: Config, s: Session): seq<Event> {
    Announced(cfg, Started) + Asked(s.stopWhileStarting) + Broken(s.startRaises)
  }

  function Closing(cfg: Config, s: Session): seq<Event> {
    Asked(s.stopWhileClosing) + [Closed]
    + (if s.closeRaises.Some? then Broken(s.closeRaises)
       else Announced(cfg, Stopped) + (if cfg.dispatcher then Broken(s.stoppedRaises) else []))
  }

  /** `run`. */
  function Ran(cfg: Config, c: Control, s: Session): Done {
    if s.startRaises.Some? then Done(Starting(cfg, s), s.startRaises)
    else
      var loop := Loop(cfg, c.stopRequested || s.stopWhileStarting, s.rounds);
      Done(Starting(cfg, s) + loop.events + Closing(cfg, s),
           if s.closeRaises.Some? then s.closeRaises
           else Over(if cfg.dispatcher then s.stoppedRaises else None, loop.raised))
  }

  // ---------------------------------------------------------------------------------------------
  // The protocol every run keeps to, as an automaton
  // ---------------------------------------------------------------------------------------------

  /** How far the worker is with a message, by what it did and what its surroundings answered. */
  datatype Step = Fresh | Announcing | Ready | Skipping | InBus | Back | Telling | Told | Thrown | Failing | Noted

  /**
   Where a run stands. A message that is owed a settlement was `collected`; `current` is that envelope as the listeners
   and the dispatch left it, and `thrown` the first error raised over it.
   */
  datatype Stage =
    | Idle | Between | Here(envelope: Env)
    | Owed(step: Step, collected: Env, current: Env, thrown: Option<Failure>)
    | Resetting | Pausing | Ending | Over_ | Wrong

  function Next(cfg: Config, s: Stage, e: Event): Stage {
    match e
    case StopAsked => s
    case Broke(_) => s
    case Started => if s.Idle? && cfg.dispatcher then Between else Wrong
    case Arrived(e) => if s.Between? then Here(e) else Wrong
    case Collected(e) => if s == Here(e) then Owed(Fresh, e, InHand(cfg, e), None) else Wrong
    case Reset => if s.Resetting? then Pausing else Wrong
    case Running => if s.Pausing? && cfg.dispatcher then Between else Wrong
    case Closed => if s.Between? || s.Pausing? then Ending else Wrong
    case Stopped => if s.Ending? && cfg.dispatcher then Over_ else Wrong
    case _ => if s.Owed? then NextOwed(cfg, s, e) else Wrong
  }

  /**
   What may be said and done of a message in hand. It is acknowledged only when nothing was raised over it and a skip
   was asked for or the dispatch returned; it is rejected only when something was raised, as announced; and always as
   its surroundings left it.
   */
  function NextOwed(cfg: Config, s: Stage, e: Event): Stage
    requires s.Owed?
  {
    var name := NameOf(cfg, s.collected);
    match e
    case MessageReceived(n, x) =>
      if s.step.Fresh? && cfg.dispatcher && n == name && x == s.current then s.(step := Announcing) else Wrong
    case Heard(added) =>
      if s.step.Announcing? then s.(step := Ready, current := s.current.WithStamps(added))
      else if s.step.Telling? then s.(step := Told, current := s.current.WithStamps(added))
      else if s.step.Failing? then s.(step := Noted, current := s.current.WithStamps(added))
      else Wrong
    case SkipAsked => if s.step.Ready? then s.(step := Skipping) else Wrong
    case Threw(error) =>
      if s.step.Announcing? || s.step.InBus? || s.step.Telling? then
        s.(step := Thrown, current := s.current.WithStamps([Reason(error)]), thrown := Some(error))
      else Wrong
    case BusCalled(x) =>
      if (s.step.Ready? || (s.step.Fresh? && !cfg.dispatcher)) && x == s.current then s.(step := InBus) else Wrong
    case BusReturned(x) => if s.step.InBus? then s.(step := Back, current := x) else Wrong
    case MessageHandled(n, x) =>
      if s.step.Back? && cfg.dispatcher && n == name && x == s.current then s.(step := Telling) else Wrong
    case MessageFailed(n, x, error) =>
      if s.step.Thrown? && cfg.dispatcher && n == name && x == s.current && s.thrown == Some(error) then s.(step := Failing) else Wrong
    case Acked(x) =>
      if x == s.current && (s.step.Skipping? || s.step.Told? || (s.step.Back? && !cfg.dispatcher)) then AfterSettling(cfg) else Wrong
    case Rejected(x) =>
      if x == s.current && (s.step.Noted? || (s.step.Thrown? && !cfg.dispatcher)) then AfterSettling(cfg) else Wrong
    case _ => Wrong
  }

  function AfterSettling(cfg: Config): Stage {
    if cfg.resetter then Resetting else Pausing
  }

  /** Without a dispatcher nothing tells the pause after a message from the wait for the next. */
  function Resting(cfg: Config, s: Stage): Stage {
    if !cfg.dispatcher && s.Pausing? then Between else s
  }

  function Scan(cfg: Config, s: Stage, events: seq<Event>): Stage
    decreases |events|
  {
    if events == [] then s
    else Scan(cfg, Resting(cfg, Next(cfg, s, events[0])), events[1..])
  }

  /** The ack and reject calls among `events`. */
  function Settlements(events: seq<Event>): seq<Event> {
    if events == [] then []
    else (if events[0].Acked? || events[0].Rejected? then [events[0]] else []) + Settlements(events[1..])
  }

  function SettledIn(events: seq<Event>): nat {
    |Settlements(events)|
  }

  lemma {:induction false} ScanSplits(cfg: Config, s: Stage, a: seq<Event>, b: seq<Event>)
    ensures Scan(cfg, s, a + b) == Scan(cfg, Scan(cfg, s, a), b)
    decreases |a|
  {
    if a == [] {
      assert a + b == b;
    } else {
      assert (a + b)[0] == a[0] && (a + b)[1..] == a[1..] + b;
      ScanSplits(cfg, Resting(cfg, Next(cfg, s, a[0])), a[1..], b);
    }
  }

  lemma {:induction false} SettlementsJoin(a: seq<Event>, b: seq<Event>)
    ensures Settlements(a + b) == Settlements(a) + Settlements(b)
  {
    if a == [] {
      assert a + b == b;
    } else {
      assert (a + b)[0] == a[0] && (a + b)[1..] == a[1..] + b;
      SettlementsJoin(a[1..], b);
      Associates(if a[0].Acked? || a[0].Rejected? then [a[0]] else [], Settlements(a[1..]), Settlements(b));
    }
  }

  /** No automaton leaves `Wrong`, so a scan that ends elsewhere never was there. */
  lemma {:induction false} WrongStays(cfg: Config, events: seq<Event>)
    ensures Scan(cfg, Wrong, events) == Wrong
    decreases |events|
  {
    if events != [] {
      assert Next(cfg, Wrong, events[0]) == Wrong;
      WrongStays(cfg, events[1..]);
    }
  }

  /** What arrived and is still to be collected. */
  function Uncollected(s: Stage): seq<Env> {
    if s.Here? then [s.envelope] else []
  }

  lemma AcceptedStep(cfg: Config, s: Stage, e: Event)
    requires Next(cfg, s, e) != Wrong
    ensures var next := Resting(cfg, Next(cfg, s, e));
            && |Collections([e])| + (if s.Owed? then 1 else 0) == |Settlements([e])| + (if next.Owed? then 1 else 0)
            && Uncollected(s) + Arrivals([e]) == Collections([e]) + Uncollected(next)
  {
    OneMoreEvent([], e);
    assert [] + [e] == [e] && [e][1..] == [];
  }

  /**
   What the automaton accepts collects everything that arrives, in order, and settles each collected message
   once, before the next is collected: at every point, what was collected exceeds what was settled by one
   exactly while a message is owed.
   */
  lemma {:induction false} AcceptedSettlesEach(cfg: Config, s: Stage, events: seq<Event>)
    requires Scan(cfg, s, events) != Wrong
    ensures var end := Scan(cfg, s, events);
            && |Collections(events)| + (if s.Owed? then 1 else 0) == SettledIn(events) + (if end.Owed? then 1 else 0)
            && Uncollected(s) + Arrivals(events) == Collections(events) + Uncollected(end)
    decreases |events|
  {
    if events != [] {
      var e, rest := events[0], events[1..];
      var next := Resting(cfg, Next(cfg, s, e));
      if next == Wrong {
        WrongStays(cfg, rest);
      }
      AcceptedStep(cfg, s, e);
      AcceptedSettlesEach(cfg, next, rest);
      assert events == [e] + rest;
      ArrivalsJoin([e], rest);
      CollectionsJoin([e], rest);
      SettlementsJoin([e], rest);
      Associates(Uncollected(s), Arrivals([e]), Arrivals(rest));
      Associates(Collections([e]), Uncollected(next), Arrivals(rest));
      Associates(Collections([e]), Collections(rest), Uncollected(Scan(cfg, s, events)));
    }
  }

  function Start(cfg: Config): Stage {
    if cfg.dispatcher then Idle else Between
  }

  lemma {:induction false} StopsUnseen(cfg: Config, s: Stage, asked: bool)
    requires s == Resting(cfg, s)
    ensures Scan(cfg, s, Asked(asked)) == s
  {
    if asked {
      assert Asked(asked)[1..] == [];
    }
  }

  lemma {:induction false} BreaksUnseen(cfg: Config, s: Stage, raised: Option<Failure>)
    requires s == Resting(cfg, s)
    ensures Scan(cfg, s, Broken(raised)) == s
  {
    if raised.Some? {
      assert Broken(raised)[1..] == [];
    }
  }

  lemma ScanOne(cfg: Config, s: Stage, e: Event)
    ensures Scan(cfg, s, [e]) == Resting(cfg, Next(cfg, s, e))
  {
    assert [e][1..] == [];
  }

  lemma ScanTwo(cfg: Config, s: Stage, a: Event, b: Event)
    ensures Scan(cfg, s, [a, b]) == Resting(cfg, Next(cfg, Resting(cfg, Next(cfg, s, a)), b))
  {
    assert [a, b] == [a] + [b];
    ScanSplits(cfg, s, [a], [b]);
    ScanOne(cfg, s, a);
    ScanOne(cfg, Scan(cfg, s, [a]), b);
  }

  /** What handling a message comes to is what its surroundings did to it. */
  predicate Shows(cfg: Config, collected: Env, result: Result, s: Stage) {
    s == match result
         case Handled(x) => Owed(if cfg.dispatcher then Told else Back, collected, x, None)
         case Skipped(x) => Owed(Skipping, collected, x, None)
         case Failed(x, error) => Owed(Thrown, collected, x.WithStamps([Reason(error)]), Some(error))
  }

  lemma DispatchingScans(cfg: Config, collected: Env, x: Env, r: Round)
    ensures var (events, result) := Dispatching(cfg, NameOf(cfg, collected), x, r);
            Shows(cfg, collected, result, Scan(cfg, Owed(if cfg.dispatcher then Ready else Fresh, collected, x, None), events))
  {
    var name := NameOf(cfg, collected);
    var s := Owed(if cfg.dispatcher then Ready else Fresh, collected, x, None);
    var asked := BusAsked(x, r.bus);
    ScanTwo(cfg, s, asked[0], asked[1]);
    assert asked == [asked[0], asked[1]];
    if cfg.dispatcher && r.bus.Dispatched? {
      var told := Notified(MessageHandled(name, r.bus.result), r.handled);
      ScanTwo(cfg, Owed(Back, collected, r.bus.result, None), told[0], told[1]);
      ScanSplits(cfg, s, asked, told);
    }
  }

  lemma HandlingScans(cfg: Config, e: Env, r: Round)
    ensures var (events, result) := Handling(cfg, NameOf(cfg, e), InHand(cfg, e), r);
            Shows(cfg, e, result, Scan(cfg, Owed(Fresh, e, InHand(cfg, e), None), events))
  {
    var x := InHand(cfg, e);
    var s := Owed(Fresh, e, x, None);
    if !cfg.dispatcher {
      DispatchingScans(cfg, e, x, r);
    } else {
      var heard := Notified(MessageReceived(NameOf(cfg, e), x), r.received);
      ScanTwo(cfg, s, heard[0], heard[1]);
      if r.received.raises.None? {
        var current := x.WithStamps(r.received.added);
        var ready := Owed(Ready, e, current, None);
        assert Scan(cfg, s, heard) == ready;
        DispatchingScans(cfg, e, current, r);
        ScanSplits(cfg, s, heard, Dispatching(cfg, NameOf(cfg, e), current, r).0);
        ScanSplits(cfg, s, heard, [SkipAsked]);
        ScanOne(cfg, ready, SkipAsked);
      }
    }
  }

  lemma SettlingScans(cfg: Config, e: Env, result: Result, r: Round, s: Stage)
    requires Shows(cfg, e, result, s)
    ensures Scan(cfg, s, Settling(cfg, NameOf(cfg, e), result, r).events) == Resting(cfg, AfterSettling(cfg))
  {
    var settled := Verdict(cfg, result, r);
    var after := Resting(cfg, AfterSettling(cfg));
    var told := if result.Failed? && cfg.dispatcher
                then FailureNotified(NameOf(cfg, e), result.envelope.WithStamps([Reason(result.error)]), result.error, r.failed) else [];
    SettlingIs(cfg, NameOf(cfg, e), result, r);
    if result.Failed? && cfg.dispatcher {
      FailureScans(cfg, e, result, r, s);
    }
    assert result.Failed? ==> result.envelope.WithStamps([Reason(result.error)]).WithStamps([]) == result.envelope.WithStamps([Reason(result.error)]);
    var noted := Scan(cfg, s, told);
    ScanOne(cfg, noted, settled);
    ScanSplits(cfg, s, told, [settled]);
    BreaksUnseen(cfg, after, r.settleRaises);
    ScanSplits(cfg, s, told + [settled], Broken(r.settleRaises));
  }

  /** A settlement is what the listeners were told of it, the call, and what the call raised. */
  lemma SettlingIs(cfg: Config, name: string, result: Result, r: Round)
    ensures var told := if result.Failed? && cfg.dispatcher
                        then FailureNotified(name, result.envelope.WithStamps([Reason(result.error)]), result.error, r.failed) else [];
            Settling(cfg, name, result, r).events == told + [Verdict(cfg, result, r)] + Broken(r.settleRaises)
  {
    if result.Failed? {
      var stamped := result.envelope.WithStamps([Reason(result.error)]);
      assert stamped.WithStamps([]) == stamped;
    }
    assert [] + [Verdict(cfg, result, r)] == [Verdict(cfg, result, r)];
  }

  lemma FailureScans(cfg: Config, e: Env, result: Result, r: Round, s: Stage)
    requires Shows(cfg, e, result, s) && result.Failed? && cfg.dispatcher
    ensures var stamped := result.envelope.WithStamps([Reason(result.error)]);
            Scan(cfg, s, FailureNotified(NameOf(cfg, e), stamped, result.error, r.failed))
            == Owed(Noted, e, stamped.WithStamps(r.failed.added), Some(result.error))
  {
    var stamped := result.envelope.WithStamps([Reason(result.error)]);
    var told := [MessageFailed(NameOf(cfg, e), stamped, result.error), Heard(r.failed.added)];
    ScanTwo(cfg, s, told[0], told[1]);
    BreaksUnseen(cfg, Scan(cfg, s, told), r.failed.raises);
    ScanSplits(cfg, s, told, Broken(r.failed.raises));
  }

  lemma ResetScans(cfg: Config, r: Round)
    ensures Scan(cfg, Resting(cfg, AfterSettling(cfg)), Resets(cfg, r)) == Resting(cfg, Pausing)
  {
    if cfg.resetter {
      ScanOne(cfg, Resetting, Reset);
      BreaksUnseen(cfg, Resting(cfg, Pausing), r.resetRaises);
      ScanSplits(cfg, Resetting, [Reset], Broken(r.resetRaises));
    }
  }

  /** One collected message, whatever raises around it: announced, dispatched, settled, reset, in that order. */
  lemma SettledScans(cfg: Config, e: Env, r: Round)
    ensures Scan(cfg, Owed(Fresh, e, InHand(cfg, e), None), Settled(cfg, e, r).events) == Resting(cfg, Pausing)
  {
    var s := Owed(Fresh, e, InHand(cfg, e), None);
    var (handling, result) := Handling(cfg, NameOf(cfg, e), InHand(cfg, e), r);
    var settling := Settling(cfg, NameOf(cfg, e), result, r).events;
    var asked, later, reset := Asked(r.stopInHand), Asked(r.stopOnceSettled), Resets(cfg, r);
    HandlingScans(cfg, e, r);
    SettlingScans(cfg, e, result, r, Scan(cfg, s, handling));
    StopsUnseen(cfg, s, r.stopInHand);
    ScanSplits(cfg, s, asked, handling);
    ScanSplits(cfg, s, asked + handling, settling);
    StopsUnseen(cfg, Resting(cfg, AfterSettling(cfg)), r.stopOnceSettled);
    ScanSplits(cfg, s, asked + handling + settling, later);
    ScanSplits(cfg, s, asked + handling + settling + later, reset);
    ResetScans(cfg, r);
  }

  /** While it waits the worker is between messages, or has one that arrived still to collect. */
  predicate WaitsAsSeen(cfg: Config, w: R.Wait) {
    Scan(cfg, Between, w.events) == if w.fetch.Delivered? then Here(w.fetch.envelope) else Between
  }

  lemma WaitScansOn(cfg: Config, w: R.Wait, m: R.Move)
    requires WaitsAsSeen(cfg, w)
    ensures WaitsAsSeen(cfg, R.Apply(w, m))
  {
    var v := R.Apply(w, m);
    if v.events != w.events {
      var e := v.events[|w.events|];
      assert v.events == w.events + [e];
      ScanSplits(cfg, Between, w.events, [e]);
      ScanOne(cfg, Scan(cfg, Between, w.events), e);
    }
  }

  lemma {:induction false} WaitScans(cfg: Config, w: R.Wait, moves: seq<R.Move>)
    requires WaitsAsSeen(cfg, w)
    ensures WaitsAsSeen(cfg, R.Run(w, moves))
    decreases |moves|
  {
    if moves != [] {
      WaitScansOn(cfg, w, moves[0]);
      WaitScans(cfg, R.Apply(w, moves[0]), moves[1..]);
    }
  }

  lemma WaitedScans(cfg: Config, stop: bool, r: Round)
    ensures var w := Waited(stop, r);
            Scan(cfg, Between, w.events) == if w.phase.Returned? && w.phase.envelope.Some? then Here(w.phase.envelope.value) else Between
  {
    R.EndsEitherWay(stop, r.waiting);
    R.RunKeeps(R.Begin(stop), r.waiting);
    WaitScans(cfg, R.Begin(stop), r.waiting);
  }

  lemma CollectingScans(cfg: Config, stop: bool, r: Round)
    requires var w := Waited(stop, r); w.phase.Returned? && w.phase.envelope.Some?
    ensures var w := Waited(stop, r);
            Scan(cfg, Between, Collecting(cfg, w.events, w.phase.envelope.value, r)) == Resting(cfg, Pausing)
  {
    var w := Waited(stop, r);
    var e := w.phase.envelope.value;
    WaitedScans(cfg, stop, r);
    ScanOne(cfg, Here(e), Collected(e));
    ScanSplits(cfg, Between, w.events, [Collected(e)]);
    SettledScans(cfg, e, r);
    ScanSplits(cfg, Between, w.events + [Collected(e)], Settled(cfg, e, r).events);
  }

  lemma AnnouncementScans(cfg: Config, r: Round)
    ensures Scan(cfg, Resting(cfg, Pausing), Announcement(cfg, r)) == Between
  {
    var paused := Resting(cfg, Pausing);
    ScanOne(cfg, paused, Running);
    StopsUnseen(cfg, Between, r.stopWhileRunning);
    ScanSplits(cfg, paused, Announced(cfg, Running), Asked(r.stopWhileRunning));
    BreaksUnseen(cfg, Between, r.runningRaises);
    ScanSplits(cfg, paused, Announced(cfg, Running) + Asked(r.stopWhileRunning), if cfg.dispatcher then Broken(r.runningRaises) else []);
  }

  lemma {:induction false} LoopScans(cfg: Config, stop: bool, rounds: seq<Round>)
    ensures var end := Scan(cfg, Between, Loop(cfg, stop, rounds).events);
            end == Between || end == Resting(cfg, Pausing)
    decreases |rounds|
  {
    if rounds != [] {
      var r := rounds[0];
      var w := Waited(stop, r);
      R.EndsEitherWay(stop, r.waiting);
      WaitedScans(cfg, stop, r);
      if w.phase.Returned? && w.phase.envelope.Some? {
        var collecting := Collecting(cfg, w.events, w.phase.envelope.value, r);
        var later := Loop(cfg, w.stopped || StopsIn(r), rounds[1..]).events;
        CollectingScans(cfg, stop, r);
        AnnouncementScans(cfg, r);
        ScanSplits(cfg, Between, collecting, Announcement(cfg, r));
        LoopScans(cfg, w.stopped || StopsIn(r), rounds[1..]);
        ScanSplits(cfg, Between, collecting + Announcement(cfg, r), later);
      }
    }
  }

  lemma StartingScans(cfg: Config, s: Session)
    ensures Scan(cfg, Start(cfg), Starting(cfg, s)) == Between
  {
    ScanOne(cfg, Start(cfg), Started);
    StopsUnseen(cfg, Between, s.stopWhileStarting);
    ScanSplits(cfg, Start(cfg), Announced(cfg, Started), Asked(s.stopWhileStarting));
    BreaksUnseen(cfg, Between, s.startRaises);
    ScanSplits(cfg, Start(cfg), Announced(cfg, Started) + Asked(s.stopWhileStarting), Broken(s.startRaises));
  }

  lemma ClosingScans(cfg: Config, s: Session, from: Stage)
    requires from == Between || from == Resting(cfg, Pausing)
    ensures Scan(cfg, from, Closing(cfg, s)) == if cfg.dispatcher && s.closeRaises.None? then Over_ else Ending
  {
    StopsUnseen(cfg, from, s.stopWhileClosing);
    ScanOne(cfg, from, Closed);
    ScanSplits(cfg, from, Asked(s.stopWhileClosing), [Closed]);
    ScanOne(cfg, Ending, Stopped);
    BreaksUnseen(cfg, Ending, s.closeRaises);
    BreaksUnseen(cfg, Over_, s.stoppedRaises);
    ScanSplits(cfg, Ending, Announced(cfg, Stopped), if cfg.dispatcher then Broken(s.stoppedRaises) else []);
    ScanSplits(cfg, from, Asked(s.stopWhileClosing) + [Closed],
               if s.closeRaises.Some? then Broken(s.closeRaises)
               else Announced(cfg, Stopped) + (if cfg.dispatcher then Broken(s.stoppedRaises) else []));
  }

  /** Where a run ends. */
  function End(cfg: Config, s: Session): Stage {
    if s.startRaises.Some? then Between else if cfg.dispatcher && s.closeRaises.None? then Over_ else Ending
  }

  lemma RunScans(cfg: Config, c: Control, s: Session)
    ensures Scan(cfg, Start(cfg), Ran(cfg, c, s).events) == End(cfg, s)
  {
    var loop := Loop(cfg, c.stopRequested || s.stopWhileStarting, s.rounds).events;
    StartingScans(cfg, s);
    LoopScans(cfg, c.stopRequested || s.stopWhileStarting, s.rounds);
    ClosingScans(cfg, s, Scan(cfg, Between, loop));
    ScanSplits(cfg, Start(cfg), Starting(cfg, s), loop);
    ScanSplits(cfg, Start(cfg), Starting(cfg, s) + loop, Closing(cfg, s));
  }

  /**
   Every run keeps to the protocol, whatever arrives, raises or asks it to stop: started, then per
   collected message received, dispatched, handled or failed, settled once, reset, running; then the
   receiver is closed and the worker says it stopped, once. So it collects exactly what the receiver
   delivered, and settles exactly what it collects.
   */
  lemma RunKeepsProtocol(cfg: Config, c: Control, s: Session)
    ensures var events := Ran(cfg, c, s).events;
            && Scan(cfg, Start(cfg), events) == End(cfg, s)
            && Collections(events) == Arrivals(events)
            && SettledIn(events) == |Collections(events)|
  {
    var events := Ran(cfg, c, s).events;
    RunScans(cfg, c, s);
    AcceptedSettlesEach(cfg, Start(cfg), events);
    assert [] + Arrivals(events) == Arrivals(events) && Collections(events) + [] == Collections(events);
  }

  // ---------------------------------------------------------------------------------------------
  // Acked exactly when handled or skipped, rejected with the reason otherwise
  // ---------------------------------------------------------------------------------------------

  /** `x` is what was collected, or what the dispatch returned since, with nothing but stamps added. */
  ghost predicate Stems(since: seq<Event>, x: Env) {
    || (since != [] && since[0].Collected? && (forall e :: e in since ==> !e.BusReturned?) && Carries(x, since[0].envelope))
    || (exists e :: e in since && e.BusReturned? && Carries(x, e.envelope))
  }

  predicate Carries(x: Env, of: Env) {
    x.message == of.message && of.stamps <= x.stamps
  }

  /**
   What a run may do of a message, by what happened since it was collected: `since` up to then. It is acknowledged only
   when nothing was raised and a skip was asked for or the dispatch returned, rejected only when something was, with
   the first such error as the reason; it is announced as handled only as the dispatch returned it.
   */
  ghost predicate Truly(since: seq<Event>, e: Event) {
    match e
    case BusCalled(x) => FirstThrown(since) == None && SkipAsked !in since && Stems(since, x)
    case MessageHandled(_, x) => FirstThrown(since) == None && BusReturned(x) in since
    case MessageFailed(_, x, error) => FirstThrown(since) == Some(error) && Stems(since, x)
    case Acked(x) =>
      FirstThrown(since) == None && (SkipAsked in since || exists r :: r in since && r.BusReturned?) && Stems(since, x)
    case Rejected(x) =>
      FirstThrown(since).Some? && Reason(FirstThrown(since).value) in x.stamps && Stems(since, x)
    case _ => true
  }

  /** What a stage with a message in hand says of what happened since it was collected. */
  ghost predicate Knows(s: Stage, since: seq<Event>) {
    s.Owed? ==>
      && since != [] && since[0] == Collected(s.collected)
      && FirstThrown(since) == s.thrown && (s.thrown.Some? <==> s.step.Thrown? || s.step.Failing? || s.step.Noted?)
      && (s.thrown.Some? ==> Reason(s.thrown.value) in s.current.stamps)
      && (SkipAsked in since <==> s.step.Skipping?)
      && (s.step.Back? ==> BusReturned(s.current) in since)
      && (s.step.Telling? || s.step.Told? ==> exists e :: e in since && e.BusReturned?)
      && Stems(since, s.current)
  }

  lemma StemsOn(since: seq<Event>, e: Event, x: Env, added: seq<Stamp>)
    requires Stems(since, x) && !e.BusReturned? && !e.Collected?
    ensures Stems(since + [e], x.WithStamps(added)) && Stems(since + [e], x)
  {
    var now := since + [e];
    if r :| r in since && r.BusReturned? && Carries(x, r.envelope) {
      assert r in now && Carries(x.WithStamps(added), r.envelope);
    } else {
      assert now[0] == since[0] && Carries(x.WithStamps(added), since[0].envelope);
    }
  }

  lemma NextKnows(cfg: Config, s: Stage, since: seq<Event>, e: Event)
    requires Knows(s, since) && s.Owed? && !e.Collected? && Next(cfg, s, e) != Wrong
    ensures Knows(Next(cfg, s, e), since + [e]) && Truly(since, e)
  {
    var next := Next(cfg, s, e);
    var now := since + [e];
    OneMoreThrown(since, e);
    assert e in now && now[0] == since[0] && forall x :: x in since ==> x in now;
    if e.BusReturned? {
      assert Carries(e.envelope, e.envelope);
    } else {
      StemsOn(since, e, s.current, if e.Heard? then e.added else if e.Threw? then [Reason(e.error)] else []);
    }
  }

  lemma OneMoreKnown(cfg: Config, s: Stage, events: seq<Event>, e: Event)
    requires Knows(s, Since(events)) && Next(cfg, s, e) != Wrong
    ensures Knows(Resting(cfg, Next(cfg, s, e)), Since(events + [e])) && Truly(Since(events), e)
  {
    OneMoreSince(events, e);
    if e.Collected? {
      CollectedKnows(cfg, s, e);
    } else if s.Owed? {
      NextKnows(cfg, s, Since(events), e);
    }
  }

  lemma {:induction false} StageKnows(cfg: Config, events: seq<Event>)
    requires Scan(cfg, Start(cfg), events) != Wrong
    ensures Knows(Scan(cfg, Start(cfg), events), Since(events))
    ensures forall i :: 0 <= i < |events| ==> Truly(Since(events[..i]), events[i])
  {
    if events != [] {
      var less, e := events[..|events| - 1], events[|events| - 1];
      assert events == less + [e];
      ScanSplits(cfg, Start(cfg), less, [e]);
      ScanOne(cfg, Scan(cfg, Start(cfg), less), e);
      StageKnows(cfg, less);
      OneMoreKnown(cfg, Scan(cfg, Start(cfg), less), less, e);
      forall i | 0 <= i < |events| ensures Truly(Since(events[..i]), events[i]) {
        if i < |less| {
          assert events[..i] == less[..i] && events[i] == less[i];
        }
      }
    }
  }

  lemma CollectedKnows(cfg: Config, s: Stage, e: Event)
    requires e.Collected? && Next(cfg, s, e) != Wrong
    ensures Knows(Next(cfg, s, e), [e])
  {
    HandlersSeeTheName(cfg, e.envelope);
    OneMoreThrown([], e);
    assert [] + [e] == [e];
  }

  /** In every run, with a dispatcher or without: what is done of each message is what happened to it. */
  lemma RunSettlesTruly(cfg: Config, c: Control, s: Session)
    ensures var events := Ran(cfg, c, s).events;
            forall i :: 0 <= i < |events| ==> Truly(Since(events[..i]), events[i])
  {
    RunScans(cfg, c, s);
    StageKnows(cfg, Ran(cfg, c, s).events);
  }

  /** How a message ends: acked as handling left it, or rejected with the reason added. */
  function Verdict(cfg: Config, result: Result, r: Round): Event {
    if !result.Failed? then Acked(result.envelope)
    else
      Rejected(result.envelope.WithStamps([Reason(result.error)])
               .WithStamps(if cfg.dispatcher then r.failed.added else []))
  }

  ghost predicate AnyThrew(events: seq<Event>) {
    exists x :: x in events && x.Threw?
  }

  /**
   One collected message is settled by one call: an ack exactly when nothing was raised over it, by a listener or by
   the dispatch, and a reject otherwise.
   */
  lemma SettledOnceAsHandled(cfg: Config, e: Env, r: Round)
    ensures var result := Handling(cfg, NameOf(cfg, e), InHand(cfg, e), r).1;
            var verdict := Verdict(cfg, result, r);
            && Settlements(Settled(cfg, e, r).events) == [verdict]
            && (verdict.Acked? <==> !AnyThrew(Settled(cfg, e, r).events))
  {
    var name := NameOf(cfg, e);
    var (handling, result) := Handling(cfg, name, InHand(cfg, e), r);
    var settling := Settling(cfg, name, result, r).events;
    var asked, later, reset := Asked(r.stopInHand), Asked(r.stopOnceSettled), Resets(cfg, r);
    HandlingSettlesNothing(cfg, name, InHand(cfg, e), r);
    NoSettlements(asked);
    NoSettlements(later);
    NoSettlements(reset);
    SettlingSettlesOnce(cfg, name, result, r);
    SettlementsJoin(asked, handling);
    SettlementsJoin(asked + handling, settling);
    SettlementsJoin(asked + handling + settling, later);
    SettlementsJoin(asked + handling + settling + later, reset);
    FailedExactlyWhenThrown(cfg, e, r);
  }

  lemma HandlingThrows(cfg: Config, name: string, e: Env, r: Round)
    ensures AnyThrew(Handling(cfg, name, e, r).0) <==> Handling(cfg, name, e, r).1.Failed?
  {
    var (events, result) := Handling(cfg, name, e, r);
    if result.Failed? {
      assert events[|events| - 1] == Threw(result.error);
    }
  }

  lemma FailedExactlyWhenThrown(cfg: Config, e: Env, r: Round)
    ensures AnyThrew(Settled(cfg, e, r).events) <==> Handling(cfg, NameOf(cfg, e), InHand(cfg, e), r).1.Failed?
  {
    var (handling, result) := Handling(cfg, NameOf(cfg, e), InHand(cfg, e), r);
    HandlingThrows(cfg, NameOf(cfg, e), InHand(cfg, e), r);
    var settling := Settling(cfg, NameOf(cfg, e), result, r).events;
    if x :| x in handling && x.Threw? {
      assert x in Settled(cfg, e, r).events;
    }
  }

  lemma HandlingSettlesNothing(cfg: Config, name: string, e: Env, r: Round)
    ensures Settlements(Handling(cfg, name, e, r).0) == []
  {
    NoSettlements(Handling(cfg, name, e, r).0);
  }

  lemma {:induction false} NoSettlements(events: seq<Event>)
    requires forall x :: x in events ==> !x.Acked? && !x.Rejected?
    ensures Settlements(events) == []
  {
    if events != [] { NoSettlements(events[1..]); }
  }

  lemma SettlingSettlesOnce(cfg: Config, name: string, result: Result, r: Round)
    ensures Settlements(Settling(cfg, name, result, r).events) == [Verdict(cfg, result, r)]
  {
    var verdict := Verdict(cfg, result, r);
    var told := if result.Failed? && cfg.dispatcher
                then FailureNotified(name, result.envelope.WithStamps([Reason(result.error)]), result.error, r.failed) else [];
    SettlingIs(cfg, name, result, r);
    assert [verdict][1..] == [] && Settlements([verdict]) == [verdict];
    NoSettlements(told);
    NoSettlements(Broken(r.settleRaises));
    SettlementsJoin(told, [verdict]);
    SettlementsJoin(told + [verdict], Broken(r.settleRaises));
  }

  /** The name handlers find on the envelope is the one the events report; an envelope that has it gains nothing. */
  lemma HandlersSeeTheName(cfg: Config, e: Env)
    ensures ReceivedFrom(InHand(cfg, e)) == NameOf(cfg, e)
    ensures InHand(cfg, e).message == e.message && e.stamps <= InHand(cfg, e).stamps
    ensures cfg.receiverName.None? || e.Last(IsReceived) == Some(Received(NameOf(cfg, e))) ==> InHand(cfg, e) == e
  {
    if cfg.receiverName.Some? {
      var named := [Received(cfg.receiverName.value)];
      LastAddedWins(e, IsReceived, named);
      assert Kept(IsReceived, named) == named + Kept(IsReceived, []);
    }
  }

  predicate Reports(x: Event, name: string) {
    x.MessageReceived? || x.MessageHandled? || x.MessageFailed? ==> x.name == name
  }

  lemma HandlingReports(cfg: Config, name: string, e: Env, r: Round)
    ensures forall x :: x in Handling(cfg, name, e, r).0 ==> Reports(x, name)
  {
    assert forall x :: x in Notified(MessageReceived(name, e), r.received) ==> Reports(x, name);
    forall y: Env ensures forall x :: x in Dispatching(cfg, name, y, r).0 ==> Reports(x, name) {
    }
  }

  /** Every event of a message, whatever its round is like, reports that name. */
  lemma EventsReportTheName(cfg: Config, e: Env, r: Round)
    ensures forall x :: x in Settled(cfg, e, r).events ==> Reports(x, NameOf(cfg, e))
  {
    var name := NameOf(cfg, e);
    var (handling, result) := Handling(cfg, name, InHand(cfg, e), r);
    HandlingReports(cfg, name, InHand(cfg, e), r);
    assert forall x :: x in Settling(cfg, name, result, r).events ==> Reports(x, name);
  }

  predicate IsErrorDetails(s: Stamp) { s.ErrorDetails? }

  /** A rejected envelope says why: what a handler raised first, unless a listener said otherwise. */
  lemma RejectedCarriesReason(cfg: Config, result: Result, r: Round)
    requires result.Failed? && forall s :: s in r.failed.added ==> !IsErrorDetails(s)
    ensures var last := Verdict(cfg, result, r);
            && last.Rejected? && last.envelope.message == result.envelope.message
            && last.envelope.Last(IsErrorDetails) == Some(Reason(result.error))
            && (result.error.Plain? ==> Reason(result.error) == ErrorDetails(result.error.exceptionClass, result.error.text))
            && (result.error.HandlersFailed? && result.error.errors != [] && result.error.errors[0].Plain? ==>
                  Reason(result.error) == ErrorDetails(result.error.errors[0].exceptionClass, result.error.errors[0].text))
            && result.envelope.stamps <= last.envelope.stamps
  {
    var added := if cfg.dispatcher then r.failed.added else [];
    var stamped := result.envelope.WithStamps([Reason(result.error)]);
    LastAddedWins(result.envelope, IsErrorDetails, [Reason(result.error)]);
    assert Kept(IsErrorDetails, [Reason(result.error)]) == [Reason(result.error)] + Kept(IsErrorDetails, []);
    NoneKept(IsErrorDetails, added);
    LastAddedWins(stamped, IsErrorDetails, added);
  }

  // ---------------------------------------------------------------------------------------------
  // What a run raises
  // ---------------------------------------------------------------------------------------------

  function Raised(raised: Option<Failure>): seq<Failure> {
    if raised.Some? then [raised.value] else []
  }

  lemma BrokenBreaks(raised: Option<Failure>)
    ensures Breaks(Broken(raised)) == Raised(raised)
  {
    if raised.Some? {
      OneBreak(raised.value);
    }
  }

  /**
   What breaks out of a message in hand, in order: what a listener told of its failure raised, then the settlement, then
   the resetter, each if it raised. The last of them is what leaves.
   */
  lemma SettledBreaks(cfg: Config, e: Env, r: Round)
    ensures var done := Settled(cfg, e, r);
            && Breaks(done.events)
               == (if cfg.dispatcher && AnyThrew(done.events) then Raised(r.failed.raises) else [])
                  + Raised(r.settleRaises) + (if cfg.resetter then Raised(r.resetRaises) else [])
            && done.raised == LastOf(Breaks(done.events))
  {
    var name := NameOf(cfg, e);
    var (handling, result) := Handling(cfg, name, InHand(cfg, e), r);
    var settling := Settling(cfg, name, result, r).events;
    var asked, later, reset := Asked(r.stopInHand), Asked(r.stopOnceSettled), Resets(cfg, r);
    FailedExactlyWhenThrown(cfg, e, r);
    HandlingBreaksNothing(cfg, name, InHand(cfg, e), r);
    NothingBreaks(asked);
    NothingBreaks(later);
    SettlingBreaks(cfg, name, result, r);
    ResetBreaks(cfg, r);
    BreaksBetween(asked, handling, settling, later, reset);
    LastOfThree(if cfg.dispatcher && result.Failed? then r.failed.raises else None, r.settleRaises,
                if cfg.resetter then r.resetRaises else None);
  }

  lemma BreaksBetween(asked: seq<Event>, handling: seq<Event>, settling: seq<Event>, later: seq<Event>, reset: seq<Event>)
    requires Breaks(asked) == [] && Breaks(handling) == [] && Breaks(later) == []
    ensures Breaks(asked + handling + settling + later + reset) == Breaks(settling) + Breaks(reset)
  {
    BreaksJoin(asked, handling);
    BreaksJoin(asked + handling, settling);
    BreaksJoin(asked + handling + settling, later);
    BreaksJoin(asked + handling + settling + later, reset);
  }

  lemma LastOfThree(a: Option<Failure>, b: Option<Failure>, c: Option<Failure>)
    ensures LastOf(Raised(a) + Raised(b) + Raised(c)) == Over(c, Over(b, a))
  {
  }

  lemma HandlingBreaksNothing(cfg: Config, name: string, e: Env, r: Round)
    ensures Breaks(Handling(cfg, name, e, r).0) == []
  {
    NothingBreaks(Handling(cfg, name, e, r).0);
  }

  lemma SettlingBreaks(cfg: Config, name: string, result: Result, r: Round)
    ensures Breaks(Settling(cfg, name, result, r).events)
            == (if cfg.dispatcher && result.Failed? then Raised(r.failed.raises) else []) + Raised(r.settleRaises)
  {
    var verdict := Verdict(cfg, result, r);
    var stamped := if result.Failed? then result.envelope.WithStamps([Reason(result.error)]) else result.envelope;
    var told := if result.Failed? && cfg.dispatcher then FailureNotified(name, stamped, result.error, r.failed) else [];
    SettlingIs(cfg, name, result, r);
    BrokenBreaks(r.settleRaises);
    NothingBreaks([verdict]);
    if result.Failed? && cfg.dispatcher {
      var announced := [MessageFailed(name, stamped, result.error), Heard(r.failed.added)];
      NothingBreaks(announced);
      BrokenBreaks(r.failed.raises);
      BreaksJoin(announced, Broken(r.failed.raises));
    }
    BreaksJoin(told, [verdict]);
    BreaksJoin(told + [verdict], Broken(r.settleRaises));
  }

  lemma ResetBreaks(cfg: Config, r: Round)
    ensures Breaks(Resets(cfg, r)) == if cfg.resetter then Raised(r.resetRaises) else []
  {
    if cfg.resetter {
      NothingBreaks([Reset]);
      BrokenBreaks(r.resetRaises);
      BreaksJoin([Reset], Broken(r.resetRaises));
    }
  }

  lemma AnnouncementBreaks(cfg: Config, r: Round)
    ensures Breaks(Announcement(cfg, r)) == if cfg.dispatcher then Raised(r.runningRaises) else []
  {
    var said := Announced(cfg, Running) + Asked(r.stopWhileRunning);
    NothingBreaks(said);
    BrokenBreaks(r.runningRaises);
    BreaksJoin(said, if cfg.dispatcher then Broken(r.runningRaises) else []);
  }

  /** Once something broke, nothing more is collected. */
  predicate CollectsNoMore(events: seq<Event>) {
    forall i :: 0 <= i < |events| && events[i].Broke? ==> Collections(events[i + 1..]) == []
  }

  lemma {:induction false} BrokenFrom(events: seq<Event>)
    ensures Breaks(events) == [] ==> forall x :: x in events ==> !x.Broke?
  {
    if events != [] {
      BrokenFrom(events[1..]);
    }
  }

  lemma UnbrokenBefore(a: seq<Event>, b: seq<Event>)
    requires Breaks(a) == [] && CollectsNoMore(b)
    ensures CollectsNoMore(a + b)
  {
    BrokenFrom(a);
    var all := a + b;
    forall i | 0 <= i < |all| && all[i].Broke? ensures Collections(all[i + 1..]) == [] {
      assert forall k :: 0 <= k < |a| ==> all[k] == a[k] && a[k] in a;
      assert all[i + 1..] == b[i - |a| + 1..];
    }
  }

  lemma NothingCollectedAfter(a: seq<Event>, b: seq<Event>)
    requires CollectsNoMore(a) && Collections(b) == []
    ensures CollectsNoMore(a + b)
  {
    var all := a + b;
    forall i | 0 <= i < |all| && all[i].Broke? ensures Collections(all[i + 1..]) == [] {
      if i < |a| {
        assert all[i + 1..] == a[i + 1..] + b;
        CollectionsJoin(a[i + 1..], b);
      } else {
        CollectionsJoin(b[..i - |a| + 1], b[i - |a| + 1..]);
        assert b == b[..i - |a| + 1] + b[i - |a| + 1..] && all[i + 1..] == b[i - |a| + 1..];
      }
    }
  }

  lemma SettledCollectsNothing(cfg: Config, e: Env, r: Round)
    ensures Collections(Settled(cfg, e, r).events) == [] && Collections(Announcement(cfg, r)) == []
  {
    var (handling, result) := Handling(cfg, NameOf(cfg, e), InHand(cfg, e), r);
    HandlingCollects(cfg, NameOf(cfg, e), InHand(cfg, e), r);
    SettlingCollects(cfg, NameOf(cfg, e), result, r);
    NothingCollected(Settled(cfg, e, r).events);
    NothingCollected(Announcement(cfg, r));
  }

  lemma HandlingCollects(cfg: Config, name: string, e: Env, r: Round)
    ensures forall x :: x in Handling(cfg, name, e, r).0 ==> !x.Collected?
  {
  }

  lemma SettlingCollects(cfg: Config, name: string, result: Result, r: Round)
    ensures forall x :: x in Settling(cfg, name, result, r).events ==> !x.Collected?
  {
  }

  /** One round that collects: what it collects, what breaks out of it, and that nothing is collected after that. */
  lemma RoundBreaks(cfg: Config, stop: bool, e: Env, r: Round)
    requires Waited(stop, r).phase == R.Returned(Some(e))
    ensures var collecting := Collecting(cfg, Waited(stop, r).events, e, r);
            && Breaks(collecting) == Breaks(Settled(cfg, e, r).events) && CollectsNoMore(collecting)
            && Collections(collecting) == [e]
  {
    var waited, settled := Waited(stop, r).events, Settled(cfg, e, r).events;
    WaitBreaks(stop, r);
    OneMoreBreak(waited, Collected(e));
    OneMoreEvent(waited, Collected(e));
    SettledCollectsNothing(cfg, e, r);
    NothingCollectedUnbroken(waited + [Collected(e)], settled);
    assert [e] + [] == [e];
  }

  lemma WaitBreaks(stop: bool, r: Round)
    ensures var w := Waited(stop, r);
            && Collections(w.events) == [] && (w.phase.Raised? || w.phase.Returned?)
            && Breaks(w.events) == (if w.phase.Raised? then [w.phase.error] else [])
  {
    R.EndsEitherWay(stop, r.waiting);
    R.ReturnsWhatArrived(stop, r.waiting);
    R.RunKeeps(R.Begin(stop), r.waiting);
  }

  lemma NothingCollectedUnbroken(a: seq<Event>, b: seq<Event>)
    requires Breaks(a) == [] && Collections(b) == []
    ensures Breaks(a + b) == Breaks(b) && CollectsNoMore(a + b) && Collections(a + b) == Collections(a) + []
  {
    BreaksJoin(a, b);
    CollectionsJoin(a, b);
    BrokenFrom(a);
    assert CollectsNoMore(a);
    NothingCollectedAfter(a, b);
  }

  /** It raised the last of what broke, and collected nothing after the first. */
  predicate RaisesTheLast(done: Done) {
    done.raised == LastOf(Breaks(done.events)) && CollectsNoMore(done.events)
  }

  lemma {:induction false} LoopBreaks(cfg: Config, stop: bool, rounds: seq<Round>)
    ensures RaisesTheLast(Loop(cfg, stop, rounds))
    decreases |rounds|
  {
    if rounds != [] {
      var r := rounds[0];
      var w := Waited(stop, r);
      WaitBreaks(stop, r);
      if w.phase.Returned? && w.phase.envelope.Some? {
        LoopBreaks(cfg, w.stopped || StopsIn(r), rounds[1..]);
        CollectingBreaks(cfg, stop, w.phase.envelope.value, r, rounds[1..]);
        assert [r] + rounds[1..] == rounds;
      } else {
        NothingCollectedUnbroken([], w.events);
        assert [] + w.events == w.events;
      }
    }
  }

  lemma LoopIs(cfg: Config, stop: bool, e: Env, r: Round, rest: seq<Round>)
    requires Waited(stop, r).phase == R.Returned(Some(e))
    ensures var w, settled := Waited(stop, r), Settled(cfg, e, r).raised;
            var collecting, said := Collecting(cfg, w.events, e, r), Announcement(cfg, r);
            var later := Loop(cfg, w.stopped || StopsIn(r), rest);
            Loop(cfg, stop, [r] + rest)
            == if settled.Some? then Done(collecting, settled)
               else if cfg.dispatcher && r.runningRaises.Some? then Done(collecting + said, r.runningRaises)
               else Done(collecting + said + later.events, later.raised)
  {
    assert ([r] + rest)[1..] == rest;
  }

  lemma CollectingBreaks(cfg: Config, stop: bool, e: Env, r: Round, rest: seq<Round>)
    requires Waited(stop, r).phase == R.Returned(Some(e))
    requires RaisesTheLast(Loop(cfg, Waited(stop, r).stopped || StopsIn(r), rest))
    ensures RaisesTheLast(Loop(cfg, stop, [r] + rest))
  {
    var w := Waited(stop, r);
    var collecting, said := Collecting(cfg, w.events, e, r), Announcement(cfg, r);
    LoopIs(cfg, stop, e, r, rest);
    RoundBreaks(cfg, stop, e, r);
    SettledBreaks(cfg, e, r);
    AnnouncementBreaks(cfg, r);
    SettledCollectsNothing(cfg, e, r);
    RoundRaises(collecting, said, Loop(cfg, w.stopped || StopsIn(r), rest), Settled(cfg, e, r).raised,
                if cfg.dispatcher then r.runningRaises else None);
  }

  lemma RoundRaises(collecting: seq<Event>, said: seq<Event>, later: Done, settled: Option<Failure>, running: Option<Failure>)
    requires CollectsNoMore(collecting) && settled == LastOf(Breaks(collecting))
    requires Collections(said) == [] && Breaks(said) == Raised(running) && RaisesTheLast(later)
    ensures settled.Some? ==> RaisesTheLast(Done(collecting, settled))
    ensures settled.None? && running.Some? ==> RaisesTheLast(Done(collecting + said, running))
    ensures settled.None? && running.None? ==> RaisesTheLast(Done(collecting + said + later.events, later.raised))
  {
    SaidAfter(collecting, said, later.events);
  }

  lemma SaidAfter(collecting: seq<Event>, said: seq<Event>, later: seq<Event>)
    requires CollectsNoMore(collecting) && Collections(said) == [] && CollectsNoMore(later)
    ensures Breaks(collecting + said) == Breaks(collecting) + Breaks(said) && CollectsNoMore(collecting + said)
    ensures Breaks(collecting) == [] && Breaks(said) == [] ==>
              Breaks(collecting + said + later) == Breaks(later) && CollectsNoMore(collecting + said + later)
  {
    BreaksJoin(collecting, said);
    NothingCollectedAfter(collecting, said);
    if Breaks(collecting) == [] && Breaks(said) == [] {
      BreaksJoin(collecting + said, later);
      UnbrokenBefore(collecting + said, later);
    }
  }

  /**
   What a run raises, over every session: exactly the last of what broke, in the trace, out of the receiver, a
   settlement, the resetter, or a listener told of a failure or of the worker; nothing when nothing did. Once one of them
   broke, nothing more is collected. A start that raised is what is raised, and closing the receiver has the last word.
   */
  lemma RunRaisesTheLastBreak(cfg: Config, c: Control, s: Session)
    ensures var done := Ran(cfg, c, s);
            && RaisesTheLast(done)
            && (s.startRaises.Some? ==> done.raised == s.startRaises)
            && (s.startRaises.None? && s.closeRaises.Some? ==> done.raised == s.closeRaises)
            && (s.startRaises.None? && s.closeRaises.None? && cfg.dispatcher && s.stoppedRaises.Some? ==> done.raised == s.stoppedRaises)
  {
    if s.startRaises.Some? {
      FailedStartRaises(cfg, s);
    } else {
      StartedRunRaises(cfg, c, s);
    }
  }

  lemma FailedStartRaises(cfg: Config, s: Session)
    requires s.startRaises.Some?
    ensures RaisesTheLast(Done(Starting(cfg, s), s.startRaises))
  {
    StartingBreaks(cfg, s);
    NothingCollectedUnbroken([], Starting(cfg, s));
    assert [] + Starting(cfg, s) == Starting(cfg, s);
  }

  lemma StartedRunRaises(cfg: Config, c: Control, s: Session)
    requires s.startRaises.None?
    ensures RaisesTheLast(Ran(cfg, c, s))
  {
    StartingBreaks(cfg, s);
    ClosingBreaks(cfg, s);
    LoopBreaks(cfg, c.stopRequested || s.stopWhileStarting, s.rounds);
    RaisedAfterClosing(cfg, s, Starting(cfg, s), Loop(cfg, c.stopRequested || s.stopWhileStarting, s.rounds), Closing(cfg, s));
  }

  lemma RaisedAfterClosing(cfg: Config, s: Session, starting: seq<Event>, loop: Done, closing: seq<Event>)
    requires Breaks(starting) == [] && RaisesTheLast(loop) && Collections(closing) == []
    requires Breaks(closing)
             == if s.closeRaises.Some? then Raised(s.closeRaises) else if cfg.dispatcher then Raised(s.stoppedRaises) else []
    ensures RaisesTheLast(Done(starting + loop.events + closing,
                               if s.closeRaises.Some? then s.closeRaises
                               else Over(if cfg.dispatcher then s.stoppedRaises else None, loop.raised)))
  {
    ClosingAfter(starting, loop.events, closing);
    LastOfMore(Breaks(loop.events), Breaks(closing));
  }

  lemma ClosingAfter(starting: seq<Event>, loop: seq<Event>, closing: seq<Event>)
    requires Breaks(starting) == [] && CollectsNoMore(loop) && Collections(closing) == []
    ensures Breaks(starting + loop + closing) == Breaks(loop) + Breaks(closing) && CollectsNoMore(starting + loop + closing)
  {
    BreaksJoin(starting, loop);
    BreaksJoin(starting + loop, closing);
    UnbrokenBefore(starting, loop);
    NothingCollectedAfter(starting + loop, closing);
  }

  lemma LastOfMore(a: seq<Failure>, b: seq<Failure>)
    ensures LastOf(a + b) == Over(LastOf(b), LastOf(a))
  {
  }

  lemma StartingBreaks(cfg: Config, s: Session)
    ensures Breaks(Starting(cfg, s)) == Raised(s.startRaises) && Collections(Starting(cfg, s)) == []
  {
    var said := Announced(cfg, Started) + Asked(s.stopWhileStarting);
    NothingBreaks(said);
    BrokenBreaks(s.startRaises);
    BreaksJoin(said, Broken(s.startRaises));
    NothingCollected(Starting(cfg, s));
  }

  lemma ClosingBreaks(cfg: Config, s: Session)
    ensures Breaks(Closing(cfg, s))
            == if s.closeRaises.Some? then Raised(s.closeRaises) else if cfg.dispatcher then Raised(s.stoppedRaises) else []
    ensures Collections(Closing(cfg, s)) == []
  {
    var closed := Asked(s.stopWhileClosing) + [Closed];
    var stopping := Announced(cfg, Stopped);
    var last := if cfg.dispatcher then Broken(s.stoppedRaises) else [];
    NothingBreaks(closed);
    NothingBreaks(stopping);
    BrokenBreaks(s.closeRaises);
    BrokenBreaks(s.stoppedRaises);
    BreaksJoin(stopping, last);
    BreaksJoin(closed, if s.closeRaises.Some? then Broken(s.closeRaises) else stopping + last);
    NothingCollected(Closing(cfg, s));
  }

  // ---------------------------------------------------------------------------------------------
  // A run goes on
  // ---------------------------------------------------------------------------------------------

  /** A round in which a message arrives, nobody asks for a stop, and nothing but handling the message raises. */
  predicate Undisturbed(r: Round) {
    && Got(r).Some? && !Waited(false, r).stopped && !StopsIn(r)
    && r.failed.raises == None && r.settleRaises == None && r.resetRaises == None && r.runningRaises == None
  }

  function Gets(rounds: seq<Round>): seq<Env> {
    if rounds == [] then []
    else (if Got(rounds[0]).Some? then [Got(rounds[0]).value] else []) + Gets(rounds[1..])
  }

  /**
   Nothing but a stop, a receiver that ran dry or something that broke ends a run: for as long as rounds are undisturbed,
   whatever handlers raise, every message that arrives is collected.
   */
  lemma {:induction false} GoesOnUndisturbed(cfg: Config, rounds: seq<Round>, rest: seq<Round>)
    requires forall r :: r in rounds ==> Undisturbed(r)
    ensures Gets(rounds) <= Collections(Loop(cfg, false, rounds + rest).events)
    decreases |rounds|
  {
    if rounds != [] {
      var r, more := rounds[0], rounds[1..];
      assert r in rounds && rounds + rest == [r] + (more + rest);
      GoesOnUndisturbed(cfg, more, rest);
      UndisturbedRound(cfg, r, more + rest);
      assert Got(r).Some?;
    }
  }

  lemma UndisturbedRound(cfg: Config, r: Round, rest: seq<Round>)
    requires Undisturbed(r)
    ensures Collections(Loop(cfg, false, [r] + rest).events) == [Got(r).value] + Collections(Loop(cfg, false, rest).events)
  {
    var w, e := Waited(false, r), Got(r).value;
    var collecting, said, later := Collecting(cfg, w.events, e, r), Announcement(cfg, r), Loop(cfg, false, rest).events;
    LoopIs(cfg, false, e, r, rest);
    RoundBreaks(cfg, false, e, r);
    SettledBreaks(cfg, e, r);
    SettledCollectsNothing(cfg, e, r);
    CollectionsJoin(collecting, said);
    CollectionsJoin(collecting + said, later);
    assert [e] + [] == [e];
  }

  // ---------------------------------------------------------------------------------------------
  // A stop is never lost
  // ---------------------------------------------------------------------------------------------

  /** Once a stop was asked for, at most one more message is settled. */
  predicate StopsSoon(events: seq<Event>) {
    forall i :: 0 <= i < |events| && events[i].StopAsked? ==> SettledIn(events[i + 1..]) <= 1
  }

  lemma FewSettledStopsSoon(events: seq<Event>)
    requires SettledIn(events) <= 1
    ensures StopsSoon(events)
  {
    forall i | 0 <= i < |events| && events[i].StopAsked? ensures SettledIn(events[i + 1..]) <= 1 {
      SettlementsJoin(events[..i + 1], events[i + 1..]);
      assert events == events[..i + 1] + events[i + 1..];
    }
  }

  /** What comes before the first stop does not matter to how soon a run stops. */
  lemma StopsSoonAfter(quiet: seq<Event>, events: seq<Event>)
    requires StopAsked !in quiet && StopsSoon(events)
    ensures StopsSoon(quiet + events)
  {
    var all := quiet + events;
    assert forall k :: 0 <= k < |quiet| ==> all[k] == quiet[k] && quiet[k] in quiet;
    forall i | 0 <= i < |all| && all[i].StopAsked? ensures SettledIn(all[i + 1..]) <= 1 {
      assert all[i + 1..] == events[i - |quiet| + 1..];
    }
  }

  /** What settles nothing may follow. */
  lemma StopsSoonBefore(events: seq<Event>, idle: seq<Event>)
    requires SettledIn(idle) == 0 && StopsSoon(events)
    ensures StopsSoon(events + idle)
  {
    var all := events + idle;
    forall i | 0 <= i < |all| && all[i].StopAsked? ensures SettledIn(all[i + 1..]) <= 1 {
      if i < |events| {
        assert all[i + 1..] == events[i + 1..] + idle;
        SettlementsJoin(events[i + 1..], idle);
      } else {
        SettlementsJoin(idle[..i - |events| + 1], all[i + 1..]);
        assert idle == idle[..i - |events| + 1] + all[i + 1..];
      }
    }
  }

  /** Waiting settles nothing, and asks for a stop exactly when it ends with one set that it did not begin with. */
  lemma WaitIsQuiet(stop: bool, r: Round)
    ensures Settlements(Waited(stop, r).events) == []
    ensures Waited(stop, r).stopped <==> stop || StopAsked in Waited(stop, r).events
  {
    R.EndsEitherWay(stop, r.waiting);
    R.ReturnsWhatArrived(stop, r.waiting);
    R.RunKeeps(R.Begin(stop), r.waiting);
    NoSettlements(Waited(stop, r).events);
  }

  lemma CollectingSettlesOnce(cfg: Config, stop: bool, e: Env, r: Round)
    ensures SettledIn(Collecting(cfg, Waited(stop, r).events, e, r)) == 1 && SettledIn(Announcement(cfg, r)) == 0
  {
    var waited, settled := Waited(stop, r).events, Settled(cfg, e, r).events;
    WaitIsQuiet(stop, r);
    SettledOnceAsHandled(cfg, e, r);
    NoSettlements([Collected(e)]);
    NoSettlements(Announcement(cfg, r));
    SettlementsBetween(waited, [Collected(e)], settled);
  }

  lemma SettlementsBetween(a: seq<Event>, b: seq<Event>, c: seq<Event>)
    requires Settlements(a) == [] && Settlements(b) == []
    ensures Settlements(a + b + c) == Settlements(c)
  {
    SettlementsJoin(a, b);
    SettlementsJoin(a + b, c);
  }

  lemma NoStopInQuietRound(cfg: Config, waited: seq<Event>, e: Env, r: Round)
    requires !StopsIn(r) && StopAsked !in waited
    ensures StopAsked !in Collecting(cfg, waited, e, r) + Announcement(cfg, r)
  {
    var (handling, result) := Handling(cfg, NameOf(cfg, e), InHand(cfg, e), r);
    assert StopAsked !in handling;
    assert StopAsked !in Settling(cfg, NameOf(cfg, e), result, r).events;
    assert StopAsked !in Settled(cfg, e, r).events;
  }

  lemma {:induction false} LoopStopsSoon(cfg: Config, stop: bool, rounds: seq<Round>)
    ensures StopsSoon(Loop(cfg, stop, rounds).events)
    decreases |rounds|
  {
    if stop {
      LoopOnceStopped(cfg, rounds);
    } else if rounds != [] {
      var r := rounds[0];
      var w := Waited(false, r);
      WaitIsQuiet(false, r);
      R.EndsEitherWay(false, r.waiting);
      FewSettledStopsSoon(w.events);
      if w.phase.Returned? && w.phase.envelope.Some? {
        LoopStopsSoon(cfg, w.stopped || StopsIn(r), rounds[1..]);
        RoundStopsSoon(cfg, r, rounds[1..]);
        assert [r] + rounds[1..] == rounds;
      }
    }
  }

  lemma RoundStopsSoon(cfg: Config, r: Round, rest: seq<Round>)
    requires Got(r).Some?
    requires StopsSoon(Loop(cfg, Waited(false, r).stopped || StopsIn(r), rest).events)
    ensures StopsSoon(Loop(cfg, false, [r] + rest).events)
  {
    var w, e := Waited(false, r), Got(r).value;
    var collecting, round := Collecting(cfg, w.events, e, r), Collecting(cfg, w.events, e, r) + Announcement(cfg, r);
    assert ([r] + rest)[1..] == rest;
    CollectingSettlesOnce(cfg, false, e, r);
    SettlementsJoin(collecting, Announcement(cfg, r));
    FewSettledStopsSoon(collecting);
    FewSettledStopsSoon(round);
    if w.stopped || StopsIn(r) {
      LoopOnceStopped(cfg, rest);
      assert round + [] == round;
    } else {
      WaitIsQuiet(false, r);
      NoStopInQuietRound(cfg, w.events, e, r);
      StopsSoonAfter(round, Loop(cfg, false, rest).events);
    }
  }

  /**
   A stop asked for while the worker runs, wherever that is, lets it settle at most one more message:
   the one in hand, or the one that arrives together with the stop.
   */
  lemma StopWhileRunningIsHonoured(cfg: Config, c: Control, s: Session)
    ensures StopsSoon(Ran(cfg, c, s).events)
  {
    var stop := c.stopRequested || s.stopWhileStarting;
    StartedStopsSoon(cfg, s, stop);
    NoSettlements(Closing(cfg, s));
    StopsSoonBefore(Starting(cfg, s) + Loop(cfg, stop, s.rounds).events, Closing(cfg, s));
  }

  lemma StartedStopsSoon(cfg: Config, s: Session, stop: bool)
    requires s.stopWhileStarting ==> stop
    ensures StopsSoon(Starting(cfg, s)) && StopsSoon(Starting(cfg, s) + Loop(cfg, stop, s.rounds).events)
  {
    var starting, loop := Starting(cfg, s), Loop(cfg, stop, s.rounds).events;
    NoSettlements(starting);
    FewSettledStopsSoon(starting);
    LoopStopsSoon(cfg, stop, s.rounds);
    if s.stopWhileStarting {
      LoopOnceStopped(cfg, s.rounds);
      assert starting + [] == starting;
    } else {
      StopsSoonAfter(starting, loop);
    }
  }

  // ---------------------------------------------------------------------------------------------
  // Stops between runs
  // ---------------------------------------------------------------------------------------------

  /** What is done to a worker from outside: it is asked to stop while it is not running, or it is run. */
  datatype Act = Stop | Run(session: Session)

  predicate Raises(a: Act) {
    a.Run? && a.session.startRaises.Some?
  }

  function After(cfg: Config, c: Control, acts: seq<Act>): Control
    decreases |acts|
  {
    if acts == [] then c
    else After(cfg, if acts[0].Stop? then AfterStop(c) else AfterRun(cfg, c, acts[0].session), acts[1..])
  }

  /**
   A stop is waiting: asked for since the last run began to close. `behind` says that the last run raised as it
   started, after which a stop is not left for the next run.
   */
  function StopWaits(acts: seq<Act>, before: bool, behind: bool): bool
    decreases |acts|
  {
    if acts == [] then before
    else if acts[0].Stop? then StopWaits(acts[1..], before || !behind, behind)
    else StopWaits(acts[1..], !Raises(acts[0]) && acts[0].session.stopWhileClosing, Raises(acts[0]))
  }

  const AT_FIRST := Control(None, false)

  lemma {:induction false} StopsKept(cfg: Config, c: Control, acts: seq<Act>)
    ensures After(cfg, c, acts).stopRequested == StopWaits(acts, c.stopRequested, c.stopped.Some?)
    decreases |acts|
  {
    if acts != [] {
      StopsKept(cfg, if acts[0].Stop? then AfterStop(c) else AfterRun(cfg, c, acts[0].session), acts[1..]);
    }
  }

  lemma StoppedRunSettlesNothing(cfg: Config, c: Control, s: Session)
    requires c.stopRequested
    ensures SettledIn(Ran(cfg, c, s).events) == 0 && Collections(Ran(cfg, c, s).events) == []
  {
    var starting, closing := Starting(cfg, s), Closing(cfg, s);
    NoSettlements(starting);
    NoSettlements(closing);
    SettlementsJoin(starting, closing);
    LoopOnceStopped(cfg, s.rounds);
    assert starting + [] == starting;
    RunKeepsProtocol(cfg, c, s);
  }

  /**
   A stop asked for while the worker is not running makes the next run settle nothing, and only that
   run: after any history, the next run collects nothing if a stop is waiting, and otherwise runs as a
   worker never asked to stop does.
   */
  lemma StopBeforeRunIsHonoured(cfg: Config, acts: seq<Act>, s: Session)
    ensures var events := Ran(cfg, After(cfg, AT_FIRST, acts), s).events;
            if StopWaits(acts, false, false) then SettledIn(events) == 0 && Collections(events) == []
            else events == Ran(cfg, AT_FIRST, s).events
  {
    StopsKept(cfg, AT_FIRST, acts);
    if StopWaits(acts, false, false) {
      StoppedRunSettlesNothing(cfg, After(cfg, AT_FIRST, acts), s);
    }
  }

  /** The last run so far raised as it started. */
  predicate LastRunRaised(acts: seq<Act>, before: bool)
    decreases |acts|
  {
    if acts == [] then before else LastRunRaised(acts[1..], if acts[0].Stop? then before else Raises(acts[0]))
  }

  lemma {:induction false} EventLeftBehind(cfg: Config, c: Control, acts: seq<Act>)
    requires c.stopped.Some? ==> !c.stopRequested
    ensures var after := After(cfg, c, acts);
            && (after.stopped.Some? <==> LastRunRaised(acts, c.stopped.Some?))
            && (after.stopped.Some? ==> !after.stopRequested)
    decreases |acts|
  {
    if acts != [] {
      EventLeftBehind(cfg, if acts[0].Stop? then AfterStop(c) else AfterRun(cfg, c, acts[0].session), acts[1..]);
    }
  }

  /**
   When a stop asked for between runs is honoured, for every history: exactly when the last run did not raise
   as it started. Such a run leaves its event behind, and `stop` sets that event instead of leaving word, so
   the next run goes on as if the worker had never been asked.
   */
  lemma StopLostExactlyAfterFailedStart(cfg: Config, acts: seq<Act>, s: Session)
    ensures var stopped := Ran(cfg, AfterStop(After(cfg, AT_FIRST, acts)), s).events;
            if LastRunRaised(acts, false) then stopped == Ran(cfg, AT_FIRST, s).events
            else SettledIn(stopped) == 0 && Collections(stopped) == []
  {
    EventLeftBehind(cfg, AT_FIRST, acts);
    if !LastRunRaised(acts, false) {
      StoppedRunSettlesNothing(cfg, AfterStop(After(cfg, AT_FIRST, acts)), s);
    }
  }

  /** For instance: a start that raised, a stop, and a run that settles the message waiting all the same. */
  lemma StopLostForInstance(e: Env)
    ensures var cfg := Config(true, false, None);
            var failed := Session(Some(Plain("RuntimeError", "listener")), false, [], false, None, None);
            var next := Session(None, false, [Quiet(e)], false, None, None);
            SettledIn(Ran(cfg, After(cfg, AT_FIRST, [Run(failed), Stop]), next).events) == 1
  {
    var cfg := Config(true, false, None);
    var failed := Session(Some(Plain("RuntimeError", "listener")), false, [], false, None, None);
    var next := Session(None, false, [Quiet(e)], false, None, None);
    assert [Run(failed), Stop][1..] == [Stop] && [Stop][1..] == [];
    assert After(cfg, AT_FIRST, [Run(failed), Stop]) == Control(Some(true), false);
    var one := Quiet(e);
    var waited := Waited(false, one).events;
    CollectingSettlesOnce(cfg, false, e, one);
    var round := Collecting(cfg, waited, e, one) + Announcement(cfg, one);
    assert [one][1..] == [];
    assert Loop(cfg, false, [one]).events == round + [];
    NoSettlements(Starting(cfg, next));
    NoSettlements(Closing(cfg, next));
    SettlementsJoin(Collecting(cfg, waited, e, one), Announcement(cfg, one));
    SettlementsJoin(round, []);
    SettlementsJoin(Starting(cfg, next), round + []);
    SettlementsJoin(Starting(cfg, next) + (round + []), Closing(cfg, next));
  }

  /** `e` is delivered at once and handled, and nothing else happens. */
  function Quiet(e: Env): Round {
    var nothing := Listener([], None);
    Round(R.AtOnce(R.Delivered(e)), nothing, false, Dispatched(e), nothing, nothing, None, None, None, false, false, false)
  }
}
