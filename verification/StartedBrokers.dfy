/**
 The brokers one owner opened for publishing, and the calls of one event loop that share the record.

 A call runs without interruption from one `await` to the next; which call goes on is any choice. A call is
 known by its position in `calls`, where the local variables it keeps while suspended are. Calls may be
 cancelled wherever they are suspended.
 */
module StartedBrokers {
  import opened Envelopes
  import opened Sequences

  datatype Broker = Broker(id: nat, isWorkerProcess: bool)

  datatype Call =
    | Queued(broker: Broker)                                            // waiting for the lock
    | Starting(broker: Broker)                                          // waiting for `startup()`
    | Closing(snapshot: seq<Broker>, at: nat, failures: seq<Broker>)    // waiting for `shutdown()` of `snapshot[at]`
    | Returned
    | Raised
    | Closed(snapshot: seq<Broker>, failures: seq<Broker>)

  /** What happened to brokers: a startup completed, the record was dropped, a shutdown was called, one raised. */
  datatype Event =
    | Opened(broker: Broker)
    | Forgotten(broker: Broker)
    | ShutDown(closer: nat, broker: Broker, wasRecorded: bool)
    | ShutdownRaised(closer: nat, broker: Broker)

  /** `lock` names the call that holds it. `log` is a history. */
  datatype State = State(started: set<Broker>, lock: Option<nat>, calls: seq<Call>, log: seq<Event>)

  datatype Move =
    | EnsureStarted(broker: Broker)
    | LockAcquired(call: nat)
    | StartupEnds(call: nat, raised: bool)
    | Forget(broker: Broker)
    | CloseAll(order: seq<Broker>)
    | ShutdownEnds(call: nat, raised: bool)
    | Cancel(call: nat)

  function Initially(): State {
    State({}, None, [], [])
  }

  function Discarded(s: State, closer: nat, b: Broker): State {
    s.(started := s.started - {b}, log := s.log + [ShutDown(closer, b, b in s.started)])
  }

  /** The log with a shutdown's failure, if it failed. */
  function Noted(log: seq<Event>, closer: nat, b: Broker, raised: bool): seq<Event> {
    if raised then log + [ShutdownRaised(closer, b)] else log
  }

  /** Whether the move is possible: the call it moves is suspended at the right place. */
  ghost predicate Can(s: State, m: Move) {
    match m
    case EnsureStarted(_) => true
    case LockAcquired(i) => i < |s.calls| && s.calls[i].Queued? && s.lock == None
    case StartupEnds(i, _) => i < |s.calls| && s.calls[i].Starting?
    case Forget(_) => true
    case CloseAll(order) => Lists(order, s.started)
    case ShutdownEnds(i, _) => i < |s.calls| && s.calls[i].Closing? && s.calls[i].at < |s.calls[i].snapshot|
    case Cancel(i) => i < |s.calls| && (s.calls[i].Queued? || s.calls[i].Starting? || s.calls[i].Closing?)
  }

  /** A set is listed in some order, each of its elements once. */
  ghost predicate Lists(order: seq<Broker>, brokers: set<Broker>) {
    NoRepeats(order) && forall b :: b in order <==> b in brokers
  }

  function Apply(s: State, m: Move): State
    requires Can(s, m)
  {
    match m
    case EnsureStarted(b) =>
      s.(calls := s.calls + [if b.isWorkerProcess || b in s.started then Returned else Queued(b)])
    case LockAcquired(i) =>
      var b := s.calls[i].broker;
      if b in s.started then s.(calls := s.calls[i := Returned])
      else s.(lock := Some(i), calls := s.calls[i := Starting(b)])
    case StartupEnds(i, raised) =>
      var b := s.calls[i].broker;
      if raised then s.(lock := None, calls := s.calls[i := Raised])
      else s.(started := s.started + {b}, lock := None, calls := s.calls[i := Returned], log := s.log + [Opened(b)])
    case Forget(b) =>
      if b in s.started then s.(started := s.started - {b}, log := s.log + [Forgotten(b)]) else s
    case CloseAll(order) =>
      if order == [] then s.(calls := s.calls + [Closed([], [])])
      else Discarded(s.(calls := s.calls + [Closing(order, 0, [])]), |s.calls|, order[0])
    case ShutdownEnds(i, raised) =>
      var Closing(snapshot, at, failures) := s.calls[i];
      var failed := if raised then failures + [snapshot[at]] else failures;
      var noted := s.(log := Noted(s.log, i, snapshot[at], raised));
      if at + 1 == |snapshot| then noted.(calls := s.calls[i := Closed(snapshot, failed)])
      else Discarded(noted.(calls := s.calls[i := Closing(snapshot, at + 1, failed)]), i, snapshot[at + 1])
    case Cancel(i) =>
      s.(lock := if s.calls[i].Starting? then None else s.lock, calls := s.calls[i := Raised])
  }

  ghost function Run(s: State, moves: seq<Move>): State
    decreases |moves|
  {
    if moves == [] then s
    else Run(if Can(s, moves[0]) then Apply(s, moves[0]) else s, moves[1..])
  }

  // ---------------------------------------------------------------------------------------------
  // What every run keeps
  // ---------------------------------------------------------------------------------------------

  /** What `log` leaves recorded of `b`, or nothing when it opened an open broker or dropped a record that was not there. */
  function Recorded(log: seq<Event>, b: Broker): Option<bool> {
    if log == [] then Some(false)
    else
      var before := Recorded(log[..|log| - 1], b);
      match log[|log| - 1]
      case Opened(x) => if x != b then before else if before == Some(false) then Some(true) else None
      case Forgotten(x) => if x != b then before else if before == Some(true) then Some(false) else None
      case ShutDown(_, x, was) => if x != b then before else if before == Some(was) then Some(false) else None
      case ShutdownRaised(_, _) => before
  }

  /** The brokers `closer` called `shutdown` on, in order. */
  function ShutBy(log: seq<Event>, closer: nat): seq<Broker> {
    if log == [] then []
    else
      var before := ShutBy(log[..|log| - 1], closer);
      var e := log[|log| - 1];
      if e.ShutDown? && e.closer == closer then before + [e.broker] else before
  }

  function FailedFor(log: seq<Event>, closer: nat): seq<Broker> {
    if log == [] then []
    else
      var before := FailedFor(log[..|log| - 1], closer);
      var e := log[|log| - 1];
      if e.ShutdownRaised? && e.closer == closer then before + [e.broker] else before
  }

  /** The lock is held by the one call whose startup is under way, of a broker not recorded. */
  ghost predicate OneStarts(s: State) {
    && (s.lock.Some? ==> s.lock.value < |s.calls| && s.calls[s.lock.value].Starting?)
    && (forall i | 0 <= i < |s.calls| && s.calls[i].Starting? :: s.lock == Some(i) && s.calls[i].broker !in s.started)
  }

  ghost predicate WorkersApart(s: State) {
    && (forall b :: b in s.started ==> !b.isWorkerProcess)
    && (forall i | 0 <= i < |s.calls| && (s.calls[i].Queued? || s.calls[i].Starting?) :: !s.calls[i].broker.isWorkerProcess)
  }

  ghost predicate LogRight(s: State) {
    forall b :: Recorded(s.log, b) == Some(b in s.started)
  }

  ghost predicate CloserRight(s: State, i: nat)
    requires i < |s.calls|
  {
    match s.calls[i]
    case Closing(snapshot, at, failures) =>
      && at < |snapshot| && NoRepeats(snapshot)
      && ShutBy(s.log, i) == snapshot[..at + 1] && FailedFor(s.log, i) == failures
    case Closed(snapshot, failures) =>
      NoRepeats(snapshot) && ShutBy(s.log, i) == snapshot && FailedFor(s.log, i) == failures
    case Raised => true
    case _ => ShutBy(s.log, i) == [] && FailedFor(s.log, i) == []
  }

  ghost predicate ClosersRight(s: State) {
    && (forall i: nat | i < |s.calls| :: CloserRight(s, i))
    && (forall i: nat | |s.calls| <= i :: ShutBy(s.log, i) == [] && FailedFor(s.log, i) == [])
  }

  ghost predicate Inv(s: State) {
    OneStarts(s) && WorkersApart(s) && LogRight(s) && ClosersRight(s)
  }

  /** One more event moves the record of its own broker only. */
  lemma EventRecords(log: seq<Event>, e: Event, started: set<Broker>, b: Broker)
    requires Recorded(log, b) == Some(b in started)
    requires e.Opened? ==> e.broker !in started
    requires e.Forgotten? ==> e.broker in started
    requires e.ShutDown? ==> e.wasRecorded == (e.broker in started)
    ensures Recorded(log + [e], b) == Some(b in
              if e.Opened? then started + {e.broker} else if e.ShutdownRaised? then started else started - {e.broker})
  {
    assert (log + [e])[..|log + [e]| - 1] == log;
  }

  /** One more event is on the account of its own closer only. */
  lemma EventCloses(log: seq<Event>, e: Event, i: nat)
    ensures ShutBy(log + [e], i) == if e.ShutDown? && e.closer == i then ShutBy(log, i) + [e.broker] else ShutBy(log, i)
    ensures FailedFor(log + [e], i)
            == if e.ShutdownRaised? && e.closer == i then FailedFor(log, i) + [e.broker] else FailedFor(log, i)
  {
    assert (log + [e])[..|log + [e]| - 1] == log;
  }

  lemma OneStartsKept(s: State, m: Move)
    requires OneStarts(s) && Can(s, m)
    ensures OneStarts(Apply(s, m))
  {
  }

  lemma WorkersStayApart(s: State, m: Move)
    requires WorkersApart(s) && Can(s, m)
    ensures WorkersApart(Apply(s, m))
  {
  }

  /** A call that moves on and shuts nothing down leaves every closer as it was. */
  lemma QuietMove(s: State, m: Move)
    requires LogRight(s) && ClosersRight(s) && Can(s, m)
    requires m.EnsureStarted? || m.LockAcquired? || m.Cancel?
    ensures LogRight(Apply(s, m)) && ClosersRight(Apply(s, m))
  {
    var t := Apply(s, m);
    forall i: nat | i < |t.calls| ensures CloserRight(t, i) {
      assert i < |s.calls| ==> CloserRight(s, i);
    }
  }

  /** A move that adds `e`, no shutdown of any closer, to the log, and leaves each closer where it was. */
  lemma RecordMove(s: State, t: State, e: Event)
    requires LogRight(s) && ClosersRight(s) && t.log == s.log + [e] && |t.calls| == |s.calls|
    requires (e.Opened? && e.broker !in s.started && t.started == s.started + {e.broker})
             || (e.Forgotten? && e.broker in s.started && t.started == s.started - {e.broker})
    requires forall i :: 0 <= i < |s.calls| ==> t.calls[i] == s.calls[i] || (s.calls[i].Starting? && !t.calls[i].Closing? && !t.calls[i].Closed?)
    ensures LogRight(t) && ClosersRight(t)
  {
    forall b ensures Recorded(t.log, b) == Some(b in t.started) {
      EventRecords(s.log, e, s.started, b);
    }
    forall i: nat ensures ShutBy(t.log, i) == ShutBy(s.log, i) && FailedFor(t.log, i) == FailedFor(s.log, i) {
      EventCloses(s.log, e, i);
    }
    forall i: nat | i < |t.calls| ensures CloserRight(t, i) {
      assert CloserRight(s, i);
    }
  }

  lemma StartupMove(s: State, call: nat, raised: bool)
    requires LogRight(s) && OneStarts(s) && ClosersRight(s) && Can(s, StartupEnds(call, raised))
    ensures LogRight(Apply(s, StartupEnds(call, raised))) && ClosersRight(Apply(s, StartupEnds(call, raised)))
  {
    var t := Apply(s, StartupEnds(call, raised));
    if raised {
      forall i: nat | i < |t.calls| ensures CloserRight(t, i) {
        assert CloserRight(s, i);
      }
    } else {
      RecordMove(s, t, Opened(s.calls[call].broker));
    }
  }

  lemma CloseAllMove(s: State, order: seq<Broker>)
    requires LogRight(s) && ClosersRight(s) && Can(s, CloseAll(order))
    ensures LogRight(Apply(s, CloseAll(order))) && ClosersRight(Apply(s, CloseAll(order)))
  {
    var t := Apply(s, CloseAll(order));
    if order != [] {
      var e := ShutDown(|s.calls|, order[0], order[0] in s.started);
      forall b ensures Recorded(t.log, b) == Some(b in t.started) {
        EventRecords(s.log, e, s.started, b);
      }
      forall i: nat
        ensures ShutBy(t.log, i) == if i == |s.calls| then [order[0]] else ShutBy(s.log, i)
        ensures FailedFor(t.log, i) == FailedFor(s.log, i)
      {
        EventCloses(s.log, e, i);
      }
      assert order[..1] == [order[0]];
    }
    forall i: nat | i < |t.calls| ensures CloserRight(t, i) {
      assert i < |s.calls| ==> CloserRight(s, i);
    }
  }

  /** Ending one shutdown, and calling the next if there is one, keeps the log right. */
  lemma ShutdownRecords(s: State, call: nat, raised: bool, b: Broker)
    requires LogRight(s) && Can(s, ShutdownEnds(call, raised))
    ensures var t := Apply(s, ShutdownEnds(call, raised)); Recorded(t.log, b) == Some(b in t.started)
  {
    var Closing(snapshot, at, _) := s.calls[call];
    EventRecords(s.log, ShutdownRaised(call, snapshot[at]), s.started, b);
    if at + 1 < |snapshot| {
      var next := snapshot[at + 1];
      EventRecords(Noted(s.log, call, snapshot[at], raised), ShutDown(call, next, next in s.started), s.started, b);
    }
  }

  lemma NotedCloses(log: seq<Event>, call: nat, b: Broker, raised: bool, i: nat)
    ensures ShutBy(Noted(log, call, b, raised), i) == ShutBy(log, i)
    ensures FailedFor(Noted(log, call, b, raised), i) == if raised && i == call then FailedFor(log, i) + [b] else FailedFor(log, i)
  {
    EventCloses(log, ShutdownRaised(call, b), i);
  }

  /** It is on the account of the call that shut down, and of no other. */
  lemma ShutdownCloses(s: State, call: nat, raised: bool, i: nat)
    requires Can(s, ShutdownEnds(call, raised))
    ensures var t := Apply(s, ShutdownEnds(call, raised));
            var Closing(snapshot, at, _) := s.calls[call];
            && FailedFor(t.log, i) == (if raised && i == call then FailedFor(s.log, i) + [snapshot[at]] else FailedFor(s.log, i))
            && ShutBy(t.log, i)
               == (if at + 1 < |snapshot| && i == call then ShutBy(s.log, i) + [snapshot[at + 1]] else ShutBy(s.log, i))
  {
    var Closing(snapshot, at, _) := s.calls[call];
    var noted := Noted(s.log, call, snapshot[at], raised);
    NotedCloses(s.log, call, snapshot[at], raised, i);
    if at + 1 < |snapshot| {
      EventCloses(noted, ShutDown(call, snapshot[at + 1], snapshot[at + 1] in s.started), i);
    }
  }

  lemma OthersUnmoved(s: State, call: nat, raised: bool, i: nat)
    requires Can(s, ShutdownEnds(call, raised)) && i < |s.calls| && i != call && CloserRight(s, i)
    ensures CloserRight(Apply(s, ShutdownEnds(call, raised)), i)
  {
    var t := Apply(s, ShutdownEnds(call, raised));
    ShutdownCloses(s, call, raised, i);
    assert t.calls[i] == s.calls[i] && ShutBy(t.log, i) == ShutBy(s.log, i) && FailedFor(t.log, i) == FailedFor(s.log, i);
  }

  lemma OneMoreShut(shut: seq<Broker>, snapshot: seq<Broker>, at: nat)
    requires at < |snapshot| && shut == snapshot[..at + 1]
    ensures at + 1 < |snapshot| ==> shut + [snapshot[at + 1]] == snapshot[..at + 2]
    ensures at + 1 == |snapshot| ==> shut == snapshot
  {
  }

  /** The call that shut down moves one broker on, or ends. */
  lemma CloserMoves(s: State, call: nat, raised: bool)
    requires Can(s, ShutdownEnds(call, raised)) && CloserRight(s, call)
    ensures CloserRight(Apply(s, ShutdownEnds(call, raised)), call)
  {
    ShutdownCloses(s, call, raised, call);
    OneMoreShut(ShutBy(s.log, call), s.calls[call].snapshot, s.calls[call].at);
  }

  lemma ShutdownMove(s: State, call: nat, raised: bool)
    requires LogRight(s) && ClosersRight(s) && Can(s, ShutdownEnds(call, raised))
    ensures LogRight(Apply(s, ShutdownEnds(call, raised))) && ClosersRight(Apply(s, ShutdownEnds(call, raised)))
  {
    var t := Apply(s, ShutdownEnds(call, raised));
    forall b ensures Recorded(t.log, b) == Some(b in t.started) {
      ShutdownRecords(s, call, raised, b);
    }
    forall i: nat | i < |t.calls| ensures CloserRight(t, i) {
      assert CloserRight(s, i);
      if i == call { CloserMoves(s, call, raised); } else { OthersUnmoved(s, call, raised, i); }
    }
    forall i: nat | |t.calls| <= i ensures ShutBy(t.log, i) == [] && FailedFor(t.log, i) == [] {
      ShutdownCloses(s, call, raised, i);
    }
  }

  lemma ApplyKeeps(s: State, m: Move)
    requires Inv(s) && Can(s, m)
    ensures Inv(Apply(s, m))
  {
    OneStartsKept(s, m);
    WorkersStayApart(s, m);
    match m
    case CloseAll(order) => CloseAllMove(s, order);
    case ShutdownEnds(call, raised) => ShutdownMove(s, call, raised);
    case StartupEnds(call, raised) => StartupMove(s, call, raised);
    case Forget(b) => if b in s.started { RecordMove(s, Apply(s, m), Forgotten(b)); }
    case _ => QuietMove(s, m);
  }

  lemma {:induction false} RunKeeps(s: State, moves: seq<Move>)
    requires Inv(s)
    ensures Inv(Run(s, moves))
    decreases |moves|
  {
    if moves != [] {
      if Can(s, moves[0]) {
        ApplyKeeps(s, moves[0]);
        RunKeeps(Apply(s, moves[0]), moves[1..]);
      } else {
        RunKeeps(s, moves[1..]);
      }
    }
  }

  // ---------------------------------------------------------------------------------------------
  // What a caller can rely on
  // ---------------------------------------------------------------------------------------------

  /** How often `which` holds in `log`. */
  ghost function Times(log: seq<Event>, which: Event -> bool): nat {
    if log == [] then 0
    else Times(log[..|log| - 1], which) + (if which(log[|log| - 1]) then 1 else 0)
  }

  ghost function Opens(b: Broker): Event -> bool {
    e => e == Opened(b)
  }

  /** The record of `b` was really removed: what dropped it found it there. */
  ghost function Removes(b: Broker): Event -> bool {
    e => e == Forgotten(b) || (e.ShutDown? && e.broker == b && e.wasRecorded)
  }

  lemma {:induction false} RecordCounts(log: seq<Event>, b: Broker)
    requires Recorded(log, b).Some?
    ensures Times(log, Opens(b)) == Times(log, Removes(b)) + (if Recorded(log, b).value then 1 else 0)
  {
    if log != [] {
      RecordCounts(log[..|log| - 1], b);
    }
  }

  /**
   In every run, for every broker: its completed startups are as many as the times it was removed from the
   record, and one more if it is recorded now. A worker's broker is never recorded, and one startup at most is
   under way, of a broker that is not recorded.
   */
  lemma OpenedOnce(moves: seq<Move>, b: Broker)
    ensures var s := Run(Initially(), moves);
            && Times(s.log, Opens(b)) == Times(s.log, Removes(b)) + (if b in s.started then 1 else 0)
            && (b.isWorkerProcess ==> b !in s.started)
            && (forall i, j | 0 <= i < |s.calls| && 0 <= j < |s.calls| && s.calls[i].Starting? && s.calls[j].Starting? ::
                  i == j && s.calls[i].broker !in s.started)
  {
    RunKeeps(Initially(), moves);
    RecordCounts(Run(Initially(), moves).log, b);
  }

  ghost predicate OfSnapshot(c: Call, snapshot: seq<Broker>) {
    match c
    case Closing(of, _, _) => of == snapshot
    case Closed(of, _) => of == snapshot
    case _ => false
  }

  lemma {:induction false} RaisedStays(s: State, moves: seq<Move>, i: nat)
    requires i < |s.calls| && s.calls[i].Raised?
    ensures i < |Run(s, moves).calls| && Run(s, moves).calls[i].Raised?
    decreases |moves|
  {
    if moves != [] {
      RaisedStays(if Can(s, moves[0]) then Apply(s, moves[0]) else s, moves[1..], i);
    }
  }

  /** A `close_all` under way goes on with its snapshot, and stops short of closing only by being cancelled. */
  lemma {:induction false} SnapshotStays(s: State, moves: seq<Move>, i: nat, snapshot: seq<Broker>)
    requires i < |s.calls| && OfSnapshot(s.calls[i], snapshot)
    ensures i < |Run(s, moves).calls|
    ensures OfSnapshot(Run(s, moves).calls[i], snapshot) || (Run(s, moves).calls[i].Raised? && Cancel(i) in moves)
    decreases |moves|
  {
    if moves != [] {
      var t := if Can(s, moves[0]) then Apply(s, moves[0]) else s;
      if OfSnapshot(t.calls[i], snapshot) {
        SnapshotStays(t, moves[1..], i, snapshot);
      } else {
        assert moves[0] == Cancel(i);
        RaisedStays(t, moves[1..], i);
      }
    }
  }

  /**
   Whatever else runs meanwhile, a `close_all` that is not cancelled goes on, whichever shutdowns raise, until every
   broker recorded when it began was shut down by it exactly once, and reports every failure, in order.
   */
  lemma ClosesEachOnce(before: seq<Move>, order: seq<Broker>, after: seq<Move>)
    requires Can(Run(Initially(), before), CloseAll(order))
    ensures var s := Run(Initially(), before);
            var t := Run(Apply(s, CloseAll(order)), after);
            && |s.calls| < |t.calls|
            && Lists(order, s.started)
            && var c := t.calls[|s.calls|];
               || (c.Closing? && c.at < |order| && ShutBy(t.log, |s.calls|) == order[..c.at + 1] && c.failures == FailedFor(t.log, |s.calls|))
               || (c.Closed? && ShutBy(t.log, |s.calls|) == order && c.failures == FailedFor(t.log, |s.calls|))
               || (c.Raised? && Cancel(|s.calls|) in after)
  {
    var s := Run(Initially(), before);
    RunKeeps(Initially(), before);
    var closing := Apply(s, CloseAll(order));
    ApplyKeeps(s, CloseAll(order));
    RunKeeps(closing, after);
    SnapshotStays(closing, after, |s.calls|, order);
    assert CloserRight(Run(closing, after), |s.calls|);
  }

  /** A call that returns by this move returns with its broker recorded, or a worker's. */
  lemma ReturnsOpen(s: State, m: Move, i: nat)
    requires WorkersApart(s) && Can(s, m) && i < |s.calls| && !s.calls[i].Returned? && Apply(s, m).calls[i].Returned?
    ensures (s.calls[i].Queued? || s.calls[i].Starting?) && s.calls[i].broker in Apply(s, m).started
    ensures m != StartupEnds(i, true)
  {
  }

  /** What an `ensure_started` for `b` is, until it returns. */
  ghost predicate Wants(c: Call, b: Broker) {
    (c.Queued? && c.broker == b) || (c.Starting? && c.broker == b) || c.Raised?
  }

  /** At some moment of the run the call had returned, and `b` was recorded. */
  ghost predicate ReturnedRecorded(s: State, moves: seq<Move>, i: nat, b: Broker) {
    exists n :: 0 <= n <= |moves| && IsReturnedRecorded(Run(s, moves[..n]), i, b)
  }

  ghost predicate IsReturnedRecorded(s: State, i: nat, b: Broker) {
    i < |s.calls| && s.calls[i].Returned? && b in s.started
  }

  lemma {:induction false} WantsUntilReturned(s: State, moves: seq<Move>, i: nat, b: Broker)
    requires Inv(s) && i < |s.calls| && Wants(s.calls[i], b)
    ensures i < |Run(s, moves).calls|
    ensures Wants(Run(s, moves).calls[i], b) || (Run(s, moves).calls[i].Returned? && ReturnedRecorded(s, moves, i, b))
    decreases |moves|
  {
    if moves != [] {
      var less, m := moves[..|moves| - 1], moves[|moves| - 1];
      WantsUntilReturned(s, less, i, b);
      assert moves == less + [m] && moves[..|moves|] == moves;
      RunLast(s, less, m);
      RunKeeps(s, less);
      var u := Run(s, less);
      if Wants(u.calls[i], b) {
        if Can(u, m) && Apply(u, m).calls[i].Returned? {
          ReturnsOpen(u, m, i);
          assert IsReturnedRecorded(Run(s, moves[..|moves|]), i, b);
        }
      } else {
        var n :| 0 <= n <= |less| && IsReturnedRecorded(Run(s, less[..n]), i, b);
        assert moves[..n] == less[..n];
      }
    }
  }

  /**
   What a return promises. In every run, an `ensure_started` that returned was for a worker's broker, or
   returned at a moment its broker was recorded.
   */
  lemma ReturnedWhenOpen(before: seq<Move>, b: Broker, after: seq<Move>)
    ensures var s := Run(Initially(), before);
            var i := |s.calls|;
            var began := Apply(s, EnsureStarted(b));
            && i < |Run(began, after).calls|
            && (Run(began, after).calls[i].Returned? ==> b.isWorkerProcess || ReturnedRecorded(began, after, i, b))
  {
    var s := Run(Initially(), before);
    var began := Apply(s, EnsureStarted(b));
    RunKeeps(Initially(), before);
    ApplyKeeps(s, EnsureStarted(b));
    CallsStay(began, after);
    if b in s.started {
      assert after[..0] == [] && IsReturnedRecorded(Run(began, after[..0]), |s.calls|, b);
    } else if !b.isWorkerProcess {
      WantsUntilReturned(began, after, |s.calls|, b);
    }
  }

  lemma {:induction false} CallsStay(s: State, moves: seq<Move>)
    ensures |s.calls| <= |Run(s, moves).calls|
    decreases |moves|
  {
    if moves != [] {
      CallsStay(if Can(s, moves[0]) then Apply(s, moves[0]) else s, moves[1..]);
    }
  }

  /** A startup that raised ends its call for good, and not by returning. */
  lemma RaisedStartupNeverReturns(s: State, i: nat, after: seq<Move>)
    requires Can(s, StartupEnds(i, true))
    ensures var t := Run(Apply(s, StartupEnds(i, true)), after); i < |t.calls| && t.calls[i].Raised?
  {
    RaisedStays(Apply(s, StartupEnds(i, true)), after, i);
  }

  // ---------------------------------------------------------------------------------------------
  // When each connection is shut down once
  // ---------------------------------------------------------------------------------------------

  ghost function Shuts(b: Broker): Event -> bool {
    (e: Event) => e.ShutDown? && e.broker == b
  }

  /** `b` was shut down more often than it was opened. */
  ghost predicate OverShut(log: seq<Event>, b: Broker) {
    Times(log, Shuts(b)) > Times(log, Opens(b))
  }

  /** Nothing was forgotten by hand, and every shutdown so far was of a broker recorded as open. */
  ghost predicate Clean(log: seq<Event>) {
    forall e :: e in log ==> !e.Forgotten? && (e.ShutDown? ==> e.wasRecorded)
  }

  /** The `close_all` call `i` is under way, and `b` is in its snapshot, still to be shut down. */
  ghost predicate Ahead(s: State, i: nat, b: Broker) {
    i < |s.calls| && s.calls[i].Closing?
    && exists k :: s.calls[i].at < k < |s.calls[i].snapshot| && s.calls[i].snapshot[k] == b
  }

  /** What is ahead of a call is recorded, and ahead of no other call. */
  ghost predicate Apart(s: State) {
    && (forall i, b :: Ahead(s, i, b) ==> b in s.started)
    && (forall i, j, b :: Ahead(s, i, b) && Ahead(s, j, b) ==> i == j)
  }

  /** Some call under way still has a recorded broker ahead. */
  ghost predicate RecordedAhead(s: State) {
    exists i, b :: Ahead(s, i, b) && b in s.started
  }

  /** What goes on by itself: nothing is forgotten by hand, and no further `close_all` begins. */
  ghost predicate GoesOn(moves: seq<Move>) {
    forall m :: m in moves ==> !m.Forget? && !m.CloseAll?
  }

  /** What is under way can end with a broker shut down more often than it was opened. */
  ghost predicate CanOverShut(s: State) {
    exists moves, b :: GoesOn(moves) && OverShut(Run(s, moves).log, b)
  }

  lemma {:induction false} CleanCounts(log: seq<Event>, b: Broker)
    requires Clean(log)
    ensures Times(log, Removes(b)) == Times(log, Shuts(b))
  {
    if log != [] {
      CleanCounts(log[..|log| - 1], b);
      assert log[|log| - 1] in log;
    }
  }

  lemma {:induction false} ShutsAtLeastRemoves(log: seq<Event>, b: Broker)
    requires forall e :: e in log ==> !e.Forgotten?
    ensures Times(log, Removes(b)) <= Times(log, Shuts(b))
  {
    if log != [] {
      ShutsAtLeastRemoves(log[..|log| - 1], b);
      assert log[|log| - 1] in log;
    }
  }

  lemma TimesGrows(log: seq<Event>, e: Event, which: Event -> bool)
    ensures Times(log + [e], which) == Times(log, which) + (if which(e) then 1 else 0)
  {
    assert (log + [e])[..|log + [e]| - 1] == log;
  }

  lemma CleanIsNotOverShut(s: State, b: Broker)
    requires Inv(s) && Clean(s.log)
    ensures Times(s.log, Opens(b)) == Times(s.log, Shuts(b)) + (if b in s.started then 1 else 0)
  {
    CleanCounts(s.log, b);
    assert Recorded(s.log, b) == Some(b in s.started);
    RecordCounts(s.log, b);
  }

  /** Apart calls stay apart, and shut down recorded brokers only, while no further one begins beside them. */
  lemma ApartKeeps(s: State, m: Move)
    requires Inv(s) && Clean(s.log) && Apart(s) && Can(s, m) && !m.Forget? && (m.CloseAll? ==> !RecordedAhead(s))
    ensures Clean(Apply(s, m).log) && Apart(Apply(s, m))
  {
    if m.ShutdownEnds? {
      ShutdownKeepsApart(s, m.call, m.raised);
    } else if m.CloseAll? {
      BegunApart(s, m.order);
    } else {
      OpeningKeepsApart(s, m);
    }
  }

  lemma OpeningKeepsApart(s: State, m: Move)
    requires Clean(s.log) && Apart(s) && Can(s, m) && !m.Forget? && !m.CloseAll? && !m.ShutdownEnds?
    ensures Clean(Apply(s, m).log) && Apart(Apply(s, m))
  {
    var t := Apply(s, m);
    assert s.started <= t.started;
    forall i: nat, b | Ahead(t, i, b) ensures Ahead(s, i, b) {
      var k :| t.calls[i].at < k < |t.calls[i].snapshot| && t.calls[i].snapshot[k] == b;
      assert i < |s.calls| && t.calls[i] == s.calls[i];
    }
  }

  /** What is ahead once one shutdown ended was ahead before, and is not the broker shut down next. */
  lemma AheadBefore(s: State, call: nat, raised: bool, i: nat, b: Broker)
    requires Inv(s) && Can(s, ShutdownEnds(call, raised)) && Ahead(Apply(s, ShutdownEnds(call, raised)), i, b)
    ensures Ahead(s, i, b) && (i == call ==> b != s.calls[call].snapshot[s.calls[call].at + 1])
  {
    assert CloserRight(s, call);
    var t := Apply(s, ShutdownEnds(call, raised));
    var k :| t.calls[i].at < k < |t.calls[i].snapshot| && t.calls[i].snapshot[k] == b;
    assert s.calls[i].at < k < |s.calls[i].snapshot| && s.calls[i].snapshot[k] == b;
  }

  lemma ShutdownKeepsApart(s: State, call: nat, raised: bool)
    requires Inv(s) && Clean(s.log) && Apart(s) && Can(s, ShutdownEnds(call, raised))
    ensures Clean(Apply(s, ShutdownEnds(call, raised)).log) && Apart(Apply(s, ShutdownEnds(call, raised)))
  {
    var t := Apply(s, ShutdownEnds(call, raised));
    var Closing(snapshot, at, _) := s.calls[call];
    if at + 1 < |snapshot| {
      assert Ahead(s, call, snapshot[at + 1]);
    }
    forall i: nat, b | Ahead(t, i, b) ensures Ahead(s, i, b) && b in t.started {
      AheadBefore(s, call, raised, i, b);
    }
  }

  lemma BegunApart(s: State, order: seq<Broker>)
    requires Inv(s) && Clean(s.log) && Apart(s) && Can(s, CloseAll(order)) && !RecordedAhead(s)
    ensures Clean(Apply(s, CloseAll(order)).log) && Apart(Apply(s, CloseAll(order)))
  {
    var t := Apply(s, CloseAll(order));
    forall i: nat, b | Ahead(t, i, b) ensures i == |s.calls| && b in t.started {
      AheadOnceBegun(s, order, i, b);
    }
  }

  lemma AheadOnceBegun(s: State, order: seq<Broker>, i: nat, b: Broker)
    requires Can(s, CloseAll(order)) && Ahead(Apply(s, CloseAll(order)), i, b)
    ensures Ahead(s, i, b) || (i == |s.calls| && b in order && b != order[0])
  {
    var t := Apply(s, CloseAll(order));
    var k :| t.calls[i].at < k < |t.calls[i].snapshot| && t.calls[i].snapshot[k] == b;
    if i < |s.calls| {
      assert s.calls[i].at < k < |s.calls[i].snapshot| && s.calls[i].snapshot[k] == b;
    }
  }

  lemma {:induction false} ApartStaysClean(s: State, moves: seq<Move>)
    requires Inv(s) && Clean(s.log) && Apart(s) && GoesOn(moves)
    ensures Inv(Run(s, moves)) && Clean(Run(s, moves).log)
    decreases |moves|
  {
    if moves != [] {
      if Can(s, moves[0]) {
        ApplyKeeps(s, moves[0]);
        ApartKeeps(s, moves[0]);
        ApartStaysClean(Apply(s, moves[0]), moves[1..]);
      } else {
        ApartStaysClean(s, moves[1..]);
      }
    }
  }

  // The other way: calls that are not apart can be let go on to the excess.

  lemma {:induction false} RunJoin(s: State, a: seq<Move>, b: seq<Move>)
    ensures Run(s, a + b) == Run(Run(s, a), b)
    decreases |a|
  {
    if a == [] {
      assert a + b == b;
    } else {
      assert (a + b)[0] == a[0] && (a + b)[1..] == a[1..] + b;
      RunJoin(if Can(s, a[0]) then Apply(s, a[0]) else s, a[1..], b);
    }
  }

  /** One call is let go on for `n` shutdowns. */
  ghost function Onward(call: nat, n: nat): (moves: seq<Move>)
    ensures GoesOn(moves)
  {
    if n == 0 then [] else Onward(call, n - 1) + [ShutdownEnds(call, false)]
  }

  lemma RunLast(s: State, moves: seq<Move>, m: Move)
    ensures Run(s, moves + [m]) == if Can(Run(s, moves), m) then Apply(Run(s, moves), m) else Run(s, moves)
  {
    RunJoin(s, moves, [m]);
    assert [m][1..] == [];
  }

  /** Let go on, a call shuts down what is ahead of it and leaves the other calls alone. */
  lemma {:induction false} OnwardShuts(s: State, call: nat, n: nat)
    requires Inv(s) && call < |s.calls| && s.calls[call].Closing? && s.calls[call].at + n < |s.calls[call].snapshot|
    requires forall e :: e in s.log ==> !e.Forgotten?
    ensures var t := Run(s, Onward(call, n));
            && Inv(t) && (forall e :: e in t.log ==> !e.Forgotten?)
            && |t.calls| == |s.calls| && (forall j :: 0 <= j < |s.calls| && j != call ==> t.calls[j] == s.calls[j])
            && t.calls[call].Closing? && t.calls[call].snapshot == s.calls[call].snapshot && t.calls[call].at == s.calls[call].at + n
            && t.started <= s.started && (n > 0 ==> s.calls[call].snapshot[s.calls[call].at + n] !in t.started)
  {
    if n > 0 {
      OnwardShuts(s, call, n - 1);
      RunLast(s, Onward(call, n - 1), ShutdownEnds(call, false));
      ApplyKeeps(Run(s, Onward(call, n - 1)), ShutdownEnds(call, false));
    }
  }

  /** Shutting down a broker that is not recorded is one shutdown too many. */
  lemma UnrecordedShutIsOver(log: seq<Event>, call: nat, b: Broker)
    requires Recorded(log, b) == Some(false) && forall e :: e in log ==> !e.Forgotten?
    ensures OverShut(log + [ShutDown(call, b, false)], b)
  {
    RecordCounts(log, b);
    ShutsAtLeastRemoves(log, b);
    TimesGrows(log, ShutDown(call, b, false), Shuts(b));
    TimesGrows(log, ShutDown(call, b, false), Opens(b));
  }

  lemma NextOverShuts(s: State, call: nat, b: Broker)
    requires LogRight(s) && b !in s.started && forall e :: e in s.log ==> !e.Forgotten?
    requires call < |s.calls| && s.calls[call].Closing? && s.calls[call].at + 1 < |s.calls[call].snapshot|
    requires s.calls[call].snapshot[s.calls[call].at + 1] == b
    ensures OverShut(Apply(s, ShutdownEnds(call, false)).log, b)
  {
    assert Recorded(s.log, b) == Some(false);
    UnrecordedShutIsOver(s.log, call, b);
  }

  lemma UnrecordedAheadOverShuts(s: State, call: nat, b: Broker)
    requires Inv(s) && Ahead(s, call, b) && b !in s.started && forall e :: e in s.log ==> !e.Forgotten?
    ensures CanOverShut(s)
  {
    var k :| s.calls[call].at < k < |s.calls[call].snapshot| && s.calls[call].snapshot[k] == b;
    var moves := Onward(call, k - s.calls[call].at - 1);
    OnwardShuts(s, call, k - s.calls[call].at - 1);
    NextOverShuts(Run(s, moves), call, b);
    RunLast(s, moves, ShutdownEnds(call, false));
    assert GoesOn(moves + [ShutdownEnds(call, false)]) && OverShut(Run(s, moves + [ShutdownEnds(call, false)]).log, b);
  }

  lemma TwiceAheadOverShuts(s: State, i: nat, j: nat, b: Broker)
    requires Inv(s) && Ahead(s, i, b) && Ahead(s, j, b) && i != j && forall e :: e in s.log ==> !e.Forgotten?
    ensures CanOverShut(s)
  {
    var k :| s.calls[i].at < k < |s.calls[i].snapshot| && s.calls[i].snapshot[k] == b;
    var first := Onward(i, k - s.calls[i].at);
    OnwardShuts(s, i, k - s.calls[i].at);
    var t := Run(s, first);
    UnrecordedAheadOverShuts(t, j, b);
    var moves, x :| GoesOn(moves) && OverShut(Run(t, moves).log, x);
    RunJoin(s, first, moves);
    assert GoesOn(first + moves) && OverShut(Run(s, first + moves).log, x);
  }

  /** Left to themselves, calls under way shut a broker down too often exactly when they are not apart. */
  lemma OverShutExactlyUnlessApart(s: State)
    requires Inv(s) && Clean(s.log)
    ensures CanOverShut(s) <==> !Apart(s)
  {
    if Apart(s) {
      forall moves, b | GoesOn(moves) ensures !OverShut(Run(s, moves).log, b) {
        ApartStaysClean(s, moves);
        CleanIsNotOverShut(Run(s, moves), b);
      }
    } else if i, b :| Ahead(s, i, b) && b !in s.started {
      UnrecordedAheadOverShuts(s, i, b);
    } else {
      var i, j, b :| Ahead(s, i, b) && Ahead(s, j, b) && i != j;
      TwiceAheadOverShuts(s, i, j, b);
    }
  }

  /**
   When beginning a `close_all` leads to a broker shut down more often than it was opened. In every run where
   nothing was forgotten by hand and no excess happened yet: exactly when another call under way is not yet at the
   last broker of its snapshot.
   */
  lemma BeginningOverShutsExactly(before: seq<Move>, order: seq<Broker>)
    requires Clean(Run(Initially(), before).log) && Can(Run(Initially(), before), CloseAll(order))
    ensures var s := Run(Initially(), before);
            CanOverShut(Apply(s, CloseAll(order))) <==> exists i, b :: Ahead(s, i, b)
  {
    var s := Run(Initially(), before);
    RunKeeps(Initially(), before);
    var t := Apply(s, CloseAll(order));
    ApplyKeeps(s, CloseAll(order));
    OverShutExactlyUnlessApart(s);
    OverShutExactlyUnlessApart(t);
    if RecordedAhead(s) {
      BegunBesideOthers(s, order);
    } else if Apart(s) {
      BegunApart(s, order);
    } else {
      StaysAhead(s, order);
    }
  }

  lemma AheadStays(s: State, order: seq<Broker>, i: nat, b: Broker)
    requires Can(s, CloseAll(order)) && Ahead(s, i, b)
    ensures Ahead(Apply(s, CloseAll(order)), i, b)
  {
    var t := Apply(s, CloseAll(order));
    var k :| s.calls[i].at < k < |s.calls[i].snapshot| && s.calls[i].snapshot[k] == b;
    assert t.calls[i] == s.calls[i];
  }

  lemma BegunBesideOthers(s: State, order: seq<Broker>)
    requires Can(s, CloseAll(order)) && RecordedAhead(s)
    ensures !Apart(Apply(s, CloseAll(order)))
  {
    var t := Apply(s, CloseAll(order));
    var i, b :| Ahead(s, i, b) && b in s.started;
    AheadStays(s, order, i, b);
    var k :| 0 <= k < |order| && order[k] == b;
    if k > 0 {
      assert t.calls[|s.calls|].at < k < |t.calls[|s.calls|].snapshot| && t.calls[|s.calls|].snapshot[k] == b;
      assert Ahead(t, |s.calls|, b);
    }
  }

  lemma StaysAhead(s: State, order: seq<Broker>)
    requires Can(s, CloseAll(order)) && !Apart(s)
    ensures !Apart(Apply(s, CloseAll(order)))
  {
    if i, b :| Ahead(s, i, b) && b !in s.started {
      AheadStays(s, order, i, b);
    } else {
      var i, j, b :| Ahead(s, i, b) && Ahead(s, j, b) && i != j;
      AheadStays(s, order, i, b);
      AheadStays(s, order, j, b);
    }
  }

  /** Nothing is forgotten by hand, and `close_all` begins only when no other has a recorded broker ahead. */
  ghost predicate CarefulRun(s: State, moves: seq<Move>)
    decreases |moves|
  {
    moves == []
    || (if Can(s, moves[0]) then
          !moves[0].Forget? && (moves[0].CloseAll? ==> !RecordedAhead(s)) && CarefulRun(Apply(s, moves[0]), moves[1..])
        else CarefulRun(s, moves[1..]))
  }

  lemma {:induction false} CarefulRunKeeps(s: State, moves: seq<Move>)
    requires Inv(s) && Clean(s.log) && Apart(s) && CarefulRun(s, moves)
    ensures Inv(Run(s, moves)) && Clean(Run(s, moves).log) && Apart(Run(s, moves))
    decreases |moves|
  {
    if moves != [] {
      if Can(s, moves[0]) {
        ApplyKeeps(s, moves[0]);
        ApartKeeps(s, moves[0]);
        CarefulRunKeeps(Apply(s, moves[0]), moves[1..]);
      } else {
        CarefulRunKeeps(s, moves[1..]);
      }
    }
  }

  /** In a careful run, each connection opened is shut down once or still recorded, and it stays so left to itself. */
  lemma ShutDownOnce(moves: seq<Move>, b: Broker)
    requires CarefulRun(Initially(), moves)
    ensures var s := Run(Initially(), moves);
            && Times(s.log, Opens(b)) == Times(s.log, Shuts(b)) + (if b in s.started then 1 else 0)
            && !CanOverShut(s)
  {
    CarefulRunKeeps(Initially(), moves);
    CleanIsNotOverShut(Run(Initially(), moves), b);
    OverShutExactlyUnlessApart(Run(Initially(), moves));
  }

  // A run that ends in excess.

  lemma RunFirst(s: State, m: Move, moves: seq<Move>)
    requires Can(s, m)
    ensures Run(s, [m] + moves) == Run(Apply(s, m), moves)
  {
    assert ([m] + moves)[1..] == moves;
  }

  function Opening(b: Broker, call: nat): seq<Move> {
    [EnsureStarted(b)] + ([LockAcquired(call)] + ([StartupEnds(call, false)] + []))
  }

  lemma OpeningOpens(s: State, b: Broker)
    requires !b.isWorkerProcess && b !in s.started && s.lock == None
    ensures Run(s, Opening(b, |s.calls|))
            == s.(started := s.started + {b}, calls := s.calls + [Returned], log := s.log + [Opened(b)])
  {
    var i := |s.calls|;
    var ended: seq<Move> := [StartupEnds(i, false)] + [];
    RunFirst(s, EnsureStarted(b), [LockAcquired(i)] + ended);
    var queued := Apply(s, EnsureStarted(b));
    RunFirst(queued, LockAcquired(i), ended);
    RunFirst(Apply(queued, LockAcquired(i)), StartupEnds(i, false), []);
    assert s.calls + [Queued(b)] == queued.calls;
    assert queued.calls[i := Starting(b)][i := Returned] == s.calls + [Returned];
  }

  /** Two brokers are opened; one `close_all` is shutting the first down when another begins. */
  function Overlapping(a: Broker, b: Broker): seq<Move> {
    Opening(a, 0) + (Opening(b, 1) + ([CloseAll([a, b])] + ([CloseAll([b])] + ([ShutdownEnds(2, false)] + []))))
  }

  /** For instance, from the start: two overlapping calls shut down twice a broker opened once. */
  lemma OverlappingClosesShutTwice(a: Broker, b: Broker)
    requires a != b && !a.isWorkerProcess && !b.isWorkerProcess
    ensures var log := Run(Initially(), Overlapping(a, b)).log;
            Times(log, Opens(b)) == 1 && Times(log, Shuts(b)) == 2
  {
    var last: seq<Move> := [ShutdownEnds(2, false)] + [];
    var closes := [CloseAll([a, b])] + ([CloseAll([b])] + last);
    var s0 := Initially();
    OpeningOpens(s0, a);
    var s1 := Run(s0, Opening(a, 0));
    RunJoin(s0, Opening(a, 0), Opening(b, 1) + closes);
    OpeningOpens(s1, b);
    var s2 := Run(s1, Opening(b, 1));
    RunJoin(s1, Opening(b, 1), closes);
    assert s2.started == {a, b} && |s2.calls| == 2;
    RunFirst(s2, CloseAll([a, b]), [CloseAll([b])] + last);
    var s3 := Apply(s2, CloseAll([a, b]));
    RunFirst(s3, CloseAll([b]), last);
    var s4 := Apply(s3, CloseAll([b]));
    RunFirst(s4, ShutdownEnds(2, false), []);
    assert Apply(s4, ShutdownEnds(2, false)).log
           == [] + [Opened(a)] + [Opened(b)] + [ShutDown(2, a, true)] + [ShutDown(3, b, true)] + [ShutDown(2, b, false)];
    CountOverlap(a, b);
  }

  lemma CountOverlap(a: Broker, b: Broker)
    requires a != b
    ensures var log := [] + [Opened(a)] + [Opened(b)] + [ShutDown(2, a, true)] + [ShutDown(3, b, true)] + [ShutDown(2, b, false)];
            Times(log, Opens(b)) == 1 && Times(log, Shuts(b)) == 2
  {
    forall which: Event -> bool
      ensures Times([] + [Opened(a)] + [Opened(b)] + [ShutDown(2, a, true)] + [ShutDown(3, b, true)] + [ShutDown(2, b, false)], which)
              == (if which(Opened(a)) then 1 else 0) + (if which(Opened(b)) then 1 else 0) + (if which(ShutDown(2, a, true)) then 1 else 0)
                 + (if which(ShutDown(3, b, true)) then 1 else 0) + (if which(ShutDown(2, b, false)) then 1 else 0)
    {
      TimesGrows([], Opened(a), which);
      TimesGrows([] + [Opened(a)], Opened(b), which);
      TimesGrows([] + [Opened(a)] + [Opened(b)], ShutDown(2, a, true), which);
      TimesGrows([] + [Opened(a)] + [Opened(b)] + [ShutDown(2, a, true)], ShutDown(3, b, true), which);
      TimesGrows([] + [Opened(a)] + [Opened(b)] + [ShutDown(2, a, true)] + [ShutDown(3, b, true)], ShutDown(2, b, false), which);
    }
  }

  // ---------------------------------------------------------------------------------------------
  // The record as it is kept
  // ---------------------------------------------------------------------------------------------

  /** One owner's record. Each method is what a call does between two suspensions. */
  class StartedBrokers {
    var started: set<Broker>
    var lock: Option<nat>
    var calls: seq<Call>
    ghost var log: seq<Event>

    ghost function Model(): State
      reads this
    {
      State(started, lock, calls, log)
    }

    ghost predicate Valid()
      reads this
    {
      Inv(Model())
    }

    constructor ()
      ensures Valid() && Model() == Initially()
    {
      started, lock, calls, log := {}, None, [], [];
    }

    method EnsureStarted(b: Broker) returns (call: nat)
      requires Valid()
      modifies this
      ensures Valid() && Model() == Apply(old(Model()), Move.EnsureStarted(b))
      ensures call < |calls| && (calls[call].Returned? ==> b.isWorkerProcess || b in started)
    {
      ApplyKeeps(Model(), Move.EnsureStarted(b));
      call := |calls|;
      if b.isWorkerProcess || b in started {
        calls := calls + [Returned];
      } else {
        calls := calls + [Queued(b)];
      }
    }

    /** Check again, now under the lock: who held it before may have opened the broker. */
    method LockAcquired(call: nat)
      requires Valid() && Can(Model(), Move.LockAcquired(call))
      modifies this
      ensures Valid() && Model() == Apply(old(Model()), Move.LockAcquired(call))
    {
      ApplyKeeps(Model(), Move.LockAcquired(call));
      var b := calls[call].broker;
      if b in started {
        calls := calls[call := Returned];
      } else {
        lock := Some(call);
        calls := calls[call := Starting(b)];
      }
    }

    method StartupEnds(call: nat, raised: bool)
      requires Valid() && Can(Model(), Move.StartupEnds(call, raised))
      modifies this
      ensures Valid() && Model() == Apply(old(Model()), Move.StartupEnds(call, raised))
    {
      ApplyKeeps(Model(), Move.StartupEnds(call, raised));
      if raised {
        calls := calls[call := Raised];
      } else {
        started := started + {calls[call].broker};
        log := log + [Opened(calls[call].broker)];
        calls := calls[call := Returned];
      }
      lock := None;
    }

    method Forget(b: Broker)
      requires Valid()
      modifies this
      ensures Valid() && Model() == Apply(old(Model()), Move.Forget(b))
    {
      ApplyKeeps(Model(), Move.Forget(b));
      if b in started {
        log := log + [Forgotten(b)];
      }
      started := started - {b};
      assert b !in old(started) ==> started == old(started);
    }

    /** Forget a broker, and call `shutdown` on it. */
    method Discard(closer: nat, b: Broker)
      modifies this`started, this`log
      ensures Model() == Discarded(old(Model()), closer, b)
    {
      log := log + [ShutDown(closer, b, b in started)];
      started := started - {b};
    }

    method CloseAll(order: seq<Broker>)
      requires Valid() && Lists(order, started)
      modifies this
      ensures Valid() && Model() == Apply(old(Model()), Move.CloseAll(order))
    {
      ApplyKeeps(Model(), Move.CloseAll(order));
      if order == [] {
        calls := calls + [Closed([], [])];
      } else {
        calls := calls + [Closing(order, 0, [])];
        Discard(|calls| - 1, order[0]);
      }
    }

    /** A failure is collected, not raised, until every broker of the snapshot was tried. */
    method ShutdownEnds(call: nat, raised: bool)
      requires Valid() && Can(Model(), Move.ShutdownEnds(call, raised))
      modifies this
      ensures Valid() && Model() == Apply(old(Model()), Move.ShutdownEnds(call, raised))
    {
      ApplyKeeps(Model(), Move.ShutdownEnds(call, raised));
      var Closing(snapshot, at, failures) := calls[call];
      if raised {
        failures := failures + [snapshot[at]];
        log := log + [ShutdownRaised(call, snapshot[at])];
      }
      if at + 1 == |snapshot| {
        calls := calls[call := Closed(snapshot, failures)];
      } else {
        calls := calls[call := Closing(snapshot, at + 1, failures)];
        Discard(call, snapshot[at + 1]);
      }
    }

    method Cancel(call: nat)
      requires Valid() && Can(Model(), Move.Cancel(call))
      modifies this
      ensures Valid() && Model() == Apply(old(Model()), Move.Cancel(call))
    {
      ApplyKeeps(Model(), Move.Cancel(call));
      if calls[call].Starting? {
        lock := None;
      }
      calls := calls[call := Raised];
    }
  }

  /** Forgetting a broker drops its record and nothing else, so the next `ensure_started` opens it again. */
  lemma ForgottenOpensAgain(s: State, b: Broker)
    requires !b.isWorkerProcess && s.lock == None
    ensures var t := Apply(s, Forget(b));
            && t.started == s.started - {b} && t.calls == s.calls && t.lock == s.lock
            && var again := Apply(t, EnsureStarted(b));
               && Can(again, LockAcquired(|s.calls|))
               && Apply(again, LockAcquired(|s.calls|)).calls[|s.calls|] == Starting(b)
  {
  }

  ghost predicate ReportsSoFar(c: Call, failures: seq<Broker>) {
    (c.Closing? && failures <= c.failures) || (c.Closed? && failures <= c.failures) || c.Raised?
  }

  lemma {:induction false} FailuresStay(s: State, moves: seq<Move>, i: nat, failures: seq<Broker>)
    requires i < |s.calls| && ReportsSoFar(s.calls[i], failures)
    ensures i < |Run(s, moves).calls| && ReportsSoFar(Run(s, moves).calls[i], failures)
    decreases |moves|
  {
    if moves != [] {
      FailuresStay(if Can(s, moves[0]) then Apply(s, moves[0]) else s, moves[1..], i, failures);
    }
  }

  /** A shutdown that raised is among the failures its `close_all` reports, after those before it, unless that is cancelled. */
  lemma FailureIsReported(s: State, i: nat, after: seq<Move>)
    requires Can(s, ShutdownEnds(i, true))
    ensures var t := Run(Apply(s, ShutdownEnds(i, true)), after);
            i < |t.calls| && ReportsSoFar(t.calls[i], s.calls[i].failures + [s.calls[i].snapshot[s.calls[i].at]])
  {
    FailuresStay(Apply(s, ShutdownEnds(i, true)), after, i, s.calls[i].failures + [s.calls[i].snapshot[s.calls[i].at]]);
  }
}
