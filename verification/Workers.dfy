/** The worker as it runs: its two fields, its loop, and what it does with one message. */
module Workers {
  import opened Envelopes
  import opened WorkerEvents
  import opened WorkerSpec
  import R = StopRace

  class Worker {
    const config: Config
    /** The event of the run going on, and whether it is set. */
    var stopped: Option<bool>
    var stopRequested: bool
    /** What the worker did, and what its surroundings did to it, in order. */
    var log: seq<Event>

    constructor (config: Config)
      ensures this.config == config && Fields() == AT_FIRST && log == []
    {
      this.config := config;
      stopped, stopRequested, log := None, false, [];
    }

    ghost function Fields(): Control
      reads this
    {
      Control(stopped, stopRequested)
    }

    method Stop()
      modifies this
      ensures Fields() == AfterStop(old(Fields())) && log == old(log) + [StopAsked]
    {
      log := log + [StopAsked];
      if stopped.Some? {
        stopped := Some(true);
      } else {
        stopRequested := true;
      }
    }

    /** A stop asked for from outside at this point, if one is. */
    method Interrupted(asked: bool)
      modifies this
      ensures log == old(log) + Asked(asked)
      ensures Fields() == if asked then AfterStop(old(Fields())) else old(Fields())
    {
      if asked {
        Stop();
      }
    }

    method Announce(e: Event)
      modifies this`log
      ensures log == old(log) + Announced(config, e)
    {
      if config.dispatcher {
        log := log + [e];
      }
    }

    /** What nothing here catches shows in the log. */
    method Break(raised: Option<Failure>)
      modifies this`log
      ensures log == old(log) + Broken(raised)
    {
      if raised.Some? {
        log := log + [Broke(raised.value)];
      }
    }

    /** Collect, settle, announce, until stopped, exhausted or raised out of; then close and say so. */
    method Run(s: Session) returns (raised: Option<Failure>)
      modifies this
      ensures var done := Ran(config, old(Fields()), s);
              log == old(log) + done.events && raised == done.raised
      ensures Fields() == AfterRun(config, old(Fields()), s)
    {
      ghost var before := log;
      ghost var asked := stopRequested;
      Begin(s);
      if s.startRaises.Some? {
        return s.startRaises;
      }
      ghost var loop := Loop(config, asked || s.stopWhileStarting, s.rounds).events;
      raised := Consume(s.rounds);
      assert log == before + (Starting(config, s) + loop) by { Associates(before, Starting(config, s), loop); }
      var closing := End(s);
      assert log == before + (Starting(config, s) + loop + Closing(config, s)) by {
        Associates(before, Starting(config, s) + loop, Closing(config, s));
      }
      if closing.Some? {
        raised := closing;
      }
    }

    /** A stop left for this run is taken up; then the worker says it started. */
    method Begin(s: Session)
      modifies this
      ensures stopped == Some(old(stopRequested) || s.stopWhileStarting) && !stopRequested
      ensures log == old(log) + Starting(config, s)
    {
      Associates(log, Announced(config, Started), Asked(s.stopWhileStarting));
      Associates(log, Announced(config, Started) + Asked(s.stopWhileStarting), Broken(s.startRaises));
      stopped := Some(stopRequested);
      stopRequested := false;
      Announce(Started);
      Interrupted(s.stopWhileStarting);
      Break(s.startRaises);
    }

    /** `finally`: the run is over, the receiver is closed, the worker says it stopped. */
    method End(s: Session) returns (raised: Option<Failure>)
      requires stopped.Some? && !stopRequested
      modifies this
      ensures stopped == None && stopRequested == s.stopWhileClosing
      ensures log == old(log) + Closing(config, s)
      ensures raised == if s.closeRaises.Some? then s.closeRaises else if config.dispatcher then s.stoppedRaises else None
    {
      ghost var before := log;
      stopped := None;
      Interrupted(s.stopWhileClosing);
      Associates(before, Asked(s.stopWhileClosing), [Closed]);
      log := log + [Closed];
      ghost var closed := Asked(s.stopWhileClosing) + [Closed];
      if s.closeRaises.Some? {
        Associates(before, closed, Broken(s.closeRaises));
        Break(s.closeRaises);
        return s.closeRaises;
      }
      raised := if config.dispatcher then s.stoppedRaises else None;
      Associates(before, closed, Announced(config, Stopped));
      Associates(before, closed + Announced(config, Stopped), Broken(raised));
      Associates(closed, Announced(config, Stopped), Broken(raised));
      Announce(Stopped);
      Break(raised);
    }

    method Consume(rounds: seq<Round>) returns (raised: Option<Failure>)
      requires stopped.Some? && !stopRequested
      modifies this
      ensures stopped.Some? && !stopRequested
      ensures var done := Loop(config, old(stopped).value, rounds);
              log == old(log) + done.events && raised == done.raised
    {
      raised := None;
      ghost var all := Loop(config, stopped.value, rounds);
      ghost var rest, done := rounds, all;
      var i := 0;
      while i < |rounds|
        invariant 0 <= i <= |rounds| && stopped.Some? && !stopRequested && raised == None
        invariant rest == rounds[i..] && done == Loop(config, stopped.value, rest)
        invariant old(log) + all.events == log + done.events && all.raised == done.raised
      {
        var r := rounds[i];
        rest := rounds[i + 1..];
        assert rounds[i..] == [r] + rest;
        var over: bool;
        ghost var before := log;
        over, raised := OneRound(r, rest);
        if over {
          return;
        }
        done := Loop(config, stopped.value, rest);
        i := i + 1;
      }
      assert done.events == [] && log + [] == log;
    }

    /** One turn of the loop: wait, and settle what arrived unless the wait ended otherwise. `rest` is what may follow. */
    method OneRound(r: Round, ghost rest: seq<Round>) returns (over: bool, raised: Option<Failure>)
      requires stopped.Some? && !stopRequested
      modifies this
      ensures stopped.Some? && !stopRequested
      ensures var all := Loop(config, old(stopped).value, [r] + rest);
              if over then log == old(log) + all.events && raised == all.raised
              else
                var later := Loop(config, stopped.value, rest);
                old(log) + all.events == log + later.events && all.raised == later.raised && raised == None
    {
      ghost var before, stop := log, stopped.value;
      ghost var w := Waited(stop, r);
      R.EndsEitherWay(stop, r.waiting);
      assert ([r] + rest)[1..] == rest;
      var next := NextUnlessStopped(r.waiting);
      if next.Raised? {
        return true, Some(next.error);
      }
      if next.envelope.None? {
        return true, None;
      }
      var e := next.envelope.value;
      Associates(before, w.events, [Collected(e)]);
      log := log + [Collected(e)];
      Associates(before, w.events + [Collected(e)], Settled(config, e, r).events);
      raised := Settle(e, r);
      if raised.Some? {
        return true, raised;
      }
      ghost var collecting := Collecting(config, w.events, e, r);
      over, raised := SayRunning(r);
      Associates(before, collecting, Announcement(config, r));
      Associates(before, collecting + Announcement(config, r), Loop(config, stopped.value, rest).events);
    }

    method SayRunning(r: Round) returns (over: bool, raised: Option<Failure>)
      requires stopped.Some? && !stopRequested
      modifies this
      ensures !stopRequested && stopped == Some(old(stopped).value || r.stopWhileRunning)
      ensures log == old(log) + Announcement(config, r)
      ensures raised == (if config.dispatcher then r.runningRaises else None) && over == raised.Some?
    {
      ghost var before, announced := log, Announced(config, Running);
      Announce(Running);
      Associates(before, announced, Asked(r.stopWhileRunning));
      Interrupted(r.stopWhileRunning);
      raised := if config.dispatcher then r.runningRaises else None;
      over := raised.Some?;
      Associates(before, announced + Asked(r.stopWhileRunning), Broken(raised));
      Break(raised);
    }

    /**
     `_next_unless_stopped`: wait for the fetch and for the stop at once; cancel a fetch still pending, and wait for
     it; then return what it came to. `happens` is what happens meanwhile, in which order.
     */
    method NextUnlessStopped(happens: R.Waited) returns (next: R.Phase)
      requires stopped.Some? && !stopRequested
      modifies this
      ensures var w := R.Run(R.Begin(old(stopped).value), happens);
              && next == w.phase && (next.Returned? || next.Raised?)
              && stopped == Some(w.stopped) && !stopRequested && log == old(log) + w.events
    {
      ghost var w := R.Begin(stopped.value);
      ghost var end := R.Run(w, happens);
      R.EndsEitherWay(stopped.value, happens);
      assert log + [] == log;
      if stopped.value {
        R.StopAlreadySet(happens);
        return R.Returned(None);
      }
      var fetch, halted, cancelled := R.Pending, false, false;
      next := R.Waiting;
      for i := 0 to |happens|
        invariant stopped.Some? && !stopRequested
        invariant w == R.Wait(stopped.value, fetch, halted, next, w.events) && log == old(log) + w.events
        invariant end == R.Run(w, happens[i..])
        invariant !R.Over(w) ==> next == if cancelled then R.Cancelling else R.Waiting
        invariant fetch != R.NotStarted
      {
        assert happens[i..][0] == happens[i] && happens[i..][1..] == happens[i + 1..];
        ghost var was := w;
        w := R.Apply(w, happens[i]);
        if next == R.Waiting || next == R.Cancelling {
          match happens[i]
          case Ask =>
            Associates(old(log), was.events, [StopAsked]);
            Stop();
          case FetchEnds(outcome) =>
            if fetch == R.Pending && R.Ended(outcome) {
              fetch := outcome;
              Associates(old(log), was.events, R.Seen(outcome));
              log := log + R.Seen(outcome);
            }
          case HaltEnds =>
            halted := stopped.value;
          case Wake =>
            if fetch == R.Pending {
              if halted && !cancelled {
                cancelled := true;
                next := R.Cancelling;
              }
            } else {
              next := R.ResultOf(fetch);
            }
        }
      }
    }

    /** `_settle`: settle the message either way, then reset, whatever was raised. */
    method Settle(e: Env, r: Round) returns (raised: Option<Failure>)
      requires stopped.Some? && !stopRequested
      modifies this
      ensures !stopRequested && stopped == Some(old(stopped).value || r.stopInHand || r.stopOnceSettled)
      ensures log == old(log) + Settled(config, e, r).events
      ensures raised == Settled(config, e, r).raised
    {
      ghost var before := log;
      ghost var asked := Asked(r.stopInHand);
      ghost var handling := Handling(config, NameOf(config, e), InHand(config, e), r).0;
      Associates(before, asked, handling);
      Interrupted(r.stopInHand);
      var name := NameOf(config, e);
      var result := Handle(name, InHand(config, e), r);
      ghost var settling := Settling(config, name, result, r);
      Associates(before, asked + handling, settling.events);
      if result.Failed? {
        raised := AnnounceFailure(name, result, r);
      } else {
        raised := r.settleRaises;
        Associates(before + (asked + handling), [Acked(result.envelope)], Broken(raised));
        log := log + [Acked(result.envelope)];
        Break(raised);
      }
      Associates(before, asked + handling + settling.events, Asked(r.stopOnceSettled));
      Interrupted(r.stopOnceSettled);
      if config.resetter {
        Associates(before, asked + handling + settling.events + Asked(r.stopOnceSettled), Resets(config, r));
        Associates(log, [Reset], Broken(r.resetRaises));
        log := log + [Reset];
        Break(r.resetRaises);
        if r.resetRaises.Some? {
          raised := r.resetRaises;
        }
      }
    }

    /** An event is dispatched to its listener: what it left on the envelope, or what it raised, shows in the log. */
    method Notify(e: Event, l: Listener)
      modifies this`log
      ensures log == old(log) + Notified(e, l)
    {
      log := log + [e, if l.raises.Some? then Threw(l.raises.value) else Heard(l.added)];
    }

    /** `handle`: `current` is the last envelope known at each point something may raise. */
    method Handle(name: string, e: Env, r: Round) returns (result: Result)
      modifies this`log
      ensures var (events, expected) := Handling(config, name, e, r);
              log == old(log) + events && result == expected
    {
      ghost var before := log;
      var current := e;
      ghost var heard: seq<Event> := [];
      if config.dispatcher {
        heard := Notified(MessageReceived(name, current), r.received);
        Notify(MessageReceived(name, current), r.received);
        if r.received.raises.Some? {
          return Failed(current, r.received.raises.value);
        }
        current := current.WithStamps(r.received.added);
        if r.skips {
          Associates(before, heard, [SkipAsked]);
          log := log + [SkipAsked];
          return Skipped(current);
        }
      }
      ghost var dispatching := Dispatching(config, name, current, r).0;
      Associates(before, heard, dispatching);
      Associates(before + heard, BusAsked(current, r.bus), Notified(MessageHandled(name, if r.bus.Raises? then current else r.bus.result), r.handled));
      log := log + [BusCalled(current), if r.bus.Raises? then Threw(r.bus.error) else BusReturned(r.bus.result)];
      if r.bus.Raises? {
        return Failed(current, r.bus.error);
      }
      current := r.bus.result;
      if config.dispatcher {
        Notify(MessageHandled(name, current), r.handled);
        if r.handled.raises.Some? {
          return Failed(current, r.handled.raises.value);
        }
        current := current.WithStamps(r.handled.added);
      }
      result := Result.Handled(current);
    }

    /** Stamp why it failed, announce it, and reject the envelope whatever a listener raises. */
    method AnnounceFailure(name: string, failed: Result, r: Round) returns (raised: Option<Failure>)
      requires failed.Failed?
      modifies this`log
      ensures log == old(log) + Settling(config, name, failed, r).events
      ensures raised == Settling(config, name, failed, r).raised
    {
      ghost var before := log;
      var envelope := failed.envelope.WithStamps([Reason(failed.error)]);
      if !config.dispatcher {
        Associates(before, [Rejected(envelope)], Broken(r.settleRaises));
        log := log + [Rejected(envelope)];
        Break(r.settleRaises);
        return r.settleRaises;
      }
      ghost var told := FailureNotified(name, envelope, failed.error, r.failed);
      ghost var rejected := [Rejected(envelope.WithStamps(r.failed.added))];
      Associates(before, [MessageFailed(name, envelope, failed.error), Heard(r.failed.added)], Broken(r.failed.raises));
      log := log + [MessageFailed(name, envelope, failed.error), Heard(r.failed.added)];
      Break(r.failed.raises);
      raised := r.failed.raises;
      Associates(before + told, rejected, Broken(r.settleRaises));
      Associates(before, told, rejected + Broken(r.settleRaises));
      log := log + [Rejected(envelope.WithStamps(r.failed.added))];
      Break(r.settleRaises);
      if r.settleRaises.Some? {
        raised := r.settleRaises;
      }
    }
  }
}
