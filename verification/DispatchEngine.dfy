/** The dispatch engine as it runs: single-use cursors, a hold-back queue, a context variable. */
module DispatchEngine {
  import opened Envelopes
  import opened DispatchSpec

  /** A single-use cursor over a chain. `None` stands for the identity tail past the last middleware. */
  class Cursor {
    const middlewares: seq<Middleware>
    var offset: nat

    ghost function Rest(): seq<Middleware>
      reads this
    {
      if offset <= |middlewares| then middlewares[offset..] else []
    }

    constructor (middlewares: seq<Middleware>)
      ensures Rest() == middlewares
    {
      this.middlewares := middlewares;
      offset := 0;
    }

    method Next() returns (m: Option<Middleware>)
      modifies this
      ensures old(Rest()) == [] ==> m == None && Rest() == []
      ensures old(Rest()) != [] ==> m == Some(old(Rest())[0]) && Rest() == old(Rest())[1..]
    {
      if offset >= |middlewares| {
        return None;
      }
      m := Some(middlewares[offset]);
      offset := offset + 1;
    }
  }

  /** The messages held back while one message is handled, each with the rest of its chain. */
  class Held {
    var envelopes: seq<(Envelope<Message>, Cursor)>
    var open: bool
    ghost var items: seq<Item>
    ghost var cursors: set<Cursor>

    /** `items` is what the queue holds, each cursor read as the rest of its chain; no two share a cursor. */
    ghost predicate Valid()
      reads this, cursors
    {
      && |items| == |envelopes|
      && (forall i :: 0 <= i < |envelopes| ==>
            && envelopes[i].1 in cursors
            && items[i] == Item(envelopes[i].0, envelopes[i].1.Rest()))
      && (forall i, j :: 0 <= i < j < |envelopes| ==> envelopes[i].1 != envelopes[j].1)
    }

    constructor ()
      ensures Valid() && open && envelopes == [] && items == [] && cursors == {}
    {
      envelopes := [];
      open := true;
      items := [];
      cursors := {};
    }

    method Append(e: Envelope<Message>, cursor: Cursor)
      requires Valid() && cursor !in cursors
      modifies this
      ensures Valid() && open == old(open)
      ensures envelopes == old(envelopes) + [(e, cursor)]
      ensures items == old(items) + [Item(e, cursor.Rest())] && cursors == old(cursors) + {cursor}
    {
      envelopes := envelopes + [(e, cursor)];
      items := items + [Item(e, cursor.Rest())];
      cursors := cursors + {cursor};
    }

    method PopFirst() returns (e: Envelope<Message>, cursor: Cursor)
      requires Valid() && envelopes != []
      modifies this
      ensures Valid() && open == old(open)
      ensures old(envelopes) == [(e, cursor)] + envelopes
      ensures old(items) == [Item(e, cursor.Rest())] + items
      ensures cursor in old(cursors) && cursors == old(cursors) - {cursor}
    {
      e, cursor := envelopes[0].0, envelopes[0].1;
      envelopes := envelopes[1..];
      items := items[1..];
      cursors := cursors - {cursor};
    }
  }

  class Engine {
    const chains: Chains
    var held: Held?
    var trace: seq<Event>

    constructor (chains: Chains)
      ensures this.chains == chains && held == null && trace == [] && Valid()
    {
      this.chains := chains;
      held := null;
      trace := [];
    }

    /** A message is being handled in this context, and its queue still takes messages. */
    predicate Current()
      reads this, if held != null then {held} else {}
    {
      held != null && held.open
    }

    ghost function Queue(): set<object>
      reads this
    {
      if held != null then {held} else {}
    }

    ghost predicate Valid()
      reads this, Queue(), if held != null then held.cursors else {}
    {
      Current() ==> held.Valid()
    }

    /** `cursor` is not waiting in the queue: nothing but its own dispatch moves it. */
    ghost predicate Free(cursor: Cursor)
      reads this, Queue()
    {
      held != null ==> cursor !in held.cursors
    }

    /** The context is as it was, `events` happened, and `items` joined the end of an open queue. */
    twostate predicate Did(events: seq<Event>, items: seq<Item>, own: set<Cursor>)
      reads this, Queue()
    {
      && held == old(held)
      && trace == old(trace) + events
      && (held != null ==> held.open == old(held.open))
      && (held != null && !held.open ==> unchanged(held))
      && (held != null && held.open ==>
            && held.items == old(held.items) + items
            && fresh(held.cursors - old(held.cursors) - own))
    }

    /** The bus: a fresh cursor for every dispatch. */
    method DispatchThrough(bus: nat, payload: Envelope<Message>, stamps: seq<Stamp>) returns (o: Outcome)
      requires Valid()
      modifies this, Queue()
      ensures Valid()
      ensures var e := payload.WithStamps(stamps);
              var r := Run(chains, old(Current()), chains(bus), e);
              o == r.outcome && Did(r.trace, r.held, {})
      decreases Weight(chains, chains(bus), payload.message), 1
    {
      var cursor := new Cursor(chains(bus));
      o := Continue(payload.WithStamps(stamps), cursor);
    }

    /** `await stack.next().handle(envelope, stack)` */
    method Continue(e: Envelope<Message>, cursor: Cursor) returns (o: Outcome)
      requires Valid() && Free(cursor)
      modifies this, Queue(), cursor
      ensures Valid()
      ensures var r := Run(chains, old(Current()), old(cursor.Rest()), e);
              o == r.outcome && Did(r.trace, r.held, {cursor})
      decreases Weight(chains, cursor.Rest(), e.message), 0
    {
      var m := cursor.Next();
      if m.None? {
        o := Returned(e);
      } else if m.value.HoldBack? {
        o := HandleHoldBack(e, cursor);
      } else {
        o := HandleWork(m.value, e, cursor);
      }
    }

    /** The hold-back middleware: hold the message back, pass it on, or handle it as the current one. */
    method HandleHoldBack(e: Envelope<Message>, cursor: Cursor) returns (o: Outcome)
      requires Valid() && Free(cursor)
      modifies this, Queue(), cursor
      ensures Valid()
      ensures var r := Run(chains, old(Current()), [HoldBack] + old(cursor.Rest()), e);
              o == r.outcome && Did(r.trace, r.held, {cursor})
      decreases Weight(chains, cursor.Rest(), e.message), 5
    {
      var current := Current();
      var envelope := e;
      if envelope.Last(IsDispatchAfter).Some? {
        envelope := envelope.WithoutStamps(IsDispatchAfter);
        if current {
          held.Append(envelope, cursor);
          return Returned(envelope);
        }
      }
      if current {
        o := Continue(envelope, cursor);
      } else {
        o := HandleAsCurrent(envelope, cursor);
      }
    }

    method HandleAsCurrent(e: Envelope<Message>, cursor: Cursor) returns (o: Outcome)
      requires Valid() && !Current()
      modifies this, cursor
      ensures Valid()
      ensures var r := AsCurrent(chains, old(cursor.Rest()), e);
              o == r.outcome && Did(r.trace, [], {cursor})
      decreases Weight(chains, cursor.Rest(), e.message), 4
    {
      var token := held;
      var queue := new Held();
      held := queue;
      o := RunThenDrain(queue, e, cursor);
      queue.open := false;
      queue.envelopes := [];
      held := token;
    }

    method RunThenDrain(queue: Held, e: Envelope<Message>, cursor: Cursor) returns (o: Outcome)
      requires held == queue && queue.open && queue.Valid() && queue.items == [] && queue.cursors == {}
      modifies this, queue, cursor
      ensures var r := AsCurrent(chains, old(cursor.Rest()), e);
              trace == old(trace) + r.trace && o == r.outcome
      decreases Weight(chains, cursor.Rest(), e.message), 3
    {
      HeldWeighsLess(chains, cursor.Rest(), e);
      ghost var own := Inline(chains, cursor.Rest(), e);
      ghost var rest := Drain(chains, own.held);
      Associates(trace, own.trace, rest.trace);
      o := Continue(e, cursor);
      if o.Returned? {
        assert queue.items == own.held;
        var errors := DrainHeld(queue);
        if errors != [] {
          o := Failed(DelayedMessageHandling(o.envelope, errors));
        }
      }
    }

    /** `while held.envelopes`: a message dispatched here may hold back more, which join the end. */
    method DrainHeld(queue: Held) returns (errors: seq<Error>)
      requires held == queue && queue.open && queue.Valid()
      modifies this, queue, queue.cursors
      ensures held == queue && queue.open && queue.envelopes == []
      ensures var d := Drain(chains, old(queue.items));
              trace == old(trace) + d.trace && errors == d.errors
      decreases QueueWeight(chains, queue.items), 2
    {
      errors := [];
      ghost var own := queue.cursors;
      ghost var all := Drain(chains, queue.items);
      while queue.envelopes != []
        invariant held == queue && queue.open && queue.Valid()
        invariant fresh(queue.cursors - own)
        invariant QueueWeight(chains, queue.items) <= QueueWeight(chains, old(queue.items))
        invariant old(trace) + all.trace == trace + Drain(chains, queue.items).trace
        invariant all.errors == errors + Drain(chains, queue.items).errors
        decreases QueueWeight(chains, queue.items)
      {
        ghost var before, traced, failed := queue.items, trace, errors;
        ghost var one := Resume(chains, before[0]);
        ghost var after := before[1..] + one.held;
        ResumingLightens(chains, before);
        var handled := ResumeFirst(queue);
        if handled.Failed? {
          errors := errors + [handled.error];
        }
        ghost var rest := Drain(chains, after);
        assert Drain(chains, before) == Drained(one.trace + rest.trace, FailureOf(one) + rest.errors);
        Associates(traced, one.trace, rest.trace);
        Associates(failed, FailureOf(one), rest.errors);
        assert errors == failed + FailureOf(one);
      }
    }

    method ResumeFirst(queue: Held) returns (o: Outcome)
      requires held == queue && queue.open && queue.Valid() && queue.envelopes != []
      modifies this, queue, queue.cursors
      ensures held == queue && queue.open && queue.Valid()
      ensures var one := Resume(chains, old(queue.items)[0]);
              && o == one.outcome
              && trace == old(trace) + one.trace
              && queue.items == old(queue.items)[1..] + one.held
      ensures fresh(queue.cursors - old(queue.cursors))
      decreases QueueWeight(chains, queue.items), 1
    {
      var waiting, rest := queue.PopFirst();
      assert queue.items == old(queue.items)[1..];
      o := Continue(waiting, rest);
    }

    /** A middleware working around the rest of the chain: its script, the rest, its closing script. */
    method HandleWork(w: Middleware, e: Envelope<Message>, cursor: Cursor) returns (o: Outcome)
      requires w.Work? && Valid() && Free(cursor)
      modifies this, Queue(), cursor
      ensures Valid()
      ensures var r := Run(chains, old(Current()), [w] + old(cursor.Rest()), e);
              o == r.outcome && Did(r.trace, r.held, {cursor})
      decreases ScriptWeight(chains, e.message.actions, w.before) + Weight(chains, cursor.Rest(), e.message)
                + ScriptWeight(chains, e.message.actions, w.after), 4
    {
      RunWork(chains, Current(), w, cursor.Rest(), e);
      ghost var before := DispatchSpec.RunScript(chains, Current(), e.message.actions, w.before);
      ghost var inside := RunInside(chains, Current(), w, cursor.Rest(), e);
      ghost var entered := [Entered(w.tag, e.message.name)];
      Associates(trace, entered, before.trace);
      Associates(trace, entered + before.trace, inside.trace);
      trace := trace + [Entered(w.tag, e.message.name)];
      var error := RunScript(e.message.actions, w.before);
      assert Did(entered + before.trace, before.held, {cursor});
      if error.Some? {
        return Failed(error.value);
      }
      o := FinishWork(w, e, cursor);
    }

    method FinishWork(w: Middleware, e: Envelope<Message>, cursor: Cursor) returns (o: Outcome)
      requires w.Work? && Valid() && Free(cursor)
      modifies this, Queue(), cursor
      ensures Valid()
      ensures var r := RunInside(chains, old(Current()), w, old(cursor.Rest()), e);
              o == r.outcome && Did(r.trace, r.held, {cursor})
      decreases Weight(chains, cursor.Rest(), e.message) + ScriptWeight(chains, e.message.actions, w.after), 3
    {
      var marked := e.WithStamps(w.marks);
      ghost var inner := if w.passesOn then Run(chains, Current(), cursor.Rest(), marked) else Ran([], [], Returned(marked));
      ghost var after := DispatchSpec.RunScript(chains, Current(), e.message.actions, w.after);
      Associates(trace, inner.trace, after.trace);
      Associates(trace, inner.trace + after.trace, [Left(w.tag, e.message.name)]);
      if w.passesOn {
        o := Continue(marked, cursor);
        if o.Failed? {
          return;
        }
      } else {
        o := Returned(marked);
      }
      assert Did(inner.trace, inner.held, {cursor});
      var error := RunScript(e.message.actions, w.after);
      if error.Some? {
        return Failed(error.value);
      }
      trace := trace + [Left(w.tag, e.message.name)];
    }

    /** What handling a message asks for, step by step, until one step raises. */
    method RunScript(actions: seq<Action>, tag: nat) returns (error: Option<Error>)
      requires Valid()
      modifies this, Queue()
      ensures Valid()
      ensures var r := DispatchSpec.RunScript(chains, old(Current()), actions, tag);
              error == r.error && Did(r.trace, r.held, {})
      decreases ScriptWeight(chains, actions, tag), 2, |actions|
    {
      if actions == [] {
        return None;
      }
      var action := actions[0];
      if action.at == tag {
        if action.Raise? {
          return Some(Raised(action.code));
        }
        ghost var one := Run(chains, Current(), chains(action.bus), action.payload.WithStamps(action.stamps));
        ghost var more := DispatchSpec.RunScript(chains, Current(), actions[1..], tag);
        Associates(trace, one.trace, more.trace);
        var o := DispatchThrough(action.bus, action.payload, action.stamps);
        if o.Failed? && !action.guarded {
          return Some(o.error);
        }
      }
      error := RunScript(actions[1..], tag);
    }
  }
}
