/**
 The hold-back middleware under every interleaving of tasks.

 A task spawned while a message is handled inherits the context of that moment, so it may outlive
 the message. Tasks switch only where the original awaits: between two moves. Any sequence of
 moves is a run; a move that is not possible changes nothing.
 */
module DispatchTasks {
  import opened Envelopes

  type TaskId = nat
  type QueueId = nat
  type MessageId = nat

  /** What a task is inside of, innermost first: messages passed on in their own chain, and current messages. */
  datatype Frames =
    | Outside
    | Passing(under: Frames)
    | Current(queue: QueueId, saved: Option<QueueId>, draining: bool, under: Frames)

  datatype Task = Task(inherited: Option<QueueId>, context: Option<QueueId>, frames: Frames)

  datatype Ending = Unfinished | Completed | Raised

  /** `held` waits; `accepted`, `resumed` and `dropped` are the histories of what was held back. */
  datatype Queue = Queue(owner: TaskId, open: bool, held: seq<MessageId>,
                         accepted: seq<MessageId>, resumed: seq<MessageId>, dropped: seq<MessageId>, ending: Ending)

  /** A dispatch as it was made: whether the message was stamped, and the queue open in its task's context then, if one was. */
  datatype Dispatch = Dispatch(message: MessageId, stamped: bool, open: Option<QueueId>)

  /** `dispatched` is the history of all dispatches, `outAtOnce` of the messages that were not held back. */
  datatype State = State(tasks: map<TaskId, Task>, queues: map<QueueId, Queue>, dispatched: seq<Dispatch>, outAtOnce: seq<MessageId>)

  datatype Move =
    | Spawn(task: TaskId, spawned: TaskId)
    | DispatchMessage(task: TaskId, message: MessageId, stamped: bool, fresh_: QueueId)
    | PassingEnds(task: TaskId)
    | CurrentReturns(task: TaskId)
    | CurrentRaises(task: TaskId)
    | DrainStep(task: TaskId)

  function Initially(): State {
    State(map[0 := Task(None, None, Outside)], map[], [], [])
  }

  predicate Held(s: State, t: Task) {
    t.context.Some? && t.context.value in s.queues && s.queues[t.context.value].open
  }

  /** `handle`: hold back, pass on, or handle as the current message. */
  function Dispatched(s: State, task: TaskId, message: MessageId, stamped: bool, q: QueueId): State
    requires task in s.tasks
  {
    var t := s.tasks[task];
    if Held(s, t) && stamped then
      var held := s.queues[t.context.value];
      s.(queues := s.queues[t.context.value := held.(held := held.held + [message], accepted := held.accepted + [message])])
    else if Held(s, t) then
      s.(tasks := s.tasks[task := t.(frames := Passing(t.frames))], outAtOnce := s.outAtOnce + [message])
    else
      State(s.tasks[task := t.(context := Some(q), frames := Current(q, t.context, false, t.frames))],
            s.queues[q := Queue(task, true, [], [], [], [], Unfinished)],
            s.dispatched, s.outAtOnce + [message])
  }

  /** `finally`: the queue is closed and emptied, the context variable is reset. */
  function Closed(s: State, task: TaskId, ending: Ending): State
    requires task in s.tasks && s.tasks[task].frames.Current? && s.tasks[task].frames.queue in s.queues
  {
    var t := s.tasks[task];
    var f := t.frames;
    var q := s.queues[f.queue];
    s.(tasks := s.tasks[task := t.(context := f.saved, frames := f.under)],
       queues := s.queues[f.queue := q.(open := false, held := [], dropped := q.dropped + q.held, ending := ending)])
  }

  predicate AtCurrent(s: State, task: TaskId, draining: bool) {
    && task in s.tasks && s.tasks[task].frames.Current?
    && s.tasks[task].frames.queue in s.queues
    && s.tasks[task].frames.draining == draining
  }

  function Apply(s: State, m: Move): State {
    if m.task !in s.tasks then s
    else
      var t := s.tasks[m.task];
      match m
      case Spawn(_, spawned) =>
        if spawned in s.tasks then s
        else s.(tasks := s.tasks[spawned := Task(t.context, t.context, Outside)])
      case DispatchMessage(task, message, stamped, q) =>
        // A new queue is a new object.
        if !Held(s, t) && q in s.queues then s
        else
          var made := Dispatch(message, stamped, if Held(s, t) then t.context else None);
          Dispatched(s, task, message, stamped, q).(dispatched := s.dispatched + [made])
      case PassingEnds(task) =>
        if t.frames.Passing? then s.(tasks := s.tasks[task := t.(frames := t.frames.under)]) else s
      case CurrentReturns(task) =>
        if AtCurrent(s, task, false) then
          s.(tasks := s.tasks[task := t.(frames := t.frames.(draining := true))])
        else s
      case CurrentRaises(task) => if AtCurrent(s, task, false) then Closed(s, task, Raised) else s
      case DrainStep(task) =>
        if !AtCurrent(s, task, true) then s
        else
          var id := t.frames.queue;
          var q := s.queues[id];
          // No await stands between finding the queue empty and closing it.
          if q.held == [] then Closed(s, task, Completed)
          else State(s.tasks[task := t.(frames := Passing(t.frames))],
                     s.queues[id := q.(held := q.held[1..], resumed := q.resumed + [q.held[0]])],
                     s.dispatched, s.outAtOnce)
  }

  function Run(s: State, moves: seq<Move>): State
    decreases |moves|
  {
    if moves == [] then s else Run(Apply(s, moves[0]), moves[1..])
  }

  // ---------------------------------------------------------------------------------------------
  // What every move keeps
  // ---------------------------------------------------------------------------------------------

  /** The queues of the current messages a task is inside of, outermost first. */
  function Opened(frames: Frames): seq<QueueId> {
    match frames
    case Outside => []
    case Passing(under) => Opened(under)
    case Current(q, _, _, under) => Opened(under) + [q]
  }

  /** The value of the context variable inside `frames`, in a task that inherited `inherited`. */
  function ContextIn(inherited: Option<QueueId>, frames: Frames): Option<QueueId> {
    match frames
    case Outside => inherited
    case Passing(under) => ContextIn(inherited, under)
    case Current(q, _, _, _) => Some(q)
  }

  predicate RestoresContext(inherited: Option<QueueId>, frames: Frames) {
    match frames
    case Outside => true
    case Passing(under) => RestoresContext(inherited, under)
    case Current(_, saved, _, under) => RestoresContext(inherited, under) && saved == ContextIn(inherited, under)
  }

  predicate Distinct(frames: Frames) {
    match frames
    case Outside => true
    case Passing(under) => Distinct(under)
    case Current(q, _, _, under) => Distinct(under) && q !in Opened(under)
  }

  lemma {:induction false} ContextIsInnermost(inherited: Option<QueueId>, frames: Frames)
    ensures var q := Opened(frames);
            ContextIn(inherited, frames) == if q == [] then inherited else Some(q[|q| - 1])
  {
    if frames.Passing? {
      ContextIsInnermost(inherited, frames.under);
    }
  }

  /** Nothing accepted is lost: it was resumed, in order, or it waits, or a failure dropped it. */
  predicate Accounted(q: Queue) {
    && q.accepted == q.resumed + q.held + q.dropped
    && (q.open <==> q.ending == Unfinished)
    && (q.open ==> q.dropped == [])
    && (!q.open ==> q.held == [])
    && (q.ending == Completed ==> q.dropped == [])
  }

  ghost predicate TaskInv(s: State, id: TaskId)
    requires id in s.tasks
  {
    var t := s.tasks[id];
    && t.context == ContextIn(t.inherited, t.frames)
    && RestoresContext(t.inherited, t.frames)
    && Distinct(t.frames)
    && (t.inherited.Some? ==> t.inherited.value in s.queues)
    && (forall q :: q in Opened(t.frames) ==> q in s.queues && s.queues[q].open && s.queues[q].owner == id)
  }

  ghost predicate QueueInv(s: State, id: QueueId)
    requires id in s.queues
  {
    var q := s.queues[id];
    && Accounted(q)
    && (q.open ==> q.owner in s.tasks && id in Opened(s.tasks[q.owner].frames))
  }

  ghost predicate Inv(s: State) {
    && (forall id :: id in s.tasks ==> TaskInv(s, id))
    && (forall id :: id in s.queues ==> QueueInv(s, id))
  }

  /** What a move of `task` that changes at most the queue `c` leaves as it was. */
  ghost predicate Touches(s: State, s': State, task: TaskId, c: QueueId) {
    && task in s'.tasks && s.tasks.Keys <= s'.tasks.Keys && s.queues.Keys <= s'.queues.Keys
    && (forall id :: id in s'.tasks && id != task ==> id in s.tasks && s'.tasks[id] == s.tasks[id])
    && (forall id :: id in s'.queues && id != c ==> id in s.queues && s'.queues[id] == s.queues[id])
    && (task in s.tasks ==>
          forall q :: q in Opened(s.tasks[task].frames) && q != c ==> q in Opened(s'.tasks[task].frames))
  }

  /** Every other task and queue keeps its invariant. */
  lemma Assembled(s: State, s': State, task: TaskId, c: QueueId)
    requires Inv(s) && Touches(s, s', task, c) && TaskInv(s', task)
    requires c in s'.queues ==> Accounted(s'.queues[c])
    requires c in s.queues ==>
               s'.queues[c].owner == s.queues[c].owner
               && (s.queues[c].owner != task ==> s'.queues[c].open == s.queues[c].open)
    requires c in s'.queues && c !in s.queues ==> s'.queues[c].owner == task
    requires c in s'.queues && s'.queues[c].owner == task && s'.queues[c].open ==> c in Opened(s'.tasks[task].frames)
    ensures Inv(s')
  {
    forall id | id in s'.tasks ensures TaskInv(s', id) {
      if id != task { assert TaskInv(s, id); }
    }
    forall id | id in s'.queues ensures QueueInv(s', id) {
      if id in s.queues { assert QueueInv(s, id); }
    }
  }

  lemma DispatchedKeeps(s: State, task: TaskId, message: MessageId, stamped: bool, q: QueueId)
    requires Inv(s) && task in s.tasks && (Held(s, s.tasks[task]) || q !in s.queues)
    ensures Inv(Dispatched(s, task, message, stamped, q))
  {
    var t := s.tasks[task];
    if Held(s, t) && stamped {
      HoldingBackKeeps(s, task, message);
    } else if Held(s, t) {
      PassingOnKeeps(s, task, message);
    } else {
      OpeningKeeps(s, task, message, stamped, q);
    }
  }

  lemma HoldingBackKeeps(s: State, task: TaskId, message: MessageId)
    requires Inv(s) && task in s.tasks && Held(s, s.tasks[task])
    ensures Inv(Dispatched(s, task, message, true, 0))
  {
    var c := s.tasks[task].context.value;
    assert TaskInv(s, task) && QueueInv(s, c);
    Appended(s.queues[c], message);
    Assembled(s, Dispatched(s, task, message, true, 0), task, c);
  }

  lemma PassingOnKeeps(s: State, task: TaskId, message: MessageId)
    requires Inv(s) && task in s.tasks && Held(s, s.tasks[task])
    ensures Inv(Dispatched(s, task, message, false, 0))
  {
    var c := s.tasks[task].context.value;
    assert TaskInv(s, task) && QueueInv(s, c);
    Assembled(s, Dispatched(s, task, message, false, 0), task, c);
  }

  lemma OpeningKeeps(s: State, task: TaskId, message: MessageId, stamped: bool, q: QueueId)
    requires Inv(s) && task in s.tasks && !Held(s, s.tasks[task]) && q !in s.queues
    ensures Inv(Dispatched(s, task, message, stamped, q))
  {
    var t := s.tasks[task];
    assert TaskInv(s, task);
    Assembled(s, Dispatched(s, task, message, stamped, q), task, q);
  }

  lemma Appended(q: Queue, message: MessageId)
    requires Accounted(q) && q.open
    ensures Accounted(q.(held := q.held + [message], accepted := q.accepted + [message]))
  {
    assert q.resumed + q.held + [] == q.resumed + q.held;
    assert q.resumed + (q.held + [message]) + [] == q.resumed + q.held + [message];
  }

  lemma Popped(q: Queue)
    requires Accounted(q) && q.held != []
    ensures Accounted(q.(held := q.held[1..], resumed := q.resumed + [q.held[0]]))
  {
    assert q.resumed + [q.held[0]] + q.held[1..] == q.resumed + q.held;
  }

  lemma Ended(q: Queue, ending: Ending)
    requires Accounted(q) && q.open && ending != Unfinished && (ending == Completed ==> q.held == [])
    ensures Accounted(q.(open := false, held := [], dropped := q.dropped + q.held, ending := ending))
  {
    assert q.resumed + [] + (q.dropped + q.held) == q.resumed + q.held + q.dropped;
  }

  lemma ClosedKeeps(s: State, task: TaskId, draining: bool, ending: Ending)
    requires Inv(s) && AtCurrent(s, task, draining) && ending != Unfinished
    requires ending == Completed ==> s.queues[s.tasks[task].frames.queue].held == []
    ensures Inv(Closed(s, task, ending))
  {
    var t := s.tasks[task];
    var c := t.frames.queue;
    var q := s.queues[c];
    assert c in Opened(t.frames);
    assert QueueInv(s, c) && q.owner == task;
    Ended(q, ending);
    Assembled(s, Closed(s, task, ending), task, c);
  }

  lemma UncoveringKeeps(s: State, task: TaskId)
    requires Inv(s) && task in s.tasks && s.tasks[task].frames.Passing?
    ensures Inv(Apply(s, PassingEnds(task)))
  {
    if 0 in s.queues { assert QueueInv(s, 0); }
    Assembled(s, Apply(s, PassingEnds(task)), task, 0);
  }

  lemma ReturningKeeps(s: State, task: TaskId)
    requires Inv(s) && AtCurrent(s, task, false)
    ensures Inv(Apply(s, CurrentReturns(task)))
  {
    var t := s.tasks[task];
    var c := t.frames.queue;
    assert QueueInv(s, c);
    Assembled(s, Apply(s, CurrentReturns(task)), task, c);
  }

  lemma SpawningKeeps(s: State, task: TaskId, spawned: TaskId)
    requires Inv(s) && task in s.tasks && spawned !in s.tasks
    ensures Inv(Apply(s, Spawn(task, spawned)))
  {
    var s' := Apply(s, Spawn(task, spawned));
    assert TaskInv(s, task);
    ContextIsInnermost(s.tasks[task].inherited, s.tasks[task].frames);
    forall id | id in s'.tasks ensures TaskInv(s', id) {
      if id != spawned { assert TaskInv(s, id); }
    }
    forall id | id in s'.queues ensures QueueInv(s', id) { assert QueueInv(s, id); }
  }

  lemma DrainStepKeeps(s: State, task: TaskId)
    requires Inv(s) && AtCurrent(s, task, true)
    ensures Inv(Apply(s, DrainStep(task)))
  {
    var t := s.tasks[task];
    var c := t.frames.queue;
    if s.queues[c].held == [] {
      ClosedKeeps(s, task, true, Completed);
    } else {
      assert c in Opened(t.frames);
      assert QueueInv(s, c);
      Popped(s.queues[c]);
      Assembled(s, Apply(s, DrainStep(task)), task, c);
    }
  }

  lemma SameButDispatched(s: State, s': State)
    requires Inv(s) && s'.tasks == s.tasks && s'.queues == s.queues
    ensures Inv(s')
  {
    forall id | id in s'.tasks ensures TaskInv(s', id) { assert TaskInv(s, id); }
    forall id | id in s'.queues ensures QueueInv(s', id) { assert QueueInv(s, id); }
  }

  lemma ApplyKeeps(s: State, m: Move)
    requires Inv(s)
    ensures Inv(Apply(s, m))
  {
    if m.task in s.tasks {
      match m
      case Spawn(task, spawned) => if spawned !in s.tasks { SpawningKeeps(s, task, spawned); }
      case DispatchMessage(task, message, stamped, q) =>
        if Held(s, s.tasks[task]) || q !in s.queues {
          DispatchedKeeps(s, task, message, stamped, q);
          SameButDispatched(Dispatched(s, task, message, stamped, q), Apply(s, m));
        }
      case PassingEnds(task) => if s.tasks[task].frames.Passing? { UncoveringKeeps(s, task); }
      case CurrentReturns(task) => if AtCurrent(s, task, false) { ReturningKeeps(s, task); }
      case CurrentRaises(task) => if AtCurrent(s, task, false) { ClosedKeeps(s, task, false, Raised); }
      case DrainStep(task) => if AtCurrent(s, task, true) { DrainStepKeeps(s, task); }
    }
  }

  lemma {:induction false} RunKeeps(s: State, moves: seq<Move>)
    requires Inv(s)
    ensures Inv(Run(s, moves))
    decreases |moves|
  {
    if moves != [] {
      ApplyKeeps(s, moves[0]);
      RunKeeps(Apply(s, moves[0]), moves[1..]);
    }
  }

  // ---------------------------------------------------------------------------------------------
  // Where every dispatch went
  // ---------------------------------------------------------------------------------------------

  /** The messages dispatched unstamped, or with no queue open in their task's context. */
  function NotToHold(dispatched: seq<Dispatch>): seq<MessageId> {
    if dispatched == [] then []
    else
      var before, d := NotToHold(dispatched[..|dispatched| - 1]), dispatched[|dispatched| - 1];
      if d.stamped && d.open.Some? then before else before + [d.message]
  }

  /** The messages dispatched stamped, while `q` was the queue open in their task's context. */
  function ToHold(dispatched: seq<Dispatch>, q: QueueId): seq<MessageId> {
    if dispatched == [] then []
    else
      var before, d := ToHold(dispatched[..|dispatched| - 1], q), dispatched[|dispatched| - 1];
      if d.stamped && d.open == Some(q) then before + [d.message] else before
  }

  ghost predicate WentWhereDue(s: State) {
    && s.outAtOnce == NotToHold(s.dispatched)
    && forall q: QueueId :: ToHold(s.dispatched, q) == if q in s.queues then s.queues[q].accepted else []
  }

  lemma DispatchGoesWhereDue(s: State, m: Move)
    requires WentWhereDue(s) && m.DispatchMessage? && m.task in s.tasks
    requires Held(s, s.tasks[m.task]) || m.fresh_ !in s.queues
    ensures WentWhereDue(Apply(s, m))
  {
    var s' := Apply(s, m);
    assert s'.dispatched[..|s'.dispatched| - 1] == s.dispatched;
    forall q: QueueId ensures ToHold(s'.dispatched, q) == if q in s'.queues then s'.queues[q].accepted else [] {
      assert ToHold(s.dispatched, q) == if q in s.queues then s.queues[q].accepted else [];
    }
  }

  lemma OthersDispatchNothing(s: State, m: Move)
    requires WentWhereDue(s)
    requires !m.DispatchMessage? || m.task !in s.tasks || (!Held(s, s.tasks[m.task]) && m.fresh_ in s.queues)
    ensures WentWhereDue(Apply(s, m))
  {
    var s' := Apply(s, m);
    forall q: QueueId ensures ToHold(s'.dispatched, q) == if q in s'.queues then s'.queues[q].accepted else [] {
      assert ToHold(s.dispatched, q) == if q in s.queues then s.queues[q].accepted else [];
    }
  }

  lemma {:induction false} RunGoesWhereDue(s: State, moves: seq<Move>)
    requires WentWhereDue(s)
    ensures WentWhereDue(Run(s, moves))
    decreases |moves|
  {
    if moves != [] {
      var m := moves[0];
      if m.DispatchMessage? && m.task in s.tasks && (Held(s, s.tasks[m.task]) || m.fresh_ !in s.queues) {
        DispatchGoesWhereDue(s, m);
      } else {
        OthersDispatchNothing(s, m);
      }
      RunGoesWhereDue(Apply(s, m), moves[1..]);
    }
  }

  /**
   In every interleaving, each dispatch is accounted for once and in order: a stamped one made while a queue was open
   in its task's context was accepted by that queue, and every other one, a stamped one with nothing open included,
   went out at once.
   */
  lemma HeldBackOrOutAtOnce(moves: seq<Move>)
    ensures var s := Run(Initially(), moves);
            && s.outAtOnce == NotToHold(s.dispatched)
            && forall q: QueueId :: ToHold(s.dispatched, q) == if q in s.queues then s.queues[q].accepted else []
  {
    RunGoesWhereDue(Initially(), moves);
  }

  /** A move changes no closed queue: only a queue whose frame is on a stack, or one held open, is written. */
  lemma ClosedUntouched(s: State, m: Move, id: QueueId)
    requires Inv(s) && id in s.queues && !s.queues[id].open
    ensures id in Apply(s, m).queues && Apply(s, m).queues[id] == s.queues[id]
  {
    if m.task in s.tasks {
      assert TaskInv(s, m.task);
    }
  }

  /** A closed queue never grows, and how it ended never changes. */
  lemma {:induction false} ClosedStaysClosed(s: State, moves: seq<Move>, id: QueueId)
    requires Inv(s) && id in s.queues && !s.queues[id].open
    ensures var s' := Run(s, moves); id in s'.queues && s'.queues[id] == s.queues[id]
    decreases |moves|
  {
    if moves != [] {
      ClosedUntouched(s, moves[0], id);
      ApplyKeeps(s, moves[0]);
      ClosedStaysClosed(Apply(s, moves[0]), moves[1..], id);
    }
  }

  lemma {:induction false} RunJoin(s: State, a: seq<Move>, b: seq<Move>)
    ensures Run(s, a + b) == Run(Run(s, a), b)
    decreases |a|
  {
    if a == [] {
      assert a + b == b;
    } else {
      assert (a + b)[0] == a[0] && (a + b)[1..] == a[1..] + b;
      RunJoin(Apply(s, a[0]), a[1..], b);
    }
  }

  lemma RunThrough(a: seq<Move>, m: Move, b: seq<Move>)
    ensures Run(Initially(), a + [m] + b) == Run(Apply(Run(Initially(), a), m), b)
  {
    RunJoin(Initially(), a + [m], b);
    RunJoin(Initially(), a, [m]);
    assert [m][1..] == [];
  }

  /**
   A current message that raises drops what it held, all of it and for good: wherever a run lets it raise, its queue
   ends as raised, dropped is exactly what it held then, and nothing is resumed from it afterwards.
   */
  lemma RaiseDropsWhatItHeld(a: seq<Move>, task: TaskId, b: seq<Move>)
    requires AtCurrent(Run(Initially(), a), task, false)
    ensures var s := Run(Initially(), a);
            var id := s.tasks[task].frames.queue;
            var t := Run(Initially(), a + [CurrentRaises(task)] + b);
            && id in t.queues && t.queues[id].ending == Raised && !t.queues[id].open
            && t.queues[id].dropped == s.queues[id].held && t.queues[id].held == []
            && t.queues[id].resumed == s.queues[id].resumed && t.queues[id].accepted == s.queues[id].accepted
  {
    var s := Run(Initially(), a);
    var id := s.tasks[task].frames.queue;
    RunKeeps(Initially(), a);
    assert TaskInv(s, task) && id in Opened(s.tasks[task].frames) && QueueInv(s, id);
    RunThrough(a, CurrentRaises(task), b);
    ApplyKeeps(s, CurrentRaises(task));
    assert [] + s.queues[id].held == s.queues[id].held;
    ClosedStaysClosed(Apply(s, CurrentRaises(task)), b, id);
  }

  /** The task is at, or inside of, the drain of `q`. */
  predicate Drains(frames: Frames, q: QueueId) {
    match frames
    case Outside => false
    case Passing(under) => Drains(under, q)
    case Current(x, _, draining, under) => (x == q && draining) || Drains(under, q)
  }

  lemma {:induction false} DrainsOpened(frames: Frames, q: QueueId)
    ensures Drains(frames, q) ==> q in Opened(frames)
  {
    if !frames.Outside? {
      DrainsOpened(frames.under, q);
    }
  }

  /** A queue whose current message returned: it is being drained, or it was, to the end. */
  ghost predicate ReturnedOf(s: State, q: QueueId, owner: TaskId) {
    && q in s.queues && s.queues[q].owner == owner && s.queues[q].dropped == []
    && if s.queues[q].open then owner in s.tasks && Drains(s.tasks[owner].frames, q) else s.queues[q].ending == Completed
  }

  lemma OwnMovesDrainOn(s: State, m: Move, q: QueueId, owner: TaskId)
    requires Inv(s) && ReturnedOf(s, q, owner) && s.queues[q].open && m.task == owner
    ensures ReturnedOf(Apply(s, m), q, owner)
  {
    var f := s.tasks[owner].frames;
    assert TaskInv(s, owner);
    DrainsOpened(f, q);
    if !f.Outside? {
      DrainsOpened(f.under, q);
    }
  }

  lemma OthersMovesDrainOn(s: State, m: Move, q: QueueId, owner: TaskId)
    requires Inv(s) && ReturnedOf(s, q, owner) && s.queues[q].open && m.task != owner
    ensures ReturnedOf(Apply(s, m), q, owner)
  {
    if m.task in s.tasks {
      assert TaskInv(s, m.task);
    }
  }

  lemma ReturnedStays(s: State, m: Move, q: QueueId, owner: TaskId)
    requires Inv(s) && ReturnedOf(s, q, owner)
    ensures ReturnedOf(Apply(s, m), q, owner)
  {
    if !s.queues[q].open {
      ClosedUntouched(s, m, q);
    } else if m.task == owner {
      OwnMovesDrainOn(s, m, q, owner);
    } else {
      OthersMovesDrainOn(s, m, q, owner);
    }
  }

  lemma {:induction false} ReturnedRunStays(s: State, moves: seq<Move>, q: QueueId, owner: TaskId)
    requires Inv(s) && ReturnedOf(s, q, owner)
    ensures ReturnedOf(Run(s, moves), q, owner)
    decreases |moves|
  {
    if moves != [] {
      ReturnedStays(s, moves[0], q, owner);
      ApplyKeeps(s, moves[0]);
      ReturnedRunStays(Apply(s, moves[0]), moves[1..], q, owner);
    }
  }

  /**
   A current message that returned drops nothing, whatever else runs: its queue is drained until it is empty, and once
   closed every message it accepted was resumed, in order.
   */
  lemma ReturnDropsNothing(a: seq<Move>, task: TaskId, b: seq<Move>)
    requires AtCurrent(Run(Initially(), a), task, false)
    ensures var id := Run(Initially(), a).tasks[task].frames.queue;
            var t := Run(Initially(), a + [CurrentReturns(task)] + b);
            && ReturnedOf(t, id, task)
            && t.queues[id].accepted == t.queues[id].resumed + t.queues[id].held
            && (!t.queues[id].open ==> t.queues[id].accepted == t.queues[id].resumed)
  {
    var s := Run(Initially(), a);
    var id := s.tasks[task].frames.queue;
    RunKeeps(Initially(), a);
    assert TaskInv(s, task) && id in Opened(s.tasks[task].frames) && QueueInv(s, id);
    RunThrough(a, CurrentReturns(task), b);
    var next := Apply(s, CurrentReturns(task));
    ApplyKeeps(s, CurrentReturns(task));
    ReturnedRunStays(next, b, id, task);
    RunKeeps(next, b);
    var q := Run(next, b).queues[id];
    assert QueueInv(Run(next, b), id);
    assert q.resumed + q.held + [] == q.resumed + q.held && q.resumed + [] == q.resumed;
  }

  /** A step of the drain resumes the oldest message held; with none left it closes the queue and restores the context. */
  lemma DrainStepResumesOldest(a: seq<Move>, task: TaskId)
    requires AtCurrent(Run(Initially(), a), task, true)
    ensures var s := Run(Initially(), a);
            var id := s.tasks[task].frames.queue;
            var t := Apply(s, DrainStep(task));
            && id in t.queues
            && (s.queues[id].held != [] ==>
                  && t.queues[id].open && t.queues[id].held == s.queues[id].held[1..]
                  && t.queues[id].resumed == s.queues[id].resumed + [s.queues[id].held[0]]
                  && t.tasks[task].frames == Passing(s.tasks[task].frames) && t.tasks[task].context == Some(id))
            && (s.queues[id].held == [] ==>
                  && t.queues[id].ending == Completed
                  && t.tasks[task].frames == s.tasks[task].frames.under
                  && t.tasks[task].context == ContextIn(s.tasks[task].inherited, s.tasks[task].frames.under))
  {
    var s := Run(Initially(), a);
    var id := s.tasks[task].frames.queue;
    RunKeeps(Initially(), a);
    assert TaskInv(s, task) && id in Opened(s.tasks[task].frames) && s.queues[id].open;
    assert s.tasks[task].context == Some(id);
    assert s.tasks[task].frames.saved == ContextIn(s.tasks[task].inherited, s.tasks[task].frames.under);
  }

  /**
   With nothing open in its context a dispatch is the current message, stamped or not: a queue of its own is open in the
   task's context from then on.
   */
  lemma OpensItsQueue(s: State, task: TaskId, message: MessageId, stamped: bool, q: QueueId)
    requires task in s.tasks && !Held(s, s.tasks[task]) && q !in s.queues
    ensures var t := Apply(s, DispatchMessage(task, message, stamped, q));
            && q in t.queues && t.queues[q].open && t.queues[q].owner == task
            && t.tasks[task].context == Some(q) && AtCurrent(t, task, false) && t.tasks[task].frames.queue == q
            && Held(t, t.tasks[task])
  {
  }

  /**
   A spawned task inherits the context: what it dispatches stamped, for as long as the message it was spawned under is
   being handled, is held back by that message's queue.
   */
  lemma SpawnedHoldsBackToo(s: State, task: TaskId, spawned: TaskId, message: MessageId, q: QueueId)
    requires Inv(s) && task in s.tasks && spawned !in s.tasks && Held(s, s.tasks[task])
    ensures var id := s.tasks[task].context.value;
            var t := Apply(Apply(s, Spawn(task, spawned)), DispatchMessage(spawned, message, true, q));
            t.queues[id].held == s.queues[id].held + [message] && t.outAtOnce == s.outAtOnce
  {
  }

  predicate Idle(s: State) {
    forall id :: id in s.tasks ==> s.tasks[id].frames == Outside
  }

  /**
   Nothing accepted is stranded. Whatever the tasks did, once none of them is inside a message every
   queue is closed, and one whose current message returned had every message it accepted resumed,
   once and in the order accepted. Only a current message that raised drops what it still held.
   */
  lemma NothingStranded(moves: seq<Move>)
    requires Idle(Run(Initially(), moves))
    ensures var s := Run(Initially(), moves);
            forall id :: id in s.queues ==>
              var q := s.queues[id];
              && (q.ending == Completed ==> q.accepted == q.resumed)
              && (q.ending == Raised ==> q.accepted == q.resumed + q.dropped)
              && q.ending != Unfinished && q.held == []
  {
    RunKeeps(Initially(), moves);
    var s := Run(Initially(), moves);
    forall id | id in s.queues
      ensures s.queues[id].ending != Unfinished && s.queues[id].accepted == s.queues[id].resumed + s.queues[id].dropped
    {
      assert QueueInv(s, id);
      var q := s.queues[id];
      assert q.resumed + [] == q.resumed;
    }
  }

  /**
   The context variable is restored exactly: however many messages a task went through in between,
   when it is back inside the same frames it sees the value it saw before.
   */
  lemma ContextRestored(s: State, moves: seq<Move>, task: TaskId)
    requires Inv(s) && task in s.tasks
    ensures var s' := Run(s, moves);
            && task in s'.tasks
            && s'.tasks[task].inherited == s.tasks[task].inherited
            && (Opened(s'.tasks[task].frames) == Opened(s.tasks[task].frames) ==>
                  s'.tasks[task].context == s.tasks[task].context)
  {
    RunKeeps(s, moves);
    InheritedStays(s, moves, task);
    ContextIsInnermost(s.tasks[task].inherited, s.tasks[task].frames);
    ContextIsInnermost(s.tasks[task].inherited, Run(s, moves).tasks[task].frames);
    assert TaskInv(s, task) && TaskInv(Run(s, moves), task);
  }

  lemma {:induction false} InheritedStays(s: State, moves: seq<Move>, task: TaskId)
    requires task in s.tasks
    ensures task in Run(s, moves).tasks && Run(s, moves).tasks[task].inherited == s.tasks[task].inherited
    decreases |moves|
  {
    if moves != [] {
      InheritedStays(Apply(s, moves[0]), moves[1..], task);
    }
  }
}
