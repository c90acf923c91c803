# xtr-messenger: a verified model

xtr-messenger is a message bus: messages travel in envelopes through a chain of middleware, out through
senders, back in through receivers, and end settled by a worker. This project models the code that moves
envelopes between cursors, queues, receivers and tables, and proves what it keeps over every run.

`dafny verify dfyconfig.toml` checks everything.

## What is modelled

**Dispatching.** `DispatchSpec` says what dispatching a finite tree of messages does, without a cursor or a
queue: dispatches now run inline, dispatches stamped for later are held back with the rest of their own chain.
`DispatchEngine` is the engine as it runs (single-use cursors, a queue that is appended to while it is drained,
a context variable), proved to do exactly that. The drain terminates because what a message holds back weighs
less than the message. `DispatchTasks` takes the same middleware under every interleaving of tasks that inherit
the context of the message being handled.

**Receiving.** `ReceiveProtocol` is the chained receiver as moves that interleave in any order: fetches end, the
generator advances, the consumer closes, settles and asks again. `ChainedReceivers` is the class with its tables
and ticket counter, each method proved to make its move. `BoundedBypass` bounds how long a delivered envelope can
be passed by. `NestedSettlement` settles through chained receivers nested to any depth. `InMemoryTransports` is the
in-memory transport, and `EndToEnd` follows messages from `send` to settlement. `StopRace` is the wait for the next
message and for a stop at once, in every interleaving. `WorkerSpec` says what a worker does over every pattern of such
waits, exceptions and stops, and `Workers` is the worker as it runs. `WorkerEvents` holds what they share.

**Accounting.** `SendMessage` (what each sender of a fan-out added), `SendersLocators` (where the names of a fan-out
come from), `HandleMessage` (every handler runs, every failure kept), `Serializers` and `MessageRegistry` (the round
trip of an envelope).

**State kept in step.** `HandlersLocators` (live index against declared index), `StartedBrokers` (once-only startup
under a lock), `TransportFactories` (a tree of factories against its leaves).

`Envelopes` and `Sequences` hold what they share.

## Where the code is weaker than its prose

* A stop asked for between runs is lost exactly when the last run raised as it started: `run` keeps its event in
  `_stopped` before its `try` (src/xtr_messenger/worker.py:128-131), so `stop` sets the event of a run that is over.
  `WorkerSpec.StopLostExactlyAfterFailedStart` is the exact condition, `WorkerSpec.StopLostForInstance` an instance.
* A message registered under the empty name is encoded and cannot be decoded: the header is there and empty, and is
  read as missing (src/xtr_messenger/transport/serialization/serializer.py:123-125). `Serializers.RoundTripForDeclared`
  has the exact condition, `Serializers.EmptyNameIsReadAsMissing` the instance.
* A decorator that raises leaves the live index behind the decorators
  (src/xtr_messenger/handler/handlers_locator.py:98-105): `HandlersLocators.LiveAgreesUnlessDecorateRaised` is exact,
  `HandlersLocators.IndexLeftBehindForInstance` an instance.
* Overlapping `close_all` calls can shut a broker down more often than it was opened
  (src/xtr_messenger/bridge/taskiq/started_brokers.py:93-98). As long as that has not happened, beginning one can lead
  there exactly when another call under way is not yet at the last broker of its snapshot:
  `StartedBrokers.BeginningOverShutsExactly`. `StartedBrokers.OverlappingClosesShutTwice` is a run from the start.
* An envelope that already carries message ids and is sent again comes back from the in-memory transport with those ids
  twice, exactly when the serializer's round trip, if there is one, keeps them
  (src/xtr_messenger/transport/in_memory/in_memory_transport.py:103-106): `InMemoryTransports.EarlierIdsRepeat`.
* What is held back is dropped only when the current message itself raises; what a guarded inline dispatch held back
  before it failed still goes out (src/xtr_messenger/middleware/dispatch_after_current_bus_middleware.py:81-97).
  `DispatchSpec.CurrentThenHeld` says when, `DispatchSpec.CaughtFailureStillGoesOut` is an instance.
* A fan-out is not atomic: an unknown name is met after earlier senders were called
  (src/xtr_messenger/transport/sender/senders_locator.py:73-80). `SendMessage.CutShortExactly` says when,
  `SendMessage.CutShortForInstance` is an instance, and `SendersLocators.UnknownOnlyOutsideTable` says which names can be
  unknown.

## What is assumed

* asyncio tasks switch only where the original awaits. Cancellation of the worker's own task, and a second cancellation
  during cleanup, are not modelled; cancelling a fetch, a collection, or a call on the record of brokers is.
* The value codec is exact: what it agrees to write it reads back as the same class.
* A middleware calls `next` at most once. Senders, handlers, listeners and decorators are functions of what they are
  given, or inputs that may be anything, including an exception, but do not reach into the state of their caller.
* Messages of a dispatch are finite trees. Stamps are told apart by class; subclasses of the library's own stamps are
  not modelled.
* Random identifiers, and the order in which a set is listed, are inputs.

## Model

| member | source | states |
|---|---|---|
| Envelopes.LastAddedWins | src/xtr_messenger/envelope.py:64-74 | when a stamp type is added more than once, the one added last is the one found, and stamps of other types do not hide it |
| Envelopes.WithoutKeepsTheOthers | src/xtr_messenger/envelope.py:53-62 | dropping stamps drops exactly those; every other one stays, each type's in its order |
| DispatchSpec.CurrentThenHeld | src/xtr_messenger/middleware/dispatch_after_current_bus_middleware.py:77-97 | if the current message raised nothing held back goes out; otherwise its own trace comes first, unbroken, then each held message once in the order held, and what is raised is exactly their failures in that order |
| DispatchSpec.OutermostIsCurrent | src/xtr_messenger/middleware/dispatch_after_current_bus_middleware.py:66-97 | with nothing being handled the stamp makes no difference: the message is the current one, its trace begins with what its chain does inline, then each message held back follows once in the order held, and what is raised is exactly what they raised |
| DispatchSpec.OutermostEnters | src/xtr_messenger/middleware/dispatch_after_current_bus_middleware.py:73-75 | so it enters the middleware after the hold-back, stamped or not |
| DispatchSpec.HeldBackExactly | src/xtr_messenger/middleware/dispatch_after_current_bus_middleware.py:66-74 | while a message is being handled a stamped one is held back, without the stamp, with the rest of its chain and nothing of it runs; another runs as if the hold-back were not there |
| DispatchSpec.OfEachInTurn | src/xtr_messenger/middleware/dispatch_after_current_bus_middleware.py:85-90 | what is held back, happens and is raised by the messages resumed is that of each resumed by itself, in order |
| DispatchSpec.ChainIsComposed | src/xtr_messenger/middleware/stack_middleware.py:38-49 | a message that asks for nothing goes through every middleware of its chain once, in order, each around the rest, and comes back past the identity tail with what each marked it with |
| DispatchSpec.ScriptStopsAtFirstFailure | src/xtr_messenger/message_bus.py:39-51 | the dispatches made while handling run in order, each by itself, up to the first that raises and is not caught, and end with what that raised; a caught failure stops nothing |
| DispatchSpec.ResumedInTheOrderHeld | src/xtr_messenger/middleware/dispatch_after_current_bus_middleware.py:84-90 | an order of resumption is the engine's if and only if it is the queue followed by what its own messages hold back: each exactly once, later ones at the end |
| DispatchSpec.CaughtFailureStillGoesOut | src/xtr_messenger/middleware/dispatch_after_current_bus_middleware.py:81-97 | a current message catches the failure of one it dispatched, and what that one held back goes out once the current message returned |
| DispatchSpec.DrainRunsResumed | src/xtr_messenger/middleware/dispatch_after_current_bus_middleware.py:85-90 | the drain runs exactly the resumed messages one after the other and collects exactly their failures |
| DispatchSpec.HeldWeighsLess | src/xtr_messenger/middleware/dispatch_after_current_bus_middleware.py:68-75 | everything handling a message holds back, through any buses, weighs less than the message along its chain |
| DispatchSpec.ResumingLightens | src/xtr_messenger/middleware/dispatch_after_current_bus_middleware.py:85-88 | popping the oldest held message and appending what it holds back leaves a lighter queue, so the drain ends |
| DispatchEngine.Cursor.Next | src/xtr_messenger/middleware/stack_middleware.py:38-44 | a call takes the first middleware of the suffix left and leaves the rest; past the end it is the identity tail, for good |
| DispatchEngine.Engine.DispatchThrough | src/xtr_messenger/message_bus.py:39-51 | a dispatch on a fresh cursor does what the composed chain does on the stamped envelope, and no other dispatch's cursor moves |
| DispatchEngine.Engine.Continue | src/xtr_messenger/middleware/stack_middleware.py:38-49 | resuming a cursor, however long it was saved, runs exactly the suffix it stood at: trace, outcome and what joins the queue |
| DispatchEngine.Engine.HandleHoldBack | src/xtr_messenger/middleware/dispatch_after_current_bus_middleware.py:59-75 | held back, passed on or made current exactly as the pure meaning says, the context left as it was |
| DispatchEngine.Engine.HandleAsCurrent | src/xtr_messenger/middleware/dispatch_after_current_bus_middleware.py:77-97 | with nothing being handled: the whole of one current message and what it held back, the context variable reset, nothing left in the outer queue |
| DispatchEngine.Engine.DrainHeld | src/xtr_messenger/middleware/dispatch_after_current_bus_middleware.py:83-90 | the loop over a queue that grows while it is popped ends with it empty, having run and reported what the pure drain does |
| DispatchEngine.Engine.HandleWork | src/xtr_messenger/middleware/stack_middleware.py:46-49 | a middleware working around the rest of the chain does so in order, and what it raises stops what follows |
| DispatchTasks.RunKeeps | src/xtr_messenger/middleware/dispatch_after_current_bus_middleware.py:66-94 | in every interleaving: a task sees the queue of its innermost current message, every accepted message is resumed, waiting or dropped, in order, and an open queue has its message still on its owner's stack |
| DispatchTasks.HeldBackOrOutAtOnce | src/xtr_messenger/middleware/dispatch_after_current_bus_middleware.py:66-75 | in every interleaving each dispatch is accounted for once and in order: a stamped one made while a queue was open in its task's context was accepted by that queue, every other one went out at once |
| DispatchTasks.NothingStranded | src/xtr_messenger/middleware/dispatch_after_current_bus_middleware.py:82-94 | once no task is inside a message, every queue is closed and empty; one whose current message returned resumed all it accepted, in order; only a message that raised drops what it held |
| DispatchTasks.RaiseDropsWhatItHeld | src/xtr_messenger/middleware/dispatch_after_current_bus_middleware.py:81-94 | wherever a run lets a current message raise, its queue ends as raised, exactly what it held then is dropped, and nothing is resumed from it afterwards |
| DispatchTasks.ReturnDropsNothing | src/xtr_messenger/middleware/dispatch_after_current_bus_middleware.py:82-94 | a current message that returned drops nothing, whatever else runs: its queue is drained until empty, and once closed all it accepted was resumed in order |
| DispatchTasks.DrainStepResumesOldest | src/xtr_messenger/middleware/dispatch_after_current_bus_middleware.py:85-94 | a step of the drain resumes the oldest message held; with none left it closes the queue and restores the context |
| DispatchTasks.OpensItsQueue | src/xtr_messenger/middleware/dispatch_after_current_bus_middleware.py:66-80 | with nothing open a dispatch is the current message, stamped or not, and its own queue is open in the context from then on |
| DispatchTasks.SpawnedHoldsBackToo | src/xtr_messenger/middleware/dispatch_after_current_bus_middleware.py:34-38 | what a task spawned during a message dispatches stamped is held back by that message's queue |
| DispatchTasks.ClosedStaysClosed | src/xtr_messenger/middleware/dispatch_after_current_bus_middleware.py:66-72 | a closed queue never changes again, whichever tasks still hold it in their context |
| DispatchTasks.ContextRestored | src/xtr_messenger/middleware/dispatch_after_current_bus_middleware.py:79-94 | back inside the same frames a task sees the context value it saw before, through any moves of any task |
| ReceiveProtocol.RunKeeps | src/xtr_messenger/transport/receiver/chained_receiver.py:81-121 | every reachable state: at most one live fetch and one leftover per receiver, no leftovers while streams are open, everything delivered in one place, one ticket per envelope |
| ReceiveProtocol.HandedOutInOrder | src/xtr_messenger/transport/receiver/chained_receiver.py:81-121 | through every stop, failure and restart, what a receiver delivered is what was handed out of it, in order, followed by at most one envelope still kept |
| ReceiveProtocol.AbandonsExactly | src/xtr_messenger/transport/receiver/chained_receiver.py:89-103 | in every run abandoning begins exactly when the consumer closes while streams are open, or when the round comes to a receiver that failed; never because one ran dry |
| ReceiveProtocol.EndsWhenAllRanDry | src/xtr_messenger/transport/receiver/chained_receiver.py:90-98 | in every run each receiver that did not run dry is being fetched from while streams are open, and collecting ends by itself exactly when every receiver ran dry |
| ReceiveProtocol.DryLeavesTheOthers | src/xtr_messenger/transport/receiver/chained_receiver.py:95-97 | a receiver running dry takes its own fetch with it, every other stays as it was, and the round goes on |
| ReceiveProtocol.DeliveredIsFetchedAgain | src/xtr_messenger/transport/receiver/chained_receiver.py:98-99 | a receiver that delivered is fetched from again as its envelope goes out, every other fetch staying as it was |
| ReceiveProtocol.WakesToEveryCompleted | src/xtr_messenger/transport/receiver/chained_receiver.py:91-92 | a round is of every fetch completed by then, by position |
| ReceiveProtocol.LeftoversGoFirst | src/xtr_messenger/transport/receiver/chained_receiver.py:81-88 | the oldest leftover goes out first; streams are opened only with none left, one pending fetch for every receiver |
| ReceiveProtocol.ApplyKeeps | src/xtr_messenger/transport/receiver/chained_receiver.py:89-121 | every single move keeps the shape, the conservation of envelopes and the tickets |
| ReceiveProtocol.SettledKeepsTickets | src/xtr_messenger/transport/receiver/chained_receiver.py:158-162 | a ticket taken is closed by exactly one settlement, of the envelope it was given for; no ticket is closed twice |
| BoundedBypass.BypassIsBounded | src/xtr_messenger/transport/receiver/chained_receiver.py:90-99 | among n receivers, at most 2(n - 1) envelopes of the others are handed out before one that was delivered, across stops and restarts |
| BoundedBypass.BoundIsMet | src/xtr_messenger/transport/receiver/chained_receiver.py:90-99 | the bound is reached for every number of receivers: some run hands out 2(n - 1) envelopes of the others before the one the last delivered |
| ChainedReceivers.ChainedReceiver.Build | src/xtr_messenger/transport/receiver/chained_receiver.py:50-71 | refused exactly when names are given and do not name every receiver |
| ChainedReceivers.ChainedReceiver.Ticketed | src/xtr_messenger/transport/receiver/chained_receiver.py:105-110 | the envelope is recorded under the next ticket and handed on with the transport's name and that ticket as its receipt |
| ChainedReceivers.ChainedReceiver.Take | src/xtr_messenger/transport/receiver/chained_receiver.py:158-162 | the origin recorded under the receipt that counts, removed; nothing for any other envelope |
| ChainedReceivers.ChainedReceiver.Settle | src/xtr_messenger/transport/receiver/chained_receiver.py:123-156 | forwarded to the receiver it came from as handed over, with the origin's own receipt counting; an unknown or settled ticket forwards nothing and changes nothing |
| ChainedReceivers.ChainedReceiver.FetchEnds | src/xtr_messenger/transport/receiver/chained_receiver.py:86-91 | a pending fetch completes once, and nothing else changes |
| ChainedReceivers.ChainedReceiver.Close | src/xtr_messenger/transport/receiver/chained_receiver.py:89-103 | stopping makes the protocol's move and keeps its invariant |
| ChainedReceivers.ChainedReceiver.Advance | src/xtr_messenger/transport/receiver/chained_receiver.py:81-103 | one step of the generator makes the protocol's move; it yields exactly what that move hands out, with every stamp it carried, its transport's name and the next ticket |
| ChainedReceivers.ChainedReceiver.ServeOrOpen | src/xtr_messenger/transport/receiver/chained_receiver.py:81-88 | leftovers are handed out first, one at a time, stamped like any other; only then is every stream opened with one fetch each |
| ChainedReceivers.ChainedReceiver.SortedDone | src/xtr_messenger/transport/receiver/chained_receiver.py:91-92 | the completed fetches, in the order the receivers were given |
| ChainedReceivers.ChainedReceiver.ProcessDone | src/xtr_messenger/transport/receiver/chained_receiver.py:93-99 | the next fetch of a receiver is started before its envelope is handed out; an exhausted one leaves; a failure abandons |
| ChainedReceivers.ChainedReceiver.KeepDelivered | src/xtr_messenger/transport/receiver/chained_receiver.py:112-121 | every envelope an abandoned fetch delivered is appended to the leftovers, in the order the fetches were started |
| NestedSettlement.SettleReachesDelivery | src/xtr_messenger/transport/receiver/chained_receiver.py:123-162 | through any depth, settling an outstanding envelope makes exactly one settlement of that kind reach the transport whose delivery it is, with every stamp kept and the receipt that transport gave it counting; every other ticket is untouched |
| NestedSettlement.OriginIsDelivery | src/xtr_messenger/transport/receiver/chained_receiver.py:105-110 | the tickets, followed down through every level, lead to the very delivery behind the envelope: the transport that made it and what it yielded |
| NestedSettlement.HandOutTraced | src/xtr_messenger/transport/receiver/chained_receiver.py:99-110 | what is handed out at any level is what a transport delivered, with nothing but stamps added |
| NestedSettlement.KeptIsHandedOut | src/xtr_messenger/transport/receiver/chained_receiver.py:81-110 | what a chained receiver keeps can be handed out, with its transport's name and the next ticket, and is kept no more |
| NestedSettlement.MovesUp | src/xtr_messenger/transport/receiver/chained_receiver.py:86-99 | handed out inside, an envelope is collected by the receiver around it from that position, everything else staying |
| NestedSettlement.UnknownTicketSettlesNothing | src/xtr_messenger/transport/receiver/chained_receiver.py:130-135 | an envelope with no ticket still to be settled changes nothing and reaches nothing |
| NestedSettlement.OriginsApart | src/xtr_messenger/transport/receiver/chained_receiver.py:105-110 | two tickets never lead to the same delivery of a transport |
| NestedSettlement.HandOutExtends | src/xtr_messenger/transport/receiver/chained_receiver.py:99-110 | handing out at any level keeps where every ticket already given leads |
| NestedSettlement.SettledOnceAtTheOrigin | src/xtr_messenger/transport/receiver/chained_receiver.py:105-162 | over every run: every envelope handed out is a delivery of some transport, no two the same, with nothing but stamps added, and every other delivery is still under way; one settlement per settled envelope reaches the transport that delivered it, in the order first settled, of the kind first asked for |
| InMemoryTransports.InMemoryTransport.Send | src/xtr_messenger/transport/in_memory/in_memory_transport.py:88-106 | a delay or a failed round trip is refused with nothing recorded; otherwise the same envelope is appended to the record and to the queue, and returned with the new id as the one that counts and its receipt unchanged |
| InMemoryTransports.EarlierIdsRepeat | src/xtr_messenger/transport/in_memory/in_memory_transport.py:100-106 | the ids returned are those the envelope had, those that made the round trip and the new one; earlier ids repeat if and only if the round trip keeps them |
| InMemoryTransports.Stream.Next | src/xtr_messenger/transport/in_memory/in_memory_transport.py:108-119 | the oldest queued envelope, named and under the next receipt of this stream; the record is not touched; nothing only when the queue is empty |
| InMemoryTransports.InMemoryTransport.Reject | src/xtr_messenger/transport/in_memory/in_memory_transport.py:126-135 | the envelope is recorded as handed over, and nothing else changes |
| InMemoryTransports.InMemoryTransport.Clear | src/xtr_messenger/transport/in_memory/in_memory_transport.py:82-86 | record, queue and rejections are empty |
| EndToEnd.EverythingAccountedFor | src/xtr_messenger/transport/in_memory/in_memory_transport.py:89-135 | for every sequence of sends, collections, stops and settlements: what was sent to a transport is, in sent order, what was handed out, what is kept, what is queued; what was handed out is exactly in flight, acknowledged or rejected, each once; what the transport recorded as rejected is what was rejected |
| EndToEnd.RecordNeverDrained | src/xtr_messenger/transport/in_memory/in_memory_transport.py:58-65 | the record is exactly what was sent, whatever was drained in between |
| EndToEnd.SendTo | src/xtr_messenger/transport/in_memory/in_memory_transport.py:88-106 | sending through a transport object is the system's step of what it records, and no step when refused; every transport stays as the system says |
| EndToEnd.FetchFrom | src/xtr_messenger/transport/in_memory/in_memory_transport.py:108-119 | a fetch of a transport's stream is the system's step, yielding the oldest envelope stamped |
| EndToEnd.RejectOn | src/xtr_messenger/transport/in_memory/in_memory_transport.py:126-135 | rejecting on a transport object is the system's step of rejecting a ticket that came from it |
| StopRace.ReturnsWhatArrived | src/xtr_messenger/worker.py:176-202 | however the fetch, the stop and the wake-ups interleave, a wait that is over returned an envelope exactly when the receiver delivered it, together with the stop or to a cancelled fetch included; nothing exactly when stopped before, dry or cancelled; and raised exactly what the fetch failed with |
| StopRace.StoppedWaitEnds | src/xtr_messenger/worker.py:190-202 | once the stop is set no further delivery is needed: the steps left never grow, and each step of the wait's own lowers them unless it waits for the end of the fetch it cancelled |
| StopRace.StopEndsTheWait | src/xtr_messenger/worker.py:190-202 | from any point, a stop, three steps of the wait and the end of the cancelled fetch end it with nothing more delivered |
| StopRace.StopAlreadySet | src/xtr_messenger/worker.py:189-190 | a stop set before the wait begins starts no fetch, whatever happens |
| WorkerSpec.RunKeepsProtocol | src/xtr_messenger/worker.py:124-150 | for every backlog and every pattern of waits, answers and exceptions: started, then per message received, dispatched, handled or failed, settled, reset, running, each step as the listeners and the dispatch answered the one before; then closed and stopped once; what the receiver delivered is exactly what is collected, in order, and as many settlements are made |
| WorkerSpec.RunSettlesTruly | src/xtr_messenger/_handling.py:78-119 | in every run, with a dispatcher or without: a message is acknowledged only when nothing was raised over it and a skip was asked for or the dispatch returned; rejected only when something was, carrying the first such error as its reason; announced as handled only as the dispatch returned it; every such envelope is the one collected, or the one the dispatch returned, with nothing but stamps added |
| WorkerSpec.RunRaisesTheLastBreak | src/xtr_messenger/worker.py:128-138 | over every session a run raises exactly the last of what broke out of the receiver, a settlement, the resetter or a listener told of a failure or of the worker, and returns when nothing did; once one broke nothing more is collected |
| WorkerSpec.SettledBreaks | src/xtr_messenger/worker.py:161-169 | what breaks out of a message in hand is, in order, what a listener told of its failure raised, what the settlement raised and what the resetter raised; the last leaves |
| WorkerSpec.GoesOnUndisturbed | src/xtr_messenger/worker.py:131-134 | as long as messages arrive, nobody asks for a stop and nothing breaks, every one is collected, whatever handlers raise |
| WorkerSpec.AcceptedSettlesEach | src/xtr_messenger/worker.py:132-169 | any trace of that protocol collects everything that arrives, in order, and settles each collected message once before the next is collected |
| WorkerSpec.SettledOnceAsHandled | src/xtr_messenger/worker.py:161-169 | one collected message is settled by one call: an ack exactly when neither a listener nor the dispatch raised over it |
| WorkerSpec.HandlersSeeTheName | src/xtr_messenger/worker.py:152-160 | the name on the envelope handlers find is the one the worker was built for, or else the one it was received under; an envelope that already has it is left alone |
| WorkerSpec.EventsReportTheName | src/xtr_messenger/_handling.py:57-62 | every received, handled and failed event of a message reports that same name |
| WorkerSpec.RejectedCarriesReason | src/xtr_messenger/_handling.py:94-119 | a rejected envelope keeps every stamp and says what went wrong: the error itself, or what the first handler raised when handlers failed, with or without listeners |
| WorkerSpec.StopWhileRunningIsHonoured | src/xtr_messenger/worker.py:141-150 | after a stop asked for anywhere in a run, at most one more message is settled, including one that arrives together with the stop or from a fetch being cancelled |
| WorkerSpec.StopBeforeRunIsHonoured | src/xtr_messenger/worker.py:124-128 | after any history, the next run collects nothing if a stop was asked for since the last run began to close (and that run did not raise as it started), and otherwise runs as if none ever was |
| WorkerSpec.StopLostExactlyAfterFailedStart | src/xtr_messenger/worker.py:128-150 | for every history: a stop between runs makes the next settle nothing exactly when the last run did not raise as it started, and is otherwise without any effect |
| WorkerSpec.StopLostForInstance | src/xtr_messenger/worker.py:128-150 | a start that raised, a stop, and a run that settles the waiting message all the same |
| Workers.Worker.Run | src/xtr_messenger/worker.py:100-138 | does, announces and raises what the specification says, and leaves its two fields as it says |
| Workers.Worker.Stop | src/xtr_messenger/worker.py:141-150 | sets the event of the run going on, or leaves word for the next |
| Workers.Worker.Consume | src/xtr_messenger/worker.py:132-134 | the loop of a run, over any sequence of what waiting can come to |
| Workers.Worker.OneRound | src/xtr_messenger/worker.py:132-134 | one wait and one settlement: over when stopped, dry or raised out of, and otherwise going on with the stops asked for in it |
| Workers.Worker.NextUnlessStopped | src/xtr_messenger/worker.py:176-202 | the two waits, the cancellation and the choice of what to return, over any order in which they happen |
| Workers.Worker.Settle | src/xtr_messenger/worker.py:152-169 | the message is named, handled, settled either way and the resetter run, the last exception winning |
| Workers.Worker.Handle | src/xtr_messenger/_handling.py:65-91 | handled, skipped or failed, with the last envelope known before whatever raised, every answer of a listener and of the dispatch in the log as it was given |
| Workers.Worker.AnnounceFailure | src/xtr_messenger/_handling.py:94-119 | the envelope is stamped, announced and settled, whatever a listener raises |
| SendMessage.AddedBy | src/xtr_messenger/middleware/send_message_middleware.py:90-107 | the shortcut for a returned envelope that begins with the given one and the greedy loop compute the same additions |
| SendMessage.AdditionsAreTheDifference | src/xtr_messenger/middleware/send_message_middleware.py:90-107 | what a sender added is, as a multiset, what it returned less what it was given, in the order it returned it; what stays unmatched is what it dropped |
| SendMessage.PrefixMatches | src/xtr_messenger/middleware/send_message_middleware.py:97-99 | matching a list against one it begins with leaves exactly the rest |
| SendMessage.Handle | src/xtr_messenger/middleware/send_message_middleware.py:62-87 | received passes on untouched; routed returns with every sender's additions, or passes on when one handed it back received; unrouted raises, returns or passes on as configured |
| SendMessage.FanOutTo | src/xtr_messenger/transport/sender/senders_locator.py:70-80 | each routed name is sent to in order until one is unknown or refuses; the calls made until then are kept |
| SendMessage.RoutedOnceEach | src/xtr_messenger/transport/sender/senders_locator.py:72-76 | every routed name is sent to, none twice, in the order first routed |
| SendMessage.FanOutIsolatesSenders | src/xtr_messenger/middleware/send_message_middleware.py:68-76 | each sender is handed the envelope as it was before any of them with its own stamp alone, and when all accept the stamps added are each sender's additions, in sender order |
| SendMessage.CutShortExactly | src/xtr_messenger/transport/sender/senders_locator.py:73-80 | a fan-out stops at an unknown transport with earlier calls made if and only if some routed name that is not the first is no sender and every sender before the first such name accepts; as many calls are made as names come before it |
| SendMessage.RefusedExactly | src/xtr_messenger/middleware/send_message_middleware.py:70-74 | a fan-out ends with a sender's error exactly when one refuses after all before it accepted, with that error, after its call, and nobody after it is called |
| SendMessage.CutShortForInstance | src/xtr_messenger/transport/sender/senders_locator.py:73-80 | the one sender there is has the message when the next name turns out unknown |
| SendMessage.AppendingSenderAdds | src/xtr_messenger/middleware/send_message_middleware.py:93-96 | a sender that appends has its own stamp and what it appended counted, repeats included |
| SendersLocators.TransportNames | src/xtr_messenger/transport/sender/senders_locator.py:89-102 | the names are those of whichever source the message uses |
| SendersLocators.MatchedInOrder | src/xtr_messenger/transport/sender/senders_locator.py:94-96 | the table gives what each base along the order is routed to, one after the other |
| SendersLocators.OneSource | src/xtr_messenger/transport/sender/senders_locator.py:34-44 | exactly one of stamped names, table, catch-all and declared names is used |
| SendersLocators.Build | src/xtr_messenger/transport/sender/senders_locator.py:53-67 | accepted exactly when every route names transports that exist |
| SendersLocators.UnknownOnlyOutsideTable | src/xtr_messenger/transport/sender/senders_locator.py:62-80 | with an accepted table, a fan-out meets an unknown transport only through stamped or declared names |
| HandleMessage.Unused | src/xtr_messenger/middleware/handle_message_middleware.py:93-99 | the first of name, name#2, name#3… not taken, found within one probe more than there are errors |
| HandleMessage.TakenAtMost | src/xtr_messenger/middleware/handle_message_middleware.py:93-99 | by pigeonhole, no more numbered names are taken than there are errors |
| HandleMessage.NumberedInjective | src/xtr_messenger/middleware/handle_message_middleware.py:97-98 | different counts give different names, whatever the name looks like |
| HandleMessage.Handle | src/xtr_messenger/middleware/handle_message_middleware.py:62-87 | every handler runs in order; no failure overwrites another, each keeps its place and its error under its handler's name, numbered; none and required raises |
| HandleMessage.EachInTurn | src/xtr_messenger/middleware/handle_message_middleware.py:77-84 | in the order they ran, each handler is handed the message with the stamps of those before it, and leaves exactly its own name with its own result, or a failure under its own name with its own error |
| HandleMessage.EveryHandlerAccounted | src/xtr_messenger/middleware/handle_message_middleware.py:77-87 | successes and failures together are the handlers, and nothing but their stamps is added |
| MessageRegistry.Registry.Claim | src/xtr_messenger/message_registry.py:111-118 | refused exactly when the name is another class's; both tables stay inverse |
| MessageRegistry.Registry.RegisterMessage | src/xtr_messenger/message_registry.py:36-56 | a refusal changes nothing; otherwise the class is declared, under the name given if one was, with the transports given if any were |
| MessageRegistry.Registry.TransportsOf | src/xtr_messenger/message_registry.py:83-92 | the transports of the first class along the order that declared any, none when none did |
| MessageRegistry.FoundExactlyWhenDeclared | src/xtr_messenger/message_registry.py:68-108 | after any history, a class is found under the name it travels by if and only if it was declared |
| MessageRegistry.NamesNeverChangeHands | src/xtr_messenger/message_registry.py:111-118 | a name once given resolves to the same class for good |
| Serializers.GroupStamps | src/xtr_messenger/transport/serialization/serializer.py:138-141 | one group per class name in order of first appearance, each with its stamps in their order |
| Serializers.Encode | src/xtr_messenger/transport/serialization/serializer.py:97-112 | the body, the type header first, one header per group of sendable stamps; refused when the codec refuses any part |
| Serializers.EncodesExactly | src/xtr_messenger/transport/serialization/serializer.py:97-147 | refused exactly when the codec refuses the message or some class name's stamps; otherwise the body, the type header and one header for each class name, holding its stamps, in order of first appearance |
| Serializers.Decode | src/xtr_messenger/transport/serialization/serializer.py:115-164 | the first of a missing type, an undeclared one, a body or a stamp that does not fit; unknown stamp headers are dropped |
| Serializers.DecodesExactly | src/xtr_messenger/transport/serialization/serializer.py:115-164 | the reason there is no message, if there is none; or else the first stamp header that does not fit; or else the message with the stamps of every known header, in order |
| Serializers.RoundTrip | src/xtr_messenger/transport/serialization/serializer.py:97-164 | what is encoded is decoded to the same message with its stamps in normal form if and only if its name is not empty and resolves to its class |
| Serializers.RoundTripForDeclared | src/xtr_messenger/transport/serialization/serializer.py:97-164 | after any history of registrations: if and only if the class was declared, under a name that is not empty |
| Serializers.EmptyNameIsReadAsMissing | src/xtr_messenger/transport/serialization/serializer.py:123-125 | a class declared under the empty name is encoded and then refused as having no type |
| Serializers.OnlyDeclaredIsDecoded | src/xtr_messenger/transport/serialization/serializer.py:115-164 | whatever arrives, only a declared message under the name its header gives is decoded, with stamps of known classes only |
| Serializers.NormalKeepsEachName | src/xtr_messenger/transport/serialization/serializer.py:138-164 | exactly the sendable stamps of known names arrive, per name in their order, the names in order of first appearance |
| Serializers.NormalIsNormal | src/xtr_messenger/transport/serialization/serializer.py:138-164 | a second trip changes nothing |
| HandlersLocators.LiveAgreesUnlessDecorateRaised | src/xtr_messenger/handler/handlers_locator.py:38-110 | after any history, the live index is the declared one under the current decorators if and only if the last `decorate` did not raise |
| HandlersLocators.IndexLeftBehindForInstance | src/xtr_messenger/handler/handlers_locator.py:98-105 | a decorator that raises on a registered handler is in the list while the index stays as it was |
| HandlersLocators.DecoratorsAre | src/xtr_messenger/handler/handlers_locator.py:92-101 | one decorator per key given, in the order the keys were first given, each the latest given with its key |
| HandlersLocators.DeclaredAre | src/xtr_messenger/handler/handlers_locator.py:48-54 | what is declared for a type is each registration for it that was let through, in order |
| HandlersLocators.DecoratesInOrder | src/xtr_messenger/handler/handlers_locator.py:92-96 | decorators apply one after the other in the order given, the first to the descriptor as it was declared |
| HandlersLocators.AlongInOrder | src/xtr_messenger/handler/handlers_locator.py:73-75 | what is bound along an order is what is bound to each type of it, the most specific first |
| HandlersLocators.LookupFindsDeclared | src/xtr_messenger/handler/handlers_locator.py:57-79 | a lookup finds every handler declared along the resolution order once, where it comes first, under the current decorators |
| HandlersLocators.HandlersLocator.Register | src/xtr_messenger/handler/handlers_locator.py:38-54 | both indexes gain the handler, or neither changes when its signature or a decorator refuses |
| HandlersLocators.HandlersLocator.Decorate | src/xtr_messenger/handler/handlers_locator.py:85-105 | an equal decorator is replaced in place, a new one joins the end, and the index is rebuilt unless a decorator raises |
| HandlersLocators.HandlersLocator.DecoratedNow | src/xtr_messenger/handler/handlers_locator.py:107-110 | the decorators in the order given, the first applied to what was declared |
| HandlersLocators.HandlersLocator.FindHandlers | src/xtr_messenger/handler/handlers_locator.py:57-79 | the lists along the resolution order joined, less every descriptor whose handler came before |
| StartedBrokers.RunKeeps | src/xtr_messenger/bridge/taskiq/started_brokers.py:54-103 | in every interleaving: the lock is held by the one call starting a broker not recorded, the log explains the record, every closer is at the place its shutdowns say |
| StartedBrokers.OpenedOnce | src/xtr_messenger/bridge/taskiq/started_brokers.py:54-77 | completed startups of a broker are the times it was really removed, plus one if recorded now; one startup at most is under way; a worker's broker is never recorded |
| StartedBrokers.ClosesEachOnce | src/xtr_messenger/bridge/taskiq/started_brokers.py:79-103 | whatever runs meanwhile and whichever shutdowns raise, a `close_all` that is not cancelled goes on until it shut down each broker recorded when it began exactly once, and reports every failure in order |
| StartedBrokers.FailureIsReported | src/xtr_messenger/bridge/taskiq/started_brokers.py:91-103 | a shutdown that raised is among the failures its `close_all` reports, after those before it, unless that call is cancelled |
| StartedBrokers.ForgottenOpensAgain | src/xtr_messenger/bridge/taskiq/started_brokers.py:75-77 | forgetting drops that record and nothing else, and the next `ensure_started` starts the broker again |
| StartedBrokers.ReturnedWhenOpen | src/xtr_messenger/bridge/taskiq/started_brokers.py:54-75 | in every run an `ensure_started` that returned was for a worker's broker, or returned at a moment its broker was recorded |
| StartedBrokers.RaisedStartupNeverReturns | src/xtr_messenger/bridge/taskiq/started_brokers.py:71-75 | a call whose startup raised never ends by returning |
| StartedBrokers.OverShutExactlyUnlessApart | src/xtr_messenger/bridge/taskiq/started_brokers.py:92-98 | calls under way, left to themselves, can end with a broker shut down more often than opened if and only if some broker ahead of one is not recorded or is ahead of another too |
| StartedBrokers.BeginningOverShutsExactly | src/xtr_messenger/bridge/taskiq/started_brokers.py:92-98 | after any run without excess and with nothing forgotten by hand, a `close_all` begun now can lead there if and only if another call under way is not yet at the last broker of its snapshot |
| StartedBrokers.ShutDownOnce | src/xtr_messenger/bridge/taskiq/started_brokers.py:79-103 | when nothing is forgotten by hand and each `close_all` begins with no recorded broker ahead of another, each connection opened is shut down once or still recorded, and no excess can follow |
| StartedBrokers.OverlappingClosesShutTwice | src/xtr_messenger/bridge/taskiq/started_brokers.py:93-98 | a run from the start in which two overlapping calls shut down twice a broker opened once |
| StartedBrokers.StartedBrokers.EnsureStarted | src/xtr_messenger/bridge/taskiq/started_brokers.py:69-70 | returns at once exactly for a worker's or a recorded broker, and waits for the lock otherwise |
| StartedBrokers.StartedBrokers.LockAcquired | src/xtr_messenger/bridge/taskiq/started_brokers.py:71-74 | checks again under the lock, and starts only a broker still not recorded |
| StartedBrokers.StartedBrokers.StartupEnds | src/xtr_messenger/bridge/taskiq/started_brokers.py:74-75 | recorded only if the startup completed; the lock is released either way |
| StartedBrokers.StartedBrokers.CloseAll | src/xtr_messenger/bridge/taskiq/started_brokers.py:92-96 | the snapshot is taken and its first broker forgotten and shut down |
| StartedBrokers.StartedBrokers.ShutdownEnds | src/xtr_messenger/bridge/taskiq/started_brokers.py:93-101 | a failure is collected and the next broker of the snapshot tried, until none is left |
| TransportFactories.SearchIsFirst | src/xtr_messenger/transport/transport_factory.py:73-73 | the leaves answer as the first that recognises the scheme or fails being asked; nothing is found if and only if no leaf recognises it |
| TransportFactories.FlattenedLeftToRight | src/xtr_messenger/transport/transport_factory.py:70-73 | the leaves of a factory over others are its children's, from left to right |
| TransportFactories.DiscoversExactly | src/xtr_messenger/transport/transport_factory.py:110-124 | what is kept for the scheme, or what is on offer, built once and kept for that scheme alone; a refusal exactly when it needs a serializer that is not there |
| TransportFactories.ClosesEachOccurrence | src/xtr_messenger/transport/transport_factory.py:87-96 | each closing adapter behind the leaves is closed as often as it stands there, and no other, when none raises |
| TransportFactories.FirstRaiseEnds | src/xtr_messenger/transport/transport_factory.py:94-96 | the first that raises is the last that is tried |
| TransportFactories.ServedForGood | src/xtr_messenger/transport/transport_factory.py:110-124 | whatever is asked in between, of any factory, a scheme is served by the same object, or the same refusal, for good |
| TransportFactories.FoundRecognises | src/xtr_messenger/transport/transport_factory.py:119-124 | after any run of requests, what is found for a scheme recognises it |
| TransportFactories.TransportFactories.Discover | src/xtr_messenger/transport/transport_factory.py:110-124 | the adapter kept for the scheme, or the one discovered now and kept |
| TransportFactories.TransportFactories.Supports | src/xtr_messenger/transport/transport_factory.py:64-73 | a tree of factories answers, and discovers, as its leaves from left to right do |
| TransportFactories.TransportFactories.Serving | src/xtr_messenger/transport/transport_factory.py:126-150 | the adapter of the first leaf that recognises the scheme, never a composite; nothing is discovered that asking the leaves once would not |
| TransportFactories.TransportFactories.ClosePublishers | src/xtr_messenger/transport/transport_factory.py:87-108 | each closing adapter behind the leaves is closed, once per occurrence, from left to right, up to and including the first that raises |

## Left out

- JSON itself, DSN parsing, redaction, entry points and signature inspection: the library call decides the answer; each is an input here.
- taskiq senders and workers, and the AMQP bridge: their guarantees rest on broker libraries that are not part of this model.
- The bundle, console commands, logging and signals: wiring and output.
- Cancellation of a worker's own asyncio task, and cancellation of a `ChainedReceiver` while it is already abandoning: not modelled.
- Weak references, and the lock per event loop of `StartedBrokers`: one loop is modelled, and brokers are not collected while recorded.
- StartedBrokers.StartedBrokers.CloseAll: the loop of `close_all` is modelled as one method per stretch between two awaits, because other calls run in between.
- ChainedReceivers.ChainedReceiver.Advance: the generator is likewise modelled as one method per stretch between two suspensions.
- ChainedReceivers.ChainedReceiver.Close: closing the inner streams one by one after abandoning is not modelled; they hold no envelope by then.
- NestedSettlement.SettledOnceAtTheOrigin: nested receivers are values, not objects, and hand out what arrived in any order; which delivery an envelope is rides along as a history; order is proved for one level in `ReceiveProtocol`. A consumer that adds receipt stamps of its own is not modelled.
- EndToEnd.FetchFrom: the system follows the envelope as it was queued; the stamps the stream adds are stated of what it yields only.
- EndToEnd.EverythingAccountedFor: `clear` is not among the events, since it forgets on purpose.
- Serializers.RoundTrip: `ToldApart` asks that the known class of each name be the class of the stamps sent under it, as the documentation does.
- HandlersLocators.LookupFindsDeclared: decorators are taken to leave `handler` saying what was declared, as `HandlerDescriptor` asks.
- TransportFactories.TransportFactories.Discover: an adapter recognises a DSN by its scheme alone, and what is installed does not change.
- The listing methods of the registries: simple reads.
