# Turn lifecycle of the Soothe client: model and proofs

A Dafny model of the parts of the client that decide when an agent turn begins, which turn it is and when it
ends, and of the bounded, shared state around that decision. `dafny verify dfyconfig.toml` checks all of it.

## What is modelled

- **Wire values** (`Json`, `Text`, `TextRules`, `StreamTerminal`, `InboundPriority`, `TurnIds`, `Frames`, `WireRules`,
  `Wrapping`): JSON objects, one
  level of `next` unwrapping, the terminal, progress and stale-frame predicates, drop priorities, turn ids, and
  the decoding both turn-end detectors share. A decoded status keeps its state twice: as the session compares it
  (exactly) and as the boundary does (ignoring ASCII case).
- **Inbound queue** (`BoundedQueue`, `InboundQueue`, `DeliveryAcks`): the bounded FIFO with priority eviction as
  the client mutates it, beside a history of every frame; peeling at turn start; per-loop ack numbers.
- **Turn-end detection, twice** (`TurnBoundary`, `TurnBoundaryRuns`, `DaemonSession`, `DaemonSessionRuns`,
  `SessionChunks`, `SessionTurns`): the gate and boundary objects of the pooled path, and the read loop of the
  streaming session with its drain.
- **The two compared, and under pressure** (`Simulation`, `Parity`, `Backpressure`, `Survival`).
- **The pooled runner** (`Classifier`, `MessagePayloads`, `ReplyRules`, `TurnRunner`, `TurnRunnerRuns`,
  `TurnRunnerText`, `TurnRunnerEnds`, `TurnRunnerResults`): arming, idle clock, accumulation, one outcome, exactly
  which passes end a turn and with which result; the loop is proved to stop.
- **Sample messages** (`Samples`): JSON as the daemon sends it, decoded and classified, from which the
  counterexamples are built.
- **Lock-granular protocols** (`RpcMux`, `RpcMuxCalls`, `ConnectionPool`, `ConnectionPoolCourses`, `QueryGate`,
  `QueryGateCancels`): every action is one critical section of
  some task, a sequence of actions is one interleaving, and an action that is not possible changes nothing.
- **Projections** (`CardLog`, `CardProjection`, `CardRules`, `Broadcaster`, `Delivery`): the card map and its frame log; bounded
  fan-out, and what a subscriber reads of a turn's text.

Each object is a class whose methods are proved against a transition on values (`View() == Step(old(View()), ..)`);
what the client promises is proved about those transitions, over all sequences of them. `Received`, `Trace` and
`inputs` are what successive reads bring: deadlines, quiet reads and failed reads are inputs like frames.
The early-drop filter and the event classifier are arbitrary functions.

## Where the code and its documentation differ

- The priority table calls critical frames never-drop (src/inbound_priority.rs:10). A queue that holds nothing
  less important gives up its oldest frame, for a critical newcomer (`CriticalFrameCanBeLost`) and even for one of
  lower priority (`HighFrameEvictsCritical`). `CriticalFramesSurviveIff` has the exact condition: no important
  newcomer ever finds the queue full, without a normal frame, and a critical one at its head.
- `push_pending_event` is documented to queue an event ahead of later reads (src/client.rs:572); it appends, so the
  event waits behind everything already there (`PushedFrameGoesLast`); `PushedFrameIsNextIff` says for every queue when
  the next read brings it.
- Turn frames come through as long as no critical frame is displaced (`TurnFramesSurvive`), but lost progress can
  still keep the turn from ending: `LostTextLosesTheEnd`. `EndSurvivesTheQueueIff` has the exact condition for the
  end, `BindingSurvivesTheQueueIff` for the bound turn.
- The pooled boundary is described as the session's contract (src/appkit/turn_boundary.rs:1). It ends no later, but
  can end earlier (`BoundaryCanEndEarlier`). `EndTogetherIff` has the exact condition, on the inputs alone.
- Settle-drain and arm-before-end are said to keep pooled leftovers from ending the next turn early (the client's README.md:78-80).
  A leftover that slips past the drain can: a deliverable reply (`LeftoverReplyEndsTheTurn`), an error
  (`LeftoverErrorEndsTheTurn`), or a whole earlier turn (`LeftoverTurnEndsTheTurn`), because the runner does not know
  the turn id of its own query. `FirstMessageEndsIff` says exactly which first messages do it, and `TurnEndsIff`
  exactly which passes end a turn.
- The gate is described as single-flight (src/appkit/query_gate.rs:3). Cancelling a running turn admits a second one
  (`CancelBreaksSingleFlight`), and so does a reserved entry without any cancel, because `execute_reserved` only asks
  whether the key is reserved, by whomever (`ReservedEntryBreaksSingleFlight`). `BreaksSingleFlightIff` has the exact
  condition for every step, `SingleFlightIff` for whole runs. The intended protocol is safe: `OneTurnPerKey`.
- A session whose connection dies before it has read `running` does not notice (src/appkit/daemon_session.rs:380-388):
  without a time budget it reads on for ever (`QuietReadsEndIff`, `DeadBeforeRunningReadsOn`).
- An acknowledged frame is not always a protected one: `WrappedAckIsCriticalIff`, `AckedButDroppable`.
- A failed acquire does not give its slot back, so a pool wears out: `LossesAreExactlyThese`, `WornOutPoolStaysEmpty`.
- Accumulation takes a fragment that repeats the whole text so far for a snapshot: `FragmentsAddUpIff`,
  `RepeatedFragmentIsLost`.
- A deliverable phase with trailing blanks is trimmed to another phase on its way: `MessageDeliverableResolves`,
  `TrailingBlankPhaseIsLost`.

## Model

| member | source | states |
|---|---|---|
| TurnIds.FormatParseRoundTrip | src/turn_boundary.rs:6-27 | parsing a formatted id returns its generation; a blank loop or a non-positive generation gives nothing |
| TurnIds.FormattedIdsMatch | src/turn_boundary.rs:6-80 | formatted ids match exactly when trimmed loop and generation are equal, also for loop ids with colons |
| TurnIds.FrameTurnId | src/turn_boundary.rs:30-46 | a frame's turn id is never blank and is already trimmed |
| TextRules.TrimTakesOffBlanks | src/turn_boundary.rs:7-17 | trimming takes the blanks off both ends and nothing else |
| TextRules.GenerationIff | src/turn_boundary.rs:15-27 | an id has a generation exactly when, trimmed, it ends in a colon and a positive 64-bit number |
| TextRules.FormatRule | src/turn_boundary.rs:6-12 | an id is the trimmed loop, a colon and the decimal generation, or nothing |
| TextRules.MatchRule | src/turn_boundary.rs:73-80 | ids match when they are the same non-blank text, blanks around it aside |
| TextRules.ContainsIff | src/inbound_priority.rs:111-121 | containing is being somewhere inside |
| WireRules.TurnIdRule | src/turn_boundary.rs:30-46 | a frame's own turn id goes before that of its data, blanks count as none |
| WireRules.TerminalIdRule | src/appkit/turn_boundary.rs:144-160 | a terminal is judged by the id of its data before the frame's own |
| StreamTerminal.TerminalIsNotProgress | src/stream_terminal.rs:67-82 | a terminal custom payload never counts as progress |
| WireRules.TurnEndRule | src/stream_terminal.rs:22-60 | a turn ends by the loop's completion, or by a stream end of scope turn or none |
| WireRules.ProgressRule | src/stream_terminal.rs:26-83 | progress is any message or update, and plans, steps and cards |
| WireRules.EndKindRule | src/appkit/daemon_session.rs:593-600 | the end state tells a stream end from a completion by the type as it is written |
| WireRules.StaleRule | src/stream_terminal.rs:85-121 | which bare messages are stale, and under which label |
| WireRules.StaleNextRule | src/stream_terminal.rs:92-103 | a wrapped one goes by its payload's mode, else by what it carries |
| WireRules.AckRule | src/stream_terminal.rs:124-165 | which messages are acknowledged, bare and wrapped |
| WireRules.LoopIdRule | src/stream_terminal.rs:168-195 | the loop of a frame is its own, else its payload's, else its data's |
| InboundPriority.PriorityRange | src/inbound_priority.rs:23-109 | priorities are critical, high or normal for every frame, however deeply wrapped |
| InboundPriority.WrappingNeverDemotes | src/inbound_priority.rs:34-59 | a `next` wrapper never makes a frame easier to drop |
| InboundPriority.CriticalIff | src/inbound_priority.rs:23-109 | at any depth, a frame is critical exactly when some payload around it decides so or its innermost frame is critical when bare |
| WireRules.TypePriority | src/inbound_priority.rs:23-62 | priority of a message by its type alone |
| WireRules.StatePriority | src/inbound_priority.rs:64-69 | the four known states are critical, no other |
| WireRules.CustomPriority | src/inbound_priority.rs:71-92 | terminals and errors are critical, cognition and tool batches high |
| WireRules.MessagesPriority | src/inbound_priority.rs:34-106 | messages that end the stream or are the goal's answer are critical, bare and in a `next` |
| InboundPriority.StatusIsCritical | src/inbound_priority.rs:64-69 | a known status is critical, bare or wrapped |
| InboundPriority.BareAckIsCritical | src/stream_terminal.rs:124-165 | a bare frame that needs an ack is critical |
| InboundPriority.WrappedAckIsCriticalIff | src/stream_terminal.rs:130-141 | a wrapped one is critical exactly when its payload says `complete`, its inner type is one the priority table knows, or, further in, a payload decides or the innermost frame is critical when bare |
| InboundPriority.AckedButDroppable | src/stream_terminal.rs:130-141 | a wrapped terminal without an inner type is acknowledged and yet normal |
| Frames.KindIsExact | src/stream_terminal.rs:49-82 | decoding an event's kind is exactly the two predicates, and no chunk is both |
| Wrapping.WrappingIsInvisible | src/protocol.rs:340-356 | a message in a `next` decodes as the bare one |
| Wrapping.CarriedIsDecoded | src/protocol.rs:340-356 | whatever else wrapper and payload carry, the frame is the object inside |
| Wrapping.SecondLevelStaysOn | src/protocol.rs:340-356 | only one level comes off: a doubly wrapped frame says nothing to a turn |
| Wrapping.EmptyNextSaysNothing | src/protocol.rs:340-356 | nor does a `next` that carries no object |
| Wrapping.WrappedTurnsAreTheSame | src/appkit/daemon_session.rs:390-403 | session and boundary run on wrapped messages as on bare ones |
| Wrapping.WrappedTurnEnds | src/appkit/turn_runner.rs:696-715 | wrapped running, text and stream end bind and end a turn |
| Wrapping.EventFields | src/appkit/daemon_session.rs:522-531 | mode, data and namespace of an event are the message's own, with their defaults |
| WireRules.ToolRule | src/appkit/daemon_session.rs:571-585 | tool calls and results are told by the dotted namespace |
| WireRules.ErrorRule | src/appkit/daemon_session.rs:439-447 | an error says its nested message, else its own, else a stock phrase |
| WireRules.CancelRule | src/appkit/daemon_session.rs:510-515 | a command response cancels when it says so |
| Frames.OneStateAtMost | src/appkit/turn_boundary.rs:124-132 | a state means at most one of running, stopped, idle; exact meanings are loose meanings too |
| BoundedQueue.KeptIsSubsequence | src/client.rs:1413-1448 | delivered frames followed by the queue are always, in order, part of the arrivals, peeling and clearing included |
| BoundedQueue.FramesAreConserved | src/client.rs:1413-1457 | every arrival is delivered, queued, counted as dropped or removed on purpose, once; the counter counts the losses |
| BoundedQueue.LengthIsBounded | src/client.rs:1413-1448 | the queue never exceeds the largest cap in force (at least one) |
| BoundedQueue.FullQueueNeverGrows | src/client.rs:585-589 | after the cap was lowered below its length, a queue never grows |
| BoundedQueue.ImportantFramesSurvive | src/client.rs:1419-1448 | each overrun costs exactly one important frame; the important frames come through unchanged exactly when there was no overrun |
| BoundedQueue.GuardedFramesSurvive | src/client.rs:1429-1447 | for any part of the important frames: lost are exactly those found at the head by an overrun |
| BoundedQueue.PushedFrameGoesLast | src/client.rs:572-583 | a pushed frame is refused and changes nothing, or waits behind the queue as it was, less one frame when it was full |
| BoundedQueue.PushedFrameIsNextIff | src/client.rs:572-583 | the next read hands it out exactly when an empty queue accepts it or it displaces the only frame of a full one |
| BoundedQueue.RoomPreventsOverruns | src/client.rs:1419-1448 | with fewer important frames waiting than the cap at each important arrival, nothing important is lost |
| BoundedQueue.ReadsTakeTheOldest | src/client.rs:528-541 | so many reads hand out so many frames, oldest first |
| BoundedQueue.ClearTakesAll | src/client.rs:552-554 | clearing takes out what waits and nothing else |
| BoundedQueue.CapIsTheLastAskedFor | src/client.rs:585-589 | the cap is the last one asked for, zeros aside |
| BoundedQueue.PeelIsIdempotent | src/client.rs:557-570 | a peel keeps exactly the frames that are not stale and a second one takes nothing |
| BoundedQueue.PeelLoop | src/client.rs:557-570 | one pass keeps the frames without a label, in order, and collects the labels of the others |
| InboundQueue.PeelReportsWhatItTakes | src/client.rs:557-570 | a peel reports one label per frame it takes, in order |
| InboundQueue.CriticalFrameCanBeLost | src/client.rs:1442-1447 | two critical statuses through a queue of one: the first is lost |
| InboundQueue.HighFrameEvictsCritical | src/client.rs:1442-1447 | a batch of lower priority displaces a critical status |
| InboundQueue.CriticalFramesSurviveIff | src/client.rs:1413-1448 | critical frames come through, all and in order, exactly when no important newcomer finds the queue full, without a normal frame, and a critical one at its head; each time costs one |
| InboundQueue.Inbound.ScanForDrop | src/client.rs:1420-1428 | the scan finds the oldest normal frame, if any |
| InboundQueue.Inbound.EnqueuePending | src/client.rs:1413-1448 | the arrival displaces the oldest normal frame, is refused if normal itself, or displaces the oldest |
| InboundQueue.Inbound.PushPendingEvent | src/client.rs:572-583 | an object is enqueued like any arrival, anything else is ignored |
| InboundQueue.Inbound.NoteInboundDrop | src/client.rs:1450-1451 | the drop counter moves by one in its 64 bits |
| InboundQueue.Inbound.ReadEvent | src/client.rs:528-541 | hands out the oldest waiting frame |
| InboundQueue.Inbound.PeelStalePendingControlEvents | src/client.rs:557-570 | takes out exactly the stale frames, in order, and returns their labels |
| InboundQueue.Inbound.ClearPendingEvents | src/client.rs:552-554 | empties the queue |
| InboundQueue.Inbound.SetInboundMaxSize | src/client.rs:585-589 | changes the cap, except to zero |
| DeliveryAcks.Sequences.NoteInbound | src/client.rs:1360-1381 | acknowledges a frame with its loop's next number, and only frames that need it and name a loop |
| DeliveryAcks.AcksCountFromOne | src/client.rs:1360-1381 | a loop's acks are numbered 1 to n in order, whatever other loops do |
| TurnBoundary.TurnLifecycleGate.ObserveStatus | src/appkit/turn_boundary.rs:48-69 | running binds a newer or first id and drops progress when the id changes |
| TurnBoundary.TurnLifecycleGate.ObserveEvent | src/appkit/turn_boundary.rs:72-76 | progress chunks set progress; terminals do not |
| TurnBoundary.TurnBoundary.FeedStatusTurn | src/appkit/turn_boundary.rs:118-136 | one status through the gate; returns the end reason from then on |
| TurnBoundary.TurnBoundary.FeedEventTurn | src/appkit/turn_boundary.rs:144-160 | one event through the gate, terminals judged by their data's id first |
| TurnBoundary.TurnBoundary.FeedMessage | src/appkit/turn_runner.rs:696-715 | a raw message moves the boundary by its decoded signal |
| TurnBoundaryRuns.GateBindsRunningIds | src/appkit/turn_boundary.rs:48-69 | the bound id is the fold over the ids of the running statuses, and of nothing else |
| TurnBoundaryRuns.BoundIdClosedForm | src/appkit/turn_boundary.rs:51-66 | the bound id is the last of the highest generation, or the first of all when none parses |
| TurnBoundaryRuns.GenerationNeverDecreases | src/appkit/turn_boundary.rs:52-57 | a bound generation is never replaced by an older one or by none |
| TurnBoundaryRuns.ProgressClosedForm | src/appkit/turn_boundary.rs:58-76 | progress is set exactly when a progress frame came since the bound id last changed |
| TurnBoundaryRuns.BoundaryRunClosedForm | src/appkit/turn_boundary.rs:118-166 | the boundary is the gate, frozen by the first frame that ends the turn |
| TurnBoundaryRuns.StreamEndIsGated | src/appkit/turn_boundary.rs:144-160 | stream end ends a turn exactly when a running status bound its id and a separate frame made progress for it |
| TurnBoundaryRuns.IdleIsGated | src/appkit/turn_boundary.rs:132-134 | idle ends a turn under exactly the same condition |
| TurnBoundaryRuns.StoppedIsGated | src/appkit/turn_boundary.rs:124-131 | stopped ends a running turn exactly when no id is bound or the id matches |
| TurnBoundaryRuns.NextEndsIff | src/appkit/turn_boundary.rs:118-166 | the next signal closes an open boundary exactly when what came before has earned it |
| TurnBoundaryRuns.ForeignTerminalNeverEnds | src/turn_boundary.rs:73-115 | a terminal with another id than the bound one never ends the turn |
| TurnBoundaryRuns.EndIsAbsorbing | src/appkit/turn_boundary.rs:119-121 | after the end nothing changes and the reason stays a published one |
| TurnBoundaryRuns.LeadingTerminalsAreInert | src/appkit/turn_runner.rs:424-428 | leading leftovers leave a fresh boundary as it was |
| DaemonSession.Session.IterTurnChunks | src/appkit/daemon_session.rs:338-605 | one call peels the leftovers in the client's queue, then does what the transitions say, from the reset fields to the overflow count |
| DaemonSession.Session.ReadTurn | src/appkit/daemon_session.rs:355-605 | the read loop and its drain are the fold of the transitions over what the reads bring |
| DaemonSession.Session.DrainAfterIdle | src/appkit/daemon_session.rs:613-694 | the drain takes inputs until its window closes, a read brings nothing or an error frame comes |
| DaemonSession.Session.HandleFrame | src/appkit/daemon_session.rs:405-520 | one frame: loop filter, turn filter, error, status, cancel notice, event |
| DaemonSession.Session.HandleStatus | src/appkit/daemon_session.rs:459-506 | running binds as the gate does; stopped and idle end the turn under their gates |
| DaemonSession.Session.HandleEvent | src/appkit/daemon_session.rs:533-603 | counting, early drop, terminal gate, progress, chunk, end |
| DaemonSession.Session.FinalizeInboundDropped | src/appkit/daemon_session.rs:608-611 | the turn's overflow count is the saturating difference |
| DaemonSessionRuns.LoopIsFixed | src/appkit/daemon_session.rs:410-458 | a session that knows its loop keeps it throughout the call |
| DaemonSessionRuns.ForeignFramesDoNotInterfere | src/appkit/daemon_session.rs:405-415 | without the frames of other loops chunks, end state, message and every counter are the same |
| DaemonSessionRuns.CountersBalance | src/appkit/daemon_session.rs:533-602 | total = filtered + skipped + chunks, modes and tool counts stay within their bounds |
| DaemonSessionRuns.NoEndBeforeRunning | src/appkit/daemon_session.rs:459-503 | no call returns chunks before it has read a running status |
| DaemonSessionRuns.ChunksBelongToTheTurn | src/appkit/daemon_session.rs:425-603 | a chunk yielded while a turn is bound carries its id; a turn-end chunk is the last before the drain |
| DaemonSessionRuns.TurnHasOneEnd | src/appkit/daemon_session.rs:593-694 | one input ends the turn; what follows are exactly the chunks counted as drained |
| SessionChunks.TurnReturnsItsFrames | src/appkit/daemon_session.rs:405-692 | a call returns namespace, mode and data of the accepted event frames, in order, and of no others |
| SessionChunks.CountersAreExact | src/appkit/daemon_session.rs:533-686 | every counter is the number of frames it stands for |
| SessionTurns.ReadingSessionKnows | src/appkit/daemon_session.rs:405-576 | started, bound id, cancellation and progress of a reading session in closed form |
| SessionTurns.SessionEndsIff | src/appkit/daemon_session.rs:459-602 | exactly which input ends a turn well and with which end state, cancellation included |
| SessionTurns.SessionFailsIff | src/appkit/daemon_session.rs:357-448 | exactly which input makes a turn fail, and what is reported |
| SessionTurns.DrainGoesOnIff | src/appkit/daemon_session.rs:613-660 | a drain goes on exactly as long as frames come and none is an error of the own loop; the reported end stays |
| SessionTurns.ReadingReportsNothing | src/appkit/daemon_session.rs:339-344 | until then no end state and no error is reported |
| SessionTurns.LoopIsLearned | src/appkit/daemon_session.rs:450-458 | a session without a loop adopts that of the first status that names one |
| DaemonSessionRuns.QuietReadsEndIff | src/appkit/daemon_session.rs:380-388 | reads that bring nothing end a turn exactly when it has started and one finds the connection dead |
| DaemonSessionRuns.DeadBeforeRunningReadsOn | src/appkit/daemon_session.rs:380-388 | a connection that dies before running leaves the call reading, however often |
| Simulation.BoundaryEndsNoLater | src/appkit/daemon_session.rs:405-603 | on one loop's frames both agree on running and bound id, and the boundary ends at the session's frame or earlier |
| Simulation.EndTogetherIff | src/appkit/daemon_session.rs:405-603 | the session ends at the frame that first ends the boundary, for the same cause, exactly when nothing made it give up before and that frame reaches it: stopped, or idle or an undropped terminal of the bound turn after progress the session counts |
| Simulation.OpenSession | src/appkit/daemon_session.rs:423-576 | while the boundary is open the session reads on exactly until something makes it give up, and its progress flag is set exactly when an undropped progress event, of the bound turn if any, came since the bound id last changed |
| Simulation.BothEndTogether | src/appkit/turn_boundary.rs:48-160 | when every relevant event carries the bound id and is not dropped early, both gates stay equal and both end at the same frame for the same cause |
| Simulation.BoundaryCanEndEarlier | src/appkit/turn_boundary.rs:72-76 | an event without an id makes the boundary end where the session keeps reading |
| Parity.RunnerIsOverWhenSessionIs | src/appkit/turn_runner.rs:442-506 | on the same frames a pooled turn is over whenever a session turn is |
| Backpressure.TurnFramesAreCritical | src/inbound_priority.rs:23-109 | every frame that can start, bind, end or fail a turn is critical to the queue |
| Backpressure.TurnFramesSurvive | src/client.rs:1413-1448 | as long as no critical frame is displaced, all of those come through, in order |
| Backpressure.BackpressureKeepsBinding | src/client.rs:1413-1448 | with room for important arrivals, delivered and waiting frames bind the same turn as all arrivals |
| Backpressure.NoCriticalLossKeepsBinding | src/client.rs:1413-1448 | the same from the queue's exact condition for critical frames |
| Backpressure.OverrunCanUnbind | src/client.rs:1442-1447 | one overrun can lose the running status and with it the turn |
| Survival.BindingSurvivesTheQueueIff | src/appkit/turn_boundary.rs:48-69 | whatever was lost, peeled or cleared, the kept frames bind the same turn exactly when a running status came through if there was one and the bound id is the last kept of its generation (the first kept if it has none) |
| Survival.EndSurvivesTheQueueIff | src/appkit/turn_boundary.rs:118-166 | with every critical frame kept, the kept frames end the turn exactly when an arrived terminal was earned with a progress frame that came through since the bound id last changed |
| Survival.SomeMaskFits | src/client.rs:1413-1448 | what came through is always a marking of the arrivals |
| Survival.LostTextLosesTheEnd | src/client.rs:1429-1436 | through a queue of two the stream end displaces the only text of its turn and the turn is never ended |
| Backpressure.PeelTakesLeftoverTerminals | src/stream_terminal.rs:85-121 | after the peel at turn start no queued frame is a turn end |
| Classifier.ResolvedIsNotBlank | src/appkit/classifier.rs:165-185 | a resolved reply is never blank |
| Classifier.MessageDeliverableResolves | src/appkit/classifier.rs:337-382 | a deliverable of the messages branch, for every payload, resolves to its own text, unless trimming its phase leaves an unknown one |
| ReplyRules.MessageRule | src/appkit/classifier.rs:337-382 | what becomes of a message event by type, length and phase of its first item |
| ReplyRules.ContentRule | src/appkit/classifier.rs:556-590 | an item's text is its string, its parts or its blocks |
| ReplyRules.ResolveRule | src/appkit/classifier.rs:165-185 | a deliverable resolves to its own text, else to a long enough text so far |
| ReplyRules.NamedEventsDeliver | src/appkit/classifier.rs:139-148 | the events that are deliverable by name |
| ReplyRules.OtherEventsDeliverIff | src/appkit/classifier.rs:149-156 | the others by their phase or as responded output |
| MessagePayloads.ReadItem | src/appkit/classifier.rs:535-562 | type, content and phase of the first item are read as they are, and the typed decoding sees it exactly for the loop phases |
| MessagePayloads.TrailingBlankPhaseIsLost | src/appkit/classifier.rs:337-382 | a reply whose configured phase ends in a blank is deliverable and resolves to nothing |
| TurnRunner.AttachmentsRaiseTheFloor | src/appkit/turn_runner.rs:646-658 | attachments only lengthen the silence budget and never switch it |
| TurnRunner.RunTurn | src/appkit/turn_runner.rs:345-507 | the loop stops, whatever arrives, no later than the first pass that finds the clock beyond the query deadline, at the first pass whose transition has an outcome |
| TurnRunner.SilentTurnEnds | src/appkit/turn_runner.rs:351-410 | a turn whose arrivals cease ends: waits that last as long as the loop asks carry the clock past the deadline |
| TurnRunner.HandleTick | src/appkit/turn_runner.rs:345-422 | one pass: cancel, deadline, idle, closed channel, message |
| TurnRunner.HandleMessage | src/appkit/turn_runner.rs:424-448 | leftovers are skipped, running arms, anything else arms and is looked at |
| TurnRunner.HandleContent | src/appkit/turn_runner.rs:469-481 | a chunk replaces or extends the text and emits the difference |
| TurnRunner.HandleEvent | src/appkit/turn_runner.rs:448-506 | idle clock, failure, thinking step, text, end |
| TurnRunner.HandleEnd | src/appkit/turn_runner.rs:483-506 | a deliverable ends the turn with its text, the boundary with the collected one, blank text fails |
| TurnRunner.Timeout | src/appkit/turn_runner.rs:522-544 | a timeout completes softly or fails, by policy |
| TurnRunnerRuns.EveryTurnHasOneOutcome | src/appkit/turn_runner.rs:345-590 | at most one result is recorded and the caller gets that one; none only if the stream went missing; blank only after a timeout |
| TurnRunnerRuns.DeltasSpellTheReply | src/appkit/turn_runner.rs:469-494 | the deltas spell the collected text, and the reply unless a deliverable event reworded it |
| TurnRunnerText.CollectedIsAccumulated | src/appkit/turn_runner.rs:469-481 | a live turn's text is what the non-empty contents of its passes accumulate to |
| TurnRunnerText.FragmentsAddUpIff | src/appkit/turn_runner.rs:469-481 | a live turn's text and its deltas are the concatenation of those contents exactly when none starts with the text before it |
| TurnRunnerText.RepeatedFragmentIsLost | src/appkit/turn_runner.rs:470-473 | two messages with the fragment "a" leave "a" |
| TurnRunnerText.SnapshotsLeaveTheLast | src/appkit/turn_runner.rs:469-481 | a live turn that hears growing snapshots has the last one for its text |
| TurnRunnerRuns.ClockReadsLastMark | src/appkit/turn_runner.rs:424-453 | the idle clock reads the last arming or advancing event |
| TurnRunnerRuns.SilenceIsBounded | src/appkit/turn_runner.rs:364-379 | a live armed turn has had such an event within the idle timeout, however much noise there was |
| TurnRunnerRuns.WaitEndsWithTheBudget | src/appkit/turn_runner.rs:381-388 | a read waits between 1 and 500 ms and not past the silence budget, give or take its last millisecond |
| TurnRunnerRuns.BoundaryIsTheFold | src/appkit/turn_runner.rs:424-446 | the boundary of a live turn is the fold of all received frames, skipped leftovers included |
| TurnRunnerEnds.TurnEndsIff | src/appkit/turn_runner.rs:345-506 | a pass ends a live turn exactly when it is interrupted, or looks at a message that ends the turn by itself or is a terminal earned by what was received since the send |
| TurnRunnerEnds.CompletedByBoundaryIff | src/appkit/turn_runner.rs:442-506 | completion by stream end, idle or stopped happens exactly on an earned terminal (for the first two: a running status bound its id and a separate frame made progress) with text and without an ending of its own |
| TurnRunnerResults.InterruptedResult | src/appkit/turn_runner.rs:345-422 | result and record of a cancelled, late or silent pass, a missing and a closed stream, in the order of the checks and by policy |
| TurnRunnerResults.MessageResult | src/appkit/turn_runner.rs:448-506 | result and record of an error, a deliverable, an earned terminal with and without text; else the text and the thinking step |
| TurnRunnerResults.SkippedResult | src/appkit/turn_runner.rs:424-440 | a skipped terminal changes nothing, running arms and starts the clock |
| TurnRunnerResults.WhatAdvancesTheClock | src/appkit/turn_runner.rs:661-673 | the clock advances on text, a thinking step, a deliverable or a failure |
| TurnRunnerResults.IdleBudget | src/appkit/turn_runner.rs:646-658 | the silence budget, raised to the floor when there are attachments |
| TurnRunnerResults.WaitIsTheRest | src/appkit/turn_runner.rs:381-388 | a read waits half a second, or the rest of the budget, or a millisecond |
| TurnRunnerResults.OpeningFailureResult | src/appkit/turn_runner.rs:274-324 | a turn that could not be opened or sent fails with that error |
| TurnRunnerEnds.FirstMessageEndsIff | src/appkit/turn_runner.rs:424-494 | the first message of an unarmed runner ends the turn exactly when it is neither a terminal nor running and is classified as a failure or a deliverable |
| TurnRunnerEnds.LeftoverReplyEndsTheTurn | src/appkit/turn_runner.rs:424-494 | an earlier turn's reply, with any turn id, completes a new turn before running |
| TurnRunnerEnds.LeftoverErrorEndsTheTurn | src/appkit/turn_runner.rs:424-463 | an earlier turn's error fails a new turn before running |
| TurnRunnerEnds.LeftoverTurnEndsTheTurn | src/appkit/turn_runner.rs:424-506 | an earlier turn's running, text and stream end complete a new turn |
| TurnRunnerRuns.LiveTurnIsOpen | src/appkit/turn_runner.rs:442-446 | the boundary of a live turn has not ended |
| RpcMux.SettlesAtMostOnce | src/client.rs:445-473 | in every interleaving a call settles at most once and keeps its result |
| RpcMux.FramesGoToOnePlace | src/client.rs:1390-1409 | a response is handed to the call with its id or queued, never both; no two answer one call |
| RpcMuxCalls.AnsweredCallReturnsItsAnswer | src/client.rs:459-466 | a call handed a response returns it at its next look, and nothing else moves it |
| RpcMuxCalls.ResponseFindsItsCall | src/client.rs:1390-1403 | a response is handed to its registered call |
| RpcMuxCalls.StrayResponseIsQueued | src/client.rs:1404-1409 | a response nobody waits for is queued |
| RpcMuxCalls.PlainCallReturns | src/client.rs:445-466 | registered, sent, answered, returned |
| RpcMuxCalls.RefusedCallFails | src/client.rs:454-457 | a refused send fails the call, and takes a request out of the map |
| RpcMuxCalls.DrainFailsEveryWaiter | src/client.rs:1308-1328 | a call failed by a drain returns the disconnect, fails its own send, or times out if it was giving up |
| RpcMuxCalls.DisconnectFailsAll | src/client.rs:1308-1328 | a disconnect fails all waiters and lets no send through until a reconnect |
| RpcMuxCalls.TimeoutsAreEarned | src/client.rs:467-471 | a call times out only after its time ran out on an empty channel, or as an abandoned subscription |
| RpcMuxCalls.GivingUpIsFinal | src/client.rs:467-471 | a timeout takes the call out of the map |
| RpcMuxCalls.WaitingCallGivesUp | src/client.rs:459-471 | what a call does on an empty and on an abandoned channel |
| RpcMux.NoCallHangsAfterDrain | src/client.rs:1308-1328 | after a disconnect's drain no sent call waits on an empty channel, and the requests left in the map have not been sent |
| RpcMux.LateRequestLeaves | src/client.rs:454-458 | such a request's own next steps fail it and remove its waiter |
| RpcMux.SubscriptionLeavesItsWaiter | src/client.rs:509-520 | a subscription whose send fails settles and leaves its waiter behind |
| ConnectionPool.PoolState.TryTakeIdle | src/appkit/pool.rs:237-246 | takes an idle slot if there is one; the counter follows |
| ConnectionPool.PoolState.TryReturnSlot | src/appkit/pool.rs:355-363 | returns a slot unless the channel is full |
| ConnectionPool.PoolState.RemoveActive | src/appkit/pool.rs:337-346 | takes a session out of the active map and tells whether it was there |
| ConnectionPool.PoolState.InsertActive | src/appkit/pool.rs:318-332 | files a session as active |
| ConnectionPool.PoolState.Stop | src/appkit/pool.rs:376-405 | leaves no active session and no idle slot, counter included |
| ConnectionPool.SlotsAreConserved | src/appkit/pool.rs:198-364 | active + idle + acquiring + releasing + losses = size in every interleaving; the counter is the channel's length |
| ConnectionPool.ReleaseAlwaysFindsRoom | src/appkit/pool.rs:359-363 | active and idle never exceed the size and a release never finds the channel full |
| ConnectionPool.LossesAreExactlyThese | src/appkit/pool.rs:236-332 | the slots that are nowhere grow by one per failed acquire and per insert over an active session, by what stop takes, and by nothing else |
| ConnectionPool.LossesNeverRecover | src/appkit/pool.rs:236-405 | a lost slot never comes back |
| ConnectionPool.WornOutPoolStaysEmpty | src/appkit/pool.rs:236-282 | with as many losses as slots no session is ever active again |
| ConnectionPool.OneFailureWearsOutPoolOfOne | src/appkit/pool.rs:268-272 | one failed connect wears out a pool of one |
| ConnectionPoolCourses.UsableConnectionIsReused | src/appkit/pool.rs:204-220 | a session with a usable connection keeps it |
| ConnectionPoolCourses.DeadConnectionIsReplaced | src/appkit/pool.rs:221-246 | a dead one is given back and a slot taken anew |
| ConnectionPoolCourses.FreshAcquire | src/appkit/pool.rs:236-332 | a new session takes an idle slot and is filed |
| ConnectionPoolCourses.FreshPool | src/appkit/pool.rs:130-160 | a new pool has all its slots idle, a thousand by default |
| ConnectionPoolCourses.ExhaustedAcquire | src/appkit/pool.rs:236-250 | without an idle slot an acquire fails and changes nothing |
| ConnectionPoolCourses.ReleaseReturnsTheSlot | src/appkit/pool.rs:337-364 | a release returns the slot of an active session and does nothing for another |
| QueryGate.QueryGate.TryAcquire | src/appkit/query_gate.rs:56-71 | reserves a free key with its callbacks; refuses a taken one unchanged |
| QueryGate.QueryGate.TakeForCancel | src/appkit/query_gate.rs:78-84 | takes both callbacks of a key out |
| QueryGate.QueryGate.Release | src/appkit/query_gate.rs:105-109 | clears a key |
| QueryGate.QueryGate.SetSender | src/appkit/query_gate.rs:112-118 | registers a daemon sender only for a reserved key |
| QueryGate.QueryGate.Replace | src/appkit/query_gate.rs:121-127 | replaces the local callback only for a reserved key |
| QueryGate.SendersAlwaysHaveCancels | src/appkit/query_gate.rs:56-127 | a registered daemon sender always has a local callback beside it |
| QueryGate.LocalCancelRunsAtMostOnce | src/appkit/query_gate.rs:78-99 | no local callback is called twice by cancel |
| QueryGate.DaemonCancelComesFirst | src/appkit/query_gate.rs:90-97 | each call follows its own take, and the end of the daemon cancel if a sender was registered |
| QueryGateCancels.GateIsWhatTheActionsSay | src/appkit/query_gate.rs:56-127 | the gate holds for each key exactly the local cancel and the last daemon sender that the actions registered and did not clear |
| QueryGateCancels.CancelTakesWhatIsHeld | src/appkit/query_gate.rs:78-99 | a cancel takes exactly these and waits for the daemon exactly when a sender was registered |
| QueryGateCancels.CancelRunsItsCourse | src/appkit/query_gate.rs:86-99 | then the daemon cancel by that sender, then the local callback, then nothing |
| QueryGateCancels.ExecuteGetsInIff | src/appkit/turn_runner.rs:178-198 | an execute gets in exactly when the key has no reservation |
| QueryGateCancels.ReservedGetsInIff | src/appkit/turn_runner.rs:204-225 | a reserved entry exactly when it has one |
| QueryGate.OneTurnPerKey | src/appkit/turn_runner.rs:178-225 | while nobody cancels an entered key and a reserved entry is made only by the one who reserved, at most one turn per key runs, each under its own reservation |
| QueryGate.BreaksSingleFlightIff | src/appkit/turn_runner.rs:178-225 | a step breaks single flight exactly when it is a fresh execute of a running key whose reservation is gone, or an admitted reserved entry to a running key |
| QueryGate.SingleFlightIff | src/appkit/query_gate.rs:3-127 | over every run, at most one turn per key at every moment exactly when no such step occurs |
| QueryGate.ReservedEntryBreaksSingleFlight | src/appkit/turn_runner.rs:213-225 | without any cancel a reserved entry runs beside the turn that holds the reservation |
| QueryGate.CancelBreaksSingleFlight | src/appkit/turn_runner.rs:178-198 | a cancelled turn runs on beside the next one and later frees the next one's reservation |
| CardLog.ProjectionEqualsLog | src/card_projection.rs:125-179 | cards, contents and order are what the frames since the last replay begin say |
| CardProjection.SnapshotEqualsLog | src/card_projection.rs:112-117 | the snapshot lists ids by first creation, each its latest create overlaid with later patches |
| CardProjection.CardsAreKeyedById | src/card_projection.rs:140-175 | every stored card sits under its own trimmed id |
| CardProjection.RepeatIsHarmless | src/card_projection.rs:125-179 | applying a frame twice in a row is applying it once |
| CardProjection.OverlayKeepsId | src/card_projection.rs:167-173 | a patch changes neither id nor type |
| CardProjection.ParseCardFrame | src/card_projection.rs:34-90 | a parsed frame is filed under the id of the card it carries |
| CardRules.ParseRule | src/card_projection.rs:34-90 | creates need type and content, updates and finals are patches, under the card's own id or the one beside it |
| CardRules.OverlayRule | src/card_projection.rs:167-173 | every patched field but id and type takes the new value, every other stays |
| CardRules.CreateThenPatch | src/card_projection.rs:140-175 | a create and a patch leave one patched card |
| CardRules.ReplayingIff | src/card_projection.rs:125-139 | a replay is on between its begin and its end |
| CardProjection.CardProjection.ApplyPayload | src/card_projection.rs:125-179 | one payload moves the projection by its parsed frame, or not at all |
| CardProjection.CardProjection.OverlayInto | src/card_projection.rs:167-173 | copying a patch key by key, in any order, is the overlay |
| CardProjection.CardProjection.TakeSnapshot | src/card_projection.rs:112-117 | returns the cards in order |
| Broadcaster.SseBroadcaster.Subscribe | src/appkit/broadcaster.rs:46-56 | adds an empty channel under the key |
| Broadcaster.SseBroadcaster.Unsubscribe | src/appkit/broadcaster.rs:59-68 | removes one channel, and the key with its last one |
| Broadcaster.SseBroadcaster.Broadcast | src/appkit/broadcaster.rs:74-82 | offers an event to every subscriber of the key and to nobody else |
| Broadcaster.SseBroadcaster.Close | src/appkit/broadcaster.rs:85-88 | removes a key with all its subscribers |
| Broadcaster.SseBroadcaster.CloseAll | src/appkit/broadcaster.rs:91-94 | removes everything |
| Broadcaster.OfferAll | src/appkit/broadcaster.rs:74-82 | the send loop reaches each subscriber exactly once, in whatever order the map yields them |
| Broadcaster.ReceivesASubsequence | src/appkit/broadcaster.rs:74-82 | a subscriber receives a subsequence of what was broadcast, with at most 100 waiting |
| Broadcaster.MissesNothingIff | src/appkit/broadcaster.rs:74-82 | a reader that stays gets everything exactly when its buffer was never full |
| Broadcaster.PartMissesNothingIff | src/appkit/broadcaster.rs:74-82 | of any part of the events that share the channel, exactly those that met a full buffer are lost |
| Broadcaster.SubscribersAreIndependent | src/appkit/broadcaster.rs:46-82 | in every history a subscriber's channel depends only on the broadcasts to its key since it subscribed and on its own reads |
| Broadcaster.SubscribedIff | src/appkit/broadcaster.rs:46-94 | a subscriber stays until it or its key is taken out, whoever else comes and goes |
| Broadcaster.AbsentReaderGetsNothing | src/appkit/broadcaster.rs:74-82 | a reader that left gets nothing more |
| Delivery.SubscriberSpellsTheText | src/appkit/turn_runner.rs:592-645 | of the deltas of earlier turns and of this one, live or finished, amid any other events, a subscriber gets a subsequence, all exactly when no delta met a full buffer, and then they spell those texts |
| Delivery.ThinkingCrowdsOutText | src/appkit/turn_runner.rs:604-615 | unread thinking steps fill the shared buffer and the next delta is lost |

## Left out

- Dialling, TLS, tasks, JSON text and id generation: I/O and library behaviour; request ids are taken to be unique and channels FIFO.
- Wake-ups of blocked readers and reader tasks that outlive a reconnect: they depend on notification and scheduling semantics.
- The RPC wrappers and `send_*` methods, heartbeat, configuration, verbosity, errors, hints, image compaction: short single-branch code or codecs.
- `frame_seq` and the gate's own `observe` entry: thin projections that the modelled paths do not call.
- The early-drop filter and the classifier's namespace rules: arbitrary functions, so the results hold for all of them.
- The stream-degraded callback: fires on the first counted drop and has no effect on the queue.
- Delivery numbers and statistics are unbounded here; the code's wrap at their machine width. The drop counter's 64 bits are modelled.
- Slot ids of the pool: used for logging only. The second lookup of a loop id and its persistence do not touch slots.
- RpcMux: modelled on values, one action per critical section; the waiter map's own mutation order within a section is not visible.
- QueryGate.OneTurnPerKey: assumes that only the modelled entries touch the gate; `release` called from outside is not among them.
- Simulation.BothEndTogether: a sufficient condition, input by input, under which both gates stay equal; the exact one is `EndTogetherIff`.
- TurnRunner.RunTurn: the clock is taken to pass the query deadline at some pass. `SilentTurnEnds` counts a closed channel that still looks live as an arrival.
- Samples.ClassifyWire: an error that names a code is reported with that code; the samples name none.
- DaemonSession.Session.IterTurnChunks: the time budget appears in the timeout message as given text; its rendering belongs to the standard library. What the reads bring is given as inputs, because the client's queue is fed, and may evict, between any two of them.
- Text is a sequence of Unicode scalar values; byte lengths play no part.
