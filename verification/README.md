# A model of the MediaPipe runtime

MediaPipe runs a graph of calculators. Packets carry timestamps and travel along
streams; each stream also carries a bound below which no further packet will come.
A node runs when its input streams are settled at a timestamp, and everything
happens on many threads that meet only in short critical sections. This project
models those critical sections in Dafny and proves what holds over all of their
interleavings.

A protocol is a state machine whose step is one critical section: a datatype for
the state, `Enabled` and `Take` for the steps, an invariant, and theorems about
every run. Where the repository updates an object in place there is a class whose
methods do the same in place and whose contracts tie them to the functions the
theorems are about. The functions are pinned down by laws that speak of their effect
only, in the modules named `Laws`.

| file | part of the runtime |
|---|---|
| `Collections.dfy` | what several modules share |
| `Timestamps.dfy` | 64-bit timestamps with reserved values and clamped arithmetic |
| `InputStreams.dfy`, `InputStreamLaws.dfy` | a consumer's end of a stream, and what it takes and gives |
| `SyncSets.dfy`, `ReadinessLaws.dfy`, `InputStreamHandlers.dfy` | readiness, filling of input sets, and the ideal merge |
| `NodeProtocol.dfy` | the scheduling state of one node |
| `NodeRuns.dfy` | one node with its producers, scheduling threads and invocations |
| `NodeInvariants.dfy`, `NodeWakeups.dfy` | what every step of a node keeps |
| `NodeTheorems.dfy`, `QuietNodes.dfy` | theorems about every run of a node |
| `OutputStreams.dfy`, `OutputStreamHandlers.dfy`, `OutputStreamLaws.dfy` | a producer, its bounds and its consumers |
| `Dataflow.dfy` | a graph of nodes without cycles |
| `ComingToRest.dfy` | why a graph left to itself stops |
| `GraphDeterminism.dfy` | what a whole graph computes |
| `SchedulerQueues.dfy`, `IdleReports.dfy`, `HostedThreads.dfy` | priority queues, tasks, reports of idleness, and when to quit |
| `Schedulers.dfy`, `SchedulerLaws.dfy` | the scheduler, its lock drops and the layers of sources |
| `Throttling.dfy`, `ThrottlingLaws.dfy`, `Unthrottling.dfy` | full streams and the sources they hold back |
| `Generators.dfy`, `FailingGenerators.dfy`, `GeneratorSchedulers.dfy` | packet generators, with errors, and their scheduler |
| `NodeOpening.dfy` | when a node may be opened |
| `OneEuro.dfy` | the smoothing filter |

`dafny verify dfyconfig.toml` verifies the project.

## Where code and documentation differ

- `calculator_node.cc:604-605` says that closing the input streams clears their
  queues. `InputStreamManager::Close` does not, and neither does the model; the
  queues are empty by then (`NodeTheorems.ClosedStreamIsEmpty`).
- `scheduler_queue.h:97-100` promises that an idle report is always preceded by the
  matching active report. It is, if a queue is set running from rest, or cleaned up,
  only while no thread is late, that is, while every thread with an active report to
  make holds a task (`IdleReports.ActiveComesFirst`); and that condition is exact
  (`IdleReports.CarefulIsExact`). Opening nodes before the start keeps to it
  (`IdleReports.OpeningIsCareful`), and so does adding a layer of sources, since the
  thread that adds reports before it sets the queues running. A second thread that
  adds to an idle queue meanwhile need not have reported yet
  (`SchedulerQueues.TaskTakenEarly`, `SchedulerQueues.CountMayMislead`).
- `scheduler_queue.h:101-103` promises that a difference of 0 means idle. That fails
  even on a queue that has been running all along, when a second thread adds before
  the first has reported (`IdleReports.TwoThreadsAdd`,
  `IdleReports.SecondAdderOvertakes`). It holds in every run while no active report
  is due (`IdleReports.ZeroMeansIdle`), and in the runs just described only then
  (`IdleReports.ZeroMeansIdleIff`). In particular it holds while every thread that
  has yet to report is inside a task (`HostedThreads.ZeroMeansQuiet`).
- `scheduler.cc:191-192` says that all calls to Process have returned when the
  scheduler quits. It quits at a count of 0, for which the same applies. A thread that
  adds from outside any task and has yet to report may hold a task then; if the graph
  quits at that moment, for instance because another thread cancels it, the checks of
  `scheduler_queue.cc:306-322` fail (`IdleReports.CleanupMayFail`). They hold exactly
  if no task is under way (`SchedulerQueues.ChecksHoldIff`,
  `IdleReports.ZeroMeansCleanable`).
- `calculator_graph.cc:1342-1347` is sure that growing unthrottles at least one source
  node. It does if and only if some source is held back by no full graph output
  (`Unthrottling.GrowingFreesIff`); `Unthrottling.OutputHoldsSource` is a run in which
  it frees none.
- With timestamp-bound processing readiness can miss a packet
  (`input_stream_handler.cc:435-446`), exactly when the lowest bound of an empty
  stream has no predecessor (`SyncSets.BoundProcessingIsExactIff`).
- A batch rejected half way changes the queue (`input_stream_manager.cc:130-170`).
  The change of fullness goes without its callback exactly when the accepted packets
  fill a queue that was short of full (`Throttling.CallbacksAgreeIff`), and a visible
  change goes without its notification exactly when some packets were accepted on an
  empty queue (`NodeWakeups.VisibleIsSignalledIff`);
  `Throttling.RejectedBatchIsSilent` is such a batch.

## Model

| member | source | states |
|---|---|---|
| Timestamps.Add | mediapipe/mediapipe/framework/timestamp.cc:45-61 | For every ordinary timestamp and every 64-bit offset the sum is the exact mathematical clamp to the ordinary range; the two subtractions in the comparisons never overflow and the constructor never sees a special value. |
| Timestamps.NextPreviousInverse | mediapipe/mediapipe/framework/timestamp.cc:124-149 | Of the timestamps a packet may have, Next and Previous undo each other on the ordinary ones and on no others. |
| Timestamps.NextIsLeastSuccessor | mediapipe/mediapipe/framework/timestamp.cc:124-132 | The next allowed timestamp is exactly the least ordinary timestamp after the given one. |
| InputStreams.PushAllAppends | mediapipe/mediapipe/framework/input_stream_manager.cc:126-198 | A batch appends exactly its accepted prefix, and the bound becomes the successor of the last accepted packet. |
| InputStreams.BatchStopsAtRejected | mediapipe/mediapipe/framework/input_stream_manager.cc:126-170 | The prefix is the longest one: the stream it leaves behind does not take the next packet. |
| InputStreams.ProducersOnlyAppend | mediapipe/mediapipe/framework/input_stream_manager.cc:100-249 | Whatever a producer does, new packets go to the back of the queue at or above the old bound, the bound does not fall, and nothing is removed. |
| InputStreams.ApplyKeepsConsistent | mediapipe/mediapipe/framework/input_stream_manager.cc:100-320 | Every operation, also a batch rejected half way, keeps: accepted = removed ++ queue, strict order, the queue below the bound, the stream grammar; bound and histories only grow. |
| InputStreams.RunsAreConsistent | mediapipe/mediapipe/framework/input_stream_manager.cc:55-320 | The same over every run of a timed stream: conservation, order, the grammar (nothing, one packet before the stream, one after it, or ordinary packets strictly increasing) and a bound that never falls. |
| InputStreams.PopSettled | mediapipe/mediapipe/framework/input_stream_manager.cc:264-320 | Popping a stream settled at a timestamp takes the packet there, if any, drops none, and otherwise answers with an empty packet. |
| InputStreamLaws.TakesPacketIff | mediapipe/mediapipe/framework/input_stream_manager.cc:126-170 | An open stream takes a packet if and only if it is of the right type, not below the bound, and leaves a history that a stream may have. |
| InputStreamLaws.TypesAreKept | mediapipe/mediapipe/framework/packet_type.cc:206-239 | Nothing empty and nothing of another type is ever accepted; a stream without a type takes any content. |
| InputStreamLaws.TakesBatchIff | mediapipe/mediapipe/framework/input_stream_manager.cc:126-198 | A whole batch is taken without an error if and only if every packet is of the right type, the first is not below the bound, and the history stays one that a stream may have. |
| InputStreamLaws.TakesOrdinaryBatch | mediapipe/mediapipe/framework/input_stream_manager.cc:126-198 | Every batch of valid packets at strictly increasing ordinary timestamps that starts at or above the bound is taken whole. |
| InputStreamLaws.UntimedTakesIff | mediapipe/mediapipe/framework/input_stream_manager.cc:138-146 | A stream whose timestamps are not enabled takes exactly the valid packets with a legal timestamp. |
| InputStreamLaws.TakesBoundIff | mediapipe/mediapipe/framework/input_stream_manager.cc:203-237 | A bound is refused if and only if it is below the present one; the stream ends up with the larger of the two and the same packets. |
| InputStreamLaws.ClosedIsFinal | mediapipe/mediapipe/framework/input_stream_manager.cc:100-249 | Closing keeps the queue and announces the end; after it no producer changes the stream, gets an error or notifies. |
| InputStreamLaws.SignalledIffVisible | mediapipe/mediapipe/framework/input_stream_manager.cc:126-237 | Without an error, a notification is made if and only if the update changes what a look at the stream shows. |
| InputStreamLaws.PopAnswers | mediapipe/mediapipe/framework/input_stream_manager.cc:264-320 | A pop, settled or not, answers with the packet at the timestamp if one waits, drops exactly the packets before it, and keeps the later ones. |
| InputStreamLaws.PopLeaves | mediapipe/mediapipe/framework/input_stream_manager.cc:264-320 | What is left is a tail of the queue and a bound after the timestamp: the one there was, or at most what a packet there would have left. |
| InputStreamLaws.EmptyAnswer | mediapipe/mediapipe/framework/input_stream_manager.cc:290-310 | Where no packet waits the answer is empty and names the last ordinary timestamp before anything that can still come. |
| InputStreamLaws.DoneIsEmptyForGood | mediapipe/mediapipe/framework/input_stream_manager.cc:311-316 | A stream reported as done has an empty queue and takes no packet any more. |
| InputStreams.InputStreamManager.AddPackets | mediapipe/mediapipe/framework/input_stream_manager.cc:100-201 | The loop over a batch, with its early returns, produces the state, error, notification and fullness report that InputStreamLaws.TakesBatchIff, SignalledIffVisible and Throttling.CallbacksAgreeIff are about. |
| InputStreams.InputStreamManager.SetNextTimestampBound | mediapipe/mediapipe/framework/input_stream_manager.cc:203-237 | State, error and notification are those that InputStreamLaws.TakesBoundIff and SignalledIffVisible are about. |
| InputStreams.InputStreamManager.Close | mediapipe/mediapipe/framework/input_stream_manager.cc:241-249 | Closing sets bound and last selection to Done, once, and leaves the queue as it is. |
| InputStreams.InputStreamManager.PopPacketAtTimestamp | mediapipe/mediapipe/framework/input_stream_manager.cc:264-320 | The pop loop yields the queue, bound, packet, drop count, done flag and fullness report that InputStreamLaws.PopAnswers and its neighbours are about. |
| InputStreams.InputStreamManager.SetMaxQueueSize | mediapipe/mediapipe/framework/input_stream_manager.cc:370-388 | Resizing reports exactly the change of fullness it causes. |
| SyncSets.JudgeIsExact | mediapipe/mediapipe/framework/input_stream_handler.cc:403-448 | Without timestamp-bound processing the readiness decision names a timestamp if and only if one with a packet is settled on every stream, and closes if and only if every stream is exhausted. |
| SyncSets.BoundProcessingMisses | mediapipe/mediapipe/framework/input_stream_handler.cc:431-446 | With timestamp-bound processing a later packet that could be processed is found, at its timestamp, if and only if the lowest bound of an empty stream is neither the minimum nor the after-the-stream timestamp. |
| SyncSets.BoundProcessingIsExactIff | mediapipe/mediapipe/framework/input_stream_handler.cc:403-446 | The same for every set of sound streams: a processable timestamp later than the last one is what readiness names if and only if that bound has a predecessor. |
| SyncSets.BoundProcessingMissesExample | mediapipe/mediapipe/framework/input_stream_handler.cc:435-446 | Two sound streams, a packet at 5 processable, for which readiness answers "not ready" with timestamp-bound processing and "process" without. |
| ReadinessLaws.BoundProcessingNamesLatestIff | mediapipe/mediapipe/framework/input_stream_handler.cc:403-448 | With timestamp-bound processing, of streams not exhausted, readiness names exactly the latest timestamp on which all streams are settled, packet or none, if later than the last one processed; unless the lowest bound of an empty stream has no predecessor, when it names none. |
| ReadinessLaws.ClosesIff | mediapipe/mediapipe/framework/input_stream_handler.cc:414-419 | In both modes readiness closes if and only if every stream is exhausted, and then nothing ordinary is left to process. |
| ReadinessLaws.ProcessesLegal | mediapipe/mediapipe/framework/input_stream_handler.cc:420-446 | A timestamp answered with "process" is one a packet may have, and becomes the last one processed. |
| ReadinessLaws.NotReadyNamesEarliest | mediapipe/mediapipe/framework/input_stream_handler.cc:403-448 | "Not ready" leaves the last timestamp and names the earliest one at which a stream has, or may still get, a packet. |
| SyncSets.MergeSplits | mediapipe/mediapipe/framework/input_stream_handler.cc:403-491 | The timestamp-grouped merge of histories cut at a timestamp is the merge of the earlier parts followed by the merge of the later ones. |
| SyncSets.MergeAscends | mediapipe/mediapipe/framework/input_stream_handler.cc:403-491 | The merge of strictly increasing histories has strictly increasing timestamps. |
| ReadinessLaws.MergeIsComplete | mediapipe/mediapipe/framework/input_stream_handler.cc:403-491 | The merge holds every packet of every stream once and in order. |
| ReadinessLaws.MergeIsFilled | mediapipe/mediapipe/framework/input_stream_handler.cc:403-491 | Every set of the merge has a packet, and only packets of the timestamp of the set. |
| InputStreamHandlers.SyncSet.ReadMinima | mediapipe/mediapipe/framework/input_stream_handler.cc:403-414 | Reading the streams one by one computes the least bound of the empty ones and the least first packet of the others. |
| InputStreamHandlers.SyncSet.GetReadiness | mediapipe/mediapipe/framework/input_stream_handler.cc:403-448 | Answer, timestamp and new last-processed timestamp are, in both modes, those that SyncSets.JudgeIsExact and the laws in ReadinessLaws are about. |
| InputStreamHandlers.SyncSet.FillInputSet | mediapipe/mediapipe/framework/input_stream_handler.cc:465-491 | On streams settled at the timestamp the set receives every packet there, the drop counts are all zero, and each stream is advanced. |
| NodeProtocol.CalculatorNode.CheckIfBecameReady | mediapipe/mediapipe/framework/calculator_node.cc:772-792 | The critical section enters the loop, marks it pending, or does nothing, by status, scheduling state and invocations in flight. |
| NodeProtocol.CalculatorNode.BeginLoop | mediapipe/mediapipe/framework/calculator_node.cc:702-711 | A closed node leaves at once and becomes idle; any other gets its allowance. |
| NodeProtocol.CalculatorNode.EndLoop | mediapipe/mediapipe/framework/calculator_node.cc:723-733 | Another pass if and only if one is pending and there is room, with a positive allowance; otherwise idle. |
| NodeProtocol.CalculatorNode.EndScheduling | mediapipe/mediapipe/framework/calculator_node.cc:805-826 | One invocation fewer; a scheduling thread is told to look again, or the caller becomes one. |
| NodeProtocol.CalculatorNode.TryToBeginScheduling | mediapipe/mediapipe/framework/calculator_node.cc:828-835 | One invocation more if and only if there is room. |
| NodeProtocol.CheckOwesLook | mediapipe/mediapipe/framework/calculator_node.cc:772-792 | After the check an open node owes another look unless the loop is free and there is no room; the caller enters a free loop with room and no other, and nothing else changes. |
| NodeProtocol.EntryStaysIff | mediapipe/mediapipe/framework/calculator_node.cc:702-711 | A thread stays in the loop if and only if the node is not closed, and otherwise leaves it free. |
| NodeProtocol.PassesAgainIff | mediapipe/mediapipe/framework/calculator_node.cc:723-733 | A thread goes round again if and only if a look is pending and there is room, and may then schedule something. |
| NodeProtocol.EndOwesLook | mediapipe/mediapipe/framework/calculator_node.cc:805-826 | The end of an invocation makes room and owes a look; it enters the loop if and only if nobody is in it. |
| NodeProtocol.EndOfClosedIsIdle | mediapipe/mediapipe/framework/calculator_node.cc:805-812 | The end of an invocation of a node that has closed changes nothing. |
| NodeProtocol.BeginsIff | mediapipe/mediapipe/framework/calculator_node.cc:828-835 | An invocation begins if and only if there is room, and takes it. |
| NodeInvariants.ThreadStep | mediapipe/mediapipe/framework/calculator_node.cc:702-835 | Every critical section keeps: one scheduling thread exactly when the state is not idle, invocations within their limit and equal to those queued or running, and room for all that the thread may still schedule. |
| NodeInvariants.WitnessesSettle | mediapipe/mediapipe/framework/input_stream_handler.cc:403-448 | What a scan read, one stream at a time while producers went on, still bounds every stream when the scan ends. |
| NodeInvariants.DecidedFilling | mediapipe/mediapipe/framework/input_stream_handler.cc:403-491 | When a scan answers "process t", in either mode, every stream is settled at t, and t is later than everything processed. |
| NodeInvariants.FillOnePop | mediapipe/mediapipe/framework/input_stream_handler.cc:465-491 | Each pop while a set is being filled is legal, drops nothing, and takes the packet at the timestamp if there is one. |
| NodeInvariants.LoggedGrows | mediapipe/mediapipe/framework/input_stream_handler.cc:205-283 | Handing over one more set extends the merge of what has been taken by exactly that set. |
| NodeInvariants.SetsStep | mediapipe/mediapipe/framework/input_stream_handler.cc:205-491 | Every step of every thread keeps the sets handed over equal to the merge of the packets taken, and fails no check. |
| NodeWakeups.UnsignalledIsUnseen | mediapipe/mediapipe/framework/input_stream_manager.cc:126-237 | An update without a notification leaves what a scan sees of the stream unchanged. |
| NodeWakeups.VisibleIsSignalledIff | mediapipe/mediapipe/framework/input_stream_manager.cc:126-237 | Errors included: an update that a scan could see is notified if and only if it is not a batch that reaches an open, empty queue and is rejected after its first packets. |
| NodeWakeups.WakeStep | mediapipe/mediapipe/framework/calculator_node.cc:702-826 | Every step keeps: a stream that shows what the last scan did not see has somebody due to look. |
| NodeWakeups.RestStep | mediapipe/mediapipe/framework/calculator_node.cc:702-826 | Every step keeps: a node at rest got there by a complete scan that found nothing, and passes on the bound that scan found. |
| NodeTheorems.ProcessesTheMerge | mediapipe/mediapipe/framework/input_stream_handler.cc:403-491 | Determinism as refinement: under every interleaving the sets handed to Process are a prefix of the merge of all packets ever accepted, the whole merge once a scan answered "close", with strictly increasing timestamps; with timestamp-bound processing this holds of the sets that carry a packet. |
| NodeTheorems.EveryPacketOnce | mediapipe/mediapipe/framework/input_stream_handler.cc:403-491 | Over every run what Process is given from a stream is a prefix of what the stream accepted, and all of it at the end; each packet comes in a set of its own timestamp. |
| NodeTheorems.SamePacketsSameSets | mediapipe/mediapipe/framework/input_stream_handler.cc:403-491 | Two complete runs that accept the same packets process the same sets. |
| NodeTheorems.NothingArrivesLate | mediapipe/mediapipe/framework/input_stream_handler.cc:403-491 | Once a set at t is being filled, nothing any stream accepts later in the run is at or before t. |
| NodeTheorems.NoCheckFails | mediapipe/mediapipe/framework/input_stream_handler.cc:465-487 | Over every run no packet is dropped while a set is filled and none of the code's checks fails. |
| NodeTheorems.ClosedStreamIsEmpty | mediapipe/mediapipe/framework/calculator_node.cc:595-607 | Over every run a closed input stream has an empty queue, and the node has seen the end of all its inputs. |
| NodeTheorems.OneSchedulingThread | mediapipe/mediapipe/framework/calculator_node.cc:702-835 | Over every run: not idle exactly while one thread is in the loop, invocations within limits, a non-source's beginning never fails, a closed node is never queued. |
| NodeTheorems.NoLostWakeUp | mediapipe/mediapipe/framework/calculator_node.cc:702-826 | Over every run: if a stream shows what the last scan did not see, a call is outstanding, a pass is pending or under way before that stream, or the limit of invocations is reached. |
| NodeTheorems.QuiescentMeansNothingReady | mediapipe/mediapipe/framework/calculator_node.cc:702-826 | In every quiescent open state a look at the streams as they are answers "not ready"; without timestamp-bound processing nothing is processable and the streams are not exhausted. |
| QuietNodes.NotReadyMeansBound | mediapipe/mediapipe/framework/input_stream_handler.cc:419-448 | For a node at rest "not ready" means that the lowest bound is no later than the first packet, and that bound is what is passed on, unless it has no predecessor. |
| QuietNodes.RestComesFromPropagating | mediapipe/mediapipe/framework/calculator_node.cc:712-733 | A node comes to rest only by ending a propagation; no other step of any thread brings it there. |
| QuietNodes.QuietAtLeast | mediapipe/mediapipe/framework/input_stream_handler.cc:403-448 | A quiescent node all of whose input bounds have reached a timestamp has passed on a bound that has, and keeps no older packet. |
| QuietNodes.EndedIsNotQuiet | mediapipe/mediapipe/framework/input_stream_handler.cc:414-419 | A quiescent node whose inputs have all ended is closed. |
| OutputStreams.InputBoundIsSound | mediapipe/mediapipe/framework/output_stream_manager.cc:105-150 | For every 64-bit offset the announced bound does not go back as the input timestamp grows, and never exceeds the earliest output of a later input; no sum overflows. |
| OutputStreams.ZeroOffsetBound | mediapipe/mediapipe/framework/output_stream_manager.cc:127-150 | With offset zero the bound is the successor of the input, but for the two inputs beside which a packet may still come. |
| OutputStreams.NewBoundCovers | mediapipe/mediapipe/framework/output_stream_manager.cc:105-166 | The announced bound lies after every packet put out and is unset exactly when nothing was said and the input adds nothing. |
| OutputStreams.NewBoundNeverFalls | mediapipe/mediapipe/framework/output_stream_manager.cc:150-166 | An invocation that asks for no less than the bound it started with announces nothing or no less. |
| OutputStreamLaws.NewBoundIsLeast | mediapipe/mediapipe/framework/output_stream_manager.cc:105-166 | The announced bound is the least that covers what was said, what was put out, and what the input implies if that is news. |
| OutputStreamLaws.InputBoundIsExact | mediapipe/mediapipe/framework/output_stream_manager.cc:127-150 | For every offset the bound after an ordinary input is exactly the earliest output of the next one. |
| OutputStreamLaws.InputBoundAtTheEnds | mediapipe/mediapipe/framework/output_stream_manager.cc:127-150 | The bound after a packet before the stream, after the last ordinary one and after one after the stream, for every offset. |
| OutputStreamLaws.IllegalInputIsSilent | mediapipe/mediapipe/framework/output_stream_manager.cc:111-121 | For an input timestamp no packet may have nothing is announced. |
| OutputStreamLaws.ShardTakesIff | mediapipe/mediapipe/framework/output_stream_shard.cc:97-133 | An open shard refuses exactly packets with an illegal timestamp or of another type; one it takes is the last of its queue and announces its successor; what it refuses leaves it as it was. |
| OutputStreamLaws.EmptyPacketPromises | mediapipe/mediapipe/framework/output_stream_shard.cc:97-106 | An empty packet is never queued and announces that nothing at or before it is to come. |
| OutputStreamLaws.ShardBoundIff | mediapipe/mediapipe/framework/output_stream_shard.cc:35-45 | A bound is taken if and only if a packet may have it or it is the one past the end. |
| OutputStreamLaws.ClosedShardEnds | mediapipe/mediapipe/framework/output_stream_shard.cc:47-60 | A closed shard takes no packet more and announces the end. |
| OutputStreamLaws.FreshShardIsSilent | mediapipe/mediapipe/framework/output_stream_manager.cc:215-224 | A fresh shard has said nothing; one for a closed output takes nothing. |
| OutputStreams.ClosingTwiceIsIdle | mediapipe/mediapipe/framework/output_stream_handler.cc:169-178 | The second Done sent when an output closes changes nothing and notifies nobody. |
| OutputStreams.ServedInStep | mediapipe/mediapipe/framework/output_stream_manager.cc:188-209 | One critical section on a consumer brings it to what was sent, or half way there. |
| OutputStreams.MirrorsAgree | mediapipe/mediapipe/framework/output_stream_manager.cc:168-213 | Over every run without an error, whenever nothing is on its way every consumer has accepted exactly what was sent, in order, and has exactly the producer's bound, although implied bounds were never sent. |
| OutputStreamLaws.MessageReaches | mediapipe/mediapipe/framework/output_stream_manager.cc:168-213 | A message that keeps the grammar and the bound reaches a consumer in step whole: it then has every packet and exactly the producer's bound. |
| OutputStreamLaws.BoundIsSentIff | mediapipe/mediapipe/framework/output_stream_manager.cc:185-209 | The bound is sent separately if and only if it tells a consumer in step something its packets have not told it. |
| OutputStreamLaws.SentStepByStep | mediapipe/mediapipe/framework/output_stream_manager.cc:168-213 | Propagating a message in one go comes to the same as its critical sections one after another, so that MirrorsAgree is about the method too. |
| OutputStreamLaws.ProcessAnnounces | mediapipe/mediapipe/framework/output_stream_handler.cc:180-197 | After Process an open output announces the shard's bound, counts its packets, and is closed if and only if the shard was; a closed one changes nothing. |
| OutputStreamLaws.ProcessSends | mediapipe/mediapipe/framework/output_stream_handler.cc:180-197 | Every open consumer of an open output gets the packets it accepts, and learns the end if the shard was closed. |
| OutputStreamLaws.ProcessReaches | mediapipe/mediapipe/framework/output_stream_handler.cc:180-197 | A consumer in step gets every packet of an invocation that keeps grammar and bound, and stays in step. |
| OutputStreamLaws.TryLeaves | mediapipe/mediapipe/framework/output_stream_handler.cc:153-167 | A bound that is no ordinary timestamp, a closed output, or one without offset changes nothing. |
| OutputStreamLaws.EndsOnce | mediapipe/mediapipe/framework/output_stream_manager.cc:50-64 | Closing an output ends it at Done, once, and counts no packet. |
| OutputStreamHandlers.OutputStreamShard.AddPacket | mediapipe/mediapipe/framework/output_stream_shard.cc:97-133 | A closed shard, a bad timestamp or type is an error; an empty packet only raises the bound; any other is queued. |
| OutputStreamHandlers.OutputStreamShard.SetNextTimestampBound | mediapipe/mediapipe/framework/output_stream_shard.cc:35-45 | Only an allowed bound, or the one past the end, is taken. |
| OutputStreamHandlers.OutputStreamManager.ComputeOutputTimestampBound | mediapipe/mediapipe/framework/output_stream_manager.cc:105-166 | Computes the bound that OutputStreamLaws.NewBoundIsLeast and InputBoundIsExact are about. |
| OutputStreamHandlers.OutputStreamManager.PropagateUpdatesToMirrors | mediapipe/mediapipe/framework/output_stream_manager.cc:168-213 | The loop brings every consumer's stream to the state after the whole message, packets first and the bound unless implied; OutputStreamLaws.SentStepByStep and MessageReaches say what that comes to. |
| OutputStreamHandlers.OutputStreamManager.Close | mediapipe/mediapipe/framework/output_stream_manager.cc:50-64 | Closes once and sends Done to every consumer. |
| OutputStreamHandlers.OutputStreamManager.ResetShard | mediapipe/mediapipe/framework/output_stream_manager.cc:215-224 | A new invocation starts with an empty shard at the manager's bound. |
| OutputStreamHandlers.TryRaises | mediapipe/mediapipe/framework/output_stream_handler.cc:153-167 | An open output with an offset ends at the larger of its bound and the shifted one, gains nothing from a second try, and a consumer in step learns exactly that bound. |
| OutputStreamHandlers.CloseEnds | mediapipe/mediapipe/framework/output_stream_handler.cc:169-178 | Closing leaves every open consumer with the last packets it accepts and the bound Done. |
| OutputStreamHandlers.ClosingEnds | mediapipe/mediapipe/framework/output_stream_handler.cc:169-178 | With or without shards, an output ends closed at Done and so do its open consumers. |
| OutputStreamHandlers.OutputStreamHandler.TryPropagateTimestampBound | mediapipe/mediapipe/framework/output_stream_handler.cc:153-167 | The loop raises exactly the outputs that are due, and only their consumers. |
| OutputStreamHandlers.OutputStreamHandler.PropagateOutputPackets | mediapipe/mediapipe/framework/output_stream_handler.cc:180-197 | The loop does to each output what OutputStreamLaws.ProcessAnnounces, ProcessSends and ProcessReaches are about, and only to its own consumers. |
| OutputStreamHandlers.OutputStreamHandler.Close | mediapipe/mediapipe/framework/output_stream_handler.cc:169-178 | The loop sends the last packets, if it is given shards, and Done to every consumer, and closes every output. |
| Dataflow.BoundArrives | mediapipe/mediapipe/framework/output_stream_manager.cc:188-209 | The last thing done to a consumer gives it the producer's bound, whether sent or implied by a packet. |
| Dataflow.FlowStepKeeps | mediapipe/mediapipe/framework/output_stream_handler.cc:153-197 | Every step of every node and every delivery keeps: served consumers know their producer's bound, nodes at rest have told their outputs, closed nodes have closed them. |
| Dataflow.PropagatingMoves | mediapipe/mediapipe/framework/output_stream_handler.cc:153-167 | A node that is telling its outputs can tell the next one that is due, or go on if none is. |
| Dataflow.NeverStuck | mediapipe/mediapipe/framework/calculator_node.cc:702-835 | No deadlock: in every state of every run without errors, as long as anything is under way a delivery or a node can move, so the graph stops only when it is quiescent. |
| Dataflow.StreamsFollow | mediapipe/mediapipe/framework/output_stream_handler.cc:153-167 | In a quiescent graph bounds travel down the graph from the graph inputs to every stream. |
| Dataflow.NoStall | mediapipe/mediapipe/framework/output_stream_handler.cc:153-197 | No stall: in every quiescent state of every run, if every graph input has reached an ordinary timestamp then so has every stream and input, and no older packet waits anywhere. |
| Dataflow.EverythingCloses | mediapipe/mediapipe/framework/calculator_node.cc:620-676 | Once every graph input is closed and the graph is quiescent, every node is closed, every stream has ended and no packet is left. |
| GraphDeterminism.StepKeepsHistory | mediapipe/mediapipe/framework/output_stream_manager.cc:168-213 | Every step of the graph keeps: each consumer has accepted exactly what was sent, up to the message that has yet to reach it, is never ahead of its producer, and has closed only if nothing more can come. |
| GraphDeterminism.AcceptedIsSent | mediapipe/mediapipe/framework/output_stream_manager.cc:168-213 | At the end of a run every input has accepted exactly what its producer sent. |
| GraphDeterminism.FinalLog | mediapipe/mediapipe/framework/input_stream_handler.cc:403-491 | At the end of a run the sets with a packet that a node has processed are exactly the merge of what its inputs accepted; without timestamp-bound processing these are all its sets. |
| GraphDeterminism.SameInputsSameRun | mediapipe/mediapipe/framework/calculator_node.cc:847-973 | Determinism of a whole graph: if calculators are functions of the sets with a packet they are given, two complete runs with the same packets on the graph inputs carry the same packets on every stream and give every node the same such sets, however they were interleaved; without timestamp-bound processing a node is given no others. |
| ComingToRest.NodeStepLess | mediapipe/mediapipe/framework/calculator_node.cc:702-835 | Every step of a node but its producers' lowers a measure: first what it can still decide, then the threads, invocations and calls under way. |
| ComingToRest.OwnStepIsCloser | mediapipe/mediapipe/framework/output_stream_handler.cc:153-197 | Every delivery, every bound passed on and every step of a node lowers a measure of the whole graph. |
| ComingToRest.NothingIsEndless | mediapipe/mediapipe/framework/calculator_node.cc:702-835 | Left to itself, without packets from graph inputs or calculators, a graph cannot go on for ever. |
| ComingToRest.ComesToRest | mediapipe/mediapipe/framework/calculator_node.cc:702-835 | From every state of every run the graph's own steps lead to a quiescent state, unless a stream rejects an update on the way. |
| ComingToRest.EndsByItself | mediapipe/mediapipe/framework/calculator_node.cc:620-676 | Once the graph inputs have ended, the graph's own steps close every node and use up every packet, unless a stream rejects an update. |
| SchedulerQueues.RunsAfterIsStrictWeakOrder | mediapipe/mediapipe/framework/scheduler_queue.cc:61-87 | The comparison of items is a strict weak order, and ties exactly items that agree in the fields compared. |
| SchedulerQueues.TopRespectsPriorities | mediapipe/mediapipe/framework/scheduler_queue.cc:61-87 | An item taken next is an Open if one waits, and a source only if nothing but sources of its layer or higher ones waits. |
| SchedulerQueues.TopIff | mediapipe/mediapipe/framework/scheduler_queue.cc:61-87 | An item may be taken next if and only if none comes before it: Opens by node; then the others that are not sources, highest node first; then sources by layer, process order and node. |
| SchedulerQueues.QueueStepKeeps | mediapipe/mediapipe/framework/scheduler_queue.cc:104-322 | Every critical section keeps items and tasks in balance and moves the state and the reports of idleness together; its checks hold, but for those of cleaning up, which hold if and only if no task is under way. |
| SchedulerQueues.ChecksHoldIff | mediapipe/mediapipe/framework/scheduler_queue.cc:306-322 | The two checks of cleaning up hold if and only if no thread holds a task, none is with the executor and none executes. |
| SchedulerQueues.TasksAreConserved | mediapipe/mediapipe/framework/scheduler_queue.cc:133-234 | Over all interleavings: queue size = tasks to add + grabbed + submitted, pending = grabbed + submitted + executing, and the count of non-idle queues is off by exactly the reports outstanding. |
| SchedulerQueues.TaskFindsItem | mediapipe/mediapipe/framework/scheduler_queue.cc:189-322 | A task about to start never meets an empty queue; and over every run a check has failed if and only if some queue was cleaned up while a task was under way. |
| SchedulerQueues.CountIsExactWhenReported | mediapipe/mediapipe/framework/scheduler_queue.cc:133-159 | With no report outstanding the count is the number of queues that are not idle. |
| SchedulerQueues.TaskTakenEarly | mediapipe/mediapipe/framework/scheduler_queue.cc:133-187 | A concrete run in which another thread takes a task before its queue was reported active. |
| SchedulerQueues.CountMayMislead | mediapipe/mediapipe/framework/scheduler_queue.h:93-103 | From there the count is 0 while a node executes and then -1: an idle report without its active report. |
| IdleReports.CountIsExactIff | mediapipe/mediapipe/framework/scheduler_queue.cc:133-234 | At every moment of every run the count is the number of queues that are not idle if and only if as many active reports are due as idle ones. |
| IdleReports.ZeroMeansIdle | mediapipe/mediapipe/framework/scheduler_queue.h:101-103 | While no active report is due, a count of 0 means that every queue is idle and has reported so, and conversely. |
| IdleReports.ReportsAreContribution | mediapipe/mediapipe/framework/scheduler_queue.cc:133-234 | Over every run what a queue adds to the count is the active reports it has made less the idle ones. |
| IdleReports.ActiveComesFirst | mediapipe/mediapipe/framework/scheduler_queue.h:97-100 | In every run that sets queues running from rest, and cleans them up, only while every thread with an active report to make holds a task, a queue never makes more idle reports than active ones, and has one active report in hand before each idle one. |
| IdleReports.CarefulIsExact | mediapipe/mediapipe/framework/scheduler_queue.h:97-100 | Setting a queue running, or cleaning it up, keeps that order in every careful continuation if and only if no thread is late with its active report; otherwise some continuation reports idle once too often. |
| IdleReports.OpeningIsCareful | mediapipe/mediapipe/framework/calculator_graph.cc:99-108 | Nodes opened before the queues run, by a thread that reports, leave the count right, and setting the queue running then is such a step. |
| IdleReports.ZeroMeansIdleIff | mediapipe/mediapipe/framework/scheduler_queue.h:101-103 | In such runs the count is never negative, and a count of 0 means that all queues are idle if and only if no active report is due. |
| IdleReports.TwoThreadsAdd | mediapipe/mediapipe/framework/scheduler_queue.cc:133-163 | A run from the start in which a queue is set running and two threads then add to it. |
| IdleReports.SecondAdderOvertakes | mediapipe/mediapipe/framework/scheduler_queue.cc:133-234 | It goes on to a count of 0 while an item executes: a running queue is not enough for "0 means idle". |
| IdleReports.ZeroMeansCleanable | mediapipe/mediapipe/framework/scheduler.cc:188-201 | In every run, at a count of 0 while no active report is due no task is under way, and all checks of cleaning up hold. |
| IdleReports.StoppedStays | mediapipe/mediapipe/framework/scheduler.cc:188-201 | Once nothing is under way and the queues are stopped, no step but setting one running brings a task under way, whatever is added. |
| IdleReports.CleanupMayFail | mediapipe/mediapipe/framework/scheduler_queue.cc:306-322 | A careful run after which the count is 0 and cleaning up fails its check, since the thread that added an item has yet to report. |
| HostedThreads.TimedStepKeeps | mediapipe/mediapipe/framework/scheduler_queue.cc:133-234 | Every step keeps: what executes in a queue with an active report due started after the item was added, and the task from inside which it was added started before and still executes. |
| HostedThreads.ZeroMeansQuiet | mediapipe/mediapipe/framework/scheduler.cc:188-201 | In every careful run, at a count of 0 while every thread late with its report is inside a task, no thread is late, every queue is idle, nothing executes, and cleaning up fails no check. |
| SchedulerQueues.SchedulerQueue.AddItemToQueue | mediapipe/mediapipe/framework/scheduler_queue.cc:133-163 | The critical section adds the item, reports whether the queue was idle, and takes all waiting tasks if running. |
| SchedulerQueues.SchedulerQueue.SubmitWaitingTasks | mediapipe/mediapipe/framework/scheduler_queue.cc:165-187 | The critical section takes all waiting tasks if running. |
| SchedulerQueues.SchedulerQueue.PopTop | mediapipe/mediapipe/framework/scheduler_queue.cc:189-201 | Takes out an item that nothing else is to run before. |
| SchedulerQueues.SchedulerQueue.FinishTask | mediapipe/mediapipe/framework/scheduler_queue.cc:223-233 | One pending task fewer, and whether the queue became idle. |
| SchedulerQueues.SchedulerQueue.CleanupAfterRun | mediapipe/mediapipe/framework/scheduler_queue.cc:306-322 | Both checks hold exactly if no task is under way; then the queue is emptied and reported idle if it was not, and otherwise nothing changes. |
| Schedulers.QueuesFollowState | mediapipe/mediapipe/framework/scheduler.cc:112-216 | Over every run, lock drops included: a queue's running count is one if running or cancelling, less one while a layer is being added, so at most 1; one thread at most is in the body; no check fails. |
| Schedulers.EarlyReturnIsAnswered | mediapipe/mediapipe/framework/scheduler.cc:126-186 | After every call that returned early the thread in the body evaluates its guard again before it leaves. |
| Schedulers.BodyGoesOn | mediapipe/mediapipe/framework/scheduler.cc:126-186 | Over every run the thread in the body of HandleIdle can always take its next step. |
| SchedulerLaws.CallIsHandledIff | mediapipe/mediapipe/framework/scheduler.cc:203-514 | A call enters HandleIdle if and only if it brings the count to 0, or brings a packet, the end of the inputs, the start, a resumption or a cancellation; the caller is then at the guard, or the thread in the body has been told. |
| SchedulerLaws.EveryCallIsAnswered | mediapipe/mediapipe/framework/scheduler.cc:126-186 | Over every run the guard is looked at after each such call before no thread is in the body. |
| SchedulerLaws.CountsFollowReports | mediapipe/mediapipe/framework/scheduler.cc:457-462 | Over every run both counts are what has been reported. |
| SchedulerLaws.InputsCloseIff | mediapipe/mediapipe/framework/scheduler.cc:328-333 | The graph inputs count as closed if and only if they were or have been. |
| SchedulerLaws.StateMoves | mediapipe/mediapipe/framework/scheduler.cc:188-514 | The state changes by starting, pausing, resuming, cancelling and quitting, from the states that allow it, and by nothing else. |
| SchedulerLaws.TerminatesFor | mediapipe/mediapipe/framework/scheduler.cc:143-151 | Over every run the scheduler terminates only in its body, with an error or with no source left and the graph inputs closed. |
| SchedulerLaws.ErrorsComeFrom | mediapipe/mediapipe/framework/scheduler.cc:360-392 | An error stays, and comes from outside, from a cancellation, or from a layer that waits for a source that cannot be opened any more. |
| SchedulerLaws.GuardOpensIff | mediapipe/mediapipe/framework/scheduler.cc:139-140 | The body works if and only if the count is 0 and the scheduler is running or cancelling. |
| SchedulerLaws.DecidesOn | mediapipe/mediapipe/framework/scheduler.cc:143-178 | It quits, activates the next layer, waits for a lower one, unthrottles, or finds nothing to do, each exactly under its condition. |
| SchedulerLaws.LeavesFor | mediapipe/mediapipe/framework/scheduler.cc:126-186 | Over every run a thread leaves the body because the guard is shut, the scheduler has terminated, or there is nothing to do and no call has come in. |
| SchedulerLaws.RechecksFor | mediapipe/mediapipe/framework/scheduler.cc:163-178 | It finds nothing to do only without a layer to activate, and with nothing to unthrottle or after trying. |
| SchedulerLaws.LeavesListIff | mediapipe/mediapipe/framework/scheduler.cc:360-372 | A source leaves the active ones if and only if it is the last of them, has closed, and the body cleans up. |
| SchedulerLaws.DecidesAfterCleaning | mediapipe/mediapipe/framework/scheduler.cc:139-143 | Over every run the body comes to decide only with the last active source still open. |
| SchedulerLaws.WholeLayerIsActivated | mediapipe/mediapipe/framework/scheduler.cc:412-427 | Over every run, when the queues are let go on again every source of the layer has been activated. |
| SchedulerLaws.ActivatesIff | mediapipe/mediapipe/framework/scheduler.cc:417-422 | A source is activated by its turn in the layer and by nothing else. |
| SchedulerLaws.ClosedIff | mediapipe/mediapipe/framework/calculator_node.cc:661-670 | Over every run exactly the sources that have closed count as closed. |
| Schedulers.LowerLayersClosed | mediapipe/mediapipe/framework/scheduler.cc:360-411 | When the next layer is picked every source in a lower layer is closed. |
| Schedulers.LayersInOrder | mediapipe/mediapipe/framework/scheduler.cc:360-427 | Over every run layers are activated in non-decreasing order, each with every lower source closed. |
| Schedulers.SourceLists.CleanupActiveSources | mediapipe/mediapipe/framework/scheduler.cc:360-372 | Drops closed sources from the back, up to one still open. |
| Schedulers.SourceLists.TakeLowestLayer | mediapipe/mediapipe/framework/scheduler.cc:393-411 | Moves all sources of the lowest layer and no others. |
| Schedulers.SchedulerControl.QueueIdleStateChanged | mediapipe/mediapipe/framework/scheduler.cc:457-472 | Counts the report and enters HandleIdle as SchedulerLaws.CallIsHandledIff says, which is exactly when the count becomes 0. |
| Schedulers.SchedulerControl.Pause | mediapipe/mediapipe/framework/scheduler.cc:474-481 | Only a running scheduler pauses, and its queues with it. |
| Schedulers.SchedulerControl.Resume | mediapipe/mediapipe/framework/scheduler.cc:483-496 | Only a paused scheduler resumes; HandleIdle is entered. |
| Schedulers.SchedulerControl.Cancel | mediapipe/mediapipe/framework/scheduler.cc:498-514 | A paused scheduler's queues run again; an error is recorded; HandleIdle is entered. |
| Schedulers.SchedulerControl.Quit | mediapipe/mediapipe/framework/scheduler.cc:190-201 | In the body the check of the state holds, and the queues stop. |
| Throttling.CallbacksFollowFullness | mediapipe/mediapipe/framework/input_stream_manager.cc:126-198 | Without an error, an operation calls back if and only if it changes whether the queue is full. |
| Throttling.CallbacksAgreeIff | mediapipe/mediapipe/framework/input_stream_manager.cc:126-198 | Errors included: the callback agrees with the change of fullness if and only if no batch is rejected after packets that fill a queue short of full. |
| Throttling.RejectedBatchIsSilent | mediapipe/mediapipe/framework/input_stream_manager.cc:130-198 | The same packet twice in one batch fills a queue of size one with an error, no callback and no notification. |
| Throttling.UpdateIsProper | mediapipe/mediapipe/framework/calculator_graph.cc:1283-1291 | A set never gains a stream it has nor loses one it lacks: both debug checks hold. |
| Throttling.SetStepKeeps | mediapipe/mediapipe/framework/calculator_graph.cc:1264-1316 | Every step keeps sets, reports, callbacks and the count of held inputs in agreement, also in the middle of the critical section. |
| Throttling.ThrottleAccounting | mediapipe/mediapipe/framework/calculator_graph.cc:1248-1316 | Over every run, outside the critical section: a stream is in a node's set if and only if it was last reported full and the node is above it; the count of held graph inputs is right; and fullness that differs from the report has a callback still to come. |
| Throttling.SourceKeeps | mediapipe/mediapipe/framework/calculator_node.cc:805-835 | Every step of the threads that may add a source keeps it single and not stranded. |
| Throttling.SourceNeverStranded | mediapipe/mediapipe/framework/calculator_graph.cc:1264-1326 | Over every run an active source has at most one task queued or running, none queued once closed, and, whenever nobody is about to try to add it, exactly one or a full stream below. |
| Throttling.CalculatorGraph.UpdateNode | mediapipe/mediapipe/framework/calculator_graph.cc:1274-1313 | One node's set gains or loses the stream, the count of held inputs follows, and a freed active source is found. |
| Throttling.CalculatorGraph.UpdateThrottledNodes | mediapipe/mediapipe/framework/calculator_graph.cc:1264-1316 | The sets become those of the specified update, the count of held inputs follows, and the sources to schedule are exactly those above the stream whose set has become empty and that are active. |
| Throttling.AfterAllNodes | mediapipe/mediapipe/framework/calculator_graph.cc:1273-1291 | After the update the stream is in all the sets above it or in none, and no other membership has changed. |
| Throttling.GrowthFrees | mediapipe/mediapipe/framework/calculator_graph.cc:1369-1370 | A stream given room for one packet more than it holds is not full, and calls back if it was. |
| ThrottlingLaws.ThrottledIff | mediapipe/mediapipe/framework/calculator_graph.cc:1323-1326 | Over every run a source is held back if and only if queue sizes are limited and some stream below it was last reported full. |
| ThrottlingLaws.OnlyAddingQueues | mediapipe/mediapipe/framework/scheduler_queue.cc:110-124 | A source gets into the queue only by a thread that adds it, one task at a time, and with none in flight. |
| ThrottlingLaws.AddingQueuesIff | mediapipe/mediapipe/framework/scheduler_queue.cc:110-124 | A thread that adds a source queues a task if and only if none is in flight. |
| ThrottlingLaws.LoopAskedFreely | mediapipe/mediapipe/framework/scheduler.cc:335-347 | Over every run a thread of the loop about to add a source has asked while it was not held back. |
| ThrottlingLaws.ActivatorAskedFreely | mediapipe/mediapipe/framework/scheduler.cc:417-422 | Over every run the thread that activates a source adds it only after asking while it was not held back. |
| ThrottlingLaws.FreedIsAddedIff | mediapipe/mediapipe/framework/calculator_graph.cc:1305-1321 | A report adds a source without asking if and only if it has just freed it and the source is active. |
| Unthrottling.ReportsGoOn | mediapipe/mediapipe/framework/calculator_graph.cc:1248-1326 | Until every change of fullness has been reported some report can go on. |
| Unthrottling.UnthrottlingFrees | mediapipe/mediapipe/framework/calculator_graph.cc:1341-1381 | Over every run of streams and bookkeeping together: once every stream to grow has been resized, no other operation has been made on a stream, and all is reported, every source and graph input is held back by exactly the full graph outputs below it; an active source without any has a task, unless somebody is about to add it. |
| Unthrottling.MoveKeeps | mediapipe/mediapipe/framework/input_stream_manager.cc:126-388 | Every operation on a stream and every step of the bookkeeping keeps the recorded fullness equal to that of the streams, with a callback for each change. |
| Unthrottling.GrowingFreesIff | mediapipe/mediapipe/framework/calculator_graph.cc:1341-1347 | Growing frees some source that is held back if and only if one is held back by no full graph output. |
| Unthrottling.OutputHoldsSource | mediapipe/mediapipe/framework/calculator_graph.cc:1341-1381 | A run from the start after which there is a stream to grow and the only source stays held back by a graph output. |
| Unthrottling.NothingToGrowIff | mediapipe/mediapipe/framework/calculator_graph.cc:1341-1381 | There is nothing to grow if and only if all that holds sources and inputs back is full graph outputs. |
| Throttling.CalculatorGraph.FullStreams | mediapipe/mediapipe/framework/calculator_graph.cc:1348-1360 | Collects exactly the streams in any set that are not graph outputs. |
| Throttling.CalculatorGraph.UnthrottleSources | mediapipe/mediapipe/framework/calculator_graph.cc:1341-1381 | Gives each of those streams room for one packet more, or an error each if deadlocks are to be reported; no other stream changes, and the answer is whether there was any. |
| Generators.LeastIsProduced | mediapipe/mediapipe/framework/packet_generator_graph.cc:47-130 | In the least closed extension each output of a runnable generator is what it makes of the packets at its inputs, in their order. |
| Generators.LeastIsUnique | mediapipe/mediapipe/framework/packet_generator_graph.cc:359-387 | There is at most one least closed extension of the given packets. |
| Generators.StepKeeps | mediapipe/mediapipe/framework/packet_generator_graph.cc:207-287 | Every step keeps: a runnable generator will be looked at, a scheduled one is waiting or has delivered, none is scheduled twice. |
| Generators.StepStaysWithin | mediapipe/mediapipe/framework/packet_generator_graph.cc:207-245 | Nothing is added that is not in every closed extension of the start. |
| Generators.PassReachesLeast | mediapipe/mediapipe/framework/packet_generator_graph.cc:207-314 | Confluence: at idle, whatever the order, the packets are the least closed extension of the start, a generator is scheduled if and only if its inputs exist, none ran twice, and no name was defined twice. |
| Generators.NotIdleMoves | mediapipe/mediapipe/framework/packet_generator_graph.cc:247-299 | Until the pass is idle some task or some scan can go on. |
| Generators.ExactlyTheRunnableRan | mediapipe/mediapipe/framework/packet_generator_graph.cc:247-314 | At idle the generators that ran are exactly those runnable that had not run in an earlier pass. |
| Generators.SecondPassStarts | mediapipe/mediapipe/framework/packet_generator_graph.cc:373-398 | The second pass starts from a state that fits the first one's result. |
| Generators.TwoPhasesAreOne | mediapipe/mediapipe/framework/packet_generator_graph.cc:359-398 | The least extension in two phases is the least extension in one. |
| Generators.SetupEqualsOnePass | mediapipe/mediapipe/framework/packet_generator_graph.cc:359-419 | Initialize followed by RunGraphSetup leaves the same packets as one pass over all of them, whatever happens in between. |
| FailingGenerators.AttemptStepKeeps | mediapipe/mediapipe/framework/packet_generator_graph.cc:207-287 | With errors: every step keeps that no error was returned and all is derivable and well, or that some generator fails in whatever order the tasks run. |
| FailingGenerators.OutcomeIsDetermined | mediapipe/mediapipe/framework/packet_generator_graph.cc:207-325 | On any executor, at idle there is an error if and only if some generator of this pass can run on the least closed extension and fails there, and without one the packets are that extension: the outcome does not depend on the order. |
| FailingGenerators.AttemptMoves | mediapipe/mediapipe/framework/packet_generator_graph.cc:207-299 | Until the pass is idle some step can be taken, errors or not. |
| GeneratorSchedulers.GeneratorScheduler.ScheduleAllRunnableGenerators | mediapipe/mediapipe/framework/packet_generator_graph.cc:247-287 | The loop over all generators ends with every runnable one scheduled or done, and keeps the invariants. |
| GeneratorSchedulers.GeneratorScheduler.RunApplicationThreadTasks | mediapipe/mediapipe/framework/packet_generator_graph.cc:327-346 | Running waiting tasks until none is left terminates at idle, with nothing but derivable packets or, after an error, only if an error was unavoidable. |
| GeneratorSchedulers.GeneratorScheduler.GenerateAndScheduleNext | mediapipe/mediapipe/framework/packet_generator_graph.cc:207-245 | The oldest task is dropped after an error, adds its error, or adds its packets and scans; each keeps the invariants and leaves less to do. |
| GeneratorSchedulers.ExecuteGenerators | mediapipe/mediapipe/framework/packet_generator_graph.cc:401-419 | Returns an error if and only if some generator of this pass can run on the least closed extension and fails there; and otherwise that extension and exactly the generators whose inputs do not exist. |
| NodeOpening.NoneMissing | mediapipe/mediapipe/framework/input_side_packet_handler.cc:59-82 | A count of zero means that everything expected has arrived, and conversely. |
| NodeOpening.OpensExactlyOnce | mediapipe/mediapipe/framework/calculator_node.cc:737-770 | Over every run a node is scheduled to open at most once, only when all headers but those of back edges and all side packets are in, and then certainly; no check fails. |
| NodeOpening.SideArrivesIff | mediapipe/mediapipe/framework/input_side_packet_handler.cc:59-82 | A required side packet is there after a step if and only if it was, or it is set now and is of the right type. |
| NodeOpening.HeaderGoesOn | mediapipe/mediapipe/framework/input_stream_handler.cc:143-155 | A header that does not count yet can always be brought further, and counts after two steps of its producer at most. |
| NodeOpening.InputSidePacketHandler.SetInternal | mediapipe/mediapipe/framework/input_side_packet_handler.cc:59-82 | Errors change nothing, and the callback is made exactly when the last required packet arrives. |
| OneEuro.Alpha | mediapipe/one_euro_filter.py:15-17 | The weight of a new sample lies strictly between 0 and 1. |
| OneEuro.SmoothBetween | mediapipe/one_euro_filter.py:12-13 | A smoothed value lies between its two arguments, strictly if they differ. |
| OneEuro.OutputsStayInHull | mediapipe/one_euro_filter.py:19-46 | For every sequence of samples and times, also repeated or backward ones, every output lies between the least and the greatest sample so far. |
| OneEuro.OutputApproachesSample | mediapipe/one_euro_filter.py:19-46 | A later sample moves the output strictly towards it and never past it. |
| OneEuro.AlphaSolves | mediapipe/one_euro_filter.py:15-17 | The weight is a/(a+1) for the time passed times the cutoff as an angular frequency. |
| OneEuro.SmoothSolves | mediapipe/one_euro_filter.py:12-17 | Smoothing is one step of a first-order low-pass filter: the value moves by the difference that remains, times cutoff and time. |
| OneEuro.FilterSolves | mediapipe/one_euro_filter.py:19-46 | A later sample: the speed is such a step from the slope of the signal, and the output such a step at the least cutoff plus a share of that speed. |
| OneEuro.OtherSamples | mediapipe/one_euro_filter.py:19-27 | The first sample is returned as it is at speed zero; one not later than the last changes nothing and gets the last output. |
| OneEuro.OneEuroFilter.Filter | mediapipe/one_euro_filter.py:19-46 | Output and new memory are those of the specified step. |

## Left out

- Parallel output order: with more than one invocation in flight a node's outputs go through `PropagationLoop`, which is pure virtual in `output_stream_handler.h:157-158`; its implementation is not part of this model. `OutputStreamHandlers` and `Dataflow` model the sequential branch; `NodeRuns` allows any number of invocations.
- Late preparation of input sets, batches of more than one timestamp, several sync sets in one node, and untimed streams (`PopQueueHead`).
- The loops of `ScheduleInvocations` and `SchedulingLoop`, and HandleIdle as a whole, are modelled as steps of `NodeRuns` and `Schedulers` and not as methods, because other threads act between any two of their critical sections; their critical sections and inner loops are methods.
- Dataflow.NoStall: for nodes with timestamp offset zero and one invocation at a time, without throttling, in runs without errors and with calculators that never lower a bound, as the runtime means it; no input stream may have been left with the bound that only a packet after the stream can meet, and nodes that process bounds have ordinary packets queued. Outputs of sources count as graph inputs. Packets and bounds that calculators put out are arbitrary, and one invocation may send any number of messages.
- GraphDeterminism.SameInputsSameRun: the bound announced with packets covers them, as `OutputStreams.NewBoundCovers` says, and no packet is sent on a stream whose bound has passed the last legal timestamp, since a consumer that has closed drops it without an error; both runs are complete, without errors, and of the same graph. Calculators of nodes with timestamp-bound processing must not depend on the sets without packets, which do depend on timing.
- ComingToRest.NothingIsEndless: what calculators put out while an invocation runs counts as input from outside, like packets on graph inputs, since nothing limits how much one invocation says.
- Schedulers: one queue is followed, since every queue sees the same calls; the condition variables on which application threads wait, and termination of HandleIdle, are not modelled.
- Throttling.SourceNeverStranded: for runs without errors, after which nothing is added any more, and sources with one invocation at a time, which is the default; beginning a task and putting it into the queue count as one step; graph input streams only appear in the accounting.
- Generators.PassReachesLeast: generators are functions of their inputs; errors come in with `FailingGenerators`. Type validation of inputs and optional inputs are not modelled.
- GeneratorSchedulers.ExecuteGenerators: with the executor of the application thread only, which runs the oldest task first; `FailingGenerators.OutcomeIsDetermined` is about tasks run in any order. Errors are counted, not combined into one message.
- NodeOpening.OpensExactlyOnce: the header of each stream is set once, by its producer. A side packet is checked, stored and counted in one step, although `SetInternal` takes no lock for it (`input_side_packet_handler.cc:59-82`).
- OneEuro: exact reals in place of floating point, and `pi` is any positive number.
- Packets are a timestamp with an opaque payload; packet types only say which payload kinds they accept. `PacketType::SetSameAs` and type inference are left out.
- Executors are a bag of submitted tasks run in any order; in `GeneratorSchedulers` the oldest first.
- Profiling, logging, timers, services, GPU, registries, configuration, camera and user interface code.
