# fred.rs: a verified model of the router, the readers and their data

The client has one router task that writes commands to connections, one reader task per connection that matches response
frames to commands, and shared responders that answer the callers. This project models those tasks and the data they
work on, and proves what holds over every run.

- `Responder.dfy`: the buffered responder that several reader tasks share, and pipelines. All interleavings of store, count,
  merge and answer are covered, and the writer may give up at any point.
- `Connection.dfy`, `ConnectionTasks.dfy`: the deque of in-flight commands and the in-flight counter of one connection. Writer
  and reader are interleaved step by step, with a server that answers in order and with stray unsubscribe frames.
- `Backpressure.dfy`: what the Drain policy guarantees on top of that protocol.
- `Answers.dfy`: what reaches the callers of a connection.
- `Transactions.dfy`: `transactions::run` with every outcome of every write, reply, redirection and reconnection.
- `Replay.dfy`: disconnects, the retry buffer and replays on a centralized connection.
- `WriteLoop.dfy`: the loop around one command, and the loops that follow ASK and MOVED redirections.
- `Routing.dfy`, `ClusterSync.dfy`: the routing table, its binary search and its derived sets, and the sync of the connection map.
- `ClientTransaction.dfy`: the queue of a transaction and its hash slot check, alone and with clones at work at the same time.
- `Values.dfy`, `Stats.dfy`, `Reconnect.dfy`, `Replicas.dfy`: value and frame conversion, running statistics, reconnect policies
  and replica round robin.
- `Prelude.dfy`, `Frames.dfy`: shared definitions, RESP3 frames and UTF-8.

Concurrent code is a state machine: `Apply` makes one atomic step and changes nothing if the step is not enabled, so every
list of steps is an interleaving, and the theorems hold for all lists. Code that works step by step is a method or a class
proved against functions of its inputs. The network, the clock, random draws and the other tasks are parameters: an
environment function or a list of steps. A loop without a bound of its own takes a number of rounds, so its contract
speaks of every finite prefix of a run. Machine words wrap or saturate where the code relies on it.

Places where the code does not do what one would expect of it, each with lemmas that show the failing case and say when it
cannot occur:

- `retry_buffer` documents that the commands it could not send stay buffered, but it drops those after a failed write
  (`Replay.ReplayKeepsTheRestIff`, `Replay.ReplayCanLoseACommand`). The model follows the code.
- A failed write of an UNSUBSCRIBE without arguments pops another command (`Connection.FailedWriteMatchesIff`,
  `Connection.FailedWriteCanPopAnother`).
- A reply of three or four elements that starts with the word `unsubscribe` is thrown away (`Connection.ReceivedReplyMatchesIff`,
  `Connection.LookalikeReplyIsLost`, `Connection.OrdinaryReplyCanLookAlike`).
- A notice from an UNSUBSCRIBE without arguments answers an unsubscribe command behind it, whose own notice is then lost
  (`Connection.StrayNoticeMatchesIff`, `Connection.StrayNoticeAnswersAnother`).
- `max_in_flight_commands` bounds only the commands that heed it. Those of pipelines and transactions, and replayed ones, skip
  the check, and any number of them can be without an answer (`Backpressure.SufficesIff`,
  `Backpressure.PlainRunReachesTheBound`).
- The reader counts a command down before it answers its caller, so the check for backpressure misses the command in the
  reader's hands, and one more command can be without an answer than the limit allows for
  (`Backpressure.UnansweredIsBounded`, `Backpressure.PlainRunReachesTheBound`). With multi-reply commands one more can be owed
  frames as well (`Backpressure.FramesOwedAreBounded`, `Backpressure.MultipleRepliesOweMore`).
- The comment on `TransactionResponse::Continue` says that a transaction goes on after errors with `abort_on_error`. The code does
  the opposite, and the model follows the code (`Transactions.Run`).
- A multi-reply command lets the router go before its caller is answered (`Backpressure.BlockingCommandDrains`,
  `Backpressure.ReleasedBeforeAnswered`).
- A blocking command whose write failed is replayed with a router channel that nobody listens to, and is discarded when the
  reader stops while it is the oldest in flight (`Replay.ShutdownKeepsTheFrontIff`, `Replay.HeardRunKeepsTheFront`,
  `Replay.ShutdownCanLoseACommand`).
- Under the Drain policy the wait uses up an attempt, and a command that is not pipelined does not wait at all, so a command
  can be given up without one write (`WriteLoop.DrainWritesIff`, `WriteLoop.DrainStarvesUnpipelined`).
- Clones of a transaction can queue commands for different nodes (`ClientTransaction.ClonesAgreeIff`,
  `ClientTransaction.ClonesCanDisagree`).
- The replica counter loses its turn when the machine word wraps (`Replicas.RoundReachesEachOnceIff`, `Replicas.WrapCanBeUnfair`).

## Model

| member | source | states |
|---|---|---|
| `Responder.MergeMultipleFrames` | src/protocol/responders.rs:276-312 | the merge is the first error by index, else the one-level concatenation of arrays and pushes in index order |
| `Responder.MergeMeetsItsSpecification` | src/protocol/responders.rs:276-312 | the function the protocol uses for the merge meets that description for every list of frames |
| `Responder.ConcatenatedKeepsPlaces` | src/protocol/responders.rs:276-312 | in the merged array the items of each frame stand together and in order, right after what the frames before it give |
| `Responder.StoreKeeps` | src/protocol/responders.rs:242-273 | storing a frame by index keeps the protocol's invariant, also for an index past the end |
| `Responder.CountKeeps` | src/protocol/responders.rs:594-598 | counting after storing keeps the invariant: the reader that counts the last frame finds every frame stored |
| `Responder.MergeKeeps` | src/protocol/responders.rs:598-606 | only the reader that counted `expected` merges, and it merges once |
| `Responder.RespondKeeps` | src/protocol/responders.rs:607-620 | whoever takes the sender first answers, and nobody answers twice |
| `Responder.EveryRunKeeps` | src/protocol/responders.rs:556-633 | every interleaving of any number of reader tasks keeps the invariant, with the writer giving up at any point |
| `Responder.MergeSeesEveryReply` | src/protocol/responders.rs:594-606 | in every interleaving the merge runs at most once, and what it reads is every command's own reply in command order |
| `Responder.AtMostOneAnswer` | src/protocol/responders.rs:230-240 | no interleaving gives the caller two answers |
| `Responder.CallerGetsTheMerge` | src/protocol/responders.rs:556-633 | when all tasks are done and as many frames were expected as commands replied, the caller has exactly one answer: the merge of the replies |
| `Responder.AnsweredWhenFinished` | src/protocol/responders.rs:594-633 | for any expected number, the caller is left without an answer exactly if there are no replies or fewer replies than expected frames |
| `Responder.EveryTaskGoesOn` | src/protocol/responders.rs:556-633 | no reader is ever stuck: its next section can run, brings it closer to its end, and touches no other reader |
| `Responder.GivingUpAnswers` | src/router/clustered.rs:129-141 | in every interleaving a writer that gives up leaves the caller with exactly one answer, its own if there was none |
| `Responder.SharedBuffer.AddBufferedFrame` | src/protocol/responders.rs:242-273 | the frame replaces the one at its index, or an index past the end changes nothing and is reported |
| `Responder.SharedBuffer.Answer` | src/protocol/responders.rs:230-240 | the sender is gone afterwards, and the result was passed on exactly if it was still there |
| `Responder.SharedBuffer.RespondBuffer` | src/protocol/responders.rs:556-633 | one uninterrupted call leaves the frames, the counter, the sender and the answers as the four steps of its task do |
| `Responder.PreparePipeline` | src/clients/pipeline.rs:165-184 | a pipeline expects the sum of its commands' frames and stores at indices 0, 1, 2 and so on, so single-reply commands fill the buffer exactly |
| `Connection.PushKeepsMatching` | src/protocol/connection.rs:900-914 | putting a command on the deque keeps the deque matched with what the server still owes |
| `Connection.SendKeepsMatching` | src/protocol/connection.rs:880-897 | so does handing its frame to the socket |
| `Connection.FailKeepsMatching` | src/router/utils.rs:165-186 | so does popping a command whose write failed, unless that command expects no responses while others are in flight |
| `Connection.ReceiveKeepsMatching` | src/router/centralized.rs:101-123 | so does taking the front command for a frame, with frames delivered in server order |
| `Connection.RespondKeepsMatching` | src/protocol/responders.rs:498-552 | so does putting a multi-reply command back at the front, until its last frame or an error |
| `Connection.ReceivedReplyMatchesIff` | src/router/utils.rs:251-291 | a reply is consumed by its command exactly if it is not taken for an unsubscribe notice; otherwise it is lost and the deque is off by one |
| `Connection.NoticeIff` | src/router/utils.rs:251-275 | a frame counts as an unsubscribe notice exactly if it is an array or push of three or four items that starts with one of the three words, or with "pubsub" and then one of them |
| `Connection.OrdinaryReplyCanLookAlike` | src/router/utils.rs:251-291 | an ordinary three-element reply has the shape of an unsubscribe notice |
| `Connection.LookalikeReplyIsLost` | src/router/centralized.rs:101-123 | for every command with such a single reply, a run in which the reply is thrown away and the command waits on |
| `Connection.EveryRunMatches` | src/router/centralized.rs:93-177 | every interleaving of writer and reader keeps the deque matched, with stray unsubscribe frames in between |
| `Connection.EveryReplyReachesItsCommand` | src/router/centralized.rs:93-177 | in every interleaving each frame is consumed by the command that caused it, no reply is thrown away, and the next reply finds its own command at the front |
| `Connection.SilentServerMeansEmptyDeque` | src/router/centralized.rs:93-177 | when the server owes nothing, no written command is left waiting |
| `Connection.FailedWriteMatchesIff` | src/router/utils.rs:165-180 | after a failed write the deque is matched exactly unless the command expects no responses and others are in flight, whose last one is then popped instead |
| `Connection.FailedWriteCanPopAnother` | src/router/utils.rs:165-180 | for every limit, a run in which the failed write of an argument-less unsubscribe pops a GET whose reply is on its way |
| `Connection.StrayNoticeMatchesIff` | src/router/utils.rs:251-291 | an unsubscribe notice that belongs to no command in flight leaves the deque matched exactly unless an unsubscribe command is at its front |
| `Connection.StrayNoticeAnswersAnother` | src/router/centralized.rs:101-123 | for every limit, a run in which an unsubscribe command is answered with the notice of an earlier one, and its own notice is lost |
| `Connection.FailedWriteCountsIff` | src/router/utils.rs:165-180 | a failed write leaves the counter right exactly if it takes off the deque what it put there |
| `Connection.EveryRunCounts` | src/protocol/connection.rs:283-298 | in every run, whatever the server sends, the wrapping in-flight counter agrees with the deque, up to the commands between two steps, until a write fails |
| `Connection.AllowedRunCounts` | src/protocol/connection.rs:283-298 | with an in-order server it agrees after a failed write too |
| `Connection.CounterIsDequePlusSilentWrites` | src/protocol/connection.rs:880-914 | in every run, between steps, the counter is the length of the deque plus the number of argument-less unsubscribes ever written |
| `ConnectionTasks.Shared.PushCommand` | src/protocol/connection.rs:900-914 | the command goes to the end of the deque, unless it expects no responses |
| `ConnectionTasks.Shared.PopRecentCommand` | src/protocol/connection.rs:917-919 | the last command leaves the deque, if there is one |
| `ConnectionTasks.Shared.WriteCommand` | src/router/utils.rs:164-186 | push, write and count, or push and pop, leave the deque and the counter as the steps of the protocol do |
| `ConnectionTasks.Shared.ProcessResponseFrame` | src/router/centralized.rs:93-177 | one call changes the deque and the counter and may finish the front command: outside a transaction its caller gets the frame; inside, the router gets an error or a result with the frame, or goes on |
| `ConnectionTasks.ReadsProcess` | src/router/centralized.rs:93-177 | for every state and frame, the reader's steps run without interruption do what one call does, hand on that frame for a finished command, and nothing otherwise |
| `Backpressure.EveryRunKeepsOrder` | src/router/centralized.rs:93-177 | in every run, whatever the server sends, the commands waiting for an answer are in sending order, with the router's own command last |
| `Backpressure.EveryRunAccounts` | src/router/centralized.rs:93-177 | in every run a sent command is answered or waiting |
| `Backpressure.BlockingCommandDrains` | src/router/mod.rs:93-105 | in every run, when a command that blocks the router lets it go, nothing is left in flight and every command sent before it has been answered; the command itself has too, unless it is a multi-reply command whose answer the reader is about to give |
| `Backpressure.ReleasedBeforeAnswered` | src/protocol/responders.rs:512-535 | for every limit, a run in which a multi-reply command lets the router go before its caller is answered |
| `Backpressure.EveryRunIsBounded` | src/router/utils.rs:35-70 | in every run in which the counter cannot wrap, the commands without an answer that heed backpressure stay within the limit for where the router is |
| `Backpressure.UnansweredIsBounded` | src/router/utils.rs:35-70 | in every run in which the counter cannot wrap, whatever the server sends, at most `max_in_flight_commands` + 3 commands that heed backpressure are without an answer, and of all commands at most that many plus those that skip it; every sent and unanswered command is among them |
| `Backpressure.PlainRunReachesTheBound` | src/router/commands.rs:255-277 | for every limit and every number of commands that skip backpressure, a run of single-reply commands in which limit + 3 + that number of written commands are without an answer |
| `Backpressure.SufficesIff` | src/router/utils.rs:40-42 | with at most k commands that skip backpressure, a number bounds the commands without an answer in all runs if and only if it is at least limit + 3 + k |
| `Backpressure.EveryPlainRunBoundsTheDeque` | src/router/utils.rs:35-70 | with single replies at most limit + 2 commands that heed backpressure are on the deque |
| `Backpressure.FramesOwedAreBounded` | src/router/utils.rs:35-70 | at most limit + 3 commands that heed backpressure are owed frames, and at most limit + 2 with single replies; of all commands, those that skip it come on top |
| `Backpressure.MultipleRepliesOweMore` | src/router/centralized.rs:150-161 | for every limit and number of commands that skip backpressure, a run with a multi-reply command in which one command more is owed frames than with single replies |
| `Answers.EveryCommandIsAnsweredOnce` | src/router/centralized.rs:93-177 | in every run, whatever the server sends, no command is answered twice |
| `Answers.LastFrameIsDue` | src/protocol/responders.rs:498-552 | the frame after which a command is not put back is the last of its replies |
| `Answers.EveryCallerGetsItsLastReply` | src/protocol/responders.rs:470-552 | in every interleaving with a server that answers in order, a sent command is answered at most once, and with the last of its own replies |
| `Answers.EverySentCommandIsAnswered` | src/router/centralized.rs:93-177 | when the server owes nothing and both tasks are at rest, every sent command has that answer |
| `Transactions.UpdateHashSlot` | src/router/transactions.rs:116-120 | every command is routed by the slot of the redirection |
| `Transactions.SendWatch` | src/router/transactions.rs:156-208 | the queue follows only an accepted WATCH; any other outcome ends the attempt as it demands: a failed connection restarts it while attempts are left and is answered with its error otherwise, a redirection restarts it, a result or an error is answered |
| `Transactions.SendQueue` | src/router/transactions.rs:210-256 | EXEC may follow only if all queued commands were written in order to this server, each answered before the next; otherwise the attempt ends as the stopping event demands |
| `Transactions.LeaveQueue` | src/router/transactions.rs:220-255 | a queued command that stops the queue leads to no EXEC but to DISCARD, sent to the target of a redirection and to the same server otherwise; the attempt restarts, is answered or gives up as that command's outcome demands |
| `Transactions.SendExec` | src/router/transactions.rs:258-300 | EXEC is earned, a frame is passed on exactly if it is the result in reply to it, any other outcome is followed by DISCARD on the same server, and the attempt ends as the outcome of EXEC demands |
| `Transactions.LeaveExec` | src/router/transactions.rs:258-300 | after a result nothing follows EXEC; after any other outcome DISCARD does, and a failed connection restarts the attempt while there are any left |
| `Transactions.Attempt` | src/router/transactions.rs:139-300 | one attempt: EXEC is earned and is left out only for a cause; the deciding event fixes the end, with its own error or frame; DISCARD ends exactly an attempt that left the transaction open; a restart follows a repair that worked, and the run gives up with the error of one that failed; a redirection rewrites every hasher |
| `Transactions.Run` | src/router/transactions.rs:124-301 | over any number of attempts: EXEC is written only after WATCH and all queued commands on the same server in the same attempt; every attempt but the last had to be followed by another; with an answer the last one met a failed connection only with no attempts left and followed no redirection, and the answer is the one its deciding event demands; without one a repair failed; every outcome in the trace is the environment's answer to its own question, asked once and in order; with `abort_on_error` nothing follows an error reply; exactly one answer on Ok and none on Err; at most `max_command_attempts` attempts before the last one met a connection failure; every attempt is routed by the last redirection |
| `Replay.SurvivorsAre` | src/router/utils.rs:220-243 | `check_final_write_attempt` removes exactly the commands that hold a router channel and are out of attempts |
| `Replay.SurvivorsChain` | src/router/utils.rs:220-243 | the commands it leaves keep their order |
| `Replay.CheckFinalWriteAttempt` | src/router/utils.rs:220-243 | the filter loop computes that deque |
| `Replay.ShutdownKeepsLine` | src/router/centralized.rs:76-80 | the reader's shutdown keeps the order of all commands, and hands the blocked command back to the router |
| `Replay.WriteKeepsLine` | src/router/utils.rs:112-186 | a write keeps the order of all commands whatever becomes of it |
| `Replay.ResendKeepsLine` | src/router/mod.rs:958-1007 | so does one iteration of the replay |
| `Replay.DrainKeepsLine` | src/router/commands.rs:141-151 | so does saving the in-flight commands and then the popped one behind the retry buffer |
| `Replay.EveryRunKeepsOrder` | src/router/mod.rs:846-1013 | over every run of writes, answers, reader shutdowns, disconnects and replays, the retry buffer, the deque, the commands to replay and the router's own command hold the commands in submission order |
| `Replay.EveryRunKeepsEpochs` | src/router/mod.rs:954-1013 | in every run the ids written on each connection increase |
| `Replay.EverySendIsLogged` | src/router/mod.rs:954-1013 | every id put on the wire is in the list of its connection, right behind those put there before it |
| `Replay.EveryConnectionSeesSubmissionOrder` | src/router/mod.rs:954-1013 | in every run, of two commands written on one connection the one submitted first was written first, and none was written twice |
| `Replay.SendOrderNeverChanges` | src/router/mod.rs:954-1013 | two commands written on two connections were written in the same order on both |
| `Replay.EveryCommandIsAccountedFor` | src/router/mod.rs:547-575 | in every run each submitted command is in exactly one place: still held, answered, or dropped |
| `Replay.WriteDoes` | src/router/utils.rs:112-186 | when a write sends, gives back, ignores or disconnects, and the deque each of these leaves |
| `Replay.RefusedIff` | src/protocol/command.rs:1560-1570 | a write is refused exactly if there is a limit on attempts and the command has used them up |
| `Replay.ShutdownHandsBackIff` | src/router/utils.rs:190-216 | a reader that stops gives the command the router waits for back exactly if it is the oldest in flight and has attempts left, and tells its caller otherwise |
| `Replay.FailedWriteTellsIff` | src/router/utils.rs:165-182 | a write disconnects exactly if the socket fails with a command to pop, and its caller is told exactly without a reconnect policy or attempts left |
| `Replay.EveryRunSavesRetryable` | src/protocol/command.rs:1550-1552 | in every run a command whose write failed is kept only if a reconnect policy is set and it has attempts left |
| `Replay.FailedWriteAnswersIff` | src/router/utils.rs:165-182 | in every run a failed write answers the popped command exactly if it cannot be sent again, and keeps it to be saved otherwise |
| `Replay.ReplayKeepsTheRestIff` | src/router/mod.rs:958-1012 | contrary to its documentation, the replay drops the commands after a failed write: nothing is dropped exactly if the write does not disconnect or the command was the last one |
| `Replay.ReplayCanLoseACommand` | src/router/mod.rs:958-1012 | a run in which two commands are in flight when the connection closes and the second is dropped by the replay |
| `Replay.ShutdownKeepsTheFrontIff` | src/router/utils.rs:190-216 | a reader that stops discards no command exactly unless the oldest one holds a router channel that the router does not wait on |
| `Replay.HeardRunKeepsTheFront` | src/router/utils.rs:190-216 | in every run in which each blocking write reaches the socket, no command holds such a channel and no reader discards a command |
| `Replay.ShutdownCanLoseACommand` | src/router/utils.rs:190-216 | a run in which a blocking write fails, its command is replayed, and the reader discards it |
| `Replay.Router.BufferCommands` | src/router/mod.rs:846-861 | the commands go behind the retry buffer in order |
| `Replay.Router.WriteCommand` | src/router/utils.rs:112-186 | push, write and pop compute the deque and the result that the protocol uses |
| `Replay.Router.DisconnectAll` | src/router/mod.rs:826-831 | the writer is gone, and what its reader left in the deque, after answering what it still could, is behind the retry buffer |
| `Replay.Router.GiveUp` | src/router/mod.rs:978-1012 | after a failed resend the buffer is its old content, the commands left in flight, then the failed command |
| `Replay.Router.ReaderActs` | src/router/centralized.rs:76-80 | the reader answers some commands off the front and may stop, leaving the deque its shutdown leaves |
| `Replay.Router.RetryBuffer` | src/router/mod.rs:954-1013 | with the reader answering and stopping between the writes, the replay loop follows the resend steps in order and ends in the state the protocol's steps lead to |
| `WriteLoop.RunLoop` | src/router/commands.rs:85-226 | the loop around one command computes the trace of its passes, for any pass |
| `WriteLoop.WriteWithBackpressure` | src/router/commands.rs:85-226 | the write loop computes the trace of its passes, and with a limit stays within max - attempted + 1 passes and max - attempted frames |
| `WriteLoop.WriterCounts` | src/protocol/command.rs:1560-1570 | every pass that is not the last uses up an attempt, and a frame is written only while attempts are left |
| `WriteLoop.CountingBoundsTheLoop` | src/protocol/command.rs:1560-1570 | any loop whose passes do that ends within those bounds |
| `WriteLoop.AttemptsBoundTheLoop` | src/router/commands.rs:85-226 | with a limit, through any mix of backpressure, ASK, MOVED and closed connections, the loop ends after at most max - attempted + 1 passes and writes at most max - attempted frames |
| `WriteLoop.EveryEndHasItsCause` | src/router/commands.rs:85-226 | wherever the loop leaves the command, its last pass had a cause for it: it is left nowhere only if its channel was dropped or the recovery failed, and buffered only without a working connection |
| `WriteLoop.PassIsExplained` | src/router/commands.rs:85-226 | exactly what a pass does by what it meets: when it writes the frame, when another pass follows and with what command, and where the command is left otherwise |
| `WriteLoop.EveryPassHasItsCause` | src/router/commands.rs:85-226 | along the whole loop, a pass is followed by another exactly if it was held back by backpressure, or written and redirected or cut off with a repair that worked; the last one leaves the command where its cause demands |
| `WriteLoop.AcknowledgedOnce` | src/router/commands.rs:39-41 | a command with attempts left on a healthy connection that answers it is written once |
| `WriteLoop.RedirectsUseEveryAttempt` | src/router/commands.rs:47-56 | the bound is reached by a command that is redirected every time |
| `WriteLoop.NoLimitNoEnd` | src/protocol/command.rs:1560-1570 | with a limit of 0 nothing ends such a loop |
| `WriteLoop.DrainStarvesUnpipelined` | src/router/mod.rs:93-105 | under the Drain policy a command that is not pipelined does not wait: over the limit it is never written, and uses up its attempts |
| `WriteLoop.DrainHoldsPipelinedOnce` | src/router/mod.rs:93-105 | after its wait a pipelined command is written, or ends because its attempts are used up or it cannot be encoded |
| `WriteLoop.DrainWritesIff` | src/router/mod.rs:93-105 | on a connection that stays over its limit a new command is written exactly if it is pipelined, has an attempt left after the one its wait uses up, and can be encoded |
| `WriteLoop.FollowRedirect` | src/router/commands.rs:280-363 | the ASK and MOVED loops compute the trace of their passes and obey the same bound |
| `WriteLoop.AttemptsBoundTheRedirects` | src/router/commands.rs:280-363 | those loops obey the same bound |
| `WriteLoop.EveryRedirectHasItsCause` | src/router/commands.rs:280-363 | those loops try again exactly if the target could not be reached with attempts left, and end with the command in flight at the target or its caller told |
| `Routing.SortingSorts` | src/protocol/types.rs:418-419 | the sorted table is a permutation of the ranges received, with increasing starts |
| `Routing.SortingMakesAscending` | src/protocol/types.rs:418-419 | a disjoint table, sorted by start, has each range before the next |
| `Routing.SortingKeepsRoutes` | src/protocol/types.rs:412-437 | sorting does not change what a linear scan finds |
| `Routing.BinarySearch` | src/protocol/utils.rs:86-113 | with wrapping indices the search ends, returns only a covering range, and on an ascending table misses none |
| `Routing.ServersCompare` | src/protocol/types.rs:206-215 | the order on servers is total and strict |
| `Routing.ServersChain` | src/protocol/types.rs:206-215 | the order on servers is transitive |
| `Routing.PrimariesAreInOrder` | src/protocol/types.rs:401-409 | the unique primaries are in server order and are exactly the primaries of the ranges |
| `Routing.StartsBelong` | src/protocol/types.rs:390-398 | the unique hash slots belong to the unique primaries one by one, each the start of one of its primary's ranges |
| `Routing.HashSlotsLeadToPrimaries` | src/protocol/types.rs:390-409 | on a disjoint table, looking up the unique hash slots by linear scan gives the unique primaries in the same order, without repeats |
| `Routing.LookUpUniqueHashSlots` | src/protocol/types.rs:390-437 | after a rebuild with disjoint ranges, `get_server` takes each of the unique hash slots to the unique primary at the same place |
| `Routing.ClusterRouting.Rebuild` | src/protocol/types.rs:412-423 | the new table is a permutation of the ranges received, ascending if they are disjoint |
| `Routing.ClusterRouting.GetServer` | src/protocol/types.rs:431-437 | on an ascending table the lookup agrees with the linear scan, and on any table it returns only primaries of covering ranges |
| `Routing.ClusterRouting.UniqueHashSlots` | src/protocol/types.rs:390-398 | the loop computes the slot of each unique primary |
| `Routing.ClusterRouting.UniquePrimaryNodes` | src/protocol/types.rs:401-409 | the loop computes the ordered set of primaries |
| `Routing.RebuildThenLookUp` | src/protocol/types.rs:412-437 | a lookup after a rebuild gives what a linear scan of the ranges as received gives |
| `ClusterSync.Cluster.ParseClusterChanges` | src/router/clustered.rs:146-162 | exactly the missing primaries are to be added and exactly the unused connections removed, both in server order |
| `ClusterSync.Cluster.DropUnused` | src/router/clustered.rs:601-612 | the removed connections are gone and their commands are appended to the retry buffer in server order |
| `ClusterSync.FlattenKeepsPlaces` | src/router/clustered.rs:601-612 | in the retry buffer the commands of each removed connection stand together and in order, after those of the connections before it |
| `ClusterSync.Cluster.ConnectMissing` | src/router/clustered.rs:613-628 | all missing connections are opened, or the first failure ends the sync; others are untouched |
| `ClusterSync.Cluster.Sync` | src/router/clustered.rs:578-642 | on success the connections are exactly the primaries of the new table, both tables are equal and ascending if the ranges are disjoint, every range's primary is connected, and the commands of removed connections are saved; every failure leaves a stated state |
| `ClusterSync.Cluster.Route` | src/protocol/types.rs:431-437 | when every range's primary is connected, a server `get_server` finds is connected, and on an ascending table it finds one exactly for the covered slots |
| `ClusterSync.EverySlotHasAConnection` | src/router/clustered.rs:24-42 | if all primaries are connected, every covered slot leads to a connection |
| `ClientTransaction.Transaction.SendCommand` | src/clients/transaction.rs:71-141 | a command is queued or refused as the recorded slot and the table demand, and all keyed commands keep one owner |
| `ClientTransaction.CheckDecides` | src/clients/transaction.rs:113-141 | exactly when a command is refused and why, and which slot is recorded |
| `ClientTransaction.Transaction.Exec` | src/clients/transaction.rs:172-258 | the queue and the slot are taken, and every command is routed by the slot |
| `ClientTransaction.QueueThenExec` | src/clients/transaction.rs:71-258 | after any history of commands on a clustered transaction, the server chosen from the first prepared command owns the slot of every keyed command accepted |
| `ClientTransaction.EveryRunIsTraced` | src/clients/transaction.rs:113-141 | in every interleaving of clones each recorded or seen slot comes from a command that found none |
| `ClientTransaction.RunAgreesIff` | src/clients/transaction.rs:113-141 | a run of clones ends in agreement exactly if those that found no recorded slot agree |
| `ClientTransaction.ClonesAgreeIff` | src/clients/transaction.rs:113-141 | clones that queue commands at the same time agree on one owner in every run exactly if all their commands have the same owner to begin with |
| `ClientTransaction.ClonesCanDisagree` | src/clients/transaction.rs:113-141 | for any two commands with different owners, a run in which both are accepted |
| `Values.RoundTrip` | src/protocol/utils.rs:462-521 | every frame of a value, at any depth and in any map order, decodes to that value up to byte strings that are text |
| `Values.NormIsIdentityIff` | src/protocol/utils.rs:341-347 | that normal form is the value itself exactly if no byte string inside is text |
| `Values.ExactRoundTripIff` | src/protocol/utils.rs:462-521 | the round trip gives the very same value exactly if no byte string inside is text |
| `Values.ValueToFrame` | src/protocol/utils.rs:746-786 | the result encodes the value |
| `Values.FrameToResultsRaw` | src/protocol/utils.rs:462-521 | the recursive loops give the value the frame stands for, or the first error inside it |
| `Values.DecodesIffStands` | src/protocol/utils.rs:462-521 | at every depth a frame of any kind decodes to the value it stands for, and to nothing else: strings to their own bytes, arrays, pushes and sets to their items, maps to the last entry of each key |
| `Values.DecodeFailsIff` | src/protocol/utils.rs:462-521 | decoding fails exactly if an error, an unknown frame or an unusable key is somewhere inside, with the first one in order as its error |
| `Values.KeyAgrees` | src/protocol/utils.rs:530-582 | which frames are usable as map keys, with their bytes, and why the others are not |
| `Values.DigitsAreDecimal` | src/types/args.rs:253-255 | a number as a key is printed with decimal digits that stand for it, without leading zeros |
| `Values.DecimalHasItsSign` | src/types/args.rs:253-255 | a negative number is its digits after a sign, which no other number has |
| `Values.StandsWellFormed` | src/protocol/utils.rs:341-347 | whatever a frame decodes to holds only UTF-8 in its strings |
| `Frames.ValidIffEncoded` | src/protocol/utils.rs:341-347 | a byte string counts as text exactly if it is the UTF-8 encoding of some code points |
| `Values.DecodesEntries` | src/protocol/utils.rs:500-511 | a map decodes key by key, whatever the order of its entries |
| `Stats.Recurrence` | src/modules/metrics.rs:65-66 | one step of Welford's recurrence, on numbers |
| `Stats.DeviationAdds` | src/modules/metrics.rs:65-66 | the update adds exactly what a new sample adds to the sum of squared deviations from the mean |
| `Stats.MovingStats.Sample` | src/modules/metrics.rs:49-75 | after any samples the fields are the mean, the sum of squared deviations, the variance, the extrema, the count and the wrapped sum of all samples since the last reset |
| `Stats.MovingStats.Reset` | src/modules/metrics.rs:77-87 | the fields describe no samples |
| `Stats.MovingStats.TakeMetrics` | src/modules/metrics.rs:93-97 | the snapshot describes the samples so far, and the fields are reset |
| `Stats.AgreesIff` | src/modules/metrics.rs:53-53 | the average times the count is the sum exactly if the sum fits 64 bits |
| `Stats.Observe` | src/modules/metrics.rs:33-97 | a batch of samples is described by the snapshot taken after it |
| `Reconnect.DelayIsIdeal` | src/types/config.rs:161-210 | saturating arithmetic gives the delay of the formula over unbounded numbers |
| `Reconnect.DelaysGrow` | src/types/config.rs:161-210 | the first delay is the configured one, the next one stays, grows by that much or is multiplied, the jitter comes on top, and the limit cuts it off |
| `Reconnect.ReconnectPolicy.NextDelay` | src/types/config.rs:161-210 | a delay exists exactly if the client should reconnect, a limit is never exceeded, and the delay is the ideal one for the new attempt number, which is at least 1 |
| `Reconnect.ReconnectPolicy.ResetAttempts` | src/types/config.rs:116-128 | the attempts are back at 0 |
| `Reconnect.ReconnectWithPolicy` | src/router/utils.rs:294-359 | with a limit at most max - attempts connections are tried; success resets the attempts; after all tries have failed the last error is returned, and only a closing client gives another |
| `Replicas.ReplicaSet.Add` | src/router/replicas.rs:121-127 | the replica is listed once, other primaries are untouched, and all lists stay non-empty and duplicate-free |
| `Replicas.ReplicaSet.Remove` | src/router/replicas.rs:130-138 | the replica is gone, an emptied primary is gone too, and all lists stay non-empty and duplicate-free |
| `Replicas.ReplicaSet.NextReplica` | src/router/replicas.rs:141-146 | the counter moves on, wrapping, and picks by its remainder, which is never taken by zero |
| `Replicas.ReplicaSet.NextReplicas` | src/router/replicas.rs:141-146 | calls in a row follow the counter |
| `Replicas.SmoothIsFair` | src/router/replicas.rs:141-146 | a round in which the counter does not wrap, or wraps without a jump, reaches each index once |
| `Replicas.RoughIsUnfair` | src/router/replicas.rs:141-146 | in any other round two picks coincide |
| `Replicas.RoundReachesEachOnceIff` | src/router/replicas.rs:141-146 | as many calls in a row as replicas pick each replica exactly once if and only if the counter passes the end of its word smoothly |
| `Replicas.WrapCanBeUnfair` | src/router/replicas.rs:141-146 | with three replicas and the counter at its last value but one the round is not fair |

## Left out

- Sockets, TLS, DNS, timers and tokio tasks: their outcomes are steps or environment answers.
- Encoding of frames on the wire and the key slot hash: frames are a datatype, and a command comes with its slot.
- The table of command kinds: only what the modelled code asks of a kind is kept (unsubscribe, all nodes, pipelined, silent).
- Wake-ups of the router when a connection closes: only safety is stated, since the reader wakes the router only if the oldest command in flight holds its channel.
- Termination of transactions under endless redirections or a server that is never found: those restarts have no bound in the code.
- Pipelines with multi-reply commands: the expected number of frames and the indices are meant for single-reply commands.
- All-nodes commands in the write loop: they are written once and never retried; their shared responder is modelled in `Responder.dfy`.
- The replica write path, replica connections and the filter on replicas.
- Sentinel discovery, host name rules of CLUSTER SLOTS, URL parsing, MONITOR, pub/sub messages, tracing and metrics plumbing.
- The standard deviation: it is the square root of the variance, which is modelled.
- Rounding, NaN and infinities of floating point numbers: reals stand for them, in statistics and in values.
- Watched keys: the code does not check their slots, and the model of the client's transaction has none.
- Connection.EveryReplyReachesItsCommand: asks that no reply looks like an unsubscribe notice, that no notice of an argument-less unsubscribe arrives while an unsubscribe command is the oldest in flight, and that no argument-less unsubscribe fails with others in flight; the lemmas named above show that all three are needed.
- Backpressure.UnansweredIsBounded: asks that fewer commands were submitted than a word can count, or that the limit, the commands that skip backpressure and the argument-less unsubscribes leave room in a word, since the counter wraps there.
- Replay.EveryCommandIsAccountedFor: a command that is not part of a pipeline and finds no connection ends the router task, which is a step of its own right after the write.
- Replay.Router.RetryBuffer: is called right after a connection was made, and asks for one.
- ClusterSync.Cluster.DropUnused: a closed connection's commands are those its reader left, whatever it answered before.
- Reconnect.ReconnectPolicy.NextDelay: asks for a jitter above 0, since the random range is empty otherwise and the code panics.
- Routing.BinarySearch: asks for fewer ranges than a vector can hold.
- Stats.MovingStats.Sample: the number of samples is unbounded.
- Values.FrameToResultsRaw: how a float is printed as a map key is a parameter; map keys made by the encoder are never floats.
