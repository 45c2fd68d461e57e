# 9nFL protocol proofs

A Dafny model of the three pipelines of 9nFL that two training parties run against each other, with proofs of what
each of them guarantees over whole runs. `dafny verify dfyconfig.toml` checks everything.

**The training-message bridge** (`Bridge*.dfy`). `BridgeSender` has the agent's in-flight deque and map, its retry
heap, the resend loop's hand and the channel flag; `BridgeReceiver` the sequence check, the link guard and the one-slot
mailboxes. Each method is one critical section and is tied to a function on values. `BridgeProtocol` composes these
functions with a network that loses, delays and duplicates, and with readers whose timeouts race with arrivals, and
proves that the whole refines one first-in first-out queue per tensor name. `BridgeProgress` says what the bridge takes
and how it answers repetitions over whole runs, and `BridgeDrain` when everything can still come through.

**ECDH-PSI** (`Psi*.dfy`, `Dispatch.dfy`). `PsiBatches` and `PsiStore` are the batch loops, the byte layout and the
store of one party; `PsiFlow` interleaves the four threads of each party over throttled channels and proves the result,
freedom from deadlock and a bound on every run, with every message passing through the wire format; `PsiSession` adds
the curve operation and the hash as function parameters, with commutation (the role section 6.1 of RFC 7748 gives it),
injectivity and one cipher width on the session's ids as hypotheses; `PsiHandshake` is the negotiation and what a
session after it gives; `PsiBuckets` shows that bucket by bucket equals all at once; `Dispatch` is the block dispatcher
with one party's run loop, and two such parties side by side; `PsiRun` puts partition, run loop and sessions together.

**The data join** (`DataBlocks.dfy`, `BlockManager.dfy`, `MetaBuffer.dfy`, `BlockMaker.dfy`, `DataJoiner.dfy`,
`JoinerFaults.dfy`, `ExampleIds.dfy`, `BlockSaver.dfy`, `DataJoinRun.dfy`). The leader's id batches, the follower's
streaming join into bounded blocks with and without file errors, the index machine with its binary search and its
renames that fail before or after the fact, the leader's buffer and save loop, and finally both parties together, with
the follower's meta buffer, duplicated and reordered metas, file errors on both sides, and restarts of either side.

A class stands for each object of the program that changes in place; its methods promise their whole new state by
functions on values, and the lemmas are about those functions. The environment appears as parameters of methods and
as nondeterministic steps: stream and rename outcomes, message loss, timeouts, the time-span clock, what ray.wait brings.

## Findings

Where the code does something a reader would not expect, the model follows the code:

- `result_to_rank == 0` still gives the result to rank 1 and not to rank 0 (`PsiHandshake.NamedRankReceives`). The
  callers in `api.py` only ask for -1 or rank 1.
- Completions must fire in send order: the callback erases its own map entry but pops whatever is at the front of the
  deque (`BridgeSender.PopOtherOutOfStep`).
- A message of unknown kind is accepted from the caller but never by the receiver, and nothing behind it ever arrives
  (`BridgeDrain.CanArriveIff`).
- Equal cipher widths are necessary, not only sufficient, for the wire format (`PsiBatches.WireRoundTrip`).
- The bucket column is a signed 16-bit number, so more than 32768 buckets work only when no row's bucket exceeds 32767
  (`PsiBuckets.RepartitionPutsRowsInBuckets`, `PsiBuckets.LargeCountsFail`).
- `run_app` without blocks or without actors has no task to wait for, and it leaves its loop only after a finished
  task, so it never completes (`Dispatch.RunApp`). Parties with different block counts cannot both finish
  (`Dispatch.FinishNeedsEqualCounts`). An empty input table fails in the partition (`PsiRun.RunPsi`).
- The joiner's finished flag is set only if a block is open when the finished batch ends or is closed by it; otherwise
  the loop never ends (`DataJoiner.JoinedIsFiltered`, `DataJoiner.UnfinishedSpins`).
- Id batches hold 2049 ids, one more than the configured 2048 (`ExampleIds.IdBatchesCarryAll`), and a repeated
  transmission doubles ids at the follower (`ExampleIds.RepeatedTransmission`).
- The meta buffer evicts its newest entry, so a lookup fails with KeyError exactly when the buffer is full and the entry
  is not in it. After more than 1025 blocks in one process the blocks from 1024 to the last but one cannot be looked up
  any more (`MetaBuffer.LaterBlocksAreLost`). A leader that needs them by then, because they were never sent or because
  it restarted before it had stored them, can catch up only after a restart of the follower
  (`DataJoinRun.CanCatchUpIff`, `DataJoinRun.LargeJoinStrands`, `DataJoinRun.RestartStrands`,
  `DataJoinRun.RestartsCatchUp`).
- The handler around the leader's block maker passes the error's text to `traceback.print_exc`, whose first parameter is
  a number of stack entries, and so raises a TypeError of its own. It is meant to swallow an error, but every failed
  pass leaves the saving round with its switch set (`BlockSaver.FaultEndsRound`), and the next round begins with the
  cleanup that makes good whatever went wrong (`BlockSaver.NextRoundRecovers`).
- A follower's finalizer that fails keeps its maker. Unless the data file still has its temporary name, every later
  attempt to finish that block fails as well, and nothing more is joined until a restart
  (`JoinerFaults.ResumesIff`, `JoinerFaults.NothingMoreJoined`).

## Model

| member | source | states |
|---|---|---|
| `BridgeSender.RpcBridgeAgent.constructor` | src/Trainer/rpc/rpc_bridge/rpc_bridge_agent.cc:755-781 | a new agent is active with nothing in flight, nothing to retry and nothing in hand |
| `BridgeSender.RpcBridgeAgent.StreamingRequestEnqueue` | src/Trainer/rpc/rpc_bridge/rpc_bridge_agent.cc:528-697 | accepts exactly when the channel flag is set and the stream takes the request; then deque and map get this message, otherwise the agent is exactly as before, also when the entry had already been inserted; deque and map stay in step |
| `BridgeSender.RpcBridgeAgent.OnExchangeCompleted` | src/Trainer/rpc/rpc_bridge/rpc_bridge_agent.cc:564-578 | a completion for an unknown response changes nothing; one for the front takes out the front message; one for any other response leaves deque and map out of step, which is why completions must come in send order |
| `BridgeSender.InStepSizes` | src/Trainer/rpc/rpc_bridge/rpc_bridge_agent.cc:776-778 | deque and map in step hold equally many entries |
| `BridgeSender.PopOtherOutOfStep` | src/Trainer/rpc/rpc_bridge/rpc_bridge_agent.cc:574-577 | erasing one key and dropping the front leaves deque and map out of step for every key but the front's |
| `BridgeSender.RpcBridgeAgent.DeactivateForRetry` | src/Trainer/rpc/rpc_bridge/rpc_bridge_agent.cc:612-613 | a completion that will be retried clears the channel flag before the retry queue is touched |
| `BridgeSender.RpcBridgeAgent.FinishExchange` | src/Trainer/rpc/rpc_bridge/rpc_bridge_agent.cc:596-619 | SUCCESS and MESSAGE_DUPLICATED free the message; anything else adds exactly this message to the retry heap |
| `BridgeSender.TopIsLowest` | src/Trainer/rpc/rpc_bridge/rpc_bridge_agent.cc:762-772 | under the inverted comparison the priority queue's top is a lowest-numbered message |
| `BridgeSender.RpcBridgeAgent.PopReexchange` | src/Trainer/rpc/rpc_bridge/rpc_bridge_agent.cc:188-199 | pops exactly when the heap is not empty, and what it takes into hand is a lowest-numbered message, removed once |
| `BridgeSender.RpcBridgeAgent.SendHeld` | src/Trainer/rpc/rpc_bridge/rpc_bridge_agent.cc:208-228 | a resend attempt starts only when the stream takes it |
| `BridgeSender.RpcBridgeAgent.OnHeldCompleted` | src/Trainer/rpc/rpc_bridge/rpc_bridge_agent.cc:230-271 | only SUCCESS and MESSAGE_DUPLICATED release the held message |
| `BridgeSender.RpcBridgeAgent.ReopenChannel` | src/Trainer/rpc/rpc_bridge/rpc_bridge_agent.cc:280-281 | sets the channel flag and nothing else |
| `BridgeReceiver.RpcBridgeRecvCache.OnReceived` | src/Trainer/rpc/rpc_bridge/rpc_bridge_agent.cc:959-1024 | refuses exactly unknown kinds and a data message whose mailbox is full, leaving every mailbox unchanged; otherwise stores the message, fills no other mailbox and notifies a waiting reader |
| `BridgeReceiver.RpcBridgeRecvCache.BeginQueryResult` | src/Trainer/rpc/rpc_bridge/rpc_bridge_agent.cc:804-827 | takes a stored message at once, or registers the reader's notification |
| `BridgeReceiver.RpcBridgeRecvCache.EndQueryResult` | src/Trainer/rpc/rpc_bridge/rpc_bridge_agent.cc:829-847 | after the wait, takes the message when notified or when one arrived in the meantime, and always clears the registration |
| `BridgeReceiver.RunStepStats.constructor` | src/Trainer/rpc/rpc_bridge/rpc_bridge_mgr.h:60-61 | the counters start at 0, 1 and 0 |
| `BridgeReceiver.RunStepStats.CommitToNextSeqNum` | src/Trainer/rpc/rpc_bridge/rpc_bridge_mgr.h:90-95 | moves the send number to the next one and returns it |
| `BridgeReceiver.RunStepStats.NextRecvSeqNum` | src/Trainer/rpc/rpc_bridge/rpc_bridge_mgr.h:102-105 | advances the receive number by one and returns it |
| `BridgeReceiver.RpcBridgeAgentService.StreamTransmitHandler` | src/Trainer/rpc/rpc_bridge/rpc_bridge_agent_service.cc:258-319 | no answer while the link is down; otherwise MESSAGE_DUPLICATED below the expected number, MESSAGE_MISSING above it, and at it UNKNOWN_ERROR exactly for an unknown kind or a full data mailbox and else SUCCESS, with the next number announced; only SUCCESS moves the counter and the mailboxes |
| `BridgeReceiver.RpcBridgeAgentService.ConnectHandler` | src/Trainer/rpc/rpc_bridge/rpc_bridge_agent_service.cc:460-496 | before training a matching request, and no other, brings the link up; a request after that takes it down |
| `BridgeProtocol.StepKeepsInv` | src/Trainer/rpc/rpc_bridge/rpc_bridge_agent.cc:545-694 | every critical section of sender, network, receiver and readers keeps the protocol invariant |
| `BridgeProtocol.ReachableInv` | src/Trainer/rpc/rpc_bridge/rpc_bridge_agent_service.cc:277-316 | the invariant holds after every run |
| `BridgeProtocol.DeliveryIsPrefix` | src/Trainer/rpc/rpc_bridge/rpc_bridge_agent_service.cc:277-316 | with lost requests and replies, late duplicates, refusals, resets and resends, what a name's reader has been handed is a prefix of what was enqueued under that name |
| `BridgeProtocol.MailboxConservation` | src/Trainer/rpc/rpc_bridge/rpc_bridge_agent.cc:794-849 | across any race of timeout, notification and arrival, the messages accepted under a name are those handed out, in order, followed by the one waiting in the mailbox, if any |
| `BridgeProtocol.LinkDownIsFinal` | src/Trainer/rpc/rpc_bridge/rpc_bridge_agent_service.cc:265-273 | once the link is down after training started it stays down and nothing is accepted any more |
| `BridgeProtocol.NothingIsLost` | src/Trainer/rpc/rpc_bridge/rpc_bridge_agent.cc:188-273 | once the sender holds nothing and the mailbox is empty, the reader has everything |
| `BridgeProtocol.SenderConservation` | src/Trainer/rpc/rpc_bridge/rpc_bridge_agent.cc:545-694 | every accepted message is in exactly one of flight, callback, retry heap, hand and resolved; retries are numbered below everything in flight; resolved numbers are below the receiver's expected number |
| `BridgeProtocol.HeldIsLowest` | src/Trainer/rpc/rpc_bridge/rpc_bridge_agent.cc:188-199 | every number below the held message's is resolved |
| `BridgeProtocol.ResendIsNeverMissing` | src/Trainer/rpc/rpc_bridge/rpc_bridge_agent.cc:201-273 | a resend is never answered MESSAGE_MISSING, and is repeated exactly after a transport error or an UNKNOWN_ERROR |
| `BridgeProtocol.RefinesQueue` | src/Trainer/rpc/rpc_bridge/rpc_bridge_agent.cc:794-849 | for every name each step is a push by the caller, a pop of the oldest message by the reader, or invisible: the bridge refines one first-in first-out queue per name, so no message is overwritten or handed out twice |
| `BridgeProgress.EnqueueTakesIff` | src/Trainer/rpc/rpc_bridge/rpc_bridge_agent.cc:528-537 | a message is taken, as the newest in flight and under the next number, exactly when the channel flag is set and the stream takes it; otherwise nothing changes |
| `BridgeProgress.InactiveTakesNothing` | src/Trainer/rpc/rpc_bridge/rpc_bridge_agent.cc:533-537 | over any run in which the flag is clear and not set again, nothing is taken from the caller: history, numbers and what is in flight do not grow, and every new attempt is a resend |
| `BridgeProgress.OldNumbersAreDuplicated` | src/Trainer/rpc/rpc_bridge/rpc_bridge_agent_service.cc:300-304 | once the receiver has moved past an attempt's number, every answer to that attempt from then on, in any run, is MESSAGE_DUPLICATED |
| `BridgeProgress.RepeatIsSettled` | src/Trainer/rpc/rpc_bridge/rpc_bridge_agent.cc:248-256 | so a resend whose first delivery was accepted while the reply was lost is freed by the answer to it |
| `BridgeDrain.CanComeToRest` | src/Trainer/rpc/rpc_bridge/rpc_bridge_agent.cc:188-281 | from every state of every run with a usable link and no unknown message ahead, using nothing of what is on the wire, some continuation delivers everything taken, frees it at the sender, empties every mailbox and reopens the channel |
| `BridgeDrain.CanArriveIff` | src/Trainer/rpc/rpc_bridge/rpc_bridge_agent_service.cc:258-319 | what was taken from the caller can still arrive if and only if it has been received already, or the link is up or can come up and no message still to be received is of unknown kind |
| `PsiBatches.BatchesCarryEverything` | src/PSI/psi/interconnection_psi/flow.py:45-77 | batches are numbered consecutively, only the final one has the last flag, all others are full, none is empty unless the list is, and joined they are the whole list |
| `PsiBatches.CalcucipherAndSend` | src/PSI/psi/interconnection_psi/flow.py:45-77 | the send loop produces exactly those batches of the encrypted ids, a single empty one for an empty list |
| `PsiBatches.PointOctetUnmarshal` | src/PSI/crypto/src/curve.rs:121-141 | cuts the data into count blocks of len / count bytes, in order; none for count 0 |
| `PsiBatches.WireRoundTrip` | src/PSI/crypto/src/curve.rs:121-141 | unmarshalling joined ciphers with their count gives the same list if and only if all ciphers have one width |
| `PsiBatches.BatchSurvives` | src/PSI/crypto/src/curve.rs:121-141 | a batch arrives as it was sent if and only if its ciphers have one width |
| `PsiStore.CipherStore.constructor` | src/PSI/psi/interconnection_psi/cipher_store.py:25-31 | an empty store |
| `PsiStore.CipherStore.CalcuAddPeerCipher` | src/PSI/psi/interconnection_psi/cipher_store.py:33-44 | queues the re-encrypted batch, behind a sentinel when it is the last, and for a receiving party adds its ciphers to the peer set and raises the event after the last |
| `PsiStore.CipherStore.SendDualenc` | src/PSI/psi/interconnection_psi/cipher_store.py:46-70 | while the other thread fills the queue, takes any number of batches from it and sends each once, in order, the last flag exactly on the one behind the sentinel |
| `PsiStore.CipherStore.Get` | src/PSI/psi/interconnection_psi/cipher_store.py:50-54 | each get returns the next element of everything put into the queue so far |
| `PsiStore.CipherStore.RecvDuaencLocalCipher` | src/PSI/psi/interconnection_psi/cipher_store.py:72-78 | appends the positions, counted over all batches so far, of the received ciphers that are in the peer set |
| `PsiStore.MatchesAppend` | src/PSI/psi/interconnection_psi/cipher_store.py:72-78 | matching batch after batch is matching the whole list at once |
| `PsiStore.MatchesAreThePositions` | src/PSI/psi/interconnection_psi/cipher_store.py:72-78 | the matches ascend and are exactly the positions whose cipher is in the set |
| `PsiFlow.StoreBatchIsCalcuAdd` | src/PSI/psi/interconnection_psi/cipher_store.py:33-44 | the receiving thread's small steps together do to queue, set and event what the store's method does |
| `PsiFlow.StepKeepsInv` | src/PSI/psi/interconnection_psi/flow.py:91-118 | every step of every thread of both parties keeps the session invariant |
| `PsiFlow.ReachableInv` | src/PSI/psi/interconnection_psi/flow.py:91-118 | the invariant holds after every interleaving |
| `PsiFlow.NeverStuck` | src/PSI/psi/interconnection_psi/flow.py:91-118 | for every positive throttle window, a reachable session is finished or has an enabled step |
| `PsiFlow.StepLowersWork` | src/PSI/psi/interconnection_psi/flow.py:91-118 | each step lowers the remaining work |
| `PsiFlow.RunsAreBounded` | src/PSI/psi/interconnection_psi/flow.py:91-118 | so no run is longer than the work at its start |
| `PsiFlow.FinishedMatches` | src/PSI/psi/interconnection_psi/cipher_store.py:46-78 | when all threads have returned, a receiving party's index list is the match of its dual ciphers against the complete peer set |
| `PsiSession.FlowIsValid` | src/PSI/psi/interconnection_psi/flow.py:45-88 | the plans of any session whose ciphers have one width, for every batch size, are plans of a valid flow, whose messages survive the wire format |
| `PsiSession.DualsInOrder` | src/PSI/psi/interconnection_psi/flow.py:80-88 | the dual ciphers a party gets back are those of its own ids, in its own order |
| `PsiSession.DualsIntersect` | src/PSI/psi/interconnection_psi/cipher_store.py:72-78 | under commutation and injectivity, matching dual ciphers finds exactly the common ids |
| `PsiSession.SessionResult` | src/PSI/psi/interconnection_psi/flow.py:91-124 | for every interleaving, batch size and window, with every message joined and cut up again on the wire, a finished receiving party holds exactly the ascending positions of its ids that occur in the peer's input |
| `PsiHandshake.Intersection` | src/PSI/psi/interconnection_psi/base.py:48-64 | the list case keeps exactly the first list's members that all other lists have, in order |
| `PsiHandshake.Context.constructor` | src/PSI/psi/interconnection_psi/config.py:28-83 | a party proposes exactly one value for everything negotiable and starts with no duties |
| `PsiHandshake.Context.ResetFromResponse` | src/PSI/psi/interconnection_psi/config.py:109-116 | a party sends and receives dual ciphers as its own rank and its own request say |
| `PsiHandshake.Context.NegotiateHandshake` | src/PSI/psi/interconnection_psi/config.py:124-214 | refuses with the first thing in its order the requests cannot agree on, and otherwise answers with this party's own values, which are in every proposal of both |
| `PsiHandshake.ProblemMeans` | src/PSI/psi/interconnection_psi/config.py:124-214 | on the lists of an arbitrary peer request: agreement exactly when version, algorithm, data version, family, receiver and every curve proposal's versions, suites and formats fit, and which refusal each missing item gives |
| `PsiHandshake.SameProposalsAgree` | src/PSI/psi/interconnection_psi/config.py:124-214 | two requests of this repository agree exactly when they propose the same suite, the same format and the same receiver of the result |
| `PsiHandshake.Context.NegotiateCurve` | src/PSI/psi/interconnection_psi/config.py:159-210 | agrees exactly when versions, suites and formats are common to all proposals and not all of them ask for truncation |
| `PsiHandshake.DutiesFit` | src/PSI/psi/interconnection_psi/config.py:147-149 | once both agree on who gets the result, one party sends dual ciphers exactly when the other receives them |
| `PsiHandshake.NamedRankReceives` | src/PSI/psi/interconnection_psi/config.py:109-116 | the named rank gets the result if and only if rank 0 is not named |
| `PsiHandshake.TakenIds` | src/PSI/psi/interconnection_psi/flow.py:118-124 | the ids at the taken positions are, as a set, the common ids, without repetition if the input has none |
| `PsiHandshake.BothPartiesAgree` | src/PSI/psi/interconnection_psi/config.py:109-111 | with send-back both results hold the same set of ids, and equally many when neither input repeats one |
| `PsiHandshake.ShakehandFlow` | src/PSI/psi/interconnection_psi/flow.py:27-42 | a handshake of both ranks agrees, on the values proposed, exactly when suite, format and receiver are the same, with send-back as without; then one party sends dual ciphers exactly when the other receives them, and after a refusal neither has duties |
| `PsiHandshake.NegotiatedIsValid` | src/PSI/psi/interconnection_psi/config.py:109-116 | the duties an agreed handshake leads to fit together, whatever the inputs |
| `PsiHandshake.NegotiatedResult` | src/PSI/psi/interconnection_psi/flow.py:27-124 | from an agreed handshake to the result: rank 1 gets its intersection; with send-back rank 0 gets its own and both hold the same ids, otherwise it receives nothing |
| `PsiBuckets.RepartitionPutsRowsInBuckets` | src/PSI/psi_actors.py:455-467 | up to 32768 buckets every row of a nonempty table lands in the bucket of its hash; in general the partition succeeds exactly for a nonempty table all of whose bucket numbers fit 16 bits |
| `PsiBuckets.LargeCountsFail` | src/PSI/psi_actors.py:380-381 | the partition succeeds for every nonempty table if and only if there are at most 32768 buckets; for every larger count some row makes it fail |
| `PsiBuckets.SessionGivesJoined` | src/PSI/psi_actors.py:944-962 | what a session selects is the rows whose hashed id the peer has |
| `PsiBuckets.BucketOfResult` | src/PSI/psi_actors.py:944-962 | a bucket's result is that bucket of the whole result |
| `PsiBuckets.BucketedEqualsWhole` | src/PSI/psi_actors.py:380-387 | the bucket results together are, as a multiset of rows, the whole-input result, for every bucket count |
| `PsiBuckets.FinishedSessionTakes` | src/PSI/psi_actors.py:944-962 | a finished session over the hashed ids of two tables takes what a bucket session is meant to take |
| `PsiBuckets.BucketSessionsEqualOneSession` | src/PSI/psi_actors.py:944-962 | one session per bucket, paired by bucket number, selects the same rows, each as often, as one session on everything |
| `PsiRun.CompleteRunIsWholeResult` | src/PSI/psi_actors.py:455-467 | when all blocks of a run over the partitioned table are complete, the output file holds the rows one session on the whole inputs selects, each as often |
| `PsiRun.RunPsi` | src/PSI/psi_actors.py:1151-1225 | partition, run loop and output put together: there is a result exactly for a nonempty table whose bucket numbers fit the column, at least one actor, and events in which every task finishes before one raises; and it is the whole-input result |
| `Dispatch.BlockDispatchActor.GetNextUnprocessedDataAndUse` | src/PSI/psi_actors.py:630-650 | hands out the lowest block in state INIT with its own data and marks it PREPARED, or nothing when there is none |
| `Dispatch.BlockDispatchActor.ChangeDataStatus` | src/PSI/psi_actors.py:652-659 | sets any status of an existing block and refuses any other number; it does harm exactly when a block already handed out is set back to INIT |
| `Dispatch.StartActors` | src/PSI/psi_actors.py:1179-1184 | actor i starts with block i and that block's data |
| `Dispatch.NextInitIsTaken` | src/PSI/psi_actors.py:634-641 | the dispatched blocks are always a prefix, so the next one is the first not dispatched |
| `Dispatch.Redispatch` | src/PSI/psi_actors.py:1203-1212 | a finished actor gets the next block in its own slot, or its slot leaves the list; no actor ever has two tasks and every index into the shrunken list is right |
| `Dispatch.OnReady` | src/PSI/psi_actors.py:1189-1212 | the finished block's output goes into that block's own slot before the actor gets more work |
| `Dispatch.OnStatusUpdate` | src/PSI/psi_actors.py:652-659 | a late status update, of an actor that began or one that ended, keeps the invariant of the run: no block becomes INIT again |
| `Dispatch.FinishTask` | src/PSI/psi_actors.py:1187-1216 | a finished block is recorded, its output stored and its actor redispatched in one step that keeps the loop's invariant; exactly its own updates are sent |
| `Dispatch.RunApp` | src/PSI/psi_actors.py:1174-1216 | counted on the events alone: as many output slots are filled as tasks finish before the first error; the run completes exactly when all do, and raises exactly when an error of a running task comes first; every filled slot has its own block's output, and blocks are dispatched once each, in order |
| `Dispatch.OnEvent` | src/PSI/psi_actors.py:1186-1216 | one event of the loop: a finished task counts, an error of a running task ends the run, a status update reaches the dispatcher, and a timeout changes nothing |
| `Dispatch.EveryTaskFinishes` | src/PSI/psi_actors.py:1186-1216 | whatever the number of actors, the count reaches the number of blocks when tasks finish one after another |
| `Dispatch.StepKeepsPair` | src/PSI/psi_actors.py:1187-1216 | a completion at one party keeps the invariant of both parties |
| `Dispatch.LowestBlockRuns` | src/PSI/psi_actors.py:630-650 | the lowest block unfinished anywhere is running at every party that still needs it, and can complete there |
| `Dispatch.NeverBlocked` | src/PSI/psi_actors.py:1187-1216 | with equal block counts and any actor counts, both parties are done or some block can complete |
| `Dispatch.CompletionLowersWork` | src/PSI/psi_actors.py:1187-1216 | each completion leaves exactly one block fewer |
| `Dispatch.FinishNeedsEqualCounts` | src/PSI/psi_actors.py:944-962 | both parties finish only with equal block counts |
| `DataBlocks.PresentIsAll` | src/DataJoin/data_join/data_block_saver.py:70-76 | as many ids found as looked for exactly when none is missing, and then they are the same ids in the same order |
| `DataBlocks.OneMore` | src/DataJoin/data_join/data_block_maker.py:63-75 | one more example widens the block's time span just as far as needed |
| `DataBlocks.Earliest` | src/DataJoin/data_join/data_block_maker.py:66-73 | the start time is the least event time of the block |
| `DataBlocks.Latest` | src/DataJoin/data_join/data_block_maker.py:66-73 | the end time is the greatest event time of the block |
| `BlockManager.SearchFindsPrefix` | src/DataJoin/data_join/data_block_manager.py:99-108 | stored files that form a prefix are all found, up to the search's upper end |
| `BlockManager.SearchSavedIndex` | src/DataJoin/data_join/data_block_manager.py:99-108 | at most 54 existence checks lead to a result that exists (or is -1) and whose successor does not (or is out of range) |
| `BlockManager.UpdateKeepsInv` | src/DataJoin/data_join/data_block_manager.py:52-70 | an update succeeds exactly when the rename does, nothing is being saved and the index is the next one, and every other end has its exact condition; it never overwrites a stored meta, and a failed one leaves the saved index alone |
| `BlockManager.SyncMakesExact` | src/DataJoin/data_join/data_block_manager.py:109-118 | after a sync the metas on disk are exactly those of 0..saved |
| `BlockManager.RestartIsExact` | src/DataJoin/data_join/data_block_manager.py:95-108 | a new process finds the same index as a sync would if and only if the search range covers it |
| `BlockManager.RunKeepsStore` | src/DataJoin/data_join/data_block_manager.py:40-70 | through any mix of updates, rename outcomes, syncs and restarts the metas on disk are 0..saved plus possibly the one being saved, and no stored meta ever changes |
| `BlockManager.AcquireFinds` | src/DataJoin/data_join/data_block_manager.py:84-93 | a lookup returns the stored meta, None exactly beyond the saved index, and KeyError exactly when the entry is not buffered and the buffer holds at least 1024; buffered metas always equal those on disk |
| `BlockManager.Bisect` | src/DataJoin/data_join/data_block_manager.py:99-108 | the search loop ends at the boundary the halving leads to, with no more checks than the range has halvings |
| `BlockManager.UpdateKeepsBuffer` | src/DataJoin/data_join/data_block_manager.py:68-69 | an update keeps every buffered meta equal to the one on disk, with the new entry after a success |
| `MetaBuffer.LookupEffect` | src/DataJoin/data_join/data_block_manager.py:84-93 | a lookup that finds its meta adds at most that one entry and drops none; one that fails leaves exactly 1024 entries |
| `MetaBuffer.SavesDropBlocks` | src/DataJoin/data_join/data_block_manager.py:68-69 | after saving blocks in a row the buffer holds the first 1024 and the newest one |
| `MetaBuffer.LaterBlocksAreLost` | src/DataJoin/data_join/data_block_manager.py:120-122 | and then exactly the blocks from 1024 up to the newest cannot be looked up any more |
| `MetaBuffer.FetchKeepsFits` | src/DataJoin/data_join/data_block_manager.py:84-93 | looking up the next index that is not on its way already succeeds if everything left up to some end fits, and then the rest fits exactly if everything did |
| `MetaBuffer.LookupKeepsUnfit` | src/DataJoin/data_join/data_block_manager.py:84-93 | metas that have no room once never get it again by any lookup, counting what it sends as taken care of |
| `MetaBuffer.SavesKeepUnfit` | src/DataJoin/data_join/data_block_manager.py:68-69 | nor by any further saved block |
| `BlockManager.DataBlockManager.constructor` | src/DataJoin/data_join/data_block_manager.py:29-38 | starts from what the search finds; the state is right exactly when the search range covers the stored files |
| `BlockManager.DataBlockManager.SyncSavedDataBlockIndex` | src/DataJoin/data_join/data_block_manager.py:95-118 | the index machine's sync; its assertion on the saving index never fails |
| `BlockManager.DataBlockManager.AcquireProducedDataBlockNumber` | src/DataJoin/data_join/data_block_manager.py:40-43 | the number of blocks on disk |
| `BlockManager.DataBlockManager.RemoveItems` | src/DataJoin/data_join/data_block_manager.py:120-122 | trimming keeps the oldest 1024 entries |
| `BlockManager.DataBlockManager.AcquireDataBlockMetaByIndex` | src/DataJoin/data_join/data_block_manager.py:45-50 | syncs and looks the meta up, negative indices excepted |
| `BlockManager.DataBlockManager.UpdateDataBlockMeta` | src/DataJoin/data_join/data_block_manager.py:52-70 | the index machine's update, for every way the rename can end |
| `BlockMaker.FinalizeStores` | src/DataJoin/data_join/data_block_maker.py:117-136 | a block is finished exactly when nothing fails, one record was written per id and its turn has come; no earlier block is touched, and a meta reaches the disk only together with its records |
| `BlockMaker.FinalizeEnds` | src/DataJoin/data_join/data_block_maker.py:117-136 | which of its six ends a finalizer call comes to, each with its exact condition |
| `BlockMaker.CountMismatchIffMissing` | src/DataJoin/data_join/data_block_maker.py:117-118 | for a party writing the records it has, the count assertion fails exactly when it misses an id of the meta |
| `BlockMaker.DataBlockMaker.Save` | src/DataJoin/data_join/data_block_maker.py:63-75 | after any sequence of saves the meta lists the ids in order with their least and greatest event time, and one record stands for each id |
| `BlockMaker.DataBlockMaker.InitMakerByInputMeta` | src/DataJoin/data_join/data_block_maker.py:77-80 | takes over the given meta and drops the threshold |
| `BlockMaker.DataBlockMaker.DataBlockFinalizer` | src/DataJoin/data_join/data_block_maker.py:117-136 | stores data file and meta, or stops at the first fault, leaving the directory as it then is |
| `BlockMaker.SaveRecords` | src/DataJoin/data_join/data_block_saver.py:70-73 | the leader's loop writes one record, its own, for each id it has, in the meta's order |
| `DataJoiner.TakeEventKeepsInv` | src/DataJoin/data_join/data_joiner_builder/memory_data_joiner.py:47-68 | after every round the emitted blocks and the open one are the ids sent so far, filtered by the follower's examples |
| `DataJoiner.TakeEventFinished` | src/DataJoin/data_join/data_joiner_builder/memory_data_joiner.py:57-64 | the finished flag is set exactly when a batch marked finished closes a block |
| `DataJoiner.RoundCloses` | src/DataJoin/data_join/data_joiner_builder/memory_data_joiner.py:47-68 | a round closes blocks at the limit and after them at most one shorter block, only at the end of a finished batch or when the time span has run out; either leaves nothing open, and an idle round without the latter changes nothing |
| `DataJoiner.ProcessMeans` | src/DataJoin/data_join/data_joiner_builder/memory_data_joiner.py:40-68 | over any run, in terms of the events it gets to: no known id is lost, added or moved, every block has the reason for which it was closed among these events, and without a time span and a finished batch every block has exactly the limit of ids |
| `DataJoiner.JoinedIsFiltered` | src/DataJoin/data_join/data_joiner_builder/memory_data_joiner.py:40-68 | once the finished batch is processed nothing is open, the blocks are the leader's stream filtered by the follower's dictionary, each has 1 to threshold ids, only one flushed at the end or by time span is shorter, and the flag is set if and only if a block was open or the batch brings a known id |
| `DataJoiner.UnfinishedSpins` | src/DataJoin/data_join/data_joiner_builder/memory_data_joiner.py:42-47 | with the flag unset and no more batches the loop never changes anything again |
| `DataJoiner.DataJoiner.constructor` | src/DataJoin/data_join/data_joiner_builder/data_joiner.py:47-65 | a joiner starts with nothing open after the blocks an earlier process left in its directory |
| `DataJoiner.DataJoiner.DataJoinFinalizer` | src/DataJoin/data_join/data_joiner_builder/data_joiner.py:119-127 | without a fault it closes the open block: its meta, with the right times, and its records stand under the next consecutive index; with any fault it raises, the maker stays, and the directory holds the earlier blocks, and this one exactly if both files are in place |
| `DataJoiner.FinishedMore` | src/DataJoin/data_join/data_joiner_builder/data_joiner.py:119-127 | finishing the open block without file errors always succeeds and adds it to the directory under the next index |
| `DataJoiner.FaultLeavesDirectory` | src/DataJoin/data_join/data_block_maker.py:117-136 | a finalizer that fails leaves every earlier block as it is, and its own block entirely or without its meta; the directory is unchanged unless the data file was moved |
| `DataJoiner.TakeEventFollows` | src/DataJoin/data_join/data_joiner_builder/memory_data_joiner.py:47-68 | a round with faults is the same round without up to the first block whose finalizer fails, and that block, with exactly its ids, stays open |
| `DataJoiner.ProcessFollows` | src/DataJoin/data_join/data_joiner_builder/memory_data_joiner.py:40-68 | over any events and faults, the emitted blocks are those of the run without faults, in full or up to the first that fails |
| `DataJoiner.DataJoiner.TakeExample` | src/DataJoin/data_join/data_joiner_builder/memory_data_joiner.py:51-56 | an id the follower has joins the open block, which is closed at the threshold unless that fails; any other id changes nothing |
| `DataJoiner.DataJoiner.TakeBatch` | src/DataJoin/data_join/data_joiner_builder/memory_data_joiner.py:49-64 | a batch is taken id by id, and a finished one flushes the open block, up to the first finalizer that fails |
| `DataJoiner.DataJoiner.TakeRound` | src/DataJoin/data_join/data_joiner_builder/memory_data_joiner.py:47-68 | one round: a batch if there is one, then the time span, up to the first finalizer that fails; nothing is open after a time span that has run out or a finished batch |
| `DataJoiner.DataJoiner.DataJoinerAlgo` | src/DataJoin/data_join/data_joiner_builder/memory_data_joiner.py:40-68 | the generator's loop, for any batches, idle rounds, time spans and faults: it makes a round per event until the finished flag or a fault ends it; exactly the emitted blocks are on disk under consecutive indices, they hold the known ids of these rounds in order, and each was closed for a reason among them |
| `JoinerFaults.NothingMoreJoined` | src/DataJoin/data_join/data_joiner_builder/data_joiner.py:119-127 | once a failed finalizer has moved its data file, no block reaches the disk any more, whatever batches, time spans, outcomes and syncs follow, until the process restarts |
| `JoinerFaults.RoundResumesIff` | src/DataJoin/data_join/data_joiner_builder/memory_data_joiner.py:47-68 | which rounds get to the kept maker's finalizer at all, on the batch itself: only batches without a known id that are finished or meet the end of the time span, and idle rounds at that end after such a batch |
| `JoinerFaults.RetryResumesIff` | src/DataJoin/data_join/data_joiner_builder/memory_data_joiner.py:40-68 | while it has not, the join goes on if and only if some later finalizer call goes well before any other moves the file, and then the kept block stands under its own index |
| `JoinerFaults.ResumesIff` | src/DataJoin/data_join/data_joiner_builder/data_joiner.py:119-127 | both together, from the state in which the finalizer failed: exactly when the join goes on, and what the directory holds for good when it does not |
| `ExampleIds.IdBatchesCarryAll` | src/DataJoin/data_join/example_id_producer.py:90-97 | the messages carry every id once, in order; exactly the last is marked finished, every other one has 2049 ids |
| `ExampleIds.Sender` | src/DataJoin/data_join/example_id_producer.py:85-99 | the sending loop sends exactly these messages, or the first few of them up to a failing call |
| `ExampleIds.TransmissionJoins` | src/DataJoin/data_join/example_id_producer.py:90-97 | one full transmission, however the follower's rounds fall between its messages, is joined to exactly the leader's ids the follower has, in order |
| `ExampleIds.RepeatedTransmission` | src/DataJoin/data_join/example_id_producer.py:85-99 | after a failed transmission and its repetition the follower has every id once if and only if the failed one delivered nothing |
| `BlockSaver.AppendKeepsInv` | src/DataJoin/data_join/data_block_saver.py:39-49 | a meta is accepted exactly when it is the next one and the sending is not finished; any other, repeated or early, changes nothing |
| `BlockSaver.BeginCleans` | src/DataJoin/data_join/data_block_saver.py:133-147 | starting a round makes the buffer the contiguous run from saved + 1 to next - 1, whatever went wrong in the round before |
| `BlockSaver.CrashKeepsInv` | src/DataJoin/data_join/data_block_saver.py:25-37 | a restart keeps every stored block and asks for the first one missing |
| `BlockSaver.CountAssertionHolds` | src/DataJoin/data_join/data_block_saver.py:67-76 | the count assertion holds for every meta that is ever saved |
| `BlockSaver.AttemptKeepsInv` | src/DataJoin/data_join/data_block_saver.py:67-80 | one saving pass keeps the invariant, whatever fails in it |
| `BlockSaver.SavesIffClean` | src/DataJoin/data_join/data_block_saver.py:67-86 | without new faults the head of the buffer is saved and removed if and only if the buffer is clean |
| `BlockSaver.UncleanIffSpoiled` | src/DataJoin/data_join/data_block_saver.py:67-80 | a pass makes a clean buffer unclean if and only if the data file is in place and the rename of the meta fails, before or after the fact, or everything is in place and the report fails; any other fault leaves it clean, and only a pass without faults removes the head |
| `BlockSaver.FaultEndsRound` | src/DataJoin/data_join/data_block_saver.py:113-131 | every fault, in building, writing, renaming or reporting, ends the round with the head still buffered and the switch still set, because the handler raises an error of its own; only a faultless pass goes on |
| `BlockSaver.PassesStopAtFault` | src/DataJoin/data_join/data_block_saver.py:82-86 | a round takes from the buffer exactly the blocks before its first fault, in order, and reaches an empty buffer if and only if it meets none |
| `BlockSaver.CleanRoundDrains` | src/DataJoin/data_join/data_block_saver.py:82-86 | a fault-free round from a clean buffer stores everything |
| `BlockSaver.RoundKeepsInv` | src/DataJoin/data_join/data_block_saver.py:82-101 | a round from any state, with any faults, keeps the invariant, and leaves the switch set if and only if a block is left in the buffer |
| `BlockSaver.NextRoundRecovers` | src/DataJoin/data_join/data_block_saver.py:96-101 | whatever goes wrong in a round, from whatever state, the next round without faults stores every block taken so far, with the metas the producer has, and ends clean |
| `BlockSaver.DataBlockSaver.constructor` | src/DataJoin/data_join/data_block_saver.py:25-37 | starts with an empty buffer at the first index not on disk |
| `BlockSaver.DataBlockSaver.AppendSentDataBlockMetaToBuffer` | src/DataJoin/data_join/data_block_saver.py:39-49 | appends exactly the next meta while sending is not finished, and answers with the index it then expects |
| `BlockSaver.DataBlockSaver.FinishSentDataBlockMeta` | src/DataJoin/data_join/data_block_saver.py:51-53 | no more metas are accepted afterwards |
| `BlockSaver.DataBlockSaver.RemoveSavedDataBlockMetaFromBuffer` | src/DataJoin/data_join/data_block_saver.py:133-143 | syncs the index and drops exactly the leading metas below it |
| `BlockSaver.DataBlockSaver.SaveDataBlockWithMeta` | src/DataJoin/data_join/data_block_saver.py:67-80 | one pass over the head of the buffer: removed after a faultless pass, and otherwise an error escapes |
| `BlockSaver.DataBlockSaver.SavePasses` | src/DataJoin/data_join/data_block_saver.py:82-86 | passes over the head of the buffer until it is empty or one fails |
| `BlockSaver.DataBlockSaver.SaveDataBlocks` | src/DataJoin/data_join/data_block_saver.py:82-101 | one round: cleanup after an abnormal end, passes until the buffer is empty or one fails, and the switch freed only at a normal end |
| `BlockSaver.GetNextDataBlockMeta` | src/DataJoin/data_join/data_block_producer.py:41-45 | the follower's lookup returns the stored meta under the asked index, None exactly beyond the last one, and KeyError exactly when the meta is not buffered while the buffer holds at least 1024 |
| `BlockSaver.SendNextMeta` | src/DataJoin/data_join/data_block_producer.py:206-213 | one pass of the sending loop: it goes on with the next index, or ends with everything sent, a failed lookup on a full buffer, or a lost message, whose meta the leader has exactly if only the reply was lost |
| `BlockSaver.SendExecutor` | src/DataJoin/data_join/data_block_producer.py:202-214 | resynchronise then send: the leader's buffer grows by the follower's next metas in order and without repetition; the call is interrupted if and only if the lookups get it to the first loss, at that meta; otherwise it sends all there are if and only if every meta from the leader's next index on is buffered or has room in the buffer, and else ends in a failed lookup of an unbuffered meta |
| `DataJoinRun.StepKeepsInv` | src/DataJoin/data_join/data_block_saver.py:39-86 | every step of joining, with or without file errors, of sending, saving and restarting keeps the invariant of leader and follower |
| `DataJoinRun.FollowerKeepsInv` | src/DataJoin/data_join/data_joiner_builder/data_joiner.py:119-127 | so does a round of the join whose finalizer fails at any block and with any fault, and a later attempt to finish the kept block |
| `DataJoinRun.FailureMatchesDisk` | src/DataJoin/data_join/data_block_maker.py:117-136 | what the two-party run takes a failed finalizer to leave is what the finalizer leaves in the directory and notes in the manager, for every fault |
| `DataJoinRun.LeaderDiskIsPrefix` | src/DataJoin/data_join/data_block_saver.py:67-86 | in every run the metas on the leader's disk are an in-order duplicate-free prefix of the follower's |
| `DataJoinRun.BufferIsContiguous` | src/DataJoin/data_join/data_block_saver.py:133-147 | in every run the buffer is a gap-free run of the follower's metas that begins at the first block not on disk, or one earlier after a failure; the next cleanup restores the former |
| `DataJoinRun.BlocksAgree` | src/DataJoin/data_join/data_block_saver.py:67-80 | for every index both parties have stored, the metas are equal and both blocks hold their own records of the same ids in the same order |
| `DataJoinRun.LeaderHasEveryId` | src/DataJoin/data_join/data_block_maker.py:117-118 | in no run can the leader's count assertion fail |
| `DataJoinRun.CanCatchUpIff` | src/DataJoin/data_join/data_block_producer.py:202-214 | from any reachable state, delivering only what it sends itself and those of the earlier sends that are still on their way, some continuation without a restart of the follower brings the leader level if and only if every block from the leader's next index on is on its way, is buffered, or has room in the follower's meta buffer |
| `DataJoinRun.LargeJoinStrands` | src/DataJoin/data_join/data_block_manager.py:120-122 | states without such a continuation are reached: one batch joined into more than 1025 blocks before anything is sent |
| `DataJoinRun.RestartStrands` | src/DataJoin/data_join/data_block_manager.py:120-122 | so does a leader that restarts with nothing stored after more than 1025 blocks were joined, even if every one had been sent to it in time |
| `DataJoinRun.RestartsCatchUp` | src/DataJoin/data_join/data_block_manager.py:29-38 | with restarts of the follower some continuation brings the leader level from every reachable state, delivering only what it sends itself |

## Left out

- gRPC, completion queues, the brpc link, Ray, pyarrow, TensorFlow and file access: nondeterministic outcomes or assumed contracts (existence checks are reliable; range partitioning puts a value between the boundaries it lies between).
- Curve and hash internals (scalar multiplication, SHAKE256, blake2b): function parameters; commutation and injectivity on the ids of a session are hypotheses.
- The bridge's callers: they are taken to stamp the current number, to commit it when enqueue succeeds and to reuse it when it fails. One reader per mailbox is assumed, and one completion callback at a time, in send order.
- The bridge's retry wakeup: the notification can be missed, so an eventual resend is not claimed; safety holds either way, and BridgeDrain.CanComeToRest is about a continuation in which the resend thread is awake.
- Shutdown of the bridge, receiver restarts, synchronous and unary sending, LoadDataBlock and the file queue: simpler variants or outside the protocol.
- Control mailboxes (start, commit, prefetch): a newer message may overwrite an older one there, as in the code; the queue refinement is stated for data names only.
- Sequence numbers are unbounded here; wrap-around of the 64-bit counters is not modelled.
- BridgeReceiver.RpcBridgeAgentService.ConnectHandler: does not model the stored connect request, which only WaitPeerReady reads, nor the process exit after a late one; the link simply stays down.
- PsiFlow.NeverStuck: assumes that the main and the dual channel of a session have a throttle window each; SubWorld, which creates the second channel, belongs to yacl and is not part of this model.
- PsiFlow.StepKeepsInv: the matcher's work on one batch is one step, because its index list is private to that thread and the peer set is complete by then.
- PsiSession.SessionResult: takes one cipher width as a hypothesis, which a fixed octet format of curve points gives; the handshake is not part of the interleaving, since PsiHandshake.NegotiatedResult starts from its outcome.
- PsiHandshake.Context.NegotiateHandshake: does not model unpacking of malformed or empty parameter lists, which raises in unpack_params; which element of a set comes first is left open.
- Dispatch.RunApp: models the single-file mode; in directory mode blocks are paths and outputs are not collected. Totals from get_results may be read early and are not modelled.
- Dispatch.NeverBlocked: assumes that a session whose both ends have started completes, which PsiFlow.NeverStuck and PsiFlow.RunsAreBounded show for the flow itself.
- JoinerFaults.ResumesIff: takes it that writing to a closed record file raises and that closing it again does not, which TensorFlow's writer does; that the process manager, which is not part of this model, starts another generator; and that the finished flag is not set yet, since otherwise that generator ends at once.
- DataJoinRun.CanCatchUpIff: says that a continuation exists, not that a run takes it; a restart of the follower loses its open block, whose ids have to be sent again.
- BlockManager.RunKeepsStore: restarts are covered while the search range of 2^53 + 1 indices is; BlockManager.RestartIsExact shows this condition is exact.
- BlockSaver.NextRoundRecovers: that the process manager, which is not part of this model, starts another round after one that raised is assumed; metas that arrive between two passes are in DataJoinRun.
- Event times travel with the leader's id batches but the joiner does not use them; partition ids, block ids and the restart index of a meta are constants of a run.
- Liveness of the follower's finish notification (its send loop always returns False) and of the joiner's generator: the code does not guarantee them.
- The process manager that starts these loops, the coordinator services, estimators, data preparation, database models and deploy scripts: plumbing around the protocols.
