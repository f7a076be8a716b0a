# Vasal agent: verified models

Vasal is a host agent: it takes tasks and task chains from a control plane, runs them under a
semaphore, journals and reports the results, forwards its audit log, talks to sidecars over
length-prefixed JSON-RPC, and upgrades its units and itself. This project models those protocols
in Dafny and proves what they keep, over every input, every run and every fault.

    dafny verify dfyconfig.toml

## How the models are built

- **Outside world.** Executors, credentials, clocks, sockets, HTTP, the file system's failures
  and a sidecar's own logic are parameters: functions of a logical clock, or lists of outcomes.
  Nothing is assumed of them unless a lemma says so in a `requires`.
- **Code that changes things** is a class or a method with a loop, proved equal to a function
  (`Chains.Host.Execute` to `RunChain`, `UnitUpgrade.Host.UpgradeUnit` to `Upgrade`, and so on);
  the properties are lemmas about that function, whose own statements do not mention it step by step.
- **The agent** (`Agent.dfy`) is an interleaved step machine. Each spawned task is a program counter;
  a step is one lock hold, one database statement or one channel operation. `IsRun` admits every
  interleaving, including a shutdown at any point; `TaskManager.dfy` has the code of those steps,
  proved step by step, and whole submissions, task ends and drains as runs of it, whatever the others do meanwhile. `select!` is a free choice among ready
  branches; the main loop's `biased` order is not relied on. What an execution may return
  (`Agent.Admissible`) is proved of the executors in `AgentLinks.dfy`.
- **Tokens.** A cancellation token is named by the process it was made for, so nothing assumes
  that task ids are distinct; where that matters it is a condition (`SubmitKeepsMapExactIff`).
- **Store.** A table is a sequence of rows, with increasing keys or with unique names; a statement is
  atomic. The task manager ignores or logs errors of journal and audit inserts; the models let
  those inserts succeed.
- **Integer widths** are written out where the code casts: `u32` counts, step indices and frame
  lengths, `i32`/`i64` journal columns.

| file | models |
|---|---|
| `Types.dfy` | task, result and journal row values |
| `Chains.dfy`, `ChainLaws.dfy` | the chain executor (saga) and its laws |
| `Agent.dfy`, `AgentLaws.dfy`, `AgentTheorems.dfy`, `TaskManager.dfy` | task manager, main loop and drain |
| `Shell.dfy`, `Continuous.dfy`, `AgentLinks.dfy` | executors, and that they meet the agent's view of them |
| `SidecarPoll.dfy` | the sidecar client: submit and poll |
| `Codec.dfy`, `Rpc.dfy` | framing, JSON-RPC objects, server and client |
| `StateStore.dfy`, `Audit.dfy` | state store, journal ring buffer, audit forwarder, backoff |
| `SelfUpgrade.dfy`, `UnitUpgrade.dfy` | upgrades under crashes and faults |
| `Grpc.dfy` | the gRPC transport's connection state |

## Where the code and its documentation differ

The models follow the code.

- `README.md:387` calls `max_concurrent` hot-reloadable; the semaphore is sized once
  (`crates/vasal-core/src/task/mod.rs:56-58`), so `PermitsConserved` speaks of that size for the whole run.
- `README.md:95-96` says nothing is lost. Results are journaled before they are sent, but a result
  sent after the shutdown drain has ended is never given to the transport
  (`DrainHandsOverWhatWasSent`), and a failed report is not retried.
- A chain cancelled between steps is recorded as completed and undoes nothing
  (`CancelKeepsPrefix`). Rollbacks run under the chain's own token, so a cancel during a step also
  reaches the rollbacks (`CancelReachesRollbacks`), and where it stops them before they do anything
  the host is left as if there were none (`CancelDefeatsRollback`).
- `unit/upgrade.rs:11` says "rolling back on failure". Only a refused archive and a failed probe
  are rolled back; the other failures after the unpacking leave the old version recorded over new
  files, unless it is the same version (`UpgradeOutcome`, `RowNamesFilesIff`, `StoreFailureMisnames`).
- The upgrade ignores whether `kill` worked and waits a fixed time, so a process that outlasts its
  signal runs beside the next one (`SideBySideIff`) or stays behind (`NoOrphanIff`, `SurvivorIsOrphaned`).
- A state file left by an earlier upgrade can make a recovery install the wrong binary;
  `RecoveryRestoresIff` gives the exact condition under which it cannot, and
  `SecondUpgradeIsAtRisk` shows how such a file comes about.
- The audit endpoint is sent events without their keys, so two equal events are one to it
  (`PayloadsAreGapFree`).
- A frame's length is cut to 32 bits. With the default limit this never matters; with a larger
  one it does from 2^32 bytes on, exactly (`FrameRoundTripIff`).
- A request that does not parse is answered with id 0 (`server.rs:108-111`), where section 5 of the
  JSON-RPC 2.0 Specification asks for `null`.
- Two live tasks may share an id: the second replaces the first one's map entry, and the map stops
  describing the live tasks (`SubmitKeepsMapExactIff`).

## Model

| member | source | states |
|---|---|---|
| `Types.JournalRowInjective` | crates/vasal-core/src/task/mod.rs:345-357 | results with equal journal rows agree in everything but the error text: the casts to signed columns lose nothing |
| `Types.JournalRowReadsBack` | crates/vasal-core/src/task/mod.rs:345-357 | every column holds the field it is named after, in its signed form, and reads back as it |
| `Chains.Host.Execute` | crates/vasal-core/src/task/chain.rs:12-124 | the loop's results, host state and event log are those of the recursive specification `RunChain` |
| `Chains.Host.RunRollbacks` | crates/vasal-core/src/task/chain.rs:126-204 | the rollback loop refines `Rollback`: the strategy's targets from the failed step down, unresolved credentials and failed rollbacks skipped over |
| `Chains.Host.ResolveAndRun` | crates/vasal-core/src/task/chain.rs:39-91 | credentials first, then the executor, as the function `Perform` of the host |
| `ChainLaws.PerformIsFaithful` | crates/vasal-core/src/task/chain.rs:39-91 | the executor is run only with the credentials resolved for this task just before; a shell gets the task itself, a sidecar its id, payload, credential references and timeout, under its target or "unknown" and its method or "submit"; an error passes on why they did not resolve |
| `ChainLaws.ExactTrace` | crates/vasal-core/src/task/chain.rs:31-124 | whatever the host does: the steps run are a prefix in order, each after a look at a token that was not set, each given its own task with its own credentials and reporting what its executor answered, under its own id and index; all but the last succeed; then, after a failure, the rollbacks k..0 (or k alone) strictly descending and once each, or else one completion record, never both; an early stop without a failure was a cancel seen at the last check |
| `ChainLaws.RollbackAllRestores` | crates/vasal-core/src/task/chain.rs:31-204 | saga restoration: under `RollbackAll`, if the steps up to the failed one have rollbacks that report success, and each then undoes whatever its step, run fully, partly or not at all, may have done from where it was started, the host is back in its initial state |
| `ChainLaws.CounterCompensates` | crates/vasal-core/src/task/chain.rs:31-204 | that hypothesis is met by a chain whose steps change the host: two steps that count up and rollbacks that set the count back |
| `ChainLaws.CounterIsRestored` | crates/vasal-core/src/task/chain.rs:31-204 | on that chain, whose second step fails after its change, the count goes from n to n + 2 before the rollbacks and ends at n under `RollbackAll`, at n + 1 under `RollbackFailed` |
| `ChainLaws.RollbackFailedKeepsPrefix` | crates/vasal-core/src/task/chain.rs:126-204 | under `RollbackFailed`, and the same hypothesis, the change of the failed step is undone and no other: the host ends as if the chain had been cut just before it |
| `ChainLaws.CancelKeepsPrefix` | crates/vasal-core/src/task/chain.rs:32-35 | without a failed step nothing is undone: the host ends as the steps run so far left it, also when a cancel stopped the chain |
| `ChainLaws.CancelReachesRollbacks` | crates/vasal-core/src/task/chain.rs:72-112 | when a shell step ends `Cancelled`, every rollback of the run is started under a token that is set already |
| `ChainLaws.CancelDefeatsRollback` | crates/vasal-core/src/task/chain.rs:126-204 | corollary: where rollbacks started under a set token are stopped before they have an effect, the host ends as if the chain had no rollbacks |
| `ChainLaws.CancelLeavesStepInPlace` | crates/vasal-core/src/task/chain.rs:72-112 | a host and chain that meet those premises: a step cancelled after its change keeps it although its rollback is attempted |
| `AgentTheorems.PermitsConserved` | crates/vasal-core/src/task/mod.rs:126-182 | in every reachable state free permits plus exec tasks and chains past their acquire equal the semaphore's initial size, so no more than that many execute |
| `AgentTheorems.ResultsDelivered` | crates/vasal-core/src/main.rs:267-323 | over all interleavings: at most 256 results are queued, the transport gets them in channel order, each only after its own row was journaled, and those of one task at most once each and in order |
| `AgentTheorems.JournalHoldsOnly` | crates/vasal-core/src/task/mod.rs:145-147 | the journal holds the tasks' results, each at most once and in a task's own order, the ticks of continuous tasks under their own id, and nothing else |
| `AgentTheorems.AuditTellsOutcomes` | crates/vasal-core/src/task/mod.rs:149-169 | over all runs: every end in the audit log is that of one exec task, under its id, with its result's status and the event type for it; every exec task past its audit step has its end there; none is there twice |
| `AgentTheorems.ChainResultsInOrder` | crates/vasal-core/src/task/mod.rs:293-302 | the transport sees one chain's results under the chain's id with strictly increasing step indices, the earlier ones successful |
| `AgentTheorems.DrainHandsOverWhatWasSent` | crates/vasal-core/src/main.rs:317-323 | when the drain ends, exactly what was sent by then has been handed over, and nothing is ever handed over later |
| `AgentTheorems.DrainNeedsShutdown` | crates/vasal-core/src/main.rs:267-323 | the main loop drains and closes the channel only after a shutdown was signalled |
| `AgentTheorems.CancelSound` | crates/vasal-core/src/task/mod.rs:232-240 | a shell-backed result is `Cancelled` only if earlier in the run a cancel naming that task or chain was handled while its own entry was in the map |
| `AgentTheorems.CancelIsolated` | crates/vasal-core/src/task/mod.rs:232-240 | a cancel sets the token entered under its target and changes no task with another id, no entry, no permit and no queued result |
| `AgentTheorems.CountsFollowTheMap` | crates/vasal-core/src/task/mod.rs:325-343 | published counts are the map's tally by kind unless a task is between its map change and its update; no publication is stale; the total is the sum |
| `AgentTheorems.SubmitKeepsMapExactIff` | crates/vasal-core/src/task/mod.rs:105-115 | the active map stays an exact image of the live tasks after a submit if and only if the id was not in it |
| `AgentTheorems.CountsAreLiveTasks` | crates/vasal-core/src/task/mod.rs:175-179 | in runs that never submit an id that is live, the published counts are the numbers of live one-shot and continuous tasks |
| `AgentLaws.InvNext` | crates/vasal-core/src/task/mod.rs:97-318 | every step of the main loop and of every task keeps the joint invariant on permits, map, tokens, counts, journal, channel and histories |
| `AgentLaws.Reachable` | crates/vasal-core/src/task/mod.rs:97-318 | the joint invariant holds in every state of every run from start-up |
| `TaskManager.RunExtends` | crates/vasal-core/src/main.rs:267-323 | steps that are enabled one after the other extend a run of the agent to a run of the agent, so what the methods below do is covered by every theorem about runs |
| `TaskManager.Manager.constructor` | crates/vasal-core/src/task/mod.rs:47-68 | a new manager is the machine's initial state with the configured number of permits, and valid |
| `TaskManager.Manager.UpdateCounts` | crates/vasal-core/src/task/mod.rs:325-343 | tally and publication are one step of the shared state |
| `TaskManager.CountKind` | crates/vasal-core/src/task/mod.rs:330-337 | counting by iterating over the map gives the number of entries of that kind, in any order of iteration |
| `TaskManager.Manager.AcceptItem` | crates/vasal-core/src/task/mod.rs:71-80 | recording a receipt is one `NextItem` step and keeps the joint invariant |
| `TaskManager.Manager.Register` | crates/vasal-core/src/task/mod.rs:105-114 | entering a task, or setting the token a cancel names, is one `HandleItem` step and keeps the joint invariant |
| `TaskManager.Manager.SubmitAll` | crates/vasal-core/src/main.rs:287-313 | with any tasks running meanwhile, a received batch is a run of the machine that submits all its work in order, records all its receipts in order, and leaves the counts the map's tally unless a finished task is about to publish |
| `TaskManager.Manager.PublishAndSpawn` | crates/vasal-core/src/task/mod.rs:115-133 | publishing the counts and spawning is one `PublishCounts` step and keeps the joint invariant |
| `TaskManager.Manager.RecordResult` | crates/vasal-core/src/task/mod.rs:145-147 | journaling a result is one `Journal` step and keeps the joint invariant |
| `TaskManager.Manager.SendResult` | crates/vasal-core/src/task/mod.rs:171-173 | sending is one `Send` step and keeps the joint invariant; a closed channel's error is ignored |
| `TaskManager.Manager.Deregister` | crates/vasal-core/src/task/mod.rs:175-178 | removing the entry, whoever's it is by now, is one `Remove` step and keeps the joint invariant |
| `TaskManager.Manager.RecountAfter` | crates/vasal-core/src/task/mod.rs:179-182 | the closing update is one `Recount` step and keeps the joint invariant |
| `TaskManager.Manager.RecordEnd` | crates/vasal-core/src/task/mod.rs:149-169 | auditing an exec task's end is one `Audit` step and keeps the joint invariant |
| `TaskManager.Manager.Complete` | crates/vasal-core/src/task/mod.rs:145-182 | with anything happening in between, a returned task is a run of the machine to its end or to where it waits for room in the channel: it has journaled each result it got to and sent the ones before, each once and in order, as long as there was a receiver |
| `TaskManager.Manager.Drain` | crates/vasal-core/src/main.rs:317-323 | with tasks running on while each report is awaited, the loop is a run of the machine that ends with an empty channel, everything sent handed over, and the count right |
| `Shell.Execute` | crates/vasal-core/src/task/shell.rs:16-159 | the report tells how the race ended: `Cancelled` needs the token, `Timeout` an elapsed timeout, `Success` exit code 0; a child that ended first gives its own output and exit code, -1 after a signal; an error text appears just when the task neither succeeded nor was cancelled |
| `AgentLinks.ShellHostIsHonest` | crates/vasal-core/src/task/shell.rs:86-99 | a host whose shell runs are runs of that executor meets the chain laws' assumption on tokens |
| `AgentLinks.ExecuteOneshot` | crates/vasal-core/src/task/router.rs:29-72 | a one-shot task returns what the agent admits: its shell execution's own report, or what the sidecar's answers decide, asked at its target or "unknown" by its method or "submit" with its payload and credentials, or the credentials' failure with no executor run |
| `AgentLinks.RouteTask` | crates/vasal-core/src/task/router.rs:74-172 | so does a task without a permit; a self-upgrade succeeds just when the binary was replaced, and install, upgrade and remove report success by name having touched nothing |
| `AgentLinks.ChainReturnsAdmissible` | crates/vasal-core/src/task/mod.rs:290-302 | so does a chain, on a host whose shell runs are runs of the shell executor |
| `AgentLinks.ContinuousReturnsAdmissible` | crates/vasal-core/src/task/continuous.rs:38-98 | so does a continuous task, each of whose ticks runs under a child of its token |
| `Continuous.Run` | crates/vasal-core/src/task/continuous.rs:14-98 | n ticks leave n rows in order; the result is `Cancelled`, the last tick's, or the initial success when a shutdown precedes every tick |
| `Continuous.RunAndJournal` | crates/vasal-core/src/task/mod.rs:135-147 | under the manager the n tick rows are followed by exactly one row, that of the returned result |
| `Continuous.TicksAndEnd` | crates/vasal-core/src/task/continuous.rs:28-97 | each tick's row is the task's own with what its execution reported, or the failure to get credentials; a cancel ends the task `Cancelled` whatever the ticks were, a shutdown with its last tick's report or as a success when there was none |
| `Continuous.ShutdownRepeatsLastTick` | crates/vasal-core/src/task/continuous.rs:52-55 | a shutdown after a tick journals that tick a second time |
| `SidecarPoll.PollBoundIsLeast` | crates/vasal-core/src/task/sidecar.rs:22 | the closed form P(T) (4 + ceil((T - 800) / 1000) above 800 ms) is the least number of polls whose delays add up to T |
| `SidecarPoll.PollUntilComplete` | crates/vasal-core/src/task/sidecar.rs:131-259 | the loop ends at the first turn with a cause; the result is the first decisive reply's unless the timeout or a local cancel comes first; at most P(T) status calls; one `cancel` call, last, just when the agent gave up itself |
| `SidecarPoll.VerdictIsReported` | crates/vasal-core/src/task/sidecar.rs:185-256 | from the sidecar's handler to the agent's result: a poll decides just when the handler did not answer `running`, and its output, failure, cancellation or error is what is reported, with the time it took |
| `SidecarPoll.UndecidedPolls` | crates/vasal-core/src/task/sidecar.rs:190-255 | polls without a reply, with an unreadable one or with `running` decide nothing, and all others do |
| `SidecarPoll.CallsAre` | crates/vasal-core/src/task/sidecar.rs:142-190 | all calls go to the one sidecar about the one task: the undecided polls, then the one that decides or a cancel |
| `SidecarPoll.ElapsedIs` | crates/vasal-core/src/task/sidecar.rs:142-190 | with exact sleeps the time that counts is that of the submit, the delays and the calls |
| `SidecarPoll.PollBoundIsReached` | crates/vasal-core/src/task/sidecar.rs:142-183 | the bound is tight: a silent sidecar that answers at once is polled exactly P(T) times |
| `SidecarPoll.TimeoutIsNoticed` | crates/vasal-core/src/task/sidecar.rs:142-183 | with exact sleeps and calls of at most c ms a timeout is noticed before T + 1000 + c, or at the first check when the submit took longer |
| `SidecarPoll.Execute` | crates/vasal-core/src/task/sidecar.rs:25-129 | a reply to the submit other than an acceptance is final with no further call; an acceptance leads to the poll loop's outcome, with at most P(T) + 2 calls in all |
| `SidecarPoll.CredentialsAreAdded` | crates/vasal-core/src/task/sidecar.rs:38-51 | credentials go into an object payload under their own two names and only if there are any; every other field, and a payload that is no object, is sent as it is |
| `SidecarPoll.HandlerStatusIsSeen` | crates/vasal-core/src/task/sidecar.rs:190-256 | what the agent makes of a status reply is what the sidecar's handler returned |
| `SidecarPoll.HandlerSubmitIsSeen` | crates/vasal-core/src/task/sidecar.rs:68-128 | what the agent makes of a submit reply is what the sidecar's handler returned: a final report, or an acceptance to poll |
| `Codec.FrameRoundTripIff` | crates/vasal-sidecar-sdk/src/codec.rs:44-91 | a payload within the limit comes back from its frame, following bytes untouched, if and only if its length is below 2^32 |
| `Codec.HeaderIsBigEndian` | crates/vasal-sidecar-sdk/src/codec.rs:44-91 | headers compare byte by byte as the lengths do: the most significant byte comes first |
| `Codec.OversizedIsRejectedAtOnce` | crates/vasal-sidecar-sdk/src/codec.rs:44-69 | a frame over the limit is rejected as soon as its header is there, whatever follows |
| `Codec.DecodeConserves` | crates/vasal-sidecar-sdk/src/codec.rs:44-69 | for arbitrary bytes, a decoded payload's frame followed by the rest is the buffer there was |
| `Codec.DecodeMonotone` | crates/vasal-sidecar-sdk/src/codec.rs:44-69 | a frame or a rejection found in a buffer stands when more bytes arrive |
| `Codec.DecodeAllConserves` | crates/vasal-sidecar-sdk/src/codec.rs:44-91 | for arbitrary bytes, all decoded frames re-encoded, then the leftover, are the input |
| `Codec.ChunkingIsInvisible` | crates/vasal-sidecar-sdk/src/codec.rs:44-69 | for arbitrary bytes, decoding chunk by chunk gives what decoding all at once gives |
| `Codec.StreamRoundTrip` | crates/vasal-sidecar-sdk/src/codec.rs:44-91 | any payloads within the limit, encoded and split into any chunks, come out as they went in with nothing left over |
| `Codec.LengthPrefixCodec.constructor` | crates/vasal-sidecar-sdk/src/codec.rs:22-26 | the default limit is 4 MiB |
| `Codec.EncodeThenDecode` | crates/vasal-sidecar-sdk/src/codec.rs:29-91 | through the buffer of a codec with any limit a payload comes back alone if and only if it is within the limit and below 2^32 bytes; over the limit it is rejected; no byte is lost either way |
| `Codec.LengthPrefixCodec.Decode` | crates/vasal-sidecar-sdk/src/codec.rs:44-69 | the mutable buffer loses exactly the returned frame; an incomplete or rejected one leaves it unchanged |
| `Codec.LengthPrefixCodec.Encode` | crates/vasal-sidecar-sdk/src/codec.rs:75-91 | succeeds just within the limit, appending one frame; a rejected payload leaves the buffer unchanged |
| `Codec.Framed.Next` | crates/vasal-sidecar-sdk/src/server.rs:94-103 | however the peer's bytes are chunked, the next frame is the first frame of all bytes to come, and the others remain |
| `Rpc.RequestRoundTrip` | crates/vasal-protocol/src/jsonrpc.rs:10-32 | a request survives its encoding except that `null` parameters become absent |
| `Rpc.ErrorRoundTrip` | crates/vasal-protocol/src/jsonrpc.rs:72-78 | an error object survives its encoding except that `null` data become absent |
| `Rpc.ResponseRoundTrip` | crates/vasal-protocol/src/jsonrpc.rs:37-69 | a response survives its encoding except for `null` optional fields |
| `Rpc.SubmitRoundTrip` | crates/vasal-protocol/src/sidecar.rs:8-27 | the tagged submit replies survive their encoding |
| `Rpc.StatusRoundTrip` | crates/vasal-protocol/src/sidecar.rs:43-61 | the tagged status replies survive their encoding |
| `Rpc.DispatchAnswers` | crates/vasal-sidecar-sdk/src/server.rs:140-202 | for every handler and request the answer echoes the id and carries exactly one of a result, never `null`, and an error |
| `Rpc.DispatchAsksHandler` | crates/vasal-sidecar-sdk/src/server.rs:140-179 | submit, status and cancel ask the handler's function of that name with the request's own parameters or task id: the handler's state is the one that leaves, the answer the one that gives, error for error |
| `Rpc.DispatchAsksHealth` | crates/vasal-sidecar-sdk/src/server.rs:145-148 | a health check leaves the handler's state and passes on its status text and whatever else it gave |
| `Rpc.UnroutableIsRefused` | crates/vasal-sidecar-sdk/src/server.rs:155-202 | an unknown method, or a status or cancel without a string task id, gets the same standard error from any sidecar and touches no handler |
| `Rpc.DispatchIgnoresNull` | crates/vasal-sidecar-sdk/src/server.rs:142 | absent and `null` parameters get the same answer and the same handler state |
| `Rpc.Sidecar.SendResponse` | crates/vasal-sidecar-sdk/src/server.rs:212-219 | one frame is appended, or nothing when the response is over the limit |
| `Rpc.Sidecar.HandleConnection` | crates/vasal-sidecar-sdk/src/server.rs:90-138 | one request per connection; only a well-formed version 2.0 request reaches the handler; parse and version errors are answered without it |
| `Rpc.RequestArrives` | crates/vasal-core/src/task/sidecar.rs:262-293 | a request within the limit is read whole by the server and parsed back |
| `Rpc.ReplyRead` | crates/vasal-core/src/task/sidecar.rs:262-293 | a response within the limit is read back; one over it gives the client an error |
| `Rpc.ReadReply` | crates/vasal-core/src/task/sidecar.rs:283-293 | the client's reading does not depend on how the reply is chunked |
| `Rpc.CallRaw` | crates/vasal-core/src/task/sidecar.rs:262-293 | transparency: client, framing, chunking, server and back give what direct dispatch gives up to `null` data, in answer and in handler state; an oversized request or an unreachable socket never reaches the handler; an oversized response is an error after the handler ran |
| `StateStore.PendingIsSegment` | crates/vasal-core/src/state.rs:188-198 | when the forwarded rows are a prefix, the pending rows are the segment right after it, cut at the limit |
| `StateStore.MarkSegment` | crates/vasal-core/src/state.rs:200-210 | marking the first pending rows, all or the first few, moves the boundary by that many and changes no event |
| `StateStore.PruneKeepsLast` | crates/vasal-core/src/state.rs:162-171 | deleting by key comparison keeps exactly the last `keep` rows in order |
| `StateStore.RingBuffer` | crates/vasal-core/src/state.rs:148-171 | after any mix of inserts and prunes keeping at least k, a prune to k leaves the last k rows ever recorded |
| `StateStore.Store.AppendAudit` | crates/vasal-core/src/state.rs:173-186 | one unforwarded row under a fresh larger key |
| `StateStore.Store.PendingAuditEvents` | crates/vasal-core/src/state.rs:188-198 | the unforwarded rows in key order, at most `limit` |
| `StateStore.Store.MarkForwarded` | crates/vasal-core/src/state.rs:200-210 | updates are separate transactions: a failure partway leaves exactly the earlier ones |
| `StateStore.Store.RecordTaskResult` | crates/vasal-core/src/state.rs:148-159 | the row is last in the journal |
| `StateStore.Store.PruneJournal` | crates/vasal-core/src/state.rs:162-171 | the last `keep` rows stay and the number dropped is returned |
| `StateStore.Store.UpsertUnit` | crates/vasal-core/src/state.rs:98-115 | on a table of rows with unique names, insert-or-update acts as one map update: this name gets this row, all others keep theirs, names stay unique |
| `StateStore.Store.GetUnit` | crates/vasal-core/src/state.rs:117-128 | the search over the rows finds the row of that name wherever it is, and none just when there is none |
| `Audit.DeliveryIsGapFree` | crates/vasal-core/src/audit.rs:95-137 | over every run of appends, reads, lost and unacknowledged requests, partial marking and crashes: forwarded rows are a prefix by key, each was in an acknowledged request, and the rows posted, without repeats, are a prefix of the rows in key order |
| `Audit.PayloadsAreGapFree` | crates/vasal-core/src/audit.rs:111-124 | of the payloads the endpoint gets, which carry no key: their first-seen log is that of the first m rows' payloads, the forwarded rows among them; it is a prefix of the log's payloads if and only if no new payload follows a repeated one |
| `Audit.EqualPayloadsHideARow` | crates/vasal-core/src/audit.rs:111-124 | a run that appends two events with equal payloads and a third with another, and posts them once, breaks the prefix form |
| `Audit.PostSegment` | crates/vasal-core/src/audit.rs:101-131 | posting a segment that starts within what was already posted leaves no gap and adds no repeat to the first-seen log |
| `Audit.FlushOnce` | crates/vasal-core/src/audit.rs:95-137 | on store and endpoint, with events arriving before and after the read, one flush is the function `Flush` of the rows, the last key, the posted log and the round; a success counts the batch |
| `Audit.FlushLaw` | crates/vasal-core/src/audit.rs:95-137 | success just when nothing was pending at the read or the whole batch was acknowledged and marked; the boundary moves by exactly the rows marked; the next segment is posted unless the request was lost; all arriving events stay in the log and delivery stays gap-free |
| `Audit.RoundCatchesUp` | crates/vasal-core/src/audit.rs:95-137 | a successful round with room for all that is pending forwards every row there was when it read, and the endpoint has them all |
| `Audit.MarkKeeps` | crates/vasal-core/src/audit.rs:133-136 | marking an acknowledged batch, even partway, keeps forwarded rows a prefix of what was posted |
| `Audit.RoundsLaw` | crates/vasal-core/src/audit.rs:64-92 | over any rounds, with events arriving in each, delivery stays gap-free, and each round's success is decided by its own faults and batch |
| `Audit.RunForwarder` | crates/vasal-core/src/audit.rs:52-93 | the loop and its final flush leave what folding `Flush` over the rounds leaves; the stored backoff is min(2^m, 60) s for the m failures at the end of the fold's outcomes, and each failed round slept the one stored before it |
| `Audit.FlushesDrain` | crates/vasal-core/src/audit.rs:95-137 | undisturbed flushes make progress: r of them forward r times the batch size, or everything |
| `Backoff.DelayNext` | crates/vasal-core/src/audit.rs:61-90 | doubling up to a cap and resetting on success computes min(2^m, cap) for m failures in a row |
| `SelfUpgrade.CrashSafe` | crates/vasal-core/src/self_upgrade.rs:54-121 | an upgrade finishes just when the download matches its digest and nothing fails; under any fault or crash, also mid-write, the executable is the old one, or after finishing the verified new one with the old one backed up and a complete state file; no other file changes |
| `SelfUpgrade.RecoveryRestores` | crates/vasal-core/src/self_upgrade.rs:20-147 | a recovery that can read the state file and move the backup restores the old executable after any fault unless a stale state file misleads it; one that cannot leaves the old executable after an unfinished upgrade |
| `SelfUpgrade.RecoveryRestoresIff` | crates/vasal-core/src/self_upgrade.rs:20-147 | that restoration holds for all faults of the upgrade if and only if the recovery can read the state file and move the backup and no stale state file names the backup about to be overwritten or another existing file that differs from the executable; otherwise only if the new binary is the old one |
| `SelfUpgrade.SecondUpgradeIsAtRisk` | crates/vasal-core/src/self_upgrade.rs:85-121 | the misleading state file arises: a finished upgrade leaves one, and a second upgrade under the same running version that stops while it makes its backup cannot be recovered from |
| `SelfUpgrade.PendingIsTakenOnce` | crates/vasal-core/src/self_upgrade.rs:20-51 | a finished upgrade is found with its versions, backup and time, and not again once its state file is gone |
| `SelfUpgrade.RollbackOnce` | crates/vasal-core/src/self_upgrade.rs:124-147 | after a rollback that worked a second one fails and changes nothing |
| `SelfUpgrade.Disk.Execute` | crates/vasal-core/src/self_upgrade.rs:54-121 | the sequence of file operations refines `Upgrade` under the same faults |
| `SelfUpgrade.Disk.TakePending` | crates/vasal-core/src/self_upgrade.rs:20-51 | the state file is consumed whether or not it could be read |
| `SelfUpgrade.Disk.Restore` | crates/vasal-core/src/self_upgrade.rs:124-147 | the backup is moved over the executable, or nothing changes |
| `UnitUpgrade.UpgradeIsHonest` | crates/vasal-core/src/unit/upgrade.rs:13-227 | under any faults only archives matching their named digest are written, only whole ones unpacked, and whenever the row is written its version is that of the archive unpacked last |
| `UnitUpgrade.UpgradeOutcome` | crates/vasal-core/src/unit/upgrade.rs:13-145 | success if and only if the listed steps all worked, a started sidecar's probe included; the units table changes only to the target version on success and to the rollback version after a refused archive or a failed probe whose rollback worked |
| `UnitUpgrade.RowAfter` | crates/vasal-core/src/unit/upgrade.rs:94-145 | name, kind, health, socket and configuration are kept; state and pid change just when a started version was recorded, to "running" and its pid; only a sidecar whose binary is there is ever started; other units' rows stay |
| `UnitUpgrade.SignalComesFirst` | crates/vasal-core/src/unit/upgrade.rs:51-59 | a running unit is signalled before anything else is done to it |
| `UnitUpgrade.RowNamesFilesIff` | crates/vasal-core/src/unit/upgrade.rs:61-145 | after an unpack the recorded version is the one on disk if and only if the upgrade succeeded, its rollback ran to the end, or the row named that version all along |
| `UnitUpgrade.StoreFailureMisnames` | crates/vasal-core/src/unit/upgrade.rs:140-141 | for any unit and target, a failure to store the new row leaves the old version recorded over the new one's files |
| `UnitUpgrade.SideBySideIff` | crates/vasal-core/src/unit/upgrade.rs:51-137 | under any faults two versions of a unit run side by side at some point if and only if one is started after a signal that did not end the one before it in time |
| `UnitUpgrade.NoOrphanIff` | crates/vasal-core/src/unit/upgrade.rs:51-145 | every process left running is the one the row names if and only if no started version went unrecorded and no old one outlived its signal while a new one was recorded, except for a single process under the pid the row had before |
| `UnitUpgrade.SurvivorIsOrphaned` | crates/vasal-core/src/unit/upgrade.rs:51-59 | when the old process outlasts its signal, the upgrade of any running sidecar succeeds with both versions running and the old one orphaned |
| `UnitUpgrade.Host.UpgradeUnit` | crates/vasal-core/src/unit/upgrade.rs:13-145 | the sequence of effects refines `Upgrade` under the same faults |
| `UnitUpgrade.Host.BringUpUnit` | crates/vasal-core/src/unit/upgrade.rs:94-145 | starting, probing, stopping an unhealthy version and recording refine `BringUp` under the same faults |
| `UnitUpgrade.Host.RollBack` | crates/vasal-core/src/unit/upgrade.rs:148-227 | the sequence of effects refines `PerformRollback` under the same faults |
| `UnitUpgrade.Host.WriteAndExtract` | crates/vasal-core/src/unit/upgrade.rs:61-92 | a torn or failed write is never unpacked |
| `Grpc.RunKeepsPairing` | crates/vasal-core/src/transport/grpc.rs:123-171 | in every run, wherever receives are dropped, stream and sender are halves of one connection or both missing, and the backoff is min(2^m, 30) s after m failed attempts in a row |
| `Grpc.ConnectionLife` | crates/vasal-core/src/transport/grpc.rs:123-171 | a connection is kept as long as it delivers, given up with both halves when its stream ends or fails, and replaced just when a connect succeeded without one |
| `Grpc.GrpcTransport.constructor` | crates/vasal-core/src/transport/grpc.rs:38-49 | no connection and a backoff of one second |
| `Grpc.GrpcTransport.RecvTasks` | crates/vasal-core/src/transport/grpc.rs:123-171 | one receive refines the step function and keeps the pairing, so the stream it unwraps is there |
| `Grpc.GrpcTransport.SendResult` | crates/vasal-core/src/transport/grpc.rs:173-193 | a result is sent just when there is a stream to receive on and the sender's other end takes it |

## Left out

- HTTP, gRPC, Unix-socket and process mechanics: their outcomes are parameters.
- JSON text and derived serialisation: values are encoded by a function with a stated round trip; positional arrays accepted for requests, responses and tagged enums are not modelled.
- SQL text and SQLite: tables are sequences of rows; a failing journal or audit insert in the task manager, which the code ignores or logs, is not modelled.
- The install, upgrade and remove arms of `route_task`: they return success without calling the unit code, so `UnitUpgrade` stands on its own. `check_pending`, `rollback` and `prune_journal` have no caller in the agent either; they are modelled as the functions they are.
- The health sweep, which writes back whole row snapshots and may race an upgrade: no version stability is claimed across it.
- Work lost on receive: the main loop may drop a `recv_tasks` in flight, and no claim is made about work not yet returned by it.
- Fairness and liveness of the scheduler and the semaphore: the agent's theorems are safety properties of finite runs. A closed semaphore, which never happens, is not modelled.
- The journal inside `Agent` is never pruned; pruning is `StateStore.RingBuffer`.
- Truncation of shell output and the spill file: `Shell` takes the captured text as given.
- SHA-256: an uninterpreted function.
- Processes that end without a signal: in `UnitUpgrade` one that was not signalled, or not ended by it in time, runs on.
- Aliasing of paths: in `SelfUpgrade` the running executable is not one of the files in the data directory.
- The 32-bit counter of drained results is a natural number.
- Names and payloads of audit events, other than chain events and task outcomes.
- The poll transport, configuration, linting, tracing, metrics, telemetry, heartbeats, authentication and credential fetching: plumbing.
- The sidecar programs, packaging and fuzz targets: thin wrappers.
- ChainLaws.CancelDefeatsRollback: the executor spawns its command before it looks at the token, so that a rollback started under a set token has no effect is a `requires`, not a theorem; `ChainLaws.CancelReachesRollbacks` is what holds without it.
- AgentTheorems.CancelSound: only shell-backed results, because a sidecar may report `Cancelled` on its own.
- AgentTheorems.ChainResultsInOrder: chains of at most 2^32 steps, where the `u32` step index does not wrap.
