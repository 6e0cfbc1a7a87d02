# Mandala, modelled and proved

Mandala coordinates a fleet of NixOS machines. This project models its concurrent and
stateful core in Dafny and proves what that core is for:

- **Leader election** (`Identity`, `Election`, `ElectionSafety`, `ElectionExact`, `Acquire`). Every
  process that works on one checkout either joins the context that already serves it or becomes its
  leader by binding a loopback port. Any number of contenders take atomic steps (read discovery,
  probe, bind, publish, die) over ports held by nobody, by squatters or by hosts, and leaders drain
  and leave. The discovery file may say anything at any time. `Acquire` is the program's own loop,
  proved to reach what the contender of the model reaches on the same observations.
- **The connection** (`Protocol`, `Client`, `Host`, `HostDrain`, `Endpoint`, `Multiplex`). A client
  multiplexes calls over one socket; the host runs one task per call and one writer per
  connection and drains an `unsettled` counter on shutdown. `Multiplex` composes any number of
  clients with one host, frame by frame.
- **The session** (`Session`, `SessionCall`, `Fleet`). A role behind a lock, arbitrary leader deaths
  and re-races, and a retry discipline that must not run a mutation twice. `Fleet` puts the session
  on top of the connections: each remote attempt is one minted call on one connection of one host
  of `Multiplex`, and what is counted is what those hosts, and this process, really dispatched.
- **Run events** (`Utf8`, `Tail`, `Events`, `HostOutcome`, `Tailer`, `TailerRuns`, `OutputLog`,
  `BuildLog`, `EventWriter`). A byte-budgeted, filtered append log, a reader that resumes from byte
  offsets, and the host and build models its records drive.
- **Processes** (`Process`, `ProcessRegistry`, `EvalWorkers`, `Evaluator`). Two lock-protected
  registries of children, over a kernel that hands out a pid again as soon as it is free.
- **Selectors** (`Order`, `Selector`, `Inventory`), **log filtering and quoting** (`Ansi`,
  `Quoting`), and **run retention** (`RunId`, `RunRegistry`).

Protocols are state machines: `Enabled` says when an atomic step can happen, `Apply` what it does,
`Run` chains steps, and theorems quantify over all runs. Objects the program updates in place are
classes whose methods are proved to take exactly those steps, or to compute the specification
function named in their `ensures`; what such a step or function means is stated beside it without
naming it, on recorded answers, on literal fields or on the members of a result. Answers of the
outside world (sockets, the kernel, the clock, JSON parsing) are parameters or arbitrary choices.

Results a maintainer may not expect, some of them contrary to the code's own comments:

- One serving host at a time needs more than "the bind is the lock". A port may be given back (by a
  squatter, by a leader that leaves or drains, by a contender that dies) only if no contender needs
  it: beside another serving host, none may still come to bind there; with none left, none may have
  stepped past it or past a free port (`OneHostAtATime`). The condition is exact: a step meets it if
  and only if no run on from there that gives nothing more back splits the context or turns a
  contender away beside a serving host (`HarmlessIffStillSecure`, `HarmlessRunsAreTheSecureOnes`).
  `ReleaseBehindAContenderSplits` and `ReleaseBeforeALeaderSplits` give the two leaders.
- `ports` visits every port of its range exactly once only while neither 16-bit addition wraps;
  `PortsCoverRangeIffNoOverflow` gives the exact condition. With overflow checks the walk panics
  where one would, so under the same condition never (`NoOverflowIffAllAdd`).
- Dropping a `ChildGroup`, or waiting on it once more, removes its process group id from the
  registry even after the group was reaped, when the id may already belong to a newer group. Signals
  still never reach a foreign process, but the newer group is no longer registered.
  `RegistryIsCompleteIffNoStaleRemoval` says exactly when the registry is complete,
  `RecycledGroupEscapesTermination` gives the runs. No caller in the repository waits twice.
- The evaluator's latch is stored outside the registry's lock: a spawn that holds the lock at that
  moment still becomes usable, and the sweep that follows finds it (`OnlyTheLockHolderAfterTheLatch`,
  `NoWorkerAfterTheSweep`).
- `EmptySelector` is also the answer to a selector that only excludes groups without members.
- Run ids are chronological as text, leap seconds included. Expiry follows age too, except for a
  run started strictly inside a leap second at the end of its day, which can outlive a newer one.
  An expired newer run then still counts against the cap, so pruning can remove the only unexpired
  run (`TheOnlyUnexpiredRunIsRemoved`); `StaysIffWithinCap` says what stays in every case.
- Some run ids are refused although their process number is positive, because the addition behind
  the saturating multiplication can wrap to zero: those whose digits, without the zeros at the end,
  finish with a 6 behind a prefix that folds to 1844674407370955161 or with a 1 behind one that
  folds to more (`PositiveNumberIsRefusedIff`). Up to ten times 64 bits these are 2^64 and all larger
  numbers ending in 1. With overflow checks the addition panics instead, exactly for the numbers
  that do not fit 64 bits even without the zeros at their end (`OverflowsIff`).
- The ANSI filter is not idempotent. Its second run changes nothing if and only if no escape that
  starts no sequence is followed, over listed control bytes and whole dropped sequences, by the body
  of a sequence not ending in `m` (`FilteringTwiceChangesNothingIff`).
- Terminal records survive any amount of detail exactly when they and the notice fit the 64 KiB
  reserve together (`ReserveIsExact`); for every larger total some detail of ordinary size makes one
  go missing.

## Model

| member | source | states |
|---|---|---|
| ElectionSafety.OneHostAtATime | crates/mandala-context/src/lib.rs:120-228 | In every run of any number of contenders and successive leaders that gives back nothing a contender's walk needs at that moment, at most one host serves, whoever leads from a serving host is the same contender, and nobody is told the ports are exhausted while one serves; discovery contents, arrivals, deaths, drains, squatters and the interleaving are arbitrary |
| ElectionSafety.StepKeepsIffHarmless | crates/mandala-context/src/lib.rs:120-228 | From a kept world exactly the harmless steps lead to a kept one, for releases by squatters, leaders, failed publications and dying contenders and for a host that starts to refuse |
| ElectionExact.KeptIffSecure | crates/mandala-context/src/lib.rs:120-228 | The invariant is the weakest: a world has it iff no run on that gives nothing back splits the context or turns a contender away beside a serving host |
| ElectionExact.HarmlessIffStillSecure | crates/mandala-context/src/lib.rs:120-228 | From a secure world a step is harmless iff the next world is secure |
| ElectionExact.HarmlessRunsAreTheSecureOnes | crates/mandala-context/src/lib.rs:120-228 | So a run from the start gives nothing needed back iff the context is secure all along it |
| ElectionSafety.AtMostOneLeader | crates/mandala-context/src/lib.rs:120-228 | While moreover no leader that returned leaves or refuses, and no port comes free once somebody is at the end of the walk, at most one contender ever returns as leader, at most one host is ever bound, and nobody is ever told the ports are exhausted before or while there is one |
| ElectionSafety.ServingLeaderIsNeverDisplaced | crates/mandala-context/src/lib.rs:154-226 | A leader on any port of the range that keeps answering or timing out is never displaced by a later contender: that one follows, reports busy or gives up on the token, whatever else comes and goes |
| ElectionExact.ReleaseBehindAContenderSplits | crates/mandala-context/src/lib.rs:205-227 | Without a leader: once a contender on its way to the first free port is past `ports[k]`, releasing `ports[k]` lets it and a newcomer end as leaders of two serving hosts |
| ElectionExact.ReleaseBeforeALeaderSplits | crates/mandala-context/src/lib.rs:205-227 | With a leader: any contender that may still come to bind at `ports[k]`, be it scanning past the leader, binding or probing in front of the port, leads from it once it is released, beside the leader |
| ElectionExact.ReleaseBehindAnExhaustedContender | crates/mandala-context/src/lib.rs:205-227 | Why the last condition of `AtMostOneLeader` is there: a port released after somebody was told there is none lets a newcomer lead |
| Election.EveryInteractionMakesProgress | crates/mandala-context/src/lib.rs:158-227 | Every observation strictly lowers a bound that depends only on the number of ports, so acquisition always ends |
| Acquire.Acquire | crates/mandala-context/src/lib.rs:120-228 | The program reaches what the modelled contender reaches on the same answers; its record is one discovery probe, a scan of every port in order and a race for a port; and its outcome is the one outcome the last recorded answers warrant |
| Acquire.TranscriptWarrants | crates/mandala-context/src/lib.rs:120-228 | A follower iff the last answer was its leader's own, or a successful poll of it; busy iff the last three answers of one address timed out; token unavailable iff the window closed; leader iff the last two were the bind and its write; an I/O error iff a bind or write failed; ports exhausted iff every port in order was taken by somebody foreign or dead |
| Acquire.ProbeWithBusyRetry | crates/mandala-context/src/lib.rs:270-287 | One to three connections to one address, all but the last timed out, and a timeout reported only after three; it settles as the contender does |
| Acquire.JoinWithRefreshedToken | crates/mandala-context/src/lib.rs:291-313 | Polls of one leader, all but the last in vain: a follower of it if the last one joined, without a token if the window closed |
| Acquire.HistoriesAreBounded | crates/mandala-context/src/lib.rs:120-228 | No sequence of answers keeps one acquisition busy beyond a bound linear in the number of ports |
| Identity.PortsCoverRangeIffNoOverflow | crates/mandala-context/src/identity.rs:94-106 | The walk starts at the derived port, and visits each port of the range exactly once if and only if neither addition leaves sixteen bits |
| Identity.WalkGoesUp | crates/mandala-context/src/identity.rs:102-106 | Without overflow the walk goes up one port at a time and from the last of the range to the first |
| Identity.OffsetIsTheRemainder | crates/mandala-context/src/identity.rs:109-114 | The starting offset is the hash's remainder, so every port of the range is where some hash starts |
| Identity.NoOverflowIffAllAdd | crates/mandala-context/src/identity.rs:94-106 | That condition is exactly that no step of the walk overflows |
| Identity.SmallRangesNeverOverflow | crates/mandala-context/src/identity.rs:94-114 | Ranges up to 32768 that end within sixteen bits, the production constants among them, are covered whatever the hash |
| Identity.OverflowRepeatsAPort | crates/mandala-context/src/identity.rs:102-106 | When offset plus range passes sixteen bits some port is visited twice |
| Multiplex.CallsReturnTheirOwnOutcome | crates/mandala-context/src/client.rs:282-308 | Over all interleavings of all connections an answered call got the outcome of a dispatch of its own id, tool and arguments |
| Multiplex.CallsAreDispatchedAtMostOnce | crates/mandala-context/src/host.rs:451-481 | No call is dispatched twice, and every dispatch is of a call some client sent |
| Multiplex.NobodyWaitsInVain | crates/mandala-context/src/client.rs:242-259 | Inside the whole system a call that may still wait is in the waiter table of an open connection |
| Multiplex.ReturnedCallsStayReturned | crates/mandala-context/src/client.rs:196-259 | A returned call keeps its reply through every later step of every connection |
| Client.NoOrphanWaiters | crates/mandala-context/src/client.rs:91-104 | Closed implies an empty waiter table for good, and every call still waiting already holds its reply; before that it is in the table |
| Client.SettlesAtMostOnce | crates/mandala-context/src/client.rs:196-259 | A filled slot keeps its first reply and a returned call its result through every later step |
| Client.Waiters.Register | crates/mandala-context/src/client.rs:288-298 | The call's critical section is the client machine's `Register`: refused once closed, else in the table with an empty slot of its own, no other slot changed |
| Client.Waiters.Settle | crates/mandala-context/src/client.rs:205-222 | One result frame is the machine's `Receive`: it empties exactly its own waiter and fills exactly that call's slot with the outcome it carries |
| Client.Waiters.Close | crates/mandala-context/src/client.rs:246-258 | The loop over the remaining waiters is the machine's one step `Hangup`: every call still waiting finds the connection lost, every filled slot keeps its outcome |
| Client.Waiters.Await | crates/mandala-context/src/client.rs:301-308 | A call returns exactly what its own slot holds |
| Protocol.OutcomeSurvivesTheWire | crates/mandala-context/src/host.rs:460-474 | The client reads back the id and outcome the host framed, a null result included |
| HostDrain.UnsettledCountsOpenCalls | crates/mandala-context/src/host.rs:341-376 | In every reachable state the counter is exactly the number of accepted calls dispatching, ready, queued or in the writer's hand, and never negative |
| HostDrain.DrainedMeansWritten | crates/mandala-context/src/host.rs:292-299 | When the counter reads zero every accepted call had its own result written, unless its socket's writes failed or the queue was abandoned after the drain |
| Endpoint.RunningHost.Shutdown | crates/mandala-context/src/host.rs:292-300 | The drain loop, with any number of steps of the other tasks between two polls, reports drained exactly when the last poll reads zero, and then every call accepted so far was answered on its socket or the socket is broken |
| Endpoint.RunningHost.WriterTurn | crates/mandala-context/src/host.rs:353-364 | One turn of the writer is the run receive, write, count: a result counts as settled only after its write |
| Endpoint.RunningHost.EmptyQueue | crates/mandala-context/src/host.rs:366-374 | After closing, the loop settles every queued result one by one and leaves nothing queued |
| Endpoint.RunningHost.AcceptCall | crates/mandala-context/src/host.rs:451-457 | A call is counted before its task exists |
| Endpoint.RunningHost.SendResult | crates/mandala-context/src/host.rs:475-479 | A task whose writer is gone settles the counter itself, otherwise it queues its frame |
| Fleet.MutationsRunAtMostOnce | crates/mandala-context/src/fleet.rs:328-358 | Over real connections, all other clients, any deaths, promotions and late deliveries: the dispatches a non-idempotent call leads to, by every host there ever was and in this process together, are at most one, those of an idempotent call at most two; each ran the tool and arguments asked for and serves no other call |
| Fleet.AnswersWereExecuted | crates/mandala-context/src/fleet.rs:281-297 | A call that returned a value or a tool's error was executed by its last attempt, with that very end |
| Session.AttemptsAreBounded | crates/mandala-context/src/fleet.rs:328-358 | The discipline behind it: one attempt, or two for an idempotent call; a failover error says it was retried exactly for idempotent calls, with two attempts, and otherwise after one |
| Session.OneAcquisitionPerLostClient | crates/mandala-context/src/fleet.rs:253-276 | However many callers lost one connection it is replaced at most once; a session leads at most once and never follows a host of its own |
| Session.PromotedMeansLed | crates/mandala-context/src/fleet.rs:328-358 | A failover error that reports promotion is true |
| SessionCall.Call | crates/mandala-context/src/fleet.rs:328-358 | The program's call follows the modelled caller on the same answers, and what it saw, where it tried, what it reported lost and what it returned are one line of a table written without that machine |
| SessionCall.SettlingSays | crates/mandala-context/src/fleet.rs:328-358 | What the table says: a failover is reported as retried iff the call is idempotent; an idempotent call whose re-race succeeded takes a second snapshot and tries again wherever it points; a value or tool error is the last answer; a closed role and a failed race give their own errors |
| SessionCall.SharedRole.Reacquire | crates/mandala-context/src/fleet.rs:253-276 | The critical section is the model's `Reacquire`: the role changes only if it still follows the stale connection and the acquisition succeeds, and the answer tells what it is then |
| SessionCall.SharedRole.Snapshot | crates/mandala-context/src/fleet.rs:239-245 | The snapshot is the host led, the connection followed, or nothing once closed |
| SessionCall.SharedRole.Shutdown | crates/mandala-context/src/fleet.rs:228-236 | Shutdown closes the role and hands back the old one |
| TailerRuns.TailingEqualsOneShotReading | crates/mandala-core/src/runner.rs:563-609 | For any schedule of appends cut anywhere and polls, a file's routed lines are exactly those of one read of the part seen, in order, once each, with the offset past a newline right after them |
| TailerRuns.Utf8FilesAreReadCompletely | crates/mandala-core/src/runner.rs:563-609 | A UTF-8 file polled to its end has had every complete line routed and only a partial line is left |
| TailerRuns.FinalModelsAreFoldsOfTheFiles | crates/mandala-core/src/runner.rs:637-661 | With everything polled, a host, the build or the nixlog that a single file reports on is exactly the fold of that file's records, whatever was interleaved |
| Tailer.ModelsAreFolds | crates/mandala-core/src/runner.rs:637-661 | After routing any log every host model, the build model and the nixlog are the folds of their own records, and a host is listed exactly when it has one |
| Tailer.EventTailer.Poll | crates/mandala-core/src/runner.rs:563-609 | One poll takes every listed file once in name order from its recorded offset to the first line it cannot take, and counts the lines it routed |
| Tailer.GrowthDuringATurnIsSeenAtOnce | crates/mandala-core/src/runner.rs:577-606 | Bytes appended in the middle of a file's turn change nothing about it: wherever the turn stands, going on ends where one read of the grown file from the recorded offset would |
| Tailer.EventTailer.Route | crates/mandala-core/src/runner.rs:637-661 | Routing one line takes the view to what its record makes of it and leaves every other host as it was |
| Tailer.RecordsGoWhereTheySay | crates/mandala-core/src/runner.rs:637-661 | Of versions 1 and 2, a `nixlog` record goes to the log, any other of the `build` plugin to the build, any other naming a host to that host; everything else changes nothing |
| Tail.ResumedReadContinues | crates/mandala-core/src/runner.rs:577-600 | Reading a grown file from where an earlier read stopped delivers exactly the missing lines of a read of the whole |
| OutputLog.Mirror.Sync | crates/mandala-core/src/runner.rs:1268-1302 | However often a growing log was synced before, offset and bounded mirror are those of one read of the file as it is now |
| OutputLog.CleanTrimsTheEnd | crates/mandala-core/src/runner.rs:1294-1294 | A mirrored line is the line read without exactly its trailing carriage returns and newlines |
| HostOutcome.HostStateIsTheOutcome | crates/mandala-core/src/runner.rs:363-387 | After any events a host is rolled back iff a `rollback` milestone occurred; else the first `confirm`, `reboot-pending` or non-zero `done` decides; else the last milestone with one of the eight names, or pending |
| HostOutcome.HostRemembers | crates/mandala-core/src/runner.rs:363-387 | A host holds every milestone's name in order, and the code of its last completion |
| HostOutcome.HostKeepsLastLines | crates/mandala-core/src/runner.rs:324-387 | A host's lines are exactly the last 2000 line events |
| HostOutcome.BuildKeepsLastLines | crates/mandala-core/src/runner.rs:408-440 | The build's lines are exactly the last 200 line events |
| HostOutcome.BuildShowsTheLastReport | crates/mandala-core/src/runner.rs:408-440 | Each counter of the build pane, and its current item, is the last one a progress event gave |
| HostOutcome.BuildEnds | crates/mandala-core/src/runner.rs:408-440 | The build is done iff a completion came, and has the last one's code |
| HostOutcome.ReturnCodeIsZeroIffNoHostFailed | crates/mandala-core/src/runner.rs:667-678 | A clean exit stays zero iff no host saw a rollback or was first decided by a failure; any other code is kept |
| Events.HostRun.Feed | crates/mandala-core/src/runner.rs:363-387 | Feeding the object in place is one step of the fold the outcome theorem is about |
| Events.BuildModel.Feed | crates/mandala-core/src/runner.rs:408-440 | The same for the build pane's counters, lines and status |
| EventWriter.StreamStaysInBudget | crates/mandala-core/src/runner.rs:205-230 | A build stream opened at or under 16 MiB never exceeds it, its size is what was there plus what was written, and each writer leaves at most one notice |
| EventWriter.DetailIsAPrefix | crates/mandala-core/src/runner.rs:175-230 | The non-terminal records written are a prefix of those passing the filter, all of them until the cap is reached |
| EventWriter.NothingIsLostUnderTheCap | crates/mandala-core/src/runner.rs:165-235 | While what passes the filter fits in front of the reserve, all of it is written, in order, and the stream is not cut off |
| EventWriter.WhatPasses | crates/mandala-core/src/runner.rs:165-204 | Every record but an unwanted log line passes the filter |
| EventWriter.TerminalRecordsAreKept | crates/mandala-core/src/runner.rs:193-230 | From an empty file every terminal record is written in order while terminal records and the notice fit 64 KiB together |
| EventWriter.ReserveIsExact | crates/mandala-core/src/runner.rs:205-230 | A list of terminal records is written whatever detail surrounds it, and likewise whatever detail of ordinary size does, if and only if its size and the notice fit 64 KiB together |
| EventWriter.ExcessCanBeLost | crates/mandala-core/src/runner.rs:205-230 | For every total past the reserve there are detail records of 1 KiB each after which some terminal record is missing |
| EventWriter.EventFile.EmitAt | crates/mandala-core/src/runner.rs:165-235 | Emitting in place is one step of the stream those theorems are about; on any stream but the build's every record is written |
| BuildLog.FilteringTwiceChangesNothing | crates/mandala-core/src/build_log.rs:15-34 | A fresh filter run over its own output keeps everything and ends tracking the same activities |
| BuildLog.TrackedAreTheRunning | crates/mandala-core/src/build_log.rs:15-34 | The tracked set is exactly the activities whose kept start has not been stopped since |
| BuildLog.KeptReferencesAreRunning | crates/mandala-core/src/build_log.rs:26-30 | Every kept stop or result refers to an activity running at that point |
| BuildLog.BuildLogFilter.Retain | crates/mandala-core/src/build_log.rs:15-34 | A line is kept iff it starts one of the ten kept kinds, stops a tracked activity, gives one of six kinds of result for one, or is a message of the two severest levels; starts are tracked, stops untracked |
| BuildLog.BoundString | crates/mandala-core/src/build_log.rs:41-48 | Stepping back from 8192 to a character boundary, truncating and appending the marker computes `Bounded` |
| BuildLog.BoundedIsWellFormed | crates/mandala-core/src/build_log.rs:41-48 | A string of at most 8192 bytes is unchanged; a longer one is cut at the last character boundary within them, less than a character short, and marked; either stays UTF-8 |
| BuildLog.BoundedValueFits | crates/mandala-core/src/build_log.rs:39-53 | After bounding, every string anywhere in a JSON value keeps that limit and stays UTF-8 |
| BuildLog.SmallValueIsUntouched | crates/mandala-core/src/build_log.rs:39-53 | A value without oversized strings, at any depth, is left exactly as it is |
| Process.NoSignalToARecycledGroup | crates/mandala-deploy/src/process.rs:28-73 | With pids reused after reaping every signal ever sent hit an unreaped process spawned here; a registered group belongs to an unreaped guard whose pid is still its own |
| Process.GoneGuardWasReapedOrShot | crates/mandala-deploy/src/process.rs:28-121 | In every run, whatever way a guard goes, its child had been reaped by then or was itself sent a signal |
| Process.NothingIsLeftBehind | crates/mandala-deploy/src/process.rs:28-121 | Every process spawned here and reaped by nobody is still guarded, or its own group was signalled |
| Process.RegistryIsCompleteIffNoStaleRemoval | crates/mandala-deploy/src/process.rs:36-73 | All along a run the registry equals the owned unreaped groups if and only if no reaped guard is dropped, or waited on again, while its old pid is registered for another group |
| Process.StepStaysExactIffNotStale | crates/mandala-deploy/src/process.rs:36-73 | The same for every single step |
| Process.RecycledGroupEscapesTermination | crates/mandala-deploy/src/process.rs:36-73 | A late drop, and likewise a second wait, unregisters a newer group that a forwarded signal then misses |
| Process.ForwardReachesEveryGroup | crates/mandala-deploy/src/process.rs:236-252 | A sweep of a complete registry signals every owned group's own process |
| ProcessRegistry.Children.Spawn | crates/mandala-deploy/src/process.rs:75-97 | Fork and registration are one critical section, refused exactly while stopping, and then nothing changes |
| ProcessRegistry.Children.TryWait | crates/mandala-deploy/src/process.rs:111-121 | A poll reaps exactly an exited child, and takes its group out of the registry in the same step; no signal is sent |
| ProcessRegistry.Children.WaitStd | crates/mandala-deploy/src/process.rs:111-121 | The whole polling wait is a run of the machine; a status is reported for a leader reaped and unregistered in one step, or at once for one reaped before |
| ProcessRegistry.Children.Drop | crates/mandala-deploy/src/process.rs:64-73 | Dropping a guard sends one signal to its own process's group if it was not reaped, none otherwise, and removes guard and entry |
| ProcessRegistry.Children.Forward | crates/mandala-deploy/src/process.rs:236-244 | The loop signals every registered group, and no other, exactly as they stand under the lock |
| EvalWorkers.RegisteredPidsAreUnreaped | crates/mandala-core/src/eval.rs:35-39 | The registered pids are exactly those of usable workers, each held by its own unreaped process, and no signal ever hit anything else |
| EvalWorkers.ShutdownIsComplete | crates/mandala-core/src/eval.rs:56-65 | After a sweep every usable worker was sent SIGKILL, and so was every unreaped process of ours unless its worker is already being ended or is bound to be refused |
| EvalWorkers.OnlyTheLockHolderAfterTheLatch | crates/mandala-core/src/eval.rs:357-406 | Once the latch is set at most the one spawn holding the registry's lock at that moment still becomes usable, and no spawn that begins later does |
| EvalWorkers.NoWorkerAfterTheSweep | crates/mandala-core/src/eval.rs:56-65 | From the sweep on no spawn, begun before or after, yields a usable worker |
| EvalWorkers.LockHolderBecomesUsable | crates/mandala-core/src/eval.rs:392-399 | The exception is real: from any state in which a spawn may re-check before the latch is set, it can end usable after it |
| Evaluator.Workers.Register | crates/mandala-core/src/eval.rs:392-399 | The last step of a spawn re-checks the latch under the lock and then pushes, and a latch stored in between does not stop the push |
| Evaluator.Workers.Deregister | crates/mandala-core/src/eval.rs:480-490 | The registry afterwards is the old one without the dropped worker's pid and with every other pid |
| Evaluator.Retain | crates/mandala-core/src/eval.rs:480-490 | One pass keeps every other pid, in order |
| Evaluator.Workers.Sweep | crates/mandala-core/src/eval.rs:58-64 | The loop sends SIGKILL to the process of every registered pid, and to nothing else |
| Evaluator.Caller.WorkerCall | crates/mandala-core/src/eval.rs:271-335 | A call makes at most two requests under fresh ids; only a transport failure is retried, on a fresh worker; a verdict is returned exactly when the last request was answered under its own id, and only then does the worker live on |
| Evaluator.Caller.Reload | crates/mandala-core/src/eval.rs:255-265 | Reloading drops the worker, so the next call starts a fresh one; ids go on unrepeated |
| Evaluator.RoundtripOf | crates/mandala-core/src/eval.rs:412-452 | Only an object echoing the request's id is an answer, only a missed deadline is a timeout; an answer carries the value exactly when it says ok, else its error or the stock message |
| Inventory.CanonicalFormResolvesToItself | crates/mandala-core/src/inventory.rs:483-485 | On every validated inventory, resolving the canonical form of a resolved selector gives the same list |
| Inventory.CanonicalFormIsInjective | crates/mandala-core/src/inventory.rs:483-485 | Two selectors have the same confirm token iff they resolve to the same list |
| Inventory.ResolutionIsCanonical | crates/mandala-core/src/inventory.rs:411-446 | A successful resolution is a non-empty strictly ascending list of members |
| Inventory.OrderAndSeparatorDoNotMatter | crates/mandala-core/src/inventory.rs:417-429 | Reordering or repeating parts and exchanging the two separators changes neither success nor the result |
| Inventory.EmptySelectorIffOnlyEmptyExclusions | crates/mandala-core/src/inventory.rs:431-436 | The empty-selector error means exactly that every part excludes something known and empty |
| Inventory.BareExclusionMeansAllBut | crates/mandala-core/src/inventory.rs:431-438 | A bare exclusion of a member denotes the rest of the fleet |
| Inventory.WhoIsChosen | crates/mandala-core/src/inventory.rs:411-446 | Member by member: a resolution holds whom some included part names, or everybody if none is included, unless an excluded part names them |
| Inventory.ExcludingTakesOneOut | crates/mandala-core/src/inventory.rs:411-446 | Adding `!name` to any selector takes exactly that member out of what it gives, and is an error if nobody is left |
| Inventory.SideBySideIsTheUnion | crates/mandala-core/src/inventory.rs:411-446 | Two selectors that exclude nothing give together the sorted union of what each gives |
| Inventory.OnePartGives | crates/mandala-core/src/inventory.rs:455-474 | `all` and `@all` give the whole fleet, `@group` exactly the group's members, a name that member; an unknown group or name gives its own error |
| Inventory.Resolve | crates/mandala-core/src/inventory.rs:411-446 | The parsing loop computes the set meaning of the parts, or the error of the first part that names nothing |
| Inventory.Gather | crates/mandala-core/src/inventory.rs:417-429 | The accumulated sets are the unions of what the included and the excluded parts denote |
| Inventory.ResolvePart | crates/mandala-core/src/inventory.rs:455-474 | One atom: everything for `all` and `@all`, a group's members, one member, or the error that says which, with the known groups in order |
| Inventory.ToLimit | crates/mandala-core/src/inventory.rs:483-485 | The confirm token is the comma-joined resolution, errors passed on |
| Inventory.Construct | crates/mandala-core/src/inventory.rs:257-307 | A schema other than the supported one is refused first; else exactly the aggregates whose member keys are bare host labels matching their names and whose groups are addressable and known are accepted, and any other is refused with its first fault |
| Inventory.CheckMembers | crates/mandala-core/src/inventory.rs:271-290 | The loop stops at the first faulty member in key order and says what is wrong with it |
| Inventory.CheckGroups | crates/mandala-core/src/inventory.rs:291-307 | Likewise for groups: a reserved name or an unknown member |
| Selector.SplittingUndoesJoining | crates/mandala-core/src/inventory.rs:417-417 | Splitting the joined form gives back the names |
| Selector.SeparatorsAreInterchangeable | crates/mandala-core/src/inventory.rs:417-417 | Comma and colon split alike, occurrence by occurrence |
| Selector.PiecesAppend | crates/mandala-core/src/inventory.rs:417-417 | A comma or a colon between two selectors splits them apart |
| Selector.TrimTakesTheEnds | crates/mandala-core/src/inventory.rs:418-418 | Trimming takes exactly the white space at both ends |
| Ansi.FilterAnsi | crates/mandala-tui/src/ansi.rs:29-62 | The fused scan equals dropping all leftmost control sequences not ending in `m` and then deleting the listed control bytes |
| Ansi.FilterAtASequence | crates/mandala-tui/src/ansi.rs:32-47 | A sequence ending in `m` stays as it is, any other goes |
| Ansi.FilterAtAByte | crates/mandala-tui/src/ansi.rs:51-57 | Outside sequences control bytes and DEL go, and every other byte stays, tab, newline and escape included |
| Ansi.CsiIsUnique | crates/mandala-tui/src/ansi.rs:10-11 | A text starts with at most one control sequence, so the leftmost match is well defined |
| Ansi.FilteredTextIsUtf8 | crates/mandala-tui/src/ansi.rs:60-61 | UTF-8 input gives UTF-8 output, so the lossy fallback is never reached |
| Utf8.EncodingIsOneCharacter | crates/mandala-tui/src/ansi.rs:60-61 | The encoding of every code point is read as one character, whatever follows |
| Utf8.CharacterIsAnEncoding | crates/mandala-tui/src/ansi.rs:60-61 | And every character is the encoding of a code point, so well-formed text is what UTF-8 says |
| Ansi.FilteringTwiceChangesNothingIff | crates/mandala-tui/src/ansi.rs:29-62 | A second run changes nothing if and only if no escape that starts no sequence of the input is followed there, over control bytes and whole dropped sequences, by the body of one not ending in `m` |
| Ansi.UncoversIff | crates/mandala-tui/src/ansi.rs:29-62 | Reading the input on like that says exactly when what the run leaves behind an escape makes a sequence it would drop |
| Ansi.WellFormedEscapesAreSettledAtOnce | crates/mandala-tui/src/ansi.rs:29-62 | So one run is enough whenever every escape of the input starts a control sequence |
| Ansi.DeletingAControlByteExposes | crates/mandala-tui/src/ansi.rs:51-55 | Any control byte between an escape and the plain body of a droppable sequence makes the second run change something |
| Ansi.DroppingASequenceExposes | crates/mandala-tui/src/ansi.rs:32-47 | So does any dropped sequence there, without a control byte in the text |
| Quoting.NixSeesTheSshArguments | crates/mandala-deploy/src/lib.rs:124-151 | Tokenizing the Nix option string under the POSIX quoting rules gives back exactly the ssh arguments |
| Quoting.TokenizingUndoesQuoting | crates/mandala-deploy/src/lib.rs:154-166 | The same for every list of arguments, empty ones and ones with blanks and quotes included |
| Quoting.QuotingIsInjective | crates/mandala-deploy/src/lib.rs:144-166 | Different argument lists never quote to the same string |
| Quoting.ShellWord | crates/mandala-deploy/src/lib.rs:154-166 | A word is left as it is iff it is non-empty and all its characters are safe |
| Quoting.OrdinaryWordsStayBare | crates/mandala-deploy/src/lib.rs:154-166 | Paths, options, hosts and addresses stay unquoted |
| Quoting.DecimalWritesTheNumber | crates/mandala-deploy/src/lib.rs:124-126 | The port is written in decimal digits without a leading zero |
| Quoting.DeclaredEndpointWins | crates/mandala-deploy/src/lib.rs:121-123 | As Nix tokenizes them, the first port and identity operands are the declared ones whatever the free-form options say |
| Quoting.SshArgs | crates/mandala-deploy/src/lib.rs:124-142 | The vector is built as the port, 22 if none is declared, the identity with its two options if there is one, then the free-form options |
| RunId.TextOrderIsChronological | crates/mandala-core/src/registry.rs:79-106 | On valid ids the timestamps compare as text exactly as the instants they name, so an id that sorts earlier never started later |
| RunId.FieldOrderIsTimeOrder | crates/mandala-core/src/registry.rs:99-100 | Calendar fields compare as day, second and nanosecond do, leap years and leap seconds included |
| RunId.YearsAreGregorian | crates/mandala-core/src/registry.rs:99-100 | The days before a year follow the Gregorian rule for leap years |
| RunId.MonthsFillTheYear | crates/mandala-core/src/registry.rs:99-100 | Each month starts on its day of the year, and the months fill the year |
| RunId.DigitsCompareAsNumbers | crates/mandala-core/src/registry.rs:98-99 | Digit strings of one length compare as the numbers they write |
| RunId.FoldIsTheNumber | crates/mandala-core/src/registry.rs:100-105 | The fold is the number the digits write if and only if that fits 64 bits |
| RunId.OverflowsIff | crates/mandala-core/src/registry.rs:100-105 | Some addition of the fold overflows if and only if the number without the zeros at its end exceeds 64 bits |
| RunId.FoldSaturates | crates/mandala-core/src/registry.rs:100-105 | Without overflow the fold is the number, or the largest of 64 bits |
| RunId.PositiveNumberIsRefusedIff | crates/mandala-core/src/registry.rs:100-105 | A positive process number is refused if and only if its last digit other than zero wraps the fold to zero: a 6 behind 1844674407370955161, a 1 behind more |
| RunId.PositiveNumberIsRefusedIffItEndsInOne | crates/mandala-core/src/registry.rs:100-105 | Up to ten times 64 bits the positive numbers refused are exactly 2^64 and the larger ones ending in 1 |
| RunId.OverflowStartsAnew | crates/mandala-core/src/registry.rs:100-105 | After an overflow the fold goes on as if the number had begun with the one digit left |
| RunRegistry.Directory.PrunePolicy | crates/mandala-core/src/registry.rs:297-325 | The pruning loop leaves exactly the entries that are no runs, live, or inactive, unexpired and among the first `keep` inactive ones |
| RunRegistry.WhoStays | crates/mandala-core/src/registry.rs:297-325 | Told from the ids, what `meta.json` records and which pids are alive: a run stays iff one of its pids, or while it is unpublished the number in its id, is non-zero and alive, or it has not expired and fewer than `keep` newer runs are without such a pid; it keeps its `meta.json` |
| RunRegistry.ALivingOwnerProtects | crates/mandala-core/src/registry.rs:299-313 | A living recorded process, supervisor or allocating process protects a run whatever its age and the cap |
| RunRegistry.Directory.ListRuns | crates/mandala-core/src/registry.rs:247-275 | The listing holds exactly the valid ids, strictly descending |
| RunRegistry.PruningTwiceChangesNothing | crates/mandala-core/src/registry.rs:297-325 | Pruning again with the same clock and liveness changes nothing |
| RunRegistry.StaysIffWithinCap | crates/mandala-core/src/registry.rs:297-325 | An inactive run stays iff it is unexpired and the unexpired runs at least as recent and the newer expired ones are at most `keep` together |
| RunRegistry.KeepsTheMostRecentUnexpired | crates/mandala-core/src/registry.rs:297-325 | For a run not started strictly inside a leap second at the end of its day: it stays iff it is unexpired and among the `keep` most recent unexpired inactive runs |
| RunRegistry.ExpiredRunPushesOutTheOther | crates/mandala-core/src/registry.rs:297-325 | With a cap of one, an expired run that is newer removes the most recent unexpired one and goes itself |
| RunRegistry.TheOnlyUnexpiredRunIsRemoved | crates/mandala-core/src/registry.rs:297-325 | Two concrete run ids for which this happens: pruning leaves nothing |
| RunRegistry.OnlyOlderRunsAreRemoved | crates/mandala-core/src/registry.rs:320-323 | A run removed for the cap started no later than any inactive run that stays, and at least `keep` inactive runs sort after it |
| RunRegistry.AtMostKeepInactiveRunsRemain | crates/mandala-core/src/registry.rs:320-323 | At most `keep` inactive runs are left |
| RunRegistry.ExpiresByAge | crates/mandala-core/src/registry.rs:314-319 | Outside the lingering case a run expires when as many days have passed as the limit says, counted from its time of day, and never without a limit |
| RunRegistry.OlderRunsExpireFirst | crates/mandala-core/src/registry.rs:314-319 | An older run expires no later than a newer one unless it started strictly inside a leap second at the end of its day |
| RunRegistry.LingeringRunsOutliveNewerOnes | crates/mandala-core/src/registry.rs:314-319 | Every such start can outlive a newer one, so the condition is exact |

## Left out

- Sockets, JSON text, file permissions and temporary files: messages are datatypes, a file is an append-only byte sequence, and a parser is a parameter.
- Timers (handshake timeout, back-offs, drain grace, heartbeats, the forwarder's two seconds): each is a choice made by the environment, bounded only where the code counts.
- Tokens: opaque; how they are minted, rotated and stored is not modelled, and a probe's verdict is what the host answers.
- The FNV hash of the checkout path: any 64-bit value.
- Ping, subscribe and heartbeat frames: they share the writer's queue as frames that settle nothing; the activity stream drops events by design.
- A host whose dispatch panics, and the wrap-around of 64-bit call ids, offsets and counters.
- Fleet.MutationsRunAtMostOnce: what one dispatch does inside a tool is not modelled; counted are dispatches, by the hosts of this session's connections and in this process.
- Session: re-subscription after a timed-out acknowledgement re-acquires as a caller does, so the model lets it happen for a connection that is still alive.
- Tailer.EventTailer.Poll: reads one snapshot of each file during that file's turn; that growth in between makes no difference is Tailer.GrowthDuringATurnIsSeenAtOnce, a lemma beside it.
- Process.NoSignalToARecycledGroup: a spawn the operating system refuses changes nothing and is not a step; the engine's second sweep is the first one repeated; the asynchronous runtime may reap an orphan only after its guard is gone.
- Children's output pipes and exit statuses.
- Evaluator.Caller.WorkerCall: request bodies and pipe buffering are not modelled; what an exchange comes to is a parameter.
- BuildLog.BoundString: JSON objects are lists of fields, and the recursion over nested values is a function on values rather than an update in place.
- Inventory.Construct: says which fault was found, not the message's text; controller projections and the JSON reader's own type errors are left out.
- Order.Sort: ordered sets and in-place sorts of the source are modelled as the one ascending listing of a set of strings.
- RunRegistry.Directory.PrunePolicy: deletions succeed; liveness is a set of pids fixed for one pruning.
- ListRuns ignores directory entries that are not directories before the model sees them.
- The discovery of a launched run, deployment, pushing, drift comparison, the Nix evaluator and forest crates, and every user interface.
- RunId.PositiveNumberIsRefusedIff: arithmetic without overflow checks; with them the addition panics, exactly where RunId.OverflowsIff says.
- Identity.OverflowRepeatsAPort: likewise; with overflow checks the walk, and the derived port, panic where they would wrap, exactly when Identity.NoOverflowIffAllAdd fails.
- ElectionSafety.OneHostAtATime: a host that has begun to refuse connections counts as no longer serving, so the next leader may already bind a later port while it drains; each probe and each bind is one atomic step.
