# engine-toold, verified

`engine-toold` is a desktop daemon that claims leased workloads from a cloud, runs them locally and reports back. This
project models its stateful cores in Dafny and proves what they keep over every run.

| part | modules |
|---|---|
| job database and its transactional sweep | `JobQueue`, `Recovery` |
| scheduler, runners, heartbeats, IPC calls, crashes and reboots as one small-step machine | `Engine` |
| what every step and every run of that machine keeps | `EngineInvariants`, `Ledger`, `Protocol`, `EngineTheorems`, `EngineEffects`, `FrozenRows`, `GhostActivity` |
| the scheduler's own sequential code, shown to be paths of the machine | `Scheduler`, `TickLoop` |
| token cache, 401 ladder, pairing, unpairing | `Auth`, `ClaimLadder`, `ContendedLadder`, `RefreshTokens`, `Pairing`, `UnpairHandler` |
| log hub: ring, bounded queues, fan-out | `LogRing`, `Delivery`, `DropOldest`, `LogFanout`, `FanoutTheorems`, `LogHub` |
| resumable clip loop, progress pump, stream reconnect | `ClipLoop`, `ClipRace`, `Progress`, `Backoff` |

`dafny verify dfyconfig.toml` checks everything.

**How the machine is built.** Every store call, cloud call and atomic access is one step. An action names the step
together with everything the environment decides (results, ids, listing orders), so the step is a function and a run is a
sequence of actions; a theorem over all runs quantifies over all such sequences. Slot, lease and runner of one claim share
one number. The code that a goroutine executes is written a second time as ordinary methods over the store, the slot
manager and the token source, and each method is shown to walk a path of the machine, so the theorems speak about that
code.

**What holds only under a condition.** Several things one might expect of the code are false in general; each has an
exact condition, proved in both directions, and a run in which it fails:

- A cancelled job can be overwritten by the run already under way, because `UpdateStatus` is unguarded. A terminal row is
  final if and only if the daemon is shutting down, or no run in flight and no pending boot-recovery write could still give
  it another status (`FrozenRows.TerminalRowIsFinalIff`, `FrozenRows.CancelDuringRunIsFinalIff`).
- The newest log event can be lost, because publishers dispatch outside the hub lock: an older publisher's send can take
  the room a newer one has just made. A delivery lands if and only if the channel has room at its last send; a full
  channel there needs another delivery to the same subscriber in between, so deliveries that do not overlap lose nothing
  new (`FanoutTheorems.DeliveryLandsIff`, `FanoutTheorems.FullAtRetryNeedsAnother`,
  `FanoutTheorems.AloneNothingNewIsLost`, `FanoutTheorems.NewestEventCanBeLost`).
- Nothing orders `close(s.ch)` after a delivery that already passed the closed check. Some continuation sends on the
  closed channel if and only if a delivery to that subscriber is under way when it is closed
  (`FanoutTheorems.CloseCanPanicIff`, `FanoutTheorems.CloseRace`).
- After a cleanly answered unpair the keystore can fill up again. The token cache is not cleared: force-unpair device A
  while the cloud is unreachable, pair B, unpair B cleanly; A is still cached and still alive. And the handler does not
  take the token source's mutex: a refresh accepted before the unpair is saved after it, with one device and no force.
  The keystore stays empty if and only if the cache holds nothing or a device that is gone after the unpair, and no
  accepted refresh is in flight; with at most one live device per installation, if and only if none is in flight
  (`Pairing.CleanUnpairIsFinalIff`, `Pairing.WithOneDeviceUnpairIsFinalIff`, `Pairing.ForcedUnpairCanComeBack`,
  `Pairing.RefreshOvertakesUnpair`).
- A refresh request can carry an old token: exactly when saving the newest one failed and the cache was then dropped, by
  `Invalidate` or by a restart (`RefreshTokens.NewestRefreshToken`, `RefreshTokens.OldTokenIsSentAfterFailedSave`).
- A park can end without ReauthRequired showing: exactly when a Resume is half way through its two stores, or cleared the
  flag between the two stores of the park (`EngineTheorems.ParkShowsReauthIff`, `EngineTheorems.ResumeRaceHidesReauth`).
- An output can be recorded twice: exactly when an attempt reaches an index that is recorded but that it does not know
  (`ClipLoop.RecordedOnceIff`, `ClipLoop.SavedAfterAttempt`, `ClipLoop.EachConditionIsNeeded`).
- With overlapping attempts an output can be recorded twice although nothing fails. Until another attempt starts it never
  is, however the attempts interleave, if and only if no attempt has an index ahead that is recorded already and no two
  have the same index ahead (`ClipRace.RecordedOnceIffNoClash`, `ClipRace.StartClashesIff`, `ClipRace.OverlapRecordsTwice`).
- `close()` can leave the log stream open: exactly when a connect is still waiting for its token or a source other than the
  current one is open (`Backoff.CloseEndsTheStreamIff`, `Backoff.CloseOutlivedByConnect`).

Unpair handlers do not exclude each other: the Clear of one can wipe a pairing made after another had answered 200
(`Pairing.ClearWipesNewPairing`). Without a pair between its DELETE and its Clear a confirmed unpair wipes no living
pairing (`Pairing.WithOneDeviceUnpairIsFinalIff`).

Retrying an unpair until 200 ends like one uninterrupted unpair once some sweep has committed. A sweep that fails does not
stop the handler, so without one the rows stay as they were (`UnpairHandler.RetryConverges`).

**Where code and comments differ**, the code is followed. The package comment of `internal/ipc/handlers_unpair.go` (lines
20-25) presents a swept queue as the state before the keystore is cleared; the handler clears it after a failed sweep too
(lines 119-129). The comment on `PendingRecovery` says it drives `Executor.Recover`; `recoverPending` only marks rows
failed, and after a successful boot sweep it finds none. The comment in `Subscribe` says the lock is held across replay
and registration; the lock covers the snapshot, and delivery of the replay happens after it is dropped.

## Model

| member | source | states |
|---|---|---|
| `JobQueue.Store.Cancel` | internal/jobqueue/store.go:105-125 | succeeds exactly for an existing non-terminal row and healthy statements; the two error sentinels exactly for a missing and a terminal row; any error leaves the database as it was |
| `JobQueue.Store.CreateJob` | internal/jobqueue/store.go:140-154 | inserts a queued row with that workload and lease exactly when PRIMARY KEY and UNIQUE(workload_id) allow it, and touches no other row; UNIQUE is kept |
| `JobQueue.Store.GetByWorkloadId` | internal/jobqueue/store.go:183-204 | finds a row exactly if one carries the workload, the only one under UNIQUE; NotFound is told apart from a failed read |
| `JobQueue.Store.UpdateStatus` | internal/jobqueue/store.go:246-255 | replaces any status by any other, unguarded, and nothing else |
| `JobQueue.Store.UpdateLease` | internal/jobqueue/store.go:271-281 | replaces the lease of one row, nothing else |
| `JobQueue.Store.StartAttempt` | internal/jobqueue/store.go:344-353 | appends one open attempt and returns its id; refused for an unknown job (foreign key) |
| `JobQueue.Store.FinishAttempt` | internal/jobqueue/store.go:356-366 | closes exactly that attempt; an unknown id changes nothing |
| `JobQueue.Store.AttemptCount` | internal/jobqueue/store.go:370-376 | the number of attempt rows of the job, as the size of their set |
| `Recovery.CollectIds` | internal/jobqueue/recovery.go:100-120 | lists exactly the matching rows, each once, or fails where a scan fails |
| `Recovery.FailActive` | internal/jobqueue/recovery.go:67-158 | fails exactly when an argument is empty or the faulty statement is reached, and then the database is the old one; otherwise it is the sweep of the listed rows and the count is the number of matching rows |
| `Recovery.RecoverOrphaned` | internal/jobqueue/recovery.go:43-48 | once committed exactly the running rows are failed, with one `orphan_failed` event each and the default reason; the count is their number |
| `Recovery.SweepActiveToFailed` | internal/jobqueue/recovery.go:56-61 | once committed every row is terminal: queued and running rows are failed with one `unpair_failed` event each, terminal rows are as they were, and the count is the number of rows failed |
| `Recovery.SweepIsExact` | internal/jobqueue/recovery.go:129-151 | a committed sweep turns exactly the matching rows to failed, adds exactly one event for each, touches nothing else and leaves no row matching |
| `Recovery.SecondSweepIsNoop` | internal/jobqueue/recovery.go:37-48 | whatever a second sweep lists, it lists nothing and changes nothing |
| `EngineInvariants.ShapeStep` | internal/runtime/scheduler.go:78-330 | every step of scheduler, runners, IPC, crash and boot keeps UNIQUE, the heartbeat's life cycle, the slot count and the relation of re-auth flag and pause flag |
| `EngineTheorems.InvAlways` | internal/runtime/scheduler.go:78-330 | slot, lease, heartbeat, call and parking accounts hold in every reachable state |
| `EngineTheorems.SlotConservation` | internal/runtime/resources/manager.go:81-109 | in every run, runners releasing between check and add included: `active` is the number of held slots, within 0 and the limit; each slot of the process is freed exactly once unless still held, none ever twice |
| `EngineTheorems.LeaseAccounting` | internal/runtime/scheduler.go:150-330 | whatever store, cloud and executor answer: each lease has at most one closing call, exactly one unless a tick or run still has it open; since boot, claims = closing calls + open leases |
| `EngineTheorems.ClosingCallsAreJustified` | internal/runtime/scheduler.go:173-330 | Complete, Fail (with its retryable flag) and Surrender are sent only for what actually happened under that lease; a lease is surrendered only if nothing was executed and no terminal row was seen |
| `EngineTheorems.HeartbeatsEndWithTheRun` | internal/sync/lease.go:28-63 | no heartbeat for a lease after its runOne returned; OnLost at most once |
| `EngineTheorems.ParkingHolds` | internal/runtime/scheduler.go:58-95 | between a park and the next tick there is a Resume or a new process; the re-auth flag is shown without the pause flag only between the two stores of a park or Resume |
| `EngineTheorems.ParkShowsReauthIff` | internal/runtime/scheduler.go:58-72 | a park under way ends with ReauthRequired showing, and shows it until the next Resume, if and only if no Resume is between its two stores and none has cleared the flag just set |
| `EngineTheorems.ResumeRaceHidesReauth` | internal/runtime/scheduler.go:61-64 | from every state about to park, a Resume around the park ends paused without the flag |
| `EngineEffects.PauseHolds` | internal/runtime/scheduler.go:58-91 | after Pause no tick starts in any continuation until a Resume or the end of the process |
| `EngineEffects.ResumeWakes` | internal/runtime/scheduler.go:61-91 | after Resume the next tick can start whenever the loop is between ticks, until a Pause or a park |
| `EngineEffects.ResumeClears` | internal/runtime/scheduler.go:61-64 | Resume leaves both flags down |
| `EngineEffects.CancelMeans` | internal/jobqueue/store.go:105-125 | a queued or running row becomes cancelled; terminal rows, other rows and the running machine are untouched |
| `EngineEffects.UnpairSweepMeans` | internal/jobqueue/recovery.go:56-61 | in the machine too, the unpair sweep makes every row terminal and changes nothing else |
| `EngineEffects.ShutdownFreezes` | internal/runtime/scheduler.go:83-86 | shutdown cancels the context for the rest of the process, and every terminal row is final from then on |
| `EngineEffects.CrashLosesMemory` | cmd/engine-toold/main.go:124-138 | a crash loses runners, slots and flags and nothing that is stored |
| `EngineEffects.RecoveryLists` | internal/jobqueue/store.go:286-288 | recoverPending lists running rows only, at most 100, all of them if fewer; nothing after a successful boot sweep |
| `EngineEffects.BeatMeans` | internal/sync/lease.go:41-50 | a beat is sent; a good answer keeps the goroutine going, a bad one is reported once and ends it |
| `EngineEffects.LeaseIsHeartbeated` | internal/sync/lease.go:28-63 | in every run, between start and Stop the heartbeat is alive unless the lease was reported lost or the daemon is shutting down |
| `EngineEffects.StatusTellsTheCall` | internal/runtime/scheduler.go:304-329 | in every run, the status a runner writes is succeeded exactly if its closing call was Complete, and failed exactly if it was Fail |
| `Ledger.EntryStep` | internal/runtime/scheduler.go:138-330 | one step keeps the account of one lease and slot |
| `Ledger.BalancedStep` | internal/runtime/scheduler.go:150-330 | one step keeps claims = closing calls + open leases |
| `Protocol.HeartStep` | internal/sync/lease.go:28-63 | one step keeps the heartbeat account: beats end with the run, one loss at most |
| `Protocol.CallStep` | internal/runtime/scheduler.go:173-330 | one step keeps every closing call justified |
| `Protocol.AsleepStep` | internal/runtime/scheduler.go:84-95 | one step keeps a parked scheduler quiet |
| `FrozenRows.SettledForever` | internal/runtime/scheduler.go:213-330 | a terminal row that nothing in flight endangers keeps its status over every continuation, crashes, boots, cancels and sweeps included |
| `FrozenRows.NeverExecutedAgain` | internal/runtime/scheduler.go:258-276 | and its workload is never executed again |
| `FrozenRows.TerminalRowIsFinalIff` | internal/jobqueue/store.go:246-255 | over every continuation in which statements under a cancelled context fail, a terminal row is final if and only if the context is cancelled, or no run in flight and no pending recovery write could give it another status |
| `FrozenRows.SafeForever` | internal/runtime/scheduler.go:283-330 | once the context is cancelled every terminal row keeps its status, threatened or not, crashes and reboots included |
| `FrozenRows.RunnerCanOverwrite` | internal/runtime/scheduler.go:283-330 | while the context lives, from any state in which a run endangers the row there is a run that overwrites it |
| `FrozenRows.RecoveryCanOverwrite` | internal/runtime/scheduler.go:335-346 | while the context lives, a row still listed by recoverPending can be overwritten |
| `FrozenRows.CancelDuringRunIsFinalIff` | internal/jobqueue/store.go:98-125 | cancelling a job under way succeeds, and is final if and only if the daemon is shutting down |
| `GhostActivity.NoGhostActivity` | internal/runtime/scheduler.go:222-330 | while writes succeed since a swept boot: running rows are driven by a run, rows created since are active only while served, and with no tick or run in flight nothing is running and no slot is taken |
| `GhostActivity.CrashThenBoot` | cmd/engine-toold/main.go:124-138 | a crash at any point and a successful boot sweep turn exactly the running rows to failed with one event each, leave everything else (queued rows too) and re-establish the start of the previous property |
| `Scheduler.UpsertJobForWorkload` | internal/runtime/scheduler.go:213-276 | alone, it does exactly what the decision table says: which lookup, insert and lease results proceed with which row and attempt number, which surrender, which report; database and traffic included; every branch is a path of the runner |
| `Scheduler.Insert` | internal/runtime/scheduler.go:222-242 | no row yet: proceeds as attempt 1 of the new queued row exactly when the insert succeeds, otherwise surrenders and changes nothing |
| `Scheduler.UseRow` | internal/runtime/scheduler.go:243-275 | an active row is taken over, a terminal one is reported with its own status and left alone |
| `Scheduler.TakeOver` | internal/runtime/scheduler.go:244-257 | proceeds exactly when the lease was bumped, surrenders otherwise; the attempt number is the count plus one, or 1 if it cannot be read |
| `Scheduler.ReportBack` | internal/runtime/scheduler.go:258-275 | a succeeded row is reported Complete, any other terminal one Fail without retry |
| `Scheduler.BeginAttempt` | internal/runtime/scheduler.go:283-284 | mark running and open the attempt, errors ignored |
| `Scheduler.ExecuteJob` | internal/runtime/scheduler.go:297-316 | the outcome is the handle error, the execution error with the shutdown flag, or success, exactly as handle, executor and context decide; nothing is executed after a handle error |
| `Scheduler.ReportOutcome` | internal/runtime/scheduler.go:307-327 | the closing call for the outcome; retryable exactly for an execution error without shutdown |
| `Scheduler.RecordOutcome` | internal/runtime/scheduler.go:308-328 | the row is marked after the closing call, whatever the cloud answered |
| `Scheduler.CloseBooks` | internal/runtime/scheduler.go:309-329 | the attempt row is closed with the outcome |
| `Scheduler.StopHeart` | internal/sync/lease.go:57-63 | Stop cancels and waits until the heartbeat goroutine is gone |
| `Scheduler.RunJob` | internal/runtime/scheduler.go:283-330 | running mark, attempt, execution, closing call, outcome mark, attempt end and heartbeat stop, in that order, each ignoring the others' errors |
| `Scheduler.RunOne` | internal/runtime/scheduler.go:278-330 | alone, runOne leaves exactly the transcript and the database that the environment's answers determine: the row succeeded exactly if the handle opened and the executor returned nil, failed otherwise, the attempt and the closing call say the same, and unwritten statements leave what was there; and it is a path of the machine's runner from its start to the point where only the slot is left |
| `TickLoop.Manager.Reserve` | internal/runtime/resources/manager.go:81-100 | a slot exactly when below the limit at the check and the probes agree; whatever slots are given back between check and increment, the counter accounts for them and stays within the limit |
| `TickLoop.Slot.Release` | internal/runtime/resources/manager.go:103-109 | idempotent: only the first call decrements |
| `TickLoop.RunTick` | internal/runtime/scheduler.go:138-194 | a tick is a path of the machine with exactly the traffic of the branch taken; it takes a lease exactly when it got a slot and the cloud answered its last claim with work, and starts a runner exactly when an executor accepts it; a lease claimed and not run is surrendered; a slot not handed on is freed; it parks exactly when it got a slot and the ladder ended unauthorized |
| `TickLoop.UseSlot` | internal/runtime/scheduler.go:150-194 | the branch on the ladder's outcome, its traffic, and the deferred release |
| `TickLoop.Accept` | internal/runtime/scheduler.go:175-193 | a workload no executor takes is surrendered under the lease just claimed, otherwise the runner starts |
| `TickLoop.Park` | internal/runtime/scheduler.go:155-161 | both flags end up set and the park is logged, as a path of the machine, whose steps fix the order of the two stores |
| `TickLoop.RunAndRelease` | internal/runtime/scheduler.go:190-193 | the goroutine leaves the transcript and the database of runOne, then frees exactly its own slot and leaves the other runners and the tick alone |
| `TickLoop.RecoverPending` | internal/runtime/scheduler.go:335-346 | a path of boot recovery; exactly the listed rows whose write succeeds become failed, nothing else changes |
| `Auth.TokenIsCached` | internal/auth/source.go:31-131 | a token handed out is the cached session; a successful round trip leaves cache and keystore equal; a request carries the current bundle's refresh token |
| `Auth.TokenCallsKeepPromise` | internal/auth/source.go:31-131 | the same two promises of the calls as specified, so every result built on them has them |
| `Auth.RestartReloads` | cmd/engine-toold/main.go:111-115 | a restarted daemon's cache is the stored bundle, if it can be read |
| `Auth.TokenSource.BearerToken` | internal/auth/source.go:31-63 | a session with more than 300 s left is handed out without a refresh; otherwise the current refresh token is sent, and the rotated session, expiry and refresh token reach the cache even if the save fails, keystore and caller only if it succeeds |
| `Auth.TokenSource.ForceRefresh` | internal/auth/source.go:102-131 | the same with an unconditional round trip |
| `Auth.TokenSource.Invalidate` | internal/auth/source.go:88-93 | drops the cache, keeps the keystore |
| `Auth.TokenSource.Set` | internal/auth/source.go:134-140 | the bundle is cached even if saving fails |
| `Auth.TokenSource.Reset` | internal/auth/source.go:73-79 | the cache is dropped even if clearing fails |
| `ClaimLadder.ClaimOnce` | internal/sync/client.go:98-119 | one claim request with a bearer token; won exactly on an answer with work, no work exactly on 204; a refresh rejected on the way is an ordinary failure, not the 401 sentinel |
| `ClaimLadder.RunLadder` | internal/runtime/scheduler.go:106-136 | the in-place ladder leaves the tokens, the outcome and the traffic of the specified one |
| `ClaimLadder.LadderTellsTheAnswer` | internal/runtime/scheduler.go:106-136 | with or without recovery the ladder is won exactly if its traffic ends in a claim answered with work, and finds no work exactly if it ends in one answered 204 |
| `ClaimLadder.LadderIsBoundedAndParksSoundly` | internal/runtime/scheduler.go:97-136 | each rung only after a 401; the second claim uses the bundle reloaded from the keystore, or a session refreshed from it; the forced refresh sends the refresh token then cached; unauthorized if and only if two 401 claims were followed by a rejected forced refresh or a third 401 |
| `ClaimLadder.LadderBounds` | internal/runtime/scheduler.go:103-136 | at most three claims, one forced refresh and four refresh round trips, counted over the traffic |
| `ClaimLadder.WithoutAuthOneClaim` | internal/runtime/scheduler.go:107-110 | without a token source one claim is made and unauthorized means its 401 |
| `ClaimLadder.RePairIsPickedUp` | internal/runtime/scheduler.go:112-120 | after a re-pair under a live cache the second claim carries the new bundle's session or one refreshed from it, the revoked refresh token is not sent and is gone from cache and keystore |
| `ContendedLadder.ContendedLadderParksSoundly` | internal/runtime/scheduler.go:106-136 | whatever token calls of other goroutines fall between the rungs: same bounds and parking condition; second claim and forced refresh carry credentials that descend from the bundle stored when the cache was dropped |
| `ContendedLadder.AloneItIsTheLadder` | internal/runtime/scheduler.go:106-136 | without such calls it is the ladder above |
| `ContendedLadder.FullLadderIsItsCalls` | internal/runtime/scheduler.go:106-136 | what a ladder with three claims does to the token source is the sequence of its own calls and those of the others, where they fall |
| `ContendedLadder.RePairIsPickedUpUnderContention` | internal/sync/client.go:290-293 | while the cloud refuses the revoked bundle such calls cannot undo a re-pair: the reload finds the new bundle and the revoked refresh token is neither sent nor kept |
| `RefreshTokens.TracksStep` | internal/auth/source.go:31-131 | one call keeps the history's view of cache and keystore, and sends the newest token exactly unless it is forgotten |
| `RefreshTokens.NewestRefreshToken` | internal/auth/source.go:31-131 | over any sequence of calls, invalidations and restarts with failing loads and saves, each request carries the newest token delivered, if and only if it was not lost by a failed save followed by a dropped cache |
| `RefreshTokens.OldTokenIsSentAfterFailedSave` | internal/auth/source.go:55-61 | for every stored bundle: a rotation that cannot be saved, an Invalidate, and the next request carries the replaced token |
| `RefreshTokens.RevokedTokenIsNeverSentAgain` | internal/auth/source.go:88-131 | after the ladder that follows a re-pair the revoked refresh token is never sent again, whatever calls follow |
| `RefreshTokens.RevokedTokenIsNeverSentAgainUnderContention` | internal/auth/source.go:88-131 | the same when other goroutines' token calls fall between the rungs of that ladder |
| `Pairing.HandlePair` | internal/ipc/handlers_pair.go:44-109 | which of the five answers is given, exactly; 200 exactly when unpaired, the code was exchanged and the bundle saved; otherwise the keystore is unchanged |
| `Pairing.PairStepsAreThePair` | internal/ipc/handlers_pair.go:66-102 | guard, exchange and save as the machine's steps, with nothing in between, do to the keystore what the handler does |
| `Pairing.UnpairStepsAreTheUnpair` | internal/ipc/handlers_unpair.go:81-133 | load, DELETE and Clear as the machine's steps, with nothing in between, clear the keystore exactly when the handler answers 200 |
| `Pairing.TokenAfterPair` | internal/ipc/handlers_pair.go:89-102 | the first token call after a pair hands out the issued session or, if that is about to expire, sends the issued refresh token |
| `Pairing.RevokedCacheIsHarmless` | internal/auth/source.go:31-131 | once the cached device is deleted in the cloud and the keystore is empty, it stays empty |
| `Pairing.CallIsThreeSteps` | internal/auth/source.go:31-131 | request, answer and save taken together are BearerToken and ForceRefresh as specified for the cache |
| `Pairing.StaysUnpairedIff` | internal/auth/source.go:31-131 | an empty keystore stays empty over every run without a successful pair if and only if the cache is empty or belongs to a deleted device and no accepted refresh is in flight |
| `Pairing.CleanUnpairIsFinalIff` | internal/ipc/handlers_unpair.go:95-141 | for the Clear of a confirmed unpair answered 200, with any steps of other handlers and token calls since its DELETE: the exact condition on cache and refresh in flight for staying unpaired |
| `Pairing.WithOneDeviceUnpairIsFinalIff` | internal/ipc/handlers_unpair.go:95-141 | with at most one live device and no pair between DELETE and Clear: the Clear wipes no living pairing, and the unpair is final if and only if no accepted refresh is in flight |
| `Pairing.ClearWipesNewPairing` | internal/ipc/handlers_unpair.go:128-133 | for every bundle and every new one: two overlapping unpairs with a pair between them, and the late Clear wipes the new pairing |
| `Pairing.RefreshOvertakesUnpair` | internal/ipc/handlers_unpair.go:128-133 | for every bundle, with one device: a refresh accepted before a confirmed unpair refills the keystore after it |
| `Pairing.ForcedUnpairCanComeBack` | internal/ipc/handlers_unpair.go:97-107 | for every bundle and every newly issued one: forced unpair, pair, clean unpair, and when the cached session runs out the next token call stores the first device again, as one possible run |
| `UnpairHandler.HandleUnpair` | internal/ipc/handlers_unpair.go:57-142 | which answer is given for every load, cloud, sweep and clear result; the keystore is cleared exactly at 200; the rows are swept exactly when the handler gets past the cloud and the sweep commits |
| `UnpairHandler.HandlerIsItsSteps` | internal/ipc/handlers_unpair.go:81-133 | on the keystore the handler is its steps in the pairing machine, one after the other |
| `UnpairHandler.AnswersTellTheState` | internal/ipc/handlers_unpair.go:81-141 | an error before the sweep leaves rows, events and keystore untouched; 200 exactly when the keystore was cleared |
| `UnpairHandler.RetryConverges` | internal/ipc/handlers_unpair.go:119-141 | retrying until 200 ends where one uninterrupted unpair ends: every row terminal, one `unpair_failed` event per queued or running job, if some sweep committed; otherwise the rows are unchanged |
| `LogRing.PushShows` | internal/observability/sse.go:71-83 | one publish keeps the ring equal to the last events of the history, growing or wrapped |
| `LogRing.RingRefinesHistory` | internal/observability/sse.go:71-83 | after any number of publishes, for any positive size, the snapshot is the last min(n, size) events in order |
| `LogRing.Hub.Publish` | internal/observability/sse.go:71-83 | the in-place ring update adds the event to the history it shows |
| `LogRing.Hub.SnapshotLocked` | internal/observability/sse.go:163-173 | the last min(n, size) events of the history |
| `LogRing.LastNIsTheTail` | internal/observability/sse.go:163-173 | what "the last n" means: min(n, length) elements, those at the end |
| `LogHub.NewHub` | internal/observability/sse.go:61-66 | a new hub keeps 256 events |
| `DropOldest.SoundStep` | internal/observability/sse.go:90-108 | with reads between any two channel operations: bounded, ordered, and a finished delivery leaves its event newest in the queue |
| `DropOldest.QueueIsSound` | internal/observability/sse.go:90-108 | the same over every schedule of one dispatcher and a reader |
| `DropOldest.KeepingUpLosesNothing` | internal/observability/sse.go:94-107 | a consumer that keeps up gets everything: read plus queued is every event delivered |
| `DropOldest.UnreadSubscriberHoldsTheTail` | internal/observability/sse.go:112-139 | without reads the queue is exactly the last 64 of full history plus live events |
| `LogFanout.InvStep` | internal/observability/sse.go:71-149 | one step of any publisher, subscriber or reader keeps the offer and channel accounts |
| `FanoutTheorems.OfferedExactlyOnce` | internal/observability/sse.go:71-139 | in every interleaving: the ring snapshot only by replay in order, later events only live, none twice, none missed while registered, none received twice or unoffered, queue bounded |
| `FanoutTheorems.RegistrationTakesTheRing` | internal/observability/sse.go:118-121 | the snapshot taken at registration is what the ring shows, the last events of the history |
| `FanoutTheorems.ReadTakesOldest` | internal/observability/sse.go:112-113 | a read hands over the oldest queued event and touches nothing else |
| `FanoutTheorems.DeliveryLandsIff` | internal/observability/sse.go:90-108 | with any number of concurrent dispatchers, the step that ends a delivery appends its event, as the newest, if and only if the channel has room at that send; otherwise it is in neither queue nor hands |
| `FanoutTheorems.LostForGood` | internal/observability/sse.go:90-108 | an event whose delivery ended without landing never reaches the subscriber in any continuation |
| `FanoutTheorems.FullAtRetryNeedsAnother` | internal/observability/sse.go:98-107 | a dispatcher finds the channel full after its own drop only if another delivery to the same subscriber worked on it in between |
| `FanoutTheorems.AloneNothingNewIsLost` | internal/observability/sse.go:90-108 | in every run in which deliveries to a subscriber do not overlap, each one that ends leaves its event newest in the queue |
| `FanoutTheorems.NewestEventCanBeLost` | internal/observability/sse.go:88-107 | for every ring size and buffer there is a run with two overlapping publishers in which the newest event is lost to a registered subscriber |
| `FanoutTheorems.CloseCanPanicIff` | internal/observability/sse.go:141-150 | after close(ch) some continuation sends on the closed channel if and only if a delivery to it is under way at that moment |
| `FanoutTheorems.CloseRace` | internal/observability/sse.go:91-96 | for every ring size and buffer, a publisher past the closed check and a cancel reach that moment |
| `LogHub.Subscriber.Deliver` | internal/observability/sse.go:94-107 | a full queue loses its oldest event, never the new one |
| `LogHub.Broadcast.Publish` | internal/observability/sse.go:71-109 | the loop gives every registered queue, however far read, the event as its newest at the cost of at most its oldest; queues equal to the last 64 events of the history stay so |
| `LogHub.Broadcast.Subscribe` | internal/observability/sse.go:112-139 | the new subscriber is registered with the last 64 events of the whole history, the others are untouched |
| `LogHub.Broadcast.Cancel` | internal/observability/sse.go:141-150 | acts once: deregistered and closed, queued events kept |
| `ClipLoop.JobHandle.RunClip` | internal/executors/clipvideo/executor.go:156-205 | one clip: record, then save, then progress, stopping wherever it is cut |
| `ClipLoop.JobHandle.Execute` | internal/executors/clipvideo/executor.go:117-207 | the in-place loop leaves the saved and recorded state of the specified attempt |
| `ClipLoop.ResumeIsSafe` | internal/executors/clipvideo/executor.go:117-207 | over any attempts cut anywhere, saved indices are recorded, and an attempt that succeeds leaves every index of the payload recorded |
| `ClipLoop.AttemptOkIff` | internal/executors/clipvideo/executor.go:103-207 | an attempt returns nil exactly if the payload has clips and it gets past every position |
| `ClipLoop.AttemptPushesIff` | internal/executors/clipvideo/executor.go:196-204 | progress is pushed exactly for the positions completed, counted from one |
| `ClipLoop.CleanResumeRecordsOnce` | internal/runtime/jobhandle.go:110-181 | with loads and saves succeeding and no cut between record and save, each distinct index is recorded exactly once in total |
| `ClipLoop.RecordedOnceIff` | internal/executors/clipvideo/executor.go:117-207 | over any attempts at any payload, nothing is recorded twice if and only if no attempt reaches an index already recorded that it does not know |
| `ClipLoop.SavedAfterAttempt` | internal/executors/clipvideo/executor.go:192-194 | an attempt leaves saved exactly what it knew and every index up to its last successful save, or what was saved before if no save succeeded |
| `ClipLoop.EachConditionIsNeeded` | internal/runtime/jobhandle.go:110-181 | instances: a cut between record and save, a failed save and a failed load each lead to a second record |
| `ClipRace.InterleavedResumeIsSafe` | internal/runtime/scheduler.go:244-256 | over every interleaving of any number of attempts at one job: saved indices are recorded, and once any attempt returned nil every index is |
| `ClipRace.SoloIsAttempt` | internal/executors/clipvideo/executor.go:117-207 | an attempt alone is the attempt of the sequential loop: same saved and recorded state, finished exactly if it returns nil |
| `ClipRace.RecordedOnceIffNoClash` | internal/executors/clipvideo/executor.go:156-194 | until another attempt starts, no interleaving and no cut ever records an output twice, if and only if no attempt has an index ahead that is recorded already and no two have the same index ahead |
| `ClipRace.StartClashesIff` | internal/executors/clipvideo/executor.go:117-123 | a new attempt keeps that so if and only if each index of the payload is one it loads, or is neither recorded nor ahead of another attempt |
| `ClipRace.SafeStartsRecordOnce` | internal/runtime/scheduler.go:244-256 | over whole runs in which every attempt starts in such a moment no output is recorded twice |
| `ClipRace.OverlapRecordsTwice` | internal/runtime/scheduler.go:244-256 | two overlapping attempts record an output twice with every load and save succeeding and no cut |
| `Progress.PumpProgress` | internal/runtime/jobhandle.go:68-92 | the pump loop forwards what the specified schedule forwards, a subsequence of what was produced |
| `Progress.TickForwardsLatest` | internal/runtime/jobhandle.go:75-90 | a tick forwards the value received last since the tick before, once |
| `Progress.PushKeepsLatest` | internal/runtime/jobhandle.go:75-81 | a send does not change what the next tick forwards; it is kept exactly if fewer than eight are queued |
| `Progress.DrainForwardsNewest` | internal/runtime/jobhandle.go:75-90 | draining the channel and one tick forward exactly its newest value |
| `Progress.SentValueArrives` | internal/executors/clipvideo/executor.go:196-204 | so a value sent into a channel that is not full reaches the cloud |
| `Progress.MonotoneProgress` | internal/executors/clipvideo/executor.go:155-205 | for every schedule of sends, receives and ticks the forwarded fractions are an ordered subsequence of the produced ones, strictly increasing, within (0, 1] |
| `Progress.FractionsArePositions` | internal/executors/clipvideo/executor.go:198-199 | the fraction of clip i of n, times n, is i |
| `Progress.LastClipIsWhole` | internal/executors/clipvideo/executor.go:198-199 | an attempt that completes the last clip reports 1 |
| `Backoff.BoundedBackoff` | tauri-app/src/lib/ipc.ts:276-397 | in every interleaving with overlapping connects: timers since the last reset equal `attempt`, at most ten, their delays a prefix of the schedule, at most 55.5 s |
| `Backoff.GivesUpAfterElevenConnects` | tauri-app/src/lib/ipc.ts:371-382 | if every connect fails and nobody closes or reconnects: at most 32 steps, and when nothing is left to happen exactly 11 connects, one give-up, 55.5 s |
| `Backoff.OpenStartsOver` | tauri-app/src/lib/ipc.ts:350-382 | after an open the retry that follows the next error waits 500 ms |
| `Backoff.ReconnectStartsOver` | tauri-app/src/lib/ipc.ts:391-396 | reconnect() closes the current source, clears the current timer, reopens and connects; its first retry waits 500 ms |
| `Backoff.CloseStops` | tauri-app/src/lib/ipc.ts:387-390 | close() closes the current source and clears the current timer; while closed nothing connects or retries |
| `Backoff.RetryGoesOn` | tauri-app/src/lib/ipc.ts:371-382 | a timer connects once, and a failed connect sets the next timer until ten have been set |
| `Backoff.CloseEndsTheStreamIff` | tauri-app/src/lib/ipc.ts:386-390 | after close() no event source is open again before a reconnect(), if and only if no connect is waiting and only the current source is open |
| `Backoff.CloseOutlivedByConnect` | tauri-app/src/lib/ipc.ts:318-348 | before the first reconnect() that condition is just that no connect is waiting; it fails right after the stream is opened |
| `Backoff.LogStream.Fire` | tauri-app/src/lib/ipc.ts:379-381 | a timer's connect is the machine's step and keeps the schedule |
| `Backoff.LogStream.Settle` | tauri-app/src/lib/ipc.ts:320-348 | a connect settles into a source or a scheduled retry |
| `Backoff.LogStream.OnOpen` | tauri-app/src/lib/ipc.ts:350-353 | resets the schedule |
| `Backoff.LogStream.OnError` | tauri-app/src/lib/ipc.ts:362-368 | closes its own source, forgets the current one and schedules a retry |
| `Backoff.LogStream.Retry` | tauri-app/src/lib/ipc.ts:371-382 | nothing when closed, give-up after ten, otherwise the next delay |
| `Backoff.LogStream.Close` | tauri-app/src/lib/ipc.ts:387-390 | closed, with the current timer and source cleared |
| `Backoff.LogStream.Reconnect` | tauri-app/src/lib/ipc.ts:391-396 | starts afresh from attempt zero, open again |

## Left out

- HTTP, JSON and status decoding (`internal/sync/client.go`, `internal/auth/pairing.go`, `internal/upload/client.go`): each call is an outcome the environment picks. A claim answered 200 with a body that does not decode counts as a failed claim, not as a lease.
- SQLite, WAL and timestamps: the database is a map of rows, an event sequence and an attempt sequence; `lease_expires_at`, which makes reads fail, appears as a read that may fail.
- `ListJobs`, pagination and event listing: only easy members. `PendingRecovery`'s limit of 100 is kept.
- Keystore back ends: one optional bundle whose load, save and clear may fail. A failed load and an empty keystore are told apart only in the unpair handler, the one place that branches on it.
- `pairing == nil` in the token source ("refresh not configured"): the daemon always sets it.
- Method, configuration and body checks of the pair and unpair handlers: settled before any state is touched.
- CPU, memory and disk probes: one nondeterministic refusal between the check and the increment.
- FFmpeg, downloads, encoder choice, upload of bytes: part of the per-clip fate that ends an attempt.
- Job handles' temp directories and `AppendEvent` log lines of a run: no property depends on them; job events here are those of the sweeps.
- Panics in goroutines: a panic ends the process and is a crash of the machine.
- IPC routing, CORS, authentication of IPC calls, the Tauri shell, the UI, the updater and release scripts.
- Scheduler.RunOne: the method runs without interference from other goroutines and with a heartbeat that sends nothing; interleavings and heartbeats are covered by the machine, on values. It starts from a database that meets UNIQUE(workload_id), which every step of the machine keeps.
- Scheduler.StopHeart: ghost, since the goroutine it waits for exists only in the machine.
- TickLoop.RunTick: the same, one tick at a time; other goroutines' slots and rows move only in the machine, their token calls only in `ContendedLadder`.
- LogHub.Broadcast.Publish: one call at a time; interleavings are covered by `LogFanout` and `FanoutTheorems`, on values.
- DropOldest.QueueIsSound: one dispatcher at a time; concurrent dispatchers, for whom "the newest is never the one dropped" is false, are in `FanoutTheorems` with the exact condition.
- Progress.MonotoneProgress: fractions are reals; float64 rounding is not modelled.
- Pairing.HandlePair: devices get fresh numbers from the cloud; the already-paired test is "a bundle is stored", without the test for an empty token.
- Pairing.StaysUnpairedIff: the guard and the exchange of a pair are one step, and the cloud refuses refresh tokens of deleted devices.
- ContendedLadder.ContendedLadderParksSoundly: token calls of other goroutines, but no pair or unpair between the rungs; a re-pair before the ladder is covered.
- GhostActivity.NoGhostActivity: rows queued before the boot are not covered, since the boot sweep takes only running rows and leaves those queued until the cloud offers their workload again.
