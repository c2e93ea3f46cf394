/** The job engine as one machine: the scheduler goroutine (boot recovery and the tick
    loop), any number of runner goroutines with their heartbeats, the job database and
    the slot counter, under IPC calls, shutdown, crashes and reboots.

    Every store call, cloud call and atomic access is one step.  An action names the step
    together with everything the environment decides (results, ids, listing orders), so
    `Next` is a function and a run is a sequence of actions.

    The k-th slot reservation, the lease claimed under it and the runner started for it
    share the number k. */
module Engine {
  import opened Collections
  import opened JobQueue
  import opened Recovery

  /** How the execution phase of a run ended. `shutdown`: the context was already cancelled. */
  datatype Outcome = HandleError | ExecError(shutdown: bool) | ExecOk

  /** What the runner does next (runOne and upsertJobForWorkload). */
  datatype Pc =
    | Lookup
    | Create
    | Takeover
    | CountAttempts
    | MarkRunning
    | OpenAttemptRow
    | OpenHandle
    | Execute
    | Report(outcome: Outcome)
    | MarkOutcome(outcome: Outcome)
    | CloseAttemptRow(outcome: Outcome)
    | StopHeartbeat
    | AwaitHeartbeat
    | Surrendering
    | ReportTerminal(status: Status)
    | Return
    | Release

  /** The heartbeat goroutine: not started, in select, request in flight, exited. */
  datatype Heart = Off | Waiting | Calling | Gone

  /** The program points at which the runner knows its row and may still write it. */
  predicate OwnsRow(pc: Pc) {
    || pc.Takeover? || pc.CountAttempts? || pc.MarkRunning? || pc.OpenAttemptRow? || pc.OpenHandle?
    || pc.Execute? || pc.Report? || pc.MarkOutcome?
  }

  datatype RunRecord = Run(workload: WorkloadId, pc: Pc, job: Option<JobId>, num: nat, attempt: nat, heart: Heart)

  /** `job` is set exactly while the runner may still write the row. */
  type Run = r: RunRecord | OwnsRow(r.pc) <==> r.job.Some? witness Run(0, Lookup, None, 0, 0, Off)

  /** The scheduler goroutine: down, boot recovery, between ticks, inside a tick. */
  datatype Loop =
    | Down
    | Listing
    | Marking(ids: seq<JobId>)
    | Idle
    | Polled
    | Checked
    | Held(k: nat)
    | Claimed(k: nat, workload: WorkloadId)
    | SetReauth(k: nat)
    | SetPaused(k: nat)
    | Dropping(k: nat)

  /** The three calls that end a lease. */
  datatype Call = Surrender | Complete | Fail(retryable: bool)

  /** What an observer outside the daemon, or of its cloud traffic, sees. */
  datatype Obs =
    | Booted
    | Ticked
    | Parked
    | Resumed
    | Reserved(k: nat)
    | Freed(k: nat)
    | Leased(k: nat, workload: WorkloadId)
    | Closed(k: nat, call: Call)
    | Saw(k: nat, status: Status)
    | Executing(k: nat, workload: WorkloadId)
    | Ended(k: nat, outcome: Outcome)
    | Beat(k: nat)
    | Lost(k: nat)
    | Returned(k: nat)

  /** `next` numbers reservations; `epoch` is the first number of the current process and
      `mark` the log length at its boot. */
  datatype State = State(
    db: Db, loop: Loop, runs: map<nat, Run>,
    active: int, limit: nat,
    paused: bool, reauth: bool, resuming: nat, ctxDone: bool,
    next: nat, epoch: nat, mark: nat, log: seq<Obs>)

  datatype ClaimResult = NoWork | Unauthorized | OtherError | Got(workload: WorkloadId)

  /** Boot recovery in the scheduler goroutine (recoverPending). */
  datatype BootAct = ListRunning(ok: bool, listed: seq<JobId>) | MarkStranded(ok: bool) | RecoveryDone

  /** The tick loop of the scheduler goroutine. */
  datatype TickAct =
    | Poll | CheckActive | Refuse | Reserve | ClaimEnds(result: ClaimResult) | FlagReauth | FlagPaused
    | Decline | Spawn | DropSlot

  /** Steps of a runner and of its heartbeat goroutine. */
  datatype RunAct =
    | Read(found: Option<JobId>) | ReadFails | Insert(id: JobId, ok: bool) | Step(ok: bool)
    | BeatSent | BeatReturns(ok: bool) | HeartExits

  /** Steps of the IPC handlers and of the process itself. */
  datatype EnvAct =
    | CancelCall(id: JobId, ok: bool) | UnpairSweep(ok: bool, ids: seq<JobId>)
    | PauseCall | ResumeFirst | ResumeSecond
    | Shutdown | Crash | Boot(sweepOk: bool, ids: seq<JobId>)

  datatype Action = Recover(b: BootAct) | Tick(t: TickAct) | Runner(k: nat, r: RunAct) | Env(v: EnvAct)

  /** PendingRecovery lists at most this many rows. */
  const RECOVERY_LIMIT := 100

  function FinalStatus(o: Outcome): Status {
    if o.ExecOk? then Succeeded else Failed
  }

  function CallFor(o: Outcome): Call {
    match o
    case HandleError => Fail(false)
    case ExecError(shutdown) => Fail(!shutdown)
    case ExecOk => Complete
  }

  /** A row found terminal is reported instead of being run again. */
  function CallForTerminal(s: Status): Call {
    if s.Succeeded? then Complete else Fail(false)
  }

  predicate LoopHolds(l: Loop) {
    l.Held? || l.Claimed? || l.SetReauth? || l.SetPaused? || l.Dropping?
  }

  ghost predicate BootEnabled(e: State, b: BootAct) {
    match b
    case ListRunning(ok, listed) =>
      && e.loop.Listing?
      && (ok ==>
            && NoDuplicates(listed) && |listed| <= RECOVERY_LIMIT
            && (forall id :: id in listed ==> id in Matching(e.db, ORPHAN_STATUSES))
            && (|listed| < RECOVERY_LIMIT ==> forall id :: id in Matching(e.db, ORPHAN_STATUSES) ==> id in listed))
    case MarkStranded(_) => e.loop.Marking? && e.loop.ids != []
    case RecoveryDone => e.loop.Marking? && e.loop.ids == []
  }

  predicate TickEnabled(e: State, t: TickAct) {
    match t
    case Poll => e.loop.Idle? && !e.paused
    case CheckActive => e.loop.Polled? && e.active < e.limit
    case Refuse => e.loop.Polled? || e.loop.Checked?
    case Reserve => e.loop.Checked?
    case ClaimEnds(_) => e.loop.Held?
    case FlagReauth => e.loop.SetReauth?
    case FlagPaused => e.loop.SetPaused?
    case Decline | Spawn => e.loop.Claimed?
    case DropSlot => e.loop.Dropping?
  }

  ghost predicate RunEnabled(db: Db, r: Run, act: RunAct, ctxDone: bool) {
    match act
    case Read(found) =>
      && r.pc.Lookup?
      && (if found.Some? then found.value in db.rows && db.rows[found.value].workload == r.workload
          else !HasWorkload(db, r.workload))
    case ReadFails => r.pc.Lookup?
    case Insert(id, ok) => r.pc.Create? && (ok ==> CanInsert(db, id, r.workload))
    case Step(_) => !r.pc.Lookup? && !r.pc.Create? && (r.pc.AwaitHeartbeat? ==> r.heart.Gone?)
    case BeatSent => r.heart.Waiting?
    case BeatReturns(_) => r.heart.Calling?
    case HeartExits => r.heart.Waiting? && (r.pc.AwaitHeartbeat? || ctxDone)
  }

  ghost predicate EnvEnabled(e: State, v: EnvAct) {
    match v
    case CancelCall(_, _) | PauseCall | ResumeFirst | Shutdown | Crash => !e.loop.Down?
    case UnpairSweep(ok, ids) => !e.loop.Down? && (ok ==> IsListing(ids, e.db, ACTIVE_STATUSES))
    case ResumeSecond => !e.loop.Down? && e.resuming > 0
    case Boot(sweepOk, ids) => e.loop.Down? && (sweepOk ==> IsListing(ids, e.db, ORPHAN_STATUSES))
  }

  ghost predicate Enabled(e: State, a: Action) {
    match a
    case Recover(b) => BootEnabled(e, b)
    case Tick(t) => TickEnabled(e, t)
    case Runner(k, r) => k in e.runs && RunEnabled(e.db, e.runs[k], r, e.ctxDone)
    case Env(v) => EnvEnabled(e, v)
  }

  /** The last step of a runner: its goroutine gives the slot back and ends. */
  predicate Frees(r: Run, act: RunAct) {
    act.Step? && r.pc.Release?
  }

  /** Where a runner goes from the points whose environment choice is just success or failure. */
  function StepPc(pc: Pc, ctxDone: bool, ok: bool): Pc {
    match pc
    case Takeover => if ok then CountAttempts else Surrendering
    case CountAttempts => MarkRunning
    case MarkRunning => OpenAttemptRow
    case OpenAttemptRow => OpenHandle
    case OpenHandle => if ok then Execute else Report(HandleError)
    case Execute => Report(if ok then ExecOk else ExecError(ctxDone))
    case Report(o) => MarkOutcome(o)
    case MarkOutcome(o) => CloseAttemptRow(o)
    case CloseAttemptRow(_) => StopHeartbeat
    case StopHeartbeat => AwaitHeartbeat
    case AwaitHeartbeat | Surrendering | ReportTerminal(_) => Return
    case Return | Release => Release
    case Lookup | Create => pc
  }

  /** GetByWorkloadID and the branch on what it finds. */
  function ReadPc(db: Db, found: Option<JobId>): Pc
    requires found.Some? ==> found.value in db.rows
  {
    if found.None? then Create
    else if IsTerminal(db.rows[found.value].status) then ReportTerminal(db.rows[found.value].status)
    else Takeover
  }

  ghost function RunPc(db: Db, r: Run, act: RunAct, ctxDone: bool): Pc
    requires RunEnabled(db, r, act, ctxDone)
  {
    match act
    case Read(found) => ReadPc(db, found)
    case ReadFails => Surrendering
    case Insert(_, ok) => if ok then MarkRunning else Surrendering
    case Step(ok) => StepPc(r.pc, ctxDone, ok)
    case BeatSent | BeatReturns(_) | HeartExits => r.pc
  }

  function RunHeart(r: Run, act: RunAct): Heart {
    match act
    case BeatSent => Calling
    case BeatReturns(ok) => if ok then Waiting else Gone
    case HeartExits => Gone
    case Step(_) => if r.pc.OpenAttemptRow? then Waiting else r.heart
    case _ => r.heart
  }

  /** The row the runner may write after the step. */
  function RunJob(r: Run, act: RunAct): Option<JobId> {
    match act
    case Read(found) => found
    case Insert(id, _) => Some(id)
    case _ => r.job
  }

  ghost function RunAfter(db: Db, r: Run, act: RunAct, ctxDone: bool): Run
    requires RunEnabled(db, r, act, ctxDone)
  {
    var pc := RunPc(db, r, act, ctxDone);
    Run(r.workload, pc,
        if OwnsRow(pc) then RunJob(r, act) else None,
        if act.Insert? && act.ok then 1
        else if act.Step? && r.pc.CountAttempts? then (if act.ok then AttemptsOf(db, r.job.value) + 1 else 1)
        else r.num,
        if act.Step? && r.pc.OpenAttemptRow? then (if act.ok then |db.attempts| + 1 else 0) else r.attempt,
        RunHeart(r, act))
  }

  /** The statement a runner issues at `Step(true)`; the other points do not write. */
  function StepDb(db: Db, k: nat, r: Run): Db {
    match r.pc
    case Takeover => SetLease(db, r.job.value, k)
    case MarkRunning => SetStatus(db, r.job.value, Running)
    case OpenAttemptRow => OpenAttempt(db, r.job.value, r.num)
    case MarkOutcome(o) => SetStatus(db, r.job.value, FinalStatus(o))
    case CloseAttemptRow(o) => CloseAttempt(db, r.attempt, o.ExecOk?)
    case _ => db
  }

  function RunDb(db: Db, k: nat, r: Run, act: RunAct): Db {
    match act
    case Insert(id, ok) => if ok then InsertJob(db, id, r.workload, k) else db
    case Step(ok) => if ok then StepDb(db, k, r) else db
    case _ => db
  }

  function StepObs(k: nat, r: Run, ctxDone: bool, ok: bool): seq<Obs> {
    match r.pc
    case OpenHandle => [if ok then Executing(k, r.workload) else Ended(k, HandleError)]
    case Execute => [Ended(k, if ok then ExecOk else ExecError(ctxDone))]
    case Report(o) => [Closed(k, CallFor(o))]
    case Surrendering => [Closed(k, Surrender)]
    case ReportTerminal(s) => [Closed(k, CallForTerminal(s))]
    case Return => [Returned(k)]
    case Release => [Freed(k)]
    case _ => []
  }

  ghost function RunObs(db: Db, k: nat, r: Run, act: RunAct, ctxDone: bool): seq<Obs>
    requires RunEnabled(db, r, act, ctxDone)
  {
    match act
    case Read(found) =>
      if found.Some? && IsTerminal(db.rows[found.value].status) then [Saw(k, db.rows[found.value].status)] else []
    case Step(ok) => StepObs(k, r, ctxDone, ok)
    case BeatSent => [Beat(k)]
    case BeatReturns(ok) => if ok then [] else [Lost(k)]
    case _ => []
  }

  /** A runner's step. */
  ghost function RunStep(e: State, k: nat, act: RunAct): State
    requires Enabled(e, Runner(k, act))
  {
    var r := e.runs[k];
    e.(db := RunDb(e.db, k, r, act),
       runs := if Frees(r, act) then e.runs - {k} else e.runs[k := RunAfter(e.db, r, act, e.ctxDone)],
       active := if Frees(r, act) then e.active - 1 else e.active)
  }

  /** Boot recovery: each listed row is marked failed, one statement at a time. */
  ghost function BootStep(e: State, b: BootAct): State
    requires BootEnabled(e, b)
  {
    e.(loop := match b
         case ListRunning(ok, listed) => if ok then Marking(listed) else Idle
         case MarkStranded(_) => Marking(e.loop.ids[1..])
         case RecoveryDone => Idle,
       db := if b.MarkStranded? && b.ok then SetStatus(e.db, e.loop.ids[0], Failed) else e.db)
  }

  /** Where the tick goes next. */
  function TickPc(e: State, t: TickAct): Loop
    requires TickEnabled(e, t)
  {
    match t
    case Poll => Polled
    case CheckActive => Checked
    case Refuse => Idle
    case Reserve => Held(e.next)
    case ClaimEnds(result) => AfterClaim(e.loop.k, result)
    case FlagReauth => SetPaused(e.loop.k)
    case FlagPaused => Dropping(e.loop.k)
    case Decline => Dropping(e.loop.k)
    case Spawn => Idle
    case DropSlot => Idle
  }

  function AfterClaim(k: nat, result: ClaimResult): Loop {
    match result
    case NoWork | OtherError => Dropping(k)
    case Unauthorized => SetReauth(k)
    case Got(w) => Claimed(k, w)
  }

  /** A tick's step: its new program point, the slot counter, the flags, the runner it starts. */
  function TickStep(e: State, t: TickAct): State
    requires TickEnabled(e, t)
  {
    e.(loop := TickPc(e, t),
       active := if t.Reserve? then e.active + 1 else if t.DropSlot? then e.active - 1 else e.active,
       next := if t.Reserve? then e.next + 1 else e.next,
       reauth := e.reauth || t.FlagReauth?,
       paused := e.paused || t.FlagPaused?,
       runs := if t.Spawn? then e.runs[e.loop.k := Run(e.loop.workload, Lookup, None, 0, 0, Off)] else e.runs)
  }

  function TickObs(e: State, t: TickAct): seq<Obs>
    requires TickEnabled(e, t)
  {
    match t
    case Poll => [Ticked]
    case Reserve => [Reserved(e.next)]
    case ClaimEnds(result) => if result.Got? then [Leased(e.loop.k, result.workload)] else []
    case FlagPaused => [Parked]
    case Decline => [Closed(e.loop.k, Surrender)]
    case DropSlot => [Freed(e.loop.k)]
    case _ => []
  }

  /** The statements the IPC handlers and the boot sequence issue. */
  function EnvDb(db: Db, v: EnvAct): Db {
    match v
    case CancelCall(id, ok) => if ok then CancelJob(db, id) else db
    case UnpairSweep(ok, ids) => if ok then Sweep(db, ACTIVE_STATUSES, ids, UNPAIR_FAILED, UNPAIRED) else db
    case Boot(sweepOk, ids) =>
      if sweepOk then Sweep(db, ORPHAN_STATUSES, ids, ORPHAN_FAILED, ORPHANED_AFTER_RESTART) else db
    case _ => db
  }

  /** The IPC handlers and the process: a crash loses everything but the database and the log. */
  function EnvStep(e: State, v: EnvAct): State
    requires v.ResumeSecond? ==> e.resuming > 0
  {
    e.(db := EnvDb(e.db, v),
       loop := if v.Crash? then Down else if v.Boot? then Listing else e.loop,
       runs := if v.Crash? then map[] else e.runs,
       active := if v.Crash? then 0 else e.active,
       paused := if v.PauseCall? then true else if v.ResumeFirst? || v.Crash? then false else e.paused,
       reauth := if v.ResumeSecond? || v.Crash? then false else e.reauth,
       resuming := if v.ResumeFirst? then e.resuming + 1 else if v.ResumeSecond? then e.resuming - 1
                   else if v.Crash? then 0 else e.resuming,
       ctxDone := if v.Shutdown? then true else if v.Crash? then false else e.ctxDone,
       epoch := if v.Crash? then e.next else e.epoch,
       mark := if v.Boot? then |e.log| else e.mark)
  }

  function EnvObs(v: EnvAct): seq<Obs> {
    match v
    case ResumeFirst => [Resumed]
    case Boot(_, _) => [Booted]
    case _ => []
  }

  /** What a step adds to the log: nothing or one observation. */
  ghost function Emit(e: State, a: Action): seq<Obs>
    requires Enabled(e, a)
  {
    match a
    case Recover(_) => []
    case Tick(t) => TickObs(e, t)
    case Runner(k, r) => RunObs(e.db, k, e.runs[k], r, e.ctxDone)
    case Env(v) => EnvObs(v)
  }

  /** The step apart from the log. */
  ghost function Move(e: State, a: Action): State
    requires Enabled(e, a)
  {
    match a
    case Recover(b) => BootStep(e, b)
    case Tick(t) => TickStep(e, t)
    case Runner(k, r) => RunStep(e, k, r)
    case Env(v) => EnvStep(e, v)
  }

  ghost function Next(e: State, a: Action): State
    requires Enabled(e, a)
  {
    Move(e, a).(log := e.log + Emit(e, a))
  }

  /** A machine that has never booted, over any database the schema admits. */
  ghost predicate Initial(e: State) {
    && UniqueWorkloads(e.db) && e.loop.Down? && e.runs == map[] && e.active == 0
    && !e.paused && !e.reauth && e.resuming == 0 && !e.ctxDone && e.next == e.epoch == e.mark == 0 && e.log == []
  }

  ghost predicate Runnable(e: State, acts: seq<Action>)
    decreases |acts|
  {
    acts == [] || (Enabled(e, acts[0]) && Runnable(Next(e, acts[0]), acts[1..]))
  }

  ghost function Exec(e: State, acts: seq<Action>): State
    requires Runnable(e, acts)
    decreases |acts|
  {
    if acts == [] then e else Exec(Next(e, acts[0]), acts[1..])
  }
}
