/** When a terminal row is final.  UpdateStatus is unguarded, so a run that picked the row up
    earlier may still overwrite it; this module shows that nothing else can. */
module FrozenRows {
  import opened Collections
  import opened JobQueue
  import opened Recovery
  import opened Engine
  import opened EngineInvariants

  /** A runner at `pc` may still write a status other than `cur` to its row. */
  predicate Endangers(pc: Pc, cur: Status) {
    if pc.Report? || pc.MarkOutcome? then FinalStatus(pc.outcome) != cur else OwnsRow(pc)
  }

  ghost predicate EndangeredBy(e: State, j: JobId, k: nat) {
    k in e.runs && e.runs[k].job == Some(j) && j in e.db.rows && Endangers(e.runs[k].pc, e.db.rows[j].status)
  }

  /** Some runner, or the boot recovery loop, may still change row j. */
  ghost predicate Threatened(e: State, j: JobId) {
    || (exists k :: EndangeredBy(e, j, k))
    || (e.loop.Marking? && j in e.loop.ids && j in e.db.rows && e.db.rows[j].status != Failed)
  }

  ghost predicate Settled(e: State, j: JobId) {
    j in e.db.rows && IsTerminal(e.db.rows[j].status) && !Threatened(e, j)
  }

  /** Row j is final across the step: same status, still unthreatened, its workload not executed. */
  ghost predicate Frozen(e: State, obs: seq<Obs>, e': State, j: JobId)
    requires j in e.db.rows
  {
    && Settled(e', j)
    && e'.db.rows[j].status == e.db.rows[j].status
    && e'.db.rows[j].workload == e.db.rows[j].workload
    && !Executes(obs, e.db.rows[j].workload)
  }

  lemma RunnerWrites(e: State, k: nat, act: RunAct, j: JobId)
    requires Shape(e) && Enabled(e, Runner(k, act)) && Settled(e, j)
    ensures var db' := RunDb(e.db, k, e.runs[k], act);
            j in db'.rows && db'.rows[j].status == e.db.rows[j].status
            && db'.rows[j].workload == e.db.rows[j].workload
  {
    assert RunOk(e, k, e.runs[k]);
    assert !EndangeredBy(e, j, k);
  }

  lemma RunnerAims(e: State, k: nat, act: RunAct, j: JobId)
    requires Shape(e) && Enabled(e, Runner(k, act)) && Settled(e, j)
    ensures var r' := RunAfter(e.db, e.runs[k], act, e.ctxDone);
            r'.job == Some(j) ==> !Endangers(r'.pc, e.db.rows[j].status)
  {
    assert !EndangeredBy(e, j, k);
  }

  lemma RunnerExecutes(e: State, k: nat, act: RunAct, j: JobId)
    requires Shape(e) && Enabled(e, Runner(k, act)) && Settled(e, j)
    ensures !Executes(Emit(e, Runner(k, act)), e.db.rows[j].workload)
  {
    assert RunOk(e, k, e.runs[k]);
    assert !EndangeredBy(e, j, k);
  }

  lemma FrozenRunner(e: State, k: nat, act: RunAct, j: JobId)
    requires Shape(e) && Enabled(e, Runner(k, act)) && Settled(e, j)
    ensures Frozen(e, Emit(e, Runner(k, act)), Next(e, Runner(k, act)), j)
  {
    RunnerWrites(e, k, act, j);
    RunnerAims(e, k, act, j);
    RunnerExecutes(e, k, act, j);
    var e' := Next(e, Runner(k, act));
    forall i ensures !EndangeredBy(e', j, i) {
      assert !EndangeredBy(e, j, i);
    }
  }

  lemma FrozenOther(e: State, a: Action, j: JobId)
    requires Shape(e) && Enabled(e, a) && Settled(e, j) && !a.Runner?
    ensures Frozen(e, Emit(e, a), Next(e, a), j)
  {
    var e' := Next(e, a);
    match a {
      case Recover(b) =>
      case Tick(t) =>
      case Env(v) => if v.UnpairSweep? || v.Boot? { assert j in FailRows(e.db.rows, ACTIVE_STATUSES); }
    }
    forall i ensures !EndangeredBy(e', j, i) {
      assert !EndangeredBy(e, j, i);
    }
  }

  lemma FrozenStep(e: State, a: Action, j: JobId)
    requires Shape(e) && Enabled(e, a) && Settled(e, j)
    ensures Frozen(e, Emit(e, a), Next(e, a), j)
  {
    if a.Runner? { FrozenRunner(e, a.k, a.r, j); } else { FrozenOther(e, a, j); }
  }

  // ---------- over whole runs ----------

  lemma {:induction false} SettledForever(e: State, acts: seq<Action>, j: JobId)
    requires Shape(e) && Settled(e, j) && Runnable(e, acts)
    ensures var e' := Exec(e, acts);
            && Settled(e', j)
            && e'.db.rows[j].status == e.db.rows[j].status
            && e.log <= e'.log
    decreases |acts|
  {
    if acts == [] {
    } else {
      FrozenStep(e, acts[0], j);
      ShapeStep(e, acts[0]);
      SettledForever(Next(e, acts[0]), acts[1..], j);
    }
  }

  predicate Executes(log: seq<Obs>, w: WorkloadId) {
    exists i :: 0 <= i < |log| && log[i].Executing? && log[i].workload == w
  }

  lemma ExecutesSplits(log: seq<Obs>, obs: seq<Obs>, log': seq<Obs>, w: WorkloadId)
    requires log + obs <= log'
    ensures Executes(log'[|log|..], w) ==> Executes(obs, w) || Executes(log'[|log + obs|..], w)
  {
    var rest := log'[|log|..];
    if Executes(rest, w) {
      var i :| 0 <= i < |rest| && rest[i].Executing? && rest[i].workload == w;
      if i < |obs| {
        assert obs[i] == rest[i];
      } else {
        assert log'[|log + obs|..][i - |obs|] == rest[i];
      }
    }
  }

  /** The workload of a settled row is never executed again. */
  lemma {:induction false} NeverExecutedAgain(e: State, acts: seq<Action>, j: JobId)
    requires Shape(e) && Settled(e, j) && Runnable(e, acts)
    ensures |e.log| <= |Exec(e, acts).log|
    ensures !Executes(Exec(e, acts).log[|e.log|..], e.db.rows[j].workload)
    decreases |acts|
  {
    SettledForever(e, acts, j);
    if acts == [] {
    } else {
      var e1 := Next(e, acts[0]);
      FrozenStep(e, acts[0], j);
      ShapeStep(e, acts[0]);
      SettledForever(e1, acts[1..], j);
      NeverExecutedAgain(e1, acts[1..], j);
      ExecutesSplits(e.log, Emit(e, acts[0]), Exec(e, acts).log, e.db.rows[j].workload);
    }
  }

  // ---------- statements under a cancelled context ----------

  /** The points at which a runner issues a statement. */
  predicate UsesStore(pc: Pc) {
    || pc.Takeover? || pc.CountAttempts? || pc.MarkRunning? || pc.OpenAttemptRow? || pc.MarkOutcome?
    || pc.CloseAttemptRow?
  }

  /** After shutdown no statement of a runner or of boot recovery succeeds: they are issued under the scheduler's
      context, and database/sql refuses a context that is already cancelled. The IPC handlers have their own. */
  predicate HonoursCtx(e: State, a: Action) {
    e.ctxDone ==>
      match a
      case Recover(b) => !((b.ListRunning? || b.MarkStranded?) && b.ok)
      case Runner(k, act) =>
        !act.Read? && !(act.Insert? && act.ok) && !(act.Step? && act.ok && k in e.runs && UsesStore(e.runs[k].pc))
      case _ => true
  }

  ghost predicate Honours(e: State, acts: seq<Action>)
    requires Runnable(e, acts)
    decreases |acts|
  {
    acts == [] || (HonoursCtx(e, acts[0]) && Honours(Next(e, acts[0]), acts[1..]))
  }

  /** Row j is terminal, and nobody can change it: nobody is about to, or the context is cancelled. */
  ghost predicate Safe(e: State, j: JobId) {
    j in e.db.rows && IsTerminal(e.db.rows[j].status) && (e.ctxDone || !Threatened(e, j))
  }

  /** Under a cancelled context a runner writes nothing. */
  lemma RunnerIsMuted(e: State, k: nat, act: RunAct)
    requires Enabled(e, Runner(k, act)) && e.ctxDone && HonoursCtx(e, Runner(k, act))
    ensures RunDb(e.db, k, e.runs[k], act) == e.db
  {
  }

  lemma MutedStep(e: State, a: Action, j: JobId)
    requires Shape(e) && Enabled(e, a) && HonoursCtx(e, a) && e.ctxDone
    requires j in e.db.rows && IsTerminal(e.db.rows[j].status)
    ensures Safe(Next(e, a), j) && Next(e, a).db.rows[j].status == e.db.rows[j].status
  {
    match a
    case Runner(k, act) => RunnerIsMuted(e, k, act);
    case Tick(_) =>
    case Recover(_) =>
    case Env(_) => assert forall k :: a.v.Crash? ==> !EndangeredBy(Next(e, a), j, k);
  }

  /** Over every run that honours the context a safe row keeps its status. */
  lemma {:induction false} SafeForever(e: State, acts: seq<Action>, j: JobId)
    requires Shape(e) && Safe(e, j) && Runnable(e, acts) && Honours(e, acts)
    ensures Safe(Exec(e, acts), j) && Exec(e, acts).db.rows[j].status == e.db.rows[j].status
    decreases |acts|
  {
    if acts == [] {
    } else {
      if e.ctxDone { MutedStep(e, acts[0], j); } else { FrozenStep(e, acts[0], j); }
      ShapeStep(e, acts[0]);
      SafeForever(Next(e, acts[0]), acts[1..], j);
    }
  }

  // ---------- who can overwrite a terminal row ----------

  /** How far runner k is from its last write. */
  function Distance(pc: Pc): nat {
    match pc
    case Takeover => 7
    case CountAttempts => 6
    case MarkRunning => 5
    case OpenAttemptRow => 4
    case OpenHandle => 3
    case Execute => 2
    case Report(_) => 1
    case _ => 0
  }

  /** A runner's step at a point that endangers the row overwrites it or brings the runner nearer to doing so. */
  lemma StepThreatens(db: Db, k: nat, r: Run, ctxDone: bool, j: JobId, ok: bool)
    requires r.job == Some(j) && j in db.rows && IsTerminal(db.rows[j].status) && Endangers(r.pc, db.rows[j].status)
    requires ok == (r.pc.Execute? ==> db.rows[j].status != Succeeded)
    ensures RunEnabled(db, r, Step(ok), ctxDone) && !Frees(r, Step(ok))
    ensures var cur, db', r' := db.rows[j].status, RunDb(db, k, r, Step(ok)), RunAfter(db, r, Step(ok), ctxDone);
            && j in db'.rows
            && (|| db'.rows[j].status != cur
                || (r'.job == Some(j) && Endangers(r'.pc, cur) && Distance(r'.pc) < Distance(r.pc)))
  {
  }

  lemma RunnerCanAct(e: State, j: JobId, k: nat) returns (a: Action)
    requires Shape(e) && j in e.db.rows && IsTerminal(e.db.rows[j].status) && EndangeredBy(e, j, k)
    ensures Enabled(e, a) && a.Runner?
    ensures var e' := Next(e, a);
            && Shape(e') && j in e'.db.rows && e'.ctxDone == e.ctxDone
            && (|| e'.db.rows[j].status != e.db.rows[j].status
                || (EndangeredBy(e', j, k) && Distance(e'.runs[k].pc) < Distance(e.runs[k].pc)))
  {
    var ok := e.runs[k].pc.Execute? ==> e.db.rows[j].status != Succeeded;
    StepThreatens(e.db, k, e.runs[k], e.ctxDone, j, ok);
    a := Runner(k, Step(ok));
    ShapeStep(e, a);
  }

  lemma {:induction false} RunnerCanOverwrite(e: State, j: JobId, k: nat) returns (acts: seq<Action>)
    requires Shape(e) && !e.ctxDone && j in e.db.rows && IsTerminal(e.db.rows[j].status) && EndangeredBy(e, j, k)
    ensures Runnable(e, acts) && Honours(e, acts)
    ensures j in Exec(e, acts).db.rows && Exec(e, acts).db.rows[j].status != e.db.rows[j].status
    decreases Distance(e.runs[k].pc)
  {
    var a := RunnerCanAct(e, j, k);
    var e' := Next(e, a);
    acts := [];
    if e'.db.rows[j].status == e.db.rows[j].status {
      acts := RunnerCanOverwrite(e', j, k);
    }
    assert ([a] + acts)[1..] == acts;
    acts := [a] + acts;
  }

  lemma {:induction false} RecoveryCanOverwrite(e: State, j: JobId) returns (acts: seq<Action>)
    requires Shape(e) && !e.ctxDone && j in e.db.rows
    requires e.loop.Marking? && j in e.loop.ids && e.db.rows[j].status != Failed
    ensures Runnable(e, acts) && Honours(e, acts)
    ensures j in Exec(e, acts).db.rows && Exec(e, acts).db.rows[j].status != e.db.rows[j].status
    decreases |e.loop.ids|
  {
    var a := Recover(MarkStranded(true));
    var e' := Next(e, a);
    ShapeStep(e, a);
    acts := [];
    if e.loop.ids[0] != j {
      acts := RecoveryCanOverwrite(e', j);
    }
    assert ([a] + acts)[1..] == acts;
    acts := [a] + acts;
  }

  /** The status of row j at the end of a run. */
  ghost function StatusAfter(e: State, acts: seq<Action>, j: JobId): Option<Status>
    requires Runnable(e, acts)
  {
    var rows := Exec(e, acts).db.rows;
    if j in rows then Some(rows[j].status) else None
  }

  /** A terminal row keeps its status over every continuation that honours the context, crashes and reboots included, if
      and only if the context is cancelled, or no run in flight and no pending boot-recovery write could still give it
      another status. */
  lemma {:induction false} TerminalRowIsFinalIff(e: State, j: JobId)
    requires Shape(e) && j in e.db.rows && IsTerminal(e.db.rows[j].status)
    ensures e.ctxDone || !Threatened(e, j) <==>
              forall acts :: Runnable(e, acts) && Honours(e, acts) ==>
                               StatusAfter(e, acts, j) == Some(e.db.rows[j].status)
  {
    if e.ctxDone || !Threatened(e, j) {
      forall acts | Runnable(e, acts) && Honours(e, acts)
        ensures StatusAfter(e, acts, j) == Some(e.db.rows[j].status)
      {
        SafeForever(e, acts, j);
      }
    } else {
      var acts: seq<Action>;
      if k :| EndangeredBy(e, j, k) {
        acts := RunnerCanOverwrite(e, j, k);
      } else {
        acts := RecoveryCanOverwrite(e, j);
      }
      assert StatusAfter(e, acts, j) != Some(e.db.rows[j].status);
    }
  }

  /** Cancelling a job whose run is under way succeeds, and is final only if the daemon is shutting down. */
  lemma CancelDuringRunIsFinalIff(e: State, j: JobId, k: nat)
    requires Shape(e) && !e.loop.Down?
    requires k in e.runs && e.runs[k].job == Some(j) && j in e.db.rows && !IsTerminal(e.db.rows[j].status)
    ensures var e' := Next(e, Env(CancelCall(j, true)));
            && j in e'.db.rows && e'.db.rows[j].status == Cancelled
            && (e.ctxDone <==>
                  forall acts :: Runnable(e', acts) && Honours(e', acts) ==>
                                   StatusAfter(e', acts, j) == Some(Cancelled))
  {
    var e' := Next(e, Env(CancelCall(j, true)));
    assert RunOk(e, k, e.runs[k]);
    ShapeStep(e, Env(CancelCall(j, true)));
    assert EndangeredBy(e', j, k);
    TerminalRowIsFinalIff(e', j);
  }
}
