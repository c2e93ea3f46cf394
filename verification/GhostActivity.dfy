/** While store writes succeed, an active row always has a run behind it. */
module GhostActivity {
  import opened Collections
  import opened JobQueue
  import opened Recovery
  import opened Engine
  import opened EngineInvariants

  /** The step's database write, if it has one, succeeds (an INSERT may still violate a constraint),
      and the process does not die. */
  ghost predicate WritesSucceed(e: State, a: Action)
    requires Enabled(e, a)
  {
    match a
    case Recover(b) => b.MarkStranded? ==> b.ok
    case Tick(_) => true
    case Runner(k, r) =>
      && (r.Insert? ==> r.ok || !CanInsert(e.db, r.id, e.runs[k].workload))
      && (r.Step? && Writes(e.runs[k].pc) ==> r.ok)
    case Env(v) => !v.Crash?
  }

  predicate Writes(pc: Pc) {
    pc.Takeover? || pc.MarkRunning? || pc.OpenAttemptRow? || pc.MarkOutcome? || pc.CloseAttemptRow?
  }

  ghost predicate AllWritesSucceed(e: State, acts: seq<Action>)
    requires Runnable(e, acts)
    decreases |acts|
  {
    acts == [] || (WritesSucceed(e, acts[0]) && AllWritesSucceed(Next(e, acts[0]), acts[1..]))
  }

  /** Run k is working on row j. */
  predicate Serves(e: State, j: JobId, k: nat) {
    k in e.runs && e.runs[k].job == Some(j)
  }

  /** Run k has marked row j running and not yet marked its outcome. */
  predicate Drives(e: State, j: JobId, k: nat) {
    Serves(e, j, k) && DrivingPc(e.runs[k].pc)
  }

  predicate DrivingPc(pc: Pc) {
    pc.OpenAttemptRow? || pc.OpenHandle? || pc.Execute? || pc.Report? || pc.MarkOutcome?
  }

  /** Running rows are driven by a run; rows other than `prior` are active only while some run serves them. */
  ghost predicate RowExplained(e: State, prior: set<JobId>, j: JobId) {
    && (j in e.db.rows && e.db.rows[j].status == Running ==> exists k :: Drives(e, j, k))
    && (j in e.db.rows && j !in prior && !IsTerminal(e.db.rows[j].status) ==> exists k :: Serves(e, j, k))
  }

  ghost predicate NoGhosts(e: State, prior: set<JobId>) {
    forall j: JobId :: RowExplained(e, prior, j)
  }

  /** What a runner's step does to row j and to its own grip on it. */
  lemma RunnerAndRow(db: Db, k: nat, r: Run, act: RunAct, ctxDone: bool, j: JobId)
    requires RunEnabled(db, r, act, ctxDone)
    requires r.job.Some? ==> r.job.value in db.rows
    requires act.Step? && Writes(r.pc) ==> act.ok
    ensures var db', r' := RunDb(db, k, r, act), RunAfter(db, r, act, ctxDone);
            && (j in db'.rows && (j !in db.rows || db'.rows[j].status != db.rows[j].status) ==>
                  || (r'.job == Some(j) && (db'.rows[j].status == Running ==> DrivingPc(r'.pc)))
                  || IsTerminal(db'.rows[j].status))
            && (r.job == Some(j) ==>
                  || (r'.job == Some(j) && (DrivingPc(r.pc) ==> DrivingPc(r'.pc)))
                  || (j in db'.rows && IsTerminal(db'.rows[j].status)))
  {
  }

  lemma ExplainedRunner(e: State, prior: set<JobId>, k: nat, act: RunAct, j: JobId)
    requires Shape(e) && Enabled(e, Runner(k, act)) && WritesSucceed(e, Runner(k, act)) && RowExplained(e, prior, j)
    ensures RowExplained(Next(e, Runner(k, act)), prior, j)
  {
    var e' := Next(e, Runner(k, act));
    assert RunOk(e, k, e.runs[k]);
    RunnerAndRow(e.db, k, e.runs[k], act, e.ctxDone, j);
    if j in e'.db.rows && !IsTerminal(e'.db.rows[j].status) {
      if i :| Drives(e, j, i) { assert i != k ==> Drives(e', j, i); }
      if i :| Serves(e, j, i) { assert i != k ==> Serves(e', j, i); }
      if Serves(e', j, k) { assert Drives(e', j, k) <==> DrivingPc(e'.runs[k].pc); }
    }
  }

  lemma ExplainedTick(e: State, prior: set<JobId>, t: TickAct, j: JobId)
    requires Shape(e) && TickEnabled(e, t) && RowExplained(e, prior, j)
    ensures RowExplained(Next(e, Tick(t)), prior, j)
  {
    var e' := Next(e, Tick(t));
    if i :| Drives(e, j, i) { assert Drives(e', j, i); }
    if i :| Serves(e, j, i) { assert Serves(e', j, i); }
  }

  lemma ExplainedRecover(e: State, prior: set<JobId>, b: BootAct, j: JobId)
    requires Shape(e) && Enabled(e, Recover(b)) && RowExplained(e, prior, j)
    ensures RowExplained(Next(e, Recover(b)), prior, j)
  {
    assert forall k :: !Serves(e, j, k);
  }

  lemma ExplainedEnv(e: State, prior: set<JobId>, v: EnvAct, j: JobId)
    requires Shape(e) && EnvEnabled(e, v) && !v.Crash? && RowExplained(e, prior, j)
    ensures RowExplained(Next(e, Env(v)), prior, j)
  {
    var e' := Next(e, Env(v));
    assert j in e'.db.rows ==>
        j in e.db.rows && (e'.db.rows[j].status == e.db.rows[j].status || IsTerminal(e'.db.rows[j].status));
    if i :| Drives(e, j, i) { assert Drives(e', j, i); }
    if i :| Serves(e, j, i) { assert Serves(e', j, i); }
  }

  lemma NoGhostsStep(e: State, prior: set<JobId>, a: Action)
    requires Shape(e) && Enabled(e, a) && WritesSucceed(e, a) && NoGhosts(e, prior)
    ensures NoGhosts(Next(e, a), prior)
  {
    forall j: JobId ensures RowExplained(Next(e, a), prior, j) {
      assert RowExplained(e, prior, j);
      match a
      case Runner(k, act) => ExplainedRunner(e, prior, k, act, j);
      case Tick(t) => ExplainedTick(e, prior, t, j);
      case Recover(b) => ExplainedRecover(e, prior, b, j);
      case Env(v) => ExplainedEnv(e, prior, v, j);
    }
  }

  lemma {:induction false} NoGhostsAlways(e: State, prior: set<JobId>, acts: seq<Action>)
    requires Shape(e) && NoGhosts(e, prior) && Runnable(e, acts) && AllWritesSucceed(e, acts)
    ensures Shape(Exec(e, acts)) && NoGhosts(Exec(e, acts), prior)
    decreases |acts|
  {
    if acts == [] {
    } else {
      NoGhostsStep(e, prior, acts[0]);
      ShapeStep(e, acts[0]);
      NoGhostsAlways(Next(e, acts[0]), prior, acts[1..]);
    }
  }

  /** From a boot whose sweep succeeded, as long as writes succeed: a row is running only while a run drives
      it, a row created since is active only while a run serves it, and when no tick and no run is in flight
      there are no running rows and no slot is taken. */
  lemma {:induction false} NoGhostActivity(e0: State, acts: seq<Action>)
    requires Shape(e0) && e0.loop.Listing? && Matching(e0.db, {Running}) == {}
    requires Runnable(e0, acts) && AllWritesSucceed(e0, acts)
    ensures var e := Exec(e0, acts);
            && (forall j :: j in e.db.rows && e.db.rows[j].status == Running ==> exists k :: Drives(e, j, k))
            && (forall j :: j in e.db.rows && j !in e0.db.rows && !IsTerminal(e.db.rows[j].status) ==>
                  exists k :: Serves(e, j, k))
            && (!LoopHolds(e.loop) && e.runs == map[] ==> Matching(e.db, {Running}) == {} && e.active == 0)
  {
    assert NoGhosts(e0, e0.db.rows.Keys) by {
      forall j: JobId ensures RowExplained(e0, e0.db.rows.Keys, j) {
        assert j !in Matching(e0.db, {Running});
      }
    }
    NoGhostsAlways(e0, e0.db.rows.Keys, acts);
    var e := Exec(e0, acts);
    forall j | j in e.db.rows && e.db.rows[j].status == Running ensures exists k :: Drives(e, j, k) {
      assert RowExplained(e, e0.db.rows.Keys, j);
    }
    forall j | j in e.db.rows && j !in e0.db.rows && !IsTerminal(e.db.rows[j].status)
      ensures exists k :: Serves(e, j, k)
    {
      assert RowExplained(e, e0.db.rows.Keys, j);
    }
    if e.runs == map[] {
      assert forall j, k :: !Drives(e, j, k);
    }
  }

  /** After a crash at any point, a boot whose sweep succeeds turns exactly the then-running rows to failed,
      writes one event for each, and leaves the engine with nothing running. */
  lemma {:induction false} CrashThenBoot(e: State, ids: seq<JobId>)
    requires Shape(e) && !e.loop.Down? && IsListing(ids, e.db, ORPHAN_STATUSES)
    ensures Runnable(e, [Env(Crash), Env(Boot(true, ids))])
    ensures var e' := Exec(e, [Env(Crash), Env(Boot(true, ids))]);
            && e'.db.rows.Keys == e.db.rows.Keys
            && (forall j :: j in e.db.rows ==>
                  e'.db.rows[j] == if e.db.rows[j].status == Running then e.db.rows[j].(status := Failed)
                                   else e.db.rows[j])
            && e'.db.attempts == e.db.attempts
            && (forall j :: multiset(e'.db.events)[Event(j, ORPHAN_FAILED, ORPHANED_AFTER_RESTART)]
                         == multiset(e.db.events)[Event(j, ORPHAN_FAILED, ORPHANED_AFTER_RESTART)]
                            + if j in Matching(e.db, {Running}) then 1 else 0)
            && |e'.db.events| == |e.db.events| + |Matching(e.db, {Running})|
            && Shape(e') && e'.loop.Listing? && Matching(e'.db, {Running}) == {}
  {
    var crash, boot := Env(Crash), Env(Boot(true, ids));
    var e1 := Next(e, crash);
    var e2 := Next(e1, boot);
    ShapeStep(e, crash);
    ShapeStep(e1, boot);
    assert [crash, boot][1..] == [boot] && [boot][1..] == [];
    assert Exec(e1, [boot]) == e2;
    SweepIsExact(e.db, ORPHAN_STATUSES, ids, ORPHAN_FAILED, ORPHANED_AFTER_RESTART);
  }
}
