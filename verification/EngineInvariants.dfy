/** The structural invariant of the engine: which rows runners may refer to, how many slots are held, the life cycle of
    heartbeats, and the pause flags. */
module EngineInvariants {
  import opened JobQueue
  import opened Recovery
  import opened Engine

  // ---------- shape, slots and flags ----------

  /** The points of runOne between StartHeartbeat and the return of heartbeat.Stop. */
  predicate HasHeart(pc: Pc) {
    || pc.OpenHandle? || pc.Execute? || pc.Report? || pc.MarkOutcome? || pc.CloseAttemptRow?
    || pc.StopHeartbeat? || pc.AwaitHeartbeat?
  }

  predicate HeartOk(r: Run) {
    if HasHeart(r.pc) then !r.heart.Off?
    else if r.pc.Return? || r.pc.Release? then r.heart.Off? || r.heart.Gone?
    else r.heart.Off?
  }

  ghost predicate RunOk(e: State, k: nat, r: Run) {
    && e.epoch <= k < e.next
    && HeartOk(r)
    && (r.job.Some? ==> r.job.value in e.db.rows && e.db.rows[r.job.value].workload == r.workload)
  }

  ghost predicate RunsOk(e: State) {
    && UniqueWorkloads(e.db)
    && (forall k :: k in e.runs ==> RunOk(e, k, e.runs[k]))
    && (e.loop.Marking? ==> forall id :: id in e.loop.ids ==> id in e.db.rows)
  }

  /** Slots: `active` counts the runners plus the slot the tick holds, and never passes the limit,
      although runners may free slots between the check and the increment of Reserve. */
  ghost predicate SlotsOk(e: State) {
    && e.active == |e.runs| + (if LoopHolds(e.loop) then 1 else 0)
    && e.active <= e.limit
    && (e.loop.Checked? ==> e.active < e.limit)
    && (LoopHolds(e.loop) ==> e.epoch <= e.loop.k < e.next && e.loop.k !in e.runs)
    && (e.loop.Down? || e.loop.Listing? || e.loop.Marking? ==> |e.runs| == 0)
    && e.epoch <= e.next
    && e.mark <= |e.log|
  }

  /** ReauthRequired is shown only while the scheduler is paused, except inside a park or a Resume. */
  predicate FlagsOk(e: State) {
    e.reauth && !e.paused ==> e.loop.SetPaused? || e.resuming > 0
  }

  ghost predicate Shape(e: State) {
    RunsOk(e) && SlotsOk(e) && FlagsOk(e)
  }

  /** No statement deletes a row, moves a row to another workload or breaks UNIQUE. */
  ghost predicate Keeps(db: Db, db': Db) {
    && db.rows.Keys <= db'.rows.Keys
    && (forall id :: id in db.rows ==> db'.rows[id].workload == db.rows[id].workload)
    && UniqueWorkloads(db')
  }

  lemma RunKeeps(e: State, k: nat, act: RunAct)
    requires RunsOk(e) && Enabled(e, Runner(k, act))
    ensures Keeps(e.db, RunDb(e.db, k, e.runs[k], act))
  {
    assert RunOk(e, k, e.runs[k]);
  }

  lemma RunStaysOk(e: State, k: nat, act: RunAct)
    requires RunsOk(e) && Enabled(e, Runner(k, act)) && !Frees(e.runs[k], act)
    ensures RunOk(RunStep(e, k, act), k, RunAfter(e.db, e.runs[k], act, e.ctxDone))
  {
    assert RunOk(e, k, e.runs[k]);
    RunKeeps(e, k, act);
  }

  lemma EnvKeeps(e: State, v: EnvAct)
    requires UniqueWorkloads(e.db) && EnvEnabled(e, v)
    ensures Keeps(e.db, EnvDb(e.db, v))
  {
    match v
    case UnpairSweep(ok, ids) =>
      if ok { SweepIsExact(e.db, ACTIVE_STATUSES, ids, UNPAIR_FAILED, UNPAIRED); }
    case Boot(ok, ids) =>
      if ok { SweepIsExact(e.db, ORPHAN_STATUSES, ids, ORPHAN_FAILED, ORPHANED_AFTER_RESTART); }
    case _ =>
  }

  /** Runners that do not move stay well formed whatever the others do to the database. */
  lemma OthersStayOk(e: State, e': State)
    requires RunsOk(e) && Keeps(e.db, e'.db) && e'.epoch == e.epoch && e.next <= e'.next
    ensures forall k :: k in e.runs ==> RunOk(e', k, e.runs[k])
  {
    forall k | k in e.runs ensures RunOk(e', k, e.runs[k]) {
      assert RunOk(e, k, e.runs[k]);
    }
  }

  lemma ShapeRunner(e: State, k: nat, act: RunAct)
    requires Shape(e) && Enabled(e, Runner(k, act))
    ensures Shape(Next(e, Runner(k, act)))
  {
    var e' := Next(e, Runner(k, act));
    RunKeeps(e, k, act);
    if Frees(e.runs[k], act) {
      assert e'.runs.Keys == e.runs.Keys - {k};
    } else {
      RunStaysOk(e, k, act);
      assert e'.runs.Keys == e.runs.Keys;
    }
    OthersStayOk(e, e');
  }

  lemma ShapeBoot(e: State, b: BootAct)
    requires Shape(e) && Enabled(e, Recover(b))
    ensures Shape(Next(e, Recover(b)))
  {
    OthersStayOk(e, Next(e, Recover(b)));
  }

  lemma RunsOkTick(e: State, t: TickAct)
    requires RunsOk(e) && SlotsOk(e) && TickEnabled(e, t)
    ensures RunsOk(Next(e, Tick(t)))
  {
    OthersStayOk(e, Next(e, Tick(t)));
  }

  lemma SlotsOkTick(e: State, t: TickAct)
    requires RunsOk(e) && SlotsOk(e) && TickEnabled(e, t)
    ensures SlotsOk(Next(e, Tick(t)))
  {
    assert e.next in e.runs ==> RunOk(e, e.next, e.runs[e.next]);
  }

  lemma ShapeEnv(e: State, v: EnvAct)
    requires Shape(e) && EnvEnabled(e, v)
    ensures Shape(Next(e, Env(v)))
  {
    EnvKeeps(e, v);
    if !v.Crash? {
      OthersStayOk(e, Next(e, Env(v)));
    }
  }

  lemma ShapeStep(e: State, a: Action)
    requires Shape(e) && Enabled(e, a)
    ensures Shape(Next(e, a))
  {
    match a
    case Recover(b) => ShapeBoot(e, b);
    case Runner(k, r) => ShapeRunner(e, k, r);
    case Env(v) => ShapeEnv(e, v);
    case Tick(t) => RunsOkTick(e, t); SlotsOkTick(e, t);
  }
}
