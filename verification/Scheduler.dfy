/** A runner's own code (internal/runtime/scheduler.go: upsertJobForWorkload, runOne) as sequential methods over the
    store and the cloud: what it does alone, and that each method is a path of the engine machine. */
module Scheduler {
  import opened Collections
  import opened JobQueue
  import opened Engine

  /** The results the environment gives to one run, in the order runOne asks for them. */
  datatype World = World(
    readOk: bool, newId: JobId, insertOk: bool, leaseOk: bool, countOk: bool,
    runningOk: bool, attemptOk: bool, handleOk: bool, executeOk: bool, ctxDone: bool,
    outcomeOk: bool, finishOk: bool)

  /** What an observer sees, the cloud calls among it. */
  class Journal {
    var log: seq<Obs>

    constructor (log: seq<Obs>)
      ensures this.log == log
    {
      this.log := log;
    }

    method Note(o: Obs)
      modifies this
      ensures log == old(log) + [o]
    {
      log := log + [o];
    }
  }

  // ---------- paths of one goroutine ----------

  ghost predicate OnlyRunner(acts: seq<Action>, k: nat) {
    forall i :: 0 <= i < |acts| ==> acts[i].Runner? && acts[i].k == k
  }

  /** The machine gets from e to e' by steps of runner k alone. */
  ghost predicate RunnerPath(e: State, k: nat, e': State) {
    exists acts :: Runnable(e, acts) && OnlyRunner(acts, k) && Exec(e, acts) == e'
  }

  lemma {:induction false} ExecSnoc(e: State, acts: seq<Action>, a: Action)
    requires Runnable(e, acts) && Enabled(Exec(e, acts), a)
    ensures Runnable(e, acts + [a]) && Exec(e, acts + [a]) == Next(Exec(e, acts), a)
    decreases |acts|
  {
    if acts == [] {
      assert [a][1..] == [] && [] + [a] == [a];
    } else {
      ExecSnoc(Next(e, acts[0]), acts[1..], a);
      assert (acts + [a])[1..] == acts[1..] + [a];
    }
  }

  lemma PathStarts(e: State, k: nat)
    ensures RunnerPath(e, k, e)
  {
    assert Runnable(e, []) && OnlyRunner([], k) && Exec(e, []) == e;
  }

  /** One more step of the runner, other than its last. */
  lemma Advance(e0: State, k: nat, e: State, act: RunAct) returns (e': State)
    requires RunnerPath(e0, k, e) && k in e.runs && RunEnabled(e.db, e.runs[k], act, e.ctxDone)
    requires !Frees(e.runs[k], act)
    ensures RunnerPath(e0, k, e') && k in e'.runs
    ensures e'.db == RunDb(e.db, k, e.runs[k], act)
    ensures e'.log == e.log + RunObs(e.db, k, e.runs[k], act, e.ctxDone)
    ensures e'.runs[k] == RunAfter(e.db, e.runs[k], act, e.ctxDone)
    ensures e'.ctxDone == e.ctxDone
  {
    var acts :| Runnable(e0, acts) && OnlyRunner(acts, k) && Exec(e0, acts) == e;
    ExecSnoc(e0, acts, Runner(k, act));
    e' := Next(e, Runner(k, act));
  }

  // the steps that write the database, spelled out

  lemma BumpLease(e0: State, k: nat, e: State, ok: bool) returns (e': State)
    requires RunnerPath(e0, k, e) && k in e.runs && e.runs[k].pc.Takeover?
    ensures RunnerPath(e0, k, e') && k in e'.runs && e'.ctxDone == e.ctxDone && e'.log == e.log
    ensures e'.db == if ok then SetLease(e.db, e.runs[k].job.value, k) else e.db
    ensures e'.runs[k] == if ok then e.runs[k].(pc := CountAttempts) else e.runs[k].(pc := Surrendering, job := None)
  {
    e' := Advance(e0, k, e, Step(ok));
  }

  lemma NumberAttempt(e0: State, k: nat, e: State, ok: bool) returns (e': State)
    requires RunnerPath(e0, k, e) && k in e.runs && e.runs[k].pc.CountAttempts?
    ensures RunnerPath(e0, k, e') && k in e'.runs && e'.ctxDone == e.ctxDone && e'.log == e.log && e'.db == e.db
    ensures var num := if ok then AttemptsOf(e.db, e.runs[k].job.value) + 1 else 1;
            e'.runs[k] == e.runs[k].(pc := MarkRunning, num := num)
  {
    e' := Advance(e0, k, e, Step(ok));
  }

  lemma MarkRow(e0: State, k: nat, e: State, ok: bool) returns (e': State)
    requires RunnerPath(e0, k, e) && k in e.runs && e.runs[k].pc.MarkRunning?
    ensures RunnerPath(e0, k, e') && k in e'.runs && e'.ctxDone == e.ctxDone && e'.log == e.log
    ensures e'.db == if ok then SetStatus(e.db, e.runs[k].job.value, Running) else e.db
    ensures e'.runs[k] == e.runs[k].(pc := OpenAttemptRow)
  {
    e' := Advance(e0, k, e, Step(ok));
  }

  lemma StartHeart(e0: State, k: nat, e: State, ok: bool) returns (e': State)
    requires RunnerPath(e0, k, e) && k in e.runs && e.runs[k].pc.OpenAttemptRow?
    ensures RunnerPath(e0, k, e') && k in e'.runs && e'.ctxDone == e.ctxDone && e'.log == e.log
    ensures e'.db == if ok then OpenAttempt(e.db, e.runs[k].job.value, e.runs[k].num) else e.db
    ensures e'.runs[k]
         == e.runs[k].(pc := OpenHandle, attempt := if ok then |e.db.attempts| + 1 else 0, heart := Waiting)
  {
    e' := Advance(e0, k, e, Step(ok));
  }

  lemma FinishRow(e0: State, k: nat, e: State, ok: bool) returns (e': State)
    requires RunnerPath(e0, k, e) && k in e.runs && e.runs[k].pc.MarkOutcome?
    ensures RunnerPath(e0, k, e') && k in e'.runs && e'.ctxDone == e.ctxDone && e'.log == e.log
    ensures e'.db == if ok then SetStatus(e.db, e.runs[k].job.value, FinalStatus(e.runs[k].pc.outcome)) else e.db
    ensures e'.runs[k] == e.runs[k].(pc := CloseAttemptRow(e.runs[k].pc.outcome), job := None)
  {
    e' := Advance(e0, k, e, Step(ok));
  }

  lemma FailRead(e0: State, k: nat, e: State) returns (e': State)
    requires RunnerPath(e0, k, e) && k in e.runs && e.runs[k].pc.Lookup?
    ensures RunnerPath(e0, k, e') && k in e'.runs && e'.ctxDone == e.ctxDone && e'.log == e.log && e'.db == e.db
    ensures e'.runs[k] == e.runs[k].(pc := Surrendering)
  {
    e' := Advance(e0, k, e, ReadFails);
  }

  lemma InsertRow(e0: State, k: nat, e: State, id: JobId, ok: bool) returns (e': State)
    requires RunnerPath(e0, k, e) && k in e.runs && e.runs[k].pc.Create?
    requires ok ==> CanInsert(e.db, id, e.runs[k].workload)
    ensures RunnerPath(e0, k, e') && k in e'.runs && e'.ctxDone == e.ctxDone && e'.log == e.log
    ensures e'.db == if ok then InsertJob(e.db, id, e.runs[k].workload, k) else e.db
    ensures e'.runs[k]
         == if ok then e.runs[k].(pc := MarkRunning, job := Some(id), num := 1) else e.runs[k].(pc := Surrendering)
  {
    e' := Advance(e0, k, e, RunAct.Insert(id, ok));
  }

  lemma OpenJob(e0: State, k: nat, e: State, ok: bool) returns (e': State)
    requires RunnerPath(e0, k, e) && k in e.runs && e.runs[k].pc.OpenHandle?
    ensures RunnerPath(e0, k, e') && k in e'.runs && e'.ctxDone == e.ctxDone && e'.db == e.db
    ensures e'.log == e.log + [if ok then Executing(k, e.runs[k].workload) else Ended(k, HandleError)]
    ensures e'.runs[k] == e.runs[k].(pc := if ok then Execute else Report(HandleError))
  {
    e' := Advance(e0, k, e, Step(ok));
  }

  lemma EndJob(e0: State, k: nat, e: State, ok: bool) returns (e': State)
    requires RunnerPath(e0, k, e) && k in e.runs && e.runs[k].pc.Execute?
    ensures RunnerPath(e0, k, e') && k in e'.runs && e'.ctxDone == e.ctxDone && e'.db == e.db
    ensures var o := if ok then ExecOk else ExecError(e.ctxDone);
            e'.log == e.log + [Ended(k, o)] && e'.runs[k] == e.runs[k].(pc := Report(o))
  {
    e' := Advance(e0, k, e, Step(ok));
  }

  lemma LeaseKeepsAttempts(db: Db, id: JobId, lease: LeaseToken)
    ensures AttemptsOf(SetLease(db, id, lease), id) == AttemptsOf(db, id)
  {
  }

  lemma ReadRow(e0: State, k: nat, e: State, found: Option<JobId>) returns (e': State)
    requires RunnerPath(e0, k, e) && k in e.runs && RunEnabled(e.db, e.runs[k], Read(found), e.ctxDone)
    requires e.runs[k].job.None?
    ensures RunnerPath(e0, k, e') && k in e'.runs && e'.ctxDone == e.ctxDone && e'.db == e.db
    ensures found.None? ==> e'.log == e.log && e'.runs[k] == e.runs[k].(pc := Create)
    ensures found.Some? && !IsTerminal(e.db.rows[found.value].status) ==>
              e'.log == e.log && e'.runs[k] == e.runs[k].(pc := Takeover, job := found)
    ensures found.Some? && IsTerminal(e.db.rows[found.value].status) ==>
              var status := e.db.rows[found.value].status;
              e'.log == e.log + [Saw(k, status)] && e'.runs[k] == e.runs[k].(pc := ReportTerminal(status))
  {
    e' := Advance(e0, k, e, Read(found));
  }

  /** The method's view agrees with the machine: database, log and where runner k stands. */
  ghost predicate At(e: State, k: nat, store: Store, journal: Journal, r: Run)
    reads store, journal
  {
    k in e.runs && e.runs[k] == r && e.db == store.db && e.log == journal.log
  }

  // ---------- what a run does when it is alone ----------

  /** The row of a workload; UNIQUE makes it the only one. */
  ghost function RowOf(db: Db, w: WorkloadId): (r: Option<JobId>)
    ensures r.None? <==> !HasWorkload(db, w)
    ensures r.Some? ==> r.value in db.rows && db.rows[r.value].workload == w
  {
    if HasWorkload(db, w) then
      var id :| id in db.rows && db.rows[id].workload == w;
      Some(id)
    else None
  }

  /** What becomes of a claimed workload: run it as attempt `num` of row `id`, or close the lease at once, with the
      terminal status seen, if any. */
  datatype Decision = Proceed(id: JobId, num: nat, db: Db) | Stop(seen: Option<Status>, call: Call)

  ghost function Decide(db: Db, k: nat, w: WorkloadId, world: World): (d: Decision)
    ensures d.Proceed? ==> d.id in d.db.rows && d.db.attempts == db.attempts
    ensures d.Proceed? ==> d.db.rows[d.id].workload == w && d.db.rows[d.id].lease == k
    ensures d.Proceed? ==> !IsTerminal(d.db.rows[d.id].status) && forall id :: id in db.rows && id != d.id ==>
                             id in d.db.rows && d.db.rows[id] == db.rows[id]
  {
    var row := RowOf(db, w);
    if !world.readOk then Stop(None, Surrender)
    else if row.None? then
      if world.insertOk && world.newId !in db.rows
      then Proceed(world.newId, 1, InsertJob(db, world.newId, w, k)) else Stop(None, Surrender)
    else if IsTerminal(db.rows[row.value].status) then
      Stop(Some(db.rows[row.value].status), CallForTerminal(db.rows[row.value].status))
    else if !world.leaseOk then Stop(None, Surrender)
    else Proceed(row.value, if world.countOk then AttemptsOf(db, row.value) + 1 else 1, SetLease(db, row.value, k))
  }

  function OutcomeIn(world: World): Outcome {
    if !world.handleOk then HandleError else if world.executeOk then ExecOk else ExecError(world.ctxDone)
  }

  /** The traffic of a stopped run and of a whole run. */
  function StopLog(k: nat, seen: Option<Status>, call: Call): seq<Obs> {
    (if seen.Some? then [Saw(k, seen.value)] else []) + [Closed(k, call)]
  }

  function ExecuteLog(k: nat, w: WorkloadId, world: World): seq<Obs> {
    if world.handleOk then [Executing(k, w), Ended(k, OutcomeIn(world))] else [Ended(k, HandleError)]
  }

  function Transcript(d: Decision, k: nat, w: WorkloadId, world: World): seq<Obs> {
    if d.Stop? then StopLog(k, d.seen, d.call) + [Returned(k)]
    else ExecuteLog(k, w, world) + [Closed(k, CallFor(OutcomeIn(world))), Returned(k)]
  }

  /** The database a run leaves behind: the row carries the last status that could be written, and the attempt, if it
      could be opened, its outcome, if that could be written. */
  function LeftBehind(db: Db, d: Decision, world: World): Db
    requires d.Proceed? ==> d.id in d.db.rows
  {
    if d.Stop? then db
    else
      var o := OutcomeIn(world);
      var status := if world.outcomeOk then FinalStatus(o)
                    else if world.runningOk then Running else d.db.rows[d.id].status;
      var attempt := Attempt(d.id, d.num, if world.finishOk then Some(o.ExecOk?) else None);
      d.db.(rows := d.db.rows[d.id := d.db.rows[d.id].(status := status)],
            attempts := if world.attemptOk then d.db.attempts + [attempt] else d.db.attempts)
  }

  /** What a run that proceeds leaves, in terms of what happened to it: the row succeeded exactly if the handle opened
      and the executor returned nil, and failed otherwise; the attempt says the same; the cloud was told Complete or
      Fail accordingly, to be retried only if the executor failed without shutdown; and the workload was executed
      exactly if the handle opened. */
  ghost predicate TellsTheRun(d: Decision, k: nat, w: WorkloadId, world: World, db: Db, log: seq<Obs>)
    requires d.Proceed? && d.id in d.db.rows
  {
    var good := world.handleOk && world.executeOk;
    && db.rows.Keys == d.db.rows.Keys && db.rows - {d.id} == d.db.rows - {d.id} && db.events == d.db.events
    && db.rows[d.id].workload == d.db.rows[d.id].workload && db.rows[d.id].lease == d.db.rows[d.id].lease
    && (world.outcomeOk ==> db.rows[d.id].status == if good then Succeeded else Failed)
    && (!world.outcomeOk && world.runningOk ==> db.rows[d.id].status == Running)
    && (!world.outcomeOk && !world.runningOk ==> db.rows[d.id] == d.db.rows[d.id])
    && (!world.attemptOk ==> db.attempts == d.db.attempts)
    && (world.attemptOk ==>
          db.attempts == d.db.attempts + [Attempt(d.id, d.num, if world.finishOk then Some(good) else None)])
    && (Executing(k, w) in log <==> world.handleOk)
    && |log| >= 2
    && log[|log| - 2..] == [Closed(k, if good then Complete else Fail(world.handleOk && !world.ctxDone)), Returned(k)]
  }

  lemma RunTellsTheRun(db: Db, d: Decision, k: nat, w: WorkloadId, world: World)
    requires d.Proceed? && d.id in d.db.rows
    ensures TellsTheRun(d, k, w, world, LeftBehind(db, d, world), Transcript(d, k, w, world))
  {
    var t := Transcript(d, k, w, world);
    assert t[|t| - 2..] == [Closed(k, CallFor(OutcomeIn(world))), Returned(k)];
    if world.handleOk { assert t[0] == Executing(k, w); }
  }

  /** Result, database and log agree with the decision. */
  ghost predicate Follows(
    r: Option<(JobId, nat)>, d: Decision, k: nat, db: Db, log: seq<Obs>, db': Db, log': seq<Obs>)
  {
    match d
    case Proceed(id, num, after) => r == Some((id, num)) && db' == after && log' == log
    case Stop(seen, call) => r == None && db' == db && log' == log + StopLog(k, seen, call)
  }

  // ---------- the code ----------

  /** upsertJobForWorkload: Some((job, attempt)) to proceed, None when a terminal report or a surrender was sent. */
  method UpsertJobForWorkload(store: Store, journal: Journal, k: nat, w: WorkloadId, world: World, ghost e0: State)
    returns (r: Option<(JobId, nat)>, ghost e: State)
    requires At(e0, k, store, journal, Run(w, Lookup, None, 0, 0, Off)) && UniqueWorkloads(store.db)
    modifies store, journal
    ensures Follows(r, Decide(old(store.db), k, w, world), k, old(store.db), old(journal.log), store.db, journal.log)
    ensures RunnerPath(e0, k, e) && e.ctxDone == e0.ctxDone
    ensures r.Some? ==> At(e, k, store, journal, Run(w, MarkRunning, Some(r.value.0), r.value.1, 0, Off))
    ensures r.None? ==> At(e, k, store, journal, Run(w, Return, None, 0, 0, Off))
  {
    hide RunnerPath;
    PathStarts(e0, k);
    var existing := store.GetByWorkloadId(w, world.readOk);
    if existing.Err? && existing.error != NotFound {
      e := FailRead(e0, k, e0);
      e := GiveUp(store, journal, k, w, e0, e);
      return None, e;
    }
    if existing.Err? {
      e := ReadRow(e0, k, e0, None);
      r, e := Insert(store, journal, k, w, world, e0, e);
      return r, e;
    }
    var id := existing.value;
    RowIs(store.db, w, id);
    e := ReadRow(e0, k, e0, Some(id));
    r, e := UseRow(store, journal, k, w, id, world, e0, e);
  }

  lemma RowIs(db: Db, w: WorkloadId, id: JobId)
    requires UniqueWorkloads(db) && id in db.rows && db.rows[id].workload == w
    ensures RowOf(db, w) == Some(id)
  {
    assert HasWorkload(db, w);
  }

  /** There is a row: take it over while it is active, report it when it is terminal. */
  method UseRow(
    store: Store, journal: Journal, k: nat, w: WorkloadId, id: JobId, world: World, ghost e0: State, ghost e: State)
    returns (r: Option<(JobId, nat)>, ghost e': State)
    requires RunnerPath(e0, k, e) && k in e.runs && e.db == store.db && id in store.db.rows
    requires var status := store.db.rows[id].status;
             if IsTerminal(status)
             then
               && e.runs[k] == Run(w, ReportTerminal(status), None, 0, 0, Off)
               && e.log == journal.log + [Saw(k, status)]
             else e.runs[k] == Run(w, Takeover, Some(id), 0, 0, Off) && e.log == journal.log
    modifies store, journal
    ensures var status := old(store.db).rows[id].status;
            if IsTerminal(status) then
              && r.None? && store.db == old(store.db)
              && journal.log == old(journal.log) + StopLog(k, Some(status), CallForTerminal(status))
            else if !world.leaseOk then
              r.None? && store.db == old(store.db) && journal.log == old(journal.log) + StopLog(k, None, Surrender)
            else
              && r == Some((id, if world.countOk then AttemptsOf(old(store.db), id) + 1 else 1))
              && store.db == SetLease(old(store.db), id, k) && journal.log == old(journal.log)
    ensures RunnerPath(e0, k, e') && e'.ctxDone == e.ctxDone
    ensures r.Some? ==> At(e', k, store, journal, Run(w, MarkRunning, Some(id), r.value.1, 0, Off))
    ensures r.None? ==> At(e', k, store, journal, Run(w, Return, None, 0, 0, Off))
  {
    var status := store.db.rows[id].status;
    if status == Queued || status == Running {
      r, e' := TakeOver(store, journal, k, w, id, world, e0, e);
      return r, e';
    }
    journal.Note(Saw(k, status));
    e' := ReportBack(store, journal, k, w, status, e0, e);
    return None, e';
  }

  /** No row yet: create it. */
  method Insert(store: Store, journal: Journal, k: nat, w: WorkloadId, world: World, ghost e0: State, ghost e: State)
    returns (r: Option<(JobId, nat)>, ghost e': State)
    requires RunnerPath(e0, k, e) && At(e, k, store, journal, Run(w, Create, None, 0, 0, Off))
    modifies store, journal
    ensures r == if world.insertOk && CanInsert(old(store.db), world.newId, w) then Some((world.newId, 1)) else None
    ensures r.Some? ==> store.db == InsertJob(old(store.db), world.newId, w, k) && journal.log == old(journal.log)
    ensures r.None? ==> store.db == old(store.db) && journal.log == old(journal.log) + [Closed(k, Surrender)]
    ensures RunnerPath(e0, k, e') && e'.ctxDone == e.ctxDone
    ensures r.Some? ==> At(e', k, store, journal, Run(w, MarkRunning, Some(r.value.0), r.value.1, 0, Off))
    ensures r.None? ==> At(e', k, store, journal, Run(w, Return, None, 0, 0, Off))
  {
    var created := store.CreateJob(world.newId, w, k, world.insertOk);
    ghost var e1 := InsertRow(e0, k, e, world.newId, created.Ok?);
    if created.Err? {
      e' := GiveUp(store, journal, k, w, e0, e1);
      return None, e';
    }
    return Some((world.newId, 1)), e1;
  }

  /** The row is terminal: tell the cloud instead of running it again. */
  method ReportBack(
    store: Store, journal: Journal, k: nat, w: WorkloadId, status: Status, ghost e0: State, ghost e: State)
    returns (ghost e': State)
    requires RunnerPath(e0, k, e) && At(e, k, store, journal, Run(w, ReportTerminal(status), None, 0, 0, Off))
    modifies journal
    ensures journal.log == old(journal.log) + [Closed(k, if status == Succeeded then Complete else Fail(false))]
    ensures RunnerPath(e0, k, e') && e'.ctxDone == e.ctxDone
    ensures At(e', k, store, journal, Run(w, Return, None, 0, 0, Off))
  {
    if status == Succeeded {
      journal.Note(Closed(k, Complete));
    } else {
      journal.Note(Closed(k, Fail(false)));
    }
    e' := Advance(e0, k, e, Step(true));
  }

  /** Surrender the lease and give up on the run. */
  method GiveUp(store: Store, journal: Journal, k: nat, w: WorkloadId, ghost e0: State, ghost e: State)
    returns (ghost e': State)
    requires RunnerPath(e0, k, e) && At(e, k, store, journal, Run(w, Surrendering, None, 0, 0, Off))
    modifies journal
    ensures journal.log == old(journal.log) + [Closed(k, Surrender)]
    ensures RunnerPath(e0, k, e') && e'.ctxDone == e.ctxDone
    ensures At(e', k, store, journal, Run(w, Return, None, 0, 0, Off))
  {
    journal.Note(Closed(k, Surrender));
    e' := Advance(e0, k, e, Step(true));
  }

  /** The takeover branch: bump the lease, number the attempt. */
  method TakeOver(
    store: Store, journal: Journal, k: nat, w: WorkloadId, id: JobId, world: World, ghost e0: State, ghost e: State)
    returns (r: Option<(JobId, nat)>, ghost e': State)
    requires RunnerPath(e0, k, e) && id in store.db.rows
    requires At(e, k, store, journal, Run(w, Takeover, Some(id), 0, 0, Off))
    modifies store, journal
    ensures r == if !world.leaseOk then None
                 else Some((id, if world.countOk then AttemptsOf(old(store.db), id) + 1 else 1))
    ensures r.Some? ==> store.db == SetLease(old(store.db), id, k) && journal.log == old(journal.log)
    ensures r.None? ==> store.db == old(store.db) && journal.log == old(journal.log) + [Closed(k, Surrender)]
    ensures RunnerPath(e0, k, e') && e'.ctxDone == e.ctxDone
    ensures r.Some? ==> At(e', k, store, journal, Run(w, MarkRunning, Some(id), r.value.1, 0, Off))
    ensures r.None? ==> At(e', k, store, journal, Run(w, Return, None, 0, 0, Off))
  {
    hide RunnerPath;
    LeaseKeepsAttempts(store.db, id, k);
    var leased := store.UpdateLease(id, k, world.leaseOk);
    ghost var e1 := BumpLease(e0, k, e, leased.Ok?);
    if leased.Err? {
      e' := GiveUp(store, journal, k, w, e0, e1);
      return None, e';
    }
    var num;
    num, e' := NextAttempt(store, journal, k, Run(w, CountAttempts, Some(id), 0, 0, Off), world, e0, e1);
    return Some((id, num)), e';
  }

  /** The attempt number: the count plus one, a count that cannot be read being zero. */
  method NextAttempt(store: Store, journal: Journal, k: nat, r: Run, world: World, ghost e0: State, ghost e: State)
    returns (num: nat, ghost e': State)
    requires r.pc.CountAttempts? && RunnerPath(e0, k, e) && At(e, k, store, journal, r)
    ensures num == if world.countOk then AttemptsOf(store.db, r.job.value) + 1 else 1
    ensures RunnerPath(e0, k, e') && e'.ctxDone == e.ctxDone
    ensures At(e', k, store, journal, r.(pc := MarkRunning, num := num))
  {
    var attempts := store.AttemptCount(r.job.value, world.countOk);
    num := if attempts.Ok? then attempts.value + 1 else 1;
    e' := NumberAttempt(e0, k, e, attempts.Ok?);
  }

  /** runOne, up to its return: afterwards only the slot is left to give back. */
  method RunOne(store: Store, journal: Journal, k: nat, w: WorkloadId, world: World, ghost e0: State)
    returns (ghost e: State)
    requires At(e0, k, store, journal, Run(w, Lookup, None, 0, 0, Off)) && world.ctxDone == e0.ctxDone
    requires UniqueWorkloads(store.db)
    modifies store, journal
    ensures var d := Decide(old(store.db), k, w, world);
            && journal.log == old(journal.log) + Transcript(d, k, w, world)
            && store.db == LeftBehind(old(store.db), d, world)
            && (d.Proceed? ==> TellsTheRun(d, k, w, world, store.db, Transcript(d, k, w, world)))
    ensures RunnerPath(e0, k, e) && k in e.runs && e.runs[k].pc == Release
    ensures e.db == store.db && e.log == journal.log
  {
    var job;
    job, e := UpsertJobForWorkload(store, journal, k, w, world, e0);
    if job.Some? {
      e := RunJob(store, journal, k, Run(w, MarkRunning, Some(job.value.0), job.value.1, 0, Off), world, e0, e);
    }
    e := Leave(store, journal, k, e0, e);
    AddsUp(old(store.db), Decide(old(store.db), k, w, world), k, w, world, old(journal.log));
    hide TellsTheRun;
    if job.Some? { RunTellsTheRun(old(store.db), Decide(old(store.db), k, w, world), k, w, world); }
  }

  /** The four statements on the row and the attempt, taken together. */
  function AfterJob(db: Db, id: JobId, num: nat, world: World): Db {
    var db1 := if world.runningOk then SetStatus(db, id, Running) else db;
    var db2 := if world.attemptOk then OpenAttempt(db1, id, num) else db1;
    var db3 := if world.outcomeOk then SetStatus(db2, id, FinalStatus(OutcomeIn(world))) else db2;
    var attempt := if world.attemptOk then |db1.attempts| + 1 else 0;
    if world.finishOk then CloseAttempt(db3, attempt, OutcomeIn(world).ExecOk?) else db3
  }

  /** The pieces of a run add up to its transcript and to what it leaves behind. */
  lemma AddsUp(db: Db, d: Decision, k: nat, w: WorkloadId, world: World, log: seq<Obs>)
    requires d.Proceed? ==> d.id in d.db.rows
    ensures d.Proceed? ==>
              && AfterJob(d.db, d.id, d.num, world) == LeftBehind(db, d, world)
              && log + ExecuteLog(k, w, world) + [Closed(k, CallFor(OutcomeIn(world)))] + [Returned(k)]
                 == log + Transcript(d, k, w, world)
    ensures d.Stop? ==> log + StopLog(k, d.seen, d.call) + [Returned(k)] == log + Transcript(d, k, w, world)
  {
  }

  /** runOne after a successful upsert, up to the return of heartbeat.Stop. */
  method RunJob(store: Store, journal: Journal, k: nat, r0: Run, world: World, ghost e0: State, ghost e: State)
    returns (ghost e': State)
    requires r0.pc.MarkRunning? && r0.heart.Off? && RunnerPath(e0, k, e) && At(e, k, store, journal, r0)
    requires r0.job.value in store.db.rows && world.ctxDone == e.ctxDone
    modifies store, journal
    ensures store.db == AfterJob(old(store.db), r0.job.value, r0.num, world)
    ensures journal.log
         == old(journal.log) + ExecuteLog(k, r0.workload, world) + [Closed(k, CallFor(OutcomeIn(world)))]
    ensures RunnerPath(e0, k, e') && k in e'.runs && e'.runs[k].pc == Return
    ensures e'.db == store.db && e'.log == journal.log
  {
    var r := r0;
    var attempt, outcome;
    attempt, e' := BeginAttempt(store, journal, k, r, world, e0, e);
    r := r.(pc := OpenHandle, attempt := attempt, heart := Waiting);
    outcome, e' := ExecuteJob(store, journal, k, r, world, e0, e');
    r := r.(pc := Report(outcome));
    e' := ReportOutcome(store, journal, k, r, e0, e');
    r := r.(pc := MarkOutcome(outcome));
    e' := RecordOutcome(store, journal, k, r, world, e0, e');
    r := r.(pc := CloseAttemptRow(outcome), job := None);
    e' := CloseBooks(store, journal, k, r, world, e0, e');
    e' := StopHeart(store, journal, k, r.(pc := StopHeartbeat), e0, e');
  }

  /** runOne returns. */
  method Leave(store: Store, journal: Journal, k: nat, ghost e0: State, ghost e: State) returns (ghost e': State)
    requires RunnerPath(e0, k, e) && k in e.runs && e.runs[k].pc == Return && e.db == store.db && e.log == journal.log
    modifies journal
    ensures journal.log == old(journal.log) + [Returned(k)]
    ensures RunnerPath(e0, k, e') && k in e'.runs && e'.runs[k].pc == Release
    ensures e'.db == store.db && e'.log == journal.log
  {
    journal.Note(Returned(k));
    e' := Advance(e0, k, e, Step(true));
  }

  /** NewJobHandle and exec.Execute. */
  method ExecuteJob(store: Store, journal: Journal, k: nat, r: Run, world: World, ghost e0: State, ghost e: State)
    returns (o: Outcome, ghost e': State)
    requires RunnerPath(e0, k, e) && At(e, k, store, journal, r) && r.pc == OpenHandle && world.ctxDone == e.ctxDone
    modifies journal
    ensures o == OutcomeIn(world) && journal.log == old(journal.log) + ExecuteLog(k, r.workload, world)
    ensures RunnerPath(e0, k, e') && e'.ctxDone == e.ctxDone
    ensures At(e', k, store, journal, r.(pc := Report(o)))
  {
    if !world.handleOk {
      journal.Note(Ended(k, HandleError));
      e' := OpenJob(e0, k, e, false);
      return HandleError, e';
    }
    journal.Note(Executing(k, r.workload));
    ghost var e1 := OpenJob(e0, k, e, true);
    o := if world.executeOk then ExecOk else ExecError(world.ctxDone);
    journal.Note(Ended(k, o));
    e' := EndJob(e0, k, e1, world.executeOk);
  }

  /** Complete or Fail, whose own result is ignored. */
  method ReportOutcome(store: Store, journal: Journal, k: nat, r: Run, ghost e0: State, ghost e: State)
    returns (ghost e': State)
    requires r.pc.Report? && RunnerPath(e0, k, e) && At(e, k, store, journal, r)
    modifies journal
    ensures journal.log == old(journal.log) + [Closed(k, CallFor(r.pc.outcome))]
    ensures RunnerPath(e0, k, e') && e'.ctxDone == e.ctxDone
    ensures At(e', k, store, journal, r.(pc := MarkOutcome(r.pc.outcome)))
  {
    var o := r.pc.outcome;
    if o.ExecOk? {
      journal.Note(Closed(k, Complete));
    } else {
      journal.Note(Closed(k, Fail(o.ExecError? && !o.shutdown)));
    }
    e' := Advance(e0, k, e, Step(true));
  }

  /** Mark the row succeeded or failed, whatever the cloud answered. */
  method RecordOutcome(store: Store, journal: Journal, k: nat, r: Run, world: World, ghost e0: State, ghost e: State)
    returns (ghost e': State)
    requires r.pc.MarkOutcome? && RunnerPath(e0, k, e) && At(e, k, store, journal, r)
    modifies store
    ensures store.db == if world.outcomeOk then SetStatus(old(store.db), r.job.value, FinalStatus(r.pc.outcome))
                        else old(store.db)
    ensures RunnerPath(e0, k, e') && e'.ctxDone == e.ctxDone
    ensures At(e', k, store, journal, r.(pc := CloseAttemptRow(r.pc.outcome), job := None))
  {
    var marked := store.UpdateStatus(r.job.value, if r.pc.outcome.ExecOk? then Succeeded else Failed, world.outcomeOk);
    e' := FinishRow(e0, k, e, marked.Ok?);
  }

  /** Finish the attempt row. */
  method CloseBooks(store: Store, journal: Journal, k: nat, r: Run, world: World, ghost e0: State, ghost e: State)
    returns (ghost e': State)
    requires r.pc.CloseAttemptRow? && RunnerPath(e0, k, e) && At(e, k, store, journal, r)
    modifies store
    ensures store.db == if world.finishOk then CloseAttempt(old(store.db), r.attempt, r.pc.outcome.ExecOk?)
                        else old(store.db)
    ensures RunnerPath(e0, k, e') && e'.ctxDone == e.ctxDone
    ensures At(e', k, store, journal, r.(pc := StopHeartbeat))
  {
    var finished := store.FinishAttempt(r.attempt, r.pc.outcome.ExecOk?, world.finishOk);
    e' := Advance(e0, k, e, Step(finished.Ok?));
  }

  /** heartbeat.Stop: cancel, then wait for the goroutine to exit. */
  ghost method StopHeart(store: Store, journal: Journal, k: nat, r: Run, e0: State, e: State)
    returns (e': State)
    requires r.pc.StopHeartbeat? && r.heart.Waiting? && RunnerPath(e0, k, e) && At(e, k, store, journal, r)
    ensures RunnerPath(e0, k, e') && e'.ctxDone == e.ctxDone
    ensures At(e', k, store, journal, r.(pc := Return, heart := Gone))
  {
    var e1 := Advance(e0, k, e, Step(true));
    var e2 := Advance(e0, k, e1, HeartExits);
    e' := Advance(e0, k, e2, Step(true));
  }

  /** Mark the row running and open the attempt; the heartbeat starts. */
  method BeginAttempt(store: Store, journal: Journal, k: nat, r: Run, world: World, ghost e0: State, ghost e: State)
    returns (attempt: nat, ghost e': State)
    requires r.pc.MarkRunning? && RunnerPath(e0, k, e) && At(e, k, store, journal, r) && r.job.value in store.db.rows
    modifies store
    ensures var db := if world.runningOk then SetStatus(old(store.db), r.job.value, Running) else old(store.db);
            && store.db == (if world.attemptOk then OpenAttempt(db, r.job.value, r.num) else db)
            && attempt == (if world.attemptOk then |db.attempts| + 1 else 0)
    ensures RunnerPath(e0, k, e') && e'.ctxDone == e.ctxDone
    ensures At(e', k, store, journal, r.(pc := OpenHandle, attempt := attempt, heart := Waiting))
  {
    var marked := store.UpdateStatus(r.job.value, Running, world.runningOk);
    ghost var e1 := MarkRow(e0, k, e, marked.Ok?);
    var started := store.StartAttempt(r.job.value, r.num, world.attemptOk);
    attempt := if started.Ok? then started.value else 0;
    e' := StartHeart(e0, k, e1, started.Ok?);
  }
}
