/** What the calls and events of the engine do, in the words of a caller: Pause and Resume, Cancel and the unpair sweep,
    shutdown, boot recovery, heartbeats, and the status a run leaves. */
module EngineEffects {
  import opened Collections
  import opened JobQueue
  import opened Recovery
  import opened Engine
  import opened EngineInvariants
  import opened Ledger
  import opened Protocol
  import opened EngineTheorems
  import opened FrozenRows

  // ---------- Pause and Resume ----------

  predicate Without(acts: seq<Action>, unwanted: set<Action>) {
    forall i :: 0 <= i < |acts| ==> acts[i] !in unwanted
  }

  lemma {:induction false} WithoutTail(acts: seq<Action>, unwanted: set<Action>)
    requires acts != [] && Without(acts, unwanted)
    ensures acts[0] !in unwanted && Without(acts[1..], unwanted)
  {
    assert forall i :: 0 <= i < |acts[1..]| ==> acts[1..][i] == acts[i + 1];
  }

  /** A paused scheduler starts no tick and stays paused. */
  lemma {:induction false} PausedStaysPaused(e: State, acts: seq<Action>)
    requires e.paused && Runnable(e, acts) && Without(acts, {Env(ResumeFirst), Env(Crash)})
    ensures Tick(Poll) !in acts && Exec(e, acts).paused
    decreases |acts|
  {
    if acts == [] {
    } else {
      WithoutTail(acts, {Env(ResumeFirst), Env(Crash)});
      PausedStaysPaused(Next(e, acts[0]), acts[1..]);
      assert acts == [acts[0]] + acts[1..];
    }
  }

  /** After Pause no tick starts, whatever else happens, until somebody calls Resume or the process dies. */
  lemma {:induction false} PauseHolds(e: State, acts: seq<Action>)
    requires EnvEnabled(e, PauseCall) && Runnable(Next(e, Env(PauseCall)), acts)
    requires Without(acts, {Env(ResumeFirst), Env(Crash)})
    ensures Tick(Poll) !in acts
  {
    PausedStaysPaused(Next(e, Env(PauseCall)), acts);
  }

  lemma {:induction false} AwakeStaysAwake(e: State, acts: seq<Action>)
    requires !e.paused && Runnable(e, acts) && Without(acts, {Env(PauseCall), Tick(FlagPaused)})
    ensures !Exec(e, acts).paused
    decreases |acts|
  {
    if acts == [] {
    } else {
      WithoutTail(acts, {Env(PauseCall), Tick(FlagPaused)});
      AwakeStaysAwake(Next(e, acts[0]), acts[1..]);
    }
  }

  /** After Resume the next tick can start whenever the loop is between ticks, until a Pause or a park. */
  lemma {:induction false} ResumeWakes(e: State, acts: seq<Action>)
    requires EnvEnabled(e, ResumeFirst) && Runnable(Next(e, Env(ResumeFirst)), acts)
    requires Without(acts, {Env(PauseCall), Tick(FlagPaused)}) && Exec(Next(e, Env(ResumeFirst)), acts).loop.Idle?
    ensures Enabled(Exec(Next(e, Env(ResumeFirst)), acts), Tick(Poll))
  {
    AwakeStaysAwake(Next(e, Env(ResumeFirst)), acts);
  }

  /** The two stores of Resume clear both flags. */
  lemma {:induction false} ResumeClears(e: State)
    requires EnvEnabled(e, ResumeFirst)
    ensures Runnable(e, [Env(ResumeFirst), Env(ResumeSecond)])
    ensures var e' := Exec(e, [Env(ResumeFirst), Env(ResumeSecond)]);
            !e'.paused && !e'.reauth && e'.resuming == e.resuming && e'.loop == e.loop && e'.db == e.db
  {
    RunOfTwo(e, Env(ResumeFirst), Env(ResumeSecond));
  }

  // ---------- Cancel and the unpair sweep ----------

  /** Cancel turns a queued or running row to cancelled and leaves a terminal or missing one, every other row, and the
      rest of the machine, alone. */
  lemma CancelMeans(e: State, j: JobId)
    requires EnvEnabled(e, CancelCall(j, true))
    ensures var e' := Next(e, Env(CancelCall(j, true)));
            && e' == e.(db := e.db.(rows := e'.db.rows)) && RowChanges(e.db, e'.db, j)
            && (j in e.db.rows <==> j in e'.db.rows)
            && (j in e.db.rows ==>
                  e'.db.rows[j] == if e.db.rows[j].status in {Queued, Running}
                                   then e.db.rows[j].(status := Cancelled) else e.db.rows[j])
  {
    assert e.log + [] == e.log;
  }

  /** The unpair sweep fails every queued and every running row, with one event each, and changes nothing else. */
  lemma UnpairSweepMeans(e: State, ids: seq<JobId>)
    requires EnvEnabled(e, UnpairSweep(true, ids))
    ensures var e' := Next(e, Env(UnpairSweep(true, ids)));
            && e' == e.(db := e'.db)
            && Swept(e.db, e'.db, {Queued, Running}, "unpair_failed", "unpaired")
            && (forall j :: j in e'.db.rows ==> IsTerminal(e'.db.rows[j].status))
  {
    UnpairSweepStopsAll(e.db, ids);
    assert e.log + [] == e.log;
  }

  // ---------- shutdown ----------

  lemma {:induction false} StaysCancelled(e: State, acts: seq<Action>)
    requires e.ctxDone && Runnable(e, acts) && Without(acts, {Env(Crash)})
    ensures Exec(e, acts).ctxDone
    decreases |acts|
  {
    if acts == [] {
    } else {
      WithoutTail(acts, {Env(Crash)});
      StaysCancelled(Next(e, acts[0]), acts[1..]);
    }
  }

  /** Shutdown cancels the context for the rest of the process, and from then on every terminal row is final. */
  lemma {:induction false} ShutdownFreezes(e: State, acts: seq<Action>, j: JobId)
    requires Shape(e) && EnvEnabled(e, Shutdown) && j in e.db.rows && IsTerminal(e.db.rows[j].status)
    requires Runnable(Next(e, Env(Shutdown)), acts) && Honours(Next(e, Env(Shutdown)), acts)
    ensures StatusAfter(Next(e, Env(Shutdown)), acts, j) == Some(e.db.rows[j].status)
    ensures Without(acts, {Env(Crash)}) ==> Exec(Next(e, Env(Shutdown)), acts).ctxDone
  {
    ShapeStep(e, Env(Shutdown));
    SafeForever(Next(e, Env(Shutdown)), acts, j);
    if Without(acts, {Env(Crash)}) { StaysCancelled(Next(e, Env(Shutdown)), acts); }
  }

  // ---------- a new process ----------

  /** A crash loses runners, slots and flags, and nothing that is stored. */
  lemma CrashLosesMemory(e: State)
    requires EnvEnabled(e, Crash)
    ensures var e' := Next(e, Env(Crash));
            && e'.runs == map[] && e'.active == 0 && !e'.paused && !e'.reauth && !e'.ctxDone && e'.resuming == 0
            && e'.loop.Down? && e'.db == e.db && e'.log == e.log && e'.limit == e.limit && e'.next == e.next
  {
    assert e.log + [] == e.log;
  }

  /** What recoverPending can list: running rows, at most 100, and all of them when there are fewer; so after a boot
      whose sweep succeeded it lists nothing. */
  lemma RecoveryLists(e: State, listed: seq<JobId>)
    requires BootEnabled(e, ListRunning(true, listed))
    ensures NoDuplicates(listed) && |listed| <= 100
    ensures forall j :: j in listed ==> j in e.db.rows && e.db.rows[j].status == Running
    ensures |listed| < 100 ==> forall j :: j in e.db.rows && e.db.rows[j].status == Running ==> j in listed
    ensures (forall j :: j in e.db.rows ==> e.db.rows[j].status != Running) ==> listed == []
  {
    if listed != [] { assert listed[0] in listed && listed[0] in Matching(e.db, ORPHAN_STATUSES); }
  }

  // ---------- heartbeats ----------

  /** One beat: it is sent; a good answer keeps the goroutine going, a bad one is reported and ends it. */
  lemma BeatMeans(e: State, k: nat, ok: bool)
    requires k in e.runs && e.runs[k].heart.Waiting?
    ensures Enabled(e, Runner(k, BeatSent))
    ensures var e1 := Next(e, Runner(k, BeatSent));
            && e1.log == e.log + [Beat(k)] && Enabled(e1, Runner(k, BeatReturns(ok)))
            && var e2 := Next(e1, Runner(k, BeatReturns(ok)));
               && e2.log == e1.log + (if ok then [] else [Lost(k)])
               && k in e2.runs && e2.runs[k] == e.runs[k].(heart := if ok then Waiting else Gone)
  {
  }

  /** Until runOne stops it, the heartbeat of a run ends only when the lease was reported lost or the daemon shuts
      down. */
  ghost predicate BeatsOn(e: State, k: nat) {
    k in e.runs && HasHeart(e.runs[k].pc) && !e.runs[k].pc.AwaitHeartbeat? && e.runs[k].heart.Gone? ==>
      Lost(k) in e.log || e.ctxDone
  }

  lemma RunnerBeatsOn(e: State, k: nat, act: RunAct)
    requires Shape(e) && Enabled(e, Runner(k, act)) && BeatsOn(e, k)
    ensures BeatsOn(Next(e, Runner(k, act)), k)
  {
    assert RunOk(e, k, e.runs[k]);
    var e' := Next(e, Runner(k, act));
    assert act == BeatReturns(false) ==> e'.log[|e.log|] == Lost(k);
  }

  lemma BeatsOnStep(e: State, a: Action, k: nat)
    requires Shape(e) && Enabled(e, a) && BeatsOn(e, k)
    ensures BeatsOn(Next(e, a), k)
  {
    LogGrows(e, a);
    match a
    case Runner(r, act) =>
      RunnerElsewhere(e, r, act, k);
      if r == k { RunnerBeatsOn(e, k, act); }
    case Tick(_) =>
    case Recover(_) =>
    case Env(_) =>
  }

  lemma {:induction false} BeatsOnAlways(e: State, acts: seq<Action>, k: nat)
    requires Shape(e) && Runnable(e, acts) && BeatsOn(e, k)
    ensures BeatsOn(Exec(e, acts), k)
    decreases |acts|
  {
    if acts == [] {
    } else {
      BeatsOnStep(e, acts[0], k);
      ShapeStep(e, acts[0]);
      BeatsOnAlways(Next(e, acts[0]), acts[1..], k);
    }
  }

  /** Over every run: while runOne holds a lease between StartHeartbeat and Stop, its heartbeat is alive, unless the
      lease was reported lost or the daemon is shutting down. */
  lemma {:induction false} LeaseIsHeartbeated(e0: State, acts: seq<Action>, k: nat)
    requires Initial(e0) && Runnable(e0, acts)
    ensures var e := Exec(e0, acts);
            k in e.runs &&
            (|| e.runs[k].pc.OpenHandle? || e.runs[k].pc.Execute? || e.runs[k].pc.Report? || e.runs[k].pc.MarkOutcome?
             || e.runs[k].pc.CloseAttemptRow? || e.runs[k].pc.StopHeartbeat?) ==>
              e.runs[k].heart.Waiting? || e.runs[k].heart.Calling? || Lost(k) in e.log || e.ctxDone
  {
    InvInitially(e0);
    InvAlways(e0, acts);
    BeatsOnAlways(e0, acts, k);
    var e := Exec(e0, acts);
    assert k in e.runs ==> RunOk(e, k, e.runs[k]);
  }

  // ---------- the status a run leaves ----------

  lemma {:induction false} OnlyOne(log: seq<Obs>, p: Obs -> bool, i: nat, j: nat)
    requires Count(log, p) <= 1 && i < |log| && j < |log| && p(log[i]) && p(log[j])
    ensures i == j
  {
    CountIsSize(log, p);
    var at := Positions(log, p);
    assert i in at && j in at;
    if i != j {
      assert {i, j} <= at;
      SmallerSet({i, j}, at);
    }
  }

  lemma {:induction false} SmallerSet(a: set<nat>, b: set<nat>)
    requires a <= b
    ensures |a| <= |b|
  {
    assert b == a + (b - a);
  }

  /** Over every run: the status a runner writes at its end is Succeeded exactly if its closing call was Complete, and
      Failed exactly if it was Fail. */
  lemma {:induction false} StatusTellsTheCall(e0: State, acts: seq<Action>, k: nat)
    requires Initial(e0) && Runnable(e0, acts)
    requires k in Exec(e0, acts).runs && Exec(e0, acts).runs[k].pc.MarkOutcome?
    ensures var e := Exec(e0, acts); var e' := Next(e, Runner(k, Step(true))); var j := e.runs[k].job.value;
            && j in e'.db.rows
            && (e'.db.rows[j].status == Succeeded <==> Closed(k, Complete) in e.log)
            && (e'.db.rows[j].status == Failed <==> exists retryable :: Closed(k, Fail(retryable)) in e.log)
            && e'.db.rows[j].status in {Succeeded, Failed}
  {
    InvInitially(e0);
    InvAlways(e0, acts);
    var e := Exec(e0, acts);
    assert Books(e, k) && RunOk(e, k, e.runs[k]);
    var sent := Closed(k, CallFor(e.runs[k].pc.outcome));
    assert sent in e.log;
    forall call | Closed(k, call) in e.log ensures call == sent.call {
      OneCall(e.log, k, call, sent.call);
    }
    MarkWrites(e, k);
  }

  lemma {:induction false} OneCall(log: seq<Obs>, k: nat, a: Call, b: Call)
    requires Count(log, ClosingOf(k)) <= 1 && Closed(k, a) in log && Closed(k, b) in log
    ensures a == b
  {
    var i :| 0 <= i < |log| && log[i] == Closed(k, a);
    var j :| 0 <= j < |log| && log[j] == Closed(k, b);
    OnlyOne(log, ClosingOf(k), i, j);
  }

  lemma MarkWrites(e: State, k: nat)
    requires k in e.runs && e.runs[k].pc.MarkOutcome? && e.runs[k].job.value in e.db.rows
    ensures var e' := Next(e, Runner(k, Step(true))); var j := e.runs[k].job.value;
            && j in e'.db.rows
            && e'.db.rows[j].status == (if CallFor(e.runs[k].pc.outcome).Complete? then Succeeded else Failed)
            && !CallFor(e.runs[k].pc.outcome).Surrender?
  {
  }
}
