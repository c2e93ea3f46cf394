/** Order properties of the log: heartbeats stop with their run, closing calls match what
    happened under the lease, and a parked scheduler stays quiet until it is resumed. */
module Protocol {
  import opened Collections
  import opened JobQueue
  import opened Engine
  import opened EngineInvariants
  import opened Ledger

  // ---------- heartbeats ----------

  function LossOf(k: nat): Obs -> bool { (o: Obs) => o.Lost? && o.k == k }

  predicate Shows(obs: seq<Obs>, o: Obs) {
    obs != [] && obs[0] == o
  }

  /** Once runOne has returned, the lease is never heartbeated again. */
  ghost predicate BeatsEndWithRun(log: seq<Obs>, k: nat) {
    forall i, j :: 0 <= i < j < |log| && log[i] == Returned(k) ==> log[j] != Beat(k)
  }

  /** Runner k is past runOne. */
  predicate PastRun(e: State, k: nat) {
    if k in e.runs then e.runs[k].pc.Release? else k < e.next && !Holding(e, k)
  }

  /** Heartbeat k has not exited (it may not have started). */
  predicate MayLose(e: State, k: nat) {
    if k in e.runs then !e.runs[k].heart.Gone? else k >= e.next || Holding(e, k)
  }

  /** The account of heartbeat goroutine k. */
  ghost predicate HeartEntry(e: State, k: nat) {
    && BeatsEndWithRun(e.log, k)
    && (Returned(k) in e.log ==> PastRun(e, k))
    && Count(e.log, LossOf(k)) <= if MayLose(e, k) then 0 else 1
  }

  /** How a step moves runner and heartbeat k. */
  ghost predicate HeartMoves(e: State, obs: seq<Obs>, e': State, k: nat) {
    && (PastRun(e, k) ==> PastRun(e', k) && !Shows(obs, Beat(k)))
    && (MayLose(e', k) ==> MayLose(e, k) && !Shows(obs, Lost(k)))
    && (Shows(obs, Lost(k)) ==> MayLose(e, k))
    && (Shows(obs, Returned(k)) ==> PastRun(e', k))
  }

  /** A runner's step leaves the other runners and the scheduler goroutine where they are. */
  lemma RunnerElsewhere(e: State, r: nat, act: RunAct, k: nat)
    requires Enabled(e, Runner(r, act))
    ensures var e' := Next(e, Runner(r, act));
            && e'.loop == e.loop && e'.next == e.next
            && (r != k ==> (k in e'.runs <==> k in e.runs) && (k in e.runs ==> e'.runs[k] == e.runs[k]))
            && (r == k ==> (k in e'.runs <==> !Frees(e.runs[k], act)))
    ensures var obs := Emit(e, Runner(r, act)); obs == [] || (obs == [obs[0]] && obs[0].k == r)
  {
    RunnerObs(e, r, act);
  }

  lemma RunnerHeartMoves(e: State, r: nat, act: RunAct, k: nat)
    requires Shape(e) && Enabled(e, Runner(r, act))
    ensures HeartMoves(e, Emit(e, Runner(r, act)), Next(e, Runner(r, act)), k)
  {
    RunnerElsewhere(e, r, act, k);
    if r == k {
      assert RunOk(e, k, e.runs[k]);
    }
  }

  lemma TickHeartMoves(e: State, t: TickAct, k: nat)
    requires Shape(e) && TickEnabled(e, t)
    ensures HeartMoves(e, Emit(e, Tick(t)), Next(e, Tick(t)), k)
  {
    assert k in e.runs ==> RunOk(e, k, e.runs[k]);
  }

  lemma StepHeartMoves(e: State, a: Action, k: nat)
    requires Shape(e) && Enabled(e, a)
    ensures HeartMoves(e, Emit(e, a), Next(e, a), k)
  {
    match a
    case Runner(r, act) => RunnerHeartMoves(e, r, act, k);
    case Tick(t) => TickHeartMoves(e, t, k);
    case Recover(_) =>
    case Env(_) => assert k in e.runs ==> RunOk(e, k, e.runs[k]);
  }

  lemma HeartAdds(e: State, obs: seq<Obs>, e': State, k: nat)
    requires HeartEntry(e, k) && HeartMoves(e, obs, e', k)
    requires |obs| <= 1 && e'.log == e.log + obs
    ensures HeartEntry(e', k)
  {
    assert obs == [] || obs == [obs[0]];
    CountLog(e.log, obs, LossOf(k));
  }

  lemma HeartStep(e: State, a: Action, k: nat)
    requires Shape(e) && HeartEntry(e, k) && Enabled(e, a)
    ensures HeartEntry(Next(e, a), k)
  {
    LogGrows(e, a);
    StepHeartMoves(e, a, k);
    HeartAdds(e, Emit(e, a), Next(e, a), k);
  }

  // ---------- closing calls ----------

  /** Why a closing call may be sent: it reports how the execution ended, or the terminal status the
      row already had; a lease is surrendered only if nothing was executed under it and no terminal row was seen. */
  ghost predicate Justified(before: seq<Obs>, k: nat, call: Call) {
    match call
    case Complete => Ended(k, ExecOk) in before || Saw(k, Succeeded) in before
    case Fail(retryable) =>
      || Ended(k, ExecError(!retryable)) in before
      || (!retryable && (|| Ended(k, HandleError) in before
                         || (exists s :: s != Succeeded && IsTerminal(s) && Saw(k, s) in before)))
    case Surrender => (forall w :: Executing(k, w) !in before) && forall s :: Saw(k, s) !in before
  }

  ghost predicate AllJustified(log: seq<Obs>, k: nat) {
    forall i :: 0 <= i < |log| && log[i].Closed? && log[i].k == k ==> Justified(log[..i], k, log[i].call)
  }

  /** Nothing has been executed under lease k yet. */
  predicate Untouched(e: State, k: nat) {
    if k in e.runs then NothingRun(e.runs[k].pc) else k >= e.next || Holding(e, k)
  }

  predicate NothingRun(pc: Pc) {
    || pc.Lookup? || pc.Create? || pc.Takeover? || pc.CountAttempts? || pc.MarkRunning?
    || pc.OpenAttemptRow? || pc.OpenHandle? || pc.Surrendering? || pc.ReportTerminal?
  }

  /** ... and no terminal row has been seen. */
  predicate Unseen(e: State, k: nat) {
    Untouched(e, k) && !PcOf(e, k).ReportTerminal?
  }

  function PcOf(e: State, k: nat): Pc {
    if k in e.runs then e.runs[k].pc else Lookup
  }

  /** What the program points say about the log. */
  ghost predicate CallEntry(e: State, k: nat) {
    && AllJustified(e.log, k)
    && (Untouched(e, k) ==> forall w :: Executing(k, w) !in e.log)
    && (Unseen(e, k) ==> forall s :: Saw(k, s) !in e.log)
    && (PcOf(e, k).Report? ==> Ended(k, PcOf(e, k).outcome) in e.log)
    && (PcOf(e, k).MarkOutcome? ==> Closed(k, CallFor(PcOf(e, k).outcome)) in e.log)
    && (PcOf(e, k).ReportTerminal? ==> IsTerminal(PcOf(e, k).status) && Saw(k, PcOf(e, k).status) in e.log)
  }

  /** How a step moves runner k between those program points. */
  ghost predicate CallMoves(e: State, obs: seq<Obs>, e': State, k: nat) {
    && (Untouched(e', k) ==> Untouched(e, k) && !(obs != [] && obs[0].Executing? && obs[0].k == k))
    && (Unseen(e', k) ==> Unseen(e, k) && !(obs != [] && obs[0].Saw? && obs[0].k == k))
    && (PcOf(e', k).Report? ==> PcOf(e', k) == PcOf(e, k) || Shows(obs, Ended(k, PcOf(e', k).outcome)))
    && (PcOf(e', k).MarkOutcome? ==>
          PcOf(e', k) == PcOf(e, k) || Shows(obs, Closed(k, CallFor(PcOf(e', k).outcome))))
    && (PcOf(e', k).ReportTerminal? ==>
          || PcOf(e', k) == PcOf(e, k)
          || (Shows(obs, Saw(k, PcOf(e', k).status)) && IsTerminal(PcOf(e', k).status)))
    && (obs != [] && obs[0].Closed? && obs[0].k == k ==>
          || (obs[0].call.Surrender? && Unseen(e, k))
          || (PcOf(e, k).Report? && obs[0].call == CallFor(PcOf(e, k).outcome))
          || (PcOf(e, k).ReportTerminal? && obs[0].call == CallForTerminal(PcOf(e, k).status)))
  }

  lemma JustifiedSnoc(log: seq<Obs>, o: Obs, k: nat)
    requires AllJustified(log, k)
    requires o.Closed? && o.k == k ==> Justified(log, k, o.call)
    ensures AllJustified(log + [o], k)
  {
    var log' := log + [o];
    forall i | 0 <= i < |log'| && log'[i].Closed? && log'[i].k == k
      ensures Justified(log'[..i], k, log'[i].call)
    {
      assert log'[..i] == log[..i];
      if i == |log| { assert log[..i] == log; }
    }
  }

  lemma JustifiedGrow(log: seq<Obs>, obs: seq<Obs>, k: nat)
    requires AllJustified(log, k) && |obs| <= 1
    requires obs != [] && obs[0].Closed? && obs[0].k == k ==> Justified(log, k, obs[0].call)
    ensures AllJustified(log + obs, k)
  {
    if obs == [] {
      assert log + obs == log;
    } else {
      assert obs == [obs[0]];
      JustifiedSnoc(log, obs[0], k);
    }
  }

  lemma RunnerCallMoves(e: State, r: nat, act: RunAct, k: nat)
    requires Shape(e) && Enabled(e, Runner(r, act))
    ensures CallMoves(e, Emit(e, Runner(r, act)), Next(e, Runner(r, act)), k)
  {
    RunnerElsewhere(e, r, act, k);
    if r == k {
      OwnCallMoves(e, act, k);
    }
  }

  /** The same, for one runner's own step, in terms of its program points only. */
  ghost predicate PcMoves(pc: Pc, obs: seq<Obs>, pc': Pc, k: nat) {
    && (NothingRun(pc') ==> NothingRun(pc) && !(obs != [] && obs[0].Executing?))
    && (NothingRun(pc') && !pc'.ReportTerminal? ==> !pc.ReportTerminal? && !(obs != [] && obs[0].Saw?))
    && (pc'.MarkOutcome? && pc' != pc ==> Shows(obs, Closed(k, CallFor(pc'.outcome))))
    && (pc'.Report? && pc' != pc ==> Shows(obs, Ended(k, pc'.outcome)))
    && (pc'.ReportTerminal? && pc' != pc ==> Shows(obs, Saw(k, pc'.status)) && IsTerminal(pc'.status))
    && (obs != [] && obs[0].Closed? ==>
          match pc
          case Report(o) => obs[0].call == CallFor(o)
          case ReportTerminal(s) => obs[0].call == CallForTerminal(s)
          case _ => obs[0].call.Surrender? && NothingRun(pc) && !pc.ReportTerminal?)
  }

  lemma OwnPcMoves(db: Db, k: nat, r: Run, act: RunAct, ctxDone: bool)
    requires RunEnabled(db, r, act, ctxDone)
    ensures PcMoves(r.pc, RunObs(db, k, r, act, ctxDone), RunPc(db, r, act, ctxDone), k)
  {
  }

  lemma OwnCallMoves(e: State, act: RunAct, k: nat)
    requires Shape(e) && Enabled(e, Runner(k, act))
    ensures CallMoves(e, Emit(e, Runner(k, act)), Next(e, Runner(k, act)), k)
  {
    assert RunOk(e, k, e.runs[k]);
    OwnPcMoves(e.db, k, e.runs[k], act, e.ctxDone);
    var obs, e' := Emit(e, Runner(k, act)), Next(e, Runner(k, act));
    RunnerElsewhere(e, k, act, k);
    LiftPcMoves(e, obs, e', k);
  }

  lemma LiftPcMoves(e: State, obs: seq<Obs>, e': State, k: nat)
    requires k in e.runs && k < e.next == e'.next && e'.loop == e.loop && !(LoopHolds(e.loop) && e.loop.k == k)
    requires k in e'.runs ==> PcMoves(e.runs[k].pc, obs, e'.runs[k].pc, k)
    requires k !in e'.runs ==> obs == [Freed(k)]
    ensures CallMoves(e, obs, e', k)
  {
  }

  lemma TickCallMoves(e: State, t: TickAct, k: nat)
    requires Shape(e) && TickEnabled(e, t)
    ensures CallMoves(e, Emit(e, Tick(t)), Next(e, Tick(t)), k)
  {
    assert k in e.runs ==> RunOk(e, k, e.runs[k]);
  }

  lemma StepCallMoves(e: State, a: Action, k: nat)
    requires Shape(e) && Enabled(e, a)
    ensures CallMoves(e, Emit(e, a), Next(e, a), k)
  {
    match a
    case Runner(r, act) => RunnerCallMoves(e, r, act, k);
    case Tick(t) => TickCallMoves(e, t, k);
    case Recover(_) =>
    case Env(_) => assert k in e.runs ==> RunOk(e, k, e.runs[k]);
  }

  lemma CallAdds(e: State, obs: seq<Obs>, e': State, k: nat)
    requires CallEntry(e, k) && CallMoves(e, obs, e', k)
    requires |obs| <= 1 && e'.log == e.log + obs
    ensures CallEntry(e', k)
  {
    JustifiedGrow(e.log, obs, k);
  }

  lemma CallStep(e: State, a: Action, k: nat)
    requires Shape(e) && CallEntry(e, k) && Enabled(e, a)
    ensures CallEntry(Next(e, a), k)
  {
    LogGrows(e, a);
    StepCallMoves(e, a, k);
    CallAdds(e, Emit(e, a), Next(e, a), k);
  }

  // ---------- parking ----------

  /** A Resume, or a new process, after position i. */
  ghost predicate Woken(log: seq<Obs>, i: nat) {
    exists m :: i < m < |log| && (log[m].Resumed? || log[m].Booted?)
  }

  /** Between a park and the next tick there is a Resume or a reboot. */
  ghost predicate QuietWhenParked(log: seq<Obs>) {
    forall i, j :: 0 <= i < j < |log| && log[i].Parked? && log[j].Ticked? ==> Woken(log[..j], i)
  }

  ghost predicate Asleep(e: State) {
    && QuietWhenParked(e.log)
    && (forall i: nat :: i < |e.log| && e.log[i].Parked? ==> Woken(e.log, i) || e.paused || e.loop.Down?)
  }

  lemma WokenGrows(log: seq<Obs>, o: Obs, i: nat)
    requires i < |log|
    ensures Woken(log, i) ==> Woken(log + [o], i)
    ensures o.Resumed? || o.Booted? ==> Woken(log + [o], i)
  {
    var log' := log + [o];
    if Woken(log, i) {
      var m :| i < m < |log| && (log[m].Resumed? || log[m].Booted?);
      assert log'[m] == log[m];
    }
    if o.Resumed? || o.Booted? {
      assert log'[|log|] == o;
    }
  }

  lemma AsleepSnoc(e: State, o: Obs, e': State)
    requires Asleep(e) && e'.log == e.log + [o]
    requires o.Ticked? ==> !e.paused && !e.loop.Down?
    requires o.Parked? ==> e'.paused
    requires e.paused || e.loop.Down? ==> e'.paused || e'.loop.Down? || o.Resumed? || o.Booted?
    ensures Asleep(e')
  {
    forall i, j | 0 <= i < j < |e'.log| && e'.log[i].Parked? && e'.log[j].Ticked? ensures Woken(e'.log[..j], i) {
      assert e'.log[..j] == e.log[..j];
      if j == |e.log| { assert e.log[..j] == e.log; }
    }
    forall i: nat | i < |e'.log| && e'.log[i].Parked? ensures Woken(e'.log, i) || e'.paused || e'.loop.Down? {
      if i < |e.log| {
        WokenGrows(e.log, o, i);
      }
    }
  }

  lemma AsleepStep(e: State, a: Action)
    requires Asleep(e) && Enabled(e, a)
    ensures Asleep(Next(e, a))
  {
    var e', obs := Next(e, a), Emit(e, a);
    LogGrows(e, a);
    if obs == [] {
      assert e'.log == e.log;
    } else {
      assert obs == [obs[0]];
      if a.Runner? { RunnerObs(e, a.k, a.r); }
      AsleepSnoc(e, obs[0], e');
    }
  }
}
