/** The scheduler goroutine's own code (internal/runtime/scheduler.go: recoverPending, tick) and the goroutine a tick
    starts, over the slot manager (internal/runtime/resources/manager.go), shown to be paths of the engine machine. */
module TickLoop {
  import opened Collections
  import opened JobQueue
  import opened Engine
  import opened Scheduler
  import L = ClaimLadder
  import A = Auth

  class Manager {
    var active: int
    const limit: nat

    constructor (limit: nat)
      ensures active == 0 && this.limit == limit
    {
      active := 0;
      this.limit := limit;
    }

    /** `probesOk`: the CPU, memory and disk probes let the job through; `leaving`: the slots that other goroutines give
        back between the check and the increment.  The limit holds all the same. */
    method Reserve(probesOk: bool, leaving: seq<Slot>) returns (slot: Option<Slot>)
      requires NoDuplicates(leaving) && forall s :: s in leaving ==> s.mgr == this && !s.released
      modifies this, leaving
      ensures slot.Some? <==> old(active) < limit && probesOk
      ensures slot.Some? ==> fresh(slot.value) && slot.value.mgr == this && !slot.value.released
      ensures slot.Some? ==> active == old(active) - |leaving| + 1 <= limit && forall s :: s in leaving ==> s.released
      ensures slot.None? ==> active == old(active) && forall s :: s in leaving ==> !s.released
    {
      if active >= limit || !probesOk {
        return None;
      }
      for i := 0 to |leaving|
        invariant active == old(active) - i
        invariant forall j :: 0 <= j < |leaving| ==> (leaving[j].released <==> j < i)
      {
        leaving[i].Release();
      }
      active := active + 1;
      var s := new Slot(this);
      return Some(s);
    }
  }

  class Slot {
    const mgr: Manager
    var released: bool

    constructor (mgr: Manager)
      ensures this.mgr == mgr && !released
    {
      this.mgr := mgr;
      released := false;
    }

    /** Idempotent: only the first call gives the slot back. */
    method Release()
      modifies this, mgr
      ensures released
      ensures mgr.active == old(mgr.active) - if old(released) then 0 else 1
    {
      if released {
        return;
      }
      released := true;
      mgr.active := mgr.active - 1;
    }
  }

  class Flags {
    var paused: bool
    var reauth: bool

    constructor ()
      ensures !paused && !reauth
    {
      paused, reauth := false, false;
    }
  }

  // ---------- paths of the scheduler goroutine ----------

  ghost predicate OnlyScheduler(acts: seq<Action>) {
    forall i :: 0 <= i < |acts| ==> acts[i].Tick? || acts[i].Recover?
  }

  ghost predicate SchedulerPath(e: State, e': State) {
    exists acts :: Runnable(e, acts) && OnlyScheduler(acts) && Exec(e, acts) == e'
  }

  lemma SchedulerStarts(e: State)
    ensures SchedulerPath(e, e)
  {
    assert Runnable(e, []) && OnlyScheduler([]) && Exec(e, []) == e;
  }

  lemma Extend(e0: State, e: State, a: Action)
    requires SchedulerPath(e0, e) && Enabled(e, a) && (a.Tick? || a.Recover?)
    ensures SchedulerPath(e0, Next(e, a))
  {
    var acts :| Runnable(e0, acts) && OnlyScheduler(acts) && Exec(e0, acts) == e;
    ExecSnoc(e0, acts, a);
  }

  lemma TickOn(e0: State, e: State, t: TickAct) returns (e': State)
    requires SchedulerPath(e0, e) && TickEnabled(e, t)
    ensures SchedulerPath(e0, e') && e'.db == e.db && e'.limit == e.limit && e'.loop == TickPc(e, t)
    ensures e'.active == TickStep(e, t).active && e'.log == e.log + TickObs(e, t) && e'.next == TickStep(e, t).next
    ensures e'.paused == (e.paused || t.FlagPaused?) && e'.reauth == (e.reauth || t.FlagReauth?)
    ensures e'.runs == TickStep(e, t).runs
  {
    Extend(e0, e, Tick(t));
    e' := Next(e, Tick(t));
  }

  /** The check and the increment of Reserve. */
  lemma ReserveOn(e: State) returns (e': State)
    requires e.loop.Polled? && e.active < e.limit
    ensures SchedulerPath(e, e') && e'.loop == Held(e.next) && e'.active == e.active + 1 && e'.limit == e.limit
    ensures e'.log == e.log + [Reserved(e.next)] && e'.db == e.db && e'.runs == e.runs
    ensures e'.paused == e.paused && e'.reauth == e.reauth
  {
    SchedulerStarts(e);
    e' := TickOn(e, e, CheckActive);
    e' := TickOn(e, e', TickAct.Reserve);
  }

  lemma RecoverOn(e0: State, e: State, b: BootAct) returns (e': State)
    requires SchedulerPath(e0, e) && BootEnabled(e, b)
    ensures SchedulerPath(e0, e') && e'.loop == BootStep(e, b).loop && e'.db == BootStep(e, b).db
    ensures e'.runs == e.runs && e'.log == e.log
  {
    Extend(e0, e, Recover(b));
    e' := Next(e, Recover(b));
  }

  ghost predicate Mirrors(e: State, mgr: Manager, flags: Flags, journal: Journal)
    reads mgr, flags, journal
  {
    e.active == mgr.active && e.limit == mgr.limit && e.paused == flags.paused && e.reauth == flags.reauth
    && e.log == journal.log
  }

  /** What the environment decides about one tick. */
  datatype TickWorld = TickWorld(
    probesOk: bool, auth: bool, c1: L.ClaimWorld, c2: L.ClaimWorld, f: A.World, c3: L.ClaimWorld,
    workload: WorkloadId, accepts: bool)

  /** The cloud traffic of the tick's ladder. */
  function LadderTrace(before: A.Tokens, w: TickWorld): seq<L.Request> {
    L.ClaimWithReauth(before, w.auth, w.c1, w.c2, w.f, w.c3).trace
  }

  /** How the ladder of the tick ends. */
  function LadderOutcome(before: A.Tokens, w: TickWorld): L.ClaimOutcome {
    L.ClaimWithReauth(before, w.auth, w.c1, w.c2, w.f, w.c3).outcome
  }

  /** What a tick that holds slot k shows: a lease it claims is handed to a runner, or surrendered when no executor
      takes the workload; a slot that is not handed on is freed. */
  function SlotLog(k: nat, w: TickWorld, outcome: L.ClaimOutcome): seq<Obs> {
    match outcome
    case Won => if w.accepts then [Leased(k, w.workload)] else [Leased(k, w.workload), Closed(k, Surrender), Freed(k)]
    case Unauthorized => [Parked, Freed(k)]
    case NoWork | Failed => [Freed(k)]
  }

  function TickLog(k: nat, w: TickWorld, admitted: bool, outcome: L.ClaimOutcome): seq<Obs> {
    if admitted then [Reserved(k)] + SlotLog(k, w, outcome) else []
  }

  /** In that log the lease shows exactly when the ladder won, which it does exactly on an answer with work. */
  lemma LeasedIffAnswered(before: A.Tokens, k: nat, w: TickWorld, admitted: bool)
    ensures Leased(k, w.workload) in TickLog(k, w, admitted, LadderOutcome(before, w)) <==>
              admitted && L.EndsIn(LadderTrace(before, w), L.Work)
  {
    L.LadderTellsTheAnswer(before, w.auth, w.c1, w.c2, w.f, w.c3);
  }

  /** tick: the slot reserved is released before the return, or handed to the goroutine for the claimed workload; the
      traffic is the one of the branch taken; and the scheduler is parked exactly when the ladder ends unauthorized. */
  method RunTick(mgr: Manager, flags: Flags, journal: Journal, src: A.TokenSource, k: nat, w: TickWorld,
                 ghost e0: State)
    returns (spawned: Option<Slot>, ghost e: State)
    requires Mirrors(e0, mgr, flags, journal) && e0.loop.Polled? && k == e0.next
    modifies mgr, flags, journal, src, src.store
    ensures SchedulerPath(e0, e) && e.loop.Idle? && Mirrors(e, mgr, flags, journal) && e.db == e0.db
    ensures spawned.Some? ==> fresh(spawned.value) && spawned.value.mgr == mgr && !spawned.value.released
    ensures e.runs == if spawned.Some? then e0.runs[k := Run(w.workload, Lookup, None, 0, 0, Off)] else e0.runs
    ensures mgr.active == old(mgr.active) + if spawned.Some? then 1 else 0
    ensures var admitted := old(mgr.active) < mgr.limit && w.probesOk;
            var outcome := LadderOutcome(old(src.View()), w);
            && (spawned.Some? <==> admitted && outcome.Won? && w.accepts)
            && (flags.paused <==> old(flags.paused) || (admitted && outcome.Unauthorized?))
            && (flags.reauth <==> old(flags.reauth) || (admitted && outcome.Unauthorized?))
            && journal.log == old(journal.log) + TickLog(k, w, admitted, outcome)
            // a lease is taken exactly when the tick got a slot and the cloud answered its last claim with work
            && (Leased(k, w.workload) in TickLog(k, w, admitted, outcome) <==>
                  admitted && L.EndsIn(LadderTrace(old(src.View()), w), L.Work))
  {
    hide SchedulerPath, L.ClaimWithReauth, L.EndsIn, L.OutcomeTellsTheAnswer, SlotLog;
    LeasedIffAnswered(src.View(), k, w, mgr.active < mgr.limit && w.probesOk);
    var slot;
    slot, e := TakeSlot(mgr, flags, journal, k, w.probesOk, e0);
    if slot.None? {
      return None, e;
    }
    var outcome, _ := L.RunLadder(src, w.auth, w.c1, w.c2, w.f, w.c3);
    spawned, e := UseSlot(mgr, flags, journal, slot.value, k, w, outcome, e0, e);
  }

  method TakeSlot(mgr: Manager, flags: Flags, journal: Journal, k: nat, probesOk: bool, ghost e0: State)
    returns (slot: Option<Slot>, ghost e: State)
    requires Mirrors(e0, mgr, flags, journal) && e0.loop.Polled? && k == e0.next
    modifies mgr, journal
    ensures SchedulerPath(e0, e) && Mirrors(e, mgr, flags, journal) && e.db == e0.db && e.runs == e0.runs
    ensures e.loop == if slot.Some? then Held(k) else Idle
    ensures slot.Some? <==> old(mgr.active) < mgr.limit && probesOk
    ensures slot.Some? ==> fresh(slot.value) && slot.value.mgr == mgr && !slot.value.released
    ensures mgr.active == old(mgr.active) + if slot.Some? then 1 else 0
    ensures journal.log == old(journal.log) + if slot.Some? then [Reserved(k)] else []
  {
    SchedulerStarts(e0);
    slot := mgr.Reserve(probesOk, []);
    if slot.None? {
      e := TickOn(e0, e0, Refuse);
    } else {
      journal.Note(Reserved(k));
      e := ReserveOn(e0);
    }
  }

  /** The branch on the ladder's outcome, and the deferred release. */
  method UseSlot(
    mgr: Manager, flags: Flags, journal: Journal, slot: Slot, k: nat, w: TickWorld, outcome: L.ClaimOutcome,
    ghost e0: State, ghost e: State)
    returns (spawned: Option<Slot>, ghost e': State)
    requires SchedulerPath(e0, e) && Mirrors(e, mgr, flags, journal) && e.loop == Held(k)
    requires slot.mgr == mgr && !slot.released
    modifies mgr, flags, journal, slot
    ensures SchedulerPath(e0, e') && e'.loop.Idle? && Mirrors(e', mgr, flags, journal) && e'.db == e.db
    ensures spawned == if outcome.Won? && w.accepts then Some(slot) else None
    ensures slot.released <==> spawned.None?
    ensures e'.runs == if spawned.Some? then e.runs[k := Run(w.workload, Lookup, None, 0, 0, Off)] else e.runs
    ensures mgr.active == old(mgr.active) - if spawned.Some? then 0 else 1
    ensures flags.paused <==> old(flags.paused) || outcome.Unauthorized?
    ensures flags.reauth <==> old(flags.reauth) || outcome.Unauthorized?
    ensures journal.log == old(journal.log) + SlotLog(k, w, outcome)
  {
    hide SchedulerPath;
    if outcome.Won? {
      e' := Accept(mgr, flags, journal, k, w, e0, e);
      if w.accepts {
        return Some(slot), e';
      }
    } else if outcome.Unauthorized? {
      e' := TickOn(e0, e, ClaimEnds(Unauthorized));
      e' := Park(mgr, flags, journal, e0, e');
    } else {
      e' := TickOn(e0, e, ClaimEnds(if outcome.NoWork? then NoWork else OtherError));
    }
    spawned := None;
    e' := GiveBack(mgr, flags, journal, slot, k, e0, e');
  }

  /** The claim was won: start the run, or surrender a workload that no executor takes. */
  method Accept(mgr: Manager, flags: Flags, journal: Journal, k: nat, w: TickWorld, ghost e0: State, ghost e: State)
    returns (ghost e': State)
    requires SchedulerPath(e0, e) && Mirrors(e, mgr, flags, journal) && e.loop == Held(k)
    modifies journal
    ensures journal.log
         == old(journal.log) + [Leased(k, w.workload)] + (if w.accepts then [] else [Closed(k, Surrender)])
    ensures SchedulerPath(e0, e') && Mirrors(e', mgr, flags, journal) && e'.db == e.db
    ensures e'.loop == if w.accepts then Idle else Dropping(k)
    ensures e'.runs == if w.accepts then e.runs[k := Run(w.workload, Lookup, None, 0, 0, Off)] else e.runs
  {
    journal.Note(Leased(k, w.workload));
    e' := TickOn(e0, e, ClaimEnds(Got(w.workload)));
    if w.accepts {
      e' := TickOn(e0, e', Spawn);
    } else {
      journal.Note(Closed(k, Surrender));
      e' := TickOn(e0, e', Decline);
    }
  }

  method Park(mgr: Manager, flags: Flags, journal: Journal, ghost e0: State, ghost e: State) returns (ghost e': State)
    requires SchedulerPath(e0, e) && Mirrors(e, mgr, flags, journal) && e.loop.SetReauth?
    modifies flags, journal
    ensures journal.log == old(journal.log) + [Parked]
    ensures SchedulerPath(e0, e') && Mirrors(e', mgr, flags, journal) && flags.paused && flags.reauth
    ensures e'.loop == Dropping(e.loop.k) && e'.runs == e.runs && e'.db == e.db
  {
    flags.reauth := true;
    e' := TickOn(e0, e, FlagReauth);
    flags.paused := true;
    journal.Note(Parked);
    e' := TickOn(e0, e', FlagPaused);
  }

  /** The deferred release of a tick that did not hand its slot on. */
  method GiveBack(mgr: Manager, flags: Flags, journal: Journal, slot: Slot, k: nat, ghost e0: State, ghost e: State)
    returns (ghost e': State)
    requires SchedulerPath(e0, e) && Mirrors(e, mgr, flags, journal) && e.loop == Dropping(k)
    requires slot.mgr == mgr && !slot.released
    modifies mgr, journal, slot
    ensures journal.log == old(journal.log) + [Freed(k)]
    ensures SchedulerPath(e0, e') && e'.loop.Idle? && Mirrors(e', mgr, flags, journal)
    ensures e'.runs == e.runs && e'.db == e.db && mgr.active == old(mgr.active) - 1 && slot.released
  {
    slot.Release();
    journal.Note(Freed(k));
    e' := TickOn(e0, e, DropSlot);
  }

  /** The listed rows whose write succeeds are failed, everything else is as it was. */
  function MarkEach(db: Db, listed: seq<JobId>, writes: seq<bool>): Db
    requires |writes| == |listed|
  {
    db.(rows := map id | id in db.rows ::
                  if Marked(id, listed, writes) then db.rows[id].(status := Failed) else db.rows[id])
  }

  predicate Marked(id: JobId, listed: seq<JobId>, writes: seq<bool>)
    requires |writes| == |listed|
  {
    exists i :: 0 <= i < |listed| && listed[i] == id && writes[i]
  }

  lemma MarkEachFails(db: Db, listed: seq<JobId>, writes: seq<bool>)
    requires |writes| == |listed|
    ensures var db' := MarkEach(db, listed, writes);
            && db'.rows.Keys == db.rows.Keys
            && (forall id :: id in db.rows && id !in listed ==> db'.rows[id] == db.rows[id])
            && (forall i :: 0 <= i < |listed| && writes[i] && listed[i] in db.rows ==>
                  db'.rows[listed[i]] == db.rows[listed[i]].(status := Failed))
  {
  }

  lemma MarkedSnoc(id: JobId, listed: seq<JobId>, writes: seq<bool>, i: nat)
    requires |writes| == |listed| && i < |listed|
    ensures Marked(id, listed[..i + 1], writes[..i + 1]) <==>
              Marked(id, listed[..i], writes[..i]) || (listed[i] == id && writes[i])
  {
    if Marked(id, listed[..i + 1], writes[..i + 1]) {
      var j :| 0 <= j < i + 1 && listed[j] == id && writes[j];
      if j < i { assert listed[..i][j] == id && writes[..i][j]; }
    }
    if listed[i] == id && writes[i] {
      assert listed[..i + 1][i] == id && writes[..i + 1][i];
    }
    if Marked(id, listed[..i], writes[..i]) {
      var j :| 0 <= j < i && listed[..i][j] == id && writes[..i][j];
      assert listed[..i + 1][j] == id && writes[..i + 1][j];
    }
  }

  lemma MarkEachSnoc(db: Db, listed: seq<JobId>, writes: seq<bool>, i: nat)
    requires |writes| == |listed| && i < |listed|
    ensures var before := MarkEach(db, listed[..i], writes[..i]);
            MarkEach(db, listed[..i + 1], writes[..i + 1])
            == if writes[i] then SetStatus(before, listed[i], Failed) else before
  {
    forall id | id in db.rows
      ensures Marked(id, listed[..i + 1], writes[..i + 1]) <==>
                Marked(id, listed[..i], writes[..i]) || (listed[i] == id && writes[i])
    {
      MarkedSnoc(id, listed, writes, i);
    }
    var before := MarkEach(db, listed[..i], writes[..i]);
    var after := if writes[i] then SetStatus(before, listed[i], Failed) else before;
    assert MarkEach(db, listed[..i + 1], writes[..i + 1]).rows == after.rows;
  }

  /** recoverPending: every listed row is marked failed by its own statement, whose error is ignored. */
  method RecoverPending(store: Store, listOk: bool, listed: seq<JobId>, writes: seq<bool>, ghost e0: State)
    returns (ghost e: State)
    requires e0.loop.Listing? && e0.db == store.db && BootEnabled(e0, ListRunning(listOk, listed))
    requires |writes| == |listed|
    modifies store
    ensures SchedulerPath(e0, e) && e.loop.Idle? && e.db == store.db && e.runs == e0.runs && e.log == e0.log
    ensures store.db == if listOk then MarkEach(old(store.db), listed, writes) else old(store.db)
    ensures listOk ==> forall i :: 0 <= i < |listed| && writes[i] && listed[i] in old(store.db).rows ==>
              listed[i] in store.db.rows && store.db.rows[listed[i]].status == Failed
  {
    SchedulerStarts(e0);
    e := RecoverOn(e0, e0, ListRunning(listOk, listed));
    if listOk {
      MarkEachFails(store.db, listed, writes);
      e := MarkListed(store, listed, writes, e0, e);
      e := RecoverOn(e0, e, RecoveryDone);
    }
  }

  method MarkListed(store: Store, listed: seq<JobId>, writes: seq<bool>, ghost e0: State, ghost e: State)
    returns (ghost e': State)
    requires SchedulerPath(e0, e) && e.loop == Marking(listed) && e.db == store.db && |writes| == |listed|
    modifies store
    ensures SchedulerPath(e0, e') && e'.loop == Marking([]) && e'.db == store.db && e'.runs == e.runs && e'.log == e.log
    ensures store.db == MarkEach(old(store.db), listed, writes)
  {
    hide SchedulerPath;
    e' := e;
    assert MarkEach(store.db, [], []).rows == store.db.rows;
    for i := 0 to |listed|
      invariant SchedulerPath(e0, e') && e'.loop == Marking(listed[i..])
      invariant e'.db == store.db && e'.runs == e.runs && e'.log == e.log
      invariant store.db == MarkEach(old(store.db), listed[..i], writes[..i])
    {
      MarkEachSnoc(old(store.db), listed, writes, i);
      var marked := store.UpdateStatus(listed[i], Failed, writes[i]);
      e' := RecoverOn(e0, e', MarkStranded(marked.Ok?));
    }
    assert listed[..|listed|] == listed && writes[..|listed|] == writes;
  }

  // ---------- the goroutine a tick starts ----------

  /** A runner that has not left the machine has touched neither the slot counter nor the other goroutines. */
  lemma {:induction false} PathKeepsOthers(e: State, k: nat, acts: seq<Action>)
    requires Runnable(e, acts) && OnlyRunner(acts, k) && k in Exec(e, acts).runs
    ensures Exec(e, acts).active == e.active && Exec(e, acts).runs - {k} == e.runs - {k} && Exec(e, acts).loop == e.loop
    decreases |acts|
  {
    if acts == [] {
    } else {
      var e' := Next(e, acts[0]);
      assert acts[0].k == k;
      if !Frees(e.runs[k], acts[0].r) {
        assert OnlyRunner(acts[1..], k);
        PathKeepsOthers(e', k, acts[1..]);
      }
    }
  }

  /** runOne, then the deferred release: exactly one path of runner k from its start to its end, which gives back
      its own slot and leaves the other runners alone. */
  method RunAndRelease(
    slot: Slot, store: Store, journal: Journal, k: nat, w: WorkloadId, world: Scheduler.World, ghost e0: State)
    returns (ghost e: State)
    requires At(e0, k, store, journal, Run(w, Lookup, None, 0, 0, Off)) && world.ctxDone == e0.ctxDone
    requires e0.active == slot.mgr.active && !slot.released && UniqueWorkloads(store.db)
    modifies store, journal, slot, slot.mgr
    ensures RunnerPath(e0, k, e) && e.runs == e0.runs - {k} && e.loop == e0.loop
    ensures var d := Decide(old(store.db), k, w, world);
            && store.db == LeftBehind(old(store.db), d, world)
            && (d.Proceed? ==> TellsTheRun(d, k, w, world, store.db, Transcript(d, k, w, world)))
            && journal.log == old(journal.log) + Transcript(d, k, w, world) + [Freed(k)]
    ensures e.db == store.db && e.log == journal.log && e.active == slot.mgr.active
    ensures slot.released && slot.mgr.active == old(slot.mgr.active) - 1
  {
    e := RunOne(store, journal, k, w, world, e0);
    slot.Release();
    journal.Note(Freed(k));
    e := LastStep(e0, k, e);
  }

  lemma LastStep(e0: State, k: nat, e: State) returns (e': State)
    requires RunnerPath(e0, k, e) && k in e.runs && e.runs[k].pc == Release
    ensures RunnerPath(e0, k, e') && e'.runs == e0.runs - {k} && e'.loop == e0.loop
    ensures e'.db == e.db && e'.log == e.log + [Freed(k)] && e'.active == e0.active - 1
  {
    var acts :| Runnable(e0, acts) && OnlyRunner(acts, k) && Exec(e0, acts) == e;
    PathKeepsOthers(e0, k, acts);
    ExecSnoc(e0, acts, Runner(k, Step(true)));
    e' := Next(e, Runner(k, Step(true)));
  }
}
