/** Lease and slot accounting over the observable log, for every interleaving and every
    outcome of store, cloud and executor. */
module Ledger {
  import opened Collections
  import opened Engine
  import opened EngineInvariants

  function LeaseOf(k: nat): Obs -> bool { (o: Obs) => o.Leased? && o.k == k }
  function ClosingOf(k: nat): Obs -> bool { (o: Obs) => o.Closed? && o.k == k }
  function FreeingOf(k: nat): Obs -> bool { (o: Obs) => o.Freed? && o.k == k }

  /** The runner has its lease's closing call still ahead of it. */
  predicate BeforeClose(pc: Pc) {
    || pc.Lookup? || pc.Create? || pc.Takeover? || pc.CountAttempts? || pc.MarkRunning?
    || pc.OpenAttemptRow? || pc.OpenHandle? || pc.Execute? || pc.Report? || pc.Surrendering? || pc.ReportTerminal?
  }

  /** Some tick or run is still responsible for closing lease k. */
  predicate Open(e: State, k: nat) {
    (e.loop.Claimed? && e.loop.k == k) || (k in e.runs && BeforeClose(e.runs[k].pc))
  }

  /** Some tick or run holds slot k. */
  predicate Holding(e: State, k: nat) {
    (LoopHolds(e.loop) && e.loop.k == k) || k in e.runs
  }

  function Bit(obs: seq<Obs>, p: Obs -> bool): nat {
    if obs != [] && p(obs[0]) then 1 else 0
  }

  lemma {:induction false} CountLog(log: seq<Obs>, obs: seq<Obs>, p: Obs -> bool)
    requires |obs| <= 1
    ensures Count(log + obs, p) == Count(log, p) + Bit(obs, p)
  {
    if obs == [] {
      assert log + obs == log;
    } else {
      assert obs == [obs[0]];
      CountSnoc(log, obs[0], p);
    }
  }

  /** A runner's step logs at most one observation, about itself; it logs a closing call
      exactly when it leaves the points before its closing call. */
  lemma RunnerObs(e: State, k: nat, act: RunAct)
    requires Enabled(e, Runner(k, act))
    ensures var obs := Emit(e, Runner(k, act));
            && |obs| <= 1
            && (obs != [] ==>
                  && (|| obs[0].Closed? || obs[0].Saw? || obs[0].Executing? || obs[0].Ended? || obs[0].Beat?
                      || obs[0].Lost? || obs[0].Returned? || obs[0].Freed?)
                  && obs[0].k == k)
            && (obs != [] && obs[0].Freed? <==> Frees(e.runs[k], act))
            && (obs != [] && obs[0].Closed? <==>
                  BeforeClose(e.runs[k].pc) && !BeforeClose(RunPc(e.db, e.runs[k], act, e.ctxDone)))
            && (BeforeClose(RunPc(e.db, e.runs[k], act, e.ctxDone)) ==> BeforeClose(e.runs[k].pc))
  {
  }

  lemma LogGrows(e: State, a: Action)
    requires Enabled(e, a)
    ensures Next(e, a).log == e.log + Emit(e, a) && |Emit(e, a)| <= 1
  {
    if a.Runner? {
      RunnerObs(e, a.k, a.r);
    }
  }

  /** A step's effect on who is responsible for lease and slot k, as conservation laws. */
  ghost predicate Conserves(e: State, obs: seq<Obs>, e': State, k: nat) {
    && Bit(obs, LeaseOf(k)) + (if Open(e, k) then 1 else 0) == Bit(obs, ClosingOf(k)) + (if Open(e', k) then 1 else 0)
    && (Bit(obs, LeaseOf(k)) == 1 ==> e.loop == Held(k) && e'.loop != Held(k))
    && (e'.loop == Held(k) ==> e.loop == Held(k) || k == e.next)
    && (if e'.next > e.next && k == e.next then Bit(obs, FreeingOf(k)) == 0 && Holding(e', k)
        else Bit(obs, FreeingOf(k)) + (if Holding(e', k) then 1 else 0) == if Holding(e, k) then 1 else 0)
    && e'.epoch == e.epoch
    && (e'.next == e.next || (e'.next == e.next + 1 && e'.loop == Held(e.next)))
  }

  lemma RunnerConserves(e: State, r: nat, act: RunAct, k: nat)
    requires Shape(e) && Enabled(e, Runner(r, act))
    ensures Conserves(e, Emit(e, Runner(r, act)), Next(e, Runner(r, act)), k)
  {
    RunnerObs(e, r, act);
  }

  lemma TickConserves(e: State, t: TickAct, k: nat)
    requires Shape(e) && TickEnabled(e, t)
    ensures Conserves(e, Emit(e, Tick(t)), Next(e, Tick(t)), k)
  {
    assert e.next in e.runs ==> RunOk(e, e.next, e.runs[e.next]);
  }

  lemma StepConserves(e: State, a: Action, k: nat)
    requires Shape(e) && Enabled(e, a) && a != Env(Crash)
    ensures Conserves(e, Emit(e, a), Next(e, a), k)
  {
    match a
    case Tick(t) => TickConserves(e, t, k);
    case Runner(r, act) => RunnerConserves(e, r, act, k);
    case Recover(_) =>
    case Env(_) =>
  }

  /** The account of lease and slot k.  Before `epoch` (earlier processes) a lease may have been
      abandoned by a crash; in the current process it is open or has exactly one closing call. */
  ghost predicate Entry(e: State, k: nat) {
    var leases := Count(e.log, LeaseOf(k));
    var closings := Count(e.log, ClosingOf(k));
    var freeings := Count(e.log, FreeingOf(k));
    && closings <= leases <= 1
    && freeings <= 1
    && (k >= e.next || e.loop == Held(k) ==> leases == 0)
    && (k >= e.next ==> freeings == 0)
    && (e.epoch <= k < e.next ==>
          && leases == closings + (if Open(e, k) then 1 else 0)
          && freeings == if Holding(e, k) then 0 else 1)
  }

  lemma EntryAdds(e: State, obs: seq<Obs>, e': State, k: nat)
    requires Shape(e) && Entry(e, k) && Conserves(e, obs, e', k)
    requires |obs| <= 1 && e'.log == e.log + obs
    ensures Entry(e', k)
  {
    CountLog(e.log, obs, LeaseOf(k));
    CountLog(e.log, obs, ClosingOf(k));
    CountLog(e.log, obs, FreeingOf(k));
    assert k in e.runs ==> RunOk(e, k, e.runs[k]);
  }

  lemma EntryCrash(e: State, k: nat)
    requires Shape(e) && Entry(e, k) && Enabled(e, Env(Crash))
    ensures Entry(Next(e, Env(Crash)), k)
  {
    assert Next(e, Env(Crash)).log == e.log;
  }

  lemma EntryStep(e: State, a: Action, k: nat)
    requires Shape(e) && Entry(e, k) && Enabled(e, a)
    ensures Entry(Next(e, a), k)
  {
    if a == Env(Crash) {
      EntryCrash(e, k);
    } else {
      LogGrows(e, a);
      StepConserves(e, a, k);
      EntryAdds(e, Emit(e, a), Next(e, a), k);
    }
  }

  // ---------- totals ----------

  function AnyLease(): Obs -> bool { (o: Obs) => o.Leased? }
  function AnyClosing(): Obs -> bool { (o: Obs) => o.Closed? }

  ghost function OpenLeases(e: State): set<nat> {
    set k | 0 <= k < e.next && Open(e, k)
  }

  /** Since the last boot: leases claimed = closing calls made + leases still open. */
  ghost predicate Balanced(e: State) {
    && e.mark <= |e.log|
    && (!e.loop.Down? ==>
          Count(e.log[e.mark..], AnyLease()) == Count(e.log[e.mark..], AnyClosing()) + |OpenLeases(e)|)
  }

  lemma OpenMoves(e: State, obs: seq<Obs>, e': State, k: nat)
    requires Shape(e) && Conserves(e, obs, e', k)
    ensures Open(e', k) == ((Open(e, k) || Bit(obs, LeaseOf(k)) == 1) && Bit(obs, ClosingOf(k)) == 0)
    ensures Open(e, k) ==> k < e.next
    ensures Bit(obs, LeaseOf(k)) == 1 ==> k < e.next && !Open(e, k)
    ensures Bit(obs, ClosingOf(k)) == 1 ==> Open(e, k)
    ensures e.next <= e'.next
    ensures Open(e', k) ==> k < e.next
  {
    assert k in e.runs ==> RunOk(e, k, e.runs[k]);
  }

  lemma SetMoves(open: set<nat>, obs: seq<Obs>, open': set<nat>)
    requires |obs| <= 1
    requires forall k: nat :: k in open' <==> (k in open || Bit(obs, LeaseOf(k)) == 1) && Bit(obs, ClosingOf(k)) == 0
    requires forall k: nat :: Bit(obs, LeaseOf(k)) == 1 ==> k !in open
    requires forall k: nat :: Bit(obs, ClosingOf(k)) == 1 ==> k in open
    ensures Bit(obs, AnyLease()) + |open| == Bit(obs, AnyClosing()) + |open'|
  {
    if obs != [] && obs[0].Leased? {
      assert Bit(obs, LeaseOf(obs[0].k)) == 1;
      assert open' == open + {obs[0].k};
    } else if obs != [] && obs[0].Closed? {
      assert Bit(obs, ClosingOf(obs[0].k)) == 1;
      assert open' == open - {obs[0].k};
    } else {
      assert open' == open;
    }
  }

  lemma OpenSetMoves(e: State, obs: seq<Obs>, e': State)
    requires |obs| <= 1 && Shape(e)
    requires forall k: nat :: Conserves(e, obs, e', k)
    ensures Bit(obs, AnyLease()) + |OpenLeases(e)| == Bit(obs, AnyClosing()) + |OpenLeases(e')|
  {
    forall k: nat
      ensures k in OpenLeases(e') <==>
                (k in OpenLeases(e) || Bit(obs, LeaseOf(k)) == 1) && Bit(obs, ClosingOf(k)) == 0
      ensures Bit(obs, LeaseOf(k)) == 1 ==> k !in OpenLeases(e)
      ensures Bit(obs, ClosingOf(k)) == 1 ==> k in OpenLeases(e)
    {
      OpenMoves(e, obs, e', k);
    }
    SetMoves(OpenLeases(e), obs, OpenLeases(e'));
  }

  lemma BalancedStep(e: State, a: Action)
    requires Shape(e) && Balanced(e) && Enabled(e, a)
    ensures Balanced(Next(e, a))
  {
    LogGrows(e, a);
    var e', obs := Next(e, a), Emit(e, a);
    if a == Env(Crash) {
    } else if a.Env? && a.v.Boot? {
      assert e'.log[e'.mark..] == [Booted];
      assert Count([Booted][..0], AnyLease()) == 0 && Count([Booted][..0], AnyClosing()) == 0;
      assert OpenLeases(e') == {};
    } else {
      forall k: nat ensures Conserves(e, obs, e', k) { StepConserves(e, a, k); }
      OpenSetMoves(e, obs, e');
      MarkStays(e, a);
      assert e'.log[e'.mark..] == e.log[e.mark..] + obs;
      CountLog(e.log[e.mark..], obs, AnyLease());
      CountLog(e.log[e.mark..], obs, AnyClosing());
    }
  }

  lemma MarkStays(e: State, a: Action)
    requires SlotsOk(e) && Enabled(e, a) && a != Env(Crash) && !(a.Env? && a.v.Boot?)
    ensures Next(e, a).mark == e.mark && !e.loop.Down?
  {
  }
}
