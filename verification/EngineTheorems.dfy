/** The engine's guarantees over every run: any interleaving, any outcome, crashes and
    reboots included. */
module EngineTheorems {
  import opened Collections
  import opened Engine
  import opened EngineInvariants
  import opened Ledger
  import opened Protocol

  ghost predicate Books(e: State, k: nat) {
    Entry(e, k) && HeartEntry(e, k) && CallEntry(e, k)
  }

  ghost predicate Inv(e: State) {
    Shape(e) && Balanced(e) && Asleep(e) && forall k: nat :: Books(e, k)
  }

  lemma InvInitially(e: State)
    requires Initial(e)
    ensures Inv(e)
  {
  }

  lemma InvStep(e: State, a: Action)
    requires Inv(e) && Enabled(e, a)
    ensures Inv(Next(e, a))
  {
    ShapeStep(e, a);
    BalancedStep(e, a);
    AsleepStep(e, a);
    forall k: nat ensures Books(Next(e, a), k) {
      assert Books(e, k);
      EntryStep(e, a, k);
      HeartStep(e, a, k);
      CallStep(e, a, k);
    }
  }

  lemma {:induction false} InvAlways(e: State, acts: seq<Action>)
    requires Inv(e) && Runnable(e, acts)
    ensures Inv(Exec(e, acts))
    decreases |acts|
  {
    if acts == [] {
    } else {
      InvStep(e, acts[0]);
      InvAlways(Next(e, acts[0]), acts[1..]);
    }
  }

  /** Slot conservation: the counter equals the number of slots held and stays in range; every slot
      reserved by the current process has been freed exactly once, unless someone still holds it. */
  lemma {:induction false} SlotConservation(e0: State, acts: seq<Action>, k: nat)
    requires Initial(e0) && Runnable(e0, acts)
    ensures var e := Exec(e0, acts);
            && e.active == |e.runs| + (if LoopHolds(e.loop) then 1 else 0)
            && 0 <= e.active <= e.limit
            && (e.epoch <= k < e.next ==> Count(e.log, FreeingOf(k)) == if Holding(e, k) then 0 else 1)
            && Count(e.log, FreeingOf(k)) <= 1
  {
    InvInitially(e0);
    InvAlways(e0, acts);
    assert Books(Exec(e0, acts), k);
  }

  /** Lease accounting: a lease claimed by the current process is open or has had exactly one closing
      call, never more than one ever, and leases = closing calls + open leases since the last boot. */
  lemma {:induction false} LeaseAccounting(e0: State, acts: seq<Action>, k: nat)
    requires Initial(e0) && Runnable(e0, acts)
    ensures var e := Exec(e0, acts);
            && Count(e.log, ClosingOf(k)) <= Count(e.log, LeaseOf(k)) <= 1
            && (e.epoch <= k && Count(e.log, LeaseOf(k)) == 1 ==>
                  Count(e.log, ClosingOf(k)) == if Open(e, k) then 0 else 1)
            && e.mark <= |e.log|
            && (!e.loop.Down? ==>
                  Count(e.log[e.mark..], AnyLease()) == Count(e.log[e.mark..], AnyClosing()) + |OpenLeases(e)|)
  {
    InvInitially(e0);
    InvAlways(e0, acts);
    assert Books(Exec(e0, acts), k);
  }

  /** Every closing call tells the truth about the lease it closes. */
  lemma {:induction false} ClosingCallsAreJustified(e0: State, acts: seq<Action>, i: nat)
    requires Initial(e0) && Runnable(e0, acts)
    requires i < |Exec(e0, acts).log| && Exec(e0, acts).log[i].Closed?
    ensures var log := Exec(e0, acts).log; Justified(log[..i], log[i].k, log[i].call)
  {
    InvInitially(e0);
    InvAlways(e0, acts);
    assert Books(Exec(e0, acts), Exec(e0, acts).log[i].k);
  }

  /** A lease is never heartbeated after its run returned, and is reported lost at most once. */
  lemma {:induction false} HeartbeatsEndWithTheRun(e0: State, acts: seq<Action>, k: nat)
    requires Initial(e0) && Runnable(e0, acts)
    ensures BeatsEndWithRun(Exec(e0, acts).log, k)
    ensures Count(Exec(e0, acts).log, LossOf(k)) <= 1
  {
    InvInitially(e0);
    InvAlways(e0, acts);
    assert Books(Exec(e0, acts), k);
  }

  /** After parking, no tick starts before a Resume or a new process; and ReauthRequired is shown only
      while paused, except between the two stores of a park or of a Resume. */
  lemma {:induction false} ParkingHolds(e0: State, acts: seq<Action>)
    requires Initial(e0) && Runnable(e0, acts)
    ensures QuietWhenParked(Exec(e0, acts).log)
    ensures var e := Exec(e0, acts); e.reauth && !e.paused ==> e.loop.SetPaused? || e.resuming > 0
  {
    InvInitially(e0);
    InvAlways(e0, acts);
  }

  // ---------- what the UI sees of a park ----------

  /** The scheduler shows that it is paused because a new pairing is required. */
  predicate ShowsReauth(e: State) {
    e.paused && e.reauth
  }

  predicate Parking(l: Loop) {
    l.SetReauth? || l.SetPaused?
  }

  /** No Resume starts, and the process lives on. */
  predicate NoNewResume(acts: seq<Action>) {
    forall i :: 0 <= i < |acts| ==> acts[i] != Env(ResumeFirst) && acts[i] != Env(Crash)
  }

  /** No Resume is half way through its two stores, and none has cleared the flag between the two stores of the park. */
  predicate Undisturbed(e: State) {
    e.resuming == 0 && (e.loop.SetPaused? ==> e.reauth)
  }

  ghost predicate ParkedOrParking(e: State) {
    Undisturbed(e) && (Parking(e.loop) || ShowsReauth(e))
  }

  lemma {:induction false} ParkGoesThrough(e: State, acts: seq<Action>)
    requires ParkedOrParking(e) && Runnable(e, acts) && NoNewResume(acts)
    ensures ParkedOrParking(Exec(e, acts))
    decreases |acts|
  {
    if acts == [] {
    } else {
      assert acts[0] != Env(ResumeFirst) && acts[0] != Env(Crash);
      forall i | 0 <= i < |acts[1..]| ensures acts[1..][i] != Env(ResumeFirst) && acts[1..][i] != Env(Crash) {
        assert acts[1..][i] == acts[i + 1];
      }
      ParkGoesThrough(Next(e, acts[0]), acts[1..]);
    }
  }

  lemma {:induction false} RunOfTwo(e: State, a: Action, b: Action)
    requires Enabled(e, a) && Enabled(Next(e, a), b)
    ensures Runnable(e, [a, b]) && Exec(e, [a, b]) == Next(Next(e, a), b)
  {
    assert [a, b][1..] == [b] && [b][1..] == [];
    assert Runnable(Next(Next(e, a), b), []);
    assert Exec(Next(e, a), [b]) == Exec(Next(Next(e, a), b), []);
  }

  /** The run of a park that a Resume disturbs: the two stores of Resume fall before the pause flag and after it. */
  lemma DisturbedPark(e: State) returns (acts: seq<Action>)
    requires Parking(e.loop) && !Undisturbed(e)
    ensures Runnable(e, acts) && NoNewResume(acts) && Exec(e, acts).loop.Dropping? && !ShowsReauth(Exec(e, acts))
  {
    var pause, resume := Tick(FlagPaused), Env(ResumeSecond);
    if e.loop.SetReauth? {
      var e1 := Next(e, Tick(FlagReauth));
      RunOfTwo(e1, pause, resume);
      acts := [Tick(FlagReauth), pause, resume];
      assert acts[1..] == [pause, resume];
    } else if e.resuming > 0 {
      RunOfTwo(e, pause, resume);
      acts := [pause, resume];
    } else {
      var e1 := Next(e, pause);
      acts := [pause];
      assert acts[1..] == [] && Runnable(e1, []) && Exec(e1, []) == e1;
    }
  }

  /** A park that is under way ends with ReauthRequired showing, and keeps showing it until somebody calls Resume, if
      and only if no Resume disturbs it: none is between its two stores, and none has cleared the flag just set. */
  lemma {:induction false} ParkShowsReauthIff(e: State)
    requires Parking(e.loop)
    ensures Undisturbed(e) <==>
              forall acts :: Runnable(e, acts) && NoNewResume(acts) && !Parking(Exec(e, acts).loop) ==>
                               ShowsReauth(Exec(e, acts))
  {
    if Undisturbed(e) {
      forall acts | Runnable(e, acts) && NoNewResume(acts) && !Parking(Exec(e, acts).loop)
        ensures ShowsReauth(Exec(e, acts))
      {
        ParkGoesThrough(e, acts);
      }
    } else {
      var acts := DisturbedPark(e);
    }
  }

  /** The race that defeats it: a Resume called just before the park leaves the scheduler paused without the flag. */
  lemma {:induction false} ResumeRaceHidesReauth(e: State)
    requires e.loop.SetReauth?
    ensures var e1 := Next(e, Env(ResumeFirst)); !Undisturbed(e1) && Parking(e1.loop)
    ensures exists acts :: Runnable(e, acts) && Exec(e, acts).paused && !Exec(e, acts).reauth
  {
    var e1 := Next(e, Env(ResumeFirst));
    var e2 := Next(e1, Tick(FlagReauth));
    RunOfTwo(e, Env(ResumeFirst), Tick(FlagReauth));
    RunOfTwo(e2, Tick(FlagPaused), Env(ResumeSecond));
    var rest := [Tick(FlagPaused), Env(ResumeSecond)];
    assert ([Tick(FlagReauth)] + rest)[1..] == rest;
    assert Runnable(e1, [Tick(FlagReauth)] + rest) && Exec(e1, [Tick(FlagReauth)] + rest) == Exec(e2, rest);
    var acts := [Env(ResumeFirst)] + ([Tick(FlagReauth)] + rest);
    assert acts[1..] == [Tick(FlagReauth)] + rest;
    assert Runnable(e, acts) && Exec(e, acts) == Exec(e2, rest);
  }
}
