/** handleUnpair as an ordered protocol over cloud, job rows and keystore (internal/ipc/handlers_unpair.go). */
module UnpairHandler {
  import opened Collections
  import JQ = JobQueue
  import opened Recovery
  import opened Auth
  import opened Pairing

  datatype Answer =
    | Done(cleared: nat, forced: bool)   // 200
    | NotPaired                          // 409
    | CloudUnreachable                   // 502
    | CloudRejected                      // 502
    | InternalError                      // 500

  /** One call and everything the environment decides about it; `ids` is what the sweep's SELECT returns. */
  datatype Call = Call(loadOk: bool, delete: Delete, force: bool, fault: Fault, clearOk: bool, ids: seq<JQ.JobId>)

  /** The handler's view of the daemon. */
  datatype Local = Local(db: JQ.Db, keystore: Option<Bundle>)

  /** The call gets past the load and the cloud DELETE, so the sweep is tried. */
  predicate ReachesSweep(s: Local, c: Call) {
    c.loadOk && s.keystore.Some? && CloudLetsGo(c.delete, c.force)
  }

  ghost predicate Sweeps(s: Local, c: Call) {
    ReachesSweep(s, c) && !Reached(c.fault, |Matching(s.db, ACTIVE_STATUSES)|)
  }

  ghost predicate Possible(s: Local, c: Call) {
    Sweeps(s, c) ==> IsListing(c.ids, s.db, ACTIVE_STATUSES)
  }

  /** A failed sweep is logged and does not stop the unpair. */
  ghost function After(s: Local, c: Call): Local {
    Local(if Sweeps(s, c) then Sweep(s.db, ACTIVE_STATUSES, c.ids, UNPAIR_FAILED, UNPAIRED) else s.db,
          if ReachesSweep(s, c) && c.clearOk then None else s.keystore)
  }

  ghost function AnswerTo(s: Local, c: Call): Answer {
    if !c.loadOk then InternalError
    else if s.keystore.None? then NotPaired
    else if c.delete.Unreachable? && !c.force then CloudUnreachable
    else if c.delete.Refused? then CloudRejected
    else if !c.clearOk then InternalError
    else Done(if Sweeps(s, c) then |Matching(s.db, ACTIVE_STATUSES)| else 0, c.force && c.delete.Unreachable?)
  }

  method HandleUnpair(
    store: JQ.Store, keystore: Keystore, loadOk: bool, delete: Delete, force: bool, fault: Fault, clearOk: bool)
    returns (a: Answer, ghost c: Call)
    modifies store, keystore
    ensures c.(ids := []) == Call(loadOk, delete, force, fault, clearOk, [])
    ensures Possible(Local(old(store.db), old(keystore.cell)), c)
    ensures Local(store.db, keystore.cell) == After(Local(old(store.db), old(keystore.cell)), c)
    ensures a == AnswerTo(Local(old(store.db), old(keystore.cell)), c)
    // which answer, and what each leaves behind
    ensures var stored := old(keystore.cell).Some?;
            var through := loadOk && stored && (delete.Deleted? || delete.Expired? || (delete.Unreachable? && force));
            var active := |Matching(old(store.db), {JQ.Queued, JQ.Running})|;
            && (a.NotPaired? <==> loadOk && !stored)
            && (a.CloudUnreachable? <==> loadOk && stored && delete.Unreachable? && !force)
            && (a.CloudRejected? <==> loadOk && stored && delete.Refused?)
            && (a.Done? <==> through && clearOk)
            && (a.Done? ==> a.cleared == (if Reached(fault, active) then 0 else active))
            && (a.Done? ==> (a.forced <==> delete.Unreachable?))
            && keystore.cell == (if a.Done? then None else old(keystore.cell))
            && (if through && !Reached(fault, active)
                then Swept(old(store.db), store.db, {JQ.Queued, JQ.Running}, "unpair_failed", "unpaired")
                else store.db == old(store.db))
  {
    c := Call(loadOk, delete, force, fault, clearOk, []);
    if !loadOk {
      return InternalError, c;
    }
    var bundle := keystore.Load(loadOk);
    if bundle.None? {
      return NotPaired, c;
    }
    if delete.Unreachable? {
      if !force {
        return CloudUnreachable, c;
      }
    } else if delete.Refused? {
      return CloudRejected, c;
    }
    var swept, ids := SweepActiveToFailed(store, UNPAIRED, fault);
    c := c.(ids := ids);
    var cleared := if swept.Ok? then swept.value else 0;
    keystore.Clear(clearOk);
    if !clearOk {
      return InternalError, c;
    }
    return Done(cleared, force && delete.Unreachable?), c;
  }

  /** An error answer before the sweep leaves rows, events and keystore untouched; 200 is answered exactly when the
      keystore was cleared; and a 500 after the sweep leaves the identity in place. */
  lemma AnswersTellTheState(s: Local, c: Call)
    ensures !ReachesSweep(s, c) ==> After(s, c) == s && !AnswerTo(s, c).Done?
    ensures AnswerTo(s, c).Done? <==> ReachesSweep(s, c) && c.clearOk
    ensures AnswerTo(s, c).Done? ==> After(s, c).keystore.None?
    ensures !AnswerTo(s, c).Done? ==> After(s, c).keystore == s.keystore
  {
  }

  /** The handler does to the keystore what its steps in the pairing machine do, one after the other, whatever the token
      cache and the other handlers hold. */
  lemma {:induction false} HandlerIsItsSteps(s: Pairing.State, h: nat, db: JQ.Db, c: Call)
    requires Pairing.At(s, h).None?
    requires s.tokens.keystore.Some? && c.delete.Deleted? ==> s.tokens.keystore.value.device in s.live
    ensures var ops := UnpairSteps(s, h, c.loadOk, c.delete, c.force, c.clearOk);
            && Pairing.AllPossible(s, ops)
            && After(Local(db, s.tokens.keystore), c).keystore == Pairing.After(s, ops).tokens.keystore
  {
    UnpairStepsAreTheUnpair(s, h, c.loadOk, c.delete, c.force, c.clearOk);
  }

  // ---------- retrying ----------

  ghost function AfterAll(s: Local, calls: seq<Call>): Local
    decreases |calls|
  {
    if calls == [] then s else AfterAll(After(s, calls[0]), calls[1..])
  }

  ghost predicate AllPossible(s: Local, calls: seq<Call>)
    decreases |calls|
  {
    calls == [] || (Possible(s, calls[0]) && AllPossible(After(s, calls[0]), calls[1..]))
  }

  /** The user retries until a call answers 200. */
  ghost predicate UntilDone(s: Local, calls: seq<Call>)
    decreases |calls|
  {
    && calls != []
    && if |calls| == 1 then AnswerTo(s, calls[0]).Done?
       else !AnswerTo(s, calls[0]).Done? && UntilDone(After(s, calls[0]), calls[1..])
  }

  ghost predicate SomeSweep(s: Local, calls: seq<Call>)
    decreases |calls|
  {
    calls != [] && (Sweeps(s, calls[0]) || SomeSweep(After(s, calls[0]), calls[1..]))
  }

  /** Once swept, further calls do not touch the database. */
  lemma {:induction false} SweptStays(s: Local, calls: seq<Call>)
    requires Matching(s.db, ACTIVE_STATUSES) == {} && AllPossible(s, calls)
    ensures AfterAll(s, calls).db == s.db
    decreases |calls|
  {
    if calls == [] {
    } else {
      var c := calls[0];
      if Sweeps(s, c) {
        ListingSize(c.ids, {});
        EmptySweep(s.db, ACTIVE_STATUSES, c.ids, UNPAIR_FAILED, UNPAIRED);
      }
      SweptStays(After(s, c), calls[1..]);
    }
  }

  lemma {:induction false} DoneClears(s: Local, calls: seq<Call>)
    requires UntilDone(s, calls)
    ensures AfterAll(s, calls).keystore.None?
    decreases |calls|
  {
    var s' := After(s, calls[0]);
    if |calls| == 1 {
      assert calls[1..] == [] && AfterAll(s', []) == s';
    } else {
      DoneClears(s', calls[1..]);
    }
  }

  /** The first sweep that commits decides the database. */
  lemma {:induction false} FirstSweepDecides(s: Local, calls: seq<Call>) returns (ids: seq<JQ.JobId>)
    requires AllPossible(s, calls) && SomeSweep(s, calls)
    ensures IsListing(ids, s.db, ACTIVE_STATUSES)
    ensures AfterAll(s, calls).db == Sweep(s.db, ACTIVE_STATUSES, ids, UNPAIR_FAILED, UNPAIRED)
    decreases |calls|
  {
    var c := calls[0];
    if Sweeps(s, c) {
      ids := c.ids;
      SweepIsExact(s.db, ACTIVE_STATUSES, ids, UNPAIR_FAILED, UNPAIRED);
      SweptStays(After(s, c), calls[1..]);
    } else {
      ids := FirstSweepDecides(After(s, c), calls[1..]);
    }
  }

  lemma {:induction false} NoSweepKeepsDb(s: Local, calls: seq<Call>)
    requires !SomeSweep(s, calls)
    ensures AfterAll(s, calls).db == s.db
    decreases |calls|
  {
    if calls == [] {
    } else {
      NoSweepKeepsDb(After(s, calls[0]), calls[1..]);
    }
  }

  /** Retrying until 200 ends where one uninterrupted unpair ends, with exactly one unpair_failed event per active
      job, provided some call's sweep committed; otherwise the identity is gone and the rows are as they were. */
  lemma RetryConverges(s: Local, calls: seq<Call>) returns (once: Call)
    requires s.keystore.Some? && AllPossible(s, calls) && UntilDone(s, calls)
    ensures SomeSweep(s, calls) ==>
              && Possible(s, once) && AnswerTo(s, once) == Done(|Matching(s.db, ACTIVE_STATUSES)|, false)
              && AfterAll(s, calls) == After(s, once)
              && Swept(s.db, AfterAll(s, calls).db, {JQ.Queued, JQ.Running}, "unpair_failed", "unpaired")
              && (forall id :: id in AfterAll(s, calls).db.rows ==>
                    JQ.IsTerminal(AfterAll(s, calls).db.rows[id].status))
    ensures !SomeSweep(s, calls) ==> AfterAll(s, calls) == Local(s.db, None)
  {
    DoneClears(s, calls);
    once := Call(true, Deleted, false, NoFault, true, []);
    if SomeSweep(s, calls) {
      var ids := FirstSweepDecides(s, calls);
      once := once.(ids := ids);
      hide Swept;
      UnpairSweepStopsAll(s.db, ids);
    } else {
      NoSweepKeepsDb(s, calls);
    }
  }
}
