/** The transactional sweep of internal/jobqueue/recovery.go: every row in one of the
    given statuses becomes `failed` and gets one event, or the database stays as it was. */
module Recovery {
  import opened Collections
  import opened JobQueue

  const ORPHAN_FAILED := "orphan_failed"
  const UNPAIR_FAILED := "unpair_failed"
  const ORPHANED_AFTER_RESTART := "orphaned_after_restart"
  const UNPAIRED := "unpaired"

  const ORPHAN_STATUSES: set<Status> := {Running}
  const ACTIVE_STATUSES: set<Status> := {Queued, Running}

  ghost function Matching(db: Db, wanted: set<Status>): set<JobId> {
    set id | id in db.rows && db.rows[id].status in wanted
  }

  /** `ids` is what `SELECT id FROM jobs WHERE status IN (...)` may return. */
  ghost predicate IsListing(ids: seq<JobId>, db: Db, wanted: set<Status>) {
    && NoDuplicates(ids)
    && (forall id :: id in ids <==> id in Matching(db, wanted))
  }

  function FailRows(rows: map<JobId, Job>, wanted: set<Status>): map<JobId, Job> {
    map id | id in rows :: if rows[id].status in wanted then rows[id].(status := Failed) else rows[id]
  }

  function EventsFor(ids: seq<JobId>, kind: string, message: string): seq<Event> {
    seq(|ids|, i requires 0 <= i < |ids| => Event(ids[i], kind, message))
  }

  function Sweep(db: Db, wanted: set<Status>, ids: seq<JobId>, kind: string, message: string): Db {
    db.(rows := FailRows(db.rows, wanted), events := db.events + EventsFor(ids, kind, message))
  }

  function Wanted(statuses: seq<Status>): set<Status> {
    set s | s in statuses
  }

  /** Where the sweep may be interrupted by an error. */
  datatype Fault =
    | NoFault | AtBegin | AtSelect | AtScan(n: nat) | AtRows | AtUpdate | AtPrepare | AtInsert(n: nat) | AtCommit

  /** Whether a sweep over `count` rows gets as far as the faulty statement. */
  predicate Reached(fault: Fault, count: nat) {
    match fault
    case NoFault => false
    case AtBegin | AtSelect | AtRows | AtCommit => true
    case AtScan(n) => n < count
    case AtUpdate | AtPrepare => 0 < count
    case AtInsert(n) => n < count
  }

  /** Loop over the result set of the SELECT. */
  method CollectIds(db: Db, wanted: set<Status>, fault: Fault) returns (r: Result<seq<JobId>>)
    ensures r.Ok? <==> !(fault.AtScan? && fault.n < |Matching(db, wanted)|)
    ensures r.Ok? ==> IsListing(r.value, db, wanted) && |r.value| == |Matching(db, wanted)|
  {
    var ids: seq<JobId> := [];
    var cursor := set id | id in db.rows && db.rows[id].status in wanted;
    assert cursor == Matching(db, wanted);
    while cursor != {}
      invariant cursor <= Matching(db, wanted)
      invariant NoDuplicates(ids)
      invariant forall id :: id in ids <==> id in Matching(db, wanted) - cursor
      invariant |ids| + |cursor| == |Matching(db, wanted)|
      invariant fault.AtScan? ==> |ids| <= fault.n
      decreases cursor
    {
      if fault == AtScan(|ids|) {
        return Err(Sql);
      }
      var id :| id in cursor;
      assert id !in ids;
      ids := ids + [id];
      cursor := cursor - {id};
    }
    return Ok(ids);
  }

  /** The shared UPDATE-then-events transaction.  `tx` is the transaction's private
      view; only Commit makes it the database. */
  method FailActive(store: Store, statuses: seq<Status>, kind: string, message: string, fault: Fault)
    returns (r: Result<nat>, ghost ids: seq<JobId>)
    modifies store
    ensures r.Err? <==> statuses == [] || kind == "" || Reached(fault, |Matching(old(store.db), Wanted(statuses))|)
    // each error point, by name: those of an empty sweep are only begin, select, rows and commit
    ensures statuses != [] && kind != "" ==>
              var count := |Matching(old(store.db), Wanted(statuses))|;
              match fault
              case NoFault => r.Ok?
              case AtBegin | AtSelect | AtRows | AtCommit => r.Err?
              case AtUpdate | AtPrepare => r.Err? <==> count > 0
              case AtScan(n) => r.Err? <==> n < count
              case AtInsert(n) => r.Err? <==> n < count
    ensures r.Err? ==> store.db == old(store.db)
    ensures r.Ok? ==>
              && IsListing(ids, old(store.db), Wanted(statuses))
              && r.value == |ids| == |Matching(old(store.db), Wanted(statuses))|
              && store.db == Sweep(old(store.db), Wanted(statuses), ids, kind, message)
  {
    ids := [];
    if statuses == [] || kind == "" {
      return Err(Sql), [];
    }
    if fault.AtBegin? || fault.AtSelect? {
      return Err(Sql), [];
    }
    var tx := store.db;
    var wanted := Wanted(statuses);
    var selected := CollectIds(tx, wanted, fault);
    if selected.Err? || fault.AtRows? {
      return Err(Sql), [];
    }
    var found := selected.value;
    if |found| == 0 {
      EmptySweep(tx, wanted, found, kind, message);
      if fault.AtCommit? {
        return Err(Sql), [];
      }
      return Ok(0), found;
    }
    if fault.AtUpdate? {
      return Err(Sql), [];
    }
    tx := tx.(rows := FailRows(tx.rows, wanted));
    if fault.AtPrepare? {
      return Err(Sql), [];
    }
    for i := 0 to |found|
      invariant tx == store.db.(rows := FailRows(store.db.rows, wanted),
                                events := store.db.events + EventsFor(found[..i], kind, message))
      invariant fault.AtInsert? ==> i <= fault.n
    {
      if fault == AtInsert(i) {
        return Err(Sql), [];
      }
      assert EventsFor(found[..i + 1], kind, message)
          == EventsFor(found[..i], kind, message) + [Event(found[i], kind, message)];
      tx := tx.(events := tx.events + [Event(found[i], kind, message)]);
    }
    if fault.AtCommit? {
      return Err(Sql), [];
    }
    assert found[..|found|] == found;
    store.db := tx;
    return Ok(|found|), found;
  }

  method RecoverOrphaned(store: Store, reason: string, fault: Fault) returns (r: Result<nat>, ghost ids: seq<JobId>)
    modifies store
    ensures r.Err? <==> Reached(fault, |Matching(old(store.db), {Running})|)
    ensures r.Err? ==> store.db == old(store.db)
    ensures r.Ok? ==>
              && r.value == |Matching(old(store.db), {Running})|
              && Swept(old(store.db), store.db, {Running}, "orphan_failed",
                       if reason == "" then "orphaned_after_restart" else reason)
    ensures r.Ok? ==>
              && IsListing(ids, old(store.db), ORPHAN_STATUSES)
              && store.db == Sweep(old(store.db), ORPHAN_STATUSES, ids, ORPHAN_FAILED,
                                   if reason == "" then ORPHANED_AFTER_RESTART else reason)
  {
    var why := if reason == "" then ORPHANED_AFTER_RESTART else reason;
    assert Wanted([Running]) == ORPHAN_STATUSES;
    ghost var before := store.db;
    r, ids := FailActive(store, [Running], ORPHAN_FAILED, why, fault);
    if r.Ok? { SweepIsExact(before, ORPHAN_STATUSES, ids, ORPHAN_FAILED, why); }
  }

  method SweepActiveToFailed(store: Store, reason: string, fault: Fault) returns (r: Result<nat>, ghost ids: seq<JobId>)
    modifies store
    ensures r.Err? <==> Reached(fault, |Matching(old(store.db), {Queued, Running})|)
    ensures r.Err? ==> store.db == old(store.db)
    // every row is terminal afterwards, a terminal row is as it was, and each other row has one event
    ensures r.Ok? ==>
              && r.value == |Matching(old(store.db), {Queued, Running})|
              && Swept(old(store.db), store.db, {Queued, Running}, "unpair_failed",
                       if reason == "" then "unpaired" else reason)
              && (forall id :: id in store.db.rows ==> IsTerminal(store.db.rows[id].status))
    ensures r.Ok? ==>
              && IsListing(ids, old(store.db), ACTIVE_STATUSES)
              && store.db == Sweep(old(store.db), ACTIVE_STATUSES, ids, UNPAIR_FAILED,
                                   if reason == "" then UNPAIRED else reason)
  {
    var why := if reason == "" then UNPAIRED else reason;
    assert Wanted([Queued, Running]) == ACTIVE_STATUSES;
    ghost var before := store.db;
    r, ids := FailActive(store, [Queued, Running], UNPAIR_FAILED, why, fault);
    if r.Ok? { SweepIsExact(before, ACTIVE_STATUSES, ids, UNPAIR_FAILED, why); }
  }

  lemma EmptySweep(db: Db, wanted: set<Status>, ids: seq<JobId>, kind: string, message: string)
    requires IsListing(ids, db, wanted) && ids == []
    ensures Sweep(db, wanted, ids, kind, message) == db
  {
    forall id | id in db.rows ensures db.rows[id].status !in wanted {
      assert id in Matching(db, wanted) <==> id in ids;
    }
    assert FailRows(db.rows, wanted) == db.rows;
  }

  /** The events of a listing name each listed job once and no other. */
  lemma {:induction false} EventsForCount(ids: seq<JobId>, id: JobId, kind: string, message: string)
    requires NoDuplicates(ids)
    ensures multiset(EventsFor(ids, kind, message))[Event(id, kind, message)] == if id in ids then 1 else 0
  {
    if |ids| == 0 {
    } else {
      var init := ids[..|ids| - 1];
      var last := ids[|ids| - 1];
      assert ids == init + [last];
      assert EventsFor(ids, kind, message) == EventsFor(init, kind, message) + [Event(last, kind, message)];
      EventsForCount(init, id, kind, message);
    }
  }

  /** Exactly the rows in a wanted status are failed now, there is exactly one new event for each of them, nothing else
      has changed, and no row is in a wanted status any more. */
  ghost predicate Swept(db: Db, db': Db, wanted: set<Status>, kind: string, message: string) {
    && db'.rows.Keys == db.rows.Keys
    && (forall id :: id in db.rows ==>
          db'.rows[id] == if db.rows[id].status in wanted then db.rows[id].(status := Failed) else db.rows[id])
    && (forall id :: id in db'.rows ==> db'.rows[id].status !in wanted)
    && db'.attempts == db.attempts
    && db.events <= db'.events
    && (forall id :: multiset(db'.events)[Event(id, kind, message)]
                  == multiset(db.events)[Event(id, kind, message)]
                     + if id in db.rows && db.rows[id].status in wanted then 1 else 0)
    && |db'.events| == |db.events| + |Matching(db, wanted)|
  }

  /** A committed sweep turns exactly the matching rows to `failed`, adds exactly one event
      for each of them, touches nothing else, and leaves no row matching. */
  lemma SweepIsExact(db: Db, wanted: set<Status>, ids: seq<JobId>, kind: string, message: string)
    requires Failed !in wanted
    requires IsListing(ids, db, wanted)
    ensures var db' := Sweep(db, wanted, ids, kind, message);
            Swept(db, db', wanted, kind, message) && Matching(db', wanted) == {}
    ensures UniqueWorkloads(db) ==> UniqueWorkloads(Sweep(db, wanted, ids, kind, message))
  {
    forall id ensures multiset(EventsFor(ids, kind, message))[Event(id, kind, message)]
                   == if id in Matching(db, wanted) then 1 else 0
    {
      EventsForCount(ids, id, kind, message);
    }
    ListingSize(ids, Matching(db, wanted));
  }

  /** A committed unpair sweep: queued and running rows, and only those, become failed, so that every row is terminal.
      */
  lemma UnpairSweepStopsAll(db: Db, ids: seq<JobId>)
    requires IsListing(ids, db, ACTIVE_STATUSES)
    ensures var db' := Sweep(db, ACTIVE_STATUSES, ids, UNPAIR_FAILED, UNPAIRED);
            && Swept(db, db', {Queued, Running}, "unpair_failed", "unpaired")
            && (forall id :: id in db'.rows ==> IsTerminal(db'.rows[id].status))
  {
    SweepIsExact(db, ACTIVE_STATUSES, ids, UNPAIR_FAILED, UNPAIRED);
  }

  /** A second sweep, whatever it lists, is a no-op. */
  lemma SecondSweepIsNoop(
    db: Db, wanted: set<Status>, ids: seq<JobId>, again: seq<JobId>, kind: string, message: string)
    requires Failed !in wanted
    requires IsListing(ids, db, wanted)
    requires IsListing(again, Sweep(db, wanted, ids, kind, message), wanted)
    ensures again == []
    ensures Sweep(Sweep(db, wanted, ids, kind, message), wanted, again, kind, message)
         == Sweep(db, wanted, ids, kind, message)
  {
    var db' := Sweep(db, wanted, ids, kind, message);
    SweepIsExact(db, wanted, ids, kind, message);
    ListingSize(again, {});
    EmptySweep(db', wanted, again, kind, message);
  }
}
