/** The local job database and the single-statement operations of the store
    (internal/jobqueue/store.go).  Rows are keyed by job id; `workload_id` is UNIQUE. */
module JobQueue {
  import opened Collections

  type JobId = nat
  type WorkloadId = nat
  type LeaseToken = nat

  datatype Status = Queued | Running | Succeeded | Failed | Abandoned | Cancelled

  datatype Job = Job(workload: WorkloadId, status: Status, lease: LeaseToken)

  datatype Event = Event(job: JobId, kind: string, message: string)

  /** `outcome` is None until FinishAttempt records whether the attempt succeeded. */
  datatype Attempt = Attempt(job: JobId, num: nat, outcome: Option<bool>)

  /** Attempt ids are positions counted from one, as AUTOINCREMENT hands them out. */
  datatype Db = Db(rows: map<JobId, Job>, events: seq<Event>, attempts: seq<Attempt>)

  predicate IsTerminal(s: Status) {
    s.Succeeded? || s.Failed? || s.Abandoned? || s.Cancelled?
  }

  /** No row but `id` differs. */
  ghost predicate RowChanges(db: Db, db': Db, id: JobId) {
    db'.rows - {id} == db.rows - {id}
  }

  /** The UNIQUE constraint on workload_id. */
  ghost predicate UniqueWorkloads(db: Db) {
    forall i, j :: i in db.rows && j in db.rows && db.rows[i].workload == db.rows[j].workload ==> i == j
  }

  ghost predicate HasWorkload(db: Db, w: WorkloadId) {
    exists id :: id in db.rows && db.rows[id].workload == w
  }

  /** What the PRIMARY KEY and UNIQUE constraints ask of an INSERT. */
  ghost predicate CanInsert(db: Db, id: JobId, w: WorkloadId) {
    id !in db.rows && !HasWorkload(db, w)
  }

  function SetStatus(db: Db, id: JobId, s: Status): Db {
    if id in db.rows then db.(rows := db.rows[id := db.rows[id].(status := s)]) else db
  }

  function SetLease(db: Db, id: JobId, lease: LeaseToken): Db {
    if id in db.rows then db.(rows := db.rows[id := db.rows[id].(lease := lease)]) else db
  }

  function InsertJob(db: Db, id: JobId, w: WorkloadId, lease: LeaseToken): Db {
    db.(rows := db.rows[id := Job(w, Queued, lease)])
  }

  function CancelJob(db: Db, id: JobId): Db {
    if id in db.rows && !IsTerminal(db.rows[id].status) then SetStatus(db, id, Cancelled) else db
  }

  function AttemptsOf(db: Db, id: JobId): nat {
    Count(db.attempts, (a: Attempt) => a.job == id)
  }

  /** The attempt rows of a job. */
  function AttemptRows(db: Db, id: JobId): set<nat> {
    set i: nat | i < |db.attempts| && db.attempts[i].job == id
  }

  lemma AttemptsAreRows(db: Db, id: JobId)
    ensures AttemptsOf(db, id) == |AttemptRows(db, id)|
  {
    var p := (a: Attempt) => a.job == id;
    CountIsSize(db.attempts, p);
    assert Positions(db.attempts, p) == AttemptRows(db, id);
  }

  function OpenAttempt(db: Db, id: JobId, num: nat): Db {
    db.(attempts := db.attempts + [Attempt(id, num, None)])
  }

  function CloseAttempt(db: Db, attempt: nat, ok: bool): Db {
    if 1 <= attempt <= |db.attempts|
    then db.(attempts := db.attempts[attempt - 1 := db.attempts[attempt - 1].(outcome := Some(ok))])
    else db
  }

  datatype StoreError = NotFound | JobTerminal | Sql

  datatype Result<+T> = Ok(value: T) | Err(error: StoreError)

  /** The store: each method holds the write mutex for its whole body, so it is one
      atomic step.  The boolean parameters say whether the SQL statements succeed. */
  class Store {
    var db: Db

    constructor (db: Db)
      ensures this.db == db
    {
      this.db := db;
    }

    method Cancel(id: JobId, readOk: bool, writeOk: bool) returns (r: Result<()>)
      modifies this
      ensures r.Ok? <==> readOk && writeOk && id in old(db).rows && !IsTerminal(old(db).rows[id].status)
      ensures r.Ok? ==> old(db).rows[id].status in {Queued, Running}
      ensures r.Ok? ==> db == CancelJob(old(db), id) == old(db).(rows := db.rows) && RowChanges(old(db), db, id)
      ensures r.Ok? ==> db.rows[id] == old(db).rows[id].(status := Cancelled)
      ensures r.Err? ==> db == old(db)
      ensures r == Err(NotFound) <==> readOk && id !in old(db).rows
      ensures r == Err(JobTerminal) <==> readOk && id in old(db).rows && IsTerminal(old(db).rows[id].status)
      ensures r == Err(JobTerminal) ==> old(db).rows[id].status in {Succeeded, Failed, Abandoned, Cancelled}
    {
      if !readOk {
        return Err(Sql);
      }
      if id !in db.rows {
        return Err(NotFound);
      }
      var status := db.rows[id].status;
      if IsTerminal(status) {
        return Err(JobTerminal);
      }
      if !writeOk {
        return Err(Sql);
      }
      db := db.(rows := db.rows[id := db.rows[id].(status := Cancelled)]);
      return Ok(());
    }

    method CreateJob(id: JobId, w: WorkloadId, lease: LeaseToken, writeOk: bool) returns (r: Result<()>)
      modifies this
      ensures r.Ok? <==> writeOk && CanInsert(old(db), id, w)
      ensures r.Ok? ==> db == InsertJob(old(db), id, w, lease) == old(db).(rows := db.rows)
      ensures r.Ok? ==> RowChanges(old(db), db, id) && id in db.rows && db.rows[id] == Job(w, Queued, lease)
      ensures r.Err? ==> db == old(db)
      ensures old(UniqueWorkloads(db)) ==> UniqueWorkloads(db)
    {
      var holder := Find(w);
      if !writeOk || id in db.rows || holder.Some? {
        return Err(Sql);
      }
      db := db.(rows := db.rows[id := Job(w, Queued, lease)]);
      return Ok(());
    }

    /** The scan behind `WHERE workload_id = ?`. */
    method Find(w: WorkloadId) returns (found: Option<JobId>)
      ensures found.Some? ==> found.value in db.rows && db.rows[found.value].workload == w
      ensures found.None? ==> !HasWorkload(db, w)
    {
      var unseen := db.rows.Keys;
      while unseen != {}
        invariant unseen <= db.rows.Keys
        invariant forall id :: id in db.rows && id !in unseen ==> db.rows[id].workload != w
        decreases unseen
      {
        var id :| id in unseen;
        if db.rows[id].workload == w {
          return Some(id);
        }
        unseen := unseen - {id};
      }
      return None;
    }

    method GetByWorkloadId(w: WorkloadId, readOk: bool) returns (r: Result<JobId>)
      ensures r.Ok? <==> readOk && HasWorkload(db, w)
      ensures r.Ok? ==> r.value in db.rows && db.rows[r.value].workload == w
      ensures r.Ok? && UniqueWorkloads(db) ==>
                forall id :: id in db.rows && db.rows[id].workload == w ==> id == r.value
      ensures r == Err(NotFound) <==> readOk && !HasWorkload(db, w)
    {
      if !readOk {
        return Err(Sql);
      }
      var found := Find(w);
      if found.None? {
        return Err(NotFound);
      }
      assert HasWorkload(db, w);
      return Ok(found.value);
    }

    /** Unguarded: any status may be replaced by any other. */
    method UpdateStatus(id: JobId, s: Status, writeOk: bool) returns (r: Result<()>)
      modifies this
      ensures r.Ok? <==> writeOk
      ensures db == if writeOk then SetStatus(old(db), id, s) else old(db)
      ensures db == old(db).(rows := db.rows) && RowChanges(old(db), db, id) && (id in db.rows <==> id in old(db).rows)
      ensures writeOk && id in db.rows ==> db.rows[id] == old(db).rows[id].(status := s)
    {
      if !writeOk {
        return Err(Sql);
      }
      if id in db.rows {
        db := db.(rows := db.rows[id := db.rows[id].(status := s)]);
      }
      return Ok(());
    }

    method UpdateLease(id: JobId, lease: LeaseToken, writeOk: bool) returns (r: Result<()>)
      modifies this
      ensures r.Ok? <==> writeOk
      ensures db == if writeOk then SetLease(old(db), id, lease) else old(db)
      ensures db == old(db).(rows := db.rows) && RowChanges(old(db), db, id) && (id in db.rows <==> id in old(db).rows)
      ensures writeOk && id in db.rows ==> db.rows[id] == old(db).rows[id].(lease := lease)
    {
      if !writeOk {
        return Err(Sql);
      }
      if id in db.rows {
        db := db.(rows := db.rows[id := db.rows[id].(lease := lease)]);
      }
      return Ok(());
    }

    method StartAttempt(id: JobId, num: nat, writeOk: bool) returns (r: Result<nat>)
      modifies this
      ensures r.Ok? <==> writeOk && id in old(db).rows
      ensures r.Ok? ==> db == OpenAttempt(old(db), id, num) && r.value == |db.attempts|
      ensures r.Ok? ==> db == old(db).(attempts := old(db).attempts + [Attempt(id, num, None)])
      ensures r.Err? ==> db == old(db)
    {
      if !writeOk || id !in db.rows {
        return Err(Sql);
      }
      db := db.(attempts := db.attempts + [Attempt(id, num, None)]);
      return Ok(|db.attempts|);
    }

    method FinishAttempt(attempt: nat, ok: bool, writeOk: bool) returns (r: Result<()>)
      modifies this
      ensures r.Ok? <==> writeOk
      ensures db == if writeOk then CloseAttempt(old(db), attempt, ok) else old(db)
      ensures db == old(db).(attempts := db.attempts) && |db.attempts| == |old(db).attempts|
      ensures forall i :: 0 <= i < |db.attempts| ==>
                db.attempts[i] == if writeOk && i + 1 == attempt then old(db).attempts[i].(outcome := Some(ok))
                                  else old(db).attempts[i]
    {
      if !writeOk {
        return Err(Sql);
      }
      if 1 <= attempt <= |db.attempts| {
        var row := db.attempts[attempt - 1];
        db := db.(attempts := db.attempts[attempt - 1 := row.(outcome := Some(ok))]);
      }
      return Ok(());
    }

    method AttemptCount(id: JobId, readOk: bool) returns (r: Result<nat>)
      ensures r.Ok? <==> readOk
      ensures r.Ok? ==> r.value == AttemptsOf(db, id)
      ensures r.Ok? ==> r.value == |AttemptRows(db, id)|
    {
      AttemptsAreRows(db, id);
      if !readOk {
        return Err(Sql);
      }
      var n := 0;
      for i := 0 to |db.attempts|
        invariant n == Count(db.attempts[..i], (a: Attempt) => a.job == id)
      {
        CountSnoc(db.attempts[..i], db.attempts[i], (a: Attempt) => a.job == id);
        assert db.attempts[..i + 1] == db.attempts[..i] + [db.attempts[i]];
        if db.attempts[i].job == id {
          n := n + 1;
        }
      }
      assert db.attempts[..|db.attempts|] == db.attempts;
      return Ok(n);
    }
  }
}
