/** Several attempts at one clip job at the same time, which the takeover branch of the scheduler admits
    (internal/runtime/scheduler.go): each works through the payload with its own completed indices, and all share the
    saved state and the recorded outputs (internal/executors/clipvideo/executor.go). */
module ClipRace {
  import opened Collections
  import opened ClipLoop

  /** Between clips; between record and save; returned nil; cut off. */
  datatype Phase = Looping | Saving | Finished | CutOff

  datatype Worker = Worker(pos: nat, rs: seq<int>, phase: Phase)

  datatype State = State(job: Job, workers: map<nat, Worker>)

  datatype Action =
    | Start(k: nat, loadOk: bool)
    | Skip(k: nat)
    | Record(k: nat)
    | Save(k: nat, ok: bool)
    | Finish(k: nat)
    | Cut(k: nat)

  predicate Enabled(specs: seq<int>, e: State, a: Action) {
    if a.Start? then a.k !in e.workers
    else
      a.k in e.workers &&
      var w := e.workers[a.k];
      match a
      case Start(_, _) => true
      case Skip(_) => w.phase.Looping? && w.pos < |specs| && specs[w.pos] in w.rs
      case Record(_) => w.phase.Looping? && w.pos < |specs| && specs[w.pos] !in w.rs
      case Save(_, _) => w.phase.Saving?
      case Finish(_) => w.phase.Looping? && w.pos == |specs| > 0
      case Cut(_) => true
  }

  function WorkerAfter(specs: seq<int>, e: State, a: Action): Worker
    requires Enabled(specs, e, a)
  {
    match a
    case Start(_, loadOk) => Worker(0, Known(e.job, loadOk), Looping)
    case Skip(k) => e.workers[k].(pos := e.workers[k].pos + 1)
    case Record(k) => e.workers[k].(rs := e.workers[k].rs + [specs[e.workers[k].pos]], phase := Saving)
    case Save(k, _) => e.workers[k].(pos := e.workers[k].pos + 1, phase := Looping)
    case Finish(k) => e.workers[k].(phase := Finished)
    case Cut(k) => e.workers[k].(phase := CutOff)
  }

  function JobAfter(specs: seq<int>, e: State, a: Action): Job
    requires Enabled(specs, e, a)
  {
    match a
    case Record(k) => e.job.(recorded := e.job.recorded + [specs[e.workers[k].pos]])
    case Save(k, ok) => if ok then e.job.(saved := e.workers[k].rs) else e.job
    case _ => e.job
  }

  function Next(specs: seq<int>, e: State, a: Action): State
    requires Enabled(specs, e, a)
  {
    State(JobAfter(specs, e, a), e.workers[a.k := WorkerAfter(specs, e, a)])
  }

  predicate Runnable(specs: seq<int>, e: State, acts: seq<Action>)
    decreases |acts|
  {
    acts == [] || (Enabled(specs, e, acts[0]) && Runnable(specs, Next(specs, e, acts[0]), acts[1..]))
  }

  function Exec(specs: seq<int>, e: State, acts: seq<Action>): State
    requires Runnable(specs, e, acts)
    decreases |acts|
  {
    if acts == [] then e else Exec(specs, Next(specs, e, acts[0]), acts[1..])
  }

  /** A worker knows only recorded indices, and knows every index it has passed. */
  ghost predicate WorkerOk(specs: seq<int>, job: Job, w: Worker) {
    && w.pos <= |specs|
    && (forall x :: x in w.rs ==> x in job.recorded)
    && (forall i :: 0 <= i < w.pos ==> specs[i] in w.rs)
    && (w.phase.Saving? ==> w.pos < |specs| && specs[w.pos] in w.rs)
    && (w.phase.Finished? ==> w.pos == |specs| > 0)
  }

  ghost predicate Inv(specs: seq<int>, e: State) {
    SavedAreRecorded(e.job) && forall k :: k in e.workers ==> WorkerOk(specs, e.job, e.workers[k])
  }

  lemma InvStep(specs: seq<int>, e: State, a: Action)
    requires Inv(specs, e) && Enabled(specs, e, a)
    ensures Inv(specs, Next(specs, e, a))
  {
    var e' := Next(specs, e, a);
    assert a.k in e.workers ==> WorkerOk(specs, e.job, e.workers[a.k]);
    forall k | k in e'.workers ensures WorkerOk(specs, e'.job, e'.workers[k]) {
      if k != a.k { assert WorkerOk(specs, e.job, e.workers[k]); }
    }
  }

  lemma {:induction false} InvAlways(specs: seq<int>, e: State, acts: seq<Action>)
    requires Inv(specs, e) && Runnable(specs, e, acts)
    ensures Inv(specs, Exec(specs, e, acts))
    decreases |acts|
  {
    if acts == [] {
    } else {
      InvStep(specs, e, acts[0]);
      InvAlways(specs, Next(specs, e, acts[0]), acts[1..]);
    }
  }

  /** In every interleaving of any number of attempts, cut off anywhere, with failing loads and saves: saved indices are
      recorded outputs, and once any attempt has returned nil every index of the payload is recorded. */
  lemma {:induction false} InterleavedResumeIsSafe(specs: seq<int>, acts: seq<Action>)
    requires Runnable(specs, State(Job([], []), map[]), acts)
    ensures var e := Exec(specs, State(Job([], []), map[]), acts);
            && SavedAreRecorded(e.job)
            && (forall k :: k in e.workers && e.workers[k].phase.Finished? ==>
                  specs != [] && forall x :: x in specs ==> x in e.job.recorded)
  {
    var e := Exec(specs, State(Job([], []), map[]), acts);
    InvAlways(specs, State(Job([], []), map[]), acts);
    forall k | k in e.workers && e.workers[k].phase.Finished?
      ensures specs != [] && forall x :: x in specs ==> x in e.job.recorded
    {
      assert WorkerOk(specs, e.job, e.workers[k]);
    }
  }

  // ---------- recorded once ----------

  /** The worker has not come to x yet and does not know it: left alone, it will record it. */
  predicate Ahead(specs: seq<int>, w: Worker, x: int) {
    (w.phase.Looping? || w.phase.Saving?) && x !in w.rs && exists i :: w.pos <= i < |specs| && specs[i] == x
  }

  predicate WorkerAhead(specs: seq<int>, e: State, k: nat, x: int) {
    k in e.workers && Ahead(specs, e.workers[k], x)
  }

  /** An index that some worker will come to is recorded already, or another worker will come to it too. */
  ghost predicate ClashOn(specs: seq<int>, e: State, k: nat, x: int) {
    WorkerAhead(specs, e, k, x) && (x in e.job.recorded || exists l :: l != k && WorkerAhead(specs, e, l, x))
  }

  ghost predicate Clash(specs: seq<int>, e: State) {
    exists k, x :: ClashOn(specs, e, k, x)
  }

  predicate NoStart(acts: seq<Action>) {
    forall i :: 0 <= i < |acts| ==> !acts[i].Start?
  }

  // no clash, no repetition

  /** A step puts nobody ahead of an index: who is ahead of x afterwards was so before, and has not just recorded x. */
  lemma AheadStep(specs: seq<int>, e: State, a: Action, k: nat, x: int)
    requires Enabled(specs, e, a) && !a.Start? && WorkerAhead(specs, Next(specs, e, a), k, x)
    ensures WorkerAhead(specs, e, k, x)
    ensures a == Record(k) ==> specs[e.workers[k].pos] != x
  {
  }

  /** Who is about to record x is ahead of x. */
  lemma RecordIsAhead(specs: seq<int>, e: State, k: nat)
    requires Enabled(specs, e, Record(k))
    ensures WorkerAhead(specs, e, k, specs[e.workers[k].pos])
  {
  }

  lemma NoClashStep(specs: seq<int>, e: State, a: Action)
    requires Enabled(specs, e, a) && !a.Start? && !Clash(specs, e) && NoDuplicates(e.job.recorded)
    ensures !Clash(specs, Next(specs, e, a)) && NoDuplicates(Next(specs, e, a).job.recorded)
  {
    var e' := Next(specs, e, a);
    if a.Record? {
      var x := specs[e.workers[a.k].pos];
      RecordIsAhead(specs, e, a.k);
      assert !ClashOn(specs, e, a.k, x);
      AppendDistinct(e.job.recorded, [x]);
    }
    forall k, x ensures !ClashOn(specs, e', k, x) {
      if WorkerAhead(specs, e', k, x) {
        AheadStep(specs, e, a, k, x);
        assert !ClashOn(specs, e, k, x);
        StaysUnrecorded(specs, e, a, k, x);
        forall l | l != k ensures !WorkerAhead(specs, e', l, x) {
          if WorkerAhead(specs, e', l, x) { AheadStep(specs, e, a, l, x); }
        }
      }
    }
  }

  lemma StaysUnrecorded(specs: seq<int>, e: State, a: Action, k: nat, x: int)
    requires Enabled(specs, e, a) && !a.Start? && WorkerAhead(specs, Next(specs, e, a), k, x)
    requires WorkerAhead(specs, e, k, x) && !ClashOn(specs, e, k, x)
    ensures x !in Next(specs, e, a).job.recorded
  {
    AheadStep(specs, e, a, k, x);
    if a.Record? {
      RecordIsAhead(specs, e, a.k);
    }
  }

  lemma {:induction false} NoClashRun(specs: seq<int>, e: State, acts: seq<Action>)
    requires !Clash(specs, e) && NoDuplicates(e.job.recorded) && Runnable(specs, e, acts) && NoStart(acts)
    ensures NoDuplicates(Exec(specs, e, acts).job.recorded)
    decreases |acts|
  {
    if acts == [] {
    } else {
      NoStartTail(acts);
      NoClashStep(specs, e, acts[0]);
      NoClashRun(specs, Next(specs, e, acts[0]), acts[1..]);
    }
  }

  lemma {:induction false} NoStartTail(acts: seq<Action>)
    requires acts != [] && NoStart(acts)
    ensures !acts[0].Start? && NoStart(acts[1..])
  {
    assert forall i :: 0 <= i < |acts[1..]| ==> acts[1..][i] == acts[i + 1];
  }

  // a clash can be driven to a repetition

  lemma {:induction false} RunCons(specs: seq<int>, e: State, a: Action, acts: seq<Action>)
    requires Enabled(specs, e, a) && Runnable(specs, Next(specs, e, a), acts)
    ensures Runnable(specs, e, [a] + acts) && Exec(specs, e, [a] + acts) == Exec(specs, Next(specs, e, a), acts)
    ensures !a.Start? && NoStart(acts) ==> NoStart([a] + acts)
  {
    assert ([a] + acts)[1..] == acts;
  }

  /** The step of worker k that brings it nearer to x. */
  function Onward(specs: seq<int>, e: State, k: nat): Action
    requires k in e.workers
  {
    var w := e.workers[k];
    if w.phase.Saving? then Save(k, true)
    else if w.pos < |specs| && specs[w.pos] in w.rs then Skip(k) else Record(k)
  }

  function Distance(specs: seq<int>, w: Worker): int {
    2 * (|specs| - w.pos) + if w.phase.Looping? then 1 else 0
  }

  lemma OnwardStep(specs: seq<int>, e: State, k: nat, x: int)
    requires WorkerAhead(specs, e, k, x) && WorkerOk(specs, e.job, e.workers[k])
    ensures Enabled(specs, e, Onward(specs, e, k)) && !Onward(specs, e, k).Start?
    ensures var e' := Next(specs, e, Onward(specs, e, k));
            && (|| x in e'.job.recorded[|e.job.recorded|..]
                || (&& WorkerAhead(specs, e', k, x)
                    && 0 <= Distance(specs, e'.workers[k]) < Distance(specs, e.workers[k])))
            && e.job.recorded <= e'.job.recorded && e'.workers - {k} == e.workers - {k}
  {
    var w := e.workers[k];
    var i :| w.pos <= i < |specs| && specs[i] == x;
    assert w.phase.Saving? ==> specs[w.pos] in w.rs && i != w.pos;
  }

  /** Worker k alone runs until it has recorded x. */
  lemma {:induction false} RunUntilRecorded(specs: seq<int>, e: State, k: nat, x: int) returns (acts: seq<Action>)
    requires Inv(specs, e) && WorkerAhead(specs, e, k, x)
    ensures Runnable(specs, e, acts) && NoStart(acts) && Inv(specs, Exec(specs, e, acts))
    ensures var e' := Exec(specs, e, acts);
            && e.job.recorded <= e'.job.recorded && x in e'.job.recorded[|e.job.recorded|..]
            && e'.workers - {k} == e.workers - {k}
    decreases Distance(specs, e.workers[k])
  {
    var a := Onward(specs, e, k);
    assert WorkerOk(specs, e.job, e.workers[k]);
    OnwardStep(specs, e, k, x);
    var e' := Next(specs, e, a);
    InvStep(specs, e, a);
    acts := [];
    if x !in e'.job.recorded[|e.job.recorded|..] {
      acts := RunUntilRecorded(specs, e', k, x);
      LaterIsSuffix(e.job.recorded, e'.job.recorded, Exec(specs, e', acts).job.recorded, x);
    }
    RunCons(specs, e, a, acts);
    acts := [a] + acts;
  }

  lemma LaterIsSuffix(a: seq<int>, b: seq<int>, c: seq<int>, x: int)
    requires a <= b <= c && x in c[|b|..]
    ensures x in c[|a|..]
  {
    var j :| 0 <= j < |c[|b|..]| && c[|b|..][j] == x;
    assert c[|a|..][|b| - |a| + j] == x;
  }

  lemma RecordedTwice(a: seq<int>, c: seq<int>, x: int)
    requires a <= c && x in a && x in c[|a|..]
    ensures !NoDuplicates(c)
  {
    assert c == a + c[|a|..];
    AppendDistinct(a, c[|a|..]);
  }

  lemma {:induction false} RunAppend(specs: seq<int>, e: State, acts: seq<Action>, more: seq<Action>)
    requires Runnable(specs, e, acts) && Runnable(specs, Exec(specs, e, acts), more) && NoStart(acts) && NoStart(more)
    ensures Runnable(specs, e, acts + more) && NoStart(acts + more)
    ensures Exec(specs, e, acts + more) == Exec(specs, Exec(specs, e, acts), more)
    decreases |acts|
  {
    if acts == [] {
      assert acts + more == more;
    } else {
      NoStartTail(acts);
      RunAppend(specs, Next(specs, e, acts[0]), acts[1..], more);
      RunCons(specs, e, acts[0], acts[1..] + more);
      assert [acts[0]] + (acts[1..] + more) == acts + more;
    }
  }

  /** The worker comes to an index that is recorded already. */
  lemma {:induction false} RepeatsRecorded(specs: seq<int>, e: State, k: nat, x: int) returns (acts: seq<Action>)
    requires Inv(specs, e) && WorkerAhead(specs, e, k, x) && x in e.job.recorded
    ensures Runnable(specs, e, acts) && NoStart(acts) && !NoDuplicates(Exec(specs, e, acts).job.recorded)
  {
    acts := RunUntilRecorded(specs, e, k, x);
    RecordedTwice(e.job.recorded, Exec(specs, e, acts).job.recorded, x);
  }

  lemma {:induction false} ClashRepeats(specs: seq<int>, e: State, k: nat, x: int) returns (acts: seq<Action>)
    requires Inv(specs, e) && ClashOn(specs, e, k, x)
    ensures Runnable(specs, e, acts) && NoStart(acts) && !NoDuplicates(Exec(specs, e, acts).job.recorded)
  {
    if x in e.job.recorded {
      acts := RepeatsRecorded(specs, e, k, x);
    } else {
      var l :| l != k && WorkerAhead(specs, e, l, x);
      var first := RunUntilRecorded(specs, e, k, x);
      var e' := Exec(specs, e, first);
      assert l in e.workers - {k} && (e.workers - {k})[l] == e.workers[l] && (e'.workers - {k})[l] == e'.workers[l];
      var second := RepeatsRecorded(specs, e', l, x);
      RunAppend(specs, e, first, second);
      acts := first + second;
    }
  }

  /** From any state the invariant admits: until another attempt starts, no output is ever recorded twice, however the
      attempts under way interleave and wherever they are cut, if and only if they do not clash: no worker has an index
      ahead that is recorded already, and no two have the same index ahead. */
  lemma {:induction false} RecordedOnceIffNoClash(specs: seq<int>, e: State)
    requires Inv(specs, e) && NoDuplicates(e.job.recorded)
    ensures !Clash(specs, e) <==>
              forall acts :: Runnable(specs, e, acts) && NoStart(acts) ==>
                               NoDuplicates(Exec(specs, e, acts).job.recorded)
  {
    if Clash(specs, e) {
      var k, x :| ClashOn(specs, e, k, x);
      var acts := ClashRepeats(specs, e, k, x);
    } else {
      forall acts | Runnable(specs, e, acts) && NoStart(acts)
        ensures NoDuplicates(Exec(specs, e, acts).job.recorded)
      {
        NoClashRun(specs, e, acts);
      }
    }
  }

  /** When a new attempt is safe: every index of the payload is one it loads as known, or is neither recorded nor still
      ahead of another attempt. */
  ghost predicate SafeToStart(specs: seq<int>, e: State, loadOk: bool) {
    forall x :: x in specs ==>
      x in Known(e.job, loadOk) || (x !in e.job.recorded && forall l :: !WorkerAhead(specs, e, l, x))
  }

  /** Starting an attempt creates a clash exactly when it is not safe. */
  lemma StartClashesIff(specs: seq<int>, e: State, k: nat, loadOk: bool)
    requires k !in e.workers && !Clash(specs, e)
    ensures SafeToStart(specs, e, loadOk) <==> !Clash(specs, Next(specs, e, Start(k, loadOk)))
  {
    var e' := Next(specs, e, Start(k, loadOk));
    forall l, x ensures WorkerAhead(specs, e', l, x) <==>
        if l == k then x in specs && x !in Known(e.job, loadOk) else WorkerAhead(specs, e, l, x)
    {
    }
    if SafeToStart(specs, e, loadOk) {
      forall l, x ensures !ClashOn(specs, e', l, x) {
        assert !ClashOn(specs, e, l, x);
      }
    } else {
      var x :| x in specs && x !in Known(e.job, loadOk)
               && (x in e.job.recorded || exists l :: WorkerAhead(specs, e, l, x));
      assert ClashOn(specs, e', k, x);
    }
  }

  // ---------- one attempt alone ----------

  predicate OnlyWorker(acts: seq<Action>, k: nat) {
    forall i :: 0 <= i < |acts| ==> acts[i].k == k && !acts[i].Start?
  }

  lemma {:induction false} SoloCons(specs: seq<int>, e: State, a: Action, acts: seq<Action>)
    requires Enabled(specs, e, a) && Runnable(specs, Next(specs, e, a), acts) && !a.Start? && OnlyWorker(acts, a.k)
    ensures Runnable(specs, e, [a] + acts) && OnlyWorker([a] + acts, a.k)
    ensures Exec(specs, e, [a] + acts) == Exec(specs, Next(specs, e, a), acts)
  {
    RunCons(specs, e, a, acts);
  }

  lemma {:induction false} SoloStop(specs: seq<int>, e: State, a: Action)
    requires Enabled(specs, e, a) && !a.Start?
    ensures Runnable(specs, e, [a]) && OnlyWorker([a], a.k) && Exec(specs, e, [a]) == Next(specs, e, a)
  {
    assert [a][1..] == [] && Runnable(specs, Next(specs, e, a), []);
    assert Exec(specs, Next(specs, e, a), []) == Next(specs, e, a);
  }

  /** Worker k, left alone at a position, does what the loop of one attempt does from there. */
  lemma {:induction false} SoloFrom(specs: seq<int>, fates: seq<Fate>, e: State, k: nat) returns (acts: seq<Action>)
    requires |fates| == |specs| > 0 && k in e.workers && e.workers[k].phase.Looping? && e.workers[k].pos <= |specs|
    ensures Runnable(specs, e, acts) && OnlyWorker(acts, k)
    ensures var o := From(specs, fates, e.workers[k].pos, e.job, e.workers[k].rs); var e' := Exec(specs, e, acts);
            && e'.job == o.job && k in e'.workers
            && (if o.ok then e'.workers[k].phase.Finished? else e'.workers[k].phase.CutOff?)
    decreases |specs| - e.workers[k].pos
  {
    var w := e.workers[k];
    if w.pos == |specs| {
      acts := [Finish(k)];
      SoloStop(specs, e, Finish(k));
    } else if fates[w.pos].Cancelled? || (specs[w.pos] !in w.rs && fates[w.pos].Breaks?) {
      acts := [Cut(k)];
      SoloStop(specs, e, Cut(k));
    } else if specs[w.pos] in w.rs {
      acts := SoloFrom(specs, fates, Next(specs, e, Skip(k)), k);
      SoloCons(specs, e, Skip(k), acts);
      acts := [Skip(k)] + acts;
    } else {
      var e1 := Next(specs, e, Record(k));
      if fates[w.pos].RecordedThenBreaks? {
        acts := [Cut(k)];
        SoloStop(specs, e1, Cut(k));
      } else {
        var save := Save(k, fates[w.pos].saveOk);
        var e2 := Next(specs, e1, save);
        assert e2.job == Recorded(e.job, w.rs + [specs[w.pos]], specs[w.pos], fates[w.pos].saveOk);
        acts := SoloFrom(specs, fates, e2, k);
        SoloCons(specs, e1, save, acts);
        acts := [save] + acts;
      }
      SoloCons(specs, e, Record(k), acts);
      acts := [Record(k)] + acts;
    }
  }

  /** An attempt alone is the attempt of the resumable loop: same saved and recorded state, finished exactly if it
      returns nil. */
  lemma {:induction false} SoloIsAttempt(specs: seq<int>, e: State, k: nat, t: Try) returns (acts: seq<Action>)
    requires specs != [] && |t.fates| == |specs| && k !in e.workers
    ensures Enabled(specs, e, Start(k, t.loadOk)) && Runnable(specs, Next(specs, e, Start(k, t.loadOk)), acts)
    ensures OnlyWorker(acts, k)
    ensures var e' := Exec(specs, Next(specs, e, Start(k, t.loadOk)), acts);
            var o := ClipLoop.Attempt(specs, e.job, t.loadOk, t.fates);
            && e'.job == o.job && k in e'.workers
            && (if o.ok then e'.workers[k].phase.Finished? else e'.workers[k].phase.CutOff?)
  {
    acts := SoloFrom(specs, t.fates, Next(specs, e, Start(k, t.loadOk)), k);
  }

  // ---------- safe starts ----------

  /** Every attempt of the run starts when that is safe. */
  ghost predicate SafeStarts(specs: seq<int>, e: State, acts: seq<Action>)
    requires Runnable(specs, e, acts)
    decreases |acts|
  {
    acts == [] ||
    (&& (acts[0].Start? ==> SafeToStart(specs, e, acts[0].loadOk))
     && SafeStarts(specs, Next(specs, e, acts[0]), acts[1..]))
  }

  /** Over whole runs with any number of attempts: if each starts when that is safe, no output is recorded twice. */
  lemma {:induction false} SafeStartsRecordOnce(specs: seq<int>, e: State, acts: seq<Action>)
    requires !Clash(specs, e) && NoDuplicates(e.job.recorded) && Runnable(specs, e, acts) && SafeStarts(specs, e, acts)
    ensures !Clash(specs, Exec(specs, e, acts)) && NoDuplicates(Exec(specs, e, acts).job.recorded)
    decreases |acts|
  {
    if acts == [] {
    } else {
      var a := acts[0];
      if a.Start? { StartClashesIff(specs, e, a.k, a.loadOk); } else { NoClashStep(specs, e, a); }
      SafeStartsRecordOnce(specs, Next(specs, e, a), acts[1..]);
    }
  }

  /** Two overlapping attempts record an output twice although every load and save succeeds and neither is cut. */
  lemma {:induction false} OverlapRecordsTwice(x: int) returns (acts: seq<Action>)
    ensures Runnable([x], State(Job([], []), map[]), acts)
    ensures forall i :: 0 <= i < |acts| ==>
              !acts[i].Cut? && (acts[i].Start? ==> acts[i].loadOk) && (acts[i].Save? ==> acts[i].ok)
    ensures Exec([x], State(Job([], []), map[]), acts).job == Job([x], [x, x])
  {
    var e0 := State(Job([], []), map[]);
    var e1 := Next([x], e0, Start(0, true));
    var e2 := Next([x], e1, Start(1, true));
    var e3 := Next([x], e2, Record(0));
    var e4 := Next([x], e3, Save(0, true));
    var e5 := Next([x], e4, Record(1));
    var e6 := Next([x], e5, Save(1, true));
    assert Runnable([x], e6, []) && Exec([x], e6, []) == e6;
    RunCons([x], e5, Save(1, true), []);
    RunCons([x], e4, Record(1), [Save(1, true)] + []);
    RunCons([x], e3, Save(0, true), [Record(1)] + ([Save(1, true)] + []));
    RunCons([x], e2, Record(0), [Save(0, true)] + ([Record(1)] + ([Save(1, true)] + [])));
    RunCons([x], e1, Start(1, true), [Record(0)] + ([Save(0, true)] + ([Record(1)] + ([Save(1, true)] + []))));
    acts := [Start(1, true)] + ([Record(0)] + ([Save(0, true)] + ([Record(1)] + ([Save(1, true)] + []))));
    RunCons([x], e0, Start(0, true), acts);
    acts := [Start(0, true)] + acts;
  }
}
