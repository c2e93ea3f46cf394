/** The resumable clip loop (internal/executors/clipvideo/executor.go) over the job handle's ordered effects
    (internal/runtime/jobhandle.go): record the output with the cloud, then save the completed indices. */
module ClipLoop {
  import opened Collections

  /** What happens at one position of the payload, when its turn comes. */
  datatype Fate =
    | Cancelled                 // the context is done
    | Breaks                    // the attempt fails or dies before the output is recorded
    | RecordedThenBreaks        // the output is recorded, then the attempt fails or dies before the save
    | Completes(saveOk: bool)   // recorded; the save may fail, and its error is ignored

  /** The saved resumable state and the outputs recorded with the cloud, oldest first. */
  datatype Job = Job(saved: seq<int>, recorded: seq<int>)

  /** `pushed` are the progress numerators, i + 1 of each clip completed in this attempt. */
  datatype Outcome = Outcome(job: Job, ok: bool, pushed: seq<nat>)

  /** The loop from position i on, `rs` being the completed indices known to this attempt. */
  function From(specs: seq<int>, fates: seq<Fate>, i: nat, job: Job, rs: seq<int>): Outcome
    requires |fates| == |specs| && i <= |specs|
    decreases |specs| - i
  {
    if i == |specs| then Outcome(job, true, [])
    else if fates[i].Cancelled? then Outcome(job, false, [])
    else if specs[i] in rs then From(specs, fates, i + 1, job, rs)
    else
      match fates[i]
      case Breaks => Outcome(job, false, [])
      case RecordedThenBreaks => Outcome(job.(recorded := job.recorded + [specs[i]]), false, [])
      case Completes(saveOk) =>
        var rs' := rs + [specs[i]];
        var rest := From(specs, fates, i + 1, Recorded(job, rs', specs[i], saveOk), rs');
        Before([i + 1], rest)
  }

  /** The outcome with earlier progress put in front. */
  function Before(pushed: seq<nat>, o: Outcome): Outcome {
    o.(pushed := pushed + o.pushed)
  }

  lemma BeforeBefore(p: seq<nat>, q: seq<nat>, o: Outcome)
    ensures Before(p, Before(q, o)) == Before(p + q, o)
    ensures Before([], o) == o
  {
    assert p + (q + o.pushed) == p + q + o.pushed && [] + o.pushed == o.pushed;
  }

  function Recorded(job: Job, rs: seq<int>, index: int, saveOk: bool): Job {
    Job(if saveOk then rs else job.saved, job.recorded + [index])
  }

  /** One attempt: a payload without clips is an error, a failed load starts from nothing. */
  function Attempt(specs: seq<int>, job: Job, loadOk: bool, fates: seq<Fate>): Outcome
    requires |fates| == |specs|
  {
    if specs == [] then Outcome(job, false, [])
    else From(specs, fates, 0, job, if loadOk then job.saved else [])
  }

  class JobHandle {
    var saved: seq<int>
    var recorded: seq<int>

    constructor ()
      ensures View() == Job([], [])
    {
      saved, recorded := [], [];
    }

    function View(): Job
      reads this
    {
      Job(saved, recorded)
    }

    method Execute(specs: seq<int>, loadOk: bool, fates: seq<Fate>) returns (ok: bool, pushed: seq<nat>)
      requires |fates| == |specs|
      modifies this
      ensures Outcome(View(), ok, pushed) == Attempt(specs, old(View()), loadOk, fates)
    {
      pushed := [];
      if |specs| == 0 {
        return false, pushed;
      }
      var completed: seq<int> := if loadOk then saved else [];
      ghost var promised := Attempt(specs, View(), loadOk, fates);
      for i := 0 to |specs|
        invariant promised == Before(pushed, From(specs, fates, i, View(), completed))
      {
        var goes, progress;
        goes, completed, progress := RunClip(specs, fates, i, completed);
        if !goes {
          BeforeBefore(pushed, [], Outcome(View(), false, []));
          return false, pushed;
        }
        BeforeBefore(pushed, progress, From(specs, fates, i + 1, View(), completed));
        pushed := pushed + progress;
      }
      BeforeBefore(pushed, [], Outcome(View(), true, []));
      return true, pushed;
    }

    /** The body of the loop: whether it goes on, the completed indices afterwards, and the progress it pushes. */
    method RunClip(specs: seq<int>, fates: seq<Fate>, i: nat, completed: seq<int>)
      returns (goes: bool, now: seq<int>, progress: seq<nat>)
      requires |fates| == |specs| && i < |specs|
      modifies this
      ensures From(specs, fates, i, old(View()), completed)
           == if goes then Before(progress, From(specs, fates, i + 1, View(), now)) else Outcome(View(), false, [])
    {
      now, progress := completed, [];
      if fates[i].Cancelled? {
        return false, now, progress;
      }
      if specs[i] in completed {
        BeforeBefore([], [], From(specs, fates, i + 1, View(), completed));
        return true, now, progress;
      }
      if fates[i].Breaks? {
        return false, now, progress;
      }
      recorded := recorded + [specs[i]];
      if fates[i].RecordedThenBreaks? {
        return false, now, progress;
      }
      now := completed + [specs[i]];
      if fates[i].saveOk {
        saved := now;
      }
      return true, now, [i + 1];
    }
  }

  // ---------- across attempts ----------

  /** Everything saved has been recorded. */
  ghost predicate SavedAreRecorded(job: Job) {
    forall x :: x in job.saved ==> x in job.recorded
  }

  lemma {:induction false} FromKeeps(specs: seq<int>, fates: seq<Fate>, i: nat, job: Job, rs: seq<int>)
    requires |fates| == |specs| && i <= |specs|
    requires SavedAreRecorded(job) && forall x :: x in rs ==> x in job.recorded
    ensures var o := From(specs, fates, i, job, rs);
            && SavedAreRecorded(o.job)
            && (forall x :: x in job.recorded ==> x in o.job.recorded)
            && (o.ok ==> forall k :: i <= k < |specs| ==> specs[k] in o.job.recorded)
    decreases |specs| - i
  {
    if i == |specs| || fates[i].Cancelled? {
    } else {
      if specs[i] in rs {
        FromKeeps(specs, fates, i + 1, job, rs);
      } else if fates[i].Completes? {
        var rs' := rs + [specs[i]];
        var job' := Recorded(job, rs', specs[i], fates[i].saveOk);
        assert specs[i] in job'.recorded;
        FromKeeps(specs, fates, i + 1, job', rs');
      }
    }
  }

  datatype Try = Try(loadOk: bool, fates: seq<Fate>)

  predicate Fitting(specs: seq<int>, tries: seq<Try>) {
    forall t :: 0 <= t < |tries| ==> |tries[t].fates| == |specs|
  }

  /** The job after a sequence of attempts at the same payload. */
  function AfterAll(specs: seq<int>, job: Job, tries: seq<Try>): Job
    requires Fitting(specs, tries)
    decreases |tries|
  {
    if tries == [] then job
    else AfterAll(specs, Attempt(specs, job, tries[0].loadOk, tries[0].fates).job, tries[1..])
  }

  /** Over any sequence of attempts cut off anywhere, the saved indices are recorded outputs; and an attempt that then
      succeeds leaves every index of the payload recorded. */
  lemma {:induction false} ResumeIsSafe(specs: seq<int>, job: Job, tries: seq<Try>, last: Try)
    requires SavedAreRecorded(job) && Fitting(specs, tries) && |last.fates| == |specs|
    ensures SavedAreRecorded(AfterAll(specs, job, tries))
    ensures var o := Attempt(specs, AfterAll(specs, job, tries), last.loadOk, last.fates);
            o.ok ==> specs != [] && forall x :: x in specs ==> x in o.job.recorded
    decreases |tries|
  {
    if tries == [] {
      FromKeeps(specs, last.fates, 0, job, if last.loadOk then job.saved else []);
    } else {
      var t := tries[0];
      FromKeeps(specs, t.fates, 0, job, if t.loadOk then job.saved else []);
      ResumeIsSafe(specs, Attempt(specs, job, t.loadOk, t.fates).job, tries[1..], last);
    }
  }

  /** Loads and saves succeed and no cut falls between record and save. */
  predicate Clean(t: Try) {
    && t.loadOk
    && (forall k :: 0 <= k < |t.fates| ==>
          !t.fates[k].RecordedThenBreaks? && (t.fates[k].Completes? ==> t.fates[k].saveOk))
  }

  /** Saved and recorded agree, and nothing was recorded twice. */
  ghost predicate InStep(job: Job) {
    job.saved == job.recorded && NoDuplicates(job.recorded)
  }

  lemma {:induction false} CleanFrom(specs: seq<int>, fates: seq<Fate>, i: nat, job: Job)
    requires |fates| == |specs| && i <= |specs| && Clean(Try(true, fates)) && InStep(job)
    ensures var o := From(specs, fates, i, job, job.saved);
            && InStep(o.job)
            && (forall x :: x in o.job.recorded ==> x in job.recorded || x in specs)
    decreases |specs| - i
  {
    if i == |specs| || fates[i].Cancelled? {
    } else {
      if specs[i] in job.saved {
        CleanFrom(specs, fates, i + 1, job);
      } else if fates[i].Completes? {
        var rs' := job.saved + [specs[i]];
        CleanFrom(specs, fates, i + 1, Recorded(job, rs', specs[i], true));
      }
    }
  }

  lemma {:induction false} CleanAll(specs: seq<int>, job: Job, tries: seq<Try>)
    requires Fitting(specs, tries) && InStep(job) && forall t :: 0 <= t < |tries| ==> Clean(tries[t])
    ensures InStep(AfterAll(specs, job, tries))
    ensures forall x :: x in AfterAll(specs, job, tries).recorded ==> x in job.recorded || x in specs
    decreases |tries|
  {
    if tries == [] {
    } else {
      CleanFrom(specs, tries[0].fates, 0, job);
      CleanAll(specs, Attempt(specs, job, true, tries[0].fates).job, tries[1..]);
    }
  }

  /** From a fresh job, over any number of clean attempts ending in a success, every distinct index of the payload is
      recorded exactly once in total and nothing else is. */
  lemma {:induction false} CleanResumeRecordsOnce(specs: seq<int>, tries: seq<Try>, last: Try)
    requires Fitting(specs, tries) && |last.fates| == |specs|
    requires Clean(last) && forall t :: 0 <= t < |tries| ==> Clean(tries[t])
    requires Attempt(specs, AfterAll(specs, Job([], []), tries), true, last.fates).ok
    ensures var job := Attempt(specs, AfterAll(specs, Job([], []), tries), true, last.fates).job;
            NoDuplicates(job.recorded) && forall x :: x in job.recorded <==> x in specs
  {
    CleanAll(specs, Job([], []), tries);
    CleanFrom(specs, last.fates, 0, AfterAll(specs, Job([], []), tries));
    ResumeIsSafe(specs, Job([], []), tries, last);
  }

  // ---------- when an index is recorded twice ----------

  /** The completed indices an attempt starts from. */
  function Known(job: Job, loadOk: bool): seq<int> {
    if loadOk then job.saved else []
  }

  /** The loop gets past position q: not cancelled there, and the index is known, was completed at an earlier position
      or is completed now. */
  predicate Passes(specs: seq<int>, fates: seq<Fate>, known: seq<int>, q: nat)
    requires |fates| == |specs| && q < |specs|
  {
    !fates[q].Cancelled? && (specs[q] in known || specs[q] in specs[..q] || fates[q].Completes?)
  }

  /** The output of position p is recorded: every position from i up to p is passed, its index is neither known nor
      completed earlier, and the attempt is not cut before the record. */
  predicate RecordsAt(specs: seq<int>, fates: seq<Fate>, known: seq<int>, i: nat, p: nat)
    requires |fates| == |specs| && p < |specs|
  {
    && (forall q :: i <= q < p ==> Passes(specs, fates, known, q))
    && specs[p] !in known && specs[p] !in specs[..p]
    && (fates[p].RecordedThenBreaks? || fates[p].Completes?)
  }

  predicate RecordsFrom(specs: seq<int>, fates: seq<Fate>, known: seq<int>, i: nat, x: int)
    requires |fates| == |specs|
  {
    exists p :: i <= p < |specs| && specs[p] == x && RecordsAt(specs, fates, known, i, p)
  }

  /** What an attempt knows when it reaches position i: what it knew at the start and every index before i. */
  ghost predicate KnowsBefore(rs: seq<int>, specs: seq<int>, known: seq<int>, i: nat)
    requires i <= |specs|
  {
    forall x :: x in rs <==> x in known || x in specs[..i]
  }

  lemma PrefixSnoc(specs: seq<int>, i: nat, x: int)
    requires i < |specs|
    ensures x in specs[..i + 1] <==> x in specs[..i] || x == specs[i]
  {
    assert specs[..i + 1] == specs[..i] + [specs[i]];
  }

  lemma KnowsAt(rs: seq<int>, specs: seq<int>, known: seq<int>, i: nat, x: int)
    requires i <= |specs| && KnowsBefore(rs, specs, known, i)
    ensures x in rs <==> x in known || x in specs[..i]
  {
  }

  /** Recording from i on is recording at i, or passing i and recording later. */
  lemma RecordsUnfold(specs: seq<int>, fates: seq<Fate>, known: seq<int>, i: nat, x: int)
    requires |fates| == |specs| && i < |specs|
    ensures RecordsFrom(specs, fates, known, i, x) <==>
              || (specs[i] == x && RecordsAt(specs, fates, known, i, i))
              || (Passes(specs, fates, known, i) && RecordsFrom(specs, fates, known, i + 1, x))
  {
    if RecordsFrom(specs, fates, known, i, x) {
      var p :| i <= p < |specs| && specs[p] == x && RecordsAt(specs, fates, known, i, p);
      if p > i { assert RecordsAt(specs, fates, known, i + 1, p); }
    }
    if Passes(specs, fates, known, i) && RecordsFrom(specs, fates, known, i + 1, x) {
      var p :| i + 1 <= p < |specs| && specs[p] == x && RecordsAt(specs, fates, known, i + 1, p);
      assert RecordsAt(specs, fates, known, i, p);
    }
  }

  /** The outputs an attempt adds are, once each, the indices it records. */
  lemma {:induction false} FromRecords(
    specs: seq<int>, fates: seq<Fate>, i: nat, job: Job, rs: seq<int>, known: seq<int>) returns (added: seq<int>)
    requires |fates| == |specs| && i <= |specs| && KnowsBefore(rs, specs, known, i)
    ensures From(specs, fates, i, job, rs).job.recorded == job.recorded + added
    ensures NoDuplicates(added) && forall x :: x in added ==> x !in rs
    ensures forall x :: x in added <==> RecordsFrom(specs, fates, known, i, x)
    decreases |specs| - i
  {
    if i == |specs| {
      return [];
    }
    forall x ensures RecordsFrom(specs, fates, known, i, x) <==>
        || (specs[i] == x && RecordsAt(specs, fates, known, i, i))
        || (Passes(specs, fates, known, i) && RecordsFrom(specs, fates, known, i + 1, x))
    {
      RecordsUnfold(specs, fates, known, i, x);
    }
    added := FromRecordsAt(specs, fates, i, job, rs, known);
  }

  lemma {:induction false} FromRecordsAt(
    specs: seq<int>, fates: seq<Fate>, i: nat, job: Job, rs: seq<int>, known: seq<int>) returns (added: seq<int>)
    requires |fates| == |specs| && i < |specs| && KnowsBefore(rs, specs, known, i)
    ensures From(specs, fates, i, job, rs).job.recorded == job.recorded + added
    ensures NoDuplicates(added) && forall x :: x in added ==> x !in rs
    ensures forall x :: x in added <==>
              || (specs[i] == x && RecordsAt(specs, fates, known, i, i))
              || (Passes(specs, fates, known, i) && RecordsFrom(specs, fates, known, i + 1, x))
    decreases |specs| - i, 0
  {
    added := [];
    KnowsAt(rs, specs, known, i, specs[i]);
    if fates[i].Cancelled? {
    } else if specs[i] in rs {
      forall x ensures x in rs <==> x in known || x in specs[..i + 1] { PrefixSnoc(specs, i, x); }
      added := FromRecords(specs, fates, i + 1, job, rs, known);
    } else if fates[i].RecordedThenBreaks? {
      added := [specs[i]];
      assert !Passes(specs, fates, known, i) && RecordsAt(specs, fates, known, i, i);
    } else if fates[i].Completes? {
      var rs' := rs + [specs[i]];
      forall x ensures x in rs' <==> x in known || x in specs[..i + 1] { PrefixSnoc(specs, i, x); }
      var rest := FromRecords(specs, fates, i + 1, Recorded(job, rs', specs[i], fates[i].saveOk), rs', known);
      added := [specs[i]] + rest;
      assert Passes(specs, fates, known, i) && RecordsAt(specs, fates, known, i, i);
      assert specs[i] in rs' && forall x :: x in added <==> x == specs[i] || x in rest;
      AppendDistinct([specs[i]], rest);
      assert job.recorded + [specs[i]] + rest == job.recorded + added;
    }
  }

  /** Attempt t of the sequence records an output it does not know to have been recorded already. */
  ghost predicate RecordsAgain(specs: seq<int>, job: Job, t: Try, x: int)
    requires |t.fates| == |specs|
  {
    x in job.recorded && x !in Known(job, t.loadOk) && RecordsFrom(specs, t.fates, Known(job, t.loadOk), 0, x)
  }

  ghost predicate SomeRecordsAgain(specs: seq<int>, job: Job, tries: seq<Try>)
    requires Fitting(specs, tries)
    decreases |tries|
  {
    tries != [] &&
    (|| (exists x :: RecordsAgain(specs, job, tries[0], x))
     || SomeRecordsAgain(specs, Attempt(specs, job, tries[0].loadOk, tries[0].fates).job, tries[1..]))
  }

  lemma AppendDistinct(a: seq<int>, b: seq<int>)
    ensures NoDuplicates(a + b) <==> NoDuplicates(a) && NoDuplicates(b) && forall x :: x in b ==> x !in a
  {
    var ab := a + b;
    if NoDuplicates(ab) {
      forall i, j | 0 <= i < j < |a| ensures a[i] != a[j] { assert ab[i] != ab[j]; }
      forall i, j | 0 <= i < j < |b| ensures b[i] != b[j] { assert ab[|a| + i] != ab[|a| + j]; }
      forall x | x in b ensures x !in a {
        var j :| 0 <= j < |b| && b[j] == x;
        forall i | 0 <= i < |a| ensures a[i] != x { assert ab[i] != ab[|a| + j]; }
      }
    }
    if NoDuplicates(a) && NoDuplicates(b) && forall x :: x in b ==> x !in a {
      forall i, j | 0 <= i < j < |ab| ensures ab[i] != ab[j] {
        if i < |a| <= j { assert b[j - |a|] in b && a[i] in a; }
      }
    }
  }

  /** One attempt: nothing is recorded twice afterwards, if and only if nothing was before and the attempt records no
      output again. */
  lemma {:induction false} AttemptRecordsOnceIff(specs: seq<int>, job: Job, t: Try)
    requires |t.fates| == |specs|
    ensures var job' := Attempt(specs, job, t.loadOk, t.fates).job;
            && job.recorded <= job'.recorded
            && (NoDuplicates(job'.recorded) <==>
                  NoDuplicates(job.recorded) && forall x :: !RecordsAgain(specs, job, t, x))
  {
    if specs != [] {
      var known := Known(job, t.loadOk);
      var added := FromRecords(specs, t.fates, 0, job, known, known);
      AppendDistinct(job.recorded, added);
      forall x ensures x in added && x in job.recorded <==> RecordsAgain(specs, job, t, x) {}
    }
  }

  lemma {:induction false} RecordedGrows(specs: seq<int>, job: Job, tries: seq<Try>)
    requires Fitting(specs, tries)
    ensures job.recorded <= AfterAll(specs, job, tries).recorded
    decreases |tries|
  {
    if tries == [] {
    } else {
      AttemptRecordsOnceIff(specs, job, tries[0]);
      RecordedGrows(specs, Attempt(specs, job, tries[0].loadOk, tries[0].fates).job, tries[1..]);
    }
  }

  /** Over any sequence of attempts, cut and failing anywhere, no output is recorded twice if and only if no attempt
      reaches an index that is already recorded but that it does not know: one whose save was cut off or failed and was
      not repaired by a later save of the same attempt, or whose saved state could not be loaded or was overwritten. */
  lemma {:induction false} RecordedOnceIff(specs: seq<int>, job: Job, tries: seq<Try>)
    requires Fitting(specs, tries) && NoDuplicates(job.recorded)
    ensures NoDuplicates(AfterAll(specs, job, tries).recorded) <==> !SomeRecordsAgain(specs, job, tries)
    decreases |tries|
  {
    if tries == [] {
    } else {
      var t := tries[0];
      var job' := Attempt(specs, job, t.loadOk, t.fates).job;
      AttemptRecordsOnceIff(specs, job, t);
      if NoDuplicates(job'.recorded) {
        RecordedOnceIff(specs, job', tries[1..]);
      } else {
        RecordedGrows(specs, job', tries[1..]);
        var after := AfterAll(specs, job', tries[1..]).recorded;
        assert after == job'.recorded + after[|job'.recorded|..];
        AppendDistinct(job'.recorded, after[|job'.recorded|..]);
      }
    }
  }

  /** The loop from i on ends without error exactly if it gets past every position. */
  lemma {:induction false} FromOk(specs: seq<int>, fates: seq<Fate>, i: nat, job: Job, rs: seq<int>, known: seq<int>)
    requires |fates| == |specs| && i <= |specs| && KnowsBefore(rs, specs, known, i)
    ensures From(specs, fates, i, job, rs).ok <==> forall q :: i <= q < |specs| ==> Passes(specs, fates, known, q)
    decreases |specs| - i
  {
    if i == |specs| {
    } else {
      KnowsAt(rs, specs, known, i, specs[i]);
      forall x ensures x in specs[..i + 1] <==> x in specs[..i] || x == specs[i] { PrefixSnoc(specs, i, x); }
      if fates[i].Cancelled? {
        assert !Passes(specs, fates, known, i);
      } else if specs[i] in rs {
        FromOk(specs, fates, i + 1, job, rs, known);
      } else if fates[i].Completes? {
        var rs' := rs + [specs[i]];
        FromOk(specs, fates, i + 1, Recorded(job, rs', specs[i], fates[i].saveOk), rs', known);
      } else {
        assert !Passes(specs, fates, known, i);
      }
    }
  }

  /** An attempt returns nil exactly if the payload has clips and it gets past every position. */
  lemma {:induction false} AttemptOkIff(specs: seq<int>, job: Job, t: Try)
    requires |t.fates| == |specs|
    ensures Attempt(specs, job, t.loadOk, t.fates).ok <==>
              specs != [] && forall q :: 0 <= q < |specs| ==> Passes(specs, t.fates, Known(job, t.loadOk), q)
  {
    if specs != [] { FromOk(specs, t.fates, 0, job, Known(job, t.loadOk), Known(job, t.loadOk)); }
  }

  /** Clip p is completed in this attempt. */
  predicate CompletesAt(specs: seq<int>, fates: seq<Fate>, known: seq<int>, i: nat, p: nat)
    requires |fates| == |specs| && p < |specs|
  {
    RecordsAt(specs, fates, known, i, p) && fates[p].Completes?
  }

  /** Progress is pushed once for each clip completed, with its position in the payload counted from one. */
  lemma {:induction false} FromPushes(
    specs: seq<int>, fates: seq<Fate>, i: nat, job: Job, rs: seq<int>, known: seq<int>, p: nat)
    requires |fates| == |specs| && i <= |specs| && KnowsBefore(rs, specs, known, i) && i <= p < |specs|
    ensures p + 1 in From(specs, fates, i, job, rs).pushed <==> CompletesAt(specs, fates, known, i, p)
    decreases |specs| - i
  {
    KnowsAt(rs, specs, known, i, specs[i]);
    forall x ensures x in specs[..i + 1] <==> x in specs[..i] || x == specs[i] { PrefixSnoc(specs, i, x); }
    if p > i {
      assert CompletesAt(specs, fates, known, i, p) <==>
          Passes(specs, fates, known, i) && CompletesAt(specs, fates, known, i + 1, p);
    }
    if fates[i].Cancelled? {
    } else if specs[i] in rs {
      PushedIncrease(specs, fates, i + 1, job, rs);
      if p > i { FromPushes(specs, fates, i + 1, job, rs, known, p); }
    } else if fates[i].Completes? {
      var rs' := rs + [specs[i]];
      var job' := Recorded(job, rs', specs[i], fates[i].saveOk);
      PushedIncrease(specs, fates, i + 1, job', rs');
      if p > i { FromPushes(specs, fates, i + 1, job', rs', known, p); }
    }
  }

  lemma {:induction false} AttemptPushesIff(specs: seq<int>, job: Job, t: Try, p: nat)
    requires |t.fates| == |specs| && p < |specs|
    ensures p + 1 in Attempt(specs, job, t.loadOk, t.fates).pushed <==>
              CompletesAt(specs, t.fates, Known(job, t.loadOk), 0, p)
  {
    FromPushes(specs, t.fates, 0, job, Known(job, t.loadOk), Known(job, t.loadOk), p);
  }

  /** The completed indices are saved at position p. */
  predicate SavesAt(specs: seq<int>, fates: seq<Fate>, known: seq<int>, i: nat, p: nat)
    requires |fates| == |specs| && p < |specs|
  {
    RecordsAt(specs, fates, known, i, p) && fates[p] == Completes(true)
  }

  /** Position p is the last to save. */
  predicate LastSave(specs: seq<int>, fates: seq<Fate>, known: seq<int>, i: nat, p: nat)
    requires |fates| == |specs|
  {
    && i <= p < |specs| && SavesAt(specs, fates, known, i, p)
    && forall q :: p < q < |specs| ==> !SavesAt(specs, fates, known, i, q)
  }

  lemma SavesUnfold(specs: seq<int>, fates: seq<Fate>, known: seq<int>, i: nat, q: nat)
    requires |fates| == |specs| && i < q < |specs|
    ensures SavesAt(specs, fates, known, i, q) <==>
              Passes(specs, fates, known, i) && SavesAt(specs, fates, known, i + 1, q)
  {
  }

  /** What an attempt leaves saved: exactly what it knew at the start and every index up to its last save that
      succeeded; without one, what was saved before. */
  lemma {:induction false} FromSaves(
    specs: seq<int>, fates: seq<Fate>, i: nat, job: Job, rs: seq<int>, known: seq<int>) returns (last: Option<nat>)
    requires |fates| == |specs| && i <= |specs| && KnowsBefore(rs, specs, known, i)
    ensures var saved := From(specs, fates, i, job, rs).job.saved;
            if last.Some?
            then LastSave(specs, fates, known, i, last.value) && KnowsBefore(saved, specs, known, last.value + 1)
            else saved == job.saved && forall q :: i <= q < |specs| ==> !SavesAt(specs, fates, known, i, q)
    decreases |specs| - i
  {
    last := None;
    if i == |specs| {
    } else {
      forall q | i < q < |specs|
        ensures SavesAt(specs, fates, known, i, q) <==>
                  Passes(specs, fates, known, i) && SavesAt(specs, fates, known, i + 1, q)
      {
        SavesUnfold(specs, fates, known, i, q);
      }
      forall x ensures x in specs[..i + 1] <==> x in specs[..i] || x == specs[i] { PrefixSnoc(specs, i, x); }
      if !fates[i].Cancelled? && specs[i] in rs {
        last := FromSaves(specs, fates, i + 1, job, rs, known);
      } else if fates[i].Completes? {
        var rs' := rs + [specs[i]];
        last := FromSaves(specs, fates, i + 1, Recorded(job, rs', specs[i], fates[i].saveOk), rs', known);
        if last.None? && fates[i].saveOk { last := Some(i); }
      }
    }
  }

  /** So an attempt leaves an index recorded and yet unknown to the next load exactly when it comes after the last save
      that succeeded, or when the saved state that held it was not loaded and then overwritten. */
  lemma {:induction false} SavedAfterAttempt(specs: seq<int>, job: Job, t: Try, x: int)
    requires |t.fates| == |specs|
    ensures var known, saved := Known(job, t.loadOk), Attempt(specs, job, t.loadOk, t.fates).job.saved;
            x in saved <==>
              if exists p :: LastSave(specs, t.fates, known, 0, p)
              then exists p :: LastSave(specs, t.fates, known, 0, p) && (x in known || x in specs[..p + 1])
              else x in job.saved
  {
    if specs != [] {
      var known := Known(job, t.loadOk);
      var last := FromSaves(specs, t.fates, 0, job, known, known);
      forall p, q | LastSave(specs, t.fates, known, 0, p) && LastSave(specs, t.fates, known, 0, q) ensures p == q {
      }
    }
  }

  /** Each of the three conditions is needed: a cut between record and save, a failed save, or a failed load makes the
      next clean attempt record the index again. */
  lemma EachConditionIsNeeded(x: int, dirty: Try)
    requires dirty in {Try(true, [RecordedThenBreaks]), Try(true, [Completes(false)])}
    ensures AfterAll([x], Job([], []), [dirty, Try(true, [Completes(true)])]).recorded == [x, x]
    ensures AfterAll([x], Job([], []), [Try(true, [Completes(true)]), Try(false, [Completes(true)])]).recorded == [x, x]
  {
    var clean, blind := Try(true, [Completes(true)]), Try(false, [Completes(true)]);
    TwoTries([x], dirty, clean);
    TwoTries([x], clean, blind);
    OneClip(x, Job([], []), dirty);
    OneClip(x, Job([], []), clean);
    OneClip(x, Attempt([x], Job([], []), dirty.loadOk, dirty.fates).job, clean);
    OneClip(x, Attempt([x], Job([], []), clean.loadOk, clean.fates).job, blind);
  }

  lemma {:induction false} TwoTries(specs: seq<int>, a: Try, b: Try)
    requires |a.fates| == |b.fates| == |specs|
    ensures Fitting(specs, [a, b])
    ensures AfterAll(specs, Job([], []), [a, b])
         == Attempt(specs, Attempt(specs, Job([], []), a.loadOk, a.fates).job, b.loadOk, b.fates).job
  {
    var job := Attempt(specs, Job([], []), a.loadOk, a.fates).job;
    assert [a, b][1..] == [b] && [b][1..] == [];
    assert AfterAll(specs, job, [b]) == AfterAll(specs, Attempt(specs, job, b.loadOk, b.fates).job, []);
  }

  /** What one attempt at a single clip does. */
  lemma OneClip(x: int, job: Job, t: Try)
    requires |t.fates| == 1 && (t.fates[0].RecordedThenBreaks? || t.fates[0].Completes?)
    ensures var rs := if t.loadOk then job.saved else [];
            Attempt([x], job, t.loadOk, t.fates).job ==
              if x in rs then job
              else if t.fates[0].Completes? then Recorded(job, rs + [x], x, t.fates[0].saveOk)
              else job.(recorded := job.recorded + [x])
  {
    var rs := if t.loadOk then job.saved else [];
    assert From([x], t.fates, 1, job, rs).job == job;
    if t.fates[0].Completes? {
      var job' := Recorded(job, rs + [x], x, t.fates[0].saveOk);
      assert From([x], t.fates, 1, job', rs + [x]).job == job';
    }
  }

  /** The progress numerators of one attempt are positions of the payload in strictly increasing order. */
  lemma {:induction false} PushedIncrease(specs: seq<int>, fates: seq<Fate>, i: nat, job: Job, rs: seq<int>)
    requires |fates| == |specs| && i <= |specs|
    ensures var p := From(specs, fates, i, job, rs).pushed;
            Increasing(p) && forall k :: 0 <= k < |p| ==> i < p[k] <= |specs|
    decreases |specs| - i
  {
    if i == |specs| || fates[i].Cancelled? {
    } else {
      if specs[i] in rs {
        PushedIncrease(specs, fates, i + 1, job, rs);
      } else if fates[i].Completes? {
        PushedIncrease(specs, fates, i + 1, Recorded(job, rs + [specs[i]], specs[i], fates[i].saveOk), rs + [specs[i]]);
      }
    }
  }
}
