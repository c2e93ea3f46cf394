/** Progress from the clip loop to the cloud: non-blocking sends into a channel of eight, a pump that keeps the latest
    value, a ticker that forwards it (internal/runtime/jobhandle.go, pumpProgress). */
module Progress {
  import opened Collections
  import opened ClipLoop

  const CHAN_SIZE := 8

  datatype Pump = Pump(produced: seq<real>, chan: seq<real>, last: Option<real>, forwarded: seq<real>)

  const EMPTY: Pump := Pump([], [], None, [])

  datatype Act = Push(v: real) | Receive | Throttle

  predicate Enabled(p: Pump, a: Act) {
    a.Receive? ==> p.chan != []
  }

  function Next(p: Pump, a: Act): Pump
    requires Enabled(p, a)
  {
    match a
    case Push(v) => p.(produced := p.produced + [v], chan := if |p.chan| < CHAN_SIZE then p.chan + [v] else p.chan)
    case Receive => p.(chan := p.chan[1..], last := Some(p.chan[0]))
    case Throttle => if p.last.None? then p else p.(forwarded := p.forwarded + [p.last.value], last := None)
  }

  function Latest(p: Pump): seq<real> {
    if p.last.None? then [] else [p.last.value]
  }

  /** What was forwarded, then what is waiting. */
  function Line(p: Pump): seq<real> {
    p.forwarded + Latest(p) + p.chan
  }

  lemma PushLine(p: Pump, v: real)
    requires IsSubsequence(Line(p), p.produced)
    ensures IsSubsequence(Line(Next(p, Push(v))), Next(p, Push(v)).produced)
  {
    var p' := Next(p, Push(v));
    SubsequenceSnoc(Line(p), p.produced, v);
    assert Line(p') == Line(p) + [v] || Line(p') == Line(p);
  }

  lemma ReceiveLine(p: Pump)
    requires p.chan != [] && IsSubsequence(Line(p), p.produced)
    ensures IsSubsequence(Line(Next(p, Receive)), p.produced)
  {
    var p' := Next(p, Receive);
    if p.last.Some? {
      SubsequenceDelete(Line(p), p.produced, |p.forwarded|);
      assert Line(p') == Line(p)[..|p.forwarded|] + Line(p)[|p.forwarded| + 1..];
    } else {
      assert Line(p') == Line(p);
    }
  }

  lemma LineStep(p: Pump, a: Act)
    requires Enabled(p, a) && IsSubsequence(Line(p), p.produced)
    ensures IsSubsequence(Line(Next(p, a)), Next(p, a).produced)
  {
    match a
    case Push(v) => PushLine(p, v);
    case Receive => ReceiveLine(p);
    case Throttle => assert Line(Next(p, a)) == Line(p);
  }

  ghost predicate Runnable(p: Pump, acts: seq<Act>)
    decreases |acts|
  {
    acts == [] || (Enabled(p, acts[0]) && Runnable(Next(p, acts[0]), acts[1..]))
  }

  ghost function Exec(p: Pump, acts: seq<Act>): Pump
    requires Runnable(p, acts)
    decreases |acts|
  {
    if acts == [] then p else Exec(Next(p, acts[0]), acts[1..])
  }

  lemma {:induction false} LineAlways(p: Pump, acts: seq<Act>)
    requires IsSubsequence(Line(p), p.produced) && Runnable(p, acts)
    ensures IsSubsequence(Line(Exec(p, acts)), Exec(p, acts).produced)
    decreases |acts|
  {
    if acts == [] {
    } else {
      LineStep(p, acts[0]);
      LineAlways(Next(p, acts[0]), acts[1..]);
    }
  }

  // ---------- what a tick forwards ----------

  /** The schedule: n receives and nothing else. */
  function Receives(n: nat): seq<Act> {
    seq(n, i requires 0 <= i < n => Receive)
  }

  lemma {:induction false} ActCons(p: Pump, a: Act, acts: seq<Act>)
    requires Enabled(p, a) && Runnable(Next(p, a), acts)
    ensures Runnable(p, [a] + acts) && Exec(p, [a] + acts) == Exec(Next(p, a), acts)
  {
    assert ([a] + acts)[1..] == acts;
  }

  /** A tick forwards the value received last, if one was received since the tick before, and then waits for the next.
      */
  lemma TickForwardsLatest(p: Pump)
    requires p.chan != []
    ensures var received := Next(p, Receive); var ticked := Next(received, Throttle);
            && received.chan == p.chan[1..] && received.forwarded == p.forwarded
            && ticked.forwarded == p.forwarded + [p.chan[0]] && ticked.chan == p.chan[1..]
            && Next(ticked, Throttle) == ticked
  {
  }

  /** What is sent between a receive and the tick does not change what the tick forwards. */
  lemma PushKeepsLatest(p: Pump, v: real)
    ensures var pushed := Next(p, Push(v));
            && pushed.last == p.last && pushed.forwarded == p.forwarded
            && pushed.chan == if |p.chan| < 8 then p.chan + [v] else p.chan
  {
  }

  /** Draining the channel and one tick forward exactly one value, the newest in the channel. */
  lemma {:induction false} DrainForwardsNewest(p: Pump)
    requires p.chan != []
    ensures Runnable(p, Receives(|p.chan|) + [Throttle])
    ensures var q := Exec(p, Receives(|p.chan|) + [Throttle]);
            q.forwarded == p.forwarded + [p.chan[|p.chan| - 1]] && q.chan == [] && q.last.None?
    decreases |p.chan|
  {
    var p' := Next(p, Receive);
    if |p.chan| == 1 {
      var q := Next(p', Throttle);
      assert Runnable(q, []) && Exec(q, []) == q;
      ActCons(p', Throttle, []);
      ActCons(p, Receive, [Throttle] + []);
      assert [Receive] + ([Throttle] + []) == Receives(1) + [Throttle];
    } else {
      DrainForwardsNewest(p');
      ActCons(p, Receive, Receives(|p'.chan|) + [Throttle]);
      assert [Receive] + (Receives(|p'.chan|) + [Throttle]) == Receives(|p.chan|) + [Throttle];
    }
  }

  /** So a value sent while the channel is not full reaches the cloud once the pump has caught up and ticked, unless a
      newer one has taken its place. */
  lemma {:induction false} SentValueArrives(p: Pump, v: real)
    requires |p.chan| < 8
    ensures var pushed := Next(p, Push(v)); var schedule := Receives(|p.chan| + 1) + [Throttle];
            Runnable(pushed, schedule) && Exec(pushed, schedule).forwarded == p.forwarded + [v]
  {
    DrainForwardsNewest(Next(p, Push(v)));
  }

  /** The fractions reported by an attempt over `total` clips. */
  function Fractions(pushed: seq<nat>, total: nat): seq<real>
    requires total > 0
  {
    seq(|pushed|, k requires 0 <= k < |pushed| => pushed[k] as real / total as real)
  }

  lemma TimesTotal(a: nat, total: nat)
    requires total > 0
    ensures a as real / total as real * total as real == a as real
    ensures a == total ==> a as real / total as real == 1.0
  {
  }

  /** The progress of clip i of n is i / n. */
  lemma FractionsArePositions(pushed: seq<nat>, total: nat)
    requires total > 0
    ensures |Fractions(pushed, total)| == |pushed|
    ensures forall i :: 0 <= i < |pushed| ==> Fractions(pushed, total)[i] * total as real == pushed[i] as real
    ensures forall i :: 0 <= i < |pushed| && pushed[i] == total ==> Fractions(pushed, total)[i] == 1.0
  {
    forall i | 0 <= i < |pushed|
      ensures Fractions(pushed, total)[i] * total as real == pushed[i] as real
      ensures pushed[i] == total ==> Fractions(pushed, total)[i] == 1.0
    {
      TimesTotal(pushed[i], total);
    }
  }

  /** So an attempt that completes the last clip reports 1. */
  lemma LastClipIsWhole(specs: seq<int>, job: Job, t: Try)
    requires specs != [] && |t.fates| == |specs|
    requires CompletesAt(specs, t.fates, Known(job, t.loadOk), 0, |specs| - 1)
    ensures 1.0 in Fractions(Attempt(specs, job, t.loadOk, t.fates).pushed, |specs|)
  {
    var pushed := Attempt(specs, job, t.loadOk, t.fates).pushed;
    AttemptPushesIff(specs, job, t, |specs| - 1);
    FractionsArePositions(pushed, |specs|);
    var i :| 0 <= i < |pushed| && pushed[i] == |specs|;
    assert Fractions(pushed, |specs|)[i] == 1.0;
  }

  lemma FractionOrder(a: nat, b: nat, total: nat)
    requires 0 < a < b <= total
    ensures 0.0 < a as real / total as real < b as real / total as real <= 1.0
  {
  }

  lemma FractionRange(a: nat, total: nat)
    requires 0 < a <= total
    ensures 0.0 < a as real / total as real <= 1.0
  {
  }

  predicate StrictlyIncreasing(s: seq<real>) {
    forall i, j :: 0 <= i < j < |s| ==> s[i] < s[j]
  }

  lemma ForwardedIsPrefixOfLine(p: Pump)
    requires IsSubsequence(Line(p), p.produced)
    ensures IsSubsequence(p.forwarded, p.produced)
  {
    var f: seq<nat> :| Picks(f, Line(p), p.produced);
    var g := f[..|p.forwarded|];
    forall i | 0 <= i < |g| ensures g[i] < |p.produced| && p.forwarded[i] == p.produced[g[i]] {
      assert Line(p)[i] == p.forwarded[i];
    }
    assert Picks(g, p.forwarded, p.produced);
  }

  predicate WithinUnit(s: seq<real>) {
    forall k :: 0 <= k < |s| ==> 0.0 < s[k] <= 1.0
  }

  lemma FractionsAreOrdered(pushed: seq<nat>, total: nat)
    requires total > 0 && Increasing(pushed) && forall k :: 0 <= k < |pushed| ==> 0 < pushed[k] <= total
    ensures StrictlyIncreasing(Fractions(pushed, total)) && WithinUnit(Fractions(pushed, total))
  {
    forall k | 0 <= k < |pushed| ensures 0.0 < Fractions(pushed, total)[k] <= 1.0 {
      FractionRange(pushed[k], total);
    }
    forall i, j | 0 <= i < j < |pushed| ensures Fractions(pushed, total)[i] < Fractions(pushed, total)[j] {
      FractionOrder(pushed[i], pushed[j], total);
    }
  }

  lemma SubsequenceIsOrdered(a: seq<real>, b: seq<real>, c: seq<real>)
    requires IsSubsequence(a, b) && b <= c && StrictlyIncreasing(c) && WithinUnit(c)
    ensures StrictlyIncreasing(a) && WithinUnit(a)
  {
    var f: seq<nat> :| Picks(f, a, b);
    forall i | 0 <= i < |a| ensures a[i] == c[f[i]] {}
  }

  /** Within one clip attempt, for every schedule of sends, receives and throttle ticks, the fractions forwarded to the
      cloud are an ordered subsequence of those produced, strictly increasing and within (0, 1]. */
  lemma {:induction false} MonotoneProgress(specs: seq<int>, job: Job, loadOk: bool, fates: seq<Fate>, acts: seq<Act>)
    requires specs != [] && |fates| == |specs|
    requires Runnable(EMPTY, acts)
    requires Exec(EMPTY, acts).produced <= Fractions(Attempt(specs, job, loadOk, fates).pushed, |specs|)
    ensures var p := Exec(EMPTY, acts);
            && IsSubsequence(p.forwarded, p.produced)
            && StrictlyIncreasing(p.forwarded)
            && WithinUnit(p.forwarded)
  {
    var p0 := EMPTY;
    assert Picks([], Line(p0), p0.produced);
    LineAlways(p0, acts);
    var p := Exec(p0, acts);
    ForwardedIsPrefixOfLine(p);
    var pushed := Attempt(specs, job, loadOk, fates).pushed;
    PushedIncrease(specs, fates, 0, job, if loadOk then job.saved else []);
    FractionsAreOrdered(pushed, |specs|);
    SubsequenceIsOrdered(p.forwarded, p.produced, Fractions(pushed, |specs|));
  }

  /** The pump as a loop over one schedule: `last` is overwritten by each receive and sent by each throttle tick; the
      executor's non-blocking sends are the schedule's other entries. */
  method PumpProgress(schedule: seq<Act>) returns (forwarded: seq<real>)
    requires Runnable(EMPTY, schedule)
    ensures forwarded == Exec(EMPTY, schedule).forwarded
    ensures IsSubsequence(forwarded, Exec(EMPTY, schedule).produced)
  {
    ghost var p0, produced := EMPTY, [];
    var chan: seq<real>, last: Option<real> := [], None;
    forwarded := [];
    for i := 0 to |schedule|
      invariant Runnable(Pump(produced, chan, last, forwarded), schedule[i..])
      invariant Exec(Pump(produced, chan, last, forwarded), schedule[i..]) == Exec(p0, schedule)
    {
      assert schedule[i..][0] == schedule[i] && schedule[i..][1..] == schedule[i + 1..];
      match schedule[i] {
        case Push(v) =>
          produced := produced + [v];
          if |chan| < CHAN_SIZE { chan := chan + [v]; }
        case Receive =>
          last, chan := Some(chan[0]), chan[1..];
        case Throttle =>
          if last.Some? { forwarded, last := forwarded + [last.value], None; }
      }
    }
    assert Picks([], Line(p0), p0.produced);
    LineAlways(p0, schedule);
    ForwardedIsPrefixOfLine(Exec(p0, schedule));
  }
}
