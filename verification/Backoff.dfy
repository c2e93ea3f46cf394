/** The log stream's reconnect loop (tauri-app/src/lib/ipc.ts, openLogStream).  Timers, awaited connects and event
    sources outlive the variables that name them, so overlapping ones are part of the state. */
module Backoff {
  import opened Collections

  const BACKOFF_MS: seq<nat> := [500, 1000, 2000, 4000, 8000, 8000, 8000, 8000, 8000, 8000]

  /** `timer` and `source` are the closure's variables; `timers` the timers that may still fire, `connecting` the
      connects waiting for a token, `sources` the event sources not closed.  The rest is bookkeeping: `delays` are
      those of the timers set since `attempt` was last reset. */
  datatype Stream = Stream(
    attempt: nat, closed: bool, timer: Option<nat>, source: Option<nat>,
    timers: set<nat>, connecting: nat, sources: set<nat>,
    next: nat, connects: nat, giveUps: nat, delays: seq<nat>)

  function Cleanup(s: Stream): Stream {
    s.(timers := if s.timer.Some? then s.timers - {s.timer.value} else s.timers,
       timer := None,
       sources := if s.source.Some? then s.sources - {s.source.value} else s.sources,
       source := None)
  }

  function Connect(s: Stream): Stream {
    if s.closed then s else s.(connecting := s.connecting + 1, connects := s.connects + 1)
  }

  function ScheduleRetry(s: Stream): Stream {
    if s.closed then s
    else if s.attempt >= |BACKOFF_MS| then s.(giveUps := s.giveUps + 1)
    else s.(attempt := s.attempt + 1, timers := s.timers + {s.next}, timer := Some(s.next), next := s.next + 1,
            delays := s.delays + [BACKOFF_MS[s.attempt]])
  }

  datatype Action =
    | TimerFires(t: nat) | ConnectFails | ConnectOpens | Opened(id: nat) | Errored(id: nat) | CloseCall | ReconnectCall

  predicate Enabled(s: Stream, a: Action) {
    match a
    case TimerFires(t) => t in s.timers
    case ConnectFails | ConnectOpens => s.connecting > 0
    case Opened(id) => id in s.sources
    case Errored(id) => id in s.sources
    case CloseCall | ReconnectCall => true
  }

  function Next(s: Stream, a: Action): Stream
    requires Enabled(s, a)
  {
    match a
    case TimerFires(t) => Connect(s.(timers := s.timers - {t}))
    case ConnectFails => ScheduleRetry(s.(connecting := s.connecting - 1))
    case ConnectOpens =>
      s.(connecting := s.connecting - 1, sources := s.sources + {s.next}, source := Some(s.next), next := s.next + 1)
    case Opened(_) => s.(attempt := 0, delays := [])
    case Errored(id) => ScheduleRetry(s.(sources := s.sources - {id}, source := None))
    case CloseCall => Cleanup(s.(closed := true))
    case ReconnectCall => Connect(Cleanup(s.(attempt := 0, delays := [])).(closed := false))
  }

  /** openLogStream starts connecting at once. */
  const START: Stream := Connect(Stream(0, false, None, None, {}, 0, {}, 0, 0, 0, []))

  predicate Runnable(s: Stream, acts: seq<Action>)
    decreases |acts|
  {
    acts == [] || (Enabled(s, acts[0]) && Runnable(Next(s, acts[0]), acts[1..]))
  }

  function Exec(s: Stream, acts: seq<Action>): Stream
    requires Runnable(s, acts)
    decreases |acts|
  {
    if acts == [] then s else Exec(Next(s, acts[0]), acts[1..])
  }

  // ---------- any interleaving ----------

  function Sum(s: seq<nat>): nat {
    if s == [] then 0 else Sum(s[..|s| - 1]) + s[|s| - 1]
  }

  predicate OnSchedule(s: Stream) {
    s.attempt <= |BACKOFF_MS| && s.delays == BACKOFF_MS[..s.attempt]
  }

  lemma OnScheduleStep(s: Stream, a: Action)
    requires OnSchedule(s) && Enabled(s, a)
    ensures OnSchedule(Next(s, a))
  {
    if s.attempt < |BACKOFF_MS| {
      assert BACKOFF_MS[..s.attempt + 1] == BACKOFF_MS[..s.attempt] + [BACKOFF_MS[s.attempt]];
    }
  }

  lemma {:induction false} OnScheduleAlways(s: Stream, acts: seq<Action>)
    requires OnSchedule(s) && Runnable(s, acts)
    ensures OnSchedule(Exec(s, acts))
    decreases |acts|
  {
    if acts == [] {
    } else {
      OnScheduleStep(s, acts[0]);
      OnScheduleAlways(Next(s, acts[0]), acts[1..]);
    }
  }

  lemma SumPrefix(n: nat)
    requires n <= |BACKOFF_MS|
    ensures Sum(BACKOFF_MS[..n]) <= 55500
    ensures n == |BACKOFF_MS| ==> Sum(BACKOFF_MS[..n]) == 55500
  {
    var total := 0;
    for k := 0 to n
      invariant total == Sum(BACKOFF_MS[..k])
      invariant total == [0, 500, 1500, 3500, 7500, 15500, 23500, 31500, 39500, 47500, 55500][k]
    {
      assert BACKOFF_MS[..k + 1][..k] == BACKOFF_MS[..k];
      total := total + BACKOFF_MS[k];
    }
  }

  /** In every interleaving of opens, errors, close, reconnect and overlapping connects: the timers set since `attempt`
      was last reset number exactly `attempt`, never more than ten; their delays are a prefix of the schedule and add up
      to at most 55.5 seconds. */
  lemma {:induction false} BoundedBackoff(acts: seq<Action>)
    requires Runnable(START, acts)
    ensures var s := Exec(START, acts);
            && |s.delays| == s.attempt <= 10
            && s.delays == [500, 1000, 2000, 4000, 8000, 8000, 8000, 8000, 8000, 8000][..s.attempt]
            && Sum(s.delays) <= 55500
  {
    OnScheduleAlways(START, acts);
    SumPrefix(Exec(START, acts).attempt);
  }

  // ---------- every connect fails ----------

  /** No stream opens and nobody calls close or reconnect. */
  predicate OnlyFailures(acts: seq<Action>) {
    forall i :: 0 <= i < |acts| ==> !acts[i].Opened? && !acts[i].CloseCall? && !acts[i].ReconnectCall?
  }

  /** Exactly one thing is going on, until the stream has given up. */
  predicate OneAtATime(s: Stream) {
    && !s.closed && OnSchedule(s)
    && s.connecting + |s.timers| + |s.sources| + s.giveUps == 1
    && s.connects + |s.timers| == s.attempt + 1
    && (s.giveUps == 1 ==> s.attempt == |BACKOFF_MS|)
    && (forall t :: t in s.timers ==> t < s.next) && (forall id :: id in s.sources ==> id < s.next)
  }

  /** Steps left, at most. */
  function Rank(s: Stream): int {
    if s.giveUps > 0 then 0
    else 3 * (11 - s.connects) + 2 * s.connecting + |s.sources|
  }

  /** No timer, no connect and no event source is left to do anything. */
  predicate Exhausted(s: Stream) {
    s.connecting == 0 && s.timers == {} && s.sources == {}
  }

  lemma FailureStep(s: Stream, a: Action)
    requires OneAtATime(s) && Enabled(s, a) && OnlyFailures([a])
    ensures OneAtATime(Next(s, a)) && 0 <= Rank(Next(s, a)) < Rank(s)
  {
    assert OnlyFailures([a]) && [a][0] == a;
    OnScheduleStep(s, a);
    if a.TimerFires? {
      assert s.timers - {a.t} == {} by { OnlyElement(s.timers, a.t); }
    } else if a.Errored? {
      assert s.sources - {a.id} == {} by { OnlyElement(s.sources, a.id); }
    }
  }

  lemma OnlyElement(xs: set<nat>, x: nat)
    requires x in xs && |xs| == 1
    ensures xs - {x} == {}
  {
    assert |xs - {x}| == 0;
  }

  lemma {:induction false} FailuresAlways(s: Stream, acts: seq<Action>)
    requires OneAtATime(s) && Rank(s) >= 0 && Runnable(s, acts) && OnlyFailures(acts)
    ensures OneAtATime(Exec(s, acts)) && Rank(Exec(s, acts)) >= 0 && |acts| <= Rank(s) - Rank(Exec(s, acts))
    decreases |acts|
  {
    if acts == [] {
    } else {
      assert OnlyFailures([acts[0]]) && OnlyFailures(acts[1..]);
      FailureStep(s, acts[0]);
      FailuresAlways(Next(s, acts[0]), acts[1..]);
    }
  }

  /** If every connect fails and nobody closes or reconnects, a run has at most 32 steps and 11 connects; and when
      nothing more can happen the stream has given up once, after exactly 11 connects and 55.5 seconds of delays. */
  lemma {:induction false} GivesUpAfterElevenConnects(acts: seq<Action>)
    requires Runnable(START, acts) && OnlyFailures(acts)
    ensures var s := Exec(START, acts);
            && |acts| <= 32 && s.connects <= 11
            && (Exhausted(s) ==> s.connects == 11 && s.giveUps == 1 && Sum(s.delays) == 55500)
  {
    FailuresAlways(START, acts);
    var s := Exec(START, acts);
    SumPrefix(s.attempt);
  }

  // ---------- what the callbacks do ----------

  /** A stream that connected starts its schedule over: the retry after its next error waits 500 ms. */
  lemma OpenStartsOver(s: Stream, id: nat)
    requires id in s.sources && !s.closed
    ensures var connected := Next(s, Opened(id)); var failed := Next(connected, Errored(id));
            && connected.attempt == 0 && connected.sources == s.sources && connected.timers == s.timers
            && failed.delays == [500] && failed.attempt == 1 && failed.source.None?
            && failed.sources == s.sources - {id}
            && failed.timers == s.timers + {s.next} && failed.timer == Some(s.next)
  {
  }

  /** reconnect() closes the current source, clears the current timer, reopens a closed stream and connects at once; if
      that connect fails the retry waits 500 ms. */
  lemma ReconnectStartsOver(s: Stream)
    ensures var again := Next(s, ReconnectCall);
            && !again.closed && again.connecting == s.connecting + 1 && again.attempt == 0
            && again.source.None? && again.timer.None?
            && (s.source.Some? ==> s.source.value !in again.sources) && again.sources <= s.sources
            && (s.timer.Some? ==> s.timer.value !in again.timers) && again.timers <= s.timers
            && Next(again, ConnectFails).delays == [500]
  {
  }

  /** close() closes the current source and clears the current timer, and while closed nothing connects or retries. */
  lemma CloseStops(s: Stream)
    ensures var ended := Next(s, CloseCall);
            && ended.closed && ended.source.None? && ended.timer.None?
            && (s.source.Some? ==> s.source.value !in ended.sources)
            && (s.timer.Some? ==> s.timer.value !in ended.timers)
            && (forall t :: t in ended.timers ==> Next(ended, TimerFires(t)).connecting == ended.connecting)
            && (ended.connecting > 0 ==> Next(ended, ConnectFails).timers == ended.timers)
  {
  }

  /** A timer connects, once, and a failed connect sets the next timer, until ten have been set. */
  lemma RetryGoesOn(s: Stream, t: nat)
    requires !s.closed && t in s.timers && OnSchedule(s)
    ensures var fired := Next(s, TimerFires(t)); var failed := Next(fired, ConnectFails);
            && fired.connecting == s.connecting + 1 && t !in fired.timers && fired.attempt == s.attempt
            && failed.attempt == (if s.attempt < 10 then s.attempt + 1 else 10)
            && failed.giveUps == s.giveUps + (if s.attempt < 10 then 0 else 1)
  {
  }

  // ---------- after close ----------

  predicate NoReconnect(acts: seq<Action>) {
    forall i :: 0 <= i < |acts| ==> !acts[i].ReconnectCall?
  }

  /** Closed, with no event source and no connect that could still open one. */
  predicate Silent(s: Stream) {
    s.closed && s.connecting == 0 && s.sources == {}
  }

  lemma {:induction false} ClosedRun(s: Stream, acts: seq<Action>)
    requires s.closed && Runnable(s, acts) && NoReconnect(acts)
    ensures var s' := Exec(s, acts);
            && s'.closed && s'.connects == s.connects && s'.giveUps == s.giveUps && s'.timers <= s.timers
            && (Silent(s) ==> Silent(s'))
    decreases |acts|
  {
    if acts == [] {
    } else {
      assert !acts[0].ReconnectCall? && NoReconnect(acts[1..]) by {
        assert forall i :: 0 <= i < |acts[1..]| ==> acts[1..][i] == acts[i + 1];
      }
      ClosedRun(Next(s, acts[0]), acts[1..]);
    }
  }

  /** Nothing but the current event source is open, and no connect is waiting for its token. */
  predicate OnlyCurrent(s: Stream) {
    s.connecting == 0 && forall id :: id in s.sources ==> s.source == Some(id)
  }

  /** close() ends the stream: until a reconnect() no event source is ever open again, if and only if no connect is
      waiting and no source other than the current one is open.  Timers never matter: after close() none is set, and one
      that was left over connects to nothing. */
  lemma {:induction false} CloseEndsTheStreamIff(s: Stream)
    ensures OnlyCurrent(s) <==>
              forall acts :: Runnable(Next(s, CloseCall), acts) && NoReconnect(acts) ==>
                               Exec(Next(s, CloseCall), acts).sources == {}
  {
    var s' := Next(s, CloseCall);
    if OnlyCurrent(s) {
      assert Silent(s');
      forall acts | Runnable(s', acts) && NoReconnect(acts) ensures Exec(s', acts).sources == {} {
        ClosedRun(s', acts);
      }
    } else if s.connecting > 0 {
      var s'' := Next(s', ConnectOpens);
      assert [ConnectOpens][1..] == [] && Runnable(s'', []) && Exec(s'', []) == s'';
      assert Runnable(s', [ConnectOpens]) && Exec(s', [ConnectOpens]).sources != {};
    } else {
      var id :| id in s.sources && s.source != Some(id);
      assert id in s'.sources;
      assert Runnable(s', []) && NoReconnect([]) && Exec(s', []).sources != {};
    }
  }

  /** At most one thing is going on, and the variable names the open source. */
  predicate AtMostOne(s: Stream) {
    && s.connecting + |s.timers| + |s.sources| <= 1
    && (forall id :: id in s.sources ==> s.source == Some(id))
  }

  lemma AtMostOneStep(s: Stream, a: Action)
    requires AtMostOne(s) && Enabled(s, a) && !a.ReconnectCall?
    ensures AtMostOne(Next(s, a))
  {
    if a.TimerFires? {
      OnlyElement(s.timers, a.t);
    } else if a.Errored? {
      OnlyElement(s.sources, a.id);
    } else if a.CloseCall? {
      if s.timer.Some? { assert |s.timers - {s.timer.value}| <= |s.timers|; }
      if s.source.Some? { assert |s.sources - {s.source.value}| <= |s.sources|; }
    }
  }

  lemma {:induction false} AtMostOneAlways(s: Stream, acts: seq<Action>)
    requires AtMostOne(s) && Runnable(s, acts) && NoReconnect(acts)
    ensures AtMostOne(Exec(s, acts))
    decreases |acts|
  {
    if acts == [] {
    } else {
      assert !acts[0].ReconnectCall? && NoReconnect(acts[1..]) by {
        assert forall i :: 0 <= i < |acts[1..]| ==> acts[1..][i] == acts[i + 1];
      }
      AtMostOneStep(s, acts[0]);
      AtMostOneAlways(Next(s, acts[0]), acts[1..]);
    }
  }

  /** Until the first reconnect() only a connect still waiting for its token can outlive close(); the very first connect
      does, when close() follows the opening of the stream at once. */
  lemma {:induction false} CloseOutlivedByConnect(acts: seq<Action>)
    requires Runnable(START, acts) && NoReconnect(acts)
    ensures OnlyCurrent(Exec(START, acts)) <==> Exec(START, acts).connecting == 0
    ensures !OnlyCurrent(START)
  {
    AtMostOneAlways(START, acts);
  }

  // ---------- the closure's variables, updated in place ----------

  /** openLogStream: every entry point is one step of the machine and keeps the schedule. */
  class LogStream {
    var attempt: nat
    var closed: bool
    var timer: Option<nat>
    var source: Option<nat>
    var timers: set<nat>
    var connecting: nat
    var sources: set<nat>
    var next: nat
    ghost var connects: nat
    ghost var giveUps: nat
    ghost var delays: seq<nat>

    ghost function View(): Stream
      reads this
    {
      Stream(attempt, closed, timer, source, timers, connecting, sources, next, connects, giveUps, delays)
    }

    constructor ()
      ensures View() == START && OnSchedule(View())
    {
      attempt, closed, timer, source, timers, connecting, sources, next := 0, false, None, None, {}, 1, {}, 0;
      connects, giveUps, delays := 1, 0, [];
    }

    method ClearUp()
      modifies this
      ensures View() == Cleanup(old(View()))
    {
      if timer.Some? {
        timers := timers - {timer.value};
        timer := None;
      }
      if source.Some? {
        sources := sources - {source.value};
        source := None;
      }
    }

    method StartConnect()
      modifies this
      ensures View() == Connect(old(View()))
    {
      if closed {
        return;
      }
      connecting := connecting + 1;
      connects := connects + 1;
    }

    method Retry()
      modifies this
      ensures View() == ScheduleRetry(old(View()))
    {
      if closed {
        return;
      }
      if attempt >= |BACKOFF_MS| {
        giveUps := giveUps + 1;
        return;
      }
      var delay := BACKOFF_MS[attempt];
      attempt := attempt + 1;
      timer, timers, next := Some(next), timers + {next}, next + 1;
      delays := delays + [delay];
    }

    method Fire(t: nat)
      requires OnSchedule(View()) && Enabled(View(), TimerFires(t))
      modifies this
      ensures View() == Next(old(View()), TimerFires(t)) && OnSchedule(View())
    {
      OnScheduleStep(View(), TimerFires(t));
      timers := timers - {t};
      StartConnect();
    }

    /** The awaited part of connect: the token or the event source may fail. */
    method Settle(ok: bool)
      requires OnSchedule(View()) && connecting > 0
      modifies this
      ensures View() == Next(old(View()), if ok then ConnectOpens else ConnectFails) && OnSchedule(View())
    {
      OnScheduleStep(View(), if ok then ConnectOpens else ConnectFails);
      connecting := connecting - 1;
      if !ok {
        Retry();
        return;
      }
      source, sources, next := Some(next), sources + {next}, next + 1;
    }

    method OnOpen(id: nat)
      requires OnSchedule(View()) && id in sources
      modifies this
      ensures View() == Next(old(View()), Opened(id)) && OnSchedule(View())
    {
      attempt := 0;
      delays := [];
    }

    method OnError(id: nat)
      requires OnSchedule(View()) && id in sources
      modifies this
      ensures View() == Next(old(View()), Errored(id)) && OnSchedule(View())
    {
      OnScheduleStep(View(), Errored(id));
      sources := sources - {id};
      source := None;
      Retry();
    }

    method Close()
      requires OnSchedule(View())
      modifies this
      ensures View() == Next(old(View()), CloseCall) && OnSchedule(View())
    {
      closed := true;
      ClearUp();
    }

    method Reconnect()
      requires OnSchedule(View())
      modifies this
      ensures View() == Next(old(View()), ReconnectCall) && OnSchedule(View())
    {
      attempt := 0;
      delays := [];
      ClearUp();
      closed := false;
      StartConnect();
    }
  }
}
