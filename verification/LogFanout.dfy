/** The log hub under any interleaving of publishers, subscribers and readers (internal/observability/sse.go).
    Events are numbered in publish order; publisher i is the goroutine inside publish for event i.  Ring update and
    copy of the subscriber set happen under the hub lock, in one step; the three non-blocking channel operations of a
    delivery are separate steps, and replay runs after the lock is dropped.  Unsubscribing is three steps: out of the
    subscriber set, the closed flag, close(ch).  A send on a closed channel panics and ends the run. */
module LogFanout {
  import opened Collections
  import opened LogRing
  import opened Delivery

  /** The hub's ring and its size. */
  datatype TapeRecord = Tape(ring: Ring<nat>, size: nat)

  type Tape = t: TapeRecord | t.size > 0 && Fits(t.ring, t.size) witness Tape(Ring([], 0, false), 1)

  /** `n`: events published when it registered; `replay`: the ring snapshot taken then; `pos`: the replay position, with
      `replaying` set while event `replay[pos]` is being delivered.  `replayed` and `live` list the events offered so
      far by replay and by live dispatch.  `marked` is the closed flag, `shut` a closed channel. */
  datatype Sub = Sub(
    n: nat, replay: seq<nat>, pos: nat, replaying: Option<Stage>, replayed: seq<nat>, live: seq<nat>,
    chan: seq<nat>, got: seq<nat>, registered: bool, marked: bool, shut: bool)

  /** Subscribers still to be served, and the delivery under way. */
  datatype Pub = Pub(todo: set<nat>, target: Option<nat>, stage: Stage)

  datatype State = State(published: nat, tape: Tape, subs: map<nat, Sub>, pubs: map<nat, Pub>, cap: nat)

  datatype Action =
    | Publish
    | Begin(i: nat, s: nat)
    | Deliver(i: nat)
    | Finish(i: nat)
    | Subscribe(s: nat)
    | ReplayNext(s: nat)
    | ReplayDeliver(s: nat)
    | Read(s: nat)
    | Unsubscribe(s: nat)
    | Mark(s: nat)
    | Shut(s: nat)

  /** Event i is being delivered to s right now. */
  predicate InFlight(e: State, s: nat, i: nat) {
    || (s in e.subs && e.subs[s].replaying.Some? && e.subs[s].pos < |e.subs[s].replay|
        && e.subs[s].replay[e.subs[s].pos] == i)
    || (i in e.pubs && e.pubs[i].target == Some(s))
  }

  /** The action is a send on the closed channel of s. */
  predicate Panics(e: State, s: nat, a: Action) {
    && s in e.subs && e.subs[s].shut
    && (|| (Delivers(e, s, a) && !e.pubs[a.i].stage.Drop?)
        || (Replays(e, s, a) && !e.subs[s].replaying.value.Drop?))
  }

  predicate Enabled(e: State, a: Action) {
    match a
    case Publish => true
    case Begin(i, s) => i in e.pubs && e.pubs[i].target.None? && s in e.pubs[i].todo && s in e.subs
    case Deliver(i) =>
      && i in e.pubs && e.pubs[i].target.Some? && e.pubs[i].target.value in e.subs
      && !Panics(e, e.pubs[i].target.value, a)
    case Finish(i) => i in e.pubs && e.pubs[i].target.None? && e.pubs[i].todo == {}
    case Subscribe(s) => s !in e.subs
    case ReplayNext(s) => s in e.subs && e.subs[s].replaying.None? && e.subs[s].pos < |e.subs[s].replay|
    case ReplayDeliver(s) =>
      && s in e.subs && e.subs[s].replaying.Some? && e.subs[s].pos < |e.subs[s].replay|
      && !Panics(e, s, a)
    case Read(s) => s in e.subs && e.subs[s].chan != []
    case Unsubscribe(s) => s in e.subs && e.subs[s].registered && e.subs[s].pos == |e.subs[s].replay|
    case Mark(s) => s in e.subs && !e.subs[s].registered && !e.subs[s].marked
    case Shut(s) => s in e.subs && e.subs[s].marked && !e.subs[s].shut
  }

  predicate Delivers(e: State, s: nat, a: Action) {
    a.Deliver? && a.i in e.pubs && e.pubs[a.i].target == Some(s)
  }

  predicate Replays(e: State, s: nat, a: Action) {
    a == ReplayDeliver(s) && s in e.subs && e.subs[s].replaying.Some? && e.subs[s].pos < |e.subs[s].replay|
  }

  function SubAfter(e: State, s: nat, a: Action): Sub
    requires s in e.subs
    requires a == Read(s) ==> e.subs[s].chan != []
    requires a == ReplayNext(s) ==> e.subs[s].pos < |e.subs[s].replay|
  {
    var r := e.subs[s];
    var replayed := if Replays(e, s, a) then StageAfter(r.chan, r.replaying.value, e.cap) else r.replaying;
    Sub(r.n, r.replay,
        if Replays(e, s, a) && replayed.None? then r.pos + 1 else r.pos,
        if a == ReplayNext(s) then Some(Try) else replayed,
        if a == ReplayNext(s) then r.replayed + [r.replay[r.pos]] else r.replayed,
        if a.Begin? && a.s == s && !r.marked then r.live + [a.i] else r.live,
        if Delivers(e, s, a) then ChanAfter(r.chan, a.i, e.pubs[a.i].stage, e.cap)
        else if Replays(e, s, a) then ChanAfter(r.chan, r.replay[r.pos], r.replaying.value, e.cap)
        else if a == Read(s) then r.chan[1..]
        else r.chan,
        if a == Read(s) then r.got + [r.chan[0]] else r.got,
        r.registered && a != Unsubscribe(s),
        r.marked || a == Mark(s),
        r.shut || a == Shut(s))
  }

  /** The copy of the subscriber set taken under the lock. */
  function Registered(e: State): set<nat> {
    set s | s in e.subs && e.subs[s].registered
  }

  /** Snapshot and registration, in one step under the hub lock. */
  function NewSub(e: State): Sub {
    Sub(e.published, Snapshot(e.tape.ring), 0, None, [], [], [], [], true, false, false)
  }

  function PubAfter(e: State, i: nat, a: Action): Pub
    requires i in e.pubs
  {
    var p := e.pubs[i];
    var starts := a.Begin? && a.i == i && a.s in e.subs && !e.subs[a.s].marked;
    var next := if a == Deliver(i) && p.target.Some? && p.target.value in e.subs
                then StageAfter(e.subs[p.target.value].chan, p.stage, e.cap) else Some(p.stage);
    Pub(if a.Begin? && a.i == i then p.todo - {a.s} else p.todo,
        if starts then Some(a.s) else if next.None? then None else p.target,
        if starts then Try else if next.Some? then next.value else p.stage)
  }

  function Next(e: State, a: Action): State
    requires Enabled(e, a)
  {
    e.(subs := map s | s in e.subs.Keys + (if a.Subscribe? then {a.s} else {}) ::
                 if s in e.subs then SubAfter(e, s, a) else NewSub(e),
       pubs := if a.Publish? then e.pubs[e.published := Pub(Registered(e), None, Try)]
               else map i | i in e.pubs && a != Finish(i) :: PubAfter(e, i, a),
       tape := if a.Publish? then Tape(Push(e.tape.ring, e.published, e.tape.size), e.tape.size) else e.tape,
       published := if a.Publish? then e.published + 1 else e.published)
  }

  // ---------- the invariant ----------

  predicate Pending(e: State, s: nat, i: nat) {
    i in e.pubs && s in e.pubs[i].todo
  }

  /** Event i has been offered to the subscriber, by replay or by live dispatch. */
  predicate Offered(r: Sub, i: nat) {
    i in r.replayed || i in r.live
  }

  /** The first n events. */
  function Numbers(n: nat): seq<nat> {
    seq(n, i requires 0 <= i < n => i)
  }

  /** The snapshot is the last `size` events before registration; replay walks it in order. */
  ghost predicate Bounds(e: State, r: Sub) {
    && r.replay == LastN(Numbers(r.n), e.tape.size)
    && r.pos <= |r.replay| && r.n <= e.published
    && (r.replaying.Some? ==> r.pos < |r.replay|)
    && (r.marked ==> !r.registered) && (r.shut ==> r.marked)
    && (r.registered || r.pos == |r.replay|)
    && |r.replayed| == r.pos + (if r.replaying.Some? then 1 else 0)
    && r.replayed <= r.replay
  }

  /** Live dispatch offers events from registration on, each at most once, and while the subscriber stays
      registered misses none: it has been offered or some publisher still has it to do. */
  ghost predicate LiveOk(e: State, s: nat, r: Sub) {
    && NoDuplicates(r.live)
    && (forall i :: i in r.live ==> r.n <= i < e.published && !Pending(e, s, i))
    && (r.registered ==> forall i :: r.n <= i < e.published ==> i in r.live || Pending(e, s, i))
  }

  /** Nothing reaches the channel twice, or without having been offered. */
  ghost predicate ChanOk(e: State, s: nat, r: Sub) {
    && |r.chan| <= e.cap
    && NoDuplicates(r.got + r.chan)
    && (forall i :: i in r.got + r.chan ==> Offered(r, i) && !InFlight(e, s, i))
  }

  ghost predicate SubOk(e: State, s: nat, r: Sub) {
    Bounds(e, r) && LiveOk(e, s, r) && ChanOk(e, s, r)
  }

  ghost predicate PubOk(e: State, i: nat, p: Pub) {
    && i < e.published
    && (forall s :: s in p.todo ==> s in e.subs && e.subs[s].n <= i && i !in e.subs[s].live)
    && (p.target.Some? ==> p.target.value in e.subs && i in e.subs[p.target.value].live && p.target.value !in p.todo)
  }

  ghost predicate Inv(e: State) {
    && Shows(e.tape.ring, Numbers(e.published), e.tape.size)
    && (forall s :: s in e.subs ==> SubOk(e, s, e.subs[s]))
    && (forall i :: i in e.pubs ==> PubOk(e, i, e.pubs[i]))
  }

  /** A snapshot is a run of consecutive event numbers. */
  lemma ReplayOrder(r: Sub, size: nat)
    requires r.replay == LastN(Numbers(r.n), size)
    ensures |r.replay| <= r.n && forall k :: 0 <= k < |r.replay| ==> r.replay[k] == r.n - |r.replay| + k
  {
  }

  // ---------- one step ----------

  /** What the sub and pub entries say about one subscriber and one event. */
  ghost predicate Facts(e: State, s: nat, i: nat) {
    && s in e.subs && Bounds(e, e.subs[s]) && LiveOk(e, s, e.subs[s])
    && (i in e.pubs ==> PubOk(e, i, e.pubs[i]))
  }

  lemma PubTodoStep(e: State, a: Action, i: nat, s: nat)
    requires Enabled(e, a) && i in Next(e, a).pubs && s in Next(e, a).pubs[i].todo
    requires i in e.pubs ==> PubOk(e, i, e.pubs[i])
    requires forall t :: t in e.subs ==> Facts(e, t, i)
    ensures s in Next(e, a).subs && Next(e, a).subs[s].n <= i && i !in Next(e, a).subs[s].live
  {
    if i in e.pubs {
      assert s in e.pubs[i].todo;
    }
    assert Facts(e, s, i);
  }

  lemma PubTargetStep(e: State, a: Action, i: nat)
    requires Enabled(e, a) && i in Next(e, a).pubs
    requires i in e.pubs ==> PubOk(e, i, e.pubs[i])
    ensures var e' := Next(e, a);
            && i < e'.published
            && (e'.pubs[i].target.Some? ==>
                  && e'.pubs[i].target.value in e'.subs
                  && i in e'.subs[e'.pubs[i].target.value].live
                  && e'.pubs[i].target.value !in e'.pubs[i].todo)
  {
  }

  lemma PubStep(e: State, a: Action, i: nat)
    requires Inv(e) && Enabled(e, a) && i in Next(e, a).pubs
    ensures PubOk(Next(e, a), i, Next(e, a).pubs[i])
  {
    assert i in e.pubs ==> PubOk(e, i, e.pubs[i]);
    forall t | t in e.subs ensures Facts(e, t, i) { assert SubOk(e, t, e.subs[t]); }
    PubTargetStep(e, a, i);
    forall s | s in Next(e, a).pubs[i].todo
      ensures s in Next(e, a).subs && Next(e, a).subs[s].n <= i && i !in Next(e, a).subs[s].live
    {
      PubTodoStep(e, a, i, s);
    }
  }

  lemma BoundsStep(e: State, a: Action, s: nat)
    requires Enabled(e, a) && s in e.subs && Bounds(e, e.subs[s])
    ensures Bounds(Next(e, a), Next(e, a).subs[s])
  {
  }

  /** A step changes the offers and the pending work for s only through Publish and Begin. */
  lemma PendingStep(e: State, a: Action, s: nat, i: nat)
    requires Enabled(e, a) && s in e.subs
    ensures Pending(Next(e, a), s, i) ==> Pending(e, s, i) || (a.Publish? && i == e.published && e.subs[s].registered)
    ensures a.Publish? && e.subs[s].registered ==> Pending(Next(e, a), s, e.published)
    ensures Pending(e, s, i) && (a.Publish? ==> i != e.published) ==> Pending(Next(e, a), s, i) || a == Begin(i, s)
    ensures a == Begin(i, s) ==> Pending(e, s, i) && !Pending(Next(e, a), s, i)
    ensures Next(e, a).subs[s].live ==
              if a.Begin? && a.s == s && !e.subs[s].marked then e.subs[s].live + [a.i] else e.subs[s].live
  {
  }

  lemma LiveStep(e: State, a: Action, s: nat)
    requires Enabled(e, a) && s in e.subs && Bounds(e, e.subs[s]) && LiveOk(e, s, e.subs[s])
    requires forall i :: i in e.pubs ==> PubOk(e, i, e.pubs[i])
    ensures LiveOk(Next(e, a), s, Next(e, a).subs[s])
  {
    var r, e' := e.subs[s], Next(e, a);
    var r' := e'.subs[s];
    if a.Begin? { assert PubOk(e, a.i, e.pubs[a.i]); }
    PendingStep(e, a, s, 0);
    forall i | i in r'.live ensures r'.n <= i < e'.published && !Pending(e', s, i) {
      PendingStep(e, a, s, i);
    }
    forall i | r'.registered && r'.n <= i < e'.published ensures i in r'.live || Pending(e', s, i) {
      PendingStep(e, a, s, i);
      assert i in e.pubs ==> PubOk(e, i, e.pubs[i]);
    }
  }

  /** Offers are never taken back. */
  lemma OffersGrow(e: State, a: Action, s: nat, i: nat)
    requires Enabled(e, a) && s in e.subs && Offered(e.subs[s], i)
    ensures Offered(Next(e, a).subs[s], i)
  {
  }

  /** A replay delivery starts only for an event not offered before. */
  lemma ReplayIsFresh(e: State, a: Action, s: nat)
    requires Enabled(e, a) && s in e.subs && Bounds(e, e.subs[s]) && LiveOk(e, s, e.subs[s])
    requires Next(e, a).subs[s].replaying.Some? && e.subs[s].replaying.None?
    ensures e.subs[s].pos < |e.subs[s].replay| && !Offered(e.subs[s], e.subs[s].replay[e.subs[s].pos])
  {
    ReplayOrder(e.subs[s], e.tape.size);
  }

  /** Event i has been offered to s and its delivery is over. */
  ghost predicate Over(e: State, s: nat, i: nat) {
    s in e.subs && Offered(e.subs[s], i) && !InFlight(e, s, i)
  }

  /** A delivery that is over stays over: no event is delivered twice. */
  lemma OverStep(e: State, a: Action, s: nat, i: nat)
    requires Enabled(e, a) && Facts(e, s, i) && Over(e, s, i)
    ensures Over(Next(e, a), s, i)
  {
    OffersGrow(e, a, s, i);
    if Next(e, a).subs[s].replaying.Some? && e.subs[s].replaying.None? {
      ReplayIsFresh(e, a, s);
    }
  }

  lemma FlightIsOffered(e: State, s: nat, i: nat)
    requires Facts(e, s, i) && InFlight(e, s, i)
    ensures Offered(e.subs[s], i)
  {
    var r := e.subs[s];
    if r.replaying.Some? && r.replay[r.pos] == i {
      assert r.replayed[r.pos] == r.replay[r.pos];
    }
  }

  lemma FactsHold(e: State, s: nat, i: nat)
    requires Inv(e) && s in e.subs
    ensures Facts(e, s, i)
  {
    assert SubOk(e, s, e.subs[s]);
    assert i in e.pubs ==> PubOk(e, i, e.pubs[i]);
  }

  /** What one channel operation does to the channel, and whether the delivery is over. */
  lemma LiveEnd(e: State, s: nat, i: nat)
    requires Enabled(e, Deliver(i)) && Delivers(e, s, Deliver(i)) && s in e.subs && Facts(e, s, i)
    ensures !InFlight(Next(e, Deliver(i)), s, i) <==> StageAfter(e.subs[s].chan, e.pubs[i].stage, e.cap).None?
    ensures Next(e, Deliver(i)).subs[s].got == e.subs[s].got
    ensures Next(e, Deliver(i)).subs[s].chan == ChanAfter(e.subs[s].chan, i, e.pubs[i].stage, e.cap)
  {
    ReplayOrder(e.subs[s], e.tape.size);
  }

  lemma ReplayEnd(e: State, s: nat)
    requires Enabled(e, ReplayDeliver(s)) && Facts(e, s, e.subs[s].replay[e.subs[s].pos])
    ensures var r, i := e.subs[s], e.subs[s].replay[e.subs[s].pos];
            var r' := Next(e, ReplayDeliver(s)).subs[s];
            && (!InFlight(Next(e, ReplayDeliver(s)), s, i) <==> StageAfter(r.chan, r.replaying.value, e.cap).None?)
            && r'.got == r.got && r'.chan == ChanAfter(r.chan, i, r.replaying.value, e.cap)
  {
    ReplayOrder(e.subs[s], e.tape.size);
  }

  /** A live delivery ends with the event in the channel at most once. */
  lemma ChanOfDeliver(e: State, a: Action, s: nat) returns (ev: Option<nat>)
    requires Enabled(e, a) && s in e.subs && |e.subs[s].chan| <= e.cap && Delivers(e, s, a) && Facts(e, s, a.i)
    ensures ChanMoved(e, a, s, ev)
  {
    ev := if |e.subs[s].chan| < e.cap && !e.pubs[a.i].stage.Drop? then Some(a.i) else None;
    LiveEnd(e, s, a.i);
  }

  lemma ChanOfReplay(e: State, a: Action, s: nat) returns (ev: Option<nat>)
    requires Enabled(e, a) && s in e.subs && |e.subs[s].chan| <= e.cap && Replays(e, s, a)
    requires Facts(e, s, e.subs[s].replay[e.subs[s].pos])
    ensures ChanMoved(e, a, s, ev)
  {
    var r := e.subs[s];
    ReplayOrder(r, e.tape.size);
    ev := if |r.chan| < e.cap && !r.replaying.value.Drop? then Some(r.replay[r.pos]) else None;
  }

  /** How a step changes what has reached the channel: nothing new, the delivered event, or the oldest dropped. */
  ghost predicate ChanMoved(e: State, a: Action, s: nat, ev: Option<nat>)
    requires Enabled(e, a) && s in e.subs
  {
    var r, r' := e.subs[s], Next(e, a).subs[s];
    && |r'.chan| <= e.cap
    && (ev.Some? ==>
          && InFlight(e, s, ev.value) && !InFlight(Next(e, a), s, ev.value)
          && r'.got + r'.chan == r.got + r.chan + [ev.value])
    && (ev.None? ==>
          || r'.got + r'.chan == r.got + r.chan
          || (r.chan != [] && r'.got + r'.chan == r.got + r.chan[1..]))
  }

  lemma ChanMoves(e: State, a: Action, s: nat) returns (ev: Option<nat>)
    requires Inv(e) && Enabled(e, a) && s in e.subs
    ensures ChanMoved(e, a, s, ev)
  {
    assert SubOk(e, s, e.subs[s]);
    if Delivers(e, s, a) {
      assert PubOk(e, a.i, e.pubs[a.i]);
      ev := ChanOfDeliver(e, a, s);
    } else if Replays(e, s, a) {
      var i := e.subs[s].replay[e.subs[s].pos];
      assert i in e.pubs ==> PubOk(e, i, e.pubs[i]);
      ev := ChanOfReplay(e, a, s);
    } else {
      ev := None;
      ChanElsewhere(e, a, s);
    }
  }

  lemma ReadKeepsReach(e: State, s: nat, a: Action)
    requires s in e.subs && !Delivers(e, s, a) && !Replays(e, s, a) && (a == Read(s) ==> e.subs[s].chan != [])
    requires a == ReplayNext(s) ==> e.subs[s].pos < |e.subs[s].replay|
    ensures SubAfter(e, s, a).got + SubAfter(e, s, a).chan == e.subs[s].got + e.subs[s].chan
    ensures |SubAfter(e, s, a).chan| <= |e.subs[s].chan|
  {
    var chan := e.subs[s].chan;
    if a == Read(s) {
      assert chan == [chan[0]] + chan[1..];
    }
  }

  lemma ChanElsewhere(e: State, a: Action, s: nat)
    requires Enabled(e, a) && s in e.subs && |e.subs[s].chan| <= e.cap && !Delivers(e, s, a) && !Replays(e, s, a)
    ensures ChanMoved(e, a, s, None)
  {
    ReadKeepsReach(e, s, a);
  }

  lemma DropKeepsDistinct(got: seq<nat>, chan: seq<nat>)
    requires chan != [] && NoDuplicates(got + chan)
    ensures NoDuplicates(got + chan[1..])
    ensures forall i :: i in got + chan[1..] ==> i in got + chan
  {
    var all, rest := got + chan, got + chan[1..];
    forall p, q | 0 <= p < q < |rest| ensures rest[p] != rest[q] {
      assert rest[p] == all[if p < |got| then p else p + 1] && rest[q] == all[if q < |got| then q else q + 1];
    }
    forall i | i in rest ensures i in all {
      var p :| 0 <= p < |rest| && rest[p] == i;
      assert all[if p < |got| then p else p + 1] == i;
    }
  }

  /** What has reached the channel has been offered and is not being delivered any more. */
  lemma LandedIsOver(e: State, a: Action, s: nat, ev: Option<nat>, i: nat)
    requires Inv(e) && Enabled(e, a) && s in e.subs && ChanMoved(e, a, s, ev)
    requires i in Next(e, a).subs[s].got + Next(e, a).subs[s].chan
    ensures Over(Next(e, a), s, i)
  {
    var r := e.subs[s];
    FactsHold(e, s, i);
    assert SubOk(e, s, r);
    assert i in r.got + r.chan || ev == Some(i);
    if i in r.got + r.chan {
      OverStep(e, a, s, i);
    } else {
      FlightIsOffered(e, s, i);
      OffersGrow(e, a, s, i);
    }
  }

  lemma ChanStep(e: State, a: Action, s: nat)
    requires Inv(e) && Enabled(e, a) && s in e.subs
    ensures ChanOk(Next(e, a), s, Next(e, a).subs[s])
  {
    var r, r' := e.subs[s], Next(e, a).subs[s];
    assert SubOk(e, s, r);
    var ev := ChanMoves(e, a, s);
    assert ev.Some? ==> ev.value !in r.got + r.chan;
    forall i | i in r'.got + r'.chan ensures Offered(r', i) && !InFlight(Next(e, a), s, i) {
      LandedIsOver(e, a, s, ev, i);
    }
    if r.chan != [] { DropKeepsDistinct(r.got, r.chan); }
  }

  lemma NewSubOk(e: State, s: nat)
    requires Inv(e) && s !in e.subs
    ensures SubOk(Next(e, Subscribe(s)), s, NewSub(e))
  {
    assert NewSub(e).replay == LastN(Numbers(e.published), e.tape.size);
    forall i ensures !Pending(Next(e, Subscribe(s)), s, i) {
      assert i in e.pubs ==> PubOk(e, i, e.pubs[i]);
    }
  }

  lemma TapeStep(e: State, a: Action)
    requires Enabled(e, a) && Shows(e.tape.ring, Numbers(e.published), e.tape.size)
    ensures Shows(Next(e, a).tape.ring, Numbers(Next(e, a).published), Next(e, a).tape.size)
    ensures Next(e, a).tape.size == e.tape.size && Next(e, a).cap == e.cap
  {
    PushShows(e.tape.ring, Numbers(e.published), e.published, e.tape.size);
    assert Numbers(e.published + 1) == Numbers(e.published) + [e.published];
  }

  lemma InvStep(e: State, a: Action)
    requires Inv(e) && Enabled(e, a)
    ensures Inv(Next(e, a))
  {
    var e' := Next(e, a);
    TapeStep(e, a);
    forall s | s in e'.subs ensures SubOk(e', s, e'.subs[s]) {
      if s in e.subs {
        assert SubOk(e, s, e.subs[s]);
        BoundsStep(e, a, s);
        LiveStep(e, a, s);
        ChanStep(e, a, s);
      } else {
        NewSubOk(e, s);
      }
    }
    forall i | i in e'.pubs ensures PubOk(e', i, e'.pubs[i]) {
      PubStep(e, a, i);
    }
  }

  // ---------- whole runs ----------

  ghost predicate Runnable(e: State, acts: seq<Action>)
    decreases |acts|
  {
    acts == [] || (Enabled(e, acts[0]) && Runnable(Next(e, acts[0]), acts[1..]))
  }

  ghost function Exec(e: State, acts: seq<Action>): State
    requires Runnable(e, acts)
    decreases |acts|
  {
    if acts == [] then e else Exec(Next(e, acts[0]), acts[1..])
  }

  lemma {:induction false} InvAlways(e: State, acts: seq<Action>)
    requires Inv(e) && Runnable(e, acts)
    ensures Inv(Exec(e, acts)) && Exec(e, acts).tape.size == e.tape.size && Exec(e, acts).cap == e.cap
    decreases |acts|
  {
    if acts == [] {
    } else {
      InvStep(e, acts[0]);
      TapeStep(e, acts[0]);
      InvAlways(Next(e, acts[0]), acts[1..]);
    }
  }
}
