/** What the log hub guarantees a subscriber in every interleaving, when it loses the newest event, and when closing
    its channel panics (internal/observability/sse.go). */
module FanoutTheorems {
  import opened Collections
  import opened LogRing
  import opened Delivery
  import opened LogFanout

  function Empty(size: nat, cap: nat): State
    requires size > 0
  {
    State(0, Tape(Ring([], 0, false), size), map[], map[], cap)
  }

  /** Some interleaving leads from an empty hub to e. */
  ghost predicate Reachable(size: nat, cap: nat, e: State)
    requires size > 0
  {
    exists acts :: Runnable(Empty(size, cap), acts) && Exec(Empty(size, cap), acts) == e
  }

  lemma ReachableInv(size: nat, cap: nat, e: State)
    requires size > 0 && Reachable(size, cap, e)
    ensures Inv(e) && e.tape.size == size && e.cap == cap
  {
    var acts :| Runnable(Empty(size, cap), acts) && Exec(Empty(size, cap), acts) == e;
    InvAlways(Empty(size, cap), acts);
  }

  // ---------- offered exactly once ----------

  /** In every interleaving: replay offers a subscriber the snapshot of the ring at its registration, in order and once
      each, and live dispatch only later events, each at most once, so no event is offered twice and none reaches it
      twice; while it stays registered every later event has been offered or is still some publisher's to offer,
      exactly one of the two; and its queue never exceeds the buffer. */
  lemma OfferedExactlyOnce(size: nat, cap: nat, e: State, s: nat)
    requires size > 0 && Reachable(size, cap, e) && s in e.subs
    ensures var r := e.subs[s];
            && r.replay == LastN(Numbers(r.n), size)
            && r.replayed <= r.replay && (!r.registered ==> r.replayed == r.replay)
            && (forall i :: i in r.replayed ==> i < r.n)
            && (forall i :: i in r.live ==> r.n <= i < e.published)
            && NoDuplicates(r.replayed) && NoDuplicates(r.live)
            && (r.registered ==> forall i: nat :: r.n <= i < e.published ==> (i in r.live <==> !Pending(e, s, i)))
            && NoDuplicates(r.got + r.chan)
            && (forall i :: i in r.got + r.chan ==> i in r.replayed || i in r.live)
            && |r.chan| <= cap
  {
    ReachableInv(size, cap, e);
    var r := e.subs[s];
    assert SubOk(e, s, r);
    ReplayOrder(r, size);
  }

  /** The snapshot a subscriber gets is what the ring shows at that moment. */
  lemma RegistrationTakesTheRing(size: nat, cap: nat, e: State, s: nat)
    requires size > 0 && Reachable(size, cap, e) && s !in e.subs
    ensures Next(e, Subscribe(s)).subs[s].replay == Snapshot(e.tape.ring) == LastN(Numbers(e.published), size)
  {
    ReachableInv(size, cap, e);
  }

  /** A read hands the oldest queued event over and touches nothing else. */
  lemma ReadTakesOldest(e: State, s: nat)
    requires Enabled(e, Read(s))
    ensures var r, r' := e.subs[s], Next(e, Read(s)).subs[s];
            && r'.got == r.got + [r.chan[0]] && r.chan == [r.chan[0]] + r'.chan
            && r' == r.(got := r'.got, chan := r'.chan)
  {
  }

  // ---------- where a delivery ends ----------

  /** The step is a channel operation of the delivery of i to s. */
  predicate Operates(e: State, s: nat, i: nat, a: Action) {
    (Delivers(e, s, a) && a.i == i) || (Replays(e, s, a) && e.subs[s].replay[e.subs[s].pos] == i)
  }

  /** The step ends the delivery of i to s. */
  predicate Ends(e: State, s: nat, i: nat, a: Action)
    requires Enabled(e, a)
  {
    Operates(e, s, i, a) && !InFlight(Next(e, a), s, i)
  }

  /** The step that ends a delivery, by any of any number of concurrent dispatchers, appends its event to the channel if
      and only if the channel has room at that send; then it is the newest in the queue, and otherwise it is in neither
      queue nor hands. */
  lemma DeliveryLandsIff(size: nat, cap: nat, e: State, s: nat, i: nat, a: Action)
    requires size > 0 && Reachable(size, cap, e) && s in e.subs && Enabled(e, a) && Ends(e, s, i, a)
    ensures var r, r' := e.subs[s], Next(e, a).subs[s];
            && (i in r'.got + r'.chan <==> |r.chan| < cap)
            && (|r.chan| < cap ==> r'.chan == r.chan + [i])
            && (|r.chan| >= cap ==> r'.chan == r.chan && r'.got == r.got)
  {
    ReachableInv(size, cap, e);
    FactsHold(e, s, i);
    assert SubOk(e, s, e.subs[s]);
    assert InFlight(e, s, i) && i !in e.subs[s].got + e.subs[s].chan;
    if Delivers(e, s, a) { LiveEnd(e, s, i); } else { ReplayEnd(e, s); }
  }

  /** An event that was lost is lost for good. */
  lemma {:induction false} LostForGood(e: State, acts: seq<Action>, s: nat, i: nat)
    requires Inv(e) && Runnable(e, acts) && Over(e, s, i) && i !in e.subs[s].got + e.subs[s].chan
    ensures s in Exec(e, acts).subs && i !in Exec(e, acts).subs[s].got + Exec(e, acts).subs[s].chan
    decreases |acts|
  {
    if acts == [] {
    } else {
      FactsHold(e, s, i);
      OverStep(e, acts[0], s, i);
      var ev := ChanMoves(e, acts[0], s);
      InvStep(e, acts[0]);
      LostForGood(Next(e, acts[0]), acts[1..], s, i);
    }
  }

  // ---------- a full channel at the second send ----------

  /** Some step of the run other than `own` is a channel operation of a delivery to s. */
  ghost predicate AnotherDelivers(e: State, acts: seq<Action>, s: nat, own: Action)
    requires Runnable(e, acts)
    decreases |acts|
  {
    acts != [] &&
    (|| (acts[0] != own && (Delivers(e, s, acts[0]) || Replays(e, s, acts[0])))
     || AnotherDelivers(Next(e, acts[0]), acts[1..], s, own))
  }

  lemma {:induction false} RoomStays(e: State, acts: seq<Action>, s: nat, own: Action)
    requires Inv(e) && Runnable(e, acts) && s in e.subs && |e.subs[s].chan| < e.cap
    requires own !in acts && !AnotherDelivers(e, acts, s, own)
    ensures s in Exec(e, acts).subs && |Exec(e, acts).subs[s].chan| < e.cap
    decreases |acts|
  {
    if acts == [] {
    } else {
      ReadKeepsReach(e, s, acts[0]);
      InvStep(e, acts[0]);
      RoomStays(Next(e, acts[0]), acts[1..], s, own);
    }
  }

  /** After the drop of its own delivery of i, a dispatcher finds the channel full at the second send only if another
      delivery to the same subscriber has touched the channel in between. */
  lemma {:induction false} FullAtRetryNeedsAnother(
    size: nat, cap: nat, e: State, s: nat, i: nat, a: Action, acts: seq<Action>)
    requires size > 0 && cap > 0 && Reachable(size, cap, e) && s in e.subs
    requires Enabled(e, a) && Operates(e, s, i, a)
    requires if Delivers(e, s, a) then e.pubs[i].stage.Drop? else e.subs[s].replaying == Some(Drop)
    requires Runnable(Next(e, a), acts) && a !in acts
    ensures s in Exec(Next(e, a), acts).subs
    ensures |Exec(Next(e, a), acts).subs[s].chan| >= cap ==> AnotherDelivers(Next(e, a), acts, s, a)
  {
    ReachableInv(size, cap, e);
    assert SubOk(e, s, e.subs[s]);
    InvStep(e, a);
    TapeStep(e, a);
    SubsStay(Next(e, a), acts, s);
    if !AnotherDelivers(Next(e, a), acts, s, a) {
      RoomStays(Next(e, a), acts, s, a);
    }
  }

  lemma {:induction false} SubsStay(e: State, acts: seq<Action>, s: nat)
    requires Runnable(e, acts) && s in e.subs
    ensures s in Exec(e, acts).subs && Exec(e, acts).cap == e.cap
    decreases |acts|
  {
    if acts == [] {
    } else {
      SubsStay(Next(e, acts[0]), acts[1..], s);
    }
  }

  /** At most one delivery to s is under way. */
  ghost predicate OneDelivery(e: State, s: nat) {
    forall i, j :: InFlight(e, s, i) && InFlight(e, s, j) ==> i == j
  }

  ghost predicate AlwaysOneDelivery(e: State, acts: seq<Action>, s: nat)
    requires Runnable(e, acts)
    decreases |acts|
  {
    OneDelivery(e, s) && (acts != [] ==> AlwaysOneDelivery(Next(e, acts[0]), acts[1..], s))
  }

  /** Whoever is about to send a second time has room. */
  ghost predicate Roomy(e: State, s: nat) {
    s in e.subs ==>
      && (e.subs[s].replaying == Some(Retry) ==> |e.subs[s].chan| < e.cap)
      && (forall i :: i in e.pubs && e.pubs[i].target == Some(s) && e.pubs[i].stage.Retry? ==>
            |e.subs[s].chan| < e.cap)
  }

  /** The delivery under way is the only one. */
  lemma OnlyDelivery(e: State, s: nat, i: nat)
    requires Inv(e) && s in e.subs && OneDelivery(e, s) && InFlight(e, s, i)
    ensures forall j :: j in e.pubs && e.pubs[j].target == Some(s) ==> j == i && e.subs[s].replaying.None?
  {
    forall j | j in e.pubs && e.pubs[j].target == Some(s) ensures j == i && e.subs[s].replaying.None? {
      FactsHold(e, s, j);
      ReplayOrder(e.subs[s], e.tape.size);
      assert InFlight(e, s, j);
      if e.subs[s].replaying.Some? {
        assert InFlight(e, s, e.subs[s].replay[e.subs[s].pos]);
      }
    }
  }

  lemma RoomyDeliver(e: State, i: nat, s: nat)
    requires Inv(e) && e.cap > 0 && Enabled(e, Deliver(i)) && s in e.subs && Delivers(e, s, Deliver(i))
    requires OneDelivery(e, s)
    ensures Roomy(Next(e, Deliver(i)), s)
  {
    assert InFlight(e, s, i) && SubOk(e, s, e.subs[s]);
    OnlyDelivery(e, s, i);
  }

  lemma RoomyReplay(e: State, s: nat)
    requires Inv(e) && e.cap > 0 && Enabled(e, ReplayDeliver(s)) && OneDelivery(e, s)
    ensures Roomy(Next(e, ReplayDeliver(s)), s)
  {
    assert InFlight(e, s, e.subs[s].replay[e.subs[s].pos]) && SubOk(e, s, e.subs[s]);
    OnlyDelivery(e, s, e.subs[s].replay[e.subs[s].pos]);
  }

  /** Nobody operates on the channel of s: who was about to send again still is. */
  lemma StillRetrying(e: State, a: Action, s: nat, i: nat)
    requires Enabled(e, a) && !Delivers(e, s, a) && i in Next(e, a).pubs
    requires Next(e, a).pubs[i].target == Some(s) && Next(e, a).pubs[i].stage.Retry?
    ensures i in e.pubs && e.pubs[i].target == Some(s) && e.pubs[i].stage.Retry?
  {
  }

  lemma StillReplaying(e: State, a: Action, s: nat)
    requires Enabled(e, a) && s in e.subs && !Replays(e, s, a) && Next(e, a).subs[s].replaying == Some(Retry)
    ensures e.subs[s].replaying == Some(Retry)
  {
  }

  lemma RoomyElsewhere(e: State, a: Action, s: nat)
    requires Inv(e) && Enabled(e, a) && s in e.subs && Roomy(e, s) && !Delivers(e, s, a) && !Replays(e, s, a)
    ensures Roomy(Next(e, a), s)
  {
    var e' := Next(e, a);
    ReadKeepsReach(e, s, a);
    assert |e'.subs[s].chan| <= |e.subs[s].chan|;
    if e'.subs[s].replaying == Some(Retry) { StillReplaying(e, a, s); }
    forall i | i in e'.pubs && e'.pubs[i].target == Some(s) && e'.pubs[i].stage.Retry?
      ensures |e'.subs[s].chan| < e'.cap
    {
      StillRetrying(e, a, s, i);
    }
  }

  /** Nobody delivers to a subscriber that is not there yet. */
  lemma NoTarget(e: State, a: Action, s: nat, i: nat)
    requires Enabled(e, a) && s !in e.subs && i in Next(e, a).pubs && (i in e.pubs ==> PubOk(e, i, e.pubs[i]))
    ensures Next(e, a).pubs[i].target != Some(s)
  {
  }

  lemma RoomyNewcomer(e: State, a: Action, s: nat)
    requires Inv(e) && Enabled(e, a) && s !in e.subs
    ensures Roomy(Next(e, a), s)
  {
    forall i | i in Next(e, a).pubs ensures Next(e, a).pubs[i].target != Some(s) {
      assert i in e.pubs ==> PubOk(e, i, e.pubs[i]);
      NoTarget(e, a, s, i);
    }
  }

  lemma RoomyStep(e: State, a: Action, s: nat)
    requires Inv(e) && e.cap > 0 && Enabled(e, a) && OneDelivery(e, s) && Roomy(e, s)
    ensures Roomy(Next(e, a), s)
  {
    if s in e.subs && Delivers(e, s, a) {
      RoomyDeliver(e, a.i, s);
    } else if Replays(e, s, a) {
      RoomyReplay(e, s);
    } else if s in e.subs {
      RoomyElsewhere(e, a, s);
    } else {
      RoomyNewcomer(e, a, s);
    }
  }

  lemma RoomyEnd(e: State, s: nat, i: nat, a: Action)
    requires Facts(e, s, i) && Roomy(e, s) && Enabled(e, a) && Ends(e, s, i, a)
    ensures |e.subs[s].chan| < e.cap
  {
    if Delivers(e, s, a) { LiveEnd(e, s, i); } else { ReplayEnd(e, s); }
  }

  lemma {:induction false} RoomyAlways(e: State, acts: seq<Action>, s: nat)
    requires Inv(e) && e.cap > 0 && Runnable(e, acts) && AlwaysOneDelivery(e, acts, s) && Roomy(e, s)
    ensures Roomy(Exec(e, acts), s)
    decreases |acts|
  {
    if acts == [] {
    } else {
      RoomyStep(e, acts[0], s);
      InvStep(e, acts[0]);
      TapeStep(e, acts[0]);
      RoomyAlways(Next(e, acts[0]), acts[1..], s);
    }
  }

  /** While deliveries to a subscriber never overlap, each one that ends leaves its event newest in the queue. */
  lemma {:induction false} AloneNothingNewIsLost(size: nat, cap: nat, acts: seq<Action>, s: nat, i: nat, a: Action)
    requires size > 0 && cap > 0 && Runnable(Empty(size, cap), acts) && AlwaysOneDelivery(Empty(size, cap), acts, s)
    requires s in Exec(Empty(size, cap), acts).subs
    requires Enabled(Exec(Empty(size, cap), acts), a) && Ends(Exec(Empty(size, cap), acts), s, i, a)
    ensures var e := Exec(Empty(size, cap), acts); Next(e, a).subs[s].chan == e.subs[s].chan + [i]
  {
    var e0, e := Empty(size, cap), Exec(Empty(size, cap), acts);
    RoomyAlways(e0, acts, s);
    assert Reachable(size, cap, e);
    ReachableInv(size, cap, e);
    FactsHold(e, s, i);
    RoomyEnd(e, s, i, a);
    DeliveryLandsIff(size, cap, e, s, i, a);
  }

  // ---------- the newest event can be lost ----------

  lemma {:induction false} ExecCons(e: State, a: Action, acts: seq<Action>)
    requires Enabled(e, a) && Runnable(Next(e, a), acts)
    ensures Runnable(e, [a] + acts) && Exec(e, [a] + acts) == Exec(Next(e, a), acts)
  {
    assert ([a] + acts)[1..] == acts;
  }

  lemma {:induction false} ExecSnoc(e: State, acts: seq<Action>, a: Action)
    requires Runnable(e, acts) && Enabled(Exec(e, acts), a)
    ensures Runnable(e, acts + [a]) && Exec(e, acts + [a]) == Next(Exec(e, acts), a)
    decreases |acts|
  {
    if acts == [] {
      ExecCons(e, a, []);
      assert [a] + [] == acts + [a];
    } else {
      ExecSnoc(Next(e, acts[0]), acts[1..], a);
      ExecCons(e, acts[0], acts[1..] + [a]);
      assert [acts[0]] + (acts[1..] + [a]) == acts + [a];
    }
  }

  lemma Reach(size: nat, cap: nat, e: State, a: Action) returns (e': State)
    requires size > 0 && Reachable(size, cap, e) && Enabled(e, a)
    ensures Reachable(size, cap, e') && e' == Next(e, a)
  {
    var acts :| Runnable(Empty(size, cap), acts) && Exec(Empty(size, cap), acts) == e;
    ExecSnoc(Empty(size, cap), acts, a);
    e' := Next(e, a);
  }

  /** Publisher i has taken up its delivery to subscriber 0. */
  lemma PublishAndBegin(size: nat, cap: nat, e: State) returns (e': State)
    requires size > 0 && Reachable(size, cap, e) && 0 in e.subs && e.subs[0].registered && !e.subs[0].marked
    ensures Reachable(size, cap, e') && e'.published == e.published + 1 && e'.cap == e.cap
    ensures e.published in e'.pubs && e'.pubs[e.published].target == Some(0) && e'.pubs[e.published].stage.Try?
    ensures 0 in e'.subs && e'.subs[0] == e.subs[0].(live := e'.subs[0].live) && e.published in e'.subs[0].live
    ensures forall i :: i in e.pubs && i != e.published ==> i in e'.pubs && e'.pubs[i] == e.pubs[i]
  {
    hide Reachable;
    var e1 := Reach(size, cap, e, Publish);
    e' := Reach(size, cap, e1, Begin(e.published, 0));
  }

  /** One channel operation of publisher i on subscriber 0. */
  lemma Operate(size: nat, cap: nat, e: State, i: nat) returns (e': State)
    requires size > 0 && Reachable(size, cap, e) && i in e.pubs && e.pubs[i].target == Some(0)
    requires 0 in e.subs && !e.subs[0].shut
    ensures Reachable(size, cap, e') && e'.published == e.published && 0 in e'.subs && i in e'.pubs
    ensures e'.subs[0] == e.subs[0].(chan := ChanAfter(e.subs[0].chan, i, e.pubs[i].stage, e.cap))
    ensures var next := StageAfter(e.subs[0].chan, e.pubs[i].stage, e.cap);
            && e'.pubs[i].target == (if next.None? then None else Some(0))
            && (next.Some? ==> e'.pubs[i].stage == next.value)
    ensures e'.cap == e.cap && forall j :: j in e.pubs && j != i ==> j in e'.pubs && e'.pubs[j] == e.pubs[j]
  {
    e' := Reach(size, cap, e, Deliver(i));
  }

  /** A subscriber that reads nothing gets a full queue. */
  lemma {:induction false} FillQueue(size: nat, cap: nat, n: nat) returns (e: State)
    requires size > 0 && n <= cap
    ensures Reachable(size, cap, e) && 0 in e.subs && |e.subs[0].chan| == n && e.cap == cap
    ensures e.subs[0].registered && !e.subs[0].marked && !e.subs[0].shut
  {
    if n == 0 {
      e := FirstSubscriber(size, cap);
    } else {
      var e1 := FillQueue(size, cap, n - 1);
      var e2 := PublishAndBegin(size, cap, e1);
      e := Operate(size, cap, e2, e1.published);
    }
  }

  /** For every buffer size there is a run in which two publishers overlap and the newest event, offered to a registered
      subscriber that was never closed, ends in neither its queue nor its hands: the older publisher's send takes the
      room that the newer one has just made. */
  lemma NewestEventCanBeLost(size: nat, cap: nat) returns (e: State)
    requires size > 0 && cap > 0
    ensures Reachable(size, cap, e) && e.published > 0 && 0 in e.subs && e.subs[0].registered
    ensures Over(e, 0, e.published - 1) && e.published - 1 !in e.subs[0].got + e.subs[0].chan
  {
    hide Reachable;
    var full := FillQueue(size, cap, cap);
    var older, newest := full.published, full.published + 1;
    var e1 := PublishAndBegin(size, cap, full);
    var e2 := PublishAndBegin(size, cap, e1);
    e := OvertakenAtRetry(size, cap, e2, older, newest);
  }

  /** The newer publisher drops, the older one sends, the newer one finds the channel full again. */
  lemma OvertakenAtRetry(size: nat, cap: nat, e: State, older: nat, newer: nat) returns (e': State)
    requires size > 0 && cap > 0 && Reachable(size, cap, e) && e.cap == cap && older != newer
    requires 0 in e.subs && |e.subs[0].chan| == cap && e.subs[0].registered && !e.subs[0].shut
    requires forall i :: i in {older, newer} ==> i in e.pubs && e.pubs[i] == Pub(e.pubs[i].todo, Some(0), Try)
    ensures Reachable(size, cap, e') && 0 in e'.subs && e'.subs[0].registered && e'.published == e.published
    ensures Over(e', 0, newer) && newer !in e'.subs[0].got + e'.subs[0].chan
  {
    hide Reachable;
    var e1 := Operate(size, cap, e, newer);
    var e2 := Operate(size, cap, e1, newer);
    var e3 := Operate(size, cap, e2, older);
    assert |e3.subs[0].chan| == cap && e3.pubs[newer].target == Some(0) && e3.pubs[newer].stage.Retry?;
    e' := Refused(size, cap, e3, newer);
  }

  lemma Refused(size: nat, cap: nat, e: State, i: nat) returns (e': State)
    requires size > 0 && Reachable(size, cap, e) && e.cap == cap && 0 in e.subs && |e.subs[0].chan| >= cap
    requires !e.subs[0].shut && i in e.pubs && e.pubs[i].target == Some(0) && e.pubs[i].stage.Retry?
    ensures Reachable(size, cap, e') && 0 in e'.subs && e'.subs[0] == e.subs[0] && e'.published == e.published
    ensures Over(e', 0, i) && i !in e'.subs[0].got + e'.subs[0].chan
  {
    ReachableInv(size, cap, e);
    assert SubOk(e, 0, e.subs[0]) && InFlight(e, 0, i);
    FactsHold(e, 0, i);
    FlightIsOffered(e, 0, i);
    ReplayOrder(e.subs[0], size);
    e' := Operate(size, cap, e, i);
  }

  // ---------- closing the channel ----------

  /** Nothing in the code orders close(ch) after a delivery that already passed the closed check.  No delivery to s is
      under way, and none can start. */
  ghost predicate Hushed(e: State, s: nat) {
    && s in e.subs && e.subs[s].marked && e.subs[s].replaying.None? && e.subs[s].pos == |e.subs[s].replay|
    && forall i :: i in e.pubs ==> e.pubs[i].target != Some(s)
  }

  lemma HushedStep(e: State, a: Action, s: nat)
    requires Hushed(e, s) && Enabled(e, a)
    ensures Hushed(Next(e, a), s)
  {
  }

  lemma {:induction false} HushedAlways(e: State, acts: seq<Action>, s: nat)
    requires Hushed(e, s) && Runnable(e, acts)
    ensures Hushed(Exec(e, acts), s)
    decreases |acts|
  {
    if acts == [] {
    } else {
      HushedStep(e, acts[0], s);
      HushedAlways(Next(e, acts[0]), acts[1..], s);
    }
  }

  /** Some continuation sends on the closed channel of s. */
  ghost predicate CanPanic(e: State, s: nat) {
    exists acts, a :: Runnable(e, acts) && Panics(Exec(e, acts), s, a)
  }

  /** Closing the channel of s leads to a send on a closed channel in some continuation if and only if a delivery to s
      is under way at that moment. */
  lemma CloseCanPanicIff(size: nat, cap: nat, e: State, s: nat)
    requires size > 0 && Reachable(size, cap, e) && Enabled(e, Shut(s))
    ensures CanPanic(Next(e, Shut(s)), s) <==> exists i :: InFlight(e, s, i)
  {
    ReachableInv(size, cap, e);
    assert SubOk(e, s, e.subs[s]);
    var e' := Next(e, Shut(s));
    if i :| InFlight(e, s, i) {
      DeliveryPanics(e, s, i);
    } else {
      forall i | i in e.pubs ensures e.pubs[i].target != Some(s) { assert !InFlight(e, s, i); }
      HushedStep(e, Shut(s), s);
      forall acts, a | Runnable(e', acts) ensures !Panics(Exec(e', acts), s, a) {
        HushedAlways(e', acts, s);
      }
    }
  }

  lemma DeliveryPanics(e: State, s: nat, i: nat)
    requires Inv(e) && Enabled(e, Shut(s)) && InFlight(e, s, i)
    ensures CanPanic(Next(e, Shut(s)), s)
  {
    assert SubOk(e, s, e.subs[s]);
    var e' := Next(e, Shut(s));
    assert e'.pubs[i] == e.pubs[i] && e'.subs[s].shut;
    assert Runnable(e', []) && Exec(e', []) == e';
    if e.pubs[i].stage.Drop? {
      DropThenPanics(e', s, i);
    } else {
      assert Panics(Exec(e', []), s, Deliver(i));
    }
  }

  lemma DropThenPanics(e: State, s: nat, i: nat)
    requires s in e.subs && e.subs[s].shut && i in e.pubs && e.pubs[i].target == Some(s) && e.pubs[i].stage.Drop?
    ensures CanPanic(e, s)
  {
    var e' := Next(e, Deliver(i));
    assert [Deliver(i)][1..] == [] && Runnable(e', []) && Exec(e', []) == e';
    assert Runnable(e, [Deliver(i)]) && Exec(e, [Deliver(i)]) == e';
    assert e'.subs[s].shut && e'.pubs[i].target == Some(s) && e'.pubs[i].stage.Retry?;
    assert Panics(Exec(e, [Deliver(i)]), s, Deliver(i));
  }

  lemma FirstSubscriber(size: nat, cap: nat) returns (e: State)
    requires size > 0
    ensures Reachable(size, cap, e) && e.published == 0 && 0 in e.subs && e.cap == cap
    ensures e.subs[0] == Sub(0, [], 0, None, [], [], [], [], true, false, false)
  {
    assert Runnable(Empty(size, cap), []) && Exec(Empty(size, cap), []) == Empty(size, cap);
    e := Reach(size, cap, Empty(size, cap), Subscribe(0));
  }

  /** cancel: out of the subscriber set. */
  lemma Deregister(size: nat, cap: nat, e: State) returns (e': State)
    requires size > 0 && Reachable(size, cap, e) && 0 in e.subs && e.subs[0].pos == |e.subs[0].replay|
    requires e.subs[0].registered && !e.subs[0].marked && !e.subs[0].shut
    ensures Reachable(size, cap, e') && 0 in e'.subs
    ensures !e'.subs[0].registered && !e'.subs[0].marked && !e'.subs[0].shut
    ensures forall i :: i in e.pubs ==> i in e'.pubs && e'.pubs[i] == e.pubs[i]
  {
    hide Reachable;
    e' := Reach(size, cap, e, Unsubscribe(0));
  }

  /** cancel: the closed flag. */
  lemma RaiseFlag(size: nat, cap: nat, e: State) returns (e': State)
    requires size > 0 && Reachable(size, cap, e) && 0 in e.subs
    requires !e.subs[0].registered && !e.subs[0].marked && !e.subs[0].shut
    ensures Reachable(size, cap, e') && Enabled(e', Shut(0))
    ensures forall i :: i in e.pubs ==> i in e'.pubs && e'.pubs[i] == e.pubs[i]
  {
    hide Reachable;
    e' := Reach(size, cap, e, Mark(0));
  }

  /** A publisher past the closed check, and a cancel that overtakes it. */
  lemma CloseRace(size: nat, cap: nat) returns (e: State)
    requires size > 0
    ensures Reachable(size, cap, e) && Enabled(e, Shut(0)) && InFlight(e, 0, 0) && CanPanic(Next(e, Shut(0)), 0)
  {
    var e1 := FirstSubscriber(size, cap);
    var e2 := PublishAndBegin(size, cap, e1);
    var e3 := Deregister(size, cap, e2);
    e := RaiseFlag(size, cap, e3);
    assert InFlight(e, 0, 0);
    CloseCanPanicIff(size, cap, e, 0);
  }
}
