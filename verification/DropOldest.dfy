/** A subscriber's bounded queue with one dispatcher and a consumer reading at any moment, even between the
    three non-blocking channel operations of one delivery (internal/observability/sse.go). */
module DropOldest {
  import opened Collections
  import opened LogRing
  import opened Delivery

  /** The event being delivered and the operation that comes next. */
  datatype Sending<E> = Sending(ev: E, stage: Stage)

  /** `done` are the events whose delivery is over, `got` what the consumer has read. */
  datatype Queue<E> = Queue(chan: seq<E>, got: seq<E>, done: seq<E>, sending: Option<Sending<E>>, cap: nat)

  datatype Act<E> = Offer(ev: E) | Step | Read

  predicate Enabled<E>(q: Queue<E>, a: Act<E>) {
    match a
    case Offer(_) => q.sending.None?
    case Step => q.sending.Some?
    case Read => q.chan != []
  }

  /** The dispatcher's next channel operation. */
  function Operate<E>(q: Queue<E>, ev: E, stage: Stage): Queue<E> {
    var next := StageAfter(q.chan, stage, q.cap);
    q.(chan := ChanAfter(q.chan, ev, stage, q.cap),
       done := if next.None? then q.done + [ev] else q.done,
       sending := if next.None? then None else Some(Sending(ev, next.value)))
  }

  function Next<E>(q: Queue<E>, a: Act<E>): Queue<E>
    requires Enabled(q, a)
  {
    match a
    case Offer(ev) => q.(sending := Some(Sending(ev, Try)))
    case Read => q.(chan := q.chan[1..], got := q.got + [q.chan[0]])
    case Step => Operate(q, q.sending.value.ev, q.sending.value.stage)
  }

  /** The queue is bounded, keeps order, and has room whenever the second send is tried. */
  ghost predicate Sound<E>(q: Queue<E>) {
    && q.cap > 0
    && |q.chan| <= q.cap
    && (q.sending.Some? && q.sending.value.stage.Retry? ==> |q.chan| < q.cap)
    && IsSubsequence(q.got + q.chan, q.done)
  }

  lemma SoundStep<E>(q: Queue<E>, a: Act<E>)
    requires Sound(q) && Enabled(q, a)
    ensures Sound(Next(q, a))
    // a delivery that ends leaves its event at the end of the channel: the newest event is never the one dropped
    ensures q.sending.Some? && Next(q, a).sending.None? ==>
              && Next(q, a).chan == q.chan + [q.sending.value.ev]
              && Next(q, a).done == q.done + [q.sending.value.ev]
  {
    var q' := Next(q, a);
    match a
    case Offer(_) =>
    case Read => assert q'.got + q'.chan == q.got + q.chan;
    case Step =>
      var s := q.sending.value;
      if q'.sending.None? {
        SubsequenceSnoc(q.got + q.chan, q.done, s.ev);
        assert q'.got + q'.chan == (q.got + q.chan) + [s.ev];
      } else if s.stage.Drop? && q.chan != [] {
        SubsequenceDelete(q.got + q.chan, q.done, |q.got|);
        assert q'.got + q'.chan == (q.got + q.chan)[..|q.got|] + (q.got + q.chan)[|q.got| + 1..];
      }
  }

  ghost predicate Runnable<E>(q: Queue<E>, acts: seq<Act<E>>)
    decreases |acts|
  {
    acts == [] || (Enabled(q, acts[0]) && Runnable(Next(q, acts[0]), acts[1..]))
  }

  ghost function Exec<E>(q: Queue<E>, acts: seq<Act<E>>): Queue<E>
    requires Runnable(q, acts)
    decreases |acts|
  {
    if acts == [] then q else Exec(Next(q, acts[0]), acts[1..])
  }

  /** With any reads at any time: the queue never exceeds its capacity, and what was read followed by what is queued
      is an ordered subsequence of the events delivered so far. */
  lemma {:induction false} QueueIsSound<E>(q: Queue<E>, acts: seq<Act<E>>)
    requires Sound(q) && Runnable(q, acts)
    ensures Sound(Exec(q, acts))
    decreases |acts|
  {
    if acts == [] {
    } else {
      SoundStep(q, acts[0]);
      QueueIsSound(Next(q, acts[0]), acts[1..]);
    }
  }

  /** Whenever a delivery begins there is room. */
  ghost predicate AlwaysRoom<E>(q: Queue<E>, acts: seq<Act<E>>)
    requires Runnable(q, acts)
    decreases |acts|
  {
    acts != [] ==>
      && (acts[0].Step? && q.sending.value.stage.Try? ==> |q.chan| < q.cap)
      && AlwaysRoom(Next(q, acts[0]), acts[1..])
  }

  /** A consumer that keeps up gets everything: what was read followed by what is queued is every event delivered. */
  lemma {:induction false} KeepingUpLosesNothing<E>(q: Queue<E>, acts: seq<Act<E>>)
    requires q.got + q.chan == q.done && (q.sending.Some? ==> q.sending.value.stage.Try?)
    requires Runnable(q, acts) && AlwaysRoom(q, acts)
    ensures Exec(q, acts).got + Exec(q, acts).chan == Exec(q, acts).done
    ensures q.got <= Exec(q, acts).got && q.done <= Exec(q, acts).done
    decreases |acts|
  {
    if acts == [] {
    } else {
      var q' := Next(q, acts[0]);
      match acts[0] {
        case Offer(_) =>
        case Read => assert q'.got + q'.chan == q.got + q.chan;
        case Step => assert q'.got + q'.chan == (q.got + q.chan) + [q.sending.value.ev];
      }
      KeepingUpLosesNothing(q', acts[1..]);
    }
  }

  /** Without reads the queue is exactly the last `cap` delivered events. */
  ghost predicate Full<E>(q: Queue<E>) {
    && q.cap > 0
    && (if q.sending.None? || q.sending.value.stage.Try? then q.chan == LastN(q.done, q.cap)
        else if q.sending.value.stage.Drop? then q.chan == LastN(q.done, q.cap) && |q.chan| == q.cap
        else |q.done| >= q.cap && q.chan == LastN(q.done, q.cap)[1..])
  }

  lemma FullStep<E>(q: Queue<E>, a: Act<E>)
    requires Full(q) && Enabled(q, a) && !a.Read?
    ensures Full(Next(q, a))
  {
    if a.Step? {
      LastNSnoc(q.done, q.sending.value.ev, q.cap);
    }
  }

  /** The events of the completed deliveries of a run without reads. */
  lemma {:induction false} UnreadQueueIsFull<E>(q: Queue<E>, acts: seq<Act<E>>)
    requires Full(q) && Runnable(q, acts) && forall i :: 0 <= i < |acts| ==> !acts[i].Read?
    ensures Full(Exec(q, acts)) && Exec(q, acts).cap == q.cap
    decreases |acts|
  {
    if acts == [] {
    } else {
      FullStep(q, acts[0]);
      UnreadQueueIsFull(Next(q, acts[0]), acts[1..]);
    }
  }

  /** A subscriber that reads nothing: after the replay of the ring and the live events that followed have been
      delivered, its queue is exactly the last 64 events of the full history. */
  lemma {:induction false} UnreadSubscriberHoldsTheTail<E>(history: seq<E>, live: seq<E>, acts: seq<Act<E>>)
    requires var q := Queue([], [], [], None, SUB_BUF);
             && Runnable(q, acts) && (forall i :: 0 <= i < |acts| ==> !acts[i].Read?)
             && Exec(q, acts).sending.None?
             && Exec(q, acts).done == LastN(history, RING_SIZE) + live
    ensures Exec(Queue([], [], [], None, SUB_BUF), acts).chan == LastN(history + live, 64)
  {
    UnreadQueueIsFull(Queue([], [], [], None, SUB_BUF), acts);
    LastNOfLastN(history, live, RING_SIZE, SUB_BUF);
  }
}
