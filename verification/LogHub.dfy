/** publish, Subscribe and its cancel function as sequential code over the hub's subscribers
    (internal/observability/sse.go), one call at a time: the in-place counterpart of the interleaved machine. */
module LogHub {
  import opened LogRing
  import opened Delivery

  class Subscriber<E> {
    var ch: seq<E>
    var closed: bool

    constructor ()
      ensures ch == [] && !closed
    {
      ch := [];
      closed := false;
    }

    /** Send, or drop the oldest and send. */
    method Deliver(ev: E)
      requires |ch| <= SUB_BUF
      modifies this`ch
      ensures ch == LastN(old(ch) + [ev], SUB_BUF)
    {
      if |ch| < SUB_BUF {
        ch := ch + [ev];
        return;
      }
      ch := ch[1..];
      ch := ch + [ev];
    }
  }

  /** A new hub: 256 events of history, nobody listening. */
  method NewHub<E>() returns (b: Broadcast<E>)
    ensures fresh(b) && fresh(b.ring) && b.Valid() && b.ring.size == 256 && b.ring.history == [] && b.subs == {}
  {
    b := new Broadcast(RING_SIZE);
  }

  /** The hub: its ring and the registered subscribers, whose queues readers may have drained to any length. */
  class Broadcast<E> {
    const ring: Hub<E>
    var subs: set<Subscriber<E>>

    ghost predicate Valid()
      reads this, ring, subs
    {
      ring.Valid() && ring.size >= SUB_BUF && forall s :: s in subs ==> !s.closed && |s.ch| <= SUB_BUF
    }

    constructor (size: nat)
      requires size >= SUB_BUF
      ensures Valid() && fresh(ring) && ring.size == size && ring.history == [] && subs == {}
    {
      ring := new Hub(size);
      subs := {};
    }

    /** Every queue gets the event as its newest and loses at most its oldest; so a queue that held the last 64 events
        of the history still does. */
    method Publish(ev: E)
      requires Valid()
      modifies ring, subs
      ensures Valid() && ring.history == old(ring.history) + [ev]
      ensures forall s :: s in subs ==> s.ch == LastN(old(s.ch) + [ev], SUB_BUF)
      ensures forall s :: s in subs && old(s.ch) == LastN(old(ring.history), SUB_BUF) ==>
                s.ch == LastN(ring.history, SUB_BUF)
    {
      LastNOfLastN(ring.history, [ev], SUB_BUF, SUB_BUF);
      ring.Publish(ev);
      var todo := subs;
      while todo != {}
        invariant todo <= subs && ring.Valid() && ring.history == old(ring.history) + [ev]
        invariant forall s :: s in subs ==> !s.closed && |s.ch| <= SUB_BUF
        invariant forall s :: s in todo ==> s.ch == old(s.ch)
        invariant forall s :: s in subs - todo ==> s.ch == LastN(old(s.ch) + [ev], SUB_BUF)
        decreases |todo|
      {
        var s :| s in todo;
        if !s.closed {
          s.Deliver(ev);
        }
        todo := todo - {s};
      }
    }

    /** Replay of the ring leaves the new subscriber with the last 64 events of the whole history, as if it had been
        listening from the start; the others are not touched. */
    method Subscribe() returns (s: Subscriber<E>)
      requires Valid()
      modifies this`subs
      ensures Valid() && fresh(s) && subs == old(subs) + {s}
      ensures s.ch == LastN(ring.history, SUB_BUF)
    {
      var replay := ring.SnapshotLocked();
      s := new Subscriber();
      for i := 0 to |replay|
        invariant Valid() && subs == old(subs) && ring.history == old(ring.history)
        invariant fresh(s) && s !in subs && !s.closed && s.ch == LastN(replay[..i], SUB_BUF)
      {
        s.Deliver(replay[i]);
        LastNOfLastN(replay[..i], [replay[i]], SUB_BUF, SUB_BUF);
        assert replay[..i + 1] == replay[..i] + [replay[i]];
      }
      assert replay[..|replay|] == replay;
      LastNOfLastN(ring.history, [], ring.size, SUB_BUF);
      assert ring.history + [] == ring.history && replay + [] == replay;
      subs := subs + {s};
    }

    /** The function Subscribe returns: it acts once, and the events already queued stay readable. */
    method Cancel(s: Subscriber<E>)
      requires Valid() && (s in subs || s.closed)
      modifies this`subs, s`closed
      ensures Valid() && s.closed && subs == old(subs) - {s} && (old(s.closed) ==> subs == old(subs))
    {
      if s.closed {
        return;
      }
      subs := subs - {s};
      s.closed := true;
    }
  }
}
