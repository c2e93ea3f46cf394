/** The replay ring of the log hub (internal/observability/sse.go). */
module LogRing {
  const RING_SIZE := 256

  /** The last min(n, |s|) elements. */
  function LastN<E>(s: seq<E>, n: nat): seq<E> {
    if |s| <= n then s else s[|s| - n..]
  }

  /** As many elements as there are, at most n, and the last ones. */
  lemma LastNIsTheTail<E>(s: seq<E>, n: nat)
    ensures |LastN(s, n)| == if |s| < n then |s| else n
    ensures forall i :: 0 <= i < |LastN(s, n)| ==> LastN(s, n)[i] == s[|s| - |LastN(s, n)| + i]
  {
  }

  lemma LastNSnoc<E>(s: seq<E>, x: E, n: nat)
    requires n > 0
    ensures LastN(s + [x], n) == (if |s| < n then s else LastN(s, n)[1..]) + [x]
  {
  }

  /** Keeping the last m of something that keeps at least the last m loses nothing. */
  lemma LastNOfLastN<E>(s: seq<E>, t: seq<E>, n: nat, m: nat)
    requires m <= n
    ensures LastN(LastN(s, n) + t, m) == LastN(s + t, m)
  {
  }

  /** Slice, next write position and wrapped flag. */
  datatype Ring<E> = Ring(slots: seq<E>, head: nat, full: bool)

  predicate Fits<E>(r: Ring<E>, size: nat) {
    if r.full then |r.slots| == size && r.head < size else |r.slots| < size
  }

  function Push<E>(r: Ring<E>, ev: E, size: nat): (r': Ring<E>)
    requires size > 0 && Fits(r, size)
    ensures Fits(r', size)
  {
    if !r.full then
      var slots := r.slots + [ev];
      if |slots| == size then Ring(slots, 0, true) else Ring(slots, r.head, false)
    else Ring(r.slots[r.head := ev], (r.head + 1) % size, true)
  }

  function Snapshot<E>(r: Ring<E>): seq<E>
    requires r.full ==> r.head <= |r.slots|
  {
    if !r.full then r.slots else r.slots[r.head..] + r.slots[..r.head]
  }

  /** The ring shows exactly the last `size` events of the history. */
  ghost predicate Shows<E>(r: Ring<E>, history: seq<E>, size: nat) {
    && Fits(r, size)
    && Snapshot(r) == LastN(history, size)
    && (r.full <==> |history| >= size)
  }

  lemma NextIndex(head: nat, size: nat)
    requires head < size
    ensures (head + 1) % size == if head + 1 == size then 0 else head + 1
  {
  }

  /** Overwriting the slot at `head` drops the oldest event and appends the new one. */
  lemma PushWrapped<E>(r: Ring<E>, ev: E, size: nat)
    requires Fits(r, size) && r.full
    ensures Snapshot(Push(r, ev, size)) == Snapshot(r)[1..] + [ev]
  {
    NextIndex(r.head, size);
    var slots := r.slots[r.head := ev];
    assert slots[r.head + 1..] == r.slots[r.head + 1..] && slots[..r.head] == r.slots[..r.head];
    assert slots[..r.head + 1] == r.slots[..r.head] + [ev];
    assert Snapshot(r)[1..] == r.slots[r.head + 1..] + r.slots[..r.head];
  }

  lemma PushShows<E>(r: Ring<E>, history: seq<E>, ev: E, size: nat)
    requires size > 0 && Shows(r, history, size)
    ensures Shows(Push(r, ev, size), history + [ev], size)
  {
    LastNSnoc(history, ev, size);
    if r.full {
      PushWrapped(r, ev, size);
      NextIndex(r.head, size);
    }
  }

  function Published<E>(history: seq<E>, size: nat): (r: Ring<E>)
    requires size > 0
    ensures Fits(r, size)
  {
    if history == [] then Ring([], 0, false)
    else Push(Published(history[..|history| - 1], size), history[|history| - 1], size)
  }

  /** After any number of publishes, growing or wrapped, for any positive ring size, the snapshot is the last
      min(n, size) events in publish order. */
  lemma {:induction false} RingRefinesHistory<E>(history: seq<E>, size: nat)
    requires size > 0
    ensures Snapshot(Published(history, size)) == LastN(history, size)
    ensures Shows(Published(history, size), history, size)
  {
    if history == [] {
    } else {
      var init := history[..|history| - 1];
      RingRefinesHistory(init, size);
      PushShows(Published(init, size), init, history[|history| - 1], size);
      assert history == init + [history[|history| - 1]];
    }
  }

  /** The ring part of the hub; each method is the section under the hub mutex. */
  class Hub<E> {
    const size: nat
    var ring: seq<E>
    var head: nat
    var full: bool
    ghost var history: seq<E>

    ghost predicate Valid()
      reads this
    {
      size > 0 && Shows(Ring(ring, head, full), history, size)
    }

    constructor (size: nat)
      requires size > 0
      ensures Valid() && history == [] && this.size == size
    {
      this.size := size;
      ring := [];
      head := 0;
      full := false;
      history := [];
    }

    method Publish(ev: E)
      requires Valid()
      modifies this
      ensures Valid() && history == old(history) + [ev]
      ensures Ring(ring, head, full) == Push(old(Ring(ring, head, full)), ev, size)
    {
      PushShows(Ring(ring, head, full), history, ev, size);
      if !full {
        ring := ring + [ev];
        if |ring| == size {
          full := true;
          head := 0;
        }
      } else {
        ring := ring[head := ev];
        head := (head + 1) % size;
      }
      history := history + [ev];
    }

    method SnapshotLocked() returns (out: seq<E>)
      requires Valid()
      ensures out == LastN(history, size)
    {
      if !full {
        return ring;
      }
      out := ring[head..];
      out := out + ring[..head];
    }
  }
}
