/** Sequence facts shared by the other modules. */
module Collections {

  datatype Option<+T> = None | Some(value: T)

  /** How many elements of `s` satisfy `p`. */
  function Count<T>(s: seq<T>, p: T -> bool): (n: nat)
    ensures n <= |s|
  {
    if |s| == 0 then 0
    else Count(s[..|s| - 1], p) + (if p(s[|s| - 1]) then 1 else 0)
  }

  lemma {:induction false} CountSnoc<T>(s: seq<T>, x: T, p: T -> bool)
    ensures Count(s + [x], p) == Count(s, p) + (if p(x) then 1 else 0)
  {
    assert (s + [x])[..|s|] == s;
  }

  lemma {:induction false} CountAppend<T>(s: seq<T>, t: seq<T>, p: T -> bool)
    ensures Count(s + t, p) == Count(s, p) + Count(t, p)
  {
    if t == [] {
      assert s + t == s;
    } else {
      var init, last := t[..|t| - 1], t[|t| - 1];
      assert (s + t)[..|s + t| - 1] == s + init && (s + t)[|s + t| - 1] == last;
      CountAppend(s, init, p);
    }
  }

  /** Where in `s` the elements satisfy `p`. */
  function Positions<T>(s: seq<T>, p: T -> bool): set<nat> {
    set i: nat | i < |s| && p(s[i])
  }

  /** Count is the number of positions. */
  lemma {:induction false} CountIsSize<T>(s: seq<T>, p: T -> bool)
    ensures Count(s, p) == |Positions(s, p)|
  {
    if |s| == 0 {
      assert Positions(s, p) == {};
    } else {
      var last := |s| - 1;
      CountIsSize(s[..last], p);
      PositionsSnoc(s, p);
      assert last !in Positions(s[..last], p);
    }
  }

  lemma PositionsSnoc<T>(s: seq<T>, p: T -> bool)
    requires s != []
    ensures Positions(s, p) == Positions(s[..|s| - 1], p) + if p(s[|s| - 1]) then {|s| - 1} else {}
  {
  }

  predicate NoDuplicates<T(==)>(s: seq<T>) {
    forall i, j :: 0 <= i < j < |s| ==> s[i] != s[j]
  }

  /** A duplicate-free listing of a finite set has as many entries as the set. */
  lemma {:induction false} ListingSize<T>(s: seq<T>, xs: set<T>)
    requires NoDuplicates(s)
    requires forall x :: x in s <==> x in xs
    ensures |s| == |xs|
  {
    if |s| == 0 {
      assert xs == {};
    } else {
      var last := s[|s| - 1];
      var init := s[..|s| - 1];
      assert s == init + [last];
      assert last !in init;
      assert last in xs;
      forall x ensures x in init <==> x in xs - {last} {
        assert x in s <==> x in init || x == last;
      }
      ListingSize(init, xs - {last});
    }
  }

  predicate Increasing(f: seq<nat>) {
    forall i, j :: 0 <= i < j < |f| ==> f[i] < f[j]
  }

  /** `f` picks out, in order, the positions of `b` at which the elements of `a` sit. */
  ghost predicate Picks<T>(f: seq<nat>, a: seq<T>, b: seq<T>) {
    && |f| == |a|
    && Increasing(f)
    && (forall i :: 0 <= i < |f| ==> f[i] < |b| && a[i] == b[f[i]])
  }

  /** `a` can be obtained from `b` by deleting elements. */
  ghost predicate IsSubsequence<T>(a: seq<T>, b: seq<T>) {
    exists f: seq<nat> :: Picks(f, a, b)
  }

  lemma SubsequenceSnoc<T>(a: seq<T>, b: seq<T>, x: T)
    requires IsSubsequence(a, b)
    ensures IsSubsequence(a, b + [x])
    ensures IsSubsequence(a + [x], b + [x])
  {
    var f: seq<nat> :| Picks(f, a, b);
    assert Picks(f, a, b + [x]);
    assert Picks(f + [|b|], a + [x], b + [x]);
  }

  lemma SubsequenceDelete<T>(a: seq<T>, b: seq<T>, p: nat)
    requires p < |a|
    requires IsSubsequence(a, b)
    ensures IsSubsequence(a[..p] + a[p + 1..], b)
  {
    var f: seq<nat> :| Picks(f, a, b);
    assert Picks(f[..p] + f[p + 1..], a[..p] + a[p + 1..], b);
  }
}
