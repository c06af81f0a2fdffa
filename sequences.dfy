/** Python's filtering comprehension `[x for x in s if p(x)]` (and the
    dict comprehension of the same shape), with the facts both core files
    rely on: it keeps exactly the elements satisfying `p`, in their order. */
module Sequences {

  /** The elements of `s` satisfying `p`, in the order of `s`. */
  function Filter<T>(s: seq<T>, p: T -> bool): (r: seq<T>)
    ensures |r| <= |s|
    decreases |s|
  {
    if s == [] then [] else (if p(s[0]) then [s[0]] else []) + Filter(s[1..], p)
  }

  /** The positions of `s` whose element satisfies `p`, in increasing order. */
  function Positions<T>(s: seq<T>, p: T -> bool): seq<nat>
    decreases |s|
  {
    if s == [] then []
    else (if p(s[0]) then [0] else []) + Shift(Positions(s[1..], p))
  }

  function Shift(ix: seq<nat>): seq<nat>
  {
    seq(|ix|, k requires 0 <= k < |ix| => ix[k] + 1)
  }

  /** `r` is the subsequence of `s` picked out by the increasing positions `ix`. */
  ghost predicate Picks<T>(ix: seq<nat>, r: seq<T>, s: seq<T>) {
    && |ix| == |r|
    && (forall k :: 0 <= k < |ix| ==> ix[k] < |s| && r[k] == s[ix[k]])
    && Increasing(ix)
  }

  ghost predicate Increasing(ix: seq<nat>) {
    forall k1, k2 :: 0 <= k1 < k2 < |ix| ==> ix[k1] < ix[k2]
  }

  lemma ShiftIncreasing(ix: seq<nat>)
    requires Increasing(ix)
    ensures Increasing(Shift(ix)) && Increasing([0] + Shift(ix))
  {
    var sh := Shift(ix);
    assert Increasing(sh) by {
      forall k1, k2 | 0 <= k1 < k2 < |sh| ensures sh[k1] < sh[k2] {
        assert ix[k1] < ix[k2];
      }
    }
    var z := [0] + sh;
    forall k1, k2 | 0 <= k1 < k2 < |z| ensures z[k1] < z[k2] {
      assert z[k2] == sh[k2 - 1];
      if k1 > 0 { assert z[k1] == sh[k1 - 1]; }
    }
  }

  /** The filter result is the subsequence of the input at exactly the
      positions whose element satisfies `p`: nothing is added, nothing that
      passes is lost, and the survivors keep their relative order. */
  lemma FilterKeepsOrder<T>(s: seq<T>, p: T -> bool)
    ensures Picks(Positions(s, p), Filter(s, p), s)
    ensures forall i :: 0 <= i < |s| ==> (i in Positions(s, p) <==> p(s[i]))
  {
    FilterPicks(s, p);
    PositionsExact(s, p);
  }

  lemma {:induction false} FilterPicks<T>(s: seq<T>, p: T -> bool)
    ensures Picks(Positions(s, p), Filter(s, p), s)
    decreases |s|
  {
    if s != [] {
      FilterPicks(s[1..], p);
      if p(s[0]) { PicksKept(s, p); } else { PicksDropped(s, p); }
    }
  }

  /** Step of `FilterPicks` when the first element passes. */
  lemma PicksKept<T>(s: seq<T>, p: T -> bool)
    requires s != [] && p(s[0])
    requires Picks(Positions(s[1..], p), Filter(s[1..], p), s[1..])
    ensures Picks(Positions(s, p), Filter(s, p), s)
  {
    var t := s[1..];
    var ix', r' := Positions(t, p), Filter(t, p);
    var ix, r := Positions(s, p), Filter(s, p);
    assert ix == [0] + Shift(ix');
    assert r == [s[0]] + r';
    forall k | 1 <= k < |ix| ensures ix[k] < |s| && r[k] == s[ix[k]] {
      assert ix[k] == ix'[k - 1] + 1 && r[k] == r'[k - 1];
      assert r'[k - 1] == t[ix'[k - 1]] == s[ix'[k - 1] + 1];
    }
    ShiftIncreasing(ix');
  }

  /** Step of `FilterPicks` when the first element is dropped. */
  lemma PicksDropped<T>(s: seq<T>, p: T -> bool)
    requires s != [] && !p(s[0])
    requires Picks(Positions(s[1..], p), Filter(s[1..], p), s[1..])
    ensures Picks(Positions(s, p), Filter(s, p), s)
  {
    var t := s[1..];
    var ix', r' := Positions(t, p), Filter(t, p);
    var ix, r := Positions(s, p), Filter(s, p);
    assert ix == Shift(ix');
    assert r == r';
    forall k | 0 <= k < |ix| ensures ix[k] < |s| && r[k] == s[ix[k]] {
      assert ix[k] == ix'[k] + 1;
      assert r'[k] == t[ix'[k]] == s[ix'[k] + 1];
    }
    ShiftIncreasing(ix');
  }

  lemma {:induction false} PositionsExact<T>(s: seq<T>, p: T -> bool)
    ensures forall i :: 0 <= i < |s| ==> (i in Positions(s, p) <==> p(s[i]))
    decreases |s|
  {
    if s != [] {
      var t := s[1..];
      PositionsExact(t, p);
      var ix' := Positions(t, p);
      var sh := Shift(ix');
      var ix := Positions(s, p);
      assert ix == (if p(s[0]) then [0] else []) + sh;
      forall i | 0 <= i < |s| ensures i in ix <==> p(s[i]) {
        if i == 0 {
          assert forall k :: 0 <= k < |sh| ==> sh[k] != 0;
        } else {
          assert s[i] == t[i - 1];
          if i - 1 in ix' {
            var k :| 0 <= k < |ix'| && ix'[k] == i - 1;
            assert sh[k] == i;
          }
          if i in sh {
            var k :| 0 <= k < |sh| && sh[k] == i;
            assert ix'[k] == i - 1;
          }
        }
      }
    }
  }

  /** An element is in the filter result exactly when it is in the input
      and satisfies `p`. */
  lemma FilterMembers<T>(s: seq<T>, p: T -> bool)
    ensures forall k :: 0 <= k < |Filter(s, p)| ==> Filter(s, p)[k] in s && p(Filter(s, p)[k])
    ensures forall i :: 0 <= i < |s| && p(s[i]) ==> s[i] in Filter(s, p)
  {
    FilterKeepsOrder(s, p);
    var ix, r := Positions(s, p), Filter(s, p);
    forall i | 0 <= i < |s| && p(s[i]) ensures s[i] in r {
      var k :| 0 <= k < |ix| && ix[k] == i;
      assert r[k] == s[i];
    }
  }

  /** Filtering twice is filtering once. */
  lemma {:induction false} FilterIdempotent<T>(s: seq<T>, p: T -> bool)
    ensures Filter(Filter(s, p), p) == Filter(s, p)
    decreases |s|
  {
    if s != [] {
      var r' := Filter(s[1..], p);
      FilterIdempotent(s[1..], p);
      if p(s[0]) {
        var r := [s[0]] + r';
        assert Filter(s, p) == r;
        assert r != [] && r[0] == s[0] && r[1..] == r';
        assert Filter(r, p) == [s[0]] + Filter(r', p);
      } else {
        assert Filter(s, p) == r';
      }
    }
  }

  /** The first element of the filter result is the earliest element of the
      input that passes, and the result is empty exactly when none passes. */
  lemma {:induction false} FilterHeadIsEarliest<T>(s: seq<T>, p: T -> bool)
    ensures Filter(s, p) == [] <==> forall i :: 0 <= i < |s| ==> !p(s[i])
    ensures Filter(s, p) != [] ==>
      exists i :: 0 <= i < |s| && p(s[i]) && Filter(s, p)[0] == s[i]
                  && forall j :: 0 <= j < i ==> !p(s[j])
    decreases |s|
  {
    if s != [] {
      var t := s[1..];
      FilterHeadIsEarliest(t, p);
      if !p(s[0]) {
        assert forall i :: 1 <= i < |s| ==> s[i] == t[i - 1];
        if Filter(t, p) != [] {
          var i :| 0 <= i < |t| && p(t[i]) && Filter(t, p)[0] == t[i] && forall j :: 0 <= j < i ==> !p(t[j]);
          assert s[i + 1] == t[i];
          assert forall j :: 0 <= j < i + 1 ==> !p(s[j]) by {
            forall j | 0 <= j < i + 1 ensures !p(s[j]) {
              if j > 0 { assert s[j] == t[j - 1]; }
            }
          }
        }
      }
    }
  }
}
