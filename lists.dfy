/** Sequence helpers the game relies on: distinctness of entity lists, the sum of a
    run of frame deltas, and the order-preserving filter that a filtering list
    comprehension performs, given as a mask of booleans. */
module Lists {

  /** No entity appears twice in a list. */
  predicate Distinct<T(==)>(s: seq<T>) {
    forall i, j :: 0 <= i < j < |s| ==> s[i] != s[j]
  }

  /** Total time of a run of frame deltas. */
  function Sum(dts: seq<real>): real {
    if dts == [] then 0.0 else dts[0] + Sum(dts[1..])
  }

  predicate NonNegative(dts: seq<real>) {
    forall i :: 0 <= i < |dts| ==> dts[i] >= 0.0
  }

  lemma {:induction false} SumNonNegative(dts: seq<real>)
    requires NonNegative(dts)
    ensures Sum(dts) >= 0.0
  {
    if dts != [] {
      assert NonNegative(dts[1..]) by {
        forall i | 0 <= i < |dts[1..]| ensures dts[1..][i] >= 0.0 {
          assert dts[1..][i] == dts[i + 1];
        }
      }
      SumNonNegative(dts[1..]);
    }
  }

  /** The elements of s whose mask entry is true, in their original order. */
  function Keep<T>(s: seq<T>, keep: seq<bool>): (r: seq<T>)
    requires |keep| == |s|
    ensures |r| <= |s|
  {
    if s == [] then []
    else Keep(s[..|s| - 1], keep[..|s| - 1]) + (if keep[|s| - 1] then [s[|s| - 1]] else [])
  }

  /** Keep removes exactly the unmarked elements: x survives iff some position
      holding x is marked. */
  lemma {:induction false} KeepMembers<T>(s: seq<T>, keep: seq<bool>, x: T)
    requires |keep| == |s|
    ensures x in Keep(s, keep) <==> exists i :: 0 <= i < |s| && s[i] == x && keep[i]
  {
    if s != [] {
      var n := |s| - 1;
      var s', keep' := s[..n], keep[..n];
      KeepMembers(s', keep', x);
      assert Keep(s, keep) == Keep(s', keep') + (if keep[n] then [s[n]] else []);
      if x in Keep(s, keep) {
        if x in Keep(s', keep') {
          var i :| 0 <= i < n && s'[i] == x && keep'[i];
          assert s[i] == x && keep[i];
        } else {
          assert s[n] == x && keep[n];
        }
      }
      if i :| 0 <= i < |s| && s[i] == x && keep[i] {
        if i < n {
          assert s'[i] == x && keep'[i];
        }
      }
    }
  }

  /** Keep preserves order: filtering a concatenation filters each part. */
  lemma {:induction false} KeepAppend<T>(a: seq<T>, ka: seq<bool>, b: seq<T>, kb: seq<bool>)
    requires |ka| == |a| && |kb| == |b|
    ensures Keep(a + b, ka + kb) == Keep(a, ka) + Keep(b, kb)
  {
    if b != [] {
      var n := |b| - 1;
      KeepAppend(a, ka, b[..n], kb[..n]);
      assert (a + b)[..|a + b| - 1] == a + b[..n];
      assert (ka + kb)[..|a + b| - 1] == ka + kb[..n];
    } else {
      assert a + b == a && ka + kb == ka;
    }
  }

  /** Marking every element keeps the list as it is. */
  lemma {:induction false} KeepAll<T>(s: seq<T>, keep: seq<bool>)
    requires |keep| == |s|
    requires forall i :: 0 <= i < |s| ==> keep[i]
    ensures Keep(s, keep) == s
  {
    if s != [] {
      var n := |s| - 1;
      KeepAll(s[..n], keep[..n]);
      assert s[..n] + [s[n]] == s;
    }
  }

  /** Filtering a list without repetitions gives a list without repetitions. */
  lemma {:induction false} KeepDistinct<T>(s: seq<T>, keep: seq<bool>)
    requires |keep| == |s| && Distinct(s)
    ensures Distinct(Keep(s, keep))
  {
    if s != [] {
      var n := |s| - 1;
      var s', keep' := s[..n], keep[..n];
      KeepDistinct(s', keep');
      if keep[n] {
        var front := Keep(s', keep');
        assert s[n] !in front by {
          KeepMembers(s', keep', s[n]);
        }
        assert Keep(s, keep) == front + [s[n]];
      }
    }
  }

  /** Overwriting the same position twice keeps only the second value. */
  lemma UpdateTwice<T>(s: seq<T>, i: nat, a: T, b: T)
    requires i < |s|
    ensures s[i := a][i := b] == s[i := b]
  {
    var t, u := s[i := a][i := b], s[i := b];
    assert forall k :: 0 <= k < |s| ==> t[k] == u[k];
  }

  /** The order-preserving filter as the loop a list comprehension performs. */
  method Filter<T>(s: seq<T>, keep: seq<bool>) returns (r: seq<T>)
    requires |keep| == |s|
    ensures r == Keep(s, keep)
  {
    r := [];
    var i := 0;
    while i < |s|
      invariant 0 <= i <= |s|
      invariant r == Keep(s[..i], keep[..i])
    {
      assert s[..i + 1][..i] == s[..i] && keep[..i + 1][..i] == keep[..i];
      if keep[i] {
        r := r + [s[i]];
      }
      i := i + 1;
    }
    assert s[..i] == s && keep[..i] == keep;
  }
}
