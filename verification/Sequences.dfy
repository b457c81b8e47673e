/** Facts about concatenation that the other proofs use by name. */
module Sequences {

  lemma Associate<T>(a: seq<T>, b: seq<T>, c: seq<T>)
    ensures a + b + c == a + (b + c)
  {
  }

  /** The three parts of t. */
  lemma Middle<T>(t: seq<T>, a: seq<T>, b: seq<T>, c: seq<T>)
    requires t == a + b + c
    ensures t[..|a|] == a && t[|a|..|a| + |b|] == b && t[|a| + |b|..] == c
  {
  }

  /** The seven parts of t. */
  lemma Seven<T>(t: seq<T>, a: seq<T>, b: seq<T>, c: seq<T>, d: seq<T>, e: seq<T>, f: seq<T>, g: seq<T>)
    requires t == a + b + c + d + e + f + g
    ensures var i := |a| + |b|;
            var j := i + |c|;
            var k := j + |d|;
            var l := k + |e|;
            var n := l + |f|;
            && |t| == n + |g|
            && t[..|a|] == a && t[|a|..i] == b && t[i..j] == c && t[j..k] == d && t[k..l] == e && t[l..n] == f && t[n..] == g
  {
    Middle(a + b + c, a, b, c);
    Middle(a + b + c + d + e, a + b + c, d, e);
    Middle(t, a + b + c + d + e, f, g);
  }

  /** A slice of a text is a slice of every extension of it. */
  lemma SliceExtends<T>(t: seq<T>, u: seq<T>, i: nat, j: nat)
    requires i <= j <= |t|
    ensures (t + u)[i..j] == t[i..j]
  {
  }

  /** Dropping commutes with appending. */
  lemma DropAppend<T>(a: seq<T>, b: seq<T>, n: nat)
    requires n <= |a|
    ensures (a + b)[n..] == a[n..] + b && (a + b)[..n] == a[..n]
  {
  }

  lemma PrefixTrans<T>(a: seq<T>, b: seq<T>, c: seq<T>)
    requires a <= b && b <= c
    ensures a <= c
  {
  }

  ghost predicate Distinct(ids: seq<nat>) {
    forall i, j :: 0 <= i < j < |ids| ==> ids[i] != ids[j]
  }

  /** There are only n numbers below n. */
  lemma {:induction false} DistinctBounded(ids: seq<nat>, n: nat)
    requires Distinct(ids) && forall i :: 0 <= i < |ids| ==> ids[i] < n
    ensures |ids| <= n
    decreases n
  {
    if ids != [] {
      assert ids[0] < n;
      if n - 1 in ids {
        var k :| 0 <= k < |ids| && ids[k] == n - 1;
        var rest := ids[..k] + ids[k + 1..];
        assert forall i :: 0 <= i < |rest| ==> rest[i] == ids[if i < k then i else i + 1];
        DistinctBounded(rest, n - 1);
      } else {
        forall i | 0 <= i < |ids|
          ensures ids[i] < n - 1
        {
          assert ids[i] in ids;
        }
        DistinctBounded(ids, n - 1);
      }
    }
  }

  function Count(ids: seq<nat>, id: nat): nat {
    multiset(ids)[id]
  }

  lemma {:induction false} DistinctCount(ids: seq<nat>, id: nat)
    requires Distinct(ids)
    ensures Count(ids, id) <= 1
  {
    if ids != [] {
      var n := |ids| - 1;
      DistinctCount(ids[..n], id);
      assert ids == ids[..n] + [ids[n]];
      if ids[n] == id {
        assert forall i :: 0 <= i < n ==> ids[..n][i] != id;
      }
    }
  }
}
