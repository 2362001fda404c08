/**
 * `sorted(range(n), key=score, reverse=True)`: the asset indices ordered by
 * descending score. Python's sort is stable, also with `reverse=True`, so
 * assets with equal scores keep their original (ascending) index order.
 */
module Ranking {

  /** Asset `a` is ranked strictly before asset `b`: a higher score, or an equal score and a lower index. */
  predicate Ahead(score: seq<real>, a: nat, b: nat)
    requires a < |score| && b < |score|
  {
    score[a] > score[b] || (score[a] == score[b] && a < b)
  }

  /** Every entry of `s` is an asset index of `score`. */
  predicate Indices(score: seq<real>, s: seq<nat>)
  {
    forall j :: 0 <= j < |s| ==> s[j] < |score|
  }

  /** `s` lists assets in the order of a stable descending sort by `score`. */
  predicate StablyDescending(score: seq<real>, s: seq<nat>)
    requires Indices(score, s)
  {
    forall j, k :: 0 <= j < k < |s| ==> Ahead(score, s[j], s[k])
  }

  /** `s` holds each of `0 .. n-1` exactly once. */
  predicate IsPermutationOfRange(s: seq<nat>, n: nat)
  {
    && |s| == n
    && (forall j :: 0 <= j < |s| ==> s[j] < n)
    && (forall i: nat :: i < n ==> i in s)
    && (forall j, k :: 0 <= j < k < |s| ==> s[j] != s[k])
  }

  /** Places `x` behind every leading asset whose score is at least `x`'s. */
  function Insert(score: seq<real>, s: seq<nat>, x: nat): (r: seq<nat>)
    requires x < |score| && Indices(score, s)
    ensures |r| == |s| + 1 && multiset(r) == multiset(s) + multiset{x}
    ensures Indices(score, r)
  {
    if s == [] then [x]
    else if score[s[0]] >= score[x] then
      assert s == [s[0]] + s[1..];
      [s[0]] + Insert(score, s[1..], x)
    else [x] + s
  }

  /** The stable descending order of the first `n` assets. */
  function RankPrefix(score: seq<real>, n: nat): (r: seq<nat>)
    requires n <= |score|
    ensures |r| == n && Indices(score, r)
    ensures forall y: nat :: y in r <==> y < n
  {
    if n == 0 then []
    else
      var last: nat := n - 1;
      var prev := RankPrefix(score, last);
      var r := Insert(score, prev, last);
      assert forall y: nat :: y in r <==> y in multiset(r);
      assert forall y: nat :: y in r <==> y in prev || y == last;
      r
  }

  /** `ranked_indices` of mimir.py: all assets, in stable descending order of score. */
  function Rank(score: seq<real>): seq<nat>
  {
    RankPrefix(score, |score|)
  }

  /** Inserting an index larger than all present ones keeps a stable descending order. */
  lemma {:induction false} InsertKeepsOrder(score: seq<real>, s: seq<nat>, x: nat)
    requires x < |score| && Indices(score, s) && StablyDescending(score, s)
    requires forall j :: 0 <= j < |s| ==> s[j] < x
    ensures StablyDescending(score, Insert(score, s, x))
  {
    if s != [] {
      var r := Insert(score, s, x);
      if score[s[0]] >= score[x] {
        var tail := s[1..];
        assert forall j :: 0 <= j < |tail| ==> tail[j] == s[j + 1];
        InsertKeepsOrder(score, tail, x);
        var r' := Insert(score, tail, x);
        assert r == [s[0]] + r';
        forall k | 0 < k < |r|
          ensures Ahead(score, s[0], r[k])
        {
          assert r[k] == r'[k - 1];
          assert r'[k - 1] in multiset(r');
          if r[k] != x {
            assert r[k] in multiset(tail);
            var m :| 0 <= m < |tail| && tail[m] == r[k];
            assert Ahead(score, s[0], s[m + 1]);
          }
        }
      } else {
        assert r == [x] + s;
        forall k | 0 < k < |r|
          ensures Ahead(score, x, r[k])
        {
          assert r[k] == s[k - 1];
          if k > 1 { assert Ahead(score, s[0], s[k - 1]); }
        }
      }
    }
  }

  /** Every entry of the ranking of the first `n` assets is below `n`. */
  lemma PrefixBelow(score: seq<real>, n: nat)
    requires n <= |score|
    ensures forall j :: 0 <= j < n ==> RankPrefix(score, n)[j] < n
  {
    var r := RankPrefix(score, n);
    forall j | 0 <= j < n
      ensures r[j] < n
    {
      assert r[j] in r;
    }
  }

  /** The assets inserted so far are in stable descending order. */
  lemma {:induction false} RankPrefixOrdered(score: seq<real>, n: nat)
    requires n <= |score|
    ensures StablyDescending(score, RankPrefix(score, n))
  {
    if n > 0 {
      var last: nat := n - 1;
      var prev := RankPrefix(score, last);
      RankPrefixOrdered(score, last);
      PrefixBelow(score, last);
      InsertKeepsOrder(score, prev, last);
      assert RankPrefix(score, n) == Insert(score, prev, last);
    }
  }

  /**
   * The ranking is a permutation of `0 .. n-1`; along it the score never
   * increases, and assets with equal scores appear in index order.
   */
  lemma RankIsStableSort(score: seq<real>)
    ensures IsPermutationOfRange(Rank(score), |score|)
    ensures Indices(score, Rank(score)) && StablyDescending(score, Rank(score))
    ensures forall j, k :: 0 <= j < k < |score| ==>
      score[Rank(score)[j]] >= score[Rank(score)[k]]
    ensures forall j, k :: 0 <= j < k < |score| && score[Rank(score)[j]] == score[Rank(score)[k]] ==>
      Rank(score)[j] < Rank(score)[k]
  {
    RankPrefixOrdered(score, |score|);
  }

  /** The first asset of a stable descending order is ahead of every other asset in it. */
  lemma FirstLeads(score: seq<real>, s: seq<nat>, y: nat)
    requires Indices(score, s) && StablyDescending(score, s)
    requires s != [] && y in s
    ensures y < |score|
    ensures y != s[0] ==> Ahead(score, s[0], y)
  {
    var k :| 0 <= k < |s| && s[k] == y;
  }

  /** A list with no members is empty. */
  lemma NoMembersEmpty(b: seq<nat>)
    ensures (forall y :: y !in b) ==> b == []
  {
    if b != [] {
      assert b[0] in b;
    }
  }

  /**
   * Two stable descending orders of the same assets are equal: a stable sort
   * has exactly one possible result, whatever algorithm computes it.
   */
  lemma {:induction false} StableOrderUnique(score: seq<real>, a: seq<nat>, b: seq<nat>)
    requires Indices(score, a) && Indices(score, b)
    requires StablyDescending(score, a) && StablyDescending(score, b)
    requires forall y :: y in a <==> y in b
    ensures a == b
  {
    if a != [] {
      assert a[0] in a && b != [] && b[0] in b;
      FirstLeads(score, a, b[0]);
      FirstLeads(score, b, a[0]);
      assert a[0] == b[0];
      var a', b' := a[1..], b[1..];
      forall y
        ensures y in a' <==> y in b'
      {
        if y in a' {
          var k :| 0 <= k < |a'| && a'[k] == y;
          assert Ahead(score, a[0], a[k + 1]);
          assert y in b;
          assert y != b[0];
          assert b == [b[0]] + b';
        }
        if y in b' {
          var k :| 0 <= k < |b'| && b'[k] == y;
          assert Ahead(score, b[0], b[k + 1]);
          assert y in a;
          assert y != a[0];
          assert a == [a[0]] + a';
        }
      }
      assert StablyDescending(score, a') by {
        forall j, k | 0 <= j < k < |a'| ensures Ahead(score, a'[j], a'[k]) {
          assert a'[j] == a[j + 1] && a'[k] == a[k + 1];
        }
      }
      assert StablyDescending(score, b') by {
        forall j, k | 0 <= j < k < |b'| ensures Ahead(score, b'[j], b'[k]) {
          assert b'[j] == b[j + 1] && b'[k] == b[k + 1];
        }
      }
      StableOrderUnique(score, a', b');
      assert a == [a[0]] + a' && b == [b[0]] + b';
    } else {
      NoMembersEmpty(b);
    }
  }

  /** Any permutation of the assets sorted stably by descending score is `Rank(score)`. */
  lemma RankIsTheStableSort(score: seq<real>, s: seq<nat>)
    requires IsPermutationOfRange(s, |score|)
    requires Indices(score, s) && StablyDescending(score, s)
    ensures s == Rank(score)
  {
    RankIsStableSort(score);
    var r := Rank(score);
    forall y
      ensures y in s <==> y in r
    {
      if y in s {
        var j :| 0 <= j < |s| && s[j] == y;
        assert y < |score|;
      }
    }
    StableOrderUnique(score, s, r);
  }
}
