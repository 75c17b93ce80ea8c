/** Python's `sorted(s, key=key, reverse=True)`: a stable sort by a key, largest key
    first, where elements with equal keys keep their input order.

    The sort is modelled as an insertion sort over POSITIONS of `s`, so that
    stability can be stated directly: the output is `s` read in the order `Order(s, key)`,
    and that order puts position `i` ahead of position `j` exactly when `s[i]` has the
    larger key, or the keys are equal and `i < j`. */
module Ranking {
  import opened Seqs

  /** Position `i` of `s` is ranked ahead of position `j`. */
  predicate Ahead<T>(s: seq<T>, key: T -> int, i: nat, j: nat)
    requires i < |s| && j < |s|
  {
    key(s[i]) > key(s[j]) || (key(s[i]) == key(s[j]) && i < j)
  }

  /** Every entry of `o` is a position below `n`. */
  predicate InRange(o: seq<nat>, n: nat) {
    forall k :: 0 <= k < |o| ==> o[k] < n
  }

  /** `o` lists positions of `s` in strictly decreasing rank. */
  predicate Ranked<T>(s: seq<T>, key: T -> int, o: seq<nat>) {
    && InRange(o, |s|)
    && forall a, b :: 0 <= a < b < |o| ==> Ahead(s, key, o[a], o[b])
  }

  /** Inserts position `i` into the order `o` in front of the first position it is
      ranked ahead of. */
  function Insert<T>(s: seq<T>, key: T -> int, i: nat, o: seq<nat>): (r: seq<nat>)
    requires i < |s| && InRange(o, |s|)
    ensures |r| == |o| + 1 && InRange(r, |s|)
    ensures multiset(r) == multiset(o) + multiset{i}
    decreases |o|
  {
    if |o| == 0 || Ahead(s, key, i, o[0]) then [i] + o
    else
      assert o == [o[0]] + o[1..];
      [o[0]] + Insert(s, key, i, o[1..])
  }

  /** Inserting a new position into a ranked order keeps it ranked. */
  lemma {:induction false} InsertRanked<T>(s: seq<T>, key: T -> int, i: nat, o: seq<nat>)
    requires i < |s| && Ranked(s, key, o) && i !in o
    ensures Ranked(s, key, Insert(s, key, i, o))
    decreases |o|
  {
    var r := Insert(s, key, i, o);
    if |o| == 0 {
    } else if Ahead(s, key, i, o[0]) {
      forall a, b | 0 <= a < b < |r|
        ensures Ahead(s, key, r[a], r[b])
      {
        if a == 0 {
          if b > 1 {
            assert Ahead(s, key, o[0], o[b - 1]);
          }
        } else {
          assert Ahead(s, key, o[a - 1], o[b - 1]);
        }
      }
    } else {
      var tail := o[1..];
      RankedTail(s, key, o);
      assert i !in tail by {
        assert forall x :: x in tail ==> x in o;
      }
      var rest := Insert(s, key, i, tail);
      InsertRanked(s, key, i, tail);
      HeadAheadOfInsert(s, key, i, o);
      RankedCons(s, key, o[0], rest);
      assert r == [o[0]] + rest;
    }
  }

  lemma RankedTail<T>(s: seq<T>, key: T -> int, o: seq<nat>)
    requires Ranked(s, key, o) && |o| > 0
    ensures Ranked(s, key, o[1..])
  {
    var tail := o[1..];
    forall a, b | 0 <= a < b < |tail|
      ensures Ahead(s, key, tail[a], tail[b])
    {
      assert Ahead(s, key, o[a + 1], o[b + 1]);
    }
  }

  /** A head ranked ahead of every position of a ranked order extends it. */
  lemma RankedCons<T>(s: seq<T>, key: T -> int, x: nat, o: seq<nat>)
    requires x < |s| && Ranked(s, key, o)
    requires forall m :: 0 <= m < |o| ==> Ahead(s, key, x, o[m])
    ensures Ranked(s, key, [x] + o)
  {
    var r := [x] + o;
    forall a, b | 0 <= a < b < |r|
      ensures Ahead(s, key, r[a], r[b])
    {
      if a == 0 {
        assert r[b] == o[b - 1];
      } else {
        assert r[a] == o[a - 1] && r[b] == o[b - 1];
      }
    }
  }

  /** When `i` goes behind the head of a ranked order, the head stays ahead of
      everything in the rest, `i` included. */
  lemma HeadAheadOfInsert<T>(s: seq<T>, key: T -> int, i: nat, o: seq<nat>)
    requires i < |s| && Ranked(s, key, o) && |o| > 0 && !Ahead(s, key, i, o[0]) && i != o[0]
    ensures forall m :: 0 <= m < |Insert(s, key, i, o[1..])| ==> Ahead(s, key, o[0], Insert(s, key, i, o[1..])[m])
  {
    var tail := o[1..];
    var rest := Insert(s, key, i, tail);
    forall m | 0 <= m < |rest|
      ensures Ahead(s, key, o[0], rest[m])
    {
      assert rest[m] in multiset(rest);
      if rest[m] != i {
        assert rest[m] in multiset(tail);
        var c :| 0 <= c < |tail| && tail[c] == rest[m];
        assert Ahead(s, key, o[0], o[c + 1]);
      }
    }
  }

  /** The ranked order of the first `n` positions of `s`. */
  function RankOrder<T>(s: seq<T>, key: T -> int, n: nat): (o: seq<nat>)
    requires n <= |s|
    ensures |o| == n && InRange(o, |s|)
    ensures forall p: nat :: p in o <==> p < n
    decreases n
  {
    if n == 0 then []
    else
      var prev := RankOrder(s, key, n - 1);
      var o := Insert(s, key, n - 1, prev);
      assert forall p: nat :: p in o <==> p < n by {
        forall p: nat
          ensures p in o <==> p < n
        {
          assert p in o <==> p in multiset(o);
          assert p in prev <==> p in multiset(prev);
          assert p in multiset(o) <==> p in multiset(prev) || p == n - 1;
        }
      }
      o
  }

  lemma {:induction false} RankOrderRanked<T>(s: seq<T>, key: T -> int, n: nat)
    requires n <= |s|
    ensures Ranked(s, key, RankOrder(s, key, n))
    decreases n
  {
    if n > 0 {
      RankOrderRanked(s, key, n - 1);
      InsertRanked(s, key, n - 1, RankOrder(s, key, n - 1));
    }
  }

  /** The ranked order of all positions of `s`. */
  function Order<T>(s: seq<T>, key: T -> int): seq<nat> {
    RankOrder(s, key, |s|)
  }

  /** `s` read in the order `o`. */
  function Permute<T>(s: seq<T>, o: seq<nat>): (r: seq<T>)
    requires InRange(o, |s|)
    ensures |r| == |o|
    ensures forall k :: 0 <= k < |o| ==> r[k] == s[o[k]]
  {
    seq(|o|, k requires 0 <= k < |o| => s[o[k]])
  }

  /** Python's `sorted(s, key=key, reverse=True)`. */
  function SortByKeyDesc<T>(s: seq<T>, key: T -> int): (r: seq<T>)
    ensures |r| == |s|
    ensures multiset(r) == multiset(s)
    ensures forall a, b :: 0 <= a < b < |r| ==> key(r[a]) >= key(r[b])
  {
    var o := Order(s, key);
    var r := Permute(s, o);
    assert multiset(r) == multiset(s) by {
      PermuteRankOrder(s, key, |s|);
      assert s[..|s|] == s;
    }
    assert forall a, b :: 0 <= a < b < |r| ==> key(r[a]) >= key(r[b]) by {
      RankOrderRanked(s, key, |s|);
      forall a, b | 0 <= a < b < |r|
        ensures key(r[a]) >= key(r[b])
      {
        assert Ahead(s, key, o[a], o[b]);
      }
    }
    r
  }

  /** Reading `s` in ranked order keeps its multiset of elements. */
  lemma {:induction false} PermuteRankOrder<T>(s: seq<T>, key: T -> int, n: nat)
    requires n <= |s|
    ensures multiset(Permute(s, RankOrder(s, key, n))) == multiset(s[..n])
    decreases n
  {
    if n > 0 {
      var prev := RankOrder(s, key, n - 1);
      var o := Insert(s, key, n - 1, prev);
      assert RankOrder(s, key, n) == o;
      PermuteRankOrder(s, key, n - 1);
      PermuteInsert(s, key, n - 1, prev);
      calc {
        multiset(Permute(s, o));
        multiset(Permute(s, prev)) + multiset{s[n - 1]};
        multiset(s[..n - 1]) + multiset{s[n - 1]};
        { PrefixMultiset(s, n); }
        multiset(s[..n]);
      }
    }
  }

  lemma {:induction false} PermuteInsert<T>(s: seq<T>, key: T -> int, i: nat, o: seq<nat>)
    requires i < |s| && InRange(o, |s|)
    ensures multiset(Permute(s, Insert(s, key, i, o))) == multiset(Permute(s, o)) + multiset{s[i]}
    decreases |o|
  {
    if |o| == 0 || Ahead(s, key, i, o[0]) {
      PermuteCons(s, i, o);
    } else {
      var tail := o[1..];
      var rest := Insert(s, key, i, tail);
      PermuteInsert(s, key, i, tail);
      PermuteCons(s, o[0], rest);
      PermuteCons(s, o[0], tail);
      assert o == [o[0]] + tail;
    }
  }

  lemma PermuteCons<T>(s: seq<T>, x: nat, o: seq<nat>)
    requires x < |s| && InRange(o, |s|)
    ensures Permute(s, [x] + o) == [s[x]] + Permute(s, o)
  {
  }

  /** Stability: the sorted output is `s` read in the order `Order(s, key)`; that order
      visits every position exactly once, and among elements with equal keys it
      visits positions in increasing order. */
  lemma SortIsStable<T>(s: seq<T>, key: T -> int)
    ensures var o := Order(s, key);
      && |o| == |s|
      && Distinct(o)
      && (forall p: nat :: p < |s| ==> p in o)
      && (forall k :: 0 <= k < |s| ==> o[k] < |s| && SortByKeyDesc(s, key)[k] == s[o[k]])
      && (forall a, b :: 0 <= a < b < |s| && key(s[o[a]]) == key(s[o[b]]) ==> o[a] < o[b])
  {
    var o := Order(s, key);
    RankOrderRanked(s, key, |s|);
    forall a, b | 0 <= a < b < |s|
      ensures o[a] != o[b]
    {
      assert Ahead(s, key, o[a], o[b]);
    }
    forall a, b | 0 <= a < b < |s| && key(s[o[a]]) == key(s[o[b]])
      ensures o[a] < o[b]
    {
      assert Ahead(s, key, o[a], o[b]);
    }
  }

  /** Truncating a sorted sequence keeps the largest keys: anything left out has a
      key no larger than the last one kept. */
  lemma TopKeys<T>(s: seq<T>, key: T -> int, n: nat, x: T)
    requires 0 < n && x in s && x !in Take(SortByKeyDesc(s, key), n)
    ensures n < |s|
    ensures key(x) <= key(SortByKeyDesc(s, key)[n - 1])
  {
    var r := SortByKeyDesc(s, key);
    assert x in multiset(s);
    assert x in r;
    var k :| 0 <= k < |r| && r[k] == x;
  }

  /** Growing a prefix by one element adds that element to its multiset. */
  lemma PrefixMultiset<T>(s: seq<T>, n: nat)
    requires 0 < n <= |s|
    ensures multiset(s[..n]) == multiset(s[..n - 1]) + multiset{s[n - 1]}
  {
    assert s[..n] == s[..n - 1] + [s[n - 1]];
  }
}
