/** Python's `collections.Counter(words).most_common(n)`: the distinct words ranked
    by how often they occur, most frequent first, ties in the order the words were
    first seen (a Counter iterates in insertion order and `most_common` sorts stably). */
module Frequency {
  import opened Seqs
  import opened Ranking

  /** How often `w` occurs in `words`. */
  function Count<T(==)>(words: seq<T>, w: T): nat {
    multiset(words)[w]
  }

  /** The ranking key: a word's count in `words`. */
  function CountKey<T(==)>(words: seq<T>): T -> int {
    w => Count(words, w)
  }

  /** The keys of `Counter(words)`, in insertion (first-seen) order. */
  function Tally<T(==,!new)>(words: seq<T>): (r: seq<T>)
    ensures Distinct(r)
    ensures forall w :: w in r <==> w in words
  {
    Dedup(words, {})
  }

  /** `Counter(words).most_common(n)`, keeping only the words. */
  function MostCommon<T(==,!new)>(words: seq<T>, n: nat): (r: seq<T>)
    ensures |r| <= n
    ensures Distinct(r)
    ensures forall w :: w in r ==> w in words
  {
    var d := Tally(words);
    var sorted := SortByKeyDesc(d, CountKey(words));
    SortIsStable(d, CountKey(words));
    var o := Order(d, CountKey(words));
    assert forall w :: w in sorted ==> w in words by {
      assert forall w :: w in sorted ==> w in multiset(d);
    }
    assert Distinct(sorted) by {
      forall a, b | 0 <= a < b < |sorted|
        ensures sorted[a] != sorted[b]
      {
        assert sorted[a] == d[o[a]] && sorted[b] == d[o[b]];
      }
    }
    Take(sorted, n)
  }

  /** Along the result, counts never increase, and words with equal counts appear in
      the order of their first occurrence in `words`. */
  lemma MostCommonOrdered<T(!new)>(words: seq<T>, n: nat)
    ensures var r := MostCommon(words, n);
      forall a, b :: 0 <= a < b < |r| ==>
        && Count(words, r[a]) >= Count(words, r[b])
        && (Count(words, r[a]) == Count(words, r[b]) ==> FirstIndex(words, r[a]) < FirstIndex(words, r[b]))
  {
    var r := MostCommon(words, n);
    var d := Tally(words);
    var key := CountKey(words);
    var sorted := SortByKeyDesc(d, key);
    var o := Order(d, key);
    SortIsStable(d, key);
    forall a, b | 0 <= a < b < |r|
      ensures Count(words, r[a]) >= Count(words, r[b])
      ensures Count(words, r[a]) == Count(words, r[b]) ==> FirstIndex(words, r[a]) < FirstIndex(words, r[b])
    {
      assert r[a] == sorted[a] == d[o[a]] && r[b] == sorted[b] == d[o[b]];
      assert key(sorted[a]) >= key(sorted[b]);
      if Count(words, r[a]) == Count(words, r[b]) {
        assert o[a] < o[b];
      }
    }
  }

  /** The result holds `min(n, number of distinct words)` words. */
  lemma MostCommonLength<T(!new)>(words: seq<T>, n: nat)
    ensures |MostCommon(words, n)| == if n <= |Tally(words)| then n else |Tally(words)|
  {
  }

  /** A word left out of the result is no more frequent than the last word kept (and
      then exactly `n` words were kept); on a tie, the last word kept occurred first. */
  lemma MostCommonLeftOut<T(!new)>(words: seq<T>, n: nat, w: T)
    requires 0 < n && w in words && w !in MostCommon(words, n)
    ensures n == |MostCommon(words, n)|
    ensures Count(words, w) <= Count(words, MostCommon(words, n)[n - 1])
    ensures Count(words, w) == Count(words, MostCommon(words, n)[n - 1]) ==>
      FirstIndex(words, MostCommon(words, n)[n - 1]) < FirstIndex(words, w)
  {
    var d := Tally(words);
    var key := CountKey(words);
    var sorted := SortByKeyDesc(d, key);
    var r := MostCommon(words, n);
    assert r == Take(sorted, n);
    assert w in d;
    TopKeys(d, key, n, w);
    assert r[n - 1] == sorted[n - 1];
    if Count(words, w) == Count(words, r[n - 1]) {
      SortIsStable(d, key);
      var o := Order(d, key);
      assert w in multiset(sorted);
      var k :| 0 <= k < |sorted| && sorted[k] == w;
      assert k >= n;
      assert sorted[n - 1] == d[o[n - 1]] && sorted[k] == d[o[k]];
      assert o[n - 1] < o[k];
    }
  }

  /** With at most `n` distinct words, every word is returned. */
  lemma MostCommonAll<T(!new)>(words: seq<T>, n: nat, w: T)
    requires |Tally(words)| <= n && w in words
    ensures w in MostCommon(words, n)
  {
    var d := Tally(words);
    var sorted := SortByKeyDesc(d, CountKey(words));
    assert MostCommon(words, n) == sorted;
    assert w in multiset(d);
  }
}
