/** The shape both `extract_topics` functions share: tokenise every text into maximal
    word-character runs of its lower-cased form, keep the tokens a filter accepts, and
    rank the kept words with `Counter(words).most_common(n)`. */
module Topics {
  import opened Seqs
  import Text
  import Frequency

  /** The `words` list: the accepted tokens of every text, text after text. */
  function Words(texts: seq<string>, keep: string -> bool): seq<string> {
    if |texts| == 0 then []
    else Filter(Text.Tokens(texts[0]), keep) + Words(texts[1..], keep)
  }

  /** A word is in the list exactly when it is an accepted token of some text. */
  lemma {:induction false} WordsIff(texts: seq<string>, keep: string -> bool, w: string)
    ensures w in Words(texts, keep) <==> keep(w) && exists i :: 0 <= i < |texts| && w in Text.Tokens(texts[i])
  {
    if |texts| > 0 {
      WordsIff(texts[1..], keep, w);
      if w in Words(texts[1..], keep) {
        var i :| 0 <= i < |texts[1..]| && w in Text.Tokens(texts[1..][i]);
        assert texts[1..][i] == texts[i + 1];
      }
      if keep(w) && exists i :: 0 <= i < |texts| && w in Text.Tokens(texts[i]) {
        var i :| 0 <= i < |texts| && w in Text.Tokens(texts[i]);
        if i > 0 {
          assert texts[1..][i - 1] == texts[i];
        }
      }
    }
  }

  /** Appending a text appends its accepted tokens. */
  lemma {:induction false} WordsSnoc(texts: seq<string>, keep: string -> bool, t: string)
    ensures Words(texts + [t], keep) == Words(texts, keep) + Filter(Text.Tokens(t), keep)
  {
    if |texts| == 0 {
      assert Words([t][1..], keep) == [];
    } else {
      assert (texts + [t])[1..] == texts[1..] + [t];
      WordsSnoc(texts[1..], keep, t);
    }
  }

  /** The `n` most common accepted words, most frequent first. */
  function Top(texts: seq<string>, keep: string -> bool, n: nat): (r: seq<string>)
    ensures |r| <= n && Distinct(r)
    ensures forall w :: w in r ==> keep(w) && exists i :: 0 <= i < |texts| && w in Text.Tokens(texts[i])
  {
    var words := Words(texts, keep);
    var r := Frequency.MostCommon(words, n);
    assert forall w :: w in r ==> keep(w) && exists i :: 0 <= i < |texts| && w in Text.Tokens(texts[i]) by {
      forall w | w in r
        ensures keep(w) && exists i :: 0 <= i < |texts| && w in Text.Tokens(texts[i])
      {
        WordsIff(texts, keep, w);
      }
    }
    r
  }

  /** A topic is a whole maximal word-character run of some lower-cased text. */
  lemma TopIsRun(texts: seq<string>, keep: string -> bool, n: nat, w: string)
    requires w in Top(texts, keep, n)
    ensures exists i, a, b :: 0 <= i < |texts| && Text.MaximalRun(Text.Lower(texts[i]), Text.IsWordChar, a, b) && w == Text.Lower(texts[i])[a..b]
  {
    var i :| 0 <= i < |texts| && w in Text.Tokens(texts[i]);
    Text.TokenIsRun(texts[i], w);
  }

  /** Counts never increase along the topics; equal counts keep first-seen order. */
  lemma TopOrdered(texts: seq<string>, keep: string -> bool, n: nat)
    ensures var words := Words(texts, keep);
      var r := Top(texts, keep, n);
      forall a, b :: 0 <= a < b < |r| ==>
        && Frequency.Count(words, r[a]) >= Frequency.Count(words, r[b])
        && (Frequency.Count(words, r[a]) == Frequency.Count(words, r[b]) ==> FirstIndex(words, r[a]) < FirstIndex(words, r[b]))
  {
    Frequency.MostCommonOrdered(Words(texts, keep), n);
  }

  /** An accepted token that is not a topic is no more frequent than the last topic,
      and then `n` topics were returned; on a tie, the last topic occurred first. */
  lemma TopLeftOut(texts: seq<string>, keep: string -> bool, n: nat, w: string, i: nat)
    requires 0 < n && i < |texts| && w in Text.Tokens(texts[i]) && keep(w)
    requires w !in Top(texts, keep, n)
    ensures |Top(texts, keep, n)| == n
    ensures Frequency.Count(Words(texts, keep), w) <= Frequency.Count(Words(texts, keep), Top(texts, keep, n)[n - 1])
    ensures var words := Words(texts, keep);
      var last := Top(texts, keep, n)[n - 1];
      && w in words && last in words
      && (Frequency.Count(words, w) == Frequency.Count(words, last) ==> FirstIndex(words, last) < FirstIndex(words, w))
  {
    WordsIff(texts, keep, w);
    Frequency.MostCommonLeftOut(Words(texts, keep), n, w);
  }

  /** With at most `n` distinct accepted words, every accepted token is a topic. */
  lemma TopAll(texts: seq<string>, keep: string -> bool, n: nat, w: string, i: nat)
    requires |Frequency.Tally(Words(texts, keep))| <= n
    requires i < |texts| && w in Text.Tokens(texts[i]) && keep(w)
    ensures w in Top(texts, keep, n)
  {
    WordsIff(texts, keep, w);
    Frequency.MostCommonAll(Words(texts, keep), n, w);
  }
}
