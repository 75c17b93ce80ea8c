/** The two helpers of main.py that the dashboard uses to name trends: `extract_topics`,
    which ranks the words of a list of texts by frequency, and `find_common_topics`,
    which intersects two topic lists. The stopword list is a parameter. */
module Trends {
  import opened Wrappers
  import opened Seqs
  import Text
  import Frequency
  import Topics

  /** An element of `text_list`: a plain string, or a dict whose `title` may be absent. */
  datatype Source = Plain(text: string) | Record(title: Option<string>)

  /** The text a source contributes: a string itself, a dict its `title` or `''`. */
  function SourceText(src: Source): (t: string)
    ensures src.Plain? ==> t == src.text
    ensures src.Record? && src.title.Some? ==> t == src.title.value
    ensures src.Record? && src.title.None? ==> t == ""
  {
    match src
    case Plain(t) => t
    case Record(title) => title.GetOr("")
  }

  /** The texts of the sources, in order. */
  function Texts(sources: seq<Source>): (r: seq<string>)
    ensures |r| == |sources| && forall i :: 0 <= i < |sources| ==> r[i] == SourceText(sources[i])
  {
    seq(|sources|, i requires 0 <= i < |sources| => SourceText(sources[i]))
  }

  /** A token `extract_topics` keeps: not a stopword and longer than three characters. */
  predicate Topical(stopwords: set<string>, t: string) {
    t !in stopwords && |t| > 3
  }

  function Keep(stopwords: set<string>): string -> bool {
    t => Topical(stopwords, t)
  }

  /** `extract_topics(text_list, top_n)`: the `top_n` most common kept words, each a
      token of some source's text. */
  function ExtractTopics(stopwords: set<string>, sources: seq<Source>, topN: nat): (r: seq<string>)
    ensures |r| <= topN && Distinct(r)
    ensures forall w :: w in r ==> Topical(stopwords, w) && exists i :: 0 <= i < |sources| && w in Text.Tokens(SourceText(sources[i]))
  {
    Topics.Top(Texts(sources), Keep(stopwords), topN)
  }

  /** Every topic is a whole maximal word-character run of some lower-cased source text. */
  lemma ExtractTopicsRuns(stopwords: set<string>, sources: seq<Source>, topN: nat, w: string)
    requires w in ExtractTopics(stopwords, sources, topN)
    ensures exists i, a, b :: 0 <= i < |sources| && Text.MaximalRun(Text.Lower(SourceText(sources[i])), Text.IsWordChar, a, b) && w == Text.Lower(SourceText(sources[i]))[a..b]
  {
    Topics.TopIsRun(Texts(sources), Keep(stopwords), topN, w);
  }

  /** Along the topics, counts in the kept-word list never increase, and equal counts
      keep the order in which the words first occurred. */
  lemma ExtractTopicsOrdered(stopwords: set<string>, sources: seq<Source>, topN: nat)
    ensures var words := Topics.Words(Texts(sources), Keep(stopwords));
      var r := ExtractTopics(stopwords, sources, topN);
      forall a, b :: 0 <= a < b < |r| ==>
        && Frequency.Count(words, r[a]) >= Frequency.Count(words, r[b])
        && (Frequency.Count(words, r[a]) == Frequency.Count(words, r[b]) ==> FirstIndex(words, r[a]) < FirstIndex(words, r[b]))
  {
    Topics.TopOrdered(Texts(sources), Keep(stopwords), topN);
  }

  /** A kept token that is not a topic occurs no more often than the last topic, and
      then `top_n` topics were returned; on a tie, the last topic occurred first. */
  lemma ExtractTopicsLeftOut(stopwords: set<string>, sources: seq<Source>, topN: nat, w: string, i: nat)
    requires 0 < topN && i < |sources| && w in Text.Tokens(SourceText(sources[i])) && Topical(stopwords, w)
    requires w !in ExtractTopics(stopwords, sources, topN)
    ensures var words := Topics.Words(Texts(sources), Keep(stopwords));
      var r := ExtractTopics(stopwords, sources, topN);
      |r| == topN && Frequency.Count(words, w) <= Frequency.Count(words, r[topN - 1])
    ensures var words := Topics.Words(Texts(sources), Keep(stopwords));
      var last := ExtractTopics(stopwords, sources, topN)[topN - 1];
      && w in words && last in words
      && (Frequency.Count(words, w) == Frequency.Count(words, last) ==> FirstIndex(words, last) < FirstIndex(words, w))
  {
    Topics.TopLeftOut(Texts(sources), Keep(stopwords), topN, w, i);
  }

  /** With at most `top_n` distinct kept words, every kept token is a topic. */
  lemma ExtractTopicsAll(stopwords: set<string>, sources: seq<Source>, topN: nat, w: string, i: nat)
    requires |Frequency.Tally(Topics.Words(Texts(sources), Keep(stopwords)))| <= topN
    requires i < |sources| && w in Text.Tokens(SourceText(sources[i])) && Topical(stopwords, w)
    ensures w in ExtractTopics(stopwords, sources, topN)
  {
    Topics.TopAll(Texts(sources), Keep(stopwords), topN, w, i);
  }

  /** A dict without a `title` contributes nothing: appending one to the input leaves
      the topics unchanged. */
  lemma ExtractTopicsUntitled(stopwords: set<string>, sources: seq<Source>, topN: nat)
    ensures ExtractTopics(stopwords, sources + [Record(None)], topN) == ExtractTopics(stopwords, sources, topN)
  {
    var texts := Texts(sources);
    assert Texts(sources + [Record(None)]) == texts + [""];
    Topics.WordsSnoc(texts, Keep(stopwords), "");
    Text.NoTokens();
    assert Topics.Words(texts + [""], Keep(stopwords)) == Topics.Words(texts, Keep(stopwords));
  }

  /** `find_common_topics(a, b)`: `list(set(a) & set(b))`. Python leaves the order of
      the list to set iteration; the model lists the common topics in the order they
      first occur in `a`. */
  function CommonTopics(a: seq<string>, b: seq<string>): (r: seq<string>)
    ensures forall x :: x in r <==> x in a && x in b
    ensures Distinct(r)
  {
    Dedup(Filter(a, x => x in b), {})
  }
}
