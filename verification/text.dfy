/** Character classes and the two tokenizers the scripts use: `re.findall(r'\w+', ...)`
    (maximal runs of word characters) and `str.split()` (maximal runs of non-whitespace).
    Character classes are the ASCII subset of Python's Unicode classes. */
module Text {

  /** Python's `\w` restricted to ASCII: letters, digits and underscore. */
  predicate IsWordChar(c: char) {
    ('a' <= c <= 'z') || ('A' <= c <= 'Z') || ('0' <= c <= '9') || c == '_'
  }

  /** Python's `str.isspace` restricted to ASCII: space, tab, line feed, vertical
      tab, form feed, carriage return and the four separator controls 0x1C-0x1F. */
  predicate IsSpace(c: char) {
    c == ' ' || ('\t' <= c <= '\r') || (28 <= c as int <= 31)
  }

  predicate NotSpace(c: char) {
    !IsSpace(c)
  }

  /** Python's `str.lower` on one ASCII character. */
  function LowerChar(c: char): (r: char)
    ensures IsWordChar(r) <==> IsWordChar(c)
    ensures !('A' <= r <= 'Z')
  {
    if 'A' <= c <= 'Z' then (c as int + 32) as char else c
  }

  /** Python's `str.lower`, character by character. */
  function Lower(s: string): (r: string)
    ensures |r| == |s|
    ensures forall k :: 0 <= k < |s| ==> r[k] == LowerChar(s[k])
  {
    seq(|s|, k requires 0 <= k < |s| => LowerChar(s[k]))
  }

  /** `t` begins with `p` (Python's `t.startswith(p)`). */
  predicate StartsWith(t: string, p: string) {
    |p| <= |t| && t[..|p|] == p
  }

  /** `strip() == ""`: the string is empty or consists of whitespace only. */
  predicate Blank(s: string) {
    forall k :: 0 <= k < |s| ==> IsSpace(s[k])
  }

  /** `s[a..b]` is a maximal run of characters satisfying `inRun`: non-empty, and
      not extendable to the left or to the right. */
  predicate MaximalRun(s: string, inRun: char -> bool, a: int, b: int) {
    && 0 <= a < b <= |s|
    && (forall k :: a <= k < b ==> inRun(s[k]))
    && (a == 0 || !inRun(s[a - 1]))
    && (b == |s| || !inRun(s[b]))
  }

  /** The end of the run of `inRun` characters that starts at `i`. */
  function RunEnd(s: string, inRun: char -> bool, i: nat): (j: nat)
    requires i <= |s|
    ensures i <= j <= |s|
    ensures forall k :: i <= k < j ==> inRun(s[k])
    ensures j == |s| || !inRun(s[j])
    decreases |s| - i
  {
    if i == |s| || !inRun(s[i]) then i else RunEnd(s, inRun, i + 1)
  }

  /** A half-open range of positions `[start, end)`. */
  datatype Span = Span(start: nat, end: nat)

  /** The maximal runs of `s` that start at or after `i`, left to right. Position `i`
      must not be inside a run (it is a start, an end, or next to a non-run character). */
  function SpansFrom(s: string, inRun: char -> bool, i: nat): (r: seq<Span>)
    requires i <= |s|
    requires i == 0 || i == |s| || !inRun(s[i - 1]) || !inRun(s[i])
    ensures forall k :: 0 <= k < |r| ==> i <= r[k].start && MaximalRun(s, inRun, r[k].start, r[k].end)
    ensures forall k, m :: 0 <= k < m < |r| ==> r[k].end < r[m].start
    ensures forall a, b :: i <= a && MaximalRun(s, inRun, a, b) ==> Span(a, b) in r
    decreases |s| - i
  {
    if i == |s| then []
    else if !inRun(s[i]) then SpansFrom(s, inRun, i + 1)
    else
      var j := RunEnd(s, inRun, i);
      var rest := SpansFrom(s, inRun, j);
      assert forall a, b :: i <= a && MaximalRun(s, inRun, a, b) ==> Span(a, b) == Span(i, j) || j <= a by {
        forall a, b | i <= a && MaximalRun(s, inRun, a, b)
          ensures Span(a, b) == Span(i, j) || j <= a
        {
        }
      }
      [Span(i, j)] + rest
  }

  /** All maximal runs of `s`, left to right. */
  function Spans(s: string, inRun: char -> bool): seq<Span> {
    SpansFrom(s, inRun, 0)
  }

  /** The texts of the maximal runs of `s`. */
  function Runs(s: string, inRun: char -> bool): (r: seq<string>)
    ensures |r| == |Spans(s, inRun)|
    ensures forall k :: 0 <= k < |r| ==> |r[k]| > 0 && forall m :: 0 <= m < |r[k]| ==> inRun(r[k][m])
  {
    var sp := Spans(s, inRun);
    seq(|sp|, k requires 0 <= k < |sp| => s[sp[k].start..sp[k].end])
  }

  /** `re.findall(r'\w+', text.lower())`: the maximal word-character runs of the
      lower-cased text, left to right. */
  function Tokens(text: string): (r: seq<string>)
    ensures forall t :: t in r ==> |t| > 0 && forall m :: 0 <= m < |t| ==> IsWordChar(t[m]) && !('A' <= t[m] <= 'Z')
  {
    var low := Lower(text);
    var r := Runs(low, IsWordChar);
    assert forall t :: t in r ==> forall m :: 0 <= m < |t| ==> t[m] in low by {
      forall k, m | 0 <= k < |r| && 0 <= m < |r[k]|
        ensures r[k][m] in low
      {
        var sp := Spans(low, IsWordChar)[k];
        assert r[k][m] == low[sp.start + m];
      }
    }
    r
  }

  /** The tokens of `text` are exactly the maximal word-character runs of its
      lower-cased form. */
  lemma TokenIsRun(text: string, t: string)
    ensures t in Tokens(text) <==> exists a, b :: MaximalRun(Lower(text), IsWordChar, a, b) && t == Lower(text)[a..b]
  {
    var low := Lower(text);
    var sp := Spans(low, IsWordChar);
    var r := Runs(low, IsWordChar);
    assert Tokens(text) == r;
    if t in r {
      var k :| 0 <= k < |r| && r[k] == t;
      assert MaximalRun(low, IsWordChar, sp[k].start, sp[k].end);
    }
    if exists a, b :: MaximalRun(low, IsWordChar, a, b) && t == low[a..b] {
      var a, b :| MaximalRun(low, IsWordChar, a, b) && t == low[a..b];
      assert Span(a, b) in sp;
      var k :| 0 <= k < |sp| && sp[k] == Span(a, b);
      assert r[k] == t;
    }
  }

  /** The empty text has no tokens. */
  lemma NoTokens()
    ensures Tokens("") == []
  {
    assert Spans(Lower(""), IsWordChar) == [];
  }

  /** Python's `len(s.split())`: the number of maximal runs of non-whitespace. */
  function FieldCount(s: string): nat {
    |Spans(s, NotSpace)|
  }

  /** `s.split()` is empty exactly when `s.strip()` is empty. */
  lemma BlankIffNoFields(s: string)
    ensures Blank(s) <==> FieldCount(s) == 0
  {
    var sp := Spans(s, NotSpace);
    if !Blank(s) {
      var k :| 0 <= k < |s| && !IsSpace(s[k]);
      SpansNonEmpty(s, NotSpace, 0, k);
    }
    if |sp| > 0 {
      var k := sp[0].start;
      assert MaximalRun(s, NotSpace, k, sp[0].end);
      assert k < |s| && !IsSpace(s[k]);
    }
  }

  /** A run character at or after `i` yields at least one run. */
  lemma {:induction false} SpansNonEmpty(s: string, inRun: char -> bool, i: nat, k: nat)
    requires i <= k < |s| && inRun(s[k])
    requires i == 0 || !inRun(s[i - 1]) || !inRun(s[i])
    ensures |SpansFrom(s, inRun, i)| > 0
    decreases |s| - i
  {
    if !inRun(s[i]) {
      SpansNonEmpty(s, inRun, i + 1, k);
    }
  }
}
