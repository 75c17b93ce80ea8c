/** The selection logic of reddit.py's `RedditScraper`: the per-post record that
    `get_post_data` builds (blank-selftext guard, comment and reply ranking), the
    URL de-duplication of `fetch_reddit_posts` and `gather_posts_for_topic`, and the
    tokenizer and ranking of its `extract_topics`.

    praw's answers are inputs: a listing per subreddit (`Failed` when fetching it
    raises), and per post its comment forest and per comment its reply tree
    (`Failed` when expanding them raises). */
module Reddit {
  import opened Wrappers
  import opened Seqs
  import Text
  import Ranking
  import Frequency
  import Topics

  // ---------------------------------------------------------------------------
  // praw objects and the records built from them

  /** A reply as praw returns it; `author` is `None` for a deleted account. */
  datatype RawReply = RawReply(author: Option<string>, body: string, createdUtc: real, score: int)

  /** A top-level comment; `replies` is `Failed` when `replace_more(limit=None)` on
      its reply tree raises. */
  datatype RawComment = RawComment(author: Option<string>, body: string, createdUtc: real, score: int, replies: Response<seq<RawReply>>)

  /** A submission; `comments` is `Failed` when `replace_more(limit=0)` on its comment
      forest raises. */
  datatype RawPost = RawPost(
    id: string, title: string, url: string, score: int, numComments: int,
    author: Option<string>, createdUtc: real, selftext: string,
    comments: Response<seq<RawComment>>)

  datatype Subcomment = Subcomment(author: string, text: string, publishedAt: real, likes: int)

  datatype CommentData = CommentData(author: string, text: string, publishedAt: real, likes: int, subcomments: seq<Subcomment>)

  /** The dict `get_post_data` returns. */
  datatype Post = Post(
    title: string, url: string, score: int, commentsCount: int, author: string,
    createdUtc: real, selftext: string, comments: seq<CommentData>)

  /** The name recorded for a deleted author. */
  const UnknownAuthor: string := "Unknown"

  /** `x.author.name if x.author else "Unknown"`. */
  function AuthorName(author: Option<string>): string {
    author.GetOr(UnknownAuthor)
  }

  // ---------------------------------------------------------------------------
  // get_post_data

  /** `sorted(xs, key=score, reverse=True)[:n]`: Python's sort is stable also when
      reversed, so equal scores keep their input order. */
  function TopByScore<T>(xs: seq<T>, score: T -> int, n: int): (r: seq<T>)
    ensures |r| <= |xs| && (n >= 0 ==> |r| == if n <= |xs| then n else |xs|)
    ensures multiset(r) <= multiset(xs)
    ensures forall a, b :: 0 <= a < b < |r| ==> score(r[a]) >= score(r[b])
  {
    var sorted := Ranking.SortByKeyDesc(xs, score);
    var r := SliceTo(sorted, n);
    assert sorted == r + sorted[|r|..];
    r
  }

  /** Ties keep their input order, and an element left out scores no higher than the
      last one kept. */
  lemma TopByScoreRanked<T>(xs: seq<T>, score: T -> int, n: nat)
    ensures var o := Ranking.Order(xs, score);
      var r := TopByScore(xs, score, n);
      forall a, b :: 0 <= a < b < |r| ==> o[a] < |xs| && r[a] == xs[o[a]] && o[b] < |xs| && (score(r[a]) == score(r[b]) ==> o[a] < o[b])
    ensures forall x :: x in xs && x !in TopByScore(xs, score, n) ==>
      n < |xs| && (0 < n ==> score(x) <= score(TopByScore(xs, score, n)[n - 1]))
  {
    Ranking.SortIsStable(xs, score);
    var sorted := Ranking.SortByKeyDesc(xs, score);
    assert TopByScore(xs, score, n) == Take(sorted, n);
    forall x | x in xs && x !in TopByScore(xs, score, n)
      ensures n < |xs| && (0 < n ==> score(x) <= score(TopByScore(xs, score, n)[n - 1]))
    {
      if n > 0 {
        Ranking.TopKeys(xs, score, n, x);
      }
    }
  }

  function ReplyScore(r: RawReply): int {
    r.score
  }

  function CommentScore(c: RawComment): int {
    c.score
  }

  function SubcommentOf(r: RawReply): Subcomment {
    Subcomment(AuthorName(r.author), r.body, r.createdUtc, r.score)
  }

  /** The record of one kept comment, with its `numSubcomments` best replies; `None`
      when expanding its reply tree raises. */
  function CommentRecord(c: RawComment, numSubcomments: int): (r: Option<CommentData>)
    ensures r.Some? <==> c.replies.Answered?
    ensures r.Some? ==>
      && r.value.author == AuthorName(c.author) && r.value.text == c.body
      && r.value.publishedAt == c.createdUtc && r.value.likes == c.score
      && |r.value.subcomments| <= |c.replies.body|
      && (numSubcomments >= 0 ==> |r.value.subcomments| <= numSubcomments)
      && (forall a, b :: 0 <= a < b < |r.value.subcomments| ==> r.value.subcomments[a].likes >= r.value.subcomments[b].likes)
      && (forall s :: s in r.value.subcomments ==> exists x :: x in c.replies.body && s == SubcommentOf(x))
    ensures r.Some? ==>
      var t := TopByScore(c.replies.body, ReplyScore, numSubcomments);
      |r.value.subcomments| == |t| && forall k :: 0 <= k < |t| ==> r.value.subcomments[k] == SubcommentOf(t[k])
  {
    if c.replies.Failed? then None
    else
      var top := TopByScore(c.replies.body, ReplyScore, numSubcomments);
      assert forall x :: x in top ==> x in c.replies.body by {
        assert forall x :: x in top ==> x in multiset(c.replies.body);
      }
      var subs := seq(|top|, k requires 0 <= k < |top| => SubcommentOf(top[k]));
      assert forall k :: 0 <= k < |subs| ==> subs[k].likes == top[k].score;
      Some(CommentData(AuthorName(c.author), c.body, c.createdUtc, c.score, subs))
  }

  /** The records of the kept comments, in order; `None` as soon as one of them raises. */
  function CommentRecords(cs: seq<RawComment>, numSubcomments: int): (r: Option<seq<CommentData>>)
    ensures r.Some? <==> forall c :: c in cs ==> c.replies.Answered?
    ensures r.Some? ==> |r.value| == |cs| && forall k :: 0 <= k < |cs| ==> Some(r.value[k]) == CommentRecord(cs[k], numSubcomments)
  {
    if |cs| == 0 then Some([])
    else
      match (CommentRecord(cs[0], numSubcomments), CommentRecords(cs[1..], numSubcomments))
      case (Some(d), Some(ds)) =>
        assert forall c :: c in cs ==> c == cs[0] || c in cs[1..];
        Some([d] + ds)
      case _ =>
        assert cs[0] in cs;
        assert forall c :: c in cs[1..] ==> c in cs;
        None
  }

  /** `get_post_data(post, num_comments, num_subcomments)`. A post whose selftext is
      empty or whitespace-only is skipped; otherwise the comments are ranked by score
      and cut to `numComments`, each with its replies ranked and cut to
      `numSubcomments`. Any exception while expanding comments yields `None`. */
  function GetPostData(post: RawPost, numComments: int, numSubcomments: int): (r: Option<Post>)
    ensures Text.Blank(post.selftext) ==> r.None?
    ensures r.Some? <==>
      && !Text.Blank(post.selftext) && post.comments.Answered?
      && forall c :: c in TopByScore(post.comments.body, CommentScore, numComments) ==> c.replies.Answered?
    ensures r.Some? ==>
      && r.value.title == post.title && r.value.url == post.url && r.value.score == post.score
      && r.value.commentsCount == post.numComments && r.value.author == AuthorName(post.author)
      && r.value.createdUtc == post.createdUtc && r.value.selftext == post.selftext
      && |r.value.comments| <= |post.comments.body|
      && (numComments >= 0 ==> |r.value.comments| <= numComments)
      && (forall a, b :: 0 <= a < b < |r.value.comments| ==> r.value.comments[a].likes >= r.value.comments[b].likes)
    ensures r.Some? ==> Some(r.value.comments) == CommentRecords(TopByScore(post.comments.body, CommentScore, numComments), numSubcomments)
  {
    if Text.Blank(post.selftext) || post.comments.Failed? then None
    else
      var top := TopByScore(post.comments.body, CommentScore, numComments);
      match CommentRecords(top, numSubcomments)
      case None => None
      case Some(cs) =>
        assert forall k :: 0 <= k < |cs| ==> cs[k].likes == top[k].score;
        Some(Post(post.title, post.url, post.score, post.numComments, AuthorName(post.author), post.createdUtc, post.selftext, cs))
  }

  /** Each kept comment is the record of one of the post's comments, and its replies
      are records of that comment's replies. */
  lemma GetPostDataComments(post: RawPost, numComments: int, numSubcomments: int, d: CommentData)
    requires GetPostData(post, numComments, numSubcomments).Some?
    requires d in GetPostData(post, numComments, numSubcomments).value.comments
    ensures exists c :: c in post.comments.body && Some(d) == CommentRecord(c, numSubcomments)
  {
    var top := TopByScore(post.comments.body, CommentScore, numComments);
    var cs := CommentRecords(top, numSubcomments).value;
    var k :| 0 <= k < |cs| && cs[k] == d;
    assert top[k] in multiset(post.comments.body);
  }

  // ---------------------------------------------------------------------------
  // fetch_reddit_posts and gather_posts_for_topic

  /** The accumulators of both selection loops: the posts kept and `seen_urls`. */
  datatype Selection = Selection(posts: seq<Post>, seen: set<string>)

  const Start := Selection([], {})

  /** No two kept posts share a URL. */
  predicate DistinctUrls(posts: seq<Post>) {
    forall i, j :: 0 <= i < j < |posts| ==> posts[i].url != posts[j].url
  }

  /** What both loops keep: the kept posts have distinct URLs and non-blank selftext,
      and `seen_urls` holds exactly their URLs. */
  predicate Sound(s: Selection) {
    && DistinctUrls(s.posts)
    && (forall p :: p in s.posts ==> !Text.Blank(p.selftext))
    && s.seen == set p | p in s.posts :: p.url
  }

  /** The body of the inner loop for one post: a post whose URL is new and whose
      selftext is not blank is built, and kept with its URL marked seen only when
      `get_post_data` returns a record. */
  function Consider(s: Selection, p: RawPost, numComments: int, numSubcomments: int): Selection {
    if p.url !in s.seen && !Text.Blank(p.selftext) then
      match GetPostData(p, numComments, numSubcomments)
      case Some(d) => Selection(s.posts + [d], s.seen + {p.url})
      case None => s
    else s
  }

  /** `fetch_reddit_posts`'s inner loop over one listing. */
  function ConsiderAll(s: Selection, batch: seq<RawPost>, numComments: int, numSubcomments: int): Selection
    decreases |batch|
  {
    if |batch| == 0 then s
    else ConsiderAll(Consider(s, batch[0], numComments, numSubcomments), batch[1..], numComments, numSubcomments)
  }

  /** `fetch_reddit_posts`'s outer loop: a listing that raises is skipped. */
  function FetchAll(s: Selection, listings: seq<Response<seq<RawPost>>>, numComments: int, numSubcomments: int): Selection
    decreases |listings|
  {
    if |listings| == 0 then s
    else
      var next := if listings[0].Answered? then ConsiderAll(s, listings[0].body, numComments, numSubcomments) else s;
      FetchAll(next, listings[1..], numComments, numSubcomments)
  }

  /** `fetch_reddit_posts(subreddits, limit_per_sub, num_comments, num_subcomments)`,
      given the hot listing of each subreddit in order. */
  function FetchRedditPosts(listings: seq<Response<seq<RawPost>>>, numComments: int, numSubcomments: int): seq<Post> {
    FetchAll(Start, listings, numComments, numSubcomments).posts
  }

  /** One post keeps the invariant. */
  lemma ConsiderSound(s: Selection, p: RawPost, numComments: int, numSubcomments: int)
    requires Sound(s)
    ensures Sound(Consider(s, p, numComments, numSubcomments))
  {
    var d := GetPostData(p, numComments, numSubcomments);
    if p.url !in s.seen && !Text.Blank(p.selftext) && d.Some? {
      var t := Consider(s, p, numComments, numSubcomments);
      assert t.posts == s.posts + [d.value];
      assert (set q | q in t.posts :: q.url) == (set q | q in s.posts :: q.url) + {p.url};
    }
  }

  lemma {:induction false} ConsiderAllSound(s: Selection, batch: seq<RawPost>, numComments: int, numSubcomments: int)
    requires Sound(s)
    ensures Sound(ConsiderAll(s, batch, numComments, numSubcomments))
    decreases |batch|
  {
    if |batch| > 0 {
      ConsiderSound(s, batch[0], numComments, numSubcomments);
      ConsiderAllSound(Consider(s, batch[0], numComments, numSubcomments), batch[1..], numComments, numSubcomments);
    }
  }

  lemma {:induction false} FetchAllSound(s: Selection, listings: seq<Response<seq<RawPost>>>, numComments: int, numSubcomments: int)
    requires Sound(s)
    ensures Sound(FetchAll(s, listings, numComments, numSubcomments))
    decreases |listings|
  {
    if |listings| > 0 {
      var next := if listings[0].Answered? then ConsiderAll(s, listings[0].body, numComments, numSubcomments) else s;
      if listings[0].Answered? {
        ConsiderAllSound(s, listings[0].body, numComments, numSubcomments);
      }
      FetchAllSound(next, listings[1..], numComments, numSubcomments);
    }
  }

  /** The posts of `fetch_reddit_posts` have pairwise distinct URLs and non-blank
      selftext. */
  lemma FetchRedditPostsSound(listings: seq<Response<seq<RawPost>>>, numComments: int, numSubcomments: int)
    ensures DistinctUrls(FetchRedditPosts(listings, numComments, numSubcomments))
    ensures forall p :: p in FetchRedditPosts(listings, numComments, numSubcomments) ==> !Text.Blank(p.selftext)
  {
    FetchAllSound(Start, listings, numComments, numSubcomments);
  }

  /** The record built for one post, if any. */
  function Record(p: RawPost, numComments: int, numSubcomments: int): seq<Post> {
    var d := GetPostData(p, numComments, numSubcomments);
    if d.Some? then [d.value] else []
  }

  /** The records `get_post_data` builds for a listing, in listing order. */
  function Built(batch: seq<RawPost>, numComments: int, numSubcomments: int): seq<Post> {
    if |batch| == 0 then []
    else Record(batch[0], numComments, numSubcomments) + Built(batch[1..], numComments, numSubcomments)
  }

  /** Considering a post keeps at most its own record. */
  lemma ConsiderOrder(s: Selection, p: RawPost, numComments: int, numSubcomments: int, before: seq<Post>)
    requires IsSubseq(s.posts, before)
    ensures IsSubseq(Consider(s, p, numComments, numSubcomments).posts, before + Record(p, numComments, numSubcomments))
  {
    var d := GetPostData(p, numComments, numSubcomments);
    var t := Consider(s, p, numComments, numSubcomments);
    if d.Some? {
      var keep := p.url !in s.seen && !Text.Blank(p.selftext);
      SubseqAppend(s.posts, before, d.value, keep);
      assert t.posts == if keep then s.posts + [d.value] else s.posts;
    } else {
      assert t == s;
      assert before + [] == before;
    }
  }

  /** The records built for every listing that answered, subreddit after subreddit. */
  function BuiltAll(listings: seq<Response<seq<RawPost>>>, numComments: int, numSubcomments: int): seq<Post> {
    if |listings| == 0 then []
    else
      (if listings[0].Answered? then Built(listings[0].body, numComments, numSubcomments) else [])
      + BuiltAll(listings[1..], numComments, numSubcomments)
  }

  lemma {:induction false} ConsiderAllOrder(s: Selection, batch: seq<RawPost>, numComments: int, numSubcomments: int, before: seq<Post>)
    requires IsSubseq(s.posts, before)
    ensures IsSubseq(ConsiderAll(s, batch, numComments, numSubcomments).posts, before + Built(batch, numComments, numSubcomments))
    decreases |batch|
  {
    if |batch| == 0 {
      assert before + [] == before;
    } else {
      var one := Record(batch[0], numComments, numSubcomments);
      var t := Consider(s, batch[0], numComments, numSubcomments);
      ConsiderAllUnfold(s, batch, numComments, numSubcomments);
      ConsiderOrder(s, batch[0], numComments, numSubcomments, before);
      ConsiderAllOrder(t, batch[1..], numComments, numSubcomments, before + one);
      AppendAssoc(before, one, Built(batch[1..], numComments, numSubcomments));
    }
  }

  lemma {:induction false} FetchAllOrder(s: Selection, listings: seq<Response<seq<RawPost>>>, numComments: int, numSubcomments: int, before: seq<Post>)
    requires IsSubseq(s.posts, before)
    ensures IsSubseq(FetchAll(s, listings, numComments, numSubcomments).posts, before + BuiltAll(listings, numComments, numSubcomments))
    decreases |listings|
  {
    if |listings| == 0 {
      assert before + [] == before;
    } else {
      var batch := if listings[0].Answered? then listings[0].body else [];
      var next := if listings[0].Answered? then ConsiderAll(s, batch, numComments, numSubcomments) else s;
      var one := if listings[0].Answered? then Built(batch, numComments, numSubcomments) else [];
      if listings[0].Answered? {
        ConsiderAllOrder(s, batch, numComments, numSubcomments, before);
      } else {
        assert before + one == before;
      }
      var rest := BuiltAll(listings[1..], numComments, numSubcomments);
      FetchAllUnfold(s, listings, numComments, numSubcomments);
      FetchAllOrder(next, listings[1..], numComments, numSubcomments, before + one);
      AppendAssoc(before, one, rest);
    }
  }

  /** The posts follow subreddit order, then listing order: they are a subsequence of
      the records built from every listing. */
  lemma FetchRedditPostsOrder(listings: seq<Response<seq<RawPost>>>, numComments: int, numSubcomments: int)
    ensures IsSubseq(FetchRedditPosts(listings, numComments, numSubcomments), BuiltAll(listings, numComments, numSubcomments))
  {
    FetchAllOrder(Start, listings, numComments, numSubcomments, []);
    assert [] + BuiltAll(listings, numComments, numSubcomments) == BuiltAll(listings, numComments, numSubcomments);
  }

  /** `seen` after walking `built` and marking every record's URL seen. */
  function SeenAfter(built: seq<Post>, seen: set<string>): set<string>
    decreases |built|
  {
    if |built| == 0 then seen else SeenAfter(built[1..], seen + {built[0].url})
  }

  /** `built[i]` is the first record with its URL, and that URL was not seen before. */
  predicate FirstOfUrl(built: seq<Post>, seen: set<string>, i: int)
    requires 0 <= i < |built|
  {
    built[i].url !in seen && forall j :: 0 <= j < i ==> built[j].url != built[i].url
  }

  /** Reference definition of the selection: walk the records in order and keep each
      one whose URL is not yet seen, marking it seen. */
  function DedupUrls(built: seq<Post>, seen: set<string>): seq<Post>
    decreases |built|
  {
    if |built| == 0 then []
    else if built[0].url in seen then DedupUrls(built[1..], seen)
    else [built[0]] + DedupUrls(built[1..], seen + {built[0].url})
  }

  /** The reference selection keeps exactly the first record of every URL not seen
      before. */
  lemma {:induction false} DedupUrlsFirst(built: seq<Post>, seen: set<string>)
    ensures forall i :: 0 <= i < |built| && FirstOfUrl(built, seen, i) ==> built[i] in DedupUrls(built, seen)
    ensures forall q :: q in DedupUrls(built, seen) ==> exists i :: 0 <= i < |built| && FirstOfUrl(built, seen, i) && built[i] == q
    decreases |built|
  {
    if |built| > 0 {
      var rest := built[1..];
      var seen' := if built[0].url in seen then seen else seen + {built[0].url};
      DedupUrlsFirst(rest, seen');
      assert DedupUrls(built, seen) == (if built[0].url in seen then [] else [built[0]]) + DedupUrls(rest, seen');
      forall i | 1 <= i < |built|
        ensures FirstOfUrl(built, seen, i) <==> FirstOfUrl(rest, seen', i - 1)
      {
        assert built[i] == rest[i - 1];
        assert forall j :: 0 <= j < i - 1 ==> rest[j] == built[j + 1];
        if FirstOfUrl(rest, seen', i - 1) {
          forall j | 0 <= j < i
            ensures built[j].url != built[i].url
          {
            if j > 0 {
              assert rest[j - 1] == built[j];
            }
          }
        }
      }
      forall q | q in DedupUrls(built, seen)
        ensures exists i :: 0 <= i < |built| && FirstOfUrl(built, seen, i) && built[i] == q
      {
        if q in DedupUrls(rest, seen') {
          var i :| 0 <= i < |rest| && FirstOfUrl(rest, seen', i) && rest[i] == q;
          assert FirstOfUrl(built, seen, i + 1);
        } else {
          assert FirstOfUrl(built, seen, 0);
        }
      }
    }
  }

  /** Considering one post is the reference selection over its record: a record is
      kept exactly when its URL is new, and its URL is then seen. */
  lemma ConsiderDedup(s: Selection, p: RawPost, numComments: int, numSubcomments: int)
    ensures Consider(s, p, numComments, numSubcomments).posts == s.posts + DedupUrls(Record(p, numComments, numSubcomments), s.seen)
    ensures Consider(s, p, numComments, numSubcomments).seen == SeenAfter(Record(p, numComments, numSubcomments), s.seen)
  {
    var one := Record(p, numComments, numSubcomments);
    var d := GetPostData(p, numComments, numSubcomments);
    if d.None? {
      assert one == [] && Consider(s, p, numComments, numSubcomments) == s;
    } else {
      assert one == [d.value] && one[1..] == [] && d.value.url == p.url && !Text.Blank(p.selftext);
      if p.url in s.seen {
        assert Consider(s, p, numComments, numSubcomments) == s && s.seen + {p.url} == s.seen;
      } else {
        assert Consider(s, p, numComments, numSubcomments) == Selection(s.posts + [d.value], s.seen + {p.url});
      }
    }
  }

  /** Walking two runs of records marks the URLs of the first, then of the second. */
  lemma {:induction false} SeenAfterConcat(a: seq<Post>, b: seq<Post>, seen: set<string>)
    ensures SeenAfter(a + b, seen) == SeenAfter(b, SeenAfter(a, seen))
    decreases |a|
  {
    if |a| == 0 {
      assert a + b == b;
    } else {
      assert (a + b)[0] == a[0] && (a + b)[1..] == a[1..] + b;
      SeenAfterConcat(a[1..], b, seen + {a[0].url});
    }
  }

  /** The reference selection over two runs of records is the selection over the first
      followed by the selection over the second, with the first run's URLs seen. */
  lemma {:induction false} DedupUrlsConcat(a: seq<Post>, b: seq<Post>, seen: set<string>)
    ensures DedupUrls(a + b, seen) == DedupUrls(a, seen) + DedupUrls(b, SeenAfter(a, seen))
    decreases |a|
  {
    if |a| == 0 {
      assert a + b == b;
      assert DedupUrls(a, seen) == [];
    } else {
      var seen' := if a[0].url in seen then seen else seen + {a[0].url};
      assert seen' == seen + {a[0].url};
      assert (a + b)[0] == a[0] && (a + b)[1..] == a[1..] + b;
      DedupUrlsConcat(a[1..], b, seen');
    }
  }

  /** One step of the inner loop, and of the records it builds. */
  lemma ConsiderAllUnfold(s: Selection, batch: seq<RawPost>, numComments: int, numSubcomments: int)
    requires |batch| > 0
    ensures ConsiderAll(s, batch, numComments, numSubcomments) == ConsiderAll(Consider(s, batch[0], numComments, numSubcomments), batch[1..], numComments, numSubcomments)
    ensures Built(batch, numComments, numSubcomments) == Record(batch[0], numComments, numSubcomments) + Built(batch[1..], numComments, numSubcomments)
  {
  }

  /** One step of the outer loop, and of the records it builds. */
  lemma FetchAllUnfold(s: Selection, listings: seq<Response<seq<RawPost>>>, numComments: int, numSubcomments: int)
    requires |listings| > 0
    ensures var next := if listings[0].Answered? then ConsiderAll(s, listings[0].body, numComments, numSubcomments) else s;
      FetchAll(s, listings, numComments, numSubcomments) == FetchAll(next, listings[1..], numComments, numSubcomments)
    ensures var one := if listings[0].Answered? then Built(listings[0].body, numComments, numSubcomments) else [];
      BuiltAll(listings, numComments, numSubcomments) == one + BuiltAll(listings[1..], numComments, numSubcomments)
  {
  }

  lemma AppendAssoc(a: seq<Post>, b: seq<Post>, c: seq<Post>)
    ensures (a + b) + c == a + (b + c)
  {
  }

  lemma {:induction false} ConsiderAllDedup(s: Selection, batch: seq<RawPost>, numComments: int, numSubcomments: int)
    ensures ConsiderAll(s, batch, numComments, numSubcomments).posts == s.posts + DedupUrls(Built(batch, numComments, numSubcomments), s.seen)
    decreases |batch|
  {
    if |batch| == 0 {
      assert s.posts + [] == s.posts;
    } else {
      var one := Record(batch[0], numComments, numSubcomments);
      var t := Consider(s, batch[0], numComments, numSubcomments);
      ConsiderAllUnfold(s, batch, numComments, numSubcomments);
      ConsiderDedup(s, batch[0], numComments, numSubcomments);
      ConsiderAllDedup(t, batch[1..], numComments, numSubcomments);
      DedupUrlsConcat(one, Built(batch[1..], numComments, numSubcomments), s.seen);
      AppendAssoc(s.posts, DedupUrls(one, s.seen), DedupUrls(Built(batch[1..], numComments, numSubcomments), t.seen));
    }
  }

  lemma {:induction false} ConsiderAllSeen(s: Selection, batch: seq<RawPost>, numComments: int, numSubcomments: int)
    ensures ConsiderAll(s, batch, numComments, numSubcomments).seen == SeenAfter(Built(batch, numComments, numSubcomments), s.seen)
    decreases |batch|
  {
    if |batch| > 0 {
      var one := Record(batch[0], numComments, numSubcomments);
      var t := Consider(s, batch[0], numComments, numSubcomments);
      ConsiderAllUnfold(s, batch, numComments, numSubcomments);
      ConsiderDedup(s, batch[0], numComments, numSubcomments);
      ConsiderAllSeen(t, batch[1..], numComments, numSubcomments);
      SeenAfterConcat(one, Built(batch[1..], numComments, numSubcomments), s.seen);
    }
  }

  lemma {:induction false} FetchAllDedup(s: Selection, listings: seq<Response<seq<RawPost>>>, numComments: int, numSubcomments: int)
    ensures FetchAll(s, listings, numComments, numSubcomments).posts == s.posts + DedupUrls(BuiltAll(listings, numComments, numSubcomments), s.seen)
    decreases |listings|
  {
    if |listings| == 0 {
      assert s.posts + [] == s.posts;
    } else {
      var one := if listings[0].Answered? then Built(listings[0].body, numComments, numSubcomments) else [];
      var next := if listings[0].Answered? then ConsiderAll(s, listings[0].body, numComments, numSubcomments) else s;
      var rest := BuiltAll(listings[1..], numComments, numSubcomments);
      FetchAllUnfold(s, listings, numComments, numSubcomments);
      if listings[0].Answered? {
        ConsiderAllDedup(s, listings[0].body, numComments, numSubcomments);
        ConsiderAllSeen(s, listings[0].body, numComments, numSubcomments);
      } else {
        assert s.posts + [] == s.posts;
      }
      FetchAllDedup(next, listings[1..], numComments, numSubcomments);
      DedupUrlsConcat(one, rest, s.seen);
      AppendAssoc(s.posts, DedupUrls(one, s.seen), DedupUrls(rest, next.seen));
    }
  }

  /** `fetch_reddit_posts` keeps exactly the first record built for every URL, across
      all listings in subreddit order: nothing else, and none of them is missed. */
  lemma FetchRedditPostsFirst(listings: seq<Response<seq<RawPost>>>, numComments: int, numSubcomments: int)
    ensures FetchRedditPosts(listings, numComments, numSubcomments) == DedupUrls(BuiltAll(listings, numComments, numSubcomments), {})
    ensures var built := BuiltAll(listings, numComments, numSubcomments);
      forall i :: 0 <= i < |built| && FirstOfUrl(built, {}, i) ==> built[i] in FetchRedditPosts(listings, numComments, numSubcomments)
    ensures var built := BuiltAll(listings, numComments, numSubcomments);
      forall q :: q in FetchRedditPosts(listings, numComments, numSubcomments) ==> exists i :: 0 <= i < |built| && FirstOfUrl(built, {}, i) && built[i] == q
  {
    FetchAllDedup(Start, listings, numComments, numSubcomments);
    DedupUrlsFirst(BuiltAll(listings, numComments, numSubcomments), {});
  }

  /** `gather_posts_for_topic`'s inner loop over one search listing: after each post
      the loop breaks once at least `limit` posts are kept. The break leaves only this
      listing; the next one is still searched and its first post considered. */
  function GatherBatch(s: Selection, batch: seq<RawPost>, limit: int, numComments: int, numSubcomments: int): Selection
    decreases |batch|
  {
    if |batch| == 0 then s
    else
      var t := Consider(s, batch[0], numComments, numSubcomments);
      if |t.posts| >= limit then t else GatherBatch(t, batch[1..], limit, numComments, numSubcomments)
  }

  /** `gather_posts_for_topic`'s outer loop: a listing that raises is skipped. */
  function GatherAll(s: Selection, listings: seq<Response<seq<RawPost>>>, limit: int, numComments: int, numSubcomments: int): Selection
    decreases |listings|
  {
    if |listings| == 0 then s
    else
      var next := if listings[0].Answered? then GatherBatch(s, listings[0].body, limit, numComments, numSubcomments) else s;
      GatherAll(next, listings[1..], limit, numComments, numSubcomments)
  }

  /** `gather_posts_for_topic(topic, subreddits, limit, ...)`, given the search listing
      of each subreddit in order: the kept posts cut with `posts[:limit]`. */
  function GatherPostsForTopic(listings: seq<Response<seq<RawPost>>>, limit: int, numComments: int, numSubcomments: int): (r: seq<Post>)
    ensures limit >= 0 ==> |r| <= limit
    ensures Extends(r, GatherAll(Start, listings, limit, numComments, numSubcomments).posts)
  {
    SliceTo(GatherAll(Start, listings, limit, numComments, numSubcomments).posts, limit)
  }

  /** `a` is a prefix of `b`. */
  predicate Extends(a: seq<Post>, b: seq<Post>) {
    |a| <= |b| && b[..|a|] == a
  }

  lemma ExtendsTrans(a: seq<Post>, b: seq<Post>, c: seq<Post>)
    requires Extends(a, b) && Extends(b, c)
    ensures Extends(a, c)
  {
    assert c[..|a|] == c[..|b|][..|a|];
  }

  /** Two sequences that extend a common prefix of length at least `n` agree on their
      first `n` elements. */
  lemma TakeOfExtension(a: seq<Post>, b: seq<Post>, n: nat)
    requires Extends(a, b) && |a| >= n
    ensures Take(b, n) == Take(a, n)
  {
    assert b[..n] == b[..|a|][..n];
  }

  /** Neither loop ever drops a kept post. */
  lemma ConsiderExtends(s: Selection, p: RawPost, numComments: int, numSubcomments: int)
    ensures Extends(s.posts, Consider(s, p, numComments, numSubcomments).posts)
  {
    var t := Consider(s, p, numComments, numSubcomments);
    assert t == s || t.posts == s.posts + [GetPostData(p, numComments, numSubcomments).value];
  }

  lemma {:induction false} ConsiderAllExtends(s: Selection, batch: seq<RawPost>, numComments: int, numSubcomments: int)
    ensures Extends(s.posts, ConsiderAll(s, batch, numComments, numSubcomments).posts)
    decreases |batch|
  {
    if |batch| > 0 {
      var t := Consider(s, batch[0], numComments, numSubcomments);
      ConsiderExtends(s, batch[0], numComments, numSubcomments);
      ConsiderAllExtends(t, batch[1..], numComments, numSubcomments);
      ExtendsTrans(s.posts, t.posts, ConsiderAll(t, batch[1..], numComments, numSubcomments).posts);
    }
  }

  lemma {:induction false} FetchAllExtends(s: Selection, listings: seq<Response<seq<RawPost>>>, numComments: int, numSubcomments: int)
    ensures Extends(s.posts, FetchAll(s, listings, numComments, numSubcomments).posts)
    decreases |listings|
  {
    if |listings| > 0 {
      var next := if listings[0].Answered? then ConsiderAll(s, listings[0].body, numComments, numSubcomments) else s;
      if listings[0].Answered? {
        ConsiderAllExtends(s, listings[0].body, numComments, numSubcomments);
      }
      FetchAllExtends(next, listings[1..], numComments, numSubcomments);
      ExtendsTrans(s.posts, next.posts, FetchAll(next, listings[1..], numComments, numSubcomments).posts);
    }
  }

  lemma {:induction false} GatherBatchExtends(s: Selection, batch: seq<RawPost>, limit: int, numComments: int, numSubcomments: int)
    ensures Extends(s.posts, GatherBatch(s, batch, limit, numComments, numSubcomments).posts)
    decreases |batch|
  {
    if |batch| > 0 {
      var t := Consider(s, batch[0], numComments, numSubcomments);
      ConsiderExtends(s, batch[0], numComments, numSubcomments);
      if |t.posts| < limit {
        GatherBatchExtends(t, batch[1..], limit, numComments, numSubcomments);
        ExtendsTrans(s.posts, t.posts, GatherBatch(t, batch[1..], limit, numComments, numSubcomments).posts);
      }
    }
  }

  lemma {:induction false} GatherAllExtends(s: Selection, listings: seq<Response<seq<RawPost>>>, limit: int, numComments: int, numSubcomments: int)
    ensures Extends(s.posts, GatherAll(s, listings, limit, numComments, numSubcomments).posts)
    decreases |listings|
  {
    if |listings| > 0 {
      var next := if listings[0].Answered? then GatherBatch(s, listings[0].body, limit, numComments, numSubcomments) else s;
      if listings[0].Answered? {
        GatherBatchExtends(s, listings[0].body, limit, numComments, numSubcomments);
      }
      GatherAllExtends(next, listings[1..], limit, numComments, numSubcomments);
      ExtendsTrans(s.posts, next.posts, GatherAll(next, listings[1..], limit, numComments, numSubcomments).posts);
    }
  }

  /** The early break changes nothing until `limit` posts are kept: afterwards the
      full loop only appends to what the breaking loop kept. */
  lemma {:induction false} GatherBatchAgrees(s: Selection, batch: seq<RawPost>, limit: int, numComments: int, numSubcomments: int)
    ensures var g := GatherBatch(s, batch, limit, numComments, numSubcomments);
      var f := ConsiderAll(s, batch, numComments, numSubcomments);
      g == f || (|g.posts| >= limit && Extends(g.posts, f.posts))
    decreases |batch|
  {
    if |batch| > 0 {
      var t := Consider(s, batch[0], numComments, numSubcomments);
      assert ConsiderAll(s, batch, numComments, numSubcomments) == ConsiderAll(t, batch[1..], numComments, numSubcomments);
      if |t.posts| >= limit {
        ConsiderAllExtends(t, batch[1..], numComments, numSubcomments);
      } else {
        GatherBatchAgrees(t, batch[1..], limit, numComments, numSubcomments);
      }
    }
  }

  lemma {:induction false} GatherAllAgrees(s: Selection, listings: seq<Response<seq<RawPost>>>, limit: nat, numComments: int, numSubcomments: int)
    ensures Take(GatherAll(s, listings, limit, numComments, numSubcomments).posts, limit) == Take(FetchAll(s, listings, numComments, numSubcomments).posts, limit)
    decreases |listings|
  {
    if |listings| > 0 {
      var g := if listings[0].Answered? then GatherBatch(s, listings[0].body, limit, numComments, numSubcomments) else s;
      var f := if listings[0].Answered? then ConsiderAll(s, listings[0].body, numComments, numSubcomments) else s;
      if listings[0].Answered? {
        GatherBatchAgrees(s, listings[0].body, limit, numComments, numSubcomments);
      }
      var gEnd := GatherAll(g, listings[1..], limit, numComments, numSubcomments);
      var fEnd := FetchAll(f, listings[1..], numComments, numSubcomments);
      assert GatherAll(s, listings, limit, numComments, numSubcomments) == gEnd;
      assert FetchAll(s, listings, numComments, numSubcomments) == fEnd;
      if g == f {
        GatherAllAgrees(g, listings[1..], limit, numComments, numSubcomments);
      } else {
        GatherAllExtends(g, listings[1..], limit, numComments, numSubcomments);
        FetchAllExtends(f, listings[1..], numComments, numSubcomments);
        ExtendsTrans(g.posts, f.posts, fEnd.posts);
        TakeOfExtension(g.posts, gEnd.posts, limit);
        TakeOfExtension(g.posts, fEnd.posts, limit);
      }
    }
  }

  /** For a non-negative `limit`, `gather_posts_for_topic` returns exactly the first
      `limit` posts the same listings would give without the early break. */
  lemma GatherPostsForTopicPrefix(listings: seq<Response<seq<RawPost>>>, limit: nat, numComments: int, numSubcomments: int)
    ensures GatherPostsForTopic(listings, limit, numComments, numSubcomments) == Take(FetchRedditPosts(listings, numComments, numSubcomments), limit)
  {
    GatherAllAgrees(Start, listings, limit, numComments, numSubcomments);
  }

  /** A post whose record cannot be built does not mark its URL as seen, so a later
      post with the same URL is still kept. */
  lemma RetryAfterFailure(s: Selection, p: RawPost, q: RawPost, numComments: int, numSubcomments: int)
    requires p.url == q.url && q.url !in s.seen
    requires GetPostData(p, numComments, numSubcomments).None? && GetPostData(q, numComments, numSubcomments).Some?
    ensures ConsiderAll(s, [p, q], numComments, numSubcomments).posts == s.posts + [GetPostData(q, numComments, numSubcomments).value]
  {
    var t := Consider(s, p, numComments, numSubcomments);
    assert t == s;
    var u := Consider(t, q, numComments, numSubcomments);
    assert u.posts == s.posts + [GetPostData(q, numComments, numSubcomments).value];
    assert [p, q][1..] == [q];
    assert ConsiderAll(s, [p, q], numComments, numSubcomments) == ConsiderAll(t, [q], numComments, numSubcomments);
    assert ConsiderAll(t, [q], numComments, numSubcomments) == ConsiderAll(u, [], numComments, numSubcomments);
  }

  /** The posts of `gather_posts_for_topic` have pairwise distinct URLs and non-blank
      selftext. */
  lemma GatherPostsForTopicSound(listings: seq<Response<seq<RawPost>>>, limit: nat, numComments: int, numSubcomments: int)
    ensures DistinctUrls(GatherPostsForTopic(listings, limit, numComments, numSubcomments))
    ensures forall p :: p in GatherPostsForTopic(listings, limit, numComments, numSubcomments) ==> !Text.Blank(p.selftext)
  {
    GatherPostsForTopicPrefix(listings, limit, numComments, numSubcomments);
    FetchRedditPostsSound(listings, numComments, numSubcomments);
  }

  // ---------------------------------------------------------------------------
  // extract_topics

  /** The fields `extract_topics` reads from a post dict; either may be absent. */
  datatype TopicPost = TopicPost(title: Option<string>, selftext: Option<string>)

  /** `post.get('title', '') + " " + post.get('selftext', '')`. */
  function PostText(p: TopicPost): string {
    p.title.GetOr("") + " " + p.selftext.GetOr("")
  }

  function PostTexts(posts: seq<TopicPost>): (r: seq<string>)
    ensures |r| == |posts| && forall i :: 0 <= i < |posts| ==> r[i] == PostText(posts[i])
  {
    seq(|posts|, i requires 0 <= i < |posts| => PostText(posts[i]))
  }

  /** A token reddit.py keeps: at least four characters, not a stopword, and not
      starting with "http". The pattern `\b(?!https?://)\w{4,}\b` matches exactly the
      maximal word-character runs of four or more characters, except runs that start
      with "http", which this filter removes in any case. */
  predicate Wanted(stopwords: set<string>, t: string) {
    |t| >= 4 && t !in stopwords && !Text.StartsWith(t, "http")
  }

  function Keep(stopwords: set<string>): string -> bool {
    t => Wanted(stopwords, t)
  }

  /** `extract_topics(posts, top_n)`: the `top_n` most common wanted words, each a token
      of some post's text. */
  function ExtractTopics(stopwords: set<string>, posts: seq<TopicPost>, topN: nat): (r: seq<string>)
    ensures |r| <= topN && Distinct(r)
    ensures forall w :: w in r ==> Wanted(stopwords, w) && exists i :: 0 <= i < |posts| && w in Text.Tokens(PostText(posts[i]))
  {
    Topics.Top(PostTexts(posts), Keep(stopwords), topN)
  }

  /** Every topic is a whole maximal word-character run of some lower-cased post text. */
  lemma ExtractTopicsRuns(stopwords: set<string>, posts: seq<TopicPost>, topN: nat, w: string)
    requires w in ExtractTopics(stopwords, posts, topN)
    ensures exists i, a, b :: 0 <= i < |posts| && Text.MaximalRun(Text.Lower(PostText(posts[i])), Text.IsWordChar, a, b) && w == Text.Lower(PostText(posts[i]))[a..b]
  {
    Topics.TopIsRun(PostTexts(posts), Keep(stopwords), topN, w);
  }

  /** Along the topics, counts never increase, and equal counts keep first-seen order. */
  lemma ExtractTopicsOrdered(stopwords: set<string>, posts: seq<TopicPost>, topN: nat)
    ensures var words := Topics.Words(PostTexts(posts), Keep(stopwords));
      var r := ExtractTopics(stopwords, posts, topN);
      forall a, b :: 0 <= a < b < |r| ==>
        && Frequency.Count(words, r[a]) >= Frequency.Count(words, r[b])
        && (Frequency.Count(words, r[a]) == Frequency.Count(words, r[b]) ==> FirstIndex(words, r[a]) < FirstIndex(words, r[b]))
  {
    Topics.TopOrdered(PostTexts(posts), Keep(stopwords), topN);
  }

  /** A wanted token that is not a topic occurs no more often than the last topic, and
      then `top_n` topics were returned; on a tie, the last topic occurred first. */
  lemma ExtractTopicsLeftOut(stopwords: set<string>, posts: seq<TopicPost>, topN: nat, w: string, i: nat)
    requires 0 < topN && i < |posts| && w in Text.Tokens(PostText(posts[i])) && Wanted(stopwords, w)
    requires w !in ExtractTopics(stopwords, posts, topN)
    ensures var words := Topics.Words(PostTexts(posts), Keep(stopwords));
      var r := ExtractTopics(stopwords, posts, topN);
      |r| == topN && Frequency.Count(words, w) <= Frequency.Count(words, r[topN - 1])
    ensures var words := Topics.Words(PostTexts(posts), Keep(stopwords));
      var last := ExtractTopics(stopwords, posts, topN)[topN - 1];
      && w in words && last in words
      && (Frequency.Count(words, w) == Frequency.Count(words, last) ==> FirstIndex(words, last) < FirstIndex(words, w))
  {
    Topics.TopLeftOut(PostTexts(posts), Keep(stopwords), topN, w, i);
  }

  /** With at most `top_n` distinct wanted words, every wanted token is a topic. */
  lemma ExtractTopicsAll(stopwords: set<string>, posts: seq<TopicPost>, topN: nat, w: string, i: nat)
    requires |Frequency.Tally(Topics.Words(PostTexts(posts), Keep(stopwords)))| <= topN
    requires i < |posts| && w in Text.Tokens(PostText(posts[i])) && Wanted(stopwords, w)
    ensures w in ExtractTopics(stopwords, posts, topN)
  {
    Topics.TopAll(PostTexts(posts), Keep(stopwords), topN, w, i);
  }
}
