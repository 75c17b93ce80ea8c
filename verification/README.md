# Trend-dashboard scrapers in Dafny

This project models the selection logic of a dashboard that compares trending
political topics on YouTube and Reddit. It has three parts.

- **The YouTube scraper** (`app.py`, modules `Quota` and `YouTube`):
  - a per-key daily quota ledger with a lazy day-rollover reset, first-fit key selection and per-call charging;
  - the transcript short-circuit of `fetch_video_data`;
  - the collection loop of `fetch_youtube_videos`, which keeps at most `max_limit` videos that have a transcript;
  - comment pagination in `fetch_comments` and `fetch_subcomments`, including the overshoot of the reply limit;
  - the filter / rank / truncate step for comments.
- **The Reddit scraper** (`reddit.py`, module `Reddit`):
  - the per-post record built by `get_post_data`, with its blank-selftext guard and score ranking of comments and replies;
  - the URL de-duplication of `fetch_reddit_posts` and `gather_posts_for_topic`, with the latter's early break and final slice;
  - the tokenizer and frequency ranking of its `extract_topics`.
- **The trend helpers** (`main.py`, module `Trends`): `extract_topics` and `find_common_topics`.

Shared modules:

- `Wrappers`: `Option` and `Response`, where `Response` is an API answer or a raised exception.
- `Seqs`: Python-style slicing, filtering and de-duplication.
- `Ranking`: Python's stable `sorted(..., reverse=True)`.
- `Frequency`: `Counter.most_common`.
- `Text`: lower-casing, runs of word characters, and `strip`/`split`.
- `Topics`: the pipeline that both `extract_topics` functions share.

Every answer from the outside world is an input to the model. This covers API pages, transcripts, praw listings and comment trees. A failing call is modelled as `Failed`. "Today" is a parameter. The ledger is threaded through the metered calls in the order they are made. Every fetcher reports the units it spent and proves that the ledger it returns:

- is still valid;
- keeps every key within the daily quota;
- counts exactly the units it reports as spent.

The units reported are pinned to the calls made: each answered call counts its cost, and no other call counts anything.

## Model

| member | source | states |
|---|---|---|
| Quota.Cost | app.py:24-30 | Every call costs at least one unit; a search costs 100 and is the only call costing more than one, so any name missing from the table costs 1. |
| Quota.Init | app.py:36-39 | The initial ledger has a zero-usage row for exactly the configured keys, stamped today, and respects the daily bound. |
| Quota.Reset | app.py:42-50 | After the rollover check, every row is stamped today. A row from an earlier day has usage 0. A row already stamped today is unchanged. Keys, validity and the daily bound are preserved. |
| Quota.ResetStamped | app.py:42-50 | When every row is already stamped today, the reset changes nothing. |
| Quota.ResetIdempotent | app.py:42-50 | Resetting twice on one day is the same as resetting once. |
| Quota.GetAvailableKey | app.py:52-60 | A selected key is the first configured key with at least the required headroom after the reset. No key is selected exactly when no key has that headroom (the source raises). |
| Quota.Charge | app.py:62-66 | Charging adds the call's cost to the selected key only; every other row and the stamp are untouched. |
| Quota.ChargeAddsCost | app.py:62-66 | The ledger's total usage grows by exactly the call's cost. |
| Quota.SelectThenChargeKeepsBound | app.py:52-66 | Selecting a key for a call's cost and then charging that call to it keeps every key within the 10000-unit daily quota. |
| Quota.Request | app.py:76-86 | One metered call (select, request, charge). It answers exactly when a key had headroom and the request did not raise. It then returns the response body. Today's usage grows by the cost exactly when it answers, and the ledger stays valid, stamped and bounded. |
| Quota.Call | app.py:251-262 | The statement form of one metered call. It answers, with the response body, exactly when the request does not raise and some key has headroom for the call after the reset. An answered request that gets no answer leaves a ledger on which no key has that headroom. Today's usage grows by the cost exactly when the call answers. |
| Quota.ExhaustedPersists | app.py:52-60 | Once no key has headroom for a call on a day, none has after further charges that day: a ledger whose keys are the same and whose usage for today has only grown stays exhausted. |
| Quota.NearQuotaScenario | app.py:52-66 | With one key at 9950 units, a search finds no key and leaves the ledger unchanged, while a video look-up is charged and brings the key to 9951. |
| YouTube.FetchSubcomments | app.py:247-282 | Pages are followed while the previous page had a next token and fewer than the limit were gathered, so the last page may overshoot. A completed run returns exactly the replies of the pages fetched. A run cut short returns no replies, and it is cut short only by a raised request or by no key having headroom for the next page. Each fetched page is charged exactly once. |
| YouTube.ProcessComment | app.py:231-245 | An item yields a comment exactly when it is readable. The comment carries the thread's top-level fields and the replies of a `fetch_subcomments` run over the thread's reply pages, with that run's stop rule and failure causes. An item without an id or snippet makes no call. Every reply page fetched is charged once. |
| YouTube.ProcessItems | app.py:210-218 | Every item of a page is processed once, in the order the items complete. The comments kept are exactly those the readable items yield, each with the replies of its own run. The units spent are exactly the reply pages those runs fetched. A reply run cut short stopped on a raised request, unless the ledger left at the end has no key with headroom for a reply page. |
| YouTube.ThreadPass | app.py:201-219 | One pass of the page loop. The page is answered exactly when the request does not raise and a key has headroom for a thread page. It then keeps what its items yield and costs one thread-page charge plus one charge per reply page. Every reply run of the page that was cut short met a raised request, unless no key is left with headroom for a reply page. A pass without a page charges nothing. |
| YouTube.GatherPass | app.py:200-221 | A pass below the limit fails exactly when the next request raises or no key has headroom; otherwise it fetches exactly one more page. Either way it keeps the loop state: the comments are those the fetched pages' items yield, each page but the last had a next token, and the charges add up. A failed loop had fewer than the limit and would have followed its last page. Every reply run cut short met a raised request, unless no key is left with headroom for a reply page. |
| YouTube.GatherThreads | app.py:198-221 | The loop gathers exactly what the items of the pages it fetched yield, and is charged one unit per thread page and per reply page. A loop that did not fail stopped on a page without a next token or on reaching twice `max_comments`; one that failed had fewer than the limit, would have followed its last page, and stopped on a raised request or an exhausted ledger. Every reply run cut short met a raised request, unless no key is left with headroom for a reply page. |
| YouTube.FetchComments | app.py:195-229 | Units spent are exactly one per thread page plus one per reply page. A completed loop stopped on a page without a next token or on reaching twice `max_comments`, and returns the ranked comments. One cut short had fewer than that, would have followed its last page, stopped on a raised request or an exhausted ledger, and returns none. Every reply run cut short met a raised request, unless no key is left with headroom for a reply page. The result has at most `max_comments` entries, each a gathered, substantial comment of a readable item of an answered page, and likes never increase. |
| YouTube.ThreadKeptFrom | app.py:210-218 | Every comment the first `n` pages keep is the comment of a readable item of one of those pages, carrying the replies of a `fetch_subcomments` run over that item's reply pages. |
| YouTube.RankComments | app.py:223-226 | The result holds only collected comments of more than five words, sorted by likes (largest first). Its length is `max_comments` or the number of such comments, whichever is smaller. |
| YouTube.RankCommentsStable | app.py:225 | The result is the stable descending order of the substantial comments: equal likes keep their collected order. |
| YouTube.RankCommentsTop | app.py:224-226 | A substantial comment left out has no more likes than the last one returned, and then exactly `max_comments` were returned. |
| YouTube.FetchChannelDetails | app.py:154-177 | The channel is read exactly when the request answers with an item and a key has headroom; the result is then the item's creation date and subscriber count (default "0"). A raised call, no key with headroom, or an empty item list gives the `Unknown` fallback. One channel unit is spent exactly when the call answers. |
| YouTube.FetchVideoData | app.py:109-152 | A video is kept exactly when there is a transcript, the look-up answers with an item and a key has headroom. Without a transcript the ledger is untouched. The units spent are exactly: none without a transcript or an answered look-up; the look-up alone when it has no item; otherwise the look-up, the channel call when it is answered on the ledger the look-up left, and the thread and reply pages of the comment run. A video kept carries the look-up's fields, the watch URL of its id and its transcript. Its channel is the channel item's values exactly when that channel call was answered with an item, and the `Unknown` fallback otherwise. Its comments are exactly the result of a `fetch_comments` run with `max_comments` 15 over the video's thread pages, with that run's stop rule, failure causes and ranking. |
| YouTube.Qualifying | app.py:99-100 | The results the collection loop keeps, in completion order: each has a transcript and is one of the results. |
| YouTube.CollectVideos | app.py:97-103 | The loop returns the first `max_limit` complete results in completion order. Because the count is checked after an append, a `max_limit` of zero or less still keeps one. |
| YouTube.TakePrefixOfQualifying | app.py:102-103 | Breaking once `max_limit` results are kept loses nothing: later results cannot change the first `max_limit` complete ones. |
| YouTube.EnrichAll | app.py:91-95 | Every candidate is enriched once, in completion order. Each task starts from the ledger the one before left, and the first starts from the pool's ledger. The units spent are the sum of the tasks' units, each pinned as in `FetchVideoData`. |
| YouTube.FetchYouTubeVideos | app.py:73-107 | The videos are exactly the first `max_limit` complete results in completion order (at least one allowed). A raised search or no key with headroom gives no results and no videos. Otherwise there is one result per search hit. The first task starts from the ledger the search left, and each later task from the ledger the task before left. The `k`-th completed task's result is a video exactly when its hit has a transcript, its look-up answers with an item, and some key has headroom for a look-up on the ledger that task started from. That video has the hit's watch URL and transcript, and the task's units and comment run are pinned as in `FetchVideoData`. The units spent are the search's when it is answered plus the sum of the tasks'. |
| YouTube.VideosFromHits | app.py:86-100 | Every video the collection loop keeps from the tasks' results is the video of a search hit: for each kept video the lemma names the hit whose watch URL and transcript it carries. |
| Trends.ExtractTopics | main.py:19-30 | At most `top_n` distinct topics. Each is longer than three characters, not a stopword, and a token of some source's text (a string, or a dict's title). |
| Trends.ExtractTopicsRuns | main.py:26 | Every topic is a whole maximal run of word characters in some lower-cased source text. |
| Trends.ExtractTopicsOrdered | main.py:29-30 | Along the topics, counts never increase, and equal counts keep first-occurrence order. |
| Trends.ExtractTopicsLeftOut | main.py:27-30 | A kept token that is not a topic occurs no more often than the last topic, and then exactly `top_n` topics were returned. On equal counts, the last topic occurred first in the word list, so ties keep the first-seen word. |
| Trends.ExtractTopicsAll | main.py:29-30 | With at most `top_n` distinct kept words, every kept token is a topic. |
| Trends.ExtractTopicsUntitled | main.py:24-25 | A dict without a title contributes nothing: appending one leaves the topics unchanged. |
| Trends.CommonTopics | main.py:32-34 | A topic is common exactly when it is in both lists, and no topic is listed twice. |
| Topics.WordsIff | main.py:22-28 | A word is in the word list exactly when the filter accepts it and it is a token of some text. |
| Frequency.MostCommonLeftOut | main.py:29-30 | A word left out of `most_common(n)` is no more frequent than the last word kept, and then `n` words were kept. On equal counts, the last word kept occurred first. |
| Text.TokenIsRun | main.py:26 | A token of a text is exactly a maximal run of word characters of its lower-cased form. |
| Seqs.SliceTo | reddit.py:135 | Python's `s[:n]` for any integer `n`: a prefix whose length is `n` clamped to the sequence, counted from the end when `n` is negative. |
| Ranking.SortIsStable | app.py:225 | The descending sort reads the input in a rank order that visits every position exactly once; each output element is the input at its ranked position, and among equal keys positions increase. |
| Reddit.TopByScore | reddit.py:54 | `sorted(xs, key=score, reverse=True)[:n]` has `n` elements (clamped), all taken from the input with multiplicity, with scores non-increasing. |
| Reddit.TopByScoreRanked | reddit.py:64 | Equal scores keep input order. An element left out scores no higher than the last one kept, and then `n` were kept. |
| Reddit.CommentRecord | reddit.py:55-73 | A comment's record exists exactly when its reply tree expands. It then carries the comment's fields (author "Unknown" if deleted), and its subcomments are exactly the records of the stable top `num_subcomments` replies by score, in that order. |
| Reddit.CommentRecords | reddit.py:55-73 | The records of the ranked comments exist exactly when every one of them expands, and are their records in order. |
| Reddit.GetPostData | reddit.py:36-77 | A blank selftext gives `None`. A record exists exactly when the selftext is not blank, the comment forest expands and every kept comment's replies expand. It copies the post's fields, and its comments are exactly the records of the stable top `num_comments` comments by score, in that order. |
| Reddit.GetPostDataComments | reddit.py:53-73 | Every comment in a post record is the record of one of the post's comments. |
| Reddit.ConsiderSound | reddit.py:88-92 | Considering one post keeps the selection sound: URLs distinct, selftexts non-blank, and `seen_urls` exactly the URLs kept. |
| Reddit.FetchRedditPostsSound | reddit.py:79-95 | The posts returned have pairwise distinct URLs and non-blank selftexts. |
| Reddit.FetchRedditPostsOrder | reddit.py:82-92 | The posts returned are a subsequence of all records that could be built from the answered listings, in listing order; a failed listing contributes nothing. |
| Reddit.DedupUrlsFirst | reddit.py:86-92 | Walking records in order and keeping each unseen URL keeps exactly the first record of every URL not seen before: each such record is kept, and nothing else is. |
| Reddit.FetchRedditPostsFirst | reddit.py:79-95 | The posts returned are the URL de-duplication of all records that can be built from the answered listings, in subreddit order: every first record of a URL is returned, and every post returned is one. |
| Reddit.RetryAfterFailure | reddit.py:88-92 | A URL is marked seen only when its record is kept, so a later post with the same URL is still considered after an earlier one failed. |
| Reddit.GatherPostsForTopic | reddit.py:112-135 | At most `limit` posts (for non-negative `limit`), a prefix of what the gather loop kept. |
| Reddit.GatherPostsForTopicPrefix | reddit.py:124-135 | For non-negative `limit`, the early break and final slice give exactly the first `limit` posts that the de-duplicating loop without a break (`fetch_reddit_posts`'s loop) keeps from the same listings. |
| Reddit.GatherPostsForTopicSound | reddit.py:124-130 | The gathered posts have pairwise distinct URLs and non-blank selftexts. |
| Reddit.ExtractTopics | reddit.py:97-107 | At most `top_n` distinct topics. Each has at least four characters, is not a stopword, does not start with `http`, and is a token of some post's "title selftext". |
| Reddit.ExtractTopicsRuns | reddit.py:103 | Every topic is a whole maximal run of word characters in some lower-cased post text. |
| Reddit.ExtractTopicsOrdered | reddit.py:106-107 | Along the topics, counts never increase, and equal counts keep first-occurrence order. |
| Reddit.ExtractTopicsLeftOut | reddit.py:104-107 | A wanted token that is not a topic occurs no more often than the last topic, and then exactly `top_n` topics were returned. On equal counts, the last topic occurred first in the word list, so ties keep the first-seen word. |
| Reddit.ExtractTopicsAll | reddit.py:106-107 | With at most `top_n` distinct wanted words, every wanted token is a topic. |

## Behaviour worth noting

The model follows the code in these places.

- **Workers are not cancelled.** `fetch_youtube_videos` breaks out of its `as_completed` loop once `max_limit` videos are kept. However, leaving the `with ThreadPoolExecutor` block waits for every submitted task, so every candidate is still enriched and charged; nothing is cancelled. `YouTube.FetchYouTubeVideos` processes every candidate.
- **`max_limit` of zero or less.** The count is checked only after an append, so such a `max_limit` still returns one video when one qualifies.
- **The break in `gather_posts_for_topic`.** It leaves only the loop over the current subreddit's posts. Every later subreddit is still searched, and its posts are considered one at a time, each followed by the same break check. The final `posts[:limit]` slice trims the result.
- **Reply-limit overshoot.** `fetch_subcomments` checks its limit after appending a whole page, so it can return more than `max_subcomments` replies.
- **`find_common_topics` order.** The result's order is Python's set-iteration order. The model lists common topics in the order they first occur in the first list.

## Left out

- Network I/O, the YouTube client, the transcript API and praw are left out. Their answers are inputs: a `Response` per call, scripted in call order.
- Concurrency: the worker pools of `fetch_youtube_videos` and `fetch_comments`, and the lock. Tasks run one after another, in a completion order that is an input (`order` for videos, item order for comment threads). With real workers, the check-then-charge of two tasks on one key can interleave; the model claims nothing about that race.
- `YouTube.ProcessItems` reads a page's items in completion order: the model's item list is that order, an input. It decides the order of equal-like comments after ranking, which equal-like comments survive the cut at `max_comments`, and, when the quota runs out mid-page, which threads get their replies.
- `get_transcript` (language detection and translation) is not modelled; a candidate's transcript is an input, either already translated or the "not available" sentinel.
- The clock is not modelled: `datetime.now().date()` is the `today` parameter. A day that changes during a fetch is not modelled either; each fetcher uses one `today`.
- Each reply is read whole from its page. Missing reply fields raise in `fetch_subcomments` and give no replies. The model's pages are always well-formed, and missing thread fields are modelled only as `Unreadable` items or a missing top comment. Search items and video items are always well-formed too. In the source, a search item without `id.videoId` (app.py:87) raises after the search is charged, and `fetch_youtube_videos` returns `[]`. A video item missing a `snippet` or `statistics` field raises in app.py:128-151, some of them after the channel and comments were charged, and `fetch_video_data` returns `None`. Neither path is modelled.
- `subscriberCount`, `viewCount` and `likeCount` are kept as strings. The channel fallback's integer `0` is written as the string "0".
- Reddit timestamps (`created_utc`) are opaque `real` values that are copied and never computed on.
- Stopwords come from NLTK's English list, which is not modelled; they are a parameter.
- `Text.Tokens`: `\w` and `lower()` cover ASCII letters, digits and `_` only, not Python's Unicode classes. Likewise `Text.IsSpace`, which drives `Text.Blank` (`strip()`) and `Text.FieldCount` (`split()`), knows only ASCII whitespace; Python also treats U+00A0, U+0085 and U+2003 as whitespace, which affects `get_post_data`'s blank-selftext guard and `Substantial`.
- ExtractTopics (`Trends.ExtractTopics`, `Reddit.ExtractTopics`): `top_n` is a natural number. Python's `most_common` with a negative count returns an empty list, and that case is not modelled.
- `Reddit.ExtractTopics`: the `(?!https?://)` lookahead of the regex is not modelled separately. A run that it rejects starts with `http`, and the `startswith('http')` filter drops such runs anyway.
- `Reddit.ExtractTopics`: the `try/except` that returns `[]` covers a title or selftext that is present but not a string, which `TopicPost` cannot express.
- Logging, `rate_limit` (sleeping between praw calls), `build_service`, and `search_political_subreddits` are not modelled.
- The dashboard and JSON output of `main.py` (`main()`) are not modelled, and neither is the module-level download of stopwords.
