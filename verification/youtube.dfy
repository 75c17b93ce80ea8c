/** The YouTube side of app.py: what `fetch_youtube_videos` keeps, the transcript
    short-circuit of `fetch_video_data`, channel look-up with its fallback, and the
    paginate / filter / rank / truncate pipeline of `fetch_comments` and
    `fetch_subcomments`.

    Every API answer is an input: a `Response` per call, scripted in the order the calls
    are made. Worker pools are replaced by sequential processing in completion order,
    which is itself an input (any order is allowed). The quota ledger is threaded
    through every metered call in that order. */
module YouTube {
  import opened Wrappers
  import opened Seqs
  import opened Quota
  import Text
  import Ranking

  /** What `get_transcript` returns when there is no usable transcript. */
  const NoTranscript: string := "Transcript not available."

  /** The `max_comments` that `fetch_video_data` passes to `fetch_comments`. */
  const CommentsPerVideo: nat := 15

  /** The default `max_subcomments` of `fetch_subcomments`. */
  const MaxSubcomments: int := 100

  /** Prefix of a video's URL; the video id follows it. */
  const WatchPrefix: string := "https://www.youtube.com/watch?v="

  /** A reply (subcomment) record. */
  datatype Reply = Reply(author: string, text: string, publishedAt: string, likes: int)

  /** A top-level comment record with its replies. */
  datatype Comment = Comment(author: string, text: string, publishedAt: string, likes: int, replies: seq<Reply>)

  /** The fields read from a thread's top-level comment. */
  datatype TopComment = TopComment(author: string, text: string, publishedAt: string, likes: int)

  /** One answered `comments().list` page. */
  datatype ReplyPage = ReplyPage(items: seq<Reply>, nextPageToken: Option<string>)

  /** One item of a `commentThreads().list` page. `Unreadable`: its id or snippet is
      missing, so `process_comment` fails before fetching replies. `Thread`: the item
      has an id; `top` is `None` when a field of the top-level comment is missing, which
      `process_comment` only discovers after fetching the replies from `replyPages`. */
  datatype ThreadItem = Unreadable | Thread(top: Option<TopComment>, replyPages: seq<Response<ReplyPage>>)

  /** One answered `commentThreads().list` page, its items in the order their
      `process_comment` tasks completed. */
  datatype ThreadPage = ThreadPage(items: seq<ThreadItem>, nextPageToken: Option<string>)

  /** A page token is followed only when present and non-empty (`if not token: break`). */
  predicate HasNext(token: Option<string>) {
    token.Some? && token.value != ""
  }

  /** A value produced, the quota units charged while producing it, and the ledger left. */
  datatype Fetched<K, T> = Fetched(value: T, spent: nat, ledger: Ledger<K>)

  /** `after` is a valid ledger over the same keys, keeps the daily bound, counts
      exactly `spent` more units for today than `before`, and no key's usage went down. */
  predicate Accounts<K>(before: Ledger<K>, today: Date, after: Ledger<K>, spent: nat)
    requires Valid(before)
  {
    && Valid(after) && after.keys == before.keys
    && (Bounded(before) ==> Bounded(after))
    && UsedToday(after, today) == UsedToday(before, today) + spent
    && Grows(before, today, after)
  }

  lemma AccountsChain<K>(a: Ledger<K>, today: Date, b: Ledger<K>, s1: nat, c: Ledger<K>, s2: nat)
    requires Valid(a) && Accounts(a, today, b, s1) && Accounts(b, today, c, s2)
    ensures Accounts(a, today, c, s1 + s2)
  {
  }

  // ---------------------------------------------------------------------------
  // fetch_subcomments

  /** The replies a page carries; an unanswered page carries none. */
  function PageReplies(p: Response<ReplyPage>): seq<Reply> {
    if p.Answered? then p.body.items else []
  }

  /** The replies carried by the first `n` pages, in page order. */
  function Replies(pages: seq<Response<ReplyPage>>, n: nat): seq<Reply>
    requires n <= |pages|
  {
    if n == 0 then [] else Replies(pages, n - 1) + PageReplies(pages[n - 1])
  }

  /** What one run of `fetch_subcomments` produced: the replies returned, the pages
      fetched and charged, and whether the loop reached its own stop rather than being
      cut short by an exception. */
  datatype Outcome = Outcome(replies: seq<Reply>, fetched: nat, completed: bool)

  /** The outcome of a thread whose replies were never asked for. */
  const Untouched := Outcome([], 0, false)

  /** The stop rule of `fetch_subcomments` over `pages`. A completed run followed
      every page but its last, which was answered; it returns exactly the replies of
      its pages and stopped on a page without next token or on reaching `maxSub`. A run
      cut short returns no replies, and every page it fetched was followed, so its last
      page, if any, had a next token and left fewer than `maxSub` replies. */
  predicate Settled(pages: seq<Response<ReplyPage>>, maxSub: int, o: Outcome) {
    && o.fetched <= |pages|
    && (o.completed ==>
          && 1 <= o.fetched && Following(pages, maxSub, o.fetched - 1) && pages[o.fetched - 1].Answered?
          && o.replies == Replies(pages, o.fetched)
          && (!HasNext(pages[o.fetched - 1].body.nextPageToken) || |o.replies| >= maxSub))
    && (!o.completed ==> o.replies == [] && Following(pages, maxSub, o.fetched))
  }

  /** `fetch_subcomments(parent_id, max_subcomments)`. Each pass selects a key, fetches
      the next page of replies, charges it and appends its replies; the loop stops when
      the page has no next token or at least `maxSub` replies are gathered, so the last
      page may overshoot `maxSub`. A run is cut short, returning no replies while the
      pages already fetched stay charged, only when a request raises or no key has
      headroom for the next page. */
  method FetchSubcomments<K>(l: Ledger<K>, today: Date, pages: seq<Response<ReplyPage>>, maxSub: int)
    returns (r: Fetched<K, Outcome>)
    requires Valid(l)
    ensures Accounts(l, today, r.ledger, r.spent) && r.spent == r.value.fetched * Cost(Comments)
    ensures Settled(pages, maxSub, r.value)
    ensures !r.value.completed ==> Nth(pages, r.value.fetched).Failed? || Exhausted(r.ledger, today, Cost(Comments))
  {
    var gathered: seq<Reply> := [];
    var spent: nat := 0;
    var after := l;
    var fetched: nat := 0;
    assert Cost(Comments) == 1;
    while true
      invariant Accounts(l, today, after, spent) && spent == fetched
      invariant Following(pages, maxSub, fetched) && gathered == Replies(pages, fetched)
      decreases |pages| - fetched
    {
      var call := Call(after, today, Comments, Nth(pages, fetched));
      AccountsChain(l, today, after, spent, call.ledger, if call.value.Some? then Cost(Comments) else 0);
      if call.value.None? {
        SettledCut(pages, maxSub, fetched);
        r := Fetched(Outcome([], fetched, false), spent, call.ledger);
        return;
      }
      var page := call.value.value;
      assert pages[fetched] == Answered(page);
      if !HasNext(page.nextPageToken) || |gathered + page.items| >= maxSub {
        SettledStop(pages, maxSub, fetched, page);
        r := Fetched(Outcome(gathered + page.items, fetched + 1, true), spent + Cost(Comments), call.ledger);
        return;
      }
      FollowedStep(pages, maxSub, fetched, page);
      gathered, fetched, spent, after := gathered + page.items, fetched + 1, spent + Cost(Comments), call.ledger;
    }
  }

  /** The replies of one more answered page follow those of the pages before it. */
  lemma RepliesStep(pages: seq<Response<ReplyPage>>, n: nat, page: ReplyPage)
    requires n < |pages| && pages[n] == Answered(page)
    ensures Replies(pages, n + 1) == Replies(pages, n) + page.items
  {
  }

  /** The first `n` pages were answered, and each was followed: it had a next token
      and left fewer than `maxSub` replies. */
  predicate Following(pages: seq<Response<ReplyPage>>, maxSub: int, n: nat) {
    && n <= |pages|
    && (forall j :: 0 <= j < n ==> pages[j].Answered?)
    && (forall e :: 0 < e <= n ==> |Replies(pages, e)| < maxSub)
    && (forall j :: 0 <= j < n ==> HasNext(pages[j].body.nextPageToken))
  }

  /** Following the token of one more page, still below `maxSub`, keeps the loop state. */
  lemma FollowedStep(pages: seq<Response<ReplyPage>>, maxSub: int, n: nat, page: ReplyPage)
    requires Following(pages, maxSub, n) && n < |pages| && pages[n] == Answered(page)
    requires HasNext(page.nextPageToken) && |Replies(pages, n) + page.items| < maxSub
    ensures Replies(pages, n + 1) == Replies(pages, n) + page.items
    ensures Following(pages, maxSub, n + 1)
  {
    RepliesStep(pages, n, page);
  }

  /** A run cut short after `fetched` followed pages is settled. */
  lemma SettledCut(pages: seq<Response<ReplyPage>>, maxSub: int, fetched: nat)
    requires Following(pages, maxSub, fetched)
    ensures Settled(pages, maxSub, Outcome([], fetched, false))
  {
  }

  /** A run that stopped on its own at page `n` is settled. */
  lemma SettledStop(pages: seq<Response<ReplyPage>>, maxSub: int, n: nat, page: ReplyPage)
    requires Following(pages, maxSub, n) && n < |pages| && pages[n] == Answered(page)
    requires !HasNext(page.nextPageToken) || |Replies(pages, n) + page.items| >= maxSub
    ensures Settled(pages, maxSub, Outcome(Replies(pages, n) + page.items, n + 1, true))
  {
    RepliesStep(pages, n, page);
  }

  // ---------------------------------------------------------------------------
  // process_comment and the page loop of fetch_comments

  /** An item that `process_comment` turns into a comment. */
  predicate Readable(item: ThreadItem) {
    item.Thread? && item.top.Some?
  }

  /** The record `process_comment` builds: the thread's top-level fields with the
      replies fetched for it. */
  function WithReplies(t: TopComment, replies: seq<Reply>): Comment {
    Comment(t.author, t.text, t.publishedAt, t.likes, replies)
  }

  /** The comment an item yields, given what fetching its replies produced; an
      unreadable item yields none. */
  function Yield(item: ThreadItem, o: Outcome): seq<Comment> {
    if Readable(item) then [WithReplies(item.top.value, o.replies)] else []
  }

  /** `o` is what `process_comment` can have produced for `item`: nothing fetched for
      an item without id or snippet, a run of `fetch_subcomments` over the thread's
      reply pages otherwise. */
  predicate Processed(item: ThreadItem, o: Outcome) {
    if item.Thread? then Settled(item.replyPages, MaxSubcomments, o) else o == Untouched
  }

  /** `process_comment(item)`: reads the thread's id and top-level snippet, fetches its
      replies (charging quota), then builds the comment record with those replies. An
      item with missing fields yields no comment; one whose id or snippet is missing
      fails before any call is made. */
  method ProcessComment<K>(l: Ledger<K>, today: Date, item: ThreadItem) returns (r: Fetched<K, Option<Comment>>, o: Outcome)
    requires Valid(l)
    ensures Accounts(l, today, r.ledger, r.spent) && r.spent == o.fetched * Cost(Comments)
    ensures Processed(item, o)
    ensures item.Thread? && !o.completed ==> Nth(item.replyPages, o.fetched).Failed? || Exhausted(r.ledger, today, Cost(Comments))
    ensures item.Unreadable? ==> r.ledger == l
    ensures r.value.Some? <==> Readable(item)
    ensures r.value.Some? ==> r.value.value == WithReplies(item.top.value, o.replies)
  {
    match item
    case Unreadable =>
      r, o := Fetched(None, 0, l), Untouched;
    case Thread(top, pages) =>
      var subs := FetchSubcomments(l, today, pages, MaxSubcomments);
      o := subs.value;
      if top.None? {
        r := Fetched(None, subs.spent, subs.ledger);
      } else {
        r := Fetched(Some(WithReplies(top.value, o.replies)), subs.spent, subs.ledger);
      }
  }

  /** The comments a page's items yield, item after item. */
  function Kept(items: seq<ThreadItem>, outcomes: seq<Outcome>): seq<Comment>
    requires |outcomes| == |items|
  {
    if |items| == 0 then []
    else Kept(items[..|items| - 1], outcomes[..|items| - 1]) + Yield(items[|items| - 1], outcomes[|items| - 1])
  }

  /** Reply pages fetched across a sequence of outcomes. */
  function ReplyPages(outcomes: seq<Outcome>): nat {
    if |outcomes| == 0 then 0 else ReplyPages(outcomes[..|outcomes| - 1]) + outcomes[|outcomes| - 1].fetched
  }

  /** Every item's outcome is one `process_comment` can have produced for it. */
  predicate AllProcessed(items: seq<ThreadItem>, outcomes: seq<Outcome>) {
    |outcomes| == |items| && forall i :: 0 <= i < |items| ==> Processed(items[i], outcomes[i])
  }

  /** Every thread whose reply run was cut short met a raised request. */
  predicate RunsFailed(items: seq<ThreadItem>, outcomes: seq<Outcome>) {
    forall i :: 0 <= i < |items| && i < |outcomes| && items[i].Thread? && !outcomes[i].completed ==>
      Nth(items[i].replyPages, outcomes[i].fetched).Failed?
  }

  /** A reply run cut short either met a raised request or left a ledger with no key
      for a reply page; the latter stays so while usage only grows. */
  lemma RunsFailedStep<K>(today: Date, items: seq<ThreadItem>, k: nat, outcomes: seq<Outcome>, o: Outcome, a: Ledger<K>, b: Ledger<K>)
    requires k < |items| && |outcomes| == k && Valid(a) && Valid(b) && Grows(a, today, b)
    requires RunsFailed(items[..k], outcomes) || Exhausted(a, today, Cost(Comments))
    requires items[k].Thread? && !o.completed ==> Nth(items[k].replyPages, o.fetched).Failed? || Exhausted(b, today, Cost(Comments))
    ensures RunsFailed(items[..k + 1], outcomes + [o]) || Exhausted(b, today, Cost(Comments))
  {
    if Exhausted(a, today, Cost(Comments)) {
      ExhaustedPersists(a, today, b, Cost(Comments));
    } else if !Exhausted(b, today, Cost(Comments)) {
      forall i | 0 <= i < k + 1 && items[..k + 1][i].Thread? && !(outcomes + [o])[i].completed
        ensures Nth(items[..k + 1][i].replyPages, (outcomes + [o])[i].fetched).Failed?
      {
        if i < k {
          assert items[..k + 1][i] == items[..k][i] && (outcomes + [o])[i] == outcomes[i];
        }
      }
    }
  }

  lemma KeptStep(items: seq<ThreadItem>, k: nat, outcomes: seq<Outcome>, o: Outcome)
    requires k < |items| && |outcomes| == k
    ensures Kept(items[..k + 1], outcomes + [o]) == Kept(items[..k], outcomes) + Yield(items[k], o)
  {
    assert items[..k + 1][..k] == items[..k];
    assert (outcomes + [o])[..k] == outcomes;
  }

  lemma AllProcessedStep(items: seq<ThreadItem>, k: nat, outcomes: seq<Outcome>, o: Outcome)
    requires k < |items| && AllProcessed(items[..k], outcomes) && Processed(items[k], o)
    ensures AllProcessed(items[..k + 1], outcomes + [o])
  {
  }

  lemma ReplyPagesStep(outcomes: seq<Outcome>, o: Outcome)
    ensures ReplyPages(outcomes + [o]) == ReplyPages(outcomes) + o.fetched
  {
    assert (outcomes + [o])[..|outcomes|] == outcomes;
  }

  /** One `process_comment` task as its page's loop sees it: the comments it adds to the
      page's list, the reply run behind them, and why that run stopped early. */
  method ProcessItem<K>(l: Ledger<K>, today: Date, item: ThreadItem) returns (r: Fetched<K, seq<Comment>>, o: Outcome)
    requires Valid(l)
    ensures Accounts(l, today, r.ledger, r.spent) && r.spent == o.fetched * Cost(Comments)
    ensures Processed(item, o) && r.value == Yield(item, o)
    ensures item.Thread? && !o.completed ==> Nth(item.replyPages, o.fetched).Failed? || Exhausted(r.ledger, today, Cost(Comments))
  {
    var data;
    data, o := ProcessComment(l, today, item);
    r := Fetched(if data.value.Some? then [data.value.value] else [], data.spent, data.ledger);
  }

  /** What a page's loop keeps after its first `k` items: their outcomes and the
      comments they yield. */
  predicate ItemsKept(items: seq<ThreadItem>, k: nat, outcomes: seq<Outcome>, kept: seq<Comment>) {
    && k <= |items| && |outcomes| == k
    && AllProcessed(items[..k], outcomes)
    && kept == Kept(items[..k], outcomes)
  }

  lemma ItemsKeptStep(items: seq<ThreadItem>, k: nat, outcomes: seq<Outcome>, kept: seq<Comment>, o: Outcome, batch: seq<Comment>)
    requires ItemsKept(items, k, outcomes, kept) && k < |items|
    requires Processed(items[k], o) && batch == Yield(items[k], o)
    ensures ItemsKept(items, k + 1, outcomes + [o], kept + batch)
  {
    KeptStep(items, k, outcomes, o);
    AllProcessedStep(items, k, outcomes, o);
  }

  /** What a page's loop has charged after its first `k` items: one unit per reply
      page, and every reply run cut short met a raised request unless no key is left
      for a reply page. */
  predicate ItemsCharged<K>(l: Ledger<K>, today: Date, items: seq<ThreadItem>, k: nat, outcomes: seq<Outcome>, spent: nat, after: Ledger<K>)
    requires Valid(l) && k <= |items|
  {
    && Accounts(l, today, after, spent) && spent == ReplyPages(outcomes) * Cost(Comments)
    && (RunsFailed(items[..k], outcomes) || Exhausted(after, today, Cost(Comments)))
  }

  lemma ItemsChargedStep<K>(l: Ledger<K>, today: Date, items: seq<ThreadItem>, k: nat, outcomes: seq<Outcome>, spent: nat, after: Ledger<K>,
                            o: Outcome, more: nat, next: Ledger<K>)
    requires Valid(l) && k < |items| && |outcomes| == k && ItemsCharged(l, today, items, k, outcomes, spent, after)
    requires Accounts(after, today, next, more) && more == o.fetched * Cost(Comments)
    requires items[k].Thread? && !o.completed ==> Nth(items[k].replyPages, o.fetched).Failed? || Exhausted(next, today, Cost(Comments))
    ensures ItemsCharged(l, today, items, k + 1, outcomes + [o], spent + more, next)
  {
    AccountsChain(l, today, after, spent, next, more);
    RunsFailedStep(today, items, k, outcomes, o, after, next);
    ReplyPagesStep(outcomes, o);
    assert Cost(Comments) == 1;
  }

  /** The `as_completed` loop over one page's items, taken in the order the page lists
      them (their completion order): process each item and keep the comments built.
      The units spent are one per reply page fetched. */
  method ProcessItems<K>(l: Ledger<K>, today: Date, items: seq<ThreadItem>) returns (r: Fetched<K, seq<Comment>>, outcomes: seq<Outcome>)
    requires Valid(l)
    ensures AllProcessed(items, outcomes)
    ensures r.value == Kept(items, outcomes)
    ensures Accounts(l, today, r.ledger, r.spent) && r.spent == ReplyPages(outcomes) * Cost(Comments)
    ensures RunsFailed(items, outcomes) || Exhausted(r.ledger, today, Cost(Comments))
  {
    var kept: seq<Comment> := [];
    var spent: nat := 0;
    var after := l;
    var k := 0;
    outcomes := [];
    assert Cost(Comments) == 1;
    while k < |items|
      invariant ItemsKept(items, k, outcomes, kept)
      invariant ItemsCharged(l, today, items, k, outcomes, spent, after)
    {
      var data, o := ProcessItem(after, today, items[k]);
      ItemsKeptStep(items, k, outcomes, kept, o, data.value);
      ItemsChargedStep(l, today, items, k, outcomes, spent, after, o, data.spent, data.ledger);
      kept := kept + data.value;
      outcomes := outcomes + [o];
      spent := spent + data.spent;
      after := data.ledger;
      k := k + 1;
    }
    assert items[..k] == items;
    r := Fetched(kept, spent, after);
  }

  /** The comments a fetched page yields with the given outcomes; an unanswered page
      yields none. */
  function PageKept(p: Response<ThreadPage>, outcomes: seq<Outcome>): seq<Comment> {
    if p.Answered? && |outcomes| == |p.body.items| then Kept(p.body.items, outcomes) else []
  }

  /** The comments the first `n` pages yield, in page order. */
  function ThreadKept(pages: seq<Response<ThreadPage>>, outcomes: seq<seq<Outcome>>, n: nat): seq<Comment>
    requires n <= |pages| && n <= |outcomes|
  {
    if n == 0 then [] else ThreadKept(pages, outcomes, n - 1) + PageKept(pages[n - 1], outcomes[n - 1])
  }

  /** Each of the first `n` pages was answered and each item on it has the outcome of
      processing it. */
  predicate PagesProcessed(pages: seq<Response<ThreadPage>>, outcomes: seq<seq<Outcome>>, n: nat)
    requires n <= |pages| && n <= |outcomes|
  {
    n == 0 || (PagesProcessed(pages, outcomes, n - 1) && pages[n - 1].Answered? && AllProcessed(pages[n - 1].body.items, outcomes[n - 1]))
  }

  /** On each of the first `n` pages, every reply run cut short met a raised request. */
  predicate PagesFailed(pages: seq<Response<ThreadPage>>, outcomes: seq<seq<Outcome>>, n: nat)
    requires n <= |pages| && n <= |outcomes|
  {
    n == 0 || (PagesFailed(pages, outcomes, n - 1) && (pages[n - 1].Answered? ==> RunsFailed(pages[n - 1].body.items, outcomes[n - 1])))
  }

  /** Only the first `n` pages' outcomes matter to what they yield. */
  lemma {:induction false} ThreadKeptPrefix(pages: seq<Response<ThreadPage>>, outcomes: seq<seq<Outcome>>, extra: seq<seq<Outcome>>, n: nat)
    requires n <= |pages| && n <= |outcomes|
    ensures ThreadKept(pages, outcomes + extra, n) == ThreadKept(pages, outcomes, n)
    ensures PagesProcessed(pages, outcomes + extra, n) == PagesProcessed(pages, outcomes, n)
    ensures PagesFailed(pages, outcomes + extra, n) == PagesFailed(pages, outcomes, n)
  {
    if n > 0 {
      ThreadKeptPrefix(pages, outcomes, extra, n - 1);
      assert (outcomes + extra)[n - 1] == outcomes[n - 1];
    }
  }

  /** Reply pages fetched across the outcomes of every page. */
  function AllReplyPages(outcomes: seq<seq<Outcome>>): nat {
    if |outcomes| == 0 then 0 else AllReplyPages(outcomes[..|outcomes| - 1]) + ReplyPages(outcomes[|outcomes| - 1])
  }

  /** The state the `fetch_comments` loop keeps between passes: the first `fetched`
      pages were answered, each item on them has the outcome of processing it, the
      comments gathered are exactly what those items yield, and before the last page
      fewer than `limit` comments had been gathered. */
  predicate Gathered(pages: seq<Response<ThreadPage>>, fetched: nat, outcomes: seq<seq<Outcome>>, collected: seq<Comment>, limit: nat) {
    && fetched <= |pages| && |outcomes| == fetched
    && (forall j :: 0 <= j < fetched ==> pages[j].Answered?)
    && PagesProcessed(pages, outcomes, fetched)
    && collected == ThreadKept(pages, outcomes, fetched)
    && (fetched > 0 ==> |ThreadKept(pages, outcomes, fetched - 1)| < limit)
  }

  /** A pass below the limit that fetched the next page and processed its items keeps
      the loop state. */
  lemma GatheredStep(pages: seq<Response<ThreadPage>>, fetched: nat, outcomes: seq<seq<Outcome>>, collected: seq<Comment>, limit: nat,
                     page: ThreadPage, os: seq<Outcome>, batch: seq<Comment>)
    requires Gathered(pages, fetched, outcomes, collected, limit) && |collected| < limit
    requires fetched < |pages| && pages[fetched] == Answered(page)
    requires AllProcessed(page.items, os) && batch == Kept(page.items, os)
    ensures Gathered(pages, fetched + 1, outcomes + [os], collected + batch, limit)
  {
    var outs := outcomes + [os];
    ThreadKeptPrefix(pages, outcomes, [os], fetched);
    assert ThreadKept(pages, outs, fetched + 1) == ThreadKept(pages, outs, fetched) + PageKept(pages[fetched], os);
  }

  /** One pass of the `fetch_comments` loop: select a key, fetch a page of comment
      threads, charge it, and process its items. `page` is the page when the call
      answered, which it does exactly when the request does not raise and a key has
      headroom. */
  method ThreadPass<K>(l: Ledger<K>, today: Date, resp: Response<ThreadPage>)
    returns (r: Fetched<K, seq<Comment>>, page: Option<ThreadPage>, outcomes: seq<Outcome>)
    requires Valid(l)
    ensures Accounts(l, today, r.ledger, r.spent)
    ensures page.Some? <==> resp.Answered? && !Exhausted(l, today, Cost(CommentThreads))
    ensures page.None? ==> r.spent == 0 && (resp.Answered? ==> Exhausted(r.ledger, today, Cost(CommentThreads)))
    ensures page.Some? ==>
      && resp == Answered(page.value)
      && AllProcessed(page.value.items, outcomes) && r.value == Kept(page.value.items, outcomes)
      && r.spent == Cost(CommentThreads) + ReplyPages(outcomes) * Cost(Comments)
      && (RunsFailed(page.value.items, outcomes) || Exhausted(r.ledger, today, Cost(Comments)))
  {
    var call := Call(l, today, CommentThreads, resp);
    if call.value.None? {
      r, page, outcomes := Fetched([], 0, call.ledger), None, [];
      return;
    }
    var batch, os := ProcessItems(call.ledger, today, call.value.value.items);
    AccountsChain(l, today, call.ledger, Cost(CommentThreads), batch.ledger, batch.spent);
    r, page, outcomes := Fetched(batch.value, Cost(CommentThreads) + batch.spent, batch.ledger), call.value, os;
  }

  /** The state of the `fetch_comments` loop: the comments gathered, the pages fetched,
      the outcomes of their items, the units charged and the ledger left, whether the
      last page had a next token, and whether an exception ended the loop. */
  datatype Gathering<K> = Gathering(collected: seq<Comment>, fetched: nat, outcomes: seq<seq<Outcome>>, spent: nat, after: Ledger<K>, more: bool, failed: bool)

  /** The ledger accounts for one charge per thread page and one per reply page. */
  predicate Charged<K>(l: Ledger<K>, today: Date, s: Gathering<K>)
    requires Valid(l)
  {
    && Accounts(l, today, s.after, s.spent)
    && s.spent == s.fetched * Cost(CommentThreads) + AllReplyPages(s.outcomes) * Cost(Comments)
  }

  /** Every fetched page but the last had a next token; the loop goes on only while the
      last one did and nothing failed, and a failure is a raised request or a ledger
      with no key left. */
  predicate Follows<K>(today: Date, pages: seq<Response<ThreadPage>>, s: Gathering<K>)
    requires Valid(s.after) && s.fetched <= |pages| && forall j :: 0 <= j < s.fetched ==> pages[j].Answered?
  {
    && (forall j :: 0 <= j < s.fetched - 1 ==> HasNext(pages[j].body.nextPageToken))
    && (s.more ==> !s.failed && (s.fetched == 0 || HasNext(pages[s.fetched - 1].body.nextPageToken)))
    && (!s.more && !s.failed ==> s.fetched > 0 && !HasNext(pages[s.fetched - 1].body.nextPageToken))
    && (s.failed ==> s.fetched == 0 || HasNext(pages[s.fetched - 1].body.nextPageToken))
    && (s.failed ==> Nth(pages, s.fetched).Failed? || Exhausted(s.after, today, Cost(CommentThreads)))
  }

  /** A failed loop failed below the limit, and every reply run cut short met a raised
      request unless the ledger has no key left for a reply page. */
  predicate Causes<K>(today: Date, pages: seq<Response<ThreadPage>>, limit: nat, s: Gathering<K>)
    requires Valid(s.after) && s.fetched <= |pages| && s.fetched <= |s.outcomes|
  {
    && (s.failed ==> |s.collected| < limit)
    && (PagesFailed(pages, s.outcomes, s.fetched) || Exhausted(s.after, today, Cost(Comments)))
  }

  /** What the loop keeps: the charges, the comments gathered from the fetched pages,
      how the loop follows page tokens, and why it or a reply run stopped early. */
  predicate Keeps<K>(l: Ledger<K>, today: Date, pages: seq<Response<ThreadPage>>, limit: nat, s: Gathering<K>)
    requires Valid(l)
  {
    Charged(l, today, s) && Gathered(pages, s.fetched, s.outcomes, s.collected, limit) && Follows(today, pages, s) && Causes(today, pages, limit, s)
  }

  /** One pass of the loop below the limit: fetch and process the next page, and follow
      its next token. A pass fails only on a raised request or when no key has headroom;
      otherwise it fetches exactly one more page. */
  method GatherPass<K>(l: Ledger<K>, today: Date, pages: seq<Response<ThreadPage>>, limit: nat, s: Gathering<K>) returns (r: Gathering<K>)
    requires Valid(l) && Keeps(l, today, pages, limit, s)
    requires s.more && |s.collected| < limit
    ensures Keeps(l, today, pages, limit, r)
    ensures r.failed <==> Nth(pages, s.fetched).Failed? || Exhausted(s.after, today, Cost(CommentThreads))
    ensures r.failed ==> r.fetched == s.fetched && !r.more
    ensures !r.failed ==> r.fetched == s.fetched + 1
  {
    var pass, page, os := ThreadPass(s.after, today, Nth(pages, s.fetched));
    AccountsChain(l, today, s.after, s.spent, pass.ledger, pass.spent);
    if Exhausted(s.after, today, Cost(Comments)) {
      ExhaustedPersists(s.after, today, pass.ledger, Cost(Comments));
    }
    if page.None? {
      r := s.(spent := s.spent + pass.spent, after := pass.ledger, more := false, failed := true);
      return;
    }
    r := Gathering(s.collected + pass.value, s.fetched + 1, s.outcomes + [os], s.spent + pass.spent, pass.ledger, HasNext(page.value.nextPageToken), false);
    KeepsStep(l, today, pages, limit, s, page.value, os, pass.value, r);
    CausesStep(today, pages, limit, s, page.value, os, r);
  }

  /** A pass that fetched the next page keeps the loop state. */
  lemma KeepsStep<K>(l: Ledger<K>, today: Date, pages: seq<Response<ThreadPage>>, limit: nat, s: Gathering<K>,
                     page: ThreadPage, os: seq<Outcome>, batch: seq<Comment>, r: Gathering<K>)
    requires Valid(l) && Keeps(l, today, pages, limit, s)
    requires s.more && |s.collected| < limit
    requires s.fetched < |pages| && pages[s.fetched] == Answered(page)
    requires AllProcessed(page.items, os) && batch == Kept(page.items, os)
    requires r.collected == s.collected + batch && r.fetched == s.fetched + 1 && r.outcomes == s.outcomes + [os]
    requires r.spent == s.spent + Cost(CommentThreads) + ReplyPages(os) * Cost(Comments) && Accounts(l, today, r.after, r.spent)
    requires r.more == HasNext(page.nextPageToken) && !r.failed
    ensures Charged(l, today, r) && Gathered(pages, r.fetched, r.outcomes, r.collected, limit) && Follows(today, pages, r)
  {
    GatheredStep(pages, s.fetched, s.outcomes, s.collected, limit, page, os, batch);
    ChargedStep(l, today, s, os, r);
    FollowsStep(today, pages, s, page, r);
  }

  /** After one more page, a reply run cut short on it or before it still has its
      cause: a raised request, or a ledger that still has no key for a reply page. */
  lemma CausesStep<K>(today: Date, pages: seq<Response<ThreadPage>>, limit: nat, s: Gathering<K>, page: ThreadPage, os: seq<Outcome>, r: Gathering<K>)
    requires s.fetched < |pages| && pages[s.fetched] == Answered(page) && |s.outcomes| == s.fetched
    requires Valid(s.after) && Valid(r.after) && Grows(s.after, today, r.after)
    requires Causes(today, pages, limit, s)
    requires RunsFailed(page.items, os) || Exhausted(r.after, today, Cost(Comments))
    requires r.fetched == s.fetched + 1 && r.outcomes == s.outcomes + [os] && !r.failed
    ensures Causes(today, pages, limit, r)
  {
    ThreadKeptPrefix(pages, s.outcomes, [os], s.fetched);
    if Exhausted(s.after, today, Cost(Comments)) {
      ExhaustedPersists(s.after, today, r.after, Cost(Comments));
    }
  }

  /** One more thread page and its reply pages are charged. */
  lemma ChargedStep<K>(l: Ledger<K>, today: Date, s: Gathering<K>, os: seq<Outcome>, r: Gathering<K>)
    requires Valid(l) && Charged(l, today, s)
    requires r.fetched == s.fetched + 1 && r.outcomes == s.outcomes + [os]
    requires r.spent == s.spent + Cost(CommentThreads) + ReplyPages(os) * Cost(Comments)
    requires Accounts(l, today, r.after, r.spent)
    ensures Charged(l, today, r)
  {
    AllReplyPagesStep(s.outcomes, os);
    UnitsStep(s.fetched, AllReplyPages(s.outcomes), ReplyPages(os), s.spent, r.spent);
  }

  /** Charging one more thread page and `more` reply pages. */
  lemma UnitsStep(threads: nat, replies: nat, more: nat, spent: nat, spent': nat)
    requires spent == threads * Cost(CommentThreads) + replies * Cost(Comments)
    requires spent' == spent + Cost(CommentThreads) + more * Cost(Comments)
    ensures spent' == (threads + 1) * Cost(CommentThreads) + (replies + more) * Cost(Comments)
  {
    assert Cost(CommentThreads) == 1 && Cost(Comments) == 1;
  }

  /** The next page was fetched because the last one had a next token; the loop goes on
      as far as the new page's token says. */
  lemma FollowsStep<K>(today: Date, pages: seq<Response<ThreadPage>>, s: Gathering<K>, page: ThreadPage, r: Gathering<K>)
    requires s.fetched < |pages| && pages[s.fetched] == Answered(page)
    requires forall j :: 0 <= j < s.fetched ==> pages[j].Answered?
    requires Valid(s.after) && Valid(r.after) && Follows(today, pages, s) && s.more
    requires r.fetched == s.fetched + 1 && r.more == HasNext(page.nextPageToken) && !r.failed
    ensures Follows(today, pages, r)
  {
  }

  lemma AllReplyPagesStep(outcomes: seq<seq<Outcome>>, os: seq<Outcome>)
    ensures AllReplyPages(outcomes + [os]) == AllReplyPages(outcomes) + ReplyPages(os)
  {
    assert (outcomes + [os])[..|outcomes|] == outcomes;
  }

  /** The loop of `fetch_comments`: passes run while fewer than `limit` comments are
      gathered, the last page had a next token and nothing failed. It gathered exactly
      what the items of its pages yield; a loop that did not fail stopped on a page
      without next token or on reaching the limit, and one that failed met a raised
      request or a ledger with no key left. */
  method GatherThreads<K>(l: Ledger<K>, today: Date, pages: seq<Response<ThreadPage>>, limit: nat) returns (r: Gathering<K>)
    requires Valid(l)
    ensures Keeps(l, today, pages, limit, r)
    ensures !r.failed ==> |r.collected| >= limit || (r.fetched > 0 && !HasNext(pages[r.fetched - 1].body.nextPageToken))
  {
    r := Gathering([], 0, [], 0, l, true, false);
    while r.more && |r.collected| < limit
      invariant Keeps(l, today, pages, limit, r)
      decreases r.more, |pages| - r.fetched
    {
      r := GatherPass(l, today, pages, limit, r);
    }
  }

  /** `cm` is the comment a readable thread item yields with replies that some run of
      `fetch_subcomments` over its reply pages can return. */
  ghost predicate FromThread(item: ThreadItem, cm: Comment) {
    Readable(item) && exists o :: Settled(item.replyPages, MaxSubcomments, o) && cm == WithReplies(item.top.value, o.replies)
  }

  /** `cm` is yielded by an item of one of the answered thread pages. */
  ghost predicate FromPages(pages: seq<Response<ThreadPage>>, cm: Comment) {
    exists j, i :: 0 <= j < |pages| && pages[j].Answered? && 0 <= i < |pages[j].body.items| && FromThread(pages[j].body.items[i], cm)
  }

  /** Every comment a page keeps comes from one of its readable items. */
  lemma {:induction false} KeptFrom(items: seq<ThreadItem>, outcomes: seq<Outcome>, cm: Comment)
    requires AllProcessed(items, outcomes) && cm in Kept(items, outcomes)
    ensures exists i :: 0 <= i < |items| && FromThread(items[i], cm)
  {
    var n := |items|;
    if cm in Kept(items[..n - 1], outcomes[..n - 1]) {
      KeptFrom(items[..n - 1], outcomes[..n - 1], cm);
      var i :| 0 <= i < n - 1 && FromThread(items[..n - 1][i], cm);
      assert items[..n - 1][i] == items[i];
    } else {
      assert Processed(items[n - 1], outcomes[n - 1]);
      assert FromThread(items[n - 1], cm);
    }
  }

  /** Every comment the first `n` pages keep comes from an item of one of them. */
  lemma {:induction false} ThreadKeptFrom(pages: seq<Response<ThreadPage>>, outcomes: seq<seq<Outcome>>, n: nat, cm: Comment)
    requires n <= |pages| && n <= |outcomes|
    requires PagesProcessed(pages, outcomes, n)
    requires cm in ThreadKept(pages, outcomes, n)
    ensures FromPages(pages, cm)
  {
    if cm in ThreadKept(pages, outcomes, n - 1) {
      ThreadKeptFrom(pages, outcomes, n - 1, cm);
    } else {
      KeptFrom(pages[n - 1].body.items, outcomes[n - 1], cm);
      var i :| 0 <= i < |pages[n - 1].body.items| && FromThread(pages[n - 1].body.items[i], cm);
      assert 0 <= n - 1 < |pages| && pages[n - 1].Answered? && FromThread(pages[n - 1].body.items[i], cm);
    }
  }

  /** What `fetch_comments` over `pages` returns as `result`, given the loop's gathered
      comments, pages fetched, item outcomes and whether it completed, with `after` the
      ledger it leaves. The loop follows next tokens while fewer than twice
      `maxComments` comments are gathered. A completed loop stopped on a page without
      next token or on reaching that limit, and returns the ranked comments. A loop cut
      short was still running, below the limit with a token to follow, and met a raised
      request or a ledger with no key for a thread page; it returns nothing. Every reply
      run cut short met a raised request, unless no key is left for a reply page. */
  predicate CommentsFetched<K>(today: Date, pages: seq<Response<ThreadPage>>, maxComments: nat, after: Ledger<K>,
                               collected: seq<Comment>, fetched: nat, outcomes: seq<seq<Outcome>>, completed: bool, result: seq<Comment>)
    requires Valid(after)
  {
    && Gathered(pages, fetched, outcomes, collected, 2 * maxComments)
    && (forall j :: 0 <= j < fetched - 1 ==> HasNext(pages[j].body.nextPageToken))
    && (completed ==> |collected| >= 2 * maxComments || (fetched > 0 && !HasNext(pages[fetched - 1].body.nextPageToken)))
    && (!completed ==>
          && |collected| < 2 * maxComments
          && (fetched == 0 || HasNext(pages[fetched - 1].body.nextPageToken))
          && (Nth(pages, fetched).Failed? || Exhausted(after, today, Cost(CommentThreads))))
    && (PagesFailed(pages, outcomes, fetched) || Exhausted(after, today, Cost(Comments)))
    && result == if completed then RankComments(collected, maxComments) else []
  }

  /** `fetch_comments(video_id, max_comments)`. While fewer than twice `maxComments`
      comments are gathered, fetch and process a page of comment threads and follow the
      next token; then filter, rank and truncate. An exception in the loop (a raised
      request, or no key with headroom) yields no comments. `collected`, `fetched`,
      `outcomes` and `completed` are those of the loop: each thread page and each reply
      page is charged exactly once. */
  method FetchComments<K>(l: Ledger<K>, today: Date, pages: seq<Response<ThreadPage>>, maxComments: nat)
    returns (r: Fetched<K, seq<Comment>>, collected: seq<Comment>, fetched: nat, outcomes: seq<seq<Outcome>>, completed: bool)
    requires Valid(l)
    ensures Accounts(l, today, r.ledger, r.spent)
    ensures r.spent == fetched * Cost(CommentThreads) + AllReplyPages(outcomes) * Cost(Comments)
    ensures CommentsFetched(today, pages, maxComments, r.ledger, collected, fetched, outcomes, completed, r.value)
    ensures |r.value| <= maxComments
    ensures forall c :: c in r.value ==> c in collected && Substantial(c) && FromPages(pages, c)
    ensures forall a, b :: 0 <= a < b < |r.value| ==> r.value[a].likes >= r.value[b].likes
  {
    var g := GatherThreads(l, today, pages, 2 * maxComments);
    collected, fetched, outcomes, completed := g.collected, g.fetched, g.outcomes, !g.failed;
    r := Fetched(if completed then RankComments(collected, maxComments) else [], g.spent, g.after);
    forall c | c in r.value
      ensures FromPages(pages, c)
    {
      ThreadKeptFrom(pages, outcomes, fetched, c);
    }
  }

  // ---------------------------------------------------------------------------
  // filter, rank and truncate

  /** `len(c["comment"].split()) > 5`. */
  predicate Substantial(c: Comment) {
    Text.FieldCount(c.text) > 5
  }

  function Likes(c: Comment): int {
    c.likes
  }

  /** Lines 224-226 of `fetch_comments`: drop comments of five words or fewer, sort the
      rest by likes (largest first, stable), keep the first `maxComments`. */
  function RankComments(collected: seq<Comment>, maxComments: nat): (r: seq<Comment>)
    ensures |r| <= maxComments
    ensures |r| == if maxComments <= |Filter(collected, Substantial)| then maxComments else |Filter(collected, Substantial)|
    ensures forall c :: c in r ==> c in collected && Substantial(c)
    ensures forall a, b :: 0 <= a < b < |r| ==> r[a].likes >= r[b].likes
  {
    var kept := Filter(collected, Substantial);
    var sorted := Ranking.SortByKeyDesc(kept, Likes);
    assert forall c :: c in sorted ==> c in multiset(kept);
    Take(sorted, maxComments)
  }

  /** Ranking is stable: comments with equal likes keep the order they had among the
      substantial comments collected. */
  lemma RankCommentsStable(collected: seq<Comment>, maxComments: nat)
    ensures var kept := Filter(collected, Substantial);
      var o := Ranking.Order(kept, Likes);
      var r := RankComments(collected, maxComments);
      forall a, b :: 0 <= a < b < |r| ==> o[a] < |kept| && r[a] == kept[o[a]] && o[b] < |kept| && (r[a].likes == r[b].likes ==> o[a] < o[b])
  {
    var kept := Filter(collected, Substantial);
    Ranking.SortIsStable(kept, Likes);
  }

  /** Truncation keeps the most-liked: a substantial collected comment that is not
      returned has no more likes than the last comment returned. */
  lemma RankCommentsTop(collected: seq<Comment>, maxComments: nat, c: Comment)
    requires 0 < maxComments && c in collected && Substantial(c) && c !in RankComments(collected, maxComments)
    ensures |RankComments(collected, maxComments)| == maxComments
    ensures c.likes <= RankComments(collected, maxComments)[maxComments - 1].likes
  {
    var kept := Filter(collected, Substantial);
    Ranking.TopKeys(kept, Likes, maxComments, c);
  }

  // ---------------------------------------------------------------------------
  // fetch_channel_details and fetch_video_data

  /** The fields read from a `channels().list` item. */
  datatype ChannelItem = ChannelItem(publishedAt: string, subscriberCount: Option<string>)

  datatype ChannelDetails = ChannelDetails(creationDate: string, subscribers: string)

  /** The value used when the channel cannot be read. */
  const UnknownChannel := ChannelDetails("Unknown", "0")

  /** `fetch_channel_details`: one metered call, charged when answered. It reads the
      channel's creation date and subscriber count (`"0"` when hidden) exactly when the
      request answers with an item and a key has headroom; otherwise it falls back to
      `UnknownChannel`. */
  method FetchChannelDetails<K>(l: Ledger<K>, today: Date, resp: Response<Option<ChannelItem>>) returns (r: Fetched<K, ChannelDetails>)
    requires Valid(l)
    ensures Accounts(l, today, r.ledger, r.spent)
    ensures r.spent == if resp.Answered? && !Exhausted(l, today, Cost(Channels)) then Cost(Channels) else 0
    ensures resp.Failed? || Exhausted(l, today, Cost(Channels)) || resp.body.None? ==> r.value == UnknownChannel
    ensures resp.Answered? && !Exhausted(l, today, Cost(Channels)) && resp.body.Some? ==>
      r.value == ChannelDetails(resp.body.value.publishedAt, resp.body.value.subscriberCount.GetOr("0"))
  {
    var call := Call(l, today, Channels, resp);
    var spent := if call.value.Some? then Cost(Channels) else 0;
    if call.value.None? || call.value.value.None? {
      r := Fetched(UnknownChannel, spent, call.ledger);
    } else {
      var item := call.value.value.value;
      r := Fetched(ChannelDetails(item.publishedAt, item.subscriberCount.GetOr("0")), spent, call.ledger);
    }
  }

  /** The fields read from a `videos().list` item. */
  datatype VideoItem = VideoItem(title: string, publishedAt: string, channelTitle: string, viewCount: Option<string>, likeCount: Option<string>)

  /** Everything the outside world answers about one search result, in call order:
      its transcript (`get_transcript`, already translated, or `NoTranscript`), the
      video look-up (`None` for an empty item list), the channel look-up, and the
      comment-thread pages. */
  datatype Candidate = Candidate(
    id: string,
    transcript: string,
    lookup: Response<Option<VideoItem>>,
    channel: Response<Option<ChannelItem>>,
    threadPages: seq<Response<ThreadPage>>)

  /** The record `fetch_video_data` returns. */
  datatype Video = Video(
    title: string, url: string, views: string, likes: string, publishedAt: string,
    channelTitle: string, channelCreationDate: string, subscribers: string,
    transcript: string, comments: seq<Comment>)

  /** The loop state of one `fetch_comments` run: the comments it collected, the
      thread pages it fetched, the reply-run outcomes of each page's items, and
      whether the loop completed. */
  datatype CommentRun = CommentRun(collected: seq<Comment>, fetched: nat, outcomes: seq<seq<Outcome>>, completed: bool)

  /** The units a `fetch_comments` run charges: one per thread page and one per reply page. */
  function RunSpent(run: CommentRun): nat {
    run.fetched * Cost(CommentThreads) + AllReplyPages(run.outcomes) * Cost(Comments)
  }

  /** The channel call of `fetch_video_data` is answered: it does not raise and a key
      has headroom for it on the ledger the video look-up left. */
  predicate ChannelAnswered<K>(l: Ledger<K>, today: Date, c: Candidate)
    requires Valid(l)
  {
    c.channel.Answered? && !Exhausted(Request(l, today, Videos, c.lookup).ledger, today, Cost(Channels))
  }

  /** The units `fetch_video_data` for `c`, started on `l`, charges: nothing without a
      transcript or when the look-up gets no answer; the look-up alone when it answers
      without an item; otherwise the look-up, the channel call when it is answered, and
      the pages of the comment run `run`. */
  function VideoSpent<K>(l: Ledger<K>, today: Date, c: Candidate, run: CommentRun): nat
    requires Valid(l)
  {
    if c.transcript == NoTranscript || c.lookup.Failed? || Exhausted(l, today, Cost(Videos)) then 0
    else if c.lookup.body.None? then Cost(Videos)
    else Cost(Videos) + (if ChannelAnswered(l, today, c) then Cost(Channels) else 0) + RunSpent(run)
  }

  /** `v` is the record `fetch_video_data` builds for `c` from its look-up item: the
      item's fields, the watch URL and transcript of `c`, the channel item's values
      when the channel call was answered (`channelRead`) with an item and the
      `Unknown` fallback otherwise, and at most 15 substantial comments from the
      thread pages, with likes non-increasing. */
  ghost predicate Describes(c: Candidate, item: VideoItem, channelRead: bool, v: Video) {
    && v.transcript == c.transcript
    && v.url == WatchPrefix + c.id
    && v.title == item.title
    && v.views == item.viewCount.GetOr("0")
    && v.likes == item.likeCount.GetOr("0")
    && v.publishedAt == item.publishedAt
    && v.channelTitle == item.channelTitle
    && ChannelDetails(v.channelCreationDate, v.subscribers) ==
         (if channelRead && c.channel.Answered? && c.channel.body.Some?
          then ChannelDetails(c.channel.body.value.publishedAt, c.channel.body.value.subscriberCount.GetOr("0"))
          else UnknownChannel)
    && |v.comments| <= CommentsPerVideo
    && (forall cm :: cm in v.comments ==> Substantial(cm) && FromPages(c.threadPages, cm))
    && (forall a, b :: 0 <= a < b < |v.comments| ==> v.comments[a].likes >= v.comments[b].likes)
  }

  /** The part of `fetch_video_data` after a look-up answered with `item`, started on
      the ledger `l` the look-up left: the channel call (with its fallback), then
      `fetch_comments`, whose run is `run`. */
  method VideoDetails<K>(l: Ledger<K>, today: Date, c: Candidate, item: VideoItem) returns (r: Fetched<K, Video>, run: CommentRun)
    requires Valid(l)
    ensures Accounts(l, today, r.ledger, r.spent)
    ensures r.spent == (if c.channel.Answered? && !Exhausted(l, today, Cost(Channels)) then Cost(Channels) else 0) + RunSpent(run)
    ensures Describes(c, item, c.channel.Answered? && !Exhausted(l, today, Cost(Channels)), r.value)
    ensures CommentsFetched(today, c.threadPages, CommentsPerVideo, r.ledger, run.collected, run.fetched, run.outcomes, run.completed, r.value.comments)
  {
    var channel := FetchChannelDetails(l, today, c.channel);
    var comments, collected, fetched, outcomes, completed := FetchComments(channel.ledger, today, c.threadPages, CommentsPerVideo);
    run := CommentRun(collected, fetched, outcomes, completed);
    AccountsChain(l, today, channel.ledger, channel.spent, comments.ledger, comments.spent);
    var video := Video(
      item.title, WatchPrefix + c.id, item.viewCount.GetOr("0"), item.likeCount.GetOr("0"),
      item.publishedAt, item.channelTitle, channel.value.creationDate, channel.value.subscribers,
      c.transcript, comments.value);
    r := Fetched(video, channel.spent + comments.spent, comments.ledger);
  }

  /** `fetch_video_data(video_id)`. The transcript is checked first, at no quota cost:
      without one the video is skipped before any key is selected, so the ledger is
      returned untouched. Otherwise the video look-up is charged when answered, and a
      raised, unanswered or empty look-up skips the video; the channel (with its
      fallback) and the ranked comments follow. The comments of a video kept are what
      the `fetch_comments` run `run` returns. */
  method FetchVideoData<K>(l: Ledger<K>, today: Date, c: Candidate) returns (r: Fetched<K, Option<Video>>, run: CommentRun)
    requires Valid(l)
    ensures Accounts(l, today, r.ledger, r.spent) && r.spent == VideoSpent(l, today, c, run)
    ensures c.transcript == NoTranscript ==> r.ledger == l
    ensures r.value.Some? <==>
      c.transcript != NoTranscript && c.lookup.Answered? && c.lookup.body.Some? && !Exhausted(l, today, Cost(Videos))
    ensures r.value.Some? ==> Describes(c, c.lookup.body.value, ChannelAnswered(l, today, c), r.value.value)
    ensures r.value.Some? ==>
      CommentsFetched(today, c.threadPages, CommentsPerVideo, r.ledger, run.collected, run.fetched, run.outcomes, run.completed, r.value.value.comments)
  {
    run := CommentRun([], 0, [], false);
    if c.transcript == NoTranscript {
      r := Fetched(None, 0, l);
      return;
    }
    var call := Request(l, today, Videos, c.lookup);
    RequestAnswers(l, today, Videos, c.lookup);
    if call.value.None? {
      r := Fetched(None, 0, call.ledger);
      return;
    }
    if call.value.value.None? {
      r := Fetched(None, Cost(Videos), call.ledger);
      return;
    }
    var details;
    details, run := VideoDetails(call.ledger, today, c, call.value.value.value);
    AccountsChain(l, today, call.ledger, Cost(Videos), details.ledger, details.spent);
    r := Fetched(Some(details.value), Cost(Videos) + details.spent, details.ledger);
  }

  // ---------------------------------------------------------------------------
  // fetch_youtube_videos

  /** A result the collection loop keeps (`if video_data and transcript != ...`). */
  predicate Complete(v: Option<Video>) {
    v.Some? && v.value.transcript != NoTranscript
  }

  /** The complete results, in completion order. */
  function Qualifying(results: seq<Option<Video>>): (r: seq<Video>)
    ensures forall v :: v in r ==> v.transcript != NoTranscript && Some(v) in results
  {
    if |results| == 0 then []
    else
      assert forall x :: x in results[1..] ==> x in results;
      (if Complete(results[0]) then [results[0].value] else []) + Qualifying(results[1..])
  }

  lemma QualifyingAppend(results: seq<Option<Video>>, x: Option<Video>)
    ensures Qualifying(results + [x]) == Qualifying(results) + (if Complete(x) then [x.value] else [])
  {
    if |results| > 0 {
      assert (results + [x])[1..] == results[1..] + [x];
      QualifyingAppend(results[1..], x);
    } else {
      assert ([] + [x])[1..] == [];
    }
  }

  /** The collection loop over results in completion order (lines 97-103): keep
      complete results and stop once `maxLimit` have been kept. The count is checked
      after appending, so a `maxLimit` of zero or less still keeps the first one. */
  method CollectVideos(results: seq<Option<Video>>, maxLimit: int) returns (videos: seq<Video>)
    ensures videos == Take(Qualifying(results), if maxLimit >= 1 then maxLimit else 1)
    ensures forall v :: v in videos ==> v.transcript != NoTranscript
  {
    var cap: nat := if maxLimit >= 1 then maxLimit else 1;
    videos := [];
    var completeVideos := 0;
    var i := 0;
    while i < |results|
      invariant 0 <= i <= |results|
      invariant completeVideos == |videos| < cap
      invariant videos == Qualifying(results[..i])
    {
      var data := results[i];
      QualifyingAppend(results[..i], data);
      assert results[..i + 1] == results[..i] + [data];
      if data.Some? && data.value.transcript != NoTranscript {
        videos := videos + [data.value];
        completeVideos := completeVideos + 1;
        if completeVideos >= maxLimit {
          TakePrefixOfQualifying(results, i + 1, cap);
          return;
        }
      }
      i := i + 1;
    }
    assert results[..i] == results;
  }

  /** Once the first `n` results already hold `cap` complete ones, the rest of the
      results do not change the first `cap` complete ones. */
  lemma TakePrefixOfQualifying(results: seq<Option<Video>>, n: nat, cap: nat)
    requires n <= |results| && |Qualifying(results[..n])| == cap
    ensures Take(Qualifying(results), cap) == Qualifying(results[..n])
  {
    QualifyingConcat(results[..n], results[n..]);
    assert results[..n] + results[n..] == results;
  }

  lemma {:induction false} QualifyingConcat(a: seq<Option<Video>>, b: seq<Option<Video>>)
    ensures Qualifying(a + b) == Qualifying(a) + Qualifying(b)
  {
    if |a| > 0 {
      assert (a + b)[1..] == a[1..] + b;
      QualifyingConcat(a[1..], b);
    } else {
      assert a + b == b;
    }
  }

  /** What the `fetch_video_data` task for `c`, started on ledger `start`, did: it
      left `r.ledger` having charged exactly the units of its calls, with `run` as its
      comment run. It returned a video exactly when there is a transcript, the look-up
      answers with an item and a key has headroom for it on `start`; that video carries
      the watch URL of `c`, its transcript, and the comments `run` returns. */
  predicate Enriched<K>(c: Candidate, start: Ledger<K>, today: Date, r: Fetched<K, Option<Video>>, run: CommentRun)
    requires Valid(start)
  {
    && Accounts(start, today, r.ledger, r.spent)
    && r.spent == VideoSpent(start, today, c, run)
    && (r.value.Some? <==> c.transcript != NoTranscript && c.lookup.Answered? && c.lookup.body.Some? && !Exhausted(start, today, Cost(Videos)))
    && (r.value.Some? ==>
          && r.value.value.url == WatchPrefix + c.id && r.value.value.transcript == c.transcript
          && CommentsFetched(today, c.threadPages, CommentsPerVideo, r.ledger, run.collected, run.fetched, run.outcomes, run.completed, r.value.value.comments))
  }

  /** One worker task of the pool: `fetch_video_data` for one search result. */
  method EnrichTask<K>(l: Ledger<K>, today: Date, c: Candidate) returns (r: Fetched<K, Option<Video>>, run: CommentRun)
    requires Valid(l)
    ensures Enriched(c, l, today, r, run)
  {
    r, run := FetchVideoData(l, today, c);
  }

  /** The units charged by a sequence of tasks. */
  function Total(spents: seq<nat>): nat {
    if |spents| == 0 then 0 else Total(spents[..|spents| - 1]) + spents[|spents| - 1]
  }

  /** `as_completed` yields every submitted task exactly once: `order` lists each of
      the positions `0..n-1` once. */
  predicate IsCompletionOrder(order: seq<nat>, n: nat) {
    |order| == n && Distinct(order) && forall k :: 0 <= k < |order| ==> order[k] < n
  }

  /** The first `n` tasks, in completion order, have run: task `k` enriched
      `cands[order[k]]` starting from `ledgers[k]` and left `ledgers[k + 1]`, charging
      `spents[k]` units and returning `results[k]` with comment run `runs[k]`. */
  predicate Enrichments<K>(today: Date, cands: seq<Candidate>, order: seq<nat>, n: nat,
                           ledgers: seq<Ledger<K>>, results: seq<Option<Video>>, spents: seq<nat>, runs: seq<CommentRun>)
  {
    && n <= |order| && |results| == n && |spents| == n && |runs| == n && |ledgers| == n + 1
    && (forall k :: 0 <= k < |ledgers| ==> Valid(ledgers[k]))
    && (forall k :: 0 <= k < n ==>
          order[k] < |cands| && Enriched(cands[order[k]], ledgers[k], today, Fetched(results[k], spents[k], ledgers[k + 1]), runs[k]))
  }

  lemma EnrichmentsStep<K>(today: Date, cands: seq<Candidate>, order: seq<nat>, n: nat,
                           ledgers: seq<Ledger<K>>, results: seq<Option<Video>>, spents: seq<nat>, runs: seq<CommentRun>,
                           r: Fetched<K, Option<Video>>, run: CommentRun)
    requires Enrichments(today, cands, order, n, ledgers, results, spents, runs)
    requires n < |order| && order[n] < |cands| && Enriched(cands[order[n]], ledgers[n], today, r, run)
    ensures Enrichments(today, cands, order, n + 1, ledgers + [r.ledger], results + [r.value], spents + [r.spent], runs + [run])
  {
    var ledgers', results', spents', runs' := ledgers + [r.ledger], results + [r.value], spents + [r.spent], runs + [run];
    assert Valid(r.ledger);
    forall k | 0 <= k < n + 1
      ensures Enriched(cands[order[k]], ledgers'[k], today, Fetched(results'[k], spents'[k], ledgers'[k + 1]), runs'[k])
    {
      if k < n {
        assert Fetched(results'[k], spents'[k], ledgers'[k + 1]) == Fetched(results[k], spents[k], ledgers[k + 1]);
      } else {
        assert Fetched(results'[k], spents'[k], ledgers'[k + 1]) == r;
      }
    }
  }

  /** The worker pool of `fetch_youtube_videos`: every candidate is enriched, in
      completion order `order`, each task starting from the ledger the one before left. */
  method EnrichAll<K>(l: Ledger<K>, today: Date, cands: seq<Candidate>, order: seq<nat>)
    returns (results: seq<Option<Video>>, ledgers: seq<Ledger<K>>, spents: seq<nat>, runs: seq<CommentRun>, spent: nat, after: Ledger<K>)
    requires Valid(l) && IsCompletionOrder(order, |cands|)
    ensures Enrichments(today, cands, order, |order|, ledgers, results, spents, runs)
    ensures ledgers[0] == l && ledgers[|results|] == after
    ensures Accounts(l, today, after, spent) && spent == Total(spents)
  {
    results, ledgers, spents, runs := [], [l], [], [];
    spent, after := 0, l;
    var i := 0;
    while i < |order|
      invariant i <= |order|
      invariant Enrichments(today, cands, order, i, ledgers, results, spents, runs)
      invariant ledgers[0] == l && ledgers[i] == after
      invariant Accounts(l, today, after, spent) && spent == Total(spents)
    {
      var data, run := EnrichTask(after, today, cands[order[i]]);
      EnrichmentsStep(today, cands, order, i, ledgers, results, spents, runs, data, run);
      AccountsChain(l, today, after, spent, data.ledger, data.spent);
      assert (spents + [data.spent])[..i] == spents;
      results, spents, runs := results + [data.value], spents + [data.spent], runs + [run];
      ledgers := ledgers + [data.ledger];
      after, spent := data.ledger, spent + data.spent;
      i := i + 1;
    }
  }

  /** `fetch_youtube_videos(query, max_results, max_limit)`. One search call (no key or
      a failed search gives no videos); then every candidate is enriched. Leaving the
      `with ThreadPoolExecutor` block waits for every submitted task, so all candidates
      are processed and charged even after the collection loop has stopped; they are
      processed here in completion order `order`. `results[k]` is what the task for
      candidate `order[k]` returned, starting from the ledger `ledgers[k]` (the ledger
      after the search, then after each task in turn), charging `spents[k]` units and
      running `runs[k]` as its comment run. The loop then keeps the first complete
      results. */
  method FetchYouTubeVideos<K>(l: Ledger<K>, today: Date, search: Response<seq<Candidate>>, order: seq<nat>, maxLimit: int)
    returns (videos: seq<Video>, results: seq<Option<Video>>, ledgers: seq<Ledger<K>>, spents: seq<nat>, runs: seq<CommentRun>, spent: nat, after: Ledger<K>)
    requires Valid(l)
    requires search.Answered? ==> IsCompletionOrder(order, |search.body|)
    ensures Accounts(l, today, after, spent)
    ensures spent == (if search.Answered? && !Exhausted(l, today, Cost(Search)) then Cost(Search) else 0) + Total(spents)
    ensures videos == Take(Qualifying(results), if maxLimit >= 1 then maxLimit else 1)
    ensures search.Failed? || Exhausted(l, today, Cost(Search)) ==> results == [] && videos == []
    ensures |ledgers| == |results| + 1 && ledgers[0] == Request(l, today, Search, search).ledger && ledgers[|results|] == after
    ensures |spents| == |results| && |runs| == |results|
    ensures forall k :: 0 <= k < |ledgers| ==> Valid(ledgers[k])
    ensures search.Answered? && !Exhausted(l, today, Cost(Search)) ==>
      && |results| == |search.body|
      && Enrichments(today, search.body, order, |results|, ledgers, results, spents, runs)
    ensures |videos| <= if maxLimit >= 1 then maxLimit else 1
    ensures forall v :: v in videos ==> search.Answered? && v.transcript != NoTranscript
  {
    var call := Request(l, today, Search, search);
    RequestAnswers(l, today, Search, search);
    if call.value.None? {
      videos, results, ledgers, spents, runs, spent, after := [], [], [call.ledger], [], [], 0, call.ledger;
      return;
    }
    var candidates := call.value.value;
    var enriched;
    results, ledgers, spents, runs, enriched, after := EnrichAll(call.ledger, today, candidates, order);
    AccountsChain(l, today, call.ledger, Cost(Search), after, enriched);
    spent := Cost(Search) + enriched;
    videos := CollectVideos(results, maxLimit);
  }

  /** `v` is the video of hit `j`: it has that hit's watch URL and transcript. */
  predicate FromHit(cands: seq<Candidate>, j: nat, v: Video) {
    j < |cands| && v.url == WatchPrefix + cands[j].id && v.transcript == cands[j].transcript
  }

  /** Every video the collection loop keeps from the tasks' results is the video of
      a search hit: `hits[i]` is the hit whose watch URL and transcript the `i`-th
      video carries. */
  lemma VideosFromHits<K>(today: Date, cands: seq<Candidate>, order: seq<nat>, ledgers: seq<Ledger<K>>,
                          results: seq<Option<Video>>, spents: seq<nat>, runs: seq<CommentRun>, cap: nat)
    returns (hits: seq<nat>)
    requires Enrichments(today, cands, order, |results|, ledgers, results, spents, runs)
    ensures |hits| == |Take(Qualifying(results), cap)|
    ensures forall i :: 0 <= i < |hits| ==> FromHit(cands, hits[i], Take(Qualifying(results), cap)[i])
  {
    var qualifying := Qualifying(results);
    var videos := Take(qualifying, cap);
    hits := [];
    while |hits| < |videos|
      invariant |hits| <= |videos|
      invariant forall i :: 0 <= i < |hits| ==> FromHit(cands, hits[i], videos[i])
    {
      var v := videos[|hits|];
      assert v == qualifying[|hits|];
      assert Some(v) in results;
      var k :| 0 <= k < |results| && results[k] == Some(v);
      assert Enriched(cands[order[k]], ledgers[k], today, Fetched(results[k], spents[k], ledgers[k + 1]), runs[k]);
      assert FromHit(cands, order[k], v);
      hits := hits + [order[k]];
    }
  }

}
