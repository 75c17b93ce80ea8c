/** The YouTube scraper's per-key daily quota ledger (`YouTubeScraper` in app.py):
    the usage table, the lazy day-rollover reset, key selection and charging.

    Keys are opaque values of a type `K`; a calendar day is an integer day number and
    "today" is a parameter of every operation that reads the clock. */
module Quota {
  import opened Wrappers
  import opened Seqs

  /** A calendar day. */
  type Date = int

  /** Units each key may spend per day. */
  const DailyQuota: nat := 10000

  /** The kinds of metered call; `Other` stands for any name missing from the cost table. */
  datatype CallType = Search | Videos | Channels | CommentThreads | Comments | Other(name: string)

  /** `QUOTA_COSTS.get(call_type, 1)`: every call costs at least one unit, and only a
      search costs more. */
  function Cost(t: CallType): (c: nat)
    ensures c >= 1 && (c > 1 <==> t.Search?) && (t.Search? ==> c == 100)
  {
    match t
    case Search => 100
    case Videos => 1
    case Channels => 1
    case CommentThreads => 1
    case Comments => 1
    case Other(_) => 1
  }

  /** One key's row: units used and the day they were counted from. */
  datatype Entry = Entry(usage: nat, lastReset: Date)

  /** The key list in selection order, and the usage table. */
  datatype Ledger<K> = Ledger(keys: seq<K>, book: map<K, Entry>)

  /** Keys are distinct and each has a row. */
  predicate Valid<K>(l: Ledger<K>) {
    Distinct(l.keys) && forall k :: k in l.keys ==> k in l.book
  }

  /** No key has spent more than its daily quota. */
  predicate Bounded<K>(l: Ledger<K>) {
    forall k :: k in l.book ==> l.book[k].usage <= DailyQuota
  }

  /** Every row is counted from `today`. */
  predicate Stamped<K>(l: Ledger<K>, today: Date) {
    forall k :: k in l.book ==> l.book[k].lastReset == today
  }

  /** Units used across all keys. */
  function SumUsage<K>(book: map<K, Entry>, keys: seq<K>): nat
    requires forall k :: k in keys ==> k in book
  {
    if |keys| == 0 then 0 else book[keys[0]].usage + SumUsage(book, keys[1..])
  }

  function Used<K>(l: Ledger<K>): nat
    requires Valid(l)
  {
    SumUsage(l.book, l.keys)
  }

  /** The scraper's constructor: every key starts at zero usage, stamped today. */
  function Init<K>(keys: seq<K>, today: Date): (l: Ledger<K>)
    requires Distinct(keys)
    ensures Valid(l) && Bounded(l) && Stamped(l, today)
    ensures l.keys == keys && l.book.Keys == set k | k in keys
    ensures forall k :: k in keys ==> l.book[k].usage == 0
  {
    Ledger(keys, map k | k in keys :: Entry(0, today))
  }

  /** `reset_quota_if_needed`: every row whose day is not `today` restarts at zero
      usage; rows already counted from `today` are left alone. */
  function Reset<K>(l: Ledger<K>, today: Date): (r: Ledger<K>)
    ensures r.keys == l.keys && r.book.Keys == l.book.Keys
    ensures Valid(l) ==> Valid(r)
    ensures Stamped(r, today)
    ensures forall k :: k in l.book && l.book[k].lastReset != today ==> r.book[k].usage == 0
    ensures forall k :: k in l.book && l.book[k].lastReset == today ==> r.book[k] == l.book[k]
    ensures Bounded(l) ==> Bounded(r)
  {
    Ledger(l.keys, map k | k in l.book :: if l.book[k].lastReset == today then l.book[k] else Entry(0, today))
  }

  /** A ledger already stamped today is not changed by a reset. */
  lemma ResetStamped<K>(l: Ledger<K>, today: Date)
    requires Stamped(l, today)
    ensures Reset(l, today) == l
  {
    assert Reset(l, today).book == l.book;
  }

  /** Resetting twice for the same day is resetting once. */
  lemma ResetIdempotent<K>(l: Ledger<K>, today: Date)
    ensures Reset(Reset(l, today), today) == Reset(l, today)
  {
    ResetStamped(Reset(l, today), today);
  }

  /** `DAILY_QUOTA - usage >= required_units`. */
  predicate HasHeadroom<K>(l: Ledger<K>, k: K, required: int)
    requires k in l.book
  {
    DailyQuota - l.book[k].usage >= required
  }

  /** No key has `required` units of headroom once the day's reset is applied, so
      `get_available_key(required)` raises. */
  predicate Exhausted<K>(l: Ledger<K>, today: Date, required: int)
    requires Valid(l)
  {
    forall k :: k in l.keys ==> !HasHeadroom(Reset(l, today), k, required)
  }

  /** Units key `k` has used today: its usage if counted from today, else none. */
  function UsageOn<K>(l: Ledger<K>, today: Date, k: K): nat
    requires k in l.book
  {
    if l.book[k].lastReset == today then l.book[k].usage else 0
  }

  /** Going from `a` to `b`, no key's usage for `today` went down. */
  predicate Grows<K>(a: Ledger<K>, today: Date, b: Ledger<K>)
    requires Valid(a) && Valid(b)
  {
    a.keys == b.keys && forall k :: k in a.keys ==> UsageOn(a, today, k) <= UsageOn(b, today, k)
  }

  /** Once no key has `required` units left today, none has while usage only grows. */
  lemma ExhaustedPersists<K>(a: Ledger<K>, today: Date, b: Ledger<K>, required: int)
    requires Valid(a) && Valid(b) && Grows(a, today, b) && Exhausted(a, today, required)
    ensures Exhausted(b, today, required)
  {
    forall k | k in b.keys
      ensures !HasHeadroom(Reset(b, today), k, required)
    {
      assert !HasHeadroom(Reset(a, today), k, required);
    }
  }

  /** The position of the first key, at or after `i`, with enough headroom. */
  function FirstFit<K>(l: Ledger<K>, required: int, i: nat): (r: Option<nat>)
    requires Valid(l) && i <= |l.keys|
    ensures r.Some? ==> i <= r.value < |l.keys| && HasHeadroom(l, l.keys[r.value], required)
    ensures r.Some? ==> forall m :: i <= m < r.value ==> !HasHeadroom(l, l.keys[m], required)
    ensures r.None? ==> forall m :: i <= m < |l.keys| ==> !HasHeadroom(l, l.keys[m], required)
    decreases |l.keys| - i
  {
    if i == |l.keys| then None
    else if HasHeadroom(l, l.keys[i], required) then Some(i)
    else FirstFit(l, required, i + 1)
  }

  /** The key chosen (if any) and the ledger left behind. */
  datatype Selection<K> = Selection(key: Option<K>, ledger: Ledger<K>)

  /** `get_available_key(required_units)`: resets the ledger, then picks the first key
      in list order whose remaining quota covers `required`; it fails (the source
      raises) exactly when no key qualifies. The reset is kept either way, and no
      usage is charged. */
  function GetAvailableKey<K>(l: Ledger<K>, today: Date, required: int): (r: Selection<K>)
    requires Valid(l)
    ensures r.ledger == Reset(l, today)
    ensures r.key.Some? ==>
      && r.key.value in l.keys
      && HasHeadroom(r.ledger, r.key.value, required)
      && forall m :: 0 <= m < FirstIndex(l.keys, r.key.value) ==> !HasHeadroom(r.ledger, l.keys[m], required)
    ensures r.key.None? <==> forall k :: k in l.keys ==> !HasHeadroom(r.ledger, k, required)
  {
    var renewed := Reset(l, today);
    var idx := FirstFit(renewed, required, 0);
    if idx.None? then Selection(None, renewed)
    else
      var k := l.keys[idx.value];
      assert FirstIndex(l.keys, k) == idx.value;
      Selection(Some(k), renewed)
  }

  /** `update_quota_usage(key, call_type)`: adds the call's cost to that key's usage;
      every other row, and every date, stays as it was. */
  function Charge<K>(l: Ledger<K>, key: K, t: CallType): (r: Ledger<K>)
    requires key in l.book
    ensures r.keys == l.keys && r.book.Keys == l.book.Keys
    ensures Valid(l) ==> Valid(r)
    ensures r.book[key].usage == l.book[key].usage + Cost(t)
    ensures r.book[key].lastReset == l.book[key].lastReset
    ensures forall k :: k in l.book && k != key ==> r.book[k] == l.book[k]
  {
    var e := l.book[key];
    Ledger(l.keys, l.book[key := Entry(e.usage + Cost(t), e.lastReset)])
  }

  /** Charging a listed key raises the total by exactly the call's cost. */
  lemma ChargeAddsCost<K>(l: Ledger<K>, key: K, t: CallType)
    requires Valid(l) && key in l.keys
    ensures Used(Charge(l, key, t)) == Used(l) + Cost(t)
  {
    SumUpdate(l.book, l.keys, key, Entry(l.book[key].usage + Cost(t), l.book[key].lastReset));
  }

  lemma {:induction false} SumUpdate<K>(book: map<K, Entry>, keys: seq<K>, key: K, e: Entry)
    requires Distinct(keys) && key in book && forall k :: k in keys ==> k in book
    ensures SumUsage(book[key := e], keys) == SumUsage(book, keys) + (if key in keys then e.usage - book[key].usage else 0)
  {
    if |keys| > 0 {
      assert Distinct(keys[1..]) by {
        forall i, j | 0 <= i < j < |keys[1..]|
          ensures keys[1..][i] != keys[1..][j]
        {
          assert keys[i + 1] != keys[j + 1];
        }
      }
      SumUpdate(book, keys[1..], key, e);
      if keys[0] == key {
        assert key !in keys[1..] by {
          forall j | 0 <= j < |keys[1..]|
            ensures keys[1..][j] != key
          {
            assert keys[0] != keys[j + 1];
          }
        }
      } else {
        assert key in keys <==> key in keys[1..];
      }
    }
  }

  /** Selecting a key for `Cost(t)` and then charging `t` to that key keeps every key
      within the daily quota: the selection left at least `Cost(t)` units of headroom. */
  lemma SelectThenChargeKeepsBound<K>(l: Ledger<K>, today: Date, t: CallType)
    requires Valid(l) && Bounded(l)
    ensures var sel := GetAvailableKey(l, today, Cost(t));
      sel.key.Some? ==> Bounded(Charge(sel.ledger, sel.key.value, t))
  {
  }

  /** A value produced together with the ledger left by the calls that produced it. */
  datatype Metered<K, T> = Metered(value: T, ledger: Ledger<K>)

  /** Units counted against today's quota, after the lazy reset. */
  function UsedToday<K>(l: Ledger<K>, today: Date): nat
    requires Valid(l)
  {
    Used(Reset(l, today))
  }

  /** One metered API call as every fetch in app.py makes it: `get_available_key` for
      the call's cost, then the request, then `update_quota_usage` for the call. A
      call that finds no key, or whose request raises, yields nothing and charges
      nothing (the reset stays); an answered call charges its cost to the selected key. */
  function Request<K, T>(l: Ledger<K>, today: Date, t: CallType, resp: Response<T>): (r: Metered<K, Option<T>>)
    requires Valid(l)
    ensures Valid(r.ledger) && r.ledger.keys == l.keys && Stamped(r.ledger, today)
    ensures Bounded(l) ==> Bounded(r.ledger)
    ensures r.value.Some? <==> resp.Answered? && GetAvailableKey(l, today, Cost(t)).key.Some?
    ensures r.value.Some? ==> r.value.value == resp.body
    ensures UsedToday(r.ledger, today) == UsedToday(l, today) + (if r.value.Some? then Cost(t) else 0)
    ensures Grows(l, today, r.ledger)
  {
    var sel := GetAvailableKey(l, today, Cost(t));
    if sel.key.None? || resp.Failed? then
      ResetIdempotent(l, today);
      Metered(None, sel.ledger)
    else
      var charged := Charge(sel.ledger, sel.key.value, t);
      ChargeAddsCost(sel.ledger, sel.key.value, t);
      ResetStamped(charged, today);
      Metered(Some(resp.body), charged)
  }

  /** A metered call as the fetchers make it, in statement form: the result is that of
      `Request`. It answers, with the response's body, exactly when the request does not
      raise and some key has headroom for the call; a call that finds no key leaves the
      reset ledger, on which no key has headroom. Today's usage grows by the call's cost
      exactly when it answers. */
  method Call<K, T>(l: Ledger<K>, today: Date, t: CallType, resp: Response<T>) returns (r: Metered<K, Option<T>>)
    requires Valid(l)
    ensures Valid(r.ledger) && r.ledger.keys == l.keys && Stamped(r.ledger, today)
    ensures Bounded(l) ==> Bounded(r.ledger)
    ensures r.value.Some? <==> resp.Answered? && !Exhausted(l, today, Cost(t))
    ensures r.value.Some? ==> r.value.value == resp.body
    ensures r.value.None? ==> r.ledger == Reset(l, today)
    ensures r.value.None? && resp.Answered? ==> Exhausted(r.ledger, today, Cost(t))
    ensures UsedToday(r.ledger, today) == UsedToday(l, today) + (if r.value.Some? then Cost(t) else 0)
    ensures Grows(l, today, r.ledger)
  {
    r := Request(l, today, t, resp);
    var sel := GetAvailableKey(l, today, Cost(t));
    if r.value.None? {
      ResetIdempotent(l, today);
    }
  }

  /** `Request` answers exactly when the request does not raise and some key has
      headroom for the call after the reset. */
  lemma RequestAnswers<K, T>(l: Ledger<K>, today: Date, t: CallType, resp: Response<T>)
    requires Valid(l)
    ensures Request(l, today, t, resp).value.Some? <==> resp.Answered? && !Exhausted(l, today, Cost(t))
  {
    var sel := GetAvailableKey(l, today, Cost(t));
  }

  /** With one key at 9950 units, a search (100 units) finds no key while a video
      lookup (1 unit) is charged, bringing the key to 9951. */
  lemma NearQuotaScenario<K>(k: K, today: Date)
    ensures var l := Ledger([k], map[k := Entry(9950, today)]);
      && Request(l, today, Search, Answered(0)).value.None?
      && Request(l, today, Search, Answered(0)).ledger == l
      && Request(l, today, Videos, Answered(0)).value == Some(0)
      && Request(l, today, Videos, Answered(0)).ledger.book[k].usage == 9951
  {
    var l := Ledger([k], map[k := Entry(9950, today)]);
    ResetStamped(l, today);
  }
}
