/**
 * The transaction charts (`TransactionCharts`): the transactions of the
 * chosen time range, tallied by currency code, by customer, by month and
 * by fund status, with deposits converted to US dollars at fixed rates;
 * the currency and customer charts keep the ten largest totals, the month
 * chart runs in key order.
 */
module Charts {
  import opened Wrappers
  import opened Text
  import opened Ledger
  import opened Dict
  import opened Sorting
  import ProfitReport

  // ---------------------------------------------------------------- dollars

  /** `currencyBase`: US dollars per unit of each currency label. */
  const CurrencyBase: seq<Entry<real>> := [
    Entry("USD美元", 1.0), Entry("EUR欧元", 1.08), Entry("SGD新元", 0.74), Entry("MYR马币", 0.21),
    Entry("AUD澳币", 0.64), Entry("CHF瑞郎", 1.12), Entry("THB泰铢", 0.028), Entry("VND越南盾", 0.000039),
    Entry("GBP英镑", 1.27), Entry("CAD加元", 0.73), Entry("HKD港币", 0.128), Entry("KRW韩币", 0.00072),
    Entry("CNY人民币", 0.138), Entry("JPY日元", 0.0066), Entry("AED迪拉姆", 0.272),
    Entry("PHP菲律宾比索", 0.0174), Entry("IDR印尼盾", 0.000062)]

  /** `currencyBase[currency] || 1`. */
  function RateOf(currency: string): real {
    match Get(CurrencyBase, currency)
    case Some(r) => if r != 0.0 then r else 1.0
    case None => 1.0
  }

  /** `toUSD`: the amount times the rate of its currency. */
  function ToUsd(amount: real, currency: string): real {
    amount * RateOf(currency)
  }

  /** Every listed rate is positive. */
  lemma RatesPositive()
    ensures forall i :: 0 <= i < |CurrencyBase| ==> CurrencyBase[i].val > 0.0
  {
  }

  /**
   * An amount in an unlisted currency counts as dollars; a listed one is
   * multiplied by a positive rate, so the sign of the amount is kept.
   */
  lemma ToUsdKeepsSign(amount: real, currency: string)
    ensures Get(CurrencyBase, currency).None? ==> ToUsd(amount, currency) == amount
    ensures ToUsd(amount, currency) > 0.0 <==> amount > 0.0
    ensures ToUsd(amount, currency) == 0.0 <==> amount == 0.0
  {
    RatePositive(currency);
    ProductSign(amount, RateOf(currency));
  }

  /** Multiplying by a positive factor keeps the sign. */
  lemma ProductSign(a: real, r: real)
    requires r > 0.0
    ensures a * r > 0.0 <==> a > 0.0
    ensures a * r == 0.0 <==> a == 0.0
  {
    if a < 0.0 {
      assert a * r < 0.0;
    }
  }

  /** The rate of every currency is positive, and 1 for an unlisted one. */
  lemma RatePositive(currency: string)
    ensures RateOf(currency) > 0.0
    ensures Get(CurrencyBase, currency).None? ==> RateOf(currency) == 1.0
  {
    RatesPositive();
    GetHolds(CurrencyBase, currency, (e: Entry<real>) => e.val > 0.0);
  }

  /** The dollar value of a deposit: `toUSD(t.deposit_amount || 0, t.currency || "")`. */
  function UsdOf(t: Txn): real {
    ToUsd(Num(t.deposit_amount), t.currency.GetOr(""))
  }

  // ---------------------------------------------------------------- time range

  /**
   * `cutoff.setDate(now.getDate() - n)`: the instant `n` local calendar days
   * before now at the same wall-clock time. Across a daylight-saving change
   * that is not a whole number of 24-hour days, so the calendar is a parameter.
   */
  type DaysBefore = nat -> int

  /** A calendar in which going further back never gives a later instant than now or than going less far back. */
  ghost predicate GoesBack(nowMs: int, daysBefore: DaysBefore) {
    forall a: nat, b: nat :: 0 < a <= b ==> daysBefore(b) <= daysBefore(a) <= nowMs
  }

  /** How many days `7d`, `30d` and `90d` reach back; any other range cuts off at the present. */
  function RangeDays(range: string): nat {
    if range == "7d" then 7 else if range == "30d" then 30 else if range == "90d" then 90 else 0
  }

  /** `cutoff`: `new Date()`, moved back by `setDate` only for the three day ranges. */
  function Cutoff(range: string, nowMs: int, daysBefore: DaysBefore): int {
    if RangeDays(range) == 0 then nowMs else daysBefore(RangeDays(range))
  }

  /** `new Date(t.deposit_date || t.created_date) >= cutoff`: an Invalid Date compares false. */
  function OnOrAfter(cutoff: int): Txn -> bool {
    t => DepositOrCreated(t).Some? && DepositOrCreated(t).value.ms >= cutoff
  }

  /** `filtered`: everything for `all`, otherwise the transactions dated at or after the cutoff. */
  function Filtered(ts: seq<Txn>, range: string, nowMs: int, daysBefore: DaysBefore): seq<Txn> {
    if range == "all" then ts else Filter(ts, OnOrAfter(Cutoff(range, nowMs, daysBefore)))
  }

  /**
   * Range `all` keeps every transaction; any other keeps, in order, exactly
   * those dated at or after the cutoff: `n` calendar days back for the day
   * ranges, now for any other.
   */
  lemma FilteredKeepsRecent(ts: seq<Txn>, range: string, nowMs: int, daysBefore: DaysBefore)
    ensures range == "all" ==> Filtered(ts, range, nowMs, daysBefore) == ts
    ensures range != "all" ==> Subsequence(Filtered(ts, range, nowMs, daysBefore), ts)
    ensures range != "all" ==> forall t :: t in Filtered(ts, range, nowMs, daysBefore) <==>
      t in ts && DepositOrCreated(t).Some? &&
      DepositOrCreated(t).value.ms >= (if range in {"7d", "30d", "90d"} then daysBefore(RangeDays(range)) else nowMs)
  {
    if range != "all" {
      FilterSubsequence(ts, OnOrAfter(Cutoff(range, nowMs, daysBefore)));
    }
  }

  /** A longer range keeps every transaction a shorter one keeps. */
  lemma LongerRangeKeepsMore(ts: seq<Txn>, shorter: string, longer: string, nowMs: int, daysBefore: DaysBefore, t: Txn)
    requires GoesBack(nowMs, daysBefore)
    requires shorter != "all" && RangeDays(shorter) <= RangeDays(longer)
    requires t in Filtered(ts, shorter, nowMs, daysBefore)
    ensures longer != "all" ==> t in Filtered(ts, longer, nowMs, daysBefore)
  {
  }

  // ---------------------------------------------------------------- tallies

  /** A chart entry: `{ currency | name | month, count, totalUSD }`. */
  datatype Bucket = Bucket(name: string, count: nat, totalUsd: real)

  /** `map[k].count += 1; map[k].totalUSD += usd`. */
  function Counted(usd: real): Bucket -> Bucket {
    (b: Bucket) => Bucket(b.name, b.count + 1, b.totalUsd + usd)
  }

  type Tally = seq<Entry<Bucket>>

  /** One transaction tallied: `if (!map[k]) map[k] = { k, count: 0, totalUSD: 0 }`, then counted; no key, no change. */
  function Tallied(g: Tally, key: Option<string>, usd: real): Tally {
    match key
    case None => g
    case Some(k) => Upsert(g, k, Bucket(k, 0, 0.0), Counted(usd))
  }

  /** The first `n` transactions tallied under their keys. */
  function TallyUpTo(ts: seq<Txn>, keyOf: Txn -> Option<string>, n: nat): Tally
    requires n <= |ts|
  {
    if n == 0 then [] else Tallied(TallyUpTo(ts, keyOf, n - 1), keyOf(ts[n - 1]), UsdOf(ts[n - 1]))
  }

  /** `filtered.forEach(t => { ... map[key] ... })`. */
  method TallyBy(ts: seq<Txn>, keyOf: Txn -> Option<string>) returns (m: Tally)
    ensures m == TallyUpTo(ts, keyOf, |ts|)
  {
    m := [];
    for i := 0 to |ts|
      invariant m == TallyUpTo(ts, keyOf, i)
    {
      var t := ts[i];
      match keyOf(t) {
        case None =>
        case Some(k) =>
          m := Upsert(m, k, Bucket(k, 0, 0.0), Counted(UsdOf(t)));
      }
    }
  }

  /** How many of the first `n` transactions have key `k`. */
  function CountKey(ts: seq<Txn>, keyOf: Txn -> Option<string>, k: string, n: nat): nat
    requires n <= |ts|
  {
    if n == 0 then 0 else CountKey(ts, keyOf, k, n - 1) + (if keyOf(ts[n - 1]) == Some(k) then 1 else 0)
  }

  /** The dollar value of those transactions. */
  function UsdKey(ts: seq<Txn>, keyOf: Txn -> Option<string>, k: string, n: nat): real
    requires n <= |ts|
  {
    if n == 0 then 0.0 else UsdKey(ts, keyOf, k, n - 1) + (if keyOf(ts[n - 1]) == Some(k) then UsdOf(ts[n - 1]) else 0.0)
  }

  /** An entry is filed under its own name. */
  predicate Labelled(e: Entry<Bucket>) {
    e.val.name == e.key
  }

  /** A tally whose keys are distinct and whose entries are filed under their own names. */
  predicate WellKept(g: Tally) {
    DistinctKeys(g) && forall i :: 0 <= i < |g| ==> Labelled(g[i])
  }

  lemma TalliedWellKept(g: Tally, key: Option<string>, usd: real)
    requires WellKept(g)
    ensures WellKept(Tallied(g, key, usd))
  {
    if key.Some? {
      var k := key.value;
      UpsertKeys(g, k, Bucket(k, 0, 0.0), Counted(usd));
      UpsertPreservesEntries(g, k, Bucket(k, 0, 0.0), Counted(usd), Labelled);
    }
  }

  /** The tally's keys are distinct and every entry is filed under its own name. */
  lemma {:induction false} TallyShape(ts: seq<Txn>, keyOf: Txn -> Option<string>, n: nat)
    requires n <= |ts|
    ensures WellKept(TallyUpTo(ts, keyOf, n))
  {
    if n > 0 {
      TallyShape(ts, keyOf, n - 1);
      TalliedWellKept(TallyUpTo(ts, keyOf, n - 1), keyOf(ts[n - 1]), UsdOf(ts[n - 1]));
    }
  }

  /** What a key holds in a tally with `c` transactions worth `u` under it. */
  function Holding(k: string, c: nat, u: real): Option<Bucket> {
    if c > 0 then Some(Bucket(k, c, u)) else None
  }

  /** Tallying one transaction adds it to its own key and to no other. */
  lemma TalliedGet(g: Tally, key: Option<string>, usd: real, k: string, c: nat, u: real)
    requires Get(g, k) == Holding(k, c, u) && (c == 0 ==> u == 0.0)
    ensures Get(Tallied(g, key, usd), k)
         == if key == Some(k) then Holding(k, c + 1, u + usd) else Holding(k, c, u)
  {
    match key
    case None =>
    case Some(kk) =>
      if kk == k {
        GetUpsertSame(g, k, Bucket(k, 0, 0.0), Counted(usd));
      } else {
        GetUpsertOther(g, kk, Bucket(kk, 0, 0.0), Counted(usd), k);
      }
  }

  /** A transaction as the tally sees it: its key and its dollar value. */
  type Item = (Option<string>, real)

  /** The first `n` transactions as items. */
  function ItemsUpTo(ts: seq<Txn>, keyOf: Txn -> Option<string>, n: nat): (items: seq<Item>)
    requires n <= |ts|
    ensures |items| == n
  {
    if n == 0 then [] else ItemsUpTo(ts, keyOf, n - 1) + [(keyOf(ts[n - 1]), UsdOf(ts[n - 1]))]
  }

  /** The items tallied in order. */
  function TallyItems(items: seq<Item>): Tally {
    if |items| == 0 then [] else Tallied(TallyItems(items[..|items| - 1]), items[|items| - 1].0, items[|items| - 1].1)
  }

  /** How many items have key `k`. */
  function CountItems(items: seq<Item>, k: string): nat {
    if |items| == 0 then 0 else CountItems(items[..|items| - 1], k) + (if items[|items| - 1].0 == Some(k) then 1 else 0)
  }

  /** Their dollar value. */
  function UsdItems(items: seq<Item>, k: string): real {
    if |items| == 0 then 0.0
    else UsdItems(items[..|items| - 1], k) + (if items[|items| - 1].0 == Some(k) then items[|items| - 1].1 else 0.0)
  }

  /** The tally, the counts and the dollar values of transactions are those of their items. */
  lemma {:induction false} ItemsAgree(ts: seq<Txn>, keyOf: Txn -> Option<string>, n: nat, k: string)
    requires n <= |ts|
    ensures var items := ItemsUpTo(ts, keyOf, n);
      && TallyUpTo(ts, keyOf, n) == TallyItems(items)
      && CountKey(ts, keyOf, k, n) == CountItems(items, k)
      && UsdKey(ts, keyOf, k, n) == UsdItems(items, k)
  {
    if n > 0 {
      ItemsAgree(ts, keyOf, n - 1, k);
      assert ItemsUpTo(ts, keyOf, n)[..n - 1] == ItemsUpTo(ts, keyOf, n - 1);
    }
  }

  /** No item with the key, no dollars under it. */
  lemma {:induction false} UnkeyedItemsZero(items: seq<Item>, k: string)
    ensures CountItems(items, k) == 0 ==> UsdItems(items, k) == 0.0
  {
    if |items| > 0 {
      UnkeyedItemsZero(items[..|items| - 1], k);
    }
  }

  /** The entry found under a key counts the items with that key and adds up their dollars. */
  lemma {:induction false} ItemsGet(items: seq<Item>, k: string)
    ensures Get(TallyItems(items), k) == Holding(k, CountItems(items, k), UsdItems(items, k))
  {
    if |items| > 0 {
      var prev := items[..|items| - 1];
      ItemsGet(prev, k);
      UnkeyedItemsZero(prev, k);
      TalliedGet(TallyItems(prev), items[|items| - 1].0, items[|items| - 1].1, k, CountItems(prev, k), UsdItems(prev, k));
    }
  }

  /** The entry found under a key counts the transactions with that key and adds up their dollars. */
  lemma TallyGet(ts: seq<Txn>, keyOf: Txn -> Option<string>, n: nat, k: string)
    requires n <= |ts|
    ensures Get(TallyUpTo(ts, keyOf, n), k) == Holding(k, CountKey(ts, keyOf, k, n), UsdKey(ts, keyOf, k, n))
  {
    ItemsAgree(ts, keyOf, n, k);
    ItemsGet(ItemsUpTo(ts, keyOf, n), k);
  }

  /**
   * What the tally holds: one entry per key that occurs, filed under that
   * key, with the number of transactions having that key and their dollar
   * value; no entry for a key that does not occur.
   */
  lemma TallyContents(ts: seq<Txn>, keyOf: Txn -> Option<string>, n: nat)
    requires n <= |ts|
    ensures var g := TallyUpTo(ts, keyOf, n);
      DistinctKeys(g) && (forall i :: 0 <= i < |g| ==> Labelled(g[i]))
      && forall k :: Get(g, k) == if CountKey(ts, keyOf, k, n) > 0
           then Some(Bucket(k, CountKey(ts, keyOf, k, n), UsdKey(ts, keyOf, k, n))) else None
  {
    TallyShape(ts, keyOf, n);
    forall k {
      TallyGet(ts, keyOf, n, k);
    }
  }

  /** How many of the first `n` transactions have a key. */
  function Keyed(ts: seq<Txn>, keyOf: Txn -> Option<string>, n: nat): nat
    requires n <= |ts|
  {
    if n == 0 then 0 else Keyed(ts, keyOf, n - 1) + (if keyOf(ts[n - 1]).Some? then 1 else 0)
  }

  /** Their dollar value. */
  function KeyedUsd(ts: seq<Txn>, keyOf: Txn -> Option<string>, n: nat): real
    requires n <= |ts|
  {
    if n == 0 then 0.0 else KeyedUsd(ts, keyOf, n - 1) + (if keyOf(ts[n - 1]).Some? then UsdOf(ts[n - 1]) else 0.0)
  }

  function CountOf(b: Bucket): int { b.count }
  function UsdTotalOf(b: Bucket): real { b.totalUsd }

  /** Tallying one keyed transaction adds one to the count total and its dollars to the dollar total. */
  lemma TalliedTotals(g: Tally, key: Option<string>, usd: real)
    ensures TotalInt(Tallied(g, key, usd), CountOf) == TotalInt(g, CountOf) + (if key.Some? then 1 else 0)
    ensures TotalReal(Tallied(g, key, usd), UsdTotalOf) == TotalReal(g, UsdTotalOf) + (if key.Some? then usd else 0.0)
  {
    if key.Some? {
      var k := key.value;
      UpsertTotalInt(g, k, Bucket(k, 0, 0.0), CountOf, Counted(usd));
      UpsertTotalReal(g, k, Bucket(k, 0, 0.0), UsdTotalOf, Counted(usd));
    }
  }

  /** The entries' counts add up to the number of keyed transactions, and their dollar values to theirs. */
  lemma {:induction false} TallyTotals(ts: seq<Txn>, keyOf: Txn -> Option<string>, n: nat)
    requires n <= |ts|
    ensures TotalInt(TallyUpTo(ts, keyOf, n), CountOf) == Keyed(ts, keyOf, n)
    ensures TotalReal(TallyUpTo(ts, keyOf, n), UsdTotalOf) == KeyedUsd(ts, keyOf, n)
  {
    if n > 0 {
      TallyTotals(ts, keyOf, n - 1);
      TalliedTotals(TallyUpTo(ts, keyOf, n - 1), keyOf(ts[n - 1]), UsdOf(ts[n - 1]));
    }
  }

  // ---------------------------------------------------------------- top ten

  /** `(a, b) => b.totalUSD - a.totalUSD`: larger totals first. */
  predicate MoreUsd(a: Bucket, b: Bucket) {
    a.totalUsd > b.totalUsd
  }

  /** `Object.values(map).sort(...).slice(0, 10)`. */
  function TopTen(m: Tally): seq<Bucket> {
    Prefix(Sort(Values(m), MoreUsd), 10)
  }

  lemma MoreUsdAsymmetric()
    ensures Asymmetric(MoreUsd)
  {
  }

  /** Adjacent totals that never increase never increase further down either. */
  lemma {:induction false} NonIncreasing(s: seq<Bucket>, i: nat, j: nat)
    requires Ordered(s, MoreUsd) && i <= j < |s|
    ensures s[j].totalUsd <= s[i].totalUsd
    decreases j - i
  {
    if i < j {
      NonIncreasing(s, i + 1, j);
    }
  }

  /**
   * The top ten: at most ten entries, the first ones of the tally sorted by
   * decreasing total, which holds the tally's entries and no others; no
   * entry left out has a larger total than an entry kept.
   */
  lemma TopTenLargest(m: Tally)
    ensures var sorted := Sort(Values(m), MoreUsd); var top := TopTen(m);
      |top| <= 10 && top == sorted[..|top|] && multiset(sorted) == multiset(Values(m))
      && (|Values(m)| >= 10 ==> |top| == 10)
      && (forall i :: 0 <= i < |top| - 1 ==> top[i + 1].totalUsd <= top[i].totalUsd)
      && forall i, j :: 0 <= i < |top| <= j < |sorted| ==> sorted[j].totalUsd <= top[i].totalUsd
  {
    var sorted := Sort(Values(m), MoreUsd);
    MoreUsdAsymmetric();
    SortOrdered(Values(m), MoreUsd);
    forall i, j | 0 <= i < |TopTen(m)| <= j < |sorted|
      ensures sorted[j].totalUsd <= TopTen(m)[i].totalUsd
    {
      NonIncreasing(sorted, i, j);
    }
  }

  // ---------------------------------------------------------------- the four charts

  predicate IsUpper(c: char) {
    'A' <= c <= 'Z'
  }

  /** `t.currency?.match(/^[A-Z]{3}/)?.[0] || t.currency || "未知"`. */
  function CurrencyCode(t: Txn): (code: string)
    ensures |code| > 0
  {
    match t.currency
    case None => "未知"
    case Some(c) =>
      if |c| >= 3 && IsUpper(c[0]) && IsUpper(c[1]) && IsUpper(c[2]) then c[..3]
      else if c != "" then c
      else "未知"
  }

  function CurrencyKeyOf(t: Txn): Option<string> {
    Some(CurrencyCode(t))
  }

  /** `byCurrency`. */
  method ByCurrency(filtered: seq<Txn>) returns (r: seq<Bucket>)
    ensures r == TopTen(TallyUpTo(filtered, CurrencyKeyOf, |filtered|))
  {
    var m := TallyBy(filtered, CurrencyKeyOf);
    r := Prefix(Sort(Values(m), MoreUsd), 10);
  }

  /** `t.customer_name || "未知"`. */
  function CustomerKeyOf(t: Txn): Option<string> {
    match t.customer_name
    case Some(n) => if n != "" then Some(n) else Some("未知")
    case None => Some("未知")
  }

  /** `byCustomer`. */
  method ByCustomer(filtered: seq<Txn>) returns (r: seq<Bucket>)
    ensures r == TopTen(TallyUpTo(filtered, CustomerKeyOf, |filtered|))
  {
    var m := TallyBy(filtered, CustomerKeyOf);
    r := Prefix(Sort(Values(m), MoreUsd), 10);
  }

  /** `${date.getFullYear()}-${String(date.getMonth() + 1).padStart(2, "0")}`. */
  function MonthKey(d: Moment): string {
    IntToString(d.year) + "-" + PadStart(IntToString(d.month), 2)
  }

  /** The month key, or none for an Invalid Date (`if (isNaN(date)) return`). */
  function MonthKeyOf(t: Txn): Option<string> {
    match DepositOrCreated(t)
    case Some(d) => Some(MonthKey(d))
    case None => None
  }

  /** `(a, b) => a[0].localeCompare(b[0])` on the entries. */
  predicate EarlierKey(a: Entry<Bucket>, b: Entry<Bucket>) {
    StrLess(a.key, b.key)
  }

  /** `Object.entries(map).sort(...).map(([, v]) => v)`. */
  function InKeyOrder(m: Tally): seq<Bucket> {
    Values(Sort(m, EarlierKey))
  }

  /** `byMonth`. */
  method ByMonth(filtered: seq<Txn>) returns (r: seq<Bucket>)
    ensures r == InKeyOrder(TallyUpTo(filtered, MonthKeyOf, |filtered|))
  {
    var m := TallyBy(filtered, MonthKeyOf);
    r := Values(Sort(m, EarlierKey));
  }

  lemma EarlierKeyAsymmetric()
    ensures Asymmetric(EarlierKey)
  {
    forall a: Entry<Bucket>, b: Entry<Bucket> | EarlierKey(a, b)
      ensures !EarlierKey(b, a)
    {
      StrLessAsymmetric(a.key, b.key);
    }
  }

  function KeyOfEntry(e: Entry<Bucket>): string { e.key }

  /**
   * The month chart: one entry per month that has a validly dated
   * transaction, with strictly increasing keys, holding the count and
   * dollar value of that month's transactions, and counts adding up to
   * the number of validly dated transactions.
   */
  lemma ByMonthInOrder(filtered: seq<Txn>)
    ensures var r := InKeyOrder(TallyUpTo(filtered, MonthKeyOf, |filtered|));
      (forall i :: 0 <= i < |r| - 1 ==> StrLess(r[i].name, r[i + 1].name))
      && (forall i :: 0 <= i < |r| ==> (r[i].count == CountKey(filtered, MonthKeyOf, r[i].name, |filtered|)
            && r[i].totalUsd == UsdKey(filtered, MonthKeyOf, r[i].name, |filtered|) && r[i].count > 0))
      && SumInt(r, CountOf) == Keyed(filtered, MonthKeyOf, |filtered|)
  {
    var m := TallyUpTo(filtered, MonthKeyOf, |filtered|);
    var r := Values(Sort(m, EarlierKey));
    TallyShape(filtered, MonthKeyOf, |filtered|);
    SortedTallyAscends(m);
    forall i | 0 <= i < |r|
      ensures r[i].name == Sort(m, EarlierKey)[i].key
      ensures r[i].count == CountKey(filtered, MonthKeyOf, r[i].name, |filtered|)
      ensures r[i].totalUsd == UsdKey(filtered, MonthKeyOf, r[i].name, |filtered|) && r[i].count > 0
    {
      var e := Sort(m, EarlierKey)[i];
      SortedTallyAt(m, i);
      assert r[i] == e.val && e.key == e.val.name;
      TallyGet(filtered, MonthKeyOf, |filtered|, e.key);
      assert Holding(e.key, CountKey(filtered, MonthKeyOf, e.key, |filtered|), UsdKey(filtered, MonthKeyOf, e.key, |filtered|)) == Some(e.val);
    }
    TallyTotals(filtered, MonthKeyOf, |filtered|);
    EntrySums(m, Sort(m, EarlierKey));
  }

  /** A well-kept tally sorted by key has strictly increasing keys. */
  lemma SortedTallyAscends(m: Tally)
    requires WellKept(m)
    ensures var sorted := Sort(m, EarlierKey);
      forall i :: 0 <= i < |sorted| - 1 ==> StrLess(sorted[i].key, sorted[i + 1].key)
  {
    var sorted := Sort(m, EarlierKey);
    EarlierKeyAsymmetric();
    SortOrdered(m, EarlierKey);
    assert DistinctBy(m, KeyOfEntry);
    SortDistinctBy(m, EarlierKey, KeyOfEntry);
    forall i | 0 <= i < |sorted| - 1
      ensures StrLess(sorted[i].key, sorted[i + 1].key)
    {
      StrLessTotal(sorted[i].key, sorted[i + 1].key);
    }
  }

  /** Each entry of a well-kept tally, after sorting, is filed under its own name and is the one found for its key. */
  lemma SortedTallyAt(m: Tally, i: nat)
    requires WellKept(m) && i < |m|
    ensures var e := Sort(m, EarlierKey)[i];
      Labelled(e) && Get(m, e.key) == Some(e.val)
  {
    var e := Sort(m, EarlierKey)[i];
    assert e in multiset(m);
    var j :| 0 <= j < |m| && m[j] == e;
    UniqueIndex(m, m[j].key, j);
  }

  /** A reordering of a tally's entries has the same count total. */
  lemma EntrySums(m: Tally, sorted: seq<Entry<Bucket>>)
    requires sorted == Sort(m, EarlierKey)
    ensures SumInt(Values(sorted), CountOf) == TotalInt(m, CountOf)
  {
    SortSums(m, EarlierKey, e => 0.0, (e: Entry<Bucket>) => e.val.count);
    ValuesSum(sorted);
    TotalIsSum(m);
  }

  lemma {:induction false} ValuesSum(s: seq<Entry<Bucket>>)
    ensures SumInt(Values(s), CountOf) == SumInt(s, (e: Entry<Bucket>) => e.val.count)
  {
    if |s| > 0 {
      ValuesSum(s[..|s| - 1]);
      ValuesPrefix(s, |s| - 1);
    }
  }

  lemma {:induction false} TotalIsSum(s: seq<Entry<Bucket>>)
    ensures TotalInt(s, CountOf) == SumInt(s, (e: Entry<Bucket>) => e.val.count)
  {
    if |s| > 0 {
      TotalIsSum(s[..|s| - 1]);
    }
  }

  /**
   * For four-digit years the chart's month key is the profit report's
   * month key, so the chart's key order is the calendar order.
   */
  lemma MonthKeyIsReportKey(a: Moment, b: Moment)
    requires 1000 <= a.year < 10000 && 1000 <= b.year < 10000
    requires 1 <= a.month <= 12 && 1 <= b.month <= 12
    ensures MonthKey(a) == ProfitReport.PeriodOf("month", a).key
    ensures StrLess(MonthKey(a), MonthKey(b)) <==> ProfitReport.PeriodIndex("month", a) < ProfitReport.PeriodIndex("month", b)
  {
    FourDigitYear(a.year);
    FourDigitYear(b.year);
    ProfitReport.MonthKeysFollow(a, b);
  }

  lemma FourDigitYear(y: int)
    requires 1000 <= y < 10000
    ensures IntToString(y) == ProfitReport.YearText(y)
  {
    var s := NatToString(y);
    ParseNatToString(y);
    DigitsBound(s);
    if |s| < 4 {
      Pow10Monotone(|s|, 3);
    }
  }

  lemma {:induction false} Pow10Monotone(a: nat, b: nat)
    requires a <= b
    ensures Pow10(a) <= Pow10(b)
  {
    if a < b {
      Pow10Monotone(a, b - 1);
    }
  }

  /** `t.fund_status || "未知"`. */
  function StatusKeyOf(t: Txn): Option<string> {
    match t.fund_status
    case Some(s) => if s != "" then Some(s) else Some("未知")
    case None => Some("未知")
  }

  /** A slice of the status pie: `{ name, value }`. */
  datatype Slice = Slice(name: string, value: nat)

  /** The status tally: `map[s].value += 1`. */
  function StatusTallyUpTo(ts: seq<Txn>, n: nat): seq<Entry<nat>>
    requires n <= |ts|
  {
    if n == 0 then []
    else
      var s := StatusKeyOf(ts[n - 1]).value;
      Upsert(StatusTallyUpTo(ts, n - 1), s, 0, v => v + 1)
  }

  /** `byStatus`: `Object.values(map)`. */
  method ByStatus(filtered: seq<Txn>) returns (r: seq<Slice>)
    ensures r == Slices(StatusTallyUpTo(filtered, |filtered|))
  {
    var m: seq<Entry<nat>> := [];
    for i := 0 to |filtered|
      invariant m == StatusTallyUpTo(filtered, i)
    {
      var s := StatusKeyOf(filtered[i]).value;
      m := Upsert(m, s, 0, v => v + 1);
    }
    r := Slices(m);
  }

  function Slices(m: seq<Entry<nat>>): (r: seq<Slice>)
    ensures |r| == |m| && forall i :: 0 <= i < |m| ==> r[i] == Slice(m[i].key, m[i].val)
  {
    seq(|m|, i requires 0 <= i < |m| => Slice(m[i].key, m[i].val))
  }

  function SliceValue(s: Slice): int { s.value }

  function Identity(v: nat): int { v }

  /** The pie's values add up to the number of transactions shown, and no status appears twice. */
  lemma {:induction false} StatusSlicesCountAll(ts: seq<Txn>, n: nat)
    requires n <= |ts|
    ensures TotalInt(StatusTallyUpTo(ts, n), Identity) == n
    ensures DistinctKeys(StatusTallyUpTo(ts, n))
  {
    if n > 0 {
      StatusSlicesCountAll(ts, n - 1);
      var g := StatusTallyUpTo(ts, n - 1);
      var s := StatusKeyOf(ts[n - 1]).value;
      UpsertTotalInt(g, s, 0, Identity, v => v + 1);
      UpsertKeys(g, s, 0, v => v + 1);
    }
  }

  /** The pie's slice values add up to the number of transactions shown. */
  lemma ByStatusSumsToCount(filtered: seq<Txn>)
    ensures SumInt(Slices(StatusTallyUpTo(filtered, |filtered|)), SliceValue) == |filtered|
  {
    var m := StatusTallyUpTo(filtered, |filtered|);
    StatusSlicesCountAll(filtered, |filtered|);
    SlicesSum(m);
  }

  lemma {:induction false} SlicesSum(m: seq<Entry<nat>>)
    ensures SumInt(Slices(m), SliceValue) == TotalInt(m, Identity)
  {
    if |m| > 0 {
      SlicesSum(m[..|m| - 1]);
      assert Slices(m)[..|m| - 1] == Slices(m[..|m| - 1]);
    }
  }
}
