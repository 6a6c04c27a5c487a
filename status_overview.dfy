/**
 * The fund-status overview (`StatusOverview`): for each of the eight
 * configured statuses, in configuration order, the transactions with that
 * status, how many there are and what their deposits are worth in USDT;
 * the chart lists only the statuses that occur, the list view all eight.
 */
module StatusOverview {
  import opened Wrappers
  import opened Ledger

  /** `t => t.fund_status === s`. */
  function HasStatus(s: string): Txn -> bool {
    t => StatusIs(t, s)
  }

  /** The status is one of `statuses`. */
  function InStatuses(statuses: seq<string>): Txn -> bool {
    (t: Txn) => t.fund_status.Some? && t.fund_status.value in statuses
  }

  /** No status is configured twice. */
  predicate Distinct(statuses: seq<string>) {
    forall i, j :: 0 <= i < j < |statuses| ==> statuses[i] != statuses[j]
  }

  /** One status's entry: `{ status, count, usdt, txns }`. */
  datatype StatusStat = StatusStat(status: string, count: nat, usdt: real, txns: seq<Txn>)

  /** The entry of status `s`: its transactions, their number and their summed USDT value. */
  function StatOf(ts: seq<Txn>, s: string): StatusStat {
    var txns := Filter(ts, HasStatus(s));
    StatusStat(s, |txns|, SumUsdt(txns), txns)
  }

  /**
   * An entry holds, in order, exactly the transactions with its status, and
   * its USDT value is the sum of `D / R` over those with a positive rate.
   */
  lemma StatOfMeaning(ts: seq<Txn>, s: string)
    ensures var d := StatOf(ts, s);
      d.status == s && d.count == |d.txns| && Subsequence(d.txns, ts)
      && (forall t :: t in d.txns <==> t in ts && StatusIs(t, s))
      && d.usdt == SumUsdt(d.txns)
      && (d.count == 0 ==> d.txns == [] && d.usdt == 0.0)
  {
    FilterSubsequence(ts, HasStatus(s));
  }

  /** `statuses.map(...)`: the entry of each status, in order. */
  function Entries(ts: seq<Txn>, statuses: seq<string>): (ds: seq<StatusStat>)
    ensures |ds| == |statuses| && forall k :: 0 <= k < |statuses| ==> ds[k] == StatOf(ts, statuses[k])
  {
    seq(|statuses|, k requires 0 <= k < |statuses| => StatOf(ts, statuses[k]))
  }

  /** `.filter(d => d.count > 0)`. */
  function NonEmpty(ds: seq<StatusStat>): seq<StatusStat> {
    if |ds| == 0 then []
    else if ds[|ds| - 1].count > 0 then NonEmpty(ds[..|ds| - 1]) + [ds[|ds| - 1]]
    else NonEmpty(ds[..|ds| - 1])
  }

  /** `statusData`: the entries of the configured statuses that occur. */
  function StatusData(ts: seq<Txn>): seq<StatusStat> {
    NonEmpty(Entries(ts, AllStatuses))
  }

  /** `totalCount`. */
  function TotalCount(ts: seq<Txn>): nat {
    |ts|
  }

  /** `totalUsdtAll`: the USDT value of every transaction, whatever its status. */
  function TotalUsdtAll(ts: seq<Txn>): real {
    SumUsdt(ts)
  }

  /** The sum of the entries' counts. */
  function SumCounts(ds: seq<StatusStat>): nat {
    if |ds| == 0 then 0 else SumCounts(ds[..|ds| - 1]) + ds[|ds| - 1].count
  }

  /** The sum of the entries' USDT values. */
  function SumUsdts(ds: seq<StatusStat>): real {
    if |ds| == 0 then 0.0 else SumUsdts(ds[..|ds| - 1]) + ds[|ds| - 1].usdt
  }

  /** The positions of the entries `NonEmpty` keeps. */
  function Picked(ds: seq<StatusStat>): (idx: seq<nat>)
    ensures |idx| == |NonEmpty(ds)|
    ensures forall i :: 0 <= i < |idx| ==> idx[i] < |ds| && NonEmpty(ds)[i] == ds[idx[i]]
    ensures forall i, j :: 0 <= i < j < |idx| ==> idx[i] < idx[j]
  {
    if |ds| == 0 then []
    else
      var k := Picked(ds[..|ds| - 1]);
      if ds[|ds| - 1].count > 0 then k + [|ds| - 1] else k
  }

  /**
   * The filter keeps exactly the entries with a positive count, in order:
   * entry `i` is entry `idx[i]` of the input, the positions increase, and
   * every entry with a positive count is among them.
   */
  lemma {:induction false} NonEmptyKeepsOccurring(ds: seq<StatusStat>)
    ensures forall i :: 0 <= i < |NonEmpty(ds)| ==> NonEmpty(ds)[i].count > 0
    ensures forall k :: 0 <= k < |ds| && ds[k].count > 0 ==> k in Picked(ds)
  {
    if |ds| > 0 {
      var init := ds[..|ds| - 1];
      NonEmptyKeepsOccurring(init);
      forall k | 0 <= k < |ds| && ds[k].count > 0
        ensures k in Picked(ds)
      {
        if k < |init| {
          assert init[k] == ds[k];
          assert k in Picked(init);
        }
      }
    }
  }

  /** Dropping the entries with no transactions changes neither total. */
  lemma {:induction false} NonEmptySums(ds: seq<StatusStat>)
    requires forall k :: 0 <= k < |ds| && ds[k].count == 0 ==> ds[k].usdt == 0.0
    ensures SumCounts(NonEmpty(ds)) == SumCounts(ds)
    ensures SumUsdts(NonEmpty(ds)) == SumUsdts(ds)
  {
    if |ds| > 0 {
      var init := ds[..|ds| - 1];
      NonEmptySums(init);
      if ds[|ds| - 1].count > 0 {
        assert (NonEmpty(init) + [ds[|ds| - 1]])[..|NonEmpty(init)|] == NonEmpty(init);
      }
    }
  }

  /** Two disjoint predicates count, and sum, apart: `r` holds exactly when `p` or `q` does. */
  lemma {:induction false} FilterDisjoint(ts: seq<Txn>, p: Txn -> bool, q: Txn -> bool, r: Txn -> bool)
    requires forall t :: r(t) == (p(t) || q(t)) && !(p(t) && q(t))
    ensures |Filter(ts, r)| == |Filter(ts, p)| + |Filter(ts, q)|
    ensures SumUsdt(Filter(ts, r)) == SumUsdt(Filter(ts, p)) + SumUsdt(Filter(ts, q))
  {
    if |ts| > 0 {
      var init, last := ts[..|ts| - 1], ts[|ts| - 1];
      FilterDisjoint(init, p, q, r);
      var fr, fp, fq := Filter(init, r), Filter(init, p), Filter(init, q);
      if p(last) {
        SumUsdtSnoc(fr, last);
        SumUsdtSnoc(fp, last);
      } else if q(last) {
        SumUsdtSnoc(fr, last);
        SumUsdtSnoc(fq, last);
      }
    }
  }

  lemma SumUsdtSnoc(ts: seq<Txn>, t: Txn)
    ensures SumUsdt(ts + [t]) == SumUsdt(ts) + UsdtValue(t)
  {
    assert (ts + [t])[..|ts|] == ts;
  }

  /** Over distinct statuses, a transaction has one of the first ones or else the last, never both. */
  lemma LastStatusApart(statuses: seq<string>)
    requires Distinct(statuses) && |statuses| > 0
    ensures var init, s := statuses[..|statuses| - 1], statuses[|statuses| - 1];
      forall t :: InStatuses(statuses)(t) == (InStatuses(init)(t) || HasStatus(s)(t))
                  && !(InStatuses(init)(t) && HasStatus(s)(t))
  {
    var init, s := statuses[..|statuses| - 1], statuses[|statuses| - 1];
    assert statuses == init + [s];
    assert s !in init;
  }

  /**
   * Over distinct statuses, the entries' counts add up to the number of
   * transactions with one of those statuses, and their USDT values to
   * those transactions' USDT value.
   */
  lemma {:induction false} EntriesSums(ts: seq<Txn>, statuses: seq<string>)
    requires Distinct(statuses)
    ensures SumCounts(Entries(ts, statuses)) == |Filter(ts, InStatuses(statuses))|
    ensures SumUsdts(Entries(ts, statuses)) == SumUsdt(Filter(ts, InStatuses(statuses)))
  {
    if |statuses| == 0 {
      Ledger.FilterNone(ts, InStatuses(statuses));
    } else {
      var init, s := statuses[..|statuses| - 1], statuses[|statuses| - 1];
      EntriesSums(ts, init);
      assert Entries(ts, statuses)[..|init|] == Entries(ts, init);
      LastStatusApart(statuses);
      FilterDisjoint(ts, InStatuses(init), HasStatus(s), InStatuses(statuses));
    }
  }

  /** A filter keeps every element exactly when every element satisfies the predicate. */
  lemma {:induction false} FilterKeepsAll(ts: seq<Txn>, p: Txn -> bool)
    ensures |Filter(ts, p)| == |ts| <==> forall t :: t in ts ==> p(t)
  {
    if |ts| > 0 {
      var init := ts[..|ts| - 1];
      FilterKeepsAll(init, p);
      assert ts == init + [ts[|ts| - 1]];
    }
  }

  /** The eight configured statuses are distinct. */
  lemma ConfiguredDistinct()
    ensures Distinct(AllStatuses)
  {
  }

  /**
   * The chart's counts add up to at most the number of transactions, with
   * equality exactly when every transaction has a configured status; then
   * their USDT values also add up to the overall total.
   */
  lemma CountsWithinTotal(ts: seq<Txn>)
    ensures SumCounts(StatusData(ts)) <= TotalCount(ts)
    ensures SumCounts(StatusData(ts)) == TotalCount(ts)
      <==> forall t :: t in ts ==> InStatuses(AllStatuses)(t)
    ensures (forall t :: t in ts ==> InStatuses(AllStatuses)(t)) ==>
      SumUsdts(StatusData(ts)) == TotalUsdtAll(ts)
  {
    ConfiguredDistinct();
    EntriesSums(ts, AllStatuses);
    var ds := Entries(ts, AllStatuses);
    forall k | 0 <= k < |ds| && ds[k].count == 0
      ensures ds[k].usdt == 0.0
    {
      StatOfMeaning(ts, AllStatuses[k]);
    }
    NonEmptySums(ds);
    FilterKeepsAll(ts, InStatuses(AllStatuses));
    if forall t :: t in ts ==> InStatuses(AllStatuses)(t) {
      FilterAll(ts, InStatuses(AllStatuses));
    }
  }

  /** `statusData.find(x => x.status === s)`. */
  function Find(ds: seq<StatusStat>, s: string): (r: Option<StatusStat>)
    ensures r.Some? ==> r.value in ds && r.value.status == s
    ensures r.None? ==> forall i :: 0 <= i < |ds| ==> ds[i].status != s
  {
    if |ds| == 0 then None
    else if ds[0].status == s then Some(ds[0])
    else Find(ds[1..], s)
  }

  /** The list view: every configured status, with the empty entry `{ count: 0, usdt: 0, txns: [] }` when absent. */
  function ListView(ts: seq<Txn>): (rows: seq<StatusStat>)
    ensures |rows| == |AllStatuses|
  {
    seq(|AllStatuses|, k requires 0 <= k < |AllStatuses| =>
      match Find(StatusData(ts), AllStatuses[k])
      case Some(d) => d
      case None => StatusStat(AllStatuses[k], 0, 0.0, []))
  }

  /** Row `k` of the list view is the entry of the `k`-th status, even when no transaction has it. */
  lemma ListViewShowsEveryStatus(ts: seq<Txn>)
    ensures forall k :: 0 <= k < |AllStatuses| ==> ListView(ts)[k] == StatOf(ts, AllStatuses[k])
  {
    forall k | 0 <= k < |AllStatuses|
      ensures ListView(ts)[k] == StatOf(ts, AllStatuses[k])
    {
      ListViewRow(ts, k);
    }
  }

  lemma ListViewRow(ts: seq<Txn>, k: nat)
    requires k < |AllStatuses|
    ensures ListView(ts)[k] == StatOf(ts, AllStatuses[k])
  {
    var ds := Entries(ts, AllStatuses);
    var data := StatusData(ts);
    var idx := Picked(ds);
    var s := AllStatuses[k];
    NonEmptyKeepsOccurring(ds);
    ConfiguredDistinct();
    match Find(data, s)
    case Some(d) =>
      var i :| 0 <= i < |data| && data[i] == d;
      assert AllStatuses[idx[i]] == s;
      assert idx[i] == k;
    case None =>
      assert forall i :: 0 <= i < |idx| ==> AllStatuses[idx[i]] != s;
      assert k !in idx;
      StatOfMeaning(ts, s);
  }

  /**
   * The chart lists the entries of the configured statuses that have a
   * transaction, in configuration order: entry `i` is the entry of status
   * number `idx[i]`, the numbers increase, and no status with a
   * transaction is missing.
   */
  lemma StatusDataInConfigurationOrder(ts: seq<Txn>)
    ensures var data := StatusData(ts); var idx := Picked(Entries(ts, AllStatuses));
      |idx| == |data|
      && (forall i :: 0 <= i < |data| ==>
            idx[i] < |AllStatuses| && data[i] == StatOf(ts, AllStatuses[idx[i]]) && data[i].count > 0)
      && (forall i, j :: 0 <= i < j < |data| ==> idx[i] < idx[j])
      && (forall k :: 0 <= k < |AllStatuses| && StatOf(ts, AllStatuses[k]).count > 0 ==> k in idx)
  {
    NonEmptyKeepsOccurring(Entries(ts, AllStatuses));
  }
}
