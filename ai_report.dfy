/**
 * The data summary behind the AI business report (`AIReport`): the
 * transactions and expenses created since the start of the chosen period,
 * the counts per status group, the profit of the completed transactions,
 * the deposits per currency, the customer ages and the expenses.
 */
module AiReport {
  import opened Wrappers
  import opened Text
  import opened Ledger
  import opened Dict
  import Dashboard

  // ---------------------------------------------------------------- period

  /** The viewer's local date: the year, `getMonth()` (0 to 11) and the day of the month. */
  datatype Today = Today(year: int, month: int, day: int)

  /**
   * `new Date(y, m, d).getTime()`: the instant of local midnight on a
   * calendar date, with an out-of-range month or day carried over. The time
   * zone lives in the environment, so this is a parameter.
   */
  type Midnight = (int, int, int) -> int

  /** The first month (0-based) of the quarter holding `month`: `Math.floor(month / 3) * 3`. */
  function QuarterStart(month: int): (q: int)
    ensures 0 <= month <= 11 ==> q in {0, 3, 6, 9} && q <= month < q + 3
  {
    (month / 3) * 3
  }

  /**
   * `startDate`: seven days before today for `week`, the first of this
   * month, of this quarter or of this year, and the epoch for anything else.
   */
  function StartMs(timePeriod: string, now: Today, midnight: Midnight): int {
    if timePeriod == "week" then midnight(now.year, now.month, now.day - 7)
    else if timePeriod == "month" then midnight(now.year, now.month, 1)
    else if timePeriod == "quarter" then midnight(now.year, QuarterStart(now.month), 1)
    else if timePeriod == "year" then midnight(now.year, 0, 1)
    else 0
  }

  /** `new Date(x.created_date) >= startDate`: an Invalid Date compares false. */
  predicate CreatedSince(created: Option<DateValue>, start: int) {
    Parse(created).Some? && Parse(created).value.ms >= start
  }

  function TxnSince(start: int): Txn -> bool {
    (t: Txn) => CreatedSince(t.created_date, start)
  }

  function ExpenseSince(start: int): Expense -> bool {
    (e: Expense) => CreatedSince(e.created_date, start)
  }

  /** `getFilteredData`. */
  function FilteredData(transactions: seq<Txn>, expenses: seq<Expense>, start: int): (seq<Txn>, seq<Expense>) {
    (Filter(transactions, TxnSince(start)), Filter(expenses, ExpenseSince(start)))
  }

  /**
   * The period's records are, in order, exactly those created at or after
   * its start; so even `all` drops a record whose creation date is missing,
   * unparseable or before 1970.
   */
  lemma FilteredDataSince(transactions: seq<Txn>, expenses: seq<Expense>, timePeriod: string, now: Today, midnight: Midnight)
    ensures var start := StartMs(timePeriod, now, midnight);
      var (txns, exps) := FilteredData(transactions, expenses, start);
      Subsequence(txns, transactions) && Subsequence(exps, expenses)
      && (forall t :: t in txns <==> t in transactions && CreatedSince(t.created_date, start))
      && (forall e :: e in exps <==> e in expenses && CreatedSince(e.created_date, start))
      && (timePeriod !in {"week", "month", "quarter", "year"} ==>
            forall t :: t in txns <==> t in transactions && Parse(t.created_date).Some? && Parse(t.created_date).value.ms >= 0)
  {
    var start := StartMs(timePeriod, now, midnight);
    FilterSubsequence(transactions, TxnSince(start));
    FilterSubsequence(expenses, ExpenseSince(start));
  }

  // ---------------------------------------------------------------- profit

  /** The four profit totals. */
  datatype Profit = Profit(commission: real, fee: real, exchange: real, violation: real)

  /** `parseFloat(t.exchange_rate) || 1`: never 0. */
  function RateOrOne(t: Txn): (rate: real)
    ensures rate != 0.0
  {
    if Num(t.exchange_rate) != 0.0 then Num(t.exchange_rate) else 1.0
  }

  /** One completed transaction's contribution. */
  function ProfitOf(t: Txn): Profit {
    var deposit := Num(t.deposit_amount);
    var rate := RateOrOne(t);
    var comm := deposit * (Num(t.commission_percentage) / 100.0);
    var acceptance := if Num(t.acceptance_usdt) != 0.0 then Num(t.acceptance_usdt) else deposit / rate;
    Profit(comm / rate, Num(t.transfer_fee) / rate, acceptance - deposit / rate, Num(t.violation_penalty))
  }

  /** The totals over the first `n` transactions. */
  function ProfitUpTo(ts: seq<Txn>, n: nat): Profit
    requires n <= |ts|
  {
    if n == 0 then Profit(0.0, 0.0, 0.0, 0.0)
    else
      var p, q := ProfitUpTo(ts, n - 1), ProfitOf(ts[n - 1]);
      Profit(p.commission + q.commission, p.fee + q.fee, p.exchange + q.exchange, p.violation + q.violation)
  }

  /** The `completed.forEach` loop. */
  method CompletedProfit(completed: seq<Txn>) returns (p: Profit)
    ensures p == ProfitUpTo(completed, |completed|)
  {
    var totalCommission, totalFee, totalExchangeProfit, totalViolation := 0.0, 0.0, 0.0, 0.0;
    for i := 0 to |completed|
      invariant totalCommission == ProfitUpTo(completed, i).commission
      invariant totalFee == ProfitUpTo(completed, i).fee
      invariant totalExchangeProfit == ProfitUpTo(completed, i).exchange
      invariant totalViolation == ProfitUpTo(completed, i).violation
    {
      var t := completed[i];
      var deposit := Num(t.deposit_amount);
      var rate := RateOrOne(t);
      var comm := deposit * (Num(t.commission_percentage) / 100.0);
      var fee := Num(t.transfer_fee);
      var acceptance := if Num(t.acceptance_usdt) != 0.0 then Num(t.acceptance_usdt) else deposit / rate;
      totalCommission := totalCommission + comm / rate;
      totalFee := totalFee + fee / rate;
      totalExchangeProfit := totalExchangeProfit + (acceptance - deposit / rate);
      totalViolation := totalViolation + Num(t.violation_penalty);
      assert ProfitOf(t) == Profit(comm / rate, fee / rate, acceptance - deposit / rate, Num(t.violation_penalty));
    }
    p := Profit(totalCommission, totalFee, totalExchangeProfit, totalViolation);
  }

  /**
   * A completed transaction's share: the rate defaults to 1 when missing or
   * zero, the commission D·C/100 and the fee are converted at that rate,
   * and without a recorded acceptance the exchange profit is 0.
   */
  lemma ProfitShare(t: Txn)
    ensures var p, d, r := ProfitOf(t), Num(t.deposit_amount), RateOrOne(t);
      (Num(t.exchange_rate) == 0.0 ==> r == 1.0)
      && p.commission * r == d * Num(t.commission_percentage) / 100.0
      && p.fee * r == Num(t.transfer_fee)
      && (Num(t.acceptance_usdt) == 0.0 ==> p.exchange == 0.0)
      && (Num(t.acceptance_usdt) != 0.0 ==> (p.exchange + d / r) == Num(t.acceptance_usdt))
      && p.violation == Num(t.violation_penalty)
  {
    var d, r, c := Num(t.deposit_amount), RateOrOne(t), Num(t.commission_percentage);
    assert d * (c / 100.0) / r * r == d * c / 100.0;
  }

  /** Transactions that all lack an acceptance and a rate contribute no exchange profit. */
  lemma {:induction false} NoAcceptanceNoExchange(ts: seq<Txn>, n: nat)
    requires n <= |ts|
    requires forall t :: t in ts ==> Num(t.acceptance_usdt) == 0.0
    ensures ProfitUpTo(ts, n).exchange == 0.0
  {
    if n > 0 {
      NoAcceptanceNoExchange(ts, n - 1);
      assert ts[n - 1] in ts;
    }
  }

  // ---------------------------------------------------------------- currencies

  /** `t.currency?.substring(0, 3) || "OTHER"`. */
  function CurrencyCode(t: Txn): (code: string)
    ensures 0 < |code| && (code == "OTHER" || |code| <= 3)
  {
    if t.currency.Some? && Prefix(t.currency.value, 3) != "" then Prefix(t.currency.value, 3) else "OTHER"
  }

  /** `currencyMap[code] = (currencyMap[code] || 0) + deposit`. */
  function AddAmount(amount: real): real -> real {
    (v: real) => v + amount
  }

  /** `currencyMap` over the first `n` transactions, returned and frozen ones left out. */
  function CurrencyMapUpTo(ts: seq<Txn>, n: nat): seq<Entry<real>>
    requires n <= |ts|
  {
    if n == 0 then []
    else
      var m := CurrencyMapUpTo(ts, n - 1);
      var t := ts[n - 1];
      if Special(t) then m else Upsert(m, CurrencyCode(t), 0.0, AddAmount(Num(t.deposit_amount)))
  }

  /** The currency distribution loop. */
  method CurrencyDistribution(txns: seq<Txn>) returns (currencyMap: seq<Entry<real>>)
    ensures currencyMap == CurrencyMapUpTo(txns, |txns|)
  {
    currencyMap := [];
    for i := 0 to |txns|
      invariant currencyMap == CurrencyMapUpTo(txns, i)
    {
      var t := txns[i];
      assert Special(t) <==> t.fund_status == Some(Returned) || t.fund_status == Some(FrozenBlocked) || t.fund_status == Some(FrozenProcessing);
      assert CurrencyMapUpTo(txns, i + 1)
          == if Special(t) then currencyMap else Upsert(currencyMap, CurrencyCode(t), 0.0, AddAmount(Num(t.deposit_amount)));
      if !(t.fund_status == Some(Returned) || t.fund_status == Some(FrozenBlocked) || t.fund_status == Some(FrozenProcessing)) {
        currencyMap := Upsert(currencyMap, CurrencyCode(t), 0.0, AddAmount(Num(t.deposit_amount)));
      }
    }
  }

  /** The distribution files each key once. */
  lemma {:induction false} CurrencyMapDistinct(ts: seq<Txn>, n: nat)
    requires n <= |ts|
    ensures DistinctKeys(CurrencyMapUpTo(ts, n))
  {
    if n > 0 {
      CurrencyMapDistinct(ts, n - 1);
      var t := ts[n - 1];
      if !Special(t) {
        UpsertKeys(CurrencyMapUpTo(ts, n - 1), CurrencyCode(t), 0.0, AddAmount(Num(t.deposit_amount)));
      }
    }
  }

  /** The amounts add up to the deposits of the transactions that are neither returned nor frozen. */
  lemma {:induction false} CurrencyMapTotal(ts: seq<Txn>, n: nat)
    requires n <= |ts|
    ensures TotalReal(CurrencyMapUpTo(ts, n), v => v) == Dashboard.SumDeposits(Filter(ts[..n], Dashboard.Effective))
  {
    if n > 0 {
      CurrencyMapTotal(ts, n - 1);
      assert ts[..n][..n - 1] == ts[..n - 1];
      Dashboard.EffectiveStep(ts[..n]);
      var t := ts[n - 1];
      if !Special(t) {
        UpsertTotalReal(CurrencyMapUpTo(ts, n - 1), CurrencyCode(t), 0.0, v => v, AddAmount(Num(t.deposit_amount)));
      }
    }
  }

  /** `k` is the currency code of one of the first `n` transactions that is neither returned nor frozen. */
  ghost predicate CodeOfCounted(ts: seq<Txn>, n: nat, k: string)
    requires n <= |ts|
  {
    exists j :: 0 <= j < n && !Special(ts[j]) && CurrencyCode(ts[j]) == k
  }

  /** A code counted among the first `n - 1` transactions is counted among the first `n`. */
  lemma CountedExtends(ts: seq<Txn>, n: nat, k: string)
    requires 0 < n <= |ts| && CodeOfCounted(ts, n - 1, k)
    ensures CodeOfCounted(ts, n, k)
  {
    var j :| 0 <= j < n - 1 && !Special(ts[j]) && CurrencyCode(ts[j]) == k;
    assert 0 <= j < n;
  }

  /** Every key is the currency code of a transaction that is neither returned nor frozen. */
  lemma {:induction false} CurrencyMapKeys(ts: seq<Txn>, n: nat)
    requires n <= |ts|
    ensures forall i :: 0 <= i < |CurrencyMapUpTo(ts, n)| ==> CodeOfCounted(ts, n, CurrencyMapUpTo(ts, n)[i].key)
  {
    if n > 0 {
      CurrencyMapKeys(ts, n - 1);
      var m := CurrencyMapUpTo(ts, n - 1);
      var t := ts[n - 1];
      if !Special(t) {
        var code := CurrencyCode(t);
        var r := Upsert(m, code, 0.0, AddAmount(Num(t.deposit_amount)));
        assert CurrencyMapUpTo(ts, n) == r;
        assert CodeOfCounted(ts, n, code);
        forall i | 0 <= i < |r|
          ensures CodeOfCounted(ts, n, r[i].key)
        {
          if r[i].key != code {
            assert i < |m| && r[i].key == m[i].key;
            CountedExtends(ts, n, m[i].key);
          }
        }
      } else {
        assert CurrencyMapUpTo(ts, n) == m;
        forall i | 0 <= i < |m|
          ensures CodeOfCounted(ts, n, m[i].key)
        {
          CountedExtends(ts, n, m[i].key);
        }
      }
    }
  }

  // ---------------------------------------------------------------- ages

  /** `txns.map(t => parseFloat(t.customer_age)).filter(a => a > 0)`: NaN never passes. */
  function Ages(ts: seq<Txn>): (ages: seq<real>)
    ensures |ages| <= |ts|
    ensures forall i :: 0 <= i < |ages| ==> ages[i] > 0.0
  {
    if |ts| == 0 then []
    else
      var a := ts[|ts| - 1].customer_age;
      if a.Some? && a.value > 0.0 then Ages(ts[..|ts| - 1]) + [a.value] else Ages(ts[..|ts| - 1])
  }

  function SumAges(ages: seq<real>): real {
    if |ages| == 0 then 0.0 else SumAges(ages[..|ages| - 1]) + ages[|ages| - 1]
  }

  /** `avgAge`: the mean of the ages, or none (`"N/A"`) without any. */
  function AvgAge(ages: seq<real>): Option<real> {
    if |ages| > 0 then Some(SumAges(ages) / (|ages| as real)) else None
  }

  /** `ages.filter(a => a >= 70).length`. */
  function ElderlyCount(ages: seq<real>): nat {
    if |ages| == 0 then 0 else ElderlyCount(ages[..|ages| - 1]) + (if ages[|ages| - 1] >= 70.0 then 1 else 0)
  }

  lemma {:induction false} SumAgesBounds(ages: seq<real>, lo: real)
    requires forall i :: 0 <= i < |ages| ==> ages[i] >= lo
    ensures SumAges(ages) >= (|ages| as real) * lo
  {
    if |ages| > 0 {
      SumAgesBounds(ages[..|ages| - 1], lo);
    }
  }

  lemma {:induction false} ElderlyWithin(ages: seq<real>)
    ensures ElderlyCount(ages) <= |ages|
    ensures ElderlyCount(ages) == |ages| <==> forall i :: 0 <= i < |ages| ==> ages[i] >= 70.0
  {
    if |ages| > 0 {
      ElderlyWithin(ages[..|ages| - 1]);
      if ElderlyCount(ages) == |ages| {
        forall i | 0 <= i < |ages|
          ensures ages[i] >= 70.0
        {
          if i < |ages| - 1 {
            assert ages[..|ages| - 1][i] == ages[i];
          }
        }
      }
    }
  }

  /** The mean of positive ages is positive, and at least 70 when every age is. */
  lemma MeanOfAges(ages: seq<real>)
    requires forall i :: 0 <= i < |ages| ==> ages[i] > 0.0
    ensures AvgAge(ages).Some? <==> |ages| > 0
    ensures AvgAge(ages).Some? ==> AvgAge(ages).value > 0.0
    ensures AvgAge(ages).Some? && ElderlyCount(ages) == |ages| ==> AvgAge(ages).value >= 70.0
  {
    if |ages| > 0 {
      var n := |ages| as real;
      AgesPositiveSum(ages);
      DivAtLeast(SumAges(ages), n, 0.0);
      if ElderlyCount(ages) == |ages| {
        ElderlyWithin(ages);
        SumAgesBounds(ages, 70.0);
        DivAtLeast(SumAges(ages), n, 70.0);
      }
    }
  }

  /**
   * The average is over positive ages only: it is missing exactly when no
   * transaction has a positive age, and otherwise positive; when every such
   * customer is elderly the average is at least 70, and the elderly count
   * never exceeds the number of ages.
   */
  lemma AgeSummary(ts: seq<Txn>)
    ensures AvgAge(Ages(ts)).None? <==> forall t :: t in ts ==> t.customer_age.None? || t.customer_age.value <= 0.0
    ensures AvgAge(Ages(ts)).Some? ==> AvgAge(Ages(ts)).value > 0.0
    ensures ElderlyCount(Ages(ts)) <= |Ages(ts)|
    ensures AvgAge(Ages(ts)).Some? && ElderlyCount(Ages(ts)) == |Ages(ts)| ==> AvgAge(Ages(ts)).value >= 70.0
  {
    AgesEmpty(ts);
    ElderlyWithin(Ages(ts));
    MeanOfAges(Ages(ts));
  }

  lemma DivAtLeast(total: real, n: real, lo: real)
    requires n > 0.0 && total >= n * lo
    ensures total / n >= lo
  {
    assert total / n * n == total;
  }

  lemma {:induction false} AgesPositiveSum(ages: seq<real>)
    requires |ages| > 0 && forall i :: 0 <= i < |ages| ==> ages[i] > 0.0
    ensures SumAges(ages) > 0.0
  {
    if |ages| > 1 {
      AgesPositiveSum(ages[..|ages| - 1]);
    }
  }

  lemma {:induction false} AgesEmpty(ts: seq<Txn>)
    ensures |Ages(ts)| == 0 <==> forall t :: t in ts ==> t.customer_age.None? || t.customer_age.value <= 0.0
  {
    if |ts| > 0 {
      AgesEmpty(ts[..|ts| - 1]);
      assert forall t :: t in ts <==> t in ts[..|ts| - 1] || t == ts[|ts| - 1];
    }
  }

  // ---------------------------------------------------------------- summary

  /** `exps.reduce((sum, e) => sum + (parseFloat(e.usdt_amount) || 0), 0)`. */
  function TotalExpenses(exps: seq<Expense>): real {
    if |exps| == 0 then 0.0 else TotalExpenses(exps[..|exps| - 1]) + Num(exps[|exps| - 1].usdt_amount)
  }

  /** The summary the report is written from, its amounts before display formatting. */
  datatype Summary = Summary(
    period: string,
    totalTransactions: nat, completedCount: nat, pendingCount: nat, frozenCount: nat, returnedCount: nat,
    totalProfit: real, commission: real, transferFee: real, exchangeProfit: real, violationPenalty: real,
    currencyDistribution: seq<Entry<real>>,
    avgCustomerAge: Option<real>, elderlyCustomers: nat,
    totalExpenses: real, expenseCount: nat,
    netProfit: real)

  /**
   * `buildDataSummary`. `round2` is `parseFloat(x.toFixed(2))`: net profit
   * is the total profit rounded to cents minus the expenses.
   */
  method BuildDataSummary(transactions: seq<Txn>, expenses: seq<Expense>, timePeriod: string,
                          now: Today, midnight: Midnight, round2: real -> real) returns (s: Summary)
    ensures var start := StartMs(timePeriod, now, midnight);
      var txns := Filter(transactions, TxnSince(start));
      var exps := Filter(expenses, ExpenseSince(start));
      var completed := Filter(txns, IsCompleted);
      && s.totalTransactions == |txns| && s.expenseCount == |exps|
      && s.completedCount == |completed| && s.pendingCount == |Filter(txns, IsPending)|
      && s.frozenCount == |Filter(txns, IsFrozen)| && s.returnedCount == |Filter(txns, IsReturned)|
      && s.completedCount + s.pendingCount + s.frozenCount + s.returnedCount <= s.totalTransactions
      && Profit(s.commission, s.transferFee, s.exchangeProfit, s.violationPenalty) == ProfitUpTo(completed, |completed|)
      && s.totalProfit == s.commission + s.transferFee + s.exchangeProfit + s.violationPenalty
      && s.currencyDistribution == CurrencyMapUpTo(txns, |txns|)
      && s.avgCustomerAge == AvgAge(Ages(txns)) && s.elderlyCustomers == ElderlyCount(Ages(txns))
      && s.totalExpenses == TotalExpenses(exps)
      && s.netProfit == round2(s.totalProfit) - s.totalExpenses
  {
    var start := StartMs(timePeriod, now, midnight);
    var txns := Filter(transactions, TxnSince(start));
    var exps := Filter(expenses, ExpenseSince(start));
    var completed := Filter(txns, IsCompleted);
    var pending := Filter(txns, IsPending);
    var frozen := Filter(txns, IsFrozen);
    var returned := Filter(txns, IsReturned);
    StatusCountsWithinTotal(txns);
    var p := CompletedProfit(completed);
    var currencyMap := CurrencyDistribution(txns);
    var ages := Ages(txns);
    var totalExpenseUsdt := TotalExpenses(exps);
    var totalProfit := p.commission + p.fee + p.exchange + p.violation;
    s := Summary(timePeriod, |txns|, |completed|, |pending|, |frozen|, |returned|,
                 totalProfit, p.commission, p.fee, p.exchange, p.violation,
                 currencyMap, AvgAge(ages), ElderlyCount(ages),
                 totalExpenseUsdt, |exps|, round2(totalProfit) - totalExpenseUsdt);
  }
}
