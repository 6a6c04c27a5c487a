/**
 * The dashboard's figures (`Dashboard`): the period filter, the deposit
 * metrics, the profit metrics and the per-account statistics.
 */
module Dashboard {
  import opened Wrappers
  import opened Text
  import opened Ledger
  import opened Dict
  import opened DateRange

  // ---------------------------------------------------------------- period

  /** The period test of `getFilteredTransactions` for a mode other than `all`. */
  predicate InPeriod(f: DateFilter, t: Txn) {
    match DepositOrCreated(t)
    case None => false
    case Some(d) =>
      if f.filterMode == "year" then ParseInt(f.year) == Some(d.year)
      else if f.filterMode == "month" then ParseInt(f.year) == Some(d.year) && ParseInt(f.month) == Some(d.month)
      else if f.filterMode == "day" then
        ParseInt(f.year) == Some(d.year) && ParseInt(f.month) == Some(d.month) && ParseInt(f.day) == Some(d.day)
      else true
  }

  /** `getFilteredTransactions`. */
  function FilteredTransactions(ts: seq<Txn>, f: DateFilter): (r: seq<Txn>)
    ensures f.filterMode == "all" ==> r == ts
    ensures f.filterMode != "all" ==> forall t :: t in r <==> t in ts && InPeriod(f, t)
    ensures Subsequence(r, ts)
  {
    if f.filterMode == "all" then
      FilterAll(ts, t => true);
      FilterSubsequence(ts, t => true);
      ts
    else
      FilterSubsequence(ts, t => InPeriod(f, t));
      Filter(ts, t => InPeriod(f, t))
  }

  /** The day, month and year modes are nested: a transaction of the day is one of its month and its year. */
  lemma PeriodsNest(ts: seq<Txn>, f: DateFilter, t: Txn)
    requires f.filterMode == "day" && t in FilteredTransactions(ts, f)
    ensures t in FilteredTransactions(ts, f.(filterMode := "month"))
    ensures t in FilteredTransactions(ts, f.(filterMode := "year"))
  {
  }

  /** A transaction whose date does not parse is shown only in the `all` mode. */
  lemma InvalidDateOnlyInAll(ts: seq<Txn>, f: DateFilter, t: Txn)
    requires DepositOrCreated(t).None? && f.filterMode != "all"
    ensures t !in FilteredTransactions(ts, f)
  {
  }

  // ---------------------------------------------------------------- deposits

  /** `s.replace(/[一-龥]/g, '')`. */
  function StripHan(s: string): (r: string)
    ensures |r| <= |s|
    ensures forall i :: 0 <= i < |r| ==> !IsHan(r[i])
    ensures (forall i :: 0 <= i < |s| ==> !IsHan(s[i])) ==> r == s
  {
    if |s| == 0 then ""
    else StripHan(s[..|s| - 1]) + (if IsHan(s[|s| - 1]) then "" else [s[|s| - 1]])
  }

  /** The `depositsByCurrency` key: the currency without Chinese characters, or `OTHER`. */
  function CurrencyCode(cur: Option<string>): (k: string)
    ensures k != ""
    ensures forall i :: 0 <= i < |k| ==> !IsHan(k[i])
    ensures cur.None? || StripHan(cur.value) == "" ==> k == "OTHER"
  {
    if cur.Some? && StripHan(cur.value) != "" then StripHan(cur.value) else "OTHER"
  }

  datatype Bucket = Bucket(amount: real, count: nat)

  function BucketCount(b: Bucket): int { b.count }

  function BucketAmount(b: Bucket): real { b.amount }

  /** Counted in the books: not returned and not frozen. */
  predicate Effective(t: Txn) { !Special(t) }

  /** The sum of `t.deposit_amount || 0`. */
  function SumDeposits(ts: seq<Txn>): real {
    if |ts| == 0 then 0.0 else SumDeposits(ts[..|ts| - 1]) + Num(ts[|ts| - 1].deposit_amount)
  }

  /** `acc[code].amount += amount; acc[code].count += 1`. */
  function AddDeposit(amount: real): Bucket -> Bucket {
    (b: Bucket) => Bucket(b.amount + amount, b.count + 1)
  }

  /** `depositsByCurrency`: one bucket per currency code, in first-seen order. */
  function DepositsByCurrency(ts: seq<Txn>): (d: seq<Entry<Bucket>>)
    ensures DistinctKeys(d)
  {
    if |ts| == 0 then []
    else
      var acc := DepositsByCurrency(ts[..|ts| - 1]);
      var t := ts[|ts| - 1];
      if Special(t) then acc
      else
        UpsertKeys(acc, CurrencyCode(t.currency), Bucket(0.0, 0), AddDeposit(Num(t.deposit_amount)));
        Upsert(acc, CurrencyCode(t.currency), Bucket(0.0, 0), AddDeposit(Num(t.deposit_amount)))
  }

  /** How the counted transactions of a list grow by its last element. */
  lemma EffectiveStep(ts: seq<Txn>)
    requires |ts| > 0
    ensures var f := Filter(ts, Effective);
      var f0 := Filter(ts[..|ts| - 1], Effective);
      if Special(ts[|ts| - 1]) then f == f0
      else |f| > 0 && f[..|f| - 1] == f0 && f[|f| - 1] == ts[|ts| - 1]
  {
    var f := Filter(ts, Effective);
    var f0 := Filter(ts[..|ts| - 1], Effective);
    if !Special(ts[|ts| - 1]) {
      assert f == f0 + [ts[|ts| - 1]];
      assert f[..|f| - 1] == f0;
    }
  }

  /** The buckets' counts add up to the number of counted transactions. */
  lemma {:induction false} DepositCounts(ts: seq<Txn>)
    ensures TotalInt(DepositsByCurrency(ts), BucketCount) == |Filter(ts, Effective)|
  {
    if |ts| > 0 {
      var t := ts[|ts| - 1];
      DepositCounts(ts[..|ts| - 1]);
      EffectiveStep(ts);
      if !Special(t) {
        UpsertTotalInt(DepositsByCurrency(ts[..|ts| - 1]), CurrencyCode(t.currency), Bucket(0.0, 0),
          BucketCount, AddDeposit(Num(t.deposit_amount)));
      }
    }
  }

  /** The buckets' amounts add up to the counted transactions' deposits. */
  lemma {:induction false} DepositAmounts(ts: seq<Txn>)
    ensures TotalReal(DepositsByCurrency(ts), BucketAmount) == SumDeposits(Filter(ts, Effective))
  {
    if |ts| > 0 {
      var t := ts[|ts| - 1];
      DepositAmounts(ts[..|ts| - 1]);
      EffectiveStep(ts);
      if !Special(t) {
        UpsertTotalReal(DepositsByCurrency(ts[..|ts| - 1]), CurrencyCode(t.currency), Bucket(0.0, 0),
          BucketAmount, AddDeposit(Num(t.deposit_amount)));
      }
    }
  }

  datatype Metrics = Metrics(depositsByCurrency: seq<Entry<Bucket>>, totalTransactions: nat, totalDepositUsdt: real)

  /** `calculateMetrics`. */
  function CalculateMetrics(ts: seq<Txn>, f: DateFilter): (m: Metrics)
    ensures var effective := Filter(FilteredTransactions(ts, f), Effective);
      && m.totalTransactions == |effective|
      && TotalInt(m.depositsByCurrency, BucketCount) == m.totalTransactions
      && TotalReal(m.depositsByCurrency, BucketAmount) == SumDeposits(effective)
      && m.totalDepositUsdt == SumUsdt(effective)
      && DistinctKeys(m.depositsByCurrency)
  {
    var all := FilteredTransactions(ts, f);
    var effective := Filter(all, Effective);
    DepositCounts(all);
    DepositAmounts(all);
    Metrics(DepositsByCurrency(all), |effective|, SumUsdt(effective))
  }

  // ---------------------------------------------------------------- profit

  /** The running totals of `calculateProfitMetrics`: actual (completed only) and estimated. */
  datatype Totals = Totals(
    commission: real, transferFee: real, exchangeRateProfit: real, violationPenalty: real,
    frozenFunds: real, completedCount: nat,
    estimatedCommission: real, estimatedTransferFee: real, estimatedExchangeRateProfit: real,
    estimatedViolationPenalty: real, estimatedCount: nat)

  const NoTotals := Totals(0.0, 0.0, 0.0, 0.0, 0.0, 0, 0.0, 0.0, 0.0, 0.0, 0)

  function Plus(a: Totals, b: Totals): Totals {
    Totals(
      a.commission + b.commission, a.transferFee + b.transferFee,
      a.exchangeRateProfit + b.exchangeRateProfit, a.violationPenalty + b.violationPenalty,
      a.frozenFunds + b.frozenFunds, a.completedCount + b.completedCount,
      a.estimatedCommission + b.estimatedCommission, a.estimatedTransferFee + b.estimatedTransferFee,
      a.estimatedExchangeRateProfit + b.estimatedExchangeRateProfit,
      a.estimatedViolationPenalty + b.estimatedViolationPenalty, a.estimatedCount + b.estimatedCount)
  }

  /** What a frozen transaction ties up: D/R when both are positive, else nothing. */
  function FrozenUsdt(deposit: real, rate: real): real {
    if deposit > 0.0 && rate > 0.0 then deposit / rate else 0.0
  }

  /** One transaction's contribution to the totals: one pass of the loop body. */
  function Share(t: Txn): Totals {
    var deposit := Num(t.deposit_amount);
    var rate := Num(t.exchange_rate);
    var fee := Num(t.transfer_fee);
    var penalty := Num(t.violation_penalty);
    if StatusIs(t, Returned) then
      Totals(0.0, 0.0, 0.0, penalty, 0.0, 0, 0.0, 0.0, 0.0, penalty, 0)
    else if StatusIs(t, FrozenBlocked) || StatusIs(t, FrozenProcessing) then
      Totals(0.0, 0.0, 0.0, penalty, FrozenUsdt(deposit, rate), 0, 0.0, 0.0, 0.0, penalty, 0)
    else if deposit <= 0.0 || rate <= 0.0 then NoTotals
    else
      var commission := CommissionUsdt(deposit, Num(t.commission_percentage), rate);
      var gain := ExchangeGain(Num(t.acceptance_usdt), deposit / rate);
      if StatusIs(t, Completed) then Totals(commission, fee, gain, penalty, 0.0, 1, commission, fee, gain, penalty, 1)
      else Totals(0.0, 0.0, 0.0, penalty, 0.0, 0, commission, fee, gain, penalty, 1)
  }

  /** The totals over the first `n` transactions, in order. */
  function AccumulateUpTo(ts: seq<Txn>, n: nat): Totals
    requires n <= |ts|
  {
    if n == 0 then NoTotals else Plus(AccumulateUpTo(ts, n - 1), Share(ts[n - 1]))
  }

  /** The totals over a whole list. */
  function Accumulate(ts: seq<Txn>): Totals {
    AccumulateUpTo(ts, |ts|)
  }

  /** What `calculateProfitMetrics` returns. */
  datatype ProfitMetrics = ProfitMetrics(
    commission: real, transferFee: real, exchangeRateProfit: real, violationPenalty: real,
    frozenFunds: real, profit: real, completedCount: nat,
    estimatedCommission: real, estimatedTransferFee: real, estimatedExchangeRateProfit: real,
    estimatedViolationPenalty: real, estimatedProfit: real, estimatedCount: nat)

  /** The returned object, with each total profit formed from its four parts. */
  function Report(a: Totals): ProfitMetrics {
    ProfitMetrics(
      a.commission, a.transferFee, a.exchangeRateProfit, a.violationPenalty, a.frozenFunds,
      a.commission + a.transferFee + a.exchangeRateProfit + a.violationPenalty, a.completedCount,
      a.estimatedCommission, a.estimatedTransferFee, a.estimatedExchangeRateProfit, a.estimatedViolationPenalty,
      a.estimatedCommission + a.estimatedTransferFee + a.estimatedExchangeRateProfit + a.estimatedViolationPenalty,
      a.estimatedCount)
  }

  /**
   * `calculateProfitMetrics`: the period's transactions, then one pass that
   * updates eleven accumulators. Both profits are commission + transfer fee
   * + exchange profit + penalty; a completed transaction is counted in the
   * estimate too, and both penalty totals agree.
   */
  method CalculateProfitMetrics(ts: seq<Txn>, f: DateFilter) returns (m: ProfitMetrics)
    ensures m == Report(Accumulate(FilteredTransactions(ts, f)))
    ensures m.profit == m.commission + m.transferFee + m.exchangeRateProfit + m.violationPenalty
    ensures m.estimatedProfit
         == m.estimatedCommission + m.estimatedTransferFee + m.estimatedExchangeRateProfit + m.estimatedViolationPenalty
    ensures m.completedCount <= m.estimatedCount
    ensures m.violationPenalty == m.estimatedViolationPenalty
  {
    var filteredTransactions := FilteredTransactions(ts, f);
    var totals := ProfitTotals(filteredTransactions);
    CompletedWithinEstimated(filteredTransactions, |filteredTransactions|);
    m := Report(totals);
  }

  /** The loop of `calculateProfitMetrics` over the period's transactions. */
  method ProfitTotals(filteredTransactions: seq<Txn>) returns (totals: Totals)
    ensures totals == Accumulate(filteredTransactions)
  {
    var totalCommission, totalTransferFee, totalExchangeRateProfit, totalViolationPenalty := 0.0, 0.0, 0.0, 0.0;
    var completedCount: nat := 0;
    var estimatedCommission, estimatedTransferFee, estimatedExchangeRateProfit, estimatedViolationPenalty := 0.0, 0.0, 0.0, 0.0;
    var estimatedCount: nat := 0;
    var totalFrozenFunds := 0.0;
    for i := 0 to |filteredTransactions|
      invariant totalCommission == AccumulateUpTo(filteredTransactions, i).commission
      invariant totalTransferFee == AccumulateUpTo(filteredTransactions, i).transferFee
      invariant totalExchangeRateProfit == AccumulateUpTo(filteredTransactions, i).exchangeRateProfit
      invariant totalViolationPenalty == AccumulateUpTo(filteredTransactions, i).violationPenalty
      invariant totalFrozenFunds == AccumulateUpTo(filteredTransactions, i).frozenFunds
      invariant completedCount == AccumulateUpTo(filteredTransactions, i).completedCount
      invariant estimatedCommission == AccumulateUpTo(filteredTransactions, i).estimatedCommission
      invariant estimatedTransferFee == AccumulateUpTo(filteredTransactions, i).estimatedTransferFee
      invariant estimatedExchangeRateProfit == AccumulateUpTo(filteredTransactions, i).estimatedExchangeRateProfit
      invariant estimatedViolationPenalty == AccumulateUpTo(filteredTransactions, i).estimatedViolationPenalty
      invariant estimatedCount == AccumulateUpTo(filteredTransactions, i).estimatedCount
    {
      var t := filteredTransactions[i];
      var depositAmount := Num(t.deposit_amount);
      var exchangeRate := Num(t.exchange_rate);
      var feeUsdt := Num(t.transfer_fee);
      var violationPenalty := Num(t.violation_penalty);

      if t.fund_status == Some(Returned) {
        totalViolationPenalty := totalViolationPenalty + violationPenalty;
        estimatedViolationPenalty := estimatedViolationPenalty + violationPenalty;
        continue;
      }
      if t.fund_status == Some(FrozenBlocked) {
        if depositAmount > 0.0 && exchangeRate > 0.0 {
          totalFrozenFunds := totalFrozenFunds + depositAmount / exchangeRate;
        }
        totalViolationPenalty := totalViolationPenalty + violationPenalty;
        estimatedViolationPenalty := estimatedViolationPenalty + violationPenalty;
        continue;
      }
      if t.fund_status == Some(FrozenProcessing) {
        if depositAmount > 0.0 && exchangeRate > 0.0 {
          totalFrozenFunds := totalFrozenFunds + depositAmount / exchangeRate;
        }
        totalViolationPenalty := totalViolationPenalty + violationPenalty;
        estimatedViolationPenalty := estimatedViolationPenalty + violationPenalty;
        continue;
      }
      if depositAmount <= 0.0 || exchangeRate <= 0.0 {
        continue;
      }

      var commissionPct := Num(t.commission_percentage);
      var commissionUsdt := CommissionUsdt(depositAmount, commissionPct, exchangeRate);
      var initialUsdt := depositAmount / exchangeRate;

      totalViolationPenalty := totalViolationPenalty + violationPenalty;
      estimatedViolationPenalty := estimatedViolationPenalty + violationPenalty;

      if t.fund_status == Some(Completed) {
        var acceptanceUsdt := Num(t.acceptance_usdt);
        var actualAcceptance := if acceptanceUsdt > 0.0 then acceptanceUsdt else initialUsdt;
        var exchangeProfit := actualAcceptance - initialUsdt;
        totalCommission := totalCommission + commissionUsdt;
        totalTransferFee := totalTransferFee + feeUsdt;
        totalExchangeRateProfit := totalExchangeRateProfit + exchangeProfit;
        completedCount := completedCount + 1;
      }

      var acceptanceUsdt := Num(t.acceptance_usdt);
      var estimatedAcceptance := if acceptanceUsdt > 0.0 then acceptanceUsdt else initialUsdt;
      var estimatedExchangeProfit := estimatedAcceptance - initialUsdt;
      estimatedCommission := estimatedCommission + commissionUsdt;
      estimatedTransferFee := estimatedTransferFee + feeUsdt;
      estimatedExchangeRateProfit := estimatedExchangeRateProfit + estimatedExchangeProfit;
      estimatedCount := estimatedCount + 1;
    }
    totals := Totals(totalCommission, totalTransferFee, totalExchangeRateProfit, totalViolationPenalty,
                     totalFrozenFunds, completedCount, estimatedCommission, estimatedTransferFee,
                     estimatedExchangeRateProfit, estimatedViolationPenalty, estimatedCount);
  }

  /** A returned transaction contributes its violation penalty, to both totals, and nothing else. */
  lemma ReturnedOnlyPenalty(t: Txn)
    requires StatusIs(t, Returned)
    ensures var s := Share(t);
      s.violationPenalty == s.estimatedViolationPenalty == Num(t.violation_penalty)
      && s.commission == s.transferFee == s.exchangeRateProfit == s.frozenFunds == 0.0
      && s.estimatedCommission == s.estimatedTransferFee == s.estimatedExchangeRateProfit == 0.0
      && s.completedCount == s.estimatedCount == 0
  {
  }

  /**
   * A frozen transaction contributes its penalty and, when deposit and rate
   * are positive, D/R to the frozen funds; never any commission, fee or
   * exchange profit.
   */
  lemma FrozenOnlyPenaltyAndFunds(t: Txn)
    requires StatusIs(t, FrozenBlocked) || StatusIs(t, FrozenProcessing)
    ensures var s := Share(t);
      s.violationPenalty == s.estimatedViolationPenalty == Num(t.violation_penalty)
      && (Num(t.deposit_amount) > 0.0 && Num(t.exchange_rate) > 0.0 ==>
            s.frozenFunds * Num(t.exchange_rate) == Num(t.deposit_amount))
      && (!(Num(t.deposit_amount) > 0.0 && Num(t.exchange_rate) > 0.0) ==> s.frozenFunds == 0.0)
      && s.commission == s.transferFee == s.exchangeRateProfit == 0.0
      && s.estimatedCommission == s.estimatedTransferFee == s.estimatedExchangeRateProfit == 0.0
      && s.completedCount == s.estimatedCount == 0
  {
  }

  /** A transaction in no special status with a non-positive deposit or rate contributes nothing, not even its penalty. */
  lemma InvalidContributesNothing(t: Txn)
    requires !Special(t) && (Num(t.deposit_amount) <= 0.0 || Num(t.exchange_rate) <= 0.0)
    ensures Share(t) == NoTotals
  {
  }

  /**
   * A valid transaction adds commission (D·C/100)/R, its transfer fee
   * unconverted (as USDT), and acceptance − D/R as exchange profit (0 when
   * no acceptance is recorded) to the estimated totals, and the same to the
   * actual totals exactly when it is completed; its penalty goes to both.
   */
  lemma ValidShare(t: Txn)
    requires !Special(t) && Num(t.deposit_amount) > 0.0 && Num(t.exchange_rate) > 0.0
    ensures var s := Share(t);
      var d, r, c := Num(t.deposit_amount), Num(t.exchange_rate), Num(t.commission_percentage);
      && s.estimatedCommission * r == d * c / 100.0
      && s.estimatedTransferFee == Num(t.transfer_fee)
      && (Num(t.acceptance_usdt) <= 0.0 ==> s.estimatedExchangeRateProfit == 0.0)
      && (Num(t.acceptance_usdt) > 0.0 ==> s.estimatedExchangeRateProfit == Num(t.acceptance_usdt) - d / r)
      && s.violationPenalty == s.estimatedViolationPenalty == Num(t.violation_penalty)
      && s.estimatedCount == 1 && s.frozenFunds == 0.0
      && (StatusIs(t, Completed) ==>
            s.commission == s.estimatedCommission && s.transferFee == s.estimatedTransferFee
            && s.exchangeRateProfit == s.estimatedExchangeRateProfit && s.completedCount == 1)
      && (!StatusIs(t, Completed) ==>
            s.commission == s.transferFee == s.exchangeRateProfit == 0.0 && s.completedCount == 0)
  {
    var d, r, c := Num(t.deposit_amount), Num(t.exchange_rate), Num(t.commission_percentage);
    assert d * (c / 100.0) / r * r == d * c / 100.0;
  }

  /**
   * Every completed transaction counted in the actual totals is counted in
   * the estimated ones, and both penalty totals add the same penalties.
   */
  lemma {:induction false} CompletedWithinEstimated(ts: seq<Txn>, n: nat)
    requires n <= |ts|
    ensures AccumulateUpTo(ts, n).completedCount <= AccumulateUpTo(ts, n).estimatedCount
    ensures AccumulateUpTo(ts, n).violationPenalty == AccumulateUpTo(ts, n).estimatedViolationPenalty
  {
    if n > 0 {
      CompletedWithinEstimated(ts, n - 1);
    }
  }

  /** Without frozen transactions there are no frozen funds. */
  lemma {:induction false} FrozenFundsOnlyFromFrozen(ts: seq<Txn>, n: nat)
    requires n <= |ts|
    requires forall t :: t in ts ==> !StatusIs(t, FrozenBlocked) && !StatusIs(t, FrozenProcessing)
    ensures AccumulateUpTo(ts, n).frozenFunds == 0.0
  {
    if n > 0 {
      FrozenFundsOnlyFromFrozen(ts, n - 1);
    }
  }

  // ---------------------------------------------------------------- accounts

  /** One receiving account's tally. */
  datatype AccountDetail = AccountDetail(count: nat, amount: real)

  /** A company's tally in one currency, with the per-account breakdown. */
  datatype CurrencyStats = CurrencyStats(count: nat, totalAmount: real, accountDetails: seq<Entry<AccountDetail>>)

  /** `stats`: company → currency → tally. */
  type AccountStatsTable = seq<Entry<seq<Entry<CurrencyStats>>>>

  const UnknownCompany := "未知公司"
  const UnknownAccount := "未知账户"
  const UnknownCurrency := "XXX"

  /** `t.receiving_account_name || '未知公司'`. */
  function CompanyKey(t: Txn): string {
    if Truthy(t.receiving_account_name) then t.receiving_account_name.value else UnknownCompany
  }

  /** `t.currency?.substring(0, 3) || 'XXX'`. */
  function CurrencyKey(t: Txn): (k: string)
    ensures 0 < |k| <= 3
  {
    if Truthy(t.currency) then Prefix(t.currency.value, 3) else UnknownCurrency
  }

  /** `t.receiving_account_number || '未知账户'`. */
  function AccountKey(t: Txn): string {
    if Truthy(t.receiving_account_number) then t.receiving_account_number.value else UnknownAccount
  }

  function DetailCount(d: AccountDetail): int { d.count }
  function DetailAmount(d: AccountDetail): real { d.amount }

  /** `accountDetails[account].count += 1; ….amount += amount`. */
  function AddToDetail(amount: real): AccountDetail -> AccountDetail {
    (d: AccountDetail) => AccountDetail(d.count + 1, d.amount + amount)
  }

  /** The currency tally's own count and total, then the account's entry (created empty when new). */
  function AddToCurrency(account: string, amount: real): CurrencyStats -> CurrencyStats {
    (c: CurrencyStats) => CurrencyStats(c.count + 1, c.totalAmount + amount,
                                       Upsert(c.accountDetails, account, AccountDetail(0, 0.0), AddToDetail(amount)))
  }

  /** The company's entry for `currency` (created empty when new), updated. */
  function AddToCompany(currency: string, account: string, amount: real)
    : seq<Entry<CurrencyStats>> -> seq<Entry<CurrencyStats>>
  {
    (cs: seq<Entry<CurrencyStats>>) => Upsert(cs, currency, CurrencyStats(0, 0.0, []), AddToCurrency(account, amount))
  }

  /** One pass of the `forEach` body for a transaction in no special status. */
  function Tally(stats: AccountStatsTable, t: Txn): AccountStatsTable {
    Upsert(stats, CompanyKey(t), [], AddToCompany(CurrencyKey(t), AccountKey(t), Num(t.deposit_amount)))
  }

  /** The table after tallying `ts` in order. */
  function AccountStatsOf(ts: seq<Txn>): AccountStatsTable {
    if |ts| == 0 then []
    else
      var prev := AccountStatsOf(ts[..|ts| - 1]);
      var t := ts[|ts| - 1];
      if Special(t) then prev else Tally(prev, t)
  }

  /** A currency tally whose count and amount are the sums over its accounts. */
  predicate CurrencyConsistent(c: CurrencyStats) {
    DistinctKeys(c.accountDetails)
    && c.count == TotalInt(c.accountDetails, DetailCount)
    && c.totalAmount == TotalReal(c.accountDetails, DetailAmount)
  }

  predicate CompanyConsistent(cs: seq<Entry<CurrencyStats>>) {
    DistinctKeys(cs) && forall i :: 0 <= i < |cs| ==> CurrencyConsistent(cs[i].val)
  }

  /** Distinct keys at both levels, and every tally the sum of its accounts. */
  predicate Consistent(stats: AccountStatsTable) {
    DistinctKeys(stats) && forall i :: 0 <= i < |stats| ==> CompanyConsistent(stats[i].val)
  }

  lemma AddToCurrencyConsistent(c: CurrencyStats, account: string, amount: real)
    requires CurrencyConsistent(c)
    ensures CurrencyConsistent(AddToCurrency(account, amount)(c))
  {
    var init := AccountDetail(0, 0.0);
    UpsertKeys(c.accountDetails, account, init, AddToDetail(amount));
    UpsertTotalInt(c.accountDetails, account, init, DetailCount, AddToDetail(amount));
    UpsertTotalReal(c.accountDetails, account, init, DetailAmount, AddToDetail(amount));
  }

  lemma AddToCompanyConsistent(cs: seq<Entry<CurrencyStats>>, currency: string, account: string, amount: real)
    requires CompanyConsistent(cs)
    ensures CompanyConsistent(AddToCompany(currency, account, amount)(cs))
  {
    var init := CurrencyStats(0, 0.0, []);
    var before := Get(cs, currency).GetOr(init);
    assert CurrencyConsistent(before) by {
      match Dict.IndexOf(cs, currency)
      case Some(i) =>
      case None =>
    }
    AddToCurrencyConsistent(before, account, amount);
    UpsertKeys(cs, currency, init, AddToCurrency(account, amount));
    UpsertPreserves(cs, currency, init, AddToCurrency(account, amount), CurrencyConsistent);
  }

  /** Tallying a transaction keeps the table consistent. */
  lemma TallyConsistent(stats: AccountStatsTable, t: Txn)
    requires Consistent(stats)
    ensures Consistent(Tally(stats, t))
  {
    var f := AddToCompany(CurrencyKey(t), AccountKey(t), Num(t.deposit_amount));
    var before := Get(stats, CompanyKey(t)).GetOr([]);
    assert CompanyConsistent(before) by {
      match Dict.IndexOf(stats, CompanyKey(t))
      case Some(i) =>
      case None =>
    }
    AddToCompanyConsistent(before, CurrencyKey(t), AccountKey(t), Num(t.deposit_amount));
    UpsertKeys(stats, CompanyKey(t), [], f);
    UpsertPreserves(stats, CompanyKey(t), [], f, CompanyConsistent);
  }

  /**
   * `accountStats`: the period's transactions outside the three special
   * statuses, tallied by company, currency and account; every
   * company/currency total is the sum over its accounts.
   */
  method AccountStats(ts: seq<Txn>, f: DateFilter) returns (stats: AccountStatsTable)
    ensures stats == AccountStatsOf(FilteredTransactions(ts, f))
    ensures Consistent(stats)
  {
    var filteredTxns := FilteredTransactions(ts, f);
    stats := TallyAccounts(filteredTxns);
  }

  /** The `filteredTxns.forEach` loop of `accountStats`. */
  method TallyAccounts(filteredTxns: seq<Txn>) returns (stats: AccountStatsTable)
    ensures stats == AccountStatsOf(filteredTxns)
    ensures Consistent(stats)
  {
    stats := [];
    for i := 0 to |filteredTxns|
      invariant stats == AccountStatsOf(filteredTxns[..i])
      invariant Consistent(stats)
    {
      var t := filteredTxns[i];
      assert filteredTxns[..i + 1][..i] == filteredTxns[..i];
      if t.fund_status == Some(Returned) || t.fund_status == Some(FrozenBlocked)
         || t.fund_status == Some(FrozenProcessing) {
        continue;
      }
      var company := CompanyKey(t);
      var currency := CurrencyKey(t);
      var account := AccountKey(t);
      TallyConsistent(stats, t);
      stats := Upsert(stats, company, [], AddToCompany(currency, account, Num(t.deposit_amount)));
    }
    assert filteredTxns[..|filteredTxns|] == filteredTxns;
  }

  /** A special-status transaction leaves the table as it is. */
  lemma SpecialNotTallied(ts: seq<Txn>, t: Txn)
    requires Special(t)
    ensures AccountStatsOf(ts + [t]) == AccountStatsOf(ts)
  {
    assert (ts + [t])[..|ts|] == ts;
  }
}
