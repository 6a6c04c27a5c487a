/**
 * The profit report (`ProfitReportTable`): every dated transaction is
 * grouped by the month, quarter or year it was created in; each line adds
 * up the violation penalties of all its transactions and the commission,
 * fee and exchange profit of its completed ones; the lines are listed
 * newest period first.
 */
module ProfitReport {
  import opened Wrappers
  import opened Text
  import opened Ledger
  import opened Dict
  import opened Sorting

  /** One line of the report. */
  datatype Row = Row(key: string, labelText: string, sortKey: string, count: nat,
                     commission: real, fees: real, exchangeProfit: real, totalProfit: real, penalty: real)

  // ---------------------------------------------------------------- periods

  /** date-fns `yyyy`: the year of the era (`1 - y` for years up to 0), in at least four digits. */
  function YearText(year: int): (r: string)
    ensures |r| >= 4 && forall i :: 0 <= i < |r| ==> IsDigit(r[i])
    ensures 1 <= year < 10000 ==> |r| == 4 && DigitsValue(r) == year
  {
    var n: nat := if year > 0 then year else 1 - year;
    PadStartValue(NatToString(n), 4);
    ParseNatToString(n);
    if n < 10000 then NatToStringShort(n); PadStart(NatToString(n), 4)
    else PadStart(NatToString(n), 4)
  }

  /** date-fns `MM`: the month in two digits. */
  function MonthText(month: int): (r: string)
    ensures 1 <= month <= 12 ==> |r| == 2 && (forall i :: 0 <= i < 2 ==> IsDigit(r[i])) && DigitsValue(r) == month
  {
    if 1 <= month <= 12 then
      PadStartValue(NatToString(month), 2);
      ParseNatToString(month);
      NatToStringDigits(month, 2);
      PadStart(NatToString(month), 2)
    else PadStart(IntToString(month), 2)
  }

  /** `getQuarter`: months 1 to 3 are the first quarter, and so on. */
  function Quarter(month: int): (q: int)
    ensures 1 <= month <= 12 ==> 1 <= q <= 4 && 3 * (q - 1) < month <= 3 * q
  {
    (month - 1) / 3 + 1
  }

  /** The group key (which is also the sort key) and the label of a line. */
  datatype Period = Period(key: string, labelText: string)

  /**
   * The period a creation date falls in: `yyyy-MM` (label `yyyy年MM月`)
   * by month, `yyyy-Qq` (label `yyyy年第q季度`) by quarter, and `yyyy`
   * (label `yyyy年`) for any other report type.
   */
  function PeriodOf(reportType: string, d: Moment): Period {
    var y := YearText(d.year);
    if reportType == "month" then
      Period(y + "-" + MonthText(d.month), y + "年" + MonthText(d.month) + "月")
    else if reportType == "quarter" then
      var q := IntToString(Quarter(d.month));
      Period(y + "-Q" + q, y + "年第" + q + "季度")
    else Period(y, y + "年")
  }

  /** The position of a date's period on the time line: months, quarters or years counted from year 0. */
  function PeriodIndex(reportType: string, d: Moment): int {
    if reportType == "month" then d.year * 12 + (d.month - 1)
    else if reportType == "quarter" then d.year * 4 + (Quarter(d.month) - 1)
    else d.year
  }

  /**
   * Keys follow the calendar (for years 1 to 9999): two dates share a key
   * exactly when they fall in the same period, and one key sorts before
   * another exactly when its period is earlier. So sorting by descending
   * key lists the newest period first.
   */
  lemma KeysFollowPeriods(reportType: string, a: Moment, b: Moment)
    requires 1 <= a.year < 10000 && 1 <= b.year < 10000
    requires 1 <= a.month <= 12 && 1 <= b.month <= 12
    ensures PeriodOf(reportType, a).key == PeriodOf(reportType, b).key
        <==> PeriodIndex(reportType, a) == PeriodIndex(reportType, b)
    ensures StrLess(PeriodOf(reportType, a).key, PeriodOf(reportType, b).key)
        <==> PeriodIndex(reportType, a) < PeriodIndex(reportType, b)
  {
    if reportType == "month" {
      MonthKeysFollow(a, b);
    } else if reportType == "quarter" {
      QuarterKeysFollow(a, b);
    } else {
      DigitOrder(YearText(a.year), YearText(b.year));
    }
  }

  lemma MonthKeysFollow(a: Moment, b: Moment)
    requires 1 <= a.year < 10000 && 1 <= b.year < 10000
    requires 1 <= a.month <= 12 && 1 <= b.month <= 12
    ensures PeriodOf("month", a).key == PeriodOf("month", b).key <==> PeriodIndex("month", a) == PeriodIndex("month", b)
    ensures StrLess(PeriodOf("month", a).key, PeriodOf("month", b).key) <==> PeriodIndex("month", a) < PeriodIndex("month", b)
  {
    MonthKeysEqual(a, b);
    var ya, yb, ma, mb := YearText(a.year), YearText(b.year), MonthText(a.month), MonthText(b.month);
    assert StrLess(ya, yb) <==> a.year < b.year by { DigitOrder(ya, yb); }
    assert StrLess(ma, mb) <==> a.month < b.month by { DigitOrder(ma, mb); }
    SubKeysOrder(ya, "-", ma, yb, mb);
    CalendarOrder(a.year, a.month - 1, b.year, b.month - 1, 12);
  }

  lemma MonthKeysEqual(a: Moment, b: Moment)
    requires 1 <= a.year < 10000 && 1 <= b.year < 10000
    requires 1 <= a.month <= 12 && 1 <= b.month <= 12
    ensures PeriodOf("month", a).key == PeriodOf("month", b).key <==> a.year == b.year && a.month == b.month
  {
    var ya, yb, ma, mb := YearText(a.year), YearText(b.year), MonthText(a.month), MonthText(b.month);
    if ya + "-" + ma == yb + "-" + mb {
      SameShapeParts(ya, "-", ma, yb, mb);
    }
  }

  lemma QuarterKeysFollow(a: Moment, b: Moment)
    requires 1 <= a.year < 10000 && 1 <= b.year < 10000
    requires 1 <= a.month <= 12 && 1 <= b.month <= 12
    ensures PeriodOf("quarter", a).key == PeriodOf("quarter", b).key <==> PeriodIndex("quarter", a) == PeriodIndex("quarter", b)
    ensures StrLess(PeriodOf("quarter", a).key, PeriodOf("quarter", b).key) <==> PeriodIndex("quarter", a) < PeriodIndex("quarter", b)
  {
    QuarterKeysEqual(a, b);
    var ya, yb := YearText(a.year), YearText(b.year);
    var qa, qb := Quarter(a.month), Quarter(b.month);
    var sa, sb := IntToString(qa), IntToString(qb);
    assert StrLess(ya, yb) <==> a.year < b.year by { DigitOrder(ya, yb); }
    assert StrLess(sa, sb) <==> qa < qb by {
      ParseNatToString(qa);
      ParseNatToString(qb);
      DigitOrder(sa, sb);
    }
    SubKeysOrder(ya, "-Q", sa, yb, sb);
    CalendarOrder(a.year, qa - 1, b.year, qb - 1, 4);
  }

  lemma QuarterKeysEqual(a: Moment, b: Moment)
    requires 1 <= a.year < 10000 && 1 <= b.year < 10000
    requires 1 <= a.month <= 12 && 1 <= b.month <= 12
    ensures PeriodOf("quarter", a).key == PeriodOf("quarter", b).key
        <==> a.year == b.year && Quarter(a.month) == Quarter(b.month)
  {
    var ya, yb := YearText(a.year), YearText(b.year);
    var sa, sb := IntToString(Quarter(a.month)), IntToString(Quarter(b.month));
    if ya + "-Q" + sa == yb + "-Q" + sb {
      SameShapeParts(ya, "-Q", sa, yb, sb);
      ParseNatToString(Quarter(a.month));
      ParseNatToString(Quarter(b.month));
    }
  }

  /** `year · n + k` with `0 <= k < n` orders by year, then by `k`. */
  lemma CalendarOrder(ya: int, ka: int, yb: int, kb: int, n: int)
    requires 0 <= ka < n && 0 <= kb < n
    ensures ya * n + ka < yb * n + kb <==> ya < yb || (ya == yb && ka < kb)
    ensures ya * n + ka == yb * n + kb <==> ya == yb && ka == kb
  {
    if ya < yb {
      assert (ya + 1) * n <= yb * n;
    } else if yb < ya {
      assert (yb + 1) * n <= ya * n;
    }
  }

  /** Keys `y + sep + k` with four-digit years compare by year, then by the rest. */
  lemma SubKeysOrder(ya: string, sep: string, ka: string, yb: string, kb: string)
    requires |ya| == |yb|
    ensures StrLess(ya + sep + ka, yb + sep + kb) <==> StrLess(ya, yb) || (ya == yb && StrLess(ka, kb))
  {
    assert ya + sep + ka == ya + (sep + ka);
    assert yb + sep + kb == yb + (sep + kb);
    StrLessConcat(ya, sep + ka, yb, sep + kb);
    StrLessConcat(sep, ka, sep, kb);
    StrLessIrreflexive(sep);
  }

  // ---------------------------------------------------------------- one transaction

  /** A line with nothing added yet. */
  function Fresh(p: Period): Row {
    Row(p.key, p.labelText, p.key, 0, 0.0, 0.0, 0.0, 0.0, 0.0)
  }

  /** The penalty is added to the line's penalty and to its total profit. */
  function AddPenalty(penalty: real): Row -> Row {
    (r: Row) => Row(r.key, r.labelText, r.sortKey, r.count, r.commission, r.fees, r.exchangeProfit,
                    r.totalProfit + penalty, r.penalty + penalty)
  }

  /** The profit parts of a completed transaction, in USDT. */
  datatype Profit = Profit(commission: real, fee: real, exchange: real)

  /** A completed transaction counts once and adds its parts to their columns and to the total. */
  function AddProfit(x: Profit): Row -> Row {
    (r: Row) => Row(r.key, r.labelText, r.sortKey, r.count + 1, r.commission + x.commission, r.fees + x.fee,
                    r.exchangeProfit + x.exchange, r.totalProfit + (x.commission + x.fee + x.exchange), r.penalty)
  }

  /**
   * The profit a transaction adds beyond its penalty: none when it is
   * returned or frozen, when its rate is not positive, or when it is not
   * completed.
   */
  function ProfitOf(t: Txn): (p: Option<Profit>)
    ensures p.Some? <==> StatusIs(t, Completed) && Num(t.exchange_rate) > 0.0
  {
    var deposit := Num(t.deposit_amount);
    var rate := Num(t.exchange_rate);
    if Special(t) || rate <= 0.0 || !StatusIs(t, Completed) then None
    else
      Some(Profit(CommissionUsdt(deposit, Num(t.commission_percentage), rate),
                  Num(t.transfer_fee) / rate,
                  ExchangeGain(Num(t.acceptance_usdt), deposit / rate)))
  }

  /**
   * The parts of a completed transaction: its commission `D · C / 100` and
   * its fee, both converted at its rate, and the recorded acceptance minus
   * `D / R` (nothing when no acceptance is recorded). The deposit itself is
   * not checked, so a completed transaction without a deposit still counts.
   */
  lemma CompletedProfit(t: Txn)
    requires StatusIs(t, Completed) && Num(t.exchange_rate) > 0.0
    ensures var p := ProfitOf(t).value; var r := Num(t.exchange_rate); var d := Num(t.deposit_amount);
      p.commission * r == d * Num(t.commission_percentage) / 100.0
      && p.fee * r == Num(t.transfer_fee)
      && p.exchange == (if Num(t.acceptance_usdt) > 0.0 then Num(t.acceptance_usdt) - d / r else 0.0)
  {
    var r := Num(t.exchange_rate);
    var d := Num(t.deposit_amount);
    var c := Num(t.commission_percentage);
    assert d * (c / 100.0) / r * r == d * c / 100.0;
  }

  // ---------------------------------------------------------------- grouping

  /** `groupedData`: the lines by key, in the order their keys first appeared. */
  type Groups = seq<Entry<Row>>

  /** The period of each date for a report type: the `format` patterns chosen by `reportType`. */
  function PeriodsOf(reportType: string): Moment -> Period {
    d => PeriodOf(reportType, d)
  }

  /**
   * One `forEach` pass, for the period function `period`: a transaction
   * without a creation date is skipped; one whose creation date is an
   * Invalid Date makes `format` throw, and the report fails (`None`).
   */
  function Step(g: Groups, period: Moment -> Period, t: Txn): Option<Groups> {
    if !DateSet(t.created_date) then Some(g)
    else
      match t.created_date.value.at
      case None => None
      case Some(d) =>
        var p := period(d);
        var g1 := Upsert(g, p.key, Fresh(p), AddPenalty(Num(t.violation_penalty)));
        match ProfitOf(t)
        case None => Some(g1)
        case Some(x) => Some(Upsert(g1, p.key, Fresh(p), AddProfit(x)))
  }

  /** The grouped data after the first `n` transactions. */
  function GroupedUpTo(ts: seq<Txn>, period: Moment -> Period, n: nat): Option<Groups>
    requires n <= |ts|
  {
    if n == 0 then Some([])
    else
      match GroupedUpTo(ts, period, n - 1)
      case None => None
      case Some(g) => Step(g, period, ts[n - 1])
  }

  /** The comparator `b.sortKey.localeCompare(a.sortKey)`: later keys first. */
  predicate NewerFirst(a: Row, b: Row) {
    StrLess(b.sortKey, a.sortKey)
  }

  /** `reportData`: the lines, sorted by descending sort key, or `None` when grouping throws. */
  function ReportData(ts: seq<Txn>, reportType: string): Option<seq<Row>> {
    match GroupedUpTo(ts, PeriodsOf(reportType), |ts|)
    case None => None
    case Some(g) => Some(Sort(Values(g), NewerFirst))
  }

  /** The `useMemo` computation of `reportData`: group the transactions, then sort the lines. */
  method BuildReport(transactions: seq<Txn>, reportType: string) returns (reportData: Option<seq<Row>>)
    ensures reportData == ReportData(transactions, reportType)
  {
    var groupedData := GroupTransactions(transactions, PeriodsOf(reportType));
    if groupedData.None? {
      return None;
    }
    reportData := Some(Sort(Values(groupedData.value), NewerFirst));
  }

  /** The `transactions.forEach` loop that fills `groupedData`, one transaction at a time. */
  method GroupTransactions(transactions: seq<Txn>, period: Moment -> Period) returns (groupedData: Option<Groups>)
    ensures groupedData == GroupedUpTo(transactions, period, |transactions|)
  {
    var g: Groups := [];
    for i := 0 to |transactions|
      invariant GroupedUpTo(transactions, period, i) == Some(g)
    {
      var next := AddTransaction(g, period, transactions[i]);
      if next.None? {
        FailureStays(transactions, period, i + 1, |transactions|);
        return None;
      }
      g := next.value;
    }
    return Some(g);
  }

  /** The body of the `forEach` callback: file one transaction's penalty and profit under its period. */
  method AddTransaction(groupedData: Groups, period: Moment -> Period, t: Txn) returns (next: Option<Groups>)
    ensures next == Step(groupedData, period, t)
  {
    if !DateSet(t.created_date) {
      return Some(groupedData);
    }
    if t.created_date.value.at.None? {
      return None;
    }
    var p := period(t.created_date.value.at.value);
    var key := p.key;
    var violationPenalty := Num(t.violation_penalty);
    next := Some(Upsert(groupedData, key, Fresh(p), AddPenalty(violationPenalty)));
    var depositAmount := Num(t.deposit_amount);
    var exchangeRate := Num(t.exchange_rate);
    if t.fund_status == Some(Returned) || t.fund_status == Some(FrozenBlocked) || t.fund_status == Some(FrozenProcessing) {
      return;
    }
    if exchangeRate <= 0.0 {
      return;
    }
    if t.fund_status == Some(Completed) {
      var feeNative := Num(t.transfer_fee);
      var commissionUsdt := CommissionUsdt(depositAmount, Num(t.commission_percentage), exchangeRate);
      var feeUsdt := feeNative / exchangeRate;
      var initialUsdt := depositAmount / exchangeRate;
      var acceptanceUsdt := Num(t.acceptance_usdt);
      var exchangeProfit := ExchangeGain(acceptanceUsdt, initialUsdt);
      next := Some(Upsert(next.value, key, Fresh(p), AddProfit(Profit(commissionUsdt, feeUsdt, exchangeProfit))));
    }
  }

  /** Once grouping has thrown, it stays thrown. */
  lemma {:induction false} FailureStays(ts: seq<Txn>, period: Moment -> Period, i: nat, n: nat)
    requires i <= n <= |ts| && GroupedUpTo(ts, period, i).None?
    ensures GroupedUpTo(ts, period, n).None?
  {
    if i < n {
      FailureStays(ts, period, i, n - 1);
      assert GroupedUpTo(ts, period, n) == None;
    }
  }

  /** The creation date is set but is an Invalid Date: `format` throws on it. */
  predicate InvalidCreation(t: Txn) {
    DateSet(t.created_date) && t.created_date.value.at.None?
  }

  /** The report fails exactly when some transaction has a set but unparseable creation date. */
  lemma {:induction false} GroupingFailsOnInvalidDate(ts: seq<Txn>, period: Moment -> Period, n: nat)
    requires n <= |ts|
    ensures GroupedUpTo(ts, period, n).None? <==> exists i :: 0 <= i < n && InvalidCreation(ts[i])
  {
    if n > 0 {
      GroupingFailsOnInvalidDate(ts, period, n - 1);
      var prev := GroupedUpTo(ts, period, n - 1);
      if prev.None? {
        var i :| 0 <= i < n - 1 && InvalidCreation(ts[i]);
        assert 0 <= i < n && InvalidCreation(ts[i]);
      } else {
        StepFails(prev.value, period, ts[n - 1]);
        if InvalidCreation(ts[n - 1]) {
          assert 0 <= n - 1 < n && InvalidCreation(ts[n - 1]);
        } else {
          assert forall i :: 0 <= i < n - 1 ==> !InvalidCreation(ts[i]);
        }
      }
    }
  }

  /** One pass throws exactly on a set but unparseable creation date. */
  lemma StepFails(g: Groups, period: Moment -> Period, t: Txn)
    ensures Step(g, period, t).None? <==> InvalidCreation(t)
  {
  }

  // ---------------------------------------------------------------- what the lines show

  /** A line's total profit is its penalty plus its commission, fees and exchange profit; it sorts by its key. */
  predicate Balanced(r: Row) {
    r.totalProfit == r.penalty + r.commission + r.fees + r.exchangeProfit && r.sortKey == r.key
  }

  /** A balanced line filed under its own key. */
  predicate Filed(e: Entry<Row>) {
    Balanced(e.val) && e.val.key == e.key
  }

  /** Every line is balanced and filed under its key, and no key has two lines. */
  predicate WellFormed(g: Groups) {
    DistinctKeys(g) && forall i :: 0 <= i < |g| ==> Filed(g[i])
  }

  /** An update that keeps lines balanced and under their keys. */
  ghost predicate KeepsFiled(f: Row -> Row) {
    forall r: Row :: Balanced(r) ==> Balanced(f(r)) && f(r).key == r.key
  }

  lemma AddsKeepFiled(penalty: real, x: Profit)
    ensures KeepsFiled(AddPenalty(penalty)) && KeepsFiled(AddProfit(x))
  {
  }

  /** Adding to the line of a period keeps the grouped data well formed. */
  lemma UpsertWellFormed(g: Groups, p: Period, f: Row -> Row)
    requires WellFormed(g) && KeepsFiled(f)
    ensures WellFormed(Upsert(g, p.key, Fresh(p), f))
  {
    GetHolds(g, p.key, Filed);
    var v := Get(g, p.key).GetOr(Fresh(p));
    assert Filed(Entry(p.key, v));
    UpsertKeys(g, p.key, Fresh(p), f);
    UpsertPreservesEntries(g, p.key, Fresh(p), f, Filed);
  }

  lemma StepWellFormed(g: Groups, period: Moment -> Period, t: Txn)
    requires WellFormed(g) && Step(g, period, t).Some?
    ensures WellFormed(Step(g, period, t).value)
  {
    if DateSet(t.created_date) {
      var p := period(t.created_date.value.at.value);
      var f := AddPenalty(Num(t.violation_penalty));
      AddsKeepFiled(Num(t.violation_penalty), Profit(0.0, 0.0, 0.0));
      UpsertWellFormed(g, p, f);
      if ProfitOf(t).Some? {
        AddsKeepFiled(0.0, ProfitOf(t).value);
        UpsertWellFormed(Upsert(g, p.key, Fresh(p), f), p, AddProfit(ProfitOf(t).value));
      }
    }
  }

  lemma {:induction false} GroupedWellFormed(ts: seq<Txn>, period: Moment -> Period, n: nat)
    requires n <= |ts| && GroupedUpTo(ts, period, n).Some?
    ensures WellFormed(GroupedUpTo(ts, period, n).value)
  {
    if n > 0 {
      GroupedWellFormed(ts, period, n - 1);
      StepWellFormed(GroupedUpTo(ts, period, n - 1).value, period, ts[n - 1]);
    }
  }

  function PenaltyOf(r: Row): real { r.penalty }
  function CountOf(r: Row): int { r.count }
  function SortKeyOf(r: Row): string { r.sortKey }

  /** The penalties of the dated transactions among the first `n`, whatever their status. */
  function DatedPenalty(ts: seq<Txn>, n: nat): real
    requires n <= |ts|
  {
    if n == 0 then 0.0
    else DatedPenalty(ts, n - 1) + (if DateSet(ts[n - 1].created_date) then Num(ts[n - 1].violation_penalty) else 0.0)
  }

  /** The number of dated, completed transactions with a positive rate among the first `n`. */
  function CompletedCount(ts: seq<Txn>, n: nat): nat
    requires n <= |ts|
  {
    if n == 0 then 0
    else CompletedCount(ts, n - 1) + (if DateSet(ts[n - 1].created_date) && ProfitOf(ts[n - 1]).Some? then 1 else 0)
  }

  lemma StepTotals(g: Groups, period: Moment -> Period, t: Txn)
    requires Step(g, period, t).Some?
    ensures TotalReal(Step(g, period, t).value, PenaltyOf)
         == TotalReal(g, PenaltyOf) + (if DateSet(t.created_date) then Num(t.violation_penalty) else 0.0)
    ensures TotalInt(Step(g, period, t).value, CountOf)
         == TotalInt(g, CountOf) + (if DateSet(t.created_date) && ProfitOf(t).Some? then 1 else 0)
  {
    if DateSet(t.created_date) {
      var p := period(t.created_date.value.at.value);
      var f := AddPenalty(Num(t.violation_penalty));
      UpsertTotalReal(g, p.key, Fresh(p), PenaltyOf, f);
      UpsertTotalInt(g, p.key, Fresh(p), CountOf, f);
      var g1 := Upsert(g, p.key, Fresh(p), f);
      if ProfitOf(t).Some? {
        var h := AddProfit(ProfitOf(t).value);
        UpsertTotalReal(g1, p.key, Fresh(p), PenaltyOf, h);
        UpsertTotalInt(g1, p.key, Fresh(p), CountOf, h);
      }
    }
  }

  lemma {:induction false} GroupedTotals(ts: seq<Txn>, period: Moment -> Period, n: nat)
    requires n <= |ts| && GroupedUpTo(ts, period, n).Some?
    ensures TotalReal(GroupedUpTo(ts, period, n).value, PenaltyOf) == DatedPenalty(ts, n)
    ensures TotalInt(GroupedUpTo(ts, period, n).value, CountOf) == CompletedCount(ts, n)
  {
    if n > 0 {
      GroupedTotals(ts, period, n - 1);
      StepTotals(GroupedUpTo(ts, period, n - 1).value, period, ts[n - 1]);
    }
  }

  /** The column totals of a dictionary are the sums over its values. */
  lemma {:induction false} TotalsOverValues(g: Groups)
    ensures TotalReal(g, PenaltyOf) == SumReal(Values(g), PenaltyOf)
    ensures TotalInt(g, CountOf) == SumInt(Values(g), CountOf)
  {
    if |g| > 0 {
      TotalsOverValues(g[..|g| - 1]);
      ValuesPrefix(g, |g| - 1);
    }
  }

  /**
   * The report's lines: each balanced, one per key, strictly newest key
   * first; the penalty column adds up to the penalties of all dated
   * transactions and the count column to the dated completed ones.
   */
  lemma ReportLines(ts: seq<Txn>, reportType: string)
    requires ReportData(ts, reportType).Some?
    ensures var rows := ReportData(ts, reportType).value;
      (forall i :: 0 <= i < |rows| ==> Balanced(rows[i]))
      && DistinctBy(rows, SortKeyOf)
      && (forall i :: 0 <= i < |rows| - 1 ==> StrLess(rows[i + 1].sortKey, rows[i].sortKey))
      && SumReal(rows, PenaltyOf) == DatedPenalty(ts, |ts|)
      && SumInt(rows, CountOf) == CompletedCount(ts, |ts|)
  {
    var period := PeriodsOf(reportType);
    var g := GroupedUpTo(ts, period, |ts|).value;
    GroupedWellFormed(ts, period, |ts|);
    GroupedTotals(ts, period, |ts|);
    SortedLines(g);
  }

  /** A well-formed grouping's lines, sorted newest key first. */
  lemma SortedLines(g: Groups)
    requires WellFormed(g)
    ensures var rows := Sort(Values(g), NewerFirst);
      (forall i :: 0 <= i < |rows| ==> Balanced(rows[i]))
      && DistinctBy(rows, SortKeyOf)
      && (forall i :: 0 <= i < |rows| - 1 ==> StrLess(rows[i + 1].sortKey, rows[i].sortKey))
      && SumReal(rows, PenaltyOf) == TotalReal(g, PenaltyOf)
      && SumInt(rows, CountOf) == TotalInt(g, CountOf)
  {
    var vs := Values(g);
    var rows := Sort(vs, NewerFirst);
    TotalsOverValues(g);
    SortSums(vs, NewerFirst, PenaltyOf, CountOf);
    forall i | 0 <= i < |rows|
      ensures Balanced(rows[i])
    {
      assert rows[i] in multiset(vs);
    }
    assert DistinctBy(vs, SortKeyOf);
    SortDistinctBy(vs, NewerFirst, SortKeyOf);
    NewerFirstAsymmetric();
    SortOrdered(vs, NewerFirst);
    forall i | 0 <= i < |rows| - 1
      ensures StrLess(rows[i + 1].sortKey, rows[i].sortKey)
    {
      StrLessTotal(rows[i + 1].sortKey, rows[i].sortKey);
    }
  }

  lemma NewerFirstAsymmetric()
    ensures Asymmetric(NewerFirst)
  {
    forall a: Row, b: Row | NewerFirst(a, b)
      ensures !NewerFirst(b, a)
    {
      StrLessAsymmetric(b.sortKey, a.sortKey);
    }
  }
}
