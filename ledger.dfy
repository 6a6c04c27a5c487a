/**
 * The stored `Transaction` record as the reports read it, and the readings
 * every report shares: `parseFloat(x) || 0`, the fund statuses and dates.
 *
 * A date is kept as the stored text together with what `new Date(text)`
 * yields in the viewer's time zone: its calendar fields and its instant in
 * milliseconds, or `None` for an Invalid Date.
 */
module Ledger {
  import opened Wrappers
  import opened Text

  /** A valid JavaScript `Date`: local calendar fields and the epoch instant. */
  datatype Moment = Moment(year: int, month: int, day: int, ms: int)

  /** A stored date string and its parse. */
  datatype DateValue = DateValue(text: string, at: Option<Moment>)

  datatype Txn = Txn(
    id: string,
    transaction_number: Option<string>,
    customer_name: Option<string>,
    customer_age: Option<real>,
    customer_nationality: Option<string>,
    receiving_account_name: Option<string>,
    receiving_account_number: Option<string>,
    bank_name: Option<string>,
    bank_account: Option<string>,
    bank_address: Option<string>,
    bank_location: Option<string>,
    currency: Option<string>,
    deposit_amount: Option<real>,
    deposit_date: Option<DateValue>,
    created_date: Option<DateValue>,
    exchange_rate: Option<real>,
    commission_percentage: Option<real>,
    transfer_fee: Option<real>,
    violation_penalty: Option<real>,
    acceptance_usdt: Option<real>,
    settlement_usdt: Option<real>,
    fund_status: Option<string>,
    maintenance_days: Option<int>,
    maintenance_end_date: Option<DateValue>,
    maintenance_period: Option<string>)

  /** The stored `Expense` record, with the fields the reports and the search read. */
  datatype Expense = Expense(
    id: string,
    title: Option<string>,
    category: Option<string>,
    description: Option<string>,
    payment_method: Option<string>,
    usdt_amount: Option<real>,
    created_date: Option<DateValue>)

  // The fund statuses, in the order the status overview configures them.
  const Waiting := "等待中"
  const Arrived := "已到账"
  const Accepting := "承兑中"
  const Completed := "已完成交易"
  const RiskReview := "风控调解中"
  const FrozenProcessing := "冻结（正在处理）"
  const FrozenBlocked := "冻结（不能处理）"
  const Returned := "已退回"

  const AllStatuses: seq<string> :=
    [Waiting, Arrived, Accepting, Completed, RiskReview, FrozenProcessing, FrozenBlocked, Returned]

  /** 冻结, the word every frozen status contains. */
  const FrozenWord := "冻结"

  /** `parseFloat(x) || 0` (and `x || 0` on a stored number); `None` also stands for NaN. */
  function Num(o: Option<real>): (r: real)
    ensures o.None? ==> r == 0.0
    ensures o.Some? ==> r == o.value
  {
    if o.Some? then o.value else 0.0
  }

  /** The status is `s`. */
  predicate StatusIs(t: Txn, s: string) {
    t.fund_status == Some(s)
  }

  /** Returned or one of the two frozen statuses: excluded from the books. */
  predicate Special(t: Txn) {
    StatusIs(t, Returned) || StatusIs(t, FrozenBlocked) || StatusIs(t, FrozenProcessing)
  }

  /** `t.fund_status?.includes('冻结')`. */
  predicate IsFrozen(t: Txn) {
    t.fund_status.Some? && Contains(t.fund_status.value, FrozenWord)
  }

  /** The status groups the reports count: exact matches, and frozen as any status containing 冻结. */
  predicate IsCompleted(t: Txn) { StatusIs(t, Completed) }
  predicate IsPending(t: Txn) { StatusIs(t, Waiting) }
  predicate IsReturned(t: Txn) { StatusIs(t, Returned) }

  /** The groups are disjoint, and both frozen statuses are frozen. */
  lemma StatusGroupsDisjoint(t: Txn)
    ensures IsFrozen(t) ==> !IsCompleted(t) && !IsPending(t) && !IsReturned(t)
    ensures StatusIs(t, FrozenBlocked) || StatusIs(t, FrozenProcessing) ==> IsFrozen(t)
    ensures (IsCompleted(t) ==> !IsPending(t) && !IsReturned(t)) && (IsPending(t) ==> !IsReturned(t))
  {
    MissingCharNotContained(Completed, FrozenWord);
    MissingCharNotContained(Waiting, FrozenWord);
    MissingCharNotContained(Returned, FrozenWord);
    ContainsAt(FrozenBlocked, FrozenWord, 0);
    ContainsAt(FrozenProcessing, FrozenWord, 0);
  }

  /** The four groups never share a transaction, so their sizes add up to at most the total. */
  lemma {:induction false} StatusCountsWithinTotal(txns: seq<Txn>)
    ensures |Filter(txns, IsCompleted)| + |Filter(txns, IsPending)| + |Filter(txns, IsFrozen)|
          + |Filter(txns, IsReturned)| <= |txns|
  {
    if |txns| > 0 {
      StatusCountsWithinTotal(txns[..|txns| - 1]);
      StatusGroupsDisjoint(txns[|txns| - 1]);
    }
  }

  /** A date field is set to a non-empty string. */
  predicate DateSet(d: Option<DateValue>) {
    d.Some? && |d.value.text| > 0
  }

  /** `new Date(d)`: an absent date gives an Invalid Date. */
  function Parse(d: Option<DateValue>): Option<Moment> {
    if d.Some? then d.value.at else None
  }

  /** `new Date(t.deposit_date || t.created_date)`. */
  function DepositOrCreated(t: Txn): (r: Option<Moment>)
    ensures DateSet(t.deposit_date) ==> r == t.deposit_date.value.at
    ensures !DateSet(t.deposit_date) ==> r == Parse(t.created_date)
  {
    if DateSet(t.deposit_date) then t.deposit_date.value.at else Parse(t.created_date)
  }

  /** `D / R` when the rate is positive, else 0 (the reports' "USDT value" of a deposit). */
  function UsdtValue(t: Txn): real {
    var rate := Num(t.exchange_rate);
    if rate > 0.0 then Num(t.deposit_amount) / rate else 0.0
  }

  /** The USDT value is 0 without a positive rate, and converts back to the deposit at the rate. */
  lemma UsdtValueConverts(t: Txn)
    ensures Num(t.exchange_rate) <= 0.0 ==> UsdtValue(t) == 0.0
    ensures Num(t.exchange_rate) > 0.0 ==> UsdtValue(t) * Num(t.exchange_rate) == Num(t.deposit_amount)
  {
  }

  /** The sum of `UsdtValue` over a list. */
  function SumUsdt(ts: seq<Txn>): real {
    if |ts| == 0 then 0.0 else SumUsdt(ts[..|ts| - 1]) + UsdtValue(ts[|ts| - 1])
  }

  /** The commission `(D · (C / 100)) / R`, in USDT. */
  function CommissionUsdt(deposit: real, percentage: real, rate: real): real
    requires rate != 0.0
  {
    deposit * (percentage / 100.0) / rate
  }

  /** The exchange gain on a deposit worth `initial` USDT: the recorded acceptance minus it, or 0 without one. */
  function ExchangeGain(acceptance: real, initial: real): real {
    (if acceptance > 0.0 then acceptance else initial) - initial
  }

  /** `ts.filter(t => p(t))` keeps order: the subsequence of elements satisfying `p`. */
  function Filter<T(!new)>(ts: seq<T>, p: T -> bool): (r: seq<T>)
    ensures |r| <= |ts|
    ensures forall t :: t in r <==> t in ts && p(t)
  {
    if |ts| == 0 then []
    else if p(ts[|ts| - 1]) then Filter(ts[..|ts| - 1], p) + [ts[|ts| - 1]]
    else Filter(ts[..|ts| - 1], p)
  }

  /** `r` is an order-preserving subsequence of `s`, picked by increasing indices. */
  ghost predicate Subsequence<T(!new)>(r: seq<T>, s: seq<T>) {
    exists idx: seq<nat> ::
      |idx| == |r|
      && (forall i :: 0 <= i < |idx| ==> idx[i] < |s| && r[i] == s[idx[i]])
      && (forall i, j :: 0 <= i < j < |idx| ==> idx[i] < idx[j])
  }

  /** The positions `Filter` keeps, in increasing order. */
  function Kept<T(!new)>(ts: seq<T>, p: T -> bool): (idx: seq<nat>)
    ensures |idx| == |Filter(ts, p)|
    ensures forall i :: 0 <= i < |idx| ==> idx[i] < |ts| && Filter(ts, p)[i] == ts[idx[i]]
    ensures forall i, j :: 0 <= i < j < |idx| ==> idx[i] < idx[j]
  {
    if |ts| == 0 then []
    else
      var init := ts[..|ts| - 1];
      var k := Kept(init, p);
      assert forall i :: 0 <= i < |k| ==> Filter(init, p)[i] == ts[k[i]];
      if p(ts[|ts| - 1]) then k + [|ts| - 1] else k
  }

  /** A filter result is an order-preserving subsequence of its input. */
  lemma FilterSubsequence<T(!new)>(ts: seq<T>, p: T -> bool)
    ensures Subsequence(Filter(ts, p), ts)
  {
    var idx := Kept(ts, p);
    assert |idx| == |Filter(ts, p)|;
  }

  /** Filtering with a predicate that holds for every element returns the input. */
  lemma {:induction false} FilterAll<T(!new)>(ts: seq<T>, p: T -> bool)
    requires forall t :: t in ts ==> p(t)
    ensures Filter(ts, p) == ts
  {
    if |ts| > 0 {
      FilterAll(ts[..|ts| - 1], p);
      assert ts[..|ts| - 1] + [ts[|ts| - 1]] == ts;
    }
  }

  /** A filter that keeps no element yields nothing. */
  lemma {:induction false} FilterNone<T(!new)>(ts: seq<T>, p: T -> bool)
    requires forall t :: t in ts ==> !p(t)
    ensures Filter(ts, p) == []
  {
    if |ts| > 0 {
      assert forall t :: t in ts[..|ts| - 1] ==> t in ts;
      FilterNone(ts[..|ts| - 1], p);
      assert ts[|ts| - 1] in ts;
    }
  }

  /** Filtering distributes over concatenation. */
  lemma {:induction false} FilterAppend<T(!new)>(a: seq<T>, b: seq<T>, p: T -> bool)
    ensures Filter(a + b, p) == Filter(a, p) + Filter(b, p)
  {
    if |b| == 0 {
      assert a + b == a;
    } else {
      assert (a + b)[..|a + b| - 1] == a + b[..|b| - 1];
      FilterAppend(a, b[..|b| - 1], p);
    }
  }

  /** Filtering with two predicates that agree everywhere gives the same result. */
  lemma {:induction false} FilterEquiv<T(!new)>(ts: seq<T>, p: T -> bool, q: T -> bool)
    requires forall t :: p(t) == q(t)
    ensures Filter(ts, p) == Filter(ts, q)
  {
    if |ts| > 0 {
      FilterEquiv(ts[..|ts| - 1], p, q);
    }
  }
}
