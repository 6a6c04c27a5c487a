/**
 * The record the webhook writes for a recognised transfer
 * (`createTransaction`): the candidate's values with defaults filled in, the
 * fixed opening state of a new transaction, and the settlement in USDT.
 *
 * The transaction-number service and the calendar are parameters:
 * `numberFor` maps a `YYYY-MM-DD` date to the generated number, and
 * `addDays(start, n)` is the date `n` days after `start` (`None` standing
 * for the current instant) as `YYYY-MM-DD`, or `None` when `start` is not a
 * date, where `toISOString` throws and the creation fails.
 */
module Persist {
  import opened Wrappers
  import opened Text
  import opened Records
  import opened Evidence
  import Ledger

  /** The defaults of a candidate's missing (or zero) values. */
  const DefaultRate: real := 0.96
  const DefaultCommission: real := 13.5
  const DefaultMaintenanceDays: int := 15
  const DefaultRemittanceCount: int := 1

  /** The transfer fee every new transaction carries, in USDT. */
  const TransferFee: real := 25.0

  /** What a missing customer or account field says: 待完善 ("to be completed"). */
  const Unfilled := "待完善"

  type AddDays = (Option<string>, int) -> Option<string>

  /** The stored `Transaction` as the webhook creates it. */
  datatype NewTxn = NewTxn(
    transaction_number: string,
    customer_name: string,
    customer_age: Option<int>,
    customer_nationality: string,
    receiving_account_name: string,
    receiving_account_number: string,
    bank_name: string,
    bank_account: string,
    bank_address: string,
    bank_location: string,
    currency: Option<string>,
    deposit_amount: real,
    deposit_date: string,
    maintenance_days: int,
    maintenance_end_date: string,
    exchange_rate: real,
    commission_percentage: real,
    calculation_mode: Mode,
    remittance_count: int,
    transfer_fee: real,
    violation_penalty: real,
    fund_status: string,
    acceptance_usdt: real,
    source: string,
    telegram_chat_id: string,
    telegram_message_id: string,
    id_card_photo_url: string,
    transfer_receipt_url: string,
    settlement_usdt: real)

  /** `s || d` on a string. */
  function OrText(o: Option<string>, d: string): string {
    if Truthy(o) then o.value else d
  }

  /** `parseFloat(x) || d`; a `None` is also the NaN of an unparseable value. */
  function OrNum(o: Option<real>, d: real): real {
    if TruthyNum(o) then o.value else d
  }

  /** `x || d` on an integer. */
  function OrInt(o: Option<int>, d: int): int {
    if TruthyInt(o) then o.value else d
  }

  /**
   * `initialUsdt - commission - transfer_fee` with `initialUsdt = D / R` and
   * `commission = initialUsdt * (C / 100)`.
   */
  function Settlement(deposit: real, rate: real, pct: real): real
    requires rate != 0.0
  {
    deposit / rate - deposit / rate * (pct / 100.0) - TransferFee
  }

  /**
   * The settlement is what is left of the deposit, converted at the rate,
   * once the commission and the fee are taken; a larger commission leaves
   * less, and with a non-negative commission and deposit value it is at most
   * the converted deposit less the fee.
   */
  lemma SettlementParts(deposit: real, rate: real, pct: real, pct': real)
    requires rate != 0.0
    ensures (Settlement(deposit, rate, pct) + TransferFee) * rate == deposit - deposit * pct / 100.0
    ensures deposit / rate >= 0.0 && pct <= pct' ==> Settlement(deposit, rate, pct') <= Settlement(deposit, rate, pct)
    ensures deposit / rate >= 0.0 && pct >= 0.0 ==> Settlement(deposit, rate, pct) <= deposit / rate - TransferFee
  {
    var u := deposit / rate;
    assert u * rate == deposit;
    calc {
      (Settlement(deposit, rate, pct) + TransferFee) * rate;
      (u - u * (pct / 100.0)) * rate;
      u * rate - u * rate * (pct / 100.0);
      deposit - deposit * pct / 100.0;
    }
    if u >= 0.0 && pct <= pct' {
      assert u * (pct / 100.0) <= u * (pct' / 100.0);
    }
    if u >= 0.0 && pct >= 0.0 {
      assert u * (pct / 100.0) >= 0.0;
    }
  }

  /** The deposit date the record carries: the candidate's, or today's. */
  function DepositDate(data: Candidate, today: string): string {
    OrText(data.deposit_date, today)
  }

  /** The instant the maintenance period is counted from: the candidate's date, or now (`None`). */
  function MaintenanceStart(data: Candidate): Option<string> {
    if Truthy(data.deposit_date) then data.deposit_date else None
  }

  /**
   * The record `createTransaction` writes, or `None` when it throws because
   * the deposit date is not a date.
   */
  function NewRecord(data: Candidate, chatId: int, messageId: string, idCardPhotoUrl: string,
                     transferReceiptUrl: string, today: string, numberFor: string -> string, addDays: AddDays)
    : Option<NewTxn>
  {
    var deposit := OrNum(data.deposit_amount, 0.0);
    var rate := OrNum(data.exchange_rate, DefaultRate);
    var pct := OrNum(data.commission_percentage, DefaultCommission);
    var days := OrInt(data.maintenance_days, DefaultMaintenanceDays);
    match addDays(MaintenanceStart(data), days)
    case None => None
    case Some(end) =>
      Some(NewTxn(
        numberFor(DepositDate(data, today)),
        OrText(data.customer_name, Unfilled),
        IfTruthyInt(data.customer_age),
        OrText(data.customer_nationality, ""),
        OrText(data.receiving_account_name, Unfilled),
        OrText(data.receiving_account_number, Unfilled),
        OrText(data.bank_name, ""),
        OrText(data.bank_account, ""),
        "", "",
        data.currency,
        deposit,
        DepositDate(data, today),
        days,
        end,
        rate,
        pct,
        data.calculation_mode.GetOr(Jin),
        OrInt(data.remittance_count, DefaultRemittanceCount),
        TransferFee,
        0.0,
        Ledger.Waiting,
        0.0,
        "telegram",
        IntToString(chatId),
        messageId,
        idCardPhotoUrl,
        transferReceiptUrl,
        Settlement(deposit, rate, pct)))
  }

  /**
   * `createTransaction` as the source writes it: the candidate's numbers are
   * normalised in place, the record is built, and the settlement is computed
   * from the record's own values and stored last.
   */
  method CreateTransaction(data: Candidate, chatId: int, messageId: string, idCardPhotoUrl: string,
                           transferReceiptUrl: string, today: string, numberFor: string -> string, addDays: AddDays)
    returns (created: Option<NewTxn>)
    ensures created == NewRecord(data, chatId, messageId, idCardPhotoUrl, transferReceiptUrl, today, numberFor, addDays)
  {
    var d := data;
    d := d.(deposit_amount := Some(OrNum(d.deposit_amount, 0.0)));
    d := d.(exchange_rate := Some(OrNum(d.exchange_rate, DefaultRate)));
    d := d.(commission_percentage := Some(OrNum(d.commission_percentage, DefaultCommission)));
    var number := numberFor(if Truthy(d.deposit_date) then d.deposit_date.value else today);
    var maintenanceDays := if TruthyInt(d.maintenance_days) then d.maintenance_days.value else DefaultMaintenanceDays;
    var end := addDays(if Truthy(d.deposit_date) then d.deposit_date else None, maintenanceDays);
    if end.None? {
      return None;
    }
    var txn := NewTxn(
      number,
      OrText(d.customer_name, Unfilled),
      IfTruthyInt(d.customer_age),
      OrText(d.customer_nationality, ""),
      OrText(d.receiving_account_name, Unfilled),
      OrText(d.receiving_account_number, Unfilled),
      OrText(d.bank_name, ""),
      OrText(d.bank_account, ""),
      "", "",
      d.currency,
      d.deposit_amount.value,
      OrText(d.deposit_date, today),
      maintenanceDays,
      end.value,
      d.exchange_rate.value,
      d.commission_percentage.value,
      d.calculation_mode.GetOr(Jin),
      OrInt(d.remittance_count, DefaultRemittanceCount),
      TransferFee, 0.0, Ledger.Waiting, 0.0, "telegram",
      IntToString(chatId), messageId, idCardPhotoUrl, transferReceiptUrl,
      0.0);
    var initialUsdt := txn.deposit_amount / txn.exchange_rate;
    var commission := initialUsdt * (txn.commission_percentage / 100.0);
    txn := txn.(settlement_usdt := initialUsdt - commission - txn.transfer_fee);
    assert txn.settlement_usdt == Settlement(txn.deposit_amount, txn.exchange_rate, txn.commission_percentage);
    return Some(txn);
  }

  /**
   * The defaults: a missing or zero rate, commission, maintenance period or
   * remittance count becomes 0.96, 13.5, 15 days or 1 (so the rate is never
   * 0); missing names and accounts read 待完善; the deposit date falls back to
   * today and the number is generated for that date; the end of maintenance is
   * that many days after the deposit date, and creation fails exactly when
   * that date cannot be formed.
   */
  lemma NewRecordDefaults(data: Candidate, chatId: int, messageId: string, idCardPhotoUrl: string,
                          transferReceiptUrl: string, today: string, numberFor: string -> string, addDays: AddDays)
    ensures var r := NewRecord(data, chatId, messageId, idCardPhotoUrl, transferReceiptUrl, today, numberFor, addDays);
      var days := if TruthyInt(data.maintenance_days) then data.maintenance_days.value else DefaultMaintenanceDays;
      var start := if Truthy(data.deposit_date) then data.deposit_date else None;
      && (r.None? <==> addDays(start, days).None?)
      && (r.Some? ==>
        && r.value.exchange_rate != 0.0
        && r.value.exchange_rate == (if TruthyNum(data.exchange_rate) then data.exchange_rate.value else 0.96)
        && r.value.commission_percentage == (if TruthyNum(data.commission_percentage) then data.commission_percentage.value else 13.5)
        && r.value.maintenance_days == days
        && r.value.maintenance_end_date == addDays(start, days).value
        && r.value.remittance_count == (if TruthyInt(data.remittance_count) then data.remittance_count.value else 1)
        && r.value.deposit_amount == (if data.deposit_amount.Some? then data.deposit_amount.value else 0.0)
        && r.value.deposit_date == (if Truthy(data.deposit_date) then data.deposit_date.value else today)
        && r.value.transaction_number == numberFor(r.value.deposit_date)
        && r.value.customer_name == (if Truthy(data.customer_name) then data.customer_name.value else "待完善")
        && r.value.receiving_account_name == (if Truthy(data.receiving_account_name) then data.receiving_account_name.value else "待完善")
        && r.value.receiving_account_number == (if Truthy(data.receiving_account_number) then data.receiving_account_number.value else "待完善")
        && r.value.calculation_mode == (if data.calculation_mode.Some? then data.calculation_mode.value else Jin)
        && r.value.currency == data.currency)
  {
  }

  /**
   * Every new transaction starts waiting (等待中), with the fixed 25 USDT fee,
   * no penalty, no acceptance, source `telegram`, the chat and message it
   * came from, and a settlement that with the commission and the fee makes up
   * the deposit converted at the record's own rate.
   */
  lemma NewRecordOpening(data: Candidate, chatId: int, messageId: string, idCardPhotoUrl: string,
                         transferReceiptUrl: string, today: string, numberFor: string -> string, addDays: AddDays)
    requires NewRecord(data, chatId, messageId, idCardPhotoUrl, transferReceiptUrl, today, numberFor, addDays).Some?
    ensures var r := NewRecord(data, chatId, messageId, idCardPhotoUrl, transferReceiptUrl, today, numberFor, addDays).value;
      && r.fund_status == Ledger.Waiting && r.transfer_fee == 25.0 && r.violation_penalty == 0.0
      && r.acceptance_usdt == 0.0 && r.source == "telegram"
      && r.telegram_chat_id == IntToString(chatId) && r.telegram_message_id == messageId
      && r.id_card_photo_url == idCardPhotoUrl && r.transfer_receipt_url == transferReceiptUrl
      && (r.settlement_usdt + r.transfer_fee) * r.exchange_rate
         == r.deposit_amount - r.deposit_amount * r.commission_percentage / 100.0
  {
    var r := NewRecord(data, chatId, messageId, idCardPhotoUrl, transferReceiptUrl, today, numberFor, addDays).value;
    SettlementParts(r.deposit_amount, r.exchange_rate, r.commission_percentage, r.commission_percentage);
  }
}
