/**
 * How the figures of one transaction compare across the places that work
 * them out: the settlement written when the bot records a transfer, the CSV
 * export's recomputed settlement and profit columns, the dashboard's profit
 * totals, the profit report and the data summary of the AI report.
 *
 * Each lemma states exactly where two of them agree and by how much they
 * differ elsewhere.
 */
module Reconcile {
  import opened Ledger
  import Persist
  import CsvExport
  import Dashboard
  import ProfitReport
  import AiReport

  /**
   * The bot's settlement `D/R − D/R·C/100 − 25` and the export's
   * recomputation `(D − 25 − D·C/100)/R` from the same deposit, rate and
   * commission differ by `25/R − 25` whatever the deposit: they agree
   * exactly when the rate is 1, and the bot's is the larger below 1.
   */
  lemma SettlementsDifferByFee(deposit: real, rate: real, pct: real)
    requires rate > 0.0
    ensures var bot := Persist.Settlement(deposit, rate, pct);
      var csv := (deposit - Persist.TransferFee - deposit * pct / 100.0) / rate;
      && bot - csv == Persist.TransferFee / rate - Persist.TransferFee
      && (bot == csv <==> rate == 1.0)
      && (rate < 1.0 ==> bot > csv)
  {
    var q := deposit / rate;
    assert deposit * pct / 100.0 / rate == q * (pct / 100.0);
    assert (deposit - Persist.TransferFee - deposit * pct / 100.0) / rate
        == q - Persist.TransferFee / rate - deposit * pct / 100.0 / rate;
    if rate < 1.0 {
      assert Persist.TransferFee / rate > Persist.TransferFee by {
        assert Persist.TransferFee / rate * rate == Persist.TransferFee;
      }
    }
    if Persist.TransferFee / rate == Persist.TransferFee {
      assert Persist.TransferFee / rate * rate == Persist.TransferFee;
    }
  }

  /**
   * A completed transaction with a positive deposit and rate: the dashboard
   * and the profit report count the same commission and exchange profit,
   * but the dashboard adds the fee as stored while the report converts it
   * at the rate, so the two fees agree only for a zero fee or a rate of 1.
   */
  lemma DashboardFeeUnconverted(t: Txn)
    requires StatusIs(t, Completed) && Num(t.deposit_amount) > 0.0 && Num(t.exchange_rate) > 0.0
    ensures var share := Dashboard.Share(t);
      var p := ProfitReport.ProfitOf(t).value;
      && share.commission == p.commission
      && share.exchangeRateProfit == p.exchange
      && share.transferFee == p.fee * Num(t.exchange_rate)
      && share.completedCount == 1
      && (share.transferFee == p.fee <==> Num(t.transfer_fee) == 0.0 || Num(t.exchange_rate) == 1.0)
  {
    var r, f := Num(t.exchange_rate), Num(t.transfer_fee);
    assert f / r * r == f;
    if f != 0.0 && f == f / r {
      assert f * r == f / r * r;
      assert f * (r - 1.0) == 0.0;
    }
  }

  /**
   * The profit report counts a completed transaction whose deposit is not
   * positive; the dashboard counts it neither as completed nor as
   * estimated.
   */
  lemma ReportCountsEmptyDeposits(t: Txn)
    requires StatusIs(t, Completed) && Num(t.deposit_amount) <= 0.0 && Num(t.exchange_rate) > 0.0
    ensures ProfitReport.ProfitOf(t).Some?
    ensures Dashboard.Share(t).completedCount == 0 && Dashboard.Share(t).estimatedCount == 0
  {
  }

  /**
   * Where the dashboard and the export read the same completed transaction
   * with a recorded acceptance, their total profits differ by the fee's
   * conversion and twice the penalty: the dashboard adds the penalty, the
   * export subtracts it.
   */
  lemma PenaltySignsDiffer(t: Txn)
    requires StatusIs(t, Completed) && Num(t.deposit_amount) > 0.0 && Num(t.exchange_rate) > 0.0
    requires Num(t.acceptance_usdt) > 0.0
    ensures var share := Dashboard.Share(t);
      var c := CsvExport.ProfitColumns(t);
      var f, r, pen := Num(t.transfer_fee), Num(t.exchange_rate), Num(t.violation_penalty);
      share.commission + share.transferFee + share.exchangeRateProfit + share.violationPenalty
        == c.totalProfit + (f - f / r) + 2.0 * pen
  {
    var d, r, pct := Num(t.deposit_amount), Num(t.exchange_rate), Num(t.commission_percentage);
    assert d * (pct / 100.0) / r == d / r * (pct / 100.0);
  }

  /**
   * Without a recorded acceptance the dashboard and the report see no
   * exchange profit, while the export measures the settlement against the
   * deposit's USDT value; for the settlement the bot writes, that is the
   * commission and the 25 fee, as a loss.
   */
  lemma ExportExchangeFallsBackOnSettlement(t: Txn)
    requires StatusIs(t, Completed) && Num(t.deposit_amount) > 0.0 && Num(t.exchange_rate) > 0.0
    requires Num(t.acceptance_usdt) <= 0.0 && Num(t.settlement_usdt) != 0.0
    ensures Dashboard.Share(t).exchangeRateProfit == 0.0
    ensures ProfitReport.ProfitOf(t).value.exchange == 0.0
    ensures CsvExport.ProfitColumns(t).exchangeProfit
            == Num(t.settlement_usdt) - Num(t.deposit_amount) / Num(t.exchange_rate)
    ensures var d, r, pct := Num(t.deposit_amount), Num(t.exchange_rate), Num(t.commission_percentage);
      Num(t.settlement_usdt) == Persist.Settlement(d, r, pct) ==>
        CsvExport.ProfitColumns(t).exchangeProfit == -(d / r * (pct / 100.0)) - Persist.TransferFee
  {
  }

  /**
   * The AI report's summary and the profit report agree on a completed
   * transaction with a positive rate and no negative acceptance; they part
   * only on a negative acceptance, which the summary takes (`||` keeps any
   * non-zero value) and the report ignores.
   */
  lemma SummaryAgreesWithReport(t: Txn)
    requires StatusIs(t, Completed) && Num(t.exchange_rate) > 0.0
    ensures var a, p := AiReport.ProfitOf(t), ProfitReport.ProfitOf(t).value;
      && a.commission == p.commission && a.fee == p.fee
      && (Num(t.acceptance_usdt) >= 0.0 ==> a.exchange == p.exchange)
      && (Num(t.acceptance_usdt) < 0.0 ==>
            (p.exchange == 0.0
             && a.exchange == Num(t.acceptance_usdt) - Num(t.deposit_amount) / Num(t.exchange_rate)))
  {
  }
}
