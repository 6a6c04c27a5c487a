/**
 * The CSV export (`exportTransactionsToCsv`): a signed-in user gets every
 * stored transaction, newest first, one CSV line each under a fixed header,
 * with the USDT amounts and the profit of each transaction worked out per
 * line.
 *
 * Number-to-text conversion is a parameter: `show` for `String(x)` and
 * `fixed2` for `x.toFixed(2)`.
 */
module CsvExport {
  import opened Wrappers
  import opened Text
  import opened Ledger

  /** How many transactions the export asks the store for. */
  const ExportLimit: nat := 10000

  /** The byte-order mark written first so that spreadsheet programs read the text as UTF-8. */
  const Bom: char := '\U{FEFF}'

  /** The column titles, in order. */
  const Titles: seq<string> := [
    "客户姓名", "银行名称", "银行账号", "银行地址", "银行所在地",
    "币种", "入金金额", "入金日期", "汇率", "佣金百分比",
    "转账手续费(原币)", "转账手续费(USDT)", "初始USDT", "佣金(USDT)",
    "违规罚金", "维护期", "资金状态",
    "结算USDT", "承兑回USDT", "汇率差盈利(USDT)", "总盈利(USDT)", "创建时间"]

  /** The number of columns. */
  const ColumnCount: nat := 22

  /** `headers`: the titles, one per column (built element-wise so that only the titles used are unfolded). */
  function Headers(): (h: seq<string>)
    ensures |h| == ColumnCount && forall k :: 0 <= k < ColumnCount ==> h[k] == Titles[k]
  {
    seq(ColumnCount, k requires 0 <= k < ColumnCount => Titles[k])
  }

  /** What the request answers: 401, 500 when the store fails, or the CSV text. */
  datatype Response = Unauthorized | ServerError | Csv(content: string)

  /** The derived USDT columns of one line. */
  datatype Columns = Columns(initialUsdt: real, feeUsdt: real, commUsdt: real,
                             settlementUsdt: real, exchangeProfit: real, totalProfit: real)

  /**
   * The derived columns: all zero with the stored settlement when the rate
   * is not positive; otherwise the deposit, commission and fee in USDT, a
   * settlement recomputed from the deposit when the stored one is 0, the
   * exchange profit against the acceptance (or the settlement) and the
   * total profit net of the penalty.
   */
  function ProfitColumns(t: Txn): Columns {
    var deposit := Num(t.deposit_amount);
    var rate := Num(t.exchange_rate);
    var feeNative := Num(t.transfer_fee);
    var commPct := Num(t.commission_percentage);
    var penalty := Num(t.violation_penalty);
    var acceptance := Num(t.acceptance_usdt);
    var stored := Num(t.settlement_usdt);
    if rate > 0.0 then
      var initialUsdt := deposit / rate;
      var commUsdt := initialUsdt * (commPct / 100.0);
      var feeUsdt := feeNative / rate;
      var settlementUsdt := if stored == 0.0 then (deposit - feeNative - (deposit * commPct / 100.0)) / rate else stored;
      var exchangeProfit := (if acceptance > 0.0 then acceptance else settlementUsdt) - initialUsdt;
      Columns(initialUsdt, feeUsdt, commUsdt, settlementUsdt, exchangeProfit,
              exchangeProfit + commUsdt + feeUsdt - penalty)
    else Columns(0.0, 0.0, 0.0, stored, 0.0, 0.0)
  }

  /** The per-transaction `let` variables of the loop body, reassigned as the source does. */
  method DeriveColumns(t: Txn) returns (c: Columns)
    ensures c == ProfitColumns(t)
  {
    var deposit := Num(t.deposit_amount);
    var rate := Num(t.exchange_rate);
    var feeNative := Num(t.transfer_fee);
    var commPct := Num(t.commission_percentage);
    var penalty := Num(t.violation_penalty);
    var acceptance := Num(t.acceptance_usdt);
    var initialUsdt := 0.0;
    var feeUsdt := 0.0;
    var commUsdt := 0.0;
    var settlementUsdt := Num(t.settlement_usdt);
    var exchangeProfit := 0.0;
    var totalProfit := 0.0;
    if rate > 0.0 {
      initialUsdt := deposit / rate;
      commUsdt := initialUsdt * (commPct / 100.0);
      feeUsdt := feeNative / rate;
      var netNative := deposit - feeNative - (deposit * commPct / 100.0);
      var calculatedSettlement := netNative / rate;
      if settlementUsdt == 0.0 {
        settlementUsdt := calculatedSettlement;
      }
      var actualAcceptance := if acceptance > 0.0 then acceptance else settlementUsdt;
      exchangeProfit := actualAcceptance - initialUsdt;
      totalProfit := exchangeProfit + commUsdt + feeUsdt - penalty;
    }
    c := Columns(initialUsdt, feeUsdt, commUsdt, settlementUsdt, exchangeProfit, totalProfit);
  }

  /**
   * Without a positive rate `R` nothing is converted: every derived column
   * is 0 but the stored settlement. With one, the deposit, commission and
   * fee are converted at `R`; a stored settlement of 0 is replaced by the
   * deposit net of fee and commission, converted; the exchange profit is
   * the acceptance (or, without one, the settlement) minus the deposit's
   * USDT value; and the total subtracts the penalty.
   */
  lemma ColumnsConvertAtRate(t: Txn)
    ensures Num(t.exchange_rate) <= 0.0 ==>
      ProfitColumns(t) == Columns(0.0, 0.0, 0.0, Num(t.settlement_usdt), 0.0, 0.0)
    ensures var c := ProfitColumns(t); var r := Num(t.exchange_rate); var d := Num(t.deposit_amount);
      var pct := Num(t.commission_percentage);
      r > 0.0 ==>
      c.initialUsdt * r == d
      && c.commUsdt * r == d * pct / 100.0
      && c.feeUsdt * r == Num(t.transfer_fee)
      && (Num(t.settlement_usdt) != 0.0 ==> c.settlementUsdt == Num(t.settlement_usdt))
      && (Num(t.settlement_usdt) == 0.0 ==> c.settlementUsdt * r == d - Num(t.transfer_fee) - d * pct / 100.0)
      && c.exchangeProfit == (if Num(t.acceptance_usdt) > 0.0 then Num(t.acceptance_usdt) else c.settlementUsdt) - c.initialUsdt
      && c.totalProfit == c.exchangeProfit + c.commUsdt + c.feeUsdt - Num(t.violation_penalty)
  {
    var r := Num(t.exchange_rate);
    var d := Num(t.deposit_amount);
    var pct := Num(t.commission_percentage);
    if r > 0.0 {
      assert d / r * (pct / 100.0) * r == d * pct / 100.0;
    }
  }

  // ---------------------------------------------------------------- lines

  /** `"${x || ''}"`: a text field between double quotes. */
  function Quoted(o: Option<string>): (r: string)
    ensures |r| >= 2 && r[0] == '"' && r[|r| - 1] == '"'
  {
    "\"" + o.GetOr("") + "\""
  }

  /** `x || ''` on a stored date string. */
  function DateCell(d: Option<DateValue>): string {
    if d.Some? then d.value.text else ""
  }

  /** The 22 cells of a transaction's line, in header order, given its derived columns. */
  function Cells(t: Txn, c: Columns, show: real -> string, fixed2: real -> string): (cells: seq<string>)
    ensures |cells| == |Headers()|
  {
    [Quoted(t.customer_name), Quoted(t.bank_name), Quoted(t.bank_account), Quoted(t.bank_address),
     Quoted(t.bank_location), Quoted(t.currency),
     show(Num(t.deposit_amount)), DateCell(t.deposit_date), show(Num(t.exchange_rate)),
     show(Num(t.commission_percentage)), show(Num(t.transfer_fee)),
     fixed2(c.feeUsdt), fixed2(c.initialUsdt), fixed2(c.commUsdt),
     show(Num(t.violation_penalty)), Quoted(t.maintenance_period), Quoted(t.fund_status),
     fixed2(c.settlementUsdt), fixed2(Num(t.acceptance_usdt)), fixed2(c.exchangeProfit), fixed2(c.totalProfit),
     DateCell(t.created_date)]
  }

  /** A transaction's cells. */
  function Row(t: Txn, show: real -> string, fixed2: real -> string): (cells: seq<string>)
    ensures |cells| == ColumnCount
  {
    Cells(t, ProfitColumns(t), show, fixed2)
  }

  /** `row.join(',')`, which is `''` for no cells. */
  function JoinRow(cells: seq<string>): string {
    if |cells| == 0 then "" else Join(cells, ',')
  }

  /** A transaction's cells, as a function of the transaction. */
  function RowOf(show: real -> string, fixed2: real -> string): Txn -> seq<string> {
    t => Row(t, show, fixed2)
  }

  /** `f` applied to each element, in order. */
  function MapSeq<T, U>(ts: seq<T>, f: T -> U): (r: seq<U>)
    ensures |r| == |ts| && forall i :: 0 <= i < |ts| ==> r[i] == f(ts[i])
  {
    seq(|ts|, i requires 0 <= i < |ts| => f(ts[i]))
  }

  /** Mapping one more element adds its image at the end. */
  lemma MapGrow<T, U>(ts: seq<T>, f: T -> U, i: nat)
    requires i < |ts|
    ensures MapSeq(ts[..i + 1], f) == MapSeq(ts[..i], f) + [f(ts[i])]
  {
    assert forall k :: 0 <= k < i ==> ts[..i + 1][k] == ts[..i][k];
  }

  /** Mapping over one more element at the end adds its image at the end. */
  lemma MapSnoc<T, U>(ts: seq<T>, x: T, f: T -> U)
    ensures MapSeq(ts + [x], f) == MapSeq(ts, f) + [f(x)]
  {
  }

  /** The header row and one row per transaction, in order. */
  function Table(ts: seq<Txn>, show: real -> string, fixed2: real -> string): (rows: seq<seq<string>>)
    ensures |rows| == |ts| + 1 && rows[0] == Headers()
  {
    [Headers()] + MapSeq(ts, RowOf(show, fixed2))
  }

  /** The rows, each joined by commas. */
  function Lines(ts: seq<Txn>, show: real -> string, fixed2: real -> string): (lines: seq<string>)
    ensures |lines| == |ts| + 1
  {
    MapSeq(Table(ts, show, fixed2), JoinRow)
  }

  /**
   * The request: 401 without a signed-in user; otherwise the first
   * `ExportLimit` stored transactions (the store lists them newest first),
   * or 500 when the store fails.
   */
  method ExportTransactionsToCsv(signedIn: bool, stored: Option<seq<Txn>>,
                                 show: real -> string, fixed2: real -> string)
    returns (response: Response)
    ensures !signedIn ==> response == Unauthorized
    ensures signedIn && stored.None? ==> response == ServerError
    ensures signedIn && stored.Some? ==>
      response == Csv([Bom] + Join(Lines(Prefix(stored.value, ExportLimit), show, fixed2), '\n'))
  {
    if !signedIn {
      return Unauthorized;
    }
    if stored.None? {
      return ServerError;
    }
    var csvRows := BuildLines(Prefix(stored.value, ExportLimit), show, fixed2);
    response := Csv([Bom] + Join(csvRows, '\n'));
  }

  /** The header line, then each transaction's cells joined by commas. */
  method BuildLines(transactions: seq<Txn>, show: real -> string, fixed2: real -> string)
    returns (csvRows: seq<string>)
    ensures csvRows == Lines(transactions, show, fixed2)
  {
    csvRows := [JoinRow(Headers())];
    for i := 0 to |transactions|
      invariant csvRows == Lines(transactions[..i], show, fixed2)
    {
      var t := transactions[i];
      var c := DeriveColumns(t);
      var row := Cells(t, c, show, fixed2);
      csvRows := csvRows + [JoinRow(row)];
      LinesGrow(transactions, i, c, show, fixed2);
    }
    assert transactions[..|transactions|] == transactions;
  }

  /** One more transaction adds the line of its cells. */
  lemma LinesGrow(ts: seq<Txn>, i: nat, c: Columns, show: real -> string, fixed2: real -> string)
    requires i < |ts| && c == ProfitColumns(ts[i])
    ensures Lines(ts[..i + 1], show, fixed2) == Lines(ts[..i], show, fixed2) + [JoinRow(Cells(ts[i], c, show, fixed2))]
  {
    MapGrow(ts, RowOf(show, fixed2), i);
    MapSnoc(Table(ts[..i], show, fixed2), Row(ts[i], show, fixed2), JoinRow);
  }

  /** No cell holds a comma or a line break. */
  predicate PlainCells(cells: seq<string>) {
    forall k :: 0 <= k < |cells| ==> ',' !in cells[k] && '\n' !in cells[k]
  }

  /** No title holds a comma or a line break. */
  lemma HeadersPlain()
    ensures PlainCells(Headers())
  {
    var h := Headers();
    forall k | 0 <= k < |h|
      ensures ',' !in h[k] && '\n' !in h[k]
    {
      assert h[k] == Titles[k];
      if k < 11 {
        FirstTitlesPlain(k);
      } else {
        LastTitlesPlain(k);
      }
    }
  }

  /** The first eleven titles hold no comma or line break. */
  lemma FirstTitlesPlain(k: nat)
    requires k < 11
    ensures ',' !in Titles[k] && '\n' !in Titles[k]
  {
  }

  /** Nor do the last eleven. */
  lemma LastTitlesPlain(k: nat)
    requires 11 <= k < ColumnCount
    ensures ',' !in Titles[k] && '\n' !in Titles[k]
  {
  }

  /**
   * Read back line by line and field by field, a table of rows, none empty
   * and no cell holding a comma or a line break, gives its rows back.
   */
  lemma TableReadsBack(rows: seq<seq<string>>)
    requires |rows| >= 1
    requires forall i :: 0 <= i < |rows| ==> |rows[i]| >= 1 && PlainCells(rows[i])
    ensures var lines := Split(Join(MapSeq(rows, JoinRow), '\n'), '\n');
      |lines| == |rows| && forall i :: 0 <= i < |rows| ==> Split(lines[i], ',') == rows[i]
  {
    var lines := MapSeq(rows, JoinRow);
    forall k | 0 <= k < |lines|
      ensures '\n' !in lines[k]
    {
      JoinAvoids(rows[k], ',', '\n');
    }
    SplitJoin(lines, '\n');
    forall i | 0 <= i < |rows|
      ensures Split(lines[i], ',') == rows[i]
    {
      SplitJoin(rows[i], ',');
    }
  }

  /**
   * The export read back: the header, then each transaction's cells in
   * order, provided no cell holds a comma or a line break.
   */
  lemma ExportReadsBack(ts: seq<Txn>, show: real -> string, fixed2: real -> string)
    requires forall i :: 0 <= i < |ts| ==> PlainCells(Row(ts[i], show, fixed2))
    ensures var lines := Split(Join(Lines(ts, show, fixed2), '\n'), '\n');
      |lines| == |ts| + 1
      && Split(lines[0], ',') == Headers()
      && forall i :: 0 <= i < |ts| ==> Split(lines[i + 1], ',') == Row(ts[i], show, fixed2)
  {
    HeadersPlain();
    var f := RowOf(show, fixed2);
    forall i | 0 <= i < |ts|
      ensures |f(ts[i])| >= 1 && PlainCells(f(ts[i]))
    {
      assert f(ts[i]) == Row(ts[i], show, fixed2);
    }
    MappedReadsBack(Headers(), ts, f);
  }

  /** `TableReadsBack` for a header and one row per element, made by `f`. */
  lemma MappedReadsBack<T>(header: seq<string>, xs: seq<T>, f: T -> seq<string>)
    requires |header| >= 1 && PlainCells(header)
    requires forall i :: 0 <= i < |xs| ==> |f(xs[i])| >= 1 && PlainCells(f(xs[i]))
    ensures var lines := Split(Join(MapSeq([header] + MapSeq(xs, f), JoinRow), '\n'), '\n');
      |lines| == |xs| + 1
      && Split(lines[0], ',') == header
      && forall i :: 0 <= i < |xs| ==> Split(lines[i + 1], ',') == f(xs[i])
  {
    var rows := [header] + MapSeq(xs, f);
    forall i | 0 <= i < |rows|
      ensures |rows[i]| >= 1 && PlainCells(rows[i])
    {
      if i > 0 {
        assert rows[i] == f(xs[i - 1]);
      }
    }
    TableReadsBack(rows);
  }

  /** Joining parts free of a character, with a different separator, gives a text free of it. */
  lemma {:induction false} JoinAvoids(parts: seq<string>, sep: char, x: char)
    requires |parts| >= 1 && sep != x
    requires forall k :: 0 <= k < |parts| ==> x !in parts[k]
    ensures x !in Join(parts, sep)
  {
    if |parts| > 1 {
      JoinAvoids(parts[1..], sep, x);
    }
  }
}
