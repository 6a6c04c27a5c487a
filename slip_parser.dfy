/**
 * `parseWaterSlip`: the line-oriented parser of a transfer slip ("水单")
 * written as text. Each trimmed, non-blank line is matched against an
 * else-if chain of labelled patterns; the first branch whose label test
 * succeeds may write its one field. Independently, a line mentioning
 * 进算 or 拖算 sets the calculation mode.
 */
module SlipParser {
  import opened Wrappers
  import opened Text
  import opened Pattern
  import opened Records
  import Currency

  // ---------------------------------------------------------------- labels

  const DateLabels: seq<Label> := [["汇款", "日期"], ["日期"]]
  /** `维护期\s*(?:（天数）)?` in the test; the match uses `维护期` and the lazy separator. */
  const MaintenanceTestLabels: seq<Label> := [["维护期", "（天数）"], ["维护期"]]
  const MaintenanceLabels: seq<Label> := [["维护期"]]
  const CurrencyLabels: seq<Label> := [["查收", "币种"], ["入金", "币种"], ["币种"]]
  const CustomerLabels: seq<Label> := [["汇款人", "姓名"], ["汇款人"], ["客户", "姓名"]]
  const AmountLabels: seq<Label> := [["查收", "金额"], ["金额"]]
  const CountLabels: seq<Label> := [["汇款", "笔数"], ["笔数"]]
  const NationalityLabels: seq<Label> := [["国籍"]]
  const AgeLabels: seq<Label> := [["年龄"], ["年齡"]]
  const RateLabels: seq<Label> := [["汇率"]]
  const CommissionLabels: seq<Label> := [["点位"], ["佣金"]]

  /** `(?:h1|h2|…)\s*(?:t1|t2|…)` as alternatives, in the order backtracking tries them. */
  function Pairs(heads: seq<string>, tails: seq<string>): (r: seq<Label>)
    ensures forall k :: 0 <= k < |r| ==> |r[k]| == 2 && r[k][0] in heads && r[k][1] in tails
  {
    if |heads| == 0 then []
    else seq(|tails|, j requires 0 <= j < |tails| => [heads[0], tails[j]]) + Pairs(heads[1..], tails)
  }

  const AccountNameLabels: seq<Label> :=
    Pairs(["收款", "入款", "公司", "账户"], ["账户名", "户名", "名称", "名", "人", "方"])
  const AccountNumberLabels: seq<Label> :=
    Pairs(["收款", "入款", "公司", "账户", "银行"], ["账号", "账户号", "卡号", "号码"])

  // ---------------------------------------------------------------- branches

  datatype Branch =
    | DateLine | MaintenanceLine | CurrencyLine | CustomerLine | AccountNameLine | AccountNumberLine
    | AmountLine | CountLine | NationalityLine | AgeLine | RateLine | CommissionLine | NoLabel

  /** The line names the remitter or the customer (`/汇款|客户/`). */
  predicate MentionsRemitter(t: string) { Contains(t, "汇款") || Contains(t, "客户") }

  /** One test of the else-if chain. */
  datatype Rule = Rule(labels: seq<Label>, form: Form, branch: Branch)

  /** The else-if chain, in source order. */
  const Rules: seq<Rule> := [
    Rule(DateLabels, Strict, DateLine),
    Rule(MaintenanceTestLabels, Strict, MaintenanceLine),
    Rule(CurrencyLabels, Strict, CurrencyLine),
    Rule(CustomerLabels, Strict, CustomerLine),
    Rule(AccountNameLabels, Strict, AccountNameLine),
    Rule(AccountNumberLabels, Strict, AccountNumberLine),
    Rule(AmountLabels, Strict, AmountLine),
    Rule(CountLabels, Strict, CountLine),
    Rule(NationalityLabels, Strict, NationalityLine),
    Rule(AgeLabels, Strict, AgeLine),
    Rule(RateLabels, Strict, RateLine),
    Rule(CommissionLabels, Lazy, CommissionLine)
  ]

  /** The receiving-account branches also require `!/汇款|客户/.test(t)`. */
  predicate ExcludesRemitter(b: Branch) { b == AccountNameLine || b == AccountNumberLine }

  predicate Fires(t: string, rule: Rule) {
    Test(t, rule.labels, rule.form) && (ExcludesRemitter(rule.branch) ==> !MentionsRemitter(t))
  }

  /** The branch of the first rule that fires. */
  function FirstBranch(t: string, rules: seq<Rule>): (b: Branch)
    ensures ExcludesRemitter(b) ==> !MentionsRemitter(t)
  {
    if |rules| == 0 then NoLabel
    else if Fires(t, rules[0]) then rules[0].branch
    else FirstBranch(t, rules[1..])
  }

  /** The first branch of the else-if chain whose test succeeds on the trimmed line. */
  function LineBranch(t: string): (b: Branch)
    ensures MentionsRemitter(t) ==> b != AccountNameLine && b != AccountNumberLine
  {
    FirstBranch(t, Rules)
  }

  /** The one field a branch may write. */
  function BranchField(b: Branch): Option<Field> {
    match b
    case DateLine => Some(DepositDate)
    case MaintenanceLine => Some(MaintenanceDays)
    case CurrencyLine => Some(Currency)
    case CustomerLine => Some(CustomerName)
    case AccountNameLine => Some(ReceivingAccountName)
    case AccountNumberLine => Some(ReceivingAccountNumber)
    case AmountLine => Some(DepositAmount)
    case CountLine => Some(RemittanceCount)
    case NationalityLine => Some(CustomerNationality)
    case AgeLine => Some(CustomerAge)
    case RateLine => Some(ExchangeRate)
    case CommissionLine => Some(CommissionPercentage)
    case NoLabel => None
  }

  // ---------------------------------------------------------------- values

  /** `s.replace(/\//g, '-')`. */
  function SlashToDash(s: string): (r: string)
    ensures |r| == |s| && '/' !in r
    ensures forall k :: 0 <= k < |s| && s[k] != '/' ==> r[k] == s[k]
  {
    seq(|s|, k requires 0 <= k < |s| => if s[k] == '/' then '-' else s[k])
  }

  /** `s.replace(/[,\s]/g, '')`. */
  function StripNumber(s: string): (r: string)
    ensures forall k :: 0 <= k < |r| ==> r[k] != ',' && !IsSpace(r[k])
  {
    if |s| == 0 then []
    else (if s[0] == ',' || IsSpace(s[0]) then [] else [s[0]]) + StripNumber(s[1..])
  }

  /**
   * A month-day date completed with the current year:
   * `${year}-${md}` split on `-`, month and day padded to two digits.
   */
  function PartialDateText(year: nat, g: string): (r: string)
    requires MonthDayShape(g)
    ensures DateLayout(r, NatToString(year), MonthOf(g), DayOf(g))
  {
    var m := DigitRun(g);
    PadStartValue(g[..m], 2);
    PadStartValue(g[m + 1..], 2);
    LaidOut(NatToString(year), PadStart(g[..m], 2), PadStart(g[m + 1..], 2));
    NatToString(year) + "-" + PadStart(g[..m], 2) + "-" + PadStart(g[m + 1..], 2)
  }

  /** `y-MM-DD` with two-digit month and day reading as `month` and `day`. */
  predicate DateLayout(r: string, y: string, month: nat, day: nat) {
    |r| == |y| + 6 && r[..|y|] == y && r[|y|] == '-' && r[|y| + 3] == '-'
    && IsDigit(r[|y| + 1]) && IsDigit(r[|y| + 2]) && IsDigit(r[|y| + 4]) && IsDigit(r[|y| + 5])
    && DigitsValue(r[|y| + 1..|y| + 3]) == month && DigitsValue(r[|y| + 4..]) == day
  }

  lemma LaidOut(y: string, mm: string, dd: string)
    requires |mm| == 2 && IsDigit(mm[0]) && IsDigit(mm[1])
    requires |dd| == 2 && IsDigit(dd[0]) && IsDigit(dd[1])
    ensures DateLayout(y + "-" + mm + "-" + dd, y, DigitsValue(mm), DigitsValue(dd))
  {
    var r := y + "-" + mm + "-" + dd;
    assert r[..|y|] == y && r[|y| + 1..|y| + 3] == mm && r[|y| + 4..] == dd;
  }

  /** The amount captured by the amount pattern, if its number parses. */
  function AmountValue(t: string): Option<real> {
    match Match(t, AmountLabels, Strict, NumberChars)
    case Some(g) => ParseDecimal(StripNumber(g))
    case None => None
  }

  /** The amount a line writes: only a line of the amount branch writes one. */
  function LineAmount(t: string): Option<real> {
    if LineBranch(t) == AmountLine then AmountValue(t) else None
  }

  /** The calculation mode a line names: 拖算 wins over 进算 on the same line. */
  function LineMode(t: string): (r: Option<Mode>)
    ensures r.Some? <==> Contains(t, "进算") || Contains(t, "拖算")
    ensures r == Some(Tuo) <==> Contains(t, "拖算")
  {
    if Contains(t, "拖算") then Some(Tuo)
    else if Contains(t, "进算") then Some(Jin)
    else None
  }

  // ---------------------------------------------------------------- one line

  /** The deposit date a date line writes: a full date first, else a month and day. */
  function DateValue(prev: Option<string>, t: string, year: nat): Option<string> {
    match Match(t, DateLabels, Strict, FullDate)
    case Some(g) => Some(SlashToDash(g))
    case None =>
      match Match(t, DateLabels, Strict, PartialDate)
      case Some(g) => Some(PartialDateText(year, g))
      case None => prev
  }

  /** A field holding `parseInt` of a `\d+` capture. */
  function DigitsField(prev: Option<int>, t: string, labels: seq<Label>, form: Form): Option<int> {
    match Match(t, labels, form, Digits)
    case Some(g) => Some(DigitsValue(g))
    case None => prev
  }

  /** A field holding the trimmed capture. */
  function TextField(prev: Option<string>, t: string, labels: seq<Label>, form: Form, kind: Capture): Option<string> {
    match Match(t, labels, form, kind)
    case Some(g) => Some(Trim(g))
    case None => prev
  }

  /** A field holding `parseFloat` of a `[\d.]+` capture; NaN is stored as `None`. */
  function DecimalField(prev: Option<real>, t: string, labels: seq<Label>, form: Form): Option<real> {
    match Match(t, labels, form, DecimalChars)
    case Some(g) => ParseDecimal(g)
    case None => prev
  }

  /** The currency a currency line writes, when its token normalises. */
  function CurrencyValue(prev: Option<string>, t: string): Option<string> {
    match Match(t, CurrencyLabels, Strict, CodeOrHan)
    case Some(g) => if Currency.Normalize(g).Some? then Currency.Normalize(g) else prev
    case None => prev
  }

  /** The labelled branch of one trimmed line. */
  function ApplyBranch(d: Candidate, b: Branch, t: string, year: nat): (r: Candidate)
    ensures b != DateLine ==> r.deposit_date == d.deposit_date
    ensures b != MaintenanceLine ==> r.maintenance_days == d.maintenance_days
    ensures b != CurrencyLine ==> r.currency == d.currency
    ensures b != CustomerLine ==> r.customer_name == d.customer_name
    ensures b != AccountNameLine ==> r.receiving_account_name == d.receiving_account_name
    ensures b != AccountNumberLine ==> r.receiving_account_number == d.receiving_account_number
    ensures b != AmountLine ==> r.deposit_amount == d.deposit_amount
    ensures b != CountLine ==> r.remittance_count == d.remittance_count
    ensures b != NationalityLine ==> r.customer_nationality == d.customer_nationality
    ensures b != AgeLine ==> r.customer_age == d.customer_age
    ensures b != RateLine ==> r.exchange_rate == d.exchange_rate
    ensures b != CommissionLine ==> r.commission_percentage == d.commission_percentage
    ensures r.calculation_mode == d.calculation_mode && r.bank_name == d.bank_name && r.bank_account == d.bank_account
    ensures r.deposit_amount != d.deposit_amount ==> b == AmountLine && AmountValue(t).Some? && r.deposit_amount == AmountValue(t)
  {
    match b
    case DateLine => d.(deposit_date := DateValue(d.deposit_date, t, year))
    case MaintenanceLine => d.(maintenance_days := DigitsField(d.maintenance_days, t, MaintenanceLabels, Lazy))
    case CurrencyLine => d.(currency := CurrencyValue(d.currency, t))
    case CustomerLine => d.(customer_name := TextField(d.customer_name, t, CustomerLabels, Lazy, RestOfLine))
    case AccountNameLine =>
      d.(receiving_account_name := TextField(d.receiving_account_name, t, AccountNameLabels, Lazy, RestOfLine))
    case AccountNumberLine =>
      d.(receiving_account_number := TextField(d.receiving_account_number, t, AccountNumberLabels, Lazy, AccountChars))
    case AmountLine => d.(deposit_amount := if AmountValue(t).Some? then AmountValue(t) else d.deposit_amount)
    case CountLine => d.(remittance_count := DigitsField(d.remittance_count, t, CountLabels, Strict))
    case NationalityLine =>
      d.(customer_nationality := TextField(d.customer_nationality, t, NationalityLabels, Strict, RestOfLine))
    case AgeLine => d.(customer_age := DigitsField(d.customer_age, t, AgeLabels, Strict))
    case RateLine => d.(exchange_rate := DecimalField(d.exchange_rate, t, RateLabels, Strict))
    case CommissionLine => d.(commission_percentage := DecimalField(d.commission_percentage, t, CommissionLabels, Lazy))
    case NoLabel => d
  }

  /** The independent calculation-mode check of one trimmed line. */
  function ApplyMode(d: Candidate, t: string): (r: Candidate)
    ensures r.(calculation_mode := d.calculation_mode) == d
    ensures r.calculation_mode == if LineMode(t).Some? then LineMode(t) else d.calculation_mode
  {
    match LineMode(t)
    case Some(m) => d.(calculation_mode := Some(m))
    case None => d
  }

  /**
   * One line of the slip: blank lines are skipped; otherwise at most one
   * labelled field changes, and the calculation mode follows the line if it names one.
   */
  function ApplyLine(d: Candidate, line: string, year: nat): (r: Candidate)
    ensures r.calculation_mode == if LineMode(Trim(line)).Some? then LineMode(Trim(line)) else d.calculation_mode
    ensures r.deposit_amount != d.deposit_amount ==>
      LineAmount(Trim(line)).Some? && r.deposit_amount == LineAmount(Trim(line))
    ensures Trim(line) == [] ==> r == d
  {
    var t := Trim(line);
    if t == [] then d else ApplyMode(ApplyBranch(d, LineBranch(t), t, year), t)
  }

  /**
   * A date line writes the full date with `/` turned into `-`; failing that,
   * the month and day completed with `year` and padded to two digits; failing
   * that, it leaves the date alone.
   */
  lemma DateLineWrites(d: Candidate, line: string, year: nat)
    requires Trim(line) != [] && LineBranch(Trim(line)) == DateLine
    ensures var part := Match(Trim(line), DateLabels, Strict, PartialDate);
      part.Some? ==> MonthDayShape(part.value)
    ensures var full := Match(Trim(line), DateLabels, Strict, FullDate);
      full.Some? ==> ApplyLine(d, line, year).deposit_date == Some(SlashToDash(full.value))
    ensures var full := Match(Trim(line), DateLabels, Strict, FullDate);
      var part := Match(Trim(line), DateLabels, Strict, PartialDate);
      full.None? && part.Some? ==>
        var g := part.value;
        var date := ApplyLine(d, line, year).deposit_date;
        date.Some? && DateLayout(date.value, NatToString(year), MonthOf(g), DayOf(g))
    ensures Match(Trim(line), DateLabels, Strict, FullDate).None? && Match(Trim(line), DateLabels, Strict, PartialDate).None? ==>
      ApplyLine(d, line, year).deposit_date == d.deposit_date
  {
    DateLineDate(d, line, year);
    DateValueCases(d.deposit_date, Trim(line), year);
  }

  lemma DateLineDate(d: Candidate, line: string, year: nat)
    requires Trim(line) != [] && LineBranch(Trim(line)) == DateLine
    ensures ApplyLine(d, line, year).deposit_date == DateValue(d.deposit_date, Trim(line), year)
  {
    var t := Trim(line);
    assert ApplyLine(d, line, year) == ApplyMode(ApplyBranch(d, DateLine, t, year), t);
  }

  lemma DateValueCases(prev: Option<string>, t: string, year: nat)
    ensures var part := Match(t, DateLabels, Strict, PartialDate);
      part.Some? ==> MonthDayShape(part.value)
    ensures var full := Match(t, DateLabels, Strict, FullDate);
      full.Some? ==> DateValue(prev, t, year) == Some(SlashToDash(full.value))
    ensures var full := Match(t, DateLabels, Strict, FullDate);
      var part := Match(t, DateLabels, Strict, PartialDate);
      full.None? && part.Some? ==>
        var date := DateValue(prev, t, year);
        date.Some? && DateLayout(date.value, NatToString(year), MonthOf(part.value), DayOf(part.value))
    ensures Match(t, DateLabels, Strict, FullDate).None? && Match(t, DateLabels, Strict, PartialDate).None? ==>
      DateValue(prev, t, year) == prev
  {
  }

  /** The lines applied in order. */
  function ParseLines(lines: seq<string>, year: nat): Candidate {
    if |lines| == 0 then Empty
    else ApplyLine(ParseLines(lines[..|lines| - 1], year), lines[|lines| - 1], year)
  }

  /** `parseWaterSlip(text)` with `new Date().getFullYear()` passed in as `year`. */
  function ParseText(text: string, year: nat): Candidate {
    if text == [] then Empty else ParseLines(Split(text, '\n'), year)
  }

  /** One more line is one more step of the fold. */
  lemma ParseLinesStep(lines: seq<string>, i: nat, year: nat)
    requires i < |lines|
    ensures ParseLines(lines[..i + 1], year) == ApplyLine(ParseLines(lines[..i], year), lines[i], year)
  {
    assert lines[..i + 1][..i] == lines[..i];
  }

  /** The parser as the source writes it: a loop over the lines filling `data`. */
  method ParseWaterSlip(text: string, year: nat) returns (data: Candidate)
    ensures data == ParseText(text, year)
  {
    if text == [] {
      return Empty;
    }
    var lines := Split(text, '\n');
    data := Empty;
    for i := 0 to |lines|
      invariant data == ParseLines(lines[..i], year)
    {
      ParseLinesStep(lines, i, year);
      ghost var prev := data;
      var t := Trim(lines[i]);
      if t == [] {
        continue;
      }
      data := ApplyBranch(data, LineBranch(t), t, year);
      if Contains(t, "进算") || Contains(t, "拖算") {
        data := data.(calculation_mode := Some(if Contains(t, "拖算") then Tuo else Jin));
      }
      assert data == ApplyLine(prev, lines[i], year);
    }
    assert lines[..|lines|] == lines;
  }

  // ---------------------------------------------------------------- properties

  /** A branch writes no field but its own. */
  lemma BranchWritesItsField(d: Candidate, b: Branch, t: string, year: nat, f: Field)
    requires Differs(d, ApplyBranch(d, b, t, year), f)
    ensures Some(f) == BranchField(b)
  {
    match f {
      case DepositDate => case MaintenanceDays => case Currency => case CustomerName =>
      case CustomerAge => case CustomerNationality => case ReceivingAccountName =>
      case ReceivingAccountNumber => case DepositAmount => case RemittanceCount =>
      case ExchangeRate => case CommissionPercentage => case CalculationMode =>
      case BankName => case BankAccount =>
    }
  }

  /** Each line fills at most one labelled field: the one of the first branch whose label test succeeds. */
  lemma OneFieldPerLine(d: Candidate, line: string, year: nat, f: Field)
    requires f != CalculationMode && Differs(d, ApplyLine(d, line, year), f)
    ensures Trim(line) != [] && Some(f) == BranchField(LineBranch(Trim(line)))
  {
    var t := Trim(line);
    var b := LineBranch(t);
    var r := ApplyBranch(d, b, t, year);
    var m := ApplyMode(r, t);
    assert t != [] && ApplyLine(d, line, year) == m;
    assert m.(calculation_mode := r.calculation_mode) == r;
    assert Differs(d, r, f) by {
      match f {
        case DepositDate => case MaintenanceDays => case Currency => case CustomerName =>
        case CustomerAge => case CustomerNationality => case ReceivingAccountName =>
        case ReceivingAccountNumber => case DepositAmount => case RemittanceCount =>
        case ExchangeRate => case CommissionPercentage => case BankName => case BankAccount =>
      }
    }
    BranchWritesItsField(d, b, t, year, f);
  }

  /** Text made only of blank lines yields `{}`. */
  lemma {:induction false} BlankLinesEmpty(lines: seq<string>, year: nat)
    requires forall k :: 0 <= k < |lines| ==> Trim(lines[k]) == []
    ensures ParseLines(lines, year) == Empty
  {
    if |lines| > 0 {
      BlankLinesEmpty(lines[..|lines| - 1], year);
    }
  }

  /** A line that mentions 汇款 or 客户 never changes the receiving account name or number. */
  lemma RemitterLineKeepsAccount(d: Candidate, line: string, year: nat)
    requires MentionsRemitter(line)
    ensures ApplyLine(d, line, year).receiving_account_name == d.receiving_account_name
    ensures ApplyLine(d, line, year).receiving_account_number == d.receiving_account_number
  {
    if Contains(line, "汇款") {
      TrimKeepsInfix(line, "汇款");
    } else {
      TrimKeepsInfix(line, "客户");
    }
  }

  /** The parsed amount comes from a line whose number, without commas and whitespace, parses. */
  lemma {:induction false} AmountFromSomeLine(lines: seq<string>, year: nat) returns (k: nat)
    requires ParseLines(lines, year).deposit_amount.Some?
    ensures k < |lines| && LineAmount(Trim(lines[k])) == ParseLines(lines, year).deposit_amount
  {
    var n := |lines| - 1;
    var prev := ParseLines(lines[..n], year);
    var r := ParseLines(lines, year);
    assert r == ApplyLine(prev, lines[n], year);
    if r.deposit_amount != prev.deposit_amount {
      k := n;
    } else {
      k := AmountFromSomeLine(lines[..n], year);
      assert lines[..n][k] == lines[k];
    }
  }

  /** The mode each line names. */
  function LineModes(lines: seq<string>): (r: seq<Option<Mode>>)
    ensures |r| == |lines| && forall j :: 0 <= j < |lines| ==> r[j] == LineMode(Trim(lines[j]))
  {
    seq(|lines|, j requires 0 <= j < |lines| => LineMode(Trim(lines[j])))
  }

  /** The last value present in `s`. */
  function LastSome<T>(s: seq<Option<T>>): Option<T> {
    if |s| == 0 then None
    else if s[|s| - 1].Some? then s[|s| - 1]
    else LastSome(s[..|s| - 1])
  }

  /** The mode check does not interact with the labelled branches: the last mode named wins. */
  lemma {:induction false} ParseLinesMode(lines: seq<string>, year: nat)
    ensures ParseLines(lines, year).calculation_mode == LastSome(LineModes(lines))
  {
    if |lines| > 0 {
      var n := |lines| - 1;
      ParseLinesMode(lines[..n], year);
      assert LineModes(lines)[..n] == LineModes(lines[..n]);
      assert LineModes(lines)[n] == LineMode(Trim(lines[n]));
    }
  }

  /** The last line that names a calculation mode decides it. */
  lemma LastModeWins(lines: seq<string>, year: nat, k: nat)
    requires k < |lines| && LineMode(Trim(lines[k])).Some?
    requires forall j :: k < j < |lines| ==> LineMode(Trim(lines[j])).None?
    ensures ParseLines(lines, year).calculation_mode == LineMode(Trim(lines[k]))
  {
    ParseLinesMode(lines, year);
    LastSomeAt(LineModes(lines), k);
  }

  /** With no line naming a mode, the mode stays unset. */
  lemma NoModeLine(lines: seq<string>, year: nat)
    requires forall j :: 0 <= j < |lines| ==> LineMode(Trim(lines[j])).None?
    ensures ParseLines(lines, year).calculation_mode.None?
  {
    ParseLinesMode(lines, year);
    LastSomeNone(LineModes(lines));
  }

  lemma {:induction false} LastSomeAt<T>(s: seq<Option<T>>, k: nat)
    requires k < |s| && s[k].Some?
    requires forall j :: k < j < |s| ==> s[j].None?
    ensures LastSome(s) == s[k]
  {
    var n := |s| - 1;
    if k < n {
      assert s[..n][k] == s[k];
      LastSomeAt(s[..n], k);
    }
  }

  lemma {:induction false} LastSomeNone<T>(s: seq<Option<T>>)
    requires forall j :: 0 <= j < |s| ==> s[j].None?
    ensures LastSome(s).None?
  {
    if |s| > 0 {
      LastSomeNone(s[..|s| - 1]);
    }
  }
}
