/**
 * The labelled-field patterns of the transfer-slip parser, stated without a
 * general regular-expression engine.
 *
 * Every pattern of the parser has the shape LABEL SEPARATOR CAPTURE:
 *  - LABEL is a list of alternatives, each a list of words that may be
 *    separated by whitespace (`汇款\s*日期`);
 *  - SEPARATOR is `\s*[：:=]` (the strict form) or `.*?[：:=]` (the lazy form,
 *    which skips anything but a line terminator and tries every separator in
 *    turn until the capture succeeds);
 *  - CAPTURE is one of the capture groups below.
 * A match is the leftmost start position, then the first alternative in the
 * listed order, then the first separator for which the capture succeeds.
 */
module Pattern {
  import opened Wrappers
  import opened Text

  /** A label alternative: words with optional whitespace between them. */
  type Label = seq<string>

  /** The separators `：`, `:` and `=`. */
  predicate IsSeparator(c: char) { c == '：' || c == ':' || c == '=' }

  /** The characters `.` does not match. */
  predicate IsLineTerminator(c: char) {
    c == '\n' || c == '\r' || c == '\U{2028}' || c == '\U{2029}'
  }

  datatype Form = Strict | Lazy

  datatype Capture =
    | NoCapture      // a `test`, not a `match`
    | FullDate       // \s*(\d{4}[-/]\d{1,2}[-/]\d{1,2})
    | PartialDate    // \s*(\d{1,2}[-/]\d{1,2})
    | Digits         // \s*(\d+)
    | DecimalChars   // \s*([\d.]+)
    | NumberChars    // \s*([\d,.\s]+)
    | AccountChars   // \s*([A-Z0-9\s-]+) with the i flag
    | CodeOrHan      // \s*([A-Z]{3}|[一-龥]+) with the i flag
    | RestOfLine     // \s*(.+)

  /** The first position at or after `i` that is not whitespace (greedy `\s*`). */
  function SkipSpace(t: string, i: nat): (j: nat)
    requires i <= |t|
    ensures i <= j <= |t| && (j < |t| ==> !IsSpace(t[j]))
    ensures forall k :: i <= k < j ==> IsSpace(t[k])
    decreases |t| - i
  {
    if i < |t| && IsSpace(t[i]) then SkipSpace(t, i + 1) else i
  }

  /** The length of the longest run of characters satisfying `p` at the start of `s`. */
  function Run(s: string, p: char -> bool): (n: nat)
    ensures n <= |s| && (forall k :: 0 <= k < n ==> p(s[k])) && (n < |s| ==> !p(s[n]))
  {
    if |s| > 0 && p(s[0]) then 1 + Run(s[1..], p) else 0
  }

  predicate IsDateSeparator(c: char) { c == '-' || c == '/' }
  predicate IsDecimalChar(c: char) { IsDigit(c) || c == '.' }
  predicate IsNumberChar(c: char) { IsDigit(c) || c == ',' || c == '.' || IsSpace(c) }
  predicate IsAccountChar(c: char) { IsAsciiLetter(c) || IsDigit(c) || IsSpace(c) || c == '-' }

  /** `\d{1,2}` followed by something other than a digit: greedy, so up to two digits. */
  function UpToTwoDigits(t: string, i: nat): (n: nat)
    requires i <= |t|
    ensures n <= 2 && i + n <= |t| && forall k :: i <= k < i + n ==> IsDigit(t[k])
  {
    var r := DigitRun(t[i..]);
    if r >= 2 then 2 else r
  }

  /** The shape of a `\d{1,2}[-/]\d{1,2}` capture: one or two digits, a separator, one or two digits. */
  predicate MonthDayShape(g: string) {
    var m := DigitRun(g);
    1 <= m <= 2 && m + 2 <= |g| <= m + 3 && IsDateSeparator(g[m])
    && forall k :: m < k < |g| ==> IsDigit(g[k])
  }

  /** The number the month (first) part of a month-day capture reads as. */
  function MonthOf(g: string): nat
    requires MonthDayShape(g)
  {
    DigitsValue(g[..DigitRun(g)])
  }

  /** The number the day (last) part of a month-day capture reads as. */
  function DayOf(g: string): nat
    requires MonthDayShape(g)
  {
    DigitsValue(g[DigitRun(g) + 1..])
  }

  /** The shape of a `\d{4}[-/]\d{1,2}[-/]\d{1,2}` capture. */
  predicate FullDateShape(g: string) {
    |g| >= 5 && (forall k :: 0 <= k < 4 ==> IsDigit(g[k])) && IsDateSeparator(g[4])
    && MonthDayShape(g[5..])
  }

  /** The shape of a `[A-Z]{3}|[一-龥]+` capture (case-insensitive). */
  predicate CodeOrHanShape(g: string) {
    (|g| == 3 && forall k :: 0 <= k < 3 ==> IsAsciiLetter(g[k]))
    || (|g| > 0 && forall k :: 0 <= k < |g| ==> IsHan(g[k]))
  }

  /** `\d{1,2}[-/]\d{1,2}` at `i`: the end of the match. */
  function MonthDayEnd(t: string, i: nat): (r: Option<nat>)
    requires i <= |t|
    ensures r.Some? ==> i + 3 <= r.value <= |t| && MonthDayShape(t[i..r.value])
  {
    var m := UpToTwoDigits(t, i);
    if m == 0 || i + m >= |t| || !IsDateSeparator(t[i + m]) then None
    else
      var d := UpToTwoDigits(t, i + m + 1);
      if d == 0 then None
      else
        MonthDayCaptured(t, i, m, d);
        Some(i + m + 1 + d)
  }

  lemma MonthDayCaptured(t: string, i: nat, m: nat, d: nat)
    requires 1 <= m <= 2 && 1 <= d <= 2 && i + m + 1 + d <= |t| && IsDateSeparator(t[i + m])
    requires forall k :: i <= k < i + m ==> IsDigit(t[k])
    requires forall k :: i + m + 1 <= k < i + m + 1 + d ==> IsDigit(t[k])
    ensures MonthDayShape(t[i..i + m + 1 + d])
  {
    var g := t[i..i + m + 1 + d];
    DigitRunStops(g, m);
  }

  /** What every capture of a kind looks like. */
  predicate Shaped(kind: Capture, g: string) {
    match kind
    case NoCapture => g == ""
    case Digits => |g| > 0 && forall k :: 0 <= k < |g| ==> IsDigit(g[k])
    case DecimalChars => |g| > 0 && forall k :: 0 <= k < |g| ==> IsDecimalChar(g[k])
    case NumberChars => |g| > 0 && forall k :: 0 <= k < |g| ==> IsNumberChar(g[k])
    case AccountChars => |g| > 0 && forall k :: 0 <= k < |g| ==> IsAccountChar(g[k])
    case RestOfLine => true
    case FullDate => FullDateShape(g)
    case PartialDate => MonthDayShape(g)
    case CodeOrHan => CodeOrHanShape(g)
  }

  /** The non-empty run of characters satisfying `p` that starts at `i`. */
  function RunAt(t: string, i: nat, p: char -> bool): (r: Option<string>)
    requires i <= |t|
    ensures r.Some? ==> |r.value| > 0 && forall k :: 0 <= k < |r.value| ==> p(r.value[k])
  {
    var n := Run(t[i..], p);
    if n == 0 then None else Some(t[i..i + n])
  }

  /** `\d{4}[-/]\d{1,2}[-/]\d{1,2}` at `s`. */
  function FullDateAt(t: string, s: nat): (r: Option<string>)
    requires s <= |t|
    ensures r.Some? ==> FullDateShape(r.value)
  {
    if s + 5 <= |t| && DigitRun(t[s..]) >= 4 && IsDateSeparator(t[s + 4]) then
      match MonthDayEnd(t, s + 5)
      case Some(e) =>
        assert t[s..e][5..] == t[s + 5..e];
        Some(t[s..e])
      case None => None
    else None
  }

  /** `\d{1,2}[-/]\d{1,2}` at `s`. */
  function PartialDateAt(t: string, s: nat): (r: Option<string>)
    requires s <= |t|
    ensures r.Some? ==> MonthDayShape(r.value)
  {
    match MonthDayEnd(t, s)
    case Some(e) => Some(t[s..e])
    case None => None
  }

  /** `[A-Z]{3}|[一-龥]+` (case-insensitive) at `s`. */
  function CodeOrHanAt(t: string, s: nat): (r: Option<string>)
    requires s <= |t|
    ensures r.Some? ==> CodeOrHanShape(r.value)
  {
    if s + 3 <= |t| && IsAsciiLetter(t[s]) && IsAsciiLetter(t[s + 1]) && IsAsciiLetter(t[s + 2]) then
      Some(t[s..s + 3])
    else RunAt(t, s, IsHan)
  }

  /** `.+` at `s`: the rest of the line. */
  function RestOfLineAt(t: string, s: nat): (r: Option<string>)
    requires s <= |t|
  {
    // the parser's lines are trimmed, so text after a separator never ends in whitespace
    if s == |t| then None
    else
      var n := Run(t[s..], c => !IsLineTerminator(c));
      Some(t[s..s + n])
  }

  /** The capture group that follows a separator ending just before `p`. */
  function CaptureAt(t: string, p: nat, kind: Capture): (r: Option<string>)
    requires p <= |t|
    ensures kind == NoCapture ==> r.Some?
    ensures r.Some? ==> Shaped(kind, r.value)
  {
    var s := SkipSpace(t, p);
    match kind
    case NoCapture => Some("")
    case FullDate => FullDateAt(t, s)
    case PartialDate => PartialDateAt(t, s)
    case Digits => RunAt(t, s, IsDigit)
    case DecimalChars => RunAt(t, s, IsDecimalChar)
    // whitespace belongs to these two classes, so their runs start right after the separator
    case NumberChars => RunAt(t, p, IsNumberChar)
    case AccountChars => RunAt(t, p, IsAccountChar)
    case CodeOrHan => CodeOrHanAt(t, s)
    case RestOfLine => RestOfLineAt(t, s)
  }

  /** The end of the words of `alt` matched at `i`, if they match there. */
  function LabelEnd(t: string, i: nat, alt: Label): (r: Option<nat>)
    requires i <= |t|
    ensures r.Some? ==> i <= r.value <= |t|
    ensures r.Some? && |alt| > 0 ==> StartsWith(t[i..], alt[0])
    decreases |alt|
  {
    if |alt| == 0 then Some(i)
    else if StartsWith(t[i..], alt[0]) then
      var e := i + |alt[0]|;
      if |alt| == 1 then Some(e) else LabelEnd(t, SkipSpace(t, e), alt[1..])
    else None
  }

  /** The lazy `.*?[：:=]`: separators from `q` on, up to the end of the line. */
  function LazyFrom(t: string, q: nat, kind: Capture): (r: Option<string>)
    requires q <= |t|
    ensures r.Some? ==> Shaped(kind, r.value)
    decreases |t| - q
  {
    if q == |t| || IsLineTerminator(t[q]) then None
    else if IsSeparator(t[q]) && CaptureAt(t, q + 1, kind).Some? then CaptureAt(t, q + 1, kind)
    else LazyFrom(t, q + 1, kind)
  }

  /** Separator and capture after a label alternative ending at `e`. */
  function AfterLabel(t: string, e: nat, form: Form, kind: Capture): (r: Option<string>)
    requires e <= |t|
    ensures r.Some? ==> Shaped(kind, r.value)
  {
    match form
    case Strict =>
      var q := SkipSpace(t, e);
      if q < |t| && IsSeparator(t[q]) then CaptureAt(t, q + 1, kind) else None
    case Lazy => LazyFrom(t, e, kind)
  }

  /** The alternatives of `labels`, in order, at start position `i`. */
  function TryLabels(t: string, i: nat, labels: seq<Label>, form: Form, kind: Capture): (r: Option<string>)
    requires i <= |t|
    ensures r.Some? ==> Shaped(kind, r.value)
    decreases |labels|
  {
    if |labels| == 0 then None
    else
      var r := match LabelEnd(t, i, labels[0])
        case Some(e) => AfterLabel(t, e, form, kind)
        case None => None;
      if r.Some? then r else TryLabels(t, i, labels[1..], form, kind)
  }

  /** The leftmost match starting at or after `i`. */
  function MatchFrom(t: string, i: nat, labels: seq<Label>, form: Form, kind: Capture): (r: Option<string>)
    requires i <= |t|
    ensures r.Some? ==> Shaped(kind, r.value)
    decreases |t| - i
  {
    var r := TryLabels(t, i, labels, form, kind);
    if r.Some? || i == |t| then r else MatchFrom(t, i + 1, labels, form, kind)
  }

  /** `t.match(pattern)`: the capture group of the first match, if any. */
  function Match(t: string, labels: seq<Label>, form: Form, kind: Capture): (r: Option<string>)
    ensures r.Some? ==> Shaped(kind, r.value)
  {
    MatchFrom(t, 0, labels, form, kind)
  }

  /** `pattern.test(t)`. */
  predicate Test(t: string, labels: seq<Label>, form: Form) {
    Match(t, labels, form, NoCapture).Some?
  }

  /** A match starts with the first word of one of the label alternatives. */
  lemma {:induction false} MatchHasLabel(t: string, i: nat, labels: seq<Label>, form: Form, kind: Capture)
    requires i <= |t| && MatchFrom(t, i, labels, form, kind).Some?
    requires forall k :: 0 <= k < |labels| ==> |labels[k]| > 0
    ensures exists k :: 0 <= k < |labels| && Contains(t, labels[k][0])
    decreases |t| - i
  {
    if TryLabels(t, i, labels, form, kind).Some? {
      TryLabelsHasLabel(t, i, labels, form, kind);
    } else {
      MatchHasLabel(t, i + 1, labels, form, kind);
    }
  }

  lemma {:induction false} TryLabelsHasLabel(t: string, i: nat, labels: seq<Label>, form: Form, kind: Capture)
    requires i <= |t| && TryLabels(t, i, labels, form, kind).Some?
    requires forall k :: 0 <= k < |labels| ==> |labels[k]| > 0
    ensures exists k :: 0 <= k < |labels| && Contains(t, labels[k][0])
    decreases |labels|
  {
    if LabelEnd(t, i, labels[0]).Some? {
      var w := labels[0][0];
      assert t[i..i + |w|] == w;
      ContainsAt(t, w, i);
      assert Contains(t, labels[0][0]);
    } else {
      TryLabelsHasLabel(t, i, labels[1..], form, kind);
      var k :| 0 <= k < |labels[1..]| && Contains(t, labels[1..][k][0]);
      assert labels[1..][k] == labels[k + 1];
    }
  }
}
