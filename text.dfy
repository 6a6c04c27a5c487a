/**
 * The string operations of the JavaScript runtime that the pipeline and the
 * reports rely on: whitespace, `trim`, `split`, `includes`, `startsWith`,
 * ASCII case mapping, `parseInt`, `parseFloat` on decimal text, number to
 * decimal text and `padStart(2, '0')`.
 */
module Text {
  import opened Wrappers

  /** JavaScript's `\s` (WhiteSpace and LineTerminator), also what `trim` removes. */
  predicate IsSpace(c: char) {
    || c == ' ' || c == '\t' || c == '\n' || c == '\r' || c == '\U{000B}' || c == '\U{000C}'
    || c == '\U{00A0}' || c == '\U{1680}' || ('\U{2000}' <= c <= '\U{200A}')
    || c == '\U{2028}' || c == '\U{2029}' || c == '\U{202F}' || c == '\U{205F}'
    || c == '\U{3000}' || c == '\U{FEFF}'
  }

  predicate IsDigit(c: char) { '0' <= c <= '9' }

  predicate IsAsciiLetter(c: char) { ('a' <= c <= 'z') || ('A' <= c <= 'Z') }

  /** The CJK range `[一-龥]` used by the source's patterns. */
  predicate IsHan(c: char) { '\U{4E00}' <= c <= '\U{9FA5}' }

  predicate AllSpace(s: string) { forall i :: 0 <= i < |s| ==> IsSpace(s[i]) }

  // ---------------------------------------------------------------- trim

  /** The number of whitespace characters `s` starts with. */
  function LeadingSpaces(s: string): (n: nat)
    ensures n <= |s| && (forall i :: 0 <= i < n ==> IsSpace(s[i])) && (n < |s| ==> !IsSpace(s[n]))
  {
    if |s| > 0 && IsSpace(s[0]) then 1 + LeadingSpaces(s[1..]) else 0
  }

  /** The number of whitespace characters `s` ends with. */
  function TrailingSpaces(s: string): (n: nat)
    ensures n <= |s| && (forall i :: |s| - n <= i < |s| ==> IsSpace(s[i])) && (n < |s| ==> !IsSpace(s[|s| - n - 1]))
  {
    if |s| > 0 && IsSpace(s[|s| - 1]) then 1 + TrailingSpaces(s[..|s| - 1]) else 0
  }

  function TrimStart(s: string): (r: string)
    ensures |r| <= |s| && r == s[|s| - |r|..]
    ensures r == [] || !IsSpace(r[0])
    ensures AllSpace(s[..|s| - |r|])
  {
    s[LeadingSpaces(s)..]
  }

  function TrimEnd(s: string): (r: string)
    ensures |r| <= |s| && r == s[..|r|]
    ensures r == [] || !IsSpace(r[|r| - 1])
    ensures AllSpace(s[|r|..])
  {
    s[..|s| - TrailingSpaces(s)]
  }

  /** `String.prototype.trim`. */
  function Trim(s: string): (r: string)
    ensures r == [] || (!IsSpace(r[0]) && !IsSpace(r[|r| - 1]))
  {
    TrimEnd(TrimStart(s))
  }

  /** Trimming is the identity on text that neither starts nor ends with whitespace. */
  lemma TrimNoop(s: string)
    requires s == [] || (!IsSpace(s[0]) && !IsSpace(s[|s| - 1]))
    ensures Trim(s) == s
  {
  }

  /** Trimming twice is trimming once. */
  lemma TrimIdempotent(s: string)
    ensures Trim(Trim(s)) == Trim(s)
  {
    TrimNoop(Trim(s));
  }

  /** A blank line (all whitespace) trims to the empty string, and only a blank one does. */
  lemma {:induction false} TrimEmptyIffBlank(s: string)
    ensures Trim(s) == [] <==> AllSpace(s)
  {
    var a := TrimStart(s);
    if a == [] {
      assert s[..|s| - |a|] == s;
    } else {
      assert !IsSpace(a[0]) && a[0] == s[|s| - |a|];
      assert a[0..] == a;
      assert !AllSpace(a);
    }
  }

  // ---------------------------------------------------------------- search

  predicate StartsWith(s: string, p: string) {
    |p| <= |s| && s[..|p|] == p
  }

  /** `s.includes(p)`. */
  predicate Contains(s: string, p: string)
    decreases |s|
  {
    StartsWith(s, p) || (|s| > 0 && Contains(s[1..], p))
  }

  /** The leftmost index at which `p` occurs in `s` (`indexOf`). */
  function IndexOf(s: string, p: string): (r: Option<nat>)
    decreases |s|
    ensures r.Some? <==> Contains(s, p)
    ensures r.Some? ==> r.value + |p| <= |s| && s[r.value..r.value + |p|] == p
    ensures r.Some? ==> forall j :: 0 <= j < r.value ==> !StartsWith(s[j..], p)
  {
    if StartsWith(s, p) then Some(0)
    else if |s| == 0 then None
    else
      var rest := IndexOf(s[1..], p);
      if rest.None? then None
      else
        var k := rest.value;
        assert k + |p| <= |s[1..]| && s[1..][k..k + |p|] == p;
        TailSlice(s, k, k + |p|);
        assert forall j :: 1 <= j < k + 1 ==> s[j..] == s[1..][j - 1..];
        Some(k + 1)
  }

  /** A slice of the tail is the slice of the text one place further on. */
  lemma TailSlice(s: string, i: nat, j: nat)
    requires |s| > 0 && i <= j <= |s| - 1
    ensures s[1..][i..j] == s[i + 1..j + 1]
  {
  }

  /** Containment gives an occurrence at some position. */
  lemma {:induction false} Occurrence(s: string, p: string) returns (i: nat)
    requires Contains(s, p)
    ensures i + |p| <= |s| && s[i..i + |p|] == p
  {
    if StartsWith(s, p) {
      i := 0;
    } else {
      var k := Occurrence(s[1..], p);
      TailSlice(s, k, k + |p|);
      i := k + 1;
    }
  }

  /** Occurrence at an explicit position gives containment. */
  lemma {:induction false} ContainsAt(s: string, p: string, i: nat)
    requires i + |p| <= |s| && s[i..i + |p|] == p
    ensures Contains(s, p)
  {
    if i > 0 {
      assert s[1..][i - 1..i - 1 + |p|] == p;
      ContainsAt(s[1..], p, i - 1);
    }
  }

  /** A string containing `p` extended on either side still contains it. */
  lemma ContainsInfix(a: string, s: string, b: string, p: string)
    requires Contains(s, p)
    ensures Contains(a + s + b, p)
  {
    var i := Occurrence(s, p);
    assert (a + s + b)[|a| + i..|a| + i + |p|] == s[i..i + |p|];
    ContainsAt(a + s + b, p, |a| + i);
  }

  /** A text without the first character of `p` does not contain `p`. */
  lemma {:induction false} MissingCharNotContained(s: string, p: string)
    requires |p| > 0 && forall i :: 0 <= i < |s| ==> s[i] != p[0]
    ensures !Contains(s, p)
  {
    if |p| <= |s| {
      assert s[..|p|][0] != p[0];
    }
    if |s| > 0 {
      MissingCharNotContained(s[1..], p);
    }
  }

  /** Trimming the start keeps an infix that does not start with whitespace. */
  lemma TrimStartKeepsInfix(s: string, p: string)
    requires |p| > 0 && !IsSpace(p[0]) && Contains(s, p)
    ensures Contains(TrimStart(s), p)
  {
    var i := Occurrence(s, p);
    var n := LeadingSpaces(s);
    assert s[i] == p[0] by { assert s[i..i + |p|][0] == s[i]; }
    assert !IsSpace(s[i]);
    assert n <= i;
    var r := s[n..];
    assert r[i - n..i - n + |p|] == p by {
      assert r[i - n..i - n + |p|] == s[i..i + |p|];
    }
    ContainsAt(r, p, i - n);
  }

  /** Trimming the end keeps an infix that does not end with whitespace. */
  lemma TrimEndKeepsInfix(s: string, p: string)
    requires |p| > 0 && !IsSpace(p[|p| - 1]) && Contains(s, p)
    ensures Contains(TrimEnd(s), p)
  {
    var i := Occurrence(s, p);
    var m := TrailingSpaces(s);
    var j := i + |p| - 1;
    assert s[j] == p[|p| - 1] by { assert s[i..i + |p|][|p| - 1] == s[j]; }
    assert !IsSpace(s[j]);
    assert j < |s| - m;
    var r := s[..|s| - m];
    assert r[i..i + |p|] == p by {
      assert r[i..i + |p|] == s[i..i + |p|];
    }
    ContainsAt(r, p, i);
  }

  /** Trimming keeps an infix that neither starts nor ends with whitespace. */
  lemma TrimKeepsInfix(s: string, p: string)
    requires |p| > 0 && !IsSpace(p[0]) && !IsSpace(p[|p| - 1]) && Contains(s, p)
    ensures Contains(Trim(s), p)
  {
    TrimStartKeepsInfix(s, p);
    TrimEndKeepsInfix(TrimStart(s), p);
  }

  // ---------------------------------------------------------------- split

  /** `s.split(c)` for a one-character separator: one more part than separators. */
  function Split(s: string, c: char): (parts: seq<string>)
    ensures |parts| >= 1
    ensures forall k :: 0 <= k < |parts| ==> c !in parts[k]
  {
    if |s| == 0 then [""]
    else
      var rest := Split(s[1..], c);
      if s[0] == c then [""] + rest
      else [[s[0]] + rest[0]] + rest[1..]
  }

  /** `parts.join(c)`. */
  function Join(parts: seq<string>, c: char): string
    requires |parts| >= 1
  {
    if |parts| == 1 then parts[0] else parts[0] + [c] + Join(parts[1..], c)
  }

  /** Splitting loses nothing: joining the parts with the separator gives the text back. */
  lemma {:induction false} JoinSplit(s: string, c: char)
    ensures Join(Split(s, c), c) == s
  {
    if |s| > 0 {
      var rest := Split(s[1..], c);
      JoinSplit(s[1..], c);
      if s[0] == c {
        assert Split(s, c)[1..] == rest;
      } else if |rest| == 1 {
        assert Join(Split(s, c), c) == [s[0]] + rest[0];
      } else {
        var parts := Split(s, c);
        assert parts[1..] == rest[1..];
        calc {
          Join(parts, c);
          ([s[0]] + rest[0]) + [c] + Join(rest[1..], c);
          [s[0]] + (rest[0] + [c] + Join(rest[1..], c));
          [s[0]] + Join(rest, c);
        }
      }
    }
  }

  /** A text without the separator is a single part. */
  lemma {:induction false} SplitNoSeparator(p: string, c: char)
    requires c !in p
    ensures Split(p, c) == [p]
  {
    if |p| > 0 {
      SplitNoSeparator(p[1..], c);
      assert [p[0]] + p[1..] == p;
    }
  }

  /** A first part free of the separator is split off as it is. */
  lemma {:induction false} SplitFirstPart(p: string, c: char, rest: string)
    requires c !in p
    ensures Split(p + [c] + rest, c) == [p] + Split(rest, c)
  {
    var s := p + [c] + rest;
    if |p| == 0 {
      assert s[1..] == rest;
    } else {
      assert s[1..] == p[1..] + [c] + rest;
      SplitFirstPart(p[1..], c, rest);
      assert [p[0]] + p[1..] == p;
    }
  }

  /** Joining parts free of the separator and splitting again gives the parts back. */
  lemma {:induction false} SplitJoin(parts: seq<string>, c: char)
    requires |parts| >= 1
    requires forall k :: 0 <= k < |parts| ==> c !in parts[k]
    ensures Split(Join(parts, c), c) == parts
  {
    if |parts| == 1 {
      SplitNoSeparator(parts[0], c);
    } else {
      SplitJoin(parts[1..], c);
      SplitFirstPart(parts[0], c, Join(parts[1..], c));
      assert [parts[0]] + parts[1..] == parts;
    }
  }

  // ---------------------------------------------------------------- case

  function UpperChar(c: char): char {
    if 'a' <= c <= 'z' then (c as int - 32) as char else c
  }

  function LowerChar(c: char): char {
    if 'A' <= c <= 'Z' then (c as int + 32) as char else c
  }

  /** `toUpperCase`, for the ASCII letters. */
  function Upper(s: string): (r: string)
    ensures |r| == |s| && forall i :: 0 <= i < |s| ==> r[i] == UpperChar(s[i])
  {
    seq(|s|, i requires 0 <= i < |s| => UpperChar(s[i]))
  }

  /** `toLowerCase`, for the ASCII letters. */
  function Lower(s: string): (r: string)
    ensures |r| == |s| && forall i :: 0 <= i < |s| ==> r[i] == LowerChar(s[i])
  {
    seq(|s|, i requires 0 <= i < |s| => LowerChar(s[i]))
  }

  /** Case mapping leaves characters outside A-Z/a-z alone, so text with no ASCII letter is its own upper case. */
  lemma UpperNoLetters(s: string)
    requires forall i :: 0 <= i < |s| ==> !IsAsciiLetter(s[i])
    ensures Upper(s) == s
  {
  }

  /** Lower-casing is idempotent. */
  lemma LowerIdempotent(s: string)
    ensures Lower(Lower(s)) == Lower(s)
  {
  }

  /** Case mapping commutes with slicing, so a match in the mapped text is a mapped match. */
  lemma {:induction false} LowerContains(s: string, p: string)
    requires Contains(s, p)
    ensures Contains(Lower(s), Lower(p))
  {
    var i := Occurrence(s, p);
    assert Lower(s)[i..i + |p|] == Lower(p);
    ContainsAt(Lower(s), Lower(p), i);
  }

  // ---------------------------------------------------------------- numbers

  /** The number of leading decimal digits. */
  function DigitRun(s: string): (n: nat)
    ensures n <= |s|
    ensures forall i :: 0 <= i < n ==> IsDigit(s[i])
    ensures n < |s| ==> !IsDigit(s[n])
  {
    if |s| > 0 && IsDigit(s[0]) then 1 + DigitRun(s[1..]) else 0
  }

  function DigitValue(c: char): nat requires IsDigit(c) { c as int - '0' as int }

  /** The value of a string of decimal digits (most significant first). */
  function DigitsValue(s: string): nat
    requires forall i :: 0 <= i < |s| ==> IsDigit(s[i])
  {
    if |s| == 0 then 0 else 10 * DigitsValue(s[..|s| - 1]) + DigitValue(s[|s| - 1])
  }

  function Pow10(n: nat): (r: nat) ensures r > 0 {
    if n == 0 then 1 else 10 * Pow10(n - 1)
  }

  /**
   * `parseFloat` on text made of digits and dots, which is all the source
   * feeds it: the longest leading `\d*(\.\d*)?` with at least one digit, else NaN (None).
   */
  function ParseDecimal(s: string): (r: Option<real>)
    ensures r.Some? ==> r.value >= 0.0
    ensures r.None? <==> DigitRun(s) == 0 && (|s| == 0 || s[0] != '.' || DigitRun(s[1..]) == 0)
  {
    var a := DigitRun(s);
    var whole := DigitsValue(s[..a]) as real;
    if a < |s| && s[a] == '.' then
      var rest := s[a + 1..];
      var b := DigitRun(rest);
      if a == 0 && b == 0 then None
      else
        assert forall i :: 0 <= i < b ==> IsDigit(rest[..b][i]);
        Some(whole + DigitsValue(rest[..b]) as real / Pow10(b) as real)
    else if a == 0 then None
    else Some(whole)
  }

  /**
   * `parseInt(s)`: optional leading whitespace and sign, then digits; NaN
   * (None) without a digit. The `0x` prefix that switches `parseInt` to
   * base 16 is not modelled: a string starting `0x` reads as 0 here.
   */
  function ParseInt(s: string): (r: Option<int>)
    ensures r.Some? ==> exists k :: 0 <= k < |s| && IsDigit(s[k])
  {
    var t := TrimStart(s);
    var neg := |t| > 0 && t[0] == '-';
    var body := if |t| > 0 && (t[0] == '-' || t[0] == '+') then t[1..] else t;
    var n := DigitRun(body);
    if n == 0 then None
    else
      assert IsDigit(body[0]) && body[0] == s[|s| - |body|];
      var v: int := DigitsValue(body[..n]);
      Some(if neg then -v else v)
  }

  /** `String(n)` for a natural number. */
  function NatToString(n: nat): (r: string)
    ensures |r| >= 1 && forall i :: 0 <= i < |r| ==> IsDigit(r[i])
  {
    var d := ['0' + (n % 10) as char];
    if n < 10 then d else NatToString(n / 10) + d
  }

  /** Decimal text reads back as the number it was written from. */
  lemma {:induction false} ParseNatToString(n: nat)
    ensures DigitsValue(NatToString(n)) == n
  {
    var r := NatToString(n);
    if n >= 10 {
      ParseNatToString(n / 10);
      assert r[..|r| - 1] == NatToString(n / 10);
    }
  }

  /** `String(n)` for an integer. */
  function IntToString(n: int): (r: string)
    ensures n >= 0 ==> r == NatToString(n)
  {
    if n < 0 then "-" + NatToString(-n) else NatToString(n)
  }

  /** `s.substring(0, n)` or `s.slice(0, n)`: the first `n` elements, or all of a shorter sequence. */
  function Prefix<T>(s: seq<T>, n: nat): (r: seq<T>)
    ensures |r| <= n && |r| <= |s| && r == s[..|r|]
    ensures |s| >= n ==> |r| == n
    ensures |s| <= n ==> r == s
  {
    if |s| <= n then s else s[..n]
  }

  /** A number below 10000 is written with at most four digits. */
  lemma {:induction false} NatToStringShort(n: nat)
    requires n < 10000
    ensures |NatToString(n)| <= 4
  {
    if n >= 10 {
      NatToStringShort(n / 10);
      if n >= 1000 {
        NatToStringDigits(n / 10, 3);
      }
    }
  }

  lemma {:induction false} NatToStringDigits(n: nat, k: nat)
    requires n < Pow10(k) && k > 0
    ensures |NatToString(n)| <= k
  {
    if n >= 10 {
      assert k > 1;
      assert n / 10 < Pow10(k - 1);
      NatToStringDigits(n / 10, k - 1);
    }
  }

  /** `parseInt` reads a string of digits back as their value. */
  lemma ParseIntDigits(s: string)
    requires |s| > 0 && forall i :: 0 <= i < |s| ==> IsDigit(s[i])
    ensures ParseInt(s) == Some(DigitsValue(s) as int)
  {
    assert !IsSpace(s[0]) && s[0] != '-' && s[0] != '+';
    assert TrimStart(s) == s;
    DigitRunAll(s);
    assert s[..DigitRun(s)] == s;
  }

  lemma {:induction false} DigitRunAll(s: string)
    requires forall i :: 0 <= i < |s| ==> IsDigit(s[i])
    ensures DigitRun(s) == |s|
  {
    if |s| > 0 {
      DigitRunAll(s[1..]);
    }
  }

  /** A digit run that stops at a non-digit has exactly that length. */
  lemma {:induction false} DigitRunStops(s: string, m: nat)
    requires m < |s| && !IsDigit(s[m])
    requires forall i :: 0 <= i < m ==> IsDigit(s[i])
    ensures DigitRun(s) == m
  {
    if m > 0 {
      DigitRunStops(s[1..], m - 1);
    }
  }

  /** `parseInt(String(n).substring(0, 4))` is `n` for a number of at most four digits. */
  lemma ParseShortNat(n: nat)
    requires n < 10000
    ensures ParseInt(Prefix(NatToString(n), 4)) == Some(n)
  {
    NatToStringShort(n);
    ParseNatToString(n);
    ParseIntDigits(NatToString(n));
  }

  /** `n` zeros. */
  function Zeros(n: nat): (z: string)
    ensures |z| == n && forall k :: 0 <= k < n ==> z[k] == '0'
  {
    seq(n, _ => '0')
  }

  /** `s.padStart(width, '0')`: zeros in front up to `width` characters. */
  function PadStart(s: string, width: nat): (r: string)
    ensures |r| == if |s| >= width then |s| else width
    ensures r[|r| - |s|..] == s
    ensures forall k :: 0 <= k < |r| - |s| ==> r[k] == '0'
  {
    if |s| >= width then s else Zeros(width - |s|) + s
  }

  /** Two texts of the same shape, a part of fixed length, a separator and the rest, have the same parts. */
  lemma SameShapeParts(x1: string, sep: string, y1: string, x2: string, y2: string)
    requires x1 + sep + y1 == x2 + sep + y2 && |x1| == |x2|
    ensures x1 == x2 && y1 == y2
  {
    var s1, s2 := x1 + sep + y1, x2 + sep + y2;
    assert x1 == s1[..|x1|] && x2 == s2[..|x2|];
    assert y1 == s1[|x1| + |sep|..] && y2 == s2[|x2| + |sep|..];
  }

  /** A leading zero does not change the value of a digit string. */
  lemma {:induction false} LeadingZero(s: string)
    requires forall i :: 0 <= i < |s| ==> IsDigit(s[i])
    ensures DigitsValue(['0'] + s) == DigitsValue(s)
  {
    if |s| > 0 {
      assert (['0'] + s)[..|s|] == ['0'] + s[..|s| - 1];
      LeadingZero(s[..|s| - 1]);
    }
  }

  /** Zeros in front keep the value of a digit string. */
  lemma {:induction false} ZerosValue(n: nat, s: string)
    requires forall i :: 0 <= i < |s| ==> IsDigit(s[i])
    ensures forall i :: 0 <= i < n + |s| ==> IsDigit((Zeros(n) + s)[i])
    ensures DigitsValue(Zeros(n) + s) == DigitsValue(s)
  {
    if n > 0 {
      var rest := Zeros(n - 1) + s;
      ZerosValue(n - 1, s);
      assert Zeros(n) + s == ['0'] + rest;
      LeadingZero(rest);
      assert DigitsValue(['0'] + rest) == DigitsValue(rest);
    } else {
      assert Zeros(n) + s == s;
    }
  }

  /** Zero padding keeps the value of a digit string. */
  lemma PadStartValue(s: string, width: nat)
    requires forall i :: 0 <= i < |s| ==> IsDigit(s[i])
    ensures forall i :: 0 <= i < |PadStart(s, width)| ==> IsDigit(PadStart(s, width)[i])
    ensures DigitsValue(PadStart(s, width)) == DigitsValue(s)
  {
    if |s| < width {
      ZerosValue(width - |s|, s);
    }
  }
}
