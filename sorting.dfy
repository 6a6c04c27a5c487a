/**
 * `Array.prototype.sort` with a comparator, as the reports use it: a stable
 * sort in which `before(a, b)` says that the comparator puts `a` strictly
 * ahead of `b` (it returns a negative number), and code-unit order on
 * strings for `localeCompare`.
 */
module Sorting {
  import opened Text

  /** `x` placed ahead of the first element it must precede, after all others. */
  function Insert<T>(x: T, s: seq<T>, before: (T, T) -> bool): (r: seq<T>)
    ensures |r| == |s| + 1
    ensures multiset(r) == multiset(s) + multiset{x}
  {
    if |s| == 0 then [x]
    else if before(x, s[0]) then [x] + s
    else
      var rest := Insert(x, s[1..], before);
      assert s == [s[0]] + s[1..];
      [s[0]] + rest
  }

  /** A stable insertion sort: each element in turn is inserted behind the ones it does not precede. */
  function Sort<T>(s: seq<T>, before: (T, T) -> bool): (r: seq<T>)
    ensures |r| == |s|
    ensures multiset(r) == multiset(s)
  {
    if |s| == 0 then []
    else
      assert s == s[..|s| - 1] + [s[|s| - 1]];
      Insert(s[|s| - 1], Sort(s[..|s| - 1], before), before)
  }

  /** No element is preceded by the one behind it. */
  predicate Ordered<T>(s: seq<T>, before: (T, T) -> bool) {
    forall i :: 0 <= i < |s| - 1 ==> !before(s[i + 1], s[i])
  }

  /** A comparator never puts each of two elements ahead of the other. */
  ghost predicate Asymmetric<T(!new)>(before: (T, T) -> bool) {
    forall a: T, b: T :: before(a, b) ==> !before(b, a)
  }

  lemma {:induction false} InsertOrdered<T(!new)>(x: T, s: seq<T>, before: (T, T) -> bool)
    requires Asymmetric(before) && Ordered(s, before)
    ensures Ordered(Insert(x, s, before), before)
    ensures |s| > 0 ==> Insert(x, s, before)[0] == x || Insert(x, s, before)[0] == s[0]
  {
    if |s| > 0 && !before(x, s[0]) {
      InsertOrdered(x, s[1..], before);
    }
  }

  /** The result of sorting is ordered by the comparator. */
  lemma {:induction false} SortOrdered<T(!new)>(s: seq<T>, before: (T, T) -> bool)
    requires Asymmetric(before)
    ensures Ordered(Sort(s, before), before)
  {
    if |s| > 0 {
      SortOrdered(s[..|s| - 1], before);
      InsertOrdered(s[|s| - 1], Sort(s[..|s| - 1], before), before);
    }
  }

  /** No two elements share a key. */
  predicate DistinctBy<T>(s: seq<T>, key: T -> string) {
    forall i, j :: 0 <= i < j < |s| ==> key(s[i]) != key(s[j])
  }

  lemma {:induction false} InsertDistinctBy<T>(x: T, s: seq<T>, before: (T, T) -> bool, key: T -> string)
    requires DistinctBy(s, key)
    requires forall i :: 0 <= i < |s| ==> key(s[i]) != key(x)
    ensures DistinctBy(Insert(x, s, before), key)
  {
    if |s| > 0 && !before(x, s[0]) {
      var rest := Insert(x, s[1..], before);
      InsertDistinctBy(x, s[1..], before, key);
      forall j | 0 <= j < |rest|
        ensures key(rest[j]) != key(s[0])
      {
        assert rest[j] in multiset(rest);
        assert rest[j] == x || rest[j] in multiset(s[1..]);
      }
    }
  }

  /** Sorting keeps keys distinct. */
  lemma {:induction false} SortDistinctBy<T>(s: seq<T>, before: (T, T) -> bool, key: T -> string)
    requires DistinctBy(s, key)
    ensures DistinctBy(Sort(s, before), key)
  {
    if |s| > 0 {
      var init := s[..|s| - 1];
      var sorted := Sort(init, before);
      SortDistinctBy(init, before, key);
      forall i | 0 <= i < |sorted|
        ensures key(sorted[i]) != key(s[|s| - 1])
      {
        assert sorted[i] in multiset(sorted);
        assert sorted[i] in init;
      }
      InsertDistinctBy(s[|s| - 1], sorted, before, key);
    }
  }

  /** The sum of a real weight over a sequence. */
  function SumReal<T>(s: seq<T>, w: T -> real): real {
    if |s| == 0 then 0.0 else SumReal(s[..|s| - 1], w) + w(s[|s| - 1])
  }

  /** The sum of an integer weight over a sequence. */
  function SumInt<T>(s: seq<T>, w: T -> int): int {
    if |s| == 0 then 0 else SumInt(s[..|s| - 1], w) + w(s[|s| - 1])
  }

  lemma {:induction false} SumRealFront<T>(x: T, s: seq<T>, w: T -> real)
    ensures SumReal([x] + s, w) == w(x) + SumReal(s, w)
  {
    if |s| > 0 {
      assert ([x] + s)[..|s|] == [x] + s[..|s| - 1];
      SumRealFront(x, s[..|s| - 1], w);
    }
  }

  lemma {:induction false} SumIntFront<T>(x: T, s: seq<T>, w: T -> int)
    ensures SumInt([x] + s, w) == w(x) + SumInt(s, w)
  {
    if |s| > 0 {
      assert ([x] + s)[..|s|] == [x] + s[..|s| - 1];
      SumIntFront(x, s[..|s| - 1], w);
    }
  }

  lemma {:induction false} InsertSums<T>(x: T, s: seq<T>, before: (T, T) -> bool, w: T -> real, v: T -> int)
    ensures SumReal(Insert(x, s, before), w) == SumReal(s, w) + w(x)
    ensures SumInt(Insert(x, s, before), v) == SumInt(s, v) + v(x)
  {
    if |s| == 0 {
    } else if before(x, s[0]) {
      SumRealFront(x, s, w);
      SumIntFront(x, s, v);
    } else {
      InsertSums(x, s[1..], before, w, v);
      SumRealFront(s[0], Insert(x, s[1..], before), w);
      SumIntFront(s[0], Insert(x, s[1..], before), v);
      SumRealFront(s[0], s[1..], w);
      SumIntFront(s[0], s[1..], v);
      assert [s[0]] + s[1..] == s;
    }
  }

  /** Sorting does not change a column's sum. */
  lemma {:induction false} SortSums<T>(s: seq<T>, before: (T, T) -> bool, w: T -> real, v: T -> int)
    ensures SumReal(Sort(s, before), w) == SumReal(s, w)
    ensures SumInt(Sort(s, before), v) == SumInt(s, v)
  {
    if |s| > 0 {
      var init := s[..|s| - 1];
      SortSums(init, before, w, v);
      InsertSums(s[|s| - 1], Sort(init, before), before, w, v);
    }
  }

  /** Code-unit (lexicographic) order on strings: `a.localeCompare(b) < 0` on the keys the reports sort. */
  predicate StrLess(a: string, b: string) {
    if |a| == 0 then |b| > 0
    else if |b| == 0 then false
    else if a[0] != b[0] then a[0] < b[0]
    else StrLess(a[1..], b[1..])
  }

  lemma {:induction false} StrLessIrreflexive(a: string)
    ensures !StrLess(a, a)
  {
    if |a| > 0 {
      StrLessIrreflexive(a[1..]);
    }
  }

  lemma {:induction false} StrLessAsymmetric(a: string, b: string)
    ensures StrLess(a, b) ==> !StrLess(b, a)
  {
    if |a| > 0 && |b| > 0 && a[0] == b[0] {
      StrLessAsymmetric(a[1..], b[1..]);
    }
  }

  /** Two different strings are ordered one way or the other. */
  lemma {:induction false} StrLessTotal(a: string, b: string)
    requires a != b
    ensures StrLess(a, b) || StrLess(b, a)
  {
    if |a| > 0 && |b| > 0 && a[0] == b[0] {
      assert a == [a[0]] + a[1..] && b == [b[0]] + b[1..];
      StrLessTotal(a[1..], b[1..]);
    }
  }

  lemma {:induction false} StrLessTransitive(a: string, b: string, c: string)
    requires StrLess(a, b) && StrLess(b, c)
    ensures StrLess(a, c)
  {
    if |a| > 0 && a[0] == b[0] && b[0] == c[0] {
      StrLessTransitive(a[1..], b[1..], c[1..]);
    }
  }

  /** Comparing texts that start with parts of equal length compares those parts first. */
  lemma {:induction false} StrLessConcat(a: string, c: string, b: string, d: string)
    requires |a| == |b|
    ensures StrLess(a + c, b + d) <==> StrLess(a, b) || (a == b && StrLess(c, d))
  {
    if |a| > 0 {
      assert (a + c)[0] == a[0] && (b + d)[0] == b[0];
      assert (a + c)[1..] == a[1..] + c && (b + d)[1..] == b[1..] + d;
      StrLessConcat(a[1..], c, b[1..], d);
      if a[0] == b[0] && a[1..] == b[1..] {
        assert a == [a[0]] + a[1..] && b == [b[0]] + b[1..];
      }
    } else {
      assert a + c == c && b + d == d;
    }
  }

  /** A digit string read from its first digit. */
  lemma {:induction false} DigitsValueFront(s: string)
    requires |s| > 0 && forall i :: 0 <= i < |s| ==> IsDigit(s[i])
    ensures DigitsValue(s) == DigitValue(s[0]) * Pow10(|s| - 1) + DigitsValue(s[1..])
  {
    if |s| > 1 {
      var init := s[..|s| - 1];
      DigitsValueFront(init);
      assert init[1..] == s[1..][..|s| - 2];
      assert Pow10(|s| - 1) == 10 * Pow10(|s| - 2);
      assert 10 * (DigitValue(s[0]) * Pow10(|s| - 2)) == DigitValue(s[0]) * Pow10(|s| - 1);
    }
  }

  /** A string of `n` digits is worth less than `10^n`. */
  lemma {:induction false} DigitsBound(s: string)
    requires forall i :: 0 <= i < |s| ==> IsDigit(s[i])
    ensures DigitsValue(s) < Pow10(|s|)
  {
    if |s| > 0 {
      DigitsBound(s[..|s| - 1]);
    }
  }

  /** A smaller leading digit makes a smaller number, whatever follows it. */
  lemma LeadingDigitDecides(x: nat, y: nat, p: nat, ra: nat, rb: nat)
    requires x < y && ra < p
    ensures x * p + ra < y * p + rb
  {
    assert (x + 1) * p <= y * p;
  }

  /** On digit strings of equal length, text order is numeric order. */
  lemma {:induction false} DigitOrder(a: string, b: string)
    requires |a| == |b|
    requires forall i :: 0 <= i < |a| ==> IsDigit(a[i])
    requires forall i :: 0 <= i < |b| ==> IsDigit(b[i])
    ensures StrLess(a, b) <==> DigitsValue(a) < DigitsValue(b)
  {
    if |a| > 0 {
      DigitsValueFront(a);
      DigitsValueFront(b);
      var p := Pow10(|a| - 1);
      var x, y := DigitValue(a[0]), DigitValue(b[0]);
      if x < y {
        DigitsBound(a[1..]);
        LeadingDigitDecides(x, y, p, DigitsValue(a[1..]), DigitsValue(b[1..]));
      } else if y < x {
        DigitsBound(b[1..]);
        LeadingDigitDecides(y, x, p, DigitsValue(b[1..]), DigitsValue(a[1..]));
      } else {
        DigitOrder(a[1..], b[1..]);
      }
    }
  }
}
