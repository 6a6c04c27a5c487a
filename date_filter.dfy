/**
 * The period picker (`DateRangeFilter`): the filter state shared with the
 * dashboard, the year and day choices it offers, and its updates.
 */
module DateRange {
  import opened Wrappers

  /** The filter state: all four values are the strings the selects hold. */
  datatype DateFilter = DateFilter(filterMode: string, year: string, month: string, day: string)

  /** The first year the picker offers. */
  const FirstYear := 2024

  /** `generateYears`: 2024 up to and including the year after `current`. */
  method GenerateYears(current: int) returns (years: seq<int>)
    ensures |years| == if current + 2 >= FirstYear then current + 2 - FirstYear else 0
    ensures forall i :: 0 <= i < |years| ==> years[i] == FirstYear + i
    ensures forall y :: y in years <==> FirstYear <= y <= current + 1
  {
    years := [];
    var y := FirstYear;
    while y <= current + 1
      invariant FirstYear <= y
      invariant y <= current + 2 || y == FirstYear
      invariant |years| == y - FirstYear
      invariant forall i :: 0 <= i < |years| ==> years[i] == FirstYear + i
      decreases current + 2 - y
    {
      years := years + [y];
      y := y + 1;
    }
    forall y' | FirstYear <= y' <= current + 1
      ensures y' in years
    {
      assert years[y' - FirstYear] == y';
    }
  }

  /** The Gregorian leap-year rule. */
  predicate Leap(y: int) {
    (y % 4 == 0 && y % 100 != 0) || y % 400 == 0
  }

  /** The number of days of month `m` (1 to 12) of year `y`. */
  function DaysIn(y: int, m: int): (n: nat)
    requires 1 <= m <= 12
    ensures 28 <= n <= 31
    ensures m == 2 ==> (n == 29 <==> Leap(y))
  {
    if m == 2 then (if Leap(y) then 29 else 28)
    else if m == 4 || m == 6 || m == 9 || m == 11 then 30
    else 31
  }

  /**
   * `new Date(year, month, 0).getDate()`: day 0 of the 0-based month `month`
   * is the last day of the 1-based month `month`, after the constructor
   * carries months outside 1..12 into the year and maps the years 0..99 to
   * 1900..1999.
   */
  function LastDay(year: int, month: int): (n: nat)
    ensures 1 <= month <= 12 && !(0 <= year <= 99) ==> n == DaysIn(year, month)
  {
    var full := if 0 <= year <= 99 then 1900 + year else year;
    var y := full + (month - 1) / 12;
    var m := (month - 1) % 12 + 1;
    DaysIn(y, m)
  }

  /**
   * `generateDays(parseInt(year), parseInt(month))`: 1 up to the number of
   * days of that month; an unparseable year or month gives an Invalid Date
   * and so no days.
   */
  function GenerateDays(year: Option<int>, month: Option<int>): (days: seq<int>)
    ensures year.None? || month.None? ==> days == []
    ensures year.Some? && month.Some? ==> |days| == LastDay(year.value, month.value)
    ensures forall i :: 0 <= i < |days| ==> days[i] == i + 1
  {
    if year.None? || month.None? then []
    else seq(LastDay(year.value, month.value), i => i + 1)
  }

  /** February lists day 29 exactly in leap years. */
  lemma FebruaryFollowsLeapRule(year: int)
    requires !(0 <= year <= 99)
    ensures 29 in GenerateDays(Some(year), Some(2)) <==> Leap(year)
    ensures |GenerateDays(Some(year), Some(2))| == if Leap(year) then 29 else 28
  {
    var days := GenerateDays(Some(year), Some(2));
    if Leap(year) {
      assert days[28] == 29;
    }
  }

  /** The keys `set` and the mode select may change. */
  datatype FilterKey = ModeKey | YearKey | MonthKey | DayKey

  /** `set(key, value)`: `{ filterMode, year, month, day, [key]: value }`. */
  function Set(f: DateFilter, key: FilterKey, value: string): (r: DateFilter)
    ensures key == ModeKey ==> r == f.(filterMode := value)
    ensures key == YearKey ==> r == f.(year := value)
    ensures key == MonthKey ==> r == f.(month := value)
    ensures key == DayKey ==> r == f.(day := value)
  {
    match key
    case ModeKey => DateFilter(value, f.year, f.month, f.day)
    case YearKey => DateFilter(f.filterMode, value, f.month, f.day)
    case MonthKey => DateFilter(f.filterMode, f.year, value, f.day)
    case DayKey => DateFilter(f.filterMode, f.year, f.month, value)
  }

  /** The value stored under a key. */
  function ValueAt(f: DateFilter, key: FilterKey): string {
    match key
    case ModeKey => f.filterMode
    case YearKey => f.year
    case MonthKey => f.month
    case DayKey => f.day
  }

  /** `set` changes the value at its key and keeps the other three. */
  lemma SetReplacesOneKey(f: DateFilter, key: FilterKey, value: string, other: FilterKey)
    ensures ValueAt(Set(f, key, value), key) == value
    ensures other != key ==> ValueAt(Set(f, key, value), other) == ValueAt(f, other)
  {
  }

  /** The mode select: `{ filterMode: v, year, month, day }`. */
  function ChangeMode(f: DateFilter, v: string): (r: DateFilter)
    ensures r.filterMode == v && r.year == f.year && r.month == f.month && r.day == f.day
  {
    DateFilter(v, f.year, f.month, f.day)
  }
}
