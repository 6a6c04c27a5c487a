/**
 * The two date helpers of the transaction list: the maintenance countdown
 * (`getMaintenance`) and the crash-free date display (`safeFormatDate`).
 *
 * The clock and the date library are parameters: `today` is the viewer's
 * current local date, `midnight(y, m, d)` the epoch milliseconds of local
 * midnight on that calendar day (what `setHours(0, 0, 0, 0)` produces),
 * `parseIso` is date-fns `parseISO` and `format` is date-fns `format` with
 * the requested pattern.
 */
module Maintenance {
  import opened Wrappers
  import opened Ledger

  /** Milliseconds in a day. */
  const DayMs := 86400000

  /** Epoch milliseconds of local midnight on a calendar day (month 1 to 12). */
  type LocalMidnight = (int, int, int) -> int

  /** `Math.ceil(x / d)` for a positive divisor. */
  function CeilDiv(x: int, d: int): (q: int)
    requires d > 0
    ensures (q - 1) * d < x <= q * d
  {
    -((-x) / d)
  }

  /** The countdown: `daysLeft` is `None` for NaN (an unparseable end date), and then both flags are false. */
  datatype Countdown = Countdown(daysLeft: Option<int>, isExpiring: bool, isExpired: bool)

  /** The difference between the two local midnights, or `None` when the end date does not parse. */
  function MidnightGap(end: Option<DateValue>, today: Moment, midnight: LocalMidnight): Option<int> {
    match Parse(end)
    case None => None
    case Some(e) => Some(midnight(e.year, e.month, e.day) - midnight(today.year, today.month, today.day))
  }

  /**
   * `getMaintenance`: no countdown (`{}`) without an end date; otherwise the
   * ceiling of the whole-day difference between the end date's midnight and
   * today's.
   */
  function GetMaintenance(t: Txn, today: Moment, midnight: LocalMidnight): (r: Option<Countdown>)
    ensures r.None? <==> !DateSet(t.maintenance_end_date)
  {
    if !DateSet(t.maintenance_end_date) then None
    else
      var daysLeft := match MidnightGap(t.maintenance_end_date, today, midnight)
        case None => None
        case Some(gap) => Some(CeilDiv(gap, DayMs));
      Some(Countdown(daysLeft,
        daysLeft.Some? && daysLeft.value <= 3 && daysLeft.value >= 0,
        daysLeft.Some? && daysLeft.value < 0))
  }

  /**
   * In terms of the time left: the countdown is expired exactly when the end
   * midnight is a full day or more before today's, and expiring exactly when
   * it is less than a day before and at most three days after; never both.
   * An unparseable end date is neither.
   */
  lemma CountdownFlags(t: Txn, today: Moment, midnight: LocalMidnight)
    requires DateSet(t.maintenance_end_date)
    ensures var c := GetMaintenance(t, today, midnight).value;
      var gap := MidnightGap(t.maintenance_end_date, today, midnight);
      && (c.daysLeft.None? <==> gap.None?)
      && (c.isExpired <==> gap.Some? && gap.value <= -DayMs)
      && (c.isExpiring <==> gap.Some? && -DayMs < gap.value <= 3 * DayMs)
      && !(c.isExpired && c.isExpiring)
  {
    var gap := MidnightGap(t.maintenance_end_date, today, midnight);
    if gap.Some? {
      var q := CeilDiv(gap.value, DayMs);
      if q < 0 {
        assert gap.value <= q * DayMs <= -DayMs;
      } else if q > 3 {
        assert gap.value > (q - 1) * DayMs >= 3 * DayMs;
      }
    }
  }

  /** Midnights a whole number of days apart give exactly that number of days. */
  lemma WholeDays(t: Txn, today: Moment, midnight: LocalMidnight, k: int)
    requires DateSet(t.maintenance_end_date)
    requires MidnightGap(t.maintenance_end_date, today, midnight) == Some(k * DayMs)
    ensures GetMaintenance(t, today, midnight).value.daysLeft == Some(k)
  {
  }

  /** The placeholder shown for a date that cannot be displayed. */
  const NoDate := "-"

  /**
   * `safeFormatDate`: `-` for an unset date; otherwise the ISO parse, or
   * failing that `new Date`, formatted; `-` when neither is valid.
   */
  function SafeFormatDate(d: Option<DateValue>, parseIso: string -> Option<Moment>,
                          format: Moment -> string): (r: string)
    ensures !DateSet(d) ==> r == NoDate
  {
    if !DateSet(d) then NoDate
    else
      match parseIso(d.value.text)
      case Some(m) => format(m)
      case None =>
        match d.value.at
        case Some(m) => format(m)
        case None => NoDate
  }

  /**
   * The display is the formatted ISO parse when there is one, else the
   * formatted `new Date`; it is the placeholder when neither parse is valid,
   * and when the date is set and some parse is valid it is a formatting of
   * that parse.
   */
  lemma SafeFormatDateCases(d: Option<DateValue>, parseIso: string -> Option<Moment>,
                            format: Moment -> string)
    ensures DateSet(d) && parseIso(d.value.text).Some? ==>
      SafeFormatDate(d, parseIso, format) == format(parseIso(d.value.text).value)
    ensures DateSet(d) && parseIso(d.value.text).None? && d.value.at.Some? ==>
      SafeFormatDate(d, parseIso, format) == format(d.value.at.value)
    ensures (!DateSet(d) || (parseIso(d.value.text).None? && d.value.at.None?)) ==>
      SafeFormatDate(d, parseIso, format) == NoDate
    ensures SafeFormatDate(d, parseIso, format) == NoDate
      || exists m :: SafeFormatDate(d, parseIso, format) == format(m)
  {
    if DateSet(d) {
      match parseIso(d.value.text)
      case Some(m) => assert SafeFormatDate(d, parseIso, format) == format(m);
      case None =>
        if d.value.at.Some? {
          assert SafeFormatDate(d, parseIso, format) == format(d.value.at.value);
        }
    }
  }
}
