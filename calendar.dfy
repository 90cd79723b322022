/**
 * Civil dates for the daily purge of work entries (cron.js): the day
 * before a date, as `setDate(getDate() - 1)` computes it, and the
 * `YYYY-MM-DD` text that `toISOString().split('T')[0]` gives. Dates are
 * proleptic Gregorian with astronomical year numbering, as in JavaScript.
 */
module Calendar {
  import opened Wrappers
  import opened Text

  datatype Date = Date(year: int, month: nat, day: nat)

  predicate IsLeapYear(y: int) {
    y % 4 == 0 && (y % 100 != 0 || y % 400 == 0)
  }

  function DaysInMonth(y: int, m: nat): (n: nat)
    requires 1 <= m <= 12
    ensures 28 <= n <= 31
  {
    if m == 2 then (if IsLeapYear(y) then 29 else 28)
    else if m == 4 || m == 6 || m == 9 || m == 11 then 30
    else 31
  }

  predicate ValidDate(d: Date) {
    1 <= d.month <= 12 && 1 <= d.day <= DaysInMonth(d.year, d.month)
  }

  /** Calendar order. */
  predicate Before(a: Date, b: Date) {
    a.year < b.year
    || (a.year == b.year && a.month < b.month)
    || (a.year == b.year && a.month == b.month && a.day < b.day)
  }

  /** The day before, rolling back over month and year ends. */
  function PrevDay(d: Date): (r: Date)
    requires ValidDate(d)
    ensures ValidDate(r) && Before(r, d)
  {
    if d.day > 1 then Date(d.year, d.month, d.day - 1)
    else if d.month > 1 then Date(d.year, d.month - 1, DaysInMonth(d.year, d.month - 1))
    else Date(d.year - 1, 12, 31)
  }

  /** The day after. */
  function NextDay(d: Date): (r: Date)
    requires ValidDate(d)
    ensures ValidDate(r) && Before(d, r)
  {
    if d.day < DaysInMonth(d.year, d.month) then Date(d.year, d.month, d.day + 1)
    else if d.month < 12 then Date(d.year, d.month + 1, 1)
    else Date(d.year + 1, 1, 1)
  }

  /** PrevDay and NextDay undo each other. */
  lemma PrevNextInverse(d: Date)
    requires ValidDate(d)
    ensures NextDay(PrevDay(d)) == d
    ensures PrevDay(NextDay(d)) == d
  {
  }

  /** No valid date lies strictly between PrevDay(d) and d: it is the
      calendar day immediately before. */
  lemma PrevDayIsImmediate(d: Date, e: Date)
    requires ValidDate(d) && ValidDate(e) && Before(e, d)
    ensures e == PrevDay(d) || Before(e, PrevDay(d))
  {
  }

  /** The year as toISOString writes it: four digits for years 0 to 9999,
      otherwise a sign and six digits. */
  function YearText(y: int): string {
    if 0 <= y <= 9999 then PadDecimal(4, y)
    else (if y < 0 then "-" else "+") + PadDecimal(6, if y < 0 then -y else y)
  }

  /** `YYYY-MM-DD` */
  function FormatIso(d: Date): (s: string)
    requires ValidDate(d)
    ensures 0 <= d.year <= 9999 ==> |s| == 10 && s[4] == '-' && s[7] == '-'
  {
    YearText(d.year) + "-" + PadDecimal(2, d.month) + "-" + PadDecimal(2, d.day)
  }

  /** Reads back a four-digit-year `YYYY-MM-DD` string. */
  function ParseIso(s: string): Option<Date> {
    if |s| == 10 && s[4] == '-' && s[7] == '-'
       && AllDigits(s[..4]) && AllDigits(s[5..7]) && AllDigits(s[8..])
    then
      var d := Date(ParseDecimal(s[..4]), ParseDecimal(s[5..7]), ParseDecimal(s[8..]));
      if ValidDate(d) then Some(d) else None
    else None
  }

  /** Formatting a date of a four-digit year and parsing it back gives the date. */
  lemma IsoRoundTrip(d: Date)
    requires ValidDate(d) && 0 <= d.year <= 9999
    ensures ParseIso(FormatIso(d)) == Some(d)
  {
    var y, m, dd := PadDecimal(4, d.year), PadDecimal(2, d.month), PadDecimal(2, d.day);
    var s := FormatIso(d);
    assert s == y + "-" + m + "-" + dd;
    assert s[..4] == y && s[5..7] == m && s[8..] == dd;
    PadDecimalRoundTrip(4, d.year);
    PadDecimalRoundTrip(2, d.month);
    PadDecimalRoundTrip(2, d.day);
  }

  /** Different dates of four-digit years have different texts, so the
      purge's string comparison selects exactly one day. */
  lemma FormatIsoInjective(a: Date, b: Date)
    requires ValidDate(a) && 0 <= a.year <= 9999
    requires ValidDate(b) && 0 <= b.year <= 9999
    ensures FormatIso(a) == FormatIso(b) ==> a == b
  {
    IsoRoundTrip(a);
    IsoRoundTrip(b);
  }

  /** The date text the purge deletes, given the date the job runs on: it
      reads back as the day whose next day is today. */
  function PurgeDate(today: Date): (s: string)
    requires ValidDate(today)
    ensures 1 <= today.year <= 9999 ==> ParseIso(s) == Some(PrevDay(today)) && NextDay(PrevDay(today)) == today
  {
    var yesterday := PrevDay(today);
    PrevNextInverse(today);
    if 0 <= yesterday.year <= 9999 then IsoRoundTrip(yesterday); FormatIso(yesterday)
    else FormatIso(yesterday)
  }

  /** The purge's date text names exactly one day: the day whose next day
      is today. */
  lemma PurgeDateIsYesterday(today: Date, d: Date)
    requires ValidDate(today) && 1 <= today.year <= 9999
    requires ValidDate(d) && 0 <= d.year <= 9999
    ensures PurgeDate(today) == FormatIso(d) <==> NextDay(d) == today
  {
    PrevNextInverse(today);
    PrevNextInverse(d);
    FormatIsoInjective(PrevDay(today), d);
  }
}
