/**
 * formatTime (Frontend/src/lib/utils.js): the local time of a Date shown
 * on a 12-hour clock as `h.mm.ss AM` or `h.mm.ss PM`. The hour is not
 * padded; minutes and seconds are padded to two digits.
 */
module TimeFormat {
  import opened Wrappers
  import opened Text

  /** What getHours, getMinutes and getSeconds return for a Date. */
  datatype Clock = Clock(hours: nat, minutes: nat, seconds: nat)

  predicate ValidClock(t: Clock) {
    t.hours < 24 && t.minutes < 60 && t.seconds < 60
  }

  /** `hours >= 12 ? 'PM' : 'AM'` */
  function Meridiem(hours: nat): string {
    if hours >= 12 then "PM" else "AM"
  }

  /** `hours % 12`, with 0 shown as 12: always a clock-face hour that
      agrees with the 24-hour value modulo 12. */
  function Hour12(hours: nat): (h: nat)
    ensures 1 <= h <= 12 && h % 12 == hours % 12
  {
    if hours % 12 != 0 then hours % 12 else 12
  }

  /** `n < 10 ? '0' + n : n`: two digits for every n below 100, and they read back as n. */
  function TwoDigits(n: nat): (r: string)
    ensures n < 100 ==> |r| == 2
    ensures AllDigits(r) && ParseDecimal(r) == n
  {
    DecimalRoundTrip(n);
    ParseLeadingZeros(1, Decimal(n));
    assert Zeros(1) == "0";
    if n < 10 then "0" + Decimal(n) else Decimal(n)
  }

  /** `${hours}.${minutes}.${seconds} ${ampm}` */
  function FormatTime(t: Clock): (s: string)
    requires ValidClock(t)
    ensures |s| == |Decimal(Hour12(t.hours))| + 9 && 10 <= |s| <= 11
    ensures s[|s| - 9] == '.' && s[|s| - 6] == '.' && s[|s| - 3] == ' '
  {
    Decimal(Hour12(t.hours)) + "." + TwoDigits(t.minutes) + "." + TwoDigits(t.seconds) + " " + Meridiem(t.hours)
  }

  /** The four fields of the text, by position: the hour is everything
      before the first dot. */
  lemma FormatTimeFields(t: Clock)
    requires ValidClock(t)
    ensures var s := FormatTime(t); var n := |s| - 9;
      && s[..n] == Decimal(Hour12(t.hours))
      && s[n + 1..n + 3] == TwoDigits(t.minutes)
      && s[n + 4..n + 6] == TwoDigits(t.seconds)
      && s[n + 7..] == Meridiem(t.hours)
  {
    var h, m, sec := Decimal(Hour12(t.hours)), TwoDigits(t.minutes), TwoDigits(t.seconds);
    var s := FormatTime(t);
    var n := |h|;
    assert s == h + "." + m + "." + sec + " " + Meridiem(t.hours);
    assert s[..n] == h;
    assert s[n + 1..n + 3] == m;
    assert s[n + 4..n + 6] == sec;
  }

  /** The text ends in PM exactly for the hours from noon on, and in AM otherwise. */
  lemma MeridiemFollowsHour(t: Clock)
    requires ValidClock(t)
    ensures var s := FormatTime(t);
      && (s[|s| - 2..] == "PM" <==> t.hours >= 12)
      && (s[|s| - 2..] == "AM" <==> t.hours < 12)
  {
    FormatTimeFields(t);
  }

  /** Midnight shows as 12 AM and noon as 12 PM. */
  lemma MidnightAndNoon(minutes: nat, seconds: nat)
    requires minutes < 60 && seconds < 60
    ensures var s := FormatTime(Clock(0, minutes, seconds)); s[..3] == "12." && s[|s| - 2..] == "AM"
    ensures var s := FormatTime(Clock(12, minutes, seconds)); s[..3] == "12." && s[|s| - 2..] == "PM"
  {
    FormatTimeFields(Clock(0, minutes, seconds));
    FormatTimeFields(Clock(12, minutes, seconds));
    assert Decimal(12) == "12";
  }

  /** Minutes and seconds below ten get a leading zero. */
  lemma SmallFieldsPadded(t: Clock)
    requires ValidClock(t)
    ensures var s := FormatTime(t); var n := |s| - 9;
      && (t.minutes < 10 ==> s[n + 1] == '0' && s[n + 2] == DigitChar(t.minutes))
      && (t.seconds < 10 ==> s[n + 4] == '0' && s[n + 5] == DigitChar(t.seconds))
  {
    FormatTimeFields(t);
    var s := FormatTime(t);
    var n := |s| - 9;
    assert s[n + 1] == s[n + 1..n + 3][0] && s[n + 2] == s[n + 1..n + 3][1];
    assert s[n + 4] == s[n + 4..n + 6][0] && s[n + 5] == s[n + 4..n + 6][1];
  }

  /** Reads an `h.mm.ss AM|PM` text back into a 24-hour clock time. */
  function ParseTime(s: string): Option<Clock> {
    if 10 <= |s| <= 11 then
      var n := |s| - 9;
      if AllDigits(s[..n]) && s[n] == '.' && AllDigits(s[n + 1..n + 3]) && s[n + 3] == '.'
         && AllDigits(s[n + 4..n + 6]) && s[n + 6] == ' ' && (s[n + 7..] == "AM" || s[n + 7..] == "PM")
      then
        var h := ParseDecimal(s[..n]) % 12;
        var t := Clock(if s[n + 7..] == "PM" then h + 12 else h, ParseDecimal(s[n + 1..n + 3]), ParseDecimal(s[n + 4..n + 6]));
        if ValidClock(t) then Some(t) else None
      else None
    else None
  }

  /** The display loses nothing: the time can be read back from it. */
  lemma TimeRoundTrip(t: Clock)
    requires ValidClock(t)
    ensures ParseTime(FormatTime(t)) == Some(t)
  {
    FormatTimeFields(t);
    DecimalRoundTrip(Hour12(t.hours));
  }

  /** Different times of day are displayed differently. */
  lemma FormatTimeInjective(a: Clock, b: Clock)
    requires ValidClock(a) && ValidClock(b)
    ensures FormatTime(a) == FormatTime(b) ==> a == b
  {
    TimeRoundTrip(a);
    TimeRoundTrip(b);
  }
}
