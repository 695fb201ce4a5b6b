/** UTC instants as whole seconds since 1970-01-01T00:00:00Z, the proleptic
    Gregorian calendar over day numbers, and chrono's
    `to_rfc3339_opts(SecondsFormat::Secs, true)` rendering (section 5.6 of
    RFC 3339, seconds precision, `Z` for UTC) used for the transaction query
    (src/core/bank.rs:50-57), with a parser as its partner. */
module DateTime {
  import opened Wrappers
  import opened Strings

  // A day is 86400 seconds: UTC as chrono counts it, without leap seconds.

  // ------------------------------------------------------------- calendar

  predicate IsLeap(y: int) {
    y % 4 == 0 && (y % 100 != 0 || y % 400 == 0)
  }

  function YearLength(y: int): int {
    if IsLeap(y) then 366 else 365
  }

  function MonthLength(y: int, m: int): (n: int)
    requires 1 <= m <= 12
    ensures 28 <= n <= 31
  {
    if m == 2 then (if IsLeap(y) then 29 else 28)
    else if m == 4 || m == 6 || m == 9 || m == 11 then 30
    else 31
  }

  /** Days of the year `y` before the first of month `m`. */
  function DaysBeforeMonth(y: int, m: int): int
    requires 1 <= m <= 12
  {
    var leap := if m > 2 && IsLeap(y) then 1 else 0;
    leap +
    (if m == 1 then 0 else if m == 2 then 31 else if m == 3 then 59
     else if m == 4 then 90 else if m == 5 then 120 else if m == 6 then 151
     else if m == 7 then 181 else if m == 8 then 212 else if m == 9 then 243
     else if m == 10 then 273 else if m == 11 then 304 else 334)
  }

  lemma MonthStep(y: int, m: int)
    requires 1 <= m <= 12
    ensures m < 12 ==> DaysBeforeMonth(y, m + 1) == DaysBeforeMonth(y, m) + MonthLength(y, m)
    ensures m == 12 ==> DaysBeforeMonth(y, m) + MonthLength(y, m) == YearLength(y)
  {
  }

  /** Day number of January 1st of `y`. */
  function DaysBeforeYear(y: int): int
    decreases if y >= 1970 then y - 1970 else 1970 - y
  {
    if y == 1970 then 0
    else if y > 1970 then DaysBeforeYear(y - 1) + YearLength(y - 1)
    else DaysBeforeYear(y + 1) - YearLength(y)
  }

  lemma YearStep(y: int)
    ensures DaysBeforeYear(y + 1) == DaysBeforeYear(y) + YearLength(y)
  {
  }

  datatype Date = Date(year: int, month: int, day: int)

  predicate ValidDate(d: Date) {
    1 <= d.month <= 12 && 1 <= d.day <= MonthLength(d.year, d.month)
  }

  /** The day number of a date; 1970-01-01 is day 0. */
  function DaysFromCivil(d: Date): int
    requires ValidDate(d)
  {
    DaysBeforeYear(d.year) + DaysBeforeMonth(d.year, d.month) + d.day - 1
  }

  /** The year holding the day `r` days after January 1st of `y`, and its
      day of the year. */
  function YearForward(y: int, r: int): (p: (int, int))
    requires r >= 0
    ensures 0 <= p.1 < YearLength(p.0)
    ensures DaysBeforeYear(p.0) + p.1 == DaysBeforeYear(y) + r
    decreases r
  {
    if r < YearLength(y) then (y, r)
    else
      YearStep(y);
      YearForward(y + 1, r - YearLength(y))
  }

  /** The same for a day `-r` days before January 1st of `y`. */
  function YearBackward(y: int, r: int): (p: (int, int))
    requires r < 0
    ensures 0 <= p.1 < YearLength(p.0)
    ensures DaysBeforeYear(p.0) + p.1 == DaysBeforeYear(y) + r
    decreases -r
  {
    YearStep(y - 1);
    var r' := r + YearLength(y - 1);
    if r' >= 0 then (y - 1, r') else YearBackward(y - 1, r')
  }

  /** The month of the year `y` holding its day `doy`, searching from `m`. */
  function MonthFrom(y: int, doy: int, m: int): (k: int)
    requires 1 <= m <= 12
    requires DaysBeforeMonth(y, m) <= doy < YearLength(y)
    ensures m <= k <= 12
    ensures DaysBeforeMonth(y, k) <= doy < DaysBeforeMonth(y, k) + MonthLength(y, k)
    decreases 12 - m
  {
    MonthStep(y, m);
    if m == 12 || doy < DaysBeforeMonth(y, m + 1) then m else MonthFrom(y, doy, m + 1)
  }

  /** The calendar date of a day number. */
  function CivilFromDays(z: int): (d: Date)
    ensures ValidDate(d) && DaysFromCivil(d) == z
  {
    var (y, doy) := if z >= 0 then YearForward(1970, z) else YearBackward(1970, z);
    var m := MonthFrom(y, doy, 1);
    Date(y, m, doy - DaysBeforeMonth(y, m) + 1)
  }

  lemma {:induction false} YearsApart(y1: int, y2: int)
    requires y1 < y2
    ensures DaysBeforeYear(y1) + YearLength(y1) <= DaysBeforeYear(y2)
    decreases y2 - y1
  {
    YearStep(y1);
    if y1 + 1 < y2 {
      YearsApart(y1 + 1, y2);
    }
  }

  lemma {:induction false} MonthsApart(y: int, m1: int, m2: int)
    requires 1 <= m1 < m2 <= 12
    ensures DaysBeforeMonth(y, m1) + MonthLength(y, m1) <= DaysBeforeMonth(y, m2)
    decreases m2 - m1
  {
    MonthStep(y, m1);
    if m1 + 1 < m2 {
      MonthsApart(y, m1 + 1, m2);
    }
  }

  lemma DayOfYearBound(d: Date)
    requires ValidDate(d)
    ensures 0 <= DaysBeforeMonth(d.year, d.month) + d.day - 1 < YearLength(d.year)
  {
    if d.month < 12 {
      MonthsApart(d.year, d.month, 12);
    }
    MonthStep(d.year, 12);
  }

  /** Different dates have different day numbers. */
  lemma DaysFromCivilInjective(d1: Date, d2: Date)
    requires ValidDate(d1) && ValidDate(d2)
    requires DaysFromCivil(d1) == DaysFromCivil(d2)
    ensures d1 == d2
  {
    DayOfYearBound(d1);
    DayOfYearBound(d2);
    if d1.year < d2.year {
      YearsApart(d1.year, d2.year);
      assert false;
    } else if d2.year < d1.year {
      YearsApart(d2.year, d1.year);
      assert false;
    }
    if d1.month < d2.month {
      MonthsApart(d1.year, d1.month, d2.month);
      assert false;
    } else if d2.month < d1.month {
      MonthsApart(d1.year, d2.month, d1.month);
      assert false;
    }
  }

  /** The calendar date of a date's own day number is that date. */
  lemma CivilRoundTrip(d: Date)
    requires ValidDate(d)
    ensures CivilFromDays(DaysFromCivil(d)) == d
  {
    DaysFromCivilInjective(CivilFromDays(DaysFromCivil(d)), d);
  }

  // ------------------------------------------------------------ instants

  /** The first second of day `z` (`and_hms(0, 0, 0)`). */
  function DayStart(z: int): (t: int)
    ensures t / 86400 == z && t % 86400 == 0
  {
    z * 86400
  }

  /** The last second of day `z` (`and_hms(23, 59, 59)`). */
  function DayEnd(z: int): (t: int)
    ensures t / 86400 == z && t % 86400 == 86400 - 1
  {
    z * 86400 + 86400 - 1
  }

  // ------------------------------------------------------------ rendering

  /** A two-digit field, zero-padded. */
  function Two(n: int): (s: string)
    requires 0 <= n < 100
    ensures |s| == 2 && IsDigit(s[0]) && IsDigit(s[1])
    ensures DigitValue(s[0]) * 10 + DigitValue(s[1]) == n
  {
    DigitRoundTrip(n / 10);
    DigitRoundTrip(n % 10);
    [DigitChar(n / 10), DigitChar(n % 10)]
  }

  /** chrono's year field: four digits for years 0 to 9999, otherwise an
      explicit sign and at least four digits. */
  function YearText(y: int): (s: string)
    ensures |s| >= 4
  {
    if 0 <= y <= 9999 then Padded(y, 4)
    else (if y < 0 then "-" else "+") + Padded(if y < 0 then -y else y, 4)
  }

  /** `-MM-DDTHH:MM:SSZ` from its five two-digit fields. */
  function TailText(mo: string, d: string, h: string, mi: string, se: string): (s: string)
    requires |mo| == 2 && |d| == 2 && |h| == 2 && |mi| == 2 && |se| == 2
    ensures |s| == 16
  {
    ['-', mo[0], mo[1], '-', d[0], d[1], 'T', h[0], h[1], ':', mi[0], mi[1], ':', se[0], se[1], 'Z']
  }

  /** Everything after the year, for a date and a second of its day. */
  function Tail(month: int, day: int, secs: int): (s: string)
    requires 1 <= month <= 12 && 1 <= day <= 31 && 0 <= secs < 86400
    ensures |s| == 16
  {
    TailText(Two(month), Two(day), Two(secs / 3600), Two(secs % 3600 / 60), Two(secs % 60))
  }

  /** `to_rfc3339_opts(SecondsFormat::Secs, true)` of the instant `t`. */
  function Rfc3339(t: int): string {
    var date := CivilFromDays(t / 86400);
    YearText(date.year) + Tail(date.month, date.day, t % 86400)
  }

  // -------------------------------------------------------------- parsing

  /** A year field: four digits, or a sign and at least four digits. */
  function ParseYear(s: string): Option<int> {
    if |s| == 4 && AllDigits(s) then Some(DigitsValue(s))
    else if |s| >= 5 && (s[0] == '+' || s[0] == '-') && AllDigits(s[1..]) then
      var v: int := DigitsValue(s[1..]);
      Some(if s[0] == '-' then -v else v)
    else None
  }

  function TwoValue(s: string, i: int): Option<int>
    requires 0 <= i <= |s| - 2
  {
    if IsDigit(s[i]) && IsDigit(s[i + 1]) then Some(DigitValue(s[i]) * 10 + DigitValue(s[i + 1])) else None
  }

  /** Reads `-MM-DDTHH:MM:SSZ` into the month, the day and the second of the day. */
  function ParseTail(tail: string): Option<(int, int, int)>
    requires |tail| == 16
  {
    var mo, d := TwoValue(tail, 1), TwoValue(tail, 4);
    var h, mi, se := TwoValue(tail, 7), TwoValue(tail, 10), TwoValue(tail, 13);
    if mo.None? || d.None? || h.None? || mi.None? || se.None? then None
    else if tail[0] != '-' || tail[3] != '-' || tail[6] != 'T' ||
            tail[9] != ':' || tail[12] != ':' || tail[15] != 'Z' then None
    else if h.value >= 24 || mi.value >= 60 || se.value >= 60 then None
    else Some((mo.value, d.value, h.value * 3600 + mi.value * 60 + se.value))
  }

  /** Reads an RFC 3339 text with seconds precision and a `Z` back into an
      instant; anything else, or an impossible date or time, is `None`. */
  function ParseRfc3339(s: string): Option<int> {
    if |s| < 20 then None
    else
      var n := |s| - 16;
      var y, rest := ParseYear(s[..n]), ParseTail(s[n..]);
      if y.None? || rest.None? then None
      else
        var date := Date(y.value, rest.value.0, rest.value.1);
        if !ValidDate(date) then None
        else Some(DaysFromCivil(date) * 86400 + rest.value.2)
  }

  lemma ParseYearText(y: int)
    ensures ParseYear(YearText(y)) == Some(y)
  {
    var s := YearText(y);
    if 0 <= y <= 9999 {
      PaddedFour(y);
    } else {
      var p := Padded(if y < 0 then -y else y, 4);
      assert s[1..] == p;
      assert !IsDigit(s[0]);
    }
  }

  lemma SecondsSplit(secs: int)
    requires 0 <= secs < 86400
    ensures secs / 3600 < 24 && secs % 3600 / 60 < 60
    ensures secs == secs / 3600 * 3600 + secs % 3600 / 60 * 60 + secs % 60
  {
    assert secs % 3600 == secs % 3600 / 60 * 60 + secs % 60;
  }

  lemma ParseTailOf(month: int, day: int, secs: int)
    requires 1 <= month <= 12 && 1 <= day <= 31 && 0 <= secs < 86400
    ensures ParseTail(Tail(month, day, secs)) == Some((month, day, secs))
  {
    SecondsSplit(secs);
    var h, mi, se := secs / 3600, secs % 3600 / 60, secs % 60;
    TwoReads(month);
    TwoReads(day);
    TwoReads(h);
    TwoReads(mi);
    TwoReads(se);
    ParseTailFields(Two(month), Two(day), Two(h), Two(mi), Two(se), month, day, h, mi, se, secs);
  }

  lemma TwoReads(n: int)
    requires 0 <= n < 100
    ensures TwoValue(Two(n), 0) == Some(n)
  {
  }

  lemma ParseTailFields(mo: string, d: string, hs: string, ms: string, ss: string,
                        month: int, day: int, h: int, mi: int, se: int, secs: int)
    requires |mo| == 2 && |d| == 2 && |hs| == 2 && |ms| == 2 && |ss| == 2
    requires TwoValue(mo, 0) == Some(month) && TwoValue(d, 0) == Some(day)
    requires TwoValue(hs, 0) == Some(h) && TwoValue(ms, 0) == Some(mi) && TwoValue(ss, 0) == Some(se)
    requires h < 24 && mi < 60 && se < 60 && secs == h * 3600 + mi * 60 + se
    ensures ParseTail(TailText(mo, d, hs, ms, ss)) == Some((month, day, secs))
  {
    var t := TailText(mo, d, hs, ms, ss);
    TwoAt(t, 1, mo, month);
    TwoAt(t, 4, d, day);
    TwoAt(t, 7, hs, h);
    TwoAt(t, 10, ms, mi);
    TwoAt(t, 13, ss, se);
    ParseTailChars(t, month, day, h, mi, se, secs);
  }

  lemma TwoAt(t: string, i: int, s: string, n: int)
    requires 0 <= i <= |t| - 2 && |s| == 2 && t[i] == s[0] && t[i + 1] == s[1]
    requires TwoValue(s, 0) == Some(n)
    ensures TwoValue(t, i) == Some(n)
  {
  }

  lemma ParseTailChars(t: string, month: int, day: int, h: int, mi: int, se: int, secs: int)
    requires |t| == 16 && t[0] == '-' && t[3] == '-' && t[6] == 'T' && t[9] == ':' && t[12] == ':' && t[15] == 'Z'
    requires TwoValue(t, 1) == Some(month) && TwoValue(t, 4) == Some(day)
    requires TwoValue(t, 7) == Some(h) && TwoValue(t, 10) == Some(mi) && TwoValue(t, 13) == Some(se)
    requires h < 24 && mi < 60 && se < 60 && secs == h * 3600 + mi * 60 + se
    ensures ParseTail(t) == Some((month, day, secs))
  {
  }

  lemma ParseJoin(yt: string, tail: string, date: Date, secs: int, t: int)
    requires |yt| >= 4 && |tail| == 16 && ValidDate(date)
    requires ParseYear(yt) == Some(date.year)
    requires ParseTail(tail) == Some((date.month, date.day, secs))
    requires t == DaysFromCivil(date) * 86400 + secs
    ensures ParseRfc3339(yt + tail) == Some(t)
  {
    var s := yt + tail;
    assert s[..|s| - 16] == yt && s[|s| - 16..] == tail;
  }

  /** Every instant's rendering reads back as that instant, so different
      instants never render alike. */
  lemma ParseRenders(t: int)
    ensures ParseRfc3339(Rfc3339(t)) == Some(t)
  {
    DaySplit(t);
    RenderSplit(t);
    ParseDayAndSecond(t / 86400, t % 86400, t);
  }

  lemma RenderSplit(t: int)
    ensures 0 <= t % 86400 < 86400
    ensures Rfc3339(t) == DayAndSecondText(t / 86400, t % 86400)
  {
  }

  /** The rendering of the second `secs` of day `z`. */
  function DayAndSecondText(z: int, secs: int): string
    requires 0 <= secs < 86400
  {
    var date := CivilFromDays(z);
    YearText(date.year) + Tail(date.month, date.day, secs)
  }

  /** The second `secs` of day `z`, rendered, reads back as the instant `t` it is. */
  lemma ParseDayAndSecond(z: int, secs: int, t: int)
    requires 0 <= secs < 86400 && t == z * 86400 + secs
    ensures ParseRfc3339(DayAndSecondText(z, secs)) == Some(t)
  {
    var date := CivilFromDays(z);
    ParseYearText(date.year);
    ParseTailOf(date.month, date.day, secs);
    ParseJoin(YearText(date.year), Tail(date.month, date.day, secs), date, secs, t);
  }

  lemma DaySplit(t: int)
    ensures t == t / 86400 * 86400 + t % 86400
    ensures 0 <= t % 86400 < 86400
  {
  }

  lemma RenderInjective(t1: int, t2: int)
    requires Rfc3339(t1) == Rfc3339(t2)
    ensures t1 == t2
  {
    ParseRenders(t1);
    ParseRenders(t2);
  }

  /** The text of a date: year, month and day. */
  function DateText(d: Date): string
    requires ValidDate(d)
  {
    var mo, dd := Two(d.month), Two(d.day);
    YearText(d.year) + ['-', mo[0], mo[1], '-', dd[0], dd[1]]
  }

  lemma TailDate(mo: string, d: string, h: string, mi: string, se: string)
    requires |mo| == 2 && |d| == 2 && |h| == 2 && |mi| == 2 && |se| == 2
    ensures TailText(mo, d, h, mi, se) ==
      ['-', mo[0], mo[1], '-', d[0], d[1]] + ['T', h[0], h[1], ':', mi[0], mi[1], ':', se[0], se[1], 'Z']
  {
  }

  /** A day's first second (`and_hms(0, 0, 0)`) is shown as its date and `T00:00:00Z`. */
  lemma DayStartText(z: int)
    ensures Rfc3339(DayStart(z)) == DateText(CivilFromDays(z)) + "T00:00:00Z"
  {
    var d := CivilFromDays(z);
    var mo, dd, zero := Two(d.month), Two(d.day), Two(0);
    assert zero == "00";
    assert Rfc3339(DayStart(z)) == YearText(d.year) + TailText(mo, dd, zero, zero, zero);
    TailDate(mo, dd, zero, zero, zero);
  }

  /** A day's last second (`and_hms(23, 59, 59)`) is shown as its date and `T23:59:59Z`. */
  lemma DayEndText(z: int)
    ensures Rfc3339(DayEnd(z)) == DateText(CivilFromDays(z)) + "T23:59:59Z"
  {
    var d := CivilFromDays(z);
    var mo, dd, h, m := Two(d.month), Two(d.day), Two(23), Two(59);
    assert h == "23" && m == "59";
    var secs := 86400 - 1;
    assert secs / 3600 == 23 && secs % 3600 / 60 == 59 && secs % 60 == 59;
    assert Rfc3339(DayEnd(z)) == YearText(d.year) + TailText(mo, dd, h, m, m);
    TailDate(mo, dd, h, m, m);
  }
}
