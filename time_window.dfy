/**
 * The loading window of the two scheduled pipelines. The latest month with data, as the
 * store renders it (`YYYY-MM`, the reduced-accuracy calendar date of ISO 8601), gives the
 * window start at local midnight of its first day; without it the window starts 365 days
 * before now. Instants are epoch milliseconds; the clock and the zone offset are parameters.
 */
module TimeWindow {
  import opened Wrappers
  import opened Text

  const MillisPerDay: int := 24 * 60 * 60 * 1000
  /** `365L * 24 * 60 * 60 * 1000`: the "one year" of the fallback and of the prior window. */
  const YearMillis: int := 365 * MillisPerDay
  /** Days from 0000-01-01 to 1970-01-01 in the proleptic Gregorian calendar. */
  const EpochDay: int := 719528

  datatype YearMonth = YearMonth(year: int, month: int)

  predicate ValidYearMonth(ym: YearMonth) {
    0 <= ym.year <= 9999 && 1 <= ym.month <= 12
  }

  function DigitsValue(s: string): (r: Option<nat>)
  {
    if |s| > 0 && forall i :: 0 <= i < |s| ==> IsDigit(s[i]) then ParseNat(s) else None
  }

  /** `YearMonth.parse`: four year digits, a hyphen, two month digits naming a month 01..12. */
  function ParseYearMonth(s: string): (r: Option<YearMonth>)
    ensures r.Some? ==> ValidYearMonth(r.value)
  {
    if |s| != 7 || s[4] != '-' then None
    else match (DigitsValue(s[..4]), DigitsValue(s[5..]))
      case (Some(y), Some(m)) =>
        ParseNatBound(s[..4]);
        if 1 <= m <= 12 then Some(YearMonth(y, m)) else None
      case _ => None
  }

  /** A parsed string of `n` digits is below `10^n` (here: four digits are at most 9999). */
  lemma {:induction false} ParseNatBound(s: string)
    requires ParseNat(s).Some? && |s| <= 4
    ensures ParseNat(s).value < Pow10(|s|)
    decreases |s|
  {
    if |s| > 1 {
      ParseNatBound(s[..|s| - 1]);
    }
  }

  function Pow10(n: nat): (p: nat)
    ensures p >= 1
  {
    if n == 0 then 1 else 10 * Pow10(n - 1)
  }

  function Pad(n: nat, width: nat): (s: string)
    ensures |s| >= width
  {
    var d := NatToString(n);
    if |d| >= width then d else seq(width - |d|, _ => '0') + d
  }

  /** The `YYYY-MM` rendering (MySQL's `DATE_FORMAT(..., '%Y-%m')`). */
  function FormatYearMonth(ym: YearMonth): string
    requires ValidYearMonth(ym)
  {
    Pad(ym.year, 4) + "-" + Pad(ym.month, 2)
  }

  lemma PadValue(n: nat, width: nat)
    requires width >= 1 && n < Pow10(width)
    ensures |Pad(n, width)| == width
    ensures DigitsValue(Pad(n, width)) == Some(n)
  {
    var d := NatToString(n);
    NatToStringLength(n, width);
    ParseNatToString(n);
    if |d| < width {
      var z := seq(width - |d|, _ => '0');
      LeadingZeros(z, d);
    }
  }

  /** A number below `10^width` has at most `width` digits. */
  lemma {:induction false} NatToStringLength(n: nat, width: nat)
    requires width >= 1 && n < Pow10(width)
    ensures |NatToString(n)| <= width
    decreases n
  {
    if n >= 10 {
      assert width != 1;
      assert n / 10 < Pow10(width - 1);
      NatToStringLength(n / 10, width - 1);
    }
  }

  /** Leading zeros do not change the value of a digit string. */
  lemma {:induction false} LeadingZeros(z: string, d: string)
    requires forall i :: 0 <= i < |z| ==> z[i] == '0'
    requires ParseNat(d).Some?
    ensures ParseNat(z + d) == ParseNat(d)
    decreases |d|
  {
    if |d| == 1 {
      ZerosValue(z, d[0]);
    } else {
      assert (z + d)[..|z + d| - 1] == z + d[..|d| - 1];
      LeadingZeros(z, d[..|d| - 1]);
    }
  }

  lemma {:induction false} ZerosValue(z: string, c: char)
    requires forall i :: 0 <= i < |z| ==> z[i] == '0'
    requires IsDigit(c)
    ensures ParseNat(z + [c]) == Some(DigitValue(c))
    decreases |z|
  {
    if |z| > 0 {
      var s := z + [c];
      assert s[..|s| - 1] == z;
      ZerosAllZero(z);
    }
  }

  lemma {:induction false} ZerosAllZero(z: string)
    requires |z| > 0 && forall i :: 0 <= i < |z| ==> z[i] == '0'
    ensures ParseNat(z) == Some(0)
    decreases |z|
  {
    if |z| > 1 {
      assert z[..|z| - 1][0] == '0';
      ZerosAllZero(z[..|z| - 1]);
    }
  }

  /** Every valid month round-trips through its `YYYY-MM` rendering. */
  lemma ParseFormatYearMonth(ym: YearMonth)
    requires ValidYearMonth(ym)
    ensures ParseYearMonth(FormatYearMonth(ym)) == Some(ym)
  {
    assert Pow10(4) == 10000 && Pow10(2) == 100;
    PadValue(ym.year, 4);
    PadValue(ym.month, 2);
    var s := FormatYearMonth(ym);
    assert s[..4] == Pad(ym.year, 4);
    assert s[5..] == Pad(ym.month, 2);
  }

  predicate IsLeap(y: int) {
    y % 4 == 0 && (y % 100 != 0 || y % 400 == 0)
  }

  function MonthLength(y: int, m: int): int
    requires 1 <= m <= 12
  {
    if m == 2 then (if IsLeap(y) then 29 else 28)
    else if m == 4 || m == 6 || m == 9 || m == 11 then 30
    else 31
  }

  function YearLength(y: int): int {
    if IsLeap(y) then 366 else 365
  }

  /** Leap years in [0, y). */
  function LeapYearsBefore(y: nat): nat {
    (y + 3) / 4 - (y + 99) / 100 + (y + 399) / 400
  }

  function DaysBeforeMonth(y: int, m: int): int
    requires 1 <= m <= 12
  {
    var leap := if IsLeap(y) && m > 2 then 1 else 0;
    [0, 31, 59, 90, 120, 151, 181, 212, 243, 273, 304, 334][m - 1] + leap
  }

  /** Days from 0000-01-01 to the first day of the month (closed form). */
  function DayOfFirst(ym: YearMonth): int
    requires ValidYearMonth(ym)
  {
    365 * ym.year + LeapYearsBefore(ym.year) + DaysBeforeMonth(ym.year, ym.month)
  }

  /** The same count by walking the calendar month by month: the reference definition. */
  function DaysByCalendar(y: nat, m: int): int
    requires 1 <= m <= 12
    decreases y, m
  {
    if m > 1 then DaysByCalendar(y, m - 1) + MonthLength(y, m - 1)
    else if y == 0 then 0
    else DaysByCalendar(y - 1, 12) + MonthLength(y - 1, 12) 
  }

  lemma DivUnique(x: int, k: int, q: int, r: int)
    requires k > 0 && x == k * q + r && 0 <= r < k
    ensures x / k == q && x % k == r
  {
    var q0, r0 := x / k, x % k;
    assert k * (q - q0) == r0 - r;
    if q > q0 {
      MulAtLeast(k, q - q0);
    } else if q < q0 {
      MulAtLeast(k, q0 - q);
    }
  }

  lemma MulAtLeast(k: int, d: int)
    requires k > 0 && d >= 1
    ensures k * d >= k
  {
    assert k * d == k + k * (d - 1);
  }

  /** Adding one to `a` moves `a / k` up exactly when it reaches a multiple of `k`. */
  lemma DivStep(a: int, k: int)
    requires k > 0
    ensures (a + 1) / k == a / k + (if (a + 1) % k == 0 then 1 else 0)
  {
    var q, r := a / k, a % k;
    if r < k - 1 {
      DivUnique(a + 1, k, q, r + 1);
    } else {
      DivUnique(a + 1, k, q + 1, 0);
    }
  }

  lemma ShiftMod(x: int, k: int, m: int)
    requires k > 0
    ensures (x + k * m) % k == x % k
  {
    DivUnique(x + k * m, k, x / k + m, x % k);
  }

  lemma LeapStep(y: nat)
    requires y >= 1
    ensures LeapYearsBefore(y) == LeapYearsBefore(y - 1) + (if IsLeap(y - 1) then 1 else 0)
  {
    var x := y - 1;
    DivStep(x + 3, 4);
    DivStep(x + 99, 100);
    DivStep(x + 399, 400);
    ShiftMod(x, 4, 1);
    ShiftMod(x, 100, 1);
    ShiftMod(x, 400, 1);
    var a4, a100, a400 := (x + 3) / 4, (x + 99) / 100, (x + 399) / 400;
    var b4, b100, b400 := (x + 4) / 4, (x + 100) / 100, (x + 400) / 400;
    assert LeapYearsBefore(x) == a4 - a100 + a400;
    assert LeapYearsBefore(y) == b4 - b100 + b400;
    assert b4 == a4 + (if x % 4 == 0 then 1 else 0);
    assert b100 == a100 + (if x % 100 == 0 then 1 else 0);
    assert b400 == a400 + (if x % 400 == 0 then 1 else 0);
    if x % 100 == 0 {
      DivUnique(x, 4, 25 * (x / 100), 0);
    }
    if x % 400 == 0 {
      DivUnique(x, 100, 4 * (x / 400), 0);
    }
  }

  /** The closed form counts the days of the calendar exactly. */
  lemma {:induction false} DayOfFirstIsCalendar(y: nat, m: int)
    requires y <= 9999 && 1 <= m <= 12
    ensures DayOfFirst(YearMonth(y, m)) == DaysByCalendar(y, m)
    decreases y, m
  {
    if m > 1 {
      DayOfFirstIsCalendar(y, m - 1);
    } else if y > 0 {
      DayOfFirstIsCalendar(y - 1, 12);
      LeapStep(y);
    }
  }

  /** Epoch milliseconds of local midnight on the first day of the month, at a fixed zone offset. */
  function FirstDayMillis(ym: YearMonth, zoneOffsetMillis: int): int
    requires ValidYearMonth(ym)
  {
    (DayOfFirst(ym) - EpochDay) * MillisPerDay - zoneOffsetMillis
  }

  /** The epoch itself is the first of January 1970. */
  lemma EpochIsJanuary1970()
    ensures DayOfFirst(YearMonth(1970, 1)) == EpochDay
  {
  }

  /** The first days of consecutive months are a month length apart. */
  lemma ConsecutiveMonths(y: nat, m: int, zoneOffsetMillis: int)
    requires y <= 9999 && 1 <= m < 12
    ensures FirstDayMillis(YearMonth(y, m + 1), zoneOffsetMillis) ==
      FirstDayMillis(YearMonth(y, m), zoneOffsetMillis) + MonthLength(y, m) * MillisPerDay
  {
    assert DaysBeforeMonth(y, m + 1) == DaysBeforeMonth(y, m) + MonthLength(y, m);
    assert DayOfFirst(YearMonth(y, m + 1)) == DayOfFirst(YearMonth(y, m)) + MonthLength(y, m);
  }

  /** A `[start, end]` range of instants; the store's `BETWEEN` includes both ends. */
  datatype Window = Window(start: int, end: int)

  predicate InWindow(t: int, w: Window) {
    w.start <= t <= w.end
  }

  /** Whether the max-month string leads to a parsed month (non-null, non-empty, parses). */
  function StartMonth(maxMonth: Option<string>): Option<YearMonth> {
    if maxMonth.Some? && maxMonth.value != "" then ParseYearMonth(maxMonth.value) else None
  }

  /** The window of a run at instant `now`. */
  function LoadWindow(maxMonth: Option<string>, now: int, zoneOffsetMillis: int): (w: Window)
    ensures w.end == now
    ensures StartMonth(maxMonth).Some? ==> w.start == FirstDayMillis(StartMonth(maxMonth).value, zoneOffsetMillis)
    ensures StartMonth(maxMonth).None? ==> w.start == now - YearMillis
  {
    match StartMonth(maxMonth)
    case Some(ym) => Window(FirstDayMillis(ym, zoneOffsetMillis), now)
    case None => Window(now - YearMillis, now)
  }

  /** The comparison window: the 365 days that end at the window's start. */
  function PriorWindow(w: Window): (p: Window)
    ensures p.end == w.start && p.end - p.start == YearMillis
  {
    Window(w.start - YearMillis, w.start)
  }

  /** The two windows meet at exactly one instant, the start of the current window,
      which both inclusive range queries match. */
  lemma WindowsShareStart(w: Window, t: int)
    requires w.start <= w.end
    ensures InWindow(w.start, w) && InWindow(w.start, PriorWindow(w))
    ensures InWindow(t, w) && InWindow(t, PriorWindow(w)) ==> t == w.start
  {
  }

  /** With no usable month the window is the 365 days up to now. */
  lemma FallbackWindow(now: int, zoneOffsetMillis: int)
    ensures LoadWindow(None, now, zoneOffsetMillis) == Window(now - YearMillis, now)
    ensures LoadWindow(Some(""), now, zoneOffsetMillis) == Window(now - YearMillis, now)
    ensures LoadWindow(Some("2025-13"), now, zoneOffsetMillis) == Window(now - YearMillis, now)
  {
    assert ParseYearMonth("2025-13").None? by {
      assert "2025-13"[5..] == "13";
      assert ParseNat("13") == Some(13) by {
        assert "13"[..1] == "1";
      }
    }
  }
}
