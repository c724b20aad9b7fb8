/** Normalised UTC timestamps (canonical.py): the printed form, whose six-digit fraction is left out when it is
    zero, and the proof that comparing printed forms compares instants. */
module Timestamps {
  import opened Text

  datatype Date = Date(year: int, month: int, day: int)

  datatype Civil = Civil(date: Date, hour: int, minute: int, second: int, micro: int)

  predicate IsLeap(year: int) { year % 4 == 0 && (year % 100 != 0 || year % 400 == 0) }

  function DaysInMonth(year: int, month: int): int {
    if month == 2 then (if IsLeap(year) then 29 else 28)
    else if month in {4, 6, 9, 11} then 30
    else 31
  }

  predicate ValidDate(d: Date) {
    d.year >= 1 && 1 <= d.month <= 12 && 1 <= d.day <= DaysInMonth(d.year, d.month)
  }

  predicate Valid(c: Civil) {
    ValidDate(c.date) && 0 <= c.hour < 24 && 0 <= c.minute < 60 && 0 <= c.second < 60 && 0 <= c.micro < 1_000_000
  }

  /** A civil time that Python's `datetime` can hold. */
  predicate Representable(c: Civil) { Valid(c) && c.date.year <= 9999 }

  // ----- the instant a civil time names, in microseconds since 0001-01-01

  function DaysBeforeYear(year: int): int {
    var y := year - 1;
    y * 365 + y / 4 - y / 100 + y / 400
  }

  function DaysBeforeMonth(year: int, month: int): int
    requires 1 <= month <= 13
    decreases month
  {
    if month == 1 then 0 else DaysBeforeMonth(year, month - 1) + DaysInMonth(year, month - 1)
  }

  /** The proleptic Gregorian day number, 0 for 0001-01-01. */
  function Ordinal(d: Date): int
    requires ValidDate(d)
  {
    DaysBeforeYear(d.year) + DaysBeforeMonth(d.year, d.month) + d.day - 1
  }

  function Instant(c: Civil): int
    requires Valid(c)
  {
    (((Ordinal(c.date) * 24 + c.hour) * 60 + c.minute) * 60 + c.second) * 1_000_000 + c.micro
  }

  // ----- the calendar is strictly monotone

  predicate DateLess(a: Date, b: Date) {
    a.year < b.year || (a.year == b.year && (a.month < b.month || (a.month == b.month && a.day < b.day)))
  }

  lemma DaysInYear(year: int)
    ensures DaysBeforeMonth(year, 13) == if IsLeap(year) then 366 else 365
  {
    assert DaysBeforeMonth(year, 3) == 31 + DaysInMonth(year, 2);
    assert DaysBeforeMonth(year, 5) == DaysBeforeMonth(year, 3) + 61;
    assert DaysBeforeMonth(year, 7) == DaysBeforeMonth(year, 5) + 61;
    assert DaysBeforeMonth(year, 9) == DaysBeforeMonth(year, 7) + 62;
    assert DaysBeforeMonth(year, 11) == DaysBeforeMonth(year, 9) + 61;
  }

  /** The calendar: where the months of a common year start, leap years, and two known days. */
  lemma CalendarAnchors()
    ensures forall m :: 1 <= m <= 12 ==> DaysBeforeMonth(2001, m) == [0, 31, 59, 90, 120, 151, 181, 212, 243, 273, 304, 334][m - 1]
    ensures IsLeap(2000) && IsLeap(2024) && !IsLeap(1900) && !IsLeap(2023)
    ensures ValidDate(Date(2000, 2, 29)) && !ValidDate(Date(1900, 2, 29))
    ensures Ordinal(Date(1, 1, 1)) == 0 && Ordinal(Date(1970, 1, 1)) == 719_162
  {
    assert DaysBeforeMonth(2001, 3) == 59;
    assert DaysBeforeMonth(2001, 5) == 120;
    assert DaysBeforeMonth(2001, 7) == 181;
    assert DaysBeforeMonth(2001, 9) == 243;
    assert DaysBeforeMonth(2001, 11) == 304;
  }

  lemma QuotientSteps(year: int)
    ensures year / 4 == (year - 1) / 4 + if year % 4 == 0 then 1 else 0
    ensures year / 100 == (year - 1) / 100 + if year % 100 == 0 then 1 else 0
    ensures year / 400 == (year - 1) / 400 + if year % 400 == 0 then 1 else 0
  {
  }

  lemma HundredsAreFours(year: int)
    ensures year % 100 == 0 ==> year % 4 == 0
  {
    if year % 100 == 0 { assert year == 4 * (25 * (year / 100)); }
  }

  lemma FourHundredsAreHundreds(year: int)
    ensures year % 400 == 0 ==> year % 100 == 0
  {
    if year % 400 == 0 { assert year == 100 * (4 * (year / 400)); }
  }

  lemma LeapStep(year: int)
    ensures DaysBeforeYear(year + 1) == DaysBeforeYear(year) + if IsLeap(year) then 366 else 365
  {
    QuotientSteps(year);
    HundredsAreFours(year);
    FourHundredsAreHundreds(year);
    var q, c, f := year / 4, year / 100, year / 400;
    var q', c', f' := (year - 1) / 4, (year - 1) / 100, (year - 1) / 400;
    assert DaysBeforeYear(year + 1) == year * 365 + q - c + f;
    assert DaysBeforeYear(year) == (year - 1) * 365 + q' - c' + f';
  }

  lemma DaysBeforeYearStep(year: int)
    ensures DaysBeforeYear(year + 1) == DaysBeforeYear(year) + DaysBeforeMonth(year, 13)
  {
    DaysInYear(year);
    LeapStep(year);
  }

  lemma {:induction false} DaysBeforeYearMonotone(y0: int, y1: int)
    requires y0 <= y1
    ensures DaysBeforeYear(y0) + (y1 - y0) * 365 <= DaysBeforeYear(y1)
    decreases y1 - y0
  {
    hide DaysBeforeYear, DaysBeforeMonth, IsLeap;
    if y0 < y1 {
      DaysBeforeYearMonotone(y0, y1 - 1);
      DaysBeforeYearStep(y1 - 1);
      DaysInYear(y1 - 1);
    }
  }

  lemma {:induction false} DaysBeforeMonthMonotone(year: int, m0: int, m1: int)
    requires 1 <= m0 < m1 <= 13
    ensures DaysBeforeMonth(year, m0) + DaysInMonth(year, m0) <= DaysBeforeMonth(year, m1)
    decreases m1
  {
    if m0 < m1 - 1 {
      DaysBeforeMonthMonotone(year, m0, m1 - 1);
    }
  }

  /** A date falls inside its year. */
  lemma OrdinalInYear(d: Date)
    requires ValidDate(d)
    ensures DaysBeforeYear(d.year) <= Ordinal(d) < DaysBeforeYear(d.year + 1)
  {
    DaysBeforeMonthMonotone(d.year, d.month, 13);
    if d.month > 1 { DaysBeforeMonthMonotone(d.year, 1, d.month); }
    DaysBeforeYearStep(d.year);
  }

  lemma OrdinalMonotone(a: Date, b: Date)
    requires ValidDate(a) && ValidDate(b) && DateLess(a, b)
    ensures Ordinal(a) < Ordinal(b)
  {
    hide DaysBeforeYear, DaysBeforeMonth, DaysInMonth;
    if a.year < b.year {
      OrdinalInYear(a);
      OrdinalInYear(b);
      DaysBeforeYearMonotone(a.year + 1, b.year);
    } else if a.month < b.month {
      DaysBeforeMonthMonotone(a.year, a.month, b.month);
    }
  }

  predicate CivilLess(a: Civil, b: Civil) {
    DateLess(a.date, b.date) || (a.date == b.date && TimeLess(a, b))
  }

  /** The order of the times of day. */
  predicate TimeLess(a: Civil, b: Civil) {
    || a.hour < b.hour
    || (a.hour == b.hour && (a.minute < b.minute || (a.minute == b.minute &&
         (a.second < b.second || (a.second == b.second && a.micro < b.micro)))))
  }

  lemma InstantMonotone(a: Civil, b: Civil)
    requires Valid(a) && Valid(b)
    ensures CivilLess(a, b) <==> Instant(a) < Instant(b)
    ensures a == b <==> Instant(a) == Instant(b)
  {
    hide Ordinal, DaysInMonth;
    if DateLess(a.date, b.date) { OrdinalMonotone(a.date, b.date); }
    if DateLess(b.date, a.date) { OrdinalMonotone(b.date, a.date); }
  }

  // ----- every instant has exactly one civil time

  function NextDay(d: Date): Date {
    if d.day < DaysInMonth(d.year, d.month) then d.(day := d.day + 1)
    else if d.month < 12 then Date(d.year, d.month + 1, 1)
    else Date(d.year + 1, 1, 1)
  }

  lemma NextDayIsNext(d: Date)
    requires ValidDate(d)
    ensures ValidDate(NextDay(d)) && Ordinal(NextDay(d)) == Ordinal(d) + 1
  {
    if d.day == DaysInMonth(d.year, d.month) && d.month == 12 {
      DaysBeforeYearStep(d.year);
    }
  }

  function DateOf(day: nat): (d: Date)
    ensures ValidDate(d) && Ordinal(d) == day
  {
    if day == 0 then Date(1, 1, 1)
    else
      var p := DateOf(day - 1);
      NextDayIsNext(p);
      NextDay(p)
  }

  function CivilOf(instant: nat): (c: Civil)
    ensures Valid(c) && Instant(c) == instant
  {
    var seconds := instant / 1_000_000;
    var minutes := seconds / 60;
    var hours := minutes / 60;
    Civil(DateOf(hours / 24), hours % 24, minutes % 60, seconds % 60, instant % 1_000_000)
  }

  // ----- the printed form

  function Pow10(width: nat): nat { if width == 0 then 1 else 10 * Pow10(width - 1) }

  function Pad(n: nat, width: nat): (s: string)
    ensures |s| == width
  {
    if width == 0 then "" else Pad(n / 10, width - 1) + ["0123456789"[n % 10]]
  }

  function Field(n: nat, width: nat, separator: char, rest: string): string { Pad(n, width) + ([separator] + rest) }

  function Fraction(micro: nat): string {
    if micro == 0 then "+00:00" else ['.'] + (Pad(micro, 6) + "+00:00")
  }

  /** `datetime.isoformat()` of a UTC value. */
  function Iso(c: Civil): string
    requires Valid(c)
  {
    Field(c.date.year, 4, '-', Field(c.date.month, 2, '-', Field(c.date.day, 2, 'T', TimeText(c))))
  }

  function TimeText(c: Civil): string
    requires Valid(c)
  {
    Field(c.hour, 2, ':', Field(c.minute, 2, ':', Pad(c.second, 2) + Fraction(c.micro)))
  }

  lemma {:induction false} PadOrder(a: nat, b: nat, width: nat)
    requires a < Pow10(width) && b < Pow10(width)
    ensures LexLess(Pad(a, width), Pad(b, width)) <==> a < b
    ensures Pad(a, width) == Pad(b, width) <==> a == b
  {
    if width > 0 {
      PadOrder(a / 10, b / 10, width - 1);
      DigitOrder(a % 10, b % 10);
      var x, y := ["0123456789"[a % 10]], ["0123456789"[b % 10]];
      LexConcat(Pad(a / 10, width - 1), x, Pad(b / 10, width - 1), y);
      LastApart(Pad(a / 10, width - 1), x, Pad(b / 10, width - 1), y);
    }
  }

  lemma DigitOrder(a: nat, b: nat)
    requires a < 10 && b < 10
    ensures var x, y := ["0123456789"[a]], ["0123456789"[b]]; (LexLess(x, y) <==> a < b) && (x == y <==> a == b)
  {
    var x, y := ["0123456789"[a]], ["0123456789"[b]];
    assert x[0] as int == '0' as int + a && y[0] as int == '0' as int + b;
    assert x[1..] == "" && y[1..] == "";
  }

  lemma LastApart(s: string, x: string, t: string, y: string)
    requires |s| == |t|
    ensures s + x == t + y <==> s == t && x == y
  {
    if s + x == t + y {
      assert s == (s + x)[..|s|] && t == (t + y)[..|t|];
      assert x == (s + x)[|s|..] && y == (t + y)[|t|..];
    }
  }

  lemma FieldOrder(a: nat, b: nat, width: nat, separator: char, x: string, y: string)
    requires a < Pow10(width) && b < Pow10(width)
    ensures var s, t := Field(a, width, separator, x), Field(b, width, separator, y);
            && (LexLess(s, t) <==> a < b || (a == b && LexLess(x, y)))
            && (s == t <==> a == b && x == y)
  {
    PadOrder(a, b, width);
    LexConcat(Pad(a, width), [separator] + x, Pad(b, width), [separator] + y);
    LexConcat([separator], x, [separator], y);
    var s, t := Field(a, width, separator, x), Field(b, width, separator, y);
    assert s[..width] == Pad(a, width) && t[..width] == Pad(b, width);
    assert s[width + 1..] == x && t[width + 1..] == y;
  }

  lemma FractionOrder(a: nat, b: nat)
    requires a < 1_000_000 && b < 1_000_000
    ensures LexLess(Fraction(a), Fraction(b)) <==> a < b
    ensures Fraction(a) == Fraction(b) <==> a == b
  {
    assert Pow10(6) == 1_000_000;
    hide Pad, LexLess, Pow10;
    var s, t := Pad(a, 6) + "+00:00", Pad(b, 6) + "+00:00";
    PadOrder(a, b, 6);
    LexConcat(Pad(a, 6), "+00:00", Pad(b, 6), "+00:00");
    LastApart(Pad(a, 6), "+00:00", Pad(b, 6), "+00:00");
    LexConcat(['.'], s, ['.'], t);
    LastApart(['.'], s, ['.'], t);
    LexIrreflexive("+00:00");
    LexIrreflexive(['.']);
    WholeFirst(s);
    WholeFirst(t);
  }

  /** The sign of the zone sorts before the point of a fraction. */
  lemma WholeFirst(t: string)
    ensures LexLess("+00:00", ['.'] + t) && !LexLess(['.'] + t, "+00:00") && "+00:00" != ['.'] + t
  {
    var s := ['.'] + t;
    assert s[0] == '.' && "+00:00"[0] == '+';
  }

  lemma SecondsOrder(a: Civil, b: Civil)
    requires Valid(a) && Valid(b)
    ensures var s, t := Pad(a.second, 2) + Fraction(a.micro), Pad(b.second, 2) + Fraction(b.micro);
            && (LexLess(s, t) <==> a.second < b.second || (a.second == b.second && a.micro < b.micro))
            && (s == t <==> a.second == b.second && a.micro == b.micro)
  {
    assert Pow10(2) == 100;
    PadOrder(a.second, b.second, 2);
    FractionOrder(a.micro, b.micro);
    LexConcat(Pad(a.second, 2), Fraction(a.micro), Pad(b.second, 2), Fraction(b.micro));
    var s, t := Pad(a.second, 2) + Fraction(a.micro), Pad(b.second, 2) + Fraction(b.micro);
    assert s[..2] == Pad(a.second, 2) && t[..2] == Pad(b.second, 2);
    assert s[2..] == Fraction(a.micro) && t[2..] == Fraction(b.micro);
  }

  lemma TimeOrder(a: Civil, b: Civil)
    requires Valid(a) && Valid(b)
    ensures LexLess(TimeText(a), TimeText(b)) <==> TimeLess(a, b)
    ensures TimeText(a) == TimeText(b) <==> a.(date := b.date) == b
  {
    assert Pow10(2) == 100;
    hide Field, LexLess, Fraction, Pad, Pow10, ValidDate;
    SecondsOrder(a, b);
    var s, t := Pad(a.second, 2) + Fraction(a.micro), Pad(b.second, 2) + Fraction(b.micro);
    FieldOrder(a.minute, b.minute, 2, ':', s, t);
    FieldOrder(a.hour, b.hour, 2, ':', Field(a.minute, 2, ':', s), Field(b.minute, 2, ':', t));
  }

  lemma IsoOrder(a: Civil, b: Civil)
    requires Representable(a) && Representable(b)
    ensures LexLess(Iso(a), Iso(b)) <==> CivilLess(a, b)
    ensures Iso(a) == Iso(b) <==> a == b
  {
    assert Pow10(2) == 100 && Pow10(4) == 10_000 && a.date.day <= 31 && b.date.day <= 31;
    hide Field, LexLess, TimeText, TimeLess, Pow10, DaysInMonth;
    TimeOrder(a, b);
    var s, t := Field(a.date.day, 2, 'T', TimeText(a)), Field(b.date.day, 2, 'T', TimeText(b));
    FieldOrder(a.date.day, b.date.day, 2, 'T', TimeText(a), TimeText(b));
    FieldOrder(a.date.month, b.date.month, 2, '-', s, t);
    FieldOrder(a.date.year, b.date.year, 4, '-', Field(a.date.month, 2, '-', s), Field(b.date.month, 2, '-', t));
    assert a.date == b.date && a.(date := b.date) == b ==> a == b;
  }

  /** On every pair of representable instants, string order is time order. */
  lemma StringOrderIsTimeOrder(a: Civil, b: Civil)
    requires Representable(a) && Representable(b)
    ensures LexLess(Iso(a), Iso(b)) <==> Instant(a) < Instant(b)
    ensures Iso(a) == Iso(b) <==> Instant(a) == Instant(b)
  {
    IsoOrder(a, b);
    InstantMonotone(a, b);
  }

  /** The stamp of an instant; `None` is Python's OverflowError outside years 1..9999. */
  function Stamp(instant: int): Option<string> {
    if instant < 0 || CivilOf(instant).date.year > 9999 then None else Some(Iso(CivilOf(instant)))
  }

  /** A local time as it was written, with its UTC offset in microseconds. */
  datatype Written = Written(local: Civil, offset: int) {
    ghost predicate Accepted() { Representable(local) && Stamp(Utc()).Some? }

    function Utc(): int { if Valid(local) then Instant(local) - offset else 0 }
  }

  /** Normalisation: parse, convert to UTC, print. */
  function AwareIso8601(w: Written): Option<string>
    requires Representable(w.local)
  {
    Stamp(w.Utc())
  }

  /** What makes the string cut-offs right: two stamps compare as the instants they stand for. */
  lemma StampOrder(i: int, j: int)
    requires Stamp(i).Some? && Stamp(j).Some?
    ensures LexLess(Stamp(i).value, Stamp(j).value) <==> i < j
    ensures Stamp(i).value == Stamp(j).value <==> i == j
  {
    StringOrderIsTimeOrder(CivilOf(i), CivilOf(j));
  }

  /** Exactly the instants of years 1..9999 have a stamp. */
  lemma StampRange(instant: int)
    ensures Stamp(instant).Some? <==> 0 <= instant < Instant(Civil(Date(10_000, 1, 1), 0, 0, 0, 0))
  {
    hide Ordinal, Iso;
    if instant >= 0 {
      InstantMonotone(CivilOf(instant), Civil(Date(10_000, 1, 1), 0, 0, 0, 0));
    }
  }

  /** Whatever offsets two timestamps were written with, their normalised forms compare as their instants. */
  lemma CutoffsCompareInstants(a: Written, b: Written)
    requires a.Accepted() && b.Accepted()
    ensures LexLess(AwareIso8601(a).value, AwareIso8601(b).value) <==> a.Utc() < b.Utc()
    ensures AwareIso8601(a) == AwareIso8601(b) <==> a.Utc() == b.Utc()
  {
    StampOrder(a.Utc(), b.Utc());
  }

  /** A time written with an offset normalises to the UTC time that many microseconds earlier. */
  lemma OffsetIsTakenOff(local: Civil, offset: int, utc: Civil)
    requires Representable(local) && Representable(utc) && Instant(local) == Instant(utc) + offset
    ensures AwareIso8601(Written(local, offset)) == Some(Iso(utc))
  {
    hide Ordinal, DaysInMonth, Iso;
    OrdinalNatural(utc.date);
    InstantMonotone(CivilOf(Instant(utc)), utc);
  }

  /** Normalising a value already in UTC prints that value. */
  lemma NormaliseUtcIsPrint(c: Civil)
    requires Representable(c)
    ensures AwareIso8601(Written(c, 0)) == Some(Iso(c))
  {
    hide Ordinal, DaysInMonth, Iso;
    OrdinalNatural(c.date);
    InstantMonotone(CivilOf(Instant(c)), c);
  }

  lemma OrdinalNatural(d: Date)
    requires ValidDate(d)
    ensures Ordinal(d) >= 0
  {
    assert DaysBeforeYear(1) == 0;
    hide Ordinal, DaysBeforeYear, DaysBeforeMonth, DaysInMonth;
    DaysBeforeYearMonotone(1, d.year);
    OrdinalInYear(d);
  }

  /** The order is not an accident of equal lengths: a whole second prints shorter than its fractions, and sorts first. */
  lemma WholeSecondPrintsShorter(c: Civil)
    requires Representable(c) && c.micro != 0
    ensures var whole := c.(micro := 0);
            |Iso(whole)| + 7 == |Iso(c)| && LexLess(Iso(whole), Iso(c)) && Iso(whole) != Iso(c)
  {
    IsoOrder(c.(micro := 0), c);
  }
}
