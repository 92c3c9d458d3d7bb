/** Stored timestamps and ids: their text order is the order of time and of the ids. */
module Timestamps {

  import opened Text
  import TaskLedger

  // -------------------------------------------------------- text order

  /** Neither text begins the other. */
  predicate Apart(a: string, b: string) {
    !(a <= b) && !(b <= a)
  }

  /** Text order between x and y is number order between m and n, and different texts part ways
      before either ends. */
  predicate Tracks(x: string, y: string, m: int, n: int) {
    && (Less(x, y) <==> m < n)
    && (x == y <==> m == n)
    && (x == y || Apart(x, y))
  }

  lemma {:induction false} ConcatEqualLengths(p: string, q: string, x: string, y: string)
    requires |p| == |q|
    ensures Less(p + x, q + y) <==> Less(p, q) || (p == q && Less(x, y))
    ensures p + x == q + y <==> p == q && x == y
    ensures p + x <= q + y <==> p == q && x <= y
    decreases |p|
  {
    if p == "" {
      assert p + x == x && q + y == y;
    } else {
      assert (p + x)[1..] == p[1..] + x && (q + y)[1..] == q[1..] + y;
      assert p + x <= q + y <==> p[0] == q[0] && p[1..] + x <= q[1..] + y by {
        Prefixes(p + x, q + y);
      }
      ConcatEqualLengths(p[1..], q[1..], x, y);
      if p[1..] == q[1..] && p[0] == q[0] {
        assert p == [p[0]] + p[1..] && q == [q[0]] + q[1..];
      }
      if x == y && p == q {
        assert p + x == q + y;
      }
      if p + x == q + y {
        assert p[1..] + x == q[1..] + y;
      }
    }
  }

  lemma Prefixes(a: string, b: string)
    requires a != "" && b != ""
    ensures a <= b <==> a[0] == b[0] && a[1..] <= b[1..]
  {
  }

  lemma {:induction false} ConcatApart(p: string, q: string, x: string, y: string)
    requires Apart(p, q)
    ensures Less(p + x, q + y) <==> Less(p, q)
    decreases |p|
  {
    assert p != "" && q != "";
    assert (p + x)[1..] == p[1..] + x && (q + y)[1..] == q[1..] + y;
    Prefixes(p, q);
    Prefixes(q, p);
    if p[0] == q[0] {
      ConcatApart(p[1..], q[1..], x, y);
    }
  }

  // ------------------------------------------------------------ digits

  /** Digits of bases up to sixteen; their character order is their value order. */
  function DigitChar(d: nat): char
    requires d < 16
  {
    if d < 10 then ('0' as int + d) as char else ('a' as int + d - 10) as char
  }

  function Limit(base: nat, width: nat): nat {
    if width == 0 then 1 else base * Limit(base, width - 1)
  }

  /** n in `width` digits, zero-padded. */
  function Pad(base: nat, n: nat, width: nat): (s: string)
    requires 2 <= base <= 16
    ensures |s| == width
  {
    if width == 0 then "" else Pad(base, n / base, width - 1) + [DigitChar(n % base)]
  }

  lemma OneDigit(base: nat, c: nat, d: nat)
    requires 2 <= base <= 16 && c < base && d < base
    ensures Tracks([DigitChar(c)], [DigitChar(d)], c, d)
  {
  }

  lemma {:induction false} PadTracks(base: nat, m: nat, n: nat, width: nat)
    requires 2 <= base <= 16 && m < Limit(base, width) && n < Limit(base, width)
    ensures Tracks(Pad(base, m, width), Pad(base, n, width), m, n)
    decreases width
  {
    if width > 0 {
      var a, c := LastDigit(base, m, width);
      var b, d := LastDigit(base, n, width);
      PadTracks(base, a, b, width - 1);
      OneDigit(base, c, d);
      Level(Pad(base, a, width - 1), Pad(base, b, width - 1), a, b, [DigitChar(c)], [DigitChar(d)], c, d, base);
    }
  }

  /** A padded number is its leading digits and its last one. */
  lemma LastDigit(base: nat, n: nat, width: nat) returns (lead: nat, last: nat)
    requires 2 <= base <= 16 && width > 0 && n < Limit(base, width)
    ensures lead < Limit(base, width - 1) && last < base && n == lead * base + last
    ensures Pad(base, n, width) == Pad(base, lead, width - 1) + [DigitChar(last)]
  {
    lead, last := n / base, n % base;
    assert n == lead * base + last;
    Products(lead, Limit(base, width - 1), base);
  }

  lemma Products(a: nat, b: nat, c: nat)
    ensures a >= b ==> a * c >= b * c
  {
  }

  /** A fixed-width major part in front of a minor part smaller than k. */
  lemma Level(p: string, q: string, hp: nat, hq: nat, x: string, y: string, lx: nat, ly: nat, k: nat)
    requires |p| == |q| && Tracks(p, q, hp, hq) && Tracks(x, y, lx, ly) && lx < k && ly < k
    ensures Tracks(p + x, q + y, hp * k + lx, hq * k + ly)
  {
    ConcatEqualLengths(p, q, x, y);
    ConcatEqualLengths(q, p, y, x);
    Mixed(hp, lx, hq, ly, k);
  }

  lemma Mixed(a: nat, b: nat, c: nat, d: nat, k: nat)
    requires b < k && d < k
    ensures a * k + b < c * k + d <==> a < c || (a == c && b < d)
    ensures a * k + b == c * k + d <==> a == c && b == d
  {
    if a < c {
      assert (a + 1) * k <= c * k;
    } else if c < a {
      assert (c + 1) * k <= a * k;
    }
  }

  lemma Separated(x: string, y: string, m: int, n: int, separator: char)
    requires Tracks(x, y, m, n)
    ensures Tracks([separator] + x, [separator] + y, m, n)
  {
  }

  // ---------------------------------------------------------- UTC instants

  datatype Civil = Civil(year: nat, month: nat, day: nat, hour: nat, minute: nat, second: nat, micro: nat)

  predicate LeapYear(y: nat) {
    y % 4 == 0 && (y % 100 != 0 || y % 400 == 0)
  }

  function DaysInMonth(y: nat, m: nat): nat {
    if m == 2 then (if LeapYear(y) then 29 else 28)
    else if m == 4 || m == 6 || m == 9 || m == 11 then 30 else 31
  }

  predicate Valid(c: Civil) {
    && 1 <= c.year <= 9999 && 1 <= c.month <= 12 && 1 <= c.day <= DaysInMonth(c.year, c.month)
    && c.hour < 24 && c.minute < 60 && c.second < 60 && c.micro < 1_000_000
  }

  const SECOND: nat := 1_000_000
  const MINUTE: nat := 60_000_000
  const HOUR: nat := 3_600_000_000
  const DAY: nat := 86_400_000_000

  function DaysBeforeYear(y: nat): nat
    requires y >= 1
  {
    var p := y - 1;
    p * 365 + p / 4 - p / 100 + p / 400
  }

  function DaysBeforeMonth(y: nat, m: nat): nat {
    if m <= 1 then 0 else DaysBeforeMonth(y, m - 1) + DaysInMonth(y, m - 1)
  }

  function TimeOfDay(c: Civil): nat {
    c.hour * HOUR + (c.minute * MINUTE + (c.second * SECOND + c.micro))
  }

  /** Microseconds since the first day of year one. */
  function Instant(c: Civil): nat
    requires c.year >= 1
  {
    (DaysBeforeYear(c.year) + DaysBeforeMonth(c.year, c.month) + c.day) * DAY + TimeOfDay(c)
  }

  lemma {:induction false} MonthsGrow(y: nat, m: nat, n: nat)
    requires 1 <= m < n <= 13
    ensures DaysBeforeMonth(y, m) + DaysInMonth(y, m) <= DaysBeforeMonth(y, n)
    decreases n
  {
    if m < n - 1 {
      MonthsGrow(y, m, n - 1);
    }
  }

  lemma YearLength(y: nat)
    ensures DaysBeforeMonth(y, 13) == if LeapYear(y) then 366 else 365
  {
    assert DaysBeforeMonth(y, 4) == DaysInMonth(y, 1) + DaysInMonth(y, 2) + DaysInMonth(y, 3) by {
      assert DaysBeforeMonth(y, 3) == DaysBeforeMonth(y, 2) + DaysInMonth(y, 2);
    }
    assert DaysBeforeMonth(y, 7) == DaysBeforeMonth(y, 4) + 91 by {
      assert DaysBeforeMonth(y, 6) == DaysBeforeMonth(y, 5) + DaysInMonth(y, 5);
    }
    assert DaysBeforeMonth(y, 10) == DaysBeforeMonth(y, 7) + 92 by {
      assert DaysBeforeMonth(y, 9) == DaysBeforeMonth(y, 8) + DaysInMonth(y, 8);
    }
    assert DaysBeforeMonth(y, 12) == DaysBeforeMonth(y, 11) + DaysInMonth(y, 11);
  }

  lemma NextYear(y: nat)
    requires y >= 1
    ensures DaysBeforeYear(y + 1) == DaysBeforeYear(y) + DaysBeforeMonth(y, 13)
  {
    YearLength(y);
    LeapDays(y);
  }

  lemma LeapDays(y: nat)
    requires y >= 1
    ensures y / 4 - y / 100 + y / 400
            == (y - 1) / 4 - (y - 1) / 100 + (y - 1) / 400 + if LeapYear(y) then 1 else 0
  {
    QuotientStep(y, 4);
    QuotientStep(y, 100);
    QuotientStep(y, 400);
    assert y % 400 == 0 ==> y % 100 == 0;
    assert y % 100 == 0 ==> y % 4 == 0;
  }

  lemma QuotientStep(y: nat, k: nat)
    requires y >= 1 && k in {4, 100, 400}
    ensures y / k == (y - 1) / k + if y % k == 0 then 1 else 0
  {
  }

  lemma {:induction false} YearsGrow(y: nat, z: nat)
    requires 1 <= y < z
    ensures DaysBeforeYear(y) + DaysBeforeMonth(y, 13) <= DaysBeforeYear(z)
    decreases z
  {
    NextYear(z - 1);
    if y < z - 1 {
      YearsGrow(y, z - 1);
    }
  }

  /** The fields of a date in one mixed-radix number: the order of (year, month, day). */
  function DateNumber(c: Civil): nat {
    c.year * 416 + (c.month * 32 + c.day)
  }

  function DayNumber(c: Civil): nat
    requires c.year >= 1
  {
    DaysBeforeYear(c.year) + DaysBeforeMonth(c.year, c.month) + c.day
  }

  lemma EarlierYear(a: Civil, b: Civil)
    requires Valid(a) && Valid(b) && a.year < b.year
    ensures DayNumber(a) < DayNumber(b)
  {
    YearsGrow(a.year, b.year);
    MonthsGrow(a.year, a.month, 13);
  }

  lemma DateFields(a: Civil, b: Civil)
    requires Valid(a) && Valid(b)
    ensures DateNumber(a) < DateNumber(b) <==>
              || a.year < b.year
              || (a.year == b.year && (a.month < b.month || (a.month == b.month && a.day < b.day)))
    ensures DateNumber(a) == DateNumber(b) <==>
              a.year == b.year && a.month == b.month && a.day == b.day
  {
  }

  lemma EarlierDate(a: Civil, b: Civil)
    requires Valid(a) && Valid(b)
    ensures DateNumber(a) < DateNumber(b) ==> DayNumber(a) < DayNumber(b)
    ensures DateNumber(a) == DateNumber(b) ==> DayNumber(a) == DayNumber(b)
  {
    DateFields(a, b);
    if a.year < b.year {
      EarlierYear(a, b);
    } else if a.year == b.year && a.month < b.month {
      MonthsGrow(a.year, a.month, b.month);
    }
  }

  lemma TimeOfDayBounded(c: Civil)
    requires Valid(c)
    ensures c.second * SECOND + c.micro < MINUTE
    ensures c.minute * MINUTE + (c.second * SECOND + c.micro) < HOUR
    ensures TimeOfDay(c) < DAY
  {
  }

  /** The printed fields order instants as the calendar does. */
  lemma CalendarOrder(a: Civil, b: Civil)
    requires Valid(a) && Valid(b)
    ensures Instant(a) < Instant(b) <==>
              DateNumber(a) * DAY + TimeOfDay(a) < DateNumber(b) * DAY + TimeOfDay(b)
    ensures Instant(a) == Instant(b) <==>
              DateNumber(a) * DAY + TimeOfDay(a) == DateNumber(b) * DAY + TimeOfDay(b)
  {
    EarlierDate(a, b);
    EarlierDate(b, a);
    TimeOfDayBounded(a);
    TimeOfDayBounded(b);
    Mixed(DayNumber(a), TimeOfDay(a), DayNumber(b), TimeOfDay(b), DAY);
    Mixed(DateNumber(a), TimeOfDay(a), DateNumber(b), TimeOfDay(b), DAY);
  }

  // ------------------------------------------------------------ isoformat

  /** The fraction, which isoformat leaves out when it is zero, and the UTC offset. */
  function Tail(c: Civil): string {
    if c.micro == 0 then "+00:00" else "." + (Pad(10, c.micro, 6) + "+00:00")
  }

  function FromSecond(c: Civil): string { Pad(10, c.second, 2) + Tail(c) }
  function FromMinute(c: Civil): string { Pad(10, c.minute, 2) + (":" + FromSecond(c)) }
  function FromHour(c: Civil): string { Pad(10, c.hour, 2) + (":" + FromMinute(c)) }
  function FromDay(c: Civil): string { Pad(10, c.day, 2) + ("T" + FromHour(c)) }
  function FromMonth(c: Civil): string { Pad(10, c.month, 2) + ("-" + FromDay(c)) }

  /** datetime.isoformat() of a UTC instant. */
  function Iso(c: Civil): string { Pad(10, c.year, 4) + ("-" + FromMonth(c)) }

  lemma Limits()
    ensures Limit(10, 2) == 100 && Limit(10, 4) == 10_000 && Limit(10, 6) == 1_000_000
    ensures Limit(16, 12) == 0x1_0000_0000_0000
  {
  }

  lemma TailTracks(a: Civil, b: Civil)
    requires Valid(a) && Valid(b)
    ensures Tracks(Tail(a), Tail(b), a.micro, b.micro)
  {
    Limits();
    if a.micro != 0 && b.micro != 0 {
      PadTracks(10, a.micro, b.micro, 6);
      ConcatEqualLengths(Pad(10, a.micro, 6), Pad(10, b.micro, 6), "+00:00", "+00:00");
      ConcatEqualLengths(Pad(10, b.micro, 6), Pad(10, a.micro, 6), "+00:00", "+00:00");
      assert !Less("+00:00", "+00:00") by { Irreflexive("+00:00"); }
      Separated(Pad(10, a.micro, 6) + "+00:00", Pad(10, b.micro, 6) + "+00:00", a.micro, b.micro, '.');
    } else if a.micro == 0 && b.micro == 0 {
      Irreflexive("+00:00");
    }
  }

  lemma FieldTracks(m: nat, n: nat, width: nat, x: string, y: string, lx: nat, ly: nat, k: nat,
                    separator: char)
    requires m < Limit(10, width) && n < Limit(10, width)
    requires Tracks(x, y, lx, ly) && lx < k && ly < k
    ensures Tracks(Pad(10, m, width) + ([separator] + x), Pad(10, n, width) + ([separator] + y),
                   m * k + lx, n * k + ly)
  {
    PadTracks(10, m, n, width);
    Separated(x, y, lx, ly, separator);
    Level(Pad(10, m, width), Pad(10, n, width), m, n, [separator] + x, [separator] + y, lx, ly, k);
  }

  lemma TimeTracks(a: Civil, b: Civil)
    requires Valid(a) && Valid(b)
    ensures Tracks(FromHour(a), FromHour(b), TimeOfDay(a), TimeOfDay(b))
  {
    Limits();
    TailTracks(a, b);
    PadTracks(10, a.second, b.second, 2);
    Level(Pad(10, a.second, 2), Pad(10, b.second, 2), a.second, b.second, Tail(a), Tail(b),
          a.micro, b.micro, SECOND);
    TimeOfDayBounded(a);
    TimeOfDayBounded(b);
    FieldTracks(a.minute, b.minute, 2, FromSecond(a), FromSecond(b),
                a.second * SECOND + a.micro, b.second * SECOND + b.micro, MINUTE, ':');
    FieldTracks(a.hour, b.hour, 2, FromMinute(a), FromMinute(b),
                a.minute * MINUTE + (a.second * SECOND + a.micro),
                b.minute * MINUTE + (b.second * SECOND + b.micro), HOUR, ':');
  }

  lemma DateTracks(a: Civil, b: Civil)
    requires Valid(a) && Valid(b)
    ensures Tracks(Iso(a), Iso(b), DateNumber(a) * DAY + TimeOfDay(a), DateNumber(b) * DAY + TimeOfDay(b))
  {
    Limits();
    TimeTracks(a, b);
    DayBounded(a);
    DayBounded(b);
    FieldTracks(a.day, b.day, 2, FromHour(a), FromHour(b), TimeOfDay(a), TimeOfDay(b), DAY, 'T');
    FieldTracks(a.month, b.month, 2, FromDay(a), FromDay(b), FromDayNumber(a), FromDayNumber(b), 32 * DAY, '-');
    FieldTracks(a.year, b.year, 4, FromMonth(a), FromMonth(b), FromMonthNumber(a), FromMonthNumber(b),
                416 * DAY, '-');
  }

  function FromDayNumber(c: Civil): nat { c.day * DAY + TimeOfDay(c) }
  function FromMonthNumber(c: Civil): nat { c.month * (32 * DAY) + FromDayNumber(c) }

  /** Stored timestamp order is time order, and neither text of two different instants begins the
      other, with or without a fraction. */
  lemma IsoTracksTime(a: Civil, b: Civil)
    requires Valid(a) && Valid(b)
    ensures Tracks(Iso(a), Iso(b), Instant(a), Instant(b))
  {
    DateTracks(a, b);
    CalendarOrder(a, b);
  }

  lemma DayBounded(c: Civil)
    requires Valid(c)
    ensures TimeOfDay(c) < DAY && FromDayNumber(c) < 32 * DAY && FromMonthNumber(c) < 416 * DAY
    ensures c.year * (416 * DAY) + FromMonthNumber(c) == DateNumber(c) * DAY + TimeOfDay(c)
  {
  }

  // --------------------------------------------------------- read back

  lemma {:induction false} PadReadsBack(base: nat, n: nat, width: nat)
    requires 2 <= base <= 16 && n < Limit(base, width)
    ensures Value(base, Pad(base, n, width)) == n
    decreases width
  {
    if width > 0 {
      var lead, last := LastDigit(base, n, width);
      PadReadsBack(base, lead, width - 1);
      var s := Pad(base, n, width);
      assert s[..|s| - 1] == Pad(base, lead, width - 1) && DigitValue(s[|s| - 1]) == last;
    }
  }

  /** The number in the two places of a text from position k on. */
  predicate TwoAt(s: string, k: nat, n: nat) {
    k + 2 <= |s| && Value(10, s[k..k + 2]) == n
  }

  /** The fraction, if any, read from position k. */
  predicate MicroAt(s: string, k: nat, n: nat) {
    k < |s| && if s[k] == '.' then k + 7 <= |s| && Value(10, s[k + 1..k + 7]) == n else n == 0
  }

  /** The fields that a text spells, at the positions of an ISO timestamp. */
  predicate Spells(s: string, c: Civil) {
    && |s| >= 4 && Value(10, s[..4]) == c.year && TwoAt(s, 5, c.month) && TwoAt(s, 8, c.day)
    && TwoAt(s, 11, c.hour) && TwoAt(s, 14, c.minute) && TwoAt(s, 17, c.second) && MicroAt(s, 19, c.micro)
  }

  predicate Numeral(p: string, width: nat, n: nat) {
    |p| == width && Value(10, p) == n
  }

  lemma TwoThere(before: string, p: string, rest: string, n: nat)
    requires Numeral(p, 2, n)
    ensures TwoAt(before + p + rest, |before|, n)
  {
    assert (before + p + rest)[|before|..|before| + 2] == p;
  }

  lemma TailReads(before: string, c: Civil)
    requires Valid(c)
    ensures MicroAt(before + Tail(c), |before|, c.micro)
  {
    if c.micro != 0 {
      Limits();
      PadReadsBack(10, c.micro, 6);
      FractionThere(before, Pad(10, c.micro, 6), "+00:00", c.micro);
    }
  }

  lemma FractionThere(before: string, p: string, rest: string, n: nat)
    requires Numeral(p, 6, n)
    ensures MicroAt(before + ("." + (p + rest)), |before|, n)
  {
    var s := before + ("." + (p + rest));
    assert s[|before| + 1..|before| + 7] == p;
  }

  lemma DateThere(y: string, mo: string, d: string, rest: string, c: Civil)
    requires Numeral(y, 4, c.year) && Numeral(mo, 2, c.month) && Numeral(d, 2, c.day)
    ensures var s := y + "-" + mo + "-" + d + rest;
            Value(10, s[..4]) == c.year && TwoAt(s, 5, c.month) && TwoAt(s, 8, c.day)
  {
    var s := y + "-" + mo + "-" + d + rest;
    assert s[..4] == y;
    TwoThere(y + "-" + mo + "-", d, rest, c.day);
    assert s == (y + "-") + mo + ("-" + d + rest);
    TwoThere(y + "-", mo, "-" + d + rest, c.month);
  }

  lemma TimeThere(before: string, h: string, mi: string, se: string, tail: string, c: Civil)
    requires |before| == 11 && Numeral(h, 2, c.hour) && Numeral(mi, 2, c.minute) && Numeral(se, 2, c.second)
    ensures var s := before + h + ":" + mi + ":" + se + tail;
            TwoAt(s, 11, c.hour) && TwoAt(s, 14, c.minute) && TwoAt(s, 17, c.second)
  {
    var s := before + h + ":" + mi + ":" + se + tail;
    TwoThere(before + h + ":" + mi + ":", se, tail, c.second);
    assert s == (before + h + ":") + mi + (":" + se + tail);
    TwoThere(before + h + ":", mi, ":" + se + tail, c.minute);
    assert s == before + h + (":" + mi + ":" + se + tail);
    TwoThere(before, h, ":" + mi + ":" + se + tail, c.hour);
  }

  /** A date and the rest of the text, bracketed from the right and from the left. */
  lemma DateText(y: string, mo: string, d: string, rest: string)
    ensures y + ("-" + (mo + ("-" + (d + rest)))) == y + "-" + mo + "-" + d + rest
  {
  }

  lemma TimeText(before: string, h: string, mi: string, se: string, tail: string)
    ensures before + (h + (":" + (mi + (":" + (se + tail))))) == before + h + ":" + mi + ":" + se + tail
  {
  }

  lemma PadIsNumeral(n: nat, width: nat)
    requires n < Limit(10, width)
    ensures Numeral(Pad(10, n, width), width, n)
  {
    PadReadsBack(10, n, width);
  }

  lemma IsoSpells(c: Civil)
    requires Valid(c)
    ensures Spells(Iso(c), c)
  {
    Limits();
    PadIsNumeral(c.year, 4);
    PadIsNumeral(c.month, 2);
    PadIsNumeral(c.day, 2);
    PadIsNumeral(c.hour, 2);
    PadIsNumeral(c.minute, 2);
    PadIsNumeral(c.second, 2);
    SpelledBy(c, Pad(10, c.year, 4), Pad(10, c.month, 2), Pad(10, c.day, 2), Pad(10, c.hour, 2),
              Pad(10, c.minute, 2), Pad(10, c.second, 2));
  }

  lemma SpelledBy(c: Civil, y: string, mo: string, d: string, h: string, mi: string, se: string)
    requires Valid(c)
    requires Numeral(y, 4, c.year) && Numeral(mo, 2, c.month) && Numeral(d, 2, c.day)
    requires Numeral(h, 2, c.hour) && Numeral(mi, 2, c.minute) && Numeral(se, 2, c.second)
    ensures Spells(y + ("-" + (mo + ("-" + (d + ("T" + (h + (":" + (mi + (":" + (se + Tail(c))))))))))), c)
  {
    var time := h + (":" + (mi + (":" + (se + Tail(c)))));
    var s := y + ("-" + (mo + ("-" + (d + ("T" + time)))));
    DateText(y, mo, d, "T" + time);
    DateThere(y, mo, d, "T" + time, c);
    var before := y + "-" + mo + "-" + d + "T";
    assert s == before + time;
    TimeText(before, h, mi, se, Tail(c));
    TimeThere(before, h, mi, se, Tail(c), c);
    TailReads(before + h + ":" + mi + ":" + se, c);
  }

  /** The stored text says which instant it is: read back by position, it spells exactly that one. */
  lemma IsoReadsBack(c: Civil, d: Civil)
    requires Valid(c)
    ensures Spells(Iso(c), d) <==> d == c
  {
    IsoSpells(c);
    if Spells(Iso(c), d) {
      SpellsOne(Iso(c), c, d);
    }
  }

  lemma SpellsOne(s: string, c: Civil, d: Civil)
    requires Spells(s, c) && Spells(s, d)
    ensures c == d
  {
  }

  // --------------------------------------------------- the maximum key

  /** An attempt id: twelve hexadecimal digits after its prefix. */
  function AttemptId(n: nat): string { "att_" + Pad(16, n, 12) }

  /** `started_at || ':' || id`, the key whose maximum the completion query takes. */
  function Key(c: Civil, id: nat): string { Iso(c) + (":" + AttemptId(id)) }

  lemma AttemptIdTracks(m: nat, n: nat)
    requires m < 0x1_0000_0000_0000 && n < 0x1_0000_0000_0000
    ensures Tracks(AttemptId(m), AttemptId(n), m, n)
  {
    Limits();
    PadTracks(16, m, n, 12);
    ConcatEqualLengths("att_", "att_", Pad(16, m, 12), Pad(16, n, 12));
    ConcatEqualLengths("att_", "att_", Pad(16, n, 12), Pad(16, m, 12));
    Irreflexive("att_");
  }

  /** The text order of the keys is the ledger's order of rows: by time, then by id. */
  lemma KeyOrderIsTimeThenId(a: Civil, m: nat, b: Civil, n: nat)
    requires Valid(a) && Valid(b) && m < 0x1_0000_0000_0000 && n < 0x1_0000_0000_0000
    ensures Less(Key(a, m), Key(b, n)) <==> TaskLedger.Earlier(Instant(a), m, Instant(b), n)
  {
    IsoTracksTime(a, b);
    AttemptIdTracks(m, n);
    Separated(AttemptId(m), AttemptId(n), m, n, ':');
    if Iso(a) == Iso(b) {
      ConcatEqualLengths(Iso(a), Iso(b), ":" + AttemptId(m), ":" + AttemptId(n));
      Irreflexive(Iso(a));
    } else {
      ConcatApart(Iso(a), Iso(b), ":" + AttemptId(m), ":" + AttemptId(n));
    }
  }
}
