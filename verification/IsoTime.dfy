// UTC instants as calendar fields, their place on the time line, and the text Python's isoformat prints for them.
module IsoTime {
  datatype Stamp = Stamp(year: int, month: int, day: int, hour: int, minute: int, second: int, micro: int)

  predicate Leap(year: int) { year % 4 == 0 && (year % 100 != 0 || year % 400 == 0) }

  function DaysInMonth(year: int, month: int): int {
    if month == 2 then (if Leap(year) then 29 else 28)
    else if month in {4, 6, 9, 11} then 30 else 31
  }

  predicate Valid(s: Stamp) {
    && 1 <= s.year <= 9999 && 1 <= s.month <= 12 && 1 <= s.day <= DaysInMonth(s.year, s.month)
    && 0 <= s.hour < 24 && 0 <= s.minute < 60 && 0 <= s.second < 60 && 0 <= s.micro < 1000000
  }

  type Instant = s: Stamp | Valid(s) witness Stamp(1970, 1, 1, 0, 0, 0, 0)

  // ------------------------------------------------------------------ the time line

  function DaysBeforeMonth(year: int, month: nat): nat {
    if month <= 1 then 0 else DaysBeforeMonth(year, month - 1) + DaysInMonth(year, month - 1)
  }

  function DaysBeforeYear(year: nat): nat {
    if year <= 1 then 0 else DaysBeforeYear(year - 1) + DaysBeforeMonth(year - 1, 13)
  }

  function DayNumber(s: Instant): int { DaysBeforeYear(s.year) + DaysBeforeMonth(s.year, s.month) + s.day }

  function MicroOfDay(s: Instant): int { ((s.hour * 60 + s.minute) * 60 + s.second) * 1000000 + s.micro }

  const DAY := 86400000000

  // Microseconds since the calendar began.
  function Micros(s: Instant): int { DayNumber(s) * DAY + MicroOfDay(s) }

  lemma {:induction false} MonthsAddUp(year: int, m: nat, n: nat)
    requires 1 <= m < n
    ensures DaysBeforeMonth(year, m) + DaysInMonth(year, m) <= DaysBeforeMonth(year, n)
  {
    if m + 1 < n { MonthsAddUp(year, m, n - 1); }
  }

  lemma {:induction false} YearsAddUp(y: nat, z: nat)
    requires 1 <= y < z
    ensures DaysBeforeYear(y) + DaysBeforeMonth(y, 13) <= DaysBeforeYear(z)
  {
    hide DaysBeforeMonth;
    if y + 1 < z { YearsAddUp(y, z - 1); }
  }

  predicate EarlierDay(a: Instant, b: Instant) {
    a.year < b.year || (a.year == b.year && (a.month < b.month || (a.month == b.month && a.day < b.day)))
  }

  predicate SameDay(a: Instant, b: Instant) { a.year == b.year && a.month == b.month && a.day == b.day }

  lemma EarlierDayIsEarlier(a: Instant, b: Instant)
    requires EarlierDay(a, b)
    ensures DayNumber(a) < DayNumber(b)
  {
    MonthsAddUp(a.year, a.month, 13);
    if a.year < b.year {
      YearsAddUp(a.year, b.year);
    } else if a.month < b.month {
      MonthsAddUp(a.year, a.month, b.month);
    }
  }

  predicate EarlierInDay(a: Instant, b: Instant) {
    || a.hour < b.hour
    || (a.hour == b.hour
        && (a.minute < b.minute
            || (a.minute == b.minute && (a.second < b.second || (a.second == b.second && a.micro < b.micro)))))
  }

  // Comparing field by field is comparing positions on the time line.
  lemma FieldsOrderTime(a: Instant, b: Instant)
    ensures Micros(a) < Micros(b) <==> EarlierDay(a, b) || (SameDay(a, b) && EarlierInDay(a, b))
    ensures Micros(a) == Micros(b) <==> a == b
  {
    assert 0 <= MicroOfDay(a) < DAY && 0 <= MicroOfDay(b) < DAY;
    assert MicroOfDay(a) < MicroOfDay(b) <==> EarlierInDay(a, b);
    if EarlierDay(a, b) {
      EarlierDayIsEarlier(a, b);
    } else if EarlierDay(b, a) {
      EarlierDayIsEarlier(b, a);
    }
  }

  // ------------------------------------------------------------------ the text

  function Digit(d: int): char
    requires 0 <= d < 10
  {
    '0' + d as char
  }

  function Digits(n: nat, width: nat): string {
    if width == 0 then "" else Digits(n / 10, width - 1) + [Digit(n % 10)]
  }

  function Power10(width: nat): nat { if width == 0 then 1 else 10 * Power10(width - 1) }

  function Tail(micro: nat): string { (if micro == 0 then "" else "." + Digits(micro, 6)) + "+00:00" }

  function ClockText(s: Instant): string {
    Digits(s.hour, 2) + (":" + (Digits(s.minute, 2) + (":" + (Digits(s.second, 2) + Tail(s.micro)))))
  }

  function Text(s: Instant): string {
    Digits(s.year, 4) + ("-" + (Digits(s.month, 2) + ("-" + (Digits(s.day, 2) + ("T" + ClockText(s))))))
  }

  // Text order: character by character, a prefix first.
  predicate Less(a: string, b: string) {
    b != "" && (a == "" || a[0] < b[0] || (a[0] == b[0] && Less(a[1..], b[1..])))
  }

  lemma {:induction false} LessIsStrict(a: string)
    ensures !Less(a, a)
  {
    if a != "" { LessIsStrict(a[1..]); }
  }

  lemma {:induction false} LessIsTransitive(a: string, b: string, c: string)
    requires Less(a, b) && Less(b, c)
    ensures Less(a, c)
  {
    if a != "" && a[0] == b[0] && b[0] == c[0] { LessIsTransitive(a[1..], b[1..], c[1..]); }
  }

  lemma {:induction false} LessIsTotal(a: string, b: string)
    ensures a == b || Less(a, b) || Less(b, a)
  {
    if a != "" && b != "" && a[0] == b[0] {
      LessIsTotal(a[1..], b[1..]);
      assert a == [a[0]] + a[1..] && b == [b[0]] + b[1..];
    }
  }

  // Texts that agree on their first part are ordered by the rest.
  lemma {:induction false} LessAfterPrefix(p: string, x: string, y: string)
    ensures Less(p + x, p + y) <==> Less(x, y)
  {
    if p == "" {
      assert p + x == x && p + y == y;
    } else {
      assert (p + x)[1..] == p[1..] + x && (p + y)[1..] == p[1..] + y;
      LessAfterPrefix(p[1..], x, y);
    }
  }

  // A number in a fixed width decides before anything after it.
  lemma {:induction false} DigitsDecide(m: nat, n: nat, width: nat, x: string, y: string)
    requires m < Power10(width) && n < Power10(width)
    ensures Less(Digits(m, width) + x, Digits(n, width) + y) <==> m < n || (m == n && Less(x, y))
  {
    if width == 0 {
      assert Digits(m, 0) + x == x && Digits(n, 0) + y == y;
    } else {
      var p, q := [Digit(m % 10)] + x, [Digit(n % 10)] + y;
      assert Digits(m, width) + x == Digits(m / 10, width - 1) + p;
      assert Digits(n, width) + y == Digits(n / 10, width - 1) + q;
      DigitsDecide(m / 10, n / 10, width - 1, p, q);
      assert p[1..] == x && q[1..] == y;
    }
  }

  lemma TailsOrderMicros(a: nat, b: nat)
    requires a < 1000000 && b < 1000000
    ensures Less(Tail(a), Tail(b)) <==> a < b
  {
    assert Power10(6) == 1000000 by { assert Power10(3) == 1000; }
    if a == 0 && b == 0 {
      LessIsStrict(Tail(a));
    } else if a == 0 || b == 0 {
      assert Tail(0)[0] == '+';
      assert a != 0 ==> Tail(a)[0] == '.';
      assert b != 0 ==> Tail(b)[0] == '.';
    } else {
      assert Tail(a) == "." + (Digits(a, 6) + "+00:00") && Tail(b) == "." + (Digits(b, 6) + "+00:00");
      LessAfterPrefix(".", Digits(a, 6) + "+00:00", Digits(b, 6) + "+00:00");
      DigitsDecide(a, b, 6, "+00:00", "+00:00");
      LessIsStrict("+00:00");
    }
  }

  lemma ClockTextsOrder(a: Instant, b: Instant)
    ensures Less(ClockText(a), ClockText(b)) <==> EarlierInDay(a, b)
  {
    assert Power10(2) == 100;
    var s, t := Digits(a.second, 2) + Tail(a.micro), Digits(b.second, 2) + Tail(b.micro);
    var m, n := Digits(a.minute, 2) + (":" + s), Digits(b.minute, 2) + (":" + t);
    TailsOrderMicros(a.micro, b.micro);
    DigitsDecide(a.second, b.second, 2, Tail(a.micro), Tail(b.micro));
    LessAfterPrefix(":", s, t);
    DigitsDecide(a.minute, b.minute, 2, ":" + s, ":" + t);
    LessAfterPrefix(":", m, n);
    DigitsDecide(a.hour, b.hour, 2, ":" + m, ":" + n);
  }

  lemma TextsOrderFields(a: Instant, b: Instant)
    ensures Less(Text(a), Text(b)) <==> EarlierDay(a, b) || (SameDay(a, b) && EarlierInDay(a, b))
  {
    assert Power10(2) == 100 && Power10(4) == 10000 by { assert Power10(3) == 1000; }
    var s, t := Digits(a.day, 2) + ("T" + ClockText(a)), Digits(b.day, 2) + ("T" + ClockText(b));
    var m, n := Digits(a.month, 2) + ("-" + s), Digits(b.month, 2) + ("-" + t);
    ClockTextsOrder(a, b);
    LessAfterPrefix("T", ClockText(a), ClockText(b));
    DigitsDecide(a.day, b.day, 2, "T" + ClockText(a), "T" + ClockText(b));
    LessAfterPrefix("-", s, t);
    DigitsDecide(a.month, b.month, 2, "-" + s, "-" + t);
    LessAfterPrefix("-", m, n);
    DigitsDecide(a.year, b.year, 4, "-" + m, "-" + n);
  }

  // The text of one instant is before the text of another exactly when the instant is, although the microseconds are
  // left out when they are zero.
  lemma TextOrderIsTimeOrder(a: Instant, b: Instant)
    ensures Less(Text(a), Text(b)) <==> Micros(a) < Micros(b)
    ensures Text(a) == Text(b) <==> a == b
  {
    hide Text, Micros, Less;
    TextsOrderFields(a, b);
    TextsOrderFields(b, a);
    FieldsOrderTime(a, b);
    FieldsOrderTime(b, a);
    if Text(a) == Text(b) { LessIsStrict(Text(a)); }
  }
}
