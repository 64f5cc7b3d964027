// Billing periods: calendar months in UTC, as half-open intervals of instants.
module Calendar {
  import opened Options
  import opened IsoTime

  type Period = (Instant, Instant)

  function MonthIndex(s: Instant): int { s.year * 12 + s.month - 1 }

  predicate MonthStart(s: Instant) { s.day == 1 && s.hour == 0 && s.minute == 0 && s.second == 0 && s.micro == 0 }

  // datetime.replace: None stands for the ValueError of a date that does not exist.
  function Replace(s: Stamp): Option<Instant> { if Valid(s) then Some(s) else None }

  function ShiftMonths(s: Instant, months: int): Option<Instant> {
    var index := MonthIndex(s) + months;
    Replace(s.(year := index / 12, month := index % 12 + 1))
  }

  // Shifts add up, and a shift back undoes a shift forth; one fails exactly when the month is outside the calendar or too
  // short for the day.
  lemma ShiftsCompose(s: Instant, a: int, b: int)
    ensures ShiftMonths(s, 0) == Some(s)
    ensures ShiftMonths(s, a).Some? ==>
      && ShiftMonths(ShiftMonths(s, a).value, b) == ShiftMonths(s, a + b)
      && ShiftMonths(ShiftMonths(s, a).value, -a) == Some(s)
      && MonthIndex(ShiftMonths(s, a).value) == MonthIndex(s) + a
    ensures ShiftMonths(s, a).None? <==>
      var index := MonthIndex(s) + a;
      !(12 <= index < 120000) || s.day > DaysInMonth(index / 12, index % 12 + 1)
  {
  }

  function Floor(now: Instant): Instant { now.(day := 1, hour := 0, minute := 0, second := 0, micro := 0) }

  function NextMonth(s: Instant): Option<Instant> {
    Replace(if s.month == 12 then s.(year := s.year + 1, month := 1) else s.(month := s.month + 1))
  }

  function DefaultBillingPeriod(now: Instant): Option<Period> {
    var start := Floor(now);
    var end := NextMonth(start);
    if end.Some? then Some((start, end.value)) else None
  }

  // Oldest first; None when a month is outside the calendar.
  function PreviousMonths(now: Instant, count: nat): Option<seq<Period>> {
    var current := DefaultBillingPeriod(now);
    if current.None? then None else MonthsBefore(current.value.0, count)
  }

  function MonthsBefore(current: Instant, count: nat): Option<seq<Period>> {
    if count == 0 then Some([])
    else
      var start, end, rest := ShiftMonths(current, 0 - count), ShiftMonths(current, 1 - count), MonthsBefore(current, count - 1);
      if start.None? || end.None? || rest.None? then None else Some([(start.value, end.value)] + rest.value)
  }

  // None: the source raises before it has an answer.
  function IsCalendarMonth(start: Instant, end: Instant): Option<bool> {
    var next := NextMonth(start);
    if next.None? then None else Some(start == Floor(start) && end == next.value)
  }

  predicate Within(t: Instant, p: Period) { Micros(p.0) <= Micros(t) < Micros(p.1) }

  // The period has exactly the instants of the calendar month its start is in.
  ghost predicate CoversOneMonth(p: Period) {
    forall t: Instant :: Within(t, p) <==> MonthIndex(t) == MonthIndex(p.0)
  }

  // The start of a month is where the instants of that month and of later ones begin.
  lemma MonthStartDivides(s: Instant, t: Instant)
    requires MonthStart(s)
    ensures Micros(s) <= Micros(t) <==> MonthIndex(s) <= MonthIndex(t)
  {
    FieldsOrderTime(s, t);
    FieldsOrderTime(t, s);
    hide Micros;
  }

  // From the start of one month to the start of the next are exactly that month's instants.
  lemma MonthsAreIntervals(p: Period)
    requires MonthStart(p.0) && MonthStart(p.1) && MonthIndex(p.1) == MonthIndex(p.0) + 1
    ensures CoversOneMonth(p) && Micros(p.0) < Micros(p.1)
  {
    hide Micros, MonthStart;
    MonthStartDivides(p.1, p.0);
    forall t: Instant ensures Within(t, p) <==> MonthIndex(t) == MonthIndex(p.0) {
      MonthStartDivides(p.0, t);
      MonthStartDivides(p.1, t);
    }
  }

  // The test has no answer exactly for a start whose day the next month lacks, or in the calendar's last month; otherwise
  // it says whether the period is one whole calendar month.
  lemma IsCalendarMonthMeans(start: Instant, end: Instant)
    ensures IsCalendarMonth(start, end).None? <==>
      (start.year == 9999 && start.month == 12) || (start.month < 12 && start.day > DaysInMonth(start.year, start.month + 1))
    ensures IsCalendarMonth(start, end).Some? ==> (IsCalendarMonth(start, end).value <==> CoversOneMonth((start, end)))
  {
    if IsCalendarMonth(start, end).Some? {
      var next := NextMonth(start).value;
      if IsCalendarMonth(start, end).value {
        MonthsAreIntervals((start, end));
      } else if CoversOneMonth((start, end)) {
        var floor := Floor(start);
        var first := Floor(next);
        MonthStartDivides(first, start);
        MonthsAreIntervals((floor, first));
        EqualPeriods((floor, first), (start, end));
      }
    }
  }

  lemma EqualPeriods(p: Period, q: Period)
    requires Micros(p.0) < Micros(p.1)
    requires forall t: Instant :: Within(t, p) <==> Within(t, q)
    ensures p == q
  {
    assert Within(p.0, p) && (Micros(q.0) < Micros(q.1) ==> Within(q.0, q));
    assert !Within(p.1, p) && !Within(q.1, q);
    FieldsOrderTime(p.0, q.0);
    FieldsOrderTime(p.1, q.1);
    hide Micros;
  }

  // The n months before `now` are n whole calendar months, each starting where the one before it ends, the last ending at
  // the start of the current month, so none later than `now`; they cover exactly the instants from the first one's start.
  lemma {:induction false} MonthsTile(current: Instant, count: nat)
    requires MonthStart(current) && MonthsBefore(current, count).Some?
    ensures var months := MonthsBefore(current, count).value;
      && |months| == count
      && (forall i :: 0 <= i < count ==>
            && MonthStart(months[i].0) && MonthStart(months[i].1)
            && MonthIndex(months[i].0) == MonthIndex(current) - count + i
            && MonthIndex(months[i].1) == MonthIndex(months[i].0) + 1)
  {
    if count > 0 {
      ShiftsCompose(current, 0 - count, 0);
      ShiftsCompose(current, 1 - count, 0);
      MonthsTile(current, count - 1);
    }
  }

  predicate Tiles(months: seq<Period>, end: Instant) {
    && (forall i :: 0 <= i < |months| ==> Micros(months[i].0) < Micros(months[i].1))
    && (forall i :: 0 < i < |months| ==> months[i].0 == months[i - 1].1)
    && (months != [] ==> months[|months| - 1].1 == end)
  }

  lemma PreviousMonthsTile(now: Instant, count: nat)
    requires PreviousMonths(now, count).Some?
    ensures var months := PreviousMonths(now, count).value;
      && |months| == count && Tiles(months, Floor(now))
      && (forall i :: 0 <= i < count ==>
            && IsCalendarMonth(months[i].0, months[i].1) == Some(true)
            && CoversOneMonth(months[i]) && MonthIndex(months[i].0) == MonthIndex(now) - count + i
            && Micros(months[i].1) <= Micros(now))
  {
    hide *;
    var current := Floor(now);
    var months := PreviousMonths(now, count).value;
    StartsFromFloor(now, count);
    MonthsTile(current, count);
    forall i | 0 <= i < count
      ensures IsCalendarMonth(months[i].0, months[i].1) == Some(true) && CoversOneMonth(months[i])
      ensures Micros(months[i].0) < Micros(months[i].1) <= Micros(now)
    {
      WholeMonth(months[i], now);
    }
    MonthsChain(months, current);
  }

  lemma StartsFromFloor(now: Instant, count: nat)
    requires PreviousMonths(now, count).Some?
    ensures MonthsBefore(Floor(now), count) == PreviousMonths(now, count)
    ensures MonthStart(Floor(now)) && MonthIndex(Floor(now)) == MonthIndex(now)
  {
  }

  lemma MonthsChain(months: seq<Period>, current: Instant)
    requires MonthStart(current)
    requires forall i :: 0 <= i < |months| ==>
      && MonthStart(months[i].0) && MonthStart(months[i].1) && Micros(months[i].0) < Micros(months[i].1)
      && MonthIndex(months[i].0) == MonthIndex(current) - |months| + i && MonthIndex(months[i].1) == MonthIndex(months[i].0) + 1
    ensures Tiles(months, current)
  {
    hide Micros, MonthIndex, MonthStart;
    forall i | 0 < i < |months| ensures months[i].0 == months[i - 1].1 { SameStart(months[i].0, months[i - 1].1); }
    if months != [] { SameStart(months[|months| - 1].1, current); }
  }

  // One of them by itself.
  lemma WholeMonth(p: Period, now: Instant)
    requires MonthStart(p.0) && MonthStart(p.1) && MonthIndex(p.1) == MonthIndex(p.0) + 1 && MonthIndex(p.1) <= MonthIndex(now)
    ensures IsCalendarMonth(p.0, p.1) == Some(true) && CoversOneMonth(p) && Micros(p.0) < Micros(p.1) <= Micros(now)
  {
    StartToStart(p);
    MonthsAreIntervals(p);
    MonthStartDivides(p.1, now);
    hide *;
  }

  lemma StartToStart(p: Period)
    requires MonthStart(p.0) && MonthStart(p.1) && MonthIndex(p.1) == MonthIndex(p.0) + 1
    ensures IsCalendarMonth(p.0, p.1) == Some(true)
  {
  }

  // When the list does not exist: the window would begin before year 1, or the current month is the calendar's last.
  lemma PreviousMonthsExist(now: Instant, count: nat)
    ensures PreviousMonths(now, count).Some? <==>
      !(now.year == 9999 && now.month == 12) && (count > 0 ==> MonthIndex(now) - count >= 12)
  {
    if DefaultBillingPeriod(now).Some? { MonthsExist(Floor(now), count); }
  }

  lemma {:induction false} MonthsExist(current: Instant, count: nat)
    requires MonthStart(current)
    ensures MonthsBefore(current, count).Some? <==> (count > 0 ==> MonthIndex(current) - count >= 12)
  {
    if count > 0 {
      ShiftsCompose(current, 0 - count, 0);
      ShiftsCompose(current, 1 - count, 0);
      MonthsExist(current, count - 1);
    }
  }

  // A month is as long as the calendar says.
  lemma MonthLength(p: Period)
    requires MonthStart(p.0) && MonthStart(p.1) && MonthIndex(p.1) == MonthIndex(p.0) + 1
    ensures Micros(p.1) - Micros(p.0) == DaysInMonth(p.0.year, p.0.month) * DAY <= 31 * DAY
  {
    if p.0.month == 12 {
      assert p.1.year == p.0.year + 1 && p.1.month == 1;
      assert DaysBeforeMonth(p.0.year, 13) == DaysBeforeMonth(p.0.year, 12) + DaysInMonth(p.0.year, 12);
    } else {
      assert p.1.year == p.0.year && p.1.month == p.0.month + 1;
    }
  }

  // Two whole months that share an instant are the same month.
  lemma MonthsMeetOnlyThemselves(p: Period, q: Period)
    requires MonthStart(p.0) && MonthStart(p.1) && MonthIndex(p.1) == MonthIndex(p.0) + 1
    requires MonthStart(q.0) && MonthStart(q.1) && MonthIndex(q.1) == MonthIndex(q.0) + 1
    requires Micros(p.0) < Micros(q.1) && Micros(q.0) < Micros(p.1)
    ensures p == q
  {
    hide Micros, MonthIndex, MonthStart;
    MonthStartDivides(q.1, p.0);
    MonthStartDivides(p.1, q.0);
    SameStart(p.0, q.0);
    SameStart(p.1, q.1);
  }

  lemma SameStart(a: Instant, b: Instant)
    requires MonthStart(a) && MonthStart(b) && MonthIndex(a) == MonthIndex(b)
    ensures a == b
  {
  }
}
