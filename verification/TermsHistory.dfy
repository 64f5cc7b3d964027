// What a plan was, and charged, at a past instant: a bounded history of changes, and the step function it stands for.
module TermsHistory {
  type Time = int

  // The start of 1970, and how many rows are kept.
  const EPOCH: Time := 0
  const MAX_ROWS := 500

  datatype Row<T> = Row(at: Time, value: T)

  // What the settings hold under the subject's key.
  datatype Stored<T> = Absent | Unreadable | Rows(rows: seq<Row<T>>)

  function Load<T>(stored: Stored<T>): seq<Row<T>> { if stored.Rows? then stored.rows else [] }

  function Newest<T>(rows: seq<Row<T>>): seq<Row<T>> {
    if |rows| > MAX_ROWS then rows[|rows| - MAX_ROWS..] else rows
  }

  // A change recorded at `at` from `previous` to `next`.
  datatype Change<T> = Change(previous: T, next: T, at: Time)

  function Recorded<T(==)>(rows: seq<Row<T>>, c: Change<T>): seq<Row<T>> {
    if c.previous == c.next then rows
    else Newest((if rows == [] then [Row(EPOCH, c.previous)] else rows) + [Row(c.at, c.next)])
  }

  // The last row at or before the moment, in row order; the first row's value when there is none.
  function Chosen<T>(rows: seq<Row<T>>, moment: Time): T
    requires rows != []
  {
    var last := rows[|rows| - 1];
    if last.at <= moment || |rows| == 1 then last.value else Chosen(rows[..|rows| - 1], moment)
  }

  function ValueAt<T>(rows: seq<Row<T>>, moment: Time, current: T): T {
    if rows == [] then current else Chosen(rows, moment)
  }

  class History<T(==)> {
    var stored: Stored<T>

    constructor ()
      ensures stored == Absent
    {
      stored := Absent;
    }

    method RecordChange(previous: T, next: T, at: Time)
      modifies this
      ensures Load(stored) == Recorded(old(Load(stored)), Change(previous, next, at))
      ensures previous == next ==> stored == old(stored)
    {
      if previous == next {
        return;
      }
      var rows := Load(stored);
      if rows == [] {
        rows := [Row(EPOCH, previous)];
      }
      rows := rows + [Row(at, next)];
      stored := Rows(if |rows| > MAX_ROWS then rows[|rows| - MAX_ROWS..] else rows);
    }

    method ReadValueAt(moment: Time, current: T) returns (chosen: T)
      ensures chosen == ValueAt(Load(stored), moment, current)
    {
      var rows := Load(stored);
      if rows == [] {
        return current;
      }
      chosen := rows[0].value;
      for i := 0 to |rows|
        invariant i == 0 ==> chosen == rows[0].value
        invariant i > 0 ==> chosen == Chosen(rows[..i], moment)
      {
        if rows[i].at <= moment {
          chosen := rows[i].value;
        }
        assert rows[..i + 1][..i] == rows[..i];
      }
      assert rows[..|rows|] == rows;
    }
  }

  // ------------------------------------------------------------------ the truth

  // The value in force after the changes, and at a moment, when it was `first` to begin with.
  function Now<T>(first: T, changes: seq<Change<T>>): T {
    if changes == [] then first else changes[|changes| - 1].next
  }

  function Truth<T>(first: T, changes: seq<Change<T>>, moment: Time): T {
    if changes == [] then first
    else
      var last := changes[|changes| - 1];
      if last.at <= moment then last.next else Truth(first, changes[..|changes| - 1], moment)
  }

  // Each change starts from the value in force, none is earlier than the one before, and none is before the epoch.
  predicate InOrder<T(==)>(first: T, changes: seq<Change<T>>) {
    && (forall i :: 0 <= i < |changes| ==> changes[i].previous == Now(first, changes[..i]) && changes[i].at >= EPOCH)
    && (forall i, j :: 0 <= i < j < |changes| ==> changes[i].at <= changes[j].at)
  }

  function AllRecorded<T(==)>(changes: seq<Change<T>>): seq<Row<T>> {
    if changes == [] then [] else Recorded(AllRecorded(changes[..|changes| - 1]), changes[|changes| - 1])
  }

  // The same without the bound.
  function Unbounded<T(==)>(changes: seq<Change<T>>): seq<Row<T>> {
    if changes == [] then []
    else
      var rows, c := Unbounded(changes[..|changes| - 1]), changes[|changes| - 1];
      if c.previous == c.next then rows
      else (if rows == [] then [Row(EPOCH, c.previous)] else rows) + [Row(c.at, c.next)]
  }

  lemma {:induction false} KeptIsNewest<T>(changes: seq<Change<T>>)
    ensures AllRecorded(changes) == Newest(Unbounded(changes))
    ensures Unbounded(changes) == [] || |Unbounded(changes)| >= 2
  {
    if changes != [] {
      var front, c := changes[..|changes| - 1], changes[|changes| - 1];
      KeptIsNewest(front);
      var rows, kept := Unbounded(front), AllRecorded(front);
      if c.previous != c.next && rows != [] { NewestOfOneMore(rows, Row(c.at, c.next)); }
      hide Newest;
      assert rows == [] ==> Newest(rows) == [] by { NewestOfNone<T>(); }
    }
  }

  lemma NewestOfNone<T>()
    ensures Newest<T>([]) == []
  {
  }

  // Cutting after every change keeps what cutting once at the end would.
  lemma NewestOfOneMore<T>(rows: seq<Row<T>>, row: Row<T>)
    requires rows != []
    ensures Newest(Newest(rows) + [row]) == Newest(rows + [row]) && Newest(rows) != []
  {
    if |rows| > MAX_ROWS {
      assert Newest(rows) + [row] == (rows + [row])[|rows| - MAX_ROWS..];
    }
  }

  // Rows are in time order, start with the original value at the epoch, and end with the value in force.
  predicate Shaped<T(==)>(rows: seq<Row<T>>, first: T, changes: seq<Change<T>>) {
    if rows == [] then Now(first, changes) == first
    else
      && rows[0] == Row(EPOCH, first)
      && (forall i, j :: 0 <= i < j < |rows| ==> rows[i].at <= rows[j].at)
      && rows[|rows| - 1].value == Now(first, changes)
      && changes != [] && rows[|rows| - 1].at <= changes[|changes| - 1].at
  }

  lemma FrontInOrder<T>(first: T, changes: seq<Change<T>>)
    requires InOrder(first, changes) && changes != []
    ensures var front, c := changes[..|changes| - 1], changes[|changes| - 1];
      && InOrder(first, front) && c.previous == Now(first, front) && c.at >= EPOCH
      && (front != [] ==> front[|front| - 1].at <= c.at)
  {
    var front := changes[..|changes| - 1];
    assert forall i :: 0 <= i < |front| ==> front[..i] == changes[..i];
  }

  lemma {:induction false} UnboundedIsShaped<T>(first: T, changes: seq<Change<T>>)
    requires InOrder(first, changes)
    ensures Shaped(Unbounded(changes), first, changes)
  {
    if changes != [] {
      FrontInOrder(first, changes);
      hide InOrder;
      var front, c := changes[..|changes| - 1], changes[|changes| - 1];
      UnboundedIsShaped(first, front);
      var rows := Unbounded(front);
      assert Unbounded(changes) == if c.previous == c.next then rows
        else (if rows == [] then [Row(EPOCH, c.previous)] else rows) + [Row(c.at, c.next)];
      hide Unbounded;
    }
  }

  // The rows, all kept, answer every moment with the value then in force.
  lemma {:induction false} UnboundedIsTrue<T>(first: T, changes: seq<Change<T>>, moment: Time)
    requires InOrder(first, changes)
    ensures Truth(first, changes, moment) == ValueAt(Unbounded(changes), moment, first)
  {
    if changes != [] {
      var front, c := changes[..|changes| - 1], changes[|changes| - 1];
      var rows, more := Unbounded(front), Unbounded(changes);
      FrontInOrder(first, changes);
      UnboundedIsTrue(first, front, moment);
      UnboundedIsShaped(first, front);
      hide InOrder, Unbounded;
      if c.previous == c.next {
        assert more == rows;
        AllInForce(first, front, c.at);
        if c.at <= moment { AllInForce(first, front, moment); }
      } else {
        var base := if rows == [] then [Row(EPOCH, c.previous)] else rows;
        assert more == base + [Row(c.at, c.next)];
        assert more[..|more| - 1] == base;
        assert Chosen(more, moment) == if c.at <= moment then c.next else Chosen(base, moment);
        assert rows == [] ==> Chosen(base, moment) == first;
      }
    }
  }

  lemma AllInForce<T>(first: T, changes: seq<Change<T>>, moment: Time)
    requires changes != [] ==> changes[|changes| - 1].at <= moment
    ensures Truth(first, changes, moment) == Now(first, changes)
  {
  }

  // Dropping old rows leaves every answer at or after the oldest kept one.
  lemma {:induction false} SuffixChoosesTheSame<T>(rows: seq<Row<T>>, k: nat, moment: Time)
    requires k < |rows| && rows[k].at <= moment
    ensures Chosen(rows[k..], moment) == Chosen(rows, moment)
  {
    if |rows| > k + 1 && rows[|rows| - 1].at > moment {
      var front := rows[..|rows| - 1];
      assert rows[k..][..|rows[k..]| - 1] == front[k..];
      SuffixChoosesTheSame(front, k, moment);
    }
  }

  lemma {:induction false} BeforeAllRows<T>(rows: seq<Row<T>>, moment: Time)
    requires rows != [] && forall i :: 0 <= i < |rows| ==> rows[i].at > moment
    ensures Chosen(rows, moment) == rows[0].value
  {
    if |rows| > 1 { BeforeAllRows(rows[..|rows| - 1], moment); }
  }

  // At and after the oldest row kept the history gives the value that was in force; with nothing recorded, or nothing
  // dropped, it does so at every moment.
  lemma HistoryIsTrue<T>(first: T, changes: seq<Change<T>>, moment: Time)
    requires InOrder(first, changes)
    requires var kept := AllRecorded(changes);
      kept == [] || moment >= kept[0].at || |Unbounded(changes)| <= MAX_ROWS
    ensures ValueAt(AllRecorded(changes), moment, Now(first, changes)) == Truth(first, changes, moment)
  {
    hide InOrder, AllRecorded, Unbounded, Truth, Now;
    KeptIsNewest(changes);
    UnboundedIsShaped(first, changes);
    UnboundedIsTrue(first, changes, moment);
    var rows := Unbounded(changes);
    if |rows| > MAX_ROWS {
      SuffixChoosesTheSame(rows, |rows| - MAX_ROWS, moment);
    }
  }

  // Before the oldest row kept it gives that row's value, whatever was in force.
  lemma OldestAnswersForAllBefore<T>(first: T, changes: seq<Change<T>>, moment: Time)
    requires InOrder(first, changes) && AllRecorded(changes) != [] && moment < AllRecorded(changes)[0].at
    ensures ValueAt(AllRecorded(changes), moment, Now(first, changes)) == AllRecorded(changes)[0].value
  {
    KeptIsNewest(changes);
    UnboundedIsShaped(first, changes);
    hide InOrder, AllRecorded, Unbounded;
    BeforeAllRows(AllRecorded(changes), moment);
  }

  // When no two changes happen at the same instant, the history is right at every moment exactly while no row has been
  // dropped: there has been no more than one change per row after the first.
  lemma RightEverywhereIff<T>(first: T, changes: seq<Change<T>>)
    requires InOrder(first, changes) && Separate(changes)
    ensures |Unbounded(changes)| <= MAX_ROWS <==>
      forall m :: ValueAt(AllRecorded(changes), m, Now(first, changes)) == Truth(first, changes, m)
  {
    if |Unbounded(changes)| <= MAX_ROWS {
      forall m ensures ValueAt(AllRecorded(changes), m, Now(first, changes)) == Truth(first, changes, m) {
        HistoryIsTrue(first, changes, m);
      }
    } else {
      var m := WrongAt(first, changes);
    }
  }

  // The last row dropped: at its moment the history gives the next row's value.
  lemma WrongAt<T>(first: T, changes: seq<Change<T>>) returns (m: Time)
    requires InOrder(first, changes) && Separate(changes) && |Unbounded(changes)| > MAX_ROWS
    ensures ValueAt(AllRecorded(changes), m, Now(first, changes)) != Truth(first, changes, m)
  {
    var rows := Unbounded(changes);
    var k := |rows| - MAX_ROWS;
    m := rows[k - 1].at;
    KeptIsNewest(changes);
    RowsAlternate(first, changes);
    UnboundedIsTrue(first, changes, m);
    assert AllRecorded(changes) == rows[k..];
    hide Separate, Unbounded, Truth, Newest;
    InTimeOrder(rows);
    TwoApart(rows, k);
    hide Alternating;
    OldestAnswersForAllBefore(first, changes, m);
    hide InOrder, AllRecorded, ValueAt;
    assert rows[k..][0] == rows[k];
    DroppedRowAnswered(rows, k);
    assert ValueAt(rows, m, first) == Chosen(rows, m) by { NotEmpty(rows, m, first); }
  }

  lemma NotEmpty<T>(rows: seq<Row<T>>, m: Time, current: T)
    requires rows != []
    ensures ValueAt(rows, m, current) == Chosen(rows, m)
  {
  }

  lemma DroppedRowAnswered<T>(rows: seq<Row<T>>, k: nat)
    requires 0 < k < |rows| && forall i, j :: 0 <= i < j < |rows| ==> rows[i].at < rows[j].at
    ensures Chosen(rows, rows[k - 1].at) == rows[k - 1].value
  {
    SuffixChoosesTheSame(rows, k - 1, rows[k - 1].at);
    OnlyFirstReached(rows[k - 1..], rows[k - 1].at);
  }

  lemma TwoApart<T>(rows: seq<Row<T>>, k: nat)
    requires Alternating(rows) && 0 < k < |rows|
    ensures rows[k - 1].value != rows[k].value
  {
  }

  lemma {:induction false} InTimeOrder<T>(rows: seq<Row<T>>)
    requires Alternating(rows)
    ensures forall i, j :: 0 <= i < j < |rows| ==> rows[i].at < rows[j].at
  {
    if |rows| > 1 {
      InTimeOrder(rows[..|rows| - 1]);
      assert rows[|rows| - 2].at < rows[|rows| - 1].at;
    }
  }

  lemma {:induction false} OnlyFirstReached<T>(rows: seq<Row<T>>, moment: Time)
    requires rows != [] && forall i :: 1 <= i < |rows| ==> rows[i].at > moment
    ensures Chosen(rows, moment) == rows[0].value
  {
    if |rows| > 1 { OnlyFirstReached(rows[..|rows| - 1], moment); }
  }

  // Each row is later than the one before, and says something else.
  predicate Alternating<T(==)>(rows: seq<Row<T>>) {
    forall i :: 0 < i < |rows| ==> rows[i - 1].at < rows[i].at && rows[i - 1].value != rows[i].value
  }

  predicate Separate<T>(changes: seq<Change<T>>) {
    && (forall i, j :: 0 <= i < j < |changes| ==> changes[i].at < changes[j].at)
    && (changes != [] ==> changes[0].at > EPOCH)
  }

  lemma {:induction false} RowsAlternate<T>(first: T, changes: seq<Change<T>>)
    requires InOrder(first, changes) && Separate(changes)
    ensures Alternating(Unbounded(changes))
  {
    if changes != [] {
      var front, c := changes[..|changes| - 1], changes[|changes| - 1];
      FrontInOrder(first, changes);
      assert Separate(front) && c.at > EPOCH && (front != [] ==> front[|front| - 1].at < c.at);
      hide InOrder, Separate;
      RowsAlternate(first, front);
      UnboundedIsShaped(first, front);
      var rows := Unbounded(front);
      assert rows != [] ==> rows[|rows| - 1].at < c.at && rows[|rows| - 1].value == c.previous;
      assert Unbounded(changes) == if c.previous == c.next then rows
        else (if rows == [] then [Row(EPOCH, c.previous)] else rows) + [Row(c.at, c.next)];
      hide Unbounded, Shaped, Now;
    }
  }

  // ------------------------------------------------------------------ closed periods

  // A change made after a moment leaves the answer for the moment alone while no row is dropped. With nothing recorded
  // before, the answer was the current value, which is what the change records as previous.
  lemma ChangeDoesNotReachBack<T>(rows: seq<Row<T>>, c: Change<T>, moment: Time)
    requires moment < c.at && |rows| < MAX_ROWS
    ensures c.previous != c.next ==> ValueAt(Recorded(rows, c), moment, c.next) == ValueAt(rows, moment, c.previous)
    ensures c.previous == c.next ==> Recorded(rows, c) == rows
  {
    var base := if rows == [] then [Row(EPOCH, c.previous)] else rows;
    var more := base + [Row(c.at, c.next)];
    assert more[..|more| - 1] == base;
    if c.previous != c.next {
      assert Recorded(rows, c) == more;
      assert Chosen(more, moment) == Chosen(base, moment);
    }
  }

  // So a period that started before any number of changes is billed by the terms it had, while no row is dropped.
  lemma ClosedPeriodsKeepTheirTerms<T>(first: T, before: seq<Change<T>>, later: seq<Change<T>>, started: Time)
    requires InOrder(first, before + later) && |Unbounded(before + later)| <= MAX_ROWS
    requires forall i :: 0 <= i < |later| ==> started < later[i].at
    ensures ValueAt(AllRecorded(before + later), started, Now(first, before + later))
         == ValueAt(AllRecorded(before), started, Now(first, before))
  {
    var all := before + later;
    assert forall i :: 0 <= i < |before| ==> all[..i] == before[..i] && all[i] == before[i];
    assert InOrder(first, before);
    LaterChangesAdd(first, before, later, started);
    hide InOrder, AllRecorded, Unbounded, Truth;
    HistoryIsTrue(first, all, started);
    HistoryIsTrue(first, before, started);
  }

  lemma {:induction false} LaterChangesAdd<T>(first: T, before: seq<Change<T>>, later: seq<Change<T>>, moment: Time)
    requires forall i :: 0 <= i < |later| ==> moment < later[i].at
    ensures Truth(first, before + later, moment) == Truth(first, before, moment)
    ensures |Unbounded(before)| <= |Unbounded(before + later)|
  {
    if later == [] {
      assert before + later == before;
    } else {
      assert (before + later)[..|before + later| - 1] == before + later[..|later| - 1];
      LaterChangesAdd(first, before, later[..|later| - 1], moment);
    }
  }
}
