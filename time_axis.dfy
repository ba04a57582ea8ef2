/** The calendar columns of the generated table (rands.py:11-12, 47-51):
    row `i` is dated 2023-01-01 plus `i` days, `day_of_week` is that date's
    `weekday()` and `is_weekend` is 1 exactly on Saturday and Sunday. */
module TimeAxis {
  import opened Calendar

  datatype Option<T> = None | Some(value: T)

  /** `datetime(2023, 1, 1)`, the date of row 0. */
  const Start: Date := Date(2023, 1, 1)
  const StartOrdinal: int := 738521

  /** The number of rows whose dates fit before the end of year 9999. */
  const MaxRows: int := MaxOrdinal - StartOrdinal + 1

  lemma StartDate()
    ensures Valid(Start) && Ordinal(Start) == StartOrdinal
    ensures Weekday(Start) == 6
  {
  }

  /** Row `i` may be dated when `Start + timedelta(days=i)` is representable. */
  predicate Representable(i: int) {
    StartOrdinal + i <= MaxOrdinal
  }

  /** `start_date + timedelta(days=i)`. */
  function DateAt(i: nat): (d: Date)
    requires Representable(i)
    ensures Valid(d) && Ordinal(d) == StartOrdinal + i
  {
    StartDate();
    AddDays(Start, i)
  }

  /** The list comprehension at rands.py:12; `None` when some date is past
      9999-12-31, where Python raises OverflowError. */
  function Dates(n: nat): (r: Option<seq<Date>>)
    ensures r.None? <==> n > MaxRows
    ensures r.Some? ==> |r.value| == n
    ensures r.Some? ==> forall i :: 0 <= i < n ==> Representable(i) && r.value[i] == DateAt(i)
  {
    if n > MaxRows then None
    else Some(seq(n, i requires 0 <= i < n => DateAt(i)))
  }

  /** `[d.weekday() for d in dates]` (rands.py:48). */
  function DayOfWeekColumn(dates: seq<Date>): (r: seq<int>)
    requires forall i :: 0 <= i < |dates| ==> Valid(dates[i])
    ensures |r| == |dates|
    ensures forall i :: 0 <= i < |r| ==> 0 <= r[i] <= 6
  {
    seq(|dates|, i requires 0 <= i < |dates| => Weekday(dates[i]))
  }

  /** `[1 if d.weekday() >= 5 else 0 for d in dates]` (rands.py:51). */
  function WeekendColumn(dates: seq<Date>): (r: seq<int>)
    requires forall i :: 0 <= i < |dates| ==> Valid(dates[i])
    ensures |r| == |dates|
    ensures forall i :: 0 <= i < |r| ==> r[i] == 0 || r[i] == 1
  {
    seq(|dates|, i requires 0 <= i < |dates| => if Weekday(dates[i]) >= 5 then 1 else 0)
  }

  /** Generation fails exactly when some row's date is not representable. */
  lemma DatesFailIffSomeRowOverflows(n: nat)
    ensures Dates(n).None? <==> exists i :: 0 <= i < n && !Representable(i)
  {
    if n > MaxRows {
      assert !Representable(n - 1);
    }
  }

  /** Exactly `n` dates, each a valid date, starting at 2023-01-01, and each
      the day after the one before it. */
  lemma DatesAreConsecutiveDays(n: nat)
    requires Dates(n).Some?
    ensures var ds := Dates(n).value;
      |ds| == n &&
      (n > 0 ==> ds[0] == Start) &&
      (forall i :: 0 <= i < n ==> Valid(ds[i]) && Ordinal(ds[i]) == StartOrdinal + i) &&
      (forall i :: 0 <= i < n - 1 ==> Ordinal(ds[i]) < MaxOrdinal && ds[i + 1] == NextDay(ds[i]))
  {
  }

  /** Row `i` is dated `i` days after row 0, whose weekday is Sunday (6). */
  lemma WeekdayOfRow(i: nat)
    requires Representable(i)
    ensures Weekday(DateAt(i)) == (6 + i) % 7
  {
    var q := StartOrdinal / 7;
    assert StartOrdinal == 7 * q;
    ModSevenShift(6 + i, q);
  }

  lemma {:induction false} ModSevenShift(x: int, q: nat)
    ensures (7 * q + x) % 7 == x % 7
  {
    if q > 0 {
      ModSevenShift(x, q - 1);
      assert 7 * q + x == 7 * (q - 1) + x + 7;
    }
  }

  /** Which residues of the row index fall on Saturday or Sunday. */
  lemma WeekendResidue(i: nat)
    ensures (6 + i) % 7 >= 5 <==> i % 7 == 0 || i % 7 == 6
  {
    var r := i % 7;
    assert i == 7 * (i / 7) + r;
    ModSevenShift(6 + r, i / 7);
    assert 7 * (i / 7) + (6 + r) == 6 + i;
  }

  /** The `day_of_week` column cycles Sunday, Monday, .., Saturday. */
  lemma DayOfWeekCycles(n: nat)
    requires Dates(n).Some?
    ensures var dow := DayOfWeekColumn(Dates(n).value);
      |dow| == n && forall i :: 0 <= i < n ==> dow[i] == (6 + i) % 7
  {
    forall i | 0 <= i < n
      ensures DayOfWeekColumn(Dates(n).value)[i] == (6 + i) % 7
    {
      WeekdayOfRow(i);
    }
  }

  /** `is_weekend` is a function of `day_of_week`: 1 iff it is 5 or 6. */
  lemma WeekendIffSaturdayOrSunday(dates: seq<Date>)
    requires forall i :: 0 <= i < |dates| ==> Valid(dates[i])
    ensures var dow, we := DayOfWeekColumn(dates), WeekendColumn(dates);
      |we| == |dow| &&
      forall i :: 0 <= i < |dates| ==>
        (we[i] == 1 <==> dow[i] >= 5) && (we[i] == 0 <==> dow[i] < 5)
  {
  }

  /** In the generated table the weekend rows are rows 0, 6, 7, 13, 14, .. */
  lemma WeekendRows(n: nat)
    requires Dates(n).Some?
    ensures var we := WeekendColumn(Dates(n).value);
      |we| == n && forall i :: 0 <= i < n ==> (we[i] == 1 <==> i % 7 == 0 || i % 7 == 6)
  {
    DayOfWeekCycles(n);
    WeekendIffSaturdayOrSunday(Dates(n).value);
    forall i | 0 <= i < n
      ensures (6 + i) % 7 >= 5 <==> i % 7 == 0 || i % 7 == 6
    {
      WeekendResidue(i);
    }
  }

  /** A one-row table (or the first row of any table) is a Sunday weekend. */
  lemma FirstRowIsSunday(n: nat)
    requires 1 <= n && Dates(n).Some?
    ensures DayOfWeekColumn(Dates(n).value)[0] == 6
    ensures WeekendColumn(Dates(n).value)[0] == 1
  {
    StartDate();
  }
}
