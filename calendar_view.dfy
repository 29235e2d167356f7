/**
 * The calendar page: the monthly grid of leading blanks, one cell per day and
 * trailing blanks up to whole weeks; the seven labelled cells of the week view;
 * the light/dark toggle; and the monthly due-date filter.
 * Dates arrive already broken into integers: the weekday of the 1st (0 = Sunday),
 * the number of days in the month, and (year, month, day) due dates.
 */
module CalendarView {
  import opened Wrappers

  datatype Cell = Blank | Day(day: nat)

  const DayHeaders: seq<string> := ["Sun", "Mon", "Tue", "Wed", "Thu", "Fri", "Sat"]

  /** The blanks that pad the last week of the month grid out to seven cells. */
  function TrailingBlanks(offset: nat, daysInMonth: nat): (n: nat)
    ensures n < 7
    ensures (offset + daysInMonth + n) % 7 == 0
    ensures (offset + daysInMonth) % 7 == 0 <==> n == 0
  {
    (7 - (offset + daysInMonth) % 7) % 7
  }

  /** The blanks pad the month to the fewest whole weeks: no other count below 7 does. */
  lemma TrailingBlanksUnique(offset: nat, daysInMonth: nat, n: nat)
    requires n < 7 && (offset + daysInMonth + n) % 7 == 0
    ensures n == TrailingBlanks(offset, daysInMonth)
  {
  }

  /** A month of 28 to 31 days starting on any weekday fills four, five or six rows. */
  lemma MonthRows(offset: nat, daysInMonth: nat)
    requires offset < 7 && 28 <= daysInMonth <= 31
    ensures var total := offset + daysInMonth + TrailingBlanks(offset, daysInMonth);
            total == 28 || total == 35 || total == 42
  {
    var total := offset + daysInMonth + TrailingBlanks(offset, daysInMonth);
    assert 28 <= total <= 43;
    var q := total / 7;
    assert total == 7 * q;
    assert 4 <= q <= 6;
  }

  /** The monthly grid as `renderCalendarGrid` pushes it: blanks, days 1..daysInMonth, blanks. */
  method BuildMonthCells(offset: nat, daysInMonth: nat) returns (cells: seq<Cell>)
    ensures |cells| == offset + daysInMonth + TrailingBlanks(offset, daysInMonth)
    ensures |cells| % 7 == 0
    ensures forall i :: 0 <= i < offset ==> cells[i] == Blank
    ensures forall d :: 1 <= d <= daysInMonth ==> cells[offset + d - 1] == Day(d)
    ensures forall i :: offset + daysInMonth <= i < |cells| ==> cells[i] == Blank
  {
    cells := [];
    var i := 0;
    while i < offset
      invariant 0 <= i <= offset
      invariant |cells| == i
      invariant forall k :: 0 <= k < i ==> cells[k] == Blank
    {
      cells := cells + [Blank];
      i := i + 1;
    }
    var d := 1;
    while d <= daysInMonth
      invariant 1 <= d <= daysInMonth + 1
      invariant |cells| == offset + d - 1
      invariant forall k :: 0 <= k < offset ==> cells[k] == Blank
      invariant forall e :: 1 <= e < d ==> cells[offset + e - 1] == Day(e)
    {
      cells := cells + [Day(d)];
      d := d + 1;
    }
    var remaining := TrailingBlanks(offset, daysInMonth);
    i := 0;
    while i < remaining
      invariant 0 <= i <= remaining
      invariant |cells| == offset + daysInMonth + i
      invariant forall k :: 0 <= k < offset ==> cells[k] == Blank
      invariant forall e :: 1 <= e <= daysInMonth ==> cells[offset + e - 1] == Day(e)
      invariant forall k :: offset + daysInMonth <= k < |cells| ==> cells[k] == Blank
    {
      cells := cells + [Blank];
      i := i + 1;
    }
  }

  /** The week view: seven cells labelled Sunday to Saturday in order. */
  method BuildWeekCells() returns (labels: seq<string>)
    ensures |labels| == 7
    ensures labels[0] == "Sun" && labels[6] == "Sat"
    ensures forall i :: 0 <= i < 7 ==> labels[i] == DayHeaders[i]
  {
    labels := [];
    var i := 0;
    while i < 7
      invariant 0 <= i <= 7
      invariant labels == DayHeaders[..i]
    {
      labels := labels + [DayHeaders[i]];
      i := i + 1;
    }
  }

  /** The theme after one toggle: light goes to dark, anything else to light. */
  function NextTheme(theme: string): (r: string)
    ensures theme == "light" ==> r == "dark"
    ensures theme != "light" ==> r == "light"
  {
    if theme == "light" then "dark" else "light"
  }

  /** From either of the two themes, toggling twice comes back. */
  lemma ToggleTwice(theme: string)
    requires theme == "light" || theme == "dark"
    ensures NextTheme(NextTheme(theme)) == theme
  {
  }

  /** Any other stored value is normalised by the first toggle and cycles from then on. */
  lemma ToggleNormalises(theme: string)
    ensures NextTheme(theme) == "light" || NextTheme(theme) == "dark"
    ensures NextTheme(NextTheme(NextTheme(theme))) == NextTheme(theme)
  {
  }

  class CalendarPage {
    var theme: string

    /** The page starts with the stored theme; a missing or empty stored value reads as light. */
    constructor (stored: Option<string>)
      ensures theme == (if stored.Some? && stored.value != "" then stored.value else "light")
    {
      theme := if stored.Some? && stored.value != "" then stored.value else "light";
    }

    method ToggleTheme()
      modifies this
      ensures theme == NextTheme(old(theme))
    {
      theme := NextTheme(theme);
    }
  }

  datatype DueDate = DueDate(year: int, month: int, day: int)

  datatype CalendarTask = CalendarTask(id: int, title: string, due: DueDate, status: string, category: string)

  predicate DueIn(t: CalendarTask, year: int, month: int) {
    t.due.year == year && t.due.month == month
  }

  /** The monthly list: the tasks due in the given year and month, in their original order. */
  function MonthTasks(tasks: seq<CalendarTask>, year: int, month: int): (r: seq<CalendarTask>)
    ensures |r| <= |tasks|
    ensures forall t :: t in r <==> t in tasks && DueIn(t, year, month)
  {
    if tasks == [] then []
    else
      var rest := MonthTasks(tasks[1..], year, month);
      assert tasks == [tasks[0]] + tasks[1..];
      if DueIn(tasks[0], year, month) then [tasks[0]] + rest else rest
  }

  /** Filtering distributes over concatenation, so the original order is kept. */
  lemma {:induction false} MonthTasksConcat(a: seq<CalendarTask>, b: seq<CalendarTask>, year: int, month: int)
    ensures MonthTasks(a + b, year, month) == MonthTasks(a, year, month) + MonthTasks(b, year, month)
  {
    if a != [] {
      assert (a + b)[1..] == a[1..] + b;
      MonthTasksConcat(a[1..], b, year, month);
    } else {
      assert a + b == b;
    }
  }

  /** A list already within the month is kept whole. */
  lemma {:induction false} MonthTasksAllDue(tasks: seq<CalendarTask>, year: int, month: int)
    requires forall k :: 0 <= k < |tasks| ==> DueIn(tasks[k], year, month)
    ensures MonthTasks(tasks, year, month) == tasks
  {
    if tasks != [] {
      MonthTasksAllDue(tasks[1..], year, month);
      assert tasks == [tasks[0]] + tasks[1..];
    }
  }
}
