/** The month view of the calendar page: the grid of day cells (blank cells
    before the first, then one cell per day), the sessions shown in a cell,
    and the month stepping buttons. */
module CalendarPage {
  import opened Seqs
  import opened Dates
  import opened MockData

  /** The page's fixed "today": 24 November 2025. */
  const Today: Date := Date(2025, 11, 24)

  /** The page opens on today's month, at today. */
  const InitialDate: Date := Today

  /** The grid as a value: `DayOfWeek(y, m, 1)` blank cells, then the days
      1..n of the month in order. */
  function Grid(y: int, m: int): (r: seq<Option<Date>>)
    requires 1 <= m <= 12
    ensures |r| == DayOfWeek(y, m, 1) + DaysInMonth(y, m)
  {
    seq(DayOfWeek(y, m, 1), _ => None) + seq(DaysInMonth(y, m), i => Some(Date(y, m, i + 1)))
  }

  /** `getDaysInMonth`: push a blank per weekday before the first, then
      push each day of the month. */
  method MonthGrid(y: int, m: int) returns (days: seq<Option<Date>>)
    requires 1 <= m <= 12
    ensures |days| == DayOfWeek(y, m, 1) + DaysInMonth(y, m)
    ensures forall i :: 0 <= i < DayOfWeek(y, m, 1) ==> days[i] == None
    ensures forall i :: DayOfWeek(y, m, 1) <= i < |days| ==> days[i] == Some(Date(y, m, i - DayOfWeek(y, m, 1) + 1))
    ensures days == Grid(y, m)
  {
    var startingDayOfWeek := DayOfWeek(y, m, 1);
    var daysInMonth := DaysInMonth(y, m);
    days := [];
    var i := 0;
    while i < startingDayOfWeek
      invariant 0 <= i <= startingDayOfWeek
      invariant |days| == i
      invariant forall k :: 0 <= k < i ==> days[k] == None
    {
      days := days + [None];
      i := i + 1;
    }
    var d := 1;
    while d <= daysInMonth
      invariant 1 <= d <= daysInMonth + 1
      invariant |days| == startingDayOfWeek + d - 1
      invariant forall k :: 0 <= k < startingDayOfWeek ==> days[k] == None
      invariant forall k :: startingDayOfWeek <= k < |days| ==> days[k] == Some(Date(y, m, k - startingDayOfWeek + 1))
    {
      days := days + [Some(Date(y, m, d))];
      d := d + 1;
    }
  }

  /** Every cell holds a valid date of the month shown, and every day of the
      month has its cell. */
  lemma GridCoversMonth(y: int, m: int, d: int)
    requires 1 <= m <= 12
    ensures forall i :: 0 <= i < |Grid(y, m)| && Grid(y, m)[i].Some? ==>
      Valid(Grid(y, m)[i].value) && Grid(y, m)[i].value.year == y && Grid(y, m)[i].value.month == m
    ensures 1 <= d <= DaysInMonth(y, m) ==> Grid(y, m)[DayOfWeek(y, m, 1) + d - 1] == Some(Date(y, m, d))
  {
  }

  /** Each day sits in the column of its weekday: the seven columns are
      headed Sun..Sat, and cell `i` is in column `i % 7`. */
  lemma DayUnderItsWeekday(y: int, m: int, d: int)
    requires 1 <= m <= 12 && 1 <= d <= DaysInMonth(y, m)
    ensures (DayOfWeek(y, m, 1) + d - 1) % 7 == DayOfWeek(y, m, d)
  {
    var x := YearTerm(if m < 3 then y - 1 else y) + MonthOffset(m);
    assert DayOfWeek(y, m, 1) == (x + 1) % 7;
    assert DayOfWeek(y, m, d) == (x + d) % 7;
    ModShift(x + 1, d - 1);
  }

  lemma ModShift(a: int, k: int)
    ensures (a % 7 + k) % 7 == (a + k) % 7
  {
  }

  // ---------------------------------------------------------------------
  // Sessions of a cell

  function OnDay(d: Date): Session -> bool
  {
    (s: Session) => s.date == d
  }

  /** `getSessionsForDate`: nothing for a blank cell, otherwise the sessions
      on that day, in list order. */
  function SessionsFor(cell: Option<Date>, sessions: seq<Session>): seq<Session>
  {
    match cell
    case None => []
    case Some(d) => Filter(sessions, OnDay(d))
  }

  lemma SessionsForMeaning(cell: Option<Date>, sessions: seq<Session>)
    ensures cell.None? ==> SessionsFor(cell, sessions) == []
    ensures cell.Some? ==> forall s :: s in SessionsFor(cell, sessions) <==> s in sessions && s.date == cell.value
    ensures |SessionsFor(cell, sessions)| <= |sessions|
  {
  }

  /** The first seeded session (26 November 2025) shows in that day's cell
      of the opening month. */
  lemma SeedSessionOnGrid()
    ensures Grid(2025, 11)[DayOfWeek(2025, 11, 1) + 25] == Some(Date(2025, 11, 26))
    ensures Sessions[0] in SessionsFor(Some(Date(2025, 11, 26)), Sessions)
  {
  }

  // ---------------------------------------------------------------------
  // Month stepping

  /** The chevrons: day 1 of the next or previous month. */
  function Next(c: Date): (r: Date)
    requires 1 <= c.month <= 12
    ensures Valid(r) && r.day == 1
  {
    var (y, m) := NextMonth(c.year, c.month);
    Date(y, m, 1)
  }

  function Prev(c: Date): (r: Date)
    requires 1 <= c.month <= 12
    ensures Valid(r) && r.day == 1
  {
    var (y, m) := PrevMonth(c.year, c.month);
    Date(y, m, 1)
  }

  /** Next then previous (or previous then next) lands on day 1 of the
      month started from; December and January roll the year over. */
  lemma StepsReturn(c: Date)
    requires 1 <= c.month <= 12
    ensures Prev(Next(c)) == Date(c.year, c.month, 1)
    ensures Next(Prev(c)) == Date(c.year, c.month, 1)
    ensures c.month == 12 ==> Next(c) == Date(c.year + 1, 1, 1)
    ensures c.month == 1 ==> Prev(c) == Date(c.year - 1, 12, 1)
  {
    MonthStepsInverse(c.year, c.month);
  }

  /** The page's opening month: November 2025 starts on a Saturday, so the
      grid has six blanks and 36 cells, with today in cell 29. */
  lemma OpeningMonth()
    ensures Valid(InitialDate)
    ensures DayOfWeek(2025, 11, 1) == 6
    ensures |Grid(2025, 11)| == 36
    ensures Grid(2025, 11)[29] == Some(Today)
  {
  }

  /** The three month buttons. */
  datatype MonthButton = PrevButton | NextButton | TodayButton

  function Press(c: Date, b: MonthButton): Date
    requires 1 <= c.month <= 12
  {
    match b
    case PrevButton => Prev(c)
    case NextButton => Next(c)
    case TodayButton => Today
  }

  /** Whatever the buttons pressed, the page shows a valid date, and
      "Today" always returns to the opening date. */
  lemma PressKeepsValid(c: Date, b: MonthButton)
    requires 1 <= c.month <= 12
    ensures Valid(Press(c, b))
    ensures Press(c, b).day == 1 || Press(c, b) == InitialDate
    ensures b == TodayButton ==> Press(c, b) == InitialDate
  {
  }
}
