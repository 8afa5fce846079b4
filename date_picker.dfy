/**
 * The event-date picker: a field that toggles a month calendar, closes on a
 * day pick or a mousedown outside, and pages month by month.  Dates are
 * proleptic Gregorian; months are numbered 1 to 12, weekdays 0 (Sunday)
 * to 6 (Saturday), matching the grid's "S M T W T F S" header.
 */
module DatePicker {
  import opened Types

  type Month = m: int | 1 <= m <= 12 witness 1

  datatype CalendarDate = CalendarDate(year: int, month: Month, day: int)

  /** The month the calendar shows; the day part of the underlying Date plays no role. */
  datatype YearMonth = YearMonth(year: int, month: Month)

  const Placeholder := "Select Event Date"

  predicate IsLeapYear(y: int)
  {
    y % 4 == 0 && (y % 100 != 0 || y % 400 == 0)
  }

  function DaysInMonth(y: int, m: Month): (n: int)
    ensures 28 <= n <= 31
    ensures m == 2 ==> (n == 29 <==> IsLeapYear(y))
  {
    if m == 2 then (if IsLeapYear(y) then 29 else 28)
    else if m == 4 || m == 6 || m == 9 || m == 11 then 30
    else 31
  }

  predicate IsValidDate(d: CalendarDate)
  {
    1 <= d.day <= DaysInMonth(d.year, d.month)
  }

  /** Months counted from January of year 0, so that paging is plain arithmetic. */
  function MonthNumber(ym: YearMonth): int
  {
    ym.year * 12 + ym.month - 1
  }

  /** addMonths(currentMonth, 1) */
  function AddMonth(ym: YearMonth): (r: YearMonth)
    ensures MonthNumber(r) == MonthNumber(ym) + 1
  {
    if ym.month == 12 then YearMonth(ym.year + 1, 1) else YearMonth(ym.year, ym.month + 1)
  }

  /** subMonths(currentMonth, 1) */
  function SubMonth(ym: YearMonth): (r: YearMonth)
    ensures MonthNumber(r) == MonthNumber(ym) - 1
  {
    if ym.month == 1 then YearMonth(ym.year - 1, 12) else YearMonth(ym.year, ym.month - 1)
  }

  /** Paging forward then back (or back then forward) returns to the same month. */
  lemma PagingInverse(ym: YearMonth)
    ensures SubMonth(AddMonth(ym)) == ym && AddMonth(SubMonth(ym)) == ym
  {
  }

  // ---------------------------------------------------------------------
  // The day grid as written: every day from the 1st to the last, in order,
  // laid into seven columns starting at the first column.

  function DaysFrom(ym: YearMonth, d: int): (r: seq<CalendarDate>)
    requires 1 <= d <= DaysInMonth(ym.year, ym.month) + 1
    ensures |r| == DaysInMonth(ym.year, ym.month) - d + 1
    ensures forall i :: 0 <= i < |r| ==> r[i] == CalendarDate(ym.year, ym.month, d + i)
    decreases DaysInMonth(ym.year, ym.month) - d
  {
    if d > DaysInMonth(ym.year, ym.month) then []
    else [CalendarDate(ym.year, ym.month, d)] + DaysFrom(ym, d + 1)
  }

  /** eachDayOfInterval(startOfMonth, endOfMonth): the month's days, 1st to last. */
  function DayGrid(ym: YearMonth): (r: seq<CalendarDate>)
    ensures |r| == DaysInMonth(ym.year, ym.month)
    ensures forall i :: 0 <= i < |r| ==> r[i] == CalendarDate(ym.year, ym.month, i + 1) && IsValidDate(r[i])
  {
    DaysFrom(ym, 1)
  }

  // ---------------------------------------------------------------------
  // Weekdays.  Day 1 is 0001-01-01, a Monday; Dafny's `/` and `%` round
  // towards negative infinity for a positive divisor, so the count also
  // holds for years before 1.

  function DaysBeforeYear(y: int): int
  {
    365 * (y - 1) + (y - 1) / 4 - (y - 1) / 100 + (y - 1) / 400
  }

  function DaysBeforeMonth(y: int, m: Month): int
    decreases m
  {
    if m == 1 then 0 else DaysBeforeMonth(y, m - 1) + DaysInMonth(y, m - 1)
  }

  /** Days since 0000-12-31: consecutive days of a month get consecutive numbers. */
  function DayNumber(d: CalendarDate): (r: int)
    ensures d.day > 1 ==> r == DayNumber(d.(day := d.day - 1)) + 1
    decreases d.day
  {
    DaysBeforeYear(d.year) + DaysBeforeMonth(d.year, d.month) + d.day
  }

  function Weekday(d: CalendarDate): (w: int)
    ensures 0 <= w < 7
  {
    DayNumber(d) % 7
  }

  /** The weekday of day d is the 1st's weekday moved on by d - 1. */
  lemma WeekdayOffset(ym: YearMonth, d: int)
    ensures Weekday(CalendarDate(ym.year, ym.month, d)) == (Weekday(CalendarDate(ym.year, ym.month, 1)) + d - 1) % 7
  {
    var one := DayNumber(CalendarDate(ym.year, ym.month, 1));
    assert DayNumber(CalendarDate(ym.year, ym.month, d)) == one + d - 1;
    ShiftMod7(one, d - 1);
  }

  lemma ShiftMod7(a: int, k: int)
    ensures (a + k) % 7 == (a % 7 + k) % 7
  {
    var q := a / 7;
    assert a == 7 * q + a % 7;
  }

  /** A fixed point to check the count against: 2026-10-15 is a Thursday. */
  lemma KnownWeekday()
    ensures Weekday(CalendarDate(2026, 10, 15)) == 4
  {
    assert DaysBeforeMonth(2026, 10) == 273;
  }

  /**
   * The grid as written puts the 1st under the Sunday header whatever its
   * weekday: in October 2026 the 1st, a Thursday, sits in column 0, so the
   * grid breaks the column property that AlignedGrid keeps.
   */
  lemma GridMisaligned()
    ensures DayGrid(YearMonth(2026, 10))[0] == CalendarDate(2026, 10, 1)
    ensures Weekday(DayGrid(YearMonth(2026, 10))[0]) == 4
    ensures !(forall i :: 0 <= i < |DayGrid(YearMonth(2026, 10))| ==>
                i % 7 == Weekday(DayGrid(YearMonth(2026, 10))[i]))
  {
    assert DaysBeforeMonth(2026, 10) == 273;
    assert Weekday(DayGrid(YearMonth(2026, 10))[0]) != 0 % 7;
  }

  // ---------------------------------------------------------------------
  // The grid as intended: blank cells before the 1st so that every day
  // lands in its weekday's column.

  function Blanks(n: nat): (r: seq<Option<CalendarDate>>)
    ensures |r| == n && forall i :: 0 <= i < n ==> r[i] == None
  {
    if n == 0 then [] else [None] + Blanks(n - 1)
  }

  function AsCells(days: seq<CalendarDate>): (r: seq<Option<CalendarDate>>)
    ensures |r| == |days| && forall i :: 0 <= i < |days| ==> r[i] == Some(days[i])
  {
    if days == [] then [] else [Some(days[0])] + AsCells(days[1..])
  }

  function AlignedGrid(ym: YearMonth): (r: seq<Option<CalendarDate>>)
    ensures |r| == Weekday(CalendarDate(ym.year, ym.month, 1)) + DaysInMonth(ym.year, ym.month)
    ensures forall i :: 0 <= i < |r| && r[i].Some? ==> i % 7 == Weekday(r[i].value)
    ensures forall i :: 0 <= i < |r| ==>
      (r[i].Some? <==> i >= Weekday(CalendarDate(ym.year, ym.month, 1)))
    ensures forall i :: 0 <= i < |r| && r[i].Some? ==>
      r[i].value == DayGrid(ym)[i - Weekday(CalendarDate(ym.year, ym.month, 1))]
    ensures forall k :: 0 <= k < |DayGrid(ym)| ==>
      r[Weekday(CalendarDate(ym.year, ym.month, 1)) + k] == Some(DayGrid(ym)[k])
  {
    var offset := Weekday(CalendarDate(ym.year, ym.month, 1));
    var cells := Blanks(offset) + AsCells(DayGrid(ym));
    forall i | 0 <= i < |cells| && cells[i].Some?
      ensures i % 7 == Weekday(cells[i].value)
    {
      var d := i - offset + 1;
      assert cells[i].value == CalendarDate(ym.year, ym.month, d);
      WeekdayOffset(ym, d);
    }
    cells
  }

  /** Every day cell of the corrected grid is a day of the month. */
  lemma AlignedGridDaysInMonth(ym: YearMonth)
    ensures forall i :: 0 <= i < |AlignedGrid(ym)| && AlignedGrid(ym)[i].Some? ==>
      AlignedGrid(ym)[i].value in DayGrid(ym)
  {
    var r, days := AlignedGrid(ym), DayGrid(ym);
    var offset := Weekday(CalendarDate(ym.year, ym.month, 1));
    forall i | 0 <= i < |r| && r[i].Some?
      ensures r[i].value in days
    {
      assert 0 <= i - offset < |days|;
      assert r[i].value == days[i - offset];
    }
  }

  /** Cells that hold `days` from position `offset` on hold every one of them. */
  lemma ShiftedCellsCover<T>(cells: seq<Option<T>>, days: seq<T>, offset: nat)
    requires offset + |days| <= |cells|
    requires forall k :: 0 <= k < |days| ==> cells[offset + k] == Some(days[k])
    ensures forall d :: d in days ==> Some(d) in cells
  {
    forall d | d in days
      ensures Some(d) in cells
    {
      var k :| 0 <= k < |days| && days[k] == d;
      assert cells[offset + k] == Some(d);
    }
  }

  // ---------------------------------------------------------------------
  // The field label and the day highlight.

  function MonthName(m: Month): string
  {
    match m
    case 1 => "January" case 2 => "February" case 3 => "March" case 4 => "April"
    case 5 => "May" case 6 => "June" case 7 => "July" case 8 => "August"
    case 9 => "September" case 10 => "October" case 11 => "November" case 12 => "December"
  }

  function DigitChar(d: int): char
    requires 0 <= d < 10
  {
    "0123456789"[d]
  }

  function NatToString(n: nat): (s: string)
    ensures |s| >= 1
    decreases n
  {
    if n < 10 then [DigitChar(n)] else NatToString(n / 10) + [DigitChar(n % 10)]
  }

  /** date-fns "do" in English: 1st, 2nd, 3rd, 4th, ..., 11th to 13th, 21st, 22nd, 23rd, 31st. */
  function Ordinal(n: nat): string
  {
    var rem100 := n % 100;
    var suffix :=
      if rem100 > 20 || rem100 < 10 then
        (if n % 10 == 1 then "st" else if n % 10 == 2 then "nd" else if n % 10 == 3 then "rd" else "th")
      else "th";
    NatToString(n) + suffix
  }

  /** date-fns "y": the year of the era, so year 0 prints as 1. */
  function YearText(y: int): string
  {
    if y > 0 then NatToString(y) else NatToString(1 - y)
  }

  /** format(date, 'PPP') in English, e.g. "October 15th, 2026". */
  function LongDate(d: CalendarDate): (r: string)
    requires IsValidDate(d)
    ensures |r| == |MonthName(d.month)| + 1 + |Ordinal(d.day)| + 2 + |YearText(d.year)|
    ensures r[..|MonthName(d.month)|] == MonthName(d.month) && r[|MonthName(d.month)|] == ' '
    ensures r[|MonthName(d.month)| + 1..|r| - |YearText(d.year)|] == Ordinal(d.day) + ", "
    ensures r[|r| - |YearText(d.year)|..] == YearText(d.year)
  {
    MonthName(d.month) + " " + Ordinal(d.day) + ", " + YearText(d.year)
  }

  /** The field's text: the placeholder exactly when no date is selected. */
  function Label(selected: Option<CalendarDate>): (r: string)
    requires selected.Some? ==> IsValidDate(selected.value)
    ensures r == Placeholder <==> selected.None?
  {
    match selected
    case None => Placeholder
    case Some(d) =>
      var r := LongDate(d);
      assert r[1] == MonthName(d.month)[1] && r[2] == MonthName(d.month)[2];
      r
  }

  datatype DayStyle = DayStyle(filled: bool, outlined: bool)

  /** The selected day is filled; today is outlined, but only while nothing is selected. */
  function StyleOf(day: CalendarDate, selected: Option<CalendarDate>, today: CalendarDate): (r: DayStyle)
    ensures !(r.filled && r.outlined)
    ensures r.filled <==> selected == Some(day)
    ensures r.outlined <==> day == today && selected.None?
  {
    DayStyle(selected == Some(day), day == today && selected.None?)
  }

  /**
   * At most one day of a grid is filled and at most one outlined, and never
   * both kinds at once; with a selection inside the month, that day is the
   * filled one.
   */
  lemma HighlightRules(ym: YearMonth, selected: Option<CalendarDate>, today: CalendarDate)
    ensures forall i, j :: 0 <= i < j < |DayGrid(ym)| ==>
      !(StyleOf(DayGrid(ym)[i], selected, today).filled && StyleOf(DayGrid(ym)[j], selected, today).filled)
    ensures forall i, j :: 0 <= i < j < |DayGrid(ym)| ==>
      !(StyleOf(DayGrid(ym)[i], selected, today).outlined && StyleOf(DayGrid(ym)[j], selected, today).outlined)
    ensures forall i, j :: 0 <= i < |DayGrid(ym)| && 0 <= j < |DayGrid(ym)| ==>
      !(StyleOf(DayGrid(ym)[i], selected, today).filled && StyleOf(DayGrid(ym)[j], selected, today).outlined)
    ensures (selected.Some? && selected.value.year == ym.year && selected.value.month == ym.month
             && IsValidDate(selected.value)) ==>
      StyleOf(DayGrid(ym)[selected.value.day - 1], selected, today).filled
  {
  }

  class Picker {
    var isOpen: bool
    var currentMonth: YearMonth

    /** Closed, showing the month of `today`. */
    constructor (today: CalendarDate)
      ensures !isOpen && currentMonth == YearMonth(today.year, today.month)
    {
      isOpen := false;
      currentMonth := YearMonth(today.year, today.month);
    }

    /** A click on the field. */
    method ToggleOpen()
      modifies this
      ensures isOpen == !old(isOpen) && currentMonth == old(currentMonth)
    {
      isOpen := !isOpen;
    }

    /** The document mousedown listener: only a press outside the picker closes it. */
    method MouseDown(insideContainer: bool)
      modifies this
      ensures isOpen == (old(isOpen) && insideContainer) && currentMonth == old(currentMonth)
    {
      if !insideContainer {
        isOpen := false;
      }
    }

    method PrevMonth()
      modifies this
      ensures currentMonth == SubMonth(old(currentMonth)) && isOpen == old(isOpen)
      ensures MonthNumber(currentMonth) == MonthNumber(old(currentMonth)) - 1
    {
      currentMonth := SubMonth(currentMonth);
    }

    method NextMonth()
      modifies this
      ensures currentMonth == AddMonth(old(currentMonth)) && isOpen == old(isOpen)
      ensures MonthNumber(currentMonth) == MonthNumber(old(currentMonth)) + 1
    {
      currentMonth := AddMonth(currentMonth);
    }

    /** The day cells under the weekday header, in the corrected layout. */
    function Cells(): (r: seq<Option<CalendarDate>>)
      reads this
      ensures forall i :: 0 <= i < |r| && r[i].Some? ==>
        i % 7 == Weekday(r[i].value) && r[i].value in DayGrid(currentMonth)
      ensures forall d :: d in DayGrid(currentMonth) ==> Some(d) in r
    {
      AlignedGridDaysInMonth(currentMonth);
      ShiftedCellsCover(AlignedGrid(currentMonth), DayGrid(currentMonth),
        Weekday(CalendarDate(currentMonth.year, currentMonth.month, 1)));
      AlignedGrid(currentMonth)
    }

    /** A day button: report exactly that day to onSelect and close. */
    method Select(day: CalendarDate) returns (reported: CalendarDate)
      requires day in DayGrid(currentMonth)
      modifies this
      ensures reported == day && !isOpen && currentMonth == old(currentMonth)
    {
      reported := day;
      isOpen := false;
    }
  }
}
