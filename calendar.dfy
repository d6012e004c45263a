/**
 * Calendar days of the proleptic Gregorian calendar, which JavaScript's
 * `Date` uses: enough to compare two local days and to step one day back,
 * as `setDate(getDate() - 1)` does, across month and year boundaries.
 */
module Calendar {

  datatype Date = Date(year: int, month: int, day: int)

  predicate IsLeapYear(y: int)
  {
    (y % 4 == 0 && y % 100 != 0) || y % 400 == 0
  }

  function DaysInMonth(y: int, m: int): (n: int)
    requires 1 <= m <= 12
    ensures 28 <= n <= 31
    ensures m == 2 ==> (n == 29 <==> IsLeapYear(y))
  {
    if m == 2 then (if IsLeapYear(y) then 29 else 28)
    else if m == 4 || m == 6 || m == 9 || m == 11 then 30
    else 31
  }

  predicate ValidDate(d: Date)
  {
    1 <= d.month <= 12 && 1 <= d.day <= DaysInMonth(d.year, d.month)
  }

  /** The day before `d`. */
  function PrevDay(d: Date): (p: Date)
    requires ValidDate(d)
    ensures ValidDate(p) && p != d
    ensures d.day > 1 ==> p == d.(day := d.day - 1)
    ensures d.day == 1 ==> p.day == DaysInMonth(p.year, p.month)
  {
    if d.day > 1 then d.(day := d.day - 1)
    else if d.month > 1 then Date(d.year, d.month - 1, DaysInMonth(d.year, d.month - 1))
    else Date(d.year - 1, 12, 31)
  }

  /** The day after `d`. */
  function NextDay(d: Date): (n: Date)
    requires ValidDate(d)
    ensures ValidDate(n) && n != d
    ensures d.day < DaysInMonth(d.year, d.month) ==> n == d.(day := d.day + 1)
    ensures d.day == DaysInMonth(d.year, d.month) ==> n.day == 1
  {
    if d.day < DaysInMonth(d.year, d.month) then d.(day := d.day + 1)
    else if d.month < 12 then Date(d.year, d.month + 1, 1)
    else Date(d.year + 1, 1, 1)
  }

  /** Stepping back a day and forward a day are inverse, so no two days share a predecessor. */
  lemma PrevNextInverse(d: Date)
    requires ValidDate(d)
    ensures NextDay(PrevDay(d)) == d
    ensures PrevDay(NextDay(d)) == d
  {
  }

  lemma PrevDayInjective(d1: Date, d2: Date)
    requires ValidDate(d1) && ValidDate(d2) && PrevDay(d1) == PrevDay(d2)
    ensures d1 == d2
  {
    PrevNextInverse(d1);
    PrevNextInverse(d2);
  }
}
