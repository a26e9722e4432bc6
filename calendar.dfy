/** Gregorian calendar stepping, as `Date.setDate(getDate() - k)` normalises it. */
module Calendar {
  import opened Types

  predicate IsLeapYear(y: int) {
    (y % 4 == 0 && y % 100 != 0) || y % 400 == 0
  }

  function DaysInMonth(y: int, m: int): (n: int)
    requires 0 <= m < 12
    ensures 28 <= n <= 31
  {
    if m == 1 then (if IsLeapYear(y) then 29 else 28)
    else if m == 3 || m == 5 || m == 8 || m == 10 then 30
    else 31
  }

  predicate ValidDate(d: CDate) {
    0 <= d.month < 12 && 1 <= d.day <= DaysInMonth(d.year, d.month)
  }

  /** Strict calendar order. */
  predicate Before(a: CDate, b: CDate) {
    a.year < b.year
    || (a.year == b.year && a.month < b.month)
    || (a.year == b.year && a.month == b.month && a.day < b.day)
  }

  function PrevDay(d: CDate): (p: CDate)
    requires ValidDate(d)
    ensures ValidDate(p) && Before(p, d)
  {
    if d.day > 1 then CDate(d.year, d.month, d.day - 1)
    else if d.month > 0 then CDate(d.year, d.month - 1, DaysInMonth(d.year, d.month - 1))
    else CDate(d.year - 1, 11, 31)
  }

  function NextDay(d: CDate): (n: CDate)
    requires ValidDate(d)
    ensures ValidDate(n) && Before(d, n)
  {
    if d.day < DaysInMonth(d.year, d.month) then CDate(d.year, d.month, d.day + 1)
    else if d.month < 11 then CDate(d.year, d.month + 1, 1)
    else CDate(d.year + 1, 0, 1)
  }

  /** Stepping back a day and then forward again returns to the same day, and
      the other way round. */
  lemma PrevNextInverse(d: CDate)
    requires ValidDate(d)
    ensures NextDay(PrevDay(d)) == d
    ensures PrevDay(NextDay(d)) == d
  {
  }

  /** The date `k` days before `d`. */
  function DaysBefore(d: CDate, k: nat): (r: CDate)
    requires ValidDate(d)
    ensures ValidDate(r)
    ensures k > 0 ==> Before(r, d)
  {
    if k == 0 then d else PrevDay(DaysBefore(d, k - 1))
  }

  /** No valid date lies strictly between a date and the day after it, nor
      between the day before it and the date: every later valid date is the
      next day or after it, and every earlier one is the previous day or before it. */
  lemma NoDateBetween(d: CDate, e: CDate)
    requires ValidDate(d) && ValidDate(e)
    ensures Before(d, e) ==> e == NextDay(d) || Before(NextDay(d), e)
    ensures Before(e, d) ==> e == PrevDay(d) || Before(e, PrevDay(d))
  {
  }

  lemma BeforeTransitive(a: CDate, b: CDate, c: CDate)
    requires Before(a, b) && Before(b, c)
    ensures Before(a, c)
  {
  }
}
