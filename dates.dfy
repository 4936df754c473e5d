/** `java.time.LocalDate` as a (year, month, day) triple, with the ordering
    `isAfter`/`compareTo` gives it and the calendar-month arithmetic of `Period.between`. */
module Dates {

  datatype Date = Date(year: int, month: int, day: int) {
    /** A LocalDate always has a month in 1..12 and a day in 1..31. */
    ghost predicate Valid() {
      1 <= month <= 12 && 1 <= day <= 31
    }
  }

  /** `a.isAfter(b)`: `compareTo` orders by year, then month, then day. On valid dates this
      is the order of positions on a line of 31-day months. */
  function IsAfter(a: Date, b: Date): (after: bool)
    ensures a.Valid() && b.Valid() ==> (after <==> Ordinal(a) > Ordinal(b))
  {
    a.year > b.year
    || (a.year == b.year && a.month > b.month)
    || (a.year == b.year && a.month == b.month && a.day > b.day)
  }

  /** Independent reference order: a position on a line of 31-day months. */
  function Ordinal(d: Date): int {
    (d.year * 12 + (d.month - 1)) * 31 + (d.day - 1)
  }

  /** The lexicographic `isAfter` agrees with comparing ordinals, for valid dates. */
  lemma IsAfterByOrdinal(a: Date, b: Date)
    requires a.Valid() && b.Valid()
    ensures IsAfter(a, b) <==> Ordinal(a) > Ordinal(b)
  {

  }

  /** `isAfter` is a strict order: irreflexive and transitive. */
  lemma IsAfterStrictOrder(a: Date, b: Date, c: Date)
    ensures !IsAfter(a, a)
    ensures IsAfter(a, b) && IsAfter(b, c) ==> IsAfter(a, c)
    ensures IsAfter(a, b) ==> !IsAfter(b, a)
  {
  }

  /** Java's `/` on integers truncates toward zero. */
  function JavaDiv(a: int, b: int): int
    requires b > 0
  {
    if a >= 0 then a / b else -((-a) / b)
  }

  /** Whole months of `Period.between(start, end)`: the difference of proleptic months,
      moved one toward zero when the day-of-month difference points the other way. */
  function PeriodTotalMonths(start: Date, end: Date): int {
    var total := (end.year * 12 + end.month) - (start.year * 12 + start.month);
    var days := end.day - start.day;
    if total > 0 && days < 0 then total - 1
    else if total < 0 && days > 0 then total + 1
    else total
  }

  /** `Period.between(start, end).getYears()`: never negative when `end` is not before
      `start`, never positive when it is. */
  function PeriodYears(start: Date, end: Date): (years: int)
    ensures start.Valid() && end.Valid() && !IsAfter(start, end) ==> years >= 0
    ensures start.Valid() && end.Valid() && IsAfter(start, end) ==> years <= 0
  {
    JavaDiv(PeriodTotalMonths(start, end), 12)
  }

  /** `Period.between(start, end).getYears() >= n` for n >= 1 holds exactly when
      `end` is on or after the n-th anniversary (start.year + n, start.month, start.day). */
  lemma PeriodYearsAtLeast(start: Date, end: Date, n: nat)
    requires start.Valid() && end.Valid() && n >= 1
    ensures PeriodYears(start, end) >= n <==>
            !IsAfter(Date(start.year + n, start.month, start.day), end)
  {

  }
}
