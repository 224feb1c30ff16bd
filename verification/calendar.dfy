/** The proleptic Gregorian calendar. */
module Calendar {

  predicate IsLeapYear(year: nat) {
    (year % 4 == 0 && year % 100 != 0) || year % 400 == 0
  }

  function DaysInMonth(year: nat, month: nat): nat {
    if month == 2 then (if IsLeapYear(year) then 29 else 28)
    else if month == 4 || month == 6 || month == 9 || month == 11 then 30
    else 31
  }

  /** How many multiples of `d` there are from `d` up to a year. */
  function Multiples(year: int, d: nat): int
    requires d > 0
  {
    year / d
  }

  /** The leap days up to and including a year, counted from year 0. */
  function LeapDays(year: int): int {
    Multiples(year, 4) - Multiples(year, 100) + Multiples(year, 400)
  }

  /** A year is a leap year exactly when its leap day adds to the count. */
  lemma LeapYearsAddADay(year: nat)
    ensures LeapDays(year) - LeapDays(year - 1) == if IsLeapYear(year) then 1 else 0
  {
    hide Multiples;
    Steps(year, 4);
    Steps(year, 100);
    Steps(year, 400);
    CenturiesAreFourths(year);
  }

  lemma CenturiesAreFourths(year: nat)
    ensures year % 100 == 0 ==> year % 4 == 0
    ensures year % 400 == 0 ==> year % 100 == 0
  {
    if year % 100 == 0 {
      assert year == 4 * (25 * (year / 100));
    }
    if year % 400 == 0 {
      assert year == 100 * (4 * (year / 400));
    }
  }

  lemma Steps(n: nat, d: nat)
    requires d == 4 || d == 100 || d == 400
    ensures Multiples(n, d) - Multiples(n - 1, d) == if n % d == 0 then 1 else 0
  {
  }

  /** Months alternate between 31 and 30 days, starting over in August, but for February. */
  lemma MonthsAlternate(year: nat, month: nat)
    requires 1 <= month <= 12
    ensures month != 2 ==> DaysInMonth(year, month) == 30 + (month + month / 8) % 2
    ensures DaysInMonth(year, 2) == 28 + LeapDays(year) - LeapDays(year - 1)
  {
    LeapYearsAddADay(year);
  }
}
