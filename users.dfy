/**
 * `UserProfile.age`: whole years between a date of birth and today.
 * Today's date is a parameter (the source reads the clock).
 */
module Users {
  import opened Tables

  /** A calendar date; only its (year, month, day) tuple order matters here. */
  datatype Date = Date(year: int, month: int, day: int)

  /** Python's tuple comparison `(a.month, a.day) < (b.month, b.day)`. */
  predicate MonthDayBefore(a: Date, b: Date) {
    a.month < b.month || (a.month == b.month && a.day < b.day)
  }

  /** `a <= b` in (year, month, day) order. */
  predicate NotAfter(a: Date, b: Date) {
    a.year < b.year || (a.year == b.year && !MonthDayBefore(b, a))
  }

  /** The date `n` years after `d`, as the tuple (d.year + n, d.month, d.day). */
  function Anniversary(d: Date, n: int): Date {
    Date(d.year + n, d.month, d.day)
  }

  /**
   * The age in whole years, or `None` when no date of birth is recorded.
   * The result is the number of anniversaries of the birth date reached by
   * `today`: the `age`-th has been reached and the next one has not.
   */
  function Age(dateOfBirth: Option<Date>, today: Date): (r: Option<int>)
    ensures r.None? <==> dateOfBirth.None?
    ensures r.Some? ==> NotAfter(Anniversary(dateOfBirth.value, r.value), today)
    ensures r.Some? ==> !NotAfter(Anniversary(dateOfBirth.value, r.value + 1), today)
  {
    match dateOfBirth
    case None => None
    case Some(dob) =>
      var age := today.year - dob.year;
      if MonthDayBefore(today, dob) then Some(age - 1) else Some(age)
  }

  /** The plain year difference is lowered by one exactly when the birthday is still ahead this year. */
  lemma AgeDecrement(dob: Date, today: Date)
    ensures Age(Some(dob), today).value == today.year - dob.year - 1 <==> MonthDayBefore(today, dob)
    ensures Age(Some(dob), today).value == today.year - dob.year <==> !MonthDayBefore(today, dob)
  {
  }

  /** On the birthday itself the age is the plain year difference. */
  lemma AgeOnBirthday(dob: Date, today: Date)
    requires today.month == dob.month && today.day == dob.day
    ensures Age(Some(dob), today) == Some(today.year - dob.year)
  {
  }

  /** The anniversary characterisation in `Age`'s contract pins the result down: no other count satisfies it. */
  lemma WholeYearsUnique(dob: Date, today: Date, n: int)
    requires NotAfter(Anniversary(dob, n), today)
    requires !NotAfter(Anniversary(dob, n + 1), today)
    ensures Age(Some(dob), today) == Some(n)
  {
  }

  /** Nobody born on or before today has a negative age. */
  lemma AgeNonNegative(dob: Date, today: Date)
    requires NotAfter(dob, today)
    ensures Age(Some(dob), today).value >= 0
  {
  }

  /** For a fixed date of birth the age never decreases as today advances. */
  lemma AgeMonotone(dob: Date, today: Date, later: Date)
    requires NotAfter(today, later)
    ensures Age(Some(dob), today).value <= Age(Some(dob), later).value
  {
  }
}
