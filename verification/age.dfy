/** `calculate_age`: completed years between a birth date and today. Today
    is a parameter instead of the system clock. */
module Age {
  datatype Date = Date(year: int, month: int, day: int)

  /** Whether today's month and day come before the birth month and day in
      the calendar year. */
  predicate BeforeBirthday(today: Date, birth: Date) {
    today.month < birth.month || (today.month == birth.month && today.day < birth.day)
  }

  /** Calendar order of dates, field by field. */
  predicate DateLe(a: Date, b: Date) {
    a.year < b.year ||
    (a.year == b.year && (a.month < b.month || (a.month == b.month && a.day <= b.day)))
  }

  /** The date n years after d, on the same month and day. */
  function AddYears(d: Date, n: int): Date {
    Date(d.year + n, d.month, d.day)
  }

  /** `calculate_age(birth_date)` on `today`. */
  function CalculateAge(birth: Date, today: Date): (age: int)
    ensures age >= 0
  {
    var years := today.year - birth.year;
    var adjusted := if BeforeBirthday(today, birth) then years - 1 else years;
    if adjusted < 0 then 0 else adjusted
  }

  /** When the birth date is not after today, the age is the number of
      completed years: the anniversary `age` years on has been reached and
      the next one has not. */
  lemma AgeIsCompletedYears(birth: Date, today: Date)
    requires DateLe(birth, today)
    ensures var age := CalculateAge(birth, today);
      DateLe(AddYears(birth, age), today) && !DateLe(AddYears(birth, age + 1), today)
  {
  }

  /** On the birthday itself the year counts: the age is the plain year
      difference. */
  lemma BirthdayCounts(birth: Date, today: Date)
    requires today.month == birth.month && today.day == birth.day
    requires today.year >= birth.year
    ensures CalculateAge(birth, today) == today.year - birth.year
  {
  }

  /** The day before the birthday, the year does not count yet. */
  lemma DayBeforeBirthday(birth: Date, today: Date)
    requires today.month == birth.month && today.day + 1 == birth.day
    requires today.year > birth.year
    ensures CalculateAge(birth, today) == today.year - birth.year - 1
  {
  }

  /** A birth date after today gives 0. */
  lemma FutureBirthIsZero(birth: Date, today: Date)
    requires !DateLe(birth, today)
    ensures CalculateAge(birth, today) == 0
  {
  }
}
