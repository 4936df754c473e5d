/** `AdultValidator.isValid` on a guest's birth date, with the clock read
    `LocalDate.now()` turned into the parameter `today`. */
module AdultValidator {
  import opened Wrappers
  import opened Dates

  const AdultAge: nat := 18

  /** The 18th birthday: same month and day, eighteen years on. */
  function EighteenthBirthday(birth: Date): Date {
    Date(birth.year + AdultAge, birth.month, birth.day)
  }

  /** A missing birth date is left to the not-null check; otherwise the whole years
      between birth and today must be at least 18. */
  function IsValid(birthDate: Option<Date>, today: Date): (ok: bool)
    ensures birthDate.None? ==> ok
    ensures birthDate.Some? && birthDate.value.Valid() && today.Valid() ==>
              (ok <==> !IsAfter(EighteenthBirthday(birthDate.value), today))
  {
    if birthDate.None? then true
    else
      AdultAgeReached(birthDate.value, today);
      PeriodYears(birthDate.value, today) >= AdultAge
  }

  /** The period arithmetic reduces to a date comparison: at least 18 whole years have
      passed exactly when today is not before the 18th birthday. */
  lemma AdultAgeReached(birth: Date, today: Date)
    ensures birth.Valid() && today.Valid() ==>
              (PeriodYears(birth, today) >= AdultAge <==> !IsAfter(EighteenthBirthday(birth), today))
  {
    if birth.Valid() && today.Valid() {
      PeriodYearsAtLeast(birth, today, AdultAge);
    }
  }

  /** On the 18th birthday itself the guest is an adult. */
  lemma ValidOnEighteenthBirthday(birth: Date)
    requires birth.Valid()
    ensures IsValid(Some(birth), EighteenthBirthday(birth))
  {
  }

  /** The day before the 18th birthday (within the same month) the guest is not. */
  lemma InvalidTheDayBefore(birth: Date)
    requires birth.Valid() && birth.day > 1
    ensures !IsValid(Some(birth), Date(birth.year + AdultAge, birth.month, birth.day - 1))
  {
  }

  /** A birth date in the future is never valid. */
  lemma FutureBirthInvalid(birth: Date, today: Date)
    requires birth.Valid() && today.Valid() && IsAfter(birth, today)
    ensures !IsValid(Some(birth), today)
  {
  }

  /** Once valid, a birth date stays valid on every later day. */
  lemma ValidStaysValid(birth: Date, today: Date, later: Date)
    requires birth.Valid() && today.Valid() && later.Valid()
    requires IsValid(Some(birth), today) && !IsAfter(today, later)
    ensures IsValid(Some(birth), later)
  {
  }
}
