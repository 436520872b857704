/** `calculateAge`: whole years from a birth date to today. */
module Age {

  import opened Wrappers

  /** Calendar fields as `getFullYear`, `getMonth` and `getDate` give them. */
  datatype CalendarDate = CalendarDate(year: int, month: int, day: int)

  /** The `k`-th birthday (the birth month and day in year `year + k`) falls
      on or before `today`, comparing (year, month, day) lexicographically. */
  predicate BirthdayReached(birth: CalendarDate, today: CalendarDate, k: int) {
    var y := birth.year + k;
    y < today.year
    || (y == today.year && birth.month < today.month)
    || (y == today.year && birth.month == today.month && birth.day <= today.day)
  }

  /** None stands for the 'N/A' returned for an empty birth date. */
  function CalculateAge(birth: Option<CalendarDate>, today: CalendarDate): (age: Option<int>)
    ensures age.None? <==> birth.None?
    ensures age.Some? ==> BirthdayReached(birth.value, today, age.value)
    ensures age.Some? ==> !BirthdayReached(birth.value, today, age.value + 1)
  {
    if birth.None? then None
    else
      var b := birth.value;
      var age := today.year - b.year;
      var m := today.month - b.month;
      if m < 0 || (m == 0 && today.day < b.day) then Some(age - 1) else Some(age)
  }

  /** The two conditions of CalculateAge pin the age down: it is the only
      number of years whose birthday is reached while the next one is not. */
  lemma AgeIsUnique(birth: CalendarDate, today: CalendarDate, k: int)
    requires BirthdayReached(birth, today, k) && !BirthdayReached(birth, today, k + 1)
    ensures CalculateAge(Some(birth), today) == Some(k)
  {
  }

}
