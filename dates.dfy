/** Calendar dates as (year, month, day) and the whole-years age shown in the citizen and
    history tables. */
module Dates {
  import opened Common

  /** A calendar date; `month` counts from 1 (January) to 12. */
  datatype Date = Date(year: int, month: int, day: int)

  /** Lexicographic order on (year, month, day): `a` is on or before `b`. */
  predicate OnOrBefore(a: Date, b: Date)
  {
    a.year < b.year || (a.year == b.year && (a.month < b.month || (a.month == b.month && a.day <= b.day)))
  }

  /** The `n`-th anniversary of `birth`: same month and day, `n` years later. */
  function Anniversary(birth: Date, n: int): Date
  {
    Date(birth.year + n, birth.month, birth.day)
  }

  /** A birthdate field: falsy (null, missing or ""), a text `new Date` cannot read (an Invalid
      Date, whose parts are NaN), or a calendar date. */
  datatype Birthdate = NoBirthdate | InvalidDate | BornOn(date: Date)

  /** What calculateAge returns: "N/A" for a falsy birthdate, NaN for an Invalid Date, or a
      number of years. */
  datatype Age = NotAvailable | NotANumber | Years(n: int)

  /** calculateAge: the year difference, one less when today's (month, day) comes before the
      birth (month, day). The result is the number of anniversaries already reached; the
      arithmetic on an Invalid Date's parts gives NaN. */
  function CalculateAge(birthdate: Birthdate, today: Date): (age: Age)
    ensures birthdate.NoBirthdate? <==> age == NotAvailable
    ensures birthdate.InvalidDate? <==> age == NotANumber
    ensures birthdate.BornOn? ==>
      OnOrBefore(Anniversary(birthdate.date, age.n), today) &&
      !OnOrBefore(Anniversary(birthdate.date, age.n + 1), today)
  {
    if birthdate.NoBirthdate? then NotAvailable
    else if birthdate.InvalidDate? then NotANumber
    else
      var birth := birthdate.date;
      var years := today.year - birth.year;
      var monthDiff := today.month - birth.month;
      if monthDiff < 0 || (monthDiff == 0 && today.day < birth.day) then Years(years - 1) else Years(years)
  }

  /** The anniversary condition fixes the age: no other count of years satisfies it. */
  lemma AgeIsUnique(birth: Date, today: Date, n: int)
    requires OnOrBefore(Anniversary(birth, n), today) && !OnOrBefore(Anniversary(birth, n + 1), today)
    ensures CalculateAge(BornOn(birth), today) == Years(n)
  {
  }

  /** Ages never go down as time passes. */
  lemma AgeMonotone(birth: Date, earlier: Date, later: Date)
    requires OnOrBefore(earlier, later)
    ensures CalculateAge(BornOn(birth), earlier).n <= CalculateAge(BornOn(birth), later).n
  {
  }

  /** On a birthday the age is exactly the difference of the years. */
  lemma AgeOnBirthday(birth: Date, year: int)
    ensures CalculateAge(BornOn(birth), Date(year, birth.month, birth.day)) == Years(year - birth.year)
  {
  }

  /** The table cell for an age: "N/A", "NaN" or the number; the three kinds of cell never
      share a text. */
  function AgeText(age: Age): (t: string)
    ensures age.NotAvailable? <==> t == "N/A"
    ensures age.NotANumber? <==> t == "NaN"
  {
    match age
    case NotAvailable => "N/A"
    case NotANumber => "NaN"
    case Years(n) =>
      var m: nat := if n < 0 then -n else n;
      NatToStringDigits(m);
      assert IsDigit(NatToString(m)[0]);
      var t := IntToString(n);
      assert t[0] == '-' || IsDigit(t[0]);
      assert t[0] != "N/A"[0] && t[0] != "NaN"[0];
      t
  }

  /** A number of years renders as text that reads back as that number. */
  lemma AgeTextReadsBack(age: Age)
    requires age.Years?
    ensures ParseInt(AgeText(age)) == Some(age.n)
  {
    ParseIntOfIntToString(age.n);
  }
}
