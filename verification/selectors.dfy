/**
 * The selector vocabulary of the script: the membership tests `get_filters`
 * applies to what the user types, and the month list `load_data` indexes.
 */
module Selectors {
  import opened Wrappers
  import opened Text
  import opened Seqs
  import opened Trips

  const CityNames: seq<string> := ["chicago", "new york city", "washington"]

  /** The list `load_data` looks a month selector up in; its position plus one is the ordinal. */
  const MonthNames: seq<string> := ["january", "february", "march", "april", "may", "june"]

  /** The day names the prompt accepts, including its misspelt "wednesay". */
  const DayNames: seq<string> :=
    ["monday", "tuesday", "wednesay", "thursday", "friday", "saturday", "sunday"]

  /** The city prompt's test: the lower-cased input is one of the three cities. */
  predicate CityAccepted(s: string) {
    Lower(s) in CityNames
  }

  /** The month prompt's test: the lower-cased input is a month name or "all". */
  predicate MonthAccepted(s: string) {
    Lower(s) in MonthNames || Lower(s) == "all"
  }

  /** The day prompt's test: the lower-cased input is a listed day name or "all". */
  predicate DayAccepted(s: string) {
    Lower(s) in DayNames || Lower(s) == "all"
  }

  /** `months.index(month) + 1`, or nothing where `index` raises ValueError. */
  function MonthOrdinal(month: string): (k: Option<int>)
    ensures k.Some? <==> month in MonthNames
    ensures k.Some? ==> 1 <= k.value <= 6 && MonthNames[k.value - 1] == month
  {
    match IndexOf(MonthNames, month)
    case None => None
    case Some(i) => Some(i + 1)
  }
}

/**
 * What the selector vocabulary implies: which inputs the prompts accept, and
 * what the filter makes of them.
 */
module SelectorFacts {
  import opened Wrappers
  import opened Text
  import opened Trips
  import opened Selectors

  /** The three prompts compare the lower-cased input, so none depends on the input's case. */
  lemma AcceptanceIgnoresCase(s: string)
    ensures CityAccepted(s) == CityAccepted(Lower(s))
    ensures MonthAccepted(s) == MonthAccepted(Lower(s))
    ensures DayAccepted(s) == DayAccepted(Lower(s))
  {
    LowerIdempotent(s);
  }

  lemma LowerCapitalisedJanuary()
    ensures Lower("January") == "january"
  {
  }

  lemma LowerCapitalisedAll()
    ensures Lower("All") == "all"
  {
  }

  /** The month prompt accepts "January" and "All", which have no ordinal. */
  lemma MonthOrdinalCaseSensitive()
    ensures MonthAccepted("January") && MonthOrdinal("January").None?
    ensures MonthAccepted("All") && MonthOrdinal("All").None?
  {
    LowerCapitalisedJanuary();
    LowerCapitalisedAll();
  }

  /** The month list and the sentinel are already in lower case. */
  lemma MonthNamesLowercase(m: string)
    requires m in MonthNames || m == "all"
    ensures Lower(m) == m
  {
    if m == "january" {
      LowerOfLowercase("january");
    } else if m == "february" {
      LowerOfLowercase("february");
    } else if m == "march" {
      LowerOfLowercase("march");
    } else if m == "april" {
      LowerOfLowercase("april");
    } else if m == "may" {
      LowerOfLowercase("may");
    } else if m == "june" {
      LowerOfLowercase("june");
    } else {
      LowerOfLowercase("all");
    }
  }

  /** The lower-case selectors that the month prompt accepts are exactly "all" and those with an ordinal. */
  lemma LowerMonthAcceptedIffOrdinal(s: string)
    requires Lower(s) == s
    ensures MonthAccepted(s) <==> s == "all" || MonthOrdinal(s).Some?
  {
  }

  /** "ALL" is accepted as a day, yet its title form names no weekday. */
  lemma UpperCaseAllForms()
    ensures Lower("ALL") == "all"
    ensures Title("ALL") == "All" && "All" !in WeekdayNames
  {
  }

  /** The misspelt day's title form names no weekday. */
  lemma MisspeltDayForms()
    ensures Title("wednesay") == "Wednesay" && "Wednesay" !in WeekdayNames
  {
  }

  lemma LowerWednesday()
    ensures Lower("wednesday") == "wednesday"
  {
    var s := "wednesday";
    assert s[1..] == "ednesday";
    LowerOfLowercase("ednesday");
  }

  lemma LowerWednesay()
    ensures Lower("wednesay") == "wednesay"
  {
    LowerOfLowercase("wednesay");
  }

  lemma LowerCapitalisedWednesday()
    ensures Lower("Wednesday") == "wednesday"
  {
    var s := "Wednesday";
    assert s[1..] == "ednesday";
    LowerOfLowercase("ednesday");
  }

  /** Because of the misspelling, the day prompt rejects "Wednesday" in any case. */
  lemma WednesdayRejected()
    ensures !DayAccepted("wednesday") && !DayAccepted("Wednesday")
    ensures DayAccepted("wednesay")
  {
    LowerCapitalisedWednesday();
    LowerWednesday();
    LowerWednesay();
  }

  lemma TitleMonday()
    ensures Title("monday") == "Monday"
  {
  }

  lemma TitleTuesday()
    ensures Title("tuesday") == "Tuesday"
  {
  }

  lemma TitleThursday()
    ensures Title("thursday") == "Thursday"
  {
  }

  lemma TitleFriday()
    ensures Title("friday") == "Friday"
  {
  }

  lemma TitleSaturday()
    ensures Title("saturday") == "Saturday"
  {
  }

  lemma TitleSunday()
    ensures Title("sunday") == "Sunday"
  {
  }

  /** The listed day names other than the misspelt one title-case to weekday names. */
  lemma DayNameTitle(l: string)
    requires l in DayNames && l != "wednesay"
    ensures Title(l) in WeekdayNames
  {
    if l == "monday" {
      TitleMonday();
    } else if l == "tuesday" {
      TitleTuesday();
    } else if l == "thursday" {
      TitleThursday();
    } else if l == "friday" {
      TitleFriday();
    } else if l == "saturday" {
      TitleSaturday();
    } else {
      TitleSunday();
    }
  }

  /**
   * Every accepted day selector other than "all" and the misspelt one names a
   * weekday after title-casing, whatever its case.
   */
  lemma AcceptedDayNamesWeekday(s: string)
    requires DayAccepted(s)
    requires Lower(s) != "all" && Lower(s) != "wednesay"
    ensures Title(s) in WeekdayNames
  {
    TitleIgnoresCase(s);
    DayNameTitle(Lower(s));
  }
}
