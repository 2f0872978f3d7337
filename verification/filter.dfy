/**
 * The filter stage of `load_data`: an optional month filter followed by an
 * optional weekday filter over the frame of derived trip records.
 */
module Filter {
  import opened Wrappers
  import opened Text
  import opened Seqs
  import opened Trips
  import opened Selectors
  import opened SelectorFacts

  /** The ValueError `months.index(month)` raises for a selector missing from the list. */
  datatype FilterError = UnknownMonth(month: string)

  /**
   * What the selectors mean for one record, stated without the ordinal lookup:
   * the record's month is the one the month selector names, and its weekday
   * name is the title-cased day selector; "all" places no condition.
   */
  predicate Kept(month: string, day: string, x: Record) {
    && (month == "all" || (1 <= x.month <= |MonthNames| && MonthNames[x.month - 1] == month))
    && (day == "all" || x.weekday == Title(day))
  }

  /** Filtering on `df['month'] == ordinal` keeps the records whose month the selector names. */
  lemma OrdinalMatchesName(month: string, k: int, x: Record)
    requires MonthOrdinal(month) == Some(k)
    ensures x.month == k <==> 1 <= x.month <= |MonthNames| && MonthNames[x.month - 1] == month
  {
  }

  /**
   * `load_data`'s filtering: the records the selectors keep, in their original
   * order and unaltered, or the error `months.index` raises.
   */
  function LoadFilter(d: Dataset, month: string, day: string): (r: Result<Dataset, FilterError>)
    ensures r.Failure? <==> month != "all" && month !in MonthNames
    ensures r.Failure? ==> r.error == UnknownMonth(month)
    ensures r.Success? ==> r.value.hasGender == d.hasGender && r.value.hasBirthYear == d.hasBirthYear
    ensures r.Success? ==> IsSubsequence(r.value.records, d.records)
    ensures r.Success? ==>
      forall x :: Count(r.value.records, x) == if Kept(month, day, x) then Count(d.records, x) else 0
    ensures month == "all" && day == "all" ==> r == Success(d)
  {
    match (if month == "all" then Some(0) else MonthOrdinal(month))
    case None => Failure(UnknownMonth(month))
    case Some(k) =>
      var byMonth :=
        if month == "all" then d.records
        else Select(d.records, (x: Record) => x.month == k);
      var title := Title(day);
      var byDay :=
        if day == "all" then byMonth
        else Select(byMonth, (x: Record) => x.weekday == title);
      assert month != "all" ==> forall x: Record :: x.month == k <==> Kept(month, "all", x) by {
        if month != "all" {
          forall x: Record ensures x.month == k <==> Kept(month, "all", x) {
            OrdinalMatchesName(month, k, x);
          }
        }
      }
      assert IsSubsequence(byDay, d.records) by {
        if day != "all" && month != "all" {
          SubsequenceTransitive(byDay, byMonth, d.records);
        } else if day == "all" && month == "all" {
          SubsequenceReflexive(d.records);
        }
      }
      Success(Dataset(byDay, d.hasGender, d.hasBirthYear))
  }

  /** Every record the filter keeps comes from the input and satisfies the selectors. */
  lemma KeptRecords(d: Dataset, month: string, day: string, x: Record)
    requires month == "all" || month in MonthNames
    requires x in LoadFilter(d, month, day).value.records
    ensures x in d.records && Kept(month, day, x)
  {
  }

  /** The two filters compose by AND: the result is one selection by `Kept`. */
  lemma {:induction false} FilterIsSelection(d: Dataset, month: string, day: string)
    requires month == "all" || month in MonthNames
    ensures LoadFilter(d, month, day).value.records == Select(d.records, (x: Record) => Kept(month, day, x))
  {
    var k := if month == "all" then 0 else MonthOrdinal(month).value;
    var pm := (x: Record) => x.month == k;
    var title := Title(day);
    var pd := (x: Record) => x.weekday == title;
    var kept := (x: Record) => Kept(month, day, x);
    forall x: Record | month != "all" ensures x.month == k <==> Kept(month, "all", x) {
      OrdinalMatchesName(month, k, x);
    }
    if month != "all" && day != "all" {
      SelectSelect(d.records, pm, pd, kept);
    } else if month != "all" {
      SelectSame(d.records, pm, kept);
    } else if day != "all" {
      SelectSame(d.records, pd, kept);
    } else {
      assert forall i :: 0 <= i < |d.records| ==> kept(d.records[i]);
    }
  }

  /** Filtering the result again with the same selectors changes nothing. */
  lemma FilterIdempotent(d: Dataset, month: string, day: string)
    requires month == "all" || month in MonthNames
    ensures LoadFilter(LoadFilter(d, month, day).value, month, day) == LoadFilter(d, month, day)
  {
    var e := LoadFilter(d, month, day).value;
    FilterIsSelection(d, month, day);
    FilterIsSelection(e, month, day);
    var kept := (x: Record) => Kept(month, day, x);
    assert forall i :: 0 <= i < |e.records| ==> kept(e.records[i]);
  }

  /** The weekday filter reads its selector case-insensitively. */
  lemma FilterDayCaseInsensitive(d: Dataset, month: string, day: string)
    requires day != "all" && Lower(day) != "all"
    ensures LoadFilter(d, month, day) == LoadFilter(d, month, Lower(day))
  {
    TitleIgnoresCase(day);
  }

  /** The month filter reads its selector case-sensitively: "January" raises. */
  lemma CapitalisedMonthFails(d: Dataset, day: string)
    ensures MonthAccepted("January") && LoadFilter(d, "January", day).Failure?
  {
    MonthOrdinalCaseSensitive();
  }

  /** The month selectors the filter takes are exactly the accepted ones already in lower case. */
  lemma FilterSucceedsIffLowerAccepted(d: Dataset, month: string, day: string)
    ensures LoadFilter(d, month, day).Success? <==> MonthAccepted(month) && Lower(month) == month
  {
    if month in MonthNames || month == "all" {
      MonthNamesLowercase(month);
    }
    if MonthAccepted(month) && Lower(month) == month {
      LowerMonthAcceptedIffOrdinal(month);
    }
  }

  /** A filtered frame keeps the guarantees of the frame it came from. */
  lemma FilterPreservesValidity(d: Dataset, month: string, day: string)
    requires ValidDataset(d)
    requires month == "all" || month in MonthNames
    ensures ValidDataset(LoadFilter(d, month, day).value)
  {
  }

  /** A day selector whose title form names no weekday selects no record of a valid frame. */
  lemma NonWeekdaySelectsNothing(d: Dataset, month: string, day: string)
    requires ValidDataset(d)
    requires day != "all" && Title(day) !in WeekdayNames
    requires month == "all" || month in MonthNames
    ensures LoadFilter(d, month, day).value.records == []
  {
    var r := LoadFilter(d, month, day).value.records;
    if r != [] {
      KeptRecords(d, month, day, r[0]);
    }
  }

  /**
   * "ALL", which the day prompt invites and accepts, is not the sentinel
   * "all": it filters on the weekday "All" and keeps nothing.
   */
  lemma UpperCaseAllDaySelectsNothing(d: Dataset, month: string)
    requires ValidDataset(d)
    requires month == "all" || month in MonthNames
    ensures DayAccepted("ALL")
    ensures LoadFilter(d, month, "ALL").value.records == []
  {
    UpperCaseAllForms();
    NonWeekdaySelectsNothing(d, month, "ALL");
  }

  /** The misspelt "wednesay" is accepted but keeps nothing of a valid frame. */
  lemma MisspeltDaySelectsNothing(d: Dataset, month: string)
    requires ValidDataset(d)
    requires month == "all" || month in MonthNames
    ensures DayAccepted("wednesay")
    ensures LoadFilter(d, month, "wednesay").value.records == []
  {
    WednesdayRejected();
    MisspeltDayForms();
    NonWeekdaySelectsNothing(d, month, "wednesay");
  }
}
