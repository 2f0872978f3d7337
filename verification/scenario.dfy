/**
 * A worked example: a three-trip frame, filtered to January, and the four
 * reports over what is left. It pins down the tie-break of `mode()[0]`
 * (the hour 8 beats 9, the end station "B" beats "C") and the user-type
 * counts, listed here in order of first occurrence.
 */
module Scenario {
  import opened Wrappers
  import opened Orders
  import opened Seqs
  import opened Frequency
  import opened Trips
  import opened Selectors
  import opened Filter
  import opened Stats

  /** A trip without gender or birth year columns. */
  function Trip(month: int, weekday: string, hour: int, duration: nat,
                start: string, end: string, userType: string): Record
  {
    Record(month, weekday, hour, duration, start, end, userType, None, None)
  }

  const First := Trip(1, "Monday", 8, 120, "A", "B", "Subscriber")
  const Second := Trip(1, "Monday", 9, 300, "A", "C", "Customer")
  const Third := Trip(2, "Tuesday", 8, 60, "B", "A", "Subscriber")

  const Whole := Dataset([First, Second, Third], false, false)
  const January := Dataset([First, Second], false, false)

  /** Filtering to "january" keeps the two January trips, in order. */
  lemma JanuaryFilter()
    ensures LoadFilter(Whole, "january", "all") == Success(January)
  {
    assert MonthOrdinal("january") == Some(1);
    var s := [First, Second, Third];
    var p := (x: Record) => x.month == 1;
    assert s[1..] == [Second, Third];
    assert s[1..][1..] == [Third];
    assert Select([Third], p) == [];
    assert Select([Second, Third], p) == [Second];
    assert Select(s, p) == [First, Second];
  }

  /** Month and weekday are shared; the hours 8 and 9 tie and 8 wins. */
  lemma JanuaryTimes()
    ensures TimeStats(January) == Success(TimeReport(1, "Monday", 8))
  {
    var s := [First, Second];
    IntLessIsStrictTotal();
    StringLessIsStrictTotal();
    assert Months(s) == [1, 1];
    assert Weekdays(s) == ["Monday", "Monday"];
    assert Hours(s) == [8, 9];
    ModeOfRepeat(1, IntLess);
    ModeOfRepeat("Monday", StringLess);
    ModeOfTie(8, 9, IntLess);
  }

  /** Both trips start at "A"; the end stations and routes tie and the smaller wins. */
  lemma JanuaryStations()
    ensures StationStats(January) == Success(StationReport("A", "B", Route("A", "B"), 1))
  {
    var s := [First, Second];
    StringLessIsStrictTotal();
    RouteLessIsStrictTotal();
    assert StartStations(s) == ["A", "A"];
    assert EndStations(s) == ["B", "C"];
    assert Routes(s) == [Route("A", "B"), Route("A", "C")];
    assert StringLess("B", "C");
    ModeOfRepeat("A", StringLess);
    ModeOfTie("B", "C", StringLess);
    ModeOfTie(Route("A", "B"), Route("A", "C"), RouteLess);
    assert Count(Routes(s), Route("A", "B")) == 1;
  }

  /** 120 + 300 seconds in total, 210 on average. */
  lemma JanuaryDurations()
    ensures TripDurationStats(January) == DurationReport(420, Some(210.0))
  {
    var s := [First, Second];
    assert s[1..] == [Second];
    assert [Second][1..] == [];
    assert TotalDuration([Second]) == 300;
    assert TotalDuration(s) == 420;
  }

  /** One subscriber and one customer, listed in the order they first appear. */
  lemma JanuaryUsers()
    ensures UserStats(January) == Success(UserReport([Entry("Subscriber", 1), Entry("Customer", 1)], None, None))
  {
    var u := ["Subscriber", "Customer"];
    assert UserTypes([First, Second]) == u;
    assert u[1..] == ["Customer"];
    assert Count(u, "Subscriber") == 1;
    assert Without(["Customer"], "Subscriber") == ["Customer"];
    assert ["Customer"][1..] == [];
    assert Without([], "Customer") == [];
    assert Count(["Customer"], "Customer") == 1;
    assert Tally<string>([]) == [];
    assert Tally(["Customer"]) == [Entry("Customer", 1)];
    assert Tally(u) == [Entry("Subscriber", 1)] + Tally(["Customer"]);
    assert UserStats(January) == Success(UserReport(Tally(u), None, None));
    assert Tally(u) == [Entry("Subscriber", 1), Entry("Customer", 1)];
  }
}
