/**
 * The four reports of the script (`time_stats`, `station_stats`,
 * `trip_duration_stats`, `user_stats`) as pure functions of a frame.
 * `mode()[0]` on an empty column raises IndexError in the script; the
 * reports surface that as `Failure(NoData)`.
 */
module Stats {
  import opened Wrappers
  import opened Orders
  import opened Seqs
  import opened Frequency
  import opened Trips

  /** The IndexError of `mode()[0]` on a column with no values. */
  datatype StatsError = NoData

  // ------------------------------------------------------------ time_stats

  datatype TimeReport = TimeReport(month: int, weekday: string, hour: int)

  /** Most common month, weekday and start hour. */
  function TimeStats(d: Dataset): (r: Result<TimeReport, StatsError>)
    ensures r.Success? <==> |d.records| > 0
    ensures r.Success? ==>
      && IsMode(Months(d.records), r.value.month, IntLess)
      && IsMode(Weekdays(d.records), r.value.weekday, StringLess)
      && IsMode(Hours(d.records), r.value.hour, IntLess)
  {
    if |d.records| == 0 then Failure(NoData)
    else
      IntLessIsStrictTotal();
      StringLessIsStrictTotal();
      Success(TimeReport(
        Mode(Months(d.records), IntLess),
        Mode(Weekdays(d.records), StringLess),
        Mode(Hours(d.records), IntLess)))
  }

  // --------------------------------------------------------- station_stats

  /** Order on routes: by start station, then by end station. */
  predicate RouteLess(a: Route, b: Route) {
    StringLess(a.start, b.start) || (a.start == b.start && StringLess(a.end, b.end))
  }

  lemma RouteLessIsStrictTotal()
    ensures StrictTotalOrder(RouteLess)
  {
    StringLessIsStrictTotal();
  }

  datatype StationReport = StationReport(start: string, end: string, topRoute: Route, topRouteCount: nat)

  /**
   * Most common start station, most common end station, and the first row of
   * the (start, end) group sizes sorted in descending order: a route no other
   * route outnumbers, with its number of trips. Which of several equally
   * frequent routes comes first is not fixed by the script's sort.
   */
  function StationStats(d: Dataset): (r: Result<StationReport, StatsError>)
    ensures r.Success? <==> |d.records| > 0
    ensures r.Success? ==>
      && IsMode(StartStations(d.records), r.value.start, StringLess)
      && IsMode(EndStations(d.records), r.value.end, StringLess)
    ensures r.Success? ==>
      && r.value.topRoute in Routes(d.records)
      && r.value.topRouteCount == Count(Routes(d.records), r.value.topRoute)
      && (forall x :: x in Routes(d.records) ==> Count(Routes(d.records), x) <= r.value.topRouteCount)
      && 1 <= r.value.topRouteCount <= |d.records|
  {
    if |d.records| == 0 then Failure(NoData)
    else
      StringLessIsStrictTotal();
      RouteLessIsStrictTotal();
      var routes := Routes(d.records);
      var top := Mode(routes, RouteLess);
      CountAtMostLength(routes, top);
      Success(StationReport(
        Mode(StartStations(d.records), StringLess),
        Mode(EndStations(d.records), StringLess),
        top,
        Count(routes, top)))
  }

  // --------------------------------------------------- trip_duration_stats

  /** `df['Trip Duration'].sum()` */
  function TotalDuration(s: seq<Record>): nat
    decreases |s|
  {
    if s == [] then 0 else s[0].duration + TotalDuration(s[1..])
  }

  datatype DurationReport = DurationReport(total: nat, mean: Option<real>)

  /**
   * Total and mean trip duration; pandas' mean of an empty column is NaN,
   * modelled as no mean.
   */
  function TripDurationStats(d: Dataset): (r: DurationReport)
    ensures r.total == TotalDuration(d.records)
    ensures r.mean.Some? <==> |d.records| > 0
    ensures r.mean.Some? ==> r.mean.value * (|d.records| as real) == r.total as real
  {
    var total := TotalDuration(d.records);
    if |d.records| == 0 then DurationReport(total, None)
    else DurationReport(total, Some(total as real / |d.records| as real))
  }

  /** The total over a frame is the total over its first part plus the total over the rest. */
  lemma {:induction false} TotalDurationAppend(a: seq<Record>, b: seq<Record>)
    ensures TotalDuration(a + b) == TotalDuration(a) + TotalDuration(b)
    decreases |a|
  {
    if a == [] {
      assert a + b == b;
    } else {
      assert (a + b)[1..] == a[1..] + b;
      TotalDurationAppend(a[1..], b);
    }
  }

  /**
   * Splitting a frame by a mask splits its total: the trips a filter keeps and
   * the trips it drops account for all of the duration.
   */
  lemma {:induction false} TotalDurationSplits(s: seq<Record>, p: Record -> bool, q: Record -> bool)
    requires forall x :: q(x) == !p(x)
    ensures TotalDuration(Select(s, p)) + TotalDuration(Select(s, q)) == TotalDuration(s)
    decreases |s|
  {
    if s != [] {
      TotalDurationSplits(s[1..], p, q);
      if p(s[0]) {
        assert Select(s, p) == [s[0]] + Select(s[1..], p);
        assert Select(s, p)[1..] == Select(s[1..], p);
      } else {
        assert Select(s, q) == [s[0]] + Select(s[1..], q);
        assert Select(s, q)[1..] == Select(s[1..], q);
      }
    }
  }

  /** If every trip lasts between `lo` and `hi`, the total lies between `n * lo` and `n * hi`. */
  lemma {:induction false} TotalDurationBounds(s: seq<Record>, lo: int, hi: int)
    requires forall i :: 0 <= i < |s| ==> lo <= s[i].duration <= hi
    ensures |s| * lo <= TotalDuration(s) <= |s| * hi
    decreases |s|
  {
    if s != [] {
      TotalDurationBounds(s[1..], lo, hi);
      MulSucc(|s| - 1, lo);
      MulSucc(|s| - 1, hi);
    }
  }

  lemma MulSucc(n: int, k: int)
    ensures (n + 1) * k == n * k + k
  {
  }

  /** The mean lies between the shortest and the longest trip. */
  lemma MeanWithinRange(d: Dataset, lo: int, hi: int)
    requires |d.records| > 0
    requires forall i :: 0 <= i < |d.records| ==> lo <= d.records[i].duration <= hi
    ensures lo as real <= TripDurationStats(d).mean.value <= hi as real
  {
    var n := |d.records|;
    var r := TripDurationStats(d);
    TotalDurationBounds(d.records, lo, hi);
    QuotientBounds(r.total, n, lo, hi);
  }

  /** `n * lo <= t <= n * hi` places `t / n` between `lo` and `hi`. */
  lemma QuotientBounds(t: int, n: int, lo: int, hi: int)
    requires n > 0
    requires n * lo <= t <= n * hi
    ensures lo as real <= t as real / n as real <= hi as real
  {
  }

  // ------------------------------------------------------------ user_stats

  /** Earliest, most recent and most common year of birth. */
  datatype BirthYearReport = BirthYearReport(earliest: int, recent: int, common: int)

  /**
   * `userTypes` is the value counts of the user type column; `genders` those of
   * the gender column, present exactly when the city has one; `birthYears` is
   * present exactly when the city has the column.
   */
  datatype UserReport = UserReport(
    userTypes: seq<Entry<string>>,
    genders: Option<seq<Entry<string>>>,
    birthYears: Option<BirthYearReport>)

  /**
   * User-type counts; gender counts when the city has the column; and, when it
   * has a birth-year column, the smallest, largest and most common year among
   * the rows that have one. With the column present but no year in any row,
   * `mode()[0]` raises.
   */
  function UserStats(d: Dataset): (r: Result<UserReport, StatsError>)
    ensures r.Failure? <==> d.hasBirthYear && |Present(BirthYears(d.records))| == 0
    ensures r.Success? ==>
      var t := r.value.userTypes;
      && Total(t) == |d.records|
      && (forall x :: x in UserTypes(d.records) <==> x in Keys(t))
      && (forall i :: 0 <= i < |t| ==> t[i].count == Count(UserTypes(d.records), t[i].key) && t[i].count >= 1)
    ensures r.Success? ==>
      && (r.value.genders.Some? <==> d.hasGender)
      && (r.value.genders.Some? ==>
            var g := r.value.genders.value;
            var present := Present(Genders(d.records));
            && Total(g) == |d.records| - Count(Genders(d.records), None)
            && (forall x :: x in present <==> x in Keys(g))
            && (forall i :: 0 <= i < |g| ==> g[i].count == Count(present, g[i].key) && g[i].count >= 1))
    ensures r.Success? ==>
      && (r.value.birthYears.Some? <==> d.hasBirthYear)
      && (r.value.birthYears.Some? ==>
            var years := Present(BirthYears(d.records));
            var b := r.value.birthYears.value;
            && b.earliest in years && b.recent in years
            && (forall y :: y in years ==> b.earliest <= y <= b.recent)
            && IsMode(years, b.common, IntLess))
  {
    var userTypes := Tally(UserTypes(d.records));
    var genders := if d.hasGender then Some(Tally(Present(Genders(d.records)))) else None;
    if !d.hasBirthYear then Success(UserReport(userTypes, genders, None))
    else
      var years := Present(BirthYears(d.records));
      if |years| == 0 then Failure(NoData)
      else
        IntLessIsStrictTotal();
        Success(UserReport(userTypes, genders, Some(BirthYearReport(Min(years), Max(years), Mode(years, IntLess)))))
  }

  /** The most common year of birth lies between the earliest and the most recent. */
  lemma CommonYearBetweenExtremes(d: Dataset)
    requires UserStats(d).Success? && UserStats(d).value.birthYears.Some?
    ensures var b := UserStats(d).value.birthYears.value; b.earliest <= b.common <= b.recent
  {
  }
}
