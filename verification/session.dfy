/**
 * One pass of `main`'s loop, minus the prompts and the restart question:
 * filter the city's frame, then compute the four reports in order. The run
 * stops at the first exception, as the script does.
 */
module Session {
  import opened Wrappers
  import opened Seqs
  import opened Frequency
  import opened Trips
  import opened Selectors
  import opened SelectorFacts
  import opened Filter
  import opened Stats

  datatype Report = Report(
    time: TimeReport,
    stations: StationReport,
    durations: DurationReport,
    users: UserReport)

  datatype SessionError = FilterFailed(filterError: FilterError) | StatsFailed(statsError: StatsError)

  /** What `load_data` followed by the four report functions produce for one selection. */
  function RunSession(d: Dataset, month: string, day: string): (r: Result<Report, SessionError>)
    ensures r.Failure? && r.error.FilterFailed? <==> month != "all" && month !in MonthNames
    ensures r.Success? <==>
      && LoadFilter(d, month, day).Success?
      && |LoadFilter(d, month, day).value.records| > 0
      && (d.hasBirthYear ==> |Present(BirthYears(LoadFilter(d, month, day).value.records))| > 0)
    ensures r.Success? ==>
      var f := LoadFilter(d, month, day).value;
      && IsMode(Months(f.records), r.value.time.month, Orders.IntLess)
      && r.value.durations.total == TotalDuration(f.records)
      && Total(r.value.users.userTypes) == |f.records|
    ensures r.Success? ==>
      var f := LoadFilter(d, month, day).value;
      r.value == Report(TimeStats(f).value, StationStats(f).value, TripDurationStats(f), UserStats(f).value)
  {
    match LoadFilter(d, month, day)
    case Failure(e) => Failure(FilterFailed(e))
    case Success(f) =>
      match TimeStats(f)
      case Failure(e) => Failure(StatsFailed(e))
      case Success(time) =>
        var stations := StationStats(f);
        match UserStats(f)
        case Failure(e) => Failure(StatsFailed(e))
        case Success(users) =>
          Success(Report(time, stations.value, TripDurationStats(f), users))
  }

  /** Day "ALL", which the prompt invites, ends every run on a valid frame with an error. */
  lemma UpperCaseAllDayFails(d: Dataset, month: string)
    requires ValidDataset(d)
    ensures RunSession(d, month, "ALL").Failure?
  {
    if LoadFilter(d, month, "ALL").Success? {
      UpperCaseAllDaySelectsNothing(d, month);
    }
  }

  /** The misspelt "wednesay", the only Wednesday the prompt accepts, ends every run with an error. */
  lemma MisspeltDayFails(d: Dataset, month: string)
    requires ValidDataset(d)
    ensures RunSession(d, month, "wednesay").Failure?
  {
    if LoadFilter(d, month, "wednesay").Success? {
      MisspeltDaySelectsNothing(d, month);
    }
  }

  /** Selecting "all"/"all" runs all four reports on the whole frame. */
  lemma AllAllReportsWholeFrame(d: Dataset)
    requires |d.records| > 0
    requires d.hasBirthYear ==> |Present(BirthYears(d.records))| > 0
    ensures RunSession(d, "all", "all")
      == Success(Report(TimeStats(d).value, StationStats(d).value, TripDurationStats(d), UserStats(d).value))
  {
  }
}
