/**
 * Trip records after `load_data` has derived `month`, `day_of_week` and
 * `hour` from the start time, and the columns the statistics read.
 */
module Trips {
  import opened Wrappers

  /**
   * One row of a city's frame. `gender` and `birthYear` are `None` for a
   * NaN cell, and for every row of a city whose file lacks the column.
   */
  datatype Record = Record(
    month: int,
    weekday: string,
    hour: int,
    duration: nat,
    startStation: string,
    endStation: string,
    userType: string,
    gender: Option<string>,
    birthYear: Option<int>)

  /** A city's frame, with whether its file carries the `Gender` and `Birth Year` columns. */
  datatype Dataset = Dataset(records: seq<Record>, hasGender: bool, hasBirthYear: bool)

  /** A (start station, end station) key of the grouping in `station_stats`. */
  datatype Route = Route(start: string, end: string)

  /** The names `dt.weekday_name` produces. */
  const WeekdayNames: seq<string> :=
    ["Monday", "Tuesday", "Wednesday", "Thursday", "Friday", "Saturday", "Sunday"]

  /** What the timestamp derivation and the per-city schema guarantee of a row. */
  predicate ValidRecord(x: Record, hasGender: bool, hasBirthYear: bool) {
    && 1 <= x.month <= 12
    && x.weekday in WeekdayNames
    && 0 <= x.hour <= 23
    && (!hasGender ==> x.gender.None?)
    && (!hasBirthYear ==> x.birthYear.None?)
  }

  predicate ValidDataset(d: Dataset) {
    forall x :: x in d.records ==> ValidRecord(x, d.hasGender, d.hasBirthYear)
  }

  // Columns of a frame, `df['...']`, one cell per row in row order.

  function Months(s: seq<Record>): seq<int> {
    seq(|s|, i requires 0 <= i < |s| => s[i].month)
  }

  function Weekdays(s: seq<Record>): seq<string> {
    seq(|s|, i requires 0 <= i < |s| => s[i].weekday)
  }

  function Hours(s: seq<Record>): seq<int> {
    seq(|s|, i requires 0 <= i < |s| => s[i].hour)
  }

  function StartStations(s: seq<Record>): seq<string> {
    seq(|s|, i requires 0 <= i < |s| => s[i].startStation)
  }

  function EndStations(s: seq<Record>): seq<string> {
    seq(|s|, i requires 0 <= i < |s| => s[i].endStation)
  }

  function Routes(s: seq<Record>): seq<Route> {
    seq(|s|, i requires 0 <= i < |s| => Route(s[i].startStation, s[i].endStation))
  }

  function UserTypes(s: seq<Record>): seq<string> {
    seq(|s|, i requires 0 <= i < |s| => s[i].userType)
  }

  function Genders(s: seq<Record>): seq<Option<string>> {
    seq(|s|, i requires 0 <= i < |s| => s[i].gender)
  }

  function BirthYears(s: seq<Record>): seq<Option<int>> {
    seq(|s|, i requires 0 <= i < |s| => s[i].birthYear)
  }
}
