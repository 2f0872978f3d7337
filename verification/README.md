# Bikeshare filter and statistics, modelled in Dafny

`bikeshare_b.py` is an interactive script. It asks for a city, a month and a
day of the week, loads that city's trip file, derives `month`, `day_of_week`
and `hour` from each trip's start time, and keeps the trips the month and day
selectors allow. It then prints four reports over what is left:

- the most common month, weekday and start hour;
- the most common start station, end station and (start, end) route;
- the total and mean trip duration;
- counts of user types and genders, plus the earliest, most recent and most
  common year of birth.

This project models that pipeline as pure functions over a sequence of trip
records. It also models the tests the three prompts apply to what the user
types.

Modules:

- `Trips`: a trip record after the time columns have been derived, the frame
  with its optional `Gender` and `Birth Year` columns, and the column
  projections.
- `Selectors` and `SelectorFacts`: the lists the prompts accept, the month
  ordinal `load_data` computes, and what follows from their mix of
  case-insensitive and case-sensitive comparisons.
- `Filter`: the filter stage of `load_data`.
- `Stats`: the four report functions.
- `Session`: one pass of `main`, which stops at the first exception.
- `Scenario`: a worked three-trip example.
- Supporting modules:
  - `Frequency` (`mode()[0]`, `value_counts`, smallest and largest value);
  - `Seqs` (boolean-mask selection, `list.index`, NaN dropping);
  - `Text` (ASCII `lower` and `title`);
  - `Orders` (the orders `mode()` sorts by);
  - `Wrappers` (`Option`, `Result`).

Exceptions the script raises are modelled as `Failure` values:

- `months.index` on a month that is not in the list raises ValueError. This
  is `Failure(UnknownMonth(month))`.
- `mode()[0]` on a column with no values raises. This is `Failure(NoData)`.

Two behaviours of the script shape the model:

- **Empty input.** The script does not check for an empty frame, so
  `time_stats` raises when the filter leaves no trips. `RunSession`
  therefore fails on an empty filter result rather than returning partial
  reports.
- **Case of the selectors.** The prompts compare the lower-cased input, but
  the filter treats the two selectors differently.
  - The day filter ignores case, because it compares against `day.title()`.
  - The month filter does not: the month prompt accepts "January" and "All",
    but `load_data` compares the raw string against "all" and looks it up in
    a lower-case list.

`mode()[0]` takes the first of the sorted modes. So when values tie for most
frequent, the smallest wins: numbers by value, strings by code-point
lexicographic order. `IsMode` states this rule, and every report contract is
written in terms of it.

## Model

| member | source | states |
|---|---|---|
| Text.LowerIdempotent | bikeshare_b.py:30 | lower-casing an already lower-cased string changes nothing |
| Text.TitleIgnoresCase | bikeshare_b.py:96 | `title()` gives the same result for a string and for its lower-case form |
| Text.TitleOfLowerWord | bikeshare_b.py:96 | `title()` of a lower-case word upper-cases its first letter and leaves the rest as it is |
| Selectors.MonthOrdinal | bikeshare_b.py:85-88 | `months.index(month) + 1`: defined exactly for the six listed lower-case names, lies in 1..6, and indexes back to the given name; any other string is the ValueError case |
| SelectorFacts.AcceptanceIgnoresCase | bikeshare_b.py:30-52 | the city, month and day prompts all lower-case the input before testing membership, so an input and its lower-case form are accepted alike |
| SelectorFacts.MonthOrdinalCaseSensitive | bikeshare_b.py:38-40 | the month prompt accepts "January" and "All" (and invites them), yet neither has an ordinal in the lower-case month list of `load_data` |
| SelectorFacts.MonthNamesLowercase | bikeshare_b.py:87 | every month name in the list, and the sentinel "all", is its own lower-case form |
| SelectorFacts.LowerMonthAcceptedIffOrdinal | bikeshare_b.py:40 | for a lower-case input, acceptance by the month prompt is equivalent to being "all" or having an ordinal |
| SelectorFacts.UpperCaseAllForms | bikeshare_b.py:50-52 | "ALL", which the day prompt invites, lower-cases to "all" and so is accepted, but title-cases to "All", which is no weekday name |
| SelectorFacts.MisspeltDayForms | bikeshare_b.py:52 | the listed "wednesay" title-cases to "Wednesay", which is no weekday name |
| SelectorFacts.WednesdayRejected | bikeshare_b.py:52 | the day prompt rejects "wednesday" and "Wednesday" and accepts "wednesay" |
| SelectorFacts.DayNameTitle | bikeshare_b.py:52 | each listed day name except the misspelt one title-cases to a weekday name |
| SelectorFacts.AcceptedDayNamesWeekday | bikeshare_b.py:52 | any input the day prompt accepts, other than the "all" and "wednesay" forms, title-cases to a weekday name whatever its case |
| Filter.LoadFilter | bikeshare_b.py:84-98 | fails exactly when the month is neither "all" nor a listed name, with that month in the error; otherwise it keeps the column flags, yields a subsequence of the input, holds each record as often as the input does when the month names its month and its weekday is the title-cased day (and not at all otherwise), and returns the frame itself for "all"/"all" |
| Filter.OrdinalMatchesName | bikeshare_b.py:87-91 | comparing a record's month number with the ordinal selects exactly the records whose month the selector names |
| Filter.KeptRecords | bikeshare_b.py:84-98 | every record of the result occurs in the input and satisfies both selectors |
| Filter.FilterIsSelection | bikeshare_b.py:84-98 | the month mask followed by the day mask equals one mask by the conjunction of the two selector conditions |
| Filter.FilterIdempotent | bikeshare_b.py:84-98 | filtering the result again with the same selectors returns the same result |
| Filter.FilterDayCaseInsensitive | bikeshare_b.py:94-96 | a day selector other than the sentinel filters the same as its lower-case form, because the code compares against its title form |
| Filter.CapitalisedMonthFails | bikeshare_b.py:85-88 | "January" passes the month prompt yet makes `load_data` fail |
| Filter.FilterSucceedsIffLowerAccepted | bikeshare_b.py:85-88 | the filter succeeds exactly for month selectors that the prompt accepts and that are already in lower case |
| Filter.FilterPreservesValidity | bikeshare_b.py:84-98 | a filtered frame still satisfies the per-row guarantees of the derived columns and the city's schema |
| Filter.NonWeekdaySelectsNothing | bikeshare_b.py:94-96 | a day selector whose title form is no weekday name leaves no record of a well-formed frame |
| Filter.UpperCaseAllDaySelectsNothing | bikeshare_b.py:94-96 | day "ALL" is accepted but, not being the sentinel, empties the frame |
| Filter.MisspeltDaySelectsNothing | bikeshare_b.py:94-96 | day "wednesay" is accepted but empties the frame |
| Seqs.Select | bikeshare_b.py:91 | a boolean-mask selection keeps the order of its input, holds exactly the input's occurrences of the values that pass, holds only passing values, and keeps an all-passing frame unchanged |
| Seqs.SelectSelect | bikeshare_b.py:91-96 | two masks applied in turn equal one mask by their conjunction |
| Seqs.SelectSame | bikeshare_b.py:91-96 | masks that agree on every record select the same rows |
| Seqs.IndexOf | bikeshare_b.py:88 | `list.index`: absent exactly when the value is not in the list; otherwise the position of the value's first occurrence |
| Seqs.Present | bikeshare_b.py:170 | dropping NaN cells keeps every non-missing value exactly as often as it occurs, so the result's length is the column length minus the number of missing cells |
| Frequency.Mode | bikeshare_b.py:108 | `mode()[0]` on a non-empty column: a value of the column that no other value outnumbers, and the smallest of those that tie with it |
| Frequency.ModeUnique | bikeshare_b.py:108 | the tie-break leaves no choice: two values that both satisfy the mode property are equal |
| Frequency.ModeOfRepeat | bikeshare_b.py:108 | a column holding one value twice has that value as its mode |
| Frequency.ModeOfTie | bikeshare_b.py:114 | two values seen once each tie, and the smaller one is the mode in either row order |
| Frequency.Min | bikeshare_b.py:175 | the first of the ascending sort: a value of the column, no larger than any other |
| Frequency.Max | bikeshare_b.py:176 | the first of the descending sort: a value of the column, no smaller than any other |
| Frequency.Tally | bikeshare_b.py:166 | `value_counts`: one entry per distinct value, each holding that value's number of occurrences (at least one), the values being exactly those of the column and the counts adding up to the column length |
| Frequency.CountAtMostLength | bikeshare_b.py:136 | no group can be larger than the frame it was taken from |
| Orders.StringLessIsStrictTotal | bikeshare_b.py:111 | the lexicographic order the string modes are sorted by is irreflexive, transitive and total |
| Stats.TimeStats | bikeshare_b.py:107-115 | on a non-empty frame, the mode of the month, weekday and hour columns under the smallest-wins tie rule; on an empty frame, the `NoData` error |
| Stats.RouteLessIsStrictTotal | bikeshare_b.py:136 | routes are totally ordered by start station, then by end station |
| Stats.StationStats | bikeshare_b.py:127-137 | on a non-empty frame, the modes of the start and end station columns, and a route that occurs in the frame with its trip count, no route occurring more often; on an empty frame, the `NoData` error |
| Stats.TripDurationStats | bikeshare_b.py:149-154 | the total of the duration column, and a mean present exactly on a non-empty frame that, multiplied by the number of trips, gives the total |
| Stats.TotalDurationAppend | bikeshare_b.py:150 | the total over two frames put together is the sum of their totals |
| Stats.TotalDurationSplits | bikeshare_b.py:150 | the trips a mask keeps and the trips it drops account for the whole total |
| Stats.TotalDurationBounds | bikeshare_b.py:150 | when every trip lasts between `lo` and `hi`, the total lies between `n*lo` and `n*hi` |
| Stats.MeanWithinRange | bikeshare_b.py:153 | the mean lies between the shortest and the longest trip duration |
| Stats.QuotientBounds | bikeshare_b.py:153 | a total between `n*lo` and `n*hi` gives a mean between `lo` and `hi` |
| Stats.UserStats | bikeshare_b.py:165-180 | the user-type counts always, one entry per user type present with its number of trips; exactly when the city has the column, the gender counts, one entry per gender present (missing cells excluded) with its number of trips; earliest, most recent and most common year among the rows that have one, exactly when the city has the column; fails exactly when the column exists but holds no year |
| Stats.CommonYearBetweenExtremes | bikeshare_b.py:174-180 | the most common year of birth lies between the earliest and the most recent |
| Session.RunSession | bikeshare_b.py:186-194 | a filter error exactly for an unknown month; success exactly when the filter succeeds, leaves at least one trip and, in a city with birth years, leaves at least one year; a successful report holds exactly the four reports computed on the filtered frame, among them its month mode, total duration and a user-type table covering every trip |
| Session.UpperCaseAllDayFails | bikeshare_b.py:186-194 | with day "ALL", every run over a well-formed frame ends in an error |
| Session.MisspeltDayFails | bikeshare_b.py:186-194 | with day "wednesay", every run over a well-formed frame ends in an error |
| Session.AllAllReportsWholeFrame | bikeshare_b.py:186-194 | "all"/"all" over a non-empty frame, in which at least one trip has a birth year if the city has the column, succeeds with the four reports computed on the whole frame |
| Scenario.JanuaryFilter | bikeshare_b.py:84-98 | of three trips, filtering to "january" keeps the two January trips in order |
| Scenario.JanuaryTimes | bikeshare_b.py:107-115 | those two trips report month 1 and "Monday", and hour 8 wins its tie with hour 9 |
| Scenario.JanuaryStations | bikeshare_b.py:127-137 | start station "A"; end station "B" wins its tie with "C"; the route A to B with one trip |
| Scenario.JanuaryDurations | bikeshare_b.py:149-154 | a total of 420 seconds and a mean of 210 |
| Scenario.JanuaryUsers | bikeshare_b.py:165-167 | one "Subscriber" and one "Customer" |

## Left out

- Console I/O: the prompt loops of `get_filters`, the report printing, and the restart question in `main`. The prompts are modelled only through their acceptance tests.
- The timing of each report, `time.time()`: it only affects printed text.
- Reading the city's CSV file, the `CITY_DATA` lookup and the derivation of `month`, `day_of_week` and `hour` from `Start Time`. The frame is an input already holding those columns, and `ValidRecord` states what the derivation guarantees. The city selector therefore has no effect on the model, and the KeyError `CITY_DATA[city]` would raise for an accepted but capitalised city such as "Chicago" is not modelled.
- Text: `lower` and `title` are modelled on ASCII letters only. Python's Unicode case mapping is not modelled.
- Frequency.Tally: `value_counts` lists its rows by descending count. The model lists them in order of first occurrence, and the contract does not state the row order.
- Stats.UserStats: the gender and user-type tables inherit that weaker statement about order.
- Stats.StationStats: the contract states that the top route is one that no other route outnumbers. It does not say which of several equally frequent routes comes first, because the descending sort the script uses does not fix that order.
- Stats.TripDurationStats: the mean is an exact rational, not a float. Durations are whole seconds (`nat`), and birth years are integers rather than floats with NaN.
- The unused imports (`numpy`, `csv`, `pprint`, `datetime`, `calendar`, `scipy`, `itertools`) play no part in the behaviour.
