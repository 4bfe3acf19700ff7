# Presence analyzer: a verified model of its reporting utilities

The presence analyzer reads, for each user, one arrival time (`start`) and one
leaving time (`end`) per calendar date. It reports per-weekday statistics
through three JSON views. This project models that reporting core in Dafny:

- `seconds_since_midnight` and `interval` (module `TimeArith`);
- `mean`, whose result is the integer 0 for an empty list and a float
  otherwise, modelled by the tagged `Number = Int | Real` (module `Aggregator`);
- `group_by_weekday` and `start_end_date_by_weekday`, which file one user's
  date → {start, end} records into seven buckets, Monday first (module
  `Grouping`);
- the data shaping of the `mean_time_weekday`, `presence_weekday` and
  `user_available_average` views, each of which answers "not found" for a user
  id absent from the data (module `Views`);
- the calendar the weekday comes from: proleptic Gregorian dates counted by
  ordinal from 0001-01-01 (day 1), with `weekday = (ordinal + 6) % 7`, so that
  Monday is 0, as in Python's `datetime.date.weekday` (module `Calendar`);
- the concrete expectations of the test suite (module `TestExpectations`).

The implementation of `presence_analyzer.utils` and `presence_analyzer.main` is
not part of this model. Their behaviour is taken from the assertions of
`src/presence_analyzer/tests.py`. The fixture file `test_data.csv` is not part
of this model either. Its expectations for user 10 are therefore proved as
implications: the expected start and end buckets force the expected grouping,
and the expected grouping and buckets force the three expected view results.

A user's date → {start, end} dictionary is a `DayLog`: a sequence of
`DayEntry(date, Presence(start, end))` in the dictionary's iteration order.
Bucket contents are listed in that order.

## Model

| member | source | states |
|---|---|---|
| Calendar.YearLength | src/presence_analyzer/tests.py:150 | a Gregorian year has 366 days exactly when it is a leap year, otherwise 365 |
| Calendar.NextDayOrdinal | src/presence_analyzer/tests.py:150 | the day after a date has the next ordinal, across month and year ends |
| Calendar.NextDay | src/presence_analyzer/tests.py:150 | the day after a date stays in its year, or is January 1 of the next |
| Calendar.Ordinal | src/presence_analyzer/tests.py:158-165 | a date's ordinal is at least 1 and falls after all the days of the years before its year and within the days of its own year |
| Calendar.WeekdayOf | src/presence_analyzer/tests.py:158-165 | the weekday index w of a date, Monday = 0, is such that the ordinal minus w is a Monday (an ordinal of remainder 1 modulo 7); DayOneIsMonday, SampleDateIsTuesday and WeekdayAdvances fix it further |
| Calendar.WeekdayAdvances | src/presence_analyzer/tests.py:158-165 | the weekday index of the next day is one more, modulo 7 |
| TimeArith.SecondsSinceMidnight | src/presence_analyzer/tests.py:167-196 | the seconds lie in one day; hour, minute and second read back as n/3600, n/60%60 and n%60 |
| TimeArith.ClockOf | src/presence_analyzer/tests.py:167-196 | the clock time built from n seconds has exactly n seconds since midnight |
| TimeArith.ClockRoundTrip | src/presence_analyzer/tests.py:167-196 | seconds since midnight followed by ClockOf gives back the clock time |
| TimeArith.DateIgnored | src/presence_analyzer/tests.py:171-183 | the date part of a timestamp does not change its seconds since midnight |
| TimeArith.Interval | src/presence_analyzer/tests.py:198-222 | start seconds plus the interval give end seconds; it lies strictly within one day; it is non-negative exactly when the start clock is not later than the end clock |
| TimeArith.IntervalChain | src/presence_analyzer/tests.py:198-222 | intervals compose end to end, reverse by negation and are 0 from a time to itself |
| Aggregator.Mean | src/presence_analyzer/tests.py:224-230 | the integer 0 exactly for the empty list; otherwise a real that, times the length, is the sum |
| Aggregator.MeanOfInts | src/presence_analyzer/tests.py:224-230 | the mean of integers taken as reals is their mean: 0 when none, else a real whose length multiple is their integer sum |
| Aggregator.MeanBounds | src/presence_analyzer/tests.py:224-230 | the mean of a non-empty list lies between any bounds of its elements |
| Aggregator.MeanOfDifferences | src/presence_analyzer/tests.py:232-242 | the mean of element-wise differences is the difference of the means |
| Aggregator.ScaledMeanOfInts | src/presence_analyzer/tests.py:115-121 | the mean of integers scaled by k is k times their mean: the integer 0 when there are none, else a real whose length multiple is k times their sum |
| Aggregator.Scale | src/presence_analyzer/tests.py:115-121 | scaling keeps an integer integer and a real real, and multiplies the value |
| Grouping.GroupBy | src/presence_analyzer/tests.py:158-165 | seven buckets; bucket w holds the measures of exactly the entries dated on weekday w, in log order |
| Grouping.GroupByWeekday | src/presence_analyzer/tests.py:158-165 | seven buckets; bucket w holds the intervals of exactly the entries dated on weekday w |
| Grouping.StartEndDateByWeekday | src/presence_analyzer/tests.py:232-242 | a start and an end part of seven buckets each, holding the start and end seconds of the entries of each weekday |
| Grouping.SelectEmpty | src/presence_analyzer/tests.py:158-165 | a weekday's selection is empty exactly when no entry is dated on that weekday |
| Grouping.SelectContains | src/presence_analyzer/tests.py:158-165 | each entry's measure is in its own weekday's selection |
| Grouping.SelectAligned | src/presence_analyzer/tests.py:232-242 | the start, end and interval selections of a weekday have one length, and end minus start is the interval at each position |
| Grouping.StartEndMatchesGrouping | src/presence_analyzer/tests.py:232-242 | start and end buckets line up with the grouped buckets, end[w][j] - start[w][j] == grouped[w][j] |
| Grouping.Differences | src/presence_analyzer/tests.py:239-240 | seven buckets; a reference definition, given by its body, of element-wise end minus start, which GroupingIsEndMinusStart relates to the grouping |
| Grouping.GroupingIsEndMinusStart | src/presence_analyzer/tests.py:232-242 | the grouping equals the element-wise difference of the end and start buckets |
| Grouping.EmptyBucketIffNoDate | src/presence_analyzer/tests.py:158-165 | a weekday's bucket is empty exactly when the user has no date on that weekday |
| Grouping.IntervalFiled | src/presence_analyzer/tests.py:158-165 | every entry's interval is in the bucket of its date's weekday |
| Grouping.SelectWithin | src/presence_analyzer/tests.py:158-165 | bounds on every entry's measure bound every value of a selection |
| Grouping.SevenBucketSeconds | src/presence_analyzer/tests.py:93-99 | the seconds of seven buckets are the sum of the seven bucket sums |
| Grouping.GroupByConserves | src/presence_analyzer/tests.py:158-165 | grouping loses and invents nothing: one bucket value per entry, and the seconds add up to the whole log's |
| Views.MeanRows | src/presence_analyzer/tests.py:69-77 | seven rows labelled Mon to Sun |
| Views.MeanTimeWeekday | src/presence_analyzer/tests.py:58-78 | not found exactly for an absent user; otherwise seven rows labelled Mon to Sun |
| Views.MeanRowMeaning | src/presence_analyzer/tests.py:65-77 | each row holds the mean of that weekday's intervals, and it is the integer 0 exactly when the user has no date on that weekday |
| Views.PresenceRows | src/presence_analyzer/tests.py:91-100 | the header row, then seven total rows labelled Mon to Sun |
| Views.PresenceWeekday | src/presence_analyzer/tests.py:80-101 | not found exactly for an absent user; otherwise the header `Weekday`, `Presence (s)` and seven total rows labelled Mon to Sun |
| Views.PresenceRowMeaning | src/presence_analyzer/tests.py:87-100 | each total is the sum of that weekday's intervals, and 0 when the user has no date on it |
| Views.PresenceTotalsAddUp | src/presence_analyzer/tests.py:87-100 | the seven totals add up to the user's whole presence |
| Views.AverageRows | src/presence_analyzer/tests.py:114-122 | seven rows labelled Mon to Sun; the values of their columns are stated for the view by AverageRowValues |
| Views.UserAvailableAverage | src/presence_analyzer/tests.py:103-123 | not found exactly for an absent user; otherwise seven rows labelled Mon to Sun, whose columns AverageRowValues and AverageRowMeaning state |
| Views.AverageRowValues | src/presence_analyzer/tests.py:110-123 | a weekday's start column is 1000 times the mean of that weekday's start seconds and its end column 1000 times the mean of its end seconds, in the sense of IsScaledMeanOf: the integer 0 when there are none, otherwise a real that, taken once per record, gives 1000 times their sum |
| Views.AverageRowMeaning | src/presence_analyzer/tests.py:110-123 | start and end are the integer 0 exactly when the user has no date on that weekday; mean end minus mean start is 1000 times the weekday's mean presence; the mean start is not later than the mean end when no record ends before it starts |
| TestExpectations.SecondsSinceMidnightExamples | src/presence_analyzer/tests.py:167-196 | 2014-01-01 00:00:01 gives 1, and 2014-01-01 15:57:44 gives 57464 |
| TestExpectations.IntervalExample | src/presence_analyzer/tests.py:198-222 | 00:00:01 to 00:00:02 gives 1 |
| TestExpectations.MeanExamples | src/presence_analyzer/tests.py:224-230 | mean of [] is the integer 0, of [1, 2] is 1.5, of [1.5, 2.8] is 2.15 |
| TestExpectations.DayOneIsMonday | src/presence_analyzer/tests.py:70 | 0001-01-01 is ordinal 1 and weekday 0, Monday |
| TestExpectations.SampleDateIsTuesday | src/presence_analyzer/tests.py:150 | 2013-09-10 has weekday index 1, Tuesday |
| TestExpectations.NewYear2014IsWednesday | src/presence_analyzer/tests.py:174-176 | 2014-01-01 has weekday index 2, Wednesday |
| TestExpectations.SampleRecordLandsOnTuesday | src/presence_analyzer/tests.py:150-156 | a log holding the record of 2013-09-10 that starts 09:39:05 has 34745 in its Tuesday start bucket, as line 239 expects |
| TestExpectations.ExpectedDifferences | src/presence_analyzer/tests.py:239-240 | end minus start over the expected buckets gives the expected grouping of line 164 |
| TestExpectations.GroupingFollowsFromStartEnd | src/presence_analyzer/tests.py:162-165 | the expected start and end buckets force the expected grouping |
| TestExpectations.MeanOfAtMostOne | src/presence_analyzer/tests.py:228-229 | the mean of no integer is the integer 0, the mean of one integer is that integer as a real |
| TestExpectations.SumOfAtMostOne | src/presence_analyzer/tests.py:93-99 | the sum of no integer is 0, the sum of one integer is that integer |
| TestExpectations.ExpectedMeans | src/presence_analyzer/tests.py:69-77 | the mean rows of the expected grouping are the expected rows |
| TestExpectations.MeanViewFollowsFromGrouping | src/presence_analyzer/tests.py:65-78 | the expected grouping of user 10 forces the expected mean-time-weekday result |
| TestExpectations.ExpectedTotals | src/presence_analyzer/tests.py:91-100 | the presence rows of the expected grouping are the expected rows |
| TestExpectations.PresenceViewFollowsFromGrouping | src/presence_analyzer/tests.py:87-101 | the expected grouping of user 10 forces the expected presence-weekday result |
| TestExpectations.ExpectedAverages | src/presence_analyzer/tests.py:114-122 | the average rows of the expected start and end buckets are the expected rows |
| TestExpectations.AverageViewFollowsFromStartEnd | src/presence_analyzer/tests.py:110-123 | the expected start and end buckets of user 10 force the expected user-available-average result |
| TestExpectations.AbsentUserNotFound | src/presence_analyzer/tests.py:62-63 | a user id absent from the data, such as 0, is not found by any of the three views (also lines 84-85 and 107-108) |

## Left out

- HTTP routing: the redirect of `/` to `presence_weekday.html`, status codes, the JSON content type and serialisation. A view result is `Found(rows)` or `NotFound` (404).
- `get_data`: opening the CSV file named by the `DATA_CSV` setting, parsing it, and the contents of the fixture. Only the shape of its result is modelled: user id → a `DayLog` whose records have exactly a start and an end time.
- The users listing and its display names (`User 10`): they depend only on the fixture.
- Floating point: means and the 1000 scaling are exact reals. That 2.15 compares equal as a float is not modelled.
- Key uniqueness of the date dictionary: a `DayLog` may list a date twice. No property here needs uniqueness.
- The implementations of the utilities and views: they are modelled from the test suite's assertions alone.
- TestExpectations.MeanViewFollowsFromGrouping: the fixture is not part of this model, so the user-10 results are proved from the expected buckets, not from the fixture itself. The same holds for PresenceViewFollowsFromGrouping, AverageViewFollowsFromStartEnd and GroupingFollowsFromStartEnd.
