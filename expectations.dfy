/** The concrete expectations of the presence analyzer's test suite, stated
    against the model. Where the expected values depend on the test data
    file (user 10), they are stated as implications between expectations:
    the start and end buckets the suite expects determine the grouping it
    expects, and that grouping determines the three view results it
    expects. */
module TestExpectations {
  import opened Calendar
  import opened TimeArith
  import opened Aggregator
  import opened Grouping
  import opened Views

  /** The start, end and interval buckets expected for user 10. */
  const ExpectedStart: Buckets := [[], [34745], [33592], [38926], [], [], []]
  const ExpectedEnd: Buckets := [[], [64792], [58057], [62631], [], [], []]
  const ExpectedGrouped: Buckets := [[], [30047], [24465], [23705], [], [], []]

  /** The view results expected for user 10. */
  const ExpectedMeanRows: seq<MeanRow> := [
    MeanRow("Mon", Int(0)), MeanRow("Tue", Real(30047.0)), MeanRow("Wed", Real(24465.0)),
    MeanRow("Thu", Real(23705.0)), MeanRow("Fri", Int(0)), MeanRow("Sat", Int(0)), MeanRow("Sun", Int(0))]
  const ExpectedPresenceRows: seq<PresenceRow> := [
    Header("Weekday", "Presence (s)"),
    Total("Mon", 0), Total("Tue", 30047), Total("Wed", 24465), Total("Thu", 23705),
    Total("Fri", 0), Total("Sat", 0), Total("Sun", 0)]
  const ExpectedAverageRows: seq<AverageRow> := [
    AverageRow("Mon", Int(0), Int(0)),
    AverageRow("Tue", Real(34745000.0), Real(64792000.0)),
    AverageRow("Wed", Real(33592000.0), Real(58057000.0)),
    AverageRow("Thu", Real(38926000.0), Real(62631000.0)),
    AverageRow("Fri", Int(0), Int(0)), AverageRow("Sat", Int(0), Int(0)), AverageRow("Sun", Int(0), Int(0))]

  /** Two lists of seven agreeing at every position are equal. */
  lemma SevenEqual<T>(a: seq<T>, b: seq<T>)
    requires |a| == 7 && |b| == 7
    requires a[0] == b[0] && a[1] == b[1] && a[2] == b[2] && a[3] == b[3]
    requires a[4] == b[4] && a[5] == b[5] && a[6] == b[6]
    ensures a == b
  {
  }

  lemma SecondsSinceMidnightExamples()
    ensures SecondsSinceMidnight(DateTime(Date(2014, 1, 1), Time(0, 0, 1))) == 1
    ensures SecondsSinceMidnight(DateTime(Date(2014, 1, 1), Time(15, 57, 44))) == 57464
  {
  }

  lemma IntervalExample()
    ensures Interval(DateTime(Date(2014, 1, 1), Time(0, 0, 1)), DateTime(Date(2014, 1, 1), Time(0, 0, 2))) == 1
  {
  }

  lemma MeanExamples()
    ensures Mean([]) == Int(0)
    ensures Mean([1.0, 2.0]) == Real(1.5)
    ensures Mean([1.5, 2.8]) == Real(2.15)
  {
    assert Sum([1.0, 2.0]) == 3.0;
    assert Sum([1.5, 2.8]) == 4.3;
  }

  /** Day 1 of the ordinal count is 0001-01-01, a Monday. */
  lemma DayOneIsMonday()
    ensures Ordinal(Date(1, 1, 1)) == 1 && WeekdayOf(Date(1, 1, 1)) == 0
  {
    assert DaysBeforeYear(1) == 0;
    assert DaysBeforeMonth(1, 1) == 0;
    var n := Ordinal(Date(1, 1, 1));
    assert n == 1;
    assert WeekdayOf(Date(1, 1, 1)) == (n + 6) % 7;
    ModOfMultiple(n + 6, 1);
  }

  lemma ModOfMultiple(a: int, q: int)
    requires a == 7 * q
    ensures a % 7 == 0
  {
  }

  /** The sample date 2013-09-10 of user 10 is a Tuesday, the first
      populated bucket. */
  lemma SampleDateIsTuesday()
    ensures WeekdayOf(Date(2013, 9, 10)) == 1
  {
    assert DaysBeforeYear(2013) == 734868 by {
      assert 2012 / 4 == 503 && 2012 / 100 == 20 && 2012 / 400 == 5;
    }
    assert Ordinal(Date(2013, 9, 10)) == 735121;
  }

  /** The date of the timestamp examples, 2014-01-01, is a Wednesday. */
  lemma NewYear2014IsWednesday()
    ensures WeekdayOf(Date(2014, 1, 1)) == 2
  {
    assert DaysBeforeYear(2014) == 735233 by {
      assert 2013 / 4 == 503 && 2013 / 100 == 20 && 2013 / 400 == 5;
    }
    assert Ordinal(Date(2014, 1, 1)) == 735234;
  }

  /** A log holding the sample record of 2013-09-10, starting 09:39:05,
      has 34745 in its Tuesday start bucket, as expected. */
  lemma {:induction false} SampleRecordLandsOnTuesday(log: DayLog, i: nat)
    requires i < |log| && log[i].date == Date(2013, 9, 10) && log[i].times.start == Time(9, 39, 5)
    ensures 34745 in StartEndDateByWeekday(log).start[1]
  {
    SampleDateIsTuesday();
    SelectContains(log, StartSeconds, i);
  }

  /** End minus start over the expected start and end buckets gives the
      expected intervals. */
  lemma ExpectedDifferences()
    ensures Differences(StartEnd(ExpectedStart, ExpectedEnd)) == ExpectedGrouped
  {
    var d := Differences(StartEnd(ExpectedStart, ExpectedEnd));
    assert d[0] == [] && d[4] == [] && d[5] == [] && d[6] == [];
    assert d[1] == [30047] && d[2] == [24465] && d[3] == [23705];
    SevenEqual(d, ExpectedGrouped);
  }

  /** The start and end buckets expected for user 10 force the grouped
      intervals expected for user 10. */
  lemma {:induction false} GroupingFollowsFromStartEnd(log: DayLog)
    requires StartEndDateByWeekday(log) == StartEnd(ExpectedStart, ExpectedEnd)
    ensures GroupByWeekday(log) == ExpectedGrouped
  {
    GroupingIsEndMinusStart(log);
    ExpectedDifferences();
  }

  /** The mean of no value is the integer 0, that of one value is the value. */
  lemma MeanOfAtMostOne(xs: seq<int>)
    requires |xs| <= 1
    ensures Mean(ToReals(xs)) == if xs == [] then Int(0) else Real(xs[0] as real)
  {
    if xs != [] {
      var x := xs[0] as real;
      assert ToReals(xs) == [x];
      assert [x][1..] == [];
      assert Sum([x]) == x;
    }
  }

  /** The sum of no value is 0, that of one value is the value. */
  lemma SumOfAtMostOne(xs: seq<int>)
    requires |xs| <= 1
    ensures IntSum(xs) == if xs == [] then 0 else xs[0]
  {
    if xs != [] {
      assert xs[1..] == [];
    }
  }

  lemma ExpectedMeans()
    ensures MeanRows(ExpectedGrouped) == ExpectedMeanRows
  {
    var rows := MeanRows(ExpectedGrouped);
    MeanOfAtMostOne([]);
    MeanOfAtMostOne([30047]);
    MeanOfAtMostOne([24465]);
    MeanOfAtMostOne([23705]);
    assert rows[0] == ExpectedMeanRows[0] && rows[1] == ExpectedMeanRows[1];
    assert rows[2] == ExpectedMeanRows[2] && rows[3] == ExpectedMeanRows[3];
    assert rows[4] == ExpectedMeanRows[4] && rows[5] == ExpectedMeanRows[5] && rows[6] == ExpectedMeanRows[6];
    SevenEqual(rows, ExpectedMeanRows);
  }

  /** The grouping expected for user 10 gives the mean-time-weekday result
      expected for user 10. */
  lemma {:induction false} MeanViewFollowsFromGrouping(data: PresenceIndex)
    requires 10 in data && GroupByWeekday(data[10]) == ExpectedGrouped
    ensures MeanTimeWeekday(data, 10) == Found(ExpectedMeanRows)
  {
    ExpectedMeans();
  }

  lemma ExpectedTotals()
    ensures PresenceRows(ExpectedGrouped) == ExpectedPresenceRows
  {
    var rows := PresenceRows(ExpectedGrouped);
    SumOfAtMostOne([]);
    SumOfAtMostOne([30047]);
    SumOfAtMostOne([24465]);
    SumOfAtMostOne([23705]);
    assert rows[1] == ExpectedPresenceRows[1] && rows[2] == ExpectedPresenceRows[2];
    assert rows[3] == ExpectedPresenceRows[3] && rows[4] == ExpectedPresenceRows[4];
    assert rows[5] == ExpectedPresenceRows[5] && rows[6] == ExpectedPresenceRows[6] && rows[7] == ExpectedPresenceRows[7];
    assert rows == [rows[0]] + rows[1..] && ExpectedPresenceRows == [ExpectedPresenceRows[0]] + ExpectedPresenceRows[1..];
    SevenEqual(rows[1..], ExpectedPresenceRows[1..]);
  }

  /** The grouping expected for user 10 gives the presence-weekday result
      expected for user 10. */
  lemma {:induction false} PresenceViewFollowsFromGrouping(data: PresenceIndex)
    requires 10 in data && GroupByWeekday(data[10]) == ExpectedGrouped
    ensures PresenceWeekday(data, 10) == Found(ExpectedPresenceRows)
  {
    ExpectedTotals();
  }

  lemma ExpectedAverages()
    ensures AverageRows(StartEnd(ExpectedStart, ExpectedEnd)) == ExpectedAverageRows
  {
    var rows := AverageRows(StartEnd(ExpectedStart, ExpectedEnd));
    MeanOfAtMostOne([]);
    MeanOfAtMostOne([34745]);
    MeanOfAtMostOne([33592]);
    MeanOfAtMostOne([38926]);
    MeanOfAtMostOne([64792]);
    MeanOfAtMostOne([58057]);
    MeanOfAtMostOne([62631]);
    assert rows[0] == ExpectedAverageRows[0] && rows[1] == ExpectedAverageRows[1];
    assert rows[2] == ExpectedAverageRows[2] && rows[3] == ExpectedAverageRows[3];
    assert rows[4] == ExpectedAverageRows[4] && rows[5] == ExpectedAverageRows[5] && rows[6] == ExpectedAverageRows[6];
    SevenEqual(rows, ExpectedAverageRows);
  }

  /** The start and end buckets expected for user 10 give the
      user-available-average result expected for user 10. */
  lemma {:induction false} AverageViewFollowsFromStartEnd(data: PresenceIndex)
    requires 10 in data && StartEndDateByWeekday(data[10]) == StartEnd(ExpectedStart, ExpectedEnd)
    ensures UserAvailableAverage(data, 10) == Found(ExpectedAverageRows)
  {
    ExpectedAverages();
  }

  /** A user id absent from the data, such as 0, is not found by any of the
      three views. */
  lemma AbsentUserNotFound(data: PresenceIndex)
    requires 0 !in data
    ensures MeanTimeWeekday(data, 0) == NotFound
    ensures PresenceWeekday(data, 0) == NotFound
    ensures UserAvailableAverage(data, 0) == NotFound
  {
  }
}
