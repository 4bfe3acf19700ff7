/** Weekday grouping of the presence utilities: one user's date ->
    {start, end} mapping turned into seven weekday buckets (index 0 =
    Monday), each holding one measure per date that falls on that weekday,
    in the mapping's iteration order. */
module Grouping {
  import opened Calendar
  import opened TimeArith
  import opened Aggregator

  /** The {start, end} record kept for one user on one date. */
  datatype Presence = Presence(start: ClockTime, end: ClockTime)

  /** One key/value pair of a user's date -> {start, end} mapping. */
  datatype DayEntry = DayEntry(date: CalendarDate, times: Presence)

  /** One user's date -> {start, end} mapping, listed in iteration order. */
  type DayLog = seq<DayEntry>

  /** Seven buckets of seconds, Monday first. */
  type Buckets = seq<seq<int>>

  function StartSeconds(e: DayEntry): int {
    SecondsSinceMidnight(TimeOnly(e.times.start))
  }

  function EndSeconds(e: DayEntry): int {
    SecondsSinceMidnight(TimeOnly(e.times.end))
  }

  function EntryInterval(e: DayEntry): int {
    Interval(TimeOnly(e.times.start), TimeOnly(e.times.end))
  }

  /** Reference definition of one bucket: the measures of the entries dated
      on weekday `w`, in log order. */
  function Select(log: DayLog, measure: DayEntry -> int, w: Weekday): seq<int> {
    if log == [] then []
    else (if WeekdayOf(log[0].date) == w then [measure(log[0])] else []) + Select(log[1..], measure, w)
  }

  /** No entry of the log is dated on weekday `w`. */
  predicate NoDateOn(log: DayLog, w: Weekday) {
    forall i :: 0 <= i < |log| ==> WeekdayOf(log[i].date) != w
  }

  /** The seven empty buckets grouping starts from. */
  function EmptyBuckets(): (b: Buckets)
    ensures |b| == 7
    ensures forall w :: 0 <= w < 7 ==> b[w] == []
  {
    seq(7, _ => [])
  }

  /** The grouping fold: each entry's measure is appended to the bucket of
      its date's weekday. Bucket `w` ends up holding exactly the measures of
      the entries dated on weekday `w`, in log order. */
  function GroupBy(log: DayLog, measure: DayEntry -> int): (b: Buckets)
    ensures |b| == 7
    ensures forall w :: 0 <= w < 7 ==> b[w] == Select(log, measure, w)
  {
    if log == [] then EmptyBuckets()
    else
      var n := |log| - 1;
      var e := log[n];
      var prior := GroupBy(log[..n], measure);
      var w := WeekdayOf(e.date);
      assert log == log[..n] + [e];
      SelectSnoc(log[..n], e, measure);
      prior[w := prior[w] + [measure(e)]]
  }

  lemma {:induction false} SelectSnoc(log: DayLog, e: DayEntry, measure: DayEntry -> int)
    ensures forall w :: 0 <= w < 7 ==>
      Select(log + [e], measure, w)
        == Select(log, measure, w) + (if WeekdayOf(e.date) == w then [measure(e)] else [])
  {
    if log != [] {
      assert (log + [e])[1..] == log[1..] + [e];
      SelectSnoc(log[1..], e, measure);
    }
  }

  /** The seven buckets of daily presence intervals. */
  function GroupByWeekday(log: DayLog): (b: Buckets)
    ensures |b| == 7
    ensures forall w :: 0 <= w < 7 ==> b[w] == Select(log, EntryInterval, w)
  {
    GroupBy(log, EntryInterval)
  }

  /** The two groupings keyed `start` and `end`: exactly these two, as fields. */
  datatype StartEnd = StartEnd(start: Buckets, end: Buckets)

  /** Seven buckets of arrival seconds and seven of leaving seconds. */
  function StartEndDateByWeekday(log: DayLog): (r: StartEnd)
    ensures |r.start| == 7 && |r.end| == 7
    ensures forall w :: 0 <= w < 7 ==>
      r.start[w] == Select(log, StartSeconds, w) && r.end[w] == Select(log, EndSeconds, w)
  {
    StartEnd(GroupBy(log, StartSeconds), GroupBy(log, EndSeconds))
  }

  /** A bucket is empty exactly when no entry of the log falls on its weekday. */
  lemma {:induction false} SelectEmpty(log: DayLog, measure: DayEntry -> int, w: Weekday)
    ensures Select(log, measure, w) == [] <==> NoDateOn(log, w)
  {
    if log != [] {
      SelectEmpty(log[1..], measure, w);
      assert forall i :: 1 <= i < |log| ==> log[i] == log[1..][i - 1];
    }
  }

  /** Every entry's measure is found in the bucket of its weekday. */
  lemma {:induction false} SelectContains(log: DayLog, measure: DayEntry -> int, i: nat)
    requires i < |log|
    ensures measure(log[i]) in Select(log, measure, WeekdayOf(log[i].date))
  {
    if i > 0 {
      SelectContains(log[1..], measure, i - 1);
    }
  }

  /** The start, end and interval groupings line up position by position,
      and at each position end minus start is the interval. */
  lemma {:induction false} SelectAligned(log: DayLog, w: Weekday)
    ensures |Select(log, StartSeconds, w)| == |Select(log, EntryInterval, w)|
    ensures |Select(log, EndSeconds, w)| == |Select(log, EntryInterval, w)|
    ensures forall j :: 0 <= j < |Select(log, EntryInterval, w)| ==>
      Select(log, EndSeconds, w)[j] - Select(log, StartSeconds, w)[j] == Select(log, EntryInterval, w)[j]
  {
    if log != [] {
      SelectAligned(log[1..], w);
    }
  }

  /** The buckets of start_end_date_by_weekday line up with those of
      group_by_weekday: same shape, and end minus start is the interval. */
  lemma {:induction false} StartEndMatchesGrouping(log: DayLog)
    ensures var g, se := GroupByWeekday(log), StartEndDateByWeekday(log);
      forall w :: 0 <= w < 7 ==>
        |se.start[w]| == |g[w]| && |se.end[w]| == |g[w]|
        && forall j :: 0 <= j < |g[w]| ==> se.end[w][j] - se.start[w][j] == g[w][j]
  {
    forall w | 0 <= w < 7 {
      SelectAligned(log, w);
    }
  }

  /** Position by position, end seconds minus start seconds. */
  function Differences(se: StartEnd): (d: Buckets)
    requires |se.start| == 7 && |se.end| == 7
    requires forall w :: 0 <= w < 7 ==> |se.start[w]| == |se.end[w]|
    ensures |d| == 7
  {
    seq(7, w requires 0 <= w < 7 =>
      seq(|se.start[w]|, j requires 0 <= j < |se.start[w]| => se.end[w][j] - se.start[w][j]))
  }

  /** group_by_weekday is determined by start_end_date_by_weekday: its
      buckets are the end buckets minus the start buckets. */
  lemma {:induction false} GroupingIsEndMinusStart(log: DayLog)
    ensures var se := StartEndDateByWeekday(log);
      (forall w :: 0 <= w < 7 ==> |se.start[w]| == |se.end[w]|)
      && GroupByWeekday(log) == Differences(se)
  {
    var g, se := GroupByWeekday(log), StartEndDateByWeekday(log);
    StartEndMatchesGrouping(log);
    forall w | 0 <= w < 7
      ensures g[w] == Differences(se)[w]
    {
    }
  }

  /** A weekday bucket of group_by_weekday stays empty exactly when no date
      of the log falls on that weekday. */
  lemma {:induction false} EmptyBucketIffNoDate(log: DayLog, w: Weekday)
    ensures GroupByWeekday(log)[w] == [] <==> NoDateOn(log, w)
  {
    SelectEmpty(log, EntryInterval, w);
  }

  /** Each date's interval lands in the bucket at that date's weekday. */
  lemma {:induction false} IntervalFiled(log: DayLog, i: nat)
    requires i < |log|
    ensures EntryInterval(log[i]) in GroupByWeekday(log)[WeekdayOf(log[i].date)]
  {
    SelectContains(log, EntryInterval, i);
  }

  /** Every single measure of a log within bounds keeps each bucket within them. */
  lemma {:induction false} SelectWithin(log: DayLog, measure: DayEntry -> int, w: Weekday, lo: int, hi: int)
    requires forall i :: 0 <= i < |log| ==> lo <= measure(log[i]) <= hi
    ensures forall j :: 0 <= j < |Select(log, measure, w)| ==> lo <= Select(log, measure, w)[j] <= hi
  {
    if log != [] {
      SelectWithin(log[1..], measure, w, lo, hi);
    }
  }

  /** Sum of the bucket sizes. */
  function TotalSize(b: Buckets): nat {
    if b == [] then 0 else |b[0]| + TotalSize(b[1..])
  }

  /** Sum of all the seconds in all the buckets. */
  function TotalSeconds(b: Buckets): int {
    if b == [] then 0 else IntSum(b[0]) + TotalSeconds(b[1..])
  }

  /** Over seven buckets, TotalSeconds is the sum of the seven bucket sums. */
  lemma SevenBucketSeconds(b: Buckets)
    requires |b| == 7
    ensures TotalSeconds(b) == IntSum(b[0]) + IntSum(b[1]) + IntSum(b[2]) + IntSum(b[3])
      + IntSum(b[4]) + IntSum(b[5]) + IntSum(b[6])
  {
    var b1 := b[1..];
    var b2 := b1[1..];
    var b3 := b2[1..];
    var b4 := b3[1..];
    var b5 := b4[1..];
    var b6 := b5[1..];
    var b7 := b6[1..];
    assert b7 == [];
    assert TotalSeconds(b6) == IntSum(b[6]);
    assert TotalSeconds(b5) == IntSum(b[5]) + IntSum(b[6]);
    assert TotalSeconds(b4) == IntSum(b[4]) + TotalSeconds(b5);
    assert TotalSeconds(b3) == IntSum(b[3]) + TotalSeconds(b4);
    assert TotalSeconds(b2) == IntSum(b[2]) + TotalSeconds(b3);
    assert TotalSeconds(b1) == IntSum(b[1]) + TotalSeconds(b2);
  }

  /** The measures of the whole log, in order. */
  function Measures(log: DayLog, measure: DayEntry -> int): (xs: seq<int>)
    ensures |xs| == |log|
    ensures forall i :: 0 <= i < |log| ==> xs[i] == measure(log[i])
  {
    seq(|log|, i requires 0 <= i < |log| => measure(log[i]))
  }

  lemma {:induction false} IntSumSnoc(xs: seq<int>, x: int)
    ensures IntSum(xs + [x]) == IntSum(xs) + x
  {
    if xs != [] {
      assert (xs + [x])[1..] == xs[1..] + [x];
      IntSumSnoc(xs[1..], x);
    }
  }

  lemma {:induction false} AppendToBucket(b: Buckets, w: nat, x: int)
    requires w < |b|
    ensures TotalSize(b[w := b[w] + [x]]) == TotalSize(b) + 1
    ensures TotalSeconds(b[w := b[w] + [x]]) == TotalSeconds(b) + x
  {
    if w == 0 {
      IntSumSnoc(b[0], x);
      assert b[w := b[w] + [x]][1..] == b[1..];
    } else {
      assert b[w := b[w] + [x]][1..] == b[1..][w - 1 := b[w] + [x]];
      AppendToBucket(b[1..], w - 1, x);
    }
  }

  /** Grouping loses and invents nothing: the buckets together hold one
      measure per entry, and their seconds add up to the log's. */
  lemma {:induction false} GroupByConserves(log: DayLog, measure: DayEntry -> int)
    ensures TotalSize(GroupBy(log, measure)) == |log|
    ensures TotalSeconds(GroupBy(log, measure)) == IntSum(Measures(log, measure))
  {
    if log == [] {
      EmptyTotals();
    } else {
      var n := |log| - 1;
      GroupByConserves(log[..n], measure);
      GroupByConservesStep(log, measure);
      MeasuresStep(log, measure);
    }
  }

  lemma EmptyTotals()
    ensures TotalSize(EmptyBuckets()) == 0 && TotalSeconds(EmptyBuckets()) == 0
  {
    var b := EmptyBuckets();
    assert b[1..][1..][1..][1..][1..][1..][1..] == [];
  }

  /** Filing the last entry adds one measure and its seconds. */
  lemma GroupByConservesStep(log: DayLog, measure: DayEntry -> int)
    requires log != []
    ensures var n := |log| - 1;
      TotalSize(GroupBy(log, measure)) == TotalSize(GroupBy(log[..n], measure)) + 1
      && TotalSeconds(GroupBy(log, measure)) == TotalSeconds(GroupBy(log[..n], measure)) + measure(log[n])
  {
    var n := |log| - 1;
    var prior := GroupBy(log[..n], measure);
    var w := WeekdayOf(log[n].date);
    assert GroupBy(log, measure) == prior[w := prior[w] + [measure(log[n])]];
    AppendToBucket(prior, w, measure(log[n]));
  }

  /** The measures of a log end with the measure of its last entry. */
  lemma MeasuresStep(log: DayLog, measure: DayEntry -> int)
    requires log != []
    ensures var n := |log| - 1;
      IntSum(Measures(log, measure)) == IntSum(Measures(log[..n], measure)) + measure(log[n])
  {
    var n := |log| - 1;
    assert Measures(log, measure) == Measures(log[..n], measure) + [measure(log[n])];
    IntSumSnoc(Measures(log[..n], measure), measure(log[n]));
  }
}
