/** The data shaping of the three per-user report views: mean presence per
    weekday, total presence per weekday under a header row, and mean arrival
    and leaving times per weekday in milliseconds. Each answers "not found"
    for a user id that is absent from the loaded data; the HTTP status and
    the JSON encoding around these results are not modelled. */
module Views {
  import opened Calendar
  import opened TimeArith
  import opened Aggregator
  import opened Grouping

  type UserId = int

  /** The loaded data: user id -> that user's date -> {start, end} mapping. */
  type PresenceIndex = map<UserId, DayLog>

  /** A view's answer: a body, or the not-found condition. */
  datatype Response<T> = Found(body: T) | NotFound

  /** The fixed three-letter weekday labels, Monday first. */
  const WeekdayLabels: seq<string> := ["Mon", "Tue", "Wed", "Thu", "Fri", "Sat", "Sun"]

  /** One row of the mean-time-weekday view: `[day, mean seconds]`. */
  datatype MeanRow = MeanRow(day: string, mean: Number)

  /** The seven mean rows of a grouping. */
  function MeanRows(g: Buckets): (rows: seq<MeanRow>)
    requires |g| == 7
    ensures |rows| == 7 && forall w :: 0 <= w < 7 ==> rows[w].day == WeekdayLabels[w]
  {
    seq(7, w requires 0 <= w < 7 => MeanRow(WeekdayLabels[w], Mean(ToReals(g[w]))))
  }

  function MeanTimeWeekday(data: PresenceIndex, user: UserId): (r: Response<seq<MeanRow>>)
    ensures r.NotFound? <==> user !in data
    ensures r.Found? ==> |r.body| == 7 && forall w :: 0 <= w < 7 ==> r.body[w].day == WeekdayLabels[w]
  {
    if user !in data then NotFound else Found(MeanRows(GroupByWeekday(data[user])))
  }

  /** One row of the presence-weekday view: the header `["Weekday",
      "Presence (s)"]`, or `[day, total seconds]`. */
  datatype PresenceRow = Header(weekday: string, presence: string) | Total(day: string, seconds: int)

  /** The header row followed by the seven total rows of a grouping. */
  function PresenceRows(g: Buckets): (rows: seq<PresenceRow>)
    requires |g| == 7
    ensures |rows| == 8 && rows[0] == Header("Weekday", "Presence (s)")
    ensures forall w :: 0 <= w < 7 ==> rows[w + 1].Total? && rows[w + 1].day == WeekdayLabels[w]
  {
    [Header("Weekday", "Presence (s)")] + seq(7, w requires 0 <= w < 7 => Total(WeekdayLabels[w], IntSum(g[w])))
  }

  function PresenceWeekday(data: PresenceIndex, user: UserId): (r: Response<seq<PresenceRow>>)
    ensures r.NotFound? <==> user !in data
    ensures r.Found? ==>
      |r.body| == 8 && r.body[0] == Header("Weekday", "Presence (s)")
      && forall w :: 0 <= w < 7 ==> r.body[w + 1].Total? && r.body[w + 1].day == WeekdayLabels[w]
  {
    if user !in data then NotFound else Found(PresenceRows(GroupByWeekday(data[user])))
  }

  /** One row of the user-available-average view:
      `[day, mean start * 1000, mean end * 1000]`. */
  datatype AverageRow = AverageRow(day: string, start: Number, end: Number)

  /** The seven rows of mean start and mean end, in milliseconds. */
  function AverageRows(se: StartEnd): (rows: seq<AverageRow>)
    requires |se.start| == 7 && |se.end| == 7
    ensures |rows| == 7 && forall w :: 0 <= w < 7 ==> rows[w].day == WeekdayLabels[w]
  {
    seq(7, w requires 0 <= w < 7 =>
      AverageRow(WeekdayLabels[w], Scale(Mean(ToReals(se.start[w])), 1000), Scale(Mean(ToReals(se.end[w])), 1000)))
  }

  function UserAvailableAverage(data: PresenceIndex, user: UserId): (r: Response<seq<AverageRow>>)
    ensures r.NotFound? <==> user !in data
    ensures r.Found? ==> |r.body| == 7 && forall w :: 0 <= w < 7 ==> r.body[w].day == WeekdayLabels[w]
  {
    if user !in data then NotFound else Found(AverageRows(StartEndDateByWeekday(data[user])))
  }

  /** A weekday's mean is the mean of that weekday's presence intervals in
      the sense of IsMeanOf; it is the integer 0 exactly when the user has
      no date on that weekday. */
  lemma {:induction false} MeanRowMeaning(data: PresenceIndex, user: UserId, w: Weekday)
    requires user in data
    ensures IsMeanOf(MeanTimeWeekday(data, user).body[w].mean, Select(data[user], EntryInterval, w))
    ensures MeanTimeWeekday(data, user).body[w].mean == Int(0) <==> NoDateOn(data[user], w)
  {
    var bucket := Select(data[user], EntryInterval, w);
    assert MeanTimeWeekday(data, user).body[w].mean == Mean(ToReals(bucket));
    EmptyBucketIffNoDate(data[user], w);
    MeanOfInts(bucket);
  }

  /** A weekday's total is the sum of that weekday's presence intervals,
      0 when the user has no date on it. */
  lemma {:induction false} PresenceRowMeaning(data: PresenceIndex, user: UserId, w: Weekday)
    requires user in data
    ensures var row := PresenceWeekday(data, user).body[w + 1];
      row == Total(WeekdayLabels[w], IntSum(Select(data[user], EntryInterval, w)))
      && (NoDateOn(data[user], w) ==> row.seconds == 0)
  {
    EmptyBucketIffNoDate(data[user], w);
  }

  /** The seven weekday totals add up to the user's whole presence. */
  lemma {:induction false} PresenceTotalsAddUp(data: PresenceIndex, user: UserId)
    requires user in data
    ensures var rows := PresenceWeekday(data, user).body;
      rows[1].seconds + rows[2].seconds + rows[3].seconds + rows[4].seconds
      + rows[5].seconds + rows[6].seconds + rows[7].seconds
      == IntSum(Measures(data[user], EntryInterval))
  {
    var g := GroupByWeekday(data[user]);
    var rows := PresenceWeekday(data, user).body;
    GroupByConserves(data[user], EntryInterval);
    SevenBucketSeconds(g);
    assert forall w :: 0 <= w < 7 ==> rows[w + 1].seconds == IntSum(g[w]);
  }

  /** In the user-available-average view, a weekday's start column is 1000
      times the mean of that weekday's start seconds, and its end column 1000
      times the mean of its end seconds (the integer 0 when there are none). */
  lemma {:induction false} AverageRowValues(data: PresenceIndex, user: UserId, w: Weekday)
    requires user in data
    ensures var row, log := UserAvailableAverage(data, user).body[w], data[user];
      IsScaledMeanOf(row.start, Select(log, StartSeconds, w), 1000)
      && IsScaledMeanOf(row.end, Select(log, EndSeconds, w), 1000)
  {
    var log := data[user];
    var se := StartEndDateByWeekday(log);
    var row := UserAvailableAverage(data, user).body[w];
    assert row == AverageRows(se)[w];
    assert row.start == Scale(Mean(ToReals(se.start[w])), 1000);
    assert row.end == Scale(Mean(ToReals(se.end[w])), 1000);
    ScaledMeanOfInts(se.start[w], 1000);
    ScaledMeanOfInts(se.end[w], 1000);
  }

  /** In the user-available-average view, a weekday's start and end are
      both the integer 0 exactly when the user has no date on it; the mean
      end minus the mean start is 1000 times that weekday's mean presence;
      and when every record starts no later than it ends, the mean start is
      no later than the mean end. */
  lemma {:induction false} AverageRowMeaning(data: PresenceIndex, user: UserId, w: Weekday)
    requires user in data
    ensures var row, log := UserAvailableAverage(data, user).body[w], data[user];
      var m := MeanTimeWeekday(data, user).body[w].mean;
      (row.start == Int(0) <==> NoDateOn(log, w))
      && (row.end == Int(0) <==> NoDateOn(log, w))
      && row.end.Value() - row.start.Value() == 1000.0 * m.Value()
      && ((forall i :: 0 <= i < |log| ==> ClockLeq(log[i].times.start, log[i].times.end))
            ==> row.start.Value() <= row.end.Value())
  {
    var log := data[user];
    var g := GroupByWeekday(log);
    var se := StartEndDateByWeekday(log);
    StartEndMatchesGrouping(log);
    EmptyBucketIffNoDate(log, w);
    var ends, starts, diffs := ToReals(se.end[w]), ToReals(se.start[w]), ToReals(g[w]);
    MeanOfDifferences(ends, starts, diffs);
    if forall i :: 0 <= i < |log| ==> ClockLeq(log[i].times.start, log[i].times.end) {
      SelectWithin(log, EntryInterval, w, 0, SecondsPerDay);
      if diffs != [] {
        MeanBounds(diffs, 0.0, SecondsPerDay as real);
      }
    }
  }
}
