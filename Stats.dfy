/** The dashboard datasets: each builder turns store query results into one
    chart of fixed shape, or an error when its query failed; the response
    keeps the charts whose builder succeeded, in a fixed order. */
module Stats {
  import opened Wrappers
  import opened StatsModel
  import opened ActivityStore
  import opened Webhook

  // ---- Signup source (pie) ----

  /** Direct signups against invited ones. It never fails. */
  function SignupData(log: seq<ActivityLog>): (r: Result<ActivityStatsInfo>)
    ensures r.Ok? && r.value.kind == Pie && |r.value.data| == 2
  {
    Ok(ActivityStatsInfo(Pie, "Signup source", [
      ActivityStatsDataPoint("direct-signup", "Direct", CountForEvents(log, "client.created", Client)),
      ActivityStatsDataPoint("invited", "Invited", CountForEvents(log, "client.created", Admin))
    ]))
  }

  /** The pie splits every `client.created` entry: direct signups are the
      client-attributed ones, invitations the admin-attributed ones, and the
      two slices add up to all signups. */
  lemma SignupSourceCounts(log: seq<ActivityLog>)
    ensures var d := SignupData(log).value.data;
      && d[0].key == "direct-signup" && d[0].count == CountForEvents(log, "client.created", Client)
      && d[1].key == "invited" && d[1].count == CountForEvents(log, "client.created", Admin)
      && d[0].count + d[1].count == CountOfKind(log, "client.created")
  {
    CountSplitByActor(log, "client.created");
  }

  // ---- Portal activity (single bar chart) ----

  /** One bar of the portal-activity chart and the (event type, actor class)
      pair whose entries it counts. */
  datatype PortalRow = PortalRow(key: string, caption: string, eventType: string, createdBy: CreateType)

  const PortalRows: seq<PortalRow> := [
    PortalRow("clients-deleted", "Clients deleted", "client.deleted", Admin),
    PortalRow("new-clients-activated", "New clients activated", "client.activated", Client),
    PortalRow("forms-submitted", "Forms submitted", "form_response.completed", Client),
    PortalRow("files-admin", "Files by admin", "file.created", Admin),
    PortalRow("files-clients", "Files by clients", "file.created", Client),
    PortalRow("links-admin", "Links by admin", "link.created", Admin),
    PortalRow("links-clients", "Links by clients", "link.created", Client),
    PortalRow("messages-admin", "Messages by admin", "message.sent", Admin),
    PortalRow("messages-clients", "Messages by clients", "message.sent", Client)
  ]

  /** Nine bars in a fixed order, bar i counting the entries of the i-th
      pair of `PortalRows`; the keys are distinct. It never fails. */
  function ActivityPerPortal(log: seq<ActivityLog>): (r: Result<ActivityStatsInfo>)
    ensures r.Ok? && r.value.kind == BarSingle && |r.value.data| == |PortalRows| == 9
    ensures forall i :: 0 <= i < 9 ==>
      var row := PortalRows[i];
      r.value.data[i] == ActivityStatsDataPoint(row.key, row.caption, CountForEvents(log, row.eventType, row.createdBy))
    ensures forall i, j :: 0 <= i < j < 9 ==> r.value.data[i].key != r.value.data[j].key
  {
    var points := seq(|PortalRows|, i requires 0 <= i < |PortalRows| =>
      var row := PortalRows[i];
      ActivityStatsDataPoint(row.key, row.caption, CountForEvents(log, row.eventType, row.createdBy)));
    Ok(ActivityStatsInfo(BarSingle, "Portal activity", points))
  }

  /** The admin and client bars of files, links and messages together count
      every entry of their event type. */
  lemma PortalActivitySplitsEveryCreation(log: seq<ActivityLog>)
    ensures var d := ActivityPerPortal(log).value.data;
      && d[3].count + d[4].count == CountOfKind(log, "file.created")
      && d[5].count + d[6].count == CountOfKind(log, "link.created")
      && d[7].count + d[8].count == CountOfKind(log, "message.sent")
  {
    CountSplitByActor(log, "file.created");
    CountSplitByActor(log, "link.created");
    CountSplitByActor(log, "message.sent");
  }

  /** On a log of classified entries the deletion, activation and form bars
      miss none of their events, because the classifier gives those event
      types the very class the bars count. */
  lemma {:induction false} PortalActivityCountsEveryFixedEvent(log: seq<ActivityLog>)
    requires forall e :: e in log ==> WellAttributed(e)
    ensures var d := ActivityPerPortal(log).value.data;
      && d[0].count == CountOfKind(log, "client.deleted")
      && d[1].count == CountOfKind(log, "client.activated")
      && d[2].count == CountOfKind(log, "form_response.completed")
  {
    if log != [] {
      assert forall e :: e in log[1..] ==> e in log;
      PortalActivityCountsEveryFixedEvent(log[1..]);
      assert WellAttributed(log[0]);
    }
  }

  // ---- Signup trend (line chart) ----

  /** The weekday of a day number, 0 for Sunday to 6 for Saturday; day 0 is a Sunday. */
  function Weekday(day: int): (w: nat)
    ensures w < 7
  {
    day % 7
  }

  const WeekdayNames: seq<string> := ["Sunday", "Monday", "Tuesday", "Wednesday", "Thursday", "Friday", "Saturday"]

  /** The point of the trend chart for one day: keyed and labelled by the
      day's weekday name. */
  function DayPoint(day: int, count: int): ActivityStatsDataPoint
  {
    var name := WeekdayNames[Weekday(day)];
    ActivityStatsDataPoint(name, name, count)
  }

  /** The trend points for per-day counts whose first entry belongs to `today`
      and each next one to the day before. */
  function LinePoints(counts: seq<int>, today: int): (r: seq<ActivityStatsDataPoint>)
    ensures |r| == |counts|
  {
    if counts == [] then [] else [DayPoint(today, counts[0])] + LinePoints(counts[1..], today - 1)
  }

  /** Point i carries count i, keyed and labelled by the weekday of `today - i`. */
  lemma {:induction false} LinePointsAt(counts: seq<int>, today: int, i: nat)
    requires i < |counts|
    ensures LinePoints(counts, today)[i] == DayPoint(today - i, counts[i])
  {
    if i > 0 {
      LinePointsAt(counts[1..], today - 1, i - 1);
    }
  }

  /** Appending a count appends one point, for the day |counts| days back. */
  lemma {:induction false} LinePointsAppend(counts: seq<int>, x: int, today: int)
    ensures LinePoints(counts + [x], today) == LinePoints(counts, today) + [DayPoint(today - |counts|, x)]
  {
    if counts != [] {
      assert (counts + [x])[1..] == counts[1..] + [x];
      LinePointsAppend(counts[1..], x, today - 1);
    }
  }

  /** Each next point is labelled with the weekday before the previous one. */
  lemma LinePointsStepBack(counts: seq<int>, today: int, i: nat)
    requires i + 1 < |counts|
    ensures LinePoints(counts, today)[i].caption == WeekdayNames[Weekday(today - i)]
    ensures LinePoints(counts, today)[i + 1].caption == WeekdayNames[(Weekday(today - i) + 6) % 7]
  {
    LinePointsAt(counts, today, i);
    LinePointsAt(counts, today, i + 1);
    WeekdayOfDayBefore(today - i);
  }

  /** The day before a Sunday is a Saturday; before any other day, the weekday
      numbered one less. */
  lemma WeekdayOfDayBefore(day: int)
    ensures Weekday(day - 1) == (Weekday(day) + 6) % 7
  {
    var q := day / 7;
    assert day == 7 * q + Weekday(day);
    if Weekday(day) == 0 {
      assert day - 1 == 7 * (q - 1) + 6;
    } else {
      assert day - 1 == 7 * q + (Weekday(day) - 1);
    }
  }

  /** Days less than a week apart fall on different weekdays. */
  lemma WeekdaysWithinAWeekDiffer(today: int, i: int, j: int)
    requires 0 <= i < j < 7
    ensures Weekday(today - i) != Weekday(today - j)
  {
    var q := (today - j) / 7;
    assert today - j == 7 * q + Weekday(today - j);
    if Weekday(today - j) + (j - i) < 7 {
      assert today - i == 7 * q + (Weekday(today - j) + (j - i));
    } else {
      assert today - i == 7 * (q + 1) + (Weekday(today - j) + (j - i) - 7);
    }
  }

  /** Different weekdays have different names. */
  lemma WeekdayNamesDistinct(a: nat, b: nat)
    requires a < 7 && b < 7 && a != b
    ensures WeekdayNames[a] != WeekdayNames[b]
  {
  }

  /** Seven per-day counts give seven points labelled with seven different
      weekdays. */
  lemma SevenPointsDistinctDays(counts: seq<int>, today: int)
    requires |counts| == 7
    ensures forall i, j :: 0 <= i < j < 7 ==> LinePoints(counts, today)[i].caption != LinePoints(counts, today)[j].caption
  {
    forall i, j | 0 <= i < j < 7 ensures LinePoints(counts, today)[i].caption != LinePoints(counts, today)[j].caption {
      LinePointsAt(counts, today, i);
      LinePointsAt(counts, today, j);
      WeekdaysWithinAWeekDiffer(today, i, j);
      WeekdayNamesDistinct(Weekday(today - i), Weekday(today - j));
    }
  }

  /** Seven per-day counts label some point with every weekday: weekday `w`
      is the label of point `(today - w) % 7`. */
  lemma SevenPointsCoverTheWeek(counts: seq<int>, today: int, w: nat)
    requires |counts| == 7 && w < 7
    ensures LinePoints(counts, today)[(today - w) % 7].caption == WeekdayNames[w]
  {
    var i := (today - w) % 7;
    var q := (today - w) / 7;
    assert today - i == 7 * q + w;
    assert Weekday(today - i) == w;
    LinePointsAt(counts, today, i);
  }

  /** The trend chart from the store's per-day counts: one point per count,
      without filling days the store leaves out; a failed query is an error. */
  function SignupTrend(eventCounts: Result<seq<int>>, today: int): (r: Result<ActivityStatsInfo>)
  {
    match eventCounts
    case Err(e) => Err(e)
    case Ok(counts) => Ok(ActivityStatsInfo(Line, "Signups in last 7 days", LinePoints(counts, today)))
  }

  /** Builds the trend chart point by point, as the handler's loop does. */
  method SigupLineChart(eventCounts: Result<seq<int>>, today: int) returns (info: Result<ActivityStatsInfo>)
    ensures info == SignupTrend(eventCounts, today)
    ensures info.Ok? <==> eventCounts.Ok?
    ensures info.Ok? ==> info.value.kind == Line && |info.value.data| == |eventCounts.value|
    ensures info.Ok? ==> forall i :: 0 <= i < |eventCounts.value| ==>
      info.value.data[i] == DayPoint(today - i, eventCounts.value[i])
  {
    if eventCounts.Err? {
      return Err(eventCounts.error);
    }
    var counts := eventCounts.value;
    var data: seq<ActivityStatsDataPoint> := [];
    var i := 0;
    while i < |counts|
      invariant 0 <= i <= |counts|
      invariant data == LinePoints(counts[..i], today)
    {
      LinePointsAppend(counts[..i], counts[i], today);
      assert counts[..i + 1] == counts[..i] + [counts[i]];
      data := data + [DayPoint(today - i, counts[i])];
      i := i + 1;
    }
    assert counts[..i] == counts;
    info := Ok(ActivityStatsInfo(Line, "Signups in last 7 days", data));
    forall k | 0 <= k < |counts| ensures data[k] == DayPoint(today - k, counts[k]) {
      LinePointsAt(counts, today, k);
    }
  }

  // ---- Activity per client (multiple bar chart) ----

  /** The per-client rows of the store, unchanged; a failed query is an error. */
  function PortalPerClient(byUser: Result<seq<ActivityStatsDataPoint>>): (r: Result<ActivityStatsInfo>)
    ensures r.Ok? <==> byUser.Ok?
    ensures r.Ok? ==> r.value.kind == BarMulti && r.value.data == byUser.value
  {
    match byUser
    case Err(e) => Err(e)
    case Ok(rows) => Ok(ActivityStatsInfo(BarMulti, "Activity per client", rows))
  }

  // ---- The response ----

  /** The charts of the builders that succeeded, in the builders' order. */
  function Present(results: seq<Result<ActivityStatsInfo>>): (r: seq<ActivityStatsInfo>)
    ensures |r| <= |results|
  {
    if results == [] then []
    else (if results[0].Ok? then [results[0].value] else []) + Present(results[1..])
  }

  lemma PresentCons(r: Result<ActivityStatsInfo>, rs: seq<Result<ActivityStatsInfo>>)
    ensures Present([r] + rs) == (if r.Ok? then [r.value] else []) + Present(rs)
  {
    assert ([r] + rs)[1..] == rs;
  }

  /** A chart is in the response exactly when some builder produced it. */
  lemma {:induction false} PresentIff(results: seq<Result<ActivityStatsInfo>>, info: ActivityStatsInfo)
    ensures info in Present(results) <==> Ok(info) in results
  {
    if results != [] {
      PresentIff(results[1..], info);
      assert results == [results[0]] + results[1..];
    }
  }

  /** The four builders' results in the response order: signup source, signup
      trend, portal activity, activity per client. */
  function Builders(log: seq<ActivityLog>, eventCounts: Result<seq<int>>, byUser: Result<seq<ActivityStatsDataPoint>>, today: int)
    : seq<Result<ActivityStatsInfo>>
  {
    [SignupData(log), SignupTrend(eventCounts, today), ActivityPerPortal(log), PortalPerClient(byUser)]
  }

  /** The response holds between two and four charts: always the signup source
      first and the portal activity, and the trend and per-client charts
      exactly when their queries succeeded, each in its place. */
  lemma ResponseShape(log: seq<ActivityLog>, eventCounts: Result<seq<int>>, byUser: Result<seq<ActivityStatsDataPoint>>, today: int)
    ensures var d := Present(Builders(log, eventCounts, byUser, today));
      && 2 <= |d| <= 4
      && |d| == 2 + (if eventCounts.Ok? then 1 else 0) + (if byUser.Ok? then 1 else 0)
      && d[0] == SignupData(log).value
      && d[if eventCounts.Ok? then 2 else 1] == ActivityPerPortal(log).value
      && (eventCounts.Ok? ==> d[1] == SignupTrend(eventCounts, today).value)
      && (byUser.Ok? ==> d[|d| - 1] == PortalPerClient(byUser).value)
  {
    var b := Builders(log, eventCounts, byUser, today);
    var s0, s1, s2 := SignupData(log).value, SignupTrend(eventCounts, today), ActivityPerPortal(log).value;
    var s3 := PortalPerClient(byUser);
    var tail3 := if s3.Ok? then [s3.value] else [];
    PresentCons(s3, []);
    assert Present([s3]) == tail3;
    PresentCons(Ok(s2), [s3]);
    assert Present([Ok(s2), s3]) == [s2] + tail3;
    var tail1 := if s1.Ok? then [s1.value] else [];
    PresentCons(s1, [Ok(s2), s3]);
    assert Present([s1, Ok(s2), s3]) == tail1 + [s2] + tail3;
    PresentCons(Ok(s0), [s1, Ok(s2), s3]);
    assert b == [Ok(s0), s1, Ok(s2), s3];
    assert Present(b) == [s0] + tail1 + [s2] + tail3;
  }
}
