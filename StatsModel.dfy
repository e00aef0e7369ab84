/** The value types of the activity-statistics service: the actor class kept
    with each log entry, the log entry itself, and the chart datasets served
    to the dashboard. */
module StatsModel {
  import opened Wrappers

  /** Who is deemed to have caused an event. */
  datatype CreateType = Client | Admin {

    /** The string constant that stands for the class in the log and on the wire. */
    function Wire(): (s: string)
      ensures s == "client" || s == "admin"
    {
      match this
      case Client => "client"
      case Admin => "admin"
    }
  }

  /** Reads a wire string back as an actor class; no other string is one. */
  function CreateTypeFromWire(s: string): (r: Option<CreateType>)
    ensures r.Some? ==> r.value.Wire() == s
    ensures r.None? <==> s != "client" && s != "admin"
  {
    if s == "client" then Some(Client)
    else if s == "admin" then Some(Admin)
    else None
  }

  /** Every actor class survives the trip to its wire string and back, so the
      two constants are distinct. */
  lemma CreateTypeRoundTrip(c: CreateType)
    ensures CreateTypeFromWire(c.Wire()) == Some(c)
  {
  }

  /** The chart shape of a dataset. */
  datatype ActivityStatsType = Pie | Line | BarSingle | BarMulti {

    function Wire(): (s: string)
      ensures s in {"pie", "line", "bar-single", "bar-multiple"}
    {
      match this
      case Pie => "pie"
      case Line => "line"
      case BarSingle => "bar-single"
      case BarMulti => "bar-multiple"
    }
  }

  /** Reads a wire string back as a chart shape; no other string is one. */
  function StatsTypeFromWire(s: string): (r: Option<ActivityStatsType>)
    ensures r.Some? ==> r.value.Wire() == s
    ensures r.None? <==> s !in {"pie", "line", "bar-single", "bar-multiple"}
  {
    if s == "pie" then Some(Pie)
    else if s == "line" then Some(Line)
    else if s == "bar-single" then Some(BarSingle)
    else if s == "bar-multiple" then Some(BarMulti)
    else None
  }

  lemma StatsTypeRoundTrip(t: ActivityStatsType)
    ensures StatsTypeFromWire(t.Wire()) == Some(t)
  {
  }

  /** One row of the activity log. `createDate` is the instant of
      classification, as a number of time units. */
  datatype ActivityLog = ActivityLog(
    id: string,
    eventType: string,
    userId: string,
    createdBy: CreateType,
    createDate: int)

  /** One bar, slice or point of a chart; `caption` is the label shown for it. */
  datatype ActivityStatsDataPoint = ActivityStatsDataPoint(key: string, caption: string, count: int)

  /** One chart: its shape, its title and its points in order. */
  datatype ActivityStatsInfo = ActivityStatsInfo(
    kind: ActivityStatsType,
    title: string,
    data: seq<ActivityStatsDataPoint>)

  /** The body of the dashboard response: the charts in order. */
  datatype ActivityStatsResponse = ActivityStatsResponse(data: seq<ActivityStatsInfo>)
}
