/** `GET /api/traffic/trend`: page views and unique visitors bucketed by hour
    or by day over a window that defaults to the last day or the last week. */
module TrafficTrendRoute {
  import opened Common
  import opened Directory
  import opened Api
  import opened Query

  const HOUR_MS: int := 60 * 60 * 1000
  const DAY_MS: int := 24 * HOUR_MS
  const WEEK_MS: int := 7 * DAY_MS
  const MSG_TREND_FAILED := "获取流量趋势失败"

  datatype TrendParams = TrendParams(appId: Option<string>, kind: Option<string>,
                                     startTime: Option<string>, endTime: Option<string>)

  datatype Interval = HourInterval | DayInterval

  /** The `date_histogram` part of the request. */
  datatype Histogram = Histogram(interval: Interval, minDocCount: nat, boundsMin: int, boundsMax: int)

  datatype TrendRequest = TrendRequest(must: seq<Clause>, histogram: Histogram)

  /** `searchParams.get('type') || 'hour'`. */
  function TrendKind(kind: Option<string>): (k: string)
    ensures k != ""
    ensures !Present(kind) ==> k == "hour"
    ensures Present(kind) ==> k == kind.value
  {
    OrStr(kind, "hour")
  }

  /** The window: the two parameters when both are non-empty, otherwise the
      day (for `hour`) or the week (for anything else) that ends now. */
  function Window(kind: string, startTime: Option<string>, endTime: Option<string>, now: int,
                  parse: string -> Instant): (w: (Instant, Instant))
    ensures Present(startTime) && Present(endTime) ==> w == (parse(startTime.value), parse(endTime.value))
    ensures !(Present(startTime) && Present(endTime)) ==>
              w.1 == At(now) && w.0 == At(now - (if kind == "hour" then DAY_MS else WEEK_MS))
  {
    if Present(startTime) && Present(endTime) then (parse(startTime.value), parse(endTime.value))
    else if kind == "hour" then (At(now - DAY_MS), At(now))
    else (At(now - WEEK_MS), At(now))
  }

  /** The query. `toISOString` of an invalid window end throws, so a request
      exists only for a valid window; it asks for zero-filled buckets across
      exactly that window. */
  function TrendRequestOf(appId: string, kind: string, start: Instant, end: Instant): (r: Fetch<TrendRequest>)
    ensures r.Threw? <==> start.InvalidDate? || end.InvalidDate?
    ensures r.Fetched? ==> r.value.must == [TenantTerm(appId), Range(TIME_FIELD, Some(Iso(start.ms)), Some(Iso(end.ms)))]
    ensures r.Fetched? ==> (r.value.histogram.interval == HourInterval <==> kind == "hour")
    ensures r.Fetched? ==> r.value.histogram.minDocCount == 0
    ensures r.Fetched? ==> r.value.histogram.boundsMin == start.ms && r.value.histogram.boundsMax == end.ms
  {
    match (start, end)
    case (At(s), At(e)) =>
      var interval := if kind == "hour" then HourInterval else DayInterval;
      Fetched(TrendRequest([TenantTerm(appId), Range(TIME_FIELD, Some(Iso(s)), Some(Iso(e)))],
                           Histogram(interval, 0, s, e)))
    case _ => Threw
  }

  /** One histogram bucket as the store returns it. */
  datatype TrendBucket = TrendBucket(key: int, keyAsString: Option<string>, pv: Option<nat>, uv: Option<nat>)

  datatype TrendRow = TrendRow(time: TimeLabel, timestamp: int, pv: nat, uv: nat)

  /** The response data: the type and window echoed, then the rows. */
  datatype TrendData = TrendData(kind: string, startIso: int, endIso: int, trend: seq<TrendRow>)

  function TrendRowOf(b: TrendBucket): (row: TrendRow)
    ensures row.timestamp == b.key
    ensures row.pv == OrZero(b.pv) && row.uv == OrZero(b.uv)
    ensures Present(b.keyAsString) ==> row.time == Label(b.keyAsString.value)
    ensures !Present(b.keyAsString) ==> row.time == IsoOfKey(b.key)
  {
    TrendRow(TimeLabelOf(b.keyAsString, b.key), b.key, OrZero(b.pv), OrZero(b.uv))
  }

  function TrendRows(buckets: seq<TrendBucket>): (rows: seq<TrendRow>)
    ensures |rows| == |buckets|
    ensures forall i :: 0 <= i < |buckets| ==> rows[i] == TrendRowOf(buckets[i])
  {
    seq(|buckets|, i requires 0 <= i < |buckets| => TrendRowOf(buckets[i]))
  }

  /** The handler. `search` is the store's answer to the request (its
      `aggregations.trend.buckets`, possibly absent). */
  function TrafficTrend(userId: Option<int>, params: TrendParams, apps: Fetch<seq<App>>, now: int,
                        parse: string -> Instant, search: Fetch<Option<seq<TrendBucket>>>): (r: Reply<TrendData>)
    ensures var g := OwnedAppGate(userId, params.appId, apps, MSG_TREND_FAILED);
            g.Deny? ==> r == Refuse(g.code, g.status, g.message)
    ensures r.code == SUCCESS ==> OwnedAppGate(userId, params.appId, apps, MSG_TREND_FAILED).Admit?
    ensures r.code == SUCCESS ==> r.status == 200 && r.data.Some? && r.data.value.kind == TrendKind(params.kind)
    ensures r.code == SUCCESS ==>
              var w := Window(TrendKind(params.kind), params.startTime, params.endTime, now, parse);
              w.0 == At(r.data.value.startIso) && w.1 == At(r.data.value.endIso)
    ensures r.code == SUCCESS && search.Threw? ==> r.data.value.trend == []
    ensures r.code == SUCCESS && search.Fetched? ==> r.data.value.trend == TrendRows(OrEmpty(search.value))
  {
    var g := OwnedAppGate(userId, params.appId, apps, MSG_TREND_FAILED);
    if g.Deny? then Denied(g)
    else
      var kind := TrendKind(params.kind);
      var w := Window(kind, params.startTime, params.endTime, now, parse);
      match TrendRequestOf(g.appId, kind, w.0, w.1)
      case Threw => Refuse(PARAM_ERROR, 500, MSG_TREND_FAILED)
      case Fetched(_) =>
        var rows := match search
          case Threw => []
          case Fetched(buckets) => TrendRows(OrEmpty(buckets));
        Answer(MSG_OK, TrendData(kind, w.0.ms, w.1.ms, rows))
  }

  /** An admitted request fails only on an invalid window; otherwise the
      answer is 1000 even when the store call throws, and that answer is the
      same as for a store that found no buckets. */
  lemma TrendFailsOpen(userId: Option<int>, params: TrendParams, apps: Fetch<seq<App>>, now: int,
                       parse: string -> Instant)
    requires OwnedAppGate(userId, params.appId, apps, MSG_TREND_FAILED).Admit?
    ensures var w := Window(TrendKind(params.kind), params.startTime, params.endTime, now, parse);
            var failed := TrafficTrend(userId, params, apps, now, parse, Threw);
            && (failed.code == SUCCESS <==> w.0.At? && w.1.At?)
            && (!(failed.code == SUCCESS) ==> failed == Refuse(PARAM_ERROR, 500, MSG_TREND_FAILED))
            && failed == TrafficTrend(userId, params, apps, now, parse, Fetched(None))
            && failed == TrafficTrend(userId, params, apps, now, parse, Fetched(Some([])))
  {
  }

  /** Without explicit bounds the window is always valid and spans exactly
      one day for `hour` (the default) and one week otherwise. */
  lemma DefaultWindowLength(kind: Option<string>, startTime: Option<string>, endTime: Option<string>,
                            now: int, parse: string -> Instant)
    requires !(Present(startTime) && Present(endTime))
    ensures var w := Window(TrendKind(kind), startTime, endTime, now, parse);
            && w.0.At? && w.1.At? && w.1.ms == now
            && w.1.ms - w.0.ms == (if TrendKind(kind) == "hour" then DAY_MS else WEEK_MS)
            && (!Present(kind) ==> w.1.ms - w.0.ms == 86400000)
  {
  }
}
