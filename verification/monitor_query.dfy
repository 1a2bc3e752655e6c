/** The six service-layer queries: for each, the filter clauses built from
    the parameters, and the shaping of the store's aggregation response (or
    its failure) into the documented result. */
module MonitorQuery {
  import opened Common
  import opened Query

  /** The optional parameters every query accepts. */
  datatype QueryParams = QueryParams(
    appId: string,
    startTime: Option<int>,
    endTime: Option<int>,
    pageUrl: Option<string>,
    from: Option<int>,
    size: Option<int>)

  // ---------------------------------------------------------------- clauses

  /** A filter of terms followed by the optional time window has a time
      range exactly when a bound is given, and no match clause. */
  lemma WindowPresence(head: seq<Clause>, start: Option<int>, end: Option<int>)
    requires forall i :: 0 <= i < |head| ==> head[i].Term?
    ensures HasRangeOn(head + EitherBoundRange(start, end), TIME_FIELD) <==> start.Some? || end.Some?
    ensures forall f :: !HasMatchOn(head + EitherBoundRange(start, end), f)
  {
    var w := EitherBoundRange(start, end);
    HasOnConcat(head, w, TIME_FIELD);
    HasOnTermsOnly(head, TIME_FIELD);
    HasOnOptional(w, TIME_FIELD);
    forall f ensures !HasMatchOn(head + w, f) {
      HasOnConcat(head, w, f);
      HasOnTermsOnly(head, f);
      HasOnOptional(w, f);
    }
  }

  /** `queryTrafficStats`: the app, and the time window when given. */
  function TrafficClauses(p: QueryParams): (r: seq<Clause>)
    ensures |r| >= 1 && r[0] == TenantTerm(p.appId)
    ensures HasRangeOn(r, TIME_FIELD) <==> p.startTime.Some? || p.endTime.Some?
    ensures forall f :: !HasMatchOn(r, f)
  {
    WindowPresence([TenantTerm(p.appId)], p.startTime, p.endTime);
    [TenantTerm(p.appId)] + EitherBoundRange(p.startTime, p.endTime)
  }

  /** `queryPerformanceStats`: the app, performance events, the window, and
      the page when given. */
  function PerformanceClauses(p: QueryParams): (r: seq<Clause>)
    ensures |r| >= 2 && r[0] == TenantTerm(p.appId) && r[1] == KindTerm("performance")
    ensures HasRangeOn(r, TIME_FIELD) <==> p.startTime.Some? || p.endTime.Some?
    ensures HasMatchOn(r, "pageUrl") <==> Present(p.pageUrl)
  {
    var head := [TenantTerm(p.appId), KindTerm("performance")];
    var w := EitherBoundRange(p.startTime, p.endTime);
    var m := MatchIfPresent("pageUrl", p.pageUrl);
    WindowPresence(head, p.startTime, p.endTime);
    HasOnConcat(head + w, m, TIME_FIELD);
    HasOnConcat(head + w, m, "pageUrl");
    HasOnOptional(m, TIME_FIELD);
    HasOnOptional(m, "pageUrl");
    head + w + m
  }

  /** `queryHttpErrors`: the app, failed requests, and the window. */
  function HttpErrorClauses(p: QueryParams): (r: seq<Clause>)
    ensures |r| >= 3 && r[0] == TenantTerm(p.appId) && r[1] == KindTerm("request") && r[2] == OutcomeTerm("error")
    ensures HasRangeOn(r, TIME_FIELD) <==> p.startTime.Some? || p.endTime.Some?
    ensures forall f :: !HasMatchOn(r, f)
  {
    WindowPresence([TenantTerm(p.appId), KindTerm("request"), OutcomeTerm("error")], p.startTime, p.endTime);
    [TenantTerm(p.appId), KindTerm("request"), OutcomeTerm("error")]
      + EitherBoundRange(p.startTime, p.endTime)
  }

  /** `queryJsErrors`: the app, script errors, and the window. */
  function JsErrorClauses(p: QueryParams): (r: seq<Clause>)
    ensures |r| >= 2 && r[0] == TenantTerm(p.appId) && r[1] == KindTerm("jsError")
    ensures HasRangeOn(r, TIME_FIELD) <==> p.startTime.Some? || p.endTime.Some?
    ensures forall f :: !HasMatchOn(r, f)
  {
    WindowPresence([TenantTerm(p.appId), KindTerm("jsError")], p.startTime, p.endTime);
    [TenantTerm(p.appId), KindTerm("jsError")] + EitherBoundRange(p.startTime, p.endTime)
  }

  /** `queryTopAnalyse` and `queryGeoDistribution` build the same filter:
      the app and the window, over every event kind. */
  function AllKindsClauses(p: QueryParams): (r: seq<Clause>)
    ensures |r| >= 1 && r[0] == TenantTerm(p.appId)
    ensures HasRangeOn(r, TIME_FIELD) <==> p.startTime.Some? || p.endTime.Some?
    ensures !HasTermOn(r, "type")
  {
    WindowPresence([TenantTerm(p.appId)], p.startTime, p.endTime);
    HasOnConcat([TenantTerm(p.appId)], EitherBoundRange(p.startTime, p.endTime), "type");
    HasOnOptional(EitherBoundRange(p.startTime, p.endTime), "type");
    [TenantTerm(p.appId)] + EitherBoundRange(p.startTime, p.endTime)
  }

  /** The clauses of all six queries for the same parameters (the top and
      geography queries share one filter). */
  function AllClauses(p: QueryParams): seq<Clause> {
    TrafficClauses(p) + PerformanceClauses(p) + HttpErrorClauses(p)
      + JsErrorClauses(p) + AllKindsClauses(p)
  }

  /** Tenant isolation: every query filters on the caller's `appId` first,
      and on no other `appId`. */
  lemma EveryQueryScopedToTenant(p: QueryParams)
    ensures TrafficClauses(p)[0] == TenantTerm(p.appId)
    ensures PerformanceClauses(p)[0] == TenantTerm(p.appId)
    ensures HttpErrorClauses(p)[0] == TenantTerm(p.appId)
    ensures JsErrorClauses(p)[0] == TenantTerm(p.appId)
    ensures AllKindsClauses(p)[0] == TenantTerm(p.appId)
    ensures forall c :: c in AllClauses(p) && c.Term? && c.field == "appId" ==> c == TenantTerm(p.appId)
  {
  }

  /** A time clause is added exactly when some bound is given, and it
      carries `gte` iff `startTime` and `lte` iff `endTime`. */
  lemma TimeClauseOnlyWithBounds(p: QueryParams)
    ensures |TrafficClauses(p)| == 1 + (if p.startTime.Some? || p.endTime.Some? then 1 else 0)
    ensures |HttpErrorClauses(p)| == 3 + (if p.startTime.Some? || p.endTime.Some? then 1 else 0)
    ensures p.startTime.Some? || p.endTime.Some? ==>
              var r := TrafficClauses(p)[1];
              r.Range? && (r.gte.Some? <==> p.startTime.Some?) && (r.lte.Some? <==> p.endTime.Some?)
  {
  }

  // ---------------------------------------------------------------- traffic

  datatype TrendBucket = TrendBucket(key: int, keyAsString: Option<string>, docCount: nat,
                                     pv: Option<nat>, uv: Option<nat>)

  datatype TrafficAggs = TrafficAggs(pv: Option<nat>, uv: Option<nat>, newUsers: Option<nat>,
                                     trendByHour: Option<seq<TrendBucket>>)

  datatype TrafficStats = TrafficStats(pv: nat, uv: nat, newUsers: nat, trend: seq<TrendBucket>)

  /** `queryTrafficStats` shaping: aggregations from `body` or top level,
      every missing count is 0 and a missing histogram is empty. */
  function ShapeTraffic(r: Fetch<Envelope<TrafficAggs>>): (s: TrafficStats)
    ensures r.Threw? ==> s == TrafficStats(0, 0, 0, [])
    ensures r.Fetched? && BodyOrTop(r.value).None? ==> s == TrafficStats(0, 0, 0, [])
    ensures r.Fetched? && BodyOrTop(r.value).Some? ==>
              var a := BodyOrTop(r.value).value;
              s.pv == OrZero(a.pv) && s.uv == OrZero(a.uv) && s.newUsers == OrZero(a.newUsers)
              && s.trend == OrEmpty(a.trendByHour)
  {
    match r
    case Threw => TrafficStats(0, 0, 0, [])
    case Fetched(e) =>
      match BodyOrTop(e)
      case None => TrafficStats(0, 0, 0, [])
      case Some(a) => TrafficStats(OrZero(a.pv), OrZero(a.uv), OrZero(a.newUsers), OrEmpty(a.trendByHour))
  }

  // ------------------------------------------------------------ performance

  datatype PageBucket = PageBucket(key: string, docCount: nat, avgFcp: Option<real>,
                                   avgLcp: Option<real>, avgTtfb: Option<real>)

  datatype PerformanceAggs = PerformanceAggs(
    avgFcp: Option<real>, avgLcp: Option<real>, avgFid: Option<real>, avgTtfb: Option<real>,
    avgDns: Option<real>, avgTcp: Option<real>, avgWhiteTime: Option<real>,
    byPage: Option<seq<PageBucket>>)

  datatype PerformanceStats = PerformanceStats(
    avgFcp: real, avgLcp: real, avgFid: real, avgTtfb: real,
    avgDns: real, avgTcp: real, avgWhiteTime: real, byPage: seq<PageBucket>)

  const ZeroPerformance := PerformanceStats(0.0, 0.0, 0.0, 0.0, 0.0, 0.0, 0.0, [])

  /** `queryPerformanceStats` shaping. Unlike the other queries it reads only
      `result.body?.aggregations`, so a top-level-only response reads as empty. */
  function ShapePerformance(r: Fetch<Envelope<PerformanceAggs>>): (s: PerformanceStats)
    ensures r.Threw? || r.value.body.None? ==> s == ZeroPerformance
    ensures r.Fetched? && r.value.body.Some? ==>
              var a := r.value.body.value;
              s == PerformanceStats(OrZeroReal(a.avgFcp), OrZeroReal(a.avgLcp), OrZeroReal(a.avgFid),
                                    OrZeroReal(a.avgTtfb), OrZeroReal(a.avgDns), OrZeroReal(a.avgTcp),
                                    OrZeroReal(a.avgWhiteTime), OrEmpty(a.byPage))
  {
    match r
    case Threw => ZeroPerformance
    case Fetched(e) =>
      match e.body
      case None => ZeroPerformance
      case Some(a) =>
        PerformanceStats(OrZeroReal(a.avgFcp), OrZeroReal(a.avgLcp), OrZeroReal(a.avgFid),
                         OrZeroReal(a.avgTtfb), OrZeroReal(a.avgDns), OrZeroReal(a.avgTcp),
                         OrZeroReal(a.avgWhiteTime), OrEmpty(a.byPage))
  }

  // ------------------------------------------------------------ HTTP errors

  /** `_source` of the newest hit of a URL bucket. */
  datatype RequestSample = RequestSample(httpMethod: Option<string>, status: Option<int>, cost: Option<real>,
                                         pageUrl: Option<string>, userTimeStamp: Option<int>)

  datatype UrlBucket = UrlBucket(key: string, docCount: nat, errorCount: Option<nat>,
                                 avgCost: Option<real>, statusKeys: Option<seq<int>>,
                                 latest: Option<RequestSample>)

  /** `totalRequests` is the `total_requests` filter's doc count. That filter
      sits inside a query already restricted to error requests, so it is taken
      as given rather than derived from the events. */
  datatype HttpErrorAggs = HttpErrorAggs(byUrl: Option<seq<UrlBucket>>, totalErrors: Option<nat>,
                                         totalRequests: Option<nat>)

  /** One error row; rates are exact percentages (the source renders them
      with two decimals). */
  datatype HttpErrorRow = HttpErrorRow(id: nat, url: string, httpMethod: string, errorCount: nat,
                                       errorRate: real, statusCode: int, avgCost: real,
                                       lastErrorTime: Option<int>)

  datatype HttpErrorList = HttpErrorList(errors: seq<HttpErrorRow>, total: nat, errorRate: real)

  /** `total_requests.doc_count || 1`: never zero. */
  function Denominator(totalRequests: Option<nat>): (d: nat)
    ensures d >= 1
    ensures totalRequests.Some? && totalRequests.value != 0 ==> d == totalRequests.value
  {
    if totalRequests.Some? && totalRequests.value != 0 then totalRequests.value else 1
  }

  function Percent(part: nat, whole: nat): real
    requires whole >= 1
  {
    (part as real) / (whole as real) * 100.0
  }

  /** `status_codes.buckets[0].key || 500`. */
  function TopStatus(keys: Option<seq<int>>): int {
    if keys.Some? && |keys.value| > 0 && keys.value[0] != 0 then keys.value[0] else 500
  }

  function HttpErrorRowOf(b: UrlBucket, id: nat, denominator: nat): (row: HttpErrorRow)
    requires denominator >= 1
    ensures row.id == id && row.url == b.key && row.errorCount == OrZero(b.errorCount)
    ensures row.httpMethod == OrStr(if b.latest.Some? then b.latest.value.httpMethod else None, "GET")
    ensures row.statusCode == (if b.statusKeys.Some? && |b.statusKeys.value| > 0 && b.statusKeys.value[0] != 0
                               then b.statusKeys.value[0] else 500)
    ensures row.errorRate >= 0.0 && row.errorRate * (denominator as real) == (b.docCount as real) * 100.0
    ensures b.avgCost.Some? ==> row.avgCost == b.avgCost.value
    ensures b.avgCost.None? ==> row.avgCost == 0.0
    ensures b.latest.Some? ==> row.lastErrorTime == b.latest.value.userTimeStamp
    ensures b.latest.None? ==> row.lastErrorTime.None?
  {
    var latest := b.latest.GetOr(RequestSample(None, None, None, None, None));
    HttpErrorRow(id, b.key, OrStr(latest.httpMethod, "GET"), OrZero(b.errorCount),
                 Percent(b.docCount, denominator), TopStatus(b.statusKeys),
                 OrZeroReal(b.avgCost), latest.userTimeStamp)
  }

  /** `queryHttpErrors` shaping: one row per URL bucket, ids 1..n in bucket
      order, and an overall rate over a denominator that is never zero. */
  function ShapeHttpErrors(r: Fetch<Envelope<HttpErrorAggs>>): (s: HttpErrorList)
    ensures r.Threw? ==> s == HttpErrorList([], 0, 0.0)
    ensures r.Fetched? ==>
              var a := BodyOrTop(r.value).GetOr(HttpErrorAggs(None, None, None));
              var buckets := OrEmpty(a.byUrl);
              && |s.errors| == |buckets|
              && s.total == OrZero(a.totalErrors)
              && s.errorRate == Percent(OrZero(a.totalErrors), Denominator(a.totalRequests))
              && forall i :: 0 <= i < |buckets| ==>
                   s.errors[i] == HttpErrorRowOf(buckets[i], i + 1, Denominator(a.totalRequests))
  {
    match r
    case Threw => HttpErrorList([], 0, 0.0)
    case Fetched(e) =>
      var a := BodyOrTop(e).GetOr(HttpErrorAggs(None, None, None));
      var buckets := OrEmpty(a.byUrl);
      var d := Denominator(a.totalRequests);
      var rows := seq(|buckets|, i requires 0 <= i < |buckets| => HttpErrorRowOf(buckets[i], i + 1, d));
      HttpErrorList(rows, OrZero(a.totalErrors), Percent(OrZero(a.totalErrors), d))
  }

  /** The overall rate is a genuine percentage of the denominator: zero
      errors give 0% and it is 100% exactly when errors equal the denominator. */
  lemma HttpErrorRateBounds(totalErrors: nat, totalRequests: Option<nat>)
    ensures Percent(totalErrors, Denominator(totalRequests)) >= 0.0
    ensures totalErrors == 0 ==> Percent(totalErrors, Denominator(totalRequests)) == 0.0
    ensures totalErrors <= Denominator(totalRequests) ==> Percent(totalErrors, Denominator(totalRequests)) <= 100.0
    ensures totalErrors == Denominator(totalRequests) ==> Percent(totalErrors, Denominator(totalRequests)) == 100.0
  {
    var d := Denominator(totalRequests) as real;
    var e := totalErrors as real;
    assert e / d >= 0.0;
    if totalErrors <= Denominator(totalRequests) {
      assert e / d <= 1.0 by {
        assert e <= d;
        DivAtMostOne(e, d);
      }
    }
    if totalErrors == Denominator(totalRequests) {
      assert e == d;
      DivSelf(d);
    }
  }

  lemma DivSelf(d: real)
    requires d > 0.0
    ensures d / d == 1.0
  {
  }

  lemma DivAtMostOne(e: real, d: real)
    requires 0.0 <= e <= d && d > 0.0
    ensures e / d <= 1.0
  {
    assert e / d * d == e;
  }

  // -------------------------------------------------------------- JS errors

  datatype JsSample = JsSample(filename: Option<string>, lineno: Option<int>, colno: Option<int>,
                               stack: Option<string>, pageUrl: Option<string>, userTimeStamp: Option<int>)

  datatype MessageBucket = MessageBucket(key: string, docCount: nat, count: Option<nat>,
                                         latest: Option<JsSample>)

  datatype JsErrorAggs = JsErrorAggs(byMessage: Option<seq<MessageBucket>>, totalErrors: Option<nat>)

  datatype JsErrorRow = JsErrorRow(id: nat, message: string, count: nat, filename: string,
                                   lineno: int, colno: int, stack: string, pageUrl: string,
                                   lastErrorTime: Option<int>)

  datatype JsErrorList = JsErrorList(errors: seq<JsErrorRow>, total: nat)

  /** Defaults for a missing sample field: filename 'unknown', line and
      column 0, stack and page ''. */
  function JsErrorRowOf(b: MessageBucket, id: nat): (row: JsErrorRow)
    ensures row.id == id && row.message == b.key && row.count == OrZero(b.count)
    ensures b.latest.None? ==> row.filename == "unknown" && row.lineno == 0 && row.colno == 0
                               && row.stack == "" && row.pageUrl == "" && row.lastErrorTime.None?
    ensures b.latest.Some? ==> row.filename == OrStr(b.latest.value.filename, "unknown")
                               && row.lineno == OrInt(b.latest.value.lineno, 0)
                               && row.colno == OrInt(b.latest.value.colno, 0)
                               && row.stack == OrStr(b.latest.value.stack, "")
                               && row.pageUrl == OrStr(b.latest.value.pageUrl, "")
                               && row.lastErrorTime == b.latest.value.userTimeStamp
  {
    var latest := b.latest.GetOr(JsSample(None, None, None, None, None, None));
    JsErrorRow(id, b.key, OrZero(b.count), OrStr(latest.filename, "unknown"),
               OrInt(latest.lineno, 0), OrInt(latest.colno, 0), OrStr(latest.stack, ""),
               OrStr(latest.pageUrl, ""), latest.userTimeStamp)
  }

  /** `queryJsErrors` shaping: one row per message bucket, ids 1..n. */
  function ShapeJsErrors(r: Fetch<Envelope<JsErrorAggs>>): (s: JsErrorList)
    ensures r.Threw? ==> s == JsErrorList([], 0)
    ensures r.Fetched? ==>
              var a := BodyOrTop(r.value).GetOr(JsErrorAggs(None, None));
              var buckets := OrEmpty(a.byMessage);
              && |s.errors| == |buckets| && s.total == OrZero(a.totalErrors)
              && forall i :: 0 <= i < |buckets| ==> s.errors[i] == JsErrorRowOf(buckets[i], i + 1)
  {
    match r
    case Threw => JsErrorList([], 0)
    case Fetched(e) =>
      var a := BodyOrTop(e).GetOr(JsErrorAggs(None, None));
      var buckets := OrEmpty(a.byMessage);
      JsErrorList(seq(|buckets|, i requires 0 <= i < |buckets| => JsErrorRowOf(buckets[i], i + 1)),
                  OrZero(a.totalErrors))
  }

  /** Row ids of both error lists are exactly 1..n in bucket order. */
  lemma ErrorRowIdsAreRanks(h: Fetch<Envelope<HttpErrorAggs>>, j: Fetch<Envelope<JsErrorAggs>>)
    ensures forall i :: 0 <= i < |ShapeHttpErrors(h).errors| ==> ShapeHttpErrors(h).errors[i].id == i + 1
    ensures forall i :: 0 <= i < |ShapeJsErrors(j).errors| ==> ShapeJsErrors(j).errors[i].id == i + 1
  {
  }

  // ------------------------------------------------------------ top and geo

  /** A `terms` bucket, with the optional `uv` cardinality sub-aggregation. */
  datatype TermBucket = TermBucket(key: string, docCount: nat, uv: Option<nat>)

  datatype TopAggs = TopAggs(topPages: Option<seq<TermBucket>>, topBrowsers: Option<seq<TermBucket>>,
                             topOs: Option<seq<TermBucket>>, topDevices: Option<seq<TermBucket>>)

  datatype PageRow = PageRow(page: string, pv: nat, uv: nat)
  datatype LabelRow = LabelRow(name: string, count: nat)

  datatype TopAnalysis = TopAnalysis(topPages: seq<PageRow>, topBrowsers: seq<LabelRow>,
                                     topOs: seq<LabelRow>, topDevices: seq<LabelRow>)

  /** Browser, OS and device rows: an empty label reads 'Unknown'. */
  function LabelRows(buckets: Option<seq<TermBucket>>): (rows: seq<LabelRow>)
    ensures |rows| == |OrEmpty(buckets)|
    ensures forall i :: 0 <= i < |rows| ==>
              rows[i].count == OrEmpty(buckets)[i].docCount
              && rows[i].name == (if OrEmpty(buckets)[i].key == "" then "Unknown" else OrEmpty(buckets)[i].key)
  {
    var bs := OrEmpty(buckets);
    seq(|bs|, i requires 0 <= i < |bs| => LabelRow(OrStr(Some(bs[i].key), "Unknown"), bs[i].docCount))
  }

  /** Page, province and city rows: key, doc count and `uv || 0`. */
  function CountRows(buckets: Option<seq<TermBucket>>): (rows: seq<PageRow>)
    ensures |rows| == |OrEmpty(buckets)|
    ensures forall i :: 0 <= i < |rows| ==>
              rows[i] == PageRow(OrEmpty(buckets)[i].key, OrEmpty(buckets)[i].docCount, OrZero(OrEmpty(buckets)[i].uv))
  {
    var bs := OrEmpty(buckets);
    seq(|bs|, i requires 0 <= i < |bs| => PageRow(bs[i].key, bs[i].docCount, OrZero(bs[i].uv)))
  }

  /** `queryTopAnalyse` shaping (reads `body` aggregations only). */
  function ShapeTop(r: Fetch<Envelope<TopAggs>>): (s: TopAnalysis)
    ensures r.Threw? || r.value.body.None? ==> s == TopAnalysis([], [], [], [])
    ensures r.Fetched? && r.value.body.Some? ==>
              var a := r.value.body.value;
              s == TopAnalysis(CountRows(a.topPages), LabelRows(a.topBrowsers),
                               LabelRows(a.topOs), LabelRows(a.topDevices))
  {
    match r
    case Threw => TopAnalysis([], [], [], [])
    case Fetched(e) =>
      match e.body
      case None => TopAnalysis([], [], [], [])
      case Some(a) => TopAnalysis(CountRows(a.topPages), LabelRows(a.topBrowsers),
                                  LabelRows(a.topOs), LabelRows(a.topDevices))
  }

  /** No top-N label row is ever empty. */
  lemma TopLabelsNeverEmpty(r: Fetch<Envelope<TopAggs>>)
    ensures var s := ShapeTop(r);
            forall row :: row in s.topBrowsers + s.topOs + s.topDevices ==> row.name != ""
  {
    var s := ShapeTop(r);
    forall row | row in s.topBrowsers + s.topOs + s.topDevices
      ensures row.name != ""
    {
      if row in s.topBrowsers {
        var i :| 0 <= i < |s.topBrowsers| && s.topBrowsers[i] == row;
      } else if row in s.topOs {
        var i :| 0 <= i < |s.topOs| && s.topOs[i] == row;
      } else {
        var i :| 0 <= i < |s.topDevices| && s.topDevices[i] == row;
      }
    }
  }

  datatype GeoAggs = GeoAggs(byProvince: Option<seq<TermBucket>>, byCity: Option<seq<TermBucket>>)

  datatype GeoDistribution = GeoDistribution(provinces: seq<PageRow>, cities: seq<PageRow>)

  /** `queryGeoDistribution` shaping (reads `body` aggregations only). */
  function ShapeGeo(r: Fetch<Envelope<GeoAggs>>): (s: GeoDistribution)
    ensures r.Threw? || r.value.body.None? ==> s == GeoDistribution([], [])
    ensures r.Fetched? && r.value.body.Some? ==>
              s == GeoDistribution(CountRows(r.value.body.value.byProvince), CountRows(r.value.body.value.byCity))
  {
    match r
    case Threw => GeoDistribution([], [])
    case Fetched(e) =>
      match e.body
      case None => GeoDistribution([], [])
      case Some(a) => GeoDistribution(CountRows(a.byProvince), CountRows(a.byCity))
  }

  /** Where the aggregations are read from differs between the queries:
      traffic, HTTP errors and JS errors fall back to the top level of the
      response, while performance, top lists and geography read only
      `body`, so an answer carrying its aggregations at the top level shapes
      like a failed call for those three. */
  lemma TopLevelReadByOnlySome(t: TrafficAggs, h: HttpErrorAggs, j: JsErrorAggs,
                               p: PerformanceAggs, top: TopAggs, g: GeoAggs)
    ensures ShapeTraffic(Fetched(Envelope(None, Some(t)))) == ShapeTraffic(Fetched(Envelope(Some(t), None)))
    ensures ShapeHttpErrors(Fetched(Envelope(None, Some(h)))) == ShapeHttpErrors(Fetched(Envelope(Some(h), None)))
    ensures ShapeJsErrors(Fetched(Envelope(None, Some(j)))) == ShapeJsErrors(Fetched(Envelope(Some(j), None)))
    ensures ShapePerformance(Fetched(Envelope(None, Some(p)))) == ShapePerformance(Threw)
    ensures ShapeTop(Fetched(Envelope(None, Some(top)))) == ShapeTop(Threw)
    ensures ShapeGeo(Fetched(Envelope(None, Some(g)))) == ShapeGeo(Threw)
  {
  }
}
