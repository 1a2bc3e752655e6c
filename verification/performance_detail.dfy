/** `GET /api/performance/detail`: the paged list of performance samples,
    newest first, filterable by page, time window and white-screen bucket. */
module PerformanceDetailRoute {
  import opened Common
  import opened Numbers
  import opened Directory
  import opened Api
  import opened Query
  import opened Paging

  const MSG_PERF_DETAIL_FAILED := "获取性能详细数据失败"
  const WHITE_TIME_FIELD := "whiteTime"

  datatype PerfDetailParams = PerfDetailParams(appId: Option<string>, pageUrl: Option<string>,
                                               startTime: Option<string>, endTime: Option<string>,
                                               whiteTimeRange: Option<string>,
                                               from: Option<string>, size: Option<string>)

  /** The `whiteTimeRange` switch: '1' is at most 1s, '2' is 1–2s, '3' is
      2–3s, '4' is at least 3s, all inclusive; any other code leaves the
      range empty. */
  function WhiteTimeBounds(code: string): (b: (Option<Bound>, Option<Bound>))
    ensures code == "1" ==> b == (None, Some(Plain(1000)))
    ensures code == "2" ==> b == (Some(Plain(1000)), Some(Plain(2000)))
    ensures code == "3" ==> b == (Some(Plain(2000)), Some(Plain(3000)))
    ensures code == "4" ==> b == (Some(Plain(3000)), None)
    ensures code !in {"1", "2", "3", "4"} ==> b == (None, None)
  {
    if code == "1" then (None, Some(Plain(1000)))
    else if code == "2" then (Some(Plain(1000)), Some(Plain(2000)))
    else if code == "3" then (Some(Plain(2000)), Some(Plain(3000)))
    else if code == "4" then (Some(Plain(3000)), None)
    else (None, None)
  }

  /** Whether a white-screen time satisfies the bounds of a range clause. */
  predicate WithinBounds(t: int, b: (Option<Bound>, Option<Bound>)) {
    (b.0.None? || (b.0.value.Plain? && b.0.value.n <= t)) && (b.1.None? || (b.1.value.Plain? && t <= b.1.value.n))
  }

  /** The four codes cover every non-negative duration, and each boundary
      1000, 2000, 3000 lies in the two buckets it separates. */
  lemma WhiteTimeBucketsCover(t: nat)
    ensures WithinBounds(t, WhiteTimeBounds("1")) || WithinBounds(t, WhiteTimeBounds("2"))
            || WithinBounds(t, WhiteTimeBounds("3")) || WithinBounds(t, WhiteTimeBounds("4"))
    ensures WithinBounds(1000, WhiteTimeBounds("1")) && WithinBounds(1000, WhiteTimeBounds("2"))
    ensures WithinBounds(2000, WhiteTimeBounds("2")) && WithinBounds(2000, WhiteTimeBounds("3"))
    ensures WithinBounds(3000, WhiteTimeBounds("3")) && WithinBounds(3000, WhiteTimeBounds("4"))
    ensures t < 1000 ==> !WithinBounds(t, WhiteTimeBounds("2"))
    ensures t > 3000 ==> !WithinBounds(t, WhiteTimeBounds("3"))
  {
  }

  /** The filter: app, kind `performance`, then a window in milliseconds
      when both bounds are given, a page match, and a white-screen range
      whenever the code is non-empty. */
  function PerfDetailClauses(appId: string, params: PerfDetailParams, parse: string -> Instant): (must: seq<Clause>)
    ensures |must| >= 2 && must[0] == TenantTerm(appId) && must[1] == KindTerm("performance")
    ensures HasRangeOn(must, TIME_FIELD) <==> Present(params.startTime) && Present(params.endTime)
    ensures Present(params.startTime) && Present(params.endTime) ==>
              Range(TIME_FIELD, Some(Millis(parse(params.startTime.value))), Some(Millis(parse(params.endTime.value)))) in must
    ensures HasMatchOn(must, "pageUrl") <==> Present(params.pageUrl)
    ensures Present(params.pageUrl) ==> Match("pageUrl", params.pageUrl.value) in must
    ensures HasRangeOn(must, WHITE_TIME_FIELD) <==> Present(params.whiteTimeRange)
    ensures Present(params.whiteTimeRange) ==>
              var b := WhiteTimeBounds(params.whiteTimeRange.value);
              Range(WHITE_TIME_FIELD, b.0, b.1) in must
  {
    var head := [TenantTerm(appId), KindTerm("performance")];
    var time := BothBoundsMillis(params.startTime, params.endTime, parse);
    var page := MatchIfPresent("pageUrl", params.pageUrl);
    var white := if Present(params.whiteTimeRange) then
                   var b := WhiteTimeBounds(params.whiteTimeRange.value);
                   [Range(WHITE_TIME_FIELD, b.0, b.1)]
                 else [];
    forall field | field in {TIME_FIELD, "pageUrl", WHITE_TIME_FIELD}
      ensures HasRangeOn(head + time + page + white, field) <==>
                HasRangeOn(time, field) || HasRangeOn(page, field) || HasRangeOn(white, field)
      ensures HasMatchOn(head + time + page + white, field) <==>
                HasMatchOn(time, field) || HasMatchOn(page, field) || HasMatchOn(white, field)
    {
      HasOnTermsOnly(head, field);
      HasOnConcat4(head, time, page, white, field);
    }
    HasOnOptional(time, TIME_FIELD);
    HasOnOptional(page, TIME_FIELD);
    HasOnOptional(white, TIME_FIELD);
    HasOnOptional(time, "pageUrl");
    HasOnOptional(page, "pageUrl");
    HasOnOptional(white, "pageUrl");
    HasOnOptional(time, WHITE_TIME_FIELD);
    HasOnOptional(page, WHITE_TIME_FIELD);
    HasOnOptional(white, WHITE_TIME_FIELD);
    head + time + page + white
  }

  /** The `_source` of a performance sample: pass-through fields and the
      seven timings. */
  datatype PerfSource = PerfSource(pageUrl: Option<string>, domain: Option<string>, userTimeStamp: Option<int>,
                                   browserName: Option<string>, osName: Option<string>,
                                   province: Option<string>, city: Option<string>,
                                   fcp: Option<real>, lcp: Option<real>, fid: Option<real>, ttfb: Option<real>,
                                   dnsTime: Option<real>, tcpTime: Option<real>, whiteTime: Option<real>)

  /** A list row: `{ id, ...source }` with each timing defaulted to 0. */
  datatype PerfRow = PerfRow(id: string, source: PerfSource, fcp: real, lcp: real, fid: real, ttfb: real,
                             dnsTime: real, tcpTime: real, whiteTime: real)

  function PerfRowOf(id: string, s: PerfSource): (row: PerfRow)
    ensures row.id == id && row.source == s
    ensures row.fcp == OrZeroReal(s.fcp) && row.lcp == OrZeroReal(s.lcp) && row.fid == OrZeroReal(s.fid)
    ensures row.ttfb == OrZeroReal(s.ttfb) && row.dnsTime == OrZeroReal(s.dnsTime)
    ensures row.tcpTime == OrZeroReal(s.tcpTime) && row.whiteTime == OrZeroReal(s.whiteTime)
  {
    PerfRow(id, s, OrZeroReal(s.fcp), OrZeroReal(s.lcp), OrZeroReal(s.fid), OrZeroReal(s.ttfb),
            OrZeroReal(s.dnsTime), OrZeroReal(s.tcpTime), OrZeroReal(s.whiteTime))
  }

  /** The handler: the shared gate, then the page. Nothing after the gate
      can fail, since a failed search answers with an empty page. */
  function PerformanceDetail(userId: Option<int>, params: PerfDetailParams, apps: Fetch<seq<App>>,
                             parse: string -> Instant, search: Fetch<Envelope<Hits<PerfSource>>>): (r: Reply<Page<PerfRow>>)
    ensures var g := OwnedAppGate(userId, params.appId, apps, MSG_PERF_DETAIL_FAILED);
            && (g.Deny? ==> r == Refuse(g.code, g.status, g.message))
            && (g.Admit? ==> r.code == SUCCESS && r.status == 200 && r.data.Some?)
    ensures r.data.Some? ==> r.data.value == ShapePage(search, PerfRowOf, IntParam(params.from, "0"), IntParam(params.size, "20"))
    ensures r.data.Some? && search.Threw? ==> r.data.value.list == [] && r.data.value.total == 0
  {
    var g := OwnedAppGate(userId, params.appId, apps, MSG_PERF_DETAIL_FAILED);
    if g.Deny? then Denied(g)
    else
      var bounds := PageBounds(params.from, params.size, "20");
      Answer(MSG_OK, ShapePage(search, PerfRowOf, bounds.0, bounds.1))
  }

  /** `size` defaults to 20. */
  lemma DefaultPageSize(size: Option<string>)
    requires !Present(size)
    ensures IntParam(size, "20") == Some(20)
  {
    ParseIntOfIntToString(20);
    assert IntToString(20) == "20";
  }
}
