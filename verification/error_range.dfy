/** `GET /api/http-error/range` and `GET /api/js-error/range`: error totals
    over a window, grouped by status and URL (HTTP) or by message and file
    (JS), with an hourly distribution. */
module ErrorRangeRoutes {
  import opened Common
  import opened Numbers
  import opened Directory
  import opened Api
  import opened Query

  const MSG_HTTP_RANGE_FAILED := "获取 HTTP 错误范围失败"
  const MSG_JS_RANGE_FAILED := "获取 JS 错误范围失败"

  datatype HttpRangeParams = HttpRangeParams(appId: Option<string>, startTime: Option<string>, endTime: Option<string>,
                                             url: Option<string>, statusCode: Option<string>)

  /** `{ term: { status: parseInt(statusCode) } }`; NaN when it does not parse. */
  function StatusTerm(statusCode: string): (c: Clause)
    ensures c.Term? && c.field == "status"
    ensures ParseIntJs(statusCode).Some? ==> c.value == Num(ParseIntJs(statusCode).value)
    ensures ParseIntJs(statusCode).None? ==> c.value == NotANumber
  {
    match ParseIntJs(statusCode)
    case Some(n) => Term("status", Num(n))
    case None => Term("status", NotANumber)
  }

  /** The HTTP filter: app, kind `request`, outcome `error`, then an ISO
      window when both bounds are given (an invalid date throws), a URL
      match and a status term, each only when supplied. */
  function HttpRangeClauses(appId: string, params: HttpRangeParams, parse: string -> Instant): (r: Fetch<seq<Clause>>)
    ensures r.Threw? <==> BothBoundsIso(params.startTime, params.endTime, parse).Threw?
    ensures r.Fetched? ==>
              && |r.value| >= 3
              && r.value[..3] == [TenantTerm(appId), KindTerm("request"), OutcomeTerm("error")]
              && (HasRangeOn(r.value, TIME_FIELD) <==> Present(params.startTime) && Present(params.endTime))
              && (HasMatchOn(r.value, "url") <==> Present(params.url))
              && (Present(params.url) ==> Match("url", params.url.value) in r.value)
              && (HasTermOn(r.value, "status") <==> Present(params.statusCode))
              && (Present(params.statusCode) ==> StatusTerm(params.statusCode.value) in r.value)
  {
    match BothBoundsIso(params.startTime, params.endTime, parse)
    case Threw => Threw
    case Fetched(time) =>
      var head := [TenantTerm(appId), KindTerm("request"), OutcomeTerm("error")];
      var url := MatchIfPresent("url", params.url);
      var status := if Present(params.statusCode) then [StatusTerm(params.statusCode.value)] else [];
      HttpRangePresence(head, time, url, status);
      Fetched(head + time + url + status)
  }

  /** Which fields the four parts of the HTTP filter constrain. */
  lemma HttpRangePresence(head: seq<Clause>, time: seq<Clause>, url: seq<Clause>, status: seq<Clause>)
    requires |head| == 3 && head[0].Term? && head[1].Term? && head[2].Term?
    requires head[0].field == "appId" && head[1].field == "type" && head[2].field == "requestType"
    requires |time| <= 1 && (|time| == 1 ==> time[0].Range? && time[0].field == TIME_FIELD)
    requires |url| <= 1 && (|url| == 1 ==> url[0].Match? && url[0].field == "url")
    requires |status| <= 1 && (|status| == 1 ==> status[0].Term? && status[0].field == "status")
    ensures HasRangeOn(head + time + url + status, TIME_FIELD) <==> |time| == 1
    ensures HasMatchOn(head + time + url + status, "url") <==> |url| == 1
    ensures HasTermOn(head + time + url + status, "status") <==> |status| == 1
  {
    HasOnConcat4(head, time, url, status, TIME_FIELD);
    HasOnConcat4(head, time, url, status, "url");
    HasOnConcat4(head, time, url, status, "status");
    HasOnTermsOnly(head, TIME_FIELD);
    HasOnTermsOnly(head, "url");
    HasOnOptional(time, "url");
    HasOnOptional(time, "status");
    HasOnOptional(url, TIME_FIELD);
    HasOnOptional(url, "status");
    HasOnOptional(status, TIME_FIELD);
    HasOnOptional(status, "url");
  }

  /** The HTTP aggregations, read from the top level of the response. */
  datatype HttpRangeAggs = HttpRangeAggs(totalErrors: Option<nat>, byStatus: Option<seq<KeyBucket<int>>>,
                                         byUrl: Option<seq<KeyBucket<string>>>, timeDistribution: Option<seq<HistBucket>>)

  datatype HttpRangeData = HttpRangeData(totalErrors: nat, byStatus: seq<(int, nat)>, byUrl: seq<(string, nat)>,
                                         timeDistribution: seq<(TimeLabel, nat)>)

  const EMPTY_HTTP_RANGE := HttpRangeData(0, [], [], [])

  function ShapeHttpRange(aggs: Option<HttpRangeAggs>): (d: HttpRangeData)
    ensures aggs.None? ==> d == EMPTY_HTTP_RANGE
    ensures aggs.Some? ==> d.totalErrors == OrZero(aggs.value.totalErrors)
    ensures aggs.Some? ==> d.byStatus == KeyCounts(aggs.value.byStatus) && d.byUrl == KeyCounts(aggs.value.byUrl)
    ensures aggs.Some? ==> d.timeDistribution == TimeCounts(aggs.value.timeDistribution)
  {
    match aggs
    case None => EMPTY_HTTP_RANGE
    case Some(a) => HttpRangeData(OrZero(a.totalErrors), KeyCounts(a.byStatus), KeyCounts(a.byUrl),
                                  TimeCounts(a.timeDistribution))
  }

  function HttpErrorRange(userId: Option<int>, params: HttpRangeParams, apps: Fetch<seq<App>>,
                          parse: string -> Instant, search: Fetch<Option<HttpRangeAggs>>): (r: Reply<HttpRangeData>)
    ensures var g := OwnedAppGate(userId, params.appId, apps, MSG_HTTP_RANGE_FAILED);
            && (g.Deny? ==> r == Refuse(g.code, g.status, g.message))
            && (g.Admit? && HttpRangeClauses(g.appId, params, parse).Threw? ==>
                  r == Refuse(PARAM_ERROR, 500, MSG_HTTP_RANGE_FAILED))
            && (g.Admit? && HttpRangeClauses(g.appId, params, parse).Fetched? ==>
                  r.code == SUCCESS && r.status == 200 && r.data.Some?)
    ensures r.data.Some? && search.Threw? ==> r.data.value == EMPTY_HTTP_RANGE
    ensures r.data.Some? && search.Fetched? ==> r.data.value == ShapeHttpRange(search.value)
  {
    var g := OwnedAppGate(userId, params.appId, apps, MSG_HTTP_RANGE_FAILED);
    if g.Deny? then Denied(g)
    else match HttpRangeClauses(g.appId, params, parse)
      case Threw => Refuse(PARAM_ERROR, 500, MSG_HTTP_RANGE_FAILED)
      case Fetched(_) =>
        var data := match search
          case Threw => EMPTY_HTTP_RANGE
          case Fetched(aggs) => ShapeHttpRange(aggs);
        Answer(MSG_OK, data)
  }

  datatype JsRangeParams = JsRangeParams(appId: Option<string>, startTime: Option<string>, endTime: Option<string>,
                                         message: Option<string>, filename: Option<string>)

  /** The JS filter: app, kind `jsError`, then an ISO window when both
      bounds are given (an invalid date throws), and message and file
      matches, each only when supplied. */
  function JsRangeClauses(appId: string, params: JsRangeParams, parse: string -> Instant): (r: Fetch<seq<Clause>>)
    ensures r.Threw? <==> BothBoundsIso(params.startTime, params.endTime, parse).Threw?
    ensures r.Fetched? ==>
              && |r.value| >= 2
              && r.value[..2] == [TenantTerm(appId), KindTerm("jsError")]
              && (HasRangeOn(r.value, TIME_FIELD) <==> Present(params.startTime) && Present(params.endTime))
              && (HasMatchOn(r.value, "message") <==> Present(params.message))
              && (Present(params.message) ==> Match("message", params.message.value) in r.value)
              && (HasMatchOn(r.value, "filename") <==> Present(params.filename))
              && (Present(params.filename) ==> Match("filename", params.filename.value) in r.value)
  {
    match BothBoundsIso(params.startTime, params.endTime, parse)
    case Threw => Threw
    case Fetched(time) =>
      var head := [TenantTerm(appId), KindTerm("jsError")];
      var message := MatchIfPresent("message", params.message);
      var filename := MatchIfPresent("filename", params.filename);
      HasOnConcat4(head, time, message, filename, TIME_FIELD);
      HasOnConcat4(head, time, message, filename, "message");
      HasOnConcat4(head, time, message, filename, "filename");
      HasOnTermsOnly(head, TIME_FIELD);
      HasOnTermsOnly(head, "message");
      HasOnTermsOnly(head, "filename");
      HasOnOptional(time, TIME_FIELD);
      HasOnOptional(time, "message");
      HasOnOptional(time, "filename");
      HasOnOptional(message, TIME_FIELD);
      HasOnOptional(message, "message");
      HasOnOptional(message, "filename");
      HasOnOptional(filename, TIME_FIELD);
      HasOnOptional(filename, "message");
      HasOnOptional(filename, "filename");
      Fetched(head + time + message + filename)
  }

  /** The JS aggregations, read from `result.body?.aggregations`. */
  datatype JsRangeAggs = JsRangeAggs(totalErrors: Option<nat>, affectedUsers: Option<nat>,
                                     byMessage: Option<seq<KeyBucket<string>>>,
                                     byFilename: Option<seq<KeyBucket<string>>>,
                                     timeDistribution: Option<seq<HistBucket>>)

  datatype JsRangeData = JsRangeData(totalErrors: nat, affectedUsers: nat, byMessage: seq<(string, nat)>,
                                     byFilename: seq<(string, nat)>, timeDistribution: seq<(TimeLabel, nat)>)

  const EMPTY_JS_RANGE := JsRangeData(0, 0, [], [], [])

  function ShapeJsRange(aggs: Option<JsRangeAggs>): (d: JsRangeData)
    ensures aggs.None? ==> d == EMPTY_JS_RANGE
    ensures aggs.Some? ==> d.totalErrors == OrZero(aggs.value.totalErrors)
                           && d.affectedUsers == OrZero(aggs.value.affectedUsers)
    ensures aggs.Some? ==> d.byMessage == KeyCounts(aggs.value.byMessage)
                           && d.byFilename == KeyCounts(aggs.value.byFilename)
    ensures aggs.Some? ==> d.timeDistribution == TimeCounts(aggs.value.timeDistribution)
  {
    match aggs
    case None => EMPTY_JS_RANGE
    case Some(a) => JsRangeData(OrZero(a.totalErrors), OrZero(a.affectedUsers), KeyCounts(a.byMessage),
                                KeyCounts(a.byFilename), TimeCounts(a.timeDistribution))
  }

  function JsErrorRange(userId: Option<int>, params: JsRangeParams, apps: Fetch<seq<App>>,
                        parse: string -> Instant, search: Fetch<Option<JsRangeAggs>>): (r: Reply<JsRangeData>)
    ensures var g := OwnedAppGate(userId, params.appId, apps, MSG_JS_RANGE_FAILED);
            && (g.Deny? ==> r == Refuse(g.code, g.status, g.message))
            && (g.Admit? && JsRangeClauses(g.appId, params, parse).Threw? ==>
                  r == Refuse(PARAM_ERROR, 500, MSG_JS_RANGE_FAILED))
            && (g.Admit? && JsRangeClauses(g.appId, params, parse).Fetched? ==>
                  r.code == SUCCESS && r.status == 200 && r.data.Some?)
    ensures r.data.Some? && search.Threw? ==> r.data.value == EMPTY_JS_RANGE
    ensures r.data.Some? && search.Fetched? ==> r.data.value == ShapeJsRange(search.value)
  {
    var g := OwnedAppGate(userId, params.appId, apps, MSG_JS_RANGE_FAILED);
    if g.Deny? then Denied(g)
    else match JsRangeClauses(g.appId, params, parse)
      case Threw => Refuse(PARAM_ERROR, 500, MSG_JS_RANGE_FAILED)
      case Fetched(_) =>
        var data := match search
          case Threw => EMPTY_JS_RANGE
          case Fetched(aggs) => ShapeJsRange(aggs);
        Answer(MSG_OK, data)
  }

  /** A failed store call and a response without aggregations shape alike. */
  lemma RangeFailsOpen(userId: Option<int>, hp: HttpRangeParams, jp: JsRangeParams, apps: Fetch<seq<App>>,
                       parse: string -> Instant)
    ensures HttpErrorRange(userId, hp, apps, parse, Threw) == HttpErrorRange(userId, hp, apps, parse, Fetched(None))
    ensures JsErrorRange(userId, jp, apps, parse, Threw) == JsErrorRange(userId, jp, apps, parse, Fetched(None))
  {
  }
}
