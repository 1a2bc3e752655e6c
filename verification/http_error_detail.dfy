/** `GET /api/http-error/detail`: the paged list of request samples, newest
    first, filterable by window, URL, page and outcome. */
module HttpErrorDetailRoute {
  import opened Common
  import opened Numbers
  import opened Directory
  import opened Api
  import opened Query
  import opened Paging

  const MSG_HTTP_DETAIL_FAILED := "获取 HTTP 详细数据失败"

  datatype HttpDetailParams = HttpDetailParams(appId: Option<string>, url: Option<string>, link: Option<string>,
                                               requestType: Option<string>,
                                               startTime: Option<string>, endTime: Option<string>,
                                               from: Option<string>, size: Option<string>)

  /** The filter: app, kind `request`, then a window in milliseconds when
      both bounds are given, a URL match, a page match on `link` and an
      exact outcome term, each only when supplied. */
  function HttpDetailClauses(appId: string, params: HttpDetailParams, parse: string -> Instant): (must: seq<Clause>)
    ensures |must| >= 2 && must[0] == TenantTerm(appId) && must[1] == KindTerm("request")
    ensures HasRangeOn(must, TIME_FIELD) <==> Present(params.startTime) && Present(params.endTime)
    ensures Present(params.startTime) && Present(params.endTime) ==>
              Range(TIME_FIELD, Some(Millis(parse(params.startTime.value))), Some(Millis(parse(params.endTime.value)))) in must
    ensures HasMatchOn(must, "url") <==> Present(params.url)
    ensures Present(params.url) ==> Match("url", params.url.value) in must
    ensures HasMatchOn(must, "pageUrl") <==> Present(params.link)
    ensures Present(params.link) ==> Match("pageUrl", params.link.value) in must
    ensures HasTermOn(must, "requestType") <==> Present(params.requestType)
    ensures Present(params.requestType) ==> OutcomeTerm(params.requestType.value) in must
  {
    var head := [TenantTerm(appId), KindTerm("request")];
    var time := BothBoundsMillis(params.startTime, params.endTime, parse);
    var url := MatchIfPresent("url", params.url);
    var link := MatchIfPresent("pageUrl", params.link);
    var outcome := if Present(params.requestType) then [OutcomeTerm(params.requestType.value)] else [];
    DetailPresence(head, time, url, link, outcome);
    head + time + (url + link) + outcome
  }

  /** Which fields the five parts of the detail filter constrain. */
  lemma DetailPresence(head: seq<Clause>, time: seq<Clause>, url: seq<Clause>, link: seq<Clause>, outcome: seq<Clause>)
    requires |head| == 2 && head[0].Term? && head[1].Term? && head[0].field == "appId" && head[1].field == "type"
    requires |time| <= 1 && (|time| == 1 ==> time[0].Range? && time[0].field == TIME_FIELD)
    requires |url| <= 1 && (|url| == 1 ==> url[0].Match? && url[0].field == "url")
    requires |link| <= 1 && (|link| == 1 ==> link[0].Match? && link[0].field == "pageUrl")
    requires |outcome| <= 1 && (|outcome| == 1 ==> outcome[0].Term? && outcome[0].field == "requestType")
    ensures HasRangeOn(head + time + (url + link) + outcome, TIME_FIELD) <==> |time| == 1
    ensures HasMatchOn(head + time + (url + link) + outcome, "url") <==> |url| == 1
    ensures HasMatchOn(head + time + (url + link) + outcome, "pageUrl") <==> |link| == 1
    ensures HasTermOn(head + time + (url + link) + outcome, "requestType") <==> |outcome| == 1
  {
    var matches := url + link;
    HasOnConcat(url, link, "url");
    HasOnConcat(url, link, "pageUrl");
    HasOnConcat(url, link, "requestType");
    HasOnConcat(url, link, TIME_FIELD);
    HasOnOptional(url, "url");
    HasOnOptional(url, "pageUrl");
    HasOnOptional(url, "requestType");
    HasOnOptional(url, TIME_FIELD);
    HasOnOptional(link, "url");
    HasOnOptional(link, "pageUrl");
    HasOnOptional(link, "requestType");
    HasOnOptional(link, TIME_FIELD);
    HasOnConcat4(head, time, matches, outcome, TIME_FIELD);
    HasOnConcat4(head, time, matches, outcome, "url");
    HasOnConcat4(head, time, matches, outcome, "pageUrl");
    HasOnConcat4(head, time, matches, outcome, "requestType");
    HasOnTermsOnly(head, TIME_FIELD);
    HasOnTermsOnly(head, "url");
    HasOnTermsOnly(head, "pageUrl");
    HasOnOptional(time, TIME_FIELD);
    HasOnOptional(time, "url");
    HasOnOptional(time, "pageUrl");
    HasOnOptional(time, "requestType");
    HasOnOptional(outcome, TIME_FIELD);
    HasOnOptional(outcome, "url");
    HasOnOptional(outcome, "pageUrl");
    HasOnOptional(outcome, "requestType");
    assert !HasTermOn(head, "requestType") by { assert head[0].field == "appId" && head[1].field == "type"; }
  }

  /** The `_source` of a request sample. */
  datatype RequestSource = RequestSource(url: Option<string>, httpMethod: Option<string>, status: Option<int>,
                                         requestType: Option<string>, cost: Option<real>,
                                         pageUrl: Option<string>, userTimeStamp: Option<int>,
                                         browserName: Option<string>, osName: Option<string>,
                                         province: Option<string>, city: Option<string>)

  /** A list row: `{ id, ...source }` with `cost` defaulted to 0. */
  datatype RequestRow = RequestRow(id: string, source: RequestSource, cost: real)

  function RequestRowOf(id: string, s: RequestSource): (row: RequestRow)
    ensures row.id == id && row.source == s && row.cost == OrZeroReal(s.cost)
  {
    RequestRow(id, s, OrZeroReal(s.cost))
  }

  /** The request: the filter, the page, newest first. */
  datatype DetailRequest = DetailRequest(must: seq<Clause>, from: Option<int>, size: Option<int>, newestFirst: bool)

  function DetailRequestOf(appId: string, params: HttpDetailParams, parse: string -> Instant): (q: DetailRequest)
    ensures q.must == HttpDetailClauses(appId, params, parse)
    ensures q.from == IntParam(params.from, "0") && q.size == IntParam(params.size, "20") && q.newestFirst
  {
    var bounds := PageBounds(params.from, params.size, "20");
    DetailRequest(HttpDetailClauses(appId, params, parse), bounds.0, bounds.1, true)
  }

  function HttpErrorDetail(userId: Option<int>, params: HttpDetailParams, apps: Fetch<seq<App>>,
                           search: Fetch<Envelope<Hits<RequestSource>>>): (r: Reply<Page<RequestRow>>)
    ensures var g := OwnedAppGate(userId, params.appId, apps, MSG_HTTP_DETAIL_FAILED);
            && (g.Deny? ==> r == Refuse(g.code, g.status, g.message))
            && (g.Admit? ==> r.code == SUCCESS && r.status == 200 && r.data.Some?)
    ensures r.data.Some? ==>
              r.data.value == ShapePage(search, RequestRowOf, IntParam(params.from, "0"), IntParam(params.size, "20"))
    ensures r.data.Some? && search.Threw? ==>
              r.data.value == Page([], 0, IntParam(params.from, "0"), IntParam(params.size, "20"))
  {
    var g := OwnedAppGate(userId, params.appId, apps, MSG_HTTP_DETAIL_FAILED);
    if g.Deny? then Denied(g)
    else
      var bounds := PageBounds(params.from, params.size, "20");
      Answer(MSG_OK, ShapePage(search, RequestRowOf, bounds.0, bounds.1))
  }
}
