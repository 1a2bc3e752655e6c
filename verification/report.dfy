/** `GET /api/report`: the public ingestion endpoint. It validates the
    parameters and the target app, stamps every reported item with the app,
    the caller's User-Agent and location, and hands the batch to the store. */
module ReportRoute {
  import opened Common
  import opened Directory
  import opened Api
  import opened ReportTypes
  import opened Ip

  const MSG_MISSING_PARAMS := "缺少必要参数 appId 或 data"
  const MSG_BAD_FORMAT := "数据格式错误，data 必须是 JSON 数组"
  const MSG_NO_APP := "应用不存在"
  const MSG_APP_DISABLED := "应用未启用"
  const MSG_REPORTED := "数据上报成功"
  const MSG_SAVE_FAILED := "数据保存失败"
  const MSG_SERVER_ERROR := "服务器错误"

  /** `JSON.parse(data)` and the array check. */
  datatype ParsedData = NotJson | NotArray | Items(items: seq<ReportItem>)

  /** What the request carries. */
  datatype ReportRequest = ReportRequest(appId: Option<string>, data: Option<string>, userAgent: Option<string>,
                                         headers: Headers)

  /** The answer, and the batch handed to the store when one was. */
  datatype ReportResult = ReportResult(reply: Reply<()>, saved: Option<seq<ReportItem>>)

  /** The enrichment fields for one request: the same for every item. */
  function UaFields(parseUa: string -> UaMsg, userAgent: Option<string>): UaMsg {
    parseUa(OrStr(userAgent, ""))
  }

  function IpFields(headers: Headers): (m: IpMsg)
    ensures m.ip == Some(GetUserIp(headers))
    ensures var loc := GetIpAddress(GetUserIp(headers));
            m.province == Some(loc.province) && m.country == Some(loc.country) && m.city == Some(loc.city)
  {
    var ip := GetUserIp(headers);
    var loc := GetIpAddress(ip);
    IpMsg(Some(ip), Some(loc.province), Some(loc.city), Some(loc.country))
  }

  /** `{ ...item, appId, <UA fields>, ip, province, country, city }`. */
  function Enrich(item: ReportItem, appId: string, ua: UaMsg, ip: IpMsg): (e: ReportItem)
    ensures e.appId == appId && e.uaMsg == ua && e.ipMsg == ip
    ensures e.payload == item.payload && e.page == item.page && e.userTimeStamp == item.userTimeStamp
    ensures e.markUserId == item.markUserId && e.userId == item.userId
  {
    item.(appId := appId, uaMsg := ua, ipMsg := ip)
  }

  function EnrichAll(items: seq<ReportItem>, appId: string, ua: UaMsg, ip: IpMsg): (batch: seq<ReportItem>)
    ensures |batch| == |items|
    ensures forall i :: 0 <= i < |items| ==> batch[i] == Enrich(items[i], appId, ua, ip)
  {
    seq(|items|, i requires 0 <= i < |items| => Enrich(items[i], appId, ua, ip))
  }

  /** The handler: parameters, then format, then app existence, then app
      status, then the save. `save` reports whether the bulk write
      succeeded; a thrown lookup or save lands in the outer catch. */
  function Report(req: ReportRequest, parse: string -> ParsedData, apps: Fetch<seq<App>>,
                  parseUa: string -> UaMsg, save: seq<ReportItem> -> Fetch<bool>): (r: ReportResult)
    ensures !Present(req.appId) || !Present(req.data) ==>
              r == ReportResult(Refuse(PARAM_ERROR, 400, MSG_MISSING_PARAMS), None)
    ensures Present(req.appId) && Present(req.data) && !parse(req.data.value).Items? ==>
              r == ReportResult(Refuse(PARAM_ERROR, 400, MSG_BAD_FORMAT), None)
    ensures Present(req.appId) && Present(req.data) && parse(req.data.value).Items? && apps.Fetched? ==>
              var app := AppById(apps.value, req.appId.value);
              && (app.None? ==> r == ReportResult(Refuse(PARAM_ERROR, 404, MSG_NO_APP), None))
              && (app.Some? && app.value.status != 1 ==> r == ReportResult(Refuse(PARAM_ERROR, 403, MSG_APP_DISABLED), None))
    ensures r.saved.Some? <==>
              Present(req.appId) && Present(req.data) && parse(req.data.value).Items? && apps.Fetched?
              && AppById(apps.value, req.appId.value).Some? && AppById(apps.value, req.appId.value).value.status == 1
    ensures r.saved.Some? ==>
              r.saved.value == EnrichAll(parse(req.data.value).items, req.appId.value,
                                         UaFields(parseUa, req.userAgent), IpFields(req.headers))
    ensures r.reply.code == SUCCESS <==> r.saved.Some? && save(r.saved.value) == Fetched(true)
    ensures r.reply.code == SUCCESS ==> r.reply == Reply(SUCCESS, 200, MSG_REPORTED, None)
    ensures r.saved.Some? && save(r.saved.value) == Fetched(false) ==> r.reply == Refuse(PARAM_ERROR, 500, MSG_SAVE_FAILED)
  {
    if !Present(req.appId) || !Present(req.data) then ReportResult(Refuse(PARAM_ERROR, 400, MSG_MISSING_PARAMS), None)
    else match parse(req.data.value)
      case NotJson => ReportResult(Refuse(PARAM_ERROR, 400, MSG_BAD_FORMAT), None)
      case NotArray => ReportResult(Refuse(PARAM_ERROR, 400, MSG_BAD_FORMAT), None)
      case Items(items) =>
        match apps
        case Threw => ReportResult(Refuse(PARAM_ERROR, 500, MSG_SERVER_ERROR), None)
        case Fetched(table) =>
          var app := AppById(table, req.appId.value);
          if app.None? then ReportResult(Refuse(PARAM_ERROR, 404, MSG_NO_APP), None)
          else if app.value.status != 1 then ReportResult(Refuse(PARAM_ERROR, 403, MSG_APP_DISABLED), None)
          else
            var batch := EnrichAll(items, req.appId.value, UaFields(parseUa, req.userAgent), IpFields(req.headers));
            var reply := match save(batch)
              case Threw => Refuse(PARAM_ERROR, 500, MSG_SERVER_ERROR)
              case Fetched(true) => Reply(SUCCESS, 200, MSG_REPORTED, None)
              case Fetched(false) => Refuse(PARAM_ERROR, 500, MSG_SAVE_FAILED);
            ReportResult(reply, Some(batch))
  }

  /** A stored batch has the input's length and order, every item is
      stamped with the request's app id whatever it carried, and all items
      share one set of UA and location fields. */
  lemma BatchIsUniformlyStamped(req: ReportRequest, parse: string -> ParsedData, apps: Fetch<seq<App>>,
                                parseUa: string -> UaMsg, save: seq<ReportItem> -> Fetch<bool>)
    requires Report(req, parse, apps, parseUa, save).saved.Some?
    ensures var batch := Report(req, parse, apps, parseUa, save).saved.value;
            var items := parse(req.data.value).items;
            && |batch| == |items|
            && (forall i :: 0 <= i < |batch| ==> batch[i].appId == req.appId.value)
            && (forall i :: 0 <= i < |batch| ==> batch[i].payload == items[i].payload && batch[i].page == items[i].page)
            && (forall i, j :: 0 <= i < |batch| && 0 <= j < |batch| ==>
                  batch[i].uaMsg == batch[j].uaMsg && batch[i].ipMsg == batch[j].ipMsg)
  {
  }

  /** An empty array passes validation: it reaches the store as an empty
      batch. */
  lemma EmptyBatchAccepted(req: ReportRequest, parse: string -> ParsedData, table: seq<App>,
                           parseUa: string -> UaMsg, save: seq<ReportItem> -> Fetch<bool>)
    requires Present(req.appId) && Present(req.data) && parse(req.data.value) == Items([])
    requires AppById(table, req.appId.value).Some? && AppById(table, req.appId.value).value.status == 1
    ensures Report(req, parse, Fetched(table), parseUa, save).saved == Some([])
  {
  }

  /** Parameter errors are reported before the app is looked up: the
      answer does not depend on the app table. */
  lemma ParamsCheckedFirst(req: ReportRequest, parse: string -> ParsedData, apps: Fetch<seq<App>>, other: Fetch<seq<App>>,
                           parseUa: string -> UaMsg, save: seq<ReportItem> -> Fetch<bool>)
    requires !Present(req.appId) || !Present(req.data) || !parse(req.data.value).Items?
    ensures Report(req, parse, apps, parseUa, save) == Report(req, parse, other, parseUa, save)
    ensures Report(req, parse, apps, parseUa, save).reply.status == 400
  {
  }
}
