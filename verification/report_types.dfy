/** The reported event: one of seven payload kinds, the page it came from,
    the reporting session, and the optional User-Agent and IP fields the
    server fills in. */
module ReportTypes {
  import opened Common

  datatype RequestOutcome = Done | Error | Timeout

  /** `requestType` on the wire. */
  function OutcomeName(o: RequestOutcome): (s: string)
    ensures s in {"done", "error", "timeout"}
  {
    match o
    case Done => "done"
    case Error => "error"
    case Timeout => "timeout"
  }

  function OutcomeByName(s: string): (o: Option<RequestOutcome>)
    ensures o.Some? <==> s in {"done", "error", "timeout"}
    ensures o.Some? ==> OutcomeName(o.value) == s
  {
    if s == "done" then Some(Done)
    else if s == "error" then Some(Error)
    else if s == "timeout" then Some(Timeout)
    else None
  }

  /** The wire name determines the outcome. */
  lemma OutcomeNameRoundTrip(o: RequestOutcome)
    ensures OutcomeByName(OutcomeName(o)) == Some(o)
  {
  }

  /** One loaded resource of a performance sample. */
  datatype ResourceStatus = ResourceStatus(resource: string, duration: real, size: real, kind: string)

  /** The kind-specific part of a report item. */
  datatype Payload =
    | PerformanceMsg(dnsTime: real, tcpTime: real, whiteTime: real, fcp: real, ttfb: real, lcp: real, fid: real,
                     resources: seq<ResourceStatus>)
    | PageStatusMsg(inTime: int, leaveTime: int, residence: int)
    | RequestMsg(url: string, httpMethod: string, reqHeaders: string, reqBody: string, status: int,
                 requestType: RequestOutcome, cost: real)
    | JsErrorMsg(message: string, colno: int, lineno: int, stack: string, filename: string)
    | LoadResourceErrorMsg(resourceType: string, resourceUrl: string)
    | RejectErrorMsg(reason: string)
    | ClickMsg(clickElement: string)

  /** The `type` tag of a payload. */
  function KindTag(p: Payload): (tag: string)
    ensures tag in {"performance", "pageStatus", "request", "jsError", "loadResourceError", "rejectError", "click"}
  {
    match p
    case PerformanceMsg(_, _, _, _, _, _, _, _) => "performance"
    case PageStatusMsg(_, _, _) => "pageStatus"
    case RequestMsg(_, _, _, _, _, _, _) => "request"
    case JsErrorMsg(_, _, _, _, _) => "jsError"
    case LoadResourceErrorMsg(_, _) => "loadResourceError"
    case RejectErrorMsg(_) => "rejectError"
    case ClickMsg(_) => "click"
  }

  /** The tag tells the payload kind apart: two payloads with the same tag
      are of the same kind. */
  lemma KindTagDeterminesKind(p: Payload, q: Payload)
    requires KindTag(p) == KindTag(q)
    ensures p.PerformanceMsg? == q.PerformanceMsg? && p.PageStatusMsg? == q.PageStatusMsg?
    ensures p.RequestMsg? == q.RequestMsg? && p.JsErrorMsg? == q.JsErrorMsg?
    ensures p.LoadResourceErrorMsg? == q.LoadResourceErrorMsg? && p.RejectErrorMsg? == q.RejectErrorMsg?
    ensures p.ClickMsg? == q.ClickMsg?
  {
  }

  /** Where the event happened. */
  datatype PageMsg = PageMsg(isFirst: Option<bool>, domain: string, pageUrl: string)

  /** User-Agent fields, all optional. */
  datatype UaMsg = UaMsg(browserName: Option<string>, browserVersion: Option<string>, browserMajor: Option<string>,
                         osName: Option<string>, osVersion: Option<string>, deviceVendor: Option<string>,
                         deviceModel: Option<string>, ua: Option<string>)

  /** IP and location fields, all optional. */
  datatype IpMsg = IpMsg(ip: Option<string>, province: Option<string>, city: Option<string>, country: Option<string>)

  /** A report item: payload, page, the fields every item carries, then the
      enrichment fields. */
  datatype ReportItem = ReportItem(payload: Payload, page: PageMsg, userTimeStamp: int, markUserId: string,
                                   userId: string, appId: string, uaMsg: UaMsg, ipMsg: IpMsg)

  /** The white-screen filter code of the search request types. */
  newtype WhiteCode = x: int | 1 <= x <= 4 witness 1
}
