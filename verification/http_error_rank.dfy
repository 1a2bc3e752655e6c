/** `GET /api/http-error/rank`: the URLs with the most failed (or, with
    `type` other than `error`, completed) requests, ranked by count. */
module HttpErrorRankRoute {
  import opened Common
  import opened Numbers
  import opened Directory
  import opened Api
  import opened Query

  const MSG_RANK_FAILED := "获取 HTTP 排行失败"
  const STATUS_CODES_PER_URL: nat := 5

  datatype RankParams = RankParams(appId: Option<string>, kind: Option<string>, size: Option<string>)

  /** `searchParams.get('type') || 'error'`. */
  function RankKind(kind: Option<string>): (k: string)
    ensures k != ""
    ensures !Present(kind) ==> k == "error"
    ensures Present(kind) ==> k == kind.value
  {
    OrStr(kind, "error")
  }

  /** The request: the filter, the number of URL buckets (NaN when `size`
      does not parse), buckets count-descending and at most five status
      codes per URL. */
  datatype RankRequest = RankRequest(must: seq<Clause>, size: Option<int>, countDescending: bool, statusSize: nat)

  /** App, kind `request`, then `requestType` error for type `error` and
      `done` for any other type. */
  function RankRequestOf(appId: string, kind: string, size: Option<string>): (r: RankRequest)
    ensures |r.must| == 3 && r.must[0] == TenantTerm(appId) && r.must[1] == KindTerm("request")
    ensures kind == "error" ==> r.must[2] == OutcomeTerm("error")
    ensures kind != "error" ==> r.must[2] == OutcomeTerm("done")
    ensures r.size == IntParam(size, "10")
    ensures r.countDescending && r.statusSize == STATUS_CODES_PER_URL
  {
    var outcome := if kind == "error" then "error" else "done";
    RankRequest([TenantTerm(appId), KindTerm("request"), OutcomeTerm(outcome)],
                IntParam(size, "10"), true, STATUS_CODES_PER_URL)
  }

  /** `size` defaults to 10. */
  lemma DefaultRankSize(size: Option<string>)
    requires !Present(size)
    ensures IntParam(size, "10") == Some(10)
  {
    ParseIntOfIntToString(10);
    assert IntToString(10) == "10";
  }

  /** A URL bucket: key, count, average cost and the status-code buckets. */
  datatype UrlBucket = UrlBucket(key: string, docCount: nat, avgCost: Option<real>,
                                 statusCodes: Option<seq<KeyBucket<int>>>)

  datatype StatusCount = StatusCount(code: int, count: nat)

  datatype RankRow = RankRow(rank: nat, url: string, count: nat, avgCost: real, statusCodes: seq<StatusCount>)

  datatype RankData = RankData(kind: string, rank: seq<RankRow>)

  function StatusCounts(buckets: Option<seq<KeyBucket<int>>>): (rows: seq<StatusCount>)
    ensures buckets.None? ==> rows == []
    ensures buckets.Some? ==> |rows| == |buckets.value|
    ensures buckets.Some? ==> forall i :: 0 <= i < |rows| ==>
              rows[i] == StatusCount(buckets.value[i].key, buckets.value[i].docCount)
  {
    var bs := OrEmpty(buckets);
    seq(|bs|, i requires 0 <= i < |bs| => StatusCount(bs[i].key, bs[i].docCount))
  }

  /** The ranked rows: rank i+1 for bucket i. */
  function RankRows(buckets: seq<UrlBucket>): (rows: seq<RankRow>)
    ensures |rows| == |buckets|
    ensures forall i :: 0 <= i < |rows| ==> rows[i].rank == i + 1
    ensures forall i :: 0 <= i < |rows| ==> rows[i].url == buckets[i].key && rows[i].count == buckets[i].docCount
    ensures forall i :: 0 <= i < |rows| ==>
              rows[i].avgCost == OrZeroReal(buckets[i].avgCost) && rows[i].statusCodes == StatusCounts(buckets[i].statusCodes)
  {
    seq(|buckets|, i requires 0 <= i < |buckets| =>
      RankRow(i + 1, buckets[i].key, buckets[i].docCount, OrZeroReal(buckets[i].avgCost),
              StatusCounts(buckets[i].statusCodes)))
  }

  /** The buckets are read from `result.body?.aggregations` only. */
  datatype RankResult = RankResult(body: Option<RankAggs>)
  datatype RankAggs = RankAggs(byUrl: Option<seq<UrlBucket>>)

  function RankBuckets(result: RankResult): (buckets: seq<UrlBucket>)
    ensures result.body.None? || result.body.value.byUrl.None? ==> buckets == []
    ensures result.body.Some? && result.body.value.byUrl.Some? ==> buckets == result.body.value.byUrl.value
  {
    if result.body.Some? then OrEmpty(result.body.value.byUrl) else []
  }

  function HttpErrorRank(userId: Option<int>, params: RankParams, apps: Fetch<seq<App>>,
                         search: Fetch<RankResult>): (r: Reply<RankData>)
    ensures var g := OwnedAppGate(userId, params.appId, apps, MSG_RANK_FAILED);
            && (g.Deny? ==> r == Refuse(g.code, g.status, g.message))
            && (g.Admit? ==> r.code == SUCCESS && r.status == 200 && r.data.Some?)
    ensures r.data.Some? ==> r.data.value.kind == RankKind(params.kind)
    ensures r.data.Some? && search.Threw? ==> r.data.value.rank == []
    ensures r.data.Some? && search.Fetched? ==> r.data.value.rank == RankRows(RankBuckets(search.value))
  {
    var g := OwnedAppGate(userId, params.appId, apps, MSG_RANK_FAILED);
    if g.Deny? then Denied(g)
    else
      var kind := RankKind(params.kind);
      var rows := match search
        case Threw => []
        case Fetched(result) => RankRows(RankBuckets(result));
      Answer(MSG_OK, RankData(kind, rows))
  }

  /** The request asks for buckets count-descending; given that order, a
      better rank never has fewer requests, and rank k is the k-th bucket. */
  lemma RankOrderFollowsCount(buckets: seq<UrlBucket>, i: nat, j: nat)
    requires forall x, y :: 0 <= x < y < |buckets| ==> buckets[x].docCount >= buckets[y].docCount
    requires i < |buckets| && j < |buckets|
    requires RankRows(buckets)[i].rank < RankRows(buckets)[j].rank
    ensures RankRows(buckets)[i].count >= RankRows(buckets)[j].count
    ensures RankRows(buckets)[i].url == buckets[RankRows(buckets)[i].rank - 1].key
  {
  }
}
