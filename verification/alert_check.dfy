/** `/api/alert/check`: POST runs the checks for one app the caller owns; GET,
    guarded by a shared key, runs them for every active app and reports how
    many runs settled each way. */
module AlertCheckRoute {
  import opened Common
  import opened Directory
  import opened Api
  import opened Alert

  const DEFAULT_ALERT_KEY := "dev-alert-key"
  const MSG_MANUAL_DONE := "告警检查已完成"
  const MSG_MANUAL_FAILED := "告警检查失败"
  const MSG_BULK_DONE := "批量告警检查完成"
  const MSG_BULK_FAILED := "批量告警检查失败"
  const MSG_FORBIDDEN := "无权访问"

  /** The POST answer, with the alerts the run handed to the sink. */
  datatype ManualResult = ManualResult(reply: Reply<()>, sent: seq<AlertMessage>)

  /** POST: login, then the JSON body (a parse failure lands in the catch),
      then `appId`, then ownership, then one run of all checks. */
  function ManualCheck(userId: Option<int>, body: Fetch<Option<string>>, apps: Fetch<seq<App>>,
                       now: int, inputs: CheckInputs): (r: ManualResult)
    ensures !LoggedIn(userId) ==> r.reply == Refuse(NOT_LOGGED_IN, 401, MSG_NOT_LOGGED_IN)
    ensures LoggedIn(userId) && body.Threw? ==> r.reply == Refuse(PARAM_ERROR, 500, MSG_MANUAL_FAILED)
    ensures LoggedIn(userId) && body.Fetched? && !Present(body.value) ==>
              r.reply == Refuse(PARAM_ERROR, 400, MSG_MISSING_APP_ID)
    ensures LoggedIn(userId) && body.Fetched? && Present(body.value) && apps.Threw? ==>
              r.reply == Refuse(PARAM_ERROR, 500, MSG_MANUAL_FAILED)
    ensures LoggedIn(userId) && body.Fetched? && Present(body.value) && apps.Fetched?
            && OwnedApp(apps.value, body.value.value, userId.value).None? ==>
              r.reply == Refuse(PARAM_ERROR, 404, MSG_NO_ACCESS)
    ensures r.reply.code == SUCCESS <==>
              LoggedIn(userId) && body.Fetched? && Present(body.value) && apps.Fetched?
              && OwnedApp(apps.value, body.value.value, userId.value).Some?
    ensures r.reply.code == SUCCESS ==> r.reply == Reply(SUCCESS, 200, MSG_MANUAL_DONE, None)
    ensures r.reply.code != SUCCESS ==> r.sent == []
    ensures r.reply.code == SUCCESS ==>
              r.sent == RaisedAlerts(RunAlertChecks(body.value.value, now, inputs))
  {
    if !LoggedIn(userId) then ManualResult(Refuse(NOT_LOGGED_IN, 401, MSG_NOT_LOGGED_IN), [])
    else match body
      case Threw => ManualResult(Refuse(PARAM_ERROR, 500, MSG_MANUAL_FAILED), [])
      case Fetched(appId) =>
        var g := OwnedAppGate(userId, appId, apps, MSG_MANUAL_FAILED);
        if g.Deny? then ManualResult(Denied(g), [])
        else ManualResult(Reply(SUCCESS, 200, MSG_MANUAL_DONE, None),
                          RaisedAlerts(RunAlertChecks(g.appId, now, inputs)))
  }

  /** Every alert a manual run sends is about the app the caller owns. */
  lemma ManualAlertsAreForOwnedApp(userId: Option<int>, body: Fetch<Option<string>>, apps: Fetch<seq<App>>,
                                   now: int, inputs: CheckInputs)
    ensures var r := ManualCheck(userId, body, apps, now, inputs);
            forall a :: a in r.sent ==>
              exists app :: app in apps.value && app.appId == a.appId && app.createId == userId.value
  {
    var r := ManualCheck(userId, body, apps, now, inputs);
    if r.reply.code == SUCCESS {
      var appId := body.value.value;
      var app := OwnedApp(apps.value, appId, userId.value).value;
      var outcomes := RunAlertChecks(appId, now, inputs);
      forall a | a in r.sent
        ensures app in apps.value && app.appId == a.appId && app.createId == userId.value
      {
        assert Raised(a) in outcomes;
      }
    }
  }

  /** `{ total, success, fail }`. */
  datatype BulkSummary = BulkSummary(total: nat, success: nat, fail: nat)

  /** The GET answer, with the alerts all runs handed to the sink. */
  datatype BulkResult = BulkResult(reply: Reply<BulkSummary>, sent: seq<AlertMessage>)

  /** `process.env.ALERT_API_KEY || 'dev-alert-key'`. */
  function ExpectedKey(env: Option<string>): (k: string)
    ensures k != ""
    ensures Present(env) ==> k == env.value
  {
    OrStr(env, DEFAULT_ALERT_KEY)
  }

  /** How one run settled under `Promise.allSettled`: fulfilled with the
      outcomes of its checks, or rejected. */
  type Settlement = Fetch<seq<CheckOutcome>>

  predicate Fulfilled(s: Settlement) { s.Fetched? }
  predicate Rejected(s: Settlement) { s.Threw? }

  /** `Promise.allSettled(apps.map(app => runAlertChecks(app.appId)))`:
      `inputs` gives what the store and the database answer during each
      app's run. A run is the total `RunAlertChecks`, so it settles
      fulfilled with that app's outcomes. */
  function Settle(active: seq<App>, now: int, inputs: string -> CheckInputs): (r: seq<Settlement>)
    ensures |r| == |active|
    ensures forall i :: 0 <= i < |active| ==>
              Fulfilled(r[i]) && r[i].value == RunAlertChecks(active[i].appId, now, inputs(active[i].appId))
  {
    seq(|active|, i requires 0 <= i < |active| =>
      Fetched(RunAlertChecks(active[i].appId, now, inputs(active[i].appId))))
  }

  /** The alerts the fulfilled runs handed to the sink, run by run. */
  function SentBy(runs: seq<Settlement>): (alerts: seq<AlertMessage>)
    ensures forall a :: a in alerts <==>
              exists i :: 0 <= i < |runs| && Fulfilled(runs[i]) && Raised(a) in runs[i].value
    decreases |runs|
  {
    if |runs| == 0 then []
    else
      var rest := SentBy(runs[1..]);
      assert forall i :: 1 <= i < |runs| ==> runs[i] == runs[1..][i - 1];
      (if Fulfilled(runs[0]) then RaisedAlerts(runs[0].value) else []) + rest
  }

  /** GET: the key must equal the expected one; then one independent run per
      active app, counted by how it settled. */
  function BulkCheck(apiKey: Option<string>, env: Option<string>, apps: Fetch<seq<App>>,
                     now: int, inputs: string -> CheckInputs): (r: BulkResult)
    ensures apiKey != Some(ExpectedKey(env)) ==> r == BulkResult(Refuse(NOT_LOGGED_IN, 401, MSG_FORBIDDEN), [])
    ensures apiKey == Some(ExpectedKey(env)) && apps.Threw? ==>
              r == BulkResult(Refuse(PARAM_ERROR, 500, MSG_BULK_FAILED), [])
    ensures apiKey == Some(ExpectedKey(env)) && apps.Fetched? ==>
              var runs := Settle(ActiveApps(apps.value), now, inputs);
              && r.reply.code == SUCCESS && r.reply.status == 200 && r.reply.message == MSG_BULK_DONE
              && r.reply.data.Some?
              && r.reply.data.value.total == |ActiveApps(apps.value)|
              && r.reply.data.value.success + r.reply.data.value.fail == r.reply.data.value.total
              && r.reply.data.value.success == Count(runs, Fulfilled)
              && r.reply.data.value.fail == Count(runs, Rejected)
              && r.sent == SentBy(runs)
  {
    if apiKey != Some(ExpectedKey(env)) then BulkResult(Refuse(NOT_LOGGED_IN, 401, MSG_FORBIDDEN), [])
    else match apps
      case Threw => BulkResult(Refuse(PARAM_ERROR, 500, MSG_BULK_FAILED), [])
      case Fetched(table) =>
        var active := ActiveApps(table);
        var runs := Settle(active, now, inputs);
        CountSplit(runs, Fulfilled, Rejected);
        BulkResult(Answer(MSG_BULK_DONE, BulkSummary(|active|, Count(runs, Fulfilled), Count(runs, Rejected))),
                   SentBy(runs))
  }

  /** Every check catches its own failure, so no run rejects: whatever the
      store and the database answer, an authorised bulk answer counts every
      active app as a success and none as a failure. */
  lemma BulkRunsNeverFail(apiKey: Option<string>, env: Option<string>, table: seq<App>,
                          now: int, inputs: string -> CheckInputs)
    ensures apiKey == Some(ExpectedKey(env)) ==>
              var r := BulkCheck(apiKey, env, Fetched(table), now, inputs);
              r.reply.data.Some? && r.reply.data.value.fail == 0
              && r.reply.data.value.success == |ActiveApps(table)|
  {
    var runs := Settle(ActiveApps(table), now, inputs);
    CountAll(runs, Fulfilled);
    CountSplit(runs, Fulfilled, Rejected);
  }

  /** A bulk run alerts only about enabled apps, and each of its alerts is
      one its app's own run raised. */
  lemma BulkAlertsAreForActiveApps(apiKey: Option<string>, env: Option<string>, table: seq<App>,
                                   now: int, inputs: string -> CheckInputs)
    ensures forall a :: a in BulkCheck(apiKey, env, Fetched(table), now, inputs).sent ==>
              exists app :: app in table && app.status == 1 && app.appId == a.appId
                            && Raised(a) in RunAlertChecks(app.appId, now, inputs(app.appId))
  {
    var r := BulkCheck(apiKey, env, Fetched(table), now, inputs);
    if apiKey == Some(ExpectedKey(env)) {
      var active := ActiveApps(table);
      var runs := Settle(active, now, inputs);
      forall a | a in r.sent
        ensures exists app :: app in table && app.status == 1 && app.appId == a.appId
                              && Raised(a) in RunAlertChecks(app.appId, now, inputs(app.appId))
      {
        var i :| 0 <= i < |runs| && Fulfilled(runs[i]) && Raised(a) in runs[i].value;
        var app := active[i];
        assert app in table && app.status == 1;
      }
    }
  }
}
