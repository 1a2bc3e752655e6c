/** The JSON envelope every route answers with, and the gate shared by the
    authenticated query routes: login, then the `appId` parameter, then
    ownership of that app. */
module Api {
  import opened Common
  import opened Directory

  /** `NextResponse.json({ code, message, data }, { status })`. */
  datatype Reply<+D> = Reply(code: int, status: int, message: string, data: Option<D>)

  const SUCCESS := 1000
  const PARAM_ERROR := 1001
  const BAD_CREDENTIALS := 1003
  const ACCOUNT_TAKEN := 1004
  const NOT_LOGGED_IN := 1005
  const ACCOUNT_DISABLED := 1006

  const MSG_NOT_LOGGED_IN := "未登录或登录已过期"
  const MSG_MISSING_APP_ID := "缺少 appId 参数"
  const MSG_NO_ACCESS := "应用不存在或无权访问"
  const MSG_OK := "成功"

  /** A 200 answer with code 1000. */
  function Answer<D>(message: string, data: D): Reply<D> {
    Reply(SUCCESS, 200, message, Some(data))
  }

  /** An answer without data. */
  function Refuse<D>(code: int, status: int, message: string): Reply<D> {
    Reply(code, status, message, None)
  }

  /** `if (!userId)`: the token decoded to a non-zero user id. */
  predicate LoggedIn(userId: Option<int>) {
    userId.Some? && userId.value != 0
  }

  datatype Gate = Admit(userId: int, appId: string) | Deny(code: int, status: int, message: string)

  /** The opening steps of the query routes, in order: 1005/401 without a
      login, 1001/400 without an `appId`, 1001/500 (the route's own message)
      when the app lookup throws, 1001/404 when the caller does not own it. */
  function OwnedAppGate(userId: Option<int>, appId: Option<string>, apps: Fetch<seq<App>>,
                        failure: string): (g: Gate)
    ensures !LoggedIn(userId) ==> g == Deny(NOT_LOGGED_IN, 401, MSG_NOT_LOGGED_IN)
    ensures LoggedIn(userId) && !Present(appId) ==> g == Deny(PARAM_ERROR, 400, MSG_MISSING_APP_ID)
    ensures LoggedIn(userId) && Present(appId) && apps.Threw? ==> g == Deny(PARAM_ERROR, 500, failure)
    ensures LoggedIn(userId) && Present(appId) && apps.Fetched? && OwnedApp(apps.value, appId.value, userId.value).None? ==>
              g == Deny(PARAM_ERROR, 404, MSG_NO_ACCESS)
    ensures g.Admit? ==> g.userId == userId.value && g.appId == appId.value
    ensures g.Admit? <==> LoggedIn(userId) && Present(appId) && apps.Fetched?
                          && OwnedApp(apps.value, appId.value, userId.value).Some?
  {
    if !LoggedIn(userId) then Deny(NOT_LOGGED_IN, 401, MSG_NOT_LOGGED_IN)
    else if !Present(appId) then Deny(PARAM_ERROR, 400, MSG_MISSING_APP_ID)
    else match apps
      case Threw => Deny(PARAM_ERROR, 500, failure)
      case Fetched(table) =>
        if OwnedApp(table, appId.value, userId.value).None? then Deny(PARAM_ERROR, 404, MSG_NO_ACCESS)
        else Admit(userId.value, appId.value)
  }

  /** Tenant isolation at the gate: whatever is admitted is an app of the
      table created by the logged-in caller. */
  lemma GateAdmitsOnlyOwners(userId: Option<int>, appId: Option<string>, apps: Fetch<seq<App>>,
                             failure: string)
    requires OwnedAppGate(userId, appId, apps, failure).Admit?
    ensures exists a :: a in apps.value && a.appId == appId.value && a.createId == userId.value
  {
    var a := OwnedApp(apps.value, appId.value, userId.value).value;
    assert a in apps.value;
  }

  function Denied<D>(g: Gate): Reply<D>
    requires g.Deny?
  {
    Refuse(g.code, g.status, g.message)
  }
}
