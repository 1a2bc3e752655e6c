/** `POST /api/apps/status`: the owner switches an app on or off. */
module AppsStatusRoute {
  import opened Common
  import opened Directory
  import opened Api

  const MSG_BAD_PARAMS := "参数错误"
  const MSG_NO_APP := "应用不存在"
  const MSG_ENABLED := "应用已启用"
  const MSG_DISABLED := "应用已停用"
  const MSG_UPDATE_FAILED := "更新应用状态失败"

  /** The body's `id` and `status`; `None` when the field is not a number. */
  datatype StatusBody = StatusBody(id: Option<int>, status: Option<int>)

  /** The answer, and the table after the update when one was made. */
  datatype StatusResult = StatusResult(reply: Reply<()>, written: Option<seq<App>>)

  /** `prisma.app.update({ where: { id }, data: { status } })`. */
  function SetStatus(table: seq<App>, id: int, status: int): (r: seq<App>)
    ensures |r| == |table|
    ensures forall i :: 0 <= i < |table| ==>
              r[i] == if table[i].id == id then table[i].(status := status) else table[i]
  {
    seq(|table|, i requires 0 <= i < |table| => if table[i].id == id then table[i].(status := status) else table[i])
  }

  /** The answer's message: enabled for status 1, disabled for anything else. */
  function StatusMessage(status: int): (m: string)
    ensures m == MSG_ENABLED <==> status == 1
    ensures m == MSG_DISABLED <==> status != 1
  {
    if status == 1 then MSG_ENABLED else MSG_DISABLED
  }

  /** The handler: login, the body, the number check, ownership, then the
      write. `write` is the update call's outcome. */
  function UpdateStatus(userId: Option<int>, body: Fetch<StatusBody>, table: Fetch<seq<App>>,
                        write: Fetch<()>): (r: StatusResult)
    ensures !LoggedIn(userId) ==> r == StatusResult(Refuse(NOT_LOGGED_IN, 401, MSG_NOT_LOGGED_IN), None)
    ensures LoggedIn(userId) && body.Fetched? && (body.value.id.None? || body.value.status.None?) ==>
              r == StatusResult(Refuse(PARAM_ERROR, 400, MSG_BAD_PARAMS), None)
    ensures LoggedIn(userId) && body.Fetched? && body.value.id.Some? && body.value.status.Some? && table.Fetched?
            && OwnedRow(table.value, body.value.id.value, userId.value).None? ==>
              r == StatusResult(Refuse(PARAM_ERROR, 404, MSG_NO_APP), None)
    ensures r.written.Some? <==>
              && LoggedIn(userId) && body.Fetched? && body.value.id.Some? && body.value.status.Some?
              && table.Fetched? && OwnedRow(table.value, body.value.id.value, userId.value).Some? && write.Fetched?
    ensures r.written.Some? ==>
              && r.written.value == SetStatus(table.value, body.value.id.value, body.value.status.value)
              && r.reply == Reply(SUCCESS, 200, StatusMessage(body.value.status.value), None)
    ensures r.reply.code == SUCCESS <==> r.written.Some?
  {
    if !LoggedIn(userId) then StatusResult(Refuse(NOT_LOGGED_IN, 401, MSG_NOT_LOGGED_IN), None)
    else match body
      case Threw => StatusResult(Refuse(PARAM_ERROR, 500, MSG_UPDATE_FAILED), None)
      case Fetched(b) =>
        if b.id.None? || b.status.None? then StatusResult(Refuse(PARAM_ERROR, 400, MSG_BAD_PARAMS), None)
        else match table
          case Threw => StatusResult(Refuse(PARAM_ERROR, 500, MSG_UPDATE_FAILED), None)
          case Fetched(rows) =>
            if OwnedRow(rows, b.id.value, userId.value).None? then StatusResult(Refuse(PARAM_ERROR, 404, MSG_NO_APP), None)
            else match write
              case Threw => StatusResult(Refuse(PARAM_ERROR, 500, MSG_UPDATE_FAILED), None)
              case Fetched(_) =>
                StatusResult(Reply(SUCCESS, 200, StatusMessage(b.status.value), None),
                             Some(SetStatus(rows, b.id.value, b.status.value)))
  }

  /** Only the status is written: every other field of every row, and
      every row with another id, is unchanged. */
  lemma OnlyStatusChanges(userId: Option<int>, body: Fetch<StatusBody>, table: Fetch<seq<App>>, write: Fetch<()>)
    requires UpdateStatus(userId, body, table, write).written.Some?
    ensures var after := UpdateStatus(userId, body, table, write).written.value;
            var id := body.value.id.value;
            && |after| == |table.value|
            && (forall i :: 0 <= i < |after| ==>
                  after[i].(status := 0) == table.value[i].(status := 0))
            && (forall i :: 0 <= i < |after| && table.value[i].id != id ==> after[i] == table.value[i])
            && (forall i :: 0 <= i < |after| && table.value[i].id == id ==> after[i].status == body.value.status.value)
  {
  }

  /** A user can only change apps they created: the updated id belongs to
      one of the caller's apps. */
  lemma OnlyOwnerUpdates(userId: Option<int>, body: Fetch<StatusBody>, table: Fetch<seq<App>>, write: Fetch<()>)
    requires UpdateStatus(userId, body, table, write).written.Some?
    ensures exists i :: 0 <= i < |table.value| && table.value[i].id == body.value.id.value
                        && table.value[i].createId == userId.value
  {
    var a := OwnedRow(table.value, body.value.id.value, userId.value).value;
    var i :| 0 <= i < |table.value| && table.value[i] == a;
  }

  /** Any number is stored as given, so a status other than 1 disables the
      app and answers with the disabled message, while 1 enables it. */
  lemma AnyNumberIsAccepted(userId: int, id: int, status: int, rows: seq<App>)
    requires userId != 0 && OwnedRow(rows, id, userId).Some?
    ensures var r := UpdateStatus(Some(userId), Fetched(StatusBody(Some(id), Some(status))), Fetched(rows), Fetched(()));
            && r.reply.code == SUCCESS
            && (r.reply.message == MSG_ENABLED <==> status == 1)
  {
  }
}
