/** `GET /api/apps` and `POST /api/apps`: the caller's app list, read
    through the cache, and app creation with a short id derived from a
    UUID. The UUID generator is a parameter. */
module AppsRoute {
  import opened Common
  import opened Directory
  import opened Api
  import opened Cache

  const MSG_LIST_FAILED := "获取应用列表失败"
  const MSG_NAME_REQUIRED := "应用名称不能为空"
  const MSG_CREATED := "应用创建成功"
  const MSG_CREATE_FAILED := "创建应用失败"

  const SHORT_ID_LENGTH := 16

  predicate NotDash(c: char) { c != '-' }

  predicate IsHexDigit(c: char) {
    ('0' <= c <= '9') || ('a' <= c <= 'f') || ('A' <= c <= 'F')
  }

  /** The 8-4-4-4-12 layout of a canonical UUID. */
  predicate IsDashPosition(i: int) { i == 8 || i == 13 || i == 18 || i == 23 }

  predicate IsCanonicalUuid(u: string) {
    |u| == 36 && forall i :: 0 <= i < 36 ==> if IsDashPosition(i) then u[i] == '-' else IsHexDigit(u[i])
  }

  /** `s.substring(0, n)` for n >= 0. */
  function Prefix(s: string, n: nat): (r: string)
    ensures |r| == if |s| <= n then |s| else n
    ensures StartsWith(s, r)
  {
    if |s| <= n then s else s[..n]
  }

  /** `generateShortUUID`: the UUID without its dashes, cut to 16 characters. */
  function ShortId(uuid: string): (id: string)
    ensures |id| <= SHORT_ID_LENGTH
    ensures '-' !in id
    ensures |Filter(uuid, NotDash)| >= SHORT_ID_LENGTH ==> |id| == SHORT_ID_LENGTH
  {
    var digits := Filter(uuid, NotDash);
    var id := Prefix(digits, SHORT_ID_LENGTH);
    assert forall i :: 0 <= i < |id| ==> id[i] == digits[i];
    id
  }

  /** Filtering a sequence is filtering its two halves. */
  lemma FilterSplitAt<T>(xs: seq<T>, i: nat, keep: T -> bool)
    requires i <= |xs|
    ensures Filter(xs, keep) == Filter(xs[..i], keep) + Filter(xs[i..], keep)
  {
    assert xs == xs[..i] + xs[i..];
    FilterAppend(xs[..i], xs[i..], keep);
  }

  /** A segment without dashes survives the dash removal whole. */
  lemma NoDashKept(seg: string)
    requires forall i :: 0 <= i < |seg| ==> seg[i] != '-'
    ensures Filter(seg, NotDash) == seg
  {
    FilterAll(seg, NotDash);
  }

  /** Removing the dashes from `a-b-c` gives `abc`. */
  lemma DashesDropped(a: string, b: string, c: string)
    requires '-' !in a && '-' !in b && '-' !in c
    ensures Filter(a + "-" + b + "-" + c, NotDash) == a + b + c
  {
    var dash := "-";
    assert Filter(dash, NotDash) == [] by { assert dash[1..] == []; }
    NoDashKept(a);
    FilterAppend(a, dash, NotDash);
    var x := a + dash;
    assert Filter(x, NotDash) == a;
    NoDashKept(b);
    FilterAppend(x, b, NotDash);
    FilterAppend(x + b, dash, NotDash);
    var y := x + b + dash;
    assert Filter(y, NotDash) == a + b;
    NoDashKept(c);
    FilterAppend(y, c, NotDash);
  }

  /** A string opening with three dash-free groups of 8, 4 and 4 characters
      separated by dashes has those 16 characters as its short id. */
  lemma ShortIdOfLeadingGroups(u: string)
    requires |u| >= 18 && u[8] == '-' && u[13] == '-'
    requires '-' !in u[..8] && '-' !in u[9..13] && '-' !in u[14..18]
    ensures ShortId(u) == u[..8] + u[9..13] + u[14..18]
  {
    var groups := u[..8] + u[9..13] + u[14..18];
    assert u[..18] == u[..8] + "-" + u[9..13] + "-" + u[14..18];
    DashesDropped(u[..8], u[9..13], u[14..18]);
    FilterSplitAt(u, 18, NotDash);
    assert Filter(u, NotDash) == groups + Filter(u[18..], NotDash);
    assert Filter(u, NotDash)[..16] == groups;
  }

  /** A group of a canonical UUID has no dash. */
  lemma CanonicalGroupHasNoDash(u: string, lo: nat, hi: nat)
    requires IsCanonicalUuid(u) && lo <= hi <= 36
    requires forall i :: lo <= i < hi ==> !IsDashPosition(i)
    ensures '-' !in u[lo..hi]
    ensures forall i :: 0 <= i < hi - lo ==> IsHexDigit(u[lo..hi][i])
  {
    forall i | 0 <= i < hi - lo ensures IsHexDigit(u[lo..hi][i]) {
      assert u[lo..hi][i] == u[lo + i];
      assert !IsDashPosition(lo + i);
    }
  }

  /** For a canonical UUID the short id is its first three groups run
      together: the 8 + 4 + 4 hex digits before the third dash. */
  lemma CanonicalShortId(u: string)
    requires IsCanonicalUuid(u)
    ensures ShortId(u) == u[..8] + u[9..13] + u[14..18]
    ensures |ShortId(u)| == SHORT_ID_LENGTH
    ensures forall i :: 0 <= i < |ShortId(u)| ==> IsHexDigit(ShortId(u)[i])
  {
    assert IsDashPosition(8) && IsDashPosition(13);
    CanonicalGroupHasNoDash(u, 0, 8);
    CanonicalGroupHasNoDash(u, 9, 13);
    CanonicalGroupHasNoDash(u, 14, 18);
    assert u[..8] == u[0..8];
    ShortIdOfLeadingGroups(u);
  }

  /** Ids in descending order. */
  predicate SortedByIdDesc(xs: seq<App>) {
    forall i, j :: 0 <= i < j < |xs| ==> xs[i].id >= xs[j].id
  }

  function InsertByIdDesc(a: App, xs: seq<App>): (r: seq<App>)
    requires SortedByIdDesc(xs)
    ensures SortedByIdDesc(r)
    ensures multiset(r) == multiset(xs) + multiset{a}
    ensures |r| == |xs| + 1
    ensures forall i :: 0 <= i < |r| ==> r[i] == a || r[i] in xs
    decreases |xs|
  {
    if |xs| == 0 || a.id >= xs[0].id then
      [a] + xs
    else
      var rest := InsertByIdDesc(a, xs[1..]);
      assert xs == [xs[0]] + xs[1..];
      assert forall i :: 0 <= i < |rest| ==> xs[0].id >= rest[i].id;
      [xs[0]] + rest
  }

  /** `orderBy: { id: 'desc' }`. */
  function SortByIdDesc(xs: seq<App>): (r: seq<App>)
    ensures SortedByIdDesc(r)
    ensures multiset(r) == multiset(xs)
    ensures |r| == |xs|
    decreases |xs|
  {
    if |xs| == 0 then []
    else
      assert xs == [xs[0]] + xs[1..];
      InsertByIdDesc(xs[0], SortByIdDesc(xs[1..]))
  }

  /** The apps the user created, newest id first. */
  function UserApps(table: seq<App>, userId: int): (r: seq<App>)
    ensures SortedByIdDesc(r)
    ensures multiset(r) == multiset(Filter(table, (a: App) => a.createId == userId))
  {
    SortByIdDesc(Filter(table, (a: App) => a.createId == userId))
  }

  /** The list holds exactly the caller's apps: every one of them and no
      app of anyone else. */
  lemma UserAppsAreTheCallers(table: seq<App>, userId: int, a: App)
    ensures a in UserApps(table, userId) <==> a in table && a.createId == userId
  {
    var owned := Filter(table, (a: App) => a.createId == userId);
    assert a in UserApps(table, userId) <==> a in multiset(UserApps(table, userId));
    assert a in owned <==> a in multiset(owned);
    if a in table && a.createId == userId {
      var i :| 0 <= i < |table| && table[i] == a;
    }
  }

  datatype ListResult = ListResult(reply: Reply<seq<App>>, store: Store<seq<App>>, queried: bool)

  /** `GET`: login, then the cached list, then the table, whose answer is
      cached for the medium TTL. `getUp` and `setUp` say whether the cache
      read and the cache write reach the store. */
  function ListApps(userId: Option<int>, s: Store<seq<App>>, table: Fetch<seq<App>>,
                    getUp: bool, setUp: bool): (r: ListResult)
    ensures !LoggedIn(userId) ==> r == ListResult(Refuse(NOT_LOGGED_IN, 401, MSG_NOT_LOGGED_IN), s, false)
    ensures r.queried <==> LoggedIn(userId) && GetCache(s, AppListKey(userId.value), getUp).None?
    ensures LoggedIn(userId) && GetCache(s, AppListKey(userId.value), getUp).Some? ==>
              r == ListResult(Answer(MSG_OK, GetCache(s, AppListKey(userId.value), getUp).value), s, false)
    ensures r.queried && table.Fetched? ==>
              var apps := UserApps(table.value, userId.value);
              r.reply == Answer(MSG_OK, apps) && r.store == CacheUserApps(s, userId.value, apps, setUp)
    ensures r.queried && table.Threw? ==> r.reply == Refuse(PARAM_ERROR, 500, MSG_LIST_FAILED) && r.store == s
  {
    if !LoggedIn(userId) then ListResult(Refuse(NOT_LOGGED_IN, 401, MSG_NOT_LOGGED_IN), s, false)
    else match GetCache(s, AppListKey(userId.value), getUp)
      case Some(cached) => ListResult(Answer(MSG_OK, cached), s, false)
      case None =>
        match table
        case Threw => ListResult(Refuse(PARAM_ERROR, 500, MSG_LIST_FAILED), s, true)
        case Fetched(rows) =>
          var apps := UserApps(rows, userId.value);
          ListResult(Answer(MSG_OK, apps), CacheUserApps(s, userId.value, apps, setUp), true)
  }

  /** When the cache write and the next read reach the store, a listing
      that went to the table is followed by one served from the cache, with
      the same list and no query. */
  lemma SecondListingIsCached(userId: Option<int>, s: Store<seq<App>>, rows: seq<App>, later: Fetch<seq<App>>,
                              getUp: bool, setUp: bool)
    requires LoggedIn(userId)
    requires ListApps(userId, s, Fetched(rows), getUp, true).queried
    ensures var first := ListApps(userId, s, Fetched(rows), getUp, true);
            var second := ListApps(userId, first.store, later, true, setUp);
            !second.queried && second.reply == first.reply
  {
  }

  /** The `POST` body: `appType` defaults to 1 only when absent. */
  datatype CreateBody = CreateBody(appName: Option<string>, appType: Option<int>)

  /** The row handed to `prisma.app.create`. */
  datatype NewApp = NewApp(appId: string, appName: string, appType: int, createId: int, status: int)

  datatype AppRef = AppRef(appId: string, appName: string)

  datatype CreateResult = CreateResult(reply: Reply<AppRef>, created: Option<NewApp>, store: Store<seq<App>>)

  /** `POST`: login, the name check, the insert, then only the caller's
      list cache is cleared. `uuid` is the generator's output, `insert` the
      create call's outcome and `delUp` whether the cache delete reaches the
      store. */
  function CreateApp(userId: Option<int>, body: Fetch<CreateBody>, uuid: string, insert: NewApp -> Fetch<()>,
                     s: Store<seq<App>>, delUp: bool): (r: CreateResult)
    ensures !LoggedIn(userId) ==> r == CreateResult(Refuse(NOT_LOGGED_IN, 401, MSG_NOT_LOGGED_IN), None, s)
    ensures LoggedIn(userId) && body.Fetched? && !Present(body.value.appName) ==>
              r == CreateResult(Refuse(PARAM_ERROR, 400, MSG_NAME_REQUIRED), None, s)
    ensures r.created.Some? <==> LoggedIn(userId) && body.Fetched? && Present(body.value.appName)
    ensures r.created.Some? ==>
              r.created.value == NewApp(ShortId(uuid), body.value.appName.value, body.value.appType.GetOr(1),
                                        userId.value, 1)
    ensures r.reply.code == SUCCESS <==> r.created.Some? && insert(r.created.value).Fetched?
    ensures r.reply.code == SUCCESS ==>
              && r.reply == Answer(MSG_CREATED, AppRef(r.created.value.appId, r.created.value.appName))
              && r.store == ClearUserAppsCache(s, userId.value, delUp)
    ensures r.reply.code != SUCCESS ==> r.store == s
  {
    if !LoggedIn(userId) then CreateResult(Refuse(NOT_LOGGED_IN, 401, MSG_NOT_LOGGED_IN), None, s)
    else match body
      case Threw => CreateResult(Refuse(PARAM_ERROR, 500, MSG_CREATE_FAILED), None, s)
      case Fetched(b) =>
        if !Present(b.appName) then CreateResult(Refuse(PARAM_ERROR, 400, MSG_NAME_REQUIRED), None, s)
        else
          var row := NewApp(ShortId(uuid), b.appName.value, b.appType.GetOr(1), userId.value, 1);
          match insert(row)
          case Threw => CreateResult(Refuse(PARAM_ERROR, 500, MSG_CREATE_FAILED), Some(row), s)
          case Fetched(_) =>
            CreateResult(Answer(MSG_CREATED, AppRef(row.appId, row.appName)), Some(row),
                         ClearUserAppsCache(s, userId.value, delUp))
  }

  /** After a creation whose cache delete reaches the store, the creator's
      next listing goes to the table, so the new app is not hidden by a
      stale list; other users' cached lists are untouched either way. */
  lemma CreationInvalidatesOnlyCreatorsList(userId: Option<int>, body: Fetch<CreateBody>, uuid: string,
                                            insert: NewApp -> Fetch<()>, s: Store<seq<App>>, delUp: bool,
                                            table: Fetch<seq<App>>, getUp: bool, setUp: bool, other: int)
    requires CreateApp(userId, body, uuid, insert, s, delUp).reply.code == SUCCESS
    requires other != userId.value
    ensures delUp ==> ListApps(userId, CreateApp(userId, body, uuid, insert, s, delUp).store, table, getUp, setUp).queried
    ensures GetCache(CreateApp(userId, body, uuid, insert, s, delUp).store, AppListKey(other), getUp)
            == GetCache(s, AppListKey(other), getUp)
  {
    ClearingIsPerUser(s, userId.value, other, delUp, getUp);
  }

  /** A delete that throws is swallowed: the creation still succeeds, and a
      list cached before it stays readable, so the new app is missing from
      the creator's listings until the entry expires. */
  lemma FailedInvalidationLeavesStaleList(userId: int, name: string, uuid: string,
                                          insert: NewApp -> Fetch<()>, s: Store<seq<App>>,
                                          table: Fetch<seq<App>>, setUp: bool)
    requires userId != 0 && name != ""
    requires insert(NewApp(ShortId(uuid), name, 1, userId, 1)).Fetched?
    requires AppListKey(userId) in s.entries
    ensures var c := CreateApp(Some(userId), Fetched(CreateBody(Some(name), None)), uuid, insert, s, false);
            && c.reply.code == SUCCESS
            && var l := ListApps(Some(userId), c.store, table, true, setUp);
            !l.queried && l.reply == Answer(MSG_OK, s.entries[AppListKey(userId)].value)
  {
  }

  /** An explicit `appType` is kept, even 0; only an absent one becomes 1. */
  lemma AppTypeDefaultsOnlyWhenAbsent(userId: Option<int>, name: string, t: int, uuid: string,
                                      insert: NewApp -> Fetch<()>, s: Store<seq<App>>, delUp: bool)
    requires LoggedIn(userId) && name != ""
    ensures CreateApp(userId, Fetched(CreateBody(Some(name), Some(t))), uuid, insert, s, delUp).created.value.appType == t
    ensures CreateApp(userId, Fetched(CreateBody(Some(name), None)), uuid, insert, s, delUp).created.value.appType == 1
  {
  }
}
