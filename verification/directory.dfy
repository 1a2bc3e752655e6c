/** The relational tables the handlers read through Prisma, as immutable
    sequences, and the lookups they issue against them. */
module Directory {
  import opened Common

  /** A row of the `app` table. */
  datatype App = App(id: int, appId: string, appName: string, appType: int, createId: int, status: int)

  /** A row of the `user` table. */
  datatype User = User(id: int, account: string, encPassword: string, status: int)

  /** The first element satisfying `p`: what `findFirst`/`findUnique` return. */
  function First<T>(xs: seq<T>, p: T -> bool): (r: Option<T>)
    ensures r.None? <==> forall i :: 0 <= i < |xs| ==> !p(xs[i])
    ensures r.Some? ==> exists i :: 0 <= i < |xs| && xs[i] == r.value && p(xs[i])
                         && forall j :: 0 <= j < i ==> !p(xs[j])
    decreases |xs|
  {
    if |xs| == 0 then None
    else if p(xs[0]) then Some(xs[0])
    else
      var r := First(xs[1..], p);
      assert forall i :: 1 <= i < |xs| ==> xs[i] == xs[1..][i - 1];
      r
  }

  /** `prisma.app.findUnique({ where: { appId } })`. */
  function AppById(apps: seq<App>, appId: string): (r: Option<App>)
    ensures r.Some? ==> r.value in apps && r.value.appId == appId
    ensures r.None? <==> forall i :: 0 <= i < |apps| ==> apps[i].appId != appId
  {
    First(apps, (a: App) => a.appId == appId)
  }

  /** `prisma.app.findFirst({ where: { appId, createId: userId } })`. */
  function OwnedApp(apps: seq<App>, appId: string, userId: int): (r: Option<App>)
    ensures r.Some? ==> r.value in apps && r.value.appId == appId && r.value.createId == userId
    ensures r.None? <==> forall i :: 0 <= i < |apps| ==> !(apps[i].appId == appId && apps[i].createId == userId)
  {
    First(apps, (a: App) => a.appId == appId && a.createId == userId)
  }

  /** `prisma.app.findFirst({ where: { id, createId: userId } })`. */
  function OwnedRow(apps: seq<App>, id: int, userId: int): (r: Option<App>)
    ensures r.Some? ==> r.value in apps && r.value.id == id && r.value.createId == userId
    ensures r.None? <==> forall i :: 0 <= i < |apps| ==> !(apps[i].id == id && apps[i].createId == userId)
  {
    First(apps, (a: App) => a.id == id && a.createId == userId)
  }

  /** `prisma.user.findUnique({ where: { account } })`. */
  function UserByAccount(users: seq<User>, account: string): (r: Option<User>)
    ensures r.Some? ==> r.value in users && r.value.account == account
    ensures r.None? <==> forall i :: 0 <= i < |users| ==> users[i].account != account
  {
    First(users, (u: User) => u.account == account)
  }

  /** `prisma.app.findMany({ where: { status: 1 } })`. */
  function ActiveApps(apps: seq<App>): (r: seq<App>)
    ensures forall i :: 0 <= i < |r| ==> r[i] in apps && r[i].status == 1
    ensures forall i :: 0 <= i < |apps| && apps[i].status == 1 ==> apps[i] in r
  {
    Filter(apps, (a: App) => a.status == 1)
  }
}
