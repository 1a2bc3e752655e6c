/** The Redis cache service: the key scheme, the TTLs, and read-through
    caching. The store is a map from key to entry; each call takes its own
    `up` flag saying whether that call reaches Redis. Every failing call is
    swallowed, so the cache only ever degrades to a miss. Values are kept per value type, as if they
    survive the JSON round trip unchanged. */
module Cache {
  import opened Common
  import opened Numbers

  const APP_LIST_PREFIX := "apps:user:"
  const APP_STATUS_PREFIX := "app:status:"
  const STATS_PREFIX := "stats:"
  const PERFORMANCE_PREFIX := "perf:"
  const USER_INFO_PREFIX := "user:"

  /** Expiry times in seconds. */
  const TTL_SHORT: nat := 60
  const TTL_MEDIUM: nat := 300
  const TTL_LONG: nat := 600
  const TTL_VERY_LONG: nat := 3600

  /** A stored value and the expiry it was stored with. */
  datatype Entry<V> = Entry(value: V, ttl: nat)

  /** The store's contents. Whether a call reaches it is decided per call:
      each operation takes `up`, false when that call throws; the failure is
      swallowed and the call changes nothing. */
  datatype Store<V> = Store(entries: map<string, Entry<V>>)

  /** `getCache`: the stored value, or null on a missing key and on a call
      that throws. */
  function GetCache<V>(s: Store<V>, key: string, up: bool): (r: Option<V>)
    ensures r.Some? <==> up && key in s.entries
    ensures r.Some? ==> r.value == s.entries[key].value
  {
    if up && key in s.entries then Some(s.entries[key].value) else None
  }

  /** `setCache`: stores the value with its TTL; a call that throws leaves
      the store as it was. */
  function SetCache<V>(s: Store<V>, key: string, value: V, ttl: nat, up: bool): (t: Store<V>)
    ensures up ==> key in t.entries && t.entries[key] == Entry(value, ttl)
    ensures !up ==> t == s
    ensures forall k :: k != key ==> (k in t.entries <==> k in s.entries)
    ensures forall k :: k != key && k in s.entries ==> t.entries[k] == s.entries[k]
  {
    if up then Store(s.entries[key := Entry(value, ttl)]) else s
  }

  /** `delCache`: removes one key; a call that throws leaves the store as it
      was. */
  function DelCache<V>(s: Store<V>, key: string, up: bool): (t: Store<V>)
    ensures up ==> key !in t.entries
    ensures !up ==> t == s
    ensures forall k :: k != key ==> (k in t.entries <==> k in s.entries)
    ensures forall k :: k != key && k in s.entries ==> t.entries[k] == s.entries[k]
  {
    if up then Store(s.entries - {key}) else s
  }

  /** A glob whose only wildcard is a final `*` matches every key starting
      with the text before it; without the star it matches the text exactly. */
  predicate GlobMatches(pattern: string, key: string)
    ensures key == pattern ==> GlobMatches(pattern, key)
    ensures '*' !in pattern ==> (GlobMatches(pattern, key) <==> key == pattern)
  {
    if |pattern| > 0 && pattern[|pattern| - 1] == '*' then StartsWith(key, pattern[..|pattern| - 1])
    else key == pattern
  }

  /** `delCachePattern`: removes every key the pattern matches. Its `keys`
      and `del` calls are one `up`: if either throws nothing is removed. */
  function DelCachePattern<V>(s: Store<V>, pattern: string, up: bool): (t: Store<V>)
    ensures up ==> forall k :: k in t.entries <==> k in s.entries && !GlobMatches(pattern, k)
    ensures !up ==> t == s
    ensures forall k :: k in t.entries ==> k in s.entries && t.entries[k] == s.entries[k]
  {
    if up then Store(map k | k in s.entries && !GlobMatches(pattern, k) :: s.entries[k]) else s
  }

  /** `apps:user:{userId}`. */
  function AppListKey(userId: int): (k: string)
    ensures StartsWith(k, APP_LIST_PREFIX) && k[|APP_LIST_PREFIX|..] == IntToString(userId)
  {
    APP_LIST_PREFIX + IntToString(userId)
  }

  /** `app:status:{appId}`. */
  function AppStatusKey(appId: string): (k: string)
    ensures StartsWith(k, APP_STATUS_PREFIX) && k[|APP_STATUS_PREFIX|..] == appId
  {
    APP_STATUS_PREFIX + appId
  }

  /** `stats:{appId}:{type}:{date}`. */
  function StatsKey(appId: string, kind: string, date: string): (k: string)
    ensures StartsWith(k, STATS_PREFIX + appId + ":")
  {
    STATS_PREFIX + appId + ":" + kind + ":" + date
  }

  /** `stats:{appId}:*`: a glob whose only wildcard is the final star. */
  function StatsPattern(appId: string): (p: string)
    ensures |p| > 0 && p[|p| - 1] == '*' && p[..|p| - 1] == STATS_PREFIX + appId + ":"
  {
    STATS_PREFIX + appId + ":*"
  }

  /** `perf:{appId}:{date}`. */
  function PerformanceKey(appId: string, date: string): (k: string)
    ensures StartsWith(k, PERFORMANCE_PREFIX + appId + ":") && k[|PERFORMANCE_PREFIX + appId + ":"|..] == date
  {
    PERFORMANCE_PREFIX + appId + ":" + date
  }

  /** `user:{userId}`. */
  function UserInfoKey(userId: int): (k: string)
    ensures StartsWith(k, USER_INFO_PREFIX) && k[|USER_INFO_PREFIX|..] == IntToString(userId)
  {
    USER_INFO_PREFIX + IntToString(userId)
  }

  /** The key spaces do not meet: a user's list key is never a user-info
      key, an app-status key or a statistics key. */
  lemma KeySpacesDisjoint(userId: int, other: int, appId: string, id: string, kind: string, date: string)
    ensures AppListKey(userId) != UserInfoKey(other)
    ensures AppListKey(userId) != AppStatusKey(id)
    ensures AppListKey(userId) != StatsKey(appId, kind, date)
    ensures !GlobMatches(StatsPattern(appId), AppListKey(userId))
  {
    assert AppListKey(userId)[0] == 'a' && UserInfoKey(other)[0] == 'u';
    assert AppListKey(userId)[3] == 's' && AppStatusKey(id)[3] == ':';
    assert StatsKey(appId, kind, date)[0] == 's';
  }

  /** Each user has a list key of their own. */
  lemma AppListKeysDistinct(u: int, v: int)
    requires u != v
    ensures AppListKey(u) != AppListKey(v)
  {
    if AppListKey(u) == AppListKey(v) {
      var p := APP_LIST_PREFIX;
      assert AppListKey(u)[|p|..] == IntToString(u);
      assert AppListKey(v)[|p|..] == IntToString(v);
      IntToStringInjective(u, v);
    }
  }

  /** Every statistics key of an app matches that app's clear pattern. */
  lemma StatsKeyMatchesPattern(appId: string, kind: string, date: string)
    ensures GlobMatches(StatsPattern(appId), StatsKey(appId, kind, date))
  {
    var pattern := StatsPattern(appId);
    assert pattern[..|pattern| - 1] == STATS_PREFIX + appId + ":";
    assert StatsKey(appId, kind, date)[..|pattern| - 1] == STATS_PREFIX + appId + ":";
  }

  /** The clear pattern reaches no key outside the `stats:` space. */
  lemma StatsPatternStaysInStats(appId: string, key: string)
    requires GlobMatches(StatsPattern(appId), key)
    ensures StartsWith(key, STATS_PREFIX)
  {
    var pattern := StatsPattern(appId);
    var stem := pattern[..|pattern| - 1];
    assert stem[..|STATS_PREFIX|] == STATS_PREFIX;
    assert key[..|STATS_PREFIX|] == key[..|stem|][..|STATS_PREFIX|];
  }

  /** `cacheUserApps`: the list is kept for the medium TTL. */
  function CacheUserApps<V>(s: Store<V>, userId: int, apps: V, up: bool): (t: Store<V>)
    ensures up ==> GetCache(t, AppListKey(userId), true) == Some(apps) && t.entries[AppListKey(userId)].ttl == TTL_MEDIUM
    ensures !up ==> t == s
    ensures forall k, u :: k != AppListKey(userId) ==> GetCache(t, k, u) == GetCache(s, k, u)
  {
    SetCache(s, AppListKey(userId), apps, TTL_MEDIUM, up)
  }

  /** `clearUserAppsCache`: only that user's list key goes. */
  function ClearUserAppsCache<V>(s: Store<V>, userId: int, up: bool): (t: Store<V>)
    ensures up ==> forall u :: GetCache(t, AppListKey(userId), u).None?
    ensures !up ==> t == s
    ensures forall k, u :: k != AppListKey(userId) ==> GetCache(t, k, u) == GetCache(s, k, u)
  {
    DelCache(s, AppListKey(userId), up)
  }

  /** Clearing one user's list leaves every other user's list in place,
      whether or not the clearing call reaches the store. */
  lemma ClearingIsPerUser<V>(s: Store<V>, userId: int, other: int, up: bool, u: bool)
    requires other != userId
    ensures GetCache(ClearUserAppsCache(s, userId, up), AppListKey(other), u) == GetCache(s, AppListKey(other), u)
  {
    AppListKeysDistinct(userId, other);
  }

  /** `clearAppStatsCache`: every statistics key of the app is gone, and
      keys outside the `stats:` space stay. */
  function ClearAppStatsCache<V>(s: Store<V>, appId: string, up: bool): (t: Store<V>)
    ensures up ==> forall kind, date, u :: GetCache(t, StatsKey(appId, kind, date), u).None?
    ensures !up ==> t == s
    ensures forall k, u :: !StartsWith(k, STATS_PREFIX) ==> GetCache(t, k, u) == GetCache(s, k, u)
  {
    forall kind, date, u | up
      ensures GetCache(DelCachePattern(s, StatsPattern(appId), up), StatsKey(appId, kind, date), u).None?
    {
      StatsKeyMatchesPattern(appId, kind, date);
    }
    forall k, u | !StartsWith(k, STATS_PREFIX)
      ensures GetCache(DelCachePattern(s, StatsPattern(appId), up), k, u) == GetCache(s, k, u)
    {
      if GlobMatches(StatsPattern(appId), k) {
        StatsPatternStaysInStats(appId, k);
      }
    }
    DelCachePattern(s, StatsPattern(appId), up)
  }

  /** `withCache`: the answer, and the store afterwards. */
  datatype Cached<V> = Cached(result: Fetch<V>, store: Store<V>)

  /** `withCache(key, ttl, fetch)`: a hit answers from the store; a miss
      answers the fetch's value and stores it; a fetch that throws is passed
      on and nothing is stored. `getUp` and `setUp` say whether the read and
      the write reach the store. */
  function WithCache<V>(s: Store<V>, key: string, ttl: nat, fetch: Fetch<V>, getUp: bool, setUp: bool): (c: Cached<V>)
    ensures GetCache(s, key, getUp).Some? ==> c == Cached(Fetched(GetCache(s, key, getUp).value), s)
    ensures GetCache(s, key, getUp).None? ==> c.result == fetch
    ensures GetCache(s, key, getUp).None? && fetch.Fetched? ==> c.store == SetCache(s, key, fetch.value, ttl, setUp)
    ensures GetCache(s, key, getUp).None? && fetch.Threw? ==> c.store == s
  {
    match GetCache(s, key, getUp)
    case Some(v) => Cached(Fetched(v), s)
    case None =>
      match fetch
      case Threw => Cached(Threw, s)
      case Fetched(v) => Cached(Fetched(v), SetCache(s, key, v, ttl, setUp))
  }

  /** On a hit the fetch is never consulted, nor the write's outcome: any
      two fetches give the same answer and leave the same store. */
  lemma HitIgnoresFetch<V>(s: Store<V>, key: string, ttl: nat, f: Fetch<V>, g: Fetch<V>, setF: bool, setG: bool)
    requires GetCache(s, key, true).Some?
    ensures WithCache(s, key, ttl, f, true, setF) == WithCache(s, key, ttl, g, true, setG)
  {
  }

  /** Read-through is idempotent when the write and the next read reach the
      store: after a successful miss, the same call is a hit with the same
      value, whatever it would fetch next time. */
  lemma SecondCallHits<V>(s: Store<V>, key: string, ttl: nat, v: V, getUp: bool, g: Fetch<V>, setUp: bool)
    ensures var first := WithCache(s, key, ttl, Fetched(v), getUp, true);
            WithCache(first.store, key, ttl, g, true, setUp) == Cached(first.result, first.store)
  {
  }

  /** Calls fail one by one: a read that throws is a miss even when the key
      is stored, and a write that then succeeds overwrites the stored entry
      with the fresh value. */
  lemma FailedReadOverwrites<V>(s: Store<V>, key: string, ttl: nat, v: V)
    ensures var c := WithCache(s, key, ttl, Fetched(v), false, true);
            c.result == Fetched(v) && key in c.store.entries && c.store.entries[key] == Entry(v, ttl)
  {
  }

  /** When neither call reaches the store, caching degrades to calling the
      fetch, and the store is never changed. */
  lemma OfflineStoreAlwaysFetches<V>(s: Store<V>, key: string, ttl: nat, fetch: Fetch<V>)
    ensures WithCache(s, key, ttl, fetch, false, false) == Cached(fetch, s)
  {
  }
}
