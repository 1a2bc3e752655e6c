# frontend-watch-dog admin backend, modelled in Dafny

This project models the server side of the frontend-watch-dog admin
application. That is a Next.js backend that:

- ingests monitoring events (performance samples, HTTP requests, JS errors,
  clicks) reported by browser SDKs;
- stores the events in Elasticsearch;
- answers the dashboard's queries, each scoped to one app owned by the
  logged-in user;
- evaluates threshold alerts;
- keeps a Redis read-through cache;
- resolves source-map positions;
- manages accounts (login and registration) and apps (listing, creation,
  enabling and disabling).

Everything is modelled with immutable datatypes and pure functions:

- Every call into a store or library is an input: Elasticsearch, Prisma,
  Redis, the file system, the UA parser, the source-map consumer, bcrypt,
  jsonwebtoken and the request body.
- `Fetch<T>` is either `Threw` or `Fetched(value)`. It stands for a call that
  resolves or throws.
- Library functions whose results we cannot see are function-typed
  parameters. These include token verification, password comparison and
  hashing, token signing, date parsing and the UA parser.
- A handler's answer is its JSON envelope `Reply(code, status, message,
  data)`. When a handler writes something, the answer also carries that
  write: the stored batch, the table after an update, the created row, or the
  cache after the call.

Modules follow the program's structure:

| module | what it models |
|---|---|
| `Common` | JavaScript `||` defaults, truthiness, `filter`, `startsWith` |
| `Text` | `trim`, `split`, `join` |
| `Numbers` | `parseInt`, `String(n)` |
| `Directory` | Prisma lookups |
| `Api` | the shared envelope and the login/appId/ownership gate |
| `Query` | Elasticsearch clauses and response envelopes |
| `MonitorQuery` | `services/monitor-query.ts` |
| `Alert` | `services/alert.ts` |
| `Cache` | `services/cache.ts` |
| `Ip` | `lib/ip.ts` |
| `SourceMap` | `lib/sourcemap.ts` |
| `Utils` | `lib/utils.ts` |
| `Middleware` | `middleware.ts` |
| `ReportTypes` | `types/report.ts` |
| route modules | one per route handler under `app/api/` |

## Model

| member | source | states |
|---|---|---|
| `Common.Filter` | admin/src/lib/sourcemap.ts:170 | `filter` keeps exactly the elements that pass, each taken from the input |
| `Common.FilterAppend` | admin/src/lib/utils.ts:8 | filtering a concatenation is the concatenation of the filtered parts, so kept elements stay in order |
| `Common.CountSplit` | admin/src/app/api/alert/check/route.ts:82-83 | with complementary tests, the two counts add up to the whole list (fulfilled plus rejected runs) |
| `Text.Trim` | admin/src/lib/ip.ts:11 | `trim` gives the part of the input between the leading and trailing whitespace, and that part starts and ends with a non-space |
| `Text.TrimIdempotent` | admin/src/lib/ip.ts:11 | trimming twice is trimming once |
| `Text.JoinSplit` | admin/src/lib/ip.ts:11 | joining the pieces of a split on the same separator gives back the string |
| `Text.SplitJoin` | admin/src/lib/ip.ts:11 | pieces free of the separator are recovered by splitting their join |
| `Text.FirstField` | admin/src/lib/ip.ts:11 | `split(',')[0]` is a prefix of the header with no comma in it, ending at the first comma |
| `Text.Split` | admin/src/lib/ip.ts:11 | `split` on one character always gives at least one piece, and no piece contains the separator |
| `Text.Join` | admin/src/lib/utils.ts:8 | joining nothing gives the empty string; otherwise the join starts with the first piece |
| `Numbers.NatToString` | admin/src/services/cache.ts:81 | the decimal rendering is non-empty, all digits, with no leading zero |
| `Numbers.IntToString` | admin/src/services/cache.ts:81 | the rendering is non-empty, starts with a minus sign exactly for a negative integer, and is all digits after that sign |
| `Numbers.ParseIntJs` | admin/src/app/api/http-error/rank/route.ts:22 | a string with no decimal digit is NaN, and a non-empty all-digit string parses to its decimal value |
| `Numbers.IntParam` | admin/src/app/api/performance/detail/route.ts:25-26 | `parseInt(p || d)`: a non-empty parameter is parsed itself; an absent or empty one is replaced by the default before parsing |
| `Numbers.ParseIntOfIntToString` | admin/src/app/api/http-error/rank/route.ts:22 | `parseInt` of a rendered integer gives back that integer (so the defaults '0', '10', '20' parse to 0, 10, 20) |
| `Numbers.IntToStringInjective` | admin/src/services/cache.ts:81 | different integers render to different strings |
| `Directory.First` | admin/src/app/api/traffic/trend/route.ts:33-38 | `findFirst` gives nothing exactly when no row matches; otherwise it gives a matching row of the table |
| `Directory.OwnedApp` | admin/src/app/api/traffic/trend/route.ts:33-38 | the row found has the requested appId and was created by the caller; none is found exactly when no such row exists |
| `Directory.OwnedRow` | admin/src/app/api/apps/status/route.ts:41-54 | the same lookup by numeric id and creator |
| `Directory.AppById` | admin/src/app/api/report/route.ts:43-47 | `findUnique` by appId gives a row with that appId, or nothing exactly when none has it |
| `Directory.UserByAccount` | admin/src/app/api/auth/login/route.ts:28-31 | `findUnique` by account gives a user with that account, or nothing exactly when none has it |
| `Directory.ActiveApps` | admin/src/app/api/alert/check/route.ts:73-76 | `findMany` on status 1 gives the enabled apps and every one of them |
| `Api.OwnedAppGate` | admin/src/app/api/traffic/trend/route.ts:11-45 | the shared opening of the query routes, in order: 1005/401 without a session, 1001/400 without appId, the failure answer when the lookup throws, 1001/404 for an app the caller does not own; it admits exactly a logged-in caller with an appId whose lookup resolved to an owned row |
| `Api.GateAdmitsOnlyOwners` | admin/src/app/api/traffic/trend/route.ts:40-45 | tenant isolation: whatever the gate admits is an app the caller created |
| `Query.EitherBoundRange` | admin/src/services/monitor-query.ts:29-34 | a time range is added when either bound is given, and carries exactly the bounds given, in milliseconds |
| `Query.BothBoundsMillis` | admin/src/app/api/performance/detail/route.ts:55-64 | the detail routes add a millisecond range only when both bounds are given |
| `Query.BothBoundsIso` | admin/src/app/api/http-error/range/route.ts:54-63 | the range routes add an ISO range only when both bounds are given, and throw when a given bound is an invalid date |
| `Query.MatchIfPresent` | admin/src/app/api/http-error/detail/route.ts:66-72 | a match clause is added exactly when the parameter is non-empty |
| `Query.HasOnConcat4` | admin/src/app/api/http-error/detail/route.ts:51-77 | a filter built from four parts constrains a field exactly when one of its parts does |
| `Query.NormaliseTotal` | admin/src/app/api/http-error/detail/route.ts:105-108 | `hits.total` as a number or as `{ value }` gives that number, and 0 when absent |
| `Query.BodyOrTop` | admin/src/services/monitor-query.ts:99 | aggregations are taken from `body` when present and from the top level otherwise |
| `Query.KeyCounts` | admin/src/app/api/http-error/range/route.ts:111-118 | one `(key, doc_count)` pair per bucket, in bucket order, and none when the buckets are absent |
| `Query.TimeCounts` | admin/src/app/api/http-error/range/route.ts:119-122 | one `(time, count)` pair per histogram bucket, in order |
| `Query.TimeLabelOf` | admin/src/app/api/http-error/range/route.ts:121 | a bucket is labelled by its `key_as_string` when that is non-empty, and by the ISO rendering of its key otherwise |
| `MonitorQuery.EveryQueryScopedToTenant` | admin/src/services/monitor-query.ts:26 | every one of the six queries opens with the app's own tenant term, and no query carries an appId term for another app |
| `MonitorQuery.TrafficClauses` | admin/src/services/monitor-query.ts:23-34 | the traffic filter opens with the tenant term, has a time range exactly when a bound is given, and matches no free-text field |
| `MonitorQuery.PerformanceClauses` | admin/src/services/monitor-query.ts:116-133 | tenant and the 'performance' kind first; a time range exactly when a bound is given; a page-URL match exactly when pageUrl is non-empty |
| `MonitorQuery.HttpErrorClauses` | admin/src/services/monitor-query.ts:205-218 | tenant, the 'request' kind and the 'error' outcome first, and no free-text match |
| `MonitorQuery.JsErrorClauses` | admin/src/services/monitor-query.ts:305-317 | tenant and the 'jsError' kind first, and no free-text match |
| `MonitorQuery.AllKindsClauses` | admin/src/services/monitor-query.ts:386-395 | the filter of the top query, and the identical one of the geography query (lines 479-488): the tenant term first, a time range exactly when a bound is given, and no event-kind term, so every kind is counted |
| `MonitorQuery.TimeClauseOnlyWithBounds` | admin/src/services/monitor-query.ts:124-129 | the time clause is present exactly when a bound is given, and each side is set exactly when that bound is given |
| `MonitorQuery.ShapeTraffic` | admin/src/services/monitor-query.ts:99-110 | a failed query or a missing aggregation section gives zero counts and no trend; otherwise pv, uv and new users default to 0 and the trend to empty |
| `MonitorQuery.ShapePerformance` | admin/src/services/monitor-query.ts:167-198 | only `body.aggregations` is read; a failure gives all-zero averages and no pages |
| `MonitorQuery.Denominator` | admin/src/services/monitor-query.ts:274 | the rate denominator is at least 1, and it is the request count whenever that is non-zero |
| `MonitorQuery.HttpErrorRowOf` | admin/src/services/monitor-query.ts:277-288 | a URL row: its rank id, URL and error count; its error rate is the count as a percentage of the denominator; its average cost is the aggregation's or 0; its last error time is the newest hit's timestamp or none; the method defaults to GET and the status to 500 |
| `MonitorQuery.ShapeHttpErrors` | admin/src/services/monitor-query.ts:272-299 | one row per URL bucket, in order; the total and overall rate come from the aggregations; a failure gives an empty list with rate 0 |
| `MonitorQuery.HttpErrorRateBounds` | admin/src/services/monitor-query.ts:273-275 | the error rate is non-negative, 0 without errors, at most 100 when errors do not outnumber requests, and exactly 100 when every request counted is an error |
| `MonitorQuery.JsErrorRowOf` | admin/src/services/monitor-query.ts:358-371 | a message row: rank id, message and count; the file defaults to 'unknown' and the position to 0; the last error time is the newest sample's timestamp, or none |
| `MonitorQuery.ShapeJsErrors` | admin/src/services/monitor-query.ts:355-380 | one row per message bucket, in order; the total defaults to 0; a failure gives an empty list |
| `MonitorQuery.ErrorRowIdsAreRanks` | admin/src/services/monitor-query.ts:280 | the ids of HTTP and JS error rows are their 1-based positions |
| `MonitorQuery.LabelRows` | admin/src/services/monitor-query.ts:452-463 | one row per bucket, in order, with its count; an empty key becomes 'Unknown' |
| `MonitorQuery.CountRows` | admin/src/services/monitor-query.ts:531-540 | one row per bucket, in order, with its doc count and uv, where uv defaults to 0 |
| `MonitorQuery.ShapeTop` | admin/src/services/monitor-query.ts:444-473 | the four top lists come from `body.aggregations` only; a failure gives four empty lists |
| `MonitorQuery.TopLabelsNeverEmpty` | admin/src/services/monitor-query.ts:453 | no browser, OS or device row has an empty name |
| `MonitorQuery.ShapeGeo` | admin/src/services/monitor-query.ts:528-545 | provinces and cities come from `body.aggregations` only; a failure gives two empty lists |
| `MonitorQuery.TopLevelReadByOnlySome` | admin/src/services/monitor-query.ts:444 | top-level aggregations are read by the traffic and error queries but ignored by the performance, top and geography queries, which then answer as if the call had failed |
| `Alert.WindowClauses` | admin/src/services/alert.ts:103-114 | each check filters on this app, one event kind, and the hour ending now; the three checks read the store only through this query |
| `Alert.AppName` | admin/src/services/alert.ts:145 | the alert names the app by its name; by its appId when the app is missing, and also when the app is found but its name is empty |
| `Alert.RateAboveIffCrossMultiplied` | admin/src/services/alert.ts:135-138 | the percentage comparison equals an integer comparison: errors/total·100 > p exactly when errors·100 > p·total |
| `Alert.CheckErrorRate` | admin/src/services/alert.ts:91-160 | for every store: a throwing window query ends Failed; rate at most 5% is quiet; above 5%, a throwing app lookup ends Failed, otherwise an ERROR_RATE_HIGH alert, critical exactly above 10%, naming the app and stamped now |
| `Alert.CheckPerformance` | admin/src/services/alert.ts:165-226 | for every store: a throwing window query ends Failed; raised exactly when average FCP exceeds 3000 ms or LCP 4000 ms, as a warning; a throwing app lookup after the threshold ends Failed |
| `Alert.CheckJsErrors` | admin/src/services/alert.ts:231-288 | for every store: a throwing window query ends Failed; raised exactly above 50 JS errors, critical exactly above 100; a throwing app lookup after the threshold ends Failed |
| `Alert.ChecksReadOnlyTheirWindow` | admin/src/services/alert.ts:97-116 | two stores that agree on the three window queries and the app lookups give the same outcomes: nothing else of the store is read |
| `Alert.ErrorRateDecision` | admin/src/services/alert.ts:130-156 | quiet without requests; raised exactly when errors exceed 5% of requests; critical exactly above 10%, otherwise a warning; the alert carries the app's name and the counts |
| `Alert.ErrorRateBoundary` | admin/src/services/alert.ts:138-143 | 5 errors in 100 is quiet, 6 raises, 10 is a warning and 11 is critical |
| `Alert.PerformanceDecision` | admin/src/services/alert.ts:165-226 | raised exactly when the average FCP is over 3000 ms or the average LCP is over 4000 ms (an absent average counts as 0), always as a warning |
| `Alert.JsErrorDecision` | admin/src/services/alert.ts:231-288 | raised exactly above 50 JS errors in the hour, critical exactly above 100 |
| `Alert.RunAlertChecks` | admin/src/services/alert.ts:293-299 | one outcome per check, in order error rate, performance, JS errors; each raised alert is for this app, stamped now, and of its check's type |
| `Alert.RaisedAlerts` | admin/src/services/alert.ts:56 | the alerts handed to the sink are exactly the raised outcomes |
| `Alert.FailureIsIsolated` | admin/src/services/alert.ts:157-159 | for each of the three checks, a throwing query makes that check end Failed, raising nothing, while the other two checks' outcomes stay as they would have been |
| `Alert.NoHttpSpikeNorInfo` | admin/src/services/alert.ts:12-24 | the evaluator never raises HTTP_ERROR_SPIKE and never uses level INFO |
| `AlertCheckRoute.ManualCheck` | admin/src/app/api/alert/check/route.ts:7-56 | POST: 1005/401 without a session; 500 on a bad body; 1001/400 without appId; 404 for an app not owned; otherwise 1000 with the run's alerts for that app |
| `AlertCheckRoute.ManualAlertsAreForOwnedApp` | admin/src/app/api/alert/check/route.ts:28-43 | every alert a manual run sends concerns an app the caller created |
| `AlertCheckRoute.ExpectedKey` | admin/src/app/api/alert/check/route.ts:63 | the expected key is the configured one when set, and never empty |
| `AlertCheckRoute.Settle` | admin/src/app/api/alert/check/route.ts:79-81 | one settlement per enabled app, in order; each is fulfilled, with the outcomes of that app's own check run |
| `AlertCheckRoute.SentBy` | admin/src/app/api/alert/check/route.ts:79-81 | an alert is sent exactly when some fulfilled run raised it |
| `AlertCheckRoute.BulkCheck` | admin/src/app/api/alert/check/route.ts:59-102 | GET: 401 for a wrong or missing key and 500 when the app lookup fails, both sending nothing; otherwise total is the number of enabled apps, success counts the fulfilled runs and fail the rejected ones, and the sent alerts are those the runs raised |
| `AlertCheckRoute.BulkRunsNeverFail` | admin/src/app/api/alert/check/route.ts:79-93 | for every store answer, since every check catches its own failure, a bulk run with the right key reports fail 0 and success equal to the number of enabled apps |
| `AlertCheckRoute.BulkAlertsAreForActiveApps` | admin/src/app/api/alert/check/route.ts:73-81 | every alert a bulk run sends was raised by the run of an enabled app in the table with that alert's appId |
| `TrafficTrendRoute.TrendKind` | admin/src/app/api/traffic/trend/route.ts:21 | the type defaults to 'hour' only when absent or empty |
| `TrafficTrendRoute.Window` | admin/src/app/api/traffic/trend/route.ts:50-64 | both given bounds are used as is; otherwise the window ends now and spans a day for 'hour' and a week for any other type |
| `TrafficTrendRoute.TrendRequestOf` | admin/src/app/api/traffic/trend/route.ts:66-99 | an invalid window date throws; otherwise the filter is the app and the ISO window, and the histogram is hourly exactly for 'hour', zero-filled across exactly that window |
| `TrafficTrendRoute.TrendRowOf` | admin/src/app/api/traffic/trend/route.ts:112-118 | a row keeps the bucket's timestamp, takes its label from `key_as_string` or else the ISO rendering of the key, and defaults pv and uv to 0 |
| `TrafficTrendRoute.TrendRows` | admin/src/app/api/traffic/trend/route.ts:112-118 | one row per bucket, in bucket order, each shaped from its bucket |
| `TrafficTrendRoute.TrafficTrend` | admin/src/app/api/traffic/trend/route.ts:9-148 | denied by the gate as the gate says; on success it echoes the type and the window, with one row per bucket, or no rows when the search throws |
| `TrafficTrendRoute.TrendFailsOpen` | admin/src/app/api/traffic/trend/route.ts:130-141 | once admitted, the route fails only on an invalid window; a throwing search answers like a search that found no buckets |
| `TrafficTrendRoute.DefaultWindowLength` | admin/src/app/api/traffic/trend/route.ts:50-64 | without explicit bounds the window is valid and spans exactly 86 400 000 ms for 'hour' and a week otherwise |
| `Paging.PageBounds` | admin/src/app/api/performance/detail/route.ts:25-26 | `from` and `size` are `parseInt` of the parameter or its default, and a missing `from` is 0 |
| `Paging.Rows` | admin/src/app/api/performance/detail/route.ts:126-136 | one row per hit, in hit order, built from the hit's id and source |
| `Paging.ShapePage` | admin/src/app/api/performance/detail/route.ts:121-160 | rows and the normalised total when the hits are readable; otherwise an empty page with total 0; `from` and `size` are echoed either way |
| `Paging.PageKeepsHitIds` | admin/src/app/api/http-error/detail/route.ts:105-114 | the rows of a page carry the hits' ids, in order |
| `PerformanceDetailRoute.WhiteTimeBounds` | admin/src/app/api/performance/detail/route.ts:71-90 | codes '1' to '4' give the inclusive ranges ≤1 s, 1–2 s, 2–3 s and ≥3 s; any other code gives an unbounded range |
| `PerformanceDetailRoute.WhiteTimeBucketsCover` | admin/src/types/report.ts:151-152 | the four buckets cover every duration; each boundary lies in both buckets it separates; the middle buckets exclude durations outside them |
| `PerformanceDetailRoute.PerfDetailClauses` | admin/src/app/api/performance/detail/route.ts:50-90 | app and 'performance' first; a time range exactly when both bounds are given; a page match exactly when pageUrl is given; a white-time range exactly when a code is given |
| `PerformanceDetailRoute.PerfRowOf` | admin/src/app/api/performance/detail/route.ts:126-136 | a row is the hit's id and source, with each of the seven timings defaulting to 0 |
| `PerformanceDetailRoute.PerformanceDetail` | admin/src/app/api/performance/detail/route.ts:9-168 | the gate, then always 1000 with the shaped page (size defaulting to 20); a throwing search gives an empty page |
| `PerformanceDetailRoute.DefaultPageSize` | admin/src/app/api/performance/detail/route.ts:26 | a missing size parses to 20 |
| `HttpErrorRankRoute.RankKind` | admin/src/app/api/http-error/rank/route.ts:21 | the type defaults to 'error' only when absent or empty |
| `HttpErrorRankRoute.RankRequestOf` | admin/src/app/api/http-error/rank/route.ts:46-96 | the filter is app, 'request', and outcome 'error' for type 'error' or 'done' for anything else; size is `parseInt` of the parameter or '10'; buckets sorted by count, descending; at most five status codes per URL |
| `HttpErrorRankRoute.DefaultRankSize` | admin/src/app/api/http-error/rank/route.ts:22 | a missing size parses to 10 |
| `HttpErrorRankRoute.StatusCounts` | admin/src/app/api/http-error/rank/route.ts:92-95 | one (code, count) pair per status bucket, in order |
| `HttpErrorRankRoute.RankRows` | admin/src/app/api/http-error/rank/route.ts:87-97 | row i is ranked i+1 and carries bucket i's URL, count, average cost (defaulting to 0) and status counts |
| `HttpErrorRankRoute.RankOrderFollowsCount` | admin/src/app/api/http-error/rank/route.ts:87-90 | for buckets in descending count order, a better rank never has a smaller count, and rank k is the k-th bucket's URL |
| `HttpErrorRankRoute.RankBuckets` | admin/src/app/api/http-error/rank/route.ts:85-86 | buckets are read from `body.aggregations` only, empty when absent |
| `HttpErrorRankRoute.HttpErrorRank` | admin/src/app/api/http-error/rank/route.ts:9-120 | the gate, then always 1000 with the type echoed and ranked rows, or no rows when the search throws |
| `HttpErrorDetailRoute.HttpDetailClauses` | admin/src/app/api/http-error/detail/route.ts:51-77 | app and 'request' first; a time range exactly when both bounds are given; url and page matches and the outcome term exactly when given |
| `HttpErrorDetailRoute.RequestRowOf` | admin/src/app/api/http-error/detail/route.ts:110-114 | a row is the hit's id and source, with cost defaulting to 0 |
| `HttpErrorDetailRoute.DetailRequestOf` | admin/src/app/api/http-error/detail/route.ts:80-92 | the request pages with `from` (default 0) and `size` (default 20), newest first |
| `HttpErrorDetailRoute.HttpErrorDetail` | admin/src/app/api/http-error/detail/route.ts:9-146 | the gate, then always 1000 with the shaped page; a throwing search gives an empty page with total 0 |
| `ErrorRangeRoutes.StatusTerm` | admin/src/app/api/http-error/range/route.ts:70-72 | the status term holds `parseInt` of the code, or NaN when it does not parse |
| `ErrorRangeRoutes.HttpRangeClauses` | admin/src/app/api/http-error/range/route.ts:48-72 | throws exactly on an invalid given date; otherwise app, 'request' and 'error' first, then the window, url match and status term, each exactly when given |
| `ErrorRangeRoutes.ShapeHttpRange` | admin/src/app/api/http-error/range/route.ts:105-124 | the total defaults to 0; the by-status, by-URL and hourly lists come one per bucket; no aggregations gives the empty result |
| `ErrorRangeRoutes.HttpErrorRange` | admin/src/app/api/http-error/range/route.ts:9-146 | the gate; 1001/500 on an invalid date; otherwise 1000 with the shaped aggregations, or the empty result when the search throws |
| `ErrorRangeRoutes.JsRangeClauses` | admin/src/app/api/js-error/range/route.ts:48-70 | throws exactly on an invalid given date; otherwise app and 'jsError' first, then the window and the message and file matches, each exactly when given |
| `ErrorRangeRoutes.ShapeJsRange` | admin/src/app/api/js-error/range/route.ts:107-127 | totals and affected users default to 0; the message, file and hourly lists come one per bucket; no aggregations gives the empty result |
| `ErrorRangeRoutes.JsErrorRange` | admin/src/app/api/js-error/range/route.ts:9-150 | the gate; 1001/500 on an invalid date; otherwise 1000 with the shaped aggregations, or the empty result when the search throws |
| `ErrorRangeRoutes.RangeFailsOpen` | admin/src/app/api/js-error/range/route.ts:129-141 | a throwing search and a response without aggregations give the same answer, for both range routes |
| `ReportTypes.OutcomeByName` | admin/src/types/report.ts:67 | exactly 'done', 'error' and 'timeout' are outcomes, and each names itself |
| `ReportTypes.OutcomeNameRoundTrip` | admin/src/types/report.ts:67 | reading back an outcome's wire name gives the outcome |
| `ReportTypes.KindTag` | admin/src/types/report.ts:127-135 | every payload carries one of the seven `type` tags |
| `ReportTypes.KindTagDeterminesKind` | admin/src/types/report.ts:127-135 | two payloads with the same tag are of the same kind |
| `Ip.GetUserIp` | admin/src/lib/ip.ts:6-26 | the first non-empty header wins, in the order x-forwarded-for (its first hop, trimmed), x-real-ip, cf-connecting-ip; with none of them the result is 'unknown' |
| `Ip.ForwardedWins` | admin/src/lib/ip.ts:8-12 | a non-empty forwarded chain decides the answer, whatever the other headers say |
| `Ip.EmptyHeaderIsAbsent` | admin/src/lib/ip.ts:9 | a header set to the empty string is treated as absent |
| `Ip.ForwardedFirstHop` | admin/src/lib/ip.ts:11 | the answer for a chain has no comma and is taken from the chain's first field |
| `Ip.IsLocal` | admin/src/lib/ip.ts:44-52 | every address under 10., 192.168. or 172.16. is local; a local address not starting with 1 is one of the names unknown, ::1 and ::ffff:127.0.0.1 |
| `Ip.GetIpAddress` | admin/src/lib/ip.ts:32-67 | local and private addresses get the default location and every other address gets the unknown one, and no field is ever empty |
| `Ip.PrivateRangeIsNarrow` | admin/src/lib/ip.ts:44-58 | only the literal prefixes count as private: every 172.x address outside 172.16. and every address starting with 10 but not 10. gets the unknown location, as do 172.17.x and 172.31.x; 10.x and 172.16.x are local |
| `ReportRoute.IpFields` | admin/src/app/api/report/route.ts:63-90 | every item is stamped with the request's IP and that IP's location |
| `ReportRoute.Enrich` | admin/src/app/api/report/route.ts:63-90 | enrichment sets the appId, UA and IP fields and keeps everything the item carried |
| `ReportRoute.EnrichAll` | admin/src/app/api/report/route.ts:63-90 | one enriched item per input item, in order |
| `ReportRoute.Report` | admin/src/app/api/report/route.ts:14-117 | 400 without appId or data or for data that is not a JSON array; 404 for an unknown app; 403 for a disabled app; otherwise the enriched batch is saved, and the answer is 1000 exactly when the save succeeded |
| `ReportRoute.BatchIsUniformlyStamped` | admin/src/app/api/report/route.ts:63-97 | a stored batch keeps the input's length and order, and every item carries the same appId, UA and IP fields |
| `ReportRoute.EmptyBatchAccepted` | admin/src/app/api/report/route.ts:29-40 | an empty array passes validation and is stored as an empty batch |
| `ReportRoute.ParamsCheckedFirst` | admin/src/app/api/report/route.ts:21-40 | parameter and format errors are answered with 400 before, and independently of, the app lookup |
| `SourceMap.MapName` | admin/src/lib/sourcemap.ts:113 | the stored map of a bundle is its file name followed by '.map' |
| `SourceMap.MapNameInjective` | admin/src/lib/sourcemap.ts:113 | different bundles never share a map file |
| `SourceMap.LoadMap` | admin/src/lib/sourcemap.ts:38-49 | a map is loaded exactly when the file reads and parses |
| `SourceMap.ParseErrorStack` | admin/src/lib/sourcemap.ts:54-97 | a position is answered exactly when the map loads, and it is the original position the consumer reports |
| `SourceMap.JsSlice` | admin/src/lib/sourcemap.ts:153-155 | `slice` with in-range bounds is the sub-sequence between them, and with crossed bounds it is empty |
| `SourceMap.FirstSource` | admin/src/lib/sourcemap.ts:122-137 | the first source's text is used exactly when the content list is non-empty, and an empty text counts as none |
| `SourceMap.SourceContext` | admin/src/lib/sourcemap.ts:102-161 | no context when the map does not load or has no first source; otherwise the answer is the window around the line in that source's lines, which for a non-negative width is the contiguous slice of at most that many lines on each side |
| `SourceMap.ContextOf` | admin/src/lib/sourcemap.ts:139-156 | a window exists exactly for a line inside the file, and its centre is that line |
| `SourceMap.SliceIndex` | admin/src/lib/sourcemap.ts:153-155 | a `slice` bound is clamped into the array, and a bound already inside it is kept |
| `SourceMap.ContextIsContiguousSlice` | admin/src/lib/sourcemap.ts:147-156 | for a non-negative width, before, current and after are the contiguous slice around the line, clipped to the file |
| `SourceMap.NegativeWidthLeaksLines` | admin/src/lib/sourcemap.ts:147-156 | as written, a width of -5 at line 3 of ten lines gives no lines before but five lines after |
| `SourceMap.ClampedContextOf` | admin/src/lib/sourcemap.ts:147-156 | with the width clamped at zero, neither side is longer than the width |
| `SourceMap.ClampedContextIsContiguous` | admin/src/lib/sourcemap.ts:147-156 | the clamped window is the contiguous slice around the line for every width |
| `SourceMap.ListSourceMaps` | admin/src/lib/sourcemap.ts:166-174 | the listing is the directory's '.map' names in order, and empty when the directory cannot be read |
| `SourceMap.ListSourceMapsExact` | admin/src/lib/sourcemap.ts:170 | a name is listed exactly when it is in the directory and ends in '.map' |
| `SourceMap.StoredMapIsListed` | admin/src/lib/sourcemap.ts:166-174 | a stored bundle map is always listed |
| `Middleware.Unauthenticated` | admin/src/middleware.ts:15-24 | API paths get JSON 1005/401 'login expired', and every other path is redirected to /login |
| `Middleware.IsPublic` | admin/src/middleware.ts:9-10 | a path is public exactly when it starts with /login, /register, /api/auth or /api/report |
| `Middleware.Decide` | admin/src/middleware.ts:9-40 | a request passes exactly when its path starts with a public prefix or it carries a token that verifies; every other request gets the unauthenticated answer |
| `Middleware.InvalidTokenIsMissingToken` | admin/src/middleware.ts:26-40 | a token that fails verification is answered exactly like no token |
| `Middleware.VerifiedTokenPasses` | admin/src/middleware.ts:26-31 | a verified token passes every path |
| `Middleware.PrefixMatchIsRaw` | admin/src/middleware.ts:9-12 | the prefix test is raw: /api/reports and /loginx are public, / and /api/apps are not |
| `Auth.MatchesCredentialRule` | admin/src/app/api/auth/login/route.ts:19-26 | the scan accepts exactly strings of six to ten ASCII letters and digits |
| `Auth.CredentialCheck` | admin/src/app/api/auth/login/route.ts:11-26 | a missing or empty field gives 1001/400 with the empty-credentials message; a malformed one gives 1001/400 with the format message; only two well-formed fields pass |
| `Auth.Login` | admin/src/app/api/auth/login/route.ts:8-91 | success exactly for well-formed credentials of an existing, enabled user whose password matches; the answer carries the user and an httpOnly 'token' cookie holding the signed 7-day claims; 1006/403 exactly for a matching password on a disabled account; 500 when the body or the lookup throws |
| `Auth.UnknownAccountLooksLikeWrongPassword` | admin/src/app/api/auth/login/route.ts:33-47 | an unknown account and a wrong password get the same 1003/401 answer |
| `Auth.DisabledRevealedOnlyAfterPassword` | admin/src/app/api/auth/login/route.ts:40-55 | the disabled-account answer is only given to a caller whose password matched |
| `Auth.CookieMatchesTokenLifetime` | admin/src/app/api/auth/login/route.ts:57-81 | on a successful login the cookie holds the token signed over the returned user's id and account with the cookie's own max-age, and that max-age is 604 800 seconds |
| `Auth.Register` | admin/src/app/api/auth/register/route.ts:8-67 | the shared credential checks; 1004/409 for a taken account; otherwise the row stores the hashed password with status 1, and the answer is 1000 with the new id exactly when the insert succeeded |
| `Auth.StoresHashNotPassword` | admin/src/app/api/auth/register/route.ts:39-50 | the created row holds the hash of the password and, for a hash that never returns its input, never the plaintext |
| `Auth.SameCredentialRule` | admin/src/app/api/auth/register/route.ts:11-25 | login and registration refuse the same malformed credentials with the same answer |
| `Auth.RegisteredAccountCanLogIn` | admin/src/app/api/auth/register/route.ts:43-50 | once the created row is in the table, logging in with the same credentials succeeds |
| `Cache.GetCache` | admin/src/services/cache.ts:28-37 | a value is returned exactly when the call reaches the store and the key is held, and it is the stored value; the store is never changed |
| `Cache.SetCache` | admin/src/services/cache.ts:42-48 | a call that reaches the store leaves it holding the value under the key with its TTL, every other key unchanged; a call that throws leaves the store as it was |
| `Cache.DelCache` | admin/src/services/cache.ts:53-59 | a call that reaches the store removes the key and no other; a call that throws leaves the store as it was |
| `Cache.DelCachePattern` | admin/src/services/cache.ts:64-73 | a call that reaches the store keeps exactly the keys the pattern does not match, with their values; a call that throws leaves the store as it was |
| `Cache.GlobMatches` | admin/src/services/cache.ts:65 | a pattern matches itself, and a pattern without a star matches exactly itself |
| `Cache.AppListKey` | admin/src/services/cache.ts:81 | the key is 'apps:user:' followed by the user id's decimal rendering |
| `Cache.AppStatusKey` | admin/src/services/cache.ts:105 | the key is 'app:status:' followed by the appId |
| `Cache.StatsKey` | admin/src/services/cache.ts:136 | the key starts with 'stats:', the appId and a colon |
| `Cache.StatsPattern` | admin/src/services/cache.ts:156 | the pattern is 'stats:', the appId and a colon, then a single final star |
| `Cache.PerformanceKey` | admin/src/services/cache.ts:170 | the key is 'perf:', the appId, a colon, then the date |
| `Cache.UserInfoKey` | admin/src/services/cache.ts:191 | the key is 'user:' followed by the user id's decimal rendering |
| `Cache.KeySpacesDisjoint` | admin/src/services/cache.ts:9-15 | a user's list key is never a user-info, app-status or statistics key, and no statistics pattern reaches it |
| `Cache.AppListKeysDistinct` | admin/src/services/cache.ts:80-83 | different users have different list keys |
| `Cache.StatsKeyMatchesPattern` | admin/src/services/cache.ts:130-158 | every statistics key of an app matches that app's clear pattern |
| `Cache.StatsPatternStaysInStats` | admin/src/services/cache.ts:156 | the clear pattern reaches no key outside the 'stats:' space |
| `Cache.CacheUserApps` | admin/src/services/cache.ts:80-83 | a call that reaches the store makes the user's list readable with the medium TTL; no other key changes |
| `Cache.ClearUserAppsCache` | admin/src/services/cache.ts:96-99 | a call that reaches the store makes the user's list unreadable; every other key reads as before, whichever way a later read goes |
| `Cache.ClearingIsPerUser` | admin/src/services/cache.ts:96-99 | clearing one user's list leaves every other user's list in place |
| `Cache.ClearAppStatsCache` | admin/src/services/cache.ts:155-158 | a call that reaches the store removes every statistics key of the app; keys outside 'stats:' read as before |
| `Cache.WithCache` | admin/src/services/cache.ts:216-234 | a hit answers from the store and leaves it; a miss, including a read that throws, answers the fetch; the fetched value is stored exactly when the write reaches the store, and nothing is stored when the fetch throws |
| `Cache.HitIgnoresFetch` | admin/src/services/cache.ts:221-225 | on a hit the fetch is never consulted |
| `Cache.SecondCallHits` | admin/src/services/cache.ts:216-234 | after a miss whose fetch resolves and whose write reaches the store, a second call whose read reaches the store is a hit with the same value |
| `Cache.FailedReadOverwrites` | admin/src/services/cache.ts:28-48 | a read that throws counts as a miss even for a stored key, and a write that then succeeds replaces the stored entry with the fresh value |
| `Cache.OfflineStoreAlwaysFetches` | admin/src/services/cache.ts:28-48 | when neither the read nor the write reaches the store, caching answers exactly the fetch and leaves the store unchanged |
| `Utils.JoinLength` | admin/src/lib/utils.ts:7-9 | a join of k pieces is the pieces' length plus k-1 separators |
| `Utils.Cn` | admin/src/lib/utils.ts:7-9 | `cn` gives the empty string exactly when every class name is empty |
| `Utils.CnLength` | admin/src/lib/utils.ts:7-9 | `cn` of k non-empty names is their length plus k-1 spaces |
| `Utils.CnOfEmpties` | admin/src/lib/utils.ts:8 | only empty names give the empty string |
| `Utils.CnSkipsEmpty` | admin/src/lib/utils.ts:8 | an empty name is dropped wherever it stands |
| `Utils.CnAppend` | admin/src/lib/utils.ts:7-9 | names keep their order: `cn(a, b)` is `cn(a)`, a space, then `cn(b)` |
| `Utils.CnSingle` | admin/src/lib/utils.ts:7-9 | a single non-empty name comes back unchanged |
| `AppsRoute.ShortId` | admin/src/app/api/apps/route.ts:23-25 | the short id has no dash and at most 16 characters, and exactly 16 when the UUID has that many non-dash characters |
| `AppsRoute.CanonicalShortId` | admin/src/app/api/apps/route.ts:23-25 | for a canonical UUID the short id is its first three groups run together, 16 hex digits |
| `AppsRoute.InsertByIdDesc` | admin/src/app/api/apps/route.ts:49-53 | inserting into an id-descending list keeps it descending and is a permutation of the list plus the element |
| `AppsRoute.SortByIdDesc` | admin/src/app/api/apps/route.ts:49-53 | `orderBy id desc` gives an id-descending permutation of the rows |
| `AppsRoute.UserApps` | admin/src/app/api/apps/route.ts:49-53 | the listing is id-descending and made of the caller's rows |
| `AppsRoute.UserAppsAreTheCallers` | admin/src/app/api/apps/route.ts:49-53 | a row is listed exactly when it is in the table and was created by the caller |
| `AppsRoute.ListApps` | admin/src/app/api/apps/route.ts:28-70 | 1005/401 without a session; a cache hit answers the cached list without touching the table; a miss answers the caller's sorted rows and caches them; a failing table gives 1001/500 and leaves the cache alone |
| `AppsRoute.SecondListingIsCached` | admin/src/app/api/apps/route.ts:39-56 | when the first listing's cache write reaches the store and the second listing's read does too, the second is served from the cache with the same list |
| `AppsRoute.CreateApp` | admin/src/app/api/apps/route.ts:73-124 | 1005/401 without a session; 1001/400 without a name; the row gets the short id, the name, the type (1 when absent), the caller and status 1; success clears only the caller's list and answers 'created' |
| `AppsRoute.CreationInvalidatesOnlyCreatorsList` | admin/src/app/api/apps/route.ts:106-107 | after a creation whose delete reaches the store, the creator's next listing goes to the table; every other user's cached list is untouched either way |
| `AppsRoute.FailedInvalidationLeavesStaleList` | admin/src/app/api/apps/route.ts:106-107 | when the delete throws, creation still succeeds, and the creator's next listing answers the old cached list |
| `AppsRoute.AppTypeDefaultsOnlyWhenAbsent` | admin/src/app/api/apps/route.ts:84-104 | an explicit appType is kept, even 0; only an absent one becomes 1 |
| `AppsStatusRoute.SetStatus` | admin/src/app/api/apps/status/route.ts:56-59 | the update changes the status of the rows with that id and nothing else |
| `AppsStatusRoute.StatusMessage` | admin/src/app/api/apps/status/route.ts:61-65 | 'enabled' exactly for status 1, 'disabled' for any other |
| `AppsStatusRoute.UpdateStatus` | admin/src/app/api/apps/status/route.ts:20-73 | in order: 1005/401 without a session, 1001/400 for a non-numeric id or status, 1001/404 for an app not owned; a write happens exactly when every check passes and the update resolves, and the answer is then 1000 with the status message |
| `AppsStatusRoute.OnlyStatusChanges` | admin/src/app/api/apps/status/route.ts:56-59 | after an update every row differs from before at most in the status, and only rows with that id change |
| `AppsStatusRoute.OnlyOwnerUpdates` | admin/src/app/api/apps/status/route.ts:41-54 | an update only ever touches an app the caller created |
| `AppsStatusRoute.AnyNumberIsAccepted` | admin/src/app/api/apps/status/route.ts:34-39 | any number is accepted as a status: 1 enables, anything else disables |

## Left out

- Floating-point rendering is not modelled: `toFixed(2)`, `Math.round` and
  string concatenation such as `'%'`. Rates and averages are exact reals,
  and the alert thresholds are proved on integers.
- The source reads the clock several times per request; the model uses a
  single `now` parameter, and keeps the ISO rendering of a time as its
  millisecond value (`Iso(ms)`). The trend route reads `new Date()` for the
  end (app/api/traffic/trend/route.ts:51) and `Date.now()` again for the
  start (lines 59 and 62). Each alert check reads it for its window
  (services/alert.ts:94, 167, 233) and again, after the awaited query, for
  the alert's `timestamp` (lines 154, 220, 282). Two consequences:
  - `TrafficTrendRoute.DefaultWindowLength`: the default window is exactly
    24 h or 7 d in the model, but in the source it can be a few
    milliseconds shorter.
  - `Alert.CheckErrorRate`, `Alert.CheckPerformance`, `Alert.CheckJsErrors`
    and `Alert.RunAlertChecks`: an alert is stamped with the end of its
    window in the model, whereas in the source the stamp is later by the
    query's latency.
- Date parsing (`new Date(s)`) is a parameter `string -> Instant`. Whether a
  string is a valid date is not modelled.
- Header names are taken as already lower-cased. `Headers.get` is
  case-insensitive.
- Report items are taken as already well-typed. The UA parser, the JSON
  parser and the Elasticsearch bulk write are parameters.
- JSON body fields of the wrong type are not modelled: a non-string
  `appName` or `account`, or a fractional `id`. They are modelled as absent,
  or as numbers.
- Redis TTL expiry is not modelled. Entries record their TTL but never
  expire, because no time passes in the model.
- The JSON round trip of cached values is not modelled. Values are kept per
  value type as they were stored, so a cached JSON `null` is not modelled.
- `Cache.DelCachePattern` treats only a trailing `*` as a wildcard. An appId
  containing glob metacharacters (`*`, `?`, `[`) is matched literally.
- The app-status, statistics, performance and user-info cache helpers are
  covered only by their keys and by `Cache.WithCache`. Each cache store holds
  one value type, whereas the source keeps one Redis instance for all of
  them.
- Token verification, signing, bcrypt hashing and comparison, the UUID
  generator, and the Elasticsearch and Prisma clients are parameters.
  Signing and verification are independent parameters, so the model does
  not see that their secret defaults differ when `JWT_SECRET` is unset:
  login signs with 'default-secret' (app/api/auth/login/route.ts:60), the
  middleware verifies with 'secret' (middleware.ts:29), and lib/auth.ts:4
  uses 'dev-secret-key'. A token from such a login would not pass the
  middleware.
- Which part of the Elasticsearch response is read is modelled per query.
  The alert checks (services/alert.ts:130-131, 197-198, 264), the trend
  route (app/api/traffic/trend/route.ts:112) and the HTTP range route
  (app/api/http-error/range/route.ts:105) read only the top-level
  `aggregations`. The rank route, the JS range route and the performance,
  top and geography queries read only `body.aggregations`. The alert
  checks' inputs are the top-level aggregations, so a body-wrapped
  response is the input whose fields are all absent, which every check
  answers as quiet.
- The alert's `title` and `message` strings are not modelled. The message
  interpolates `app?.appName` directly (services/alert.ts:146), so for a
  missing app it reads "undefined", unlike the modelled `appName` field.
- The login cookie's `secure` and `sameSite` options are not modelled.
  `secure` depends on `NODE_ENV`. The model keeps the name, `httpOnly`, the
  path, the token and the max-age.
- The middleware's `config.matcher` is not modelled. It keeps Next.js
  static assets out of the middleware. `Middleware.Decide` is stated for
  every path that reaches the middleware.
- Alert notification is a stub that only logs. A raised alert is returned as
  a value, and the e-mail, DingTalk, WeCom and SMS senders are left out.
- Concurrency is not modelled. `Promise.all` and `Promise.allSettled` become
  independent per-check and per-app outcomes.
- `generateShortUUID` in `lib/utils.ts` draws on `Date.now()` and
  `Math.random()`, so it is left out. The apps route's own short id, taken
  from a UUID, is modelled.
- The source-map library's coordinate lookup is a parameter.
  `saveSourceMap` and `deleteSourceMap` are file-system writes and are
  covered only through `SourceMap.MapName` and `SourceMap.ListSourceMaps`.
- The mock routes, the UI pages and components, and the export routes are
  not part of this model.
- Zero-filling of the traffic histogram is the store's job. The model only
  states that the request asks for it (`minDocCount == 0` across the
  window).
- The histograms' `time_zone: '+08:00'` is not modelled
  (app/api/traffic/trend/route.ts:88, and the hourly histograms of both
  range routes). Bucket boundaries fall on +08:00 hours and days, which
  the model leaves to the store.
- `ShapePerformance`, `ShapeTop` and `ShapeGeo`: their contracts spell out
  the shaping. The property that ties them to the other queries is
  `MonitorQuery.TopLevelReadByOnlySome`.

## Findings

| source | as written | input that shows it | evidently intended | confidence | as-written member | corrected member |
|---|---|---|---|---|---|---|
| admin/src/lib/sourcemap.ts:147-156 | a negative `contextLines` still yields lines after the target, because the negative `end` of `slice` counts from the end of the array | ten lines, line 3, contextLines -5: `before` is empty but `after` holds lines 4 to 8 | a negative width gives an empty context on both sides | low, not executed | `SourceMap.NegativeWidthLeaksLines` | `SourceMap.ClampedContextIsContiguous` |
