/** The threshold-based alert evaluator: three independent checks over the
    trailing hour of one app's events, each deciding whether to raise an alert
    and at which level. Notification is a stub that only logs, so a raised
    alert is modelled as a returned value. */
module Alert {
  import opened Common
  import opened Query
  import opened Directory

  const ONE_HOUR_MS: int := 60 * 60 * 1000

  const ERROR_RATE_WARNING_PCT := 5
  const ERROR_RATE_CRITICAL_PCT := 10
  const FCP_LIMIT_MS: real := 3000.0
  const LCP_LIMIT_MS: real := 4000.0
  const JS_ERROR_WARNING_COUNT := 50
  const JS_ERROR_CRITICAL_COUNT := 100

  datatype AlertType = ErrorRateHigh | PerformanceDegraded | JsErrorSpike | HttpErrorSpike

  datatype AlertLevel = Info | Warning | Critical

  /** The structured numbers an alert carries for the notification sink. */
  datatype AlertDetail =
    | RateDetail(total: nat, errors: nat)
    | LatencyDetail(avgFcp: real, avgLcp: real)
    | CountDetail(errorCount: nat)

  datatype AlertMessage = AlertMessage(kind: AlertType, level: AlertLevel, appId: string,
                                       appName: string, detail: AlertDetail, timestamp: int)

  /** What one check ends in: nothing to report, an alert handed to the
      sink, or an exception caught and logged by the check itself. */
  datatype CheckOutcome = Quiet | Raised(alert: AlertMessage) | Failed

  /** Aggregations each check reads from the store. The checks read only the
      top-level `result.aggregations`, never `result.body.aggregations`, so a
      response that nests them under `body` leaves every field absent and
      every check quiet. */
  datatype ErrorRateAggs = ErrorRateAggs(totalRequests: Option<nat>, errorRequests: Option<nat>)
  datatype LatencyAggs = LatencyAggs(avgFcp: Option<real>, avgLcp: Option<real>)
  datatype CountAggs = CountAggs(errorCount: Option<nat>)

  /** The filter every check sends: this app, one event kind, and the window
      [now - 1h, now] in ISO form. */
  function WindowClauses(appId: string, kind: string, now: int): (r: seq<Clause>)
    ensures |r| == 3 && r[0] == TenantTerm(appId) && r[1] == KindTerm(kind)
    ensures r[2].Range? && r[2].gte.Some? && r[2].lte.Some?
    ensures r[2].gte.value == Iso(now - ONE_HOUR_MS) && r[2].lte.value == Iso(now)
  {
    [TenantTerm(appId), KindTerm(kind), Range(TIME_FIELD, Some(Iso(now - ONE_HOUR_MS)), Some(Iso(now)))]
  }

  /** The search store as the checks see it: the aggregations it answers for
      each filter it is sent, or a throw. */
  type Search<A> = seq<Clause> -> Fetch<A>

  /** `app?.appName || appId`. */
  function AppName(apps: seq<App>, appId: string): (name: string)
    ensures AppById(apps, appId).None? ==> name == appId
    ensures AppById(apps, appId).Some? && AppById(apps, appId).value.appName == "" ==> name == appId
    ensures AppById(apps, appId).Some? && AppById(apps, appId).value.appName != "" ==>
              name == AppById(apps, appId).value.appName
  {
    var app := AppById(apps, appId);
    OrStr(if app.Some? then Some(app.value.appName) else None, appId)
  }

  /** `(errors / total) * 100`, computed exactly. */
  function ErrorRate(errors: nat, total: nat): real
    requires total > 0
  {
    (errors as real) / (total as real) * 100.0
  }

  /** The rational comparison the source makes equals an integer
      cross-multiplication, with the strict inequality kept. */
  lemma RateAboveIffCrossMultiplied(errors: nat, total: nat, pct: nat)
    requires total > 0
    ensures ErrorRate(errors, total) > pct as real <==> errors * 100 > pct * total
  {
    var e := errors as real;
    var t := total as real;
    assert ErrorRate(errors, total) * t == e * 100.0;
    assert (errors * 100) as real == e * 100.0;
    assert (pct * total) as real == (pct as real) * t;
    if ErrorRate(errors, total) > pct as real {
      assert ErrorRate(errors, total) * t > (pct as real) * t;
    } else {
      assert ErrorRate(errors, total) * t <= (pct as real) * t;
    }
  }

  /** The error-rate condition on integers: some requests, and errors
      strictly above `pct` percent of them (absent counts read as 0). */
  predicate RateAbove(a: ErrorRateAggs, pct: nat) {
    OrZero(a.totalRequests) > 0 && OrZero(a.errorRequests) * 100 > pct * OrZero(a.totalRequests)
  }

  /** `checkErrorRateAlert`: asks the store about the app's requests of the
      last hour; `apps` is the check's own lookup of the app, made only when
      it alerts. */
  function CheckErrorRate(appId: string, now: int, search: Search<ErrorRateAggs>,
                          apps: Fetch<seq<App>>): (o: CheckOutcome)
    ensures search(WindowClauses(appId, "request", now)).Threw? ==> o == Failed
    ensures search(WindowClauses(appId, "request", now)).Fetched? ==>
              var a := search(WindowClauses(appId, "request", now)).value;
              && (!RateAbove(a, ERROR_RATE_WARNING_PCT) ==> o == Quiet)
              && (RateAbove(a, ERROR_RATE_WARNING_PCT) && apps.Threw? ==> o == Failed)
              && (RateAbove(a, ERROR_RATE_WARNING_PCT) && apps.Fetched? ==>
                    o == Raised(AlertMessage(ErrorRateHigh,
                                             if RateAbove(a, ERROR_RATE_CRITICAL_PCT) then Critical else Warning,
                                             appId, AppName(apps.value, appId),
                                             RateDetail(OrZero(a.totalRequests), OrZero(a.errorRequests)), now)))
  {
    match search(WindowClauses(appId, "request", now))
    case Threw => Failed
    case Fetched(a) =>
      var total := OrZero(a.totalRequests);
      var errors := OrZero(a.errorRequests);
      if total == 0 then Quiet
      else
        RateAboveIffCrossMultiplied(errors, total, ERROR_RATE_WARNING_PCT);
        RateAboveIffCrossMultiplied(errors, total, ERROR_RATE_CRITICAL_PCT);
        if !(ErrorRate(errors, total) > ERROR_RATE_WARNING_PCT as real) then Quiet
        else match apps
          case Threw => Failed
          case Fetched(table) =>
            var level := if ErrorRate(errors, total) > ERROR_RATE_CRITICAL_PCT as real then Critical else Warning;
            Raised(AlertMessage(ErrorRateHigh, level, appId, AppName(table, appId),
                                RateDetail(total, errors), now))
  }

  /** `checkPerformanceAlert`: asks the store about the app's performance
      events of the last hour. */
  function CheckPerformance(appId: string, now: int, search: Search<LatencyAggs>,
                            apps: Fetch<seq<App>>): (o: CheckOutcome)
    ensures search(WindowClauses(appId, "performance", now)).Threw? ==> o == Failed
    ensures search(WindowClauses(appId, "performance", now)).Fetched? ==>
              var a := search(WindowClauses(appId, "performance", now)).value;
              var slow := OrZeroReal(a.avgFcp) > FCP_LIMIT_MS || OrZeroReal(a.avgLcp) > LCP_LIMIT_MS;
              && (!slow ==> o == Quiet)
              && (slow && apps.Threw? ==> o == Failed)
              && (slow && apps.Fetched? ==>
                    o == Raised(AlertMessage(PerformanceDegraded, Warning, appId, AppName(apps.value, appId),
                                             LatencyDetail(OrZeroReal(a.avgFcp), OrZeroReal(a.avgLcp)), now)))
  {
    match search(WindowClauses(appId, "performance", now))
    case Threw => Failed
    case Fetched(a) =>
      var fcp := OrZeroReal(a.avgFcp);
      var lcp := OrZeroReal(a.avgLcp);
      if !(fcp > FCP_LIMIT_MS || lcp > LCP_LIMIT_MS) then Quiet
      else match apps
        case Threw => Failed
        case Fetched(table) =>
          Raised(AlertMessage(PerformanceDegraded, Warning, appId, AppName(table, appId),
                              LatencyDetail(fcp, lcp), now))
  }

  /** `checkJsErrorAlert`: asks the store about the app's script errors of
      the last hour. */
  function CheckJsErrors(appId: string, now: int, search: Search<CountAggs>,
                         apps: Fetch<seq<App>>): (o: CheckOutcome)
    ensures search(WindowClauses(appId, "jsError", now)).Threw? ==> o == Failed
    ensures search(WindowClauses(appId, "jsError", now)).Fetched? ==>
              var count := OrZero(search(WindowClauses(appId, "jsError", now)).value.errorCount);
              && (count <= JS_ERROR_WARNING_COUNT ==> o == Quiet)
              && (count > JS_ERROR_WARNING_COUNT && apps.Threw? ==> o == Failed)
              && (count > JS_ERROR_WARNING_COUNT && apps.Fetched? ==>
                    o == Raised(AlertMessage(JsErrorSpike, if count > JS_ERROR_CRITICAL_COUNT then Critical else Warning,
                                             appId, AppName(apps.value, appId), CountDetail(count), now)))
  {
    match search(WindowClauses(appId, "jsError", now))
    case Threw => Failed
    case Fetched(a) =>
      var count := OrZero(a.errorCount);
      if !(count > JS_ERROR_WARNING_COUNT) then Quiet
      else match apps
        case Threw => Failed
        case Fetched(table) =>
          var level := if count > JS_ERROR_CRITICAL_COUNT then Critical else Warning;
          Raised(AlertMessage(JsErrorSpike, level, appId, AppName(table, appId), CountDetail(count), now))
  }

  /** The error-rate check, stated on integers: quiet without requests, and
      otherwise raised exactly when errors exceed 5% of requests, critical
      exactly when they exceed 10%. */
  lemma ErrorRateDecision(appId: string, now: int, total: nat, errors: nat, apps: seq<App>)
    ensures var o := CheckErrorRate(appId, now, _ => Fetched(ErrorRateAggs(Some(total), Some(errors))), Fetched(apps));
            && (total == 0 ==> o == Quiet)
            && (o.Raised? <==> total > 0 && errors * 100 > 5 * total)
            && (o.Raised? ==> o.alert.kind == ErrorRateHigh && o.alert.appName == AppName(apps, appId)
                              && o.alert.detail == RateDetail(total, errors))
            && (o.Raised? ==> (o.alert.level == Critical <==> errors * 100 > 10 * total))
            && (o.Raised? ==> (o.alert.level == Warning <==> errors * 100 <= 10 * total))
  {
  }

  /** Exactly 5% is not an alert; one request above it is. */
  lemma ErrorRateBoundary(appId: string, now: int, apps: seq<App>)
    ensures CheckErrorRate(appId, now, _ => Fetched(ErrorRateAggs(Some(100), Some(5))), Fetched(apps)) == Quiet
    ensures CheckErrorRate(appId, now, _ => Fetched(ErrorRateAggs(Some(100), Some(6))), Fetched(apps)).Raised?
    ensures CheckErrorRate(appId, now, _ => Fetched(ErrorRateAggs(Some(100), Some(10))), Fetched(apps)).alert.level == Warning
    ensures CheckErrorRate(appId, now, _ => Fetched(ErrorRateAggs(Some(100), Some(11))), Fetched(apps)).alert.level == Critical
  {
    ErrorRateDecision(appId, now, 100, 5, apps);
    ErrorRateDecision(appId, now, 100, 6, apps);
    ErrorRateDecision(appId, now, 100, 10, apps);
    ErrorRateDecision(appId, now, 100, 11, apps);
  }

  /** The performance check: raised exactly when an average is strictly over
      its limit (an absent average counting as 0), always as a warning. */
  lemma PerformanceDecision(appId: string, now: int, fcp: Option<real>, lcp: Option<real>, apps: seq<App>)
    ensures var o := CheckPerformance(appId, now, _ => Fetched(LatencyAggs(fcp, lcp)), Fetched(apps));
            && (o.Raised? <==> OrZeroReal(fcp) > 3000.0 || OrZeroReal(lcp) > 4000.0)
            && (o.Raised? ==> o.alert.kind == PerformanceDegraded && o.alert.level == Warning)
            && (fcp.None? && lcp.None? ==> o == Quiet)
  {
  }

  /** The JS-error check: raised exactly above 50 errors, critical exactly
      above 100. */
  lemma JsErrorDecision(appId: string, now: int, count: Option<nat>, apps: seq<App>)
    ensures var o := CheckJsErrors(appId, now, _ => Fetched(CountAggs(count)), Fetched(apps));
            && (o.Raised? <==> OrZero(count) > 50)
            && (o.Raised? ==> o.alert.kind == JsErrorSpike)
            && (o.Raised? ==> (o.alert.level == Critical <==> OrZero(count) > 100))
  {
  }

  /** What the store and the database answer during one run of all checks:
      one search per check, and each check's own lookup of the app. */
  datatype CheckInputs = CheckInputs(rate: Search<ErrorRateAggs>, latency: Search<LatencyAggs>,
                                     jsErrors: Search<CountAggs>,
                                     rateApps: Fetch<seq<App>>, latencyApps: Fetch<seq<App>>,
                                     jsApps: Fetch<seq<App>>)

  /** `runAlertChecks`: all three checks, each catching its own failure, so
      the run as a whole always completes. */
  function RunAlertChecks(appId: string, now: int, inputs: CheckInputs): (r: seq<CheckOutcome>)
    ensures |r| == 3
    ensures forall i :: 0 <= i < 3 && r[i].Raised? ==> r[i].alert.appId == appId && r[i].alert.timestamp == now
    ensures r[0].Raised? ==> r[0].alert.kind == ErrorRateHigh
    ensures r[1].Raised? ==> r[1].alert.kind == PerformanceDegraded
    ensures r[2].Raised? ==> r[2].alert.kind == JsErrorSpike
  {
    [CheckErrorRate(appId, now, inputs.rate, inputs.rateApps),
     CheckPerformance(appId, now, inputs.latency, inputs.latencyApps),
     CheckJsErrors(appId, now, inputs.jsErrors, inputs.jsApps)]
  }

  /** Each check sends exactly its window filter: two stores that answer the
      three filters alike, with the same app lookups, give the same run,
      whatever they answer to any other filter. */
  lemma ChecksReadOnlyTheirWindow(appId: string, now: int, x: CheckInputs, y: CheckInputs)
    requires x.rate(WindowClauses(appId, "request", now)) == y.rate(WindowClauses(appId, "request", now))
    requires x.latency(WindowClauses(appId, "performance", now)) == y.latency(WindowClauses(appId, "performance", now))
    requires x.jsErrors(WindowClauses(appId, "jsError", now)) == y.jsErrors(WindowClauses(appId, "jsError", now))
    requires x.rateApps == y.rateApps && x.latencyApps == y.latencyApps && x.jsApps == y.jsApps
    ensures RunAlertChecks(appId, now, x) == RunAlertChecks(appId, now, y)
  {
  }

  /** The alerts a run hands to the sink. */
  function RaisedAlerts(outcomes: seq<CheckOutcome>): (alerts: seq<AlertMessage>)
    ensures |alerts| <= |outcomes|
    ensures forall a :: a in alerts <==> Raised(a) in outcomes
    decreases |outcomes|
  {
    if |outcomes| == 0 then []
    else (if outcomes[0].Raised? then [outcomes[0].alert] else []) + RaisedAlerts(outcomes[1..])
  }

  /** Failure isolation: a check whose query throws ends `Failed` (caught and
      logged, so it sends nothing) and changes nothing about what the two
      other checks decide. */
  lemma FailureIsIsolated(appId: string, now: int, inputs: CheckInputs)
    ensures var failed := inputs.(rate := _ => Threw);
            var r := RunAlertChecks(appId, now, failed);
            r[0] == Failed && r[1..] == RunAlertChecks(appId, now, inputs)[1..]
    ensures var failed := inputs.(latency := _ => Threw);
            var r := RunAlertChecks(appId, now, failed);
            var s := RunAlertChecks(appId, now, inputs);
            r[1] == Failed && r[0] == s[0] && r[2] == s[2]
    ensures var failed := inputs.(jsErrors := _ => Threw);
            var r := RunAlertChecks(appId, now, failed);
            r[2] == Failed && r[..2] == RunAlertChecks(appId, now, inputs)[..2]
    ensures forall a :: a in RaisedAlerts(RunAlertChecks(appId, now, inputs.(rate := _ => Threw))) ==>
              a.kind != ErrorRateHigh
  {
    var r := RunAlertChecks(appId, now, inputs.(rate := _ => Threw));
    forall a | a in RaisedAlerts(r)
      ensures a.kind != ErrorRateHigh
    {
      assert Raised(a) in r;
    }
  }

  /** The evaluator never raises `HTTP_ERROR_SPIKE` nor anything at `INFO`:
      those members of the enumerations are declared but unused. */
  lemma NoHttpSpikeNorInfo(appId: string, now: int, inputs: CheckInputs)
    ensures forall a :: a in RaisedAlerts(RunAlertChecks(appId, now, inputs)) ==>
              a.kind != HttpErrorSpike && a.level != Info
  {
    var r := RunAlertChecks(appId, now, inputs);
    forall a | a in RaisedAlerts(r)
      ensures a.kind != HttpErrorSpike && a.level != Info
    {
      assert Raised(a) in r;
    }
  }
}
