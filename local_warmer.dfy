/** The bookkeeping of LocalWarmer: the orchestration in warmUris, the progress
    loop of warmUrisWithProgress, the completion counter of the console request
    pool, and the requests the pool sends.

    What the warmer does to its collaborators is recorded as a trace of calls
    (`Call`): the before/after hooks, the job it enqueues, the request list it
    hands to the pool, the progress handler, warmUri and the debug log. Each
    operation returns the calls it makes, in order. */
module LocalWarmer {

  datatype Option<T> = None | Some(value: T)

  /** One page to warm: a site and a path within it. */
  datatype SiteUri = SiteUri(siteId: nat, uri: string)

  /** The path of the action that warms one site URI. */
  const WarmSiteUriAction: string := "actions/blitz/local-warmer/warm-site-uri"

  /** The handler the queued job runs. */
  const JobHandler: string := "warmUrisWithProgress"

  /** The site URL built for `action` with the query parameters siteId, uri and token. */
  datatype ActionUrl = ActionUrl(action: string, siteId: nat, uri: string, token: string)

  datatype Request = Request(verb: string, url: ActionUrl)

  /** How one pooled request settled, as its callback sees it: the fulfilled
      callback takes nothing, the rejected one the exception's message. */
  datatype Outcome = Fulfilled | Rejected(reason: string)

  /** A call the warmer makes on a collaborator. */
  datatype Call =
    | BeforeWarmCache(siteUris: seq<SiteUri>)
    | AddWarmerJob(siteUris: seq<SiteUri>, handler: string, delay: Option<int>)
    | SendPool(requests: seq<Request>)
    /** The progress handler called with `count` of `total`; its third argument
        is always `Progress.ProgressLabel(count, total)`, so the call is identified by the
        two numbers. */
    | SetProgress(count: nat, total: nat)
    | WarmUri(siteUri: SiteUri)
    | Debug(message: string)
    | AfterWarmCache(siteUris: seq<SiteUri>)

  // ---------------------------------------------------------------------------
  // Requests for the console pool (_getRequests)
  // ---------------------------------------------------------------------------

  function RequestFor(siteUri: SiteUri, token: string): Request
  {
    Request("GET", ActionUrl(WarmSiteUriAction, siteUri.siteId, siteUri.uri, token))
  }

  /** The requests _getRequests yields: one per site URI, in order, all sharing the token. */
  function GetRequests(siteUris: seq<SiteUri>, token: string): (requests: seq<Request>)
    ensures |requests| == |siteUris|
    ensures forall i :: 0 <= i < |siteUris| ==> requests[i] == RequestFor(siteUris[i], token)
  {
    if siteUris == [] then [] else [RequestFor(siteUris[0], token)] + GetRequests(siteUris[1..], token)
  }

  /** The site URI the warm-site-uri action reads back from a request's parameters. */
  function RequestedSiteUri(request: Request): SiteUri
  {
    SiteUri(request.url.siteId, request.url.uri)
  }

  /** Every request is a GET of the warm action carrying the one token, and
      reading the requests back gives the site URIs, in order. */
  lemma RequestsRoundTrip(siteUris: seq<SiteUri>, token: string)
    ensures var requests := GetRequests(siteUris, token);
      (forall i :: 0 <= i < |requests| ==>
         requests[i].verb == "GET" && requests[i].url.action == WarmSiteUriAction && requests[i].url.token == token)
      && seq(|requests|, i requires 0 <= i < |requests| => RequestedSiteUri(requests[i])) == siteUris
  {
  }

  // ---------------------------------------------------------------------------
  // Traces and what can be read off them
  // ---------------------------------------------------------------------------

  /** The handler call, when a handler was supplied. */
  function ReportProgress(hasHandler: bool, count: nat, total: nat): seq<Call>
  {
    if hasHandler then [SetProgress(count, total)] else []
  }

  /** The reports 1..n of `total`, in increasing order. */
  function ProgressSeries(n: nat, total: nat): seq<Call>
  {
    if n == 0 then [] else ProgressSeries(n - 1, total) + [SetProgress(n, total)]
  }

  /** The k-th report of a series counts k + 1: the counts start at 1, rise by
      one at each report and end at n. */
  lemma {:induction false} ProgressSeriesAt(n: nat, total: nat, k: nat)
    requires k < n
    ensures |ProgressSeries(n, total)| == n
    ensures ProgressSeries(n, total)[k] == SetProgress(k + 1, total)
  {
    if k < n - 1 {
      ProgressSeriesAt(n - 1, total, k);
    } else if n > 1 {
      ProgressSeriesAt(n - 1, total, 0);
    }
  }

  datatype Kind = BeforeHook | Enqueue | Pool | Report | Warm | Log | AfterHook

  /** Whether `c` is a call of the given kind. */
  predicate OfKind(c: Call, kind: Kind)
  {
    match kind
    case BeforeHook => c.BeforeWarmCache?
    case Enqueue => c.AddWarmerJob?
    case Pool => c.SendPool?
    case Report => c.SetProgress?
    case Warm => c.WarmUri?
    case Log => c.Debug?
    case AfterHook => c.AfterWarmCache?
  }

  /** The calls of one kind in a trace, in order. */
  function Only(calls: seq<Call>, kind: Kind): seq<Call>
  {
    if calls == [] then []
    else
      var last := calls[|calls| - 1];
      Only(calls[..|calls| - 1], kind) + (if OfKind(last, kind) then [last] else [])
  }

  lemma OnlySnoc(a: seq<Call>, c: Call, kind: Kind)
    ensures Only(a + [c], kind) == Only(a, kind) + (if OfKind(c, kind) then [c] else [])
  {
    assert (a + [c])[..|a|] == a;
  }

  lemma OnlyOne(c: Call, kind: Kind)
    ensures Only([c], kind) == if OfKind(c, kind) then [c] else []
  {
    OnlySnoc([], c, kind);
    assert [] + [c] == [c];
  }

  lemma {:induction false} OnlyConcat(a: seq<Call>, b: seq<Call>, kind: Kind)
    ensures Only(a + b, kind) == Only(a, kind) + Only(b, kind)
  {
    if b == [] {
      assert a + b == a;
    } else {
      var b' := b[..|b| - 1];
      var c := b[|b| - 1];
      assert a + b == (a + b') + [c];
      assert b == b' + [c];
      OnlySnoc(a + b', c, kind);
      OnlySnoc(b', c, kind);
      OnlyConcat(a, b', kind);
    }
  }

  /** A progress report is seen only through the Report kind. */
  lemma OnlyReport(hasHandler: bool, n: nat, total: nat, kind: Kind)
    ensures Only(ReportProgress(hasHandler, n, total), kind)
         == if kind == Report then ReportProgress(hasHandler, n, total) else []
  {
    if hasHandler {
      assert ReportProgress(hasHandler, n, total) == [SetProgress(n, total)];
      OnlyOne(SetProgress(n, total), kind);
    } else {
      assert ReportProgress(hasHandler, n, total) == [];
    }
  }

  /** A rejection's log entry is seen only through the Log kind. */
  lemma OnlyLog(outcome: Outcome, kind: Kind)
    ensures Only(LogRejection(outcome), kind) == if kind == Log then LogRejection(outcome) else []
  {
    match outcome
    case Fulfilled =>
      assert LogRejection(outcome) == [];
    case Rejected(reason) =>
      assert LogRejection(outcome) == [Debug(reason)];
      OnlyOne(Debug(reason), kind);
  }

  // ---------------------------------------------------------------------------
  // warmUrisWithProgress
  // ---------------------------------------------------------------------------

  /** The calls of the first `n` iterations of warmUrisWithProgress over `siteUris`. */
  function WarmedPrefix(siteUris: seq<SiteUri>, n: nat, hasHandler: bool): seq<Call>
    requires n <= |siteUris|
  {
    if n == 0 then []
    else
      WarmedPrefix(siteUris, n - 1, hasHandler)
        + ReportProgress(hasHandler, n, |siteUris|)
        + [WarmUri(siteUris[n - 1])]
  }

  /** warmUrisWithProgress: for each site URI in turn, count it, report the count
      to the handler if there is one, then warm it. */
  method WarmUrisWithProgress(siteUris: seq<SiteUri>, hasHandler: bool)
    returns (calls: seq<Call>)
    ensures calls == WarmedPrefix(siteUris, |siteUris|, hasHandler)
  {
    var count := 0;
    var total := |siteUris|;
    calls := [];
    for i := 0 to |siteUris|
      invariant count == i
      invariant calls == WarmedPrefix(siteUris, i, hasHandler)
    {
      var siteUri := siteUris[i];
      count := count + 1;
      if hasHandler {
        calls := calls + [SetProgress(count, total)];
      }
      calls := calls + [WarmUri(siteUri)];
    }
  }

  /** Each site URI is warmed once, in input order. With a handler, the k-th
      report (count k of N) comes right before the k-th page is warmed; without
      one, nothing but the pages is called. */
  lemma {:induction false} WarmedPrefixShape(siteUris: seq<SiteUri>, n: nat, hasHandler: bool)
    requires n <= |siteUris|
    ensures var calls := WarmedPrefix(siteUris, n, hasHandler);
      (hasHandler ==>
         |calls| == 2 * n
         && forall k :: 0 <= k < n ==>
              calls[2 * k] == SetProgress(k + 1, |siteUris|) && calls[2 * k + 1] == WarmUri(siteUris[k]))
      && (!hasHandler ==>
         |calls| == n && forall k :: 0 <= k < n ==> calls[k] == WarmUri(siteUris[k]))
  {
    if n > 0 {
      WarmedPrefixShape(siteUris, n - 1, hasHandler);
    }
  }

  /** Warming one more page adds, to each kind, what that iteration calls of that kind. */
  lemma WarmedPrefixSnoc(siteUris: seq<SiteUri>, n: nat, hasHandler: bool, kind: Kind)
    requires 0 < n <= |siteUris|
    ensures Only(WarmedPrefix(siteUris, n, hasHandler), kind)
         == Only(WarmedPrefix(siteUris, n - 1, hasHandler), kind)
          + (if kind == Report then ReportProgress(hasHandler, n, |siteUris|) else [])
          + (if kind == Warm then [WarmUri(siteUris[n - 1])] else [])
  {
    var before := WarmedPrefix(siteUris, n - 1, hasHandler);
    var report := ReportProgress(hasHandler, n, |siteUris|);
    var warm := WarmUri(siteUris[n - 1]);
    OnlySnoc(before + report, warm, kind);
    OnlyConcat(before, report, kind);
    OnlyReport(hasHandler, n, |siteUris|, kind);
  }

  /** warmUrisWithProgress reports 1..N of N, in that order, to a handler, and
      nothing when there is none. */
  lemma {:induction false} WarmedPrefixReports(siteUris: seq<SiteUri>, n: nat, hasHandler: bool)
    requires n <= |siteUris|
    ensures Only(WarmedPrefix(siteUris, n, hasHandler), Report)
         == if hasHandler then ProgressSeries(n, |siteUris|) else []
  {
    if n > 0 {
      WarmedPrefixReports(siteUris, n - 1, hasHandler);
      WarmedReportStep(siteUris, n, hasHandler);
    } else {
      assert WarmedPrefix(siteUris, n, hasHandler) == [];
    }
  }

  lemma WarmedReportStep(siteUris: seq<SiteUri>, n: nat, hasHandler: bool)
    requires 0 < n <= |siteUris|
    requires Only(WarmedPrefix(siteUris, n - 1, hasHandler), Report)
          == if hasHandler then ProgressSeries(n - 1, |siteUris|) else []
    ensures Only(WarmedPrefix(siteUris, n, hasHandler), Report)
         == if hasHandler then ProgressSeries(n, |siteUris|) else []
  {
    var prev := Only(WarmedPrefix(siteUris, n - 1, hasHandler), Report);
    WarmedPrefixSnoc(siteUris, n, hasHandler, Report);
    assert prev + ReportProgress(hasHandler, n, |siteUris|) + [] == prev + ReportProgress(hasHandler, n, |siteUris|);
  }

  // ---------------------------------------------------------------------------
  // warmUrisWithProgressForConsoleRequest
  // ---------------------------------------------------------------------------

  /** The rejected callback logs the exception's message; the fulfilled one logs nothing. */
  function LogRejection(outcome: Outcome): seq<Call>
  {
    match outcome
    case Fulfilled => []
    case Rejected(reason) => [Debug(reason)]
  }

  /** The log entries of the rejected outcomes, in order. */
  function RejectionLog(outcomes: seq<Outcome>, n: nat): seq<Call>
    requires n <= |outcomes|
  {
    if n == 0 then [] else RejectionLog(outcomes, n - 1) + LogRejection(outcomes[n - 1])
  }

  /** The calls the pool callbacks make for the first `n` settled outcomes. */
  function SettledPrefix(outcomes: seq<Outcome>, n: nat, total: nat, hasHandler: bool): seq<Call>
    requires n <= |outcomes|
  {
    if n == 0 then []
    else
      SettledPrefix(outcomes, n - 1, total, hasHandler)
        + (ReportProgress(hasHandler, n, total) + LogRejection(outcomes[n - 1]))
  }

  /** The calls of warmUrisWithProgressForConsoleRequest when the pool's requests
      settle in the order `outcomes`. */
  function ConsoleCalls(siteUris: seq<SiteUri>, token: string, hasHandler: bool, outcomes: seq<Outcome>): seq<Call>
  {
    [SendPool(GetRequests(siteUris, token))] + SettledPrefix(outcomes, |outcomes|, |siteUris|, hasHandler)
  }

  /** The fulfilled callback: increment the shared counter and report it to the
      handler if there is one. */
  method OnFulfilled(count: nat, total: nat, hasHandler: bool) returns (newCount: nat, calls: seq<Call>)
    ensures newCount == count + 1
    ensures calls == ReportProgress(hasHandler, newCount, total)
  {
    newCount := count + 1;
    calls := [];
    if hasHandler {
      calls := calls + [SetProgress(newCount, total)];
    }
  }

  /** The rejected callback: the same as the fulfilled one, then log the
      exception's message. */
  method OnRejected(count: nat, total: nat, hasHandler: bool, reason: string) returns (newCount: nat, calls: seq<Call>)
    ensures newCount == count + 1
    ensures calls == ReportProgress(hasHandler, newCount, total) + [Debug(reason)]
  {
    newCount := count + 1;
    calls := [];
    if hasHandler {
      calls := calls + [SetProgress(newCount, total)];
    }
    calls := calls + [Debug(reason)];
  }

  /** The pool's callbacks, run as its requests settle in the order `outcomes`;
      both callbacks share one counter. */
  method RunCallbacks(outcomes: seq<Outcome>, total: nat, hasHandler: bool) returns (settled: seq<Call>)
    ensures settled == SettledPrefix(outcomes, |outcomes|, total, hasHandler)
  {
    var count := 0;
    settled := [];
    for i := 0 to |outcomes|
      invariant count == i
      invariant settled == SettledPrefix(outcomes, i, total, hasHandler)
    {
      var step;
      match outcomes[i] {
        case Fulfilled =>
          count, step := OnFulfilled(count, total, hasHandler);
        case Rejected(reason) =>
          count, step := OnRejected(count, total, hasHandler, reason);
      }
      settled := settled + step;
    }
  }

  /** warmUrisWithProgressForConsoleRequest: hand the requests to the pool, then
      wait for it while the callbacks run. */
  method WarmUrisWithProgressForConsoleRequest(siteUris: seq<SiteUri>, token: string, hasHandler: bool, outcomes: seq<Outcome>)
    returns (calls: seq<Call>)
    ensures calls == ConsoleCalls(siteUris, token, hasHandler, outcomes)
  {
    var pool := SendPool(GetRequests(siteUris, token));
    var settled := RunCallbacks(outcomes, |siteUris|, hasHandler);
    calls := [pool] + settled;
  }

  /** One more settled request adds, to each kind, what its callback calls of that kind. */
  lemma SettledPrefixSnoc(outcomes: seq<Outcome>, n: nat, total: nat, hasHandler: bool, kind: Kind)
    requires 0 < n <= |outcomes|
    ensures Only(SettledPrefix(outcomes, n, total, hasHandler), kind)
         == Only(SettledPrefix(outcomes, n - 1, total, hasHandler), kind)
          + (if kind == Report then ReportProgress(hasHandler, n, total) else [])
          + (if kind == Log then LogRejection(outcomes[n - 1]) else [])
  {
    var before := SettledPrefix(outcomes, n - 1, total, hasHandler);
    var step := ReportProgress(hasHandler, n, total) + LogRejection(outcomes[n - 1]);
    assert SettledPrefix(outcomes, n, total, hasHandler) == before + step;
    var report := ReportProgress(hasHandler, n, total);
    var log := LogRejection(outcomes[n - 1]);
    assert before + step == (before + report) + log;
    OnlyConcat(before + report, log, kind);
    OnlyConcat(before, report, kind);
    OnlyReport(hasHandler, n, total, kind);
    OnlyLog(outcomes[n - 1], kind);
  }

  /** Whatever the outcomes, the handler hears 1..n of `total` in increasing
      order: a rejection counts like a fulfilment and stops nothing. */
  lemma {:induction false} SettledPrefixReports(outcomes: seq<Outcome>, n: nat, total: nat, hasHandler: bool)
    requires n <= |outcomes|
    ensures Only(SettledPrefix(outcomes, n, total, hasHandler), Report)
         == if hasHandler then ProgressSeries(n, total) else []
  {
    if n > 0 {
      SettledPrefixReports(outcomes, n - 1, total, hasHandler);
      SettledReportStep(outcomes, n, total, hasHandler);
    } else {
      assert SettledPrefix(outcomes, n, total, hasHandler) == [];
    }
  }

  lemma SettledReportStep(outcomes: seq<Outcome>, n: nat, total: nat, hasHandler: bool)
    requires 0 < n <= |outcomes|
    requires Only(SettledPrefix(outcomes, n - 1, total, hasHandler), Report)
          == if hasHandler then ProgressSeries(n - 1, total) else []
    ensures Only(SettledPrefix(outcomes, n, total, hasHandler), Report)
         == if hasHandler then ProgressSeries(n, total) else []
  {
    var prev := Only(SettledPrefix(outcomes, n - 1, total, hasHandler), Report);
    SettledPrefixSnoc(outcomes, n, total, hasHandler, Report);
    assert prev + ReportProgress(hasHandler, n, total) + [] == prev + ReportProgress(hasHandler, n, total);
  }

  /** The debug log receives the message of every rejected outcome, in the
      order they settle, and nothing else. */
  lemma {:induction false} SettledPrefixLogs(outcomes: seq<Outcome>, n: nat, total: nat, hasHandler: bool)
    requires n <= |outcomes|
    ensures Only(SettledPrefix(outcomes, n, total, hasHandler), Log) == RejectionLog(outcomes, n)
  {
    if n > 0 {
      SettledPrefixLogs(outcomes, n - 1, total, hasHandler);
      SettledLogStep(outcomes, n, total, hasHandler);
    } else {
      assert SettledPrefix(outcomes, n, total, hasHandler) == [];
    }
  }

  lemma SettledLogStep(outcomes: seq<Outcome>, n: nat, total: nat, hasHandler: bool)
    requires 0 < n <= |outcomes|
    requires Only(SettledPrefix(outcomes, n - 1, total, hasHandler), Log) == RejectionLog(outcomes, n - 1)
    ensures Only(SettledPrefix(outcomes, n, total, hasHandler), Log) == RejectionLog(outcomes, n)
  {
    SettledPrefixSnoc(outcomes, n, total, hasHandler, Log);
    var prev := Only(SettledPrefix(outcomes, n - 1, total, hasHandler), Log);
    assert prev + [] == prev;
  }

  /** The callbacks make no call other than progress reports and log entries. */
  lemma {:induction false} SettledPrefixOther(outcomes: seq<Outcome>, n: nat, total: nat, hasHandler: bool, kind: Kind)
    requires n <= |outcomes|
    requires kind != Report && kind != Log
    ensures Only(SettledPrefix(outcomes, n, total, hasHandler), kind) == []
  {
    if n > 0 {
      SettledPrefixOther(outcomes, n - 1, total, hasHandler, kind);
      SettledOtherStep(outcomes, n, total, hasHandler, kind);
    } else {
      assert SettledPrefix(outcomes, n, total, hasHandler) == [];
    }
  }

  lemma SettledOtherStep(outcomes: seq<Outcome>, n: nat, total: nat, hasHandler: bool, kind: Kind)
    requires 0 < n <= |outcomes|
    requires kind != Report && kind != Log
    requires Only(SettledPrefix(outcomes, n - 1, total, hasHandler), kind) == []
    ensures Only(SettledPrefix(outcomes, n, total, hasHandler), kind) == []
  {
    SettledPrefixSnoc(outcomes, n, total, hasHandler, kind);
    var prev := Only(SettledPrefix(outcomes, n - 1, total, hasHandler), kind);
    assert prev + [] + [] == prev;
  }

  /** The console calls seen through one kind: the pool hand-off, then the callbacks. */
  lemma ConsoleOnly(siteUris: seq<SiteUri>, token: string, hasHandler: bool, outcomes: seq<Outcome>, kind: Kind)
    ensures Only(ConsoleCalls(siteUris, token, hasHandler, outcomes), kind)
         == (if kind == Pool then [SendPool(GetRequests(siteUris, token))] else [])
          + Only(SettledPrefix(outcomes, |outcomes|, |siteUris|, hasHandler), kind)
  {
    var head := SendPool(GetRequests(siteUris, token));
    OnlyOne(head, kind);
    OnlyConcat([head], SettledPrefix(outcomes, |outcomes|, |siteUris|, hasHandler), kind);
  }

  /** Each of the N requests settles once, so whatever the order and however
      many are rejected, the handler hears 1..N of N, in that order. */
  lemma ConsoleReports(siteUris: seq<SiteUri>, token: string, hasHandler: bool, outcomes: seq<Outcome>)
    requires |outcomes| == |siteUris|
    ensures Only(ConsoleCalls(siteUris, token, hasHandler, outcomes), Report)
         == if hasHandler then ProgressSeries(|siteUris|, |siteUris|) else []
  {
    ConsoleOnly(siteUris, token, hasHandler, outcomes, Report);
    SettledPrefixReports(outcomes, |outcomes|, |siteUris|, hasHandler);
    assert [] + Only(SettledPrefix(outcomes, |outcomes|, |siteUris|, hasHandler), Report)
        == Only(SettledPrefix(outcomes, |outcomes|, |siteUris|, hasHandler), Report);
  }

  /** Every rejection's message is logged, in settlement order, and nothing else is. */
  lemma ConsoleLogs(siteUris: seq<SiteUri>, token: string, hasHandler: bool, outcomes: seq<Outcome>)
    ensures Only(ConsoleCalls(siteUris, token, hasHandler, outcomes), Log) == RejectionLog(outcomes, |outcomes|)
  {
    ConsoleOnly(siteUris, token, hasHandler, outcomes, Log);
    SettledPrefixLogs(outcomes, |outcomes|, |siteUris|, hasHandler);
    assert [] + Only(SettledPrefix(outcomes, |outcomes|, |siteUris|, hasHandler), Log)
        == Only(SettledPrefix(outcomes, |outcomes|, |siteUris|, hasHandler), Log);
  }

  /** The console path hands the requests to the pool once, and neither queues a
      job nor calls a hook. */
  lemma ConsoleCallsOther(siteUris: seq<SiteUri>, token: string, hasHandler: bool, outcomes: seq<Outcome>, kind: Kind)
    requires kind != Report && kind != Log
    ensures Only(ConsoleCalls(siteUris, token, hasHandler, outcomes), kind)
         == if kind == Pool then [SendPool(GetRequests(siteUris, token))] else []
  {
    ConsoleOnly(siteUris, token, hasHandler, outcomes, kind);
    SettledPrefixOther(outcomes, |outcomes|, |siteUris|, hasHandler, kind);
  }

  // ---------------------------------------------------------------------------
  // warmUris
  // ---------------------------------------------------------------------------

  /** What warmUris does once beforeWarmCache lets it proceed: warm through the
      pool on a console request, queue a job otherwise. */
  function Dispatch(siteUris: seq<SiteUri>, delay: Option<int>, hasHandler: bool, isConsole: bool, token: string, outcomes: seq<Outcome>): seq<Call>
  {
    if isConsole then ConsoleCalls(siteUris, token, hasHandler, outcomes)
    else [AddWarmerJob(siteUris, JobHandler, delay)]
  }

  /** The calls of warmUris. `proceed` is what beforeWarmCache answers and
      `isConsole` whether the current request is a console request; `token` and
      `outcomes` are the created token and the settlement order of the pool. */
  function WarmUrisCalls(siteUris: seq<SiteUri>, delay: Option<int>, hasHandler: bool, proceed: bool, isConsole: bool, token: string, outcomes: seq<Outcome>): seq<Call>
  {
    [BeforeWarmCache(siteUris)]
      + if !proceed then []
        else Dispatch(siteUris, delay, hasHandler, isConsole, token, outcomes) + [AfterWarmCache(siteUris)]
  }

  /** warmUris: ask beforeWarmCache, then warm through the console pool or queue a
      job, then call afterWarmCache. */
  method WarmUris(siteUris: seq<SiteUri>, delay: Option<int>, hasHandler: bool, proceed: bool, isConsole: bool, token: string, outcomes: seq<Outcome>)
    returns (calls: seq<Call>)
    ensures calls == WarmUrisCalls(siteUris, delay, hasHandler, proceed, isConsole, token, outcomes)
  {
    calls := [BeforeWarmCache(siteUris)];
    if !proceed {
      return;
    }
    if isConsole {
      var warmed := WarmUrisWithProgressForConsoleRequest(siteUris, token, hasHandler, outcomes);
      calls := calls + warmed;
    } else {
      calls := calls + [AddWarmerJob(siteUris, JobHandler, delay)];
    }
    calls := calls + [AfterWarmCache(siteUris)];
  }

  /** beforeWarmCache is asked first; a veto stops everything, and otherwise
      afterWarmCache is called last. */
  lemma WarmUrisOrder(siteUris: seq<SiteUri>, delay: Option<int>, hasHandler: bool, proceed: bool, isConsole: bool, token: string, outcomes: seq<Outcome>)
    ensures var calls := WarmUrisCalls(siteUris, delay, hasHandler, proceed, isConsole, token, outcomes);
      calls[0] == BeforeWarmCache(siteUris)
      && (!proceed ==> calls == [BeforeWarmCache(siteUris)])
      && (proceed ==> calls[|calls| - 1] == AfterWarmCache(siteUris))
  {
  }

  /** Dispatch seen through a kind other than progress and logging: the pool
      hand-off on a console request, the queued job otherwise. */
  lemma DispatchOther(siteUris: seq<SiteUri>, delay: Option<int>, hasHandler: bool, isConsole: bool, token: string, outcomes: seq<Outcome>, kind: Kind)
    requires kind != Report && kind != Log
    ensures Only(Dispatch(siteUris, delay, hasHandler, isConsole, token, outcomes), kind)
         == if isConsole then (if kind == Pool then [SendPool(GetRequests(siteUris, token))] else [])
            else (if kind == Enqueue then [AddWarmerJob(siteUris, JobHandler, delay)] else [])
  {
    if isConsole {
      ConsoleCallsOther(siteUris, token, hasHandler, outcomes, kind);
    } else {
      OnlyOne(AddWarmerJob(siteUris, JobHandler, delay), kind);
    }
  }

  /** The warmUris calls seen through one kind. */
  lemma WarmUrisOnly(siteUris: seq<SiteUri>, delay: Option<int>, hasHandler: bool, proceed: bool, isConsole: bool, token: string, outcomes: seq<Outcome>, kind: Kind)
    ensures Only(WarmUrisCalls(siteUris, delay, hasHandler, proceed, isConsole, token, outcomes), kind)
         == (if kind == BeforeHook then [BeforeWarmCache(siteUris)] else [])
          + (if proceed then Only(Dispatch(siteUris, delay, hasHandler, isConsole, token, outcomes), kind) else [])
          + (if proceed && kind == AfterHook then [AfterWarmCache(siteUris)] else [])
  {
    var before := BeforeWarmCache(siteUris);
    OnlyOne(before, kind);
    if proceed {
      var middle := Dispatch(siteUris, delay, hasHandler, isConsole, token, outcomes);
      var after := AfterWarmCache(siteUris);
      OnlyConcat([before], middle + [after], kind);
      OnlySnoc(middle, after, kind);
    } else {
      assert [before] + [] == [before];
    }
  }

  /** Unless vetoed, afterWarmCache is called exactly once. */
  lemma WarmUrisAfterOnce(siteUris: seq<SiteUri>, delay: Option<int>, hasHandler: bool, proceed: bool, isConsole: bool, token: string, outcomes: seq<Outcome>)
    ensures Only(WarmUrisCalls(siteUris, delay, hasHandler, proceed, isConsole, token, outcomes), AfterHook)
         == if proceed then [AfterWarmCache(siteUris)] else []
  {
    WarmUrisOnly(siteUris, delay, hasHandler, proceed, isConsole, token, outcomes, AfterHook);
    DispatchOther(siteUris, delay, hasHandler, isConsole, token, outcomes, AfterHook);
  }

  /** Unless vetoed, a request that is not a console request queues exactly one
      job, for all the site URIs, with the caller's delay; a console request
      queues none. */
  lemma WarmUrisQueuesJob(siteUris: seq<SiteUri>, delay: Option<int>, hasHandler: bool, proceed: bool, isConsole: bool, token: string, outcomes: seq<Outcome>)
    ensures Only(WarmUrisCalls(siteUris, delay, hasHandler, proceed, isConsole, token, outcomes), Enqueue)
         == if proceed && !isConsole then [AddWarmerJob(siteUris, JobHandler, delay)] else []
  {
    WarmUrisOnly(siteUris, delay, hasHandler, proceed, isConsole, token, outcomes, Enqueue);
    DispatchOther(siteUris, delay, hasHandler, isConsole, token, outcomes, Enqueue);
  }

  /** Unless vetoed, a console request sends the requests to the pool exactly
      once; any other request sends none. */
  lemma WarmUrisSendsPool(siteUris: seq<SiteUri>, delay: Option<int>, hasHandler: bool, proceed: bool, isConsole: bool, token: string, outcomes: seq<Outcome>)
    ensures Only(WarmUrisCalls(siteUris, delay, hasHandler, proceed, isConsole, token, outcomes), Pool)
         == if proceed && isConsole then [SendPool(GetRequests(siteUris, token))] else []
  {
    WarmUrisOnly(siteUris, delay, hasHandler, proceed, isConsole, token, outcomes, Pool);
    DispatchOther(siteUris, delay, hasHandler, isConsole, token, outcomes, Pool);
  }
}
