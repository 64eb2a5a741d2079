# Blitz cache warming and integration filter — a Dafny model

This project models two sequential pieces of the Blitz static-cache plugin for Craft CMS.

**The local cache warmer** (`LocalWarmer`):
- `warmUris` asks the `beforeWarmCache` hook first. On a veto it stops. Otherwise it either warms synchronously (a console request) or queues a job that will call `warmUrisWithProgress`, and then calls `afterWarmCache`.
- `warmUrisWithProgress` counts the pages, reports "count of total" to an optional progress handler, and warms each page.
- The console path builds one GET request per page (`_getRequests`) and hands them to a pool. Its fulfilled and rejected callbacks share one counter. A rejected callback also writes the exception's message to the debug log.
- `warmUri` simulates a web request for one page. It trims the URL path and installs `REQUEST_URI`, `QUERY_STRING`, `$_GET['p']`, the host, HTTPS and the host info.

**The integration filter** (`IntegrationHelper::getActiveIntegrations`):
- It keeps, in order, the registered integrations whose required plugins are loaded by the plugins service, up to and including the first one loaded below its required version (all of them when none is).
- A required plugin that is loaded below its required version only ends the check. The assignment that would disable the integration is commented out in the source (`IntegrationHelper.php:76`), so such an integration stays active. The comment on line 59 promises more than the code does. The model follows the code.

How the model is built:
- **Effects as a trace.** The collaborators' effects are recorded as a returned trace of `Call`s: the hooks, the job enqueue, the pool hand-off, the progress report, `warmUri` and the debug log.
- **Methods.** Each method keeps the source's loop and counter. Its contract proves it equal to a specification function defined on prefixes of its input.
- **Lemmas.** The properties are stated as lemmas about what the trace shows of one kind of call (`Only`).
- **The progress label.** A progress report `SetProgress(count, total)` stands for the handler call with label `Progress.ProgressLabel(count, total)`, the English text "Warming {count} of {total} pages.". The `Progress` module shows that this label determines the count and the total.
- **The simulated request.** `RequestSimulation.ContextFor(url)` stands for the request `warmUri` simulates: one record instead of the writes to `$_SERVER` and `$_GET`. The link between a recorded `WarmUri(siteUri)` call and `ContextFor` is a convention of this description only; `LocalWarmer` does not refer to `RequestSimulation`, and the site URI's URL is not modelled.
- **Integration inputs.** `loaded` maps the handle of every plugin the plugins service returns (installed and enabled) to its version; `getPlugin` returns null exactly for the handles outside it. `below` stands for `version_compare(a, b, '<')` and `zero` for the literal `0`.

Modules:
- `local_warmer.dfy` (`LocalWarmer`): the warmer's orchestration, loops, callbacks and requests.
- `progress.dfy` (`Progress`): decimal numerals and the progress label.
- `request_simulation.dfy` (`RequestSimulation`): path trimming and the simulated request.
- `integration_helper.dfy` (`IntegrationHelper`): the integration filter.

## Model

| member | source | states |
|---|---|---|
| LocalWarmer.WarmUris | src/drivers/warmers/LocalWarmer.php:45-59 | the orchestration yields exactly the trace `WarmUrisCalls`: beforeWarmCache, then (unless vetoed) the console warming or one queued job, then afterWarmCache |
| LocalWarmer.WarmUrisOrder | src/drivers/warmers/LocalWarmer.php:47-58 | beforeWarmCache comes first; a veto leaves it the only call; otherwise afterWarmCache comes last |
| LocalWarmer.WarmUrisOnly | src/drivers/warmers/LocalWarmer.php:45-59 | each kind of call in warmUris is the before hook, the dispatch's calls of that kind only when not vetoed, and the after hook only when not vetoed |
| LocalWarmer.DispatchOther | src/drivers/warmers/LocalWarmer.php:51-56 | the dispatch either hands the requests to the pool once (console) or queues one job for all the site URIs with handler `warmUrisWithProgress` and the caller's delay, never both |
| LocalWarmer.WarmUrisAfterOnce | src/drivers/warmers/LocalWarmer.php:47-58 | afterWarmCache is called exactly once unless vetoed, and never after a veto |
| LocalWarmer.WarmUrisQueuesJob | src/drivers/warmers/LocalWarmer.php:51-56 | exactly one job with handler `warmUrisWithProgress`, all the site URIs and the delay unchanged is queued iff not vetoed and not a console request |
| LocalWarmer.WarmUrisSendsPool | src/drivers/warmers/LocalWarmer.php:51-53 | the requests for all the site URIs go to the pool exactly once iff not vetoed and a console request |
| LocalWarmer.WarmUrisWithProgress | src/drivers/warmers/LocalWarmer.php:67-88 | the counting loop yields exactly the trace `WarmedPrefix` over all the site URIs |
| LocalWarmer.WarmedPrefixShape | src/drivers/warmers/LocalWarmer.php:73-87 | with a handler, call 2k reports count k+1 of N and call 2k+1 warms the k-th URI; without one, call k warms the k-th URI; each URI is warmed once, in input order, and an empty list makes no calls |
| LocalWarmer.WarmedPrefixReports | src/drivers/warmers/LocalWarmer.php:69-79 | the progress reports are 1..n of N in increasing order with a handler, and there are none without one |
| LocalWarmer.ProgressSeriesAt | src/drivers/warmers/LocalWarmer.php:74-78 | a series of n reports has n entries, and its k-th counts k+1 of the total |
| LocalWarmer.OnFulfilled | src/drivers/warmers/LocalWarmer.php:114-121 | the fulfilled callback increments the counter by one and reports the new count, if there is a handler |
| LocalWarmer.OnRejected | src/drivers/warmers/LocalWarmer.php:122-131 | the rejected callback increments the counter by one, reports the new count if there is a handler, then logs the rejection's message |
| LocalWarmer.RunCallbacks | src/drivers/warmers/LocalWarmer.php:113-135 | running the callbacks over the outcomes in settlement order, with one shared counter, yields exactly `SettledPrefix` over all the outcomes |
| LocalWarmer.WarmUrisWithProgressForConsoleRequest | src/drivers/warmers/LocalWarmer.php:96-136 | the console warming is the pool hand-off of `_getRequests` followed by the callbacks' calls |
| LocalWarmer.SettledPrefixReports | src/drivers/warmers/LocalWarmer.php:114-128 | whatever mix of fulfilled and rejected outcomes, the reports for n settled outcomes are 1..n in order, or none without a handler |
| LocalWarmer.SettledPrefixLogs | src/drivers/warmers/LocalWarmer.php:122-131 | the debug log holds exactly the messages of the rejected outcomes, in settlement order |
| LocalWarmer.SettledPrefixOther | src/drivers/warmers/LocalWarmer.php:114-131 | the callbacks make no call besides progress reports and debug log entries |
| LocalWarmer.ConsoleOnly | src/drivers/warmers/LocalWarmer.php:113-135 | each kind of call in the console warming is the pool hand-off (pool kind only) followed by the callbacks' calls of that kind |
| LocalWarmer.ConsoleReports | src/drivers/warmers/LocalWarmer.php:106-131 | when each of the N requests settles once, in any order and with any number of rejections, the handler hears exactly 1..N of N, in order |
| LocalWarmer.ConsoleLogs | src/drivers/warmers/LocalWarmer.php:122-131 | the console warming logs every rejection's message, in settlement order, and nothing else |
| LocalWarmer.ConsoleCallsOther | src/drivers/warmers/LocalWarmer.php:113-135 | the console warming hands the requests to the pool once, and neither queues a job nor calls a hook |
| LocalWarmer.GetRequests | src/drivers/warmers/LocalWarmer.php:210-221 | one request per site URI, the i-th built from the i-th site URI and the shared token |
| LocalWarmer.RequestsRoundTrip | src/drivers/warmers/LocalWarmer.php:213-220 | every request is a GET of the warm-site-uri action with the one token, and reading each request's siteId and uri back gives the input site URIs, in order |
| Progress.NatToString | src/drivers/warmers/LocalWarmer.php:77 | the decimal numeral of a count is non-empty, all digits, and has no leading zero |
| Progress.ParseNatToString | src/drivers/warmers/LocalWarmer.php:77 | reading the numeral of n back gives n |
| Progress.ProgressLabel | src/drivers/warmers/LocalWarmer.php:71-78 | the label starts with "Warming ", the numeral right after it reads back as the count, and it ends with " pages." |
| Progress.ReadProgressLabel | src/drivers/warmers/LocalWarmer.php:71-78 | the count and the total can be read back from "Warming {count} of {total} pages." |
| Progress.ProgressLabelInjective | src/drivers/warmers/LocalWarmer.php:71-78 | different (count, total) pairs give different labels |
| RequestSimulation.TrimSlashes | src/drivers/warmers/LocalWarmer.php:149 | the trimmed path neither starts nor ends with '/' |
| RequestSimulation.TrimSlashesSplit | src/drivers/warmers/LocalWarmer.php:149 | the path is some slashes, then the trimmed path, then some slashes |
| RequestSimulation.TrimSlashesPadded | src/drivers/warmers/LocalWarmer.php:149 | surrounding a trimmed path with slashes and trimming gives the path back |
| RequestSimulation.TrimSlashesIdempotent | src/drivers/warmers/LocalWarmer.php:149 | trimming twice is trimming once |
| RequestSimulation.ContextFor | src/drivers/warmers/LocalWarmer.php:149-184 | `$_GET` is exactly `{p: uri}` with uri free of leading and trailing '/'; `REQUEST_URI` is "/" + uri and `QUERY_STRING` is "p=" + uri; `HTTPS` is true iff the scheme is "https" |
| RequestSimulation.ContextPath | src/drivers/warmers/LocalWarmer.php:149-163 | the `p` of the simulated request is the URL path with its slashes trimmed, and trimming `REQUEST_URI` gives it back |
| RequestSimulation.TrailingSlashExample | src/drivers/warmers/LocalWarmer.php:149 | the page at "https://example.com/blog/post-1/" is simulated with `p` = "blog/post-1" |
| IntegrationHelper.GetActiveIntegrations | src/helpers/IntegrationHelper.php:51-87 | the nested loops with their breaks build exactly `ActiveIntegrations`, the integrations whose check leaves `$enabled` true, in registration order |
| IntegrationHelper.FirstUnderVersion | src/helpers/IntegrationHelper.php:60-79 | the position where the inner loop stops for an under-version plugin: that requirement is under-version and none before it is |
| IntegrationHelper.Enabled | src/helpers/IntegrationHelper.php:57-79 | the value of `$enabled` after the inner loop: when every required plugin is loaded, whatever its version, it stays true, so only a missing plugin can exclude |
| IntegrationHelper.EnabledIffExaminedLoaded | src/helpers/IntegrationHelper.php:56-83 | an integration is kept iff every required plugin up to and including the first under-version one (all of them if none is) is loaded |
| IntegrationHelper.MissingPluginExcludes | src/helpers/IntegrationHelper.php:68-73 | a missing plugin whose predecessors are all loaded at a sufficient version excludes the integration |
| IntegrationHelper.UnderVersionEndsCheck | src/helpers/IntegrationHelper.php:75-78 | an under-version plugin leaves the integration enabled, and whatever follows it is never examined |
| IntegrationHelper.RequirementResolution | src/helpers/IntegrationHelper.php:61-66 | a plain handle is compared against version 0, and a `{handle, version}` entry against its own version |
| IntegrationHelper.ActivePositions | src/helpers/IntegrationHelper.php:56-84 | the kept positions are within the list and strictly increasing |
| IntegrationHelper.ActiveSelection | src/helpers/IntegrationHelper.php:56-86 | the result is the subsequence of all integrations at those positions, so registration order is kept |
| IntegrationHelper.ActivePositionsMembers | src/helpers/IntegrationHelper.php:56-84 | a position is kept iff the integration there passes its plugin check |
| IntegrationHelper.NoRequirementsAlwaysActive | src/helpers/IntegrationHelper.php:57-60 | an integration that requires no plugins is always in the result |

## Left out

- The Guzzle pool's concurrency, its in-flight limit and `promise()->wait()` are not modelled. The pool's settlement is an input: the sequence of fulfilled and rejected outcomes, in the order they settle.
- LocalWarmer.ConsoleReports: it assumes that each request settles exactly once (as many outcomes as site URIs). That is the pool's promise, not the warmer's.
- `createToken` is a framework service, so the token is a parameter.
- `Craft::createGuzzleClient` is not modelled.
- `Craft::t` translation is not modelled. The label is the English text, and a report records the count and total it is built from.
- `UrlHelper::siteUrl` and `SiteUriModel::getUrl` are not modelled. A request's URL is a record of the action, site id, uri and token.
- `parse_url` is not modelled. The page URL is given already split into scheme, host and path, and a URL without a path has path "".
- `warmUri` is recorded as one call. Its framework effects are not modelled: resetting the request, response and urlManager components, the template mode, `processCacheableRequest(false)`, the request events and `handleRequest`. Its simulated request is `RequestSimulation.ContextFor`. Entries of `$_SERVER` that it does not overwrite are not modelled.
- The conversion of an array to a `SiteUriModel` is not modelled. Site URIs are always records.
- `beforeWarmCache` and `afterWarmCache` are recorded as calls. The verdict of `beforeWarmCache` is a parameter, and the events these hooks trigger are not modelled.
- `CacheWarmerHelper::addWarmerJob` and the queue are external persistence. Only the enqueue call and its arguments are recorded.
- `getAllIntegrations` is not modelled. Its settings read and `Event::trigger` make the list of all integrations an input.
- `version_compare` is not modelled. Versions are abstract and `below` stands for the comparison. Null versions from a `{handle, version}` entry missing a key are not modelled.
- LocalWarmer.WarmUrisWithProgress, LocalWarmer.WarmedPrefixShape: every collaborator call is assumed to return normally. In the source nothing is caught, so an exception from `warmUri` (for example from `handleRequest`) or from the progress handler ends the `foreach`, and the later site URIs are neither reported nor warmed.
- LocalWarmer.WarmUris, LocalWarmer.WarmUrisAfterOnce: the console warming and `addWarmerJob` are assumed to return normally. In the source an exception from either skips `afterWarmCache`, so "exactly once unless vetoed" holds only when they return.
- `LocalWarmerController` is a thin HTTP action with framework checks, so it is not modelled.
- `DeployerInterface` declares no logic, so it is not modelled.
