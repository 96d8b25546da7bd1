# argo-cd-sync: a Dafny model of the sync step's decisions

`argocd_sync.py` is a CI pipeline step that asks a Codefresh GraphQL API to sync
an Argo CD application. It resolves the runtime's ingress host, cancels any
operation in progress on the application, sends the sync request, and exports a
link to the application's timeline in the Applications dashboard as a pipeline
variable. Almost all of it is network plumbing. This model covers the part that can
be stated on its own: how the configuration is read from the environment, the
termination policy, the order of the steps, the shape of the sync request, and the
strings the script builds and exports. It is small because the script is small.

Each network call, and each append to an export file, is an input: the response
or success, or the message of the exception it raises (`ArgoCdSync.Responses`).
A run is a trace of effects (`ArgoCdSync.Effect`): `QueryRuntime`, `Terminate`,
`Wait(30)`, `Sync(request)`, `AppendLine(file, line)` for each append that took
place, `Log` for each `print`, and a final `Abort(message)` when an exception ends
the process.

Files:
- `basics.dfy`: `Option` and `Result`.
- `pystr.dfy`: `str.lower` and `str.find`, which the script calls, and splitting at
  the first separator and removing a suffix, which the model uses to read the
  script's strings back in its round-trip lemmas; each with its contract.
- `settings.dfy`: the configuration read at start-up (lines 7-19).
- `requests.dfy`: the endpoints, the sync request variables, the dashboard link, the
  output variable name and the export line, each with the reading side that takes it
  apart again.
- `argocd_sync.dfy`: `terminate_current_app_operation`, `execute_argocd_sync`,
  `get_link_to_apps_dashboard`, `export_variable` and `main` (`Run`), as methods that
  return their effect trace. Each method is proved to produce an effect function
  (`TerminateEffects`, `SyncEffects`, `LinkResult`, `ExportEffects`, `RunEffects`).
- `run_properties.dfy`: what a whole run guarantees, proved about `RunEffects`.

The termination policy follows the code, which tests
`str(e).find("Reason: Bad Request") > 0` (argocd_sync.py:105): a message that
begins with the marker gives 0 and is swallowed like any other failure.
`ArgoCdSync.TerminationPolicy` states this as "contains the marker and does not
start with it". `MarkerAtStartIsSwallowed` and `MarkerAfterStartIsFatal` show both
sides.

## Model

| member | source | states |
|---|---|---|
| PyStr.Lower | argocd_sync.py:9-13 | `.lower()` keeps the length, maps each character by its lower-case form, and leaves no ASCII capital |
| PyStr.Find | argocd_sync.py:105 | `str.find`: -1 exactly when the substring does not occur; otherwise the first index where it occurs |
| PyStr.FindPositive | argocd_sync.py:105 | `find(...) > 0` holds exactly when the substring occurs and the string does not start with it |
| Settings.BoolFlagIff | argocd_sync.py:9-10 | a boolean option (`Settings.BoolFlag`) is on exactly when its variable is set and spells "true" in any case; unset means off |
| Settings.StringFlagValue | argocd_sync.py:11-13 | a string option (`Settings.StringFlag`) is the lower-cased variable or its default when unset, and is already in lower case |
| Settings.ConfigBoolFlags | argocd_sync.py:9-10 | in `Settings.ParseConfig`, `SYNC_OPT_PRUNE` and `SYNC_OPT_FORCE` are true exactly when their variables spell "true", ignoring case |
| Settings.ConfigStringFlags | argocd_sync.py:11-13 | in `Settings.ParseConfig`, the three string options are lower-cased, default to "false", "false" and "true", and are fixed by a second lower-casing |
| Settings.DefaultConfig | argocd_sync.py:7-19 | `Settings.ParseConfig` with no variable set: no runtime or application, both flags off, "false"/"false"/"true", `CF_URL` "https://g.codefresh.io", step name "STEP_NAME" |
| Requests.ControlPlaneEndpointBase | argocd_sync.py:46 | the control-plane endpoint (`Requests.ControlPlaneEndpoint`) is `CF_URL` plus "/2.0/api/graphql"; removing the path gives the base URL back |
| Requests.RuntimeApiEndpointBase | argocd_sync.py:80 | the runtime endpoint (`Requests.RuntimeApiEndpoint`, also built at line 119) is the ingress host plus "/app-proxy/api/graphql"; removing the path gives the host back |
| Requests.SyncRequestFixedFields | argocd_sync.py:128-149 | every sync request (`Requests.SyncRequest`) has `dryRun` false, `resources` null, the application as both names, and `prune`/`force` from the flags |
| Requests.SyncOptionItemsDecode | argocd_sync.py:139-146 | the four sync option items of `Requests.SyncRequest` read back, split at the first '=', as PruneLast, ApplyOutOfSyncOnly, ServerSideApply and PrunePropagationPolicy in that order, with the configured values and "foreground" |
| Requests.DefaultSyncRequest | argocd_sync.py:128-149 | `Requests.SyncRequest` of the default configuration has the items PruneLast=false, ApplyOutOfSyncOnly=false, ServerSideApply=true, PrunePropagationPolicy=foreground, and prune and force off |
| Requests.DashboardLinkRoundTrip | argocd_sync.py:70-71 | the dashboard link (`Requests.DashboardLink`) `CF_URL/2.0/applications-dashboard/ns/runtime/app/timeline` reads back as its namespace, runtime and application when none holds a '/' |
| Requests.OutputVarNameStep | argocd_sync.py:30 | the output variable (`Requests.OutputVarName`) is the step name plus "_CF_OUTPUT_URL"; distinct steps give distinct names; without `CF_STEP_NAME` it is "STEP_NAME_CF_OUTPUT_URL" |
| Requests.ExportLineRoundTrip | argocd_sync.py:161 | the export line (`Requests.ExportLine`) `name=value` plus a newline reads back as the pair when the name has no '=' and neither part a newline |
| Requests.ExportLineNotEscaped | argocd_sync.py:160-164 | `Requests.ExportLine` escapes nothing: a newline in the value breaks the line, and an '=' in the name moves the split |
| ArgoCdSync.MarkerAtStartIsSwallowed | argocd_sync.py:105 | under `ArgoCdSync.TerminationPolicy`, a message that starts with "Reason: Bad Request" contains the marker but is swallowed |
| ArgoCdSync.MarkerAfterStartIsFatal | argocd_sync.py:105-108 | under `ArgoCdSync.TerminationPolicy`, a message with the marker after a first character other than 'R' is fatal |
| ArgoCdSync.NoMarkerIsSwallowed | argocd_sync.py:109-112 | under `ArgoCdSync.TerminationPolicy`, a failure whose message lacks the marker is treated as "nothing to terminate" |
| ArgoCdSync.TerminateWaitsIffSucceeded | argocd_sync.py:97-115 | the terminate step's effects (`ArgoCdSync.TerminateEffects`) end with the 30-second wait exactly when the call succeeded; it raises exactly when `find(...) > 0`; its call goes to the runtime's proxy for the application |
| ArgoCdSync.TerminateCurrentAppOperation | argocd_sync.py:97-115 | the method with the `needsToTerminate` flag produces `ArgoCdSync.TerminateEffects` and raises exactly when `ArgoCdSync.TerminationPolicy` says the failure is fatal |
| ArgoCdSync.ExecuteArgocdSync | argocd_sync.py:118-152 | produces `ArgoCdSync.SyncEffects`: sends `Requests.SyncRequest` to the runtime's proxy and raises exactly when the call fails, with its message |
| ArgoCdSync.GetLinkToAppsDashboard | argocd_sync.py:67-72 | produces `ArgoCdSync.LinkResult`: queries the runtime again; gives `Requests.DashboardLink` exactly when the query succeeds and RUNTIME and APPLICATION are set |
| ArgoCdSync.ExportWritesOnlyInBuild | argocd_sync.py:155-166 | `ArgoCdSync.ExportEffects`: without `CF_BUILD_ID` nothing is written and the log follows; with it the line goes to `CF_VOLUME_PATH/env_vars_to_export` ("None" when unset) and then to `/meta/env_vars_to_export`; the first append that fails raises its error and stops, so nothing after it is written or logged; it returns exactly when both appends succeed |
| ArgoCdSync.ExportVariable | argocd_sync.py:155-166 | the method produces `ArgoCdSync.ExportEffects`: the appends that took place and the exception raised, if any |
| ArgoCdSync.RunSucceedsIff | argocd_sync.py:25-32 | a run (`ArgoCdSync.RunResult`) succeeds exactly when the runtime query, the sync and the second runtime query succeed, RUNTIME and APPLICATION are set, no terminate failure is fatal, and inside a build both export appends succeed |
| ArgoCdSync.Run | argocd_sync.py:25-32 | `main` produces exactly `ArgoCdSync.RunEffects`, step by step, including an abort after a failed export append |
| RunProperties.RunStartsWithRuntimeQuery | argocd_sync.py:44-57 | a run (`ArgoCdSync.RunEffects`) starts by querying the control plane for the configured runtime, and every runtime query is that one |
| RunProperties.RunAbortsIffFails | argocd_sync.py:25-32 | `ArgoCdSync.RunEffects` ends with an abort exactly when `ArgoCdSync.RunResult` is a failure, with the failing step's message; nothing before the last effect aborts; a successful run ends with the export log |
| RunProperties.AbortOnlyAtEnd | argocd_sync.py:25-32 | no effect of `ArgoCdSync.RunEffects` before the last one is an abort: an exception ends the run where it is raised, and nothing follows it |
| RunProperties.FatalTerminateStopsRun | argocd_sync.py:103-108 | a fatal terminate failure ends `ArgoCdSync.RunEffects` after the terminate call and its log: no sync, no second runtime query, no export |
| RunProperties.SyncOnlyAfterTerminateReturns | argocd_sync.py:26-28 | `ArgoCdSync.RunEffects` holds a sync exactly when the runtime was resolved and the terminate step returned normally, to that runtime's proxy with `Requests.SyncRequest` |
| RunProperties.WaitPrecedesSync | argocd_sync.py:98-115 | in `ArgoCdSync.RunEffects` the 30-second wait happens exactly when the terminate call succeeded, and then before the sync; a swallowed failure reaches the sync without waiting |
| RunProperties.ExportOnlyAfterSuccessInBuild | argocd_sync.py:29-32 | in `ArgoCdSync.RunEffects` an export file is written exactly when the run reaches the export (`ArgoCdSync.LinkReached`) inside a build and the per-build append succeeds; a successful run inside a build has written both files; every line written is `Requests.ExportLine` of `<step>_CF_OUTPUT_URL` and the link |
| RunProperties.ExportedLinkIsDashboardLink | argocd_sync.py:67-72 | the value a successful `ArgoCdSync.RunResult` exports is `Requests.DashboardLink` of the second query's namespace, and reads back as its parts |

## Left out

- The GraphQL client and HTTP transport (`gql.Client`, `RequestsHTTPTransport`, three retries, TLS verification): each call is an input, its response or its exception's message.
- Loading the query documents from `queries/*.graphql` (lines 37-41): file input of opaque content.
- The time actually slept, the bytes actually appended and the text of each `print`: they are the effects `Wait(30)`, `AppendLine` and `Log`.
- The GraphQL responses beyond `runtime.ingressHost` and `runtime.metadata.namespace`; a response that lacks them is modelled as a failure of that call.
- A null `ingressHost` is also modelled as a failure of the first runtime query, so the model's run aborts at once. In the script that query succeeds and returns None. Then `None + '/app-proxy/api/graphql'` (line 80) raises a TypeError, which the broad `except Exception` at line 103 catches. Its message does not contain the marker, so it is swallowed: the "no current operation" message is logged and there is no wait. The same TypeError at line 119 is not caught, so the run aborts there without any sync request.
- The terminate call's failure input stands for any exception `terminate_query` raises, including local ones raised before the request is sent (a missing query file, the TypeError above). The broad `except` swallows these unless the marker's first occurrence in the message is not at its start (`find` gives an index above 0). The model's trace still shows the `Log` and `Terminate` effects before such a failure. The same holds for the other calls: a failure of `get_query` in `get_runtime` (line 52) or in `execute_argocd_sync` (line 127) is modelled as a failure of that call, after its `QueryRuntime` effect, or after the `Log` and `Sync` effects.
- The export appends are inputs that succeed or fail as a whole: opening the file and writing the line are one step, and a write that fails after a successful `open` is not told apart from a failed `open`.
- `CF_API_KEY` is carried as the `authorization` value of each call; what the server does with it is not modelled.
- The process exit status: a run that aborts exits non-zero, one that does not exits normally.
- PyStr.Lower: folds only the ASCII capitals; Python's `str.lower` also lower-cases other Unicode letters, which can change the length of a string.
