/**
 * The control flow of argocd_sync.py as methods that return the trace of effects
 * a run performs. Network calls are inputs (their response or the message of the
 * exception they raise); a `print` is a `Log` effect, `time.sleep(30)` is
 * `Wait(30)`, an append to a file is `AppendLine`, and an exception that ends the
 * process is a final `Abort` carrying its message.
 */
module ArgoCdSync {
  import opened Basics
  import opened PyStr
  import opened Settings
  import opened Requests

  /** The two fields of a `getRuntime` response the script reads. */
  datatype RuntimeInfo = RuntimeInfo(ingressHost: string, namespace: string)

  /** What each network call and each export-file append of one run answers. */
  datatype Responses = Responses(
    runtimeQuery: Result<RuntimeInfo>,     // get_runtime, for the ingress host
    terminateCall: Result<()>,             // the terminate mutation
    syncCall: Result<()>,                  // the argocd_sync mutation
    linkRuntimeQuery: Result<RuntimeInfo>, // get_runtime again, for the namespace in the link
    volumeAppend: Result<()>,              // opening and appending to the per-build export file
    metaAppend: Result<()>)                // opening and appending to the metadata export file

  /** A GraphQL endpoint and the `authorization` header sent with it. */
  datatype GraphqlTarget = GraphqlTarget(url: string, authorization: Option<string>)

  datatype Effect =
    | QueryRuntime(target: GraphqlTarget, runtime: Option<string>)
    | Terminate(target: GraphqlTarget, appName: Option<string>)
    | Wait(seconds: nat)
    | Sync(target: GraphqlTarget, variables: SyncVariables)
    | AppendLine(file: string, line: string)
    | Log
    | Abort(message: string)

  const TerminateWaitSeconds: nat := 30
  const BadRequestMarker := "Reason: Bad Request"
  const TerminateFailedMessage := "Error trying to terminate the current operation of the app"
  /** The TypeError Python raises when `None` (an unset RUNTIME or APPLICATION) is concatenated. */
  const NoneConcatMessage := "can only concatenate str (not \"NoneType\") to str"
  const BuildIdVar := "CF_BUILD_ID"
  const VolumePathVar := "CF_VOLUME_PATH"
  const MetaExportFile := "/meta/env_vars_to_export"

  function ControlPlaneTarget(cfg: Config): GraphqlTarget {
    GraphqlTarget(ControlPlaneEndpoint(cfg.cfUrl), cfg.apiKey)
  }

  function RuntimeApiTarget(cfg: Config, ingressHost: string): GraphqlTarget {
    GraphqlTarget(RuntimeApiEndpoint(ingressHost), cfg.apiKey)
  }

  /** The per-build export file: `str(os.getenv('CF_VOLUME_PATH'))` is "None" when unset. */
  function VolumeExportFile(env: Environment): string {
    GetEnvOr(env, VolumePathVar, "None") + "/env_vars_to_export"
  }

  /** What the script does after the terminate call. */
  datatype TerminationDecision = Reraise | WaitForTermination | NothingToTerminate

  /**
   * The termination policy: a successful call is followed by the wait; a failure is
   * fatal only when its message contains the Bad Request marker but does not start
   * with it (the script tests `find(...) > 0`); every other failure is taken to mean
   * that there was nothing to terminate.
   */
  ghost function TerminationPolicy(call: Result<()>): TerminationDecision {
    match call
    case Success(_) => WaitForTermination
    case Failure(message) =>
      if Contains(message, BadRequestMarker) && !StartsWith(message, BadRequestMarker)
      then Reraise else NothingToTerminate
  }

  /** A message that begins with the marker is swallowed, although it contains it. */
  lemma MarkerAtStartIsSwallowed(rest: string)
    ensures Contains(BadRequestMarker + rest, BadRequestMarker)
    ensures TerminationPolicy(Failure(BadRequestMarker + rest)) == NothingToTerminate
  {
    var m := BadRequestMarker + rest;
    assert m[0..|BadRequestMarker|] == BadRequestMarker;
    assert OccursAt(m, BadRequestMarker, 0);
  }

  /** A message with the marker after a first character other than 'R' is fatal. */
  lemma MarkerAfterStartIsFatal(head: string, rest: string)
    requires head != [] && head[0] != 'R'
    ensures TerminationPolicy(Failure(head + BadRequestMarker + rest)) == Reraise
  {
    var m := head + BadRequestMarker + rest;
    assert m[|head|..|head| + |BadRequestMarker|] == BadRequestMarker;
    assert OccursAt(m, BadRequestMarker, |head|);
    assert m[0] != BadRequestMarker[0];
  }

  /** A failure without the marker is swallowed. */
  lemma NoMarkerIsSwallowed(message: string)
    requires !Contains(message, BadRequestMarker)
    ensures TerminationPolicy(Failure(message)) == NothingToTerminate
  {
  }

  /** The effects of the terminate step, and the message it raises when the failure is fatal. */
  ghost function TerminateEffects(cfg: Config, ingressHost: string, call: Result<()>): (Option<string>, seq<Effect>) {
    var issued := [Log, Terminate(RuntimeApiTarget(cfg, ingressHost), cfg.application)];
    match TerminationPolicy(call)
    case WaitForTermination => (None, issued + [Log, Log, Log, Wait(TerminateWaitSeconds)])
    case NothingToTerminate => (None, issued + [Log])
    case Reraise => (Some(TerminateFailedMessage), issued + [Log])
  }

  /** The wait happens exactly when the terminate call succeeded, and is the step's last effect. */
  lemma TerminateWaitsIffSucceeded(cfg: Config, ingressHost: string, call: Result<()>)
    ensures var (raised, trace) := TerminateEffects(cfg, ingressHost, call);
      && (Wait(TerminateWaitSeconds) in trace <==> call.Success?)
      && (call.Success? ==> trace[|trace| - 1] == Wait(TerminateWaitSeconds))
      && (raised.Some? <==> call.Failure? && Find(call.message, BadRequestMarker) > 0)
      && trace[1] == Terminate(RuntimeApiTarget(cfg, ingressHost), cfg.application)
  {
    if call.Failure? {
      FindPositive(call.message, BadRequestMarker);
    }
  }

  /**
   * `terminate_current_app_operation`: issue the terminate call, then re-raise,
   * wait 30 seconds, or continue, following the flag `needsToTerminate`.
   */
  method TerminateCurrentAppOperation(cfg: Config, ingressHost: string, call: Result<()>)
    returns (raised: Option<string>, trace: seq<Effect>)
    ensures (raised, trace) == TerminateEffects(cfg, ingressHost, call)
    ensures raised.Some? <==> TerminationPolicy(call) == Reraise
  {
    var needsToTerminate := true;
    trace := [Log, Terminate(RuntimeApiTarget(cfg, ingressHost), cfg.application)];
    match call {
      case Success(_) =>
        trace := trace + [Log, Log];
      case Failure(message) =>
        FindPositive(message, BadRequestMarker);
        if Find(message, BadRequestMarker) > 0 {
          assert TerminationPolicy(call) == Reraise;
          trace := trace + [Log];
          raised := Some(TerminateFailedMessage);
          return;
        } else {
          needsToTerminate := false;
          assert TerminationPolicy(call) == NothingToTerminate;
          trace := trace + [Log];
        }
    }
    if needsToTerminate {
      trace := trace + [Log, Wait(TerminateWaitSeconds)];
      assert trace == [Log, Terminate(RuntimeApiTarget(cfg, ingressHost), cfg.application)]
                      + [Log, Log, Log, Wait(TerminateWaitSeconds)];
    }
    raised := None;
  }

  /** The effects of the sync step, and the message it raises when the call fails. */
  function SyncEffects(cfg: Config, ingressHost: string, call: Result<()>): (Option<string>, seq<Effect>) {
    var issued := [Log, Sync(RuntimeApiTarget(cfg, ingressHost), SyncRequest(cfg))];
    match call
    case Success(_) => (None, issued + [Log])
    case Failure(message) => (Some(message), issued)
  }

  /** `execute_argocd_sync`: send the sync request to the runtime's proxy; a failure propagates. */
  method ExecuteArgocdSync(cfg: Config, ingressHost: string, call: Result<()>)
    returns (raised: Option<string>, trace: seq<Effect>)
    ensures (raised, trace) == SyncEffects(cfg, ingressHost, call)
    ensures raised.Some? <==> call.Failure?
  {
    trace := [Log, Sync(RuntimeApiTarget(cfg, ingressHost), SyncRequest(cfg))];
    if call.Failure? {
      raised := Some(call.message);
      return;
    }
    trace := trace + [Log];
    raised := None;
  }

  /** The dashboard link, or the exception raised while building it. */
  function LinkResult(cfg: Config, call: Result<RuntimeInfo>): Result<string> {
    match call
    case Failure(message) => Failure(message)
    case Success(runtime) =>
      if cfg.runtime.None? || cfg.application.None? then Failure(NoneConcatMessage)
      else Success(DashboardLink(cfg.cfUrl, runtime.namespace, cfg.runtime.value, cfg.application.value))
  }

  /** `get_link_to_apps_dashboard`: query the runtime again and build the link from its namespace. */
  method GetLinkToAppsDashboard(cfg: Config, call: Result<RuntimeInfo>)
    returns (link: Result<string>, trace: seq<Effect>)
    ensures trace == [QueryRuntime(ControlPlaneTarget(cfg), cfg.runtime)]
    ensures link == LinkResult(cfg, call)
    ensures link.Success? <==> call.Success? && cfg.runtime.Some? && cfg.application.Some?
  {
    trace := [QueryRuntime(ControlPlaneTarget(cfg), cfg.runtime)];
    if call.Failure? {
      link := Failure(call.message);
    } else if cfg.runtime.None? || cfg.application.None? {
      link := Failure(NoneConcatMessage);
    } else {
      link := Success(DashboardLink(cfg.cfUrl, call.value.namespace, cfg.runtime.value, cfg.application.value));
    }
  }

  /**
   * The effects of `export_variable`, and the message of the exception it raises, if any.
   * An `AppendLine` effect records an append that took place: when `open` raises, nothing
   * is written to that file and the exception leaves the function at once.
   */
  function ExportEffects(env: Environment, name: string, value: string,
                         volumeAppend: Result<()>, metaAppend: Result<()>): (Option<string>, seq<Effect>)
  {
    var line := ExportLine(name, value);
    if BuildIdVar !in env then (None, [Log])
    else if volumeAppend.Failure? then (Some(volumeAppend.message), [])
    else if metaAppend.Failure? then (Some(metaAppend.message), [AppendLine(VolumeExportFile(env), line)])
    else (None, [AppendLine(VolumeExportFile(env), line), AppendLine(MetaExportFile, line), Log])
  }

  /**
   * Outside a build nothing is written and the log line follows. Inside one the line goes
   * to the per-build file (under "None" when CF_VOLUME_PATH is unset) and then to the
   * metadata file; the first append that fails raises its error and stops the function,
   * so the metadata file is written only after the per-build one and the log line only
   * after both.
   */
  lemma ExportWritesOnlyInBuild(env: Environment, name: string, value: string,
                                volumeAppend: Result<()>, metaAppend: Result<()>)
    ensures var (raised, trace) := ExportEffects(env, name, value, volumeAppend, metaAppend);
      var line := ExportLine(name, value);
      var volumeFile := GetEnvOr(env, VolumePathVar, "None") + "/env_vars_to_export";
      && (BuildIdVar !in env ==> raised == None && trace == [Log])
      && (BuildIdVar in env ==>
            && (raised == None <==> volumeAppend.Success? && metaAppend.Success?)
            && (volumeAppend.Failure? ==> raised == Some(volumeAppend.message) && trace == [])
            && (volumeAppend.Success? && metaAppend.Failure? ==>
                  raised == Some(metaAppend.message) && trace == [AppendLine(volumeFile, line)])
            && (volumeAppend.Success? && metaAppend.Success? ==>
                  trace == [AppendLine(volumeFile, line), AppendLine(MetaExportFile, line), Log]))
  {
  }

  /**
   * `export_variable`: inside a Codefresh build (CF_BUILD_ID set) append the line to the
   * per-build file and then to the plugin metadata file; log in every case that returns.
   */
  method ExportVariable(env: Environment, name: string, value: string,
                        volumeAppend: Result<()>, metaAppend: Result<()>)
    returns (raised: Option<string>, trace: seq<Effect>)
    ensures raised == ExportEffects(env, name, value, volumeAppend, metaAppend).0
    ensures trace == ExportEffects(env, name, value, volumeAppend, metaAppend).1
  {
    raised := None;
    trace := [];
    if BuildIdVar in env {
      var line := ExportLine(name, value);
      if volumeAppend.Failure? {
        raised := Some(volumeAppend.message);
        return;
      }
      trace := trace + [AppendLine(VolumeExportFile(env), line)];
      if metaAppend.Failure? {
        raised := Some(metaAppend.message);
        return;
      }
      trace := trace + [AppendLine(MetaExportFile, line)];
      assert trace == [AppendLine(VolumeExportFile(env), line), AppendLine(MetaExportFile, line)];
    }
    trace := trace + [Log];
  }

  /** The dashboard link `main` reaches the export with, or the message of the exception raised before it. */
  ghost function LinkReached(cfg: Config, resp: Responses): Result<string> {
    if resp.runtimeQuery.Failure? then Failure(resp.runtimeQuery.message)
    else if TerminationPolicy(resp.terminateCall) == Reraise then Failure(TerminateFailedMessage)
    else if resp.syncCall.Failure? then Failure(resp.syncCall.message)
    else LinkResult(cfg, resp.linkRuntimeQuery)
  }

  /** How a run ends: the message of the exception that stops it, or the dashboard link it exports. */
  ghost function RunResult(cfg: Config, env: Environment, resp: Responses): Result<string> {
    match LinkReached(cfg, resp)
    case Failure(message) => Failure(message)
    case Success(link) =>
      if BuildIdVar in env && resp.volumeAppend.Failure? then Failure(resp.volumeAppend.message)
      else if BuildIdVar in env && resp.metaAppend.Failure? then Failure(resp.metaAppend.message)
      else Success(link)
  }

  /**
   * A run succeeds exactly when every call but the terminate one succeeds, the terminate
   * failure (if any) is not fatal, RUNTIME and APPLICATION are both set, and, inside a
   * build, both export files can be appended to.
   */
  lemma RunSucceedsIff(env: Environment, resp: Responses)
    ensures RunResult(ParseConfig(env), env, resp).Success? <==>
      && resp.runtimeQuery.Success? && resp.syncCall.Success? && resp.linkRuntimeQuery.Success?
      && "RUNTIME" in env && "APPLICATION" in env
      && !(resp.terminateCall.Failure?
           && Contains(resp.terminateCall.message, BadRequestMarker)
           && !StartsWith(resp.terminateCall.message, BadRequestMarker))
      && ("CF_BUILD_ID" in env ==> resp.volumeAppend.Success? && resp.metaAppend.Success?)
  {
    var cfg := ParseConfig(env);
    assert cfg.runtime == GetEnv(env, "RUNTIME") && cfg.application == GetEnv(env, "APPLICATION");
  }

  /** The effects of a whole run of `main`. */
  ghost function RunEffects(cfg: Config, env: Environment, resp: Responses): seq<Effect> {
    var query := [QueryRuntime(ControlPlaneTarget(cfg), cfg.runtime)];
    match resp.runtimeQuery
    case Failure(message) => query + [Abort(message)]
    case Success(runtime) =>
      var (terminateRaised, terminated) := TerminateEffects(cfg, runtime.ingressHost, resp.terminateCall);
      if terminateRaised.Some? then query + terminated + [Abort(terminateRaised.value)]
      else
        var (syncRaised, synced) := SyncEffects(cfg, runtime.ingressHost, resp.syncCall);
        if syncRaised.Some? then query + terminated + synced + [Abort(syncRaised.value)]
        else
          var linked := [QueryRuntime(ControlPlaneTarget(cfg), cfg.runtime)];
          match LinkResult(cfg, resp.linkRuntimeQuery)
          case Failure(message) => query + terminated + synced + linked + [Abort(message)]
          case Success(link) =>
            var (exportRaised, exported) :=
              ExportEffects(env, OutputVarName(cfg.stepName), link, resp.volumeAppend, resp.metaAppend);
            if exportRaised.Some? then query + terminated + synced + linked + exported + [Abort(exportRaised.value)]
            else query + terminated + synced + linked + exported
  }

  /**
   * `main`: resolve the ingress host, terminate the current operation, sync, then build
   * the dashboard link and export it as `<step>_CF_OUTPUT_URL`.
   */
  method Run(env: Environment, resp: Responses) returns (trace: seq<Effect>)
    ensures trace == RunEffects(ParseConfig(env), env, resp)
  {
    var cfg := ParseConfig(env);
    var query := [QueryRuntime(ControlPlaneTarget(cfg), cfg.runtime)];
    if resp.runtimeQuery.Failure? {
      trace := query + [Abort(resp.runtimeQuery.message)];
      return;
    }
    var ingressHost := resp.runtimeQuery.value.ingressHost;

    var raised, terminated := TerminateCurrentAppOperation(cfg, ingressHost, resp.terminateCall);
    if raised.Some? {
      trace := query + terminated + [Abort(raised.value)];
      return;
    }

    var synced;
    raised, synced := ExecuteArgocdSync(cfg, ingressHost, resp.syncCall);
    if raised.Some? {
      trace := query + terminated + synced + [Abort(raised.value)];
      return;
    }

    var outputVar := OutputVarName(cfg.stepName);
    var link, linked := GetLinkToAppsDashboard(cfg, resp.linkRuntimeQuery);
    if link.Failure? {
      trace := query + terminated + synced + linked + [Abort(link.message)];
      return;
    }

    var exported;
    raised, exported := ExportVariable(env, outputVar, link.value, resp.volumeAppend, resp.metaAppend);
    trace := query + terminated + synced + linked + exported;
    if raised.Some? {
      trace := trace + [Abort(raised.value)];
    }
  }
}
