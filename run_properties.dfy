/**
 * What a whole run of `main` guarantees, stated on the effect trace of
 * `ArgoCdSync.RunEffects` (which `ArgoCdSync.Run` is proved to produce).
 */
module RunProperties {
  import opened Basics
  import opened PyStr
  import opened Settings
  import opened Requests
  import opened ArgoCdSync

  /** No effect of `trace` is a sync request. */
  predicate NoSync(trace: seq<Effect>) {
    forall e :: e in trace ==> !e.Sync?
  }

  /** The one sync request of a trace sits right after `before`. */
  lemma {:induction false} OnlySyncAt(before: seq<Effect>, sync: Effect, after: seq<Effect>)
    requires sync.Sync? && NoSync(before) && NoSync(after)
    ensures var t := before + [sync] + after;
      forall i :: 0 <= i < |t| && t[i].Sync? ==> i == |before| && t[..i] == before
  {
    var t := before + [sync] + after;
    forall i | 0 <= i < |t|
      ensures t[i].Sync? ==> i == |before|
    {
      if i < |before| {
        assert t[i] == before[i] && before[i] in before;
      } else if i > |before| {
        assert t[i] == after[i - |before| - 1] && after[i - |before| - 1] in after;
      }
    }
    assert t[..|before|] == before;
  }

  /** Every run starts by querying the control plane for the configured runtime, and every runtime query is that one. */
  lemma RunStartsWithRuntimeQuery(cfg: Config, env: Environment, resp: Responses)
    ensures var t := RunEffects(cfg, env, resp);
      && t != [] && t[0] == QueryRuntime(ControlPlaneTarget(cfg), cfg.runtime)
      && forall e :: e in t && e.QueryRuntime? ==> e == QueryRuntime(ControlPlaneTarget(cfg), cfg.runtime)
  {
  }

  /** The terminate step only logs, calls and waits. */
  lemma TerminateEffectsKinds(cfg: Config, ingressHost: string, call: Result<()>)
    ensures forall e :: e in TerminateEffects(cfg, ingressHost, call).1 ==> e.Log? || e.Terminate? || e.Wait?
  {
  }

  /**
   * A run ends with `Abort` exactly when it fails, carrying the failing step's message,
   * and nothing before its last effect aborts; a successful run ends with the export's
   * log line.
   */
  lemma RunAbortsIffFails(cfg: Config, env: Environment, resp: Responses)
    ensures var t := RunEffects(cfg, env, resp); var result := RunResult(cfg, env, resp);
      && t != []
      && (t[|t| - 1].Abort? <==> result.Failure?)
      && (result.Failure? ==> t[|t| - 1] == Abort(result.message))
      && (result.Success? ==> t[|t| - 1] == Log)
      && forall e :: e in t[..|t| - 1] ==> !e.Abort?
  {
    AbortOnlyAtEnd(cfg, env, resp);
  }

  /** No effect of `trace` is an abort. */
  predicate NoAbort(trace: seq<Effect>) {
    forall e :: e in trace ==> !e.Abort?
  }

  lemma NoAbortConcat(a: seq<Effect>, b: seq<Effect>)
    requires NoAbort(a) && NoAbort(b)
    ensures NoAbort(a + b)
  {
  }

  /** After the terminate step returned, every effect but the last is no abort. */
  lemma AbortOnlyAtEndAfterTerminate(cfg: Config, env: Environment, resp: Responses, prefix: seq<Effect>)
    requires resp.runtimeQuery.Success? && TerminationPolicy(resp.terminateCall) != Reraise
    requires NoAbort(prefix)
    requires prefix == [QueryRuntime(ControlPlaneTarget(cfg), cfg.runtime)]
                       + TerminateEffects(cfg, resp.runtimeQuery.value.ingressHost, resp.terminateCall).1
    ensures var t := RunEffects(cfg, env, resp); t != [] && NoAbort(t[..|t| - 1])
  {
    var t := RunEffects(cfg, env, resp);
    var query := [QueryRuntime(ControlPlaneTarget(cfg), cfg.runtime)];
    var (syncRaised, synced) := SyncEffects(cfg, resp.runtimeQuery.value.ingressHost, resp.syncCall);
    NoAbortConcat(prefix, synced);
    if syncRaised.None? {
      NoAbortConcat(prefix + synced, query);
      var before := prefix + synced + query;
      match LinkResult(cfg, resp.linkRuntimeQuery)
      case Failure(message) =>
        assert t == before + [Abort(message)];
        assert t[..|t| - 1] == before;
      case Success(link) =>
        var (exportRaised, exported) :=
          ExportEffects(env, OutputVarName(cfg.stepName), link, resp.volumeAppend, resp.metaAppend);
        if exportRaised.Some? {
          NoAbortConcat(before, exported);
          assert t == before + exported + [Abort(exportRaised.value)];
          assert t[..|t| - 1] == before + exported;
        } else {
          NoAbortConcat(before, exported[..|exported| - 1]);
          assert t == before + exported;
          assert t[..|t| - 1] == before + exported[..|exported| - 1];
        }
    } else {
      assert t == prefix + synced + [Abort(syncRaised.value)];
      assert t[..|t| - 1] == prefix + synced;
    }
  }

  /** No effect but the last one of a run is an abort: nothing happens after an exception. */
  lemma AbortOnlyAtEnd(cfg: Config, env: Environment, resp: Responses)
    ensures var t := RunEffects(cfg, env, resp);
      t != [] && forall e :: e in t[..|t| - 1] ==> !e.Abort?
  {
    var t := RunEffects(cfg, env, resp);
    var query := [QueryRuntime(ControlPlaneTarget(cfg), cfg.runtime)];
    if resp.runtimeQuery.Success? {
      var host := resp.runtimeQuery.value.ingressHost;
      TerminateEffectsKinds(cfg, host, resp.terminateCall);
      var (terminateRaised, terminated) := TerminateEffects(cfg, host, resp.terminateCall);
      NoAbortConcat(query, terminated);
      if terminateRaised.None? {
        AbortOnlyAtEndAfterTerminate(cfg, env, resp, query + terminated);
      } else {
        assert t == query + terminated + [Abort(terminateRaised.value)];
        assert t[..|t| - 1] == query + terminated;
      }
    } else {
      assert t[..|t| - 1] == query;
    }
  }

  /**
   * A fatal terminate failure ends the run right there: no sync request, no second
   * runtime query, no export.
   */
  lemma FatalTerminateStopsRun(cfg: Config, env: Environment, resp: Responses)
    requires resp.runtimeQuery.Success? && TerminationPolicy(resp.terminateCall) == Reraise
    ensures RunEffects(cfg, env, resp) ==
      [ QueryRuntime(ControlPlaneTarget(cfg), cfg.runtime),
        Log, Terminate(RuntimeApiTarget(cfg, resp.runtimeQuery.value.ingressHost), cfg.application), Log,
        Abort(TerminateFailedMessage) ]
  {
  }

  /**
   * A sync request is sent exactly when the runtime was resolved and the terminate step
   * returned normally; it goes to that runtime's proxy with the configured request.
   */
  lemma SyncOnlyAfterTerminateReturns(cfg: Config, env: Environment, resp: Responses)
    ensures var t := RunEffects(cfg, env, resp);
      && ((exists e :: e in t && e.Sync?) <==>
          resp.runtimeQuery.Success? && TerminationPolicy(resp.terminateCall) != Reraise)
      && forall e :: e in t && e.Sync? ==>
           && resp.runtimeQuery.Success?
           && e == Sync(RuntimeApiTarget(cfg, resp.runtimeQuery.value.ingressHost),
                        SyncRequest(cfg))
  {
    var t := RunEffects(cfg, env, resp);
    if resp.runtimeQuery.Success? && TerminationPolicy(resp.terminateCall) != Reraise {
      var host := resp.runtimeQuery.value.ingressHost;
      var sync := Sync(RuntimeApiTarget(cfg, host), SyncRequest(cfg));
      assert sync in SyncEffects(cfg, host, resp.syncCall).1;
      assert sync in t;
    }
  }

  /**
   * The 30-second wait happens exactly when the runtime was resolved and the terminate
   * call succeeded, and then it comes before the sync request; a swallowed terminate
   * failure reaches the sync without waiting.
   */
  lemma WaitPrecedesSync(cfg: Config, env: Environment, resp: Responses)
    ensures var t := RunEffects(cfg, env, resp);
      && (Wait(TerminateWaitSeconds) in t <==> resp.runtimeQuery.Success? && resp.terminateCall.Success?)
      && forall i :: 0 <= i < |t| && t[i].Sync? ==>
           (Wait(TerminateWaitSeconds) in t[..i] <==> resp.terminateCall.Success?)
  {
    var t := RunEffects(cfg, env, resp);
    var query := [QueryRuntime(ControlPlaneTarget(cfg), cfg.runtime)];
    if resp.runtimeQuery.Success? {
      var host := resp.runtimeQuery.value.ingressHost;
      TerminateWaitsIffSucceeded(cfg, host, resp.terminateCall);
      var (terminateRaised, terminated) := TerminateEffects(cfg, host, resp.terminateCall);
      if terminateRaised.None? {
        var before, after := SplitAtSync(cfg, env, resp);
        OnlySyncAt(before, Sync(RuntimeApiTarget(cfg, host), SyncRequest(cfg)), after);
      } else {
        assert t == query + terminated + [Abort(terminateRaised.value)];
      }
    }
  }

  /**
   * Once the terminate step has returned, a run is the query, the terminate effects and the
   * sync log line, then the sync request, then effects that neither sync nor wait.
   */
  lemma SplitAtSync(cfg: Config, env: Environment, resp: Responses) returns (before: seq<Effect>, after: seq<Effect>)
    requires resp.runtimeQuery.Success? && TerminationPolicy(resp.terminateCall) != Reraise
    ensures before == [QueryRuntime(ControlPlaneTarget(cfg), cfg.runtime)]
                      + TerminateEffects(cfg, resp.runtimeQuery.value.ingressHost, resp.terminateCall).1 + [Log]
    ensures RunEffects(cfg, env, resp) ==
      before + [Sync(RuntimeApiTarget(cfg, resp.runtimeQuery.value.ingressHost), SyncRequest(cfg))] + after
    ensures NoSync(after) && Wait(TerminateWaitSeconds) !in after
  {
    var query := [QueryRuntime(ControlPlaneTarget(cfg), cfg.runtime)];
    var host := resp.runtimeQuery.value.ingressHost;
    var sync := Sync(RuntimeApiTarget(cfg, host), SyncRequest(cfg));
    var terminated := TerminateEffects(cfg, host, resp.terminateCall).1;
    var (syncRaised, synced) := SyncEffects(cfg, host, resp.syncCall);
    var rest := AfterSyncCall(cfg, env, resp);
    var tail: seq<Effect> := if syncRaised.Some? then [] else [Log];
    assert synced == [Log] + [sync] + tail;
    before := query + terminated + [Log];
    after := tail + rest;
  }

  /** What follows the sync step's effects in a run neither syncs nor waits. */
  lemma AfterSyncCall(cfg: Config, env: Environment, resp: Responses) returns (rest: seq<Effect>)
    requires resp.runtimeQuery.Success? && TerminationPolicy(resp.terminateCall) != Reraise
    ensures var host := resp.runtimeQuery.value.ingressHost;
      RunEffects(cfg, env, resp) ==
        [QueryRuntime(ControlPlaneTarget(cfg), cfg.runtime)] + TerminateEffects(cfg, host, resp.terminateCall).1
        + SyncEffects(cfg, host, resp.syncCall).1 + rest
    ensures NoSync(rest) && Wait(TerminateWaitSeconds) !in rest
  {
    var query := [QueryRuntime(ControlPlaneTarget(cfg), cfg.runtime)];
    var syncRaised := SyncEffects(cfg, resp.runtimeQuery.value.ingressHost, resp.syncCall).0;
    if syncRaised.Some? {
      rest := [Abort(syncRaised.value)];
    } else {
      match LinkResult(cfg, resp.linkRuntimeQuery)
      case Failure(message) =>
        rest := query + [Abort(message)];
      case Success(link) =>
        var (exportRaised, exported) :=
          ExportEffects(env, OutputVarName(cfg.stepName), link, resp.volumeAppend, resp.metaAppend);
        rest := query + exported + (if exportRaised.Some? then [Abort(exportRaised.value)] else []);
    }
  }

  /**
   * The link is written to an export file exactly when the run reaches the export inside a
   * build and the per-build file can be appended to; a successful run inside a build has
   * written it to both files; every line written is `<step>_CF_OUTPUT_URL=<dashboard link>`
   * and a newline.
   */
  lemma ExportOnlyAfterSuccessInBuild(cfg: Config, env: Environment, resp: Responses)
    ensures var t := RunEffects(cfg, env, resp); var reached := LinkReached(cfg, resp);
      && ((exists e :: e in t && e.AppendLine?) <==>
            reached.Success? && BuildIdVar in env && resp.volumeAppend.Success?)
      && forall e :: e in t && e.AppendLine? ==>
           reached.Success? && e.line == ExportLine(OutputVarName(cfg.stepName), reached.value)
    ensures var t := RunEffects(cfg, env, resp); var result := RunResult(cfg, env, resp);
      result.Success? && BuildIdVar in env ==>
        && AppendLine(VolumeExportFile(env), ExportLine(OutputVarName(cfg.stepName), result.value)) in t
        && AppendLine(MetaExportFile, ExportLine(OutputVarName(cfg.stepName), result.value)) in t
  {
    var t := RunEffects(cfg, env, resp);
    var reached := LinkReached(cfg, resp);
    if reached.Success? {
      var query := [QueryRuntime(ControlPlaneTarget(cfg), cfg.runtime)];
      var host := resp.runtimeQuery.value.ingressHost;
      var terminated := TerminateEffects(cfg, host, resp.terminateCall).1;
      var synced := SyncEffects(cfg, host, resp.syncCall).1;
      var (exportRaised, exported) :=
        ExportEffects(env, OutputVarName(cfg.stepName), reached.value, resp.volumeAppend, resp.metaAppend);
      var before := query + terminated + synced + query;
      var after := if exportRaised.Some? then [Abort(exportRaised.value)] else [];
      assert t == before + exported + after;
      TerminateEffectsKinds(cfg, host, resp.terminateCall);
      assert forall e :: e in t && e.AppendLine? ==> e in exported by {
        forall e | e in t && e.AppendLine?
          ensures e in exported
        {
          assert e !in query && e !in terminated && e !in synced && e !in after;
        }
      }
      if BuildIdVar in env && resp.volumeAppend.Success? {
        assert exported[0] in t;
        if resp.metaAppend.Success? {
          assert exported[1] in t;
        }
      }
    }
  }

  /**
   * The exported value is the dashboard link built from the namespace of the second
   * runtime query, and reads back as that namespace, runtime and application when
   * none of them holds a '/'.
   */
  lemma ExportedLinkIsDashboardLink(cfg: Config, env: Environment, resp: Responses)
    requires RunResult(cfg, env, resp).Success?
    ensures cfg.runtime.Some? && cfg.application.Some? && resp.linkRuntimeQuery.Success?
    ensures RunResult(cfg, env, resp).value ==
      DashboardLink(cfg.cfUrl, resp.linkRuntimeQuery.value.namespace, cfg.runtime.value, cfg.application.value)
    ensures '/' !in resp.linkRuntimeQuery.value.namespace && '/' !in cfg.runtime.value && '/' !in cfg.application.value ==>
      ParseDashboardLink(cfg.cfUrl, RunResult(cfg, env, resp).value) ==
        Some((resp.linkRuntimeQuery.value.namespace, cfg.runtime.value, cfg.application.value))
  {
    var ns := resp.linkRuntimeQuery.value.namespace;
    if '/' !in ns && '/' !in cfg.runtime.value && '/' !in cfg.application.value {
      DashboardLinkRoundTrip(cfg.cfUrl, ns, cfg.runtime.value, cfg.application.value);
    }
  }
}
