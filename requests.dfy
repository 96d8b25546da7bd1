/**
 * The pure string and payload builders of argocd_sync.py: the two GraphQL
 * endpoints, the `argocd_sync` request variables, the Applications-dashboard
 * link, the output variable name and the `KEY=VALUE` export line. Each comes
 * with the reading side that takes it apart again.
 */
module Requests {
  import opened Basics
  import opened PyStr
  import opened Settings

  const ControlPlanePath := "/2.0/api/graphql"
  const RuntimeApiPath := "/app-proxy/api/graphql"

  /** The control-plane GraphQL endpoint, used by `get_runtime`. */
  function ControlPlaneEndpoint(cfUrl: string): string {
    cfUrl + ControlPlanePath
  }

  /** The runtime's app-proxy GraphQL endpoint, used by the terminate and sync calls. */
  function RuntimeApiEndpoint(ingressHost: string): string {
    ingressHost + RuntimeApiPath
  }

  /** The control-plane endpoint keeps its base URL: removing the fixed path gives it back. */
  lemma ControlPlaneEndpointBase(cfUrl: string)
    ensures StripSuffix(ControlPlaneEndpoint(cfUrl), ControlPlanePath) == Some(cfUrl)
  {
    StripSuffixAppend(cfUrl, ControlPlanePath);
  }

  /** The runtime endpoint keeps its ingress host: removing the fixed path gives it back. */
  lemma RuntimeApiEndpointBase(ingressHost: string)
    ensures StripSuffix(RuntimeApiEndpoint(ingressHost), RuntimeApiPath) == Some(ingressHost)
  {
    StripSuffixAppend(ingressHost, RuntimeApiPath);
  }

  /** The `strategy.hook` part of the sync options. */
  datatype HookStrategy = HookStrategy(force: bool)
  datatype SyncStrategy = SyncStrategy(hook: HookStrategy)

  /** The `options` record of an `argocd_sync` request; `resources` is always null. */
  datatype SyncOptions = SyncOptions(
    name: Option<string>,
    dryRun: bool,
    prune: bool,
    strategy: SyncStrategy,
    syncOptionItems: seq<string>,
    resources: Option<seq<string>>)

  /** The variables of an `argocd_sync` request. */
  datatype SyncVariables = SyncVariables(applicationName: Option<string>, options: SyncOptions)

  const SyncOptionKeys := ["PruneLast", "ApplyOutOfSyncOnly", "ServerSideApply", "PrunePropagationPolicy"]

  function SyncOptionItems(cfg: Config): seq<string> {
    [ "PruneLast=" + cfg.pruneLast,
      "ApplyOutOfSyncOnly=" + cfg.applyOutOfSyncOnly,
      "ServerSideApply=" + cfg.serverSideApply,
      "PrunePropagationPolicy=foreground" ]
  }

  /** The variables `execute_argocd_sync` sends for a configuration. */
  function SyncRequest(cfg: Config): SyncVariables {
    SyncVariables(
      cfg.application,
      SyncOptions(
        name := cfg.application,
        dryRun := false,
        prune := cfg.prune,
        strategy := SyncStrategy(HookStrategy(cfg.force)),
        syncOptionItems := SyncOptionItems(cfg),
        resources := None))
  }

  /** The fixed parts of every sync request: never a dry run, no resource filter, the application named twice. */
  lemma SyncRequestFixedFields(cfg: Config)
    ensures var o := SyncRequest(cfg).options;
      && !o.dryRun && o.resources.None?
      && o.name == SyncRequest(cfg).applicationName == cfg.application
      && o.prune == cfg.prune && o.strategy.hook.force == cfg.force
      && |o.syncOptionItems| == 4
  {
  }

  /**
   * Each sync option item reads back, split at its first '=', as the expected key
   * in the fixed order with the configured value; the propagation policy is always
   * "foreground".
   */
  lemma SyncOptionItemsDecode(cfg: Config)
    ensures var items := SyncRequest(cfg).options.syncOptionItems;
      && |items| == 4
      && SplitAtFirst(items[0], '=') == Some((SyncOptionKeys[0], cfg.pruneLast))
      && SplitAtFirst(items[1], '=') == Some((SyncOptionKeys[1], cfg.applyOutOfSyncOnly))
      && SplitAtFirst(items[2], '=') == Some((SyncOptionKeys[2], cfg.serverSideApply))
      && SplitAtFirst(items[3], '=') == Some((SyncOptionKeys[3], "foreground"))
  {
    var items := SyncOptionItems(cfg);
    assert items[0] == SyncOptionKeys[0] + ['='] + cfg.pruneLast;
    assert items[1] == SyncOptionKeys[1] + ['='] + cfg.applyOutOfSyncOnly;
    assert items[2] == SyncOptionKeys[2] + ['='] + cfg.serverSideApply;
    assert items[3] == SyncOptionKeys[3] + ['='] + "foreground";
    KeysHaveNoEquals();
    SplitAtFirstJoin(SyncOptionKeys[0], '=', cfg.pruneLast);
    SplitAtFirstJoin(SyncOptionKeys[1], '=', cfg.applyOutOfSyncOnly);
    SplitAtFirstJoin(SyncOptionKeys[2], '=', cfg.serverSideApply);
    SplitAtFirstJoin(SyncOptionKeys[3], '=', "foreground");
  }

  /** No sync option key holds the '=' that separates it from its value. */
  lemma KeysHaveNoEquals()
    ensures '=' !in SyncOptionKeys[0] && '=' !in SyncOptionKeys[1]
    ensures '=' !in SyncOptionKeys[2] && '=' !in SyncOptionKeys[3]
  {
  }

  /** With nothing configured, the options are the documented defaults. */
  lemma DefaultSyncRequest()
    ensures var o := SyncRequest(ParseConfig(map[])).options;
      && !o.prune && !o.strategy.hook.force && o.name.None?
      && o.syncOptionItems == [ "PruneLast=false", "ApplyOutOfSyncOnly=false",
                                "ServerSideApply=true", "PrunePropagationPolicy=foreground" ]
  {
    DefaultConfig();
    assert "PruneLast=" + "false" == "PruneLast=false";
    assert "ApplyOutOfSyncOnly=" + "false" == "ApplyOutOfSyncOnly=false";
    assert "ServerSideApply=" + "true" == "ServerSideApply=true";
  }

  const DashboardPath := "/2.0/applications-dashboard/"
  const TimelineSuffix := "/timeline"

  /** The link to the application's timeline in the Codefresh Applications dashboard. */
  function DashboardLink(cfUrl: string, namespace: string, runtime: string, application: string): string {
    cfUrl + DashboardPath + namespace + "/" + runtime + "/" + application + TimelineSuffix
  }

  /** Reads namespace, runtime and application back out of a dashboard link for a given base URL. */
  function ParseDashboardLink(cfUrl: string, link: string): Option<(string, string, string)> {
    var prefix := cfUrl + DashboardPath;
    if |link| < |prefix| || link[..|prefix|] != prefix then None
    else match SplitAtFirst(link[|prefix|..], '/')
      case None => None
      case Some((namespace, rest)) =>
        match SplitAtFirst(rest, '/')
        case None => None
        case Some((runtime, rest')) =>
          match SplitAtFirst(rest', '/')
          case None => None
          case Some((application, tail)) =>
            if tail == "timeline" then Some((namespace, runtime, application)) else None
  }

  /** A dashboard link determines its namespace, runtime and application when none of them holds a '/'. */
  lemma DashboardLinkRoundTrip(cfUrl: string, namespace: string, runtime: string, application: string)
    requires '/' !in namespace && '/' !in runtime && '/' !in application
    ensures ParseDashboardLink(cfUrl, DashboardLink(cfUrl, namespace, runtime, application))
            == Some((namespace, runtime, application))
  {
    var prefix := cfUrl + DashboardPath;
    var link := DashboardLink(cfUrl, namespace, runtime, application);
    var rest' := application + ['/'] + "timeline";
    var rest := runtime + ['/'] + rest';
    var after := namespace + ['/'] + rest;
    assert link == prefix + after;
    assert link[..|prefix|] == prefix;
    assert link[|prefix|..] == after;
    SplitAtFirstJoin(namespace, '/', rest);
    SplitAtFirstJoin(runtime, '/', rest');
    SplitAtFirstJoin(application, '/', "timeline");
  }

  const OutputUrlSuffix := "_CF_OUTPUT_URL"

  /** The name of the pipeline variable that receives the dashboard link. */
  function OutputVarName(stepName: string): string {
    stepName + OutputUrlSuffix
  }

  /**
   * The variable name determines the step name, so distinct steps export distinct
   * variables; without CF_STEP_NAME the variable is STEP_NAME_CF_OUTPUT_URL.
   */
  lemma OutputVarNameStep(stepName: string, other: string)
    ensures StripSuffix(OutputVarName(stepName), OutputUrlSuffix) == Some(stepName)
    ensures OutputVarName(stepName) == OutputVarName(other) ==> stepName == other
    ensures OutputVarName(ParseConfig(map[]).stepName) == "STEP_NAME_CF_OUTPUT_URL"
  {
    StripSuffixAppend(stepName, OutputUrlSuffix);
    StripSuffixAppend(other, OutputUrlSuffix);
  }

  /** The line `export_variable` appends: no escaping of either part. */
  function ExportLine(name: string, value: string): string {
    name + "=" + value + "\n"
  }

  /** The reading side of an export file entry: one newline-terminated line, key before the first '='. */
  function ParseExportLine(line: string): Option<(string, string)> {
    if line == [] || line[|line| - 1] != '\n' || '\n' in line[..|line| - 1] then None
    else SplitAtFirst(line[..|line| - 1], '=')
  }

  /** The export line reads back as the pair written, when the name has no '=' and neither part a newline. */
  lemma ExportLineRoundTrip(name: string, value: string)
    requires '=' !in name && '\n' !in name && '\n' !in value
    ensures ParseExportLine(ExportLine(name, value)) == Some((name, value))
  {
    var line := ExportLine(name, value);
    var body := name + ['='] + value;
    assert line == body + ['\n'];
    assert line[..|line| - 1] == body;
    SplitAtFirstJoin(name, '=', value);
  }

  /** Without escaping, a value holding a newline breaks the line and a name holding '=' moves the split. */
  lemma ExportLineNotEscaped()
    ensures ParseExportLine(ExportLine("A", "x\ny")) == None
    ensures ParseExportLine(ExportLine("A=B", "c")) == Some(("A", "B=c"))
  {
    var broken := ExportLine("A", "x\ny");
    assert broken[..|broken| - 1][3] == '\n';
    var shifted := ExportLine("A=B", "c");
    assert shifted[..|shifted| - 1] == "A" + ['='] + "B=c";
    SplitAtFirstJoin("A", '=', "B=c");
  }
}
