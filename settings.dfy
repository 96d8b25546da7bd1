/**
 * The script's configuration, read once from the process environment at start-up
 * (argocd_sync.py lines 7-19): the target runtime and application, the five sync
 * options, and the Codefresh execution context.
 */
module Settings {
  import opened Basics
  import opened PyStr

  /** The process environment: variable name to value. */
  type Environment = map<string, string>

  const DefaultCfUrl := "https://g.codefresh.io"
  const DefaultStepName := "STEP_NAME"

  /** `os.getenv(key)`: the value, or `None` when the variable is unset. */
  function GetEnv(env: Environment, key: string): Option<string> {
    if key in env then Some(env[key]) else None
  }

  /** `os.getenv(key, default)`. */
  function GetEnvOr(env: Environment, key: string, default: string): string {
    if key in env then env[key] else default
  }

  datatype Config = Config(
    runtime: Option<string>,
    application: Option<string>,
    prune: bool,
    force: bool,
    pruneLast: string,
    applyOutOfSyncOnly: string,
    serverSideApply: string,
    cfUrl: string,
    apiKey: Option<string>,
    stepName: string)

  /** A boolean option: the variable (default "false"), lower-cased, compared with "true". */
  function BoolFlag(env: Environment, key: string): bool {
    Lower(GetEnvOr(env, key, "false")) == "true"
  }

  /** A string option: the variable or its default, lower-cased. */
  function StringFlag(env: Environment, key: string, default: string): string {
    Lower(GetEnvOr(env, key, default))
  }

  function ParseConfig(env: Environment): Config {
    Config(
      runtime := GetEnv(env, "RUNTIME"),
      application := GetEnv(env, "APPLICATION"),
      prune := BoolFlag(env, "SYNC_OPT_PRUNE"),
      force := BoolFlag(env, "SYNC_OPT_FORCE"),
      pruneLast := StringFlag(env, "SYNC_OPT_PRUNE_LAST", "false"),
      applyOutOfSyncOnly := StringFlag(env, "SYNC_OPT_APPLY_OUT_OF_SYNC_ONLY", "false"),
      serverSideApply := StringFlag(env, "SYNC_OPT_SERVER_SIDE_APPLY", "true"),
      cfUrl := GetEnvOr(env, "CF_URL", DefaultCfUrl),
      apiKey := GetEnv(env, "CF_API_KEY"),
      stepName := GetEnvOr(env, "CF_STEP_NAME", DefaultStepName))
  }

  /** `v` is "true" in any mix of upper and lower case. */
  predicate SpellsTrue(v: string) {
    |v| == 4 && v[0] in {'t', 'T'} && v[1] in {'r', 'R'} && v[2] in {'u', 'U'} && v[3] in {'e', 'E'}
  }

  /** A boolean option is on exactly when its variable is set to "true", ignoring case; unset means off. */
  lemma BoolFlagIff(env: Environment, key: string)
    ensures BoolFlag(env, key) <==> key in env && SpellsTrue(env[key])
  {
    var v := GetEnvOr(env, key, "false");
    var l := Lower(v);
    if l == "true" {
      assert |v| == 4;
      assert LowerChar(v[0]) == 't' && LowerChar(v[1]) == 'r';
      assert LowerChar(v[2]) == 'u' && LowerChar(v[3]) == 'e';
      assert key in env;
    }
    if key in env && SpellsTrue(v) {
      assert forall i :: 0 <= i < 4 ==> l[i] == "true"[i];
    }
  }

  /** The defaults of the string options are already in lower case. */
  lemma LowercaseDefaults()
    ensures Lower("false") == "false" && Lower("true") == "true"
  {
    LowerKeepsLowercase("false");
    LowerKeepsLowercase("true");
  }

  /** A string option is the variable's value lower-cased, or its default when unset; it needs no further lower-casing. */
  lemma StringFlagValue(env: Environment, key: string, default: string)
    requires Lower(default) == default
    ensures StringFlag(env, key, default) == if key in env then Lower(env[key]) else default
    ensures Lower(StringFlag(env, key, default)) == StringFlag(env, key, default)
  {
    LowerIdempotent(GetEnvOr(env, key, default));
  }

  /** The two boolean options are on exactly when their variables spell "true", ignoring case. */
  lemma ConfigBoolFlags(env: Environment)
    ensures ParseConfig(env).prune <==> "SYNC_OPT_PRUNE" in env && SpellsTrue(env["SYNC_OPT_PRUNE"])
    ensures ParseConfig(env).force <==> "SYNC_OPT_FORCE" in env && SpellsTrue(env["SYNC_OPT_FORCE"])
  {
    BoolFlagIff(env, "SYNC_OPT_PRUNE");
    BoolFlagIff(env, "SYNC_OPT_FORCE");
  }

  /** The three string options are their variables lower-cased, defaulting to "false", "false" and "true". */
  lemma ConfigStringFlags(env: Environment)
    ensures var c := ParseConfig(env);
      && c.pruneLast == (if "SYNC_OPT_PRUNE_LAST" in env then Lower(env["SYNC_OPT_PRUNE_LAST"]) else "false")
      && c.applyOutOfSyncOnly ==
         (if "SYNC_OPT_APPLY_OUT_OF_SYNC_ONLY" in env then Lower(env["SYNC_OPT_APPLY_OUT_OF_SYNC_ONLY"]) else "false")
      && c.serverSideApply ==
         (if "SYNC_OPT_SERVER_SIDE_APPLY" in env then Lower(env["SYNC_OPT_SERVER_SIDE_APPLY"]) else "true")
      && Lower(c.pruneLast) == c.pruneLast
      && Lower(c.applyOutOfSyncOnly) == c.applyOutOfSyncOnly
      && Lower(c.serverSideApply) == c.serverSideApply
  {
    var c := ParseConfig(env);
    assert c.pruneLast == StringFlag(env, "SYNC_OPT_PRUNE_LAST", "false");
    assert c.applyOutOfSyncOnly == StringFlag(env, "SYNC_OPT_APPLY_OUT_OF_SYNC_ONLY", "false");
    assert c.serverSideApply == StringFlag(env, "SYNC_OPT_SERVER_SIDE_APPLY", "true");
    LowercaseDefaults();
    StringFlagValue(env, "SYNC_OPT_PRUNE_LAST", "false");
    StringFlagValue(env, "SYNC_OPT_APPLY_OUT_OF_SYNC_ONLY", "false");
    StringFlagValue(env, "SYNC_OPT_SERVER_SIDE_APPLY", "true");
  }

  /** With nothing set, every option takes its default. */
  lemma DefaultConfig()
    ensures ParseConfig(map[]) ==
      Config(None, None, false, false, "false", "false", "true", DefaultCfUrl, None, DefaultStepName)
  {
    var env: Environment := map[];
    BoolFlagIff(env, "SYNC_OPT_PRUNE");
    BoolFlagIff(env, "SYNC_OPT_FORCE");
    LowercaseDefaults();
    StringFlagValue(env, "SYNC_OPT_PRUNE_LAST", "false");
    StringFlagValue(env, "SYNC_OPT_SERVER_SIDE_APPLY", "true");
  }
}
