/** The settings of `config.py`, read from the process environment under the
    `POINTLESS_` prefix. The environment is a map from variable names to values. */
module Config {
  import opened Wrappers
  import opened Text

  type Env = map<string, string>

  const Prefix := "POINTLESS_"

  /** `_getenv(key)`: the value of `POINTLESS_<key>`, or nothing when it is unset. */
  function GetEnv(env: Env, key: string): (v: Option<string>)
    ensures v.Some? <==> Prefix + key in env
    ensures v.Some? ==> v.value == env[Prefix + key]
  {
    if Prefix + key in env then Some(env[Prefix + key]) else None
  }

  /** `_getenv(key, default)`: the value when set, even when it is empty; else the default. */
  function GetEnvOr(env: Env, key: string, default: string): string {
    GetEnv(env, key).GetOr(default)
  }

  /** `value or fallback`. */
  function OrElse(value: string, fallback: string): string {
    if value == "" then fallback else value
  }

  /** `_getenv(key, "false").lower() == "true"`. */
  predicate Flag(env: Env, key: string) {
    Lower(GetEnvOr(env, key, "false")) == "true"
  }

  /** The string and boolean attributes of `Settings`. */
  datatype Settings = Settings(
    estimator: string,
    jiraBaseUrl: Option<string>,
    jiraToken: Option<string>,
    ghToken: Option<string>,
    modelProvider: string,
    openaiApiKey: Option<string>,
    mcpEnabled: bool,
    mcpAtlassianServerUrl: Option<string>,
    mcpAtlassianApiToken: Option<string>,
    mcpAtlassianEmail: Option<string>,
    mcpGithubEnabled: bool,
    mcpGithubServerUrl: Option<string>,
    mcpGithubToken: Option<string>)

  /** `Settings()` evaluated against an environment. */
  function LoadSettings(env: Env): (s: Settings)
    ensures s.estimator != "" && s.modelProvider != ""
    ensures s.mcpEnabled ==> Prefix + "MCP_ENABLED" in env
    ensures s.mcpGithubEnabled ==> Prefix + "MCP_GITHUB_ENABLED" in env
  {
    assert Lower("false")[0] == 'f';
    Settings(
      estimator := Lower(OrElse(GetEnvOr(env, "ESTIMATOR", "heuristic"), "heuristic")),
      jiraBaseUrl := GetEnv(env, "JIRA_BASE_URL"),
      jiraToken := GetEnv(env, "JIRA_TOKEN"),
      ghToken := GetEnv(env, "GH_TOKEN"),
      modelProvider := OrElse(GetEnvOr(env, "MODEL_PROVIDER", "openai"), "openai"),
      openaiApiKey := GetEnv(env, "OPENAI_API_KEY"),
      mcpEnabled := Flag(env, "MCP_ENABLED"),
      mcpAtlassianServerUrl := GetEnv(env, "MCP_ATLASSIAN_SERVER_URL"),
      mcpAtlassianApiToken := GetEnv(env, "MCP_ATLASSIAN_API_TOKEN"),
      mcpAtlassianEmail := GetEnv(env, "MCP_ATLASSIAN_EMAIL"),
      mcpGithubEnabled := Flag(env, "MCP_GITHUB_ENABLED"),
      mcpGithubServerUrl := GetEnv(env, "MCP_GITHUB_SERVER_URL"),
      mcpGithubToken := GetEnv(env, "MCP_GITHUB_TOKEN"))
  }

  /** The estimator mode is lower case and never empty: "heuristic" when the variable is
      unset or empty, else the value lower-cased. */
  lemma EstimatorRule(env: Env)
    ensures var e := LoadSettings(env).estimator;
      IsLower(e) && e != "" &&
      (!Truthy(GetEnv(env, "ESTIMATOR")) ==> e == "heuristic") &&
      (Truthy(GetEnv(env, "ESTIMATOR")) ==> e == Lower(env[Prefix + "ESTIMATOR"]))
  {
    var raw := OrElse(GetEnvOr(env, "ESTIMATOR", "heuristic"), "heuristic");
    LowerIsLower(raw);
    if !Truthy(GetEnv(env, "ESTIMATOR")) {
      assert raw == "heuristic";
      LowerOfLower("heuristic");
    }
  }

  /** The model provider is the value as given, case kept, or "openai" when the variable
      is unset or empty. */
  lemma ModelProviderRule(env: Env)
    ensures var p := LoadSettings(env).modelProvider;
      p != "" &&
      (Truthy(GetEnv(env, "MODEL_PROVIDER")) ==> p == env[Prefix + "MODEL_PROVIDER"]) &&
      (!Truthy(GetEnv(env, "MODEL_PROVIDER")) ==> p == "openai")
  {
  }

  /** A flag is on exactly when its variable is set and lower-cases to "true"; unset
      means off. */
  lemma FlagRule(env: Env, key: string)
    ensures Flag(env, key) <==> Prefix + key in env && Lower(env[Prefix + key]) == "true"
  {
    if Prefix + key !in env {
      assert Lower("false") != "true" by {
        assert Lower("false")[0] == 'f';
      }
    }
  }

  /** "TRUE" and "True" turn a flag on; "1" and "yes" do not. */
  lemma FlagExamples()
    ensures Flag(map[Prefix + "MCP_ENABLED" := "TRUE"], "MCP_ENABLED")
    ensures Flag(map[Prefix + "MCP_ENABLED" := "True"], "MCP_ENABLED")
    ensures !Flag(map[Prefix + "MCP_ENABLED" := "1"], "MCP_ENABLED")
    ensures !Flag(map[Prefix + "MCP_ENABLED" := "yes"], "MCP_ENABLED")
  {
    assert Lower("TRUE") == "true";
    assert Lower("True") == "true";
    assert |Lower("1")| == 1;
    assert Lower("yes")[0] == 'y';
  }

  /** The settings read only variables that carry the prefix: two environments that
      agree on every prefixed variable give the same settings. */
  lemma SettingsReadOnlyPrefixed(env1: Env, env2: Env)
    requires forall k :: StartsWith(k, Prefix) ==>
      (k in env1 <==> k in env2) && (k in env1 ==> env1[k] == env2[k])
    ensures LoadSettings(env1) == LoadSettings(env2)
  {
    SameLookup(env1, env2, "ESTIMATOR");
    SameLookup(env1, env2, "JIRA_BASE_URL");
    SameLookup(env1, env2, "JIRA_TOKEN");
    SameLookup(env1, env2, "GH_TOKEN");
    SameLookup(env1, env2, "MODEL_PROVIDER");
    SameLookup(env1, env2, "OPENAI_API_KEY");
    SameLookup(env1, env2, "MCP_ENABLED");
    SameLookup(env1, env2, "MCP_ATLASSIAN_SERVER_URL");
    SameLookup(env1, env2, "MCP_ATLASSIAN_API_TOKEN");
    SameLookup(env1, env2, "MCP_ATLASSIAN_EMAIL");
    SameLookup(env1, env2, "MCP_GITHUB_ENABLED");
    SameLookup(env1, env2, "MCP_GITHUB_SERVER_URL");
    SameLookup(env1, env2, "MCP_GITHUB_TOKEN");
  }

  /** A lookup reads the prefixed variable only. */
  lemma SameLookup(env1: Env, env2: Env, key: string)
    requires forall k :: StartsWith(k, Prefix) ==>
      (k in env1 <==> k in env2) && (k in env1 ==> env1[k] == env2[k])
    ensures GetEnv(env1, key) == GetEnv(env2, key)
  {
    assert (Prefix + key)[..|Prefix|] == Prefix;
    assert StartsWith(Prefix + key, Prefix);
  }

  /** With nothing set, every optional value is missing, both flags are off and the
      defaults apply. */
  lemma EmptyEnvironmentDefaults()
    ensures LoadSettings(map[]) == Settings("heuristic", None, None, None, "openai", None, false,
                                            None, None, None, false, None, None)
  {
    assert Lower("heuristic") == "heuristic";
    assert Lower("false") != "true" by {
      assert Lower("false")[0] == 'f';
    }
  }
}
