# Pointless effort estimation, modelled in Dafny

This project models the core of "pointless", a placeholder effort estimator for software tasks. An `EstimationRequest` (a title, an optional description, an optional ticket id, an optional codebase path and tags) is scored by one of two estimators. The result is an `EstimationResponse` holding hours, a complexity level, a confidence, a reasoning sentence and the list of factors that were considered.

- **The legacy estimator** (`estimate_effort`, module `LegacyEstimate`) starts from 1.0 hour and SIMPLE. It adjusts both, in a fixed order, for:
  - the title length;
  - the description length;
  - the first complex keyword;
  - the first simple keyword;
  - a codebase context;
  - an urgent tag.

  It then multiplies by a random factor in [0.8, 1.4] and draws a confidence from the range of the complexity.
- **The heuristic estimator** (`estimate`, module `Heuristic`) also starts from 1.0 hour and SIMPLE. It has no title step, no simple keyword and no context bonus. Its steps are, in order:
  - a description over 200 characters adds 3.0 and makes the task COMPLEX; one of 51 to 200 characters adds 1.0 and makes it MODERATE;
  - the first complex keyword adds 3.0 and makes the task COMPLEX;
  - an urgent tag multiplies the base by 0.9;
  - a sniff of the local repository (`_find_relevant_files`, at most 8 hits) adds min(0.3 per hit, 2.0);
  - a title-seeded jitter in [0.9, 1.3] multiplies the base.

  The confidence is a fixed value per complexity, and the reasoning is a fixed sentence.
- **The records** are in module `Models`. They cover:
  - the five complexity levels;
  - the request defaults;
  - the field constraints of a response: hours > 0 and 0 ≤ confidence ≤ 1.
- **The settings** are in module `Config`. Every variable is read under the `POINTLESS_` prefix, with lower-casing, defaults and "true" flags.
- **The Jira and GitHub connectors** are in modules `AtlassianConnector` and `GitHubConnector`. Each is a client built from the settings that returns placeholder records once it is configured. The GitHub connector also returns a keyword-driven placeholder analysis of a codebase.

The estimators are imperative in the original: the hours, the complexity and the factor list are updated step by step, and loops exit early. They are therefore modelled as methods with loops, proved against closed-form functions such as `BaseHours`, `ComplexityOf` and `Factors`. The lemmas state the properties on those functions.

Notable proved facts:
- The legacy estimator can never produce EXPERT (nor TRIVIAL). When the complex-keyword bump happens the base is at most 6.0, so the `base_hours > 10` test after the bump never passes (`LegacyEstimate.ScoreTask`).
- Both estimators always return a response that satisfies the response constraints.

The random draws are parameters constrained to their ranges. The seeded generator of the heuristic estimator is a function of the seed text.

Modules: `Wrappers` (Option), `Text` (ASCII lower-casing, substring search, joining, decimal rendering), `Numbers` (uniform draw, rounding), `Models`, `LegacyEstimate`, `Heuristic`, `Config`, `AtlassianConnector`, `GitHubConnector`.

## Model

| member | source | states |
|---|---|---|
| Text.NatToString | pointless/core/estimators/heuristic.py:85 | `str(n)` of a natural number is a non-empty string of decimal digits with no leading zero |
| Text.NatToStringValue | pointless/core/estimators/heuristic.py:85 | the digits of `str(n)` denote n again |
| Numbers.FormatTenths | pointless/core/estimate.py:109 | `f"{x:.1f}"` renders digits, a point and exactly one decimal digit |
| Numbers.FormatTenthsValue | pointless/core/estimate.py:109 | the digits before the point and the decimal digit of `f"{x:.1f}"` denote x rounded to one decimal |
| Text.Contains | pointless/core/estimate.py:63 | Python's `k in s`: the empty string occurs in every string, and an occurrence needs a string at least as long as k; `ContainsAt` and `ContainsWitness` prove that it holds exactly when k is a contiguous slice of s |
| Text.Lower | pointless/core/estimate.py:51 | `.lower()` keeps the length and maps each character by its ASCII case mapping, so only 'A'..'Z' change; `LowerIsLower` and `LowerAppend` prove the result lower-case, idempotent and compatible with concatenation |
| Text.FirstContainedSpec | pointless/core/estimate.py:62-74 | a `for … if kw in text: … break` scan finds the first listed word that occurs and none before it, and finds nothing exactly when no word occurs |
| Text.LowerIsLower | pointless/core/estimate.py:51 | `.lower()` yields a lower-case string and is idempotent |
| Text.JoinContains | pointless/core/estimate.py:106 | every joined factor occurs in the `', '.join(...)` text |
| Numbers.Uniform | pointless/core/estimate.py:87 | `random.uniform(lo, hi)` computed from a unit draw lies in [lo, hi] |
| Numbers.RoundTenths | pointless/core/estimate.py:115 | `round(x, 1)` lies within 0.05 of x |
| Numbers.RoundHundredths | pointless/core/estimate.py:117 | `round(x, 2)` lies within 0.005 of x |
| Numbers.RoundHundredthsWithin | pointless/core/estimate.py:91-100 | rounding to hundredths keeps a value inside a range whose ends are whole hundredths |
| Models.ComplexityValueRoundTrip | pointless/core/models.py:9-16 | every complexity level's string value parses back to that level, so the five values are distinct |
| Models.AllComplexities | pointless/core/models.py:9-16 | the enumeration has exactly five members, in the order trivial, simple, moderate, complex, expert |
| Models.ParseComplexity | pointless/core/models.py:9-16 | `TaskComplexity(s)` yields only a level whose value is `s` |
| Models.MinimalRequest | pointless/core/models.py:19-28 | a request given only a title has no description, ticket id or codebase context, and no tags |
| Models.NewResponse | pointless/core/models.py:31-40 | a response is accepted exactly when hours > 0 and 0 ≤ confidence ≤ 1; otherwise each violated constraint is reported |
| LegacyEstimate.BaseHours | pointless/core/estimate.py:27-83 | the base before the random factor lies in [0.8, 11.5] |
| LegacyEstimate.ConfidencePercentRange | pointless/core/estimate.py:91-100 | every complexity's confidence range lies inside [0, 1] and is not empty |
| LegacyEstimate.FirstThree | pointless/core/estimate.py:106 | `factors[:3]` is all the factors when there are at most three, and exactly the first three otherwise |
| LegacyEstimate.AnalysisText | pointless/core/estimate.py:51 | the keywords are searched in the lower-cased title, a space and the description or nothing; `ComplexKeywordInTitle` proves a keyword of the title is found there |
| LegacyEstimate.HasUrgentTagIff | pointless/core/estimate.py:82 | a request counts as urgent exactly when one of its tags lower-cases to "urgent" |
| LegacyEstimate.ComplexityOf | pointless/core/estimate.py:28-69 | the assessed complexity is SIMPLE, MODERATE or COMPLEX |
| LegacyEstimate.Factors | pointless/core/estimate.py:29-84 | at most six factors, one per adjustment, and at least one when the description is missing or empty |
| LegacyEstimate.Reasoning | pointless/core/estimate.py:102-110 | the opening sentence naming the complexity, the first three factors when there are any, and the adjustment sentence (its properties are stated by the two lemmas below) |
| LegacyEstimate.ApplyComplexKeywords | pointless/core/estimate.py:62-69 | the first complex keyword found adds 4.0 hours, sets COMPLEX or (above 10 hours) EXPERT, and appends one factor naming it; with no keyword nothing changes |
| LegacyEstimate.ApplySimpleKeywords | pointless/core/estimate.py:71-74 | the first simple keyword found appends one factor naming it; nothing else changes |
| LegacyEstimate.ScoreTask | pointless/core/estimate.py:26-84 | the step-by-step scoring ends with the closed-form base, complexity and factor list, and the complexity is SIMPLE, MODERATE or COMPLEX, never TRIVIAL or EXPERT |
| LegacyEstimate.FinalHoursPositive | pointless/core/estimate.py:87-88 | a base of at least 0.8 scaled by a factor of at least 0.8 rounds to positive hours |
| LegacyEstimate.FinalHours | pointless/core/estimate.py:87-88 | the estimate is the base times the random factor rounded to one decimal, within 0.05 of that product |
| LegacyEstimate.DrawConfidence | pointless/core/estimate.py:91-100 | the confidence is the uniform draw over the range of the complexity, and lies in that range |
| LegacyEstimate.Respond | pointless/core/estimate.py:86-120 | the response carries the rounded scaled hours, the rounded confidence inside its range, the reasoning sentence and the factors, and satisfies the response constraints |
| LegacyEstimate.EstimateEffort | pointless/core/estimate.py:11-120 | `estimate_effort` returns a valid response whose hours, complexity, confidence, reasoning and factors are those of the closed-form score for any draws in range |
| LegacyEstimate.HoursWithinRandomRange | pointless/core/estimate.py:27-88 | base·r lies in [0.8·base, 1.4·base] and the rounded hours are positive |
| LegacyEstimate.DescriptionLengthEffect | pointless/core/estimate.py:38-46 | a description over 200 characters adds 3.0 (damped when urgent) and sets COMPLEX; one of 51–200 characters adds 1.0 and leaves the complexity unchanged |
| LegacyEstimate.TitleLengthEffect | pointless/core/estimate.py:32-35 | against a title of at most 50 characters with the same keywords, a title over 50 adds 2.0 (damped when urgent), puts the long-title factor first and makes a non-complex task MODERATE |
| LegacyEstimate.CodebaseContextEffect | pointless/core/estimate.py:77-79 | a non-empty codebase context adds 1.5 (damped when urgent) and its factor before the urgency factor, and leaves the complexity unchanged |
| LegacyEstimate.EmptyDescriptionLikeNone | pointless/core/estimate.py:38-48 | an empty description scores exactly like a missing one: the "No description provided" factor and no hours |
| LegacyEstimate.NoDescriptionFactorIff | pointless/core/estimate.py:38-48 | the "No description provided" factor appears exactly when the description is missing or empty |
| LegacyEstimate.ComplexKeywordInTitle | pointless/core/estimate.py:51-69 | a complex keyword in the title is found in the analysed text, adds exactly one 4.0 bump and one factor, and makes the task COMPLEX |
| LegacyEstimate.RefactorInTitle | pointless/core/estimate.py:51-69 | a title containing "refactor" in any case gives a COMPLEX task with the "refactor" keyword factor |
| LegacyEstimate.FixedFactorsUnprefixed | pointless/core/estimate.py:35-84 | no fixed factor text starts like a keyword factor |
| LegacyEstimate.FactorsCount | pointless/core/estimate.py:29-84 | the factors starting with a prefix are counted section by section |
| LegacyEstimate.KeywordFactorCounts | pointless/core/estimate.py:52-74 | at most one complex-keyword factor and at most one simple-keyword factor appear, each exactly when a keyword of its list occurs; the 4.0 bump happens exactly when a complex keyword occurs |
| LegacyEstimate.UrgentTagDamps | pointless/core/estimate.py:81-84 | adding a tag that lower-cases to "urgent" multiplies the base by 0.8, keeps the complexity and appends the urgent factor |
| LegacyEstimate.ReasoningNamesComplexity | pointless/core/estimate.py:102-110 | the reasoning names the complexity value and depends only on the first three factors |
| LegacyEstimate.ReasoningNamesFactors | pointless/core/estimate.py:104-107 | each of the first three factors occurs in the reasoning |
| LegacyEstimate.EmptyTitleScoresMinimally | pointless/core/estimate.py:27-48 | an empty request scores 1.0 hour, SIMPLE, with only the "No description provided" factor |
| LegacyEstimate.UrgentFixExample | pointless/core/estimate.py:60-84 | "Fix" tagged "URGENT" scores 0.8 hours, SIMPLE, with the no-description, "fix" and urgent factors in that order |
| Heuristic.FoundKeywords | pointless/core/estimators/heuristic.py:29 | the keyword set holds exactly the vocabulary words occurring in the text |
| Heuristic.Take | pointless/core/estimators/heuristic.py:40-42 | the kept hits are a prefix of the matches, of the limit's length or all of them |
| Heuristic.StopCount | pointless/core/estimators/heuristic.py:40-42 | the walk stops after `limit` hits when `limit` ≥ 1, and after exactly one hit when `limit` < 1 |
| Heuristic.RelevantFiles | pointless/core/estimators/heuristic.py:19-43 | the result of the sniff holds at most the stop count of paths, and none for an empty root or one that is not a directory |
| Heuristic.MatchingPathsAppend | pointless/core/estimators/heuristic.py:34-40 | filtering the walked paths distributes over concatenation |
| Heuristic.MatchingPathsSubsequence | pointless/core/estimators/heuristic.py:34-40 | the matching paths are a subsequence of the walked paths |
| Heuristic.MatchingPathsSound | pointless/core/estimators/heuristic.py:38-40 | every matching path, lower-cased, contains a keyword |
| Heuristic.PathMatches | pointless/core/estimators/heuristic.py:38-39 | a path matches when its lower-cased form contains one of the keywords; `MatchingPathsSound` proves every hit matches |
| Heuristic.FindRelevantFiles | pointless/core/estimators/heuristic.py:19-43 | the nested walk with its early return yields exactly the first StopCount(limit) matching paths in walk order, or nothing when the root is empty or not a directory or no keyword occurs |
| Heuristic.StoppedEarly | pointless/core/estimators/heuristic.py:40-42 | once the hits of a partial walk reach the stop count, the early return yields exactly the result |
| Heuristic.WalkedToEnd | pointless/core/estimators/heuristic.py:34-43 | a walk that ends below the stop count yields every match as the result |
| Heuristic.RelevantFilesEmpty | pointless/core/estimators/heuristic.py:24-31 | no file is returned for an empty root, a root that is not a directory, or a text with none of the vocabulary words |
| Heuristic.RelevantFilesBound | pointless/core/estimators/heuristic.py:33-43 | at most `limit` paths are returned (one when `limit` ≤ 0); they are a prefix of all matches, and all of them when fewer than the limit exist |
| Heuristic.RelevantFilesSound | pointless/core/estimators/heuristic.py:29-40 | the result is a subsequence of the walked paths, and each path, lower-cased, contains a vocabulary word found in the text |
| Heuristic.SeedText | pointless/core/estimators/heuristic.py:14-15 | the seed text is never empty: it is the title, and "pointless" exactly for an empty title |
| Heuristic.Jitter | pointless/core/estimators/heuristic.py:14-16 | the multiplier drawn from the title-seeded generator lies in [0.9, 1.3] |
| Heuristic.JitterRange | pointless/core/estimators/heuristic.py:87 | the jittered hours lie in [0.9·base, 1.3·base] |
| Heuristic.CoreHours | pointless/core/estimators/heuristic.py:53-76 | the base before the repository sniff lies in [0.9, 7.0] |
| Heuristic.BaseHours | pointless/core/estimators/heuristic.py:53-85 | the base before the jitter lies in [0.9, 9.0] |
| Heuristic.ComplexityOf | pointless/core/estimators/heuristic.py:55-72 | the complexity is SIMPLE, MODERATE or COMPLEX, never TRIVIAL or EXPERT |
| Heuristic.Factors | pointless/core/estimators/heuristic.py:54-85 | at most four factors: description, keyword, urgency and repository |
| Heuristic.ConfidenceOf | pointless/core/estimators/heuristic.py:89-96 | the mapped confidence lies in [0.45, 0.9] |
| Heuristic.Score | pointless/core/estimators/heuristic.py:50-85 | the step-by-step scoring, with its keyword loop and the repository sniff, ends with the closed-form base, complexity and factors |
| Heuristic.Estimate | pointless/core/estimators/heuristic.py:46-114 | `estimate` returns a valid response whose hours are the jittered closed-form base rounded, whose confidence is the fixed value of its complexity and whose reasoning is the fixed sentence |
| Heuristic.ConfidenceRoundsExactly | pointless/core/estimators/heuristic.py:89-96 | every confidence of the map lies in [0, 1] and is unchanged by rounding to hundredths |
| Heuristic.DescriptionLengthEffect | pointless/core/estimators/heuristic.py:57-65 | over 200 characters adds 3.0 and sets COMPLEX; 51–200 adds 1.0 and sets MODERATE unless a keyword makes it COMPLEX; otherwise nothing is added and no factor appears |
| Heuristic.FixedFactorsUnprefixed | pointless/core/estimators/heuristic.py:61-85 | no fixed factor and no repository factor starts like a complex-keyword factor |
| Heuristic.KeywordFactorCount | pointless/core/estimators/heuristic.py:67-72 | exactly one complex-keyword factor appears when a keyword occurs and none otherwise; a keyword adds 3.0 and forces COMPLEX |
| Heuristic.UrgentBeforeRepoBump | pointless/core/estimators/heuristic.py:74-85 | an urgent tag damps only the hours before the sniff by 0.9, the repository bump is added undamped, and the urgent factor precedes the repository factor |
| Heuristic.RepoBumpBounds | pointless/core/estimators/heuristic.py:79-85 | at most 8 hits; no hit means no bump and no factor; otherwise the bump is min(0.3·hits, 2.0) in (0, 2.0], and the factor names the hit count in decimal and the first hit |
| Heuristic.RepoBump | pointless/core/estimators/heuristic.py:81-84 | the repository bump is 0.3 per hit up to six hits, 2.0 from seven on, and zero exactly when there is no hit |
| Heuristic.RepoFactor | pointless/core/estimators/heuristic.py:85 | the repository factor opens with "Found " followed by the decimal digits of the hit count, and ends with the first hit in parentheses |
| Heuristic.SeedOfEmptyTitle | pointless/core/estimators/heuristic.py:14-15 | an empty title is seeded exactly like the title "pointless" |
| Config.LoadSettings | pointless/core/config.py:14-38 | the settings evaluated against an environment: the estimator and the model provider are never empty, and a flag is on only when its variable is set |
| Config.GetEnv | pointless/core/config.py:11-12 | a lookup reads the variable `POINTLESS_<key>` and is missing exactly when that variable is unset |
| Config.EstimatorRule | pointless/core/config.py:16 | the estimator mode is the lower-cased value, or "heuristic" when it is unset or empty; it is never empty |
| Config.ModelProviderRule | pointless/core/config.py:22 | the model provider is the value with its case kept, or "openai" when it is unset or empty |
| Config.FlagRule | pointless/core/config.py:28-35 | a flag is on exactly when its variable is set and lower-cases to "true" |
| Config.Flag | pointless/core/config.py:28-35 | `_getenv(key, "false").lower() == "true"`; `FlagRule` proves it is on exactly when the variable is set and lower-cases to "true" |
| Config.FlagExamples | pointless/core/config.py:28 | "TRUE" and "True" turn a flag on; "1" and "yes" do not |
| Config.SettingsReadOnlyPrefixed | pointless/core/config.py:14-38 | two environments that agree on every `POINTLESS_` variable give the same settings |
| Config.EmptyEnvironmentDefaults | pointless/core/config.py:14-38 | with nothing set, the defaults apply, every optional value is missing and both flags are off |
| AtlassianConnector.NewTicket | pointless/core/connectors/mcp_atlassian.py:18-28 | a ticket built from a key and a summary has empty description, status, priority and issue type |
| AtlassianConnector.ClientFromSettings | pointless/core/connectors/mcp_atlassian.py:34-39 | the client built from the settings is configured exactly when the flag is on and the server URL, token and email are present |
| AtlassianConnector.IsConfigured | pointless/core/connectors/mcp_atlassian.py:41-48 | enabled, with a server URL, a token and an email present, even when empty (its consequences are stated by GetTicket and ClientFromSettings) |
| AtlassianConnector.JiraTicketInfo | pointless/core/connectors/mcp_atlassian.py:113-116 | the convenience lookup finds nothing exactly when the settings' client is unconfigured or the id is empty, and otherwise the ticket keyed by the id |
| AtlassianConnector.GetTicket | pointless/core/connectors/mcp_atlassian.py:41-79 | no ticket when unconfigured or given an empty id; otherwise the placeholder keyed by the id, summarised "Mock ticket for <id>" |
| AtlassianConnector.SearchTickets | pointless/core/connectors/mcp_atlassian.py:81-98 | the search always returns no ticket |
| AtlassianConnector.ConfiguredFromEnvironment | pointless/core/connectors/mcp_atlassian.py:34-48 | the client from the environment is configured exactly when the flag is on and the server URL, token and email variables are set |
| AtlassianConnector.TicketFromEnvironment | pointless/core/connectors/mcp_atlassian.py:113-116 | with nothing set no ticket is retrieved; with the flag on and the three variables set, a non-empty id yields its ticket |
| GitHubConnector.NewRepository | pointless/core/connectors/mcp_github.py:19-31 | a repository built from a name and its full name has the dataclass defaults, branch "main" |
| GitHubConnector.NewFile | pointless/core/connectors/mcp_github.py:34-42 | a file built from a path has empty content and language, size 0 and score 0.0 |
| GitHubConnector.PostInit | pointless/core/connectors/mcp_github.py:45-64 | `__post_init__` turns every missing list into the empty list and keeps every given list and the other fields |
| GitHubConnector.PostInitIdempotent | pointless/core/connectors/mcp_github.py:56-64 | `__post_init__` changes a record exactly when a list is missing, and running it twice is running it once |
| GitHubConnector.ClientFromSettings | pointless/core/connectors/mcp_github.py:70-74 | the client built from the settings is configured exactly when the GitHub flag is on and the server URL and token are present |
| GitHubConnector.IsConfigured | pointless/core/connectors/mcp_github.py:76-82 | enabled, with a server URL and a token present, even when empty (its consequences are stated by GetRepository and ClientFromSettings) |
| GitHubConnector.RepositoryInfo | pointless/core/connectors/mcp_github.py:229-232 | the convenience lookup finds nothing exactly when the settings' client is unconfigured or the owner or name is empty, and otherwise the repository `owner/repo` |
| GitHubConnector.GetRepository | pointless/core/connectors/mcp_github.py:76-114 | no repository when unconfigured or given an empty owner or name; otherwise name = repo, full name = owner/repo, branch "main" |
| GitHubConnector.AnalyzeCodebaseForTask | pointless/core/connectors/mcp_github.py:116-195 | no analysis when unconfigured or when the lookup finds nothing; otherwise the analysis built from the selected categories and the repository indicators |
| GitHubConnector.SearchCode | pointless/core/connectors/mcp_github.py:197-214 | the code search always returns no file |
| GitHubConnector.AnalyzeForEstimation | pointless/core/connectors/mcp_github.py:229-239 | the convenience analysis finds nothing exactly when the repository lookup through the settings' client finds nothing |
| GitHubConnector.SelectedCategoriesThree | pointless/core/connectors/mcp_github.py:148-176 | the categories are tested in the order api/endpoint, database/model, frontend/ui, each contributing at most once |
| GitHubConnector.SelectedCategoriesOrdered | pointless/core/connectors/mcp_github.py:148-176 | the selected categories are categories the task mentions, and every mentioned category is selected |
| GitHubConnector.AnalysisShape | pointless/core/connectors/mcp_github.py:141-190 | as many patterns as files (at most three); total files = 10·files; the category indicators come first and the size and issue indicators after them; the i-th file, indicator and pattern come from one mentioned category |
| GitHubConnector.RepositoryIndicators | pointless/core/connectors/mcp_github.py:179-182 | the size indicator is present exactly when the size exceeds 5000 KB and the issue indicator exactly when there are more than 10 open issues |
| GitHubConnector.AnalysisFor | pointless/core/connectors/mcp_github.py:141-190 | the analysis of a found repository keeps that repository and has every list present; `AnalysisShape` proves how the lists relate |
| GitHubConnector.CategoryFileIff | pointless/core/connectors/mcp_github.py:148-176 | a category's file is among the relevant files exactly when the lower-cased task mentions one of its two words |
| GitHubConnector.UnrelatedTask | pointless/core/connectors/mcp_github.py:141-190 | a task mentioning none of the six words yields no file and no pattern, only the repository indicators, and zero total files |
| GitHubConnector.PlaceholderRepositoryIndicators | pointless/core/connectors/mcp_github.py:100-110 | the placeholder repository (1024 KB, 3 open issues) never adds a size or issue indicator |
| GitHubConnector.ConfiguredFromEnvironment | pointless/core/connectors/mcp_github.py:67-82 | the client from the environment is configured exactly when the GitHub flag is on and the URL and token variables are set; with nothing set no repository is found |

## Left out

- Numbers.RoundTenths: `round(x, 1)` is modelled as half-up rounding of an exact real, not as Python's rounding of a binary double. The result is only certain to lie within 0.05 of x, and the same holds for Numbers.RoundHundredths.
- Numbers.FormatTenths: `:.1f` is rendered from the same half-up rounding, with nothing Python-specific about binary doubles.
- Text.Lower: `str.lower()` maps only ASCII letters, because Unicode case tables are out of scope.
- Heuristic.Jitter: SHA-256 of the title, the `% 2**32` seed and Python's Mersenne Twister are abstracted as a function from the seed text to a unit draw. The model states only that the same title gives the same draw and that the multiplier lies in [0.9, 1.3].
- LegacyEstimate.EstimateEffort: the unseeded `random.uniform` draws are parameters constrained to their ranges, because randomness is not modelled.
- Heuristic.FindRelevantFiles: `os.walk`, `os.path.isdir`, `os.path.join` and `os.path.relpath` are given as a `DirectoryView`. A view is a directory flag and the walk's paths, relative to the root, grouped by directory. The filesystem is not modelled.
- The `limit ≤ 0` case of `_find_relevant_files` is modelled as written: the check follows the append, so one hit is still returned. The only call passes `limit=8`; 10 is the default of the parameter.
- Logging is not modelled: the `logger.info` and `log.info` calls of the estimators (pointless/core/estimate.py:24 and 112, pointless/core/estimators/heuristic.py:104) and the connectors' logging have no effect on any result. `asyncio.sleep` and the `try/except Exception` blocks of the connectors are not modelled either; no exception can arise in the placeholder bodies. The global client singletons are replaced by building the client from the settings.
- The client timeouts and the `MAX_FILES`, `CONFIDENCE_THRESHOLD`, `MCP_TIMEOUT` and `MCP_GITHUB_TIMEOUT` settings are not modelled, because they are parsed with `int()` or `float()` and used nowhere in the core. Loading a `.env` file is not modelled either.
- `max_files` of `analyze_codebase_for_task` is accepted and unused, as in the source.
- `HealthResponse` and the HTTP and command-line interfaces (`pointless/interfaces/api.py` and `pointless/interfaces/cli.py`) are not part of this model.
- The enrichment pipeline, with asynchronous estimation and ticket and repository data merged into the response, does not exist in the modelled estimator or records. It is not part of this model.
- The default value of `factors` in a response is not modelled, because both estimators always pass their factor list.
