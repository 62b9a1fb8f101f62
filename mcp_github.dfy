/** The GitHub connector of `connectors/mcp_github.py`: a client built from the settings
    that hands out a placeholder repository and a keyword-driven placeholder analysis
    once it is configured. */
module GitHubConnector {
  import opened Wrappers
  import opened Text
  import Config

  datatype GitHubRepository = GitHubRepository(
    name: string, fullName: string, description: string, language: string,
    size: int, stars: int, forks: int, openIssues: int, defaultBranch: string)

  /** `GitHubRepository(name, full_name)` with the dataclass defaults. */
  function NewRepository(name: string, fullName: string): (r: GitHubRepository)
    ensures r.name == name && r.fullName == fullName
    ensures r.description == "" && r.language == "" && r.defaultBranch == "main"
    ensures r.size == 0 && r.stars == 0 && r.forks == 0 && r.openIssues == 0
  {
    GitHubRepository(name, fullName, "", "", 0, 0, 0, 0, "main")
  }

  datatype GitHubFile = GitHubFile(
    path: string, content: string, size: int, language: string, complexityScore: real)

  /** `GitHubFile(path)` with the dataclass defaults. */
  function NewFile(path: string): (f: GitHubFile)
    ensures f.path == path && f.content == "" && f.size == 0 && f.language == "" &&
      f.complexityScore == 0.0
  {
    GitHubFile(path, "", 0, "", 0.0)
  }

  /** The analysis record; its list fields may be `None` until `__post_init__` runs. */
  datatype GitHubCodebaseAnalysis = GitHubCodebaseAnalysis(
    repository: GitHubRepository,
    totalFiles: int,
    languages: Option<seq<string>>,
    complexityIndicators: Option<seq<string>>,
    relevantFiles: Option<seq<GitHubFile>>,
    architecturePatterns: Option<seq<string>>)

  predicate ListsPresent(a: GitHubCodebaseAnalysis) {
    a.languages.Some? && a.complexityIndicators.Some? && a.relevantFiles.Some? &&
    a.architecturePatterns.Some?
  }

  /** `__post_init__`: every missing list becomes the empty list; lists that are given
      and the other fields are kept. */
  function PostInit(a: GitHubCodebaseAnalysis): (b: GitHubCodebaseAnalysis)
    ensures ListsPresent(b)
    ensures b.repository == a.repository && b.totalFiles == a.totalFiles
    ensures b.languages.value == a.languages.GetOr([])
    ensures b.complexityIndicators.value == a.complexityIndicators.GetOr([])
    ensures b.relevantFiles.value == a.relevantFiles.GetOr([])
    ensures b.architecturePatterns.value == a.architecturePatterns.GetOr([])
  {
    var languages := if a.languages.None? then Some([]) else a.languages;
    var indicators := if a.complexityIndicators.None? then Some([]) else a.complexityIndicators;
    var files := if a.relevantFiles.None? then Some([]) else a.relevantFiles;
    var patterns := if a.architecturePatterns.None? then Some([]) else a.architecturePatterns;
    a.(languages := languages, complexityIndicators := indicators,
       relevantFiles := files, architecturePatterns := patterns)
  }

  /** Running `__post_init__` on a record whose lists are all present changes nothing. */
  lemma PostInitIdempotent(a: GitHubCodebaseAnalysis)
    ensures ListsPresent(a) <==> PostInit(a) == a
    ensures PostInit(PostInit(a)) == PostInit(a)
  {
  }

  /** The client's connection settings (the timeout is not modelled). */
  datatype GitHubClient = GitHubClient(serverUrl: Option<string>, token: Option<string>, enabled: bool)

  /** `MCPGitHubClient()`: the values are copied from the settings. */
  function ClientFromSettings(s: Config.Settings): (c: GitHubClient)
    ensures IsConfigured(c) <==> s.mcpGithubEnabled && s.mcpGithubServerUrl.Some? && s.mcpGithubToken.Some?
  {
    GitHubClient(s.mcpGithubServerUrl, s.mcpGithubToken, s.mcpGithubEnabled)
  }

  /** `is_configured`: enabled, with a server URL and a token present (an empty value
      counts as present). */
  predicate IsConfigured(c: GitHubClient) {
    c.enabled && c.serverUrl.Some? && c.token.Some?
  }

  /** `get_repository`: nothing when unconfigured or when the owner or the repository
      name is empty; else the placeholder repository `owner/repo`. */
  function GetRepository(c: GitHubClient, owner: string, repo: string): (r: Option<GitHubRepository>)
    ensures r.None? <==> !IsConfigured(c) || owner == "" || repo == ""
    ensures r.Some? ==>
      (r.value.name == repo && r.value.fullName == owner + "/" + repo &&
       r.value.defaultBranch == "main" && r.value.size == 1024 && r.value.openIssues == 3)
  {
    if !IsConfigured(c) then None
    else if owner == "" || repo == "" then None
    else Some(GitHubRepository(
      name := repo,
      fullName := owner + "/" + repo,
      description := "Mock repository for " + owner + "/" + repo,
      language := "Python",
      size := 1024,
      stars := 42,
      forks := 7,
      openIssues := 3,
      defaultBranch := "main"))
  }

  /** One keyword category of the analysis: the two words that select it, and the file,
      complexity indicator and architecture pattern it contributes. */
  datatype Category = Category(first: string, second: string, file: GitHubFile,
                               indicator: string, pattern: string)

  const ApiCategory := Category("api", "endpoint",
    GitHubFile("src/api/routes.py", "", 500, "Python", 0.6),
    "REST API endpoints present", "REST API architecture")
  const DatabaseCategory := Category("database", "model",
    GitHubFile("src/models/user.py", "", 300, "Python", 0.4),
    "Database models present", "ORM pattern")
  const FrontendCategory := Category("frontend", "ui",
    GitHubFile("frontend/src/components/App.tsx", "", 800, "TypeScript", 0.7),
    "React components with TypeScript", "Component-based frontend")

  /** The categories, in the order they are tested. */
  const Categories: seq<Category> := [ApiCategory, DatabaseCategory, FrontendCategory]

  const LargeCodebaseIndicator := "Large codebase (>5MB)"
  const HighIssueIndicator := "High issue count indicates complexity"
  const AnalysisLanguages: seq<string> := ["Python", "TypeScript", "JavaScript"]

  /** The lower-cased task mentions one of the category's words. */
  predicate Selects(cat: Category, taskLower: string) {
    Contains(taskLower, cat.first) || Contains(taskLower, cat.second)
  }

  /** The categories the task selects, in test order. */
  function SelectedCategories(cats: seq<Category>, taskLower: string): seq<Category> {
    if cats == [] then []
    else (if Selects(cats[0], taskLower) then [cats[0]] else []) + SelectedCategories(cats[1..], taskLower)
  }

  function FilesOf(cats: seq<Category>): seq<GitHubFile> {
    seq(|cats|, i requires 0 <= i < |cats| => cats[i].file)
  }

  function IndicatorsOf(cats: seq<Category>): seq<string> {
    seq(|cats|, i requires 0 <= i < |cats| => cats[i].indicator)
  }

  function PatternsOf(cats: seq<Category>): seq<string> {
    seq(|cats|, i requires 0 <= i < |cats| => cats[i].pattern)
  }

  /** The indicators drawn from the repository itself, after the category ones. */
  function RepositoryIndicators(repository: GitHubRepository): (r: seq<string>)
    ensures |r| <= 2
    ensures LargeCodebaseIndicator in r <==> repository.size > 5000
    ensures HighIssueIndicator in r <==> repository.openIssues > 10
  {
    (if repository.size > 5000 then [LargeCodebaseIndicator] else []) +
    (if repository.openIssues > 10 then [HighIssueIndicator] else [])
  }

  /** The analysis of `analyze_codebase_for_task` for a repository the lookup found. */
  function AnalysisFor(repository: GitHubRepository, taskDescription: string): (a: GitHubCodebaseAnalysis)
    ensures a.repository == repository && ListsPresent(a)
  {
    var cats := SelectedCategories(Categories, Lower(taskDescription));
    PostInit(GitHubCodebaseAnalysis(
      repository,
      |cats| * 10,
      Some(AnalysisLanguages),
      Some(IndicatorsOf(cats) + RepositoryIndicators(repository)),
      Some(FilesOf(cats)),
      Some(PatternsOf(cats))))
  }

  /** `analyze_codebase_for_task`: nothing when unconfigured or when the repository lookup
      finds nothing; else the lists built by testing each category in turn and then the
      repository's size and issue count. */
  method AnalyzeCodebaseForTask(c: GitHubClient, owner: string, repo: string,
                                taskDescription: string, maxFiles: int)
    returns (r: Option<GitHubCodebaseAnalysis>)
    ensures r.None? <==> !IsConfigured(c) || GetRepository(c, owner, repo).None?
    ensures r.Some? ==> r.value == AnalysisFor(GetRepository(c, owner, repo).value, taskDescription)
  {
    if !IsConfigured(c) {
      return None;
    }
    var found := GetRepository(c, owner, repo);
    if found.None? {
      return None;
    }
    var repository := found.value;
    var taskLower := Lower(taskDescription);

    var relevantFiles: seq<GitHubFile> := [];
    var complexityIndicators: seq<string> := [];
    var architecturePatterns: seq<string> := [];

    ghost var cats: seq<Category> := [];
    if Contains(taskLower, "api") || Contains(taskLower, "endpoint") {
      relevantFiles := relevantFiles + [GitHubFile("src/api/routes.py", "", 500, "Python", 0.6)];
      complexityIndicators := complexityIndicators + ["REST API endpoints present"];
      architecturePatterns := architecturePatterns + ["REST API architecture"];
      CategoryAppended(cats, ApiCategory);
      cats := cats + [ApiCategory];
    }
    ghost var afterApi := cats;
    assert relevantFiles == FilesOf(cats) && complexityIndicators == IndicatorsOf(cats) &&
      architecturePatterns == PatternsOf(cats);
    if Contains(taskLower, "database") || Contains(taskLower, "model") {
      relevantFiles := relevantFiles + [GitHubFile("src/models/user.py", "", 300, "Python", 0.4)];
      complexityIndicators := complexityIndicators + ["Database models present"];
      architecturePatterns := architecturePatterns + ["ORM pattern"];
      CategoryAppended(cats, DatabaseCategory);
      cats := cats + [DatabaseCategory];
    }
    ghost var afterDatabase := cats;
    assert relevantFiles == FilesOf(cats) && complexityIndicators == IndicatorsOf(cats) &&
      architecturePatterns == PatternsOf(cats);
    if Contains(taskLower, "frontend") || Contains(taskLower, "ui") {
      relevantFiles := relevantFiles + [GitHubFile("frontend/src/components/App.tsx", "", 800, "TypeScript", 0.7)];
      complexityIndicators := complexityIndicators + ["React components with TypeScript"];
      architecturePatterns := architecturePatterns + ["Component-based frontend"];
      CategoryAppended(cats, FrontendCategory);
      cats := cats + [FrontendCategory];
    }
    assert relevantFiles == FilesOf(cats) && complexityIndicators == IndicatorsOf(cats) &&
      architecturePatterns == PatternsOf(cats);
    SelectedCategoriesThree(taskLower);
    assert afterApi == (if Selects(ApiCategory, taskLower) then [ApiCategory] else []);
    assert afterDatabase == afterApi + (if Selects(DatabaseCategory, taskLower) then [DatabaseCategory] else []);
    assert cats == afterDatabase + (if Selects(FrontendCategory, taskLower) then [FrontendCategory] else []);
    assert cats == SelectedCategories(Categories, taskLower);

    if repository.size > 5000 {
      complexityIndicators := complexityIndicators + [LargeCodebaseIndicator];
    }
    if repository.openIssues > 10 {
      complexityIndicators := complexityIndicators + [HighIssueIndicator];
    }

    assert |relevantFiles| == |cats|;
    assert complexityIndicators == IndicatorsOf(cats) + RepositoryIndicators(repository);
    r := Some(PostInit(GitHubCodebaseAnalysis(
      repository := repository,
      totalFiles := |relevantFiles| * 10,
      languages := Some(AnalysisLanguages),
      complexityIndicators := Some(complexityIndicators),
      relevantFiles := Some(relevantFiles),
      architecturePatterns := Some(architecturePatterns))));
  }

  /** The selection over the three categories, written out. */
  lemma SelectedCategoriesThree(taskLower: string)
    ensures SelectedCategories(Categories, taskLower) ==
      (if Selects(ApiCategory, taskLower) then [ApiCategory] else []) +
      (if Selects(DatabaseCategory, taskLower) then [DatabaseCategory] else []) +
      (if Selects(FrontendCategory, taskLower) then [FrontendCategory] else [])
  {
    var t := taskLower;
    assert [DatabaseCategory, FrontendCategory][1..] == [FrontendCategory];
    assert [FrontendCategory][1..] == [];
    assert Categories[1..] == [DatabaseCategory, FrontendCategory];
    assert SelectedCategories([FrontendCategory], t) ==
      (if Selects(FrontendCategory, t) then [FrontendCategory] else []) + SelectedCategories([], t);
    assert SelectedCategories([DatabaseCategory, FrontendCategory], t) ==
      (if Selects(DatabaseCategory, t) then [DatabaseCategory] else []) +
      SelectedCategories([FrontendCategory], t);
  }

  /** Adding a category adds its file, indicator and pattern at the end. */
  lemma CategoryAppended(cats: seq<Category>, cat: Category)
    ensures FilesOf(cats + [cat]) == FilesOf(cats) + [cat.file]
    ensures IndicatorsOf(cats + [cat]) == IndicatorsOf(cats) + [cat.indicator]
    ensures PatternsOf(cats + [cat]) == PatternsOf(cats) + [cat.pattern]
  {
  }

  /** `search_code`: no file is ever found, configured or not. */
  function SearchCode(c: GitHubClient, query: string, owner: Option<string>, repo: Option<string>,
                      maxResults: int): (r: seq<GitHubFile>)
    ensures r == []
  {
    []
  }

  /** `get_github_repository_info`: the lookup through the client built from the settings. */
  function RepositoryInfo(s: Config.Settings, owner: string, repo: string): (r: Option<GitHubRepository>)
    ensures r.None? <==> !IsConfigured(ClientFromSettings(s)) || owner == "" || repo == ""
    ensures r.Some? ==> r.value.fullName == owner + "/" + repo
  {
    GetRepository(ClientFromSettings(s), owner, repo)
  }

  /** `analyze_github_codebase_for_estimation`: the analysis through the client built from
      the settings, with the default `max_files`. */
  method AnalyzeForEstimation(s: Config.Settings, owner: string, repo: string, taskDescription: string)
    returns (r: Option<GitHubCodebaseAnalysis>)
    ensures r.None? <==> RepositoryInfo(s, owner, repo).None?
    ensures r.Some? ==> r.value == AnalysisFor(RepositoryInfo(s, owner, repo).value, taskDescription)
  {
    r := AnalyzeCodebaseForTask(ClientFromSettings(s), owner, repo, taskDescription, 20);
  }

  // ----- Properties of the analysis -----

  /** Every selected category is one the task mentions, and every category the task
      mentions is selected (`SelectedCategoriesThree` spells out the order). */
  lemma {:induction false} SelectedCategoriesOrdered(cats: seq<Category>, taskLower: string)
    ensures |SelectedCategories(cats, taskLower)| <= |cats|
    ensures forall i :: 0 <= i < |SelectedCategories(cats, taskLower)| ==>
      SelectedCategories(cats, taskLower)[i] in cats &&
      Selects(SelectedCategories(cats, taskLower)[i], taskLower)
    ensures forall cat :: cat in cats && Selects(cat, taskLower) ==> cat in SelectedCategories(cats, taskLower)
  {
    if cats != [] {
      SelectedCategoriesOrdered(cats[1..], taskLower);
      var head := if Selects(cats[0], taskLower) then [cats[0]] else [];
      var rest := SelectedCategories(cats[1..], taskLower);
      assert SelectedCategories(cats, taskLower) == head + rest;
      forall i | 0 <= i < |head + rest|
        ensures (head + rest)[i] in cats && Selects((head + rest)[i], taskLower)
      {
        if i >= |head| {
          assert (head + rest)[i] == rest[i - |head|];
        }
      }
      forall cat | cat in cats && Selects(cat, taskLower) ensures cat in head + rest {
        if cat != cats[0] {
          assert cat in cats[1..];
        }
      }
    }
  }

  /** The file, indicator and pattern are the contribution of one category the task
      mentions. */
  predicate FromMentionedCategory(file: GitHubFile, indicator: string, pattern: string, taskLower: string) {
    exists cat :: cat in Categories && Selects(cat, taskLower) &&
      file == cat.file && indicator == cat.indicator && pattern == cat.pattern
  }

  /** The list lengths agree: one file and one pattern per selected category, ten
      counted files per relevant file, and the category indicators come first, the
      size and issue indicators after them. */
  lemma AnalysisShape(repository: GitHubRepository, taskDescription: string, a: GitHubCodebaseAnalysis)
    requires a == AnalysisFor(repository, taskDescription)
    ensures |a.architecturePatterns.value| == |a.relevantFiles.value| <= 3
    ensures a.totalFiles == 10 * |a.relevantFiles.value|
    ensures a.languages.value == AnalysisLanguages
    ensures |a.complexityIndicators.value| == |a.relevantFiles.value| + |RepositoryIndicators(repository)|
    ensures a.complexityIndicators.value[|a.relevantFiles.value|..] == RepositoryIndicators(repository)
    ensures forall i :: 0 <= i < |a.relevantFiles.value| ==>
      FromMentionedCategory(a.relevantFiles.value[i], a.complexityIndicators.value[i],
                            a.architecturePatterns.value[i], Lower(taskDescription))
  {
    var t := Lower(taskDescription);
    var cats := SelectedCategories(Categories, t);
    SelectedCategoriesOrdered(Categories, t);
    var files := a.relevantFiles.value;
    var indicators := a.complexityIndicators.value;
    assert |Categories| == 3;
    assert a.totalFiles == |cats| * 10;
    assert files == FilesOf(cats) && |files| == |cats|;
    assert a.architecturePatterns.value == PatternsOf(cats);
    assert indicators == IndicatorsOf(cats) + RepositoryIndicators(repository);
    assert indicators[|files|..] == RepositoryIndicators(repository);
    forall i | 0 <= i < |a.relevantFiles.value|
      ensures FromMentionedCategory(a.relevantFiles.value[i], a.complexityIndicators.value[i],
                                    a.architecturePatterns.value[i], t)
    {
      var cat := cats[i];
      assert cat in Categories && Selects(cat, t);
      assert files[i] == cat.file && indicators[i] == cat.indicator;
    }
  }

  /** A category's file is among the relevant files exactly when the lower-cased task
      mentions one of the category's words. */
  lemma CategoryFileIff(repository: GitHubRepository, taskDescription: string, cat: Category)
    requires cat in Categories
    ensures cat.file in AnalysisFor(repository, taskDescription).relevantFiles.value <==>
      Selects(cat, Lower(taskDescription))
  {
    var t := Lower(taskDescription);
    var cats := SelectedCategories(Categories, t);
    SelectedCategoriesOrdered(Categories, t);
    var files := AnalysisFor(repository, taskDescription).relevantFiles.value;
    assert files == FilesOf(cats);
    assert ApiCategory.file.path[4] != DatabaseCategory.file.path[4];
    assert ApiCategory.file.path[0] != FrontendCategory.file.path[0];
    assert DatabaseCategory.file.path[0] != FrontendCategory.file.path[0];
    if cat.file in files {
      var i :| 0 <= i < |files| && files[i] == cat.file;
      assert cats[i] in Categories && cats[i].file == cat.file;
      assert cats[i] == cat;
    }
    if Selects(cat, t) {
      var i :| 0 <= i < |cats| && cats[i] == cat;
      assert files[i] == cat.file;
    }
  }

  /** A task that mentions none of the six words yields no file, pattern or category
      indicator, and a total file count of zero. */
  lemma UnrelatedTask(repository: GitHubRepository, taskDescription: string)
    requires forall cat :: cat in Categories ==> !Selects(cat, Lower(taskDescription))
    ensures AnalysisFor(repository, taskDescription).relevantFiles.value == []
    ensures AnalysisFor(repository, taskDescription).architecturePatterns.value == []
    ensures AnalysisFor(repository, taskDescription).complexityIndicators.value == RepositoryIndicators(repository)
    ensures AnalysisFor(repository, taskDescription).totalFiles == 0
  {
    SelectedCategoriesThree(Lower(taskDescription));
  }

  /** The placeholder repository (1024 KB, 3 open issues) never adds a size or an issue
      indicator: every indicator of an analysis comes with a relevant file. */
  lemma PlaceholderRepositoryIndicators(c: GitHubClient, owner: string, repo: string, taskDescription: string)
    requires GetRepository(c, owner, repo).Some?
    ensures var a := AnalysisFor(GetRepository(c, owner, repo).value, taskDescription);
      a.complexityIndicators.value == IndicatorsOf(SelectedCategories(Categories, Lower(taskDescription))) &&
      |a.complexityIndicators.value| == |a.relevantFiles.value|
  {
    var repository := GetRepository(c, owner, repo).value;
    assert RepositoryIndicators(repository) == [];
  }

  /** A client from the environment is configured exactly when `MCP_GITHUB_ENABLED` is on
      and the server URL and token variables are set; with nothing set, no repository is
      found. */
  lemma ConfiguredFromEnvironment(env: Config.Env, owner: string, repo: string)
    ensures IsConfigured(ClientFromSettings(Config.LoadSettings(env))) <==>
      Config.Flag(env, "MCP_GITHUB_ENABLED") &&
      Config.Prefix + "MCP_GITHUB_SERVER_URL" in env &&
      Config.Prefix + "MCP_GITHUB_TOKEN" in env
    ensures RepositoryInfo(Config.LoadSettings(map[]), owner, repo).None?
  {
    Config.EmptyEnvironmentDefaults();
  }
}
