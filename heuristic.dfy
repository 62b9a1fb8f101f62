/** The heuristic scorer of `estimators/heuristic.py`. It starts from 1.0 hour and SIMPLE
    and has no title step, no simple keyword and no context bonus. In order:
    - a description over 200 characters adds 3.0 and makes the task COMPLEX; one of 51
      to 200 characters adds 1.0 and makes it MODERATE;
    - the first complex keyword adds 3.0 and makes the task COMPLEX;
    - an urgent tag multiplies the base by 0.9;
    - a sniff of the local repository for file names that mention words of the task
      (at most 8 hits) adds min(0.3 per hit, 2.0);
    - a title-seeded jitter in [0.9, 1.3] multiplies the base.
    The confidence is a fixed value per complexity and the reasoning a fixed sentence. */
module Heuristic {
  import opened Wrappers
  import opened Text
  import opened Numbers
  import opened Models
  import LegacyEstimate

  // ----- The file-name sniffer, `_find_relevant_files` -----

  /** The words looked for in the task text. */
  const SniffVocabulary: seq<string> := ["client", "api", "monitor", "domain", "get", "list", "method"]

  /** What the filesystem shows at a root: whether it is a directory (`os.path.isdir`)
      and, when it is, the files of each directory `os.walk` visits, in walk order,
      as paths relative to the root (`os.path.relpath`). */
  datatype DirectoryView = DirectoryView(isDir: bool, walk: seq<seq<string>>)

  /** The vocabulary words that occur in the lower-cased text. The ensures restates the
      comprehension; what the sniffer promises with them is proved by
      `RelevantFilesEmpty`, `RelevantFilesSound`, `RelevantFilesBound` and `StoppedEarly`. */
  function FoundKeywords(text: string): (kws: set<string>)
    ensures forall w :: w in kws <==> w in SniffVocabulary && Contains(text, w)
  {
    set w | w in SniffVocabulary && Contains(text, w)
  }

  /** `any(kw in rel.lower() for kw in kws)`. */
  predicate PathMatches(rel: string, kws: set<string>) {
    exists kw :: kw in kws && Contains(Lower(rel), kw)
  }

  /** The walk's paths, directory after directory. */
  function Flatten(walk: seq<seq<string>>): seq<string> {
    if walk == [] then [] else Flatten(walk[..|walk| - 1]) + walk[|walk| - 1]
  }

  /** The paths that match, in the order given. */
  function MatchingPaths(paths: seq<string>, kws: set<string>): seq<string> {
    if paths == [] then []
    else
      var last := paths[|paths| - 1];
      MatchingPaths(paths[..|paths| - 1], kws) + (if PathMatches(last, kws) then [last] else [])
  }

  /** The first `n` elements of `xs`, or all of them when there are fewer. */
  function Take<T>(xs: seq<T>, n: nat): (r: seq<T>)
    ensures r <= xs && |r| == (if |xs| <= n then |xs| else n)
  {
    if |xs| <= n then xs else xs[..n]
  }

  /** The number of hits at which the scan stops: `limit`, except that the test comes
      after the first hit has been added, so a limit below one still stops at one. The
      ensures restate the body; the bound it sets is proved by `RelevantFilesBound` and
      `StoppedEarly`. */
  function StopCount(limit: int): (n: nat)
    ensures n >= 1 && (limit >= 1 ==> n == limit)
    ensures limit < 1 ==> n == 1
  {
    if limit < 1 then 1 else limit
  }

  /** The result of `_find_relevant_files`: nothing for an empty root, a root that is
      not a directory or a text with no vocabulary word; else the matching paths of
      the walk, up to the stop count. */
  function RelevantFiles(root: string, text: string, limit: int, view: DirectoryView): (r: seq<string>)
    ensures |r| <= StopCount(limit)
    ensures root == "" || !view.isDir ==> r == []
  {
    if root == "" || !view.isDir then []
    else
      var kws := FoundKeywords(Lower(text));
      if kws == {} then [] else Take(MatchingPaths(Flatten(view.walk), kws), StopCount(limit))
  }

  /** Filtering distributes over concatenation. */
  lemma {:induction false} MatchingPathsAppend(a: seq<string>, b: seq<string>, kws: set<string>)
    ensures MatchingPaths(a + b, kws) == MatchingPaths(a, kws) + MatchingPaths(b, kws)
    decreases |b|
  {
    if b == [] {
      assert a + b == a;
    } else {
      var b' := b[..|b| - 1];
      assert (a + b)[..|a + b| - 1] == a + b';
      MatchingPathsAppend(a, b', kws);
    }
  }

  lemma FlattenStep(walk: seq<seq<string>>, d: nat)
    requires d < |walk|
    ensures Flatten(walk[..d + 1]) == Flatten(walk[..d]) + walk[d]
  {
    assert walk[..d + 1][..d] == walk[..d];
  }

  /** `xs` is a subsequence of `ys`: its elements occur in `ys` in the same order. */
  ghost predicate Subsequence<T>(xs: seq<T>, ys: seq<T>)
    decreases |ys|
  {
    xs == [] ||
    (ys != [] &&
     ((xs[|xs| - 1] == ys[|ys| - 1] && Subsequence(xs[..|xs| - 1], ys[..|ys| - 1])) ||
      Subsequence(xs, ys[..|ys| - 1])))
  }

  lemma {:induction false} MatchingPathsSubsequence(paths: seq<string>, kws: set<string>)
    ensures Subsequence(MatchingPaths(paths, kws), paths)
    decreases |paths|
  {
    if paths != [] {
      var init := paths[..|paths| - 1];
      MatchingPathsSubsequence(init, kws);
      var m := MatchingPaths(paths, kws);
      if PathMatches(paths[|paths| - 1], kws) {
        assert m[..|m| - 1] == MatchingPaths(init, kws) && m[|m| - 1] == paths[|paths| - 1];
      } else {
        assert m == MatchingPaths(init, kws);
      }
    }
  }

  lemma {:induction false} SubsequenceDropLast<T>(xs: seq<T>, ys: seq<T>)
    requires xs != [] && Subsequence(xs, ys)
    ensures Subsequence(xs[..|xs| - 1], ys)
    decreases |ys|
  {
    var init := ys[..|ys| - 1];
    if xs[|xs| - 1] == ys[|ys| - 1] && Subsequence(xs[..|xs| - 1], init) {
    } else {
      SubsequenceDropLast(xs, init);
    }
  }

  lemma {:induction false} SubsequencePrefix<T>(xs: seq<T>, ys: seq<T>, n: nat)
    requires n <= |xs| && Subsequence(xs, ys)
    ensures Subsequence(xs[..n], ys)
    decreases |xs| - n
  {
    if n < |xs| {
      SubsequenceDropLast(xs, ys);
      SubsequencePrefix(xs[..|xs| - 1], ys, n);
      assert xs[..|xs| - 1][..n] == xs[..n];
    } else {
      assert xs[..n] == xs;
    }
  }

  /** Each hit occurs among the walked paths. */
  lemma SubsequenceElements<T>(xs: seq<T>, ys: seq<T>, x: T)
    requires Subsequence(xs, ys) && x in xs
    ensures x in ys
    decreases |ys|
  {
    var init := ys[..|ys| - 1];
    if xs[|xs| - 1] == ys[|ys| - 1] && Subsequence(xs[..|xs| - 1], init) {
      if x != xs[|xs| - 1] {
        assert x in xs[..|xs| - 1] by {
          var i :| 0 <= i < |xs| && xs[i] == x;
          assert xs[..|xs| - 1][i] == x;
        }
        SubsequenceElements(xs[..|xs| - 1], init, x);
      }
    } else {
      SubsequenceElements(xs, init, x);
    }
  }

  lemma {:induction false} MatchingPathsSound(paths: seq<string>, kws: set<string>, i: nat)
    requires i < |MatchingPaths(paths, kws)|
    ensures PathMatches(MatchingPaths(paths, kws)[i], kws)
    decreases |paths|
  {
    var init := paths[..|paths| - 1];
    if i < |MatchingPaths(init, kws)| {
      MatchingPathsSound(init, kws, i);
    }
  }

  /** `_find_relevant_files`: the keyword set of the lower-cased text, then a walk over
      the directories and their files that appends every matching path and returns
      as soon as the stop count is reached. */
  method FindRelevantFiles(root: string, text: string, limit: int, view: DirectoryView)
    returns (hits: seq<string>)
    ensures hits == RelevantFiles(root, text, limit, view)
  {
    if root == "" || !view.isDir {
      return [];
    }
    var lowered := Lower(text);
    var kws := FoundKeywords(lowered);
    if kws == {} {
      return [];
    }
    var stop := StopCount(limit);
    hits := [];
    var d := 0;
    while d < |view.walk|
      invariant 0 <= d <= |view.walk|
      invariant hits == MatchingPaths(Flatten(view.walk[..d]), kws) && |hits| < stop
    {
      var filenames := view.walk[d];
      ghost var flat := Flatten(view.walk[..d]);
      var f := 0;
      assert flat + filenames[..f] == flat;
      while f < |filenames|
        invariant 0 <= f <= |filenames|
        invariant hits == MatchingPaths(flat + filenames[..f], kws)
        invariant |hits| < stop
      {
        var rel := filenames[f];
        MatchingPathsStep(flat, filenames, f, kws);
        if PathMatches(rel, kws) {
          hits := hits + [rel];
          if |hits| >= stop {
            StoppedEarly(root, text, limit, view, d, f + 1, hits);
            return hits;
          }
        }
        f := f + 1;
      }
      assert filenames[..f] == filenames;
      FlattenStep(view.walk, d);
      d := d + 1;
    }
    WalkedToEnd(root, text, limit, view, hits);
  }

  /** The early return: once the hits of a partial walk reach the stop count, they are
      the result. */
  lemma StoppedEarly(root: string, text: string, limit: int, view: DirectoryView, d: nat, f: nat,
                     hits: seq<string>)
    requires root != "" && view.isDir && FoundKeywords(Lower(text)) != {}
    requires d < |view.walk| && f <= |view.walk[d]|
    requires hits == MatchingPaths(Flatten(view.walk[..d]) + view.walk[d][..f], FoundKeywords(Lower(text)))
    requires |hits| == StopCount(limit)
    ensures hits == RelevantFiles(root, text, limit, view)
  {
    AllHitsFollow(view.walk, d, f, FoundKeywords(Lower(text)));
  }

  /** The walk ran out before the stop count was reached: every match is the result. */
  lemma WalkedToEnd(root: string, text: string, limit: int, view: DirectoryView, hits: seq<string>)
    requires root != "" && view.isDir && FoundKeywords(Lower(text)) != {}
    requires hits == MatchingPaths(Flatten(view.walk[..|view.walk|]), FoundKeywords(Lower(text)))
    requires |hits| < StopCount(limit)
    ensures hits == RelevantFiles(root, text, limit, view)
  {
    assert view.walk[..|view.walk|] == view.walk;
  }

  /** Scanning one more file of a directory appends it when it matches. */
  lemma MatchingPathsStep(flat: seq<string>, filenames: seq<string>, f: nat, kws: set<string>)
    requires f < |filenames|
    ensures MatchingPaths(flat + filenames[..f + 1], kws) ==
      MatchingPaths(flat + filenames[..f], kws) + (if PathMatches(filenames[f], kws) then [filenames[f]] else [])
  {
    var after := flat + filenames[..f + 1];
    assert after[..|after| - 1] == flat + filenames[..f];
  }

  /** The hits of a partial walk come first among the hits of the whole walk. */
  lemma AllHitsFollow(walk: seq<seq<string>>, d: nat, f: nat, kws: set<string>)
    requires d < |walk| && f <= |walk[d]|
    ensures MatchingPaths(Flatten(walk[..d]) + walk[d][..f], kws) <= MatchingPaths(Flatten(walk), kws)
  {
    var rest := walk[d][f..] + Flatten(walk[d + 1..]);
    FlattenSplit(walk, d);
    assert walk[d] == walk[d][..f] + walk[d][f..];
    assert Flatten(walk) == (Flatten(walk[..d]) + walk[d][..f]) + rest;
    MatchingPathsAppend(Flatten(walk[..d]) + walk[d][..f], rest, kws);
  }

  lemma {:induction false} FlattenAppend(a: seq<seq<string>>, b: seq<seq<string>>)
    ensures Flatten(a + b) == Flatten(a) + Flatten(b)
    decreases |b|
  {
    if b == [] {
      assert a + b == a;
    } else {
      var b' := b[..|b| - 1];
      assert (a + b)[..|a + b| - 1] == a + b';
      FlattenAppend(a, b');
    }
  }

  lemma FlattenSplit(walk: seq<seq<string>>, d: nat)
    requires d < |walk|
    ensures Flatten(walk) == Flatten(walk[..d]) + walk[d] + Flatten(walk[d + 1..])
  {
    assert walk == walk[..d + 1] + walk[d + 1..];
    FlattenAppend(walk[..d + 1], walk[d + 1..]);
    FlattenStep(walk, d);
  }

  /** Nothing is found under an empty root, a root that is not a directory, or for a
      text without any vocabulary word. */
  lemma RelevantFilesEmpty(root: string, text: string, limit: int, view: DirectoryView)
    ensures root == "" ==> RelevantFiles(root, text, limit, view) == []
    ensures !view.isDir ==> RelevantFiles(root, text, limit, view) == []
    ensures (forall i :: 0 <= i < |SniffVocabulary| ==> !Contains(Lower(text), SniffVocabulary[i])) ==>
      RelevantFiles(root, text, limit, view) == []
  {
    var kws := FoundKeywords(Lower(text));
    if forall i :: 0 <= i < |SniffVocabulary| ==> !Contains(Lower(text), SniffVocabulary[i]) {
      forall w | w in SniffVocabulary ensures !Contains(Lower(text), w) {
        var i :| 0 <= i < |SniffVocabulary| && SniffVocabulary[i] == w;
      }
      assert kws == {};
    }
  }

  /** The result is never longer than the stop count, and is shorter only when the
      walk holds no further matching path. */
  lemma RelevantFilesBound(root: string, text: string, limit: int, view: DirectoryView)
    ensures |RelevantFiles(root, text, limit, view)| <= StopCount(limit)
    ensures limit >= 1 ==> |RelevantFiles(root, text, limit, view)| <= limit
    ensures var kws := FoundKeywords(Lower(text));
      var all := MatchingPaths(Flatten(view.walk), kws);
      var r := RelevantFiles(root, text, limit, view);
      root != "" && view.isDir && kws != {} ==>
        r <= all &&
        |r| == (if |all| <= StopCount(limit) then |all| else StopCount(limit)) &&
        (|all| < StopCount(limit) ==> r == all)
  {
  }

  /** Every returned path, lower-cased, contains a vocabulary word that occurs in the
      lower-cased text, and the returned paths are walked paths, in walk order. */
  lemma RelevantFilesSound(root: string, text: string, limit: int, view: DirectoryView)
    ensures var r := RelevantFiles(root, text, limit, view);
      Subsequence(r, Flatten(view.walk)) &&
      forall i :: 0 <= i < |r| ==>
        (exists w :: w in SniffVocabulary && Contains(Lower(text), w) && Contains(Lower(r[i]), w))
  {
    var r := RelevantFiles(root, text, limit, view);
    if r != [] {
      var kws := FoundKeywords(Lower(text));
      var all := MatchingPaths(Flatten(view.walk), kws);
      MatchingPathsSubsequence(Flatten(view.walk), kws);
      SubsequencePrefix(all, Flatten(view.walk), |r|);
      assert r == all[..|r|];
      forall i | 0 <= i < |r|
        ensures exists w :: w in SniffVocabulary && Contains(Lower(text), w) && Contains(Lower(r[i]), w)
      {
        MatchingPathsSound(Flatten(view.walk), kws, i);
        var w :| w in kws && Contains(Lower(all[i]), w);
        assert r[i] == all[i];
      }
    } else {
      assert Subsequence(r, Flatten(view.walk));
    }
  }

  // ----- The scorer, `estimate` -----

  // The longer texts are written in two pieces so that the verifier sees their characters.
  const LongDescriptionFactor := "Long description indicates " + "richer requirements"
  const ComplexKeywordPrefix := "Complex keyword: "
  const UrgentFactor := "Urgent tag\U{2014}risk of optimistic sizing"
  const HeuristicReasoning :=
    "Heuristic baseline only; final implementation will use progressive retrieval " +
    "over Jira/GitHub and an LLM (plan\U{2192}size) with confidence & assumptions."

  /** The limit `estimate` passes to `_find_relevant_files`. */
  const RepoLimit := 8

  /** `title or "pointless"`: the text whose SHA-256 seeds the generator. */
  function SeedText(title: string): (seed: string)
    ensures seed != ""
    ensures title != "" ==> seed == title
    ensures title == "" ==> seed == "pointless"
  {
    if title == "" then "pointless" else title
  }

  /** The jitter `rnd.uniform(0.9, 1.3)`, where `draw` stands for the unit draw of the
      generator seeded from a text. */
  function Jitter(title: string, draw: string -> real): (j: real)
    requires 0.0 <= draw(SeedText(title)) <= 1.0
    ensures 0.9 <= j <= 1.3
  {
    Uniform(0.9, 1.3, draw(SeedText(title)))
  }

  function DescriptionLength(req: EstimationRequest): nat {
    |OrEmpty(req.description)|
  }

  function DescriptionHours(req: EstimationRequest): real {
    if DescriptionLength(req) > 200 then 3.0
    else if DescriptionLength(req) > 50 then 1.0
    else 0.0
  }

  function DescriptionComplexity(req: EstimationRequest): TaskComplexity {
    if DescriptionLength(req) > 200 then Complex
    else if DescriptionLength(req) > 50 then Moderate
    else Simple
  }

  function DescriptionFactors(req: EstimationRequest): seq<string> {
    if DescriptionLength(req) > 200 then [LongDescriptionFactor]
    else if DescriptionLength(req) > 50 then [LegacyEstimate.ModerateDescriptionFactor]
    else []
  }

  function KeywordHours(req: EstimationRequest): real {
    if LegacyEstimate.ComplexMatch(req).Some? then 3.0 else 0.0
  }

  function ComplexKeywordFactor(keyword: string): string {
    ComplexKeywordPrefix + keyword
  }

  function KeywordFactors(req: EstimationRequest): seq<string> {
    match LegacyEstimate.ComplexMatch(req)
    case Some(k) => [ComplexKeywordFactor(k)]
    case None => []
  }

  function UrgencyMultiplier(req: EstimationRequest): real {
    if LegacyEstimate.HasUrgentTag(req.tags) then 0.9 else 1.0
  }

  function UrgencyFactors(req: EstimationRequest): seq<string> {
    if LegacyEstimate.HasUrgentTag(req.tags) then [UrgentFactor] else []
  }

  /** The hours before the repository sniff: description and keyword bumps, damped when urgent. */
  function CoreHours(req: EstimationRequest): (h: real)
    ensures 0.9 <= h <= 7.0
  {
    (1.0 + DescriptionHours(req) + KeywordHours(req)) * UrgencyMultiplier(req)
  }

  /** The paths the sniff finds under the codebase context, when there is one. */
  function RepoHits(req: EstimationRequest, repo: DirectoryView): seq<string> {
    if Truthy(req.codebaseContext)
    then RelevantFiles(req.codebaseContext.value, LegacyEstimate.AnalysisText(req), RepoLimit, repo)
    else []
  }

  /** `min(0.3 * len(hits), 2.0)` when there are hits: 0.3 per hit up to six hits, 2.0 from
      seven on, and nothing without a hit. */
  function RepoBump(hits: seq<string>): (r: real)
    ensures 0.0 <= r <= 2.0
    ensures r == 0.0 <==> hits == []
    ensures |hits| <= 6 ==> r == 0.3 * |hits| as real
    ensures |hits| > 6 ==> r == 2.0
  {
    if hits == [] then 0.0 else Min(0.3 * |hits| as real, 2.0)
  }

  /** `f"Found {len(hits)} matching paths in repo (e.g. {hits[0]})"`: the factor opens with
      "Found " and the decimal digits of the hit count, and closes with the first hit in
      parentheses. */
  function RepoFactor(hits: seq<string>): (r: string)
    requires hits != []
    ensures StartsWith(r, "Found ")
    ensures var digits := NatToString(|hits|);
      |r| >= 6 + |digits| && r[6..6 + |digits|] == digits && DigitsValue(digits) == |hits|
    ensures |r| > |hits[0]| + 1 && r[|r| - |hits[0]| - 1..] == hits[0] + ")"
  {
    NatToStringValue(|hits|);
    "Found " + NatToString(|hits|) + " matching paths in repo (e.g. " + hits[0] + ")"
  }

  function RepoFactors(hits: seq<string>): seq<string> {
    if hits == [] then [] else [RepoFactor(hits)]
  }

  /** The hours before the jitter: the damped core plus the undamped repository bump. */
  function BaseHours(req: EstimationRequest, repo: DirectoryView): (h: real)
    ensures 0.9 <= h <= 9.0
  {
    CoreHours(req) + RepoBump(RepoHits(req, repo))
  }

  /** A complex keyword forces complex; else the description length decides. */
  function ComplexityOf(req: EstimationRequest): (c: TaskComplexity)
    ensures c in {Simple, Moderate, Complex}
  {
    if LegacyEstimate.ComplexMatch(req).Some? then Complex else DescriptionComplexity(req)
  }

  function Factors(req: EstimationRequest, repo: DirectoryView): (r: seq<string>)
    ensures |r| <= 4
  {
    DescriptionFactors(req) + KeywordFactors(req) + UrgencyFactors(req) + RepoFactors(RepoHits(req, repo))
  }

  /** `conf_map`. */
  function ConfidenceOf(c: TaskComplexity): (r: real)
    ensures 0.45 <= r <= 0.9
  {
    match c
    case Trivial => 0.9
    case Simple => 0.85
    case Moderate => 0.7
    case Complex => 0.55
    case Expert => 0.45
  }

  /** The scoring part of `estimate`: description, first complex keyword, urgent tag,
      then the repository sniff. */
  method Score(req: EstimationRequest, repo: DirectoryView)
    returns (base: real, complexity: TaskComplexity, factors: seq<string>)
    ensures base == BaseHours(req, repo)
    ensures complexity == ComplexityOf(req)
    ensures factors == Factors(req, repo)
  {
    var text := LegacyEstimate.AnalysisText(req);
    base := 1.0;
    factors := [];
    complexity := Simple;

    var descLen := |OrEmpty(req.description)|;
    if descLen > 200 {
      base := base + 3.0;
      complexity := Complex;
      factors := factors + [LongDescriptionFactor];
    } else if descLen > 50 {
      base := base + 1.0;
      complexity := Moderate;
      factors := factors + [LegacyEstimate.ModerateDescriptionFactor];
    }
    assert base == 1.0 + DescriptionHours(req) && complexity == DescriptionComplexity(req);
    assert factors == DescriptionFactors(req);

    var i := 0;
    while i < |LegacyEstimate.ComplexKeywords|
      invariant 0 <= i <= |LegacyEstimate.ComplexKeywords|
      invariant FirstContained(LegacyEstimate.ComplexKeywords[i..], text) == LegacyEstimate.ComplexMatch(req)
      invariant base == 1.0 + DescriptionHours(req) && complexity == DescriptionComplexity(req)
      invariant factors == DescriptionFactors(req)
    {
      var kw := LegacyEstimate.ComplexKeywords[i];
      if Contains(text, kw) {
        base := base + 3.0;
        complexity := Complex;
        factors := factors + [ComplexKeywordFactor(kw)];
        break;
      }
      assert LegacyEstimate.ComplexKeywords[i..][1..] == LegacyEstimate.ComplexKeywords[i + 1..];
      i := i + 1;
    }
    assert base == 1.0 + DescriptionHours(req) + KeywordHours(req);
    assert factors == DescriptionFactors(req) + KeywordFactors(req);

    if LegacyEstimate.HasUrgentTag(req.tags) {
      base := base * 0.9;
      factors := factors + [UrgentFactor];
    }
    assert base == CoreHours(req);
    assert factors == DescriptionFactors(req) + KeywordFactors(req) + UrgencyFactors(req);

    if Truthy(req.codebaseContext) {
      var hits := FindRelevantFiles(req.codebaseContext.value, text, RepoLimit, repo);
      if hits != [] {
        var bump := Min(0.3 * |hits| as real, 2.0);
        base := base + bump;
        factors := factors + [RepoFactor(hits)];
      }
    }
  }

  /** `estimate`. `draw` stands for the seeded generator: the unit draw it yields for a
      seed text; `repo` is what the filesystem shows at the codebase context. */
  method Estimate(req: EstimationRequest, repo: DirectoryView, draw: string -> real)
    returns (resp: EstimationResponse)
    requires 0.0 <= draw(SeedText(req.title)) <= 1.0
    ensures WellFormedResponse(resp)
    ensures resp.complexity == ComplexityOf(req)
    ensures resp.factors == Factors(req, repo)
    ensures resp.estimatedHours == LegacyEstimate.FinalHours(BaseHours(req, repo), Jitter(req.title, draw))
    ensures resp.confidence == ConfidenceOf(resp.complexity)
    ensures resp.reasoning == HeuristicReasoning
  {
    var base, complexity, factors := Score(req, repo);
    var jitter := Uniform(0.9, 1.3, draw(SeedText(req.title)));

    var confMap := map[Trivial := 0.9, Simple := 0.85, Moderate := 0.7, Complex := 0.55, Expert := 0.45];
    var confidence := if complexity in confMap then confMap[complexity] else 0.7;
    assert confidence == ConfidenceOf(complexity);
    ConfidenceRoundsExactly(complexity);

    LegacyEstimate.FinalHoursPositive(base, jitter);
    var hours := LegacyEstimate.FinalHours(base, jitter);
    var validated := NewResponse(hours, complexity, RoundHundredths(confidence), HeuristicReasoning, factors);
    resp := validated.response;
  }

  // ----- Properties of the heuristic score -----

  /** The confidences of the map have two decimals, so `round(confidence, 2)` keeps them. */
  lemma ConfidenceRoundsExactly(c: TaskComplexity)
    ensures RoundHundredths(ConfidenceOf(c)) == ConfidenceOf(c)
    ensures 0.0 <= ConfidenceOf(c) <= 1.0
  {
    match c
    case Trivial => assert (0.9 * 100.0 + 0.5).Floor == 90;
    case Simple => assert (0.85 * 100.0 + 0.5).Floor == 85;
    case Moderate => assert (0.7 * 100.0 + 0.5).Floor == 70;
    case Complex => assert (0.55 * 100.0 + 0.5).Floor == 55;
    case Expert => assert (0.45 * 100.0 + 0.5).Floor == 45;
  }

  /** Against no description, one over 200 characters adds 3.0 hours before damping and
      makes the task complex; one of 51 to 200 adds 1.0 and makes it moderate unless a
      complex keyword decides; a shorter one changes nothing. The requests compared
      see the same complex keyword. */
  lemma DescriptionLengthEffect(req: EstimationRequest, d: string)
    requires var withDesc, without := req.(description := Some(d)), req.(description := None);
      LegacyEstimate.ComplexMatch(withDesc) == LegacyEstimate.ComplexMatch(without)
    ensures var withDesc, without := req.(description := Some(d)), req.(description := None);
      var keyword := LegacyEstimate.ComplexMatch(without).Some?;
      (|d| > 200 ==>
        CoreHours(withDesc) == CoreHours(without) + 3.0 * UrgencyMultiplier(req) &&
        ComplexityOf(withDesc) == Complex && DescriptionFactors(withDesc) == [LongDescriptionFactor]) &&
      (50 < |d| <= 200 ==>
        CoreHours(withDesc) == CoreHours(without) + 1.0 * UrgencyMultiplier(req) &&
        ComplexityOf(withDesc) == (if keyword then Complex else Moderate) &&
        DescriptionFactors(withDesc) == [LegacyEstimate.ModerateDescriptionFactor]) &&
      (|d| <= 50 ==>
        CoreHours(withDesc) == CoreHours(without) && ComplexityOf(withDesc) == ComplexityOf(without) &&
        DescriptionFactors(withDesc) == [])
  {
    var withDesc, without := req.(description := Some(d)), req.(description := None);
    var m := UrgencyMultiplier(req);
    assert UrgencyMultiplier(withDesc) == m && UrgencyMultiplier(without) == m;
    var rest := 1.0 + KeywordHours(without);
    if |d| > 200 {
      assert CoreHours(withDesc) == (rest + 3.0) * m;
    } else if |d| > 50 {
      assert CoreHours(withDesc) == (rest + 1.0) * m;
    }
  }

  /** No fixed factor text starts with the keyword prefix. */
  lemma FixedFactorsUnprefixed(hits: seq<string>)
    ensures !StartsWith(LongDescriptionFactor, ComplexKeywordPrefix)
    ensures !StartsWith(LegacyEstimate.ModerateDescriptionFactor, ComplexKeywordPrefix)
    ensures !StartsWith(UrgentFactor, ComplexKeywordPrefix)
    ensures hits != [] ==> !StartsWith(RepoFactor(hits), ComplexKeywordPrefix)
  {
    var p := ComplexKeywordPrefix;
    CharDiffers("Long description indicates ", "richer requirements", p, 0);
    assert LegacyEstimate.ModerateDescriptionFactor == LegacyEstimate.ModerateDescriptionFactor + "";
    CharDiffers(LegacyEstimate.ModerateDescriptionFactor, "", p, 0);
    assert UrgentFactor == UrgentFactor + "";
    CharDiffers(UrgentFactor, "", p, 0);
    if hits != [] {
      var rest := NatToString(|hits|) + " matching paths in repo (e.g. " + hits[0] + ")";
      assert RepoFactor(hits) == "Found " + rest;
      CharDiffers("Found ", rest, p, 0);
    }
  }

  /** At most one keyword factor: exactly one when a complex keyword occurs, and then it
      comes with the 3.0 bump and forces complex. */
  lemma KeywordFactorCount(req: EstimationRequest, repo: DirectoryView)
    ensures CountStartingWith(Factors(req, repo), ComplexKeywordPrefix) ==
      (if LegacyEstimate.ComplexMatch(req).Some? then 1 else 0)
    ensures LegacyEstimate.ComplexMatch(req).Some? ==> KeywordHours(req) == 3.0 && ComplexityOf(req) == Complex
  {
    var p := ComplexKeywordPrefix;
    var a, b, c := DescriptionFactors(req), KeywordFactors(req), UrgencyFactors(req);
    var hits := RepoHits(req, repo);
    var e := RepoFactors(hits);
    FixedFactorsUnprefixed(hits);
    CountStartingWithAppend(a, b, p);
    CountStartingWithAppend(a + b, c, p);
    CountStartingWithAppend(a + b + c, e, p);
    LegacyEstimate.SingleCountIs(a, p);
    LegacyEstimate.SingleCountIs(b, p);
    LegacyEstimate.SingleCountIs(c, p);
    LegacyEstimate.SingleCountIs(e, p);
    if LegacyEstimate.ComplexMatch(req).Some? {
      assert StartsWith(ComplexKeywordFactor(LegacyEstimate.ComplexMatch(req).value), p);
    }
  }

  /** Adding a tag that lower-cases to "urgent" damps only the core hours: the repository
      bump, which comes after, is left whole, and the urgent factor precedes the
      repository factor. */
  lemma UrgentBeforeRepoBump(req: EstimationRequest, repo: DirectoryView, tag: string)
    requires !LegacyEstimate.HasUrgentTag(req.tags) && Lower(tag) == "urgent"
    ensures var urgent := req.(tags := req.tags + [tag]);
      RepoHits(urgent, repo) == RepoHits(req, repo) &&
      BaseHours(urgent, repo) == 0.9 * CoreHours(req) + RepoBump(RepoHits(req, repo)) &&
      BaseHours(urgent, repo) < BaseHours(req, repo) &&
      ComplexityOf(urgent) == ComplexityOf(req) &&
      Factors(urgent, repo) ==
        DescriptionFactors(req) + KeywordFactors(req) + [UrgentFactor] + RepoFactors(RepoHits(req, repo))
  {
    var urgent := req.(tags := req.tags + [tag]);
    assert LegacyEstimate.LoweredTags(urgent.tags) == LegacyEstimate.LoweredTags(req.tags) + ["urgent"];
    assert LegacyEstimate.HasUrgentTag(urgent.tags);
    assert LegacyEstimate.AnalysisText(urgent) == LegacyEstimate.AnalysisText(req);
  }

  /** The sniff under `limit=8` finds at most eight paths; the bump is positive and at
      most 2.0 exactly when something is found (0.3 per path up to six paths, 2.0 from
      seven on), and the factor names the first path. */
  lemma RepoBumpBounds(req: EstimationRequest, repo: DirectoryView)
    ensures var hits := RepoHits(req, repo);
      |hits| <= RepoLimit &&
      (hits == [] ==> RepoBump(hits) == 0.0 && RepoFactors(hits) == []) &&
      (hits != [] ==>
        (0.0 < RepoBump(hits) <= 2.0 && Contains(RepoFactor(hits), hits[0]) &&
         DigitsValue(RepoFactor(hits)[6..6 + |NatToString(|hits|)|]) == |hits|)) &&
      (|hits| <= 6 ==> RepoBump(hits) == 0.3 * |hits| as real) &&
      (|hits| >= 7 ==> RepoBump(hits) == 2.0)
  {
    var hits := RepoHits(req, repo);
    if Truthy(req.codebaseContext) {
      RelevantFilesBound(req.codebaseContext.value, LegacyEstimate.AnalysisText(req), RepoLimit, repo);
    }
    if hits != [] {
      var head := "Found " + NatToString(|hits|) + " matching paths in repo (e.g. ";
      ContainsSelf(hits[0]);
      ContainsAppendLeft(head, hits[0], hits[0]);
      ContainsAppendRight(head + hits[0], ")", hits[0]);
    }
  }

  /** The jitter keeps the estimate between 0.9 and 1.3 times the base. */
  lemma JitterRange(base: real, title: string, draw: string -> real)
    requires base >= 0.0 && 0.0 <= draw(SeedText(title)) <= 1.0
    ensures 0.9 * base <= base * Jitter(title, draw) <= 1.3 * base
  {
    var j := Jitter(title, draw);
    assert base * (j - 0.9) >= 0.0;
    assert base * (1.3 - j) >= 0.0;
  }

  /** The seed depends on the title alone; an empty title is seeded like "pointless". */
  lemma SeedOfEmptyTitle(title: string)
    ensures SeedText(title) == SeedText("pointless") <==> title == "" || title == "pointless"
  {
  }
}
