/** The original scorer, `estimate_effort`: a base of one hour adjusted by title
    length, description length, keywords, codebase context and an urgent tag,
    then scaled by a random factor, with a confidence drawn from a range that
    depends on the complexity. */
module LegacyEstimate {
  import opened Wrappers
  import opened Text
  import opened Numbers
  import opened Models

  /** Keywords that make a task complex, in the order they are tried. */
  const ComplexKeywords: seq<string> :=
    ["refactor", "migrate", "architecture", "security", "performance", "integration"]

  /** Keywords that mark a task as simple, in the order they are tried. */
  const SimpleKeywords: seq<string> := ["fix", "typo", "update", "add", "remove"]

  // The longer texts are written in two pieces so that the verifier sees their characters.
  const LongTitleFactor := "Long task title suggests complexity"
  const DetailedDescriptionFactor := "Detailed description indicates " + "complex requirements"
  const ModerateDescriptionFactor := "Moderate description length"
  const NoDescriptionFactor := "No description provided - " + "assuming simple task"
  const ComplexKeywordPrefix := "Complex keyword detected: "
  const SimpleKeywordPrefix := "Simple keyword detected: "
  const CodebaseContextFactor := "Codebase context requires " + "additional investigation"
  const UrgentFactor := "Urgent tag - estimate may be optimistic"

  function ComplexKeywordFactor(keyword: string): string {
    ComplexKeywordPrefix + keyword
  }

  function SimpleKeywordFactor(keyword: string): string {
    SimpleKeywordPrefix + keyword
  }

  /** The lower-cased `f"{title} {description or ''}"` that keywords are searched in. */
  function AnalysisText(req: EstimationRequest): string {
    Lower(req.title + " " + OrEmpty(req.description))
  }

  /** `[tag.lower() for tag in tags]`. */
  function LoweredTags(tags: seq<string>): seq<string> {
    seq(|tags|, i requires 0 <= i < |tags| => Lower(tags[i]))
  }

  /** `"urgent" in [tag.lower() for tag in tags]`. */
  predicate HasUrgentTag(tags: seq<string>) {
    "urgent" in LoweredTags(tags)
  }

  /** A request is urgent exactly when one of its tags lower-cases to "urgent". */
  lemma HasUrgentTagIff(tags: seq<string>)
    ensures HasUrgentTag(tags) <==> exists i :: 0 <= i < |tags| && Lower(tags[i]) == "urgent"
  {
    var lowered := LoweredTags(tags);
    assert forall i :: 0 <= i < |tags| ==> lowered[i] == Lower(tags[i]);
  }

  function ComplexMatch(req: EstimationRequest): Option<string> {
    FirstContained(ComplexKeywords, AnalysisText(req))
  }

  function SimpleMatch(req: EstimationRequest): Option<string> {
    FirstContained(SimpleKeywords, AnalysisText(req))
  }

  // ----- The score in closed form: one term per adjustment -----

  function TitleHours(req: EstimationRequest): real {
    if |req.title| > 50 then 2.0 else 0.0
  }

  function DescriptionHours(req: EstimationRequest): real {
    if !Truthy(req.description) then 0.0
    else if |req.description.value| > 200 then 3.0
    else if |req.description.value| > 50 then 1.0
    else 0.0
  }

  function KeywordHours(req: EstimationRequest): real {
    if ComplexMatch(req).Some? then 4.0 else 0.0
  }

  function ContextHours(req: EstimationRequest): real {
    if Truthy(req.codebaseContext) then 1.5 else 0.0
  }

  function UrgencyMultiplier(req: EstimationRequest): real {
    if HasUrgentTag(req.tags) then 0.8 else 1.0
  }

  /** The hours before the random factor: the sum of the adjustments, damped when urgent. */
  function BaseHours(req: EstimationRequest): (h: real)
    ensures 0.8 <= h <= 11.5
  {
    (1.0 + TitleHours(req) + DescriptionHours(req) + KeywordHours(req) + ContextHours(req))
      * UrgencyMultiplier(req)
  }

  /** The assessed complexity: a complex keyword or a long description make the task
      complex, else a long title makes it moderate, else it is simple. */
  function ComplexityOf(req: EstimationRequest): (c: TaskComplexity)
    ensures c in {Simple, Moderate, Complex}
  {
    if ComplexMatch(req).Some? then Complex
    else if Truthy(req.description) && |req.description.value| > 200 then Complex
    else if |req.title| > 50 then Moderate
    else Simple
  }

  function TitleFactors(req: EstimationRequest): seq<string> {
    if |req.title| > 50 then [LongTitleFactor] else []
  }

  function DescriptionFactors(req: EstimationRequest): seq<string> {
    if !Truthy(req.description) then [NoDescriptionFactor]
    else if |req.description.value| > 200 then [DetailedDescriptionFactor]
    else if |req.description.value| > 50 then [ModerateDescriptionFactor]
    else []
  }

  function KeywordFactors(req: EstimationRequest): seq<string> {
    match ComplexMatch(req)
    case Some(k) => [ComplexKeywordFactor(k)]
    case None => []
  }

  function SimpleKeywordFactors(req: EstimationRequest): seq<string> {
    match SimpleMatch(req)
    case Some(k) => [SimpleKeywordFactor(k)]
    case None => []
  }

  function ContextFactors(req: EstimationRequest): seq<string> {
    if Truthy(req.codebaseContext) then [CodebaseContextFactor] else []
  }

  function UrgencyFactors(req: EstimationRequest): seq<string> {
    if HasUrgentTag(req.tags) then [UrgentFactor] else []
  }

  /** The factors, one section per adjustment, in evaluation order. */
  function Factors(req: EstimationRequest): (r: seq<string>)
    ensures |r| <= 6
    ensures !Truthy(req.description) ==> r != []
  {
    TitleFactors(req) + DescriptionFactors(req) + KeywordFactors(req) +
    SimpleKeywordFactors(req) + ContextFactors(req) + UrgencyFactors(req)
  }

  /** The confidence range of each complexity, in hundredths. */
  function ConfidencePercentRange(c: TaskComplexity): (range: (int, int))
    ensures 0 <= range.0 <= range.1 <= 100
  {
    match c
    case Trivial => (85, 95)
    case Simple => (75, 90)
    case Moderate => (60, 80)
    case Complex => (40, 70)
    case Expert => (20, 50)
  }

  function ConfidenceLow(c: TaskComplexity): real {
    ConfidencePercentRange(c).0 as real / 100.0
  }

  function ConfidenceHigh(c: TaskComplexity): real {
    ConfidencePercentRange(c).1 as real / 100.0
  }

  /** `factors[:3]`. */
  function FirstThree(factors: seq<string>): (r: seq<string>)
    ensures |r| <= 3 && r <= factors
    ensures |factors| <= 3 ==> r == factors
    ensures |factors| > 3 ==> r == factors[..3]
  {
    if |factors| <= 3 then factors else factors[..3]
  }

  /** The opening sentence of the reasoning, naming the complexity. */
  function ReasoningHead(c: TaskComplexity): string {
    "Based on task analysis, estimated " + ComplexityValue(c) + " complexity. "
  }

  /** The sentence naming the first three factors. */
  function KeyFactorsSentence(factors: seq<string>): string {
    "Key factors: " + Join(FirstThree(factors), ", ") + "."
  }

  /** The closing sentence, naming the multiplier rendered with one decimal. */
  function AdjustmentSentence(randomness: real): string
    requires randomness >= 0.0
  {
    " Applied " + FormatTenths(randomness) + "x adjustment for estimation uncertainty."
  }

  /** The reasoning text: the complexity, up to three factors, and the applied multiplier. */
  function Reasoning(c: TaskComplexity, factors: seq<string>, randomness: real): string
    requires randomness >= 0.0
  {
    if factors == [] then ReasoningHead(c) + AdjustmentSentence(randomness)
    else ReasoningHead(c) + KeyFactorsSentence(factors) + AdjustmentSentence(randomness)
  }

  /** The complex-keyword loop of `estimate_effort`: the first keyword, in list order,
      found in `text` adds 4.0 hours and sets the complexity (expert above 10 hours,
      else complex) and its factor; the loop then stops. */
  method ApplyComplexKeywords(text: string, hoursIn: real, complexityIn: TaskComplexity,
                              factorsIn: seq<string>)
    returns (baseHours: real, complexity: TaskComplexity, factors: seq<string>)
    ensures FirstContained(ComplexKeywords, text).None? ==>
      baseHours == hoursIn && complexity == complexityIn && factors == factorsIn
    ensures FirstContained(ComplexKeywords, text).Some? ==>
      baseHours == hoursIn + 4.0 &&
      complexity == (if hoursIn + 4.0 > 10.0 then Expert else Complex) &&
      factors == factorsIn + [ComplexKeywordFactor(FirstContained(ComplexKeywords, text).value)]
  {
    baseHours, complexity, factors := hoursIn, complexityIn, factorsIn;
    var i := 0;
    while i < |ComplexKeywords|
      invariant 0 <= i <= |ComplexKeywords|
      invariant FirstContained(ComplexKeywords[i..], text) == FirstContained(ComplexKeywords, text)
      invariant baseHours == hoursIn && complexity == complexityIn && factors == factorsIn
    {
      var keyword := ComplexKeywords[i];
      if Contains(text, keyword) {
        baseHours := baseHours + 4.0;
        complexity := if baseHours > 10.0 then Expert else Complex;
        factors := factors + [ComplexKeywordFactor(keyword)];
        break;
      }
      assert ComplexKeywords[i..][1..] == ComplexKeywords[i + 1..];
      i := i + 1;
    }
  }

  /** The simple-keyword loop of `estimate_effort`: the first keyword, in list order,
      found in `text` appends its factor; the loop then stops. */
  method ApplySimpleKeywords(text: string, factorsIn: seq<string>) returns (factors: seq<string>)
    ensures FirstContained(SimpleKeywords, text).None? ==> factors == factorsIn
    ensures FirstContained(SimpleKeywords, text).Some? ==>
      factors == factorsIn + [SimpleKeywordFactor(FirstContained(SimpleKeywords, text).value)]
  {
    factors := factorsIn;
    var j := 0;
    while j < |SimpleKeywords|
      invariant 0 <= j <= |SimpleKeywords|
      invariant FirstContained(SimpleKeywords[j..], text) == FirstContained(SimpleKeywords, text)
      invariant factors == factorsIn
    {
      var keyword := SimpleKeywords[j];
      if Contains(text, keyword) {
        factors := factors + [SimpleKeywordFactor(keyword)];
        break;
      }
      assert SimpleKeywords[j..][1..] == SimpleKeywords[j + 1..];
      j := j + 1;
    }
  }

  /** The scoring part of `estimate_effort`: base hours, complexity and factors,
      adjusted in turn by title, description, keywords, codebase context and tags. */
  method ScoreTask(req: EstimationRequest)
    returns (baseHours: real, complexity: TaskComplexity, factors: seq<string>)
    ensures baseHours == BaseHours(req)
    ensures complexity == ComplexityOf(req)
    ensures complexity in {Simple, Moderate, Complex}
    ensures factors == Factors(req)
  {
    baseHours := 1.0;
    complexity := Simple;
    factors := [];

    if |req.title| > 50 {
      baseHours := baseHours + 2.0;
      complexity := Moderate;
      factors := factors + [LongTitleFactor];
    }
    assert factors == TitleFactors(req);

    if Truthy(req.description) {
      var descLength := |req.description.value|;
      if descLength > 200 {
        baseHours := baseHours + 3.0;
        complexity := Complex;
        factors := factors + [DetailedDescriptionFactor];
      } else if descLength > 50 {
        baseHours := baseHours + 1.0;
        factors := factors + [ModerateDescriptionFactor];
      }
    } else {
      factors := factors + [NoDescriptionFactor];
    }
    assert factors == TitleFactors(req) + DescriptionFactors(req);
    // At most 1 + 2 + 3 hours so far, so the keyword bump cannot pass 10 hours.
    assert baseHours == 1.0 + TitleHours(req) + DescriptionHours(req) <= 6.0;

    var text := AnalysisText(req);
    baseHours, complexity, factors := ApplyComplexKeywords(text, baseHours, complexity, factors);
    assert baseHours == 1.0 + TitleHours(req) + DescriptionHours(req) + KeywordHours(req);
    assert complexity == ComplexityOf(req);
    assert factors == TitleFactors(req) + DescriptionFactors(req) + KeywordFactors(req);
    factors := ApplySimpleKeywords(text, factors);
    assert factors == TitleFactors(req) + DescriptionFactors(req) + KeywordFactors(req) +
      SimpleKeywordFactors(req);

    if Truthy(req.codebaseContext) {
      baseHours := baseHours + 1.5;
      factors := factors + [CodebaseContextFactor];
    }

    if HasUrgentTag(req.tags) {
      baseHours := baseHours * 0.8;
      factors := factors + [UrgentFactor];
    }
  }

  /** `round(base_hours * randomness, 1)`: the estimate after the random factor. */
  function FinalHours(baseHours: real, randomness: real): (r: real)
    ensures baseHours * randomness - 0.05 < r <= baseHours * randomness + 0.05
  {
    RoundTenths(baseHours * randomness)
  }

  /** The rounded estimate of a base of at least 0.8 hours scaled by a factor of at least
      0.8 is positive. */
  lemma FinalHoursPositive(baseHours: real, factor: real)
    requires baseHours >= 0.8 && factor >= 0.8
    ensures FinalHours(baseHours, factor) > 0.0
  {
    ProductAtLeast(baseHours, 0.8, factor, 0.8);
    RoundTenthsPositive(baseHours * factor);
  }

  /** The confidence of `estimate_effort`: a uniform draw from the complexity's range. */
  method DrawConfidence(complexity: TaskComplexity, confidenceDraw: real) returns (confidence: real)
    requires 0.0 <= confidenceDraw <= 1.0
    ensures confidence == Uniform(ConfidenceLow(complexity), ConfidenceHigh(complexity), confidenceDraw)
    ensures ConfidenceLow(complexity) <= confidence <= ConfidenceHigh(complexity)
  {
        if complexity == Trivial {
      confidence := Uniform(0.85, 0.95, confidenceDraw);
    } else if complexity == Simple {
      confidence := Uniform(0.75, 0.9, confidenceDraw);
    } else if complexity == Moderate {
      confidence := Uniform(0.6, 0.8, confidenceDraw);
    } else if complexity == Complex {
      confidence := Uniform(0.4, 0.7, confidenceDraw);
    } else {
      confidence := Uniform(0.2, 0.5, confidenceDraw);
    }
  }

  /** The tail of `estimate_effort`: from the score, the final hours, the confidence
      drawn from the complexity's range, the reasoning text and the response. */
  method Respond(baseHours: real, complexity: TaskComplexity, factors: seq<string>,
                 randomness: real, confidenceDraw: real)
    returns (resp: EstimationResponse)
    requires baseHours >= 0.8
    requires 0.8 <= randomness <= 1.4
    requires 0.0 <= confidenceDraw <= 1.0
    ensures WellFormedResponse(resp)
    ensures resp.complexity == complexity && resp.factors == factors
    ensures resp.estimatedHours == FinalHours(baseHours, randomness)
    ensures resp.confidence == RoundHundredths(
      Uniform(ConfidenceLow(complexity), ConfidenceHigh(complexity), confidenceDraw))
    ensures ConfidenceLow(complexity) <= resp.confidence <= ConfidenceHigh(complexity)
    ensures resp.reasoning == Reasoning(complexity, factors, randomness)
  {
    var confidence := DrawConfidence(complexity, confidenceDraw);

    var reasoning := ReasoningHead(complexity);
    if factors != [] {
      reasoning := reasoning + KeyFactorsSentence(factors);
    }
    reasoning := reasoning + AdjustmentSentence(randomness);
    assert reasoning == Reasoning(complexity, factors, randomness);

    FinalHoursPositive(baseHours, randomness);
    var range := ConfidencePercentRange(complexity);
    RoundHundredthsWithin(confidence, range.0, range.1);
    var hours, roundedConfidence := FinalHours(baseHours, randomness), RoundHundredths(confidence);
    var validated := NewResponse(hours, complexity, roundedConfidence, reasoning, factors);
    resp := validated.response;
    assert resp == EstimationResponse(hours, complexity, roundedConfidence, reasoning, factors);
  }

  /** `estimate_effort`. `randomness` is the draw of `random.uniform(0.8, 1.4)` and
      `confidenceDraw` the unit draw behind the confidence's `random.uniform`. */
  method EstimateEffort(req: EstimationRequest, randomness: real, confidenceDraw: real)
    returns (resp: EstimationResponse)
    requires 0.8 <= randomness <= 1.4
    requires 0.0 <= confidenceDraw <= 1.0
    ensures WellFormedResponse(resp)
    ensures resp.complexity == ComplexityOf(req)
    ensures resp.complexity in {Simple, Moderate, Complex}
    ensures resp.factors == Factors(req)
    ensures resp.estimatedHours == FinalHours(BaseHours(req), randomness)
    ensures resp.confidence == RoundHundredths(
      Uniform(ConfidenceLow(resp.complexity), ConfidenceHigh(resp.complexity), confidenceDraw))
    ensures ConfidenceLow(resp.complexity) <= resp.confidence <= ConfidenceHigh(resp.complexity)
    ensures resp.reasoning == Reasoning(resp.complexity, resp.factors, randomness)
  {
    var baseHours, complexity, factors := ScoreTask(req);
    resp := Respond(baseHours, complexity, factors, randomness, confidenceDraw);
  }

  // ----- Properties of the score -----

  /** The final hours are the base scaled by the random factor: between 0.8 and 1.4
      times the base, and still positive after rounding. */
  lemma HoursWithinRandomRange(req: EstimationRequest, randomness: real)
    requires 0.8 <= randomness <= 1.4
    ensures 0.8 * BaseHours(req) <= BaseHours(req) * randomness <= 1.4 * BaseHours(req)
    ensures FinalHours(BaseHours(req), randomness) > 0.0
  {
    var b := BaseHours(req);
    ProductAtLeast(b, b, randomness, 0.8);
    assert b * randomness <= b * 1.4 by {
      assert b * (1.4 - randomness) >= 0.0;
    }
    ProductAtLeast(b, 0.8, randomness, 0.8);
    RoundTenthsPositive(b * randomness);
  }

  /** A description over 200 characters adds 3.0 hours (before damping) and makes the
      task complex; one of 51 to 200 characters adds 1.0 hour and leaves the
      complexity as it is without a description. The requests compared see the
      same complex keyword. */
  lemma DescriptionLengthEffect(req: EstimationRequest, d: string)
    requires ComplexMatch(req.(description := Some(d))) == ComplexMatch(req.(description := None))
    ensures var withDesc, without := req.(description := Some(d)), req.(description := None);
      (|d| > 200 ==>
        BaseHours(withDesc) == BaseHours(without) + 3.0 * UrgencyMultiplier(req) &&
        ComplexityOf(withDesc) == Complex) &&
      (50 < |d| <= 200 ==>
        BaseHours(withDesc) == BaseHours(without) + 1.0 * UrgencyMultiplier(req) &&
        ComplexityOf(withDesc) == ComplexityOf(without))
  {
    var withDesc, without := req.(description := Some(d)), req.(description := None);
    var m := UrgencyMultiplier(req);
    assert UrgencyMultiplier(withDesc) == m && UrgencyMultiplier(without) == m;
    var rest := 1.0 + TitleHours(req) + KeywordHours(without) + ContextHours(req);
    if |d| > 200 {
      assert BaseHours(withDesc) == (rest + 3.0) * m;
    } else if |d| > 50 {
      assert BaseHours(withDesc) == (rest + 1.0) * m;
    }
  }

  /** A title over 50 characters adds 2.0 hours (before damping), the
      `LongTitleFactor` in first place, and makes a task that is
      not complex moderate. The two requests differ only in their titles, which find
      the same keywords. */
  lemma TitleLengthEffect(withLong: EstimationRequest, withShort: EstimationRequest)
    requires |withLong.title| > 50 && |withShort.title| <= 50
    requires withLong.description == withShort.description
    requires withLong.codebaseContext == withShort.codebaseContext
    requires withLong.tags == withShort.tags
    requires ComplexMatch(withLong) == ComplexMatch(withShort)
    requires SimpleMatch(withLong) == SimpleMatch(withShort)
    ensures BaseHours(withLong) == BaseHours(withShort) + 2.0 * UrgencyMultiplier(withShort)
    ensures ComplexityOf(withLong) == (if ComplexityOf(withShort) == Complex then Complex else Moderate)
    ensures Factors(withLong) == [LongTitleFactor] + Factors(withShort)
  {
    assert UrgencyMultiplier(withLong) == UrgencyMultiplier(withShort);
    if HasUrgentTag(withShort.tags) {
      assert UrgencyMultiplier(withShort) == 0.8;
    } else {
      assert UrgencyMultiplier(withShort) == 1.0;
    }
    TitleLengthFactors(withLong, withShort);
  }

  /** The factor part of `TitleLengthEffect`. */
  lemma TitleLengthFactors(withLong: EstimationRequest, withShort: EstimationRequest)
    requires |withLong.title| > 50 && |withShort.title| <= 50
    requires withLong.description == withShort.description
    requires withLong.codebaseContext == withShort.codebaseContext
    requires withLong.tags == withShort.tags
    requires ComplexMatch(withLong) == ComplexMatch(withShort)
    requires SimpleMatch(withLong) == SimpleMatch(withShort)
    ensures Factors(withLong) == [LongTitleFactor] + Factors(withShort)
  {
    FactorsAfterTitle(withLong);
    FactorsAfterTitle(withShort);
    assert TitleFactors(withLong) == [LongTitleFactor] && TitleFactors(withShort) == [];
    assert DescriptionFactors(withLong) == DescriptionFactors(withShort);
    assert KeywordFactors(withLong) == KeywordFactors(withShort);
    assert SimpleKeywordFactors(withLong) == SimpleKeywordFactors(withShort);
    assert ContextFactors(withLong) == ContextFactors(withShort);
    assert UrgencyFactors(withLong) == UrgencyFactors(withShort);
  }

  /** The factor list is the title section followed by the other sections. */
  lemma FactorsAfterTitle(req: EstimationRequest)
    ensures Factors(req) == TitleFactors(req) +
      (DescriptionFactors(req) + KeywordFactors(req) + SimpleKeywordFactors(req) +
       ContextFactors(req) + UrgencyFactors(req))
  {
    Regroup(TitleFactors(req), DescriptionFactors(req), KeywordFactors(req),
      SimpleKeywordFactors(req), ContextFactors(req), UrgencyFactors(req));
  }

  /** Concatenation regrouped so that the first section stands apart. */
  lemma Regroup<T>(a: seq<T>, b: seq<T>, c: seq<T>, d: seq<T>, e: seq<T>, f: seq<T>)
    ensures a + b + c + d + e + f == a + (b + c + d + e + f)
  {
    assert a + b + c == a + (b + c);
    assert a + b + c + d == a + (b + c + d);
    assert a + b + c + d + e == a + (b + c + d + e);
  }

  /** A non-empty codebase context adds 1.5 hours (before damping) and the
      `CodebaseContextFactor` after the keyword factors, and leaves the
      complexity as it is. The two requests differ only in their context. */
  lemma CodebaseContextEffect(withContext: EstimationRequest, without: EstimationRequest)
    requires withContext.title == without.title
    requires withContext.description == without.description
    requires withContext.tags == without.tags
    requires Truthy(withContext.codebaseContext) && !Truthy(without.codebaseContext)
    ensures BaseHours(withContext) == BaseHours(without) + 1.5 * UrgencyMultiplier(without)
    ensures ComplexityOf(withContext) == ComplexityOf(without)
    ensures Factors(withContext) ==
      TitleFactors(without) + DescriptionFactors(without) + KeywordFactors(without) +
      SimpleKeywordFactors(without) + [CodebaseContextFactor] + UrgencyFactors(without)
    ensures Factors(without) ==
      TitleFactors(without) + DescriptionFactors(without) + KeywordFactors(without) +
      SimpleKeywordFactors(without) + UrgencyFactors(without)
  {
    assert AnalysisText(withContext) == AnalysisText(without);
    assert UrgencyMultiplier(withContext) == UrgencyMultiplier(without);
    if HasUrgentTag(without.tags) {
      assert UrgencyMultiplier(without) == 0.8;
    } else {
      assert UrgencyMultiplier(without) == 1.0;
    }
  }

  /** No description and an empty description score alike: the "No description
      provided" factor and no added hours. */
  lemma EmptyDescriptionLikeNone(req: EstimationRequest)
    ensures var empty, none := req.(description := Some("")), req.(description := None);
      BaseHours(empty) == BaseHours(none) && ComplexityOf(empty) == ComplexityOf(none) &&
      Factors(empty) == Factors(none) &&
      DescriptionFactors(none) == [NoDescriptionFactor] && DescriptionHours(none) == 0.0
  {
    var empty, none := req.(description := Some("")), req.(description := None);
    assert AnalysisText(empty) == AnalysisText(none);
  }

  /** The "No description provided" factor is listed exactly when the description is
      missing or empty. */
  lemma NoDescriptionFactorIff(req: EstimationRequest)
    ensures NoDescriptionFactor in Factors(req) <==> !Truthy(req.description)
  {
    if Truthy(req.description) {
      assert NoDescriptionFactor !in KeywordFactors(req) by {
        if ComplexMatch(req).Some? {
          CharDiffers(ComplexKeywordPrefix, ComplexMatch(req).value, NoDescriptionFactor, 0);
        }
      }
      assert NoDescriptionFactor !in SimpleKeywordFactors(req) by {
        if SimpleMatch(req).Some? {
          CharDiffers(SimpleKeywordPrefix, SimpleMatch(req).value, NoDescriptionFactor, 0);
        }
      }
    }
  }

  /** A complex keyword, in any case, anywhere in the title makes the task complex. */
  lemma ComplexKeywordInTitle(req: EstimationRequest, i: nat)
    requires i < |ComplexKeywords| && Contains(Lower(req.title), ComplexKeywords[i])
    ensures Contains(AnalysisText(req), ComplexKeywords[i])
    ensures ComplexMatch(req).Some? && ComplexityOf(req) == Complex
    ensures KeywordHours(req) == 4.0
    ensures |KeywordFactors(req)| == 1
  {
    var tail := " " + OrEmpty(req.description);
    assert req.title + " " + OrEmpty(req.description) == req.title + tail;
    LowerAppend(req.title, tail);
    ContainsAppendRight(Lower(req.title), Lower(tail), ComplexKeywords[i]);
    FirstContainedSpec(ComplexKeywords, AnalysisText(req));
  }

  /** A title containing "refactor" yields the factor naming "refactor". */
  lemma RefactorInTitle(req: EstimationRequest)
    requires Contains(Lower(req.title), "refactor")
    ensures ComplexityOf(req) == Complex
    ensures ComplexKeywordFactor("refactor") in Factors(req)
  {
    ComplexKeywordInTitle(req, 0);
    assert ComplexMatch(req) == Some("refactor");
  }

  /** No fixed factor text starts with either keyword prefix. */
  lemma FixedFactorsUnprefixed(p: string)
    requires p == ComplexKeywordPrefix || p == SimpleKeywordPrefix
    ensures !StartsWith(LongTitleFactor, p) && !StartsWith(DetailedDescriptionFactor, p)
    ensures !StartsWith(ModerateDescriptionFactor, p) && !StartsWith(NoDescriptionFactor, p)
    ensures !StartsWith(CodebaseContextFactor, p) && !StartsWith(UrgentFactor, p)
  {
    assert LongTitleFactor == LongTitleFactor + "";
    assert ModerateDescriptionFactor == ModerateDescriptionFactor + "";
    assert UrgentFactor == UrgentFactor + "";
    CharDiffers(LongTitleFactor, "", p, 0);
    CharDiffers("Detailed description indicates ", "complex requirements", p, 0);
    CharDiffers(ModerateDescriptionFactor, "", p, 0);
    CharDiffers("No description provided - ", "assuming simple task", p, 0);
    CharDiffers("Codebase context requires ", "additional investigation", p, if p[0] == 'C' then 2 else 0);
    CharDiffers(UrgentFactor, "", p, 0);
  }

  /** The number of factors in `section` that start with `p`, for a section of at most one factor. */
  function SingleCount(section: seq<string>, p: string): nat
    requires |section| <= 1
  {
    if section != [] && StartsWith(section[0], p) then 1 else 0
  }

  lemma SingleCountIs(section: seq<string>, p: string)
    requires |section| <= 1
    ensures CountStartingWith(section, p) == SingleCount(section, p)
  {
    if section != [] {
      assert section[1..] == [];
    }
  }

  /** The factors counted section by section. */
  lemma FactorsCount(req: EstimationRequest, p: string)
    ensures CountStartingWith(Factors(req), p) ==
      SingleCount(TitleFactors(req), p) + SingleCount(DescriptionFactors(req), p) +
      SingleCount(KeywordFactors(req), p) + SingleCount(SimpleKeywordFactors(req), p) +
      SingleCount(ContextFactors(req), p) + SingleCount(UrgencyFactors(req), p)
  {
    var a, b, c := TitleFactors(req), DescriptionFactors(req), KeywordFactors(req);
    var d, e, f := SimpleKeywordFactors(req), ContextFactors(req), UrgencyFactors(req);
    CountStartingWithAppend(a, b, p);
    CountStartingWithAppend(a + b, c, p);
    CountStartingWithAppend(a + b + c, d, p);
    CountStartingWithAppend(a + b + c + d, e, p);
    CountStartingWithAppend(a + b + c + d + e, f, p);
    SingleCountIs(a, p);
    SingleCountIs(b, p);
    SingleCountIs(c, p);
    SingleCountIs(d, p);
    SingleCountIs(e, p);
    SingleCountIs(f, p);
  }

  /** Exactly one complex-keyword factor exactly when some complex keyword occurs,
      and likewise for the simple keywords; the 4.0 bump comes with the factor. */
  lemma KeywordFactorCounts(req: EstimationRequest)
    ensures CountStartingWith(Factors(req), ComplexKeywordPrefix) ==
      (if ComplexMatch(req).Some? then 1 else 0)
    ensures CountStartingWith(Factors(req), SimpleKeywordPrefix) ==
      (if SimpleMatch(req).Some? then 1 else 0)
    ensures (KeywordHours(req) == 4.0) == ComplexMatch(req).Some?
    ensures ComplexMatch(req).None? <==>
      forall i :: 0 <= i < |ComplexKeywords| ==> !Contains(AnalysisText(req), ComplexKeywords[i])
  {
    FirstContainedSpec(ComplexKeywords, AnalysisText(req));
    var cp, sp := ComplexKeywordPrefix, SimpleKeywordPrefix;
    FactorsCount(req, cp);
    FactorsCount(req, sp);
    FixedFactorsUnprefixed(cp);
    FixedFactorsUnprefixed(sp);
    if ComplexMatch(req).Some? {
      var k := ComplexMatch(req).value;
      assert StartsWith(ComplexKeywordFactor(k), cp);
      CharDiffers(cp, k, sp, 0);
    }
    if SimpleMatch(req).Some? {
      var k := SimpleMatch(req).value;
      assert StartsWith(SimpleKeywordFactor(k), sp);
      CharDiffers(sp, k, cp, 0);
    }
  }

  /** Adding a tag that lower-cases to "urgent" scales the base by 0.8, strictly
      lowering it, and appends the urgent factor; nothing else changes. */
  lemma UrgentTagDamps(req: EstimationRequest, tag: string)
    requires !HasUrgentTag(req.tags) && Lower(tag) == "urgent"
    ensures var urgent := req.(tags := req.tags + [tag]);
      BaseHours(urgent) == 0.8 * BaseHours(req) < BaseHours(req) &&
      ComplexityOf(urgent) == ComplexityOf(req) &&
      Factors(urgent) == Factors(req) + [UrgentFactor]
  {
    var urgent := req.(tags := req.tags + [tag]);
    assert LoweredTags(urgent.tags) == LoweredTags(req.tags) + ["urgent"];
    assert HasUrgentTag(urgent.tags);
    assert AnalysisText(urgent) == AnalysisText(req);
  }

  /** The reasoning depends on the factors only through the first three, and it
      names the complexity. */
  lemma ReasoningNamesComplexity(c: TaskComplexity, factors: seq<string>, randomness: real)
    requires randomness >= 0.0
    ensures Reasoning(c, factors, randomness) == Reasoning(c, FirstThree(factors), randomness)
    ensures Contains(Reasoning(c, factors, randomness), ComplexityValue(c))
  {
    ReasoningUsesFirstThree(c, factors, randomness);
    ReasoningContainsValue(c, factors, randomness);
  }

  /** The complexity value occurs in the reasoning, inside its opening sentence. */
  lemma ReasoningContainsValue(c: TaskComplexity, factors: seq<string>, randomness: real)
    requires randomness >= 0.0
    ensures Contains(Reasoning(c, factors, randomness), ComplexityValue(c))
  {
    var v := ComplexityValue(c);
    var head, tail := ReasoningHead(c), AdjustmentSentence(randomness);
    ContainsMiddle("Based on task analysis, estimated ", v, " complexity. ");
    if factors == [] {
      ContainsAppendRight(head, tail, v);
    } else {
      var key := KeyFactorsSentence(factors);
      ContainsAppendRight(head, key, v);
      ContainsAppendRight(head + key, tail, v);
    }
  }

  /** Only the first three factors enter the reasoning. */
  lemma ReasoningUsesFirstThree(c: TaskComplexity, factors: seq<string>, randomness: real)
    requires randomness >= 0.0
    ensures Reasoning(c, factors, randomness) == Reasoning(c, FirstThree(factors), randomness)
  {
    assert FirstThree(FirstThree(factors)) == FirstThree(factors);
  }

  /** The reasoning names each of the first three factors. */
  lemma ReasoningNamesFactors(c: TaskComplexity, factors: seq<string>, randomness: real, i: nat)
    requires randomness >= 0.0 && i < |FirstThree(factors)|
    ensures Contains(Reasoning(c, factors, randomness), factors[i])
  {
    var three := FirstThree(factors);
    var head, tail := ReasoningHead(c), AdjustmentSentence(randomness);
    var joined := Join(three, ", ");
    assert three[i] == factors[i];
    JoinContains(three, ", ", i);
    ContainsAppendLeft("Key factors: ", joined, factors[i]);
    ContainsAppendRight("Key factors: " + joined, ".", factors[i]);
    ContainsAppendLeft(head, KeyFactorsSentence(factors), factors[i]);
    ContainsAppendRight(head + KeyFactorsSentence(factors), tail, factors[i]);
  }

  /** The scoring of a request with an empty title and no description: one hour,
      simple, and only the "No description provided" factor. */
  lemma EmptyTitleScoresMinimally()
    ensures BaseHours(MinimalRequest("")) == 1.0
    ensures ComplexityOf(MinimalRequest("")) == Simple
    ensures Factors(MinimalRequest("")) == [NoDescriptionFactor]
  {
    var req := MinimalRequest("");
    assert AnalysisText(req) == " ";
    assert HasUrgentTag([]) == false;
  }

  /** "Fix" tagged "URGENT", without a description: the simple keyword "fix" is
      reported, and the tag, matched case-insensitively, damps the 1.0 hour to 0.8. */
  lemma UrgentFixExample()
    ensures var req := MinimalRequest("Fix").(tags := ["URGENT"]);
      BaseHours(req) == 0.8 && ComplexityOf(req) == Simple &&
      Factors(req) == [NoDescriptionFactor, SimpleKeywordFactor("fix"), UrgentFactor]
  {
    var req := MinimalRequest("Fix").(tags := ["URGENT"]);
    assert AnalysisText(req) == "fix ";
    assert Lower("URGENT") == "urgent";
    assert LoweredTags(req.tags) == ["urgent"];
    assert Contains("fix ", "fix");
  }
}
