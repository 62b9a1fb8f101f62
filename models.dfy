/** The request and response records of the estimator and the complexity scale. */
module Models {
  import opened Wrappers

  /** The five complexity levels, ordered by increasing effort. */
  datatype TaskComplexity = Trivial | Simple | Moderate | Complex | Expert

  /** The string value of each level. */
  function ComplexityValue(c: TaskComplexity): string {
    match c
    case Trivial => "trivial"
    case Simple => "simple"
    case Moderate => "moderate"
    case Complex => "complex"
    case Expert => "expert"
  }

  /** Position of a level in the declaration order. */
  function Rank(c: TaskComplexity): (n: nat)
    ensures n < 5
  {
    match c
    case Trivial => 0
    case Simple => 1
    case Moderate => 2
    case Complex => 3
    case Expert => 4
  }

  /** `TaskComplexity(s)`: the level whose value is `s`, if any. */
  function ParseComplexity(s: string): (r: Option<TaskComplexity>)
    ensures r.Some? ==> ComplexityValue(r.value) == s
  {
    if s == "trivial" then Some(Trivial)
    else if s == "simple" then Some(Simple)
    else if s == "moderate" then Some(Moderate)
    else if s == "complex" then Some(Complex)
    else if s == "expert" then Some(Expert)
    else None
  }

  /** The members of the enumeration in declaration order. */
  function AllComplexities(): (r: seq<TaskComplexity>)
    ensures |r| == 5
    ensures forall i :: 0 <= i < |r| ==> Rank(r[i]) == i
    ensures forall c: TaskComplexity :: r[Rank(c)] == c
  {
    [Trivial, Simple, Moderate, Complex, Expert]
  }

  /** Every level's value parses back to that level, so the five values are distinct. */
  lemma ComplexityValueRoundTrip(c: TaskComplexity)
    ensures ParseComplexity(ComplexityValue(c)) == Some(c)
  {
  }

  /** The input of an estimation. */
  datatype EstimationRequest = EstimationRequest(
    title: string,
    description: Option<string>,
    jiraTicketId: Option<string>,
    codebaseContext: Option<string>,
    tags: seq<string>)

  /** `EstimationRequest(title=...)` with every other field at its default. */
  function MinimalRequest(title: string): (r: EstimationRequest)
    ensures r.title == title
    ensures r.description == None && r.jiraTicketId == None && r.codebaseContext == None
    ensures r.tags == []
  {
    EstimationRequest(title, None, None, None, [])
  }

  /** The output of an estimation. */
  datatype EstimationResponse = EstimationResponse(
    estimatedHours: real,
    complexity: TaskComplexity,
    confidence: real,
    reasoning: string,
    factors: seq<string>)

  /** A field constraint that construction can violate. */
  datatype FieldError = HoursNotPositive | ConfidenceOutOfRange

  datatype Validated = Valid(response: EstimationResponse) | Invalid(errors: seq<FieldError>)

  /** The constraints of the response fields: hours > 0, 0 <= confidence <= 1. */
  predicate WellFormedResponse(r: EstimationResponse) {
    r.estimatedHours > 0.0 && 0.0 <= r.confidence <= 1.0
  }

  /** Constructing a response checks its field constraints and reports every violated one. */
  function NewResponse(hours: real, complexity: TaskComplexity, confidence: real,
                       reasoning: string, factors: seq<string>): (v: Validated)
    ensures v.Valid? <==> hours > 0.0 && 0.0 <= confidence <= 1.0
    ensures v.Valid? ==> WellFormedResponse(v.response)
    ensures v.Valid? ==> v.response == EstimationResponse(hours, complexity, confidence, reasoning, factors)
    ensures v.Invalid? ==> (HoursNotPositive in v.errors <==> hours <= 0.0)
    ensures v.Invalid? ==> (ConfidenceOutOfRange in v.errors <==> !(0.0 <= confidence <= 1.0))
  {
    var errors := (if hours > 0.0 then [] else [HoursNotPositive]) +
                  (if 0.0 <= confidence <= 1.0 then [] else [ConfidenceOutOfRange]);
    if errors == [] then Valid(EstimationResponse(hours, complexity, confidence, reasoning, factors))
    else Invalid(errors)
  }
}
