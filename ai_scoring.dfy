/**
 * The remote scoring client (lib/ai-scoring.ts): the checks analyzeSelfiWithAI
 * makes around its one request, the extraction of a JSON object from the
 * model's free text, and the getMockScore fallback. The request itself and
 * JSON.parse are foreign: the response and the parser are inputs.
 */
module AiScoring {
  import opened Wrappers
  import opened Types
  import opened Js
  import opened GlowData

  /** What the vision API's answer is turned into (AIAnalysisResult). */
  datatype AnalysisResult = AnalysisResult(score: real, breakdown: ScoreBreakdown, tips: seq<Tip>, roast: string)

  /**
   * The parts of the HTTP answer the client looks at: response.ok, the body
   * text read on failure, and choices[0]?.message?.content (None when absent).
   */
  datatype ApiResponse = ApiResponse(ok: bool, errorText: string, content: Option<string>)

  /** Each `throw` of analyzeSelfiWithAI; MalformedJson is JSON.parse's own SyntaxError. */
  datatype AiError = MissingApiKey | ApiError(detail: string) | NoResponse | InvalidFormat | MalformedJson

  /** `!OPENAI_API_KEY` is false: the variable is set and not empty. */
  predicate KeyConfigured(apiKey: Option<string>) {
    apiKey.Some? && apiKey.value != ""
  }

  // ---------------------------------------------------------------------
  // content.match(/\{[\s\S]*\}/)
  // ---------------------------------------------------------------------

  /** s[a..b+1] is a match of /\{[\s\S]*\}/: it opens with '{' and closes with a later '}'. */
  predicate IsBraceSpan(s: string, a: int, b: int) {
    0 <= a < b < |s| && s[a] == '{' && s[b] == '}'
  }

  function FirstIndexOf(s: string, c: char): (i: Option<nat>)
    ensures i.Some? ==> i.value < |s| && s[i.value] == c
    ensures i.Some? ==> forall k :: 0 <= k < i.value ==> s[k] != c
    ensures i.None? ==> forall k :: 0 <= k < |s| ==> s[k] != c
  {
    if s == [] then None
    else if s[0] == c then Some(0)
    else match FirstIndexOf(s[1..], c)
      case None => None
      case Some(i) => Some(i + 1)
  }

  function LastIndexOf(s: string, c: char): (i: Option<nat>)
    ensures i.Some? ==> i.value < |s| && s[i.value] == c
    ensures i.Some? ==> forall k :: i.value < k < |s| ==> s[k] != c
    ensures i.None? ==> forall k :: 0 <= k < |s| ==> s[k] != c
  {
    if s == [] then None
    else if s[|s| - 1] == c then Some(|s| - 1)
    else LastIndexOf(s[..|s| - 1], c)
  }

  /**
   * The regular expression's match: from the first '{' to the last '}',
   * provided the first '{' comes before the last '}'. A match exists exactly
   * when some '{' precedes some '}'.
   */
  function ExtractJson(content: string): (m: Option<string>)
    ensures m.Some? <==> exists a, b :: IsBraceSpan(content, a, b)
  {
    match FirstIndexOf(content, '{')
    case None => None
    case Some(i) =>
      match LastIndexOf(content, '}')
      case None => None
      case Some(j) =>
        if i < j then
          assert IsBraceSpan(content, i, j);
          Some(content[i..j + 1])
        else
          assert forall a, b :: IsBraceSpan(content, a, b) ==> i <= a < b <= j;
          None
  }

  /**
   * The extracted text is the leftmost-longest match: a span of the content
   * that opens with '{' and closes with '}', containing every other such span.
   */
  lemma ExtractJsonIsGreedyMatch(content: string)
    requires ExtractJson(content).Some?
    ensures exists i, j ::
      && IsBraceSpan(content, i, j)
      && ExtractJson(content).value == content[i..j + 1]
      && (forall a, b :: IsBraceSpan(content, a, b) ==> i <= a && b <= j)
  {
    var i := FirstIndexOf(content, '{').value;
    var j := LastIndexOf(content, '}').value;
    assert IsBraceSpan(content, i, j);
  }

  /** Extracting again from the extracted text changes nothing. */
  lemma ExtractJsonIdempotent(content: string)
    requires ExtractJson(content).Some?
    ensures ExtractJson(ExtractJson(content).value) == ExtractJson(content)
  {
    var span := ExtractJson(content).value;
    var i := FirstIndexOf(content, '{').value;
    var j := LastIndexOf(content, '}').value;
    assert span == content[i..j + 1];
    assert span[0] == '{' && span[|span| - 1] == '}';
    assert FirstIndexOf(span, '{') == Some(0);
    assert LastIndexOf(span, '}') == Some(|span| - 1);
    assert span[0..|span|] == span;
  }

  // ---------------------------------------------------------------------
  // analyzeSelfiWithAI
  // ---------------------------------------------------------------------

  /**
   * analyzeSelfiWithAI after the request: each guard throws in turn, and the
   * extracted text goes to JSON.parse, whose result is returned unchecked.
   */
  function AnalyzeSelfie(apiKey: Option<string>, response: ApiResponse, parse: string -> Option<AnalysisResult>)
    : (r: Result<AnalysisResult, AiError>)
    ensures !KeyConfigured(apiKey) ==> r == Failure(MissingApiKey)
    ensures r.Success? ==>
      && KeyConfigured(apiKey) && response.ok
      && response.content.Some? && response.content.value != ""
      && ExtractJson(response.content.value).Some?
      && parse(ExtractJson(response.content.value).value) == Some(r.value)
  {
    if !KeyConfigured(apiKey) then Failure(MissingApiKey)
    else if !response.ok then Failure(ApiError(response.errorText))
    else if response.content.None? || response.content.value == "" then Failure(NoResponse)
    else
      match ExtractJson(response.content.value)
      case None => Failure(InvalidFormat)
      case Some(json) =>
        match parse(json)
        case None => Failure(MalformedJson)
        case Some(result) => Success(result)
  }

  /** Without a key the call fails the same way whatever the API would have said: it never asks. */
  lemma NoKeyFailsBeforeRequest(apiKey: Option<string>, r1: ApiResponse, r2: ApiResponse,
                                p1: string -> Option<AnalysisResult>, p2: string -> Option<AnalysisResult>)
    requires !KeyConfigured(apiKey)
    ensures AnalyzeSelfie(apiKey, r1, p1) == AnalyzeSelfie(apiKey, r2, p2) == Failure(MissingApiKey)
  {
  }

  /** Which error each failed guard produces, in the order the checks run. */
  lemma AnalyzeSelfieErrors(apiKey: Option<string>, response: ApiResponse, parse: string -> Option<AnalysisResult>)
    requires KeyConfigured(apiKey)
    ensures !response.ok ==> AnalyzeSelfie(apiKey, response, parse) == Failure(ApiError(response.errorText))
    ensures response.ok && (response.content.None? || response.content.value == "") ==>
      AnalyzeSelfie(apiKey, response, parse) == Failure(NoResponse)
    ensures (response.ok && response.content.Some? && response.content.value != ""
             && !(exists a, b :: IsBraceSpan(response.content.value, a, b))) ==>
      AnalyzeSelfie(apiKey, response, parse) == Failure(InvalidFormat)
    ensures (response.ok && response.content.Some? && response.content.value != ""
             && (exists a, b :: IsBraceSpan(response.content.value, a, b))
             && parse(ExtractJson(response.content.value).value).None?) ==>
      AnalyzeSelfie(apiKey, response, parse) == Failure(MalformedJson)
  {
  }

  /**
   * The call succeeds exactly when the key is set, the response is ok, the
   * content is non-empty, some '{' precedes some '}', and the extracted text
   * parses; the result is then the parsed object.
   */
  lemma AnalyzeSelfieSucceedsIff(apiKey: Option<string>, response: ApiResponse, parse: string -> Option<AnalysisResult>)
    ensures AnalyzeSelfie(apiKey, response, parse).Success? <==>
      && KeyConfigured(apiKey) && response.ok
      && response.content.Some? && response.content.value != ""
      && (exists a, b :: IsBraceSpan(response.content.value, a, b))
      && parse(ExtractJson(response.content.value).value).Some?
    ensures AnalyzeSelfie(apiKey, response, parse).Success? ==>
      AnalyzeSelfie(apiKey, response, parse).value == parse(ExtractJson(response.content.value).value).value
  {
  }

  // ---------------------------------------------------------------------
  // getMockScore
  // ---------------------------------------------------------------------

  const FallbackTips: seq<Tip> := [
    Tip("1", Lighting, "Try natural window light for a softer glow!", "💡"),
    Tip("2", Pose, "Tilt your chin slightly for a defined look!", "📐"),
    Tip("3", Expression, "Your smile is your superpower!", "😊")
  ]

  const FallbackRoast: string := "You're giving main character energy! 🌟"

  /**
   * getMockScore: unlike generateMockScore, every category is rounded first
   * and the overall score is the rounded mean of the ROUNDED categories.
   */
  function GetMockScore(d: ScoreDraw): (r: AnalysisResult)
    ensures GeneratedBreakdown(r.breakdown) && GeneratedField(r.score)
    ensures r.tips == FallbackTips && r.roast == FallbackRoast
  {
    var breakdown := RoundBreakdown(ClampedBreakdown(d));
    RoundBreakdownInRange(d);
    FiveAndTenAreTenths();
    Round1Within(Mean(breakdown), 5.0, 10.0);
    Round1IsTenths(Mean(breakdown));
    AnalysisResult(Round1(Mean(breakdown)), breakdown, FallbackTips, FallbackRoast)
  }

  /**
   * Every category lies in [5, 10] with one decimal, and the score is the
   * one-decimal mean of the categories as returned, also in [5, 10].
   */
  lemma {:induction false} MockScoreInRange(d: ScoreDraw)
    ensures GeneratedBreakdown(GetMockScore(d).breakdown)
    ensures GeneratedField(GetMockScore(d).score)
    ensures GetMockScore(d).score == Round1(Mean(GetMockScore(d).breakdown))
  {
    var b := GetMockScore(d).breakdown;
    RoundBreakdownInRange(d);
    FiveAndTenAreTenths();
    Round1Within(Mean(b), 5.0, 10.0);
    Round1IsTenths(Mean(b));
  }

  /**
   * On the same draws the fallback and the local generator agree on every
   * category, and their overall scores differ by at most one tenth.
   */
  lemma {:induction false} FallbackAgreesWithGenerator(d: ScoreDraw)
    ensures GetMockScore(d).breakdown == GenerateMockScore(d).breakdown
    ensures GenerateMockScore(d).score - 0.1 <= GetMockScore(d).score <= GenerateMockScore(d).score + 0.1
  {
    GeneratedScoreNearRoundedMean(d);
  }

  /**
   * The fallback's tips and roast do not depend on the draws: tips "1", "2",
   * "3" and the first roast of the pool.
   */
  lemma FallbackTextIsFixed(d1: ScoreDraw, d2: ScoreDraw)
    ensures GetMockScore(d1).tips == GetMockScore(d2).tips
    ensures GetMockScore(d1).roast == GetMockScore(d2).roast == Roasts[0]
    ensures |GetMockScore(d1).tips| == 3
    ensures GetMockScore(d1).tips[0].id == "1" && GetMockScore(d1).tips[1].id == "2" && GetMockScore(d1).tips[2].id == "3"
  {
  }
}
