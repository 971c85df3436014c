/** The four attribute analyzers (`src/services/creator-dna/analyzers.ts`):
    one model call each, the answer parsed, its confidence scaled down when
    there are few posts, and a fixed low-confidence answer whenever the call
    fails or its answer cannot be parsed. */
module Analyzers {
  import opened Optional
  import opened JsText
  import opened JsValues
  import opened DnaTypes
  import opened Parsers

  // ---------------------------------------------------------------- the model call

  /** What each prompt is built from. The templates of `src/lib/prompts.ts`
      only arrange these inputs into text, so the model keeps the inputs. */
  datatype Prompt =
    | TonePrompt(text: string)
    | HumorPrompt(text: string)
    | RiskPrompt(text: string, commentsContext: string)
    | AudiencePrompt(text: string, avgLikes: real, avgComments: real, avgShares: real, totalPosts: nat)

  /** `callLLM`: `None` when the request throws, otherwise the message text
      (the empty string when the response carries none). */
  type Llm = Prompt -> Option<string>

  // ---------------------------------------------------------------- confidence penalty

  const MinPostsForFullConfidence: nat := 20
  const MinPostsForMediumConfidence: nat := 5

  /** The factor applied to a confidence: 0.5 below five posts, rising
      linearly to 1 at twenty posts, 1 from there on. */
  function Multiplier(postCount: nat): (m: real)
    ensures 0.5 <= m <= 1.0
    ensures postCount < MinPostsForMediumConfidence ==> m == 0.5
    ensures postCount >= MinPostsForFullConfidence ==> m == 1.0
    ensures MinPostsForMediumConfidence <= postCount < MinPostsForFullConfidence ==>
              m == 0.5 + (postCount - MinPostsForMediumConfidence) as real / 30.0
  {
    if postCount < MinPostsForMediumConfidence then 0.5
    else if postCount < MinPostsForFullConfidence then
      0.5 + 0.5 * (postCount - MinPostsForMediumConfidence) as real
              / (MinPostsForFullConfidence - MinPostsForMediumConfidence) as real
    else 1.0
  }

  /** Between five and twenty posts each further post adds one thirtieth:
      the factor climbs in equal steps from one half to one. */
  lemma MultiplierSteps(n: nat)
    requires MinPostsForMediumConfidence <= n < MinPostsForFullConfidence
    ensures Multiplier(MinPostsForMediumConfidence) == 0.5
    ensures Multiplier(n + 1) == Multiplier(n) + 1.0 / 30.0
  {
  }

  /** More posts never lower the multiplier. */
  lemma MultiplierMonotone(a: nat, b: nat)
    requires a <= b
    ensures Multiplier(a) <= Multiplier(b)
  {
  }

  /** `Math.round` never decreases with its argument. */
  lemma RoundMonotone(x: real, y: real)
    requires x <= y
    ensures Round(x) <= Round(y)
  {
  }

  /** A number with at most two decimals. */
  predicate IsHundredths(x: real) {
    IsInteger(x * 100.0)
  }

  /** `applyDataConfidencePenalty`: the scaled confidence rounded to two decimals. */
  function AdjustConfidence(base: real, postCount: nat): (r: real)
    ensures IsHundredths(r)
    ensures base * Multiplier(postCount) - 0.005 < r <= base * Multiplier(postCount) + 0.005
    ensures 0.0 <= base <= 1.0 ==> 0.0 <= r <= 1.0
    ensures 0.0 <= base <= 1.0 && postCount < MinPostsForMediumConfidence ==> r <= 0.5
  {
    var m := Multiplier(postCount);
    var x := base * m * 100.0;
    var k := Round(x);
    ScaledProductBounds(base, m);
    assert (k as real / 100.0) * 100.0 == k as real;
    assert x / 100.0 == base * m;
    k as real / 100.0
  }

  lemma ScaledProductBounds(base: real, m: real)
    requires 0.5 <= m <= 1.0
    ensures 0.0 <= base <= 1.0 ==> 0.0 <= base * m <= 1.0
    ensures 0.0 <= base <= 1.0 && m == 0.5 ==> base * m <= 0.5
  {
    if 0.0 <= base <= 1.0 {
      assert 0.0 <= base * (1.0 - m);
      assert 0.0 <= base * (m - 0.5);
    }
  }

  /** For a fixed non-negative base, more posts never give a lower confidence. */
  lemma AdjustConfidenceMonotone(base: real, a: nat, b: nat)
    requires 0.0 <= base && a <= b
    ensures AdjustConfidence(base, a) <= AdjustConfidence(base, b)
  {
    MultiplierMonotone(a, b);
    assert base * Multiplier(a) <= base * Multiplier(b);
    RoundMonotone(base * Multiplier(a) * 100.0, base * Multiplier(b) * 100.0);
  }

  /** With twenty posts or more a two-decimal confidence passes unchanged. */
  lemma AdjustConfidenceFull(base: real, postCount: nat)
    requires postCount >= MinPostsForFullConfidence && IsHundredths(base)
    ensures AdjustConfidence(base, postCount) == base
  {
    var k := Round(base * 100.0);
    AdjustConfidenceUnfold(base, postCount);
    assert base * Multiplier(postCount) * 100.0 == base * 100.0;
    RoundOfInteger(base * 100.0);
    assert k as real / 100.0 == base;
  }

  lemma AdjustConfidenceUnfold(base: real, postCount: nat)
    ensures AdjustConfidence(base, postCount) == Round(base * Multiplier(postCount) * 100.0) as real / 100.0
  {
  }

  lemma RoundOfInteger(x: real)
    requires IsInteger(x)
    ensures Round(x) as real == x
  {
    var n := x.Floor;
    var r := Round(x);
    assert n as real == x;
    assert (r as real) < (n + 1) as real && (n - 1) as real < r as real;
    assert n - 1 < r < n + 1;
  }

  /** 0.8 becomes 0.4 with three posts and stays 0.8 with twenty. */
  lemma AdjustConfidenceExamples()
    ensures AdjustConfidence(0.8, 3) == 0.4
    ensures AdjustConfidence(0.8, 20) == 0.8
  {
    assert Round(40.0) == 40;
    assert Round(80.0) == 80;
  }

  // ---------------------------------------------------------------- one analysis

  /** The parsed answer with its confidence replaced by the penalised one;
      value and reasoning are kept. */
  function Penalized<T>(a: AttributeAnalysis<T>, postCount: nat): (r: AttributeAnalysis<T>)
    ensures r.value == a.value && r.reasoning == a.reasoning
    ensures 0.0 <= a.confidence <= 1.0 ==> 0.0 <= r.confidence <= 1.0
  {
    a.(confidence := AdjustConfidence(a.confidence, postCount))
  }

  /** The shared shape of every analyzer: the parsed answer, penalised, or
      the fallback unchanged when the call failed or the answer did not parse. */
  function Settle<T>(answer: Option<AttributeAnalysis<T>>, postCount: nat, fallback: AttributeAnalysis<T>)
    : (r: AttributeAnalysis<T>)
    requires answer.Some? ==> 0.0 <= answer.value.confidence <= 1.0
    ensures answer.None? ==> r == fallback
    ensures answer.Some? ==> r.value == answer.value.value && r.reasoning == answer.value.reasoning
    ensures answer.Some? ==> 0.0 <= r.confidence <= 1.0
    ensures answer.Some? && postCount < MinPostsForMediumConfidence ==> r.confidence <= 0.5
  {
    match answer
    case None => fallback
    case Some(a) => Penalized(a, postCount)
  }

  /** The low confidence every fallback carries. */
  const FallbackConfidence: real := 0.3

  const ToneFallback: AttributeAnalysis<ContentTone> :=
    AttributeAnalysis(Casual, FallbackConfidence, "Unable to determine tone, defaulting to casual")

  const HumorFallback: AttributeAnalysis<Humor> :=
    AttributeAnalysis(Humor(3.0, false), FallbackConfidence, "Unable to determine humor level, defaulting to moderate")

  const RiskFallback: AttributeAnalysis<RiskTolerance> :=
    AttributeAnalysis(Medium, FallbackConfidence, "Unable to determine risk tolerance, defaulting to medium")

  const AudienceFallback: AttributeAnalysis<AudienceType> :=
    AttributeAnalysis(MassEntertainment, FallbackConfidence,
                      "Unable to determine audience type, defaulting to mass entertainment")

  /** The call followed by a parse, inside the analyzers' `try`: `None`
      when the call throws, when the parser returns `null`, and when the
      parser throws, since the `catch` and the `if (parsed)` both fall
      through to the fallback. */
  function Ask<T>(llm: Llm, prompt: Prompt, parse: string -> ParseOutcome<T>): (r: Option<T>)
    ensures r.Some? <==> llm(prompt).Some? && parse(llm(prompt).value).Parsed?
    ensures r.Some? ==> r.value == parse(llm(prompt).value).analysis
  {
    match llm(prompt)
    case None => None
    case Some(text) =>
      match parse(text)
      case Parsed(a) => Some(a)
      case _ => None
  }

  // ---------------------------------------------------------------- the four analyzers

  /** An analyzer result the profile can carry: a confidence in [0, 1],
      capped at one half while there are fewer than five posts. */
  predicate Acceptable<T>(r: AttributeAnalysis<T>, postCount: nat) {
    && 0.0 <= r.confidence <= 1.0
    && (postCount < MinPostsForMediumConfidence ==> r.confidence <= 0.5)
  }

  function ToneAnswer(content: AggregatedContent, llm: Llm, rt: Runtime): Option<AttributeAnalysis<ContentTone>> {
    Ask(llm, TonePrompt(content.combinedText), text => ParseToneResponse(text, rt))
  }

  /** `analyzeTone`. */
  function AnalyzeTone(content: AggregatedContent, llm: Llm, rt: Runtime): (r: AttributeAnalysis<ContentTone>)
    ensures Acceptable(r, content.totalPosts)
    ensures ToneAnswer(content, llm, rt).None? ==> r == ToneFallback
    ensures ToneAnswer(content, llm, rt).Some? ==>
      r == Penalized(ToneAnswer(content, llm, rt).value, content.totalPosts)
  {
    Settle(ToneAnswer(content, llm, rt), content.totalPosts, ToneFallback)
  }

  function HumorAnswer(content: AggregatedContent, llm: Llm, rt: Runtime): Option<AttributeAnalysis<Humor>> {
    Ask(llm, HumorPrompt(content.combinedText), text => ParseHumorResponse(text, rt))
  }

  /** `analyzeHumor`; the level is always a whole number from 0 to 10. */
  function AnalyzeHumor(content: AggregatedContent, llm: Llm, rt: Runtime): (r: AttributeAnalysis<Humor>)
    ensures Acceptable(r, content.totalPosts)
    ensures IsInteger(r.value.level) && 0.0 <= r.value.level <= 10.0
    ensures HumorAnswer(content, llm, rt).None? ==> r == HumorFallback
    ensures HumorAnswer(content, llm, rt).Some? ==>
      r == Penalized(HumorAnswer(content, llm, rt).value, content.totalPosts)
  {
    assert IsInteger(3.0) by { assert Round(3.0) == 3; }
    Settle(HumorAnswer(content, llm, rt), content.totalPosts, HumorFallback)
  }

  /** The comments the risk prompt sees: the first thirty, raw, one per line. */
  const RiskCommentCount: nat := 30

  function RiskCommentsContext(comments: seq<string>): (s: string)
    ensures |comments| <= RiskCommentCount ==> s == Join(comments, "\n")
    ensures |comments| > RiskCommentCount ==> s == Join(comments[..RiskCommentCount], "\n")
  {
    if |comments| <= RiskCommentCount then Join(comments, "\n")
    else Join(comments[..RiskCommentCount], "\n")
  }

  /** Comments after the thirtieth never reach the prompt. */
  lemma LaterCommentsIgnored(comments: seq<string>, more: seq<string>)
    requires |comments| >= RiskCommentCount
    ensures RiskCommentsContext(comments + more) == RiskCommentsContext(comments)
  {
    var head := comments[..RiskCommentCount];
    assert (comments + more)[..RiskCommentCount] == head;
    assert RiskCommentsContext(comments) == Join(head, "\n") by {
      if |comments| == RiskCommentCount { assert head == comments; }
    }
    assert RiskCommentsContext(comments + more) == Join(head, "\n") by {
      if |comments + more| == RiskCommentCount { assert head == comments + more; }
    }
  }

  function RiskAnswer(content: AggregatedContent, llm: Llm, rt: Runtime): Option<AttributeAnalysis<RiskTolerance>> {
    Ask(llm, RiskPrompt(content.combinedText, RiskCommentsContext(content.allComments)),
        text => ParseRiskResponse(text, rt))
  }

  /** `analyzeRisk`. */
  function AnalyzeRisk(content: AggregatedContent, llm: Llm, rt: Runtime): (r: AttributeAnalysis<RiskTolerance>)
    ensures Acceptable(r, content.totalPosts)
    ensures RiskAnswer(content, llm, rt).None? ==> r == RiskFallback
    ensures RiskAnswer(content, llm, rt).Some? ==>
      r == Penalized(RiskAnswer(content, llm, rt).value, content.totalPosts)
  {
    Settle(RiskAnswer(content, llm, rt), content.totalPosts, RiskFallback)
  }

  function AudienceAnswer(content: AggregatedContent, llm: Llm, rt: Runtime): Option<AttributeAnalysis<AudienceType>> {
    var e := content.avgEngagement;
    Ask(llm, AudiencePrompt(content.combinedText, e.likes, e.comments, e.shares, content.totalPosts),
        text => ParseAudienceResponse(text, rt))
  }

  /** `analyzeAudience`. */
  function AnalyzeAudience(content: AggregatedContent, llm: Llm, rt: Runtime): (r: AttributeAnalysis<AudienceType>)
    ensures Acceptable(r, content.totalPosts)
    ensures AudienceAnswer(content, llm, rt).None? ==> r == AudienceFallback
    ensures AudienceAnswer(content, llm, rt).Some? ==>
      r == Penalized(AudienceAnswer(content, llm, rt).value, content.totalPosts)
  {
    Settle(AudienceAnswer(content, llm, rt), content.totalPosts, AudienceFallback)
  }

  // ---------------------------------------------------------------- end to end

  /** A model that fails outright yields all four fallbacks, unpenalised. */
  lemma SilentModelGivesFallbacks(content: AggregatedContent, llm: Llm, rt: Runtime)
    requires forall p :: llm(p).None?
    ensures AnalyzeTone(content, llm, rt) == ToneFallback
    ensures AnalyzeHumor(content, llm, rt) == HumorFallback
    ensures AnalyzeRisk(content, llm, rt) == RiskFallback
    ensures AnalyzeAudience(content, llm, rt) == AudienceFallback
  {
  }

  /** A model that answers with text holding no braces pair also yields the fallbacks. */
  lemma BracelessAnswerGivesFallback(content: AggregatedContent, llm: Llm, rt: Runtime)
    requires forall p :: llm(p).Some? && ExtractJsonSpan(llm(p).value).None?
    ensures AnalyzeTone(content, llm, rt) == ToneFallback
    ensures AnalyzeHumor(content, llm, rt) == HumorFallback
    ensures AnalyzeRisk(content, llm, rt) == RiskFallback
    ensures AnalyzeAudience(content, llm, rt) == AudienceFallback
  {
  }

  /** An answer whose `reasoning` cannot be converted by `String` (an object
      with its own `toString` key) makes every parser throw; the analyzers
      catch that and return their fallbacks. */
  lemma UnconvertibleReasoningGivesFallbacks(content: AggregatedContent, llm: Llm, rt: Runtime)
    requires forall p :: llm(p).Some? && ParsedRecord(llm(p).value, rt).Some?
    requires forall p :: ToStrThrows(Get(ParsedRecord(llm(p).value, rt).value, "reasoning"))
    ensures AnalyzeTone(content, llm, rt) == ToneFallback
    ensures AnalyzeHumor(content, llm, rt) == HumorFallback
    ensures AnalyzeRisk(content, llm, rt) == RiskFallback
    ensures AnalyzeAudience(content, llm, rt) == AudienceFallback
  {
  }

  /** A model that answers with a tone analysis the parser would itself
      produce has that answer returned, with only its confidence penalised. */
  lemma ToneAnswerRoundTrip(content: AggregatedContent, llm: Llm, rt: Runtime, a: AttributeAnalysis<ContentTone>)
    requires Normalized(a)
    requires llm(TonePrompt(content.combinedText)).Some?
    requires ExtractJsonSpan(llm(TonePrompt(content.combinedText)).value).Some?
    requires rt.parseJson(ExtractJsonSpan(llm(TonePrompt(content.combinedText)).value).value) == Some(ToneRecord(a))
    ensures AnalyzeTone(content, llm, rt).value == a.value
    ensures AnalyzeTone(content, llm, rt).reasoning == a.reasoning
    ensures AnalyzeTone(content, llm, rt).confidence == AdjustConfidence(a.confidence, content.totalPosts)
  {
    ToneResponseFixedPoint(llm(TonePrompt(content.combinedText)).value, rt, a);
  }
}
