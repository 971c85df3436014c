/** `analyzeCreatorDNA` (`src/services/creator-dna/index.ts`): validate the
    input, aggregate the posts, run the four analyzers and assemble the
    profile, or report one of the scanner's error codes. */
module Scanner {
  import opened Optional
  import opened JsText
  import opened JsValues
  import opened DnaTypes
  import Parsers
  import opened Analyzers
  import opened Aggregator
  import opened Schemas

  // ---------------------------------------------------------------- configuration

  datatype FullConfig = FullConfig(
    minPostsForHighConfidence: real,
    defaultConfidencePenalty: real,
    openaiModel: string,
    maxContentLength: real)

  /** `DEFAULT_CONFIG`. */
  const DefaultConfig: FullConfig := FullConfig(20.0, 0.3, "gpt-4-turbo-preview", 12000.0)

  /** The caller passed no configuration: `config = {}`. */
  const NoConfig: ScannerConfig := ScannerConfig(None, None, None, None)

  /** `{ ...DEFAULT_CONFIG, ...config }`: a field the caller gives wins. */
  function MergeConfig(config: ScannerConfig): (c: FullConfig)
    ensures config.minPostsForHighConfidence.Some? ==> c.minPostsForHighConfidence == config.minPostsForHighConfidence.value
    ensures config.minPostsForHighConfidence.None? ==> c.minPostsForHighConfidence == 20.0
    ensures config.defaultConfidencePenalty.Some? ==> c.defaultConfidencePenalty == config.defaultConfidencePenalty.value
    ensures config.defaultConfidencePenalty.None? ==> c.defaultConfidencePenalty == 0.3
    ensures config.openaiModel.Some? ==> c.openaiModel == config.openaiModel.value
    ensures config.openaiModel.None? ==> c.openaiModel == DefaultConfig.openaiModel
    ensures config.maxContentLength.Some? ==> c.maxContentLength == config.maxContentLength.value
    ensures config.maxContentLength.None? ==> c.maxContentLength == 12000.0
    ensures config == NoConfig ==> c == DefaultConfig
  {
    FullConfig(
      config.minPostsForHighConfidence.GetOr(DefaultConfig.minPostsForHighConfidence),
      config.defaultConfidencePenalty.GetOr(DefaultConfig.defaultConfidencePenalty),
      config.openaiModel.GetOr(DefaultConfig.openaiModel),
      config.maxContentLength.GetOr(DefaultConfig.maxContentLength))
  }

  /** A configuration that gives every field: each field read back from the
      merge is the one it gave. */
  function GivenConfig(c: FullConfig): (config: ScannerConfig)
    ensures config.minPostsForHighConfidence.Some? && config.defaultConfidencePenalty.Some?
    ensures config.openaiModel.Some? && config.maxContentLength.Some?
  {
    ScannerConfig(Some(c.minPostsForHighConfidence), Some(c.defaultConfidencePenalty),
                  Some(c.openaiModel), Some(c.maxContentLength))
  }

  /** The defaults never win over a field the caller gives: a complete
      configuration comes back from the merge unchanged. */
  lemma CompleteConfigOverridesDefaults(c: FullConfig)
    ensures MergeConfig(GivenConfig(c)) == c
  {
  }

  // ---------------------------------------------------------------- the outside world

  /** Everything the scanner takes from its host: the model, `JSON.parse`
      and number formatting, the clock's `toISOString()` reading, and the
      datetime check of the schema. */
  datatype Host = Host(llm: Llm, rt: Runtime, now: string, isDatetime: DatetimeCheck)

  /** How the `try` block ended: with a profile, or by throwing. */
  datatype Attempt<T> = Completed(value: T) | Threw

  const InvalidInputMessage: string := "Invalid input data"
  const NoPostsMessage: string := "No posts provided for analysis"
  const AnalysisFailedMessage: string := "Failed to analyze creator content"

  // ---------------------------------------------------------------- steps

  /** Step 5: the profile holds the four analyzer results and nothing else. */
  function AssembleProfile(
    creatorId: string, generatedAt: string,
    tone: AttributeAnalysis<ContentTone>, humor: AttributeAnalysis<Humor>,
    risk: AttributeAnalysis<RiskTolerance>, audience: AttributeAnalysis<AudienceType>)
    : (p: CreatorDnaProfile)
    ensures p.creatorId == creatorId && p.generatedAt == generatedAt
    ensures p.creatorDna.primaryTone == tone.value && p.creatorDna.confidence.tone == tone.confidence
    ensures p.creatorDna.humorLevel == humor.value.level && p.creatorDna.darkHumorPresent == humor.value.darkHumor
    ensures p.creatorDna.confidence.humor == humor.confidence
    ensures p.creatorDna.riskTolerance == risk.value && p.creatorDna.confidence.risk == risk.confidence
    ensures p.creatorDna.audienceType == audience.value && p.creatorDna.confidence.audience == audience.confidence
  {
    CreatorDnaProfile(creatorId, generatedAt,
      CreatorDna(tone.value, humor.value.level, humor.value.darkHumor, risk.value, audience.value,
        ConfidenceScores(tone.confidence, humor.confidence, risk.confidence, audience.confidence)))
  }

  /** Steps 4 and 5 on the aggregated content. */
  function ProfileOf(creatorId: string, content: AggregatedContent, host: Host): (p: CreatorDnaProfile)
    ensures p.creatorId == creatorId && p.generatedAt == host.now
    ensures ValidDna(p.creatorDna)
    ensures content.totalPosts < MinPostsForMediumConfidence ==>
      var c := p.creatorDna.confidence;
      c.tone <= 0.5 && c.humor <= 0.5 && c.risk <= 0.5 && c.audience <= 0.5
  {
    var tone := AnalyzeTone(content, host.llm, host.rt);
    var humor := AnalyzeHumor(content, host.llm, host.rt);
    var risk := AnalyzeRisk(content, host.llm, host.rt);
    var audience := AnalyzeAudience(content, host.llm, host.rt);
    ProfileOfAcceptable(creatorId, host.now, tone, humor, risk, audience, content.totalPosts)
  }

  /** The assembled profile of four acceptable analyses, with a whole humour
      level, satisfies the value constraints of the output schema. */
  function ProfileOfAcceptable(
    creatorId: string, generatedAt: string,
    tone: AttributeAnalysis<ContentTone>, humor: AttributeAnalysis<Humor>,
    risk: AttributeAnalysis<RiskTolerance>, audience: AttributeAnalysis<AudienceType>,
    postCount: nat)
    : (p: CreatorDnaProfile)
    requires Acceptable(tone, postCount) && Acceptable(humor, postCount)
    requires Acceptable(risk, postCount) && Acceptable(audience, postCount)
    requires Parsers.IsInteger(humor.value.level) && 0.0 <= humor.value.level <= 10.0
    ensures p == AssembleProfile(creatorId, generatedAt, tone, humor, risk, audience)
    ensures ValidDna(p.creatorDna)
    ensures postCount < MinPostsForMediumConfidence ==>
      var c := p.creatorDna.confidence;
      c.tone <= 0.5 && c.humor <= 0.5 && c.risk <= 0.5 && c.audience <= 0.5
  {
    AssembleProfile(creatorId, generatedAt, tone, humor, risk, audience)
  }

  /** Steps 3 to 5, the body of the `try` block. Aggregation cannot fail and
      every analyzer catches its own failures, so the block always completes. */
  function RunAnalysis(data: CreatorData, host: Host): (a: Attempt<CreatorDnaProfile>)
    ensures a.Completed?
  {
    Completed(ProfileOf(data.creatorId, AggregateContent(data), host))
  }

  /** The end of the `try` block: a profile is reported as success, anything
      thrown as `LLM_ERROR`. */
  function Conclude(attempt: Attempt<CreatorDnaProfile>): (r: ScannerResult)
    ensures attempt.Completed? <==> r.Succeeded?
    ensures attempt.Completed? ==> r.profile == attempt.value
    ensures attempt.Threw? ==> r.error == ScannerError(LlmError, AnalysisFailedMessage)
  {
    match attempt
    case Completed(profile) => Succeeded(profile)
    case Threw => Failed(ScannerError(LlmError, AnalysisFailedMessage))
  }

  /** `analyzeCreatorDNA`. The input is checked first, against the same
      schema the HTTP route uses; the posts-count check after it can never
      fire, because the schema already demands a post. */
  function AnalyzeCreatorDna(data: CreatorData, config: ScannerConfig, host: Host): (r: ScannerResult)
    ensures !ValidCreatorData(data, host.isDatetime) <==> r == Failed(ScannerError(ValidationError, InvalidInputMessage))
    ensures ValidCreatorData(data, host.isDatetime) <==> r.Succeeded?
    ensures r.Failed? ==> r.error.code != InsufficientData
    ensures r.Succeeded? ==> r.profile.creatorId == data.creatorId && r.profile.generatedAt == host.now
  {
    var mergedConfig := MergeConfig(config);
    ValidateEncoded(data, host.isDatetime);
    if ValidateCreatorData(EncodeCreatorData(data), host.isDatetime).None? then
      Failed(ScannerError(ValidationError, InvalidInputMessage))
    else if |data.posts| == 0 then
      Failed(ScannerError(InsufficientData, NoPostsMessage))
    else
      Conclude(RunAnalysis(data, host))
  }

  // ---------------------------------------------------------------- properties

  /** A request without posts is a validation error, never `INSUFFICIENT_DATA`. */
  lemma EmptyPostsAreInvalid(data: CreatorData, config: ScannerConfig, host: Host)
    requires |data.posts| == 0
    ensures AnalyzeCreatorDna(data, config, host).error.code == ValidationError
  {
  }

  /** A successful profile passes the output schema, provided the clock's
      reading is an ISO datetime (which `toISOString()` always produces). */
  lemma SuccessSatisfiesOutputSchema(data: CreatorData, config: ScannerConfig, host: Host)
    requires host.isDatetime(host.now)
    requires AnalyzeCreatorDna(data, config, host).Succeeded?
    ensures ValidProfile(AnalyzeCreatorDna(data, config, host).profile, host.isDatetime)
  {
    var p := ProfileOf(data.creatorId, AggregateContent(data), host);
  }

  /** The profile is made of exactly the four analyzer results for the
      aggregated posts. */
  lemma ProfileCarriesAnalyses(data: CreatorData, config: ScannerConfig, host: Host)
    requires ValidCreatorData(data, host.isDatetime)
    ensures var dna := AnalyzeCreatorDna(data, config, host).profile.creatorDna;
            var content := AggregateContent(data);
            && dna.primaryTone == AnalyzeTone(content, host.llm, host.rt).value
            && dna.humorLevel == AnalyzeHumor(content, host.llm, host.rt).value.level
            && dna.darkHumorPresent == AnalyzeHumor(content, host.llm, host.rt).value.darkHumor
            && dna.riskTolerance == AnalyzeRisk(content, host.llm, host.rt).value
            && dna.audienceType == AnalyzeAudience(content, host.llm, host.rt).value
            && dna.confidence == ConfidenceScores(
                 AnalyzeTone(content, host.llm, host.rt).confidence,
                 AnalyzeHumor(content, host.llm, host.rt).confidence,
                 AnalyzeRisk(content, host.llm, host.rt).confidence,
                 AnalyzeAudience(content, host.llm, host.rt).confidence)
  {
  }

  /** With fewer than five posts no confidence in the profile exceeds one half. */
  lemma FewPostsCapConfidence(data: CreatorData, config: ScannerConfig, host: Host)
    requires ValidCreatorData(data, host.isDatetime)
    requires |data.posts| < MinPostsForMediumConfidence
    ensures var c := AnalyzeCreatorDna(data, config, host).profile.creatorDna.confidence;
            c.tone <= 0.5 && c.humor <= 0.5 && c.risk <= 0.5 && c.audience <= 0.5
  {
    var content := AggregateContent(data);
    assert content.totalPosts == |data.posts|;
    var p := ProfileOf(data.creatorId, content, host);
  }

  /** The configuration argument is merged and then never read. */
  lemma ConfigIsIgnored(data: CreatorData, c1: ScannerConfig, c2: ScannerConfig, host: Host)
    ensures AnalyzeCreatorDna(data, c1, host) == AnalyzeCreatorDna(data, c2, host)
  {
  }

  /** A model that never answers still yields a profile, made of the four
      fallbacks. */
  lemma SilentModelStillSucceeds(data: CreatorData, config: ScannerConfig, host: Host)
    requires ValidCreatorData(data, host.isDatetime)
    requires forall p :: host.llm(p).None?
    ensures var dna := AnalyzeCreatorDna(data, config, host).profile.creatorDna;
            && dna.primaryTone == Casual && dna.humorLevel == 3.0 && !dna.darkHumorPresent
            && dna.riskTolerance == Medium && dna.audienceType == MassEntertainment
            && dna.confidence == ConfidenceScores(0.3, 0.3, 0.3, 0.3)
  {
    SilentModelGivesFallbacks(AggregateContent(data), host.llm, host.rt);
  }
}
