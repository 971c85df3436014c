/** The scanner's input and output records and its three closed enumerations
    (`src/types/creator-dna.ts`). Field names are written in Dafny style;
    each record keeps the fields and the meaning of its TypeScript original. */
module DnaTypes {
  import Optional

  // ---------------------------------------------------------------- input

  datatype PostType = Reel | Image | Video | Text

  function PostTypeName(t: PostType): string {
    match t
    case Reel => "reel"
    case Image => "image"
    case Video => "video"
    case Text => "text"
  }

  /** Likes, comments and shares of one post. Numbers are reals so that the
      input schema's integer check has something to reject. */
  datatype PostEngagement = PostEngagement(likes: real, comments: real, shares: real)

  datatype CreatorPost = CreatorPost(
    content: string,
    postType: PostType,
    engagement: PostEngagement,
    commentsSample: seq<string>,
    postedAt: string)

  datatype CreatorData = CreatorData(creatorId: string, posts: seq<CreatorPost>)

  // ---------------------------------------------------------------- enumerations

  datatype ContentTone =
    | Casual | Professional | Educational | Satirical
    | Emotional | Political | Inspirational | Entertainment

  /** The tones in the order of `VALID_TONES` and of the keyword table. */
  const AllTones: seq<ContentTone> :=
    [Casual, Professional, Educational, Satirical, Emotional, Political, Inspirational, Entertainment]

  function ToneName(t: ContentTone): string {
    match t
    case Casual => "casual"
    case Professional => "professional"
    case Educational => "educational"
    case Satirical => "satirical"
    case Emotional => "emotional"
    case Political => "political"
    case Inspirational => "inspirational"
    case Entertainment => "entertainment"
  }

  datatype RiskTolerance = Low | Medium | High

  /** The levels in the order of `VALID_RISK_LEVELS`. */
  const AllRiskLevels: seq<RiskTolerance> := [Low, Medium, High]

  function RiskName(r: RiskTolerance): string {
    match r
    case Low => "low"
    case Medium => "medium"
    case High => "high"
  }

  datatype AudienceType =
    | MassEntertainment | NicheTechnical | OpinionDriven | ActivistPolitical
    | EducationalLearner | LifestyleAspirational | CommunityFocused

  /** The audience types in the order of `VALID_AUDIENCE_TYPES` and of the keyword table. */
  const AllAudienceTypes: seq<AudienceType> :=
    [MassEntertainment, NicheTechnical, OpinionDriven, ActivistPolitical,
     EducationalLearner, LifestyleAspirational, CommunityFocused]

  function AudienceName(a: AudienceType): string {
    match a
    case MassEntertainment => "mass entertainment"
    case NicheTechnical => "niche technical"
    case OpinionDriven => "opinion-driven"
    case ActivistPolitical => "activist / political"
    case EducationalLearner => "educational / learner-focused"
    case LifestyleAspirational => "lifestyle / aspirational"
    case CommunityFocused => "community-focused"
  }

  // ---------------------------------------------------------------- output

  datatype ConfidenceScores = ConfidenceScores(tone: real, humor: real, risk: real, audience: real)

  /** `humorLevel` is a JavaScript number; the output schema demands an integer. */
  datatype CreatorDna = CreatorDna(
    primaryTone: ContentTone,
    humorLevel: real,
    darkHumorPresent: bool,
    riskTolerance: RiskTolerance,
    audienceType: AudienceType,
    confidence: ConfidenceScores)

  datatype CreatorDnaProfile = CreatorDnaProfile(
    creatorId: string,
    generatedAt: string,
    creatorDna: CreatorDna)

  // ---------------------------------------------------------------- internal

  /** `Record<PostType, number>`: how many posts have each type. */
  datatype Distribution = Distribution(reel: nat, image: nat, video: nat, text: nat)

  datatype AggregatedContent = AggregatedContent(
    allCaptions: seq<string>,
    allComments: seq<string>,
    combinedText: string,
    totalPosts: nat,
    avgEngagement: PostEngagement,
    postTypeDistribution: Distribution)

  /** One analyzer's answer about one attribute. */
  datatype AttributeAnalysis<T> = AttributeAnalysis(value: T, confidence: real, reasoning: string)

  /** The humour analyzer's value: `{ level, dark_humor }`. */
  datatype Humor = Humor(level: real, darkHumor: bool)

  /** `Partial<ScannerConfig>`: every field may be left out. */
  datatype ScannerConfig = ScannerConfig(
    minPostsForHighConfidence: Optional.Option<real>,
    defaultConfidencePenalty: Optional.Option<real>,
    openaiModel: Optional.Option<string>,
    maxContentLength: Optional.Option<real>)

  datatype ScannerErrorCode = InsufficientData | LlmError | ValidationError | Timeout

  datatype ScannerError = ScannerError(code: ScannerErrorCode, message: string)

  /** `{ success: true, profile } | { success: false, error }`. */
  datatype ScannerResult = Succeeded(profile: CreatorDnaProfile) | Failed(error: ScannerError)
}
