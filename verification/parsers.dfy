/** The response parsers (`src/services/creator-dna/parsers.ts`): untrusted
    model text in, a closed enumeration value or a clamped number out. A
    parser gives `NoRecord` when no JSON object can be recovered from the
    text, and `ParseThrew` when `String(...)` throws on a recovered field. */
module Parsers {
  import opened Optional
  import opened JsText
  import opened JsValues
  import opened DnaTypes

  // ---------------------------------------------------------------- JSON span

  /** Index of the first `c` in `text`. */
  function FirstIndexOf(text: string, c: char): (r: Option<nat>)
    ensures r.None? <==> forall k :: 0 <= k < |text| ==> text[k] != c
    ensures r.Some? ==> r.value < |text| && text[r.value] == c
    ensures r.Some? ==> forall k :: 0 <= k < r.value ==> text[k] != c
    decreases |text|
  {
    if |text| == 0 then None
    else if text[0] == c then Some(0)
    else
      match FirstIndexOf(text[1..], c)
      case None => None
      case Some(i) => Some(i + 1)
  }

  /** Index of the last `c` in `text`. */
  function LastIndexOf(text: string, c: char): (r: Option<nat>)
    ensures r.None? <==> forall k :: 0 <= k < |text| ==> text[k] != c
    ensures r.Some? ==> r.value < |text| && text[r.value] == c
    ensures r.Some? ==> forall k :: r.value < k < |text| ==> text[k] != c
    decreases |text|
  {
    if |text| == 0 then None
    else if text[|text| - 1] == c then Some(|text| - 1)
    else LastIndexOf(text[..|text| - 1], c)
  }

  /** `text[i..j]` (both ends included) is what `/\{[\s\S]*\}/` matches: it
      opens at the first `{` and closes at the last `}`. */
  predicate JsonSpanAt(text: string, i: int, j: int) {
    && 0 <= i < j < |text|
    && text[i] == '{' && text[j] == '}'
    && (forall k :: 0 <= k < i ==> text[k] != '{')
    && (forall k :: j < k < |text| ==> text[k] != '}')
  }

  /** `text.match(/\{[\s\S]*\}/)?.[0]`. */
  function ExtractJsonSpan(text: string): (r: Option<string>)
    ensures r.Some? <==> exists a, b :: 0 <= a < b < |text| && text[a] == '{' && text[b] == '}'
    ensures r.Some? ==> exists i, j :: JsonSpanAt(text, i, j) && r.value == text[i..j + 1]
  {
    match (FirstIndexOf(text, '{'), LastIndexOf(text, '}'))
    case (Some(i), Some(j)) =>
      if i < j then
        assert JsonSpanAt(text, i, j);
        Some(text[i..j + 1])
      else None
    case _ => None
  }

  /** `safeParseJSON`: `None` when there is no span or `JSON.parse` throws on it. */
  function SafeParseJson(text: string, rt: Runtime): (r: Option<JsValue>)
    ensures r.None? <==> ExtractJsonSpan(text).None? || rt.parseJson(ExtractJsonSpan(text).value).None?
    ensures r.Some? ==> r == rt.parseJson(ExtractJsonSpan(text).value)
  {
    match ExtractJsonSpan(text)
    case None => None
    case Some(span) => rt.parseJson(span)
  }

  /** The record every parser reads its fields from; `None` is the
      `!parsed || typeof parsed !== 'object'` exit. */
  function ParsedRecord(text: string, rt: Runtime): Option<JsValue> {
    var parsed := SafeParseJson(text, rt);
    if parsed.Some? && Truthy(parsed.value) && IsObjectType(parsed.value) then parsed else None
  }

  /** A parser gives up exactly when the text holds no `{`…`}` span, the span
      does not parse, or it parses to something other than an object or array. */
  lemma ParsedRecordFails(text: string, rt: Runtime)
    ensures ParsedRecord(text, rt).None? <==>
      || !(exists a, b :: 0 <= a < b < |text| && text[a] == '{' && text[b] == '}')
      || rt.parseJson(ExtractJsonSpan(text).value).None?
      || !(rt.parseJson(ExtractJsonSpan(text).value).value.Obj? || rt.parseJson(ExtractJsonSpan(text).value).value.Arr?)
  {
  }

  // ---------------------------------------------------------------- numbers

  /** `clamp(value, min, max)`, i.e. `Math.max(min, Math.min(max, value))`. */
  function Clamp(value: real, lo: real, hi: real): (r: real)
    ensures lo <= hi ==> lo <= r <= hi
    ensures lo <= value <= hi ==> r == value
    ensures value < lo ==> r == lo
    ensures lo <= hi < value ==> r == hi
  {
    var m := if hi < value then hi else value;
    if lo > m then lo else m
  }

  /** `Math.round(x)`: the nearest integer, with halves rounded up. */
  function Round(x: real): (r: int)
    ensures r as real - 0.5 <= x < r as real + 0.5
  {
    (x + 0.5).Floor
  }

  predicate IsInteger(x: real) {
    x.Floor as real == x
  }

  // ---------------------------------------------------------------- shared fields

  const DefaultConfidence: real := 0.5
  const NoReasoning: string := "No reasoning provided"

  /** `clamp(typeof data.confidence === 'number' ? data.confidence : 0.5, 0, 1)`. */
  function ConfidenceField(data: JsValue): (c: real)
    ensures 0.0 <= c <= 1.0
    ensures Get(data, "confidence").Num? && 0.0 <= Get(data, "confidence").n <= 1.0 ==>
              c == Get(data, "confidence").n
    ensures Get(data, "confidence").Num? && Get(data, "confidence").n < 0.0 ==> c == 0.0
    ensures Get(data, "confidence").Num? && Get(data, "confidence").n > 1.0 ==> c == 1.0
    ensures !Get(data, "confidence").Num? ==> c == DefaultConfidence
  {
    var raw := match Get(data, "confidence") case Num(n) => n case _ => DefaultConfidence;
    Clamp(raw, 0.0, 1.0)
  }

  /** `String(data.reasoning || 'No reasoning provided')`; `None` when
      `String` throws. */
  function ReasoningField(data: JsValue, rt: Runtime): (s: Option<string>)
    ensures s.None? <==> ToStrThrows(Get(data, "reasoning"))
    ensures !Truthy(Get(data, "reasoning")) ==> s == Some(NoReasoning)
    ensures Get(data, "reasoning").Str? && Get(data, "reasoning").s != "" ==> s == Some(Get(data, "reasoning").s)
  {
    ToStr(Or(Get(data, "reasoning"), Str(NoReasoning)), rt)
  }

  /** `String(data[key] || '')`: the text of an enumeration field; `None`
      when `String` throws. */
  function TextField(data: JsValue, key: string, rt: Runtime): (s: Option<string>)
    ensures s.None? <==> ToStrThrows(Get(data, key))
    ensures !Truthy(Get(data, key)) ==> s == Some("")
    ensures Get(data, key).Str? ==> s == Some(Get(data, key).s)
  {
    ToStr(Or(Get(data, key), Str("")), rt)
  }

  /** How a parser ends: it returns `null`, it throws (from a `String` call
      on a field), or it returns an analysis. */
  datatype ParseOutcome<T> = NoRecord | ParseThrew | Parsed(analysis: T)

  // ---------------------------------------------------------------- enumerations

  /** `VALID_….includes(s)`: the category whose name is exactly `s`. */
  function LookupName<T>(s: string, cats: seq<T>, name: T -> string): (r: Option<T>)
    ensures r.Some? ==> r.value in cats && name(r.value) == s
    ensures r.None? ==> forall k :: 0 <= k < |cats| ==> name(cats[k]) != s
  {
    if |cats| == 0 then None
    else if name(cats[0]) == s then Some(cats[0])
    else LookupName(s, cats[1..], name)
  }

  /** Some keyword of `words` occurs in `lower`. */
  ghost predicate HitsKeyword(lower: string, words: seq<string>) {
    exists k :: 0 <= k < |words| && Includes(lower, words[k])
  }

  lemma HitsKeywordShift(lower: string, words: seq<string>)
    requires |words| > 0
    ensures HitsKeyword(lower, words) <==> Includes(lower, words[0]) || HitsKeyword(lower, words[1..])
  {
    if HitsKeyword(lower, words) && !Includes(lower, words[0]) {
      var k :| 0 <= k < |words| && Includes(lower, words[k]);
      assert words[1..][k - 1] == words[k];
    }
    if HitsKeyword(lower, words[1..]) {
      var k :| 0 <= k < |words[1..]| && Includes(lower, words[1..][k]);
      assert words[k + 1] == words[1..][k];
    }
  }

  /** `words.some(word => lower.includes(word))`. */
  function AnyIncludes(lower: string, words: seq<string>): (r: bool)
    ensures r <==> HitsKeyword(lower, words)
  {
    if |words| == 0 then false
    else
      HitsKeywordShift(lower, words);
      SearchIncludes(lower, words[0]) || AnyIncludes(lower, words[1..])
  }

  /** Position of the first category, in table order, one of whose keywords
      occurs in `lower`: the `for … of Object.entries(keywords)` scan. */
  function FirstHit<T>(lower: string, cats: seq<T>, keywords: T -> seq<string>): (r: Option<nat>)
    ensures r.Some? ==> r.value < |cats| && HitsKeyword(lower, keywords(cats[r.value]))
    ensures r.Some? ==> forall j :: 0 <= j < r.value ==> !HitsKeyword(lower, keywords(cats[j]))
    ensures r.None? ==> forall j :: 0 <= j < |cats| ==> !HitsKeyword(lower, keywords(cats[j]))
  {
    if |cats| == 0 then None
    else if AnyIncludes(lower, keywords(cats[0])) then Some(0)
    else
      match FirstHit(lower, cats[1..], keywords)
      case None => None
      case Some(i) => Some(i + 1)
  }

  // ---------------------------------------------------------------- tone

  function ToneKeywords(t: ContentTone): seq<string> {
    match t
    case Casual => ["casual", "relaxed", "friendly", "informal", "chill"]
    case Professional => ["professional", "formal", "business", "corporate"]
    case Educational => ["educational", "teaching", "tutorial", "informative", "learning"]
    case Satirical => ["satirical", "satire", "parody", "mock"]
    case Emotional => ["emotional", "personal", "vulnerable", "heartfelt"]
    case Political => ["political", "politics", "advocacy", "activist"]
    case Inspirational => ["inspirational", "motivational", "uplifting", "empowering"]
    case Entertainment => ["entertainment", "fun", "viral", "meme", "comedy"]
  }

  lemma ToneListed(t: ContentTone)
    ensures t in AllTones
  {
  }

  /** `findClosestTone`. */
  function FindClosestTone(input: string): (t: ContentTone)
    ensures t != Casual ==> HitsKeyword(Lower(input), ToneKeywords(t))
  {
    match FirstHit(Lower(input), AllTones, ToneKeywords)
    case Some(k) => AllTones[k]
    case None => Casual
  }

  /** `t` is the first tone in table order with a keyword occurring in `lower`. */
  ghost predicate FirstToneHit(lower: string, t: ContentTone) {
    exists k :: 0 <= k < |AllTones| && AllTones[k] == t && HitsKeyword(lower, ToneKeywords(t))
                && forall j :: 0 <= j < k ==> !HitsKeyword(lower, ToneKeywords(AllTones[j]))
  }

  /** The tone the parser settles on for the text of `primary_tone`: an exact
      (lower-cased) name is kept; otherwise the first tone whose keyword occurs
      wins; failing that, `casual`. */
  function NormalizeTone(raw: string): (t: ContentTone)
    ensures (exists u :: ToneName(u) == Lower(raw)) ==> ToneName(t) == Lower(raw)
    ensures (forall u :: ToneName(u) != Lower(raw)) ==>
              || FirstToneHit(Lower(raw), t)
              || (t == Casual && forall u :: !HitsKeyword(Lower(raw), ToneKeywords(u)))
  {
    match LookupName(Lower(raw), AllTones, ToneName)
    case Some(t) => t
    case None =>
      ToneNamesListed(Lower(raw));
      FindClosestToneSpec(raw);
      FindClosestTone(raw)
  }

  lemma ToneNamesListed(s: string)
    requires forall k :: 0 <= k < |AllTones| ==> ToneName(AllTones[k]) != s
    ensures forall u :: ToneName(u) != s
  {
    forall u ensures ToneName(u) != s {
      ToneListed(u);
    }
  }

  lemma FindClosestToneSpec(raw: string)
    ensures || FirstToneHit(Lower(raw), FindClosestTone(raw))
            || (FindClosestTone(raw) == Casual && forall u :: !HitsKeyword(Lower(raw), ToneKeywords(u)))
  {
    match FirstHit(Lower(raw), AllTones, ToneKeywords)
    case Some(k) =>
      assert AllTones[k] == FindClosestTone(raw);
    case None =>
      forall u ensures !HitsKeyword(Lower(raw), ToneKeywords(u)) {
        ToneListed(u);
      }
  }

  // ---------------------------------------------------------------- risk

  lemma RiskListed(r: RiskTolerance)
    ensures r in AllRiskLevels
  {
  }

  /** The risk level for the text of `risk_tolerance`: an exact (lower-cased)
      name, or `medium` for anything else; there is no keyword fallback. */
  function NormalizeRisk(raw: string): (r: RiskTolerance)
    ensures (exists u :: RiskName(u) == Lower(raw)) ==> RiskName(r) == Lower(raw)
    ensures (forall u :: RiskName(u) != Lower(raw)) ==> r == Medium
  {
    match LookupName(Lower(raw), AllRiskLevels, RiskName)
    case Some(r) => r
    case None =>
      RiskNamesListed(Lower(raw));
      Medium
  }

  lemma RiskNamesListed(s: string)
    requires forall k :: 0 <= k < |AllRiskLevels| ==> RiskName(AllRiskLevels[k]) != s
    ensures forall u :: RiskName(u) != s
  {
    forall u ensures RiskName(u) != s {
      RiskListed(u);
    }
  }

  // ---------------------------------------------------------------- audience

  function AudienceKeywords(a: AudienceType): seq<string> {
    match a
    case MassEntertainment => ["mass", "entertainment", "general", "broad", "viral"]
    case NicheTechnical => ["niche", "technical", "expert", "specialized", "tech"]
    case OpinionDriven => ["opinion", "commentary", "reaction", "debate"]
    case ActivistPolitical => ["activist", "political", "cause", "advocacy"]
    case EducationalLearner => ["educational", "learner", "student", "learning"]
    case LifestyleAspirational => ["lifestyle", "aspirational", "aesthetic"]
    case CommunityFocused => ["community", "loyal", "fanbase", "tight-knit"]
  }

  lemma AudienceListed(a: AudienceType)
    ensures a in AllAudienceTypes
  {
  }

  /** `findClosestAudienceType`. */
  function FindClosestAudienceType(input: string): (a: AudienceType)
    ensures a != MassEntertainment ==> HitsKeyword(Lower(input), AudienceKeywords(a))
  {
    match FirstHit(Lower(input), AllAudienceTypes, AudienceKeywords)
    case Some(k) => AllAudienceTypes[k]
    case None => MassEntertainment
  }

  /** `a` is the first audience type in table order with a keyword occurring in `lower`. */
  ghost predicate FirstAudienceHit(lower: string, a: AudienceType) {
    exists k :: 0 <= k < |AllAudienceTypes| && AllAudienceTypes[k] == a
                && HitsKeyword(lower, AudienceKeywords(a))
                && forall j :: 0 <= j < k ==> !HitsKeyword(lower, AudienceKeywords(AllAudienceTypes[j]))
  }

  /** The audience type for the text of `audience_type`: an exact (lower-cased)
      name is kept; otherwise the first type whose keyword occurs; failing
      that, `mass entertainment`. */
  function NormalizeAudience(raw: string): (a: AudienceType)
    ensures (exists u :: AudienceName(u) == Lower(raw)) ==> AudienceName(a) == Lower(raw)
    ensures (forall u :: AudienceName(u) != Lower(raw)) ==>
              || FirstAudienceHit(Lower(raw), a)
              || (a == MassEntertainment && forall u :: !HitsKeyword(Lower(raw), AudienceKeywords(u)))
  {
    match LookupName(Lower(raw), AllAudienceTypes, AudienceName)
    case Some(a) => a
    case None =>
      AudienceNamesListed(Lower(raw));
      FindClosestAudienceSpec(raw);
      FindClosestAudienceType(raw)
  }

  lemma AudienceNamesListed(s: string)
    requires forall k :: 0 <= k < |AllAudienceTypes| ==> AudienceName(AllAudienceTypes[k]) != s
    ensures forall u :: AudienceName(u) != s
  {
    forall u ensures AudienceName(u) != s {
      AudienceListed(u);
    }
  }

  lemma FindClosestAudienceSpec(raw: string)
    ensures || FirstAudienceHit(Lower(raw), FindClosestAudienceType(raw))
            || (FindClosestAudienceType(raw) == MassEntertainment
                && forall u :: !HitsKeyword(Lower(raw), AudienceKeywords(u)))
  {
    match FirstHit(Lower(raw), AllAudienceTypes, AudienceKeywords)
    case Some(k) =>
      assert AllAudienceTypes[k] == FindClosestAudienceType(raw);
    case None =>
      forall u ensures !HitsKeyword(Lower(raw), AudienceKeywords(u)) {
        AudienceListed(u);
      }
  }

  // ---------------------------------------------------------------- the four parsers

  function ToneFromRecord(data: JsValue, rt: Runtime): ParseOutcome<AttributeAnalysis<ContentTone>> {
    match (TextField(data, "primary_tone", rt), ReasoningField(data, rt))
    case (Some(tone), Some(reasoning)) =>
      Parsed(AttributeAnalysis(NormalizeTone(tone), ConfidenceField(data), reasoning))
    case _ => ParseThrew
  }

  /** `parseToneResponse`. */
  function ParseToneResponse(response: string, rt: Runtime): (r: ParseOutcome<AttributeAnalysis<ContentTone>>)
    ensures r.NoRecord? <==> ParsedRecord(response, rt).None?
    ensures r.ParseThrew? <==>
      ParsedRecord(response, rt).Some?
      && (ToStrThrows(Get(ParsedRecord(response, rt).value, "primary_tone"))
          || ToStrThrows(Get(ParsedRecord(response, rt).value, "reasoning")))
    ensures r.Parsed? ==>
      var data := ParsedRecord(response, rt).value;
      && r.analysis.value == NormalizeTone(TextField(data, "primary_tone", rt).value)
      && r.analysis.confidence == ConfidenceField(data)
      && r.analysis.reasoning == ReasoningField(data, rt).value
    ensures r.Parsed? ==> 0.0 <= r.analysis.confidence <= 1.0
  {
    match ParsedRecord(response, rt)
    case None => NoRecord
    case Some(data) => ToneFromRecord(data, rt)
  }

  /** `clamp(Math.round(typeof data.humor_level === 'number' ? data.humor_level : 0), 0, 10)`. */
  function HumorLevelField(data: JsValue): (level: real)
    ensures IsInteger(level) && 0.0 <= level <= 10.0
    ensures !Get(data, "humor_level").Num? ==> level == 0.0
    ensures (Get(data, "humor_level").Num? && IsInteger(Get(data, "humor_level").n)
             && 0.0 <= Get(data, "humor_level").n <= 10.0) ==> level == Get(data, "humor_level").n
    ensures Get(data, "humor_level").Num? && Get(data, "humor_level").n < 0.5 ==> level == 0.0
    ensures Get(data, "humor_level").Num? && Get(data, "humor_level").n >= 9.5 ==> level == 10.0
    ensures Get(data, "humor_level").Num? && 0.5 <= Get(data, "humor_level").n < 9.5 ==>
              level - 0.5 <= Get(data, "humor_level").n < level + 0.5
  {
    var raw := match Get(data, "humor_level") case Num(n) => n case _ => 0.0;
    Clamp(Round(raw) as real, 0.0, 10.0)
  }

  function HumorFromRecord(data: JsValue, rt: Runtime): ParseOutcome<AttributeAnalysis<Humor>> {
    match ReasoningField(data, rt)
    case Some(reasoning) =>
      Parsed(AttributeAnalysis(
        Humor(HumorLevelField(data), Truthy(Get(data, "dark_humor_present"))),
        ConfidenceField(data),
        reasoning))
    case None => ParseThrew
  }

  /** `parseHumorResponse`. */
  function ParseHumorResponse(response: string, rt: Runtime): (r: ParseOutcome<AttributeAnalysis<Humor>>)
    ensures r.NoRecord? <==> ParsedRecord(response, rt).None?
    ensures r.ParseThrew? <==>
      ParsedRecord(response, rt).Some? && ToStrThrows(Get(ParsedRecord(response, rt).value, "reasoning"))
    ensures r.Parsed? ==>
      var data := ParsedRecord(response, rt).value;
      && r.analysis.value.level == HumorLevelField(data)
      && r.analysis.value.darkHumor == Truthy(Get(data, "dark_humor_present"))
      && r.analysis.confidence == ConfidenceField(data)
      && r.analysis.reasoning == ReasoningField(data, rt).value
    ensures r.Parsed? ==> IsInteger(r.analysis.value.level) && 0.0 <= r.analysis.value.level <= 10.0
    ensures r.Parsed? ==> 0.0 <= r.analysis.confidence <= 1.0
  {
    match ParsedRecord(response, rt)
    case None => NoRecord
    case Some(data) => HumorFromRecord(data, rt)
  }

  function RiskFromRecord(data: JsValue, rt: Runtime): ParseOutcome<AttributeAnalysis<RiskTolerance>> {
    match (TextField(data, "risk_tolerance", rt), ReasoningField(data, rt))
    case (Some(risk), Some(reasoning)) =>
      Parsed(AttributeAnalysis(NormalizeRisk(risk), ConfidenceField(data), reasoning))
    case _ => ParseThrew
  }

  /** `parseRiskResponse`. */
  function ParseRiskResponse(response: string, rt: Runtime): (r: ParseOutcome<AttributeAnalysis<RiskTolerance>>)
    ensures r.NoRecord? <==> ParsedRecord(response, rt).None?
    ensures r.ParseThrew? <==>
      ParsedRecord(response, rt).Some?
      && (ToStrThrows(Get(ParsedRecord(response, rt).value, "risk_tolerance"))
          || ToStrThrows(Get(ParsedRecord(response, rt).value, "reasoning")))
    ensures r.Parsed? ==>
      var data := ParsedRecord(response, rt).value;
      && r.analysis.value == NormalizeRisk(TextField(data, "risk_tolerance", rt).value)
      && r.analysis.confidence == ConfidenceField(data)
      && r.analysis.reasoning == ReasoningField(data, rt).value
    ensures r.Parsed? ==> 0.0 <= r.analysis.confidence <= 1.0
  {
    match ParsedRecord(response, rt)
    case None => NoRecord
    case Some(data) => RiskFromRecord(data, rt)
  }

  function AudienceFromRecord(data: JsValue, rt: Runtime): ParseOutcome<AttributeAnalysis<AudienceType>> {
    match (TextField(data, "audience_type", rt), ReasoningField(data, rt))
    case (Some(audience), Some(reasoning)) =>
      Parsed(AttributeAnalysis(NormalizeAudience(audience), ConfidenceField(data), reasoning))
    case _ => ParseThrew
  }

  /** `parseAudienceResponse`. */
  function ParseAudienceResponse(response: string, rt: Runtime): (r: ParseOutcome<AttributeAnalysis<AudienceType>>)
    ensures r.NoRecord? <==> ParsedRecord(response, rt).None?
    ensures r.ParseThrew? <==>
      ParsedRecord(response, rt).Some?
      && (ToStrThrows(Get(ParsedRecord(response, rt).value, "audience_type"))
          || ToStrThrows(Get(ParsedRecord(response, rt).value, "reasoning")))
    ensures r.Parsed? ==>
      var data := ParsedRecord(response, rt).value;
      && r.analysis.value == NormalizeAudience(TextField(data, "audience_type", rt).value)
      && r.analysis.confidence == ConfidenceField(data)
      && r.analysis.reasoning == ReasoningField(data, rt).value
    ensures r.Parsed? ==> 0.0 <= r.analysis.confidence <= 1.0
  {
    match ParsedRecord(response, rt)
    case None => NoRecord
    case Some(data) => AudienceFromRecord(data, rt)
  }

  // ---------------------------------------------------------------- fixed points

  /** The names of the closed enumerations are already lower case and distinct. */
  lemma ToneNameCanonical(t: ContentTone)
    ensures Lower(ToneName(t)) == ToneName(t)
    ensures forall u :: ToneName(u) == ToneName(t) ==> u == t
  {
    ToneNameLower(t);
  }

  lemma ToneNameLower(t: ContentTone)
    ensures Lower(ToneName(t)) == ToneName(t)
  {
    match t
    case Casual | Professional | Educational | Satirical => FirstToneNamesLower(t);
    case _ => LastToneNamesLower(t);
  }

  lemma FirstToneNamesLower(t: ContentTone)
    requires t.Casual? || t.Professional? || t.Educational? || t.Satirical?
    ensures Lower(ToneName(t)) == ToneName(t)
  {
    match t
    case Casual => LowerOfLower("casual");
    case Professional => LowerOfLower("professional");
    case Educational => LowerOfLower("educational");
    case Satirical => LowerOfLower("satirical");
  }

  lemma LastToneNamesLower(t: ContentTone)
    requires t.Emotional? || t.Political? || t.Inspirational? || t.Entertainment?
    ensures Lower(ToneName(t)) == ToneName(t)
  {
    match t
    case Emotional => LowerOfLower("emotional");
    case Political => LowerOfLower("political");
    case Inspirational => LowerOfLower("inspirational");
    case Entertainment => LowerOfLower("entertainment");
  }

  lemma RiskNameCanonical(r: RiskTolerance)
    ensures Lower(RiskName(r)) == RiskName(r)
    ensures forall u :: RiskName(u) == RiskName(r) ==> u == r
  {
    LowerOfLower(RiskName(r));
  }

  lemma AudienceNameCanonical(a: AudienceType)
    ensures Lower(AudienceName(a)) == AudienceName(a)
    ensures forall u :: AudienceName(u) == AudienceName(a) ==> u == a
  {
    AudienceNameLower(a);
    forall u | AudienceName(u) == AudienceName(a)
      ensures u == a
    {
      // the seven names already differ in their first letter
      assert AudienceName(u)[0] == AudienceName(a)[0];
    }
  }

  lemma AudienceNameLower(a: AudienceType)
    ensures Lower(AudienceName(a)) == AudienceName(a)
  {
    match a
    case MassEntertainment | NicheTechnical | OpinionDriven | ActivistPolitical =>
      ShortAudienceNameLower(a);
    case _ =>
      LongAudienceNameLower(a);
  }

  lemma ShortAudienceNameLower(a: AudienceType)
    requires a.MassEntertainment? || a.NicheTechnical? || a.OpinionDriven? || a.ActivistPolitical?
    ensures Lower(AudienceName(a)) == AudienceName(a)
  {
    match a
    case MassEntertainment => LowerOfLower("mass entertainment");
    case NicheTechnical => LowerOfLower("niche technical");
    case OpinionDriven => LowerOfLower("opinion-driven");
    case ActivistPolitical => LowerOfLower("activist / political");
  }

  lemma LongAudienceNameLower(a: AudienceType)
    requires a.EducationalLearner? || a.LifestyleAspirational? || a.CommunityFocused?
    ensures Lower(AudienceName(a)) == AudienceName(a)
  {
    match a
    case EducationalLearner => LowerOfLower("educational / learner-focused");
    case LifestyleAspirational => LowerOfLower("lifestyle / aspirational");
    case CommunityFocused => LowerOfLower("community-focused");
  }

  /** An already valid enumeration string is mapped to itself. */
  lemma NormalizeOfName(t: ContentTone, r: RiskTolerance, a: AudienceType)
    ensures NormalizeTone(ToneName(t)) == t
    ensures NormalizeRisk(RiskName(r)) == r
    ensures NormalizeAudience(AudienceName(a)) == a
  {
    NormalizeToneOfName(t);
    NormalizeRiskOfName(r);
    NormalizeAudienceOfName(a);
  }

  lemma NormalizeToneOfName(t: ContentTone)
    ensures NormalizeTone(ToneName(t)) == t
  {
    ToneNameCanonical(t);
  }

  lemma NormalizeRiskOfName(r: RiskTolerance)
    ensures NormalizeRisk(RiskName(r)) == r
  {
    RiskNameCanonical(r);
  }

  lemma NormalizeAudienceOfName(a: AudienceType)
    ensures NormalizeAudience(AudienceName(a)) == a
  {
    AudienceNameCanonical(a);
  }

  /** Near misses are not rescued: the risk parser has no keyword table. */
  lemma RiskNearMissIsMedium()
    ensures NormalizeRisk("moderate") == Medium
    ensures NormalizeRisk("High risk") == Medium
  {
    assert Lower("moderate") == "moderate";
    assert Lower("High risk") == "high risk";
  }

  /** The JSON object a parser would emit for an analysis. */
  function ToneRecord(a: AttributeAnalysis<ContentTone>): JsValue {
    Obj(map["primary_tone" := Str(ToneName(a.value)), "confidence" := Num(a.confidence), "reasoning" := Str(a.reasoning)])
  }

  function HumorRecord(a: AttributeAnalysis<Humor>): JsValue {
    Obj(map["humor_level" := Num(a.value.level), "dark_humor_present" := Bool(a.value.darkHumor),
            "confidence" := Num(a.confidence), "reasoning" := Str(a.reasoning)])
  }

  function RiskRecord(a: AttributeAnalysis<RiskTolerance>): JsValue {
    Obj(map["risk_tolerance" := Str(RiskName(a.value)), "confidence" := Num(a.confidence), "reasoning" := Str(a.reasoning)])
  }

  function AudienceRecord(a: AttributeAnalysis<AudienceType>): JsValue {
    Obj(map["audience_type" := Str(AudienceName(a.value)), "confidence" := Num(a.confidence), "reasoning" := Str(a.reasoning)])
  }

  /** A normalized analysis: what a parser can return when the model's
      reasoning is a non-empty string. */
  predicate Normalized<T>(a: AttributeAnalysis<T>) {
    0.0 <= a.confidence <= 1.0 && a.reasoning != ""
  }

  /** The shared fields of an emitted object are read back as written. */
  lemma SharedFieldsReadBack(data: JsValue, rt: Runtime, confidence: real, reasoning: string)
    requires Get(data, "confidence") == Num(confidence) && 0.0 <= confidence <= 1.0
    requires Get(data, "reasoning") == Str(reasoning) && reasoning != ""
    ensures ConfidenceField(data) == confidence
    ensures ReasoningField(data, rt) == Some(reasoning)
  {
  }

  /** A text field holding a string is read back as that string. */
  lemma TextFieldReadBack(data: JsValue, key: string, rt: Runtime, text: string)
    requires Get(data, key) == Str(text)
    ensures TextField(data, key, rt) == Some(text)
  {
  }

  /** Feeding a parser the object it would itself emit reproduces the result. */
  lemma {:induction false} ToneRecordFixedPoint(a: AttributeAnalysis<ContentTone>, rt: Runtime)
    requires Normalized(a)
    ensures ToneFromRecord(ToneRecord(a), rt) == Parsed(a)
  {
    var data := ToneRecord(a);
    SharedFieldsReadBack(data, rt, a.confidence, a.reasoning);
    TextFieldReadBack(data, "primary_tone", rt, ToneName(a.value));
    NormalizeToneOfName(a.value);
  }

  lemma {:induction false} HumorRecordFixedPoint(a: AttributeAnalysis<Humor>, rt: Runtime)
    requires Normalized(a)
    requires IsInteger(a.value.level) && 0.0 <= a.value.level <= 10.0
    ensures HumorFromRecord(HumorRecord(a), rt) == Parsed(a)
  {
    assert Round(a.value.level) as real == a.value.level;
  }

  lemma {:induction false} RiskRecordFixedPoint(a: AttributeAnalysis<RiskTolerance>, rt: Runtime)
    requires Normalized(a)
    ensures RiskFromRecord(RiskRecord(a), rt) == Parsed(a)
  {
    var data := RiskRecord(a);
    SharedFieldsReadBack(data, rt, a.confidence, a.reasoning);
    TextFieldReadBack(data, "risk_tolerance", rt, RiskName(a.value));
    NormalizeRiskOfName(a.value);
  }

  lemma {:induction false} AudienceRecordFixedPoint(a: AttributeAnalysis<AudienceType>, rt: Runtime)
    requires Normalized(a)
    ensures AudienceFromRecord(AudienceRecord(a), rt) == Parsed(a)
  {
    var data := AudienceRecord(a);
    SharedFieldsReadBack(data, rt, a.confidence, a.reasoning);
    TextFieldReadBack(data, "audience_type", rt, AudienceName(a.value));
    NormalizeAudienceOfName(a.value);
  }

  /** The same through the text: when the span `JSON.parse` sees decodes to
      the emitted object, the parser returns the analysis unchanged. */
  lemma ToneResponseFixedPoint(text: string, rt: Runtime, a: AttributeAnalysis<ContentTone>)
    requires Normalized(a)
    requires ExtractJsonSpan(text).Some? && rt.parseJson(ExtractJsonSpan(text).value) == Some(ToneRecord(a))
    ensures ParseToneResponse(text, rt) == Parsed(a)
  {
    RecordOfSpan(text, rt, ToneRecord(a));
    ToneRecordFixedPoint(a, rt);
  }

  /** A span that parses to an object is the record the parsers read. */
  lemma RecordOfSpan(text: string, rt: Runtime, v: JsValue)
    requires v.Obj?
    requires ExtractJsonSpan(text).Some? && rt.parseJson(ExtractJsonSpan(text).value) == Some(v)
    ensures ParsedRecord(text, rt) == Some(v)
  {
  }
}
