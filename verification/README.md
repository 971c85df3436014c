# Creator DNA scanner — a Dafny model

This project models the Creator DNA scanner and the onboarding front end around it.

The scanner is a backend service. It takes a creator's recent posts and does the following:

- validates them against a schema;
- aggregates them: captions, comments, average engagement, post-type counts, and a length-budgeted "combined text";
- asks a language model four questions (tone, humour, risk tolerance, audience type);
- parses each answer defensively into a closed enumeration with a confidence in [0, 1], falling back to fixed defaults when the answer is unusable or the parser throws;
- lowers the confidence when there are few posts;
- returns either a profile or a tagged error.

An HTTP route wraps the scanner and maps its result to a status code.

The front end collects:

- the creator's platforms (with a completeness check per platform);
- their goals (with an exclusive "all of the above").

It then turns the form into a creator record with masked emails. A small store holds the session, the profile and the UI flags.

Everything is written as immutable datatypes and pure functions. The language model, `JSON.parse`, number formatting, zod's datetime check and the clock are function-typed parameters (oracles). Every property below holds for every choice of those oracles.

| file | module | models |
|---|---|---|
| optional.dfy | `Optional` | `T \| undefined` |
| jstext.dfy | `JsText` | JavaScript string semantics: UTF-16 `.length`, `\s`, `trim`, ASCII `toLowerCase`, `includes`, `join` |
| jsvalues.dfy | `JsValues` | parsed JSON values, truthiness, `\|\|`, property access, `String(v)` |
| dnatypes.dfy | `DnaTypes` | the scanner's record and enumeration types |
| parsers.dfy | `Parsers` | `src/services/creator-dna/parsers.ts` |
| analyzers.dfy | `Analyzers` | `src/services/creator-dna/analyzers.ts` |
| normalize.dfy | `Normalize` | `normalizeText` of `src/services/creator-dna/aggregator.ts` |
| aggregator.dfy | `Aggregator` | the rest of `src/services/creator-dna/aggregator.ts` |
| schemas.dfy | `Schemas` | `src/types/schemas.ts` |
| scanner.dfy | `Scanner` | `src/services/creator-dna/index.ts` |
| route.dfy | `Route` | `src/app/api/creator-dna/scan/route.ts` |
| onboarding.dfy | `Onboarding` | `maskEmail` and `onboardingToCreator` of `frontend/src/lib/types.ts` |
| intent.dfy | `IntentStep` | `frontend/src/components/onboarding/IntentStep.tsx` |
| platforms.dfy | `PlatformsStep` | `frontend/src/components/onboarding/PlatformsStep.tsx` |
| store.dfy | `Store` | `frontend/src/lib/store.ts` |
| uiutils.dfy | `UiUtils` | the confidence and risk helpers of `frontend/src/lib/utils.ts` |

## Model

| member | source | states |
|---|---|---|
| JsText.JsLength | src/services/creator-dna/aggregator.ts:108-112 | A string's JavaScript length lies between its number of characters and twice that |
| JsValues.ToStr | src/services/creator-dna/parsers.ts:83 | `String(v)` throws exactly when `v` is an object with an own `toString` key or an array holding such a value; strings are kept and other objects become `[object Object]` |
| JsText.JsLengthAppend | src/services/creator-dna/aggregator.ts:113 | The length of a concatenation is the sum of the lengths, which the budget arithmetic of the combining loop relies on |
| JsText.Trim | src/services/creator-dna/aggregator.ts:30 | `trim` never lengthens a string |
| JsText.TrimShape | src/services/creator-dna/aggregator.ts:119 | The trimmed text is the contiguous middle of the input: only white space precedes and follows it, and it neither starts nor ends with white space |
| JsText.JsLengthTrim | src/services/creator-dna/aggregator.ts:119 | Trimming never adds code units |
| JsText.TrimOfTrimmed | src/services/creator-dna/aggregator.ts:138 | Text without white space at either end is its own trim |
| JsText.BlankIffAllSpace | src/services/creator-dna/aggregator.ts:30 | `c.trim().length > 0` fails exactly when every character is white space |
| JsText.LowerOfLower | src/services/creator-dna/parsers.ts:67 | Lower-casing text with no upper-case letter changes nothing |
| JsText.SearchIncludes | src/services/creator-dna/parsers.ts:212 | The search agrees with the reference definition of `includes`: the word occurs at some position |
| JsText.NatToString | src/services/creator-dna/aggregator.ts:113 | The label number is written with exactly `Digits(n)` decimal digits |
| Parsers.FirstIndexOf | src/services/creator-dna/parsers.ts:35 | Finds the first `{` (the regex's leftmost start), or reports that there is none |
| Parsers.LastIndexOf | src/services/creator-dna/parsers.ts:35 | Finds the last `}` (where the greedy `[\s\S]*` ends), or reports that there is none |
| Parsers.ExtractJsonSpan | src/services/creator-dna/parsers.ts:35-39 | A span exists exactly when some `{` precedes some `}`; the span then runs from the first `{` to the last `}` inclusive |
| Parsers.SafeParseJson | src/services/creator-dna/parsers.ts:32-43 | Null exactly when there is no span or `JSON.parse` throws on it; otherwise the parse of the span |
| Parsers.ParsedRecordFails | src/services/creator-dna/parsers.ts:32-43 | A parser gives up exactly when there is no span, `JSON.parse` throws, or the parsed value is neither an object nor an array |
| Parsers.Clamp | src/services/creator-dna/parsers.ts:48-50 | The result lies within the bounds, equals the value inside them, and is the nearer bound outside them |
| Parsers.Round | src/services/creator-dna/analyzers.ts:222 | `Math.round` gives the integer within half a unit, with halves rounded up |
| Parsers.ConfidenceField | src/services/creator-dna/parsers.ts:74-78 | The confidence is the numeric field clamped to [0, 1], or 0.5 when the field is missing or not a number |
| Parsers.ReasoningField | src/services/creator-dna/parsers.ts:83 | `String(reasoning)` throws exactly when the field is an object with an own `toString` (or an array holding one); otherwise a falsy reasoning becomes "No reasoning provided" and a non-empty string is kept |
| Parsers.TextField | src/services/creator-dna/parsers.ts:67 | `String(field \|\| '')` throws exactly as `String` does on the field; a falsy field gives the empty string and a string is kept |
| Parsers.LookupName | src/services/creator-dna/parsers.ts:68 | `VALID_*.includes` succeeds exactly when some listed name equals the text |
| Parsers.AnyIncludes | src/services/creator-dna/parsers.ts:212 | `words.some(w => lower.includes(w))` agrees with the reference predicate |
| Parsers.FirstHit | src/services/creator-dna/parsers.ts:211-215 | The first category in table order with a matching keyword: no earlier category matches |
| Parsers.NormalizeTone | src/services/creator-dna/parsers.ts:67-71 | An exact lower-cased tone name is kept; otherwise the result is `findClosestTone` of the raw text |
| Parsers.FindClosestToneSpec | src/services/creator-dna/parsers.ts:197-218 | The tone is the first one in table order with a keyword in the lower-cased text, or `casual` when none has |
| Parsers.FindClosestTone | src/services/creator-dna/parsers.ts:197-218 | A tone other than `casual` is returned only when one of its keywords occurs in the lower-cased text |
| Parsers.NormalizeRisk | src/services/creator-dna/parsers.ts:140-143 | An exact lower-cased risk name is kept, and anything else becomes `medium` |
| Parsers.RiskNearMissIsMedium | src/services/creator-dna/parsers.ts:140-143 | "moderate" and "High risk" both become `medium`, because there is no keyword matching |
| Parsers.NormalizeAudience | src/services/creator-dna/parsers.ts:174-178 | An exact lower-cased audience name is kept; otherwise the result is `findClosestAudienceType` |
| Parsers.FindClosestAudienceSpec | src/services/creator-dna/parsers.ts:223-243 | The first audience type in table order with a keyword in the text, or `mass entertainment` |
| Parsers.FindClosestAudienceType | src/services/creator-dna/parsers.ts:223-243 | An audience type other than `mass entertainment` is returned only when one of its keywords occurs in the lower-cased text |
| Parsers.ParseToneResponse | src/services/creator-dna/parsers.ts:55-85 | No record exactly when the JSON cannot be recovered; a throw exactly when `String` throws on `primary_tone` or `reasoning`; otherwise the tone is the normalized `primary_tone` text, the confidence is the clamped field, and the reasoning is the converted field |
| Parsers.HumorLevelField | src/services/creator-dna/parsers.ts:102-106 | The level is a whole number in 0..10; a missing or non-numeric level is 0; a number below 0.5 gives 0, one from 9.5 on gives 10, and one in between gives the whole number within half a unit |
| Parsers.ParseHumorResponse | src/services/creator-dna/parsers.ts:90-123 | No record exactly when the JSON cannot be recovered; a throw exactly when `String` throws on `reasoning`; otherwise the level is the clamped, rounded field, dark humour is the field's truthiness, the confidence is the clamped field, and the reasoning is the converted field |
| Parsers.ParseRiskResponse | src/services/creator-dna/parsers.ts:128-157 | No record exactly when the JSON cannot be recovered; a throw exactly when `String` throws on `risk_tolerance` or `reasoning`; otherwise the normalized risk text, the clamped confidence and the converted reasoning |
| Parsers.ParseAudienceResponse | src/services/creator-dna/parsers.ts:162-192 | No record exactly when the JSON cannot be recovered; a throw exactly when `String` throws on `audience_type` or `reasoning`; otherwise the normalized audience text, the clamped confidence and the converted reasoning |
| Parsers.NormalizeOfName | src/services/creator-dna/parsers.ts:16-27 | Every valid enumeration name is mapped to itself |
| Parsers.ToneNameCanonical | src/services/creator-dna/parsers.ts:16-19 | The tone names are lower case and distinct |
| Parsers.RiskNameCanonical | src/services/creator-dna/parsers.ts:21 | The risk names are lower case and distinct |
| Parsers.AudienceNameCanonical | src/services/creator-dna/parsers.ts:23-27 | The audience names are lower case and distinct |
| Parsers.ToneRecordFixedPoint | src/services/creator-dna/parsers.ts:64-84 | Feeding the tone parser the object it would emit for a normalized analysis gives that analysis back |
| Parsers.HumorRecordFixedPoint | src/services/creator-dna/parsers.ts:99-122 | The same round trip for humour, for whole levels in 0..10 |
| Parsers.RiskRecordFixedPoint | src/services/creator-dna/parsers.ts:137-156 | The same round trip for risk |
| Parsers.AudienceRecordFixedPoint | src/services/creator-dna/parsers.ts:171-191 | The same round trip for audience |
| Parsers.ToneResponseFixedPoint | src/services/creator-dna/parsers.ts:55-85 | The round trip through the whole text: when the extracted span parses to the emitted object, the parser returns the analysis |
| Analyzers.Multiplier | src/services/creator-dna/analyzers.ts:211-220 | The factor is in [0.5, 1]: 0.5 below five posts, 1 from twenty posts on, and `0.5 + (n − 5)/30` in between |
| Analyzers.MultiplierSteps | src/services/creator-dna/analyzers.ts:216-219 | Five posts give 0.5, and each post from five to nineteen adds 1/30 to the factor |
| Analyzers.MultiplierMonotone | src/services/creator-dna/analyzers.ts:213-220 | More posts never give a smaller factor |
| Analyzers.AdjustConfidence | src/services/creator-dna/analyzers.ts:203-223 | The result has two decimals and is within half a hundredth of base × factor. A base in [0, 1] stays in [0, 1], and below five posts it stays at most 0.5 |
| Analyzers.AdjustConfidenceMonotone | src/services/creator-dna/analyzers.ts:203-223 | For a fixed base, more posts never lower the confidence |
| Analyzers.AdjustConfidenceFull | src/services/creator-dna/analyzers.ts:222 | From twenty posts on, a two-decimal confidence passes unchanged |
| Analyzers.AdjustConfidenceExamples | src/services/creator-dna/analyzers.ts:203-223 | 0.8 becomes 0.4 with three posts and stays 0.8 with twenty |
| Analyzers.Penalized | src/services/creator-dna/analyzers.ts:69-72 | Only the confidence is replaced; the value and reasoning are kept |
| Analyzers.Settle | src/services/creator-dna/analyzers.ts:58-83 | No answer gives the fallback. An answer keeps its value and reasoning, and its penalised confidence is in [0, 1] and at most 0.5 below five posts |
| Analyzers.Ask | src/services/creator-dna/analyzers.ts:58-76 | An answer is kept exactly when the call returns text and the parser yields an analysis; a thrown call, a `null` parse and a thrown parse all give none |
| Analyzers.AnalyzeTone | src/services/creator-dna/analyzers.ts:53-84 | Always a valid tone with confidence in [0, 1]. `casual`/0.3 when the call fails, no record is recovered, or the parser throws (the `catch`); otherwise the parsed tone with the penalised confidence |
| Analyzers.AnalyzeHumor | src/services/creator-dna/analyzers.ts:89-119 | Always a whole level in 0..10 with confidence in [0, 1]; level 3, no dark humour, 0.3 when the call fails, no record is recovered, or the parser throws |
| Analyzers.RiskCommentsContext | src/services/creator-dna/analyzers.ts:127 | With at most thirty comments, the risk prompt receives all of them, one per line, in order; with more, exactly the first thirty |
| Analyzers.LaterCommentsIgnored | src/services/creator-dna/analyzers.ts:127 | Once thirty comments are present, appending more comments does not change the risk prompt's comment block |
| Analyzers.AnalyzeRisk | src/services/creator-dna/analyzers.ts:124-155 | Always a valid risk level with confidence in [0, 1]; `medium`/0.3 when the call fails, no record is recovered, or the parser throws |
| Analyzers.AnalyzeAudience | src/services/creator-dna/analyzers.ts:160-197 | Always a valid audience type with confidence in [0, 1]; `mass entertainment`/0.3 when the call fails, no record is recovered, or the parser throws |
| Analyzers.SilentModelGivesFallbacks | src/services/creator-dna/analyzers.ts:74-83 | A model that always throws yields the four fallbacks, with no penalty applied |
| Analyzers.BracelessAnswerGivesFallback | src/services/creator-dna/parsers.ts:35-39 | An answer with no `{`…`}` span yields the fallbacks of all four analyzers |
| Analyzers.UnconvertibleReasoningGivesFallbacks | src/services/creator-dna/analyzers.ts:74-83 | A recovered record whose `reasoning` makes `String` throw yields the fallbacks of all four analyzers: the `catch` turns the throw into the default |
| Analyzers.ToneAnswerRoundTrip | src/services/creator-dna/analyzers.ts:58-72 | A model answering with a normalized tone object yields that tone and reasoning, with the penalised confidence |
| Normalize.ReplaceUrls | src/services/creator-dna/aggregator.ts:132 | Replacing links never lengthens the text, and a link at the start becomes `[LINK]` |
| Normalize.ReplaceUrlsLeavesNoUrl | src/services/creator-dna/aggregator.ts:132 | No `https?://` link survives the replacement |
| Normalize.ReplaceUrlsOfClean | src/services/creator-dna/aggregator.ts:132 | Text without links is left alone |
| Normalize.CollapseSpaces | src/services/creator-dna/aggregator.ts:134 | Collapsing never lengthens the text, keeps it non-empty, and keeps whether it starts with a space |
| Normalize.CollapseSpacesNormal | src/services/creator-dna/aggregator.ts:134 | Every remaining space is a single blank |
| Normalize.CollapseSpacesNoUrl | src/services/creator-dna/aggregator.ts:132-134 | Collapsing white space never creates a link |
| Normalize.CollapseSpacesOfNormal | src/services/creator-dna/aggregator.ts:134 | Text whose spaces are single blanks is left alone |
| Normalize.CollapseEmoji | src/services/creator-dna/aggregator.ts:136 | Collapsing emoji runs never lengthens the text and keeps its first character |
| Normalize.CollapseEmojiLeavesNoTriple | src/services/creator-dna/aggregator.ts:136 | No run of three equal emoji survives |
| Normalize.CollapseEmojiKeepsSpaces | src/services/creator-dna/aggregator.ts:134-136 | Collapsing emoji keeps blanks single |
| Normalize.CollapseEmojiNoUrl | src/services/creator-dna/aggregator.ts:132-136 | Collapsing emoji never creates a link |
| Normalize.CollapseEmojiOfClean | src/services/creator-dna/aggregator.ts:136 | Text without a triple emoji run is left alone |
| Normalize.NormalizeText | src/services/creator-dna/aggregator.ts:129-139 | Normalizing never lengthens the text and keeps empty text empty; `NormalizeTextIsClean` states the shape of the result |
| Normalize.NormalizeTextIsClean | src/services/creator-dna/aggregator.ts:129-139 | The output has no space at either end, only single blanks, no run of three equal emoji, and no link |
| Normalize.NormalizeOfClean | src/services/creator-dna/aggregator.ts:129-139 | Clean text is a fixed point |
| Normalize.NormalizeIdempotent | src/services/creator-dna/aggregator.ts:129-139 | Normalising twice is normalising once |
| Aggregator.KeepNonBlank | src/services/creator-dna/aggregator.ts:30 | The filter keeps no blank entry and never lengthens the list |
| Aggregator.KeepNonBlankCounts | src/services/creator-dna/aggregator.ts:30 | Every non-blank entry is kept as often as it occurred, and no blank entry is kept |
| Aggregator.KeepNonBlankAppend | src/services/creator-dna/aggregator.ts:28-35 | The filter works entry by entry, so it keeps the input order |
| Aggregator.KeepNonBlankOfClean | src/services/creator-dna/aggregator.ts:30 | A list without blank entries passes unchanged |
| Aggregator.Contents | src/services/creator-dna/aggregator.ts:29 | One caption per post, in post order |
| Aggregator.FlatComments | src/services/creator-dna/aggregator.ts:32-33 | The first post's comments open the list, and every post's comments occur in it with at least their multiplicity |
| Aggregator.CaptionsAndCommentsAppend | src/services/creator-dna/aggregator.ts:28-35 | The captions and comments of concatenated post lists are the concatenations |
| Aggregator.TotalsAreSums | src/services/creator-dna/aggregator.ts:64-71 | The `reduce` from its accumulator adds up to the reference sums |
| Aggregator.AverageEngagement | src/services/creator-dna/aggregator.ts:59-78 | All zeros for no posts; otherwise each average times the post count is the sum |
| Aggregator.AverageOfUniform | src/services/creator-dna/aggregator.ts:59-78 | Posts that all share one engagement average to it |
| Aggregator.Bump | src/services/creator-dna/aggregator.ts:92 | The increment raises the post's slot by one and the total by one |
| Aggregator.PostTypeDistribution | src/services/creator-dna/aggregator.ts:83-96 | The four counts add up to the number of posts |
| Aggregator.PostTypeDistributionCounts | src/services/creator-dna/aggregator.ts:83-96 | Each count is the number of posts of that type |
| Aggregator.InsertByLength | src/services/creator-dna/aggregator.ts:103 | Insertion adds exactly one entry, and the new first entry is either the inserted one or the old first |
| Aggregator.InsertByLengthPermutes | src/services/creator-dna/aggregator.ts:103 | Insertion adds exactly the inserted entry and loses none |
| Aggregator.InsertByLengthSorted | src/services/creator-dna/aggregator.ts:103 | Inserting into a longest-first list keeps it longest-first |
| Aggregator.SortByLength | src/services/creator-dna/aggregator.ts:103 | The sort is a permutation of the captions, longest first |
| Aggregator.SortByLengthStable | src/services/creator-dna/aggregator.ts:103 | Captions of equal length keep their input order, as `Array.prototype.sort` guarantees |
| Aggregator.SortOfSorted | src/services/creator-dna/aggregator.ts:103 | A list already longest-first comes back unchanged |
| Aggregator.BlockLength | src/services/creator-dna/aggregator.ts:113 | A block is eleven code units, plus the label's digits, plus the caption |
| Aggregator.NormalizeAll | src/services/creator-dna/aggregator.ts:110 | Caption `i` is normalised in place, in order |
| Aggregator.CombineFrom | src/services/creator-dna/aggregator.ts:106-117 | The text built so far is kept as a prefix, and once it has reached the budget no further caption is added |
| Aggregator.CombineFromBound | src/services/creator-dna/aggregator.ts:105-117 | Loop invariant: the text is empty, or it ends in a blank line and is at most `maxLength + 1 + digits(i)` code units long |
| Aggregator.BuildCombinedText | src/services/creator-dna/aggregator.ts:101-120 | The combined text is empty or at most `maxLength + digits(n) − 1` code units long, where `n` is the number of captions |
| Aggregator.CombineFromAllFit | src/services/creator-dna/aggregator.ts:105-117 | When every remaining labelled block fits, the loop appends all of them, in order |
| Aggregator.CombinedTextHoldsEveryCaption | src/services/creator-dna/aggregator.ts:101-120 | With a budget that covers every block, the combined text is every normalized caption, longest first (equal lengths in input order), each labelled `[Post i]` by its position, trimmed |
| Aggregator.CombinedTextWithinBudget | src/services/creator-dna/aggregator.ts:101-120 | With at most nine captions the combined text fits the budget |
| Aggregator.CombineSkips | src/services/creator-dna/aggregator.ts:112-116 | Captions that do not fit leave the text unchanged and are skipped |
| Aggregator.CombinedTextOvershoots | src/services/creator-dna/aggregator.ts:112-113 | Nine two-character captions plus one one-character caption, with a budget of 11, give a 12-unit text: the budget check under-counts the label `[Post 10]` |
| Aggregator.AggregateContent | src/services/creator-dna/aggregator.ts:24-54 | The post count; the distribution is exactly `calculatePostTypeDistribution` of the posts, so `PostTypeDistributionCounts` gives each count and the counts add up to the post count; the captions and comments are the non-blank contents and flattened comments, with their multiplicities; the combined text is built from those captions with the 12000 budget and respects its bound; the averages |
| Aggregator.SampleIndexInBounds | src/services/creator-dna/aggregator.ts:174-178 | The stride `i·⌊n/size⌋` stays inside the list, so the `Math.min` guard never fires |
| Aggregator.SampleIndicesIncrease | src/services/creator-dna/aggregator.ts:174-178 | The sampled indices strictly increase, so no comment is taken twice |
| Aggregator.SampleComments | src/services/creator-dna/aggregator.ts:168-182 | A short list is returned whole. Otherwise the sample has the requested size and holds the comments at the stride positions |
| Aggregator.CommentLineLength | src/services/creator-dna/aggregator.ts:156-157 | A comment line is three code units longer than the comment, while the budget check reserves five |
| Aggregator.BuildCommentsContext | src/services/creator-dna/aggregator.ts:144-162 | Never empty. No comments gives the "No comments" message; otherwise the result is a fallback message or text within the budget |
| Schemas.DecodePostType | src/types/schemas.ts:19 | Accepts exactly the four type names, each mapped to its type |
| Schemas.ValidEngagement | src/types/schemas.ts:13-17 | Valid engagement has whole, non-negative likes, comments and shares |
| Schemas.DecodeEngagement | src/types/schemas.ts:13-17 | A decoded engagement is valid and holds exactly the numbers under `likes`, `comments` and `shares` of an object |
| Schemas.ValidPost | src/types/schemas.ts:21-27 | A valid post has non-empty content, a non-negative like count and a datetime `posted_at` |
| Schemas.ValidCreatorData | src/types/schemas.ts:29-32 | Valid data has a non-empty creator id and at least one post, each with non-empty content |
| Schemas.DecodeStrings | src/types/schemas.ts:25 | Accepts an array exactly when every element is a string, keeping its length |
| Schemas.DecodePost | src/types/schemas.ts:21-27 | A decoded post satisfies the post schema |
| Schemas.DecodePosts | src/types/schemas.ts:31 | Decoded posts keep their count and all satisfy the schema |
| Schemas.ValidateCreatorData | src/types/schemas.ts:29-32 | Accepted data satisfies the schema and keeps the creator id; an empty post list is rejected |
| Schemas.DecodeEncodedEngagement | src/types/schemas.ts:13-17 | An engagement's JSON is accepted exactly when the counts are non-negative integers, and then decodes to itself |
| Schemas.DecodeEncodedStrings | src/types/schemas.ts:25 | A string list's JSON decodes to itself |
| Schemas.DecodeEncodedPost | src/types/schemas.ts:21-27 | A post's JSON is accepted exactly when the post is valid, and then decodes to itself |
| Schemas.DecodeEncodedPosts | src/types/schemas.ts:31 | A post list's JSON is accepted exactly when all its posts are valid, and then decodes to itself |
| Schemas.ValidateEncoded | src/types/schemas.ts:90-92 | A record's JSON is accepted exactly when the record satisfies the schema, and then decodes to itself |
| Schemas.BlankContentIsValid | src/types/schemas.ts:22 | A caption of only white space passes the schema, because `min(1)` does not trim |
| Schemas.ValidProfile | src/types/schemas.ts:77-81 | A valid profile has a non-empty creator id, a humour level in 0..10 and four confidences in [0, 1] |
| Schemas.ValidDna | src/types/schemas.ts:68-75 | A valid DNA record has a humour level that is one of the whole numbers 0..10 and four confidences in [0, 1] |
| Scanner.MergeConfig | src/services/creator-dna/index.ts:29-34 | Each of the four fields is the caller's value when given and otherwise the default (20 posts, 0.3, the model name, 12000); no configuration gives the defaults |
| Scanner.CompleteConfigOverridesDefaults | src/services/creator-dna/index.ts:29-34 | A configuration that gives every field comes back from the merge unchanged |
| Scanner.AssembleProfile | src/services/creator-dna/index.ts:104-120 | The profile fields are exactly the four analyzer values and confidences |
| Scanner.ProfileOf | src/services/creator-dna/index.ts:93-120 | The profile carries the id and clock reading and satisfies the output schema's value constraints; below five posts every confidence is at most 0.5 |
| Scanner.RunAnalysis | src/services/creator-dna/index.ts:91-125 | The `try` block always completes: aggregation cannot fail and every analyzer catches its own failure |
| Scanner.Conclude | src/services/creator-dna/index.ts:122-137 | A completed block is a success carrying the profile; a thrown one is `LLM_ERROR` |
| Scanner.AnalyzeCreatorDna | src/services/creator-dna/index.ts:61-139 | Invalid input gives exactly `VALIDATION_ERROR`, and valid input exactly success. `INSUFFICIENT_DATA` never occurs. A success carries the id and the clock reading |
| Scanner.EmptyPostsAreInvalid | src/services/creator-dna/index.ts:68-89 | No posts gives `VALIDATION_ERROR`, because the schema fires before the post-count check |
| Scanner.SuccessSatisfiesOutputSchema | src/types/schemas.ts:77-81 | A successful profile passes the output schema when the clock's reading is an ISO datetime |
| Scanner.ProfileCarriesAnalyses | src/services/creator-dna/index.ts:96-119 | The profile is made of the four analyzer results on the aggregated posts |
| Scanner.FewPostsCapConfidence | src/services/creator-dna/analyzers.ts:213-215 | With fewer than five posts no confidence in the profile exceeds 0.5 |
| Scanner.ConfigIsIgnored | src/services/creator-dna/index.ts:65 | The merged configuration is never read: any two configurations give the same result |
| Scanner.SilentModelStillSucceeds | src/services/creator-dna/index.ts:91-125 | A model that never answers still gives a success made of the four fallbacks |
| Route.StatusFor | src/app/api/creator-dna/scan/route.ts:37-43 | 200 exactly for success, 400 exactly for `INSUFFICIENT_DATA`, 500 for every other error |
| Route.HandlePost | src/app/api/creator-dna/scan/route.ts:13-59 | An unreadable body gives 500 `INTERNAL_ERROR`. A body failing the schema gives 400 `VALIDATION_ERROR`. Otherwise the scanner's result is sent with its status |
| Route.HandleGet | src/app/api/creator-dna/scan/route.ts:62-67 | GET is always refused with 405 |
| Route.Handle | src/app/api/creator-dna/scan/route.ts:13-67 | GET is answered with 405, and POST only with 200, 400 or 500 |
| Route.ValidBodySucceeds | src/app/api/creator-dna/scan/route.ts:19-38 | A body that passes the route's check also passes the scanner's, so the answer is 200 with a profile |
| Route.PostStatuses | src/app/api/creator-dna/scan/route.ts:13-59 | POST answers only 200, 400 or 500, and 400 exactly for a body that fails the schema |
| Onboarding.IndexOf | frontend/src/lib/types.ts:291 | The position of the first `@`, or the length when there is none |
| Onboarding.JsPrefix | frontend/src/lib/types.ts:293 | `slice(0, 2)` is a prefix of at most two code units, and the whole text when that is shorter |
| Onboarding.MaskLocal | frontend/src/lib/types.ts:292-294 | The masked local part ends in `****` and shows at most two code units of the original; a local part of at most two units shows none |
| Onboarding.MaskEmail | frontend/src/lib/types.ts:289-296 | No `@` gives `****@****.com`; every result holds exactly one `@` |
| Onboarding.MaskEmailOfParts | frontend/src/lib/types.ts:291-295 | `local@domain` followed by nothing or by `@…` is masked to the masked local part, `@`, and the domain |
| Onboarding.MaskLocalKeepsTwo | frontend/src/lib/types.ts:292-293 | A local part longer than two code units whose first two characters are not astral keeps exactly those two characters |
| Onboarding.MaskLocalAstralFirst | frontend/src/lib/types.ts:292-293 | A local part that starts with an astral character and has more after it keeps that one character, which fills both code units of `slice(0, 2)` |
| Onboarding.MaskEmailSecondAt | frontend/src/lib/types.ts:291 | Any address shaped like `abc@d@e` (no `@` among `a`–`d`, the first two characters not astral) is masked to `ab****@d`: text after a second `@` is dropped |
| Onboarding.LoginMeta | frontend/src/lib/types.ts:313-315 | A masked email is stored exactly for credentials with a non-empty email |
| Onboarding.SocialAccountOf | frontend/src/lib/types.ts:308-317 | Handle, followers, engagement rate and method are copied when given and take `''`, 0, 0 and `manual` otherwise. The only email kept is the masked one, and only for credentials with an email; posts are `[]` exactly for Instagram and Facebook |
| Onboarding.YouTubeAccountOf | frontend/src/lib/types.ts:336-343 | The channel URL is copied as is; followers, engagement rate and method are copied when given and take 0, 0 and `manual` otherwise |
| Onboarding.OnboardingToCreator | frontend/src/lib/types.ts:302-367 | A platform appears exactly when it is present and not skipped, and then holds the account built from its own entry; name, type and goals are copied; the status is pending |
| Onboarding.StoredEmailsAreMasked | frontend/src/lib/types.ts:289-358 | Every email in the record (Instagram, Facebook, Twitter) is the mask of that platform's form email, with exactly one `@` |
| Onboarding.SkippedPlatformDropped | frontend/src/lib/types.ts:306 | A skipped platform leaves no account behind |
| IntentStep.Without | frontend/src/components/onboarding/IntentStep.tsx:94 | The filter removes every copy of the goal, keeps every other goal, and keeps a duplicate-free list duplicate-free |
| IntentStep.IsSelected | frontend/src/components/onboarding/IntentStep.tsx:103-108 | With `all_of_above` listed every goal shows as chosen; otherwise exactly the listed goals do |
| IntentStep.IsValid | frontend/src/components/onboarding/IntentStep.tsx:110 | The step is valid exactly when some goal shows as chosen |
| IntentStep.ToggleGoal | frontend/src/components/onboarding/IntentStep.tsx:80-101 | The result is `[all_of_above]` or has no `all_of_above`, and toggling another goal never yields `all_of_above`. "All" toggles between `[]` and `[all_of_above]`. Another goal flips its own membership and leaves the rest. No duplicates are introduced |
| IntentStep.AllOfAboveSelectsEverything | frontend/src/components/onboarding/IntentStep.tsx:84-90 | Choosing "all" shows every goal selected, and choosing it again shows none |
| IntentStep.ToggleFlipsOnlyItsGoal | frontend/src/components/onboarding/IntentStep.tsx:96-108 | Without "all", toggling flips the goal's selection and no other |
| IntentStep.ToggleFromAllKeepsOne | frontend/src/components/onboarding/IntentStep.tsx:94-100 | While "all" is chosen, clicking one goal leaves exactly that goal |
| IntentStep.ToggleTwiceRestores | frontend/src/components/onboarding/IntentStep.tsx:96-100 | Toggling an unlisted goal twice restores the list exactly |
| IntentStep.ChoosingMakesValid | frontend/src/components/onboarding/IntentStep.tsx:80-110 | Toggling an unselected goal makes the step valid |
| IntentStep.DeselectingLastGoalInvalidates | frontend/src/components/onboarding/IntentStep.tsx:94-110 | Deselecting the only chosen goal makes the step invalid again |
| PlatformsStep.PlatformData | frontend/src/components/onboarding/PlatformsStep.tsx:123-125 | The stored entry, or `{ skipped: false }` when there is none |
| PlatformsStep.Apply | frontend/src/components/onboarding/PlatformsStep.tsx:98-101 | The named field takes the value and every other field keeps its own |
| PlatformsStep.UpdatePlatform | frontend/src/components/onboarding/PlatformsStep.tsx:87-104 | Only the named field of the named platform changes; other platforms are untouched; an absent platform starts from `{ skipped: false }` |
| PlatformsStep.UpdateWithSameValue | frontend/src/components/onboarding/PlatformsStep.tsx:87-104 | Writing a field's current value changes nothing except creating a missing entry |
| PlatformsStep.SkipPlatform | frontend/src/components/onboarding/PlatformsStep.tsx:106-115 | Sets `skipped` and expands the next card in the order; after the last card nothing is expanded |
| PlatformsStep.UnskipPlatform | frontend/src/components/onboarding/PlatformsStep.tsx:117-120 | Clears `skipped` and expands the platform's own card |
| PlatformsStep.IsPlatformComplete | frontend/src/components/onboarding/PlatformsStep.tsx:126-149 | Skipped is complete; otherwise completeness needs a way of connecting. Credentials: exactly when the email is non-empty. Manual: YouTube needs non-zero followers, the others a handle and a follower count |
| PlatformsStep.UrlCompleteIffChannelUrl | frontend/src/components/onboarding/PlatformsStep.tsx:136-138 | With a URL as the way of connecting, complete exactly when the channel URL is non-empty |
| PlatformsStep.NoMethodIsIncomplete | frontend/src/components/onboarding/PlatformsStep.tsx:148 | A kept entry with no way of connecting is incomplete, whatever else it holds |
| PlatformsStep.AllPlatformsHandled | frontend/src/components/onboarding/PlatformsStep.tsx:151-154 | Holds exactly when every platform is complete |
| PlatformsStep.AtLeastOnePlatformAdded | frontend/src/components/onboarding/PlatformsStep.tsx:156-159 | Holds exactly when some platform is complete and not skipped |
| PlatformsStep.CanProceed | frontend/src/components/onboarding/PlatformsStep.tsx:161 | Holds exactly when every platform is complete and some non-skipped platform is complete |
| PlatformsStep.SkipCompletes | frontend/src/components/onboarding/PlatformsStep.tsx:106-128 | Skipping makes a platform complete and leaves the others' completeness as it was |
| PlatformsStep.UntouchedIsIncomplete | frontend/src/components/onboarding/PlatformsStep.tsx:127-148 | A platform without an entry is incomplete, so the step cannot be left |
| PlatformsStep.AllSkippedCannotProceed | frontend/src/components/onboarding/PlatformsStep.tsx:156-161 | Skipping every platform does not allow proceeding |
| PlatformsStep.PasswordIsIrrelevant | frontend/src/components/onboarding/PlatformsStep.tsx:131-134 | The password never affects completeness |
| PlatformsStep.EmailCompletesCredentials | frontend/src/components/onboarding/PlatformsStep.tsx:131-134 | With credentials, the platform is complete exactly when the email is non-empty |
| PlatformsStep.ZeroFollowers | frontend/src/components/onboarding/PlatformsStep.tsx:141-146 | Manual entry with zero followers: YouTube is incomplete; the others are complete exactly when a handle is given |
| PlatformsStep.OneAddedRestSkipped | frontend/src/components/onboarding/PlatformsStep.tsx:151-161 | One added platform with the rest skipped is enough to proceed |
| Store.SetUser | frontend/src/lib/store.ts:73 | Sets the user and the session flag in step with it; nothing else changes |
| Store.Logout | frontend/src/lib/store.ts:74 | No user, no session, no profile; nothing else changes |
| Store.SetCreatorDna | frontend/src/lib/store.ts:78 | Only the profile changes |
| Store.MergeProcess | frontend/src/lib/store.ts:91 | Every field the update sets replaces the process's own; the rest are kept |
| Store.UpdateProcesses | frontend/src/lib/store.ts:90-92 | Same length and order; exactly the processes with the id are merged |
| Store.UpdateAiProcess | frontend/src/lib/store.ts:88-93 | Only the process list changes |
| Store.SetOnboardingStep | frontend/src/lib/store.ts:97 | Only the step changes |
| Store.CompleteOnboarding | frontend/src/lib/store.ts:98-102 | The step returns to 0; a user is marked onboarded and a missing user stays missing; nothing else changes |
| Store.ToggleSidebar | frontend/src/lib/store.ts:106 | Flips the sidebar flag only |
| Store.ToggleRightPanel | frontend/src/lib/store.ts:108 | Flips the right-panel flag only |
| Store.StepKeepsConsistent | frontend/src/lib/store.ts:69-109 | Every action keeps "authenticated exactly when a user is present" |
| Store.RunKeepsConsistent | frontend/src/lib/store.ts:69-109 | So does every sequence of actions |
| Store.InitialStateIsConsistent | frontend/src/lib/store.ts:71-72 | The initial state has no user and no session |
| Store.ToggleTwiceRestores | frontend/src/lib/store.ts:106-108 | Toggling a panel twice restores the state |
| Store.UnknownIdIsNoOp | frontend/src/lib/store.ts:88-93 | An update for an id no process has changes nothing |
| Store.UpdateIsIdempotent | frontend/src/lib/store.ts:88-93 | An update that leaves the id alone is idempotent |
| Store.UpdateKeepsIds | frontend/src/lib/store.ts:88-93 | An update that leaves the id alone keeps every process's id |
| Store.LogoutForgetsUser | frontend/src/lib/store.ts:73-74 | Logging out after logging in is logging out, and logging out twice is logging out once |
| UiUtils.ConfidenceLabel | frontend/src/lib/utils.ts:18-22 | `High` exactly from 0.8, `Medium` exactly in [0.5, 0.8), `Low` exactly below 0.5 |
| UiUtils.ConfidenceColor | frontend/src/lib/utils.ts:24-28 | Green, amber and red on the same three ranges |
| UiUtils.LabelIsMonotone | frontend/src/lib/utils.ts:18-22 | A higher confidence never gets a lower label |
| UiUtils.ColorMatchesLabel | frontend/src/lib/utils.ts:18-28 | The colour is always the label's colour: `getConfidenceColor` is defined here through the label, and its own contract gives the same three ranges as `getConfidenceLabel` |
| UiUtils.RiskColor | frontend/src/lib/utils.ts:30-39 | Green, amber and red class strings for low, medium and high |
| UiUtils.RiskColorsDistinct | frontend/src/lib/utils.ts:30-39 | Different risk levels get different classes |

## Left out

- Floating point: numbers are reals. NaN and the infinities are not represented, `Math.round` is ⌊x + 0.5⌋, and the averages divide exactly.
- `toLowerCase` is modelled for ASCII letters only. The enumeration names and keywords are ASCII, but non-ASCII upper-case input is lower-cased by JavaScript and not by the model.
- Strings are sequences of Unicode scalar values. Lone surrogates cannot occur, and an astral character counts as two code units of `.length`.
- Onboarding.JsPrefix: an astral character that straddles the cut is dropped whole, where JavaScript would keep a lone high surrogate.
- `JSON.parse`, the decimal formatting of numbers, zod's `.datetime()` check and the clock (`new Date().toISOString()`) are oracle parameters. Their internals are not modelled.
- The prompt templates of `src/lib/prompts.ts` are not part of this model. A prompt is the datatype of the inputs it is built from; `buildEngagementContext` formats floats with `toFixed`.
- JsValues.ToStr: parsed JSON holds no functions, so an own `toString` key always makes `String` throw a `TypeError`. The message of that error is not modelled; the analyzers' `catch` only needs to know that it was thrown.
- The `console.error` logging in the analyzers' `catch` blocks (analyzers.ts:75, 110, 146, 188), in the scanner's `catch` (index.ts:128) and in the route's `catch` (route.ts:46) is not modelled. It writes to the console only and changes no result.
- Aggregator.BuildCommentsContext: the default `maxLength = 2000` of the parameter is not modelled. The budget is a required argument; the default's only effect is on callers that leave it out, and the scanner core does not call the function.
- `callLLM`, the OpenAI client and `MODEL_CONFIG` are an oracle `Prompt -> Option<string>`: `None` stands for a thrown request, and an empty message is the empty string.
- `Promise.all` runs the four analyzers concurrently. Each analyzer depends only on the aggregated content and the oracle, so the model evaluates them one after another.
- zod's error details (`validation.error.errors`) and the `details` field of scanner errors are not modelled; only code and message are.
- Schemas.ValidateCreatorData: models a record with keys either present or absent. A key present with the value `undefined` is the same as a missing key. zod's stripping of unknown keys is modelled by ignoring them.
- Scanner.AnalyzeCreatorDna: the typed input cannot hold values of the wrong JSON type. The re-validation is modelled on the input's JSON form, so its result is exactly the schema predicate.
- Scanner.Conclude: `LLM_ERROR` is reachable only from an attempt that throws. The modelled analyzers catch every failure of the call, so `RunAnalysis` always completes.
- The `ScannerConfig` fields are merged but never read by the scanner, as in the code. `MAX_CONTENT_LENGTH` of the aggregator is used instead of `max_content_length`.
- Aggregator.BuildCombinedText: the bound is `maxLength + digits(n) − 1`, not `maxLength`. The loop reserves ten code units for a label that takes eleven or more from the tenth caption on, and `CombinedTextOvershoots` shows a 12-unit result for a budget of 11. The shipped budget of 12000 makes this overshoot at most a few units.
- Aggregator.BuildCommentsContext: for a non-empty result without the fallback messages, only the budget is stated, not which sampled comments were written.
- `storage.ts` (Supabase persistence), the remaining API routes, and the pages and components of the front end are not part of this model.
- PlatformsStep.UpdatePlatform: the value's type follows the field, so writing, say, a number into `email` is not modelled. Every call in the component writes a value of the field's own type.
- The onboarding form uses one platform record type for all four platforms. The TypeScript types of the form give YouTube no `email`, `password` or `handle`; the model keeps them and never reads them for YouTube.
- Onboarding.OnboardingToCreator: `creator_goals` is taken as given; an `undefined` goal list (`data.creator_goals || []` in the goals step) is modelled as the empty list.
- Zustand's `set` merging and subscriptions are not modelled. Each action is a function from state to state.
- Store.MergeProcess: an update that sets a field to `undefined` explicitly is modelled as one that leaves the field alone.
- `getScannerConfig`, `formatDate`, `formatPercentage` and `cn` are not part of this model.
