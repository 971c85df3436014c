/** The zod schemas of `src/types/schemas.ts`. The input schema is modelled
    twice: as a predicate on the typed records, and as the decoder
    `ValidateCreatorData` that `safeParse` runs on a parsed request body.
    The encoder `EncodeCreatorData` writes a record back as JSON, and the
    two agree: a record decodes back to itself exactly when it is valid.
    The output schemas are predicates on the typed profile. */
module Schemas {
  import opened Optional
  import opened JsText
  import opened JsValues
  import opened DnaTypes
  import Parsers

  /** zod's `.datetime()` check (ISO 8601 with a `Z` offset), which the
      model leaves abstract. */
  type DatetimeCheck = string -> bool

  // ---------------------------------------------------------------- input, typed

  /** `z.number().int().min(0)`. */
  predicate NonNegativeInt(x: real) {
    Parsers.IsInteger(x) && x >= 0.0
  }

  /** `PostEngagementSchema`. */
  function ValidEngagement(e: PostEngagement): (valid: bool)
    ensures valid ==> e.likes >= 0.0 && e.comments >= 0.0 && e.shares >= 0.0
    ensures valid ==> e.likes.Floor as real == e.likes && e.comments.Floor as real == e.comments
                      && e.shares.Floor as real == e.shares
  {
    NonNegativeInt(e.likes) && NonNegativeInt(e.comments) && NonNegativeInt(e.shares)
  }

  /** `CreatorPostSchema`. The content needs one code unit and is not
      trimmed; the post type and the comments are fixed by the record's types. */
  function ValidPost(p: CreatorPost, isDatetime: DatetimeCheck): (valid: bool)
    ensures valid ==> |p.content| >= 1 && p.engagement.likes >= 0.0 && isDatetime(p.postedAt)
  {
    && JsLength(p.content) >= 1
    && ValidEngagement(p.engagement)
    && isDatetime(p.postedAt)
  }

  predicate AllPostsValid(ps: seq<CreatorPost>, isDatetime: DatetimeCheck) {
    forall i :: 0 <= i < |ps| ==> ValidPost(ps[i], isDatetime)
  }

  /** `CreatorDataSchema`: a non-empty id and at least one post, every post valid. */
  function ValidCreatorData(d: CreatorData, isDatetime: DatetimeCheck): (valid: bool)
    ensures valid ==> |d.creatorId| >= 1 && |d.posts| >= 1
    ensures valid ==> forall i :: 0 <= i < |d.posts| ==> |d.posts[i].content| >= 1
  {
    && JsLength(d.creatorId) >= 1
    && |d.posts| >= 1
    && AllPostsValid(d.posts, isDatetime)
  }

  // ---------------------------------------------------------------- input, decoded

  function DecodeNonNegativeInt(v: JsValue): Option<real> {
    if v.Num? && NonNegativeInt(v.n) then Some(v.n) else None
  }

  /** `PostEngagementSchema.safeParse`: unknown keys are dropped. */
  function DecodeEngagement(v: JsValue): (r: Option<PostEngagement>)
    ensures r.Some? ==> ValidEngagement(r.value)
    ensures r.Some? ==> v.Obj? && Get(v, "likes") == Num(r.value.likes)
                        && Get(v, "comments") == Num(r.value.comments) && Get(v, "shares") == Num(r.value.shares)
  {
    if !v.Obj? then None
    else
      match (DecodeNonNegativeInt(Get(v, "likes")), DecodeNonNegativeInt(Get(v, "comments")),
             DecodeNonNegativeInt(Get(v, "shares")))
      case (Some(likes), Some(comments), Some(shares)) => Some(PostEngagement(likes, comments, shares))
      case _ => None
  }

  /** `PostTypeSchema`: one of the four names, exactly. */
  function DecodePostType(v: JsValue): (r: Option<PostType>)
    ensures r.Some? <==> v.Str? && v.s in {"reel", "image", "video", "text"}
    ensures r.Some? ==> PostTypeName(r.value) == v.s
  {
    if v == Str("reel") then Some(Reel)
    else if v == Str("image") then Some(Image)
    else if v == Str("video") then Some(Video)
    else if v == Str("text") then Some(Text)
    else None
  }

  /** `z.array(z.string())`, element by element. */
  function DecodeStrings(elems: seq<JsValue>): (r: Option<seq<string>>)
    ensures r.Some? ==> |r.value| == |elems|
    ensures r.Some? <==> forall i :: 0 <= i < |elems| ==> elems[i].Str?
  {
    if |elems| == 0 then Some([])
    else if !elems[0].Str? then None
    else match DecodeStrings(elems[1..])
      case None => None
      case Some(rest) => Some([elems[0].s] + rest)
  }

  /** `CreatorPostSchema.safeParse`. */
  function DecodePost(v: JsValue, isDatetime: DatetimeCheck): (r: Option<CreatorPost>)
    ensures r.Some? ==> ValidPost(r.value, isDatetime)
  {
    if !v.Obj? then None
    else
      var content := Get(v, "content");
      var postedAt := Get(v, "posted_at");
      var comments := Get(v, "comments_sample");
      if !content.Str? || JsLength(content.s) < 1 then None
      else if !postedAt.Str? || !isDatetime(postedAt.s) then None
      else if !comments.Arr? then None
      else
        match (DecodePostType(Get(v, "post_type")), DecodeEngagement(Get(v, "engagement")),
               DecodeStrings(comments.elems))
        case (Some(t), Some(e), Some(cs)) => Some(CreatorPost(content.s, t, e, cs, postedAt.s))
        case _ => None
  }

  /** `z.array(CreatorPostSchema)`, element by element. */
  function DecodePosts(elems: seq<JsValue>, isDatetime: DatetimeCheck): (r: Option<seq<CreatorPost>>)
    ensures r.Some? ==> |r.value| == |elems|
    ensures r.Some? ==> AllPostsValid(r.value, isDatetime)
  {
    if |elems| == 0 then Some([])
    else match (DecodePost(elems[0], isDatetime), DecodePosts(elems[1..], isDatetime))
      case (Some(p), Some(rest)) => Some([p] + rest)
      case _ => None
  }

  /** `validateCreatorData`: the decoded record on success, `None` on any
      schema violation (the violation details are not modelled). */
  function ValidateCreatorData(v: JsValue, isDatetime: DatetimeCheck): (r: Option<CreatorData>)
    ensures r.Some? ==> ValidCreatorData(r.value, isDatetime)
    ensures r.Some? ==> Get(v, "creator_id") == Str(r.value.creatorId)
    ensures Get(v, "posts") == Arr([]) ==> r.None?
  {
    if !v.Obj? then None
    else
      var id := Get(v, "creator_id");
      var posts := Get(v, "posts");
      if !id.Str? || JsLength(id.s) < 1 then None
      else if !posts.Arr? || |posts.elems| < 1 then None
      else match DecodePosts(posts.elems, isDatetime)
        case None => None
        case Some(ps) => Some(CreatorData(id.s, ps))
  }

  // ---------------------------------------------------------------- encoding

  function EncodeEngagement(e: PostEngagement): JsValue {
    Obj(map["likes" := Num(e.likes), "comments" := Num(e.comments), "shares" := Num(e.shares)])
  }

  function EncodeStrings(xs: seq<string>): (r: seq<JsValue>)
    ensures |r| == |xs|
  {
    if |xs| == 0 then [] else [Str(xs[0])] + EncodeStrings(xs[1..])
  }

  /** A post as the JSON the request body carries. */
  function EncodePost(p: CreatorPost): JsValue {
    Obj(map[
      "content" := Str(p.content),
      "post_type" := Str(PostTypeName(p.postType)),
      "engagement" := EncodeEngagement(p.engagement),
      "comments_sample" := Arr(EncodeStrings(p.commentsSample)),
      "posted_at" := Str(p.postedAt)])
  }

  function EncodePosts(ps: seq<CreatorPost>): (r: seq<JsValue>)
    ensures |r| == |ps|
  {
    if |ps| == 0 then [] else [EncodePost(ps[0])] + EncodePosts(ps[1..])
  }

  function EncodeCreatorData(d: CreatorData): JsValue {
    Obj(map["creator_id" := Str(d.creatorId), "posts" := Arr(EncodePosts(d.posts))])
  }

  // ---------------------------------------------------------------- round trip

  lemma DecodePostTypeName(t: PostType)
    ensures DecodePostType(Str(PostTypeName(t))) == Some(t)
  {
    match t
    case Reel =>
    case Image =>
    case Video =>
    case Text =>
  }

  lemma DecodeEncodedEngagement(e: PostEngagement)
    ensures DecodeEngagement(EncodeEngagement(e)) == if ValidEngagement(e) then Some(e) else None
  {
    var v := EncodeEngagement(e);
    assert Get(v, "likes") == Num(e.likes);
    assert Get(v, "comments") == Num(e.comments);
    assert Get(v, "shares") == Num(e.shares);
  }

  lemma {:induction false} DecodeEncodedStrings(xs: seq<string>)
    ensures DecodeStrings(EncodeStrings(xs)) == Some(xs)
    decreases |xs|
  {
    if |xs| > 0 {
      var e := EncodeStrings(xs);
      assert e[0] == Str(xs[0]);
      assert e[1..] == EncodeStrings(xs[1..]);
      DecodeEncodedStrings(xs[1..]);
      assert [xs[0]] + xs[1..] == xs;
    }
  }

  lemma DecodeEncodedPost(p: CreatorPost, isDatetime: DatetimeCheck)
    ensures DecodePost(EncodePost(p), isDatetime) == if ValidPost(p, isDatetime) then Some(p) else None
  {
    var v := EncodePost(p);
    assert Get(v, "content") == Str(p.content);
    assert Get(v, "posted_at") == Str(p.postedAt);
    assert Get(v, "comments_sample") == Arr(EncodeStrings(p.commentsSample));
    assert Get(v, "post_type") == Str(PostTypeName(p.postType));
    assert Get(v, "engagement") == EncodeEngagement(p.engagement);
    DecodePostTypeName(p.postType);
    DecodeEncodedEngagement(p.engagement);
    DecodeEncodedStrings(p.commentsSample);
  }

  lemma AllPostsValidSplit(ps: seq<CreatorPost>, isDatetime: DatetimeCheck)
    requires |ps| > 0
    ensures AllPostsValid(ps, isDatetime)
      <==> ValidPost(ps[0], isDatetime) && AllPostsValid(ps[1..], isDatetime)
  {
    if ValidPost(ps[0], isDatetime) && AllPostsValid(ps[1..], isDatetime) {
      forall i | 1 <= i < |ps|
        ensures ValidPost(ps[i], isDatetime)
      {
        assert ps[i] == ps[1..][i - 1];
      }
    }
  }

  lemma {:induction false} DecodeEncodedPosts(ps: seq<CreatorPost>, isDatetime: DatetimeCheck)
    ensures DecodePosts(EncodePosts(ps), isDatetime)
      == if AllPostsValid(ps, isDatetime) then Some(ps) else None
    decreases |ps|
  {
    if |ps| > 0 {
      var e := EncodePosts(ps);
      assert e[0] == EncodePost(ps[0]);
      assert e[1..] == EncodePosts(ps[1..]);
      DecodeEncodedPost(ps[0], isDatetime);
      DecodeEncodedPosts(ps[1..], isDatetime);
      AllPostsValidSplit(ps, isDatetime);
      assert [ps[0]] + ps[1..] == ps;
    }
  }

  /** The validator accepts the JSON of a record exactly when the record
      satisfies the schema, and then gives the record back unchanged. */
  lemma ValidateEncoded(d: CreatorData, isDatetime: DatetimeCheck)
    ensures ValidateCreatorData(EncodeCreatorData(d), isDatetime)
      == if ValidCreatorData(d, isDatetime) then Some(d) else None
  {
    var v := EncodeCreatorData(d);
    assert Get(v, "creator_id") == Str(d.creatorId);
    assert Get(v, "posts") == Arr(EncodePosts(d.posts));
    DecodeEncodedPosts(d.posts, isDatetime);
  }

  /** Content made only of whitespace passes the schema (it is not trimmed). */
  lemma BlankContentIsValid(isDatetime: DatetimeCheck, postedAt: string)
    requires isDatetime(postedAt)
    ensures ValidPost(CreatorPost(" ", Text, PostEngagement(0.0, 0.0, 0.0), [], postedAt), isDatetime)
    ensures IsBlank(" ")
  {
    assert Parsers.IsInteger(0.0);
    assert LeadingSpaces(" ") == 1;
  }

  // ---------------------------------------------------------------- output

  /** `z.number().min(0).max(1)`. */
  predicate ValidConfidence(x: real) {
    0.0 <= x <= 1.0
  }

  /** `CreatorDNASchema`: a whole humour level from 0 to 10 and four
      confidences in [0, 1]; the three enums are fixed by the record's types. */
  function ValidDna(dna: CreatorDna): (valid: bool)
    ensures valid ==> dna.humorLevel in {0.0, 1.0, 2.0, 3.0, 4.0, 5.0, 6.0, 7.0, 8.0, 9.0, 10.0}
    ensures valid ==> 0.0 <= dna.confidence.tone <= 1.0 && 0.0 <= dna.confidence.humor <= 1.0
                      && 0.0 <= dna.confidence.risk <= 1.0 && 0.0 <= dna.confidence.audience <= 1.0
  {
    && Parsers.IsInteger(dna.humorLevel) && 0.0 <= dna.humorLevel <= 10.0
    && ValidConfidence(dna.confidence.tone)
    && ValidConfidence(dna.confidence.humor)
    && ValidConfidence(dna.confidence.risk)
    && ValidConfidence(dna.confidence.audience)
  }

  /** `CreatorDNAProfileSchema`. */
  function ValidProfile(p: CreatorDnaProfile, isDatetime: DatetimeCheck): (valid: bool)
    ensures valid ==> |p.creatorId| >= 1 && 0.0 <= p.creatorDna.humorLevel <= 10.0
    ensures valid ==> && 0.0 <= p.creatorDna.confidence.tone <= 1.0
                      && 0.0 <= p.creatorDna.confidence.humor <= 1.0
                      && 0.0 <= p.creatorDna.confidence.risk <= 1.0
                      && 0.0 <= p.creatorDna.confidence.audience <= 1.0
  {
    && JsLength(p.creatorId) >= 1
    && isDatetime(p.generatedAt)
    && ValidDna(p.creatorDna)
  }
}
