/** The onboarding form and its conversion into the creator record
    (`frontend/src/lib/types.ts`): the email mask and `onboardingToCreator`. */
module Onboarding {
  import opened Optional
  import opened JsText

  // ---------------------------------------------------------------- form data

  datatype AccountType =
    | Individual | Team | Organization | Club | Brand | Community | Ngo | Political

  datatype AuthMethod = Credentials | Manual | Url

  datatype CreatorGoal =
    | UnderstandContentStyle | GrowAudience | MonetizeAudience | BrandCollaborations
    | AvoidContentRisks | LicenseContent | AllOfAbove

  datatype PlatformKey = Instagram | Facebook | YouTube | Twitter

  /** One platform's entry in the form. Every field but `skipped` may be
      missing (`None`); YouTube uses `channelUrl` where the others use
      `email`, `password` and `handle`. */
  datatype FormPlatform = FormPlatform(
    skipped: bool,
    authMethod: Option<AuthMethod>,
    email: Option<string>,
    password: Option<string>,
    handle: Option<string>,
    followers: Option<real>,
    engagementRate: Option<real>,
    channelUrl: Option<string>)

  /** `{ skipped: false }`: the entry of a platform not yet touched. */
  const UntouchedPlatform: FormPlatform := FormPlatform(false, None, None, None, None, None, None, None)

  /** The form's `platforms` object: a platform without a key is absent. */
  type FormPlatforms = map<PlatformKey, FormPlatform>

  datatype OnboardingForm = OnboardingForm(
    creatorName: string,
    accountType: AccountType,
    platforms: FormPlatforms,
    creatorGoals: seq<CreatorGoal>)

  // ---------------------------------------------------------------- creator record

  /** An Instagram, Facebook or Twitter account; `posts` is absent for Twitter. */
  datatype SocialAccount = SocialAccount(
    handle: string,
    followers: real,
    avgEngagementRate: real,
    authMethod: AuthMethod,
    maskedEmail: Option<string>,
    posts: Option<seq<string>>)

  datatype YouTubeAccount = YouTubeAccount(
    channelUrl: Option<string>,
    followers: real,
    avgEngagementRate: real,
    authMethod: AuthMethod)

  datatype CreatorPlatforms = CreatorPlatforms(
    instagram: Option<SocialAccount>,
    facebook: Option<SocialAccount>,
    youtube: Option<YouTubeAccount>,
    twitter: Option<SocialAccount>)

  datatype AnalysisStatus = Pending | Analyzing | Complete | Failed

  /** The `Partial<Creator>` that onboarding produces. */
  datatype CreatorDraft = CreatorDraft(
    creatorName: string,
    accountType: AccountType,
    creatorGoals: seq<CreatorGoal>,
    platforms: CreatorPlatforms,
    aiAnalysisStatus: AnalysisStatus)

  // ---------------------------------------------------------------- text helpers

  /** Index of the first `c` in `s`, or `|s|` when there is none. */
  function IndexOf(s: string, c: char): (i: nat)
    ensures i <= |s|
    ensures c !in s[..i]
    ensures i < |s| <==> c in s
    ensures i < |s| ==> s[i] == c
  {
    if |s| == 0 then 0
    else if s[0] == c then 0
    else
      var j := IndexOf(s[1..], c);
      assert s[..1 + j] == [s[0]] + s[1..][..j];
      assert c in s ==> c in s[1..] by {
        if c in s {
          var k :| 0 <= k < |s| && s[k] == c;
          assert s[1..][k - 1] == c;
        }
      }
      1 + j
  }

  /** The first `c` of `a + b`, when `a` has none and `b` is empty or starts with one. */
  lemma IndexOfAfter(a: string, b: string, c: char)
    requires c !in a
    requires b == "" || b[0] == c
    ensures IndexOf(a + b, c) == |a|
  {
    var s := a + b;
    var i := IndexOf(s, c);
    assert forall j :: 0 <= j < |a| ==> s[j] == a[j];
    assert b != "" ==> s[|a|] == c;
    assert forall j :: |a| < j <= |s| ==> s[..j][|a|] == s[|a|];
  }

  /** How many times `c` occurs in `s`. */
  function CountChar(s: string, c: char): nat {
    if |s| == 0 then 0 else (if s[0] == c then 1 else 0) + CountChar(s[1..], c)
  }

  lemma {:induction false} CountCharAppend(a: string, b: string, c: char)
    ensures CountChar(a + b, c) == CountChar(a, c) + CountChar(b, c)
    decreases |a|
  {
    if |a| == 0 {
      assert a + b == b;
    } else {
      assert (a + b)[1..] == a[1..] + b;
      CountCharAppend(a[1..], b, c);
    }
  }

  lemma {:induction false} CountCharAbsent(s: string, c: char)
    requires c !in s
    ensures CountChar(s, c) == 0
    decreases |s|
  {
    if |s| > 0 {
      CountCharAbsent(s[1..], c);
    }
  }

  /** `s.slice(0, units)` for a string whose first `units` code units do not
      end inside a surrogate pair. */
  function JsPrefix(s: string, units: nat): (p: string)
    ensures p <= s && JsLength(p) <= units
    ensures JsLength(s) <= units ==> p == s
    decreases |s|
  {
    if |s| == 0 then []
    else
      var w := if IsAstral(s[0]) then 2 else 1;
      if w > units then []
      else [s[0]] + JsPrefix(s[1..], units - w)
  }

  // ---------------------------------------------------------------- the email mask

  const MaskedFallback: string := "****@****.com"
  const Mask: string := "****"

  /** The masked local part: its first two code units followed by the mask
      when it is longer than two, the mask alone otherwise. */
  function MaskLocal(local: string): (r: string)
    ensures |r| >= |Mask| && r[|r| - |Mask|..] == Mask
    ensures r[..|r| - |Mask|] <= local && JsLength(r[..|r| - |Mask|]) <= 2
    ensures JsLength(local) <= 2 ==> r == Mask
    ensures '@' !in local ==> '@' !in r
  {
    if JsLength(local) > 2 then
      var p := JsPrefix(local, 2);
      assert (p + Mask)[..|p|] == p;
      assert forall k :: 0 <= k < |p| ==> p[k] == local[k];
      p + Mask
    else Mask
  }

  /** The fallback holds one `@`, like every other result. */
  lemma FallbackHasOneAt()
    ensures CountChar(MaskedFallback, '@') == 1
  {
  }

  /** `maskEmail`: the local part masked, then the text between the first
      and the second `@`; anything after a second `@` is dropped. */
  function MaskEmail(email: string): (r: string)
    ensures '@' !in email ==> r == MaskedFallback
    ensures CountChar(r, '@') == 1
  {
    if email == "" || '@' !in email then
      FallbackHasOneAt();
      MaskedFallback
    else
      var at := IndexOf(email, '@');
      var rest := email[at + 1..];
      var domain := rest[..IndexOf(rest, '@')];
      var masked := MaskLocal(email[..at]);
      MaskedEmailShape(masked, domain);
      masked + "@" + domain
  }

  /** A masked local part and a domain joined by one `@`. */
  lemma MaskedEmailShape(masked: string, domain: string)
    requires '@' !in masked && '@' !in domain
    ensures CountChar(masked + "@" + domain, '@') == 1
  {
    CountCharAppend(masked, "@", '@');
    CountCharAppend(masked + "@", domain, '@');
    CountCharAbsent(masked, '@');
    CountCharAbsent(domain, '@');
  }

  /** `maskEmail` on an address with an `@`, step by step. */
  lemma MaskEmailUnfold(email: string, at: nat, rest: string)
    requires '@' in email && at == IndexOf(email, '@') && rest == email[at + 1..]
    ensures MaskEmail(email) == MaskLocal(email[..at]) + "@" + rest[..IndexOf(rest, '@')]
  {
  }

  /** Both halves of a concatenation come back from slicing it. */
  lemma SliceConcat(a: string, b: string)
    ensures (a + b)[..|a|] == a && (a + b)[|a|..] == b
  {
  }

  /** An address written as local part, `@`, domain and possibly a further
      `@…` tail is masked to the masked local part, `@` and the domain. */
  lemma MaskEmailOfParts(local: string, domain: string, tail: string)
    requires '@' !in local && '@' !in domain
    requires tail == "" || tail[0] == '@'
    ensures MaskEmail(local + "@" + domain + tail) == MaskLocal(local) + "@" + domain
  {
    var after := domain + tail;
    var back := "@" + after;
    var email := local + back;
    assert local + "@" + domain + tail == email;
    IndexOfAfter(local, back, '@');
    SliceConcat(local, back);
    assert back[1..] == after;
    assert email[|local| + 1..] == after;
    IndexOfAfter(domain, tail, '@');
    SliceConcat(domain, tail);
    assert back[0] == '@';
    MaskEmailUnfold(email, |local|, after);
  }

  /** A local part longer than two code units, whose first two characters
      are not astral, keeps exactly those two characters before the mask. */
  lemma MaskLocalKeepsTwo(local: string)
    requires |local| > 2 && !IsAstral(local[0]) && !IsAstral(local[1])
    ensures MaskLocal(local) == local[..2] + Mask
  {
    assert JsLength(local) > 2;
    var t := local[2..];
    assert local[1..][1..] == t;
    assert JsPrefix(local[1..], 1) == [local[1]] + JsPrefix(t, 0);
    assert JsPrefix(t, 0) == [];
    assert local[..2] == [local[0]] + [local[1]];
  }

  /** An astral first character fills both code units that `slice(0, 2)`
      keeps: a longer local part shows that character alone. */
  lemma MaskLocalAstralFirst(a: char, rest: string)
    requires IsAstral(a) && |rest| >= 1
    ensures MaskLocal([a] + rest) == [a] + Mask
  {
    var local := [a] + rest;
    assert local[0] == a && local[1..] == rest;
    assert JsLength(local) == 2 + JsLength(rest);
    assert JsPrefix(rest, 0) == [];
    assert JsPrefix(local, 2) == [a] + JsPrefix(rest, 0);
  }

  /** A second `@` ends the domain: an address shaped like `abc@d@e` is
      masked to `ab****@d`. */
  lemma MaskEmailSecondAt(a: char, b: char, c: char, d: char, e: char)
    requires a != '@' && b != '@' && c != '@' && d != '@'
    requires !IsAstral(a) && !IsAstral(b)
    ensures MaskEmail([a, b, c] + "@" + [d] + "@" + [e]) == [a, b] + Mask + "@" + [d]
  {
    var local := [a, b, c];
    assert local + "@" + [d] + "@" + [e] == local + "@" + [d] + ("@" + [e]);
    MaskEmailOfParts(local, [d], "@" + [e]);
    MaskLocalKeepsTwo(local);
    assert local[..2] == [a, b];
  }

  // ---------------------------------------------------------------- onboardingToCreator

  /** The entry of a platform that is present and not skipped. */
  function Kept(platforms: FormPlatforms, k: PlatformKey): (e: Option<FormPlatform>)
    ensures e.Some? <==> k in platforms && !platforms[k].skipped
    ensures e.Some? ==> e.value == platforms[k]
  {
    if k in platforms && !platforms[k].skipped then Some(platforms[k]) else None
  }

  /** `login_meta`: the masked email, for credentials with a non-empty email only. */
  function LoginMeta(p: FormPlatform): (m: Option<string>)
    ensures m.Some? <==> p.authMethod == Some(Credentials) && p.email.Some? && p.email.value != ""
    ensures m.Some? ==> m.value == MaskEmail(p.email.value)
  {
    if p.authMethod == Some(Credentials) && p.email.Some? && p.email.value != "" then
      Some(MaskEmail(p.email.value))
    else None
  }

  /** The account of Instagram, Facebook (`withPosts`) or Twitter. Missing
      fields take their defaults; the password is never copied. */
  function SocialAccountOf(p: FormPlatform, withPosts: bool): (a: SocialAccount)
    ensures p.handle.None? ==> a.handle == ""
    ensures p.handle.Some? ==> a.handle == p.handle.value
    ensures (p.followers.None? || p.followers == Some(0.0)) ==> a.followers == 0.0
    ensures p.followers.Some? ==> a.followers == p.followers.value
    ensures p.engagementRate.None? ==> a.avgEngagementRate == 0.0
    ensures p.engagementRate.Some? ==> a.avgEngagementRate == p.engagementRate.value
    ensures p.authMethod.None? ==> a.authMethod == Manual
    ensures p.authMethod.Some? ==> a.authMethod == p.authMethod.value
    ensures a.maskedEmail == LoginMeta(p)
    ensures a.posts == if withPosts then Some([]) else None
  {
    SocialAccount(
      p.handle.GetOr(""),
      p.followers.GetOr(0.0),
      p.engagementRate.GetOr(0.0),
      p.authMethod.GetOr(Manual),
      LoginMeta(p),
      if withPosts then Some([]) else None)
  }

  /** The YouTube account: the channel URL as entered, other fields as for
      the social accounts, and no login data at all. */
  function YouTubeAccountOf(p: FormPlatform): (a: YouTubeAccount)
    ensures a.channelUrl == p.channelUrl
    ensures p.followers.None? ==> a.followers == 0.0
    ensures p.followers.Some? ==> a.followers == p.followers.value
    ensures p.engagementRate.None? ==> a.avgEngagementRate == 0.0
    ensures p.engagementRate.Some? ==> a.avgEngagementRate == p.engagementRate.value
    ensures p.authMethod.None? ==> a.authMethod == Manual
    ensures p.authMethod.Some? ==> a.authMethod == p.authMethod.value
  {
    YouTubeAccount(p.channelUrl, p.followers.GetOr(0.0), p.engagementRate.GetOr(0.0), p.authMethod.GetOr(Manual))
  }

  /** `onboardingToCreator`. */
  function OnboardingToCreator(form: OnboardingForm): (c: CreatorDraft)
    ensures c.platforms.instagram.Some? <==> Kept(form.platforms, Instagram).Some?
    ensures c.platforms.facebook.Some? <==> Kept(form.platforms, Facebook).Some?
    ensures c.platforms.youtube.Some? <==> Kept(form.platforms, YouTube).Some?
    ensures c.platforms.twitter.Some? <==> Kept(form.platforms, Twitter).Some?
    ensures Kept(form.platforms, Instagram).Some? ==>
              c.platforms.instagram == Some(SocialAccountOf(form.platforms[Instagram], true))
    ensures Kept(form.platforms, Facebook).Some? ==>
              c.platforms.facebook == Some(SocialAccountOf(form.platforms[Facebook], true))
    ensures Kept(form.platforms, YouTube).Some? ==>
              c.platforms.youtube == Some(YouTubeAccountOf(form.platforms[YouTube]))
    ensures Kept(form.platforms, Twitter).Some? ==>
              c.platforms.twitter == Some(SocialAccountOf(form.platforms[Twitter], false))
    ensures c.creatorName == form.creatorName && c.accountType == form.accountType
    ensures c.creatorGoals == form.creatorGoals
    ensures c.aiAnalysisStatus == Pending
  {
    var ig := Kept(form.platforms, Instagram);
    var fb := Kept(form.platforms, Facebook);
    var yt := Kept(form.platforms, YouTube);
    var tw := Kept(form.platforms, Twitter);
    var platforms := CreatorPlatforms(
      if ig.Some? then Some(SocialAccountOf(ig.value, true)) else None,
      if fb.Some? then Some(SocialAccountOf(fb.value, true)) else None,
      if yt.Some? then Some(YouTubeAccountOf(yt.value)) else None,
      if tw.Some? then Some(SocialAccountOf(tw.value, false)) else None);
    CreatorDraft(form.creatorName, form.accountType, form.creatorGoals, platforms, Pending)
  }

  /** No account in the record carries an email other than a masked one:
      every stored email holds exactly one `@` and shows at most two code
      units of the original local part. */
  lemma StoredEmailsAreMasked(form: OnboardingForm)
    ensures var p := OnboardingToCreator(form).platforms;
            EmailMaskedFrom(p.instagram, form.platforms, Instagram)
            && EmailMaskedFrom(p.facebook, form.platforms, Facebook)
            && EmailMaskedFrom(p.twitter, form.platforms, Twitter)
  {
  }

  /** A stored account's email, if any, is the mask of the email entered for
      platform `k`, and holds exactly one `@`. */
  predicate EmailMaskedFrom(a: Option<SocialAccount>, platforms: map<PlatformKey, FormPlatform>, k: PlatformKey)
  {
    a.Some? && a.value.maskedEmail.Some? ==>
      k in platforms && platforms[k].email.Some?
      && a.value.maskedEmail.value == MaskEmail(platforms[k].email.value)
      && CountChar(a.value.maskedEmail.value, '@') == 1
  }

  /** A skipped platform leaves no account behind, whatever it holds. */
  lemma SkippedPlatformDropped(form: OnboardingForm, k: PlatformKey)
    requires k in form.platforms && form.platforms[k].skipped
    ensures var p := OnboardingToCreator(form).platforms;
            match k
            case Instagram => p.instagram.None?
            case Facebook => p.facebook.None?
            case YouTube => p.youtube.None?
            case Twitter => p.twitter.None?
  {
  }
}
