/** The platforms step of onboarding
    (`frontend/src/components/onboarding/PlatformsStep.tsx`): editing a
    platform's fields, skipping platforms, and deciding when the step is
    complete. */
module PlatformsStep {
  import opened Optional
  import opened Onboarding

  /** The order of the platform cards; skipping one expands the next. */
  const PlatformOrder: seq<PlatformKey> := [Instagram, Facebook, YouTube, Twitter]

  lemma PlatformOrderCoversEveryKey(k: PlatformKey)
    ensures k in PlatformOrder
  {
    match k
    case Instagram => assert PlatformOrder[0] == k;
    case Facebook => assert PlatformOrder[1] == k;
    case YouTube => assert PlatformOrder[2] == k;
    case Twitter => assert PlatformOrder[3] == k;
  }

  /** `getPlatformData`: the entry of a platform, or `{ skipped: false }`
      when the form has none. */
  function PlatformData(platforms: FormPlatforms, k: PlatformKey): (p: FormPlatform)
    ensures k in platforms ==> p == platforms[k]
    ensures k !in platforms ==> p == UntouchedPlatform
  {
    if k in platforms then platforms[k] else UntouchedPlatform
  }

  // ---------------------------------------------------------------- fields

  /** The fields of a platform entry that `updatePlatform` can set. */
  datatype Field =
    | SkippedField | AuthMethodField | EmailField | PasswordField
    | HandleField | FollowersField | EngagementRateField | ChannelUrlField

  /** A field's value; `None` is a field set to `undefined`. */
  datatype FieldValue =
    | FlagValue(flag: bool)
    | AuthValue(auth: Option<AuthMethod>)
    | TextValue(text: Option<string>)
    | NumberValue(number: Option<real>)

  /** Reading one field of an entry. */
  function Read(p: FormPlatform, f: Field): FieldValue {
    match f
    case SkippedField => FlagValue(p.skipped)
    case AuthMethodField => AuthValue(p.authMethod)
    case EmailField => TextValue(p.email)
    case PasswordField => TextValue(p.password)
    case HandleField => TextValue(p.handle)
    case FollowersField => NumberValue(p.followers)
    case EngagementRateField => NumberValue(p.engagementRate)
    case ChannelUrlField => TextValue(p.channelUrl)
  }

  /** An entry is determined by the values of its fields. */
  lemma ReadDetermines(a: FormPlatform, b: FormPlatform)
    requires forall f :: Read(a, f) == Read(b, f)
    ensures a == b
  {
    assert Read(a, SkippedField) == Read(b, SkippedField);
    assert Read(a, AuthMethodField) == Read(b, AuthMethodField);
    assert Read(a, EmailField) == Read(b, EmailField);
    assert Read(a, PasswordField) == Read(b, PasswordField);
    assert Read(a, HandleField) == Read(b, HandleField);
    assert Read(a, FollowersField) == Read(b, FollowersField);
    assert Read(a, EngagementRateField) == Read(b, EngagementRateField);
    assert Read(a, ChannelUrlField) == Read(b, ChannelUrlField);
  }

  /** One call of `updatePlatform`: a field and the value written to it, with
      the value's type matching the field's. */
  datatype FieldUpdate =
    | SetSkipped(skipped: bool)
    | SetAuthMethod(authMethod: Option<AuthMethod>)
    | SetEmail(email: Option<string>)
    | SetPassword(password: Option<string>)
    | SetHandle(handle: Option<string>)
    | SetFollowers(followers: Option<real>)
    | SetEngagementRate(engagementRate: Option<real>)
    | SetChannelUrl(channelUrl: Option<string>)

  function FieldOf(u: FieldUpdate): Field {
    match u
    case SetSkipped(_) => SkippedField
    case SetAuthMethod(_) => AuthMethodField
    case SetEmail(_) => EmailField
    case SetPassword(_) => PasswordField
    case SetHandle(_) => HandleField
    case SetFollowers(_) => FollowersField
    case SetEngagementRate(_) => EngagementRateField
    case SetChannelUrl(_) => ChannelUrlField
  }

  function ValueOf(u: FieldUpdate): FieldValue {
    match u
    case SetSkipped(v) => FlagValue(v)
    case SetAuthMethod(v) => AuthValue(v)
    case SetEmail(v) => TextValue(v)
    case SetPassword(v) => TextValue(v)
    case SetHandle(v) => TextValue(v)
    case SetFollowers(v) => NumberValue(v)
    case SetEngagementRate(v) => NumberValue(v)
    case SetChannelUrl(v) => TextValue(v)
  }

  /** `{ ...currentPlatform, [field]: value }`: the named field takes the new
      value and every other field keeps its own. */
  function Apply(p: FormPlatform, u: FieldUpdate): (r: FormPlatform)
    ensures Read(r, FieldOf(u)) == ValueOf(u)
    ensures forall f :: f != FieldOf(u) ==> Read(r, f) == Read(p, f)
  {
    match u
    case SetSkipped(v) => p.(skipped := v)
    case SetAuthMethod(v) => p.(authMethod := v)
    case SetEmail(v) => p.(email := v)
    case SetPassword(v) => p.(password := v)
    case SetHandle(v) => p.(handle := v)
    case SetFollowers(v) => p.(followers := v)
    case SetEngagementRate(v) => p.(engagementRate := v)
    case SetChannelUrl(v) => p.(channelUrl := v)
  }

  /** `updatePlatform`: only the named field of the named platform changes;
      a platform without an entry starts from `{ skipped: false }`. */
  function UpdatePlatform(platforms: FormPlatforms, k: PlatformKey, u: FieldUpdate): (r: FormPlatforms)
    ensures r.Keys == platforms.Keys + {k}
    ensures forall j :: j in platforms && j != k ==> r[j] == platforms[j]
    ensures Read(r[k], FieldOf(u)) == ValueOf(u)
    ensures forall f :: f != FieldOf(u) ==> Read(r[k], f) == Read(PlatformData(platforms, k), f)
  {
    platforms[k := Apply(PlatformData(platforms, k), u)]
  }

  /** Writing back the value a field already holds changes nothing but,
      for a platform without an entry, the creation of `{ skipped: false }`. */
  lemma UpdateWithSameValue(platforms: FormPlatforms, k: PlatformKey, u: FieldUpdate)
    requires ValueOf(u) == Read(PlatformData(platforms, k), FieldOf(u))
    ensures UpdatePlatform(platforms, k, u) == platforms[k := PlatformData(platforms, k)]
  {
    var r := UpdatePlatform(platforms, k, u);
    ReadDetermines(r[k], PlatformData(platforms, k));
  }

  // ---------------------------------------------------------------- navigation

  /** The step's state: the form's platforms and the expanded card. */
  datatype StepState = StepState(platforms: FormPlatforms, expanded: Option<PlatformKey>)

  /** The card after `k` in the order, none after the last. */
  function NextPlatform(k: PlatformKey): (n: Option<PlatformKey>)
    ensures k == Twitter <==> n.None?
  {
    match k
    case Instagram => Some(Facebook)
    case Facebook => Some(YouTube)
    case YouTube => Some(Twitter)
    case Twitter => None
  }

  /** The position of a platform in the card order. */
  function Position(k: PlatformKey): (i: nat)
    ensures i < |PlatformOrder| && PlatformOrder[i] == k
  {
    match k
    case Instagram => 0
    case Facebook => 1
    case YouTube => 2
    case Twitter => 3
  }

  /** `skipPlatform`: mark the platform skipped and expand the next card in
      the order, or none after the last. */
  function SkipPlatform(s: StepState, k: PlatformKey): (r: StepState)
    ensures r.platforms == UpdatePlatform(s.platforms, k, SetSkipped(true))
    ensures Position(k) < |PlatformOrder| - 1 ==> r.expanded == Some(PlatformOrder[Position(k) + 1])
    ensures Position(k) == |PlatformOrder| - 1 ==> r.expanded.None?
  {
    StepState(UpdatePlatform(s.platforms, k, SetSkipped(true)), NextPlatform(k))
  }

  /** `unskipPlatform`: clear the flag and expand the platform's own card. */
  function UnskipPlatform(s: StepState, k: PlatformKey): (r: StepState)
    ensures r.platforms == UpdatePlatform(s.platforms, k, SetSkipped(false))
    ensures r.expanded == Some(k)
  {
    StepState(UpdatePlatform(s.platforms, k, SetSkipped(false)), Some(k))
  }

  // ---------------------------------------------------------------- completeness

  /** Whether an optional text field holds a non-empty string (JS truthiness). */
  predicate Filled(t: Option<string>) {
    t.Some? && t.value != ""
  }

  /** `isPlatformComplete`. A skipped platform is complete. Otherwise the
      chosen way of connecting decides: credentials need an email, a URL
      needs the channel URL, manual entry needs non-zero followers for
      YouTube and a handle plus any follower count for the others; without
      a way of connecting the platform is incomplete. */
  function IsPlatformComplete(platforms: FormPlatforms, k: PlatformKey): (complete: bool)
    ensures PlatformData(platforms, k).skipped ==> complete
    ensures complete && !PlatformData(platforms, k).skipped ==> PlatformData(platforms, k).authMethod.Some?
    ensures var p := PlatformData(platforms, k);
            !p.skipped && p.authMethod == Some(Credentials) ==> (complete <==> Filled(p.email))
    ensures var p := PlatformData(platforms, k);
            !p.skipped && p.authMethod == Some(Manual) && k == YouTube ==>
              (complete <==> p.followers.Some? && p.followers.value != 0.0)
    ensures var p := PlatformData(platforms, k);
            !p.skipped && p.authMethod == Some(Manual) && k != YouTube ==>
              (complete <==> Filled(p.handle) && p.followers.Some?)
  {
    var p := PlatformData(platforms, k);
    if p.skipped then true
    else if p.authMethod == Some(Credentials) then Filled(p.email)
    else if p.authMethod == Some(Url) then Filled(p.channelUrl)
    else if p.authMethod == Some(Manual) then
      if k == YouTube then p.followers.Some? && p.followers.value != 0.0
      else Filled(p.handle) && p.followers.Some?
    else false
  }

  /** With a URL as the way of connecting, the card is complete exactly when
      the channel URL is non-empty; nothing else on the card matters. */
  lemma UrlCompleteIffChannelUrl(platforms: FormPlatforms, k: PlatformKey)
    requires k in platforms && !platforms[k].skipped && platforms[k].authMethod == Some(Url)
    ensures IsPlatformComplete(platforms, k) <==> platforms[k].channelUrl.Some? && |platforms[k].channelUrl.value| > 0
  {
  }

  /** A card that is kept but names no way of connecting is incomplete,
      whatever else it holds. */
  lemma NoMethodIsIncomplete(platforms: FormPlatforms, k: PlatformKey)
    requires k in platforms && !platforms[k].skipped && platforms[k].authMethod.None?
    ensures !IsPlatformComplete(platforms, k)
  {
  }

  /** `platforms.every(p => skipped || complete)` over a list of cards. */
  function AllHandled(platforms: FormPlatforms, order: seq<PlatformKey>): (b: bool)
    ensures b <==> forall i :: 0 <= i < |order| ==> IsPlatformComplete(platforms, order[i])
  {
    if |order| == 0 then true
    else
      var k := order[0];
      (PlatformData(platforms, k).skipped || IsPlatformComplete(platforms, k))
      && AllHandled(platforms, order[1..])
  }

  /** A platform that is kept in the record and complete. */
  predicate Added(platforms: FormPlatforms, k: PlatformKey) {
    !PlatformData(platforms, k).skipped && IsPlatformComplete(platforms, k)
  }

  /** `platforms.some(p => !skipped && complete)` over a list of cards. */
  function SomeAdded(platforms: FormPlatforms, order: seq<PlatformKey>): (b: bool)
    ensures b <==> exists i :: 0 <= i < |order| && Added(platforms, order[i])
  {
    if |order| == 0 then false
    else
      var k := order[0];
      Added(platforms, k) || SomeAdded(platforms, order[1..])
  }

  /** `allPlatformsHandled`. */
  function AllPlatformsHandled(platforms: FormPlatforms): (b: bool)
    ensures b <==> forall k :: IsPlatformComplete(platforms, k)
  {
    var b := AllHandled(platforms, PlatformOrder);
    assert b ==> forall k :: IsPlatformComplete(platforms, k) by {
      if b {
        forall k ensures IsPlatformComplete(platforms, k) {
          assert PlatformOrder[Position(k)] == k;
        }
      }
    }
    b
  }

  /** `atLeastOnePlatformAdded`. */
  function AtLeastOnePlatformAdded(platforms: FormPlatforms): (b: bool)
    ensures b <==> exists k :: Added(platforms, k)
  {
    var b := SomeAdded(platforms, PlatformOrder);
    assert (exists k :: Added(platforms, k)) ==> b by {
      if exists k :: Added(platforms, k) {
        var k :| Added(platforms, k);
        assert PlatformOrder[Position(k)] == k;
      }
    }
    b
  }

  /** `canProceed`. */
  function CanProceed(platforms: FormPlatforms): (b: bool)
    ensures b <==> (forall k :: IsPlatformComplete(platforms, k))
                   && (exists k :: Added(platforms, k))
  {
    AllPlatformsHandled(platforms) && AtLeastOnePlatformAdded(platforms)
  }

  // ---------------------------------------------------------------- properties

  /** Skipping a platform makes it complete and leaves every other
      platform's completeness as it was. */
  lemma SkipCompletes(s: StepState, k: PlatformKey, j: PlatformKey)
    ensures IsPlatformComplete(SkipPlatform(s, k).platforms, k)
    ensures j != k ==> (IsPlatformComplete(SkipPlatform(s, k).platforms, j) <==> IsPlatformComplete(s.platforms, j))
  {
  }

  /** A platform the form does not mention yet is incomplete, so the step
      cannot be left before some platform is touched. */
  lemma UntouchedIsIncomplete(platforms: FormPlatforms, k: PlatformKey)
    requires k !in platforms
    ensures !IsPlatformComplete(platforms, k)
    ensures !CanProceed(platforms)
  {
  }

  /** Skipping every platform does not allow proceeding: one platform must
      be added. */
  lemma AllSkippedCannotProceed(platforms: FormPlatforms)
    requires forall k :: PlatformData(platforms, k).skipped
    ensures !CanProceed(platforms)
  {
  }

  /** The password never affects completeness. */
  lemma PasswordIsIrrelevant(platforms: FormPlatforms, k: PlatformKey, j: PlatformKey, pw: Option<string>)
    ensures IsPlatformComplete(UpdatePlatform(platforms, k, SetPassword(pw)), j)
            <==> IsPlatformComplete(platforms, j)
  {
  }

  /** With credentials chosen, entering an email completes the platform
      exactly when the email is non-empty. */
  lemma EmailCompletesCredentials(platforms: FormPlatforms, k: PlatformKey, email: string)
    requires !PlatformData(platforms, k).skipped
    requires PlatformData(platforms, k).authMethod == Some(Credentials)
    ensures IsPlatformComplete(UpdatePlatform(platforms, k, SetEmail(Some(email))), k) <==> email != ""
  {
  }

  /** Manual entry: YouTube refuses a follower count of zero, the other
      platforms accept it once a handle is given. */
  lemma ZeroFollowers(platforms: FormPlatforms, k: PlatformKey)
    requires !PlatformData(platforms, k).skipped
    requires PlatformData(platforms, k).authMethod == Some(Manual)
    ensures var r := UpdatePlatform(platforms, k, SetFollowers(Some(0.0)));
            IsPlatformComplete(r, k) <==> k != YouTube && Filled(PlatformData(platforms, k).handle)
  {
  }

  /** One added platform and the rest skipped is enough to proceed. */
  lemma OneAddedRestSkipped(platforms: FormPlatforms, k: PlatformKey)
    requires Added(platforms, k)
    requires forall j :: j != k ==> PlatformData(platforms, j).skipped
    ensures CanProceed(platforms)
  {
  }
}
