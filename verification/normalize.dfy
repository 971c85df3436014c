/** `normalizeText` of `src/services/creator-dna/aggregator.ts`: four global
    rewrites applied in order — links become `[LINK]`, every run of white
    space becomes one blank, a run of three or more copies of the same emoji
    (one astral character, a surrogate pair in JavaScript) shrinks to two,
    and the ends are trimmed. Each rewrite is a left-to-right scan, as the
    regular-expression engine performs it. */
module Normalize {
  import opened JsText

  // ---------------------------------------------------------------- links

  const LinkToken: string := "[LINK]"

  /** Length of the `https?://` scheme `t` starts with, or 0. */
  function SchemeLen(t: string): (p: nat)
    ensures p == 0 || p == 7 || p == 8
    ensures p > 0 ==> p <= |t| && t[0] == 'h'
  {
    if |t| >= 7 && t[0] == 'h' && t[1] == 't' && t[2] == 't' && t[3] == 'p' then
      if |t| >= 8 && t[4] == 's' && t[5] == ':' && t[6] == '/' && t[7] == '/' then 8
      else if t[4] == ':' && t[5] == '/' && t[6] == '/' then 7
      else 0
    else 0
  }

  /** The scheme's characters are plain ASCII: no space, no emoji, no `[`. */
  lemma SchemeChars(t: string, k: nat)
    requires k < SchemeLen(t)
    ensures !IsSpace(t[k]) && !IsAstral(t[k]) && t[k] != '['
  {
  }

  /** A scheme is recognised from its own characters alone. */
  lemma SchemePrefixDecides(a: string, b: string)
    requires 0 < SchemeLen(a) <= |b| && a[..SchemeLen(a)] == b[..SchemeLen(a)]
    ensures SchemeLen(b) == SchemeLen(a)
  {
    var p := SchemeLen(a);
    assert forall k :: 0 <= k < p ==> a[k] == b[k] by {
      forall k | 0 <= k < p ensures a[k] == b[k] {
        assert a[k] == a[..p][k];
      }
    }
  }

  /** `/https?:\/\/[^\s]+/` matches at the start of `t`. */
  predicate UrlStarts(t: string) {
    0 < SchemeLen(t) < |t| && !IsSpace(t[SchemeLen(t)])
  }

  /** No position of `s` starts a link. */
  predicate NoUrl(s: string) {
    forall i :: 0 <= i < |s| ==> !UrlStarts(s[i..])
  }

  /** Number of non-space characters at the start of `s`. */
  function NonSpaceRun(s: string): (n: nat)
    ensures n <= |s|
    ensures forall k :: 0 <= k < n ==> !IsSpace(s[k])
    ensures n < |s| ==> IsSpace(s[n])
  {
    if |s| > 0 && !IsSpace(s[0]) then 1 + NonSpaceRun(s[1..]) else 0
  }

  /** The first link replacement. */
  function ReplaceUrls(s: string): (r: string)
    ensures |r| <= |s|
    ensures |s| > 0 ==> |r| > 0 && r[0] == (if UrlStarts(s) then '[' else s[0])
    decreases |s|
  {
    if |s| == 0 then ""
    else if UrlStarts(s) then
      var e := SchemeLen(s) + NonSpaceRun(s[SchemeLen(s)..]);
      LinkToken + ReplaceUrls(s[e..])
    else [s[0]] + ReplaceUrls(s[1..])
  }

  lemma AppendAssoc(a: string, b: string, c: string)
    ensures a + (b + c) == (a + b) + c
  {
  }

  /** One character that starts no link is copied as it is. */
  lemma ReplaceUrlsStep(s: string)
    requires |s| > 0 && !UrlStarts(s)
    ensures ReplaceUrls(s) == [s[0]] + ReplaceUrls(s[1..])
  {
  }

  /** Before the first link the text is copied unchanged. */
  lemma {:induction false} ReplaceUrlsCopiesPrefix(s: string, k: nat)
    requires k <= |s|
    requires forall j :: 0 <= j < k ==> !UrlStarts(s[j..])
    ensures ReplaceUrls(s) == s[..k] + ReplaceUrls(s[k..])
    decreases k
  {
    if k > 0 {
      ReplaceUrlsCopiesPrefix(s, k - 1);
      ReplaceUrlsStep(s[k - 1..]);
      assert s[k - 1..][1..] == s[k..];
      PrefixGrows(s, k, ReplaceUrls(s[k..]));
    }
  }

  /** Moving one more character into the copied prefix. */
  lemma PrefixGrows(s: string, k: nat, rest: string)
    requires 0 < k <= |s|
    ensures s[..k - 1] + ([s[k - 1]] + rest) == s[..k] + rest
  {
    AppendAssoc(s[..k - 1], [s[k - 1]], rest);
    assert s[..k] == s[..k - 1] + [s[k - 1]];
  }

  /** The first position below `k` where a link starts, or `k`. */
  function FirstUrl(s: string, k: nat): (j: nat)
    requires k <= |s|
    ensures j <= k
    ensures forall i :: 0 <= i < j ==> !UrlStarts(s[i..])
    ensures j < k ==> UrlStarts(s[j..])
    decreases k
  {
    if k == 0 then 0
    else if FirstUrl(s, k - 1) < k - 1 then FirstUrl(s, k - 1)
    else if UrlStarts(s[k - 1..]) then k - 1
    else k
  }

  /** Where no link starts in the input, none starts in the output's first position. */
  lemma ReplaceUrlsHeadClean(s: string)
    requires |s| > 0 && !UrlStarts(s)
    ensures !UrlStarts(ReplaceUrls(s))
  {
    var r := ReplaceUrls(s);
    if UrlStarts(r) {
      var p := SchemeLen(r);
      var m := if p + 1 <= |s| then p + 1 else |s|;
      var j := FirstUrl(s, m);
      ReplaceUrlsCopiesPrefix(s, j);
      if j == m {
        CopiedSchemeStartsUrl(s, r, m);
      } else {
        LinkInsideScheme(s, r, j);
      }
    }
  }

  /** The case where the output's first `m` characters are the input's. */
  lemma CopiedSchemeStartsUrl(s: string, r: string, m: nat)
    requires UrlStarts(r) && m <= |s|
    requires m == |s| || m == SchemeLen(r) + 1
    requires r == s[..m] + ReplaceUrls(s[m..])
    ensures UrlStarts(s)
  {
    var p := SchemeLen(r);
    if m == |s| {
      assert s[m..] == [];
      assert s[..m] == s;
    } else {
      assert r[..p] == s[..p];
      SchemePrefixDecides(r, s);
      assert r[p] == s[p];
    }
  }

  /** The case where a link starts inside the output's scheme: impossible
      unless it starts right after it, and then the input had a link. */
  lemma LinkInsideScheme(s: string, r: string, j: nat)
    requires UrlStarts(r) && 0 < j <= SchemeLen(r) && j < |s|
    requires UrlStarts(s[j..])
    requires r == s[..j] + ReplaceUrls(s[j..])
    ensures UrlStarts(s)
  {
    var p := SchemeLen(r);
    assert r[j] == '[';
    if j < p {
      SchemeChars(r, j);
    } else {
      assert r[..p] == s[..p];
      SchemePrefixDecides(r, s);
      assert s[p] == s[j..][0];
    }
  }

  /** A link that starts in a prefix of `v` starts in `v` too. */
  lemma UrlStartsExtends(u: string, v: string)
    requires u <= v
    ensures UrlStarts(u) ==> UrlStarts(v)
  {
    if UrlStarts(u) {
      var p := SchemeLen(u);
      assert u[..p] == v[..p];
      SchemePrefixDecides(u, v);
      assert v[p] == u[p];
    }
  }

  /** No position of the token `[LINK]` starts a link. */
  lemma LinkTokenStartsNoUrl(rest: string, i: nat)
    requires i < |LinkToken|
    ensures !UrlStarts((LinkToken + rest)[i..])
  {
    assert (LinkToken + rest)[i..][0] == LinkToken[i];
  }

  /** A text without links stays without links behind a prefix whose own
      positions start none. */
  lemma NoUrlBehind(pre: string, rest: string)
    requires NoUrl(rest)
    requires forall i :: 0 <= i < |pre| ==> !UrlStarts((pre + rest)[i..])
    ensures NoUrl(pre + rest)
  {
    forall i | |pre| <= i < |pre + rest|
      ensures !UrlStarts((pre + rest)[i..])
    {
      assert (pre + rest)[i..] == rest[i - |pre|..];
    }
  }

  /** No link survives the replacement. */
  lemma {:induction false} ReplaceUrlsLeavesNoUrl(s: string)
    ensures NoUrl(ReplaceUrls(s))
    decreases |s|
  {
    if |s| > 0 {
      if UrlStarts(s) {
        var e := SchemeLen(s) + NonSpaceRun(s[SchemeLen(s)..]);
        var rest := ReplaceUrls(s[e..]);
        ReplaceUrlsLeavesNoUrl(s[e..]);
        forall i | 0 <= i < |LinkToken|
          ensures !UrlStarts((LinkToken + rest)[i..])
        {
          LinkTokenStartsNoUrl(rest, i);
        }
        NoUrlBehind(LinkToken, rest);
      } else {
        var rest := ReplaceUrls(s[1..]);
        ReplaceUrlsLeavesNoUrl(s[1..]);
        ReplaceUrlsHeadClean(s);
        assert ([s[0]] + rest)[0..] == ReplaceUrls(s);
        NoUrlBehind([s[0]], rest);
      }
    }
  }

  /** Text without links is left alone. */
  lemma {:induction false} ReplaceUrlsOfClean(s: string)
    requires NoUrl(s)
    ensures ReplaceUrls(s) == s
    decreases |s|
  {
    if |s| > 0 {
      assert s[0..] == s;
      forall i | 0 <= i < |s| - 1
        ensures !UrlStarts(s[1..][i..])
      {
        assert s[1..][i..] == s[i + 1..];
      }
      ReplaceUrlsOfClean(s[1..]);
    }
  }

  // ---------------------------------------------------------------- white space

  /** Every space is a single blank. */
  predicate SpacesNormal(s: string) {
    && (forall k :: 0 <= k < |s| && IsSpace(s[k]) ==> s[k] == ' ')
    && (forall k :: 0 <= k < |s| - 1 && IsSpace(s[k]) ==> !IsSpace(s[k + 1]))
  }

  /** `.replace(/\s+/g, ' ')`. */
  function CollapseSpaces(s: string): (r: string)
    ensures |r| <= |s|
    ensures |r| > 0 <==> |s| > 0
    ensures |r| > 0 ==> (IsSpace(r[0]) <==> IsSpace(s[0]))
    decreases |s|
  {
    if |s| == 0 then ""
    else if IsSpace(s[0]) then " " + CollapseSpaces(s[LeadingSpaces(s)..])
    else [s[0]] + CollapseSpaces(s[1..])
  }

  /** Every space left is a single blank. */
  lemma {:induction false} CollapseSpacesNormal(s: string)
    ensures SpacesNormal(CollapseSpaces(s))
    decreases |s|
  {
    if |s| > 0 {
      var t := if IsSpace(s[0]) then s[LeadingSpaces(s)..] else s[1..];
      CollapseSpacesNormal(t);
    }
  }

  /** The leading non-space block is copied, and a space follows it iff one did. */
  lemma {:induction false} CollapseSpacesKeepsWord(s: string)
    ensures NonSpaceRun(s) <= |CollapseSpaces(s)|
    ensures CollapseSpaces(s)[..NonSpaceRun(s)] == s[..NonSpaceRun(s)]
    ensures NonSpaceRun(s) < |s| ==> NonSpaceRun(s) < |CollapseSpaces(s)| && IsSpace(CollapseSpaces(s)[NonSpaceRun(s)])
    decreases |s|
  {
    if |s| > 0 && !IsSpace(s[0]) {
      CollapseSpacesKeepsWord(s[1..]);
    }
  }

  /** A link at the start of the collapsed text was a link in the input. */
  lemma CollapseSpacesHeadUrl(s: string)
    requires |s| > 0 && !IsSpace(s[0])
    ensures UrlStarts(CollapseSpaces(s)) ==> UrlStarts(s)
  {
    CollapseSpacesKeepsWord(s);
    var r := CollapseSpaces(s);
    var n := NonSpaceRun(s);
    if n == |s| {
      assert r[..n] == s;
    }
    UrlThroughCopiedBlock(r, s, n);
  }

  /** Two texts that agree on a first block, where the first text either
      ends or continues with a space or emoji, agree on whether a link starts. */
  lemma UrlThroughCopiedBlock(r: string, s: string, n: nat)
    requires n <= |r| && n <= |s| && r[..n] == s[..n]
    requires n == |s| ==> r == s
    requires n < |s| ==> n < |r| && (IsSpace(r[n]) || (IsAstral(r[n]) && r[n] == s[n]))
    ensures UrlStarts(r) ==> UrlStarts(s)
  {
    if UrlStarts(r) && n < |s| {
      var p := SchemeLen(r);
      assert n >= p by {
        if n < p {
          SchemeChars(r, n);
        }
      }
      assert r[..p] == s[..p] by {
        assert r[..p] == r[..n][..p];
        assert s[..p] == s[..n][..p];
      }
      SchemePrefixDecides(r, s);
      assert r[p] == s[p] by {
        if p < n {
          assert r[p] == r[..n][p];
          assert s[p] == s[..n][p];
        }
      }
    }
  }

  /** White-space collapsing never creates a link. */
  lemma {:induction false} CollapseSpacesNoUrl(s: string)
    requires NoUrl(s)
    ensures NoUrl(CollapseSpaces(s))
    decreases |s|
  {
    var r := CollapseSpaces(s);
    if |s| > 0 {
      var d := if IsSpace(s[0]) then LeadingSpaces(s) else 1;
      var t := s[d..];
      forall i | 0 <= i < |t|
        ensures !UrlStarts(t[i..])
      {
        assert t[i..] == s[i + d..];
      }
      CollapseSpacesNoUrl(t);
      assert s[0..] == s;
      if !IsSpace(s[0]) {
        CollapseSpacesHeadUrl(s);
      }
      forall i | 0 < i < |r|
        ensures !UrlStarts(r[i..])
      {
        assert r[i..] == CollapseSpaces(t)[i - 1..];
      }
      assert r[0..] == r;
    }
  }

  /** Text whose spaces are already single blanks is left alone. */
  lemma {:induction false} CollapseSpacesOfNormal(s: string)
    requires SpacesNormal(s)
    ensures CollapseSpaces(s) == s
    decreases |s|
  {
    if |s| > 0 {
      if IsSpace(s[0]) {
        assert LeadingSpaces(s) == 1 by {
          if |s| > 1 {
            assert !IsSpace(s[1]);
          }
        }
      }
      CollapseSpacesOfNormal(s[1..]);
    }
  }

  // ---------------------------------------------------------------- emoji runs

  /** `t` starts with three copies of one emoji. */
  predicate TripleStarts(t: string) {
    |t| >= 3 && IsAstral(t[0]) && t[1] == t[0] && t[2] == t[0]
  }

  predicate NoTriple(s: string) {
    forall i :: 0 <= i < |s| ==> !TripleStarts(s[i..])
  }

  /** Number of leading copies of the first character. */
  function RunOf(s: string): (n: nat)
    requires |s| > 0
    ensures 1 <= n <= |s|
    ensures forall k :: 0 <= k < n ==> s[k] == s[0]
    ensures n < |s| ==> s[n] != s[0]
    decreases |s|
  {
    if |s| > 1 && s[1] == s[0] then 1 + RunOf(s[1..]) else 1
  }

  /** `.replace(/([\uD800-\uDBFF][\uDC00-\uDFFF])\1{2,}/g, '$1$1')`. */
  function CollapseEmoji(s: string): (r: string)
    ensures |r| <= |s|
    ensures |r| > 0 <==> |s| > 0
    ensures |r| > 0 ==> r[0] == s[0]
    decreases |s|
  {
    if |s| == 0 then ""
    else if TripleStarts(s) then [s[0], s[0]] + CollapseEmoji(s[RunOf(s)..])
    else [s[0]] + CollapseEmoji(s[1..])
  }

  /** No run of three equal emoji survives. */
  lemma {:induction false} CollapseEmojiLeavesNoTriple(s: string)
    ensures NoTriple(CollapseEmoji(s))
    decreases |s|
  {
    var r := CollapseEmoji(s);
    if |s| > 0 {
      if TripleStarts(s) {
        var t := s[RunOf(s)..];
        CollapseEmojiLeavesNoTriple(t);
        forall i | 0 <= i < |r|
          ensures !TripleStarts(r[i..])
        {
          if i >= 2 {
            assert r[i..] == CollapseEmoji(t)[i - 2..];
          }
        }
      } else {
        CollapseEmojiLeavesNoTriple(s[1..]);
        forall i | 0 <= i < |r|
          ensures !TripleStarts(r[i..])
        {
          if i > 0 {
            assert r[i..] == CollapseEmoji(s[1..])[i - 1..];
          } else if |s| >= 2 && s[1] == s[0] && IsAstral(s[0]) {
            assert !TripleStarts(s[1..]);
            if |s| >= 3 {
              assert r[2] == CollapseEmoji(s[2..])[0];
            }
          }
        }
      }
    }
  }

  /** Collapsing emoji runs keeps blanks single. */
  lemma {:induction false} CollapseEmojiKeepsSpaces(s: string)
    requires SpacesNormal(s)
    ensures SpacesNormal(CollapseEmoji(s))
    decreases |s|
  {
    var r := CollapseEmoji(s);
    if |s| > 0 {
      var t := if TripleStarts(s) then s[RunOf(s)..] else s[1..];
      CollapseEmojiKeepsSpaces(t);
      assert |r| > 1 ==> r[1] == (if TripleStarts(s) then s[0] else t[0]);
    }
  }

  /** Number of leading characters that are not emoji. */
  function PlainRun(s: string): (n: nat)
    ensures n <= |s|
    ensures forall k :: 0 <= k < n ==> !IsAstral(s[k])
    ensures n < |s| ==> IsAstral(s[n])
  {
    if |s| > 0 && !IsAstral(s[0]) then 1 + PlainRun(s[1..]) else 0
  }

  /** The leading non-emoji block and the character after it are copied. */
  lemma {:induction false} CollapseEmojiKeepsPlain(s: string)
    ensures PlainRun(s) <= |CollapseEmoji(s)|
    ensures CollapseEmoji(s)[..PlainRun(s)] == s[..PlainRun(s)]
    ensures PlainRun(s) < |s| ==> PlainRun(s) < |CollapseEmoji(s)| && CollapseEmoji(s)[PlainRun(s)] == s[PlainRun(s)]
    decreases |s|
  {
    if |s| > 0 && !IsAstral(s[0]) {
      CollapseEmojiKeepsPlain(s[1..]);
    }
  }

  /** A link at the start of the text with emoji runs collapsed was a link in the input. */
  lemma CollapseEmojiHeadUrl(s: string)
    requires |s| > 0
    ensures UrlStarts(CollapseEmoji(s)) ==> UrlStarts(s)
  {
    CollapseEmojiKeepsPlain(s);
    var r := CollapseEmoji(s);
    var n := PlainRun(s);
    if n == |s| {
      assert r[..n] == s;
    }
    UrlThroughCopiedBlock(r, s, n);
  }

  /** Collapsing emoji runs never creates a link. */
  lemma {:induction false} CollapseEmojiNoUrl(s: string)
    requires NoUrl(s)
    ensures NoUrl(CollapseEmoji(s))
    decreases |s|
  {
    var r := CollapseEmoji(s);
    if |s| > 0 {
      var d := if TripleStarts(s) then RunOf(s) else 1;
      var t := s[d..];
      forall i | 0 <= i < |t|
        ensures !UrlStarts(t[i..])
      {
        assert t[i..] == s[i + d..];
      }
      CollapseEmojiNoUrl(t);
      assert s[0..] == s;
      CollapseEmojiHeadUrl(s);
      var e := if TripleStarts(s) then 2 else 1;
      forall i | 0 < i < |r|
        ensures !UrlStarts(r[i..])
      {
        if i >= e {
          assert r[i..] == CollapseEmoji(t)[i - e..];
        } else {
          assert r[i..][0] == s[0];
        }
      }
      assert r[0..] == r;
    }
  }

  /** Text with no run of three equal emoji is left alone. */
  lemma {:induction false} CollapseEmojiOfClean(s: string)
    requires NoTriple(s)
    ensures CollapseEmoji(s) == s
    decreases |s|
  {
    if |s| > 0 {
      assert s[0..] == s;
      forall i | 0 <= i < |s| - 1
        ensures !TripleStarts(s[1..][i..])
      {
        assert s[1..][i..] == s[i + 1..];
      }
      CollapseEmojiOfClean(s[1..]);
    }
  }

  // ---------------------------------------------------------------- the whole rewrite

  /** What `normalizeText` promises about its output. */
  predicate Clean(s: string) {
    && (s == [] || (!IsSpace(s[0]) && !IsSpace(s[|s| - 1])))
    && SpacesNormal(s)
    && NoTriple(s)
    && NoUrl(s)
  }

  /** Every property above survives cutting out a slice. */
  lemma SliceKeeps(s: string, a: nat, b: nat)
    requires a <= b <= |s|
    ensures SpacesNormal(s) ==> SpacesNormal(s[a..b])
    ensures NoTriple(s) ==> NoTriple(s[a..b])
    ensures NoUrl(s) ==> NoUrl(s[a..b])
  {
    if NoTriple(s) {
      SliceKeepsNoTriple(s, a, b);
    }
    if NoUrl(s) {
      SliceKeepsNoUrl(s, a, b);
    }
  }

  lemma SliceKeepsNoTriple(s: string, a: nat, b: nat)
    requires a <= b <= |s| && NoTriple(s)
    ensures NoTriple(s[a..b])
  {
    var t := s[a..b];
    forall i | 0 <= i < |t|
      ensures !TripleStarts(t[i..])
    {
      assert !TripleStarts(s[a + i..]);
      if |t[i..]| >= 3 {
        assert t[i..][..3] == s[a + i..][..3] by {
          forall k | 0 <= k < 3 ensures t[i..][..3][k] == s[a + i..][..3][k] {
            assert t[i + k] == s[a + i + k];
          }
        }
      }
    }
  }

  lemma SliceKeepsNoUrl(s: string, a: nat, b: nat)
    requires a <= b <= |s| && NoUrl(s)
    ensures NoUrl(s[a..b])
  {
    var t := s[a..b];
    forall i | 0 <= i < |t|
      ensures !UrlStarts(t[i..])
    {
      assert t[i..] <= s[a + i..];
      UrlStartsExtends(t[i..], s[a + i..]);
    }
  }

  /** `normalizeText`: no step lengthens the text, and empty text stays empty. */
  function NormalizeText(text: string): (r: string)
    ensures |r| <= |text|
    ensures text == "" ==> r == ""
  {
    Trim(CollapseEmoji(CollapseSpaces(ReplaceUrls(text))))
  }

  /** The output has no space at either end, only single blanks, no run of
      three equal emoji and no link. */
  lemma NormalizeTextIsClean(text: string)
    ensures Clean(NormalizeText(text))
  {
    var linked := ReplaceUrls(text);
    var spaced := CollapseSpaces(linked);
    var collapsed := CollapseEmoji(spaced);
    ReplaceUrlsLeavesNoUrl(text);
    CollapseSpacesNoUrl(linked);
    CollapseSpacesNormal(linked);
    CollapseEmojiLeavesNoTriple(spaced);
    CollapseEmojiKeepsSpaces(spaced);
    CollapseEmojiNoUrl(spaced);
    TrimKeepsClean(collapsed);
  }

  /** Trimming text whose spaces are single blanks, with no triple emoji
      and no link, gives clean text. */
  lemma TrimKeepsClean(c: string)
    requires SpacesNormal(c) && NoTriple(c) && NoUrl(c)
    ensures Clean(Trim(c))
  {
    var r := Trim(c);
    var lo := LeadingSpaces(c);
    TrimShape(c);
    var hi := lo + |r|;
    assert r == c[lo..hi];
    SliceKeeps(c, lo, hi);
    assert SpacesNormal(c[lo..hi]) && NoTriple(c[lo..hi]) && NoUrl(c[lo..hi]);
  }

  /** Clean text is a fixed point of the whole rewrite. */
  lemma NormalizeOfClean(s: string)
    requires Clean(s)
    ensures NormalizeText(s) == s
  {
    ReplaceUrlsOfClean(s);
    CollapseSpacesOfNormal(s);
    CollapseEmojiOfClean(s);
    TrimOfTrimmed(s);
  }

  /** Normalising twice is normalising once. */
  lemma NormalizeIdempotent(s: string)
    ensures NormalizeText(NormalizeText(s)) == NormalizeText(s)
  {
    NormalizeTextIsClean(s);
    NormalizeOfClean(NormalizeText(s));
  }
}
