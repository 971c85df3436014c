/** The content aggregator (`src/services/creator-dna/aggregator.ts`): the
    posts of one creator reduced to the captions, comments, averages, type
    counts and the length-budgeted text the analyzers read. */
module Aggregator {
  import opened JsText
  import opened DnaTypes
  import opened Normalize

  /** Code units of combined text sent to the model (about 3000 tokens). */
  const MaxContentLength: nat := 12000

  // ---------------------------------------------------------------- captions and comments

  /** `.filter(c => c && c.trim().length > 0)`. */
  function KeepNonBlank(xs: seq<string>): (r: seq<string>)
    ensures |r| <= |xs|
    ensures forall k :: 0 <= k < |r| ==> !IsBlank(r[k])
  {
    if |xs| == 0 then []
    else (if IsBlank(xs[0]) then [] else [xs[0]]) + KeepNonBlank(xs[1..])
  }

  /** Every non-blank entry is kept as often as it occurs, and no blank one. */
  lemma {:induction false} KeepNonBlankCounts(xs: seq<string>)
    ensures forall x :: multiset(KeepNonBlank(xs))[x] == if IsBlank(x) then 0 else multiset(xs)[x]
    decreases |xs|
  {
    if |xs| > 0 {
      KeepNonBlankCons(xs);
      MultisetOfCons(xs);
      KeepNonBlankCounts(xs[1..]);
    }
  }

  /** The filter works element by element, so it keeps the input order. */
  lemma {:induction false} KeepNonBlankAppend(a: seq<string>, b: seq<string>)
    ensures KeepNonBlank(a + b) == KeepNonBlank(a) + KeepNonBlank(b)
    decreases |a|
  {
    if |a| == 0 {
      assert a + b == b;
    } else {
      var head := if IsBlank(a[0]) then [] else [a[0]];
      KeepNonBlankCons(a);
      KeepNonBlankCons(a + b);
      assert (a + b)[0] == a[0];
      assert (a + b)[1..] == a[1..] + b;
      KeepNonBlankAppend(a[1..], b);
      SeqAppendAssoc(head, KeepNonBlank(a[1..]), KeepNonBlank(b));
    }
  }

  lemma SeqAppendAssoc<T>(x: seq<T>, y: seq<T>, z: seq<T>)
    ensures x + (y + z) == (x + y) + z
  {
  }

  /** The filter looks at the first entry, then at the rest. */
  lemma KeepNonBlankCons(xs: seq<string>)
    requires |xs| > 0
    ensures KeepNonBlank(xs) == (if IsBlank(xs[0]) then [] else [xs[0]]) + KeepNonBlank(xs[1..])
  {
  }

  /** A list without blank entries passes the filter unchanged. */
  lemma {:induction false} KeepNonBlankOfClean(xs: seq<string>)
    requires forall k :: 0 <= k < |xs| ==> !IsBlank(xs[k])
    ensures KeepNonBlank(xs) == xs
    decreases |xs|
  {
    if |xs| > 0 {
      KeepNonBlankOfClean(xs[1..]);
    }
  }

  /** `posts.map(p => p.content)`. */
  function Contents(posts: seq<CreatorPost>): (r: seq<string>)
    ensures |r| == |posts|
    ensures forall k :: 0 <= k < |posts| ==> r[k] == posts[k].content
  {
    seq(|posts|, k requires 0 <= k < |posts| => posts[k].content)
  }

  /** `posts.flatMap(p => p.comments_sample)`. */
  function FlatComments(posts: seq<CreatorPost>): (r: seq<string>)
    ensures |posts| > 0 ==> posts[0].commentsSample <= r
    ensures forall i :: 0 <= i < |posts| ==> multiset(posts[i].commentsSample) <= multiset(r)
  {
    if |posts| == 0 then [] else posts[0].commentsSample + FlatComments(posts[1..])
  }

  lemma {:induction false} FlatCommentsAppend(p: seq<CreatorPost>, q: seq<CreatorPost>)
    ensures FlatComments(p + q) == FlatComments(p) + FlatComments(q)
    decreases |p|
  {
    if |p| == 0 {
      assert p + q == q;
    } else {
      assert (p + q)[1..] == p[1..] + q;
      FlatCommentsAppend(p[1..], q);
    }
  }

  function Captions(posts: seq<CreatorPost>): seq<string> {
    KeepNonBlank(Contents(posts))
  }

  function Comments(posts: seq<CreatorPost>): seq<string> {
    KeepNonBlank(FlatComments(posts))
  }

  /** Captions and comments of a concatenation of post lists are those of
      the first list followed by those of the second: post order is kept. */
  lemma CaptionsAndCommentsAppend(p: seq<CreatorPost>, q: seq<CreatorPost>)
    ensures Captions(p + q) == Captions(p) + Captions(q)
    ensures Comments(p + q) == Comments(p) + Comments(q)
  {
    assert Contents(p + q) == Contents(p) + Contents(q);
    KeepNonBlankAppend(Contents(p), Contents(q));
    FlatCommentsAppend(p, q);
    KeepNonBlankAppend(FlatComments(p), FlatComments(q));
  }

  // ---------------------------------------------------------------- engagement

  const NoEngagement: PostEngagement := PostEngagement(0.0, 0.0, 0.0)

  /** Reference sums, added up from the last post backwards. */
  function SumLikes(posts: seq<CreatorPost>): real {
    if |posts| == 0 then 0.0 else SumLikes(posts[..|posts| - 1]) + posts[|posts| - 1].engagement.likes
  }

  function SumComments(posts: seq<CreatorPost>): real {
    if |posts| == 0 then 0.0 else SumComments(posts[..|posts| - 1]) + posts[|posts| - 1].engagement.comments
  }

  function SumShares(posts: seq<CreatorPost>): real {
    if |posts| == 0 then 0.0 else SumShares(posts[..|posts| - 1]) + posts[|posts| - 1].engagement.shares
  }

  /** `posts.reduce(...)` from the accumulator `acc`, first post first. */
  function Totals(posts: seq<CreatorPost>, acc: PostEngagement): PostEngagement
    decreases |posts|
  {
    if |posts| == 0 then acc
    else
      var e := posts[0].engagement;
      Totals(posts[1..], PostEngagement(acc.likes + e.likes, acc.comments + e.comments, acc.shares + e.shares))
  }

  /** The left fold adds up to the reference sums. */
  lemma {:induction false} TotalsAreSums(posts: seq<CreatorPost>, acc: PostEngagement)
    ensures Totals(posts, acc) ==
      PostEngagement(acc.likes + SumLikes(posts), acc.comments + SumComments(posts), acc.shares + SumShares(posts))
    decreases |posts|
  {
    if |posts| > 0 {
      var e := posts[0].engagement;
      TotalsAreSums(posts[1..], PostEngagement(acc.likes + e.likes, acc.comments + e.comments, acc.shares + e.shares));
      SumsSplitFirst(posts);
    }
  }

  /** Peeling the first post off a reference sum. */
  lemma {:induction false} SumsSplitFirst(posts: seq<CreatorPost>)
    requires |posts| > 0
    ensures SumLikes(posts) == posts[0].engagement.likes + SumLikes(posts[1..])
    ensures SumComments(posts) == posts[0].engagement.comments + SumComments(posts[1..])
    ensures SumShares(posts) == posts[0].engagement.shares + SumShares(posts[1..])
    decreases |posts|
  {
    if |posts| > 1 {
      var init := posts[..|posts| - 1];
      SumsSplitFirst(init);
      assert init[1..] == posts[1..][..|posts[1..]| - 1];
      assert init[0] == posts[0];
    } else {
      assert posts[..0] == [] && posts[1..] == [];
    }
  }

  /** `calculateAverageEngagement`. */
  function AverageEngagement(posts: seq<CreatorPost>): (r: PostEngagement)
    ensures |posts| == 0 ==> r == NoEngagement
    ensures |posts| > 0 ==> r.likes * |posts| as real == SumLikes(posts)
    ensures |posts| > 0 ==> r.comments * |posts| as real == SumComments(posts)
    ensures |posts| > 0 ==> r.shares * |posts| as real == SumShares(posts)
  {
    if |posts| == 0 then NoEngagement
    else
      var t := Totals(posts, NoEngagement);
      TotalsAreSums(posts, NoEngagement);
      var n := |posts| as real;
      PostEngagement(t.likes / n, t.comments / n, t.shares / n)
  }

  /** Posts that all have the same engagement average to it. */
  lemma {:induction false} AverageOfUniform(posts: seq<CreatorPost>, e: PostEngagement)
    requires |posts| > 0
    requires forall k :: 0 <= k < |posts| ==> posts[k].engagement == e
    ensures AverageEngagement(posts) == e
  {
    UniformSums(posts, e);
  }

  lemma {:induction false} UniformSums(posts: seq<CreatorPost>, e: PostEngagement)
    requires forall k :: 0 <= k < |posts| ==> posts[k].engagement == e
    ensures SumLikes(posts) == |posts| as real * e.likes
    ensures SumComments(posts) == |posts| as real * e.comments
    ensures SumShares(posts) == |posts| as real * e.shares
    decreases |posts|
  {
    if |posts| > 0 {
      UniformSums(posts[..|posts| - 1], e);
    }
  }

  // ---------------------------------------------------------------- post types

  /** Reference count of the posts of one type. */
  function CountOf(posts: seq<CreatorPost>, t: PostType): nat {
    if |posts| == 0 then 0
    else (if posts[0].postType == t then 1 else 0) + CountOf(posts[1..], t)
  }

  /** Counting the last post separately. */
  lemma {:induction false} CountOfSplitLast(posts: seq<CreatorPost>, t: PostType)
    requires |posts| > 0
    ensures CountOf(posts, t)
      == CountOf(posts[..|posts| - 1], t) + (if posts[|posts| - 1].postType == t then 1 else 0)
    decreases |posts|
  {
    if |posts| > 1 {
      CountOfSplitLast(posts[1..], t);
      assert posts[1..][..|posts| - 2] == posts[..|posts| - 1][1..];
    }
  }

  /** The slot of the distribution for `t`. */
  function Slot(d: Distribution, t: PostType): nat {
    match t
    case Reel => d.reel
    case Image => d.image
    case Video => d.video
    case Text => d.text
  }

  /** `distribution[post.post_type]++`. */
  function Bump(d: Distribution, t: PostType): (r: Distribution)
    ensures Slot(r, t) == Slot(d, t) + 1
    ensures Total(r) == Total(d) + 1
  {
    match t
    case Reel => d.(reel := d.reel + 1)
    case Image => d.(image := d.image + 1)
    case Video => d.(video := d.video + 1)
    case Text => d.(text := d.text + 1)
  }

  function Total(d: Distribution): nat {
    d.reel + d.image + d.video + d.text
  }

  /** `calculatePostTypeDistribution`: the loop has bumped the slot of every
      post before the last, and then bumps the last post's slot. */
  function PostTypeDistribution(posts: seq<CreatorPost>): (r: Distribution)
    ensures Total(r) == |posts|
  {
    if |posts| == 0 then Distribution(0, 0, 0, 0)
    else Bump(PostTypeDistribution(posts[..|posts| - 1]), posts[|posts| - 1].postType)
  }

  /** Each count of the distribution is the number of posts of that type. */
  lemma {:induction false} PostTypeDistributionCounts(posts: seq<CreatorPost>, t: PostType)
    ensures Slot(PostTypeDistribution(posts), t) == CountOf(posts, t)
  {
    if |posts| == 0 {
      match t
      case Reel =>
      case Image =>
      case Video =>
      case Text =>
    } else {
      var init := posts[..|posts| - 1];
      var last := posts[|posts| - 1];
      PostTypeDistributionCounts(init, t);
      CountOfSplitLast(posts, t);
      var d := PostTypeDistribution(init);
      assert Slot(Bump(d, last.postType), t) == Slot(d, t) + (if last.postType == t then 1 else 0) by {
        match last.postType
        case Reel =>
        case Image =>
        case Video =>
        case Text =>
      }
    }
  }

  // ---------------------------------------------------------------- longest first

  /** Non-increasing in code-unit length. */
  predicate LongestFirst(xs: seq<string>) {
    forall i, j :: 0 <= i < j < |xs| ==> JsLength(xs[i]) >= JsLength(xs[j])
  }

  /** The entries of one length, in order. */
  function OfLength(xs: seq<string>, n: nat): (r: seq<string>)
    ensures forall k :: 0 <= k < |r| ==> JsLength(r[k]) == n
  {
    if |xs| == 0 then []
    else (if JsLength(xs[0]) == n then [xs[0]] else []) + OfLength(xs[1..], n)
  }

  /** Peeling the first entry off `OfLength`. */
  lemma OfLengthCons(h: string, t: seq<string>, n: nat)
    ensures OfLength([h] + t, n) == (if JsLength(h) == n then [h] else []) + OfLength(t, n)
  {
    assert ([h] + t)[1..] == t;
  }

  /** Insert `x` ahead of every entry that is not longer. */
  function InsertByLength(x: string, ys: seq<string>): (r: seq<string>)
    ensures |r| == |ys| + 1
    ensures r[0] == x || (|ys| > 0 && r[0] == ys[0])
  {
    if |ys| == 0 || JsLength(ys[0]) <= JsLength(x) then [x] + ys
    else [ys[0]] + InsertByLength(x, ys[1..])
  }

  /** Insertion adds exactly `x`. */
  lemma {:induction false} InsertByLengthPermutes(x: string, ys: seq<string>)
    ensures multiset(InsertByLength(x, ys)) == multiset{x} + multiset(ys)
    decreases |ys|
  {
    if |ys| > 0 && JsLength(ys[0]) > JsLength(x) {
      InsertByLengthPermutes(x, ys[1..]);
      MultisetOfCons(ys);
    }
  }

  /** Insertion keeps a longest-first list longest-first. */
  lemma {:induction false} InsertByLengthSorted(x: string, ys: seq<string>)
    requires LongestFirst(ys)
    ensures LongestFirst(InsertByLength(x, ys))
    decreases |ys|
  {
    if |ys| == 0 || JsLength(ys[0]) <= JsLength(x) {
      LongestFirstCons(x, ys);
    } else {
      var rest := InsertByLength(x, ys[1..]);
      LongestFirstTail(ys);
      InsertByLengthSorted(x, ys[1..]);
      LongestFirstCons(ys[0], rest);
    }
  }

  /** The tail of a longest-first list is longest-first. */
  lemma LongestFirstTail(xs: seq<string>)
    requires |xs| > 0 && LongestFirst(xs)
    ensures LongestFirst(xs[1..])
    ensures |xs| > 1 ==> JsLength(xs[0]) >= JsLength(xs[1])
  {
    forall i, j | 0 <= i < j < |xs| - 1
      ensures JsLength(xs[1..][i]) >= JsLength(xs[1..][j])
    {
      assert xs[1..][i] == xs[i + 1] && xs[1..][j] == xs[j + 1];
    }
  }

  /** An entry at least as long as the head of a longest-first list can go
      in front of it. */
  lemma LongestFirstCons(h: string, t: seq<string>)
    requires LongestFirst(t)
    requires |t| == 0 || JsLength(h) >= JsLength(t[0])
    ensures LongestFirst([h] + t)
  {
    var xs := [h] + t;
    forall i, j | 0 <= i < j < |xs|
      ensures JsLength(xs[i]) >= JsLength(xs[j])
    {
      assert xs[j] == t[j - 1];
      if i > 0 {
        assert xs[i] == t[i - 1];
      } else if j > 1 {
        assert JsLength(t[0]) >= JsLength(t[j - 1]);
      }
    }
  }

  /** Entries ahead of `x` are strictly longer, so among the entries of any
      one length `x` comes first when it has that length and is absent otherwise. */
  lemma {:induction false} InsertByLengthStable(x: string, ys: seq<string>, n: nat)
    ensures OfLength(InsertByLength(x, ys), n) == (if JsLength(x) == n then [x] else []) + OfLength(ys, n)
    decreases |ys|
  {
    if |ys| == 0 || JsLength(ys[0]) <= JsLength(x) {
      OfLengthCons(x, ys, n);
    } else {
      var rest := InsertByLength(x, ys[1..]);
      InsertByLengthStable(x, ys[1..], n);
      OfLengthBehind(ys, rest, if JsLength(x) == n then [x] else [], n);
    }
  }

  /** A head that is strictly longer than `x` passes in front of it. */
  lemma OfLengthBehind(ys: seq<string>, rest: seq<string>, b: seq<string>, n: nat)
    requires |ys| > 0
    requires OfLength(rest, n) == b + OfLength(ys[1..], n)
    requires JsLength(ys[0]) == n ==> b == []
    ensures OfLength([ys[0]] + rest, n) == b + OfLength(ys, n)
  {
    OfLengthCons(ys[0], rest, n);
  }

  /** `[...captions].sort((a, b) => b.length - a.length)`, longest first. */
  function SortByLength(xs: seq<string>): (r: seq<string>)
    ensures |r| == |xs|
    ensures LongestFirst(r)
    ensures multiset(r) == multiset(xs)
  {
    if |xs| == 0 then []
    else
      var sorted := SortByLength(xs[1..]);
      InsertByLengthPermutes(xs[0], sorted);
      InsertByLengthSorted(xs[0], sorted);
      MultisetOfCons(xs);
      InsertByLength(xs[0], sorted)
  }

  lemma MultisetOfCons(xs: seq<string>)
    requires |xs| > 0
    ensures multiset(xs) == multiset{xs[0]} + multiset(xs[1..])
  {
    assert xs == [xs[0]] + xs[1..];
  }

  /** The sort is stable: entries of equal length keep their input order.
      With the ordering above this determines the result completely. */
  lemma {:induction false} SortByLengthStable(xs: seq<string>, n: nat)
    ensures OfLength(SortByLength(xs), n) == OfLength(xs, n)
    decreases |xs|
  {
    if |xs| > 0 {
      SortByLengthStable(xs[1..], n);
      InsertByLengthStable(xs[0], SortByLength(xs[1..]), n);
    }
  }

  /** A list already longest-first comes back unchanged. */
  lemma {:induction false} SortOfSorted(xs: seq<string>)
    requires LongestFirst(xs)
    ensures SortByLength(xs) == xs
    decreases |xs|
  {
    if |xs| > 0 {
      LongestFirstTail(xs);
      SortOfSorted(xs[1..]);
      assert xs == [xs[0]] + xs[1..];
    }
  }

  // ---------------------------------------------------------------- combined text

  /** `[Post ${number}]: ${text}\n\n`. */
  function Block(number: nat, text: string): string {
    "[Post " + NatToString(number) + "]: " + text + "\n\n"
  }

  /** A block is eleven code units plus its label's digits plus the caption. */
  lemma BlockLength(number: nat, text: string)
    ensures JsLength(Block(number, text)) == 11 + Digits(number) + JsLength(text)
  {
    var d := NatToString(number);
    JsLengthOfBmp(d);
    JsLengthOfBmp("[Post ");
    JsLengthOfBmp("]: ");
    JsLengthOfBmp("\n\n");
    JsLengthAppend("[Post ", d);
    JsLengthAppend("[Post " + d, "]: ");
    JsLengthAppend("[Post " + d + "]: ", text);
    JsLengthAppend("[Post " + d + "]: " + text, "\n\n");
  }

  /** Text that ends in the blank line every block ends with. */
  predicate EndsWithBreak(s: string) {
    |s| >= 2 && s[|s| - 2..] == "\n\n"
  }

  /** Each caption normalised, in order. The loop normalises caption `i`
      when it reaches it; normalising has no side effects, so doing it
      up front changes nothing. */
  function NormalizeAll(xs: seq<string>): (r: seq<string>)
    ensures |r| == |xs|
    ensures forall k :: 0 <= k < |xs| ==> r[k] == NormalizeText(xs[k])
  {
    seq(|xs|, k requires 0 <= k < |xs| => NormalizeText(xs[k]))
  }

  /** Captions that are already clean pass through unchanged. */
  lemma NormalizeAllOfClean(xs: seq<string>)
    requires forall k :: 0 <= k < |xs| ==> Clean(xs[k])
    ensures NormalizeAll(xs) == xs
  {
    forall k | 0 <= k < |xs|
      ensures NormalizeAll(xs)[k] == xs[k]
    {
      NormalizeOfClean(xs[k]);
    }
  }

  /** The `while` loop from caption `i` on, with `acc` built so far;
      `sorted` holds the sorted captions already normalised. */
  function CombineFrom(sorted: seq<string>, i: nat, acc: string, maxLength: int): (r: string)
    requires i <= |sorted|
    ensures acc <= r
    ensures JsLength(acc) >= maxLength ==> r == acc
    decreases |sorted| - i
  {
    if i < |sorted| && JsLength(acc) < maxLength then
      var caption := sorted[i];
      if JsLength(acc) + JsLength(caption) + 10 <= maxLength then
        CombineFrom(sorted, i + 1, acc + Block(i + 1, caption), maxLength)
      else
        CombineFrom(sorted, i + 1, acc, maxLength)
    else acc
  }

  /** The loop's invariant: the text is empty, or ends in a blank line and
      exceeds the budget by at most one plus the digits of the label reached. */
  lemma {:induction false} CombineFromBound(sorted: seq<string>, i: nat, acc: string, maxLength: int)
    requires i <= |sorted|
    requires acc == "" || (EndsWithBreak(acc) && JsLength(acc) <= maxLength + 1 + Digits(i))
    ensures var r := CombineFrom(sorted, i, acc, maxLength);
            r == "" || (EndsWithBreak(r) && JsLength(r) <= maxLength + 1 + Digits(|sorted|))
    decreases |sorted| - i
  {
    DigitsMonotone(i, |sorted|);
    if i < |sorted| && JsLength(acc) < maxLength {
      var caption := sorted[i];
      DigitsMonotone(i, i + 1);
      if JsLength(acc) + JsLength(caption) + 10 <= maxLength {
        AppendBlockKeepsBound(acc, i + 1, caption, maxLength);
        CombineFromBound(sorted, i + 1, acc + Block(i + 1, caption), maxLength);
      } else {
        CombineFromBound(sorted, i + 1, acc, maxLength);
      }
    }
  }

  /** A block that fits the budget ends the text in a blank line and keeps
      it within the loop's bound. */
  lemma AppendBlockKeepsBound(acc: string, number: nat, caption: string, maxLength: int)
    requires JsLength(acc) + JsLength(caption) + 10 <= maxLength
    ensures EndsWithBreak(acc + Block(number, caption))
    ensures JsLength(acc + Block(number, caption)) <= maxLength + 1 + Digits(number)
  {
    var b := Block(number, caption);
    BlockLength(number, caption);
    JsLengthAppend(acc, b);
    assert (acc + b)[|acc + b| - 2..] == b[|b| - 2..];
  }

  /** Trimming removes at least the final blank line. */
  lemma TrimDropsBreak(s: string)
    requires s == "" || EndsWithBreak(s)
    ensures s == "" || JsLength(Trim(s)) + 2 <= JsLength(s)
  {
    if s != "" {
      TrimDropsFinalBreak(s);
    }
  }

  lemma TrimDropsFinalBreak(s: string)
    requires EndsWithBreak(s)
    ensures JsLength(Trim(s)) + 2 <= JsLength(s)
  {
    var r := Trim(s);
    var l := LeadingSpaces(s);
    if |r| > 0 {
      TrimStopsBeforeBreak(s);
      SliceDropsTwo(s, l, l + |r|);
    } else {
      assert JsLength(r) == 0;
    }
  }

  /** A slice ending two characters before the end is at least two code
      units shorter. */
  lemma SliceDropsTwo(s: string, l: nat, m: nat)
    requires l <= m && m + 2 <= |s|
    ensures JsLength(s[l..m]) + 2 <= JsLength(s)
  {
    JsLengthSlice(s, l, m);
    assert |s[m..]| >= 2;
  }

  /** Non-empty trimmed text ends before the final blank line. */
  lemma TrimStopsBeforeBreak(s: string)
    requires EndsWithBreak(s) && |Trim(s)| > 0
    ensures LeadingSpaces(s) + |Trim(s)| <= |s| - 2
    ensures Trim(s) == s[LeadingSpaces(s)..LeadingSpaces(s) + |Trim(s)|]
  {
    var r := Trim(s);
    var l := LeadingSpaces(s);
    TrimShape(s);
    assert IsSpace(s[|s| - 1]) && IsSpace(s[|s| - 2]) by {
      assert s[|s| - 1] == s[|s| - 2..][1] && s[|s| - 2] == s[|s| - 2..][0];
    }
    assert r[|r| - 1] == s[l + |r| - 1];
  }

  /** `buildCombinedText`. The budget check allows ten code units for the
      label and blank line, but a block takes eleven plus the label's digits;
      after the final trim the text can exceed the budget by the digits of
      the last label less one. */
  function BuildCombinedText(captions: seq<string>, maxLength: int): (r: string)
    ensures r == "" || JsLength(r) <= maxLength + Digits(|captions|) - 1
  {
    var raw := CombineFrom(NormalizeAll(SortByLength(captions)), 0, "", maxLength);
    CombineFromBound(NormalizeAll(SortByLength(captions)), 0, "", maxLength);
    TrimDropsBreak(raw);
    Trim(raw)
  }

  /** With at most nine captions every label has one digit and the budget holds. */
  lemma CombinedTextWithinBudget(captions: seq<string>, maxLength: int)
    requires |captions| <= 9
    ensures JsLength(BuildCombinedText(captions, maxLength)) <= (if maxLength < 0 then 0 else maxLength)
  {
  }

  /** A caption that does not fit leaves the text as it was. */
  lemma CombineSkipsOne(sorted: seq<string>, i: nat, acc: string, maxLength: int)
    requires i < |sorted|
    requires JsLength(acc) + JsLength(sorted[i]) + 10 > maxLength
    ensures CombineFrom(sorted, i, acc, maxLength) == CombineFrom(sorted, i + 1, acc, maxLength)
  {
  }

  /** Captions skipped one after another leave the text as it was. */
  lemma {:induction false} CombineSkips(sorted: seq<string>, i: nat, k: nat, acc: string, maxLength: int)
    requires i <= k <= |sorted|
    requires forall j :: i <= j < k ==> JsLength(acc) + JsLength(sorted[j]) + 10 > maxLength
    ensures CombineFrom(sorted, i, acc, maxLength) == CombineFrom(sorted, k, acc, maxLength)
    decreases k - i
  {
    if i < k {
      CombineSkipsOne(sorted, i, acc, maxLength);
      CombineSkips(sorted, i + 1, k, acc, maxLength);
    }
  }

  /** The blocks of captions `i` onward, each labelled with its position
      in `sorted` plus one. */
  function BlocksFrom(sorted: seq<string>, i: nat): (r: string)
    requires i <= |sorted|
    ensures i == |sorted| ==> r == ""
    ensures i < |sorted| ==> r == Block(i + 1, sorted[i]) + BlocksFrom(sorted, i + 1)
    decreases |sorted| - i
  {
    if i == |sorted| then "" else Block(i + 1, sorted[i]) + BlocksFrom(sorted, i + 1)
  }

  /** When all remaining blocks fit the budget, the loop writes every one
      of them, in order, each labelled with its own position. */
  lemma {:induction false} CombineFromAllFit(sorted: seq<string>, i: nat, acc: string, maxLength: int)
    requires i <= |sorted|
    requires JsLength(acc + BlocksFrom(sorted, i)) <= maxLength
    ensures CombineFrom(sorted, i, acc, maxLength) == acc + BlocksFrom(sorted, i)
    decreases |sorted| - i
  {
    if i < |sorted| {
      NextBlockFits(sorted, i, acc, maxLength);
      CombineFromAllFit(sorted, i + 1, acc + Block(i + 1, sorted[i]), maxLength);
    } else {
      assert acc + BlocksFrom(sorted, i) == acc;
    }
  }

  /** The loop's two checks pass for the next block when all blocks fit. */
  lemma NextBlockFits(sorted: seq<string>, i: nat, acc: string, maxLength: int)
    requires i < |sorted|
    requires JsLength(acc + BlocksFrom(sorted, i)) <= maxLength
    ensures JsLength(acc) < maxLength
    ensures JsLength(acc) + JsLength(sorted[i]) + 10 <= maxLength
    ensures acc + BlocksFrom(sorted, i) == (acc + Block(i + 1, sorted[i])) + BlocksFrom(sorted, i + 1)
    ensures JsLength((acc + Block(i + 1, sorted[i])) + BlocksFrom(sorted, i + 1)) <= maxLength
  {
    var b := Block(i + 1, sorted[i]);
    var rest := BlocksFrom(sorted, i + 1);
    SeqAppendAssoc(acc, b, rest);
    JsLengthAppend(acc + b, rest);
    JsLengthAppend(acc, b);
    BlockLength(i + 1, sorted[i]);
  }

  /** With a budget that holds every block, the combined text is every
      caption, normalised, longest first, labelled `[Post n]` with its place
      in that order, trimmed at the ends. */
  lemma CombinedTextHoldsEveryCaption(captions: seq<string>, maxLength: int)
    requires JsLength(BlocksFrom(NormalizeAll(SortByLength(captions)), 0)) <= maxLength
    ensures BuildCombinedText(captions, maxLength) == Trim(BlocksFrom(NormalizeAll(SortByLength(captions)), 0))
  {
    var sorted := NormalizeAll(SortByLength(captions));
    assert "" + BlocksFrom(sorted, 0) == BlocksFrom(sorted, 0);
    CombineFromAllFit(sorted, 0, "", maxLength);
  }

  /** The captions of the overshoot example below. */
  function OvershootCaptions(): (xs: seq<string>)
    ensures |xs| == 10
    ensures forall k :: 0 <= k < 9 ==> xs[k] == "bb"
    ensures xs[9] == "a"
  {
    seq(9, _ => "bb") + ["a"]
  }

  /** The example captions are already longest first. */
  lemma OvershootCaptionsSorted()
    ensures LongestFirst(OvershootCaptions())
  {
    var xs := OvershootCaptions();
    assert JsLength("bb") == 2 && JsLength("a") == 1;
    assert forall k :: 0 <= k < |xs| ==> JsLength(xs[k]) == (if k < 9 then 2 else 1);
  }

  /** The example captions are already normalised. */
  lemma OvershootCaptionsClean()
    ensures forall k :: 0 <= k < |OvershootCaptions()| ==> Clean(OvershootCaptions()[k])
  {
    assert Clean("bb") && Clean("a");
  }

  /** Trimming a block's final blank line off text with no space at
      either end gives the text back. */
  lemma TrimOfBreak(t: string)
    requires |t| > 0 && !IsSpace(t[0]) && !IsSpace(t[|t| - 1])
    ensures Trim(t + "\n\n") == t
  {
    var s := t + "\n\n";
    var u := s[..|s| - 1];
    assert u == t + "\n";
    assert u[..|u| - 1] == t;
    assert TrailingSpaces(t) == 0;
    assert TrailingSpaces(u) == 1;
    assert TrailingSpaces(s) == 2;
    assert LeadingSpaces(s) == 0;
    assert s[0..][..|s| - 2] == t;
  }

  /** Trimming the tenth block `[Post 10]: a` leaves twelve code units. */
  lemma TenthBlockTrimmed()
    ensures JsLength(Trim(Block(10, "a"))) == 12
  {
    var d := NatToString(10);
    var t := "[Post " + d + "]: " + "a";
    assert Block(10, "a") == t + "\n\n";
    assert |t| == 12;
    TrimOfBreak(t);
    JsLengthOfBmp(t);
  }

  /** None of the nine two-character captions fits a budget of eleven. */
  lemma OvershootSkipsNine()
    ensures CombineFrom(OvershootCaptions(), 0, "", 11) == CombineFrom(OvershootCaptions(), 9, "", 11)
  {
    var xs := OvershootCaptions();
    assert forall j :: 0 <= j < 9 ==> JsLength(xs[j]) == 2 by {
      assert JsLength("bb") == 2;
    }
    CombineSkips(xs, 0, 9, "", 11);
  }

  /** The one-character caption fits and is written as the tenth block. */
  lemma OvershootWritesTenth()
    ensures CombineFrom(OvershootCaptions(), 9, "", 11) == Block(10, "a")
  {
    var xs := OvershootCaptions();
    assert JsLength(xs[9]) == 1 by {
      assert JsLength("a") == 1;
    }
    assert CombineFrom(xs, 9, "", 11) == CombineFrom(xs, 10, Block(10, "a"), 11);
  }

  /** Sorting and normalising leave the example captions as they are. */
  lemma OvershootCaptionsUnchanged()
    ensures NormalizeAll(SortByLength(OvershootCaptions())) == OvershootCaptions()
  {
    OvershootCaptionsSorted();
    SortOfSorted(OvershootCaptions());
    OvershootCaptionsClean();
    NormalizeAllOfClean(OvershootCaptions());
  }

  /** Nine two-character captions and one one-character caption with a
      budget of eleven: the first nine do not fit, the tenth is written as
      `[Post 10]: a`, twelve code units. */
  lemma CombinedTextOvershoots()
    ensures JsLength(BuildCombinedText(OvershootCaptions(), 11)) == 12
  {
    OvershootCaptionsUnchanged();
    OvershootSkipsNine();
    OvershootWritesTenth();
    TenthBlockTrimmed();
  }

  // ---------------------------------------------------------------- the aggregate

  /** `aggregateContent`. */
  function AggregateContent(data: CreatorData): (r: AggregatedContent)
    ensures r.allCaptions == KeepNonBlank(Contents(data.posts))
    ensures r.allComments == KeepNonBlank(FlatComments(data.posts))
    ensures r.combinedText == BuildCombinedText(r.allCaptions, MaxContentLength)
    ensures r.totalPosts == |data.posts|
    ensures Total(r.postTypeDistribution) == r.totalPosts
    ensures r.postTypeDistribution == PostTypeDistribution(data.posts)
    ensures forall x :: multiset(r.allCaptions)[x] == if IsBlank(x) then 0 else multiset(Contents(data.posts))[x]
    ensures forall x :: multiset(r.allComments)[x] == if IsBlank(x) then 0 else multiset(FlatComments(data.posts))[x]
    ensures r.combinedText == "" || JsLength(r.combinedText) <= MaxContentLength + Digits(|r.allCaptions|) - 1
    ensures r.avgEngagement == AverageEngagement(data.posts)
  {
    var captions := Captions(data.posts);
    KeepNonBlankCounts(Contents(data.posts));
    KeepNonBlankCounts(FlatComments(data.posts));
    AggregatedContent(
      captions,
      Comments(data.posts),
      BuildCombinedText(captions, MaxContentLength),
      |data.posts|,
      AverageEngagement(data.posts),
      PostTypeDistribution(data.posts))
  }

  // ---------------------------------------------------------------- comment sampling

  /** The `i`-th index `sampleComments` reads: `i * Math.floor(n / size)`. */
  function SampleIndex(n: nat, size: nat, i: nat): nat
    requires size > 0
  {
    i * (n / size)
  }

  /** The stride lands inside the list, so the `Math.min` guard never
      changes an index. */
  lemma SampleIndexInBounds(n: nat, size: nat, i: nat)
    requires i < size < n
    ensures SampleIndex(n, size, i) < n
  {
    var q := n / size;
    assert size * q <= n;
    MulMonotone(i + 1, size, q);
  }

  lemma MulMonotone(a: nat, b: nat, q: nat)
    requires a <= b
    ensures a * q <= b * q
  {
    assert b * q == a * q + (b - a) * q;
  }

  /** The sample indices strictly increase. */
  lemma SampleIndicesIncrease(n: nat, size: nat, i: nat, j: nat)
    requires i < j < size < n
    ensures SampleIndex(n, size, i) < SampleIndex(n, size, j)
  {
    var q := n / size;
    assert q >= 1;
    assert (j - i) * q >= 1;
    assert j * q == i * q + (j - i) * q;
  }

  /** `sampleComments`. */
  method SampleComments(comments: seq<string>, sampleSize: nat) returns (sample: seq<string>)
    ensures |comments| <= sampleSize ==> sample == comments
    ensures |comments| > sampleSize ==> |sample| == sampleSize
    ensures |comments| > sampleSize ==>
      forall i :: 0 <= i < sampleSize ==>
        SampleIndex(|comments|, sampleSize, i) < |comments| && sample[i] == comments[SampleIndex(|comments|, sampleSize, i)]
  {
    if |comments| <= sampleSize {
      return comments;
    }
    var n := |comments|;
    sample := [];
    var i := 0;
    while i < sampleSize
      invariant 0 <= i <= sampleSize
      invariant |sample| == i
      invariant forall k :: 0 <= k < i ==> SampleIndex(n, sampleSize, k) < n && sample[k] == comments[SampleIndex(n, sampleSize, k)]
    {
      SampleIndexInBounds(n, sampleSize, i);
      var step := n / sampleSize;
      var index := if i * step < n - 1 then i * step else n - 1;
      assert index == SampleIndex(n, sampleSize, i);
      sample := sample + [comments[index]];
      i := i + 1;
    }
  }

  const NoCommentsMessage: string := "No comments available for analysis."
  const NoMeaningfulCommentsMessage: string := "No meaningful comments available."

  /** The line written for one comment: `- ${normalized}\n`. */
  function CommentLine(normalized: string): string {
    "- " + normalized + "\n"
  }

  lemma CommentLineLength(normalized: string)
    ensures JsLength(CommentLine(normalized)) == 3 + JsLength(normalized)
  {
    JsLengthOfBmp("- ");
    JsLengthOfBmp("\n");
    JsLengthAppend("- ", normalized);
    JsLengthAppend("- " + normalized, "\n");
  }

  /** A line that passes the budget check leaves two code units spare. */
  lemma CommentLineFits(text: string, normalized: string, maxLength: int)
    requires JsLength(text) + JsLength(normalized) + 5 <= maxLength
    ensures JsLength(text + CommentLine(normalized)) <= maxLength - 2
  {
    CommentLineLength(normalized);
    JsLengthAppend(text, CommentLine(normalized));
  }

  /** `buildCommentsContext`: up to twenty sampled comments, one per line,
      each written only if it still fits the budget. */
  method BuildCommentsContext(comments: seq<string>, maxLength: int) returns (context: string)
    ensures |comments| == 0 ==> context == NoCommentsMessage
    ensures context != ""
    ensures context == NoCommentsMessage || context == NoMeaningfulCommentsMessage || JsLength(context) <= maxLength
  {
    if |comments| == 0 {
      return NoCommentsMessage;
    }
    var sampleSize := if |comments| < 20 then |comments| else 20;
    var sample := SampleComments(comments, sampleSize);
    var text := "";
    var i := 0;
    while i < |sample|
      invariant 0 <= i <= |sample|
      invariant JsLength(text) <= (if maxLength < 2 then 0 else maxLength - 2)
    {
      var normalized := NormalizeText(sample[i]);
      if JsLength(text) + JsLength(normalized) + 5 <= maxLength {
        CommentLineFits(text, normalized, maxLength);
        text := text + CommentLine(normalized);
      }
      i := i + 1;
    }
    var trimmed := Trim(text);
    JsLengthTrim(text);
    if trimmed == "" {
      context := NoMeaningfulCommentsMessage;
    } else {
      context := trimmed;
    }
  }
}
