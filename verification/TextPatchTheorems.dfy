/** What a patch does to the file. */
module TextPatchTheorems {
  import opened Basics
  import opened Utf8
  import opened TextPatch

  // Finding ----------------------------------------------------------------------------

  /** The search finds every occurrence, overlapping or not, once, in order. */
  lemma MatchesAreAllOccurrences(text: Bytes, pattern: Bytes)
    ensures forall i: nat :: i in Matches(text, pattern) <==> pattern != [] && MatchesAt(text, pattern, i)
    ensures Ascending(Matches(text, pattern))
  {
    FromMatches(text, pattern, 0);
    MatchesAscend(text, pattern, 0);
  }

  /** A hunk is located exactly where its context is, and that only if the
      context occurs at this one place. */
  lemma LocatedIsTheOnlyPlace(text: Bytes, h: Hunk, i: nat)
    requires LocateHunk(text, h, i).Ok?
    ensures
      var l := LocateHunk(text, h, i).value;
      && |h.before| <= l.start <= l.end && l.end + |h.after| <= |text|
      && text[l.start - |h.before|..l.start] == h.before && text[l.start..l.end] == h.removed
      && text[l.end..l.end + |h.after|] == h.after && l.added == h.added
      && forall p: nat :: MatchesAt(text, h.Anchor(), p) ==> p == l.start - |h.before|
  {
    var ms := Matches(text, h.Anchor());
    var p := ms[0];
    MatchesAreAllOccurrences(text, h.Anchor());
    MatchFits(text, h, i);
    forall q: nat | MatchesAt(text, h.Anchor(), q)
      ensures q == p
    {
      assert q in ms;
    }
    AnchorParts(text, h, p);
  }

  lemma AnchorParts(text: Bytes, h: Hunk, p: nat)
    requires MatchesAt(text, h.Anchor(), p)
    ensures
      var start := p + |h.before|;
      var end := start + |h.removed|;
      text[p..start] == h.before && text[start..end] == h.removed && text[end..end + |h.after|] == h.after
  {
    var i, j := |h.before|, |h.before| + |h.removed|;
    ConcatParts(h.before, h.removed, h.after);
    SliceOfSlice(text, p, |h.Anchor()|, 0, i);
    SliceOfSlice(text, p, |h.Anchor()|, i, j);
    SliceOfSlice(text, p, |h.Anchor()|, j, |h.Anchor()|);
  }

  lemma ConcatParts(a: Bytes, b: Bytes, c: Bytes)
    ensures (a + b + c)[0..|a|] == a && (a + b + c)[|a|..|a| + |b|] == b
    ensures (a + b + c)[|a| + |b|..|a| + |b| + |c|] == c
  {}

  /** What an accepted patch guarantees about its sorted ranges. */
  lemma AcceptedRanges(data: Bytes, hunks: seq<Hunk>) returns (sorted: seq<Located>)
    requires PatchText(data, hunks).Ok?
    ensures LocateAll(data, hunks).Ok? && sorted == Sort(LocateAll(data, hunks).value) && Ranges(data, 0, sorted)
    ensures PatchText(data, hunks).value == SinglePass(data, 0, sorted) && IsText(data)
    ensures forall i :: 0 <= i < |sorted| ==> IsText(sorted[i].added)
  {
    hide IsText, LocateHunk, SinglePass;
    var located := LocateAll(data, hunks).value;
    sorted := Sort(located);
    LocatedFit(data, hunks);
    SortPermutes(located);
    SortedRanges(data, hunks, sorted);
    forall i | 0 <= i < |sorted|
      ensures IsText(sorted[i].added)
    {
      assert sorted[i] in multiset(located);
      var k :| 0 <= k < |located| && located[k] == sorted[i];
      AddsText(data, hunks[k], k);
    }
  }

  lemma AddsText(text: Bytes, h: Hunk, i: nat)
    requires LocateHunk(text, h, i).Ok?
    ensures IsText(LocateHunk(text, h, i).value.added)
  {}

  // One pass, or one at a time -------------------------------------------------------------

  function Replace(text: Bytes, l: Located): Bytes
    requires InText(text, l)
  {
    text[..l.start] + l.added + text[l.end..]
  }

  /** The hunks one at a time, the last in the text first. */
  function RightToLeft(text: Bytes, ls: seq<Located>): Bytes
    requires Ranges(text, 0, ls)
    decreases |ls|
  {
    if ls == [] then text
    else
      var last := ls[|ls| - 1];
      RightToLeft(Replace(text, last), ls[..|ls| - 1])
  }

  lemma RangesSplit(text: Bytes, offset: nat, ls: seq<Located>, last: Located)
    requires Ranges(text, offset, ls + [last])
    ensures InText(text, last) && offset <= last.start
    ensures Ranges(text, offset, ls) && Ranges(Replace(text, last), offset, ls)
    ensures forall i :: 0 <= i < |ls| ==> ls[i].end <= last.start
  {
    var all := ls + [last];
    assert all[|ls|] == last && forall i :: 0 <= i < |ls| ==> all[i] == ls[i];
  }

  lemma ReplaceParts(text: Bytes, l: Located, i: nat, j: nat)
    requires InText(text, l) && i <= j <= l.start
    ensures Replace(text, l)[i..j] == text[i..j]
    ensures Replace(text, l)[i..] == text[i..l.start] + l.added + text[l.end..]
  {}

  /** The last hunk may as well have been applied before the pass. */
  lemma {:induction false} PassExtends(text: Bytes, offset: nat, ls: seq<Located>, last: Located)
    requires Ranges(text, offset, ls + [last]) && InText(text, last)
    requires Ranges(Replace(text, last), offset, ls)
    ensures SinglePass(Replace(text, last), offset, ls) == SinglePass(text, offset, ls + [last])
    decreases |ls|
  {
    hide Replace;
    var all := ls + [last];
    RangesSplit(text, offset, ls, last);
    if ls == [] {
      assert all[1..] == [];
      ReplaceParts(text, last, offset, offset);
    } else {
      assert all[0] == ls[0] && all[1..] == ls[1..] + [last];
      RangesSplit(text, ls[0].end, ls[1..], last);
      PassExtends(text, ls[0].end, ls[1..], last);
      ReplaceParts(text, last, offset, ls[0].start);
    }
  }

  /** The single pass is the application of the hunks one at a time, from right
      to left, so that each is applied to an unchanged prefix of the base. */
  lemma {:induction false} SinglePassIsRightToLeft(text: Bytes, ls: seq<Located>)
    requires Ranges(text, 0, ls)
    ensures SinglePass(text, 0, ls) == RightToLeft(text, ls)
    decreases |ls|
  {
    if ls == [] {
    } else {
      var n := |ls| - 1;
      assert ls == ls[..n] + [ls[n]];
      RangesSplit(text, 0, ls[..n], ls[n]);
      PassExtends(text, 0, ls[..n], ls[n]);
      SinglePassIsRightToLeft(Replace(text, ls[n]), ls[..n]);
    }
  }

  /** A patch is its hunks one at a time, from the right. */
  lemma PatchIsRightToLeft(data: Bytes, hunks: seq<Hunk>)
    requires PatchText(data, hunks).Ok?
    ensures
      var located := LocateAll(data, hunks);
      && located.Ok? && Ranges(data, 0, Sort(located.value))
      && PatchText(data, hunks).value == RightToLeft(data, Sort(located.value))
  {
    hide PatchText, LocateAll, SinglePass, RightToLeft, Ranges;
    var sorted := AcceptedRanges(data, hunks);
    SinglePassIsRightToLeft(data, sorted);
  }

  lemma PatchOfOne(data: Bytes, h: Hunk, l: Located)
    requires LocateHunk(data, h, 0) == Ok(l) && IsText(data)
    requires |data| <= MAX_TEXT && |data| + |l.added| - (l.end - l.start) <= MAX_TEXT
    ensures InText(data, l) && PatchText(data, [h]) == Ok(Replace(data, l))
  {
    hide LocateHunk, SinglePass, IsText;
    var hunks, located := [h], [l];
    MatchFits(data, h, 0);
    assert LocateAll(data, hunks[..|hunks| - 1]) == Ok([]);
    assert LocateAll(data, hunks) == Ok([] + located);
    assert [] + located == located && Sort(located) == located;
    assert located[..|located| - 1] == [];
    assert Growth(located) == |l.added| - (l.end - l.start);
    OnePass(data, l);
  }

  lemma OneHunkPass(data: Bytes, h: Hunk)
    requires PatchText(data, [h]).Ok?
    ensures LocateHunk(data, h, 0).Ok? && InText(data, LocateHunk(data, h, 0).value)
    ensures PatchText(data, [h]).value == Replace(data, LocateHunk(data, h, 0).value)
  {
    hide LocateHunk, SinglePass;
    assert [h][..0] == [];
    LocatedFit(data, [h]);
    var l := LocateHunk(data, h, 0).value;
    assert LocateAll(data, [h]).value == [l];
    assert Sort([l]) == [l];
    OnePass(data, l);
  }

  lemma OnePass(data: Bytes, l: Located)
    requires InText(data, l)
    ensures Ranges(data, 0, [l]) && SinglePass(data, 0, [l]) == Replace(data, l)
  {
    assert [l][1..] == [] && data[0..l.start] == data[..l.start];
  }

  /** One hunk: the text around its one match stays, the middle is replaced. */
  lemma OneHunkReplacesItsMatch(data: Bytes, h: Hunk, head: Bytes, tail: Bytes)
    requires PatchText(data, [h]).Ok? && data == head + h.Anchor() + tail
    ensures PatchText(data, [h]).value == head + h.before + h.added + h.after + tail
  {
    hide PatchText, LocateHunk;
    OneHunkPass(data, h);
    var l := LocateHunk(data, h, 0).value;
    LocatedIsTheOnlyPlace(data, h, 0);
    assert MatchesAt(data, h.Anchor(), |head|);
    assert data[..l.start] == head + h.before;
    assert data[l.end..] == h.after + tail;
  }

  // Size and unchanged bytes -----------------------------------------------------------------

  lemma {:induction false} PassSize(text: Bytes, offset: nat, ls: seq<Located>)
    requires Ranges(text, offset, ls)
    ensures |SinglePass(text, offset, ls)| == |text| - offset + Growth(ls)
    decreases |ls|
  {
    if ls == [] {
    } else {
      PassSize(text, ls[0].end, ls[1..]);
      GrowthOfFirst(ls);
    }
  }

  lemma {:induction false} GrowthOfFirst(ls: seq<Located>)
    requires ls != []
    ensures Growth(ls) == |ls[0].added| - (ls[0].end - ls[0].start) + Growth(ls[1..])
    decreases |ls|
  {
    var n := |ls| - 1;
    if n > 0 {
      GrowthOfFirst(ls[..n]);
      assert ls[..n][1..] == ls[1..][..n - 1];
    } else {
      assert ls[..0] == [] && ls[1..] == [];
    }
  }

  /** The size that is checked against the limit is the size of the result. */
  lemma UpdatedSizeIsExact(data: Bytes, hunks: seq<Hunk>)
    requires PatchText(data, hunks).Ok?
    ensures
      var sorted := Sort(LocateAll(data, hunks).value);
      |PatchText(data, hunks).value| == |data| + Growth(sorted) <= MAX_TEXT
  {
    var located := LocateAll(data, hunks).value;
    SortPermutes(located);
    SortedRanges(data, hunks, Sort(located));
    PassSize(data, 0, Sort(located));
  }

  predicate Outside(ls: seq<Located>, p: nat) {
    forall i :: 0 <= i < |ls| ==> p < ls[i].start || ls[i].end <= p
  }

  /** How far the hunks before byte `p` move it. */
  function Shift(ls: seq<Located>, p: nat): int {
    if ls == [] || p < ls[0].start then 0
    else |ls[0].added| - (ls[0].end - ls[0].start) + Shift(ls[1..], p)
  }

  /** A byte outside all replaced ranges is kept, moved by what the hunks before
      it have added. */
  lemma {:induction false} OtherBytesStay(text: Bytes, offset: nat, ls: seq<Located>, p: nat)
    requires Ranges(text, offset, ls) && offset <= p < |text| && Outside(ls, p)
    ensures
      var at := p - offset + Shift(ls, p);
      0 <= at < |SinglePass(text, offset, ls)| && SinglePass(text, offset, ls)[at] == text[p]
    decreases |ls|
  {
    if ls == [] || p < ls[0].start {
    } else {
      OtherBytesStay(text, ls[0].end, ls[1..], p);
    }
  }

  /** A patch keeps every byte that no hunk replaces, in order. */
  lemma PatchKeepsOtherBytes(data: Bytes, hunks: seq<Hunk>, p: nat)
    requires PatchText(data, hunks).Ok? && p < |data|
    ensures LocateAll(data, hunks).Ok?
    ensures
      var sorted := Sort(LocateAll(data, hunks).value);
      var result := PatchText(data, hunks).value;
      Outside(sorted, p) ==> 0 <= p + Shift(sorted, p) < |result| && result[p + Shift(sorted, p)] == data[p]
  {
    hide PatchText, LocateAll, SinglePass, Ranges, Outside, Shift;
    var sorted := AcceptedRanges(data, hunks);
    if Outside(sorted, p) {
      OtherBytesStay(data, 0, sorted, p);
    }
  }

  // The order of the hunks ----------------------------------------------------------------------

  /** Whether and where a hunk is found does not depend on its number. */
  lemma LocateIgnoresNumber(text: Bytes, h: Hunk, i: nat, j: nat)
    ensures LocateHunk(text, h, i).Ok? == LocateHunk(text, h, j).Ok?
    ensures LocateHunk(text, h, i).Ok? ==> LocateHunk(text, h, i) == LocateHunk(text, h, j)
  {}

  predicate AllFound(text: Bytes, hunks: seq<Hunk>) {
    forall h :: h in hunks ==> LocateHunk(text, h, 0).Ok?
  }

  /** The bag of located hunks, told from the bag of hunks. */
  lemma {:induction false} LocatedBag(text: Bytes, hunks: seq<Hunk>)
    ensures LocateAll(text, hunks).Ok? <==> AllFound(text, hunks)
    ensures LocateAll(text, hunks).Ok? ==> forall l ::
      multiset(LocateAll(text, hunks).value)[l] == CountFound(text, hunks, l)
  {
    hide LocateHunk;
    if hunks == [] {
    } else {
      var n := |hunks| - 1;
      LocatedBag(text, hunks[..n]);
      LocateIgnoresNumber(text, hunks[n], n, 0);
      assert hunks == hunks[..n] + [hunks[n]];
    }
  }

  /** How many hunks are located at `l`. */
  function CountFound(text: Bytes, hunks: seq<Hunk>, l: Located): nat {
    if hunks == [] then 0
    else
      CountFound(text, hunks[..|hunks| - 1], l)
      + if LocateHunk(text, hunks[|hunks| - 1], 0) == Ok(l) then 1 else 0
  }

  lemma {:induction false} CountConcat(text: Bytes, a: seq<Hunk>, b: seq<Hunk>, l: Located)
    ensures CountFound(text, a + b, l) == CountFound(text, a, l) + CountFound(text, b, l)
  {
    hide LocateHunk;
    if b == [] {
      assert a + b == a;
    } else {
      var n := |b| - 1;
      CountConcat(text, a, b[..n], l);
      assert (a + b)[..|a + b| - 1] == a + b[..n];
    }
  }

  lemma BagWithout(s: seq<Hunk>, k: nat)
    requires k < |s|
    ensures s == s[..k] + [s[k]] + s[k + 1..]
    ensures multiset(s[..k] + s[k + 1..]) == multiset(s) - multiset{s[k]}
  {
    assert s == s[..k] + [s[k]] + s[k + 1..];
  }

  lemma {:induction false} CountIgnoresOrder(text: Bytes, a: seq<Hunk>, b: seq<Hunk>, l: Located)
    requires multiset(a) == multiset(b)
    ensures CountFound(text, a, l) == CountFound(text, b, l)
  {
    hide LocateHunk;
    if a == [] {
      assert |multiset(b)| == 0;
    } else {
      var n := |a| - 1;
      assert a == a[..n] + [a[n]];
      assert a[n] in multiset(b);
      var k :| 0 <= k < |b| && b[k] == a[n];
      BagWithout(b, k);
      BagWithout(a, n);
      assert a[..n] + a[n + 1..] == a[..n];
      CountIgnoresOrder(text, a[..n], b[..k] + b[k + 1..], l);
      CountConcat(text, b[..k], b[k + 1..], l);
      CountConcat(text, b[..k] + [b[k]], b[k + 1..], l);
    }
  }

  /** The same hunks in another order are accepted alike, with the same result. */
  lemma OrderOfHunksIsIrrelevant(data: Bytes, a: seq<Hunk>, b: seq<Hunk>)
    requires multiset(a) == multiset(b)
    ensures PatchText(data, a).Ok? == PatchText(data, b).Ok?
    ensures PatchText(data, a).Ok? ==> PatchText(data, a) == PatchText(data, b)
  {
    hide LocateHunk, SinglePass;
    assert |a| == |multiset(a)| == |multiset(b)| == |b|;
    LocatedBag(data, a);
    LocatedBag(data, b);
    assert AllFound(data, a) == AllFound(data, b) by {
      assert forall h :: h in a <==> h in multiset(a);
      assert forall h :: h in b <==> h in multiset(b);
    }
    if LocateAll(data, a).Ok? {
      var la, lb := LocateAll(data, a).value, LocateAll(data, b).value;
      forall l
        ensures multiset(la)[l] == multiset(lb)[l]
      {
        CountIgnoresOrder(data, a, b, l);
      }
      assert multiset(la) == multiset(lb);
      SortPermutes(la);
      SortPermutes(lb);
      SortedSameWay(data, a, Sort(la), Sort(lb));
    }
  }

  // Text stays text ------------------------------------------------------------------------------

  predicate CutsAtBoundaries(text: Bytes, ls: seq<Located>) {
    forall i :: 0 <= i < |ls| ==>
      && InText(text, ls[i]) && IsText(ls[i].added)
      && Valid(text[..ls[i].start]) && Valid(text[..ls[i].end])
  }

  lemma ValidBetween(text: Bytes, i: nat, j: nat)
    requires i <= j <= |text| && Valid(text[..i]) && Valid(text[..j])
    ensures Valid(text[i..j])
  {
    assert text[..i] + text[i..j] == text[..j];
    ValidSuffix(text[..i], text[i..j]);
  }

  lemma {:induction false} PassKeepsText(text: Bytes, offset: nat, ls: seq<Located>)
    requires IsText(text) && Ranges(text, offset, ls) && Valid(text[..offset]) && CutsAtBoundaries(text, ls)
    ensures IsText(SinglePass(text, offset, ls))
    decreases |ls|
  {
    hide Valid;
    if ls == [] {
      assert text[..|text|] == text && text[offset..|text|] == text[offset..];
      ValidBetween(text, offset, |text|);
    } else {
      var rest := SinglePass(text, ls[0].end, ls[1..]);
      assert forall i :: 0 <= i < |ls| - 1 ==> ls[1..][i] == ls[i + 1];
      PassKeepsText(text, ls[0].end, ls[1..]);
      ValidBetween(text, offset, ls[0].start);
      ValidConcat(text[offset..ls[0].start], ls[0].added);
      ValidConcat(text[offset..ls[0].start] + ls[0].added, rest);
    }
  }

  /** The context of the hunk is text itself. */
  predicate ContextIsText(h: Hunk) { Valid(h.before) && Valid(h.removed) && Valid(h.after) }

  /** The range found for valid context lies between characters. */
  lemma LocatedCutsAtBoundaries(text: Bytes, h: Hunk, i: nat)
    requires LocateHunk(text, h, i).Ok? && Valid(text) && ContextIsText(h)
    ensures
      var l := LocateHunk(text, h, i).value;
      InText(text, l) && Valid(text[..l.start]) && Valid(text[..l.end]) && IsText(l.added)
  {
    hide Valid, MatchesFrom;
    var l := LocateHunk(text, h, i).value;
    var p := Matches(text, h.Anchor())[0];
    MatchFits(text, h, i);
    ValidConcat(h.before, h.removed);
    ValidConcat(h.before + h.removed, h.after);
    MatchOnBoundaries(text, p, h.Anchor());
    LocatedIsTheOnlyPlace(text, h, i);
    assert text[..p] + h.before == text[..l.start];
    assert text[..l.start] + h.removed == text[..l.end];
    ValidConcat(text[..p], h.before);
    ValidConcat(text[..l.start], h.removed);
  }

  lemma SortedCutsAtBoundaries(data: Bytes, hunks: seq<Hunk>, sorted: seq<Located>, i: nat)
    requires LocateAll(data, hunks).Ok? && multiset(sorted) == multiset(LocateAll(data, hunks).value) && i < |sorted|
    requires Valid(data) && forall i :: 0 <= i < |hunks| ==> ContextIsText(hunks[i])
    ensures InText(data, sorted[i]) && IsText(sorted[i].added)
    ensures Valid(data[..sorted[i].start]) && Valid(data[..sorted[i].end])
  {
    hide Valid, LocateHunk, ContextIsText, IsText;
    var located := LocateAll(data, hunks).value;
    LocatedFit(data, hunks);
    assert sorted[i] in multiset(located);
    var k :| 0 <= k < |located| && located[k] == sorted[i];
    LocatedCutsAtBoundaries(data, hunks[k], k);
  }

  /** Valid text, patched with hunks whose context is valid, is valid text. */
  lemma PatchKeepsText(data: Bytes, hunks: seq<Hunk>)
    requires PatchText(data, hunks).Ok? && forall i :: 0 <= i < |hunks| ==> ContextIsText(hunks[i])
    ensures IsText(PatchText(data, hunks).value)
  {
    hide Valid, LocateAll, ContextIsText, SinglePass, Sort, NeighboursApart;
    var located := LocateAll(data, hunks).value;
    var sorted := Sort(located);
    SortPermutes(located);
    SortedRanges(data, hunks, sorted);
    forall i | 0 <= i < |sorted|
      ensures InText(data, sorted[i]) && IsText(sorted[i].added)
      ensures Valid(data[..sorted[i].start]) && Valid(data[..sorted[i].end])
    {
      SortedCutsAtBoundaries(data, hunks, sorted, i);
    }
    EmptyIsValid(data);
    PassKeepsText(data, 0, sorted);
  }

  lemma EmptyIsValid(data: Bytes)
    ensures Valid(data[..0])
  {}

  /** The code checks only the new text of a hunk: context that is not valid can
      cut a character in two. */
  lemma InvalidContextCutsCharacters()
    ensures
      var data: Bytes := [0xC3, 0xA9];
      var h := Hunk([], [0xA9], [], []);
      PatchText(data, [h]) == Ok([0xC3]) && IsText(data) && !IsText([0xC3])
  {
    hide PatchText;
    var data: Bytes := [0xC3, 0xA9];
    var h := Hunk([], [0xA9], [], []);
    assert data[..2] == data && Valid(data[2..]);
    assert data[0..1] == [0xC3] && data[1..2] == [0xA9];
    assert h.Anchor() == [0xA9];
    assert MatchesFrom(data, [0xA9], 2) == [];
    assert MatchesAt(data, [0xA9], 1) && !MatchesAt(data, [0xA9], 0);
    assert MatchesFrom(data, [0xA9], 1) == [1];
    assert MatchesFrom(data, [0xA9], 0) == [1];
    assert LocateHunk(data, h, 0) == Ok(Located(1, 2, []));
    PatchOfOne(data, h, Located(1, 2, []));
    assert Replace(data, Located(1, 2, [])) == [0xC3];
  }
}
