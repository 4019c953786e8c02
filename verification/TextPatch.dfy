/** The patch of a text file (internal/filesystem/filesystem.go, `PatchText`):
    several hunks, each found by its exact context in one immutable base, and
    applied in one pass. */
module TextPatch {
  import opened Basics
  import opened Utf8

  type Bytes = seq<Byte>

  const MAX_TEXT := 8388608
  const MAX_HUNKS := 1000

  /** `removed` and `added` are the hunk's `old` and `new`. */
  datatype Hunk = Hunk(before: Bytes, removed: Bytes, after: Bytes, added: Bytes)
  {
    function Anchor(): Bytes { before + removed + after }
  }

  /** A hunk that was found: it replaces the range from `start` to `end`. */
  datatype Located = Located(start: nat, end: nat, added: Bytes)

  datatype Refusal =
    | NoHunks
    | TooManyHunks
    | FileTooLarge
    | NotText
    | HunkTooLarge(hunk: nat)
    | NewNotText(hunk: nat)
    | NoContext(hunk: nat)
    | NotFound(hunk: nat)
    | Ambiguous(hunk: nat, matches: nat)
    | Overlap
    | ResultTooLarge

  datatype Result<T> = Ok(value: T) | Err(error: Refusal)

  predicate IsText(data: Bytes) { Valid(data) && 0 !in data }

  // Finding the context ------------------------------------------------------------------

  predicate MatchesAt(text: Bytes, pattern: Bytes, i: nat) {
    i + |pattern| <= |text| && text[i..i + |pattern|] == pattern
  }

  /** Every position of the text where the pattern occurs, in order. */
  function MatchesFrom(text: Bytes, pattern: Bytes, offset: nat): (ms: seq<nat>)
    decreases |text| + 1 - offset
  {
    if offset + |pattern| > |text| then []
    else (if MatchesAt(text, pattern, offset) then [offset] else []) + MatchesFrom(text, pattern, offset + 1)
  }

  function Matches(text: Bytes, pattern: Bytes): seq<nat> {
    if pattern == [] then [] else MatchesFrom(text, pattern, 0)
  }

  /** `strings.Index`, from `offset` on. */
  method FindFrom(text: Bytes, pattern: Bytes, offset: nat) returns (found: Option<nat>)
    requires offset <= |text|
    ensures found.None? ==> MatchesFrom(text, pattern, offset) == []
    ensures found.Some? ==>
      && offset <= found.value && MatchesAt(text, pattern, found.value)
      && MatchesFrom(text, pattern, offset) == [found.value] + MatchesFrom(text, pattern, found.value + 1)
  {
    var i := offset;
    while i + |pattern| <= |text|
      invariant offset <= i
      invariant MatchesFrom(text, pattern, offset) == MatchesFrom(text, pattern, i)
      decreases |text| - i
    {
      if text[i..i + |pattern|] == pattern {
        return Some(i);
      }
      i := i + 1;
    }
    found := None;
  }

  /** The matches may overlap: the search goes on one byte after each. */
  method AllExactMatches(text: Bytes, pattern: Bytes) returns (matches: seq<nat>)
    ensures matches == Matches(text, pattern)
  {
    matches := [];
    if pattern == [] {
      return;
    }
    var offset := 0;
    while offset + |pattern| <= |text|
      invariant offset <= |text| + 1
      invariant Matches(text, pattern) == matches + MatchesFrom(text, pattern, offset)
      decreases |text| + 1 - offset
    {
      var found := FindFrom(text, pattern, offset);
      if found.None? {
        break;
      }
      SeqAssociates(matches, [found.value], MatchesFrom(text, pattern, found.value + 1));
      matches := matches + [found.value];
      offset := found.value + 1;
    }
  }

  function LocateHunk(text: Bytes, h: Hunk, i: nat): Result<Located> {
    if |h.before| + |h.removed| + |h.after| > MAX_TEXT || |h.added| > MAX_TEXT then Err(HunkTooLarge(i))
    else if !IsText(h.added) then Err(NewNotText(i))
    else if h.removed == [] && h.before == [] && h.after == [] then Err(NoContext(i))
    else
      var ms := Matches(text, h.Anchor());
      if |ms| == 0 then Err(NotFound(i))
      else if |ms| != 1 then Err(Ambiguous(i, |ms|))
      else Ok(Located(ms[0] + |h.before|, ms[0] + |h.before| + |h.removed|, h.added))
  }

  /** The hunks in the order in which they were given, or the first refusal. */
  function LocateAll(text: Bytes, hunks: seq<Hunk>): Result<seq<Located>> {
    if hunks == [] then Ok([])
    else match LocateAll(text, hunks[..|hunks| - 1])
      case Err(e) => Err(e)
      case Ok(located) =>
        match LocateHunk(text, hunks[|hunks| - 1], |hunks| - 1)
        case Err(e) => Err(e)
        case Ok(l) => Ok(located + [l])
  }

  method Locate(text: Bytes, hunks: seq<Hunk>) returns (r: Result<seq<Located>>)
    ensures r == LocateAll(text, hunks)
  {
    var located := [];
    for i := 0 to |hunks|
      invariant LocateAll(text, hunks[..i]) == Ok(located)
    {
      var h := hunks[i];
      assert hunks[..i + 1][..i] == hunks[..i];
      if |h.before| + |h.removed| + |h.after| > MAX_TEXT || |h.added| > MAX_TEXT {
        RefusedAt(text, hunks, i, HunkTooLarge(i));
        return Err(HunkTooLarge(i));
      }
      if !IsText(h.added) {
        RefusedAt(text, hunks, i, NewNotText(i));
        return Err(NewNotText(i));
      }
      if h.removed == [] && h.before == [] && h.after == [] {
        RefusedAt(text, hunks, i, NoContext(i));
        return Err(NoContext(i));
      }
      var matches := AllExactMatches(text, h.before + h.removed + h.after);
      if |matches| == 0 {
        RefusedAt(text, hunks, i, NotFound(i));
        return Err(NotFound(i));
      }
      if |matches| != 1 {
        RefusedAt(text, hunks, i, Ambiguous(i, |matches|));
        return Err(Ambiguous(i, |matches|));
      }
      var start := matches[0] + |h.before|;
      located := located + [Located(start, start + |h.removed|, h.added)];
    }
    assert hunks[..|hunks|] == hunks;
    r := Ok(located);
  }

  /** The first refusal decides. */
  lemma {:induction false} RefusedAt(text: Bytes, hunks: seq<Hunk>, i: nat, e: Refusal)
    requires i < |hunks| && LocateAll(text, hunks[..i]).Ok? && LocateHunk(text, hunks[i], i) == Err(e)
    ensures LocateAll(text, hunks) == Err(e)
    decreases |hunks|
  {
    hide LocateHunk;
    var n := |hunks| - 1;
    if i == n {
    } else {
      assert hunks[..n][..i] == hunks[..i];
      RefusedAt(text, hunks[..n], i, e);
    }
  }

  // Sorting and checking -------------------------------------------------------------------

  predicate SortedByStart(ls: seq<Located>) {
    forall i, j :: 0 <= i < j < |ls| ==> ls[i].start <= ls[j].start
  }

  function Insert(l: Located, ls: seq<Located>): seq<Located> {
    if ls == [] || l.start <= ls[0].start then [l] + ls else [ls[0]] + Insert(l, ls[1..])
  }

  function Sort(ls: seq<Located>): seq<Located> {
    if ls == [] then [] else Insert(ls[0], Sort(ls[1..]))
  }

  /** The check of two neighbours after sorting. */
  predicate Clash(previous: Located, current: Located) {
    current.start < previous.end || current.start == previous.start
  }

  predicate NeighboursApart(ls: seq<Located>) {
    forall i :: 0 < i < |ls| ==> !Clash(ls[i - 1], ls[i])
  }

  // Applying ----------------------------------------------------------------------------------

  /** The size that the located hunks add to the text. */
  function Growth(ls: seq<Located>): int {
    if ls == [] then 0
    else Growth(ls[..|ls| - 1]) + |ls[|ls| - 1].added| - (ls[|ls| - 1].end - ls[|ls| - 1].start)
  }

  /** Sorted ranges of the text that do not overlap, none before `offset`. */
  predicate Ranges(text: Bytes, offset: nat, ls: seq<Located>) {
    && offset <= |text|
    && (forall i :: 0 <= i < |ls| ==> offset <= ls[i].start <= ls[i].end <= |text|)
    && (forall i, j :: 0 <= i < j < |ls| ==> ls[i].end <= ls[j].start)
  }

  /** The single pass over the sorted hunks, from `offset` on. */
  function SinglePass(text: Bytes, offset: nat, ls: seq<Located>): Bytes
    requires Ranges(text, offset, ls)
    decreases |ls|
  {
    if ls == [] then text[offset..]
    else text[offset..ls[0].start] + ls[0].added + SinglePass(text, ls[0].end, ls[1..])
  }

  // The whole patch ---------------------------------------------------------------------------

  predicate InText(text: Bytes, l: Located) { l.start <= l.end <= |text| }

  lemma MatchFits(text: Bytes, h: Hunk, i: nat)
    requires LocateHunk(text, h, i).Ok?
    ensures InText(text, LocateHunk(text, h, i).value)
    ensures MatchesAt(text, h.Anchor(), Matches(text, h.Anchor())[0])
  {
    var ms := Matches(text, h.Anchor());
    FromMatches(text, h.Anchor(), 0);
    assert ms[0] in ms;
  }

  lemma {:induction false} FromMatches(text: Bytes, pattern: Bytes, offset: nat)
    ensures forall i: nat :: i in MatchesFrom(text, pattern, offset) <==> offset <= i && MatchesAt(text, pattern, i)
    decreases |text| + 1 - offset
  {
    if offset + |pattern| > |text| {
    } else {
      var rest := MatchesFrom(text, pattern, offset + 1);
      FromMatches(text, pattern, offset + 1);
      forall i: nat
        ensures i in MatchesFrom(text, pattern, offset) <==> offset <= i && MatchesAt(text, pattern, i)
      {
        assert i in rest <==> offset + 1 <= i && MatchesAt(text, pattern, i);
        assert i in MatchesFrom(text, pattern, offset)
          <==> (i == offset && MatchesAt(text, pattern, offset)) || i in rest;
      }
    }
  }

  predicate Ascending(ms: seq<nat>) { forall j, k :: 0 <= j < k < |ms| ==> ms[j] < ms[k] }

  lemma {:induction false} MatchesAscend(text: Bytes, pattern: Bytes, offset: nat)
    ensures Ascending(MatchesFrom(text, pattern, offset))
    decreases |text| + 1 - offset
  {
    if offset + |pattern| > |text| {
    } else {
      var rest := MatchesFrom(text, pattern, offset + 1);
      MatchesAscend(text, pattern, offset + 1);
      FromMatches(text, pattern, offset + 1);
      assert forall k :: 0 <= k < |rest| ==> rest[k] in rest;
    }
  }

  lemma {:induction false} LocatedFit(text: Bytes, hunks: seq<Hunk>)
    requires LocateAll(text, hunks).Ok?
    ensures |LocateAll(text, hunks).value| == |hunks|
    ensures forall i :: 0 <= i < |hunks| ==>
      && LocateHunk(text, hunks[i], i) == Ok(LocateAll(text, hunks).value[i])
      && InText(text, LocateAll(text, hunks).value[i])
  {
    hide LocateHunk;
    if hunks == [] {
    } else {
      var n := |hunks| - 1;
      LocatedFit(text, hunks[..n]);
      MatchFits(text, hunks[n], n);
    }
  }

  lemma SortPermutes(ls: seq<Located>)
    ensures SortedByStart(Sort(ls)) && multiset(Sort(ls)) == multiset(ls)
  {
    if ls != [] {
      SortPermutes(ls[1..]);
      InsertSorts(ls[0], Sort(ls[1..]));
      InsertAdds(ls[0], Sort(ls[1..]));
      TailOfBag(ls);
    }
  }

  lemma TailOfBag(s: seq<Located>)
    requires s != []
    ensures multiset(s[1..]) == multiset(s) - multiset{s[0]}
    ensures multiset(s) == multiset(s[1..]) + multiset{s[0]}
  {
    assert s == [s[0]] + s[1..];
  }

  lemma {:induction false} InsertAdds(l: Located, ls: seq<Located>)
    ensures multiset(Insert(l, ls)) == multiset(ls) + multiset{l}
  {
    if ls == [] || l.start <= ls[0].start {
    } else {
      InsertAdds(l, ls[1..]);
      TailOfBag(ls);
    }
  }

  lemma {:induction false} InsertSorts(l: Located, ls: seq<Located>)
    requires SortedByStart(ls)
    ensures SortedByStart(Insert(l, ls))
  {
    if ls == [] || l.start <= ls[0].start {
    } else {
      var rest := Insert(l, ls[1..]);
      InsertSorts(l, ls[1..]);
      InsertAdds(l, ls[1..]);
      forall i | 0 <= i < |rest|
        ensures ls[0].start <= rest[i].start
      {
        assert rest[i] in multiset(rest);
      }
    }
  }

  /** Checking neighbours is enough: all ranges are pairwise disjoint, and no two
      start at the same place. */
  lemma {:induction false} ApartIsDisjoint(text: Bytes, ls: seq<Located>)
    requires NeighboursApart(ls) && forall i :: 0 <= i < |ls| ==> InText(text, ls[i])
    ensures Ranges(text, 0, ls)
    ensures forall i, j :: 0 <= i < j < |ls| ==> ls[i].start < ls[j].start
  {
    if ls == [] {
    } else {
      var n := |ls| - 1;
      ApartIsDisjoint(text, ls[..n]);
      assert n > 0 ==> !Clash(ls[n - 1], ls[n]);
      assert forall i :: 0 <= i < n ==> ls[..n][i] == ls[i];
    }
  }

  lemma SortedRanges(text: Bytes, hunks: seq<Hunk>, sorted: seq<Located>)
    requires LocateAll(text, hunks).Ok? && multiset(sorted) == multiset(LocateAll(text, hunks).value)
    requires NeighboursApart(sorted)
    ensures Ranges(text, 0, sorted)
    ensures forall i, j :: 0 <= i < j < |sorted| ==> sorted[i].start < sorted[j].start
  {
    LocatedFit(text, hunks);
    var located := LocateAll(text, hunks).value;
    forall i | 0 <= i < |sorted|
      ensures InText(text, sorted[i])
    {
      assert sorted[i] in multiset(sorted);
    }
    ApartIsDisjoint(text, sorted);
  }

  function PatchText(data: Bytes, hunks: seq<Hunk>): Result<Bytes> {
    if |hunks| == 0 then Err(NoHunks)
    else if |hunks| > MAX_HUNKS then Err(TooManyHunks)
    else if |data| > MAX_TEXT then Err(FileTooLarge)
    else if !IsText(data) then Err(NotText)
    else match LocateAll(data, hunks)
      case Err(e) => Err(e)
      case Ok(located) =>
        var sorted := Sort(located);
        if !NeighboursApart(sorted) then Err(Overlap)
        else if |data| + Growth(sorted) > MAX_TEXT then Err(ResultTooLarge)
        else
          SortPermutes(located);
          SortedRanges(data, hunks, sorted);
          Ok(SinglePass(data, 0, sorted))
  }

  /** `sort.Slice` promises a sorted permutation, and no order of equal keys. */
  method SortSlice(ls: seq<Located>) returns (sorted: seq<Located>)
    ensures SortedByStart(sorted) && multiset(sorted) == multiset(ls)
  {
    SortPermutes(ls);
    sorted := Sort(ls);
  }

  method CheckNeighbours(ls: seq<Located>) returns (apart: bool)
    ensures apart == NeighboursApart(ls)
  {
    var i := 1;
    while i < |ls|
      invariant 1 <= i
      invariant forall k :: 0 < k < i && k < |ls| ==> !Clash(ls[k - 1], ls[k])
    {
      if Clash(ls[i - 1], ls[i]) {
        return false;
      }
      i := i + 1;
    }
    apart := true;
  }

  method UpdatedSize(data: Bytes, ls: seq<Located>) returns (size: int)
    ensures size == |data| + Growth(ls)
  {
    size := |data|;
    for i := 0 to |ls|
      invariant size == |data| + Growth(ls[..i])
    {
      assert ls[..i + 1][..i] == ls[..i];
      size := size + |ls[i].added| - (ls[i].end - ls[i].start);
    }
    assert ls[..|ls|] == ls;
  }

  lemma PassOne(data: Bytes, offset: nat, ls: seq<Located>, i: nat, written: Bytes)
    requires i < |ls| && Ranges(data, offset, ls[i..])
    ensures offset <= ls[i].start <= ls[i].end <= |data| && Ranges(data, ls[i].end, ls[i + 1..])
    ensures written + SinglePass(data, offset, ls[i..])
      == written + data[offset..ls[i].start] + ls[i].added + SinglePass(data, ls[i].end, ls[i + 1..])
  {
    var rest := ls[i..];
    assert rest[1..] == ls[i + 1..] && rest[0] == ls[i];
    var copied := data[offset..ls[i].start];
    SeqAssociates(written, copied, ls[i].added);
    SeqAssociates(written, copied + ls[i].added, SinglePass(data, ls[i].end, ls[i + 1..]));
  }

  method ApplyAll(data: Bytes, ls: seq<Located>) returns (updated: Bytes)
    requires Ranges(data, 0, ls)
    ensures updated == SinglePass(data, 0, ls)
  {
    updated := [];
    var offset: nat := 0;
    for i := 0 to |ls|
      invariant Ranges(data, offset, ls[i..])
      invariant updated + SinglePass(data, offset, ls[i..]) == SinglePass(data, 0, ls)
    {
      PassOne(data, offset, ls, i, updated);
      updated := updated + data[offset..ls[i].start];
      updated := updated + ls[i].added;
      offset := ls[i].end;
    }
    updated := updated + data[offset..];
  }

  method Patch(data: Bytes, hunks: seq<Hunk>) returns (r: Result<Bytes>)
    ensures r == PatchText(data, hunks)
  {
    if |hunks| == 0 {
      return Err(NoHunks);
    }
    if |hunks| > MAX_HUNKS {
      return Err(TooManyHunks);
    }
    if |data| > MAX_TEXT {
      return Err(FileTooLarge);
    }
    if !IsText(data) {
      return Err(NotText);
    }
    var located := Locate(data, hunks);
    if located.Err? {
      return Err(located.error);
    }
    var sorted := SortSlice(located.value);
    var apart := CheckNeighbours(sorted);
    SortPermutes(located.value);
    SortedSameWay(data, hunks, sorted, Sort(located.value));
    if !apart {
      return Err(Overlap);
    }
    var size := UpdatedSize(data, sorted);
    if size > MAX_TEXT {
      return Err(ResultTooLarge);
    }
    SortedRanges(data, hunks, sorted);
    var updated := ApplyAll(data, sorted);
    r := Ok(updated);
  }

  // Any sorted permutation will do ---------------------------------------------------------------

  lemma FirstsAgree(a: seq<Located>, b: seq<Located>)
    requires forall i, j :: 0 <= i < j < |a| ==> a[i].start < a[j].start
    requires SortedByStart(b) && multiset(a) == multiset(b) && a != []
    ensures b != [] && a[0] == b[0]
  {
    assert |multiset(b)| == |a|;
    assert a[0] in multiset(b) && b[0] in multiset(a);
    var k :| 0 <= k < |a| && a[k] == b[0];
    assert b[0].start <= a[0].start;
    assert k == 0;
  }

  lemma {:induction false} SortedUnique(a: seq<Located>, b: seq<Located>)
    requires forall i, j :: 0 <= i < j < |a| ==> a[i].start < a[j].start
    requires SortedByStart(b) && multiset(a) == multiset(b)
    ensures a == b
  {
    if a == [] {
      assert |multiset(b)| == 0;
    } else {
      FirstsAgree(a, b);
      TailOfBag(a);
      TailOfBag(b);
      SortedUnique(a[1..], b[1..]);
      assert a == [a[0]] + a[1..] && b == [b[0]] + b[1..];
    }
  }

  /** Two sorts of the located hunks are accepted alike, and then are the same. */
  lemma SortedSameWay(text: Bytes, hunks: seq<Hunk>, a: seq<Located>, b: seq<Located>)
    requires LocateAll(text, hunks).Ok?
    requires multiset(a) == multiset(LocateAll(text, hunks).value) == multiset(b)
    requires SortedByStart(a) && SortedByStart(b)
    ensures NeighboursApart(a) == NeighboursApart(b) && (NeighboursApart(a) ==> a == b)
  {
    if NeighboursApart(a) {
      SortedRanges(text, hunks, a);
      SortedUnique(a, b);
    } else if NeighboursApart(b) {
      SortedRanges(text, hunks, b);
      SortedUnique(b, a);
    }
  }
}
