/** When a patch is accepted, told from the file and the hunks alone. */
module TextPatchAcceptance {
  import opened Basics
  import opened Utf8
  import opened TextPatch
  import opened TextPatchTheorems

  /** The limits on one hunk. */
  predicate Fitting(h: Hunk) {
    && |h.before| + |h.removed| + |h.after| <= MAX_TEXT && |h.added| <= MAX_TEXT
    && IsText(h.added) && (h.before != [] || h.removed != [] || h.after != [])
  }

  /** The context of the hunk occurs here and nowhere else. */
  ghost predicate StandsAt(data: Bytes, h: Hunk, p: nat) {
    MatchesAt(data, h.Anchor(), p) && forall q: nat :: MatchesAt(data, h.Anchor(), q) ==> q == p
  }

  /** What the hunk replaces when its context stands at `p`. */
  function RangeAt(h: Hunk, p: nat): Located {
    Located(p + |h.before|, p + |h.before| + |h.removed|, h.added)
  }

  /** The ranges share no byte and do not begin at the same place. */
  predicate Apart(l: Located, m: Located) {
    (l.end <= m.start || m.end <= l.start) && l.start != m.start
  }

  /** Every hunk fits and stands in one place, and the ranges are pairwise apart. */
  ghost predicate Stand(data: Bytes, hunks: seq<Hunk>, places: seq<nat>) {
    && |places| == |hunks|
    && (forall i :: 0 <= i < |hunks| ==> Fitting(hunks[i]) && StandsAt(data, hunks[i], places[i]))
    && (forall i, j :: 0 <= i < j < |hunks| ==> Apart(RangeAt(hunks[i], places[i]), RangeAt(hunks[j], places[j])))
  }

  /** What the hunks add to the size of the file. */
  function TotalGrowth(hunks: seq<Hunk>): int {
    if hunks == [] then 0
    else
      var last := hunks[|hunks| - 1];
      TotalGrowth(hunks[..|hunks| - 1]) + |last.added| - |last.removed|
  }

  // One hunk ---------------------------------------------------------------------------------

  lemma TwoDiffer(ms: seq<nat>, p: nat)
    requires Ascending(ms) && |ms| > 1
    ensures ms[0] != p || ms[1] != p
  {}

  lemma OnlyMatch(text: Bytes, pattern: Bytes, p: nat)
    requires pattern != [] && MatchesAt(text, pattern, p)
    requires forall q: nat :: MatchesAt(text, pattern, q) ==> q == p
    ensures Matches(text, pattern) == [p]
  {
    hide Matches, MatchesAt;
    var ms := Matches(text, pattern);
    MatchesAreAllOccurrences(text, pattern);
    assert p in ms;
    forall k | 0 <= k < |ms|
      ensures ms[k] == p
    {
      assert ms[k] in ms;
    }
    if |ms| > 1 {
      TwoDiffer(ms, p);
    }
  }

  lemma StandingIsLocated(data: Bytes, h: Hunk, i: nat, p: nat)
    requires Fitting(h) && StandsAt(data, h, p)
    ensures LocateHunk(data, h, i) == Ok(RangeAt(h, p))
  {
    hide Matches, MatchesAt, IsText;
    OnlyMatch(data, h.Anchor(), p);
  }

  lemma LocatedStands(data: Bytes, h: Hunk, i: nat)
    requires LocateHunk(data, h, i).Ok?
    ensures
      var l := LocateHunk(data, h, i).value;
      && Fitting(h) && l.start >= |h.before| && StandsAt(data, h, l.start - |h.before|)
      && l == RangeAt(h, l.start - |h.before|)
  {
    hide MatchesAt, IsText;
    LocatedIsTheOnlyPlace(data, h, i);
    MatchFits(data, h, i);
  }

  function RangesAt(hunks: seq<Hunk>, places: seq<nat>): seq<Located>
    requires |places| == |hunks|
  {
    seq(|hunks|, i requires 0 <= i < |hunks| => RangeAt(hunks[i], places[i]))
  }

  lemma {:induction false} StandingAreLocated(data: Bytes, hunks: seq<Hunk>, places: seq<nat>)
    requires |places| == |hunks|
    requires forall i :: 0 <= i < |hunks| ==> Fitting(hunks[i]) && StandsAt(data, hunks[i], places[i])
    ensures LocateAll(data, hunks) == Ok(RangesAt(hunks, places))
  {
    hide LocateHunk, Fitting, StandsAt, RangeAt;
    if hunks == [] {
    } else {
      var n := |hunks| - 1;
      StandingAreLocated(data, hunks[..n], places[..n]);
      StandingIsLocated(data, hunks[n], n, places[n]);
      assert RangesAt(hunks, places) == RangesAt(hunks[..n], places[..n]) + [RangeAt(hunks[n], places[n])];
    }
  }

  // All hunks -----------------------------------------------------------------------------------

  predicate AllApart(ls: seq<Located>) { forall i, j :: 0 <= i < j < |ls| ==> Apart(ls[i], ls[j]) }

  lemma ApartFromHead(l: Located, ls: seq<Located>)
    ensures AllApart([l] + ls) <==> AllApart(ls) && forall m :: m in ls ==> Apart(l, m)
  {
    hide Apart;
    var all := [l] + ls;
    assert forall i :: 0 <= i < |ls| ==> all[i + 1] == ls[i];
    if AllApart(all) {
      forall i, j | 0 <= i < j < |ls|
        ensures Apart(ls[i], ls[j])
      {
        assert Apart(all[i + 1], all[j + 1]);
      }
      forall m | m in ls
        ensures Apart(l, m)
      {
        var k :| 0 <= k < |ls| && ls[k] == m;
        assert Apart(all[0], all[k + 1]);
      }
    }
  }

  lemma InsertMembers(l: Located, ls: seq<Located>)
    ensures forall m :: m in Insert(l, ls) <==> m == l || m in ls
  {
    InsertAdds(l, ls);
    assert forall m :: m in Insert(l, ls) <==> m in multiset(Insert(l, ls));
    assert forall m :: m in ls <==> m in multiset(ls);
  }

  lemma {:induction false} InsertApart(l: Located, ls: seq<Located>)
    ensures AllApart(Insert(l, ls)) <==> AllApart([l] + ls)
  {
    hide AllApart;
    if ls == [] || l.start <= ls[0].start {
    } else {
      var rest := ls[1..];
      assert ls == [ls[0]] + rest;
      InsertApart(l, rest);
      InsertMembers(l, rest);
      ApartFromHead(ls[0], Insert(l, rest));
      ApartFromHead(l, rest);
      ApartFromHead(l, ls);
      ApartFromHead(ls[0], rest);
      assert forall m :: m in ls <==> m == ls[0] || m in rest;
      assert Apart(l, ls[0]) == Apart(ls[0], l);
    }
  }

  lemma {:induction false} SortApart(ls: seq<Located>)
    ensures AllApart(Sort(ls)) <==> AllApart(ls)
  {
    hide AllApart, Insert;
    if ls == [] {
    } else {
      var rest := ls[1..];
      assert ls == [ls[0]] + rest;
      SortApart(rest);
      InsertApart(ls[0], Sort(rest));
      ApartFromHead(ls[0], Sort(rest));
      ApartFromHead(ls[0], rest);
      SortPermutes(rest);
      assert forall m :: m in Sort(rest) <==> m in multiset(Sort(rest));
      assert forall m :: m in rest <==> m in multiset(rest);
    }
  }

  lemma NeighboursDecide(text: Bytes, ls: seq<Located>)
    requires SortedByStart(ls) && forall i :: 0 <= i < |ls| ==> InText(text, ls[i])
    ensures NeighboursApart(ls) <==> AllApart(ls)
  {
    if NeighboursApart(ls) {
      ApartIsDisjoint(text, ls);
    }
  }

  function SizeChange(l: Located): int { |l.added| - (l.end - l.start) }

  lemma GrowthFromHead(l: Located, ls: seq<Located>)
    ensures Growth([l] + ls) == SizeChange(l) + Growth(ls)
  {
    GrowthOfFirst([l] + ls);
    assert ([l] + ls)[1..] == ls;
  }

  lemma {:induction false} InsertGrows(l: Located, ls: seq<Located>)
    ensures Growth(Insert(l, ls)) == SizeChange(l) + Growth(ls)
  {
    hide Growth, SizeChange;
    if ls == [] || l.start <= ls[0].start {
      GrowthFromHead(l, ls);
    } else {
      assert ls == [ls[0]] + ls[1..];
      InsertGrows(l, ls[1..]);
      GrowthFromHead(ls[0], Insert(l, ls[1..]));
      GrowthFromHead(ls[0], ls[1..]);
    }
  }

  lemma {:induction false} SortGrows(ls: seq<Located>)
    ensures Growth(Sort(ls)) == Growth(ls)
  {
    hide SizeChange;
    if ls == [] {
    } else {
      assert ls == [ls[0]] + ls[1..];
      SortGrows(ls[1..]);
      InsertGrows(ls[0], Sort(ls[1..]));
      GrowthFromHead(ls[0], ls[1..]);
    }
  }

  lemma {:induction false} LocatedGrow(data: Bytes, hunks: seq<Hunk>)
    requires LocateAll(data, hunks).Ok?
    ensures Growth(LocateAll(data, hunks).value) == TotalGrowth(hunks)
  {
    hide LocateHunk;
    if hunks == [] {
    } else {
      var n := |hunks| - 1;
      LocatedGrow(data, hunks[..n]);
      LocatedStands(data, hunks[n], n);
    }
  }

  /** Once every hunk is located, the rest of the checks ask for ranges that are
      pairwise apart and for a result that is not too large. */
  lemma LocatedIsAcceptedExactly(data: Bytes, hunks: seq<Hunk>)
    requires LocateAll(data, hunks).Ok? && 0 < |hunks| <= MAX_HUNKS && |data| <= MAX_TEXT && IsText(data)
    ensures PatchText(data, hunks).Ok? <==>
      AllApart(LocateAll(data, hunks).value) && |data| + TotalGrowth(hunks) <= MAX_TEXT
  {
    hide LocateAll, IsText, SinglePass, AllApart, SortedByStart, NeighboursApart, Ranges;
    var located := LocateAll(data, hunks).value;
    LocatedFit(data, hunks);
    SortPermutes(located);
    forall i | 0 <= i < |Sort(located)|
      ensures InText(data, Sort(located)[i])
    {
      assert Sort(located)[i] in multiset(located);
    }
    NeighboursDecide(data, Sort(located));
    SortApart(located);
    SortGrows(located);
    LocatedGrow(data, hunks);
  }

  lemma LocatedAllStand(data: Bytes, hunks: seq<Hunk>) returns (places: seq<nat>)
    requires LocateAll(data, hunks).Ok? && AllApart(LocateAll(data, hunks).value)
    ensures Stand(data, hunks, places)
  {
    hide LocateAll, LocateHunk, Fitting, StandsAt, Apart;
    var located := LocateAll(data, hunks).value;
    LocatedFit(data, hunks);
    forall i | 0 <= i < |hunks|
      ensures located[i].start >= |hunks[i].before|
      ensures Fitting(hunks[i]) && StandsAt(data, hunks[i], located[i].start - |hunks[i].before|)
      ensures located[i] == RangeAt(hunks[i], located[i].start - |hunks[i].before|)
    {
      LocatedStands(data, hunks[i], i);
    }
    places := seq(|hunks|, i requires 0 <= i < |hunks| => located[i].start - |hunks[i].before|);
  }

  /** A patch is accepted exactly if the file is text within the limit, there are
      between 1 and 1000 hunks within their limits, the context of each occurs in one
      place only, the ranges are pairwise apart, and the result is within the limit. */
  lemma PatchIsAcceptedExactly(data: Bytes, hunks: seq<Hunk>)
    ensures PatchText(data, hunks).Ok? <==>
      && 0 < |hunks| <= 1000 && |data| <= 8388608 && IsText(data)
      && |data| + TotalGrowth(hunks) <= 8388608
      && exists places :: Stand(data, hunks, places)
  {
    hide LocateAll, IsText, SinglePass, Stand, Fitting, StandsAt, AllApart, Sort, Ranges;
    if 0 < |hunks| <= MAX_HUNKS && |data| <= MAX_TEXT && IsText(data) {
      if LocateAll(data, hunks).Ok? {
        LocatedIsAcceptedExactly(data, hunks);
      }
      if LocateAll(data, hunks).Ok? && AllApart(LocateAll(data, hunks).value) {
        var places := LocatedAllStand(data, hunks);
      }
      if places :| Stand(data, hunks, places) {
        StandIsLocated(data, hunks, places);
      }
    }
  }

  lemma StandIsLocated(data: Bytes, hunks: seq<Hunk>, places: seq<nat>)
    requires Stand(data, hunks, places)
    ensures LocateAll(data, hunks).Ok? && AllApart(LocateAll(data, hunks).value)
  {
    hide LocateAll, Fitting, StandsAt, Apart, RangeAt;
    StandingAreLocated(data, hunks, places);
  }

  // Refusals ------------------------------------------------------------------------------------

  /** Where the context of the hunk occurs. */
  function Places(data: Bytes, h: Hunk): set<nat> {
    set p: nat | p <= |data| && MatchesAt(data, h.Anchor(), p)
  }

  /** Why a hunk cannot be located, in the order in which it is looked at. */
  ghost predicate RefusesHunk(data: Bytes, h: Hunk, i: nat, e: Refusal) {
    if |h.before| + |h.removed| + |h.after| > 8388608 || |h.added| > 8388608 then e == HunkTooLarge(i)
    else if !IsText(h.added) then e == NewNotText(i)
    else if h.before == [] && h.removed == [] && h.after == [] then e == NoContext(i)
    else if |Places(data, h)| == 0 then e == NotFound(i)
    else |Places(data, h)| > 1 && e == Ambiguous(i, |Places(data, h)|)
  }

  lemma {:induction false} AscendingCount(ms: seq<nat>, places: set<nat>)
    requires Ascending(ms) && forall p: nat :: p in ms <==> p in places
    ensures |ms| == |places|
  {
    if ms == [] {
      assert forall p :: p !in places;
    } else {
      var n := |ms| - 1;
      assert ms == ms[..n] + [ms[n]];
      assert ms[n] !in ms[..n];
      AscendingCount(ms[..n], places - {ms[n]});
    }
  }

  lemma MatchesCount(data: Bytes, h: Hunk)
    requires h.Anchor() != []
    ensures |Matches(data, h.Anchor())| == |Places(data, h)|
  {
    hide Matches;
    MatchesAreAllOccurrences(data, h.Anchor());
    AscendingCount(Matches(data, h.Anchor()), Places(data, h));
  }

  /** The hunk is within its limits and its context occurs in one place only. */
  predicate Locatable(data: Bytes, h: Hunk) { Fitting(h) && |Places(data, h)| == 1 }

  lemma HunkIsRefusedExactly(data: Bytes, h: Hunk, i: nat)
    ensures LocateHunk(data, h, i).Ok? <==> Locatable(data, h)
    ensures LocateHunk(data, h, i).Err? ==> RefusesHunk(data, h, i, LocateHunk(data, h, i).error)
  {
    hide IsText, Matches, Places;
    if h.Anchor() != [] {
      MatchesCount(data, h);
    }
  }

  /** The first hunk that cannot be located, and why. */
  ghost predicate FirstRefused(data: Bytes, hunks: seq<Hunk>, e: Refusal) {
    exists i: nat :: i < |hunks| && RefusedFirst(data, hunks, i, e)
  }

  ghost predicate RefusedFirst(data: Bytes, hunks: seq<Hunk>, i: nat, e: Refusal)
    requires i < |hunks|
  {
    RefusesHunk(data, hunks[i], i, e) && forall k :: 0 <= k < i ==> Locatable(data, hunks[k])
  }

  lemma {:induction false} LocatingIsDecided(data: Bytes, hunks: seq<Hunk>)
    ensures LocateAll(data, hunks).Ok? ==> forall k :: 0 <= k < |hunks| ==> Locatable(data, hunks[k])
    ensures LocateAll(data, hunks).Err? ==> FirstRefused(data, hunks, LocateAll(data, hunks).error)
  {
    hide LocateHunk, RefusesHunk, Locatable;
    if hunks == [] {
    } else {
      var n := |hunks| - 1;
      LocatingIsDecided(data, hunks[..n]);
      HunkIsRefusedExactly(data, hunks[n], n);
      assert forall k :: 0 <= k < n ==> hunks[..n][k] == hunks[k];
      if LocateAll(data, hunks).Err? {
        var e := LocateAll(data, hunks).error;
        if LocateAll(data, hunks[..n]).Err? {
          var i: nat :| i < n && RefusedFirst(data, hunks[..n], i, e);
          assert RefusedFirst(data, hunks, i, e);
        } else {
          assert RefusedFirst(data, hunks, n, e);
        }
      }
    }
  }

  /** Why a patch is refused: the number of hunks, the file, the first hunk that cannot
      be located, ranges that are not apart, or the size of the result, in this order. */
  lemma PatchIsRefusedExactly(data: Bytes, hunks: seq<Hunk>)
    ensures
      var r := PatchText(data, hunks);
      r.Ok? ||
        match r.error
        case NoHunks => |hunks| == 0
        case TooManyHunks => |hunks| > 1000
        case FileTooLarge => 0 < |hunks| <= 1000 && |data| > 8388608
        case NotText => 0 < |hunks| <= 1000 && |data| <= 8388608 && !IsText(data)
        case Overlap =>
          && IsText(data) && (forall k :: 0 <= k < |hunks| ==> Locatable(data, hunks[k]))
          && !exists places :: Stand(data, hunks, places)
        case ResultTooLarge =>
          && IsText(data) && (exists places :: Stand(data, hunks, places))
          && |data| + TotalGrowth(hunks) > 8388608
        case _ => IsText(data) && FirstRefused(data, hunks, r.error)
  {
    hide LocateAll, IsText, SinglePass, Stand, Locatable, FirstRefused, AllApart, Sort, Ranges, Growth;
    if 0 < |hunks| <= MAX_HUNKS && |data| <= MAX_TEXT && IsText(data) {
      LocatingIsDecided(data, hunks);
      PatchIsAcceptedExactly(data, hunks);
      if LocateAll(data, hunks).Ok? {
        SizeOrOverlap(data, hunks);
      } else {
        RefusalIsOfHunk(data, hunks, LocateAll(data, hunks).error);
      }
    }
  }

  lemma RefusalIsOfHunk(data: Bytes, hunks: seq<Hunk>, e: Refusal)
    requires FirstRefused(data, hunks, e)
    ensures e.HunkTooLarge? || e.NewNotText? || e.NoContext? || e.NotFound? || e.Ambiguous?
  {
    hide IsText, Places;
  }

  lemma SizeOrOverlap(data: Bytes, hunks: seq<Hunk>)
    requires LocateAll(data, hunks).Ok? && 0 < |hunks| <= MAX_HUNKS && |data| <= MAX_TEXT && IsText(data)
    ensures PatchText(data, hunks) == Err(Overlap) ==> !exists places :: Stand(data, hunks, places)
    ensures PatchText(data, hunks) == Err(ResultTooLarge) ==>
      && (exists places :: Stand(data, hunks, places)) && |data| + TotalGrowth(hunks) > MAX_TEXT
    ensures
      var r := PatchText(data, hunks);
      r.Ok? || r == Err(Overlap) || r == Err(ResultTooLarge)
  {
    hide LocateAll, IsText, SinglePass, Stand, AllApart, SortedByStart, NeighboursApart, Ranges, Growth;
    var located := LocateAll(data, hunks).value;
    LocatedFit(data, hunks);
    SortPermutes(located);
    forall i | 0 <= i < |Sort(located)|
      ensures InText(data, Sort(located)[i])
    {
      assert Sort(located)[i] in multiset(located);
    }
    NeighboursDecide(data, Sort(located));
    SortApart(located);
    SortGrows(located);
    LocatedGrow(data, hunks);
    if AllApart(located) {
      var places := LocatedAllStand(data, hunks);
    }
    if places :| Stand(data, hunks, places) {
      StandIsLocated(data, hunks, places);
    }
  }
}
