/** Exactly when a patched file is text. Only the characters that the cuts of the
    patch run through matter: what is left of them has to join up again. */
module TextPatchSeams {
  import opened Basics
  import opened Utf8
  import opened TextPatch
  import opened TextPatchTheorems

  /** `pending`, the beginning of a character, is followed by a piece of the file.
      The continuation bytes that the piece begins with must complete it; what the
      piece leaves pending in turn is returned, None if they do not fit. */
  function Seam(pending: Bytes, piece: Bytes): Option<Bytes> {
    var n := Leading(piece);
    var joined := pending + piece[..n];
    if n < |piece| then
      if joined == [] || IsChar(joined) then Some(piece[n..][Complete(piece[n..])..]) else None
    else if IsChar(joined) then Some([])
    else if FullRune(joined) then None
    else Some(joined)
  }

  /** The seams of a patch, from `offset` on: an insertion, and the end of the
      file, must find nothing pending. */
  predicate SeamsHold(text: Bytes, offset: nat, ls: seq<Located>, pending: Bytes)
    requires Ranges(text, offset, ls)
    decreases |ls|
  {
    match Seam(pending, text[offset..if ls == [] then |text| else ls[0].start])
    case None => false
    case Some(left) =>
      if ls == [] then left == []
      else if ls[0].added == [] then SeamsHold(text, ls[0].end, ls[1..], left)
      else left == [] && SeamsHold(text, ls[0].end, ls[1..], [])
  }

  // One seam --------------------------------------------------------------------------

  /** Where a rune starts, text can be split. */
  lemma JoinAtStart(x: Bytes, y: Bytes)
    requires y != [] && RuneStart(y[0])
    ensures Valid(x + y) <==> Valid(x) && Valid(y)
  {
    hide Valid, RuneStart;
    var s := x + y;
    assert s[|x|] == y[0] && s[..|x|] == x;
    if Valid(s) {
      BoundaryIffRuneStart(s, |x|);
      ValidSuffix(x, y);
    } else if Valid(x) && Valid(y) {
      ValidConcat(x, y);
    }
  }

  /** The beginning of a character is not text. */
  lemma PendingShape(p: Bytes)
    requires !FullRune(p) && p != []
    ensures RuneStart(p[0]) && (forall k :: 0 < k < |p| ==> !RuneStart(p[k])) && !Valid(p)
  {
    var rest := NotFullIsCompletable(p);
    var c := p + rest;
    forall k | 0 <= k < |p|
      ensures RuneStart(p[k]) <==> k == 0
    {
      CharShape(c, k);
    }
    assert CharLength(p[0]) == |c| > |p| by {
      CharShape(c, 0);
    }
  }

  lemma CharIsValid(c: Bytes)
    requires IsChar(c)
    ensures Valid(c)
  {
    CharShape(c, 0);
    assert c[..|c|] == c && c[|c|..] == [];
  }

  /** No rune starts after the first byte. */
  ghost predicate OneRuneAtMost(c: Bytes) { forall k :: 0 < k < |c| ==> !RuneStart(c[k]) }

  lemma JoinedIsOneRune(p: Bytes, q: Bytes)
    requires !FullRune(p) && forall k :: 0 <= k < |q| ==> !RuneStart(q[k])
    ensures OneRuneAtMost(p + q)
    ensures p == [] && q != [] ==> !RuneStart((p + q)[0])
  {
    hide FullRune, RuneStart, Valid;
    if p != [] {
      PendingShape(p);
    }
  }

  /** The first character of a text, and that the next one starts after it. */
  lemma FirstChar(s: Bytes) returns (n: nat)
    requires Valid(s) && s != []
    ensures 0 < n <= |s| && IsChar(s[..n]) && (n < |s| ==> RuneStart(s[n]))
  {
    n := CharLength(s[0]);
    if n < |s| {
      ValidStartsWithRune(s[n..]);
    }
  }

  /** Text that begins with one rune begins with a character or a part of one. */
  lemma BeginsWithChar(c: Bytes, z: Bytes)
    requires OneRuneAtMost(c) && c != [] && Valid(c + z)
    ensures IsChar(c) || (!FullRune(c) && z != [])
  {
    hide Valid, IsChar, FullRune, RuneStart;
    assert forall k :: 0 <= k < |c| ==> (c + z)[k] == c[k];
    var n := FirstChar(c + z);
    var first := (c + z)[..n];
    if n == |c| {
      assert first == c;
    } else {
      assert first[..|c|] == c;
      PrefixOfCharIsNotFull(first, |c|);
    }
  }

  /** Text in which no second rune starts is one character. */
  lemma OneRuneIsChar(c: Bytes)
    requires OneRuneAtMost(c) && c != []
    ensures Valid(c) <==> IsChar(c)
  {
    hide IsChar, RuneStart, Valid;
    assert c + [] == c;
    if IsChar(c) {
      CharIsValid(c);
    } else if Valid(c) {
      BeginsWithChar(c, []);
    }
  }

  /** What neither is a character nor can become one does not begin a text. */
  lemma BrokenIsNotText(c: Bytes, z: Bytes)
    requires OneRuneAtMost(c) && FullRune(c) && !IsChar(c)
    ensures !Valid(c + z)
  {
    hide IsChar, FullRune, RuneStart, Valid;
    EmptyIsNotFull();
    if Valid(c + z) {
      BeginsWithChar(c, z);
    }
  }

  lemma CharThenRest(c: Bytes, z: Bytes)
    requires IsChar(c)
    ensures Valid(c + z) <==> Valid(z)
  {
    hide Valid, IsChar;
    CharIsValid(c);
    if Valid(c + z) {
      ValidSuffix(c, z);
    } else if Valid(z) {
      ValidConcat(c, z);
    }
  }

  /** Of a received text only the unfinished end matters for what follows. */
  lemma OnlyTheEndMatters(t: Bytes, z: Bytes)
    requires PrefixOfValid(t)
    ensures Valid(t + z) <==> Valid(t[Complete(t)..] + z)
    ensures !FullRune(t[Complete(t)..])
  {
    hide Valid, PrefixOfValid;
    PrefixShape(t);
    var m := Complete(t);
    var rest := t[m..] + z;
    assert t[..m] + rest == t + z;
    if Valid(t + z) {
      ValidSuffix(t[..m], rest);
    } else if Valid(rest) {
      ValidConcat(t[..m], rest);
    }
    if m == |t| {
      assert t[m..] == [];
      EmptyIsNotFull();
    }
  }

  lemma EmptyIsNotFull()
    ensures !FullRune([])
  {}

  /** A seam is exact: whatever follows, the pending bytes and the piece begin a
      text exactly if the seam holds and what it leaves pending does. */
  lemma SeamIsExact(p: Bytes, piece: Bytes, z: Bytes)
    requires !FullRune(p) && PrefixOfValid(piece[Leading(piece)..])
    ensures Seam(p, piece).Some? ==> !FullRune(Seam(p, piece).value)
    ensures Valid(p + piece + z) <==> Seam(p, piece).Some? && Valid(Seam(p, piece).value + z)
  {
    hide Valid, IsChar, FullRune, PrefixOfValid, RuneStart, Complete, Leading;
    var n := Leading(piece);
    var joined, t := p + piece[..n], piece[n..];
    LeadingIsContinuation(piece);
    JoinedIsOneRune(p, piece[..n]);
    assert p + piece + z == joined + (t + z);
    EmptyIsNotFull();
    if n < |piece| {
      assert (t + z)[0] == piece[n];
      JoinAtStart(joined, t + z);
      OnlyTheEndMatters(t, z);
      JoinedIsText(joined);
    } else {
      assert t + z == z;
      WholePieceJoins(joined, z);
    }
  }

  lemma JoinedIsText(c: Bytes)
    requires OneRuneAtMost(c)
    ensures Valid(c) <==> c == [] || IsChar(c)
  {
    hide IsChar;
    if c != [] {
      OneRuneIsChar(c);
    }
  }

  lemma WholePieceJoins(c: Bytes, z: Bytes)
    requires OneRuneAtMost(c)
    ensures IsChar(c) ==> (Valid(c + z) <==> Valid([] + z))
    ensures !IsChar(c) && FullRune(c) ==> !Valid(c + z)
  {
    hide Valid, IsChar, FullRune;
    assert [] + z == z;
    if IsChar(c) {
      CharThenRest(c, z);
    } else if FullRune(c) {
      BrokenIsNotText(c, z);
    }
  }

  // All seams ---------------------------------------------------------------------------

  predicate Boundary(text: Bytes, i: nat)
    requires i <= |text|
  {
    i == |text| || RuneStart(text[i])
  }

  lemma BeginsText(h: Bytes, rest: Bytes)
    requires Valid(h + rest)
    ensures PrefixOfValid(h)
  {
    hide Valid;
  }

  /** A piece of a text, from where its first rune starts, is the beginning of a text. */
  lemma PieceOfText(text: Bytes, i: nat, j: nat)
    requires Valid(text) && i <= j <= |text|
    ensures PrefixOfValid(text[i..j][Leading(text[i..j])..])
  {
    hide Valid, PrefixOfValid, Leading, RuneStart;
    var piece := text[i..j];
    var n := Leading(piece);
    LeadingIsContinuation(piece);
    if n < |piece| {
      assert piece[n] == text[i + n];
      BoundaryIffRuneStart(text, i + n);
      assert text[..i + n] + text[i + n..] == text;
      ValidSuffix(text[..i + n], text[i + n..]);
      assert piece[n..] + text[j..] == text[i + n..];
      BeginsText(piece[n..], text[j..]);
    } else {
      EmptyIsValid(text);
      assert piece[n..] + [] == text[..0];
      BeginsText(piece[n..], []);
    }
  }

  lemma InsertionSplits(left: Bytes, added: Bytes, rest: Bytes)
    requires !FullRune(left) && Valid(added) && added != []
    ensures Valid(left + (added + rest)) <==> left == [] && Valid(rest)
  {
    hide Valid, FullRune, RuneStart;
    ValidStartsWithRune(added);
    JoinAtStart(left, added + rest);
    if left != [] {
      PendingShape(left);
    } else {
      assert left + (added + rest) == added + rest;
      if Valid(added + rest) {
        ValidSuffix(added, rest);
      } else if Valid(rest) {
        ValidConcat(added, rest);
      }
    }
  }

  /** What the pass writes after pending bytes is text exactly if the seams hold. */
  lemma {:induction false} PassIsTextExactly(text: Bytes, offset: nat, ls: seq<Located>, p: Bytes)
    requires Valid(text) && Ranges(text, offset, ls) && !FullRune(p)
    requires forall i :: 0 <= i < |ls| ==> Valid(ls[i].added)
    ensures Valid(p + SinglePass(text, offset, ls)) <==> SeamsHold(text, offset, ls, p)
    decreases |ls|
  {
    hide Valid, FullRune, Seam, Ranges;
    FirstRange(text, offset, ls);
    if ls == [] {
      assert text[offset..] == text[offset..|text|];
      LastSeam(text, offset, p);
    } else {
      var piece := text[offset..ls[0].start];
      var added, rest := ls[0].added, SinglePass(text, ls[0].end, ls[1..]);
      PieceOfText(text, offset, ls[0].start);
      SeamIsExact(p, piece, added + rest);
      SeqAssociates(piece, added, rest);
      SeqAssociates(p, piece, added + rest);
      if Seam(p, piece).Some? {
        var left := Seam(p, piece).value;
        if added == [] {
          assert added + rest == rest;
          PassIsTextExactly(text, ls[0].end, ls[1..], left);
        } else {
          EmptyIsNotFull();
          InsertionSplits(left, added, rest);
          assert [] + rest == rest;
          PassIsTextExactly(text, ls[0].end, ls[1..], []);
        }
      }
    }
  }

  lemma FirstRange(text: Bytes, offset: nat, ls: seq<Located>)
    requires Ranges(text, offset, ls)
    ensures offset <= |text|
    ensures ls != [] ==> offset <= ls[0].start <= ls[0].end <= |text| && Ranges(text, ls[0].end, ls[1..])
  {}

  lemma LastSeam(text: Bytes, offset: nat, p: Bytes)
    requires Valid(text) && offset <= |text| && !FullRune(p)
    ensures Valid(p + text[offset..]) <==> Seam(p, text[offset..]) == Some([])
  {
    hide Valid, FullRune, Seam;
    var piece := text[offset..];
    assert piece == text[offset..|text|];
    PieceOfText(text, offset, |text|);
    SeamIsExact(p, piece, []);
    assert p + piece + [] == p + piece;
    if Seam(p, piece).Some? {
      var left := Seam(p, piece).value;
      assert left + [] == left;
      if left == [] {
        EmptyIsValid(text);
        assert left == text[..0];
      } else {
        PendingShape(left);
      }
    }
  }

  // Patches -----------------------------------------------------------------------------

  lemma {:induction false} PassHasNoNul(text: Bytes, offset: nat, ls: seq<Located>)
    requires 0 !in text && Ranges(text, offset, ls) && forall i :: 0 <= i < |ls| ==> 0 !in ls[i].added
    ensures 0 !in SinglePass(text, offset, ls)
    decreases |ls|
  {
    if ls == [] {
      assert forall x: Byte :: x in text[offset..] ==> x in text;
    } else {
      PassHasNoNul(text, ls[0].end, ls[1..]);
    }
  }

  /** A patched file is text exactly if the seams of the patch hold: whatever the
      context of the hunks was, nothing but the characters that the cuts run
      through has to be looked at. */
  lemma PatchedIsTextExactly(data: Bytes, hunks: seq<Hunk>)
    requires PatchText(data, hunks).Ok?
    ensures
      var located := LocateAll(data, hunks);
      && located.Ok? && Ranges(data, 0, Sort(located.value))
      && (IsText(PatchText(data, hunks).value) <==> SeamsHold(data, 0, Sort(located.value), []))
  {
    hide PatchText, LocateAll, SeamsHold, Valid, Ranges, SinglePass;
    var sorted := AcceptedRanges(data, hunks);
    EmptyIsNotFull();
    PassIsTextExactly(data, 0, sorted, []);
    PassHasNoNul(data, 0, sorted);
    assert [] + SinglePass(data, 0, sorted) == SinglePass(data, 0, sorted);
  }

  // Insertions only -----------------------------------------------------------------------

  /** A piece that stays between two insertions is empty or cut at rune starts. */
  predicate CleanCut(text: Bytes, i: nat, j: nat)
    requires i <= j <= |text|
  {
    i == j || (Boundary(text, i) && Boundary(text, j))
  }

  predicate CleanCuts(text: Bytes, offset: nat, ls: seq<Located>)
    requires Ranges(text, offset, ls)
    decreases |ls|
  {
    if ls == [] then CleanCut(text, offset, |text|)
    else CleanCut(text, offset, ls[0].start) && CleanCuts(text, ls[0].end, ls[1..])
  }

  /** A piece of a text is text exactly if it is cut cleanly. */
  lemma PieceIsText(text: Bytes, i: nat, j: nat)
    requires Valid(text) && i <= j <= |text|
    ensures Valid(text[i..j]) <==> CleanCut(text, i, j)
  {
    hide Valid, RuneStart;
    var piece := text[i..j];
    if i == j {
      EmptyIsValid(text);
      assert piece == text[..0];
    } else if RuneStart(text[i]) {
      BoundaryIffRuneStart(text, i);
      assert text[..i] + piece == text[..j];
      assert text[..|text|] == text;
      if j < |text| {
        BoundaryIffRuneStart(text, j);
      }
      if Valid(piece) {
        ValidConcat(text[..i], piece);
      } else if Valid(text[..j]) {
        ValidSuffix(text[..i], piece);
      }
    } else if Valid(piece) {
      ValidStartsWithRune(piece);
    }
  }

  lemma CleanPieceJoins(text: Bytes, i: nat, j: nat, added: Bytes, rest: Bytes)
    requires Valid(text) && i <= j <= |text| && Valid(added) && added != []
    ensures Valid(text[i..j] + added + rest) <==> CleanCut(text, i, j) && Valid(rest)
  {
    hide Valid, RuneStart, CleanCut;
    var piece := text[i..j];
    PieceIsText(text, i, j);
    ValidStartsWithRune(added);
    SeqAssociates(piece, added, rest);
    JoinAtStart(piece, added + rest);
    if Valid(added + rest) {
      ValidSuffix(added, rest);
    } else if Valid(rest) {
      ValidConcat(added, rest);
    }
  }

  lemma {:induction false} InsertingPass(text: Bytes, offset: nat, ls: seq<Located>)
    requires Valid(text) && Ranges(text, offset, ls)
    requires forall i :: 0 <= i < |ls| ==> Valid(ls[i].added) && ls[i].added != []
    ensures Valid(SinglePass(text, offset, ls)) <==> CleanCuts(text, offset, ls)
    decreases |ls|
  {
    hide Valid, CleanCut, Ranges;
    FirstRange(text, offset, ls);
    if ls == [] {
      assert text[offset..] == text[offset..|text|];
      PieceIsText(text, offset, |text|);
    } else {
      InsertingPass(text, ls[0].end, ls[1..]);
      CleanPieceJoins(text, offset, ls[0].start, ls[0].added, SinglePass(text, ls[0].end, ls[1..]));
    }
  }

  /** If every hunk puts something in, the result is text exactly if every piece
      of the file that stays is cut at rune starts. */
  lemma InsertionsCutCleanlyExactly(data: Bytes, hunks: seq<Hunk>)
    requires PatchText(data, hunks).Ok? && forall i :: 0 <= i < |hunks| ==> hunks[i].added != []
    ensures
      var located := LocateAll(data, hunks);
      && located.Ok? && Ranges(data, 0, Sort(located.value))
      && (IsText(PatchText(data, hunks).value) <==> CleanCuts(data, 0, Sort(located.value)))
  {
    hide PatchText, LocateAll, CleanCuts, Valid, Ranges, SinglePass, LocateHunk;
    var sorted := AcceptedRanges(data, hunks);
    SortedInsert(data, hunks, sorted);
    InsertingPass(data, 0, sorted);
    PassHasNoNul(data, 0, sorted);
  }

  lemma SortedInsert(data: Bytes, hunks: seq<Hunk>, sorted: seq<Located>)
    requires LocateAll(data, hunks).Ok? && sorted == Sort(LocateAll(data, hunks).value)
    requires forall i :: 0 <= i < |hunks| ==> hunks[i].added != []
    ensures forall i :: 0 <= i < |sorted| ==> sorted[i].added != []
  {
    hide LocateHunk;
    var located := LocateAll(data, hunks).value;
    LocatedFit(data, hunks);
    SortPermutes(located);
    forall i | 0 <= i < |sorted|
      ensures sorted[i].added != []
    {
      assert sorted[i] in multiset(located);
      var k :| 0 <= k < |located| && located[k] == sorted[i];
      KeepsAdded(data, hunks[k], k);
    }
  }

  lemma KeepsAdded(text: Bytes, h: Hunk, i: nat)
    requires LocateHunk(text, h, i).Ok?
    ensures LocateHunk(text, h, i).value.added == h.added
  {}

  // One deletion -------------------------------------------------------------------------------

  /** The part before position `i` of the character that runs over it. */
  function HalfBefore(text: Bytes, i: nat): Bytes
    requires i <= |text|
  {
    text[..i][Complete(text[..i])..]
  }

  /** The part from position `i` on of the character that runs over it. */
  function HalfAfter(text: Bytes, i: nat): Bytes
    requires i <= |text|
  {
    text[i..][..Leading(text[i..])]
  }

  lemma NoNulLeft(data: Bytes, l: Located)
    requires 0 !in data && InText(data, l) && l.added == []
    ensures 0 !in Replace(data, l)
  {}

  lemma DeletedText(data: Bytes, l: Located)
    requires Valid(data) && InText(data, l) && l.added == []
    ensures
      var halves := HalfBefore(data, l.start) + HalfAfter(data, l.end);
      Valid(Replace(data, l)) <==> halves == [] || IsChar(halves)
  {
    hide Valid, IsChar, FullRune, RuneStart, Complete, Leading, PrefixOfValid;
    var head, tail := data[..l.start], data[l.end..];
    var half := HalfBefore(data, l.start);
    var n := Leading(tail);
    assert Replace(data, l) == head + tail;
    assert head + data[l.start..] == data;
    HeadIsReceived(data, l.start);
    OnlyTheEndMatters(head, tail);
    LeadingIsContinuation(tail);
    JoinedIsOneRune(half, tail[..n]);
    JoinedIsText(half + tail[..n]);
    assert half + tail == (half + tail[..n]) + tail[n..];
    if n < |tail| {
      JoinAtStart(half + tail[..n], tail[n..]);
      RestIsText(data, l.end + n);
      assert tail[n..] == data[l.end + n..];
    } else {
      assert half + tail == half + tail[..n];
    }
  }

  lemma HeadIsReceived(text: Bytes, i: nat)
    requires Valid(text) && i <= |text|
    ensures PrefixOfValid(text[..i])
  {
    hide Valid;
    assert text[..i] + text[i..] == text;
  }

  lemma RestIsText(text: Bytes, i: nat)
    requires Valid(text) && i < |text| && RuneStart(text[i])
    ensures Valid(text[i..])
  {
    hide Valid, RuneStart;
    BoundaryIffRuneStart(text, i);
    assert text[..i] + text[i..] == text;
    ValidSuffix(text[..i], text[i..]);
  }

  /** The halves are empty exactly if the cut lies between two characters. */
  lemma HalvesAreCuts(text: Bytes, i: nat)
    requires Valid(text) && i <= |text|
    ensures HalfBefore(text, i) == [] <==> Boundary(text, i)
    ensures HalfAfter(text, i) == [] <==> Boundary(text, i)
  {
    hide Valid, PrefixOfValid, FullRune, RuneStart, Complete;
    var head := text[..i];
    HeadIsReceived(text, i);
    PrefixShape(head);
    assert head[..|head|] == head;
    assert i == |text| ==> head == text;
    if i < |text| {
      BoundaryIffRuneStart(text, i);
    }
  }

  /** A deletion leaves text exactly if it begins and ends between characters, or
      what it leaves of the characters that it cuts makes one. */
  lemma DeletionJoinsExactly(data: Bytes, h: Hunk)
    requires PatchText(data, [h]).Ok? && h.added == []
    ensures
      var l := LocateHunk(data, h, 0);
      && l.Ok? && InText(data, l.value)
      && var halves := HalfBefore(data, l.value.start) + HalfAfter(data, l.value.end);
         IsText(PatchText(data, [h]).value) <==>
           (Boundary(data, l.value.start) && Boundary(data, l.value.end)) || IsChar(halves)
  {
    hide PatchText, LocateHunk, Valid, IsChar, Boundary, HalfBefore, HalfAfter;
    OneHunkPass(data, h);
    KeepsAdded(data, h, 0);
    var l := LocateHunk(data, h, 0).value;
    var sorted := AcceptedRanges(data, [h]);
    DeletedText(data, l);
    HalvesAreCuts(data, l.start);
    HalvesAreCuts(data, l.end);
    NoNulLeft(data, l);
  }
}
