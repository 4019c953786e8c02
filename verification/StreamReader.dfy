/** What a reader of the bounded buffer sees of a UTF-8 stream. */
module StreamReader {
  import opened Basics
  import opened Utf8
  import opened StreamBuffer

  /** Where retention begins. */
  function Head(history: seq<Byte>, limit: nat): nat { |history| - |Tail(history, limit)| }

  // The searches, characterised --------------------------------------------------------

  lemma {:induction false} PastStraddlingIs(data: seq<Byte>, from: nat, index: nat, p: nat)
    requires from <= p < index <= |data| && Straddles(data, p, index)
    requires forall q :: from <= q < p ==> !Straddles(data, q, index)
    ensures PastStraddling(data, from, index) == p + DecodeWidth(data[p..])
    decreases index - from
  {
    if from == p {
    } else {
      PastStraddlingIs(data, from + 1, index, p);
    }
  }

  lemma {:induction false} PastStraddlingStays(data: seq<Byte>, from: nat, index: nat)
    requires from <= index <= |data|
    ensures PastStraddling(data, from, index) == index
      <==> forall q :: from <= q < index ==> !Straddles(data, q, index)
    decreases index - from
  {
    if from == index || Straddles(data, from, index) {
    } else {
      PastStraddlingStays(data, from + 1, index);
    }
  }

  lemma {:induction false} UnfinishedIs(data: seq<Byte>, from: nat, n: nat)
    requires from <= n <= |data|
    requires forall q :: from <= q < n ==> !(RuneStart(data[q]) && !FullRune(data[q..]))
    requires n < |data| ==> RuneStart(data[n]) && !FullRune(data[n..])
    ensures Unfinished(data, from) == n
    decreases n - from
  {
    if from == n {
    } else {
      UnfinishedIs(data, from + 1, n);
    }
  }

  // Arbitrary bytes ---------------------------------------------------------------------

  lemma ReadIsSpan(history: seq<Byte>, limit: nat, cursor: nat, complete: bool)
    requires cursor <= |history|
    ensures
      var r := Reads(history, limit, cursor, complete);
      var span := ReadSpan(history, limit, cursor, complete);
      && r.Output? && r.start == span.start && r.next == span.next
      && r.value == history[r.start..r.next] && (r.truncated <==> cursor < r.start)
  {
    hide ReadSpan;
  }

  /** A read is refused exactly for a cursor that is negative or exceeds what was
      produced. */
  lemma ReadsAreRefusedExactly(history: seq<Byte>, limit: nat, cursor: int, complete: bool)
    ensures Reads(history, limit, cursor, complete).Negative? <==> cursor < 0
    ensures Reads(history, limit, cursor, complete).TooFar? <==> cursor > |history|
  {
    hide ReadSpan;
  }

  /** The first character that runs over the index, begun at most three bytes before. */
  ghost predicate FirstOver(data: seq<Byte>, p: nat, index: nat) {
    LastThree(index) <= p < index && Straddles(data, p, index)
    && forall q :: LastThree(index) <= q < p ==> !Straddles(data, q, index)
  }

  lemma StartIndexExactly(data: seq<Byte>, evicted: bool, index: nat)
    requires index <= |data|
    ensures
      var n := StartIndex(data, evicted, index);
      if index == |data| || RuneStart(data[index]) then n == index
      else if evicted && forall k :: 0 <= k <= index ==> !RuneStart(data[k])
      then (forall k :: 0 <= k < n ==> !RuneStart(data[k])) && (n < |data| ==> RuneStart(data[n]))
      else
        && (forall p: nat :: FirstOver(data, p, index) ==> n == p + DecodeWidth(data[p..]))
        && ((forall p :: LastThree(index) <= p < index ==> !Straddles(data, p, index)) ==> n == index)
  {
    hide Straddles, RuneStart, PastStraddling, Leading;
    LeadingIsContinuation(data);
    PastStraddlingStays(data, LastThree(index), index);
    forall p: nat | FirstOver(data, p, index)
      ensures PastStraddling(data, LastThree(index), index) == p + DecodeWidth(data[p..])
    {
      PastStraddlingIs(data, LastThree(index), index, p);
    }
  }

  /** Where a read begins, for any bytes: at the cursor, or where retention begins when
      that is later; but past the remains of a character whose start is not retained,
      and past a character that the cursor points into. */
  lemma ReadStartsExactly(history: seq<Byte>, limit: nat, cursor: nat, complete: bool)
    requires cursor <= |history|
    ensures
      var r := Reads(history, limit, cursor, complete);
      var head := Max(0, |history| - limit);
      var data := history[head..];
      var index := Max(cursor, head) - head;
      && r.Output? && r.value == history[r.start..r.next] && (r.truncated <==> cursor < r.start)
      && head <= r.start
      && var n := r.start - head;
         if index == |data| || RuneStart(data[index]) then n == index
         else if head > 0 && forall k :: 0 <= k <= index ==> !RuneStart(data[k])
         then (forall k :: 0 <= k < n ==> !RuneStart(data[k])) && (n < |data| ==> RuneStart(data[n]))
         else
           && (forall p: nat :: FirstOver(data, p, index) ==> n == p + DecodeWidth(data[p..]))
           && ((forall p :: LastThree(index) <= p < index ==> !Straddles(data, p, index)) ==> n == index)
  {
    hide Reads, Straddles, RuneStart, StartIndex, EndIndex, FirstOver;
    var head := Max(0, |history| - limit);
    assert Tail(history, limit) == history[head..];
    ReadIsSpan(history, limit, cursor, complete);
    StartIndexExactly(history[head..], head > 0, Max(cursor, head) - head);
  }

  /** A rune begins here that the data does not complete. */
  predicate Begun(data: seq<Byte>, q: nat) { q < |data| && RuneStart(data[q]) && !FullRune(data[q..]) }

  /** Where the first such rune among the last three bytes begins, or the end. */
  ghost predicate FirstBegun(data: seq<Byte>, n: nat) {
    && LastThree(|data|) <= n <= |data| && (n < |data| ==> Begun(data, n))
    && forall q: nat :: LastThree(|data|) <= q < n ==> !Begun(data, q)
  }

  lemma {:induction false} UnfinishedExactly(data: seq<Byte>, from: nat)
    requires from <= |data|
    ensures
      var n := Unfinished(data, from);
      && (forall q :: from <= q < n ==> !Begun(data, q)) && (n < |data| ==> Begun(data, n))
    decreases |data| - from
  {
    hide RuneStart, FullRune;
    if from == |data| || Begun(data, from) {
    } else {
      UnfinishedExactly(data, from + 1);
    }
  }

  /** Where a read ends, for any bytes: at the end, but a read of a running process
      stops before the first rune that the last three bytes begin and do not complete. */
  lemma ReadEndsExactly(history: seq<Byte>, limit: nat, cursor: nat, complete: bool)
    requires cursor <= |history|
    ensures
      var r := Reads(history, limit, cursor, complete);
      var head := Max(0, |history| - limit);
      var data := history[head..];
      && r.Output?
      && exists n: nat :: FirstBegun(data, n) && r.next == if complete then |history| else Max(r.start, head + n)
  {
    hide Reads, Begun, StartIndex, Unfinished;
    var head := Max(0, |history| - limit);
    var data := history[head..];
    assert Tail(history, limit) == data;
    ReadIsSpan(history, limit, cursor, complete);
    UnfinishedExactly(data, LastThree(|data|));
    assert FirstBegun(data, Unfinished(data, LastThree(|data|)));
  }

  // Streams of valid text ------------------------------------------------------------------

  /** The text past its first character is received too. */
  lemma PastFirstChar(h: seq<Byte>)
    requires PrefixOfValid(h) && StartsWithChar(h)
    ensures PrefixOfValid(h[CharLength(h[0])..])
  {
    var n := CharLength(h[0]);
    var rest :| Valid(h + rest);
    assert (h + rest)[n..] == h[n..] + rest;
  }

  /** A character `h[c..c + n]` between two boundaries. */
  ghost predicate CharAt(h: seq<Byte>, c: nat, n: nat) {
    c + n <= |h| && IsChar(h[c..c + n]) && Valid(h[..c]) && Valid(h[..c + n])
  }

  lemma FirstCharAt(h: seq<Byte>)
    requires StartsWithChar(h)
    ensures CharAt(h, 0, CharLength(h[0]))
  {
    var n := CharLength(h[0]);
    assert h[0..n] == h[..n] && h[..n][n..] == [];
  }

  lemma LaterCharAt(h: seq<Byte>, c: nat, n: nat)
    requires StartsWithChar(h) && CharAt(h[CharLength(h[0])..], c, n)
    ensures CharAt(h, CharLength(h[0]) + c, n)
  {
    hide Valid, IsChar, CharLength;
    var m := CharLength(h[0]);
    CharThenPrefix(h, m, 0);
    assert h[m..] == h[m..m + |h[m..]|];
    SliceOfSlice(h, m, |h[m..]|, c, c + n);
  }

  /** The character that covers a continuation byte. */
  lemma {:induction false} CharAround(h: seq<Byte>, i: nat) returns (c: nat, n: nat)
    requires PrefixOfValid(h) && i < Complete(h) && !RuneStart(h[i])
    ensures c < i < c + n <= Complete(h) && n <= 4 && CharAt(h, c, n)
    decreases |h|
  {
    var m := CharLength(h[0]);
    if i < m {
      c, n := 0, m;
      CharShape(h[..m], 0);
      FirstCharAt(h);
    } else {
      PastFirstChar(h);
      c, n := CharAround(h[m..], i - m);
      LaterCharAt(h, c, n);
      c := m + c;
    }
  }

  /** Where a character stands, bytes continue it, and a boundary follows. */
  lemma InsideChar(h: seq<Byte>, c: nat, n: nat)
    requires PrefixOfValid(h) && CharAt(h, c, n)
    ensures RuneStart(h[c]) && forall k :: c < k < c + n ==> !RuneStart(h[k]) && !Valid(h[..k])
    ensures c + n < |h| ==> RuneStart(h[c + n])
    ensures DecodeWidth(h[c..]) == n
  {
    hide Valid, RuneStart, DecodeWidth;
    forall k | c <= k < c + n
      ensures RuneStart(h[k]) <==> k == c
    {
      CharShape(h[c..c + n], k - c);
      assert h[k] == h[c..c + n][k - c];
    }
    forall k | c < k < c + n
      ensures !Valid(h[..k])
    {
      PrefixBoundary(h, k);
    }
    if c + n < |h| {
      PrefixBoundary(h, c + n);
    }
    assert h[c..][..n] == h[c..c + n];
    DecodesChar(h[c..], n);
  }

  lemma DecodesChar(p: seq<Byte>, n: nat)
    requires n <= |p| && IsChar(p[..n])
    ensures DecodeWidth(p) == n
  {}

  /** DecodeRune sees no character across the start of another. */
  lemma NoStraddlingAcrossStart(data: seq<Byte>, q: nat, s: nat, index: nat)
    requires q < s < index <= |data| && RuneStart(data[s])
    ensures !Straddles(data, q, index)
  {
    var w := DecodeWidth(data[q..]);
    DecodeWidthIsChar(data[q..]);
    if w > 1 && s < q + w {
      CharShape(data[q..][..w], s - q);
    }
  }

  /** From inside a retained character, a read begins after it. */
  lemma AlignsPastRetained(data: seq<Byte>, evicted: bool, index: nat, s: nat, n: nat)
    requires s < index < s + n <= |data| && n <= 4 && !RuneStart(data[index]) && RuneStart(data[s])
    requires DecodeWidth(data[s..]) == n
    ensures StartIndex(data, evicted, index) == s + n
  {
    LeadingIsContinuation(data);
    forall q | LastThree(index) <= q < s
      ensures !Straddles(data, q, index)
    {
      NoStraddlingAcrossStart(data, q, s, index);
    }
    PastStraddlingIs(data, LastThree(index), index, s);
  }

  /** From inside a character whose start is gone, a read begins after it. */
  lemma AlignsPastEvicted(data: seq<Byte>, index: nat, n: nat)
    requires index < n <= |data|
    requires (forall k :: 0 <= k < n ==> !RuneStart(data[k])) && (n < |data| ==> RuneStart(data[n]))
    ensures StartIndex(data, true, index) == n
  {
    LeadingIs(data, n);
  }

  /** What `InsideChar` says of the text, said of the data retained of it. */
  lemma RetainedChar(h: seq<Byte>, data: seq<Byte>, head: nat, c: nat, n: nat)
    requires head <= c <= |h| && data == h[head..] && PrefixOfValid(h) && CharAt(h, c, n)
    ensures c + n - head <= |data| && RuneStart(data[c - head]) && DecodeWidth(data[c - head..]) == n
    ensures forall k :: c - head < k < c + n - head ==> !RuneStart(data[k])
  {
    InsideChar(h, c, n);
    assert data[c - head..] == h[c..];
    forall k | c - head <= k < c + n - head
      ensures data[k] == h[head + k]
    {}
  }

  lemma EvictedChar(h: seq<Byte>, data: seq<Byte>, head: nat, c: nat, n: nat)
    requires c < head <= c + n <= |h| && data == h[head..] && PrefixOfValid(h) && CharAt(h, c, n)
    ensures c + n - head <= |data|
    ensures forall k :: 0 <= k < c + n - head ==> !RuneStart(data[k])
    ensures c + n - head < |data| ==> RuneStart(data[c + n - head])
  {
    InsideChar(h, c, n);
    forall k | 0 <= k < |data|
      ensures data[k] == h[head + k]
    {}
  }

  /** From inside a character of a received text, a read begins after it. */
  lemma AlignsPastChar(h: seq<Byte>, data: seq<Byte>, head: nat, i: nat, c: nat, n: nat)
    requires head <= |h| && data == h[head..] && PrefixOfValid(h) && CharAt(h, c, n) && n <= 4
    requires head <= i && c < i < c + n
    ensures StartIndex(data, head > 0, i - head) == c + n - head
  {
    hide StartIndex, Valid, DecodeWidth, PrefixOfValid, IsChar, RuneStart;
    if c >= head {
      RetainedChar(h, data, head, c, n);
      AlignsPastRetained(data, head > 0, i - head, c - head, n);
    } else {
      EvictedChar(h, data, head, c, n);
      AlignsPastEvicted(data, i - head, c + n - head);
    }
  }

  /** `b` is the first boundary not before `i`. */
  ghost predicate FirstBoundary(h: seq<Byte>, i: nat, b: nat) {
    i <= b <= |h| && Valid(h[..b]) && forall k :: i <= k < b ==> !Valid(h[..k])
  }

  lemma AlignsAtStart(data: seq<Byte>, evicted: bool, index: nat)
    requires index <= |data| && (index < |data| ==> RuneStart(data[index]))
    ensures StartIndex(data, evicted, index) == index
  {}

  lemma BoundaryFromStart(h: seq<Byte>, i: nat)
    requires PrefixOfValid(h) && i <= Complete(h) && (i == Complete(h) || RuneStart(h[i]))
    ensures FirstBoundary(h, i, i) && (i < |h| ==> RuneStart(h[i]))
  {
    PrefixShape(h);
    if i < |h| {
      PrefixBoundary(h, i);
    }
  }

  lemma BoundaryAfterChar(h: seq<Byte>, i: nat, c: nat, n: nat)
    requires PrefixOfValid(h) && CharAt(h, c, n) && c < i < c + n
    ensures FirstBoundary(h, i, c + n)
  {
    InsideChar(h, c, n);
  }

  lemma AlignsOnStart(h: seq<Byte>, data: seq<Byte>, head: nat, i: nat)
    requires head <= |h| && data == h[head..] && PrefixOfValid(h) && head <= i <= Complete(h)
    requires i == Complete(h) || RuneStart(h[i])
    ensures FirstBoundary(h, i, i) && StartIndex(data, head > 0, i - head) == i - head
  {
    hide StartIndex, Valid, Complete, PrefixOfValid, RuneStart;
    BoundaryFromStart(h, i);
    assert i < |h| ==> data[i - head] == h[i];
    AlignsAtStart(data, head > 0, i - head);
  }

  lemma AlignsInside(h: seq<Byte>, data: seq<Byte>, head: nat, i: nat) returns (b: nat)
    requires head <= |h| && data == h[head..] && PrefixOfValid(h) && head <= i < Complete(h) && !RuneStart(h[i])
    ensures FirstBoundary(h, i, b) && b == head + StartIndex(data, head > 0, i - head)
  {
    var c, n := CharAround(h, i);
    b := c + n;
    assert StartIndex(data, head > 0, i - head) == b - head by {
      AlignsPastChar(h, data, head, i, c, n);
    }
    BoundaryAfterChar(h, i, c, n);
  }

  lemma AlignsOnBoundary(h: seq<Byte>, data: seq<Byte>, head: nat, i: nat) returns (b: nat)
    requires head <= |h| && data == h[head..] && PrefixOfValid(h) && head <= i <= Complete(h)
    ensures FirstBoundary(h, i, b) && b == head + StartIndex(data, head > 0, i - head)
  {
    if i == Complete(h) || RuneStart(h[i]) {
      AlignsOnStart(h, data, head, i);
      b := i;
    } else {
      b := AlignsInside(h, data, head, i);
    }
  }

  lemma TailIsSuffix(h: seq<Byte>, limit: nat)
    ensures Tail(h, limit) == h[Head(h, limit)..]
  {}

  lemma ReadStartIs(h: seq<Byte>, limit: nat, cursor: nat, complete: bool)
    requires cursor <= |h|
    ensures
      var head := Head(h, limit);
      ReadSpan(h, limit, cursor, complete).start
        == head + StartIndex(Tail(h, limit), head > 0, Max(cursor, head) - head)
  {
    hide StartIndex, EndIndex, Tail;
  }

  /** A read of a received text begins at the first character boundary that is
      neither before the cursor nor before what is retained. */
  lemma ReadStartsOnBoundary(h: seq<Byte>, limit: nat, cursor: nat, complete: bool)
    requires PrefixOfValid(h) && cursor <= |h| && Max(cursor, Head(h, limit)) <= Complete(h)
    ensures FirstBoundary(h, Max(cursor, Head(h, limit)), ReadSpan(h, limit, cursor, complete).start)
  {
    hide ReadSpan, StartIndex, Valid, Complete, PrefixOfValid, Tail;
    TailIsSuffix(h, limit);
    var data, head := Tail(h, limit), Head(h, limit);
    var b := AlignsOnBoundary(h, data, head, Max(cursor, head));
    ReadStartIs(h, limit, cursor, complete);
    assert ReadSpan(h, limit, cursor, complete).start == b;
  }

  /** A boundary before the unfinished end is followed by a character. */
  lemma BoundaryStartsChar(h: seq<Byte>, b: nat)
    requires PrefixOfValid(h) && b < Complete(h) && Valid(h[..b])
    ensures FullRune(h[b..])
  {
    PrefixShape(h);
    var m := Complete(h);
    assert h[..b] + h[b..m] == h[..m];
    ValidSuffix(h[..b], h[b..m]);
    assert h[b..m][0] == h[b..][0];
  }

  /** Before the unfinished end, no rune that starts is unfinished. */
  lemma NoneUnfinishedBefore(h: seq<Byte>, i: nat)
    requires PrefixOfValid(h) && i < Complete(h)
    ensures !(RuneStart(h[i]) && !FullRune(h[i..]))
  {
    hide Valid, Complete, PrefixOfValid, FullRune, RuneStart;
    PrefixBoundary(h, i);
    if RuneStart(h[i]) {
      BoundaryStartsChar(h, i);
    }
  }

  lemma SuffixFrom(h: seq<Byte>, head: nat, q: nat)
    requires head + q <= |h|
    ensures h[head..][q..] == h[head + q..] && (head + q < |h| ==> h[head..][q] == h[head + q])
  {}

  lemma NoneUnfinishedInTail(h: seq<Byte>, head: nat, q: nat)
    requires PrefixOfValid(h) && head + q < Complete(h)
    ensures !(RuneStart(h[head..][q]) && !FullRune(h[head..][q..]))
  {
    hide Valid, Complete, PrefixOfValid, FullRune, RuneStart;
    NoneUnfinishedBefore(h, head + q);
    SuffixFrom(h, head, q);
  }

  /** What is left after the last complete character begins a rune and does not end it. */
  lemma RestIsUnfinished(h: seq<Byte>, head: nat)
    requires PrefixOfValid(h) && head <= Complete(h)
    ensures
      var n := Complete(h) - head;
      && LastThree(|h| - head) <= n <= |h| - head
      && (n < |h| - head ==> RuneStart(h[head..][n]) && !FullRune(h[head..][n..]))
  {
    hide Valid, Complete, PrefixOfValid, FullRune, RuneStart;
    PrefixShape(h);
    SuffixFrom(h, head, Complete(h) - head);
  }

  lemma UnfinishedIsComplete(h: seq<Byte>, data: seq<Byte>, head: nat)
    requires head <= |h| && data == h[head..] && PrefixOfValid(h) && head <= Complete(h)
    ensures Unfinished(data, LastThree(|data|)) == Complete(h) - head
  {
    hide *;
    var n := Complete(h) - head;
    RestIsUnfinished(h, head);
    forall q: nat | LastThree(|data|) <= q < n
      ensures !(RuneStart(data[q]) && !FullRune(data[q..]))
    {
      NoneUnfinishedInTail(h, head, q);
    }
    UnfinishedIs(data, LastThree(|data|), n);
  }

  /** While the process runs, a read of a received text ends with its last
      complete character. */
  lemma RunningReadEndsOnBoundary(h: seq<Byte>, limit: nat, cursor: nat)
    requires PrefixOfValid(h) && cursor <= |h| && Max(cursor, Head(h, limit)) <= Complete(h)
    ensures ReadSpan(h, limit, cursor, false).next == Complete(h)
  {
    TailIsSuffix(h, limit);
    UnfinishedIsComplete(h, Tail(h, limit), Head(h, limit));
    ReadStartsOnBoundary(h, limit, cursor, false);
    PrefixShape(h);
  }

  // A reader that follows the stream ------------------------------------------------------

  datatype Step = Write(bytes: seq<Byte>) | Poll

  /** A reader that starts at 0 and always passes the last cursor it received.
      `lossless`: no read so far was reported truncated. */
  datatype Session = Session(history: seq<Byte>, cursor: nat, got: seq<Byte>, lossless: bool)

  function Play(limit: nat, steps: seq<Step>): (s: Session)
    ensures s.cursor <= |s.history|
  {
    if steps == [] then Session([], 0, [], true)
    else
      var s := Play(limit, steps[..|steps| - 1]);
      match steps[|steps| - 1]
      case Write(bytes) => s.(history := s.history + bytes)
      case Poll =>
        match Reads(s.history, limit, s.cursor, false)
        case Output(value, _, next, truncated) => Session(s.history, next, s.got + value, s.lossless && !truncated)
        case _ => s
  }

  /** Retention reaches the last complete character of a received text. */
  lemma RetainsComplete(h: seq<Byte>, limit: nat)
    requires PrefixOfValid(h) && limit >= 3
    ensures Head(h, limit) <= Complete(h)
  {
    PrefixShape(h);
  }

  lemma BoundaryIsComplete(h: seq<Byte>, b: nat)
    requires PrefixOfValid(h) && b <= |h| && Valid(h[..b])
    ensures b <= Complete(h)
  {
    PrefixShape(h);
  }

  /** A read from a boundary of a received text: it ends on one, and begins at
      the cursor unless retention has passed it. */
  lemma BoundaryRead(h: seq<Byte>, limit: nat, cursor: nat, complete: bool)
    requires PrefixOfValid(h) && limit >= 3 && cursor <= |h| && Valid(h[..cursor])
    ensures
      var r := ReadSpan(h, limit, cursor, complete);
      && FirstBoundary(h, Max(cursor, Head(h, limit)), r.start)
      && (cursor < r.start <==> cursor < Head(h, limit))
      && (!complete ==> r.next == Complete(h) && Valid(h[..r.next]))
  {
    RetainsComplete(h, limit);
    BoundaryIsComplete(h, cursor);
    ReadStartsOnBoundary(h, limit, cursor, complete);
    RunningReadEndsOnBoundary(h, limit, cursor);
    PrefixShape(h);
  }

  ghost predicate SessionInv(s: Session) {
    && s.cursor <= |s.history| && Valid(s.history[..s.cursor])
    && (s.lossless ==> s.got == s.history[..s.cursor])
  }

  lemma SlicesJoin(h: seq<Byte>, a: nat, b: nat)
    requires a <= b <= |h|
    ensures h[..a] + h[a..b] == h[..b]
  {}

  lemma PollKeepsSession(s: Session, limit: nat)
    requires PrefixOfValid(s.history) && limit >= 3 && SessionInv(s)
    ensures
      var r := Reads(s.history, limit, s.cursor, false);
      && r.Output? && r.next <= |s.history|
      && SessionInv(Session(s.history, r.next, s.got + r.value, s.lossless && !r.truncated))
  {
    hide ReadSpan, Reads, Valid, PrefixOfValid, Complete, FirstBoundary, Head;
    ReadIsSpan(s.history, limit, s.cursor, false);
    var r := ReadSpan(s.history, limit, s.cursor, false);
    BoundaryRead(s.history, limit, s.cursor, false);
    SlicesJoin(s.history, r.start, r.next);
  }

  /** However a valid stream is cut into writes and whenever it is polled, every
      cursor is a character boundary; and as long as no read was truncated, what
      was returned is what was written, up to the cursor. */
  lemma {:induction false} ReaderFollowsStream(limit: nat, steps: seq<Step>)
    requires limit >= 3 && PrefixOfValid(Play(limit, steps).history)
    ensures SessionInv(Play(limit, steps))
  {
    if steps == [] {
    } else {
      var n := |steps| - 1;
      var s := Play(limit, steps[..n]);
      var h := Play(limit, steps).history;
      assert h[..|s.history|] == s.history;
      PrefixOfPrefix(h, |s.history|);
      ReaderFollowsStream(limit, steps[..n]);
      if steps[n].Poll? {
        PollKeepsSession(s, limit);
      } else {
        assert h[..s.cursor] == s.history[..s.cursor];
      }
    }
  }

  /** When the process has ended, one complete read gives the rest of the stream;
      it is reported truncated iff retention has passed the reader. */
  lemma FinalReadCompletesStream(limit: nat, steps: seq<Step>)
    requires limit >= 3 && PrefixOfValid(Play(limit, steps).history)
    ensures
      var s := Play(limit, steps);
      var r := Reads(s.history, limit, s.cursor, true);
      && r.Output? && r.next == |s.history|
      && (r.truncated <==> s.cursor < Head(s.history, limit))
      && (s.lossless && s.cursor >= Head(s.history, limit) ==> s.got + r.value == s.history)
  {
    hide Reads;
    ReaderFollowsStream(limit, steps);
    var s := Play(limit, steps);
    ReadIsSpan(s.history, limit, s.cursor, true);
    BoundaryRead(s.history, limit, s.cursor, true);
    SlicesJoin(s.history, s.cursor, |s.history|);
    assert s.history[..|s.history|] == s.history;
  }

  // How small a limit may be ------------------------------------------------------------------

  /** Every poll of a valid stream from a boundary ends on a boundary. */
  ghost predicate KeepsBoundaries(limit: nat) {
    forall h: seq<Byte>, cursor: nat ::
      PrefixOfValid(h) && cursor <= |h| && Valid(h[..cursor]) ==>
        Valid(h[..ReadSpan(h, limit, cursor, false).next])
  }

  /** With a smaller limit the tail can lie inside an unfinished character: a
      poll then skips its retained bytes and returns a cursor inside it. */
  lemma SmallLimitLosesBoundary(limit: nat)
    requires limit < 3
    ensures
      var h: seq<Byte> := [0xF0, 0x9F, 0x98];
      PrefixOfValid(h) && ReadSpan(h, limit, 0, false) == Span(3, 3) && !Valid(h)
  {
    var h: seq<Byte> := [0xF0, 0x9F, 0x98];
    var c: seq<Byte> := [0xF0, 0x9F, 0x98, 0x80];
    assert h + [0x80] == c && c[..4] == c && Valid(c[4..]);
    var data := Tail(h, limit);
    LeadingIs(data, |data|);
    UnfinishedIs(data, LastThree(|data|), |data|);
  }

  /** Three bytes are exactly enough. */
  lemma ThreeBytesSuffice(limit: nat)
    ensures KeepsBoundaries(limit) <==> limit >= 3
  {
    if limit >= 3 {
      forall h: seq<Byte>, cursor: nat | PrefixOfValid(h) && cursor <= |h| && Valid(h[..cursor])
        ensures Valid(h[..ReadSpan(h, limit, cursor, false).next])
      {
        BoundaryRead(h, limit, cursor, false);
      }
    } else {
      SmallLimitLosesBoundary(limit);
      var h: seq<Byte> := [0xF0, 0x9F, 0x98];
      assert h[..3] == h && Valid(h[..0]);
    }
  }
}
