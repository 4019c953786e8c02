/** UTF-8 as sections 3 and 4 of RFC 3629 define it, and the three questions Go's
    unicode/utf8 package answers about bytes that need not be UTF-8. */
module Utf8 {

  newtype Byte = x: int | 0 <= x < 0x100

  // RFC 3629 --------------------------------------------------------------------

  predicate IsTail(b: Byte) { 0x80 <= b <= 0xBF }

  /** The four productions of UTF8-char in section 4. */
  predicate IsChar(s: seq<Byte>) {
    || (|s| == 1 && s[0] <= 0x7F)
    || (|s| == 2 && 0xC2 <= s[0] <= 0xDF && IsTail(s[1]))
    || (|s| == 3 && IsTail(s[2])
        && ((s[0] == 0xE0 && 0xA0 <= s[1] <= 0xBF)
            || (0xE1 <= s[0] <= 0xEC && IsTail(s[1]))
            || (s[0] == 0xED && 0x80 <= s[1] <= 0x9F)
            || (0xEE <= s[0] <= 0xEF && IsTail(s[1]))))
    || (|s| == 4 && IsTail(s[2]) && IsTail(s[3])
        && ((s[0] == 0xF0 && 0x90 <= s[1] <= 0xBF)
            || (0xF1 <= s[0] <= 0xF3 && IsTail(s[1]))
            || (s[0] == 0xF4 && 0x80 <= s[1] <= 0x8F)))
  }

  /** The length of the character that starts with byte `b`; 0 when none does. */
  function CharLength(b: Byte): (n: nat)
    ensures n <= 4
  {
    if b <= 0x7F then 1
    else if 0xC2 <= b <= 0xDF then 2
    else if 0xE0 <= b <= 0xEF then 3
    else if 0xF0 <= b <= 0xF4 then 4
    else 0
  }

  /** A character starts the text. */
  predicate StartsWithChar(s: seq<Byte>) {
    s != [] && var n := CharLength(s[0]); 0 < n <= |s| && IsChar(s[..n])
  }

  /** UTF8-octets: a sequence of characters. */
  predicate Valid(s: seq<Byte>)
    decreases |s|
  {
    s == [] || (StartsWithChar(s) && Valid(s[CharLength(s[0])..]))
  }

  // Go's unicode/utf8 -------------------------------------------------------------

  predicate RuneStart(b: Byte) { !(0x80 <= b < 0xC0) }

  /** The accept range of the second byte. */
  predicate Accepts(first: Byte, second: Byte) {
    var lo: Byte := if first == 0xE0 then 0xA0 else if first == 0xF0 then 0x90 else 0x80;
    var hi: Byte := if first == 0xED then 0x9F else if first == 0xF4 then 0x8F else 0xBF;
    lo <= second <= hi
  }

  /** The width that DecodeRune returns: 1 for anything that is not a complete character. */
  function DecodeWidth(p: seq<Byte>): (w: nat)
    ensures w <= |p| && w <= 4
  {
    if p == [] then 0
    else
      var n := CharLength(p[0]);
      if n <= 1 || |p| < n || !Accepts(p[0], p[1]) then 1
      else if n == 2 then 2
      else if !IsTail(p[2]) then 1
      else if n == 3 then 3
      else if !IsTail(p[3]) then 1
      else 4
  }

  /** False only for the beginning of a character that more bytes could complete. */
  predicate FullRune(p: seq<Byte>) {
    p != []
    && (|p| >= CharLength(p[0])
        || (|p| > 1 && !Accepts(p[0], p[1]))
        || (|p| > 2 && !IsTail(p[2])))
  }

  // What these say about RFC 3629 ---------------------------------------------------

  /** DecodeRune sees a character of several bytes exactly where there is one. */
  lemma DecodeWidthIsChar(p: seq<Byte>)
    ensures DecodeWidth(p) > 1 <==> StartsWithChar(p) && CharLength(p[0]) > 1
    ensures DecodeWidth(p) > 1 ==> DecodeWidth(p) == CharLength(p[0]) && IsChar(p[..DecodeWidth(p)])
  {}

  /** A character starts at a rune start and continues with none. */
  lemma CharShape(s: seq<Byte>, k: nat)
    requires IsChar(s) && k < |s|
    ensures RuneStart(s[k]) <==> k == 0
    ensures |s| == CharLength(s[0])
  {}

  /** A non-empty proper prefix of a character is not a full rune. */
  lemma PrefixOfCharIsNotFull(s: seq<Byte>, n: nat)
    requires IsChar(s) && 0 < n < |s|
    ensures !FullRune(s[..n])
  {}

  /** What is not full can be completed. */
  lemma NotFullIsCompletable(p: seq<Byte>) returns (rest: seq<Byte>)
    requires p != [] && !FullRune(p)
    ensures IsChar(p + rest) && rest != []
  {
    var n := CharLength(p[0]);
    var second: Byte := if p[0] == 0xE0 then 0xA0 else if p[0] == 0xF0 then 0x90 else 0x80;
    rest := if |p| == 1 then [second] + seq(n - 2, i => 0x80 as Byte) else seq(n - |p|, i => 0x80 as Byte);
  }

  // Valid text ------------------------------------------------------------------------

  lemma {:induction false} ValidConcat(a: seq<Byte>, b: seq<Byte>)
    requires Valid(a) && Valid(b)
    ensures Valid(a + b)
    decreases |a|
  {
    hide IsChar, CharLength;
    if a == [] {
      assert a + b == b;
    } else {
      var n := CharLength(a[0]);
      ValidConcat(a[n..], b);
      assert (a + b)[..n] == a[..n];
      assert (a + b)[n..] == a[n..] + b;
    }
  }

  lemma {:induction false} ValidSuffix(a: seq<Byte>, b: seq<Byte>)
    requires Valid(a) && Valid(a + b)
    ensures Valid(b)
    decreases |a|
  {
    hide IsChar, CharLength;
    if a == [] {
      assert a + b == b;
    } else {
      var n := CharLength(a[0]);
      assert (a + b)[n..] == a[n..] + b;
      ValidSuffix(a[n..], b);
    }
  }

  /** A position of a valid text is a character boundary iff no continuation byte
      follows it. */
  lemma {:induction false} BoundaryIffRuneStart(s: seq<Byte>, i: nat)
    requires Valid(s) && i < |s|
    ensures Valid(s[..i]) <==> RuneStart(s[i])
    decreases |s|
  {
    var n := CharLength(s[0]);
    var c := s[..n];
    if i < n {
      CharShape(c, i);
      assert i > 0 ==> s[..i][0] == s[0];
    } else {
      BoundaryIffRuneStart(s[n..], i - n);
      assert s[n..][..i - n] == s[..i][n..];
      assert s[..i][..n] == c;
    }
  }

  lemma ValidStartsWithRune(s: seq<Byte>)
    requires Valid(s) && s != []
    ensures RuneStart(s[0])
  {
    CharShape(s[..CharLength(s[0])], 0);
  }

  /** A match of a valid, non-empty pattern in valid text lies on boundaries. */
  lemma MatchOnBoundaries(text: seq<Byte>, at: nat, pattern: seq<Byte>)
    requires Valid(text) && Valid(pattern) && pattern != []
    requires at + |pattern| <= |text| && text[at..at + |pattern|] == pattern
    ensures Valid(text[..at]) && Valid(text[..at + |pattern|])
  {
    hide Valid, RuneStart;
    assert RuneStart(text[at]) by {
      ValidStartsWithRune(pattern);
      assert text[at] == pattern[0];
    }
    BoundaryIffRuneStart(text, at);
    SliceEndsAt(text, at, pattern);
    ValidConcat(text[..at], pattern);
  }

  lemma SliceEndsAt(text: seq<Byte>, at: nat, pattern: seq<Byte>)
    requires at + |pattern| <= |text| && text[at..at + |pattern|] == pattern
    ensures text[..at] + pattern == text[..at + |pattern|]
  {}

  // Continuation bytes ------------------------------------------------------------------

  /** The number of continuation bytes the data begins with. */
  function Leading(data: seq<Byte>): (n: nat)
    ensures n <= |data|
  {
    if data == [] || RuneStart(data[0]) then 0 else 1 + Leading(data[1..])
  }

  lemma {:induction false} LeadingIs(data: seq<Byte>, n: nat)
    requires n <= |data| && (forall k :: 0 <= k < n ==> !RuneStart(data[k])) && (n < |data| ==> RuneStart(data[n]))
    ensures Leading(data) == n
  {
    if n == 0 {
    } else {
      LeadingIs(data[1..], n - 1);
    }
  }

  lemma {:induction false} LeadingIsContinuation(data: seq<Byte>)
    ensures forall k :: 0 <= k < Leading(data) ==> !RuneStart(data[k])
    ensures Leading(data) < |data| ==> RuneStart(data[Leading(data)])
  {
    if data == [] || RuneStart(data[0]) {
    } else {
      LeadingIsContinuation(data[1..]);
      forall k | 0 < k < Leading(data)
        ensures !RuneStart(data[k])
      {
        assert data[k] == data[1..][k - 1];
      }
    }
  }

  // Streams that are being received -----------------------------------------------------

  /** What has been received of a valid text. */
  ghost predicate PrefixOfValid(h: seq<Byte>) {
    exists rest :: Valid(h + rest)
  }

  lemma PrefixOfPrefix(h: seq<Byte>, n: nat)
    requires PrefixOfValid(h) && n <= |h|
    ensures PrefixOfValid(h[..n])
  {
    var rest :| Valid(h + rest);
    assert h[..n] + (h[n..] + rest) == h + rest;
  }

  /** The bytes of `h` that are complete characters. */
  function Complete(h: seq<Byte>): (n: nat)
    ensures n <= |h|
    decreases |h|
  {
    if StartsWithChar(h) then CharLength(h[0]) + Complete(h[CharLength(h[0])..]) else 0
  }

  lemma EnoughForChar(h: seq<Byte>, rest: seq<Byte>)
    requires StartsWithChar(h + rest) && h != []
    ensures |h| >= CharLength(h[0]) ==> StartsWithChar(h)
  {
    var n := CharLength(h[0]);
    if |h| >= n {
      assert (h + rest)[..n] == h[..n];
    }
  }

  /** The beginning of a character is neither full nor valid. */
  lemma UnfinishedChar(h: seq<Byte>, rest: seq<Byte>)
    requires Valid(h + rest) && h != [] && !StartsWithChar(h)
    ensures !FullRune(h) && RuneStart(h[0]) && |h| <= 3
    ensures forall k :: 0 < k <= |h| ==> !Valid(h[..k])
  {
    var n := CharLength((h + rest)[0]);
    var c := (h + rest)[..n];
    CharShape(c, 0);
    EnoughForChar(h, rest);
    PrefixOfCharIsNotFull(c, |h|);
    assert c[..|h|] == h;
    forall k | 0 < k <= |h|
      ensures !Valid(h[..k])
    {
      assert h[..k][0] == h[0];
    }
  }

  /** A received text is complete characters followed by the beginning of one. */
  lemma {:induction false} PrefixShape(h: seq<Byte>)
    requires PrefixOfValid(h)
    ensures Valid(h[..Complete(h)])
    ensures Complete(h) < |h| ==> !FullRune(h[Complete(h)..]) && RuneStart(h[Complete(h)])
    ensures |h| - Complete(h) <= 3
    ensures forall k :: Complete(h) < k <= |h| ==> !Valid(h[..k])
    decreases |h|
  {
    hide IsChar, FullRune, RuneStart;
    var rest :| Valid(h + rest);
    if StartsWithChar(h) {
      var n := CharLength(h[0]);
      assert (h + rest)[n..] == h[n..] + rest;
      PrefixShape(h[n..]);
      CharThenPrefix(h, n, Complete(h[n..]));
    } else if h != [] {
      UnfinishedChar(h, rest);
      assert h[0..] == h;
    }
  }

  /** Validity of the prefixes of a text, seen past its first character. */
  lemma CharThenPrefix(h: seq<Byte>, n: nat, m: nat)
    requires StartsWithChar(h) && n == CharLength(h[0]) && n + m <= |h|
    ensures forall k :: n <= k <= |h| ==> (Valid(h[..k]) <==> Valid(h[n..][..k - n]))
    ensures forall k :: 0 < k < n ==> !Valid(h[..k])
    ensures h[n + m..] == h[n..][m..]
  {
    forall k | 0 < k <= |h|
      ensures Valid(h[..k]) <==> n <= k && Valid(h[n..][..k - n])
    {
      assert h[..k][0] == h[0];
      if n <= k {
        assert h[..k][..n] == h[..n];
        assert h[..k][n..] == h[n..][..k - n];
      }
    }
  }

  /** Boundaries of a received text, as seen from the byte that follows. */
  lemma PrefixBoundary(h: seq<Byte>, i: nat)
    requires PrefixOfValid(h) && i < |h|
    ensures Valid(h[..i]) <==> RuneStart(h[i])
  {
    var rest :| Valid(h + rest);
    BoundaryIffRuneStart(h + rest, i);
    assert (h + rest)[..i] == h[..i];
  }
}
