/** The bounded output buffer of a process (internal/process/process.go,
    `streamBuffer`): the tail of a byte stream, read by absolute cursors. */
module StreamBuffer {
  import opened Basics
  import opened Utf8

  /** What the buffer retains of the whole history. */
  function Tail(history: seq<Byte>, limit: nat): seq<Byte> {
    if |history| <= limit then history else history[|history| - limit..]
  }

  // The three searches of Read -----------------------------------------------------

  /** A character that DecodeRune sees at `p` runs over `index`. */
  predicate Straddles(data: seq<Byte>, p: nat, index: nat) {
    p < index <= |data| && index < p + DecodeWidth(data[p..])
  }

  /** Where the character that runs over `index` ends, or `index` if none does. */
  function PastStraddling(data: seq<Byte>, from: nat, index: nat): (n: nat)
    requires from <= index <= |data|
    ensures index <= n <= |data|
    decreases index - from
  {
    if from == index then index
    else if Straddles(data, from, index) then from + DecodeWidth(data[from..])
    else PastStraddling(data, from + 1, index)
  }

  /** Where the unfinished character at the end begins, or the end if there is none. */
  function Unfinished(data: seq<Byte>, from: nat): (n: nat)
    requires from <= |data|
    ensures from <= n <= |data|
    decreases |data| - from
  {
    if from == |data| then from
    else if RuneStart(data[from]) && !FullRune(data[from..]) then from
    else Unfinished(data, from + 1)
  }

  const UTF_MAX := 4

  function LastThree(n: nat): nat { Max(0, n - UTF_MAX + 1) }

  /** Where a read from `index` of the retained data begins. */
  function StartIndex(data: seq<Byte>, evicted: bool, index: nat): (n: nat)
    requires index <= |data|
    ensures index <= n <= |data|
  {
    if index == |data| || RuneStart(data[index]) then index
    else if evicted && index < Leading(data) then Leading(data)
    else PastStraddling(data, LastThree(index), index)
  }

  /** Where it ends. */
  function EndIndex(data: seq<Byte>, start: nat, complete: bool): (n: nat)
    requires start <= |data|
    ensures start <= n <= |data|
  {
    if complete then |data|
    else Max(start, Unfinished(data, LastThree(|data|)))
  }

  /** The span of the history that a read returns. */
  datatype Span = Span(start: nat, next: nat)

  function ReadSpan(history: seq<Byte>, limit: nat, cursor: nat, complete: bool): (s: Span)
    requires cursor <= |history|
    ensures cursor <= s.start <= s.next <= |history|
    ensures |history| - |Tail(history, limit)| <= s.start
    ensures complete ==> s.next == |history|
    ensures !complete ==> |history| - s.next <= UTF_MAX - 1
  {
    var data := Tail(history, limit);
    var head := |history| - |data|;
    var start := StartIndex(data, head > 0, Max(cursor, head) - head);
    Span(head + start, head + EndIndex(data, start, complete))
  }

  // The loops of Read --------------------------------------------------------------

  method SkipContinuations(data: seq<Byte>) returns (leading: nat)
    ensures leading == Leading(data)
  {
    leading := 0;
    while leading < |data| && !RuneStart(data[leading])
      invariant leading <= |data|
      invariant Leading(data) == leading + Leading(data[leading..])
    {
      assert data[leading..][1..] == data[leading + 1..];
      leading := leading + 1;
    }
  }

  method SkipStraddling(data: seq<Byte>, index: nat) returns (n: nat)
    requires index <= |data|
    ensures n == PastStraddling(data, LastThree(index), index)
  {
    var previous := LastThree(index);
    while previous < index
      invariant previous <= index
      invariant PastStraddling(data, LastThree(index), index) == PastStraddling(data, previous, index)
    {
      if RuneStart(data[previous]) {
        var width := DecodeWidth(data[previous..]);
        if width > 1 && previous + width > index {
          return previous + width;
        }
      } else {
        ContinuationDecodesNarrow(data[previous..]);
      }
      previous := previous + 1;
    }
    n := index;
  }

  method FindUnfinished(data: seq<Byte>) returns (last: nat)
    ensures last == Unfinished(data, LastThree(|data|))
  {
    last := LastThree(|data|);
    while last < |data|
      invariant last <= |data|
      invariant Unfinished(data, LastThree(|data|)) == Unfinished(data, last)
    {
      if RuneStart(data[last]) && !FullRune(data[last..]) {
        return;
      }
      last := last + 1;
    }
  }

  /** A bounded tail may begin in a character whose first byte was discarded;
      an explicit cursor may point inside a retained one. */
  method Align(data: seq<Byte>, evicted: bool, index: nat) returns (n: nat)
    requires index <= |data|
    ensures n == StartIndex(data, evicted, index)
  {
    n := index;
    if index < |data| && !RuneStart(data[index]) {
      var leading := 0;
      if evicted {
        leading := SkipContinuations(data);
      }
      if index < leading {
        n := leading;
      } else {
        n := SkipStraddling(data, index);
      }
    }
  }

  method FindEnd(data: seq<Byte>, index: nat, complete: bool) returns (end: nat)
    requires index <= |data|
    ensures end == EndIndex(data, index, complete)
  {
    end := |data|;
    if !complete {
      var last := FindUnfinished(data);
      if last < end {
        end := Max(index, last);
      }
    }
  }

  lemma ContinuationDecodesNarrow(p: seq<Byte>)
    requires p != [] && !RuneStart(p[0])
    ensures DecodeWidth(p) == 1
  {}

  // The object ------------------------------------------------------------------------

  datatype Reading =
    | Negative
    | TooFar
    | Output(value: seq<Byte>, start: nat, next: nat, truncated: bool)

  /** What a read returns, told from the history alone. */
  function Reads(history: seq<Byte>, limit: nat, cursor: int, complete: bool): Reading {
    if cursor < 0 then Negative
    else if cursor > |history| then TooFar
    else
      var s := ReadSpan(history, limit, cursor, complete);
      Output(history[s.start..s.next], s.start, s.next, cursor < s.start)
  }

  lemma SpanOfTail(history: seq<Byte>, limit: nat, cursor: nat, complete: bool, head: nat, start: nat, end: nat)
    requires cursor <= |history| && head == |history| - |Tail(history, limit)|
    requires start == StartIndex(Tail(history, limit), head > 0, Max(cursor, head) - head)
    requires end == EndIndex(Tail(history, limit), start, complete)
    ensures ReadSpan(history, limit, cursor, complete) == Span(head + start, head + end)
  {
    hide StartIndex, EndIndex, Tail;
  }

  lemma TailSlice(history: seq<Byte>, limit: nat, head: nat, i: nat, j: nat)
    requires head == |history| - |Tail(history, limit)| && i <= j <= |Tail(history, limit)|
    ensures Tail(history, limit)[i..j] == history[head + i..head + j]
  {}

  lemma ReadsFromTail(history: seq<Byte>, limit: nat, cursor: nat, complete: bool, head: nat, start: nat, end: nat)
    requires cursor <= |history| && head == |history| - |Tail(history, limit)|
    requires start == StartIndex(Tail(history, limit), head > 0, Max(cursor, head) - head)
    requires end == EndIndex(Tail(history, limit), start, complete)
    ensures Reads(history, limit, cursor, complete) ==
      Output(Tail(history, limit)[start..end], head + start, head + end, cursor < head + start)
  {
    hide StartIndex, EndIndex, Tail, ReadSpan;
    SpanOfTail(history, limit, cursor, complete, head, start, end);
    TailSlice(history, limit, head, start, end);
  }

  class Buffer {
    var data: seq<Byte>
    const limit: nat
    var total: nat
    ghost var history: seq<Byte>

    /** The buffer holds the last min(limit, total) bytes written to it. */
    ghost predicate Valid()
      reads this
    {
      total == |history| && data == Tail(history, limit)
    }

    constructor (limit: nat)
      ensures Valid() && this.limit == limit && history == []
    {
      this.limit := limit;
      data, total, history := [], 0, [];
    }

    method Write(bytes: seq<Byte>)
      requires Valid()
      modifies this
      ensures Valid() && history == old(history) + bytes
    {
      total := total + |bytes|;
      history := history + bytes;
      if |bytes| >= limit {
        data := bytes[|bytes| - limit..];
        return;
      }
      var overflow := |data| + |bytes| - limit;
      if overflow > 0 {
        data := data[overflow..];
      }
      data := data + bytes;
    }

    /** Reading consumes nothing: a cursor that was accepted once stays readable. */
    method Read(cursor: int, complete: bool) returns (r: Reading)
      requires Valid()
      ensures r == Reads(history, limit, cursor, complete)
    {
      if cursor < 0 {
        return Negative;
      }
      if cursor > total {
        return TooFar;
      }
      var head := total - |data|;
      var start := Align(data, head > 0, Max(cursor, head) - head);
      var end := FindEnd(data, start, complete);
      ReadsFromTail(history, limit, cursor, complete, head, start, end);
      r := Output(data[start..end], head + start, head + end, cursor < head + start);
    }
  }
}
