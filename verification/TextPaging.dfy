/** Reading a text file page by page (internal/filesystem/filesystem.go,
    `ReadText`): whole lines within a number of lines and of bytes, whatever the
    buffer of the reader does to long lines. */
module TextPaging {
  import opened Basics
  import opened Utf8
  import opened TextPatch

  const NEWLINE: Byte := 10
  const DEFAULT_BYTES := 1048576
  const MAX_LINES := 1000000

  datatype Page = Page(content: Bytes, endLine: nat, nextLine: nat, truncated: bool)

  datatype ReadError = BadStart | BadCount | BadBudget | LineTooLong(line: nat) | LineNotText(line: nat)

  datatype Reading = Read(page: Page) | Failed(error: ReadError)

  // The lines of a file ------------------------------------------------------------------

  /** The length of the first line, with its newline if it has one. */
  function LineEnd(s: Bytes): (n: nat)
    requires s != []
    ensures 0 < n <= |s|
  {
    if s[0] == NEWLINE || |s| == 1 then 1 else 1 + LineEnd(s[1..])
  }

  function Lines(s: Bytes): seq<Bytes>
    decreases |s|
  {
    if s == [] then [] else [s[..LineEnd(s)]] + Lines(s[LineEnd(s)..])
  }

  /** What a read finds in the lines that are left when `line` lines have been
      read: `data` and `endLine` are what it has kept so far. */
  function Scan(lines: seq<Bytes>, line: nat, start: int, count: int, budget: int, data: Bytes, endLine: nat): Reading {
    if lines == [] then Read(Page(data, endLine, 0, false))
    else if line + 1 < start then Scan(lines[1..], line + 1, start, count, budget, data, endLine)
    else if count > 0 && line + 1 >= start + count then Read(Page(data, endLine, line + 1, true))
    else if |lines[0]| > budget - |data| then
      if data == [] then Failed(LineTooLong(line + 1)) else Read(Page(data, endLine, line + 1, true))
    else if !IsText(lines[0]) then Failed(LineNotText(line + 1))
    else Scan(lines[1..], line + 1, start, count, budget, data + lines[0], line + 1)
  }

  function ReadPage(content: Bytes, startLine: int, lineCount: int, maxBytes: int): Reading {
    var start := if startLine == 0 then 1 else startLine;
    var budget := if maxBytes == 0 then DEFAULT_BYTES else maxBytes;
    if start < 1 then Failed(BadStart)
    else if lineCount < 0 || lineCount > MAX_LINES then Failed(BadCount)
    else if budget < 1 || budget > MAX_TEXT then Failed(BadBudget)
    else Scan(Lines(content), 0, start, lineCount, budget, [], 0)
  }

  // The buffered reader --------------------------------------------------------------------

  datatype Ending = Newline | BufferFull | EndOfFile | TooLong

  /** `ReadSlice('\n')` of a reader with a buffer of `buffer` bytes that has
      reached `pos`. */
  method ReadSlice(content: Bytes, pos: nat, buffer: nat) returns (fragment: Bytes, ending: Ending)
    requires pos <= |content| && buffer > 0
    ensures pos + |fragment| <= |content| && fragment == content[pos..pos + |fragment|]
    ensures ending.Newline? || ending.BufferFull? || ending.EndOfFile?
    ensures ending.Newline? ==> fragment != [] && fragment[|fragment| - 1] == NEWLINE
    ensures forall k :: 0 <= k < |fragment| && fragment[k] == NEWLINE ==> ending.Newline? && k == |fragment| - 1
    ensures ending.BufferFull? ==> |fragment| == buffer
    ensures ending.EndOfFile? ==> pos + |fragment| == |content|
  {
    var n := 0;
    while n < buffer && pos + n < |content|
      invariant n <= buffer && pos + n <= |content|
      invariant forall k :: pos <= k < pos + n ==> content[k] != NEWLINE
    {
      if content[pos + n] == NEWLINE {
        return content[pos..pos + n + 1], Newline;
      }
      n := n + 1;
    }
    fragment := content[pos..pos + n];
    ending := if n == buffer then BufferFull else EndOfFile;
  }

  lemma {:induction false} LineEndIs(s: Bytes, n: nat)
    requires 0 < n <= |s| && (s[n - 1] == NEWLINE || n == |s|)
    requires forall k :: 0 <= k < n - 1 ==> s[k] != NEWLINE
    ensures LineEnd(s) == n
  {
    if n == 1 {
    } else {
      LineEndIs(s[1..], n - 1);
    }
  }

  /** Reading the line at `pos`: the whole line if it is retained and fits. */
  method ReadTextLine(content: Bytes, pos: nat, buffer: nat, limit: int, retain: bool)
    returns (data: Bytes, present: bool, ending: Ending, next: nat)
    requires pos <= |content| && buffer > 0 && limit >= 0
    ensures present == (pos < |content|)
    ensures pos == |content| ==> ending.EndOfFile? && next == pos
    ensures pos < |content| ==>
      var n := LineEnd(content[pos..]);
      if retain && n > limit then ending.TooLong?
      else
        && next == pos + n
        && data == (if retain then content[pos..pos + n] else [])
        && (ending == if content[pos + n - 1] == NEWLINE then Newline else EndOfFile)
        && (ending.EndOfFile? ==> next == |content|)
  {
    hide LineEnd;
    data, present, next := [], false, pos;
    while true
      invariant pos <= next <= |content| && present == (next > pos)
      invariant forall k :: pos <= k < next ==> content[k] != NEWLINE
      invariant data == (if retain then content[pos..next] else [])
      invariant retain ==> next - pos <= limit
      decreases |content| - next
    {
      var fragment: Bytes;
      fragment, ending := ReadSlice(content, next, buffer);
      present := present || |fragment| != 0;
      if pos < |content| {
        LineReaches(content, pos, next, fragment, ending);
      }
      assert forall k :: next <= k < next + |fragment| ==> content[k] == fragment[k - next];
      if retain {
        if |fragment| > limit - |data| {
          ending := TooLong;
          return;
        }
        data := data + fragment;
      }
      next := next + |fragment|;
      if !ending.BufferFull? {
        return;
      }
    }
  }

  /** The line that begins at `pos` and has no newline before `next` reaches at
      least to the end of the fragment, and no further if that ends the line. */
  lemma LineReaches(content: Bytes, pos: nat, next: nat, fragment: Bytes, ending: Ending)
    requires pos <= next && next + |fragment| <= |content| && pos < |content|
    requires fragment == content[next..next + |fragment|]
    requires forall k :: pos <= k < next ==> content[k] != NEWLINE
    requires forall k :: 0 <= k < |fragment| && fragment[k] == NEWLINE ==> ending.Newline? && k == |fragment| - 1
    requires ending.Newline? ==> fragment != [] && fragment[|fragment| - 1] == NEWLINE
    requires ending.EndOfFile? ==> next + |fragment| == |content|
    ensures LineEnd(content[pos..]) >= next + |fragment| - pos
    ensures ending.Newline? || ending.EndOfFile? ==> LineEnd(content[pos..]) == next + |fragment| - pos
    ensures ending.EndOfFile? ==> content[|content| - 1] != NEWLINE
    ensures ending.Newline? ==> content[next + |fragment| - 1] == NEWLINE
  {
    var rest := content[pos..];
    var n := next + |fragment| - pos;
    assert forall k :: 0 <= k < |fragment| ==> content[next + k] == fragment[k];
    assert forall k :: 0 <= k < n - 1 ==> rest[k] == content[pos + k] && rest[k] != NEWLINE by {
      forall k | 0 <= k < n - 1
        ensures rest[k] != NEWLINE
      {
        if pos + k >= next {
          assert fragment[pos + k - next] == rest[k];
        }
      }
    }
    if ending.Newline? || ending.EndOfFile? {
      LineEndIs(rest, n);
    } else {
      LineEndAtLeast(rest, n);
    }
  }

  lemma {:induction false} LineEndAtLeast(s: Bytes, n: nat)
    requires s != [] && n <= |s| && forall k :: 0 <= k < n - 1 ==> s[k] != NEWLINE
    ensures LineEnd(s) >= n
  {
    if n <= 1 {
    } else {
      LineEndAtLeast(s[1..], n - 1);
    }
  }

  lemma FirstLine(content: Bytes, pos: nat)
    requires pos < |content|
    ensures
      var n := LineEnd(content[pos..]);
      && Lines(content[pos..]) == [content[pos..pos + n]] + Lines(content[pos + n..])
  {
    var rest := content[pos..];
    assert rest[..LineEnd(rest)] == content[pos..pos + LineEnd(rest)];
    assert rest[LineEnd(rest)..] == content[pos + LineEnd(rest)..];
  }

  lemma NoLines(s: Bytes)
    ensures Lines(s) == [] <==> s == []
  {}

  /** Whatever the size of the reader's buffer, the result is that of the lines. */
  method ReadText(content: Bytes, buffer: nat, startLine: int, lineCount: int, maxBytes: int) returns (r: Reading)
    requires buffer > 0
    ensures r == ReadPage(content, startLine, lineCount, maxBytes)
  {
    hide Lines, LineEnd, IsText;
    var start := if startLine == 0 then 1 else startLine;
    var budget := if maxBytes == 0 then DEFAULT_BYTES else maxBytes;
    if start < 1 {
      return Failed(BadStart);
    }
    if lineCount < 0 || lineCount > MAX_LINES {
      return Failed(BadCount);
    }
    if budget < 1 || budget > MAX_TEXT {
      return Failed(BadBudget);
    }
    var data, pos, line, endLine, nextLine, truncated := [], 0, 0, 0, 0, false;
    while true
      invariant pos <= |content| && |data| <= budget && nextLine == 0 && !truncated
      invariant Scan(Lines(content[pos..]), line, start, lineCount, budget, data, endLine)
             == ReadPage(content, startLine, lineCount, maxBytes)
      decreases |content| - pos
    {
      var part, present, ending, next := ReadTextLine(content, pos, buffer, budget - |data|, line + 1 >= start);
      if present {
        FirstLine(content, pos);
        line := line + 1;
        if line >= start {
          if lineCount > 0 && line >= start + lineCount {
            truncated, nextLine := true, line;
            break;
          }
          if ending.TooLong? {
            if |data| == 0 {
              return Failed(LineTooLong(line));
            }
            truncated, nextLine := true, line;
            break;
          }
          if !IsText(part) {
            return Failed(LineNotText(line));
          }
          data := data + part;
          endLine := line;
        }
      }
      pos := next;
      if ending.EndOfFile? {
        NoLines(content[pos..]);
        break;
      }
    }
    r := Read(Page(data, endLine, nextLine, truncated));
  }
}
