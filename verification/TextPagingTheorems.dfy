/** What a page holds, and that the pages of a file make up the file. */
module TextPagingTheorems {
  import opened Basics
  import opened Utf8
  import opened TextPatch
  import opened TextPaging

  function Concat(lines: seq<Bytes>): Bytes {
    if lines == [] then [] else lines[0] + Concat(lines[1..])
  }

  // One page -------------------------------------------------------------------------

  /** `k` lines fit: within the number of lines and of bytes, all of them text. */
  ghost predicate Fits(lines: seq<Bytes>, k: nat, line: nat, start: int, count: int, room: int) {
    && k <= |lines|
    && (count > 0 && k > 0 ==> line + k < start + count)
    && |Concat(lines[..k])| <= room
    && (forall i :: 0 <= i < k ==> IsText(lines[i]))
  }

  /** Why the line after the `k` lines is not on the page. */
  predicate CountReached(k: nat, line: nat, start: int, count: int) {
    count > 0 && line + k + 1 >= start + count
  }

  ghost predicate TooBig(lines: seq<Bytes>, k: nat, room: int)
    requires k < |lines|
  {
    |Concat(lines[..k])| + |lines[k]| > room
  }

  /** The reading of lines that begin with number `line + 1`, after `data`. */
  ghost predicate Explains(lines: seq<Bytes>, k: nat, line: nat, start: int, count: int, budget: int,
                           data: Bytes, endLine: nat, r: Reading)
  {
    var room := budget - |data|;
    && Fits(lines, k, line, start, count, room)
    && match r
       case Read(page) =>
         && page.content == data + Concat(lines[..k])
         && page.endLine == (if k > 0 then line + k else endLine)
         && page.truncated == (k < |lines|)
         && page.nextLine == (if k < |lines| then line + k + 1 else 0)
         && (k < |lines| ==> CountReached(k, line, start, count)
                             || (TooBig(lines, k, room) && page.content != []))
       case Failed(LineTooLong(n)) =>
         && k < |lines| && n == line + k + 1 && !CountReached(k, line, start, count)
         && TooBig(lines, k, room) && data + Concat(lines[..k]) == []
       case Failed(LineNotText(n)) =>
         && k < |lines| && n == line + k + 1 && !CountReached(k, line, start, count)
         && !TooBig(lines, k, room) && !IsText(lines[k])
       case _ => false
  }

  lemma ConcatStep(lines: seq<Bytes>, k: nat)
    requires lines != [] && k < |lines|
    ensures Concat(lines[..k + 1]) == lines[0] + Concat(lines[1..][..k])
  {
    assert lines[..k + 1][1..] == lines[1..][..k];
  }

  /** One more line in front of what explains the rest. */
  lemma ExplainsMore(lines: seq<Bytes>, k: nat, line: nat, start: int, count: int, budget: int,
                     data: Bytes, endLine: nat, r: Reading)
    requires lines != [] && line + 1 >= start && !CountReached(0, line, start, count)
    requires |lines[0]| <= budget - |data| && IsText(lines[0])
    requires Explains(lines[1..], k, line + 1, start, count, budget, data + lines[0], line + 1, r)
    ensures Explains(lines, k + 1, line, start, count, budget, data, endLine, r)
  {
    hide IsText;
    var rest := lines[1..];
    ConcatStep(lines, k);
    SeqAssociates(data, lines[0], Concat(rest[..k]));
    forall i | 0 <= i < k + 1
      ensures IsText(lines[i])
    {
      assert i > 0 ==> lines[i] == rest[i - 1];
    }
    assert k < |rest| ==> rest[k] == lines[k + 1];
  }

  lemma {:induction false} ScanExplained(lines: seq<Bytes>, line: nat, start: int, count: int, budget: int,
                                         data: Bytes, endLine: nat) returns (k: nat)
    requires line + 1 >= start && |data| <= budget
    ensures Explains(lines, k, line, start, count, budget, data, endLine,
                     Scan(lines, line, start, count, budget, data, endLine))
  {
    hide IsText;
    var r := Scan(lines, line, start, count, budget, data, endLine);
    if lines == [] || CountReached(0, line, start, count) || |lines[0]| > budget - |data| || !IsText(lines[0]) {
      k := 0;
      assert Concat(lines[..0]) == [];
    } else {
      k := ScanExplained(lines[1..], line + 1, start, count, budget, data + lines[0], line + 1);
      ExplainsMore(lines, k, line, start, count, budget, data, endLine, r);
      k := k + 1;
    }
  }

  lemma {:induction false} ScanSkips(lines: seq<Bytes>, line: nat, start: int, count: int, budget: int)
    requires line + 1 <= start
    ensures Scan(lines, line, start, count, budget, [], 0)
      == if start - 1 - line <= |lines|
         then Scan(lines[start - 1 - line..], start - 1, start, count, budget, [], 0)
         else Read(Page([], 0, 0, false))
    decreases |lines|
  {
    hide IsText;
    if lines != [] && line + 1 < start {
      ScanSkips(lines[1..], line + 1, start, count, budget);
      if start - 1 - line <= |lines| {
        assert lines[1..][start - 2 - line..] == lines[start - 1 - line..];
      }
    } else {
      assert lines[0..] == lines;
    }
  }

  // The arguments of a read ------------------------------------------------------------

  /** Arguments that are not refused; 0 stands for one that is omitted. */
  predicate Allowed(startLine: int, lineCount: int, maxBytes: int) {
    0 <= startLine && 0 <= lineCount <= 1000000 && 0 <= maxBytes <= 8388608
  }

  /** Reading begins with the first line unless another is named. */
  function StartOf(startLine: int): (start: int)
    ensures startLine == 0 <==> start != startLine
    ensures startLine == 0 ==> start == 1
  {
    if startLine == 0 then 1 else startLine
  }

  /** A page holds a mebibyte unless another budget is named. */
  function BudgetOf(maxBytes: int): (budget: int)
    ensures maxBytes == 0 <==> budget != maxBytes
    ensures maxBytes == 0 ==> budget == 1024 * 1024
  {
    if maxBytes == 0 then 1048576 else maxBytes
  }

  /** Which argument is refused, the first one in the order start line, line count,
      budget; no other answer is about the arguments. */
  lemma ArgumentsAreRefusedExactly(content: Bytes, startLine: int, lineCount: int, maxBytes: int)
    ensures
      var r := ReadPage(content, startLine, lineCount, maxBytes);
      && (r == Failed(BadStart) <==> startLine < 0)
      && (r == Failed(BadCount) <==> startLine >= 0 && !(0 <= lineCount <= 1000000))
      && (r == Failed(BadBudget) <==> startLine >= 0 && 0 <= lineCount <= 1000000 && !(0 <= maxBytes <= 8388608))
  {
    hide Scan, Lines;
    ScanReadsOn(Lines(content), 0, StartOf(startLine), lineCount, BudgetOf(maxBytes), [], 0);
  }

  lemma {:induction false} ScanReadsOn(lines: seq<Bytes>, line: nat, start: int, count: int, budget: int,
                                       data: Bytes, endLine: nat)
    ensures
      var r := Scan(lines, line, start, count, budget, data, endLine);
      r.Read? || r.error.LineTooLong? || r.error.LineNotText?
  {
    hide IsText;
    if lines == [] {
    } else if line + 1 < start {
      ScanReadsOn(lines[1..], line + 1, start, count, budget, data, endLine);
    } else {
      ScanReadsOn(lines[1..], line + 1, start, count, budget, data + lines[0], line + 1);
    }
  }

  /** A page holds the longest run of whole lines from its first line on that is
      within the limits. It is marked truncated, with the number of the next line,
      exactly if lines are left; and a read fails exactly at a line that is not
      text, or at a first line that is larger than the budget. */
  lemma PageIsLongestRun(content: Bytes, startLine: int, count: int, maxBytes: int) returns (k: nat)
    requires Allowed(startLine, count, maxBytes)
    ensures
      var lines := Lines(content);
      var start, budget := StartOf(startLine), BudgetOf(maxBytes);
      if start <= |lines|
      then Explains(lines[start - 1..], k, start - 1, start, count, budget, [], 0,
                    ReadPage(content, startLine, count, maxBytes))
      else ReadPage(content, startLine, count, maxBytes) == Read(Page([], 0, 0, false))
  {
    hide IsText;
    var lines := Lines(content);
    var start, budget := StartOf(startLine), BudgetOf(maxBytes);
    ScanSkips(lines, 0, start, count, budget);
    k := 0;
    if start <= |lines| {
      k := ScanExplained(lines[start - 1..], start - 1, start, count, budget, [], 0);
    } else if start == |lines| + 1 {
      assert lines[start - 1..] == [];
    }
  }

  // All pages ---------------------------------------------------------------------------

  lemma {:induction false} LinesAreWhole(content: Bytes)
    ensures Concat(Lines(content)) == content
    ensures forall i :: 0 <= i < |Lines(content)| ==> Lines(content)[i] != []
    decreases |content|
  {
    if content == [] {
    } else {
      var n := LineEnd(content);
      LinesAreWhole(content[n..]);
      assert Lines(content)[1..] == Lines(content[n..]);
      assert content[..n] + content[n..] == content;
    }
  }

  /** A line ends with its only newline, and only the last one may have none. */
  lemma {:induction false} LinesEndAtNewlines(content: Bytes, i: nat)
    requires i < |Lines(content)|
    ensures
      var line := Lines(content)[i];
      && line != []
      && (forall k :: 0 <= k < |line| - 1 ==> line[k] != NEWLINE)
      && (i < |Lines(content)| - 1 ==> line[|line| - 1] == NEWLINE)
    decreases |content|
  {
    var n := LineEnd(content);
    var rest := content[n..];
    assert Lines(content)[1..] == Lines(rest);
    if i == 0 {
      LineEndsWell(content);
      FirstNewline(content);
      if rest == [] {
        NoLines(rest);
      }
    } else {
      LinesEndAtNewlines(rest, i - 1);
    }
  }

  lemma {:induction false} FirstNewline(s: Bytes)
    requires s != []
    ensures forall k :: 0 <= k < LineEnd(s) - 1 ==> s[k] != NEWLINE
  {
    if s[0] == NEWLINE || |s| == 1 {
    } else {
      FirstNewline(s[1..]);
      forall k | 0 <= k < LineEnd(s) - 1
        ensures s[k] != NEWLINE
      {
        assert k > 0 ==> s[k] == s[1..][k - 1];
      }
    }
  }

  lemma {:induction false} ConcatSplits(lines: seq<Bytes>, k: nat)
    requires k <= |lines|
    ensures Concat(lines) == Concat(lines[..k]) + Concat(lines[k..])
  {
    if k > 0 {
      ConcatSplits(lines[1..], k - 1);
      assert lines[1..][k - 1..] == lines[k..];
      ConcatStep(lines, k - 1);
      SeqAssociates(lines[0], Concat(lines[1..][..k - 1]), Concat(lines[k..]));
    } else {
      assert lines[..0] == [] && lines[0..] == lines;
    }
  }

  /** A page that does not fail takes at least one line, if there is one. */
  lemma PageAdvances(content: Bytes, startLine: int, count: int, maxBytes: int)
    requires Allowed(startLine, count, maxBytes)
    ensures
      var r := ReadPage(content, startLine, count, maxBytes);
      r.Read? && r.page.truncated ==> StartOf(startLine) < r.page.nextLine <= |Lines(content)|
  {
    hide IsText, Scan;
    var k := PageIsLongestRun(content, startLine, count, maxBytes);
    if StartOf(startLine) <= |Lines(content)| {
      var rest := Lines(content)[StartOf(startLine) - 1..];
      assert rest[..0] == [];
    }
  }

  /** Reading on from `NextLine` until a page is not truncated. */
  function ReadAll(content: Bytes, startLine: int, count: int, maxBytes: int): Option<Bytes>
    requires Allowed(startLine, count, maxBytes)
    decreases |Lines(content)| - StartOf(startLine)
  {
    match ReadPage(content, startLine, count, maxBytes)
    case Failed(_) => None
    case Read(page) =>
      if !page.truncated then Some(page.content)
      else
        PageAdvances(content, startLine, count, maxBytes);
        match ReadAll(content, page.nextLine, count, maxBytes)
        case None => None
        case Some(more) => Some(page.content + more)
  }

  ghost predicate GoodLines(lines: seq<Bytes>, budget: int) {
    forall i :: 0 <= i < |lines| ==> IsText(lines[i]) && |lines[i]| <= budget
  }

  /** A page either fails, at a bad line, or takes good lines only. */
  lemma PageOfLines(content: Bytes, startLine: int, count: int, maxBytes: int) returns (k: nat)
    requires Allowed(startLine, count, maxBytes) && StartOf(startLine) <= |Lines(content)|
    ensures
      var start, budget := StartOf(startLine), BudgetOf(maxBytes);
      var rest := Lines(content)[start - 1..];
      var r := ReadPage(content, startLine, count, maxBytes);
      && k <= |rest|
      && (r.Failed? ==> !GoodLines(rest, budget))
      && (r.Read? ==> GoodLines(rest[..k], budget) && r.page.content == Concat(rest[..k]))
      && (r.Read? ==> r.page.truncated == (k < |rest|) && (k < |rest| ==> r.page.nextLine == start + k))
  {
    hide IsText, Scan, Lines;
    k := PageIsLongestRun(content, startLine, count, maxBytes);
    var rest := Lines(content)[StartOf(startLine) - 1..];
    var r := ReadPage(content, startLine, count, maxBytes);
    if r.Read? {
      LinesWithin(rest, k, BudgetOf(maxBytes));
    }
  }

  lemma {:induction false} LinesWithin(lines: seq<Bytes>, k: nat, budget: int)
    requires k <= |lines| && |Concat(lines[..k])| <= budget
    ensures forall i :: 0 <= i < k ==> |lines[i]| <= budget
  {
    forall i | 0 <= i < k
      ensures |lines[i]| <= budget
    {
      ConcatSplits(lines[..k], i);
      assert lines[..k][i..][0] == lines[i];
    }
  }

  lemma {:induction false} ReadAllFrom(content: Bytes, startLine: int, count: int, maxBytes: int)
    requires Allowed(startLine, count, maxBytes) && StartOf(startLine) <= |Lines(content)|
    ensures
      var rest := Lines(content)[StartOf(startLine) - 1..];
      var all := ReadAll(content, startLine, count, maxBytes);
      && (all.Some? <==> GoodLines(rest, BudgetOf(maxBytes)))
      && (all.Some? ==> all.value == Concat(rest))
    decreases |Lines(content)| - StartOf(startLine)
  {
    hide IsText, ReadPage, Lines;
    var budget := BudgetOf(maxBytes);
    var rest := Lines(content)[StartOf(startLine) - 1..];
    var r := ReadPage(content, startLine, count, maxBytes);
    var k := PageOfLines(content, startLine, count, maxBytes);
    PageAdvances(content, startLine, count, maxBytes);
    if !r.Read? {
    } else {
      if r.page.truncated {
        var next := r.page.nextLine;
        assert Lines(content)[next - 1..] == rest[k..];
        ReadAllFrom(content, next, count, maxBytes);
        ConcatSplits(rest, k);
        GoodSplits(rest, k, budget);
      } else {
        assert rest[..k] == rest;
      }
    }
  }

  lemma GoodSplits(lines: seq<Bytes>, k: nat, budget: int)
    requires k <= |lines|
    ensures GoodLines(lines, budget) <==> GoodLines(lines[..k], budget) && GoodLines(lines[k..], budget)
  {
    hide IsText;
    if GoodLines(lines[..k], budget) && GoodLines(lines[k..], budget) {
      forall i | 0 <= i < |lines|
        ensures IsText(lines[i]) && |lines[i]| <= budget
      {
        if i < k {
          assert lines[i] == lines[..k][i];
        } else {
          assert lines[i] == lines[k..][i - k];
        }
      }
    }
  }

  /** A character never runs over a newline. */
  lemma NewlineEndsChar(a: Bytes, b: Bytes)
    requires a != [] && a[|a| - 1] == NEWLINE
    ensures Valid(a + b) <==> Valid(a) && Valid(b)
  {
    hide IsChar;
    var n := |a| - 1;
    var s := a + b;
    assert s[n] == NEWLINE && s[..n] + [NEWLINE] == a;
    NewlineIsChar();
    if Valid(s) {
      BoundaryIffRuneStart(s, n);
      ValidConcat(s[..n], [NEWLINE]);
      ValidSuffix(a, b);
    } else if Valid(a) && Valid(b) {
      ValidConcat(a, b);
    }
  }

  lemma NewlineIsChar()
    ensures Valid([NEWLINE]) && RuneStart(NEWLINE)
  {
    var s := [NEWLINE];
    assert s[..1] == s && Valid(s[1..]);
  }

  ghost predicate AllText(lines: seq<Bytes>) { forall i :: 0 <= i < |lines| ==> IsText(lines[i]) }

  lemma AllTextSplits(first: Bytes, rest: seq<Bytes>)
    ensures AllText([first] + rest) <==> IsText(first) && AllText(rest)
  {
    hide IsText;
    var lines := [first] + rest;
    assert lines[0] == first && forall i :: 0 <= i < |rest| ==> rest[i] == lines[i + 1];
  }

  /** A file is text exactly if all of its lines are. */
  lemma {:induction false} TextByLine(content: Bytes)
    ensures IsText(content) <==> AllText(Lines(content))
    decreases |content|
  {
    hide IsText;
    if content == [] {
      EmptyIsText();
    } else {
      var n := LineEnd(content);
      TextByLine(content[n..]);
      FirstAndRest(content, content[..n], content[n..]);
      AllTextSplits(content[..n], Lines(content[n..]));
    }
  }

  lemma EmptyIsText()
    ensures IsText([])
  {}

  lemma FirstAndRest(content: Bytes, first: Bytes, rest: Bytes)
    requires content != [] && first == content[..LineEnd(content)] && rest == content[LineEnd(content)..]
    ensures IsText(content) <==> IsText(first) && IsText(rest)
  {
    hide Valid;
    assert content == first + rest;
    assert forall x: Byte :: x in first + rest <==> x in first || x in rest;
    LineEndsWell(content);
    if rest == [] {
      assert first == content;
      EmptyIsText();
    } else {
      NewlineEndsChar(first, rest);
    }
  }

  lemma {:induction false} LineEndsWell(s: Bytes)
    requires s != []
    ensures s[LineEnd(s) - 1] == NEWLINE || LineEnd(s) == |s|
  {
    if s[0] == NEWLINE || |s| == 1 {
    } else {
      LineEndsWell(s[1..]);
    }
  }

  /** Reading page by page, from the beginning, ends without an error exactly if the
      file is text and every line fits the budget, and then the pages make up the
      file. */
  lemma PagesMakeUpTheFile(content: Bytes, count: int, maxBytes: int)
    requires Allowed(0, count, maxBytes)
    ensures
      var all := ReadAll(content, 0, count, maxBytes);
      && (all.Some? <==>
            IsText(content) && forall i :: 0 <= i < |Lines(content)| ==> |Lines(content)[i]| <= BudgetOf(maxBytes))
      && (all.Some? ==> all.value == content)
  {
    hide IsText, ReadPage, ReadAll, Lines;
    TextByLine(content);
    LinesAreWhole(content);
    NoLines(content);
    if content == [] {
      EmptyFile(count, maxBytes);
    } else {
      assert Lines(content)[0..] == Lines(content);
      ReadAllFrom(content, 0, count, maxBytes);
    }
  }

  lemma EmptyFile(count: int, maxBytes: int)
    requires Allowed(0, count, maxBytes)
    ensures ReadAll([], 0, count, maxBytes) == Some([])
  {
    assert ReadPage([], 0, count, maxBytes) == Read(Page([], 0, 0, false));
  }
}
