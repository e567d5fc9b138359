/**
 The line index of a UTF-8 text: line starts found once, then looked up, and the
 source positions that map through it to byte ranges.
 */
module LineIndex {
  import opened Ranges

  const NEWLINE: Byte := 0x0A

  // ---------------------------------------------------------------------------- UTF-8

  predicate IsContinuation(b: Byte) {
    0x80 <= b <= 0xBF
  }

  predicate Between(b: Byte, low: int, high: int) {
    low <= b <= high
  }

  /** The length of the first character, by the table of section 4 of RFC 3629; zero if it is malformed. */
  function CharLength(text: seq<Byte>): nat {
    if text == [] then 0
    else if text[0] <= 0x7F then 1
    else if Between(text[0], 0xC2, 0xDF) then (if |text| >= 2 && IsContinuation(text[1]) then 2 else 0)
    else if Between(text[0], 0xE0, 0xEF) then
      if |text| >= 3 && IsContinuation(text[1]) && IsContinuation(text[2])
         && (text[0] == 0xE0 ==> text[1] >= 0xA0) && (text[0] == 0xED ==> text[1] <= 0x9F) then 3 else 0
    else if Between(text[0], 0xF0, 0xF4) then
      if |text| >= 4 && IsContinuation(text[1]) && IsContinuation(text[2]) && IsContinuation(text[3])
         && (text[0] == 0xF0 ==> text[1] >= 0x90) && (text[0] == 0xF4 ==> text[1] <= 0x8F) then 4 else 0
    else 0
  }

  predicate Utf8(text: seq<Byte>) {
    text == [] || (CharLength(text) > 0 && Utf8(text[CharLength(text)..]))
  }

  /** `is_char_boundary`. */
  predicate Boundary(text: seq<Byte>, at: nat) {
    at == 0 || at == |text| || (at < |text| && !IsContinuation(text[at]))
  }

  /** In well-formed text a character follows an ASCII byte, never a continuation. */
  lemma {:induction false} AfterAscii(text: seq<Byte>, i: nat)
    requires Utf8(text) && i < |text| && text[i] <= 0x7F
    ensures Boundary(text, i + 1)
    decreases |text|
  {
    var n := CharLength(text);
    if i < n {
      if n < |text| {
        assert CharLength(text[n..]) > 0;
        assert text[n..][0] == text[n];
      }
    } else {
      assert text[n..][i - n] == text[i];
      AfterAscii(text[n..], i - n);
      if i + 1 < |text| {
        assert text[n..][i + 1 - n] == text[i + 1];
      }
    }
  }

  // ------------------------------------------------------------------ scanning for lines

  /** `end_of_line`: one past the next newline, or the end of the text. */
  function EndOfLine(text: seq<Byte>, start: nat): (end: nat)
    ensures end <= |text| && (start < |text| ==> start < end)
    decreases if start < |text| then |text| - start else 0
  {
    if start >= |text| then |text|
    else if text[start] == NEWLINE then start + 1
    else EndOfLine(text, start + 1)
  }

  /** The start of the line `n` lines after the one at `from`, found by scanning newlines. */
  function ScanLine(text: seq<Byte>, from: nat, n: nat): nat
    decreases n
  {
    if n == 0 then from else ScanLine(text, EndOfLine(text, from), n - 1)
  }

  /** Zero, and one past each newline of `text[..end]`, in order. */
  ghost predicate IsIndexUpTo(text: seq<Byte>, starts: seq<nat>, end: nat)
    requires end <= |text|
  {
    && |starts| > 0 && starts[0] == 0
    && (forall i, j :: 0 <= i < j < |starts| ==> starts[i] < starts[j])
    && (forall i :: 0 < i < |starts| ==> 0 < starts[i] <= end && text[starts[i] - 1] == NEWLINE)
    && (forall at :: 0 <= at < end && text[at] == NEWLINE ==> at + 1 in starts)
  }

  ghost predicate IsIndex(text: seq<Byte>, starts: seq<nat>) {
    IsIndexUpTo(text, starts, |text|)
  }

  /** Where the index says line `n` starts, with the text's end for lines that do not exist. */
  function StartAt(starts: seq<nat>, n: nat, len: nat): nat {
    if n < |starts| && starts[n] <= len then starts[n] else len
  }

  lemma NoBreakBefore(text: seq<Byte>, starts: seq<nat>, i: nat, at: nat)
    requires IsIndex(text, starts) && i < |starts| && starts[i] <= at
    requires at < StartAt(starts, i + 1, |text|) - 1 || (i + 1 >= |starts| && at < |text|)
    ensures text[at] != NEWLINE
  {
  }

  lemma {:induction false} ScanReaches(text: seq<Byte>, from: nat, stop: nat)
    requires from <= stop <= |text|
    requires forall at :: from <= at && at + 1 < stop ==> text[at] != NEWLINE
    requires from < stop ==> text[stop - 1] == NEWLINE || (stop == |text| && text[stop - 1] != NEWLINE)
    requires from == stop ==> stop == |text|
    ensures EndOfLine(text, from) == stop
    decreases stop - from
  {
    if from < stop && text[from] != NEWLINE {
      if from + 1 < stop {
        ScanReaches(text, from + 1, stop);
      }
    }
  }

  /** One line ahead: the index and the scan agree on where the next line starts. */
  lemma IndexedLineEnds(text: seq<Byte>, starts: seq<nat>, i: nat)
    requires IsIndex(text, starts) && i < |starts|
    ensures EndOfLine(text, starts[i]) == StartAt(starts, i + 1, |text|)
  {
    var from, stop := starts[i], StartAt(starts, i + 1, |text|);
    assert from <= |text|;
    forall at | from <= at && at + 1 < stop
      ensures text[at] != NEWLINE
    {
      NoBreakBefore(text, starts, i, at);
    }
    if i + 1 >= |starts| && from < |text| {
      NoBreakBefore(text, starts, i, |text| - 1);
    }
    ScanReaches(text, from, stop);
  }

  lemma {:induction false} ScanFrom(text: seq<Byte>, starts: seq<nat>, i: nat, n: nat)
    requires IsIndex(text, starts) && i + n < |starts|
    ensures ScanLine(text, starts[i], n) == starts[i + n]
    decreases n
  {
    if n > 0 {
      IndexedLineEnds(text, starts, i);
      ScanFrom(text, starts, i + 1, n - 1);
    }
  }

  lemma IndexBegins(text: seq<Byte>)
    ensures IsIndexUpTo(text, [0], 0)
  {
  }

  /** One more byte of the text: a newline there starts one more line. */
  lemma IndexGrows(text: seq<Byte>, starts: seq<nat>, offset: nat)
    requires offset < |text| && IsIndexUpTo(text, starts, offset)
    ensures IsIndexUpTo(text, if text[offset] == NEWLINE then starts + [offset + 1] else starts, offset + 1)
  {
    var grown := if text[offset] == NEWLINE then starts + [offset + 1] else starts;
    forall at | 0 <= at < offset + 1 && text[at] == NEWLINE
      ensures at + 1 in grown
    {
      if at == offset {
        assert grown[|starts|] == at + 1;
      } else {
        assert at + 1 in starts;
      }
    }
  }

  class LineIndex {
    const text: seq<Byte>
    var lineStarts: seq<nat>

    ghost predicate Valid()
      reads this
    {
      IsIndex(text, lineStarts) && Utf8(text)
    }

    /** `from_text`: one pass over the bytes. */
    constructor (text: seq<Byte>)
      requires Utf8(text)
      ensures Valid() && this.text == text
    {
      this.text := text;
      var starts: seq<nat> := [0];
      var offset := 0;
      hide IsIndexUpTo;
      IndexBegins(text);
      while offset < |text|
        invariant offset <= |text| && IsIndexUpTo(text, starts, offset)
      {
        IndexGrows(text, starts, offset);
        if text[offset] == NEWLINE {
          starts := starts + [offset + 1];
        }
        offset := offset + 1;
      }
      lineStarts := starts;
    }

    function StartOf(line: nat): nat
      reads this
    {
      if line == 0 then 0 else StartAt(lineStarts, line - 1, |text|)
    }

    function NextOf(line: nat): nat
      reads this
    {
      StartAt(lineStarts, line, |text|)
    }

    /** The end of the line's content: its newline, if it has one, is left out. */
    function ContentEnd(line: nat): nat
      requires NextOf(line) <= |text|
      reads this
    {
      if StartOf(line) < NextOf(line) && text[NextOf(line) - 1] == NEWLINE then NextOf(line) - 1 else NextOf(line)
    }

    /** An existing line starts where scanning newlines finds it. */
    method LineStart(line: nat) returns (start: nat)
      requires Valid()
      ensures start == StartOf(line) <= |text| && Boundary(text, start)
      ensures 1 <= line <= |lineStarts| ==> start == ScanLine(text, 0, line - 1)
    {
      hide IsIndexUpTo, Utf8, ScanLine;
      StartIsBoundary(text, lineStarts, if line == 0 then 0 else line - 1);
      IndexStartsAtZero(text, lineStarts);
      if 1 <= line <= |lineStarts| {
        ScanFrom(text, lineStarts, 0, line - 1);
      }
      if line == 0 {
        return 0;
      }
      return if line - 1 < |lineStarts| && lineStarts[line - 1] <= |text| then lineStarts[line - 1] else |text|;
    }

    /** An existing line ends, break included, where scanning from its start ends. */
    method LineEndWithBreak(line: nat) returns (end: nat)
      requires Valid()
      ensures end == NextOf(line) && StartOf(line) <= end <= |text| && Boundary(text, end)
      ensures 1 <= line <= |lineStarts| ==> end == EndOfLine(text, ScanLine(text, 0, line - 1))
    {
      hide IsIndexUpTo, Utf8, ScanLine, EndOfLine;
      StartIsBoundary(text, lineStarts, line);
      IndexStartsAtZero(text, lineStarts);
      if 1 <= line <= |lineStarts| {
        ScanFrom(text, lineStarts, 0, line - 1);
        IndexedLineEnds(text, lineStarts, line - 1);
      }
      return if line < |lineStarts| && lineStarts[line] <= |text| then lineStarts[line] else |text|;
    }

    /** The line's end without its newline; the slice it looks at lies on character boundaries. */
    method LineEndContent(line: nat) returns (end: nat)
      requires Valid()
      ensures NextOf(line) <= |text| && StartOf(line) <= end == ContentEnd(line) && Boundary(text, end)
    {
      hide IsIndexUpTo, Utf8, ScanLine, EndOfLine;
      var start := LineStart(line);
      var next := LineEndWithBreak(line);
      return if start < next && text[next - 1] == NEWLINE then next - 1 else next;
    }

    /** `column_start_offset`: the last boundary at or before the column, within the line's content. */
    method ColumnStart(line: nat, column: nat) returns (offset: nat)
      requires Valid()
      ensures NextOf(line) <= |text| && StartOf(line) <= offset <= ContentEnd(line) && Boundary(text, offset)
      ensures forall at :: offset < at <= ContentEnd(line) && at < StartOf(line) + column ==> !Boundary(text, at)
    {
      hide IsIndexUpTo, Utf8, ScanLine, EndOfLine;
      var start := LineStart(line);
      var end := LineEndContent(line);
      if column <= 1 || start >= end {
        return start;
      }
      offset := Min(start + column - 1, end);
      while offset > start && !Boundary(text, offset)
        invariant start <= offset <= end
        invariant forall at :: offset < at <= end && at < start + column ==> !Boundary(text, at)
        decreases offset
      {
        offset := offset - 1;
      }
    }

    /** `column_end_offset`: the first boundary at or after the column's end, within the line's content. */
    method ColumnEnd(line: nat, column: nat) returns (offset: nat)
      requires Valid()
      ensures NextOf(line) <= |text| && StartOf(line) <= offset <= ContentEnd(line) && Boundary(text, offset)
      ensures forall at :: StartOf(line) + column <= at < offset ==> !Boundary(text, at)
    {
      hide IsIndexUpTo, Utf8, ScanLine, EndOfLine;
      var end := LineEndContent(line);
      var start := LineStart(line);
      if column == 0 || start >= end {
        return start;
      }
      offset := Min(start + column, end);
      while offset < end && !Boundary(text, offset)
        invariant start <= offset <= end
        invariant forall at :: start + column <= at < offset ==> !Boundary(text, at)
        decreases end - offset
      {
        offset := offset + 1;
      }
    }

    /** `sourcepos_to_range`: ordered, in bounds, and cut between characters, for every position. */
    method SourceposToRange(startLine: nat, startColumn: nat, endLine: nat, endColumn: nat) returns (found: bool, r: Range)
      requires Valid()
      ensures found <==> startLine != 0 && endLine != 0
      ensures found ==> r.start <= r.end <= |text| && Boundary(text, r.start) && Boundary(text, r.end)
      ensures found && startLine != endLine ==> NextOf(endLine) <= r.end
    {
      found, r := false, Range(0, 0);
      if startLine == 0 || endLine == 0 {
        return;
      }
      var start := ColumnStart(startLine, startColumn);
      var end := ColumnEnd(endLine, endColumn);
      if end < start {
        end := start;
      }
      if startLine != endLine {
        var lineEnd := LineEndWithBreak(endLine);
        if lineEnd > end {
          end := lineEnd;
        }
      }
      found, r := true, Range(start, end);
    }

    /**
     `full_line_range`: whole lines, as scanning would find them. It is ordered
     for a forward position; a backward one can come out reversed.
     */
    method FullLineRange(startLine: nat, endLine: nat) returns (r: Range)
      requires Valid()
      ensures text == [] ==> r == Range(0, 0)
      ensures text != [] ==> r == Range(StartOf(startLine), NextOf(endLine))
      ensures startLine <= endLine ==> r.start <= r.end <= |text|
      ensures 1 <= startLine <= endLine <= |lineStarts| && text != [] ==>
        r == Range(ScanLine(text, 0, startLine - 1), EndOfLine(text, ScanLine(text, 0, endLine - 1)))
    {
      if |text| == 0 {
        return Range(0, 0);
      }
      var start := LineStart(startLine);
      var end := LineEndWithBreak(endLine);
      StartsInOrder(text, lineStarts, startLine, endLine);
      return Range(start, end);
    }
  }

  lemma IndexStartsAtZero(text: seq<Byte>, starts: seq<nat>)
    requires IsIndex(text, starts)
    ensures |starts| > 0 && starts[0] == 0 && forall i :: 0 <= i < |starts| ==> starts[i] <= |text|
  {
  }

  lemma StartIsBoundary(text: seq<Byte>, starts: seq<nat>, n: nat)
    requires IsIndex(text, starts) && Utf8(text)
    ensures Boundary(text, StartAt(starts, n, |text|))
    ensures n > 0 ==> StartAt(starts, n - 1, |text|) <= StartAt(starts, n, |text|)
  {
    if 0 < n < |starts| {
      AfterAscii(text, starts[n] - 1);
    }
  }

  lemma StartsInOrder(text: seq<Byte>, starts: seq<nat>, startLine: nat, endLine: nat)
    requires IsIndex(text, starts)
    ensures startLine <= endLine ==>
      (if startLine == 0 then 0 else StartAt(starts, startLine - 1, |text|)) <= StartAt(starts, endLine, |text|)
  {
  }
}
