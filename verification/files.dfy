/**
 * The data files the storage handlers use, and how their text is read.
 *
 * A file is absent or present with some text. Whether the disk lets a
 * read, a write, a directory creation or a file creation succeed is not
 * known to the program; the model fixes it per file with four flags that
 * may take any value, so every I/O error path stays reachable.
 */
module Files {

  datatype FileState = Absent | Present(content: string)

  /** `!file.exists() || file.length() == 0`: the "first run" condition of every loader. */
  predicate HoldsNoData(st: FileState)
  {
    st.Absent? || st.content == []
  }

  class DataFile {
    var state: FileState
    var parentExists: bool
    const absolutePath: string
    const parentPath: string
    const readable: bool
    const writable: bool
    const canMakeDirectories: bool
    const canCreate: bool

    constructor (state: FileState, parentExists: bool, absolutePath: string, parentPath: string,
                 readable: bool, writable: bool, canMakeDirectories: bool, canCreate: bool)
      ensures this.state == state && this.parentExists == parentExists
      ensures this.absolutePath == absolutePath && this.parentPath == parentPath
      ensures this.readable == readable && this.writable == writable
      ensures this.canMakeDirectories == canMakeDirectories && this.canCreate == canCreate
    {
      this.state := state;
      this.parentExists := parentExists;
      this.absolutePath := absolutePath;
      this.parentPath := parentPath;
      this.readable := readable;
      this.writable := writable;
      this.canMakeDirectories := canMakeDirectories;
      this.canCreate := canCreate;
    }
  }

  predicate IsLineBreak(c: char)
  {
    c == '\n' || c == '\r'
  }

  predicate NoLineBreak(s: string)
  {
    forall i :: 0 <= i < |s| ==> !IsLineBreak(s[i])
  }

  /**
   * The lines `BufferedReader.readLine` returns for text `s`, in order:
   * a line ends at "\n", "\r" or "\r\n", and text after the last
   * terminator, if any, is one more line.
   */
  function ReadLines(s: string): (lines: seq<string>)
  {
    LinesFrom(s, [])
  }

  /** The lines of `s` when `current` has already been read on the line in progress. */
  function LinesFrom(s: string, current: string): (lines: seq<string>)
    decreases |s|
  {
    if s == [] then (if current == [] then [] else [current])
    else if s[0] == '\n' then [current] + LinesFrom(s[1..], [])
    else if s[0] == '\r' then
      [current] + LinesFrom(if |s| > 1 && s[1] == '\n' then s[2..] else s[1..], [])
    else LinesFrom(s[1..], current + [s[0]])
  }

  /** The text with every line terminator character removed. */
  function Unbroken(s: string): (r: string)
  {
    if s == [] then []
    else (if IsLineBreak(s[0]) then [] else [s[0]]) + Unbroken(s[1..])
  }

  /** The lines joined with nothing between them. */
  function Concat(lines: seq<string>): string
  {
    if lines == [] then [] else Concat(lines[..|lines| - 1]) + lines[|lines| - 1]
  }

  /** Each line followed by "\n", joined: what `append(line).append("\n")` builds. */
  function ConcatTerminated(lines: seq<string>): string
  {
    if lines == [] then [] else ConcatTerminated(lines[..|lines| - 1]) + lines[|lines| - 1] + "\n"
  }

  lemma {:induction false} ConcatCons(line: string, lines: seq<string>)
    ensures Concat([line] + lines) == line + Concat(lines)
    decreases |lines|
  {
    if lines != [] {
      var all := [line] + lines;
      assert all[..|all| - 1] == [line] + lines[..|lines| - 1];
      ConcatCons(line, lines[..|lines| - 1]);
    }
  }

  /** A line that `LinesFrom` returns is one that `current` started and contains no terminator. */
  lemma {:induction false} LinesFromHaveNoBreaks(s: string, current: string)
    requires NoLineBreak(current)
    ensures forall k :: 0 <= k < |LinesFrom(s, current)| ==> NoLineBreak(LinesFrom(s, current)[k])
    decreases |s|
  {
    if s == [] {
    } else if s[0] == '\n' {
      LinesFromHaveNoBreaks(s[1..], []);
    } else if s[0] == '\r' {
      LinesFromHaveNoBreaks(if |s| > 1 && s[1] == '\n' then s[2..] else s[1..], []);
    } else {
      LinesFromHaveNoBreaks(s[1..], current + [s[0]]);
    }
  }

  /** Joining the lines gives the text without its terminators. */
  lemma {:induction false} ConcatLinesFrom(s: string, current: string)
    ensures Concat(LinesFrom(s, current)) == current + Unbroken(s)
    decreases |s|, 1
  {
    if s == [] {
      if current != [] {
        assert [current][..0] == [];
      }
    } else if IsLineBreak(s[0]) {
      ConcatAfterBreak(s, current);
    } else {
      ConcatLinesFrom(s[1..], current + [s[0]]);
    }
  }

  /** The step of `ConcatLinesFrom` at a terminator: the line in progress ends and the terminator is dropped. */
  lemma {:induction false} ConcatAfterBreak(s: string, current: string)
    requires s != [] && IsLineBreak(s[0])
    ensures Concat(LinesFrom(s, current)) == current + Unbroken(s)
    decreases |s|, 0
  {
    var rest := if s[0] == '\r' && |s| > 1 && s[1] == '\n' then s[2..] else s[1..];
    assert LinesFrom(s, current) == [current] + LinesFrom(rest, []);
    assert Unbroken(s) == Unbroken(s[1..]);
    if rest != s[1..] {
      assert s[1..][1..] == rest;
      assert Unbroken(s[1..]) == Unbroken(rest);
    }
    ConcatLinesFrom(rest, []);
    ConcatCons(current, LinesFrom(rest, []));
  }

  /** The lines `readLine` returns hold no terminator, and together they are the text without terminators. */
  lemma ReadLinesJoined(s: string)
    ensures Concat(ReadLines(s)) == Unbroken(s)
    ensures forall k :: 0 <= k < |ReadLines(s)| ==> NoLineBreak(ReadLines(s)[k])
  {
    ConcatLinesFrom(s, []);
    LinesFromHaveNoBreaks(s, []);
  }

  /**
   * The read loop of the JSON loaders: every line `readLine` returns is
   * appended, without its terminator, to one buffer.
   */
  method ReadJoined(content: string) returns (data: string)
    ensures data == Unbroken(content)
  {
    var lines := ReadLines(content);
    data := [];
    var i := 0;
    while i < |lines|
      invariant 0 <= i <= |lines|
      invariant data == Concat(lines[..i])
    {
      assert lines[..i + 1][..i] == lines[..i];
      data := data + lines[i];
      i := i + 1;
    }
    assert lines[..i] == lines;
    ReadLinesJoined(content);
  }

  /**
   * The read loop of the profile loader: every line `readLine` returns is
   * appended followed by "\n".
   */
  method ReadTerminated(content: string) returns (data: string)
    ensures data == ConcatTerminated(ReadLines(content))
  {
    var lines := ReadLines(content);
    data := [];
    var i := 0;
    while i < |lines|
      invariant 0 <= i <= |lines|
      invariant data == ConcatTerminated(lines[..i])
    {
      assert lines[..i + 1][..i] == lines[..i];
      data := data + lines[i] + "\n";
      i := i + 1;
    }
    assert lines[..i] == lines;
  }
}
