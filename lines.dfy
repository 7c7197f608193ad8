/**
 * The two views of a build log: the text a `StringBuilder` accumulates by
 * appending `line + "\n"`, and the list of lines `File.readLines()` reads
 * back from that text.
 */
module Lines {
  import opened Text

  /** `line` holds no line terminator, as every line `BufferedReader.readLine` yields. */
  predicate IsLine(line: string) {
    '\n' !in line && '\r' !in line
  }

  /** The text after appending `l + "\n"` for each `l` of `lines`, in order, to an empty builder. */
  function JoinLines(lines: seq<string>): (r: string)
    ensures |r| >= |lines|
  {
    if lines == [] then [] else JoinLines(lines[..|lines| - 1]) + lines[|lines| - 1] + "\n"
  }

  /** Appending one more line to the builder. */
  lemma JoinLinesSnoc(lines: seq<string>, l: string)
    ensures JoinLines(lines + [l]) == JoinLines(lines) + l + "\n"
  {
    assert (lines + [l])[..|lines|] == lines;
  }

  /** The joined text read from the front: the first line, its terminator, then the rest. */
  lemma {:induction false} JoinLinesCons(l: string, lines: seq<string>)
    ensures JoinLines([l] + lines) == l + "\n" + JoinLines(lines)
    decreases |lines|
  {
    if lines == [] {
      assert [l] + lines == [] + [l];
      JoinLinesSnoc([], l);
    } else {
      var init, last := lines[..|lines| - 1], lines[|lines| - 1];
      assert lines == init + [last];
      assert [l] + lines == ([l] + init) + [last];
      calc {
        JoinLines([l] + lines);
        { JoinLinesSnoc([l] + init, last); }
        JoinLines([l] + init) + last + "\n";
        { JoinLinesCons(l, init); }
        l + "\n" + JoinLines(init) + last + "\n";
        { JoinLinesSnoc(init, last); }
        l + "\n" + JoinLines(lines);
      }
    }
  }

  /** Index of the first '\n' or '\r' in `s`, or |s| if there is none. */
  function TerminatorIndex(s: string): (k: nat)
    ensures k <= |s|
    ensures forall i :: 0 <= i < k ==> s[i] != '\n' && s[i] != '\r'
    ensures k < |s| ==> s[k] == '\n' || s[k] == '\r'
  {
    if s == [] || s[0] == '\n' || s[0] == '\r' then 0 else 1 + TerminatorIndex(s[1..])
  }

  /** How many characters the terminator at `k` takes: "\r\n" counts as one terminator. */
  function TerminatorLength(s: string, k: nat): (n: nat)
    requires k <= |s|
    ensures k + n <= |s|
    ensures k < |s| <==> 1 <= n
  {
    if k == |s| then 0
    else if s[k] == '\r' && k + 1 < |s| && s[k + 1] == '\n' then 2
    else 1
  }

  /** What follows the terminator at `k`. */
  function AfterTerminator(s: string, k: nat): (r: string)
    requires k <= |s|
    ensures |r| < |s| || s == []
  {
    s[k + TerminatorLength(s, k)..]
  }

  /**
   * `readLines()`: the lines `BufferedReader.readLine` yields, where '\n',
   * '\r' and "\r\n" each end a line and a final terminator opens no empty
   * last line.
   */
  function ReadLines(text: string): seq<string>
    decreases |text|
  {
    if text == [] then []
    else
      var k := TerminatorIndex(text);
      [text[..k]] + ReadLines(AfterTerminator(text, k))
  }

  /** No line `readLines()` yields holds a line terminator. */
  lemma {:induction false} ReadLinesAreLines(text: string)
    ensures forall j :: 0 <= j < |ReadLines(text)| ==> IsLine(ReadLines(text)[j])
    decreases |text|
  {
    if text != [] {
      var k := TerminatorIndex(text);
      var rest := AfterTerminator(text, k);
      ReadLinesAreLines(rest);
      forall j | 0 <= j < |ReadLines(text)|
        ensures IsLine(ReadLines(text)[j])
      {
        ReadLinesAt(text, j);
      }
    }
  }

  /** Reading back what the builder accumulated gives the lines that were appended. */
  lemma {:induction false} ReadJoinedLines(lines: seq<string>)
    requires forall j :: 0 <= j < |lines| ==> IsLine(lines[j])
    ensures ReadLines(JoinLines(lines)) == lines
    decreases |lines|
  {
    if lines != [] {
      var l, rest := lines[0], lines[1..];
      assert lines == [l] + rest;
      JoinLinesCons(l, rest);
      var text := JoinLines(lines);
      assert text == l + "\n" + JoinLines(rest);
      var k := TerminatorIndex(text);
      assert text[|l|] == '\n';
      assert k == |l|;
      assert text[..k] == l;
      assert AfterTerminator(text, k) == JoinLines(rest);
      ReadJoinedLines(rest);
    }
  }

  /** Line `j` of `text` is its first line, or line `j - 1` of what follows the first terminator. */
  lemma ReadLinesAt(text: string, j: int)
    requires 0 <= j < |ReadLines(text)|
    ensures text != []
    ensures j == 0 ==> ReadLines(text)[j] == text[..TerminatorIndex(text)]
    ensures j > 0 ==> var rest := ReadLines(AfterTerminator(text, TerminatorIndex(text)));
      j - 1 < |rest| && ReadLines(text)[j] == rest[j - 1]
  {
  }

  /** A line read from `text` is a piece of `text`, so whatever it contains, `text` contains. */
  lemma {:induction false} ReadLineInText(text: string, j: int, key: string)
    requires 0 <= j < |ReadLines(text)|
    requires Contains(ReadLines(text)[j], key)
    ensures Contains(text, key)
    decreases |text|
  {
    var k := TerminatorIndex(text);
    ReadLinesAt(text, j);
    if j == 0 {
      ContainsInPrefix(text, k, key);
    } else {
      var from := k + TerminatorLength(text, k);
      ReadLineInText(AfterTerminator(text, k), j - 1, key);
      ContainsInSuffix(text, from, key);
    }
  }
}
