/**
 * `getErrorLogsForKeyword` (Notifier.kt:213-246) and the loop in `main`
 * that tries the failure keywords in turn (Notifier.kt:57, 81-91): find the
 * last log line holding a keyword and keep the lines around it as the
 * error log.
 */
module Excerpt {
  import opened Wrappers
  import opened Text
  import opened Lines

  /** Lines kept before the anchoring line; the window ends this many lines after it, exclusive. */
  const Radius: nat := 100

  /** The failure keywords, in the order a failed build's log is searched for them. */
  const Keywords: seq<string> := ["FAILED:", "Error", "ERROR", "error"]

  /** A log file the run writes: its name in the logs directory and its text. */
  datatype LogFile = LogFile(name: string, content: string)

  /** `error_<timestamp>.log`. */
  function ErrorLogName(stamp: string): string {
    "error_" + stamp + ".log"
  }

  /** Index of the last line holding `keyword`, or -1 when no line does. */
  function LastContaining(lines: seq<string>, keyword: string): (r: int)
    ensures -1 <= r < |lines|
    ensures r == -1 <==> forall j :: 0 <= j < |lines| ==> !Contains(lines[j], keyword)
    ensures 0 <= r ==> Contains(lines[r], keyword)
    ensures forall j :: r < j < |lines| ==> !Contains(lines[j], keyword)
  {
    if lines == [] then -1
    else if Contains(lines[|lines| - 1], keyword) then |lines| - 1
    else LastContaining(lines[..|lines| - 1], keyword)
  }

  /** Scanning one more line: it becomes the last match if it holds the keyword. */
  lemma LastContainingStep(lines: seq<string>, i: nat, keyword: string)
    requires i < |lines|
    ensures LastContaining(lines[..i + 1], keyword)
      == if Contains(lines[i], keyword) then i else LastContaining(lines[..i], keyword)
  {
    assert lines[..i + 1][..i] == lines[..i];
  }

  /** First line of the window around `i`: `i - radius`, raised to 0. */
  function WindowStart(i: int, radius: nat): int {
    if i - radius < 0 then 0 else i - radius
  }

  /** End (exclusive) of the window around `i`: `i + radius`, lowered to `n`. */
  function WindowEnd(i: int, radius: nat, n: nat): int {
    if i + radius > n then n else i + radius
  }

  /** `lines.subList(startLine, endLine)` around the line at `i`. */
  function Window(lines: seq<string>, i: nat, radius: nat): seq<string>
    requires i < |lines|
  {
    lines[WindowStart(i, radius)..WindowEnd(i, radius, |lines|)]
  }

  /**
   * The window stays inside the log, holds at most `2 * radius` lines (at
   * most `radius` before the anchor and `radius - 1` after it), is a
   * contiguous run of the log, and holds the anchor line itself whenever
   * the radius is positive.
   */
  lemma WindowShape(lines: seq<string>, i: nat, radius: nat)
    requires i < |lines|
    ensures 0 <= WindowStart(i, radius) <= i
    ensures WindowEnd(i, radius, |lines|) <= |lines|
    ensures |Window(lines, i, radius)| <= 2 * radius
    ensures i - WindowStart(i, radius) <= radius
    ensures WindowEnd(i, radius, |lines|) - i <= radius
    ensures forall t :: 0 <= t < |Window(lines, i, radius)| ==>
      Window(lines, i, radius)[t] == lines[WindowStart(i, radius) + t]
    ensures 0 < radius ==>
      i < WindowEnd(i, radius, |lines|) && Window(lines, i, radius)[i - WindowStart(i, radius)] == lines[i]
    ensures WindowStart(i, radius) == 0 <==> i <= radius
    ensures WindowEnd(i, radius, |lines|) == |lines| <==> |lines| <= i + radius
  {
  }

  /**
   * The excerpt the lines give for `keyword`: nothing when no line holds it;
   * otherwise the error log holding the window around the last line with
   * `keyword`, each line followed by "\n".
   */
  function LinesExcerpt(keyword: string, lines: seq<string>, stamp: string): Option<LogFile> {
    var errorLine := LastContaining(lines, keyword);
    if errorLine == -1 then None
    else Some(LogFile(ErrorLogName(stamp), JoinLines(Window(lines, errorLine, Radius))))
  }

  /** What `getErrorLogsForKeyword` returns: nothing unless the whole log text holds `keyword`. */
  function KeywordExcerpt(keyword: string, logText: string, lines: seq<string>, stamp: string): (r: Option<LogFile>)
    ensures r.Some? ==> Contains(logText, keyword) && r.value.name == ErrorLogName(stamp)
    ensures lines == [] ==> r.None?
  {
    if !Contains(logText, keyword) then None else LinesExcerpt(keyword, lines, stamp)
  }

  /**
   * An excerpt exists exactly when the text and some line hold the keyword;
   * it is named after the run's timestamp and is the window around the
   * HIGHEST-index line holding the keyword.
   */
  lemma KeywordExcerptAnchor(keyword: string, logText: string, lines: seq<string>, stamp: string)
    ensures KeywordExcerpt(keyword, logText, lines, stamp).None? <==>
      !Contains(logText, keyword) || forall j :: 0 <= j < |lines| ==> !Contains(lines[j], keyword)
    ensures forall i :: (0 <= i < |lines| && Contains(lines[i], keyword) && Contains(logText, keyword)
      && (forall j :: i < j < |lines| ==> !Contains(lines[j], keyword))) ==>
        KeywordExcerpt(keyword, logText, lines, stamp)
        == Some(LogFile(ErrorLogName(stamp), JoinLines(lines[WindowStart(i, Radius)..WindowEnd(i, Radius, |lines|)])))
  {
    var last := LastContaining(lines, keyword);
    forall i | 0 <= i < |lines| && Contains(lines[i], keyword) && Contains(logText, keyword)
      && (forall j :: i < j < |lines| ==> !Contains(lines[j], keyword))
      ensures last == i
    {
      assert last >= i;
    }
  }

  /**
   * When the lines are those read back from the log text itself, the check
   * on the whole text never changes the outcome: the excerpt depends on the
   * lines alone.
   */
  lemma TextCheckRedundant(keyword: string, logText: string, stamp: string)
    ensures KeywordExcerpt(keyword, logText, ReadLines(logText), stamp)
      == LinesExcerpt(keyword, ReadLines(logText), stamp)
  {
    var i := LastContaining(ReadLines(logText), keyword);
    if i != -1 {
      ReadLineInText(logText, i, keyword);
    }
  }

  /** The scan in `getErrorLogsForKeyword` that remembers the index of each line holding `keyword`. */
  method FindLastLine(lines: seq<string>, keyword: string) returns (errorLine: int)
    ensures errorLine == LastContaining(lines, keyword)
  {
    errorLine := -1;
    for i := 0 to |lines|
      invariant errorLine == LastContaining(lines[..i], keyword)
    {
      LastContainingStep(lines, i, keyword);
      if Contains(lines[i], keyword) {
        errorLine := i;
      }
    }
    assert lines[..|lines|] == lines;
  }

  /** The loop appending `lines[j] + "\n"` for each `j` from `startLine` up to, not including, `endLine`. */
  method AppendLines(lines: seq<string>, startLine: nat, endLine: nat) returns (errorLines: string)
    requires startLine <= endLine <= |lines|
    ensures errorLines == JoinLines(lines[startLine..endLine])
  {
    errorLines := "";
    for j := startLine to endLine
      invariant errorLines == JoinLines(lines[startLine..j])
    {
      assert lines[startLine..j + 1] == lines[startLine..j] + [lines[j]];
      JoinLinesSnoc(lines[startLine..j], lines[j]);
      errorLines := errorLines + lines[j] + "\n";
    }
  }

  /** `getErrorLogsForKeyword`, with the file it writes returned as a value. */
  method ErrorLogsForKeyword(keyword: string, logText: string, lines: seq<string>, stamp: string)
    returns (errorLogFile: Option<LogFile>)
    ensures errorLogFile == KeywordExcerpt(keyword, logText, lines, stamp)
  {
    errorLogFile := None;
    if Contains(logText, keyword) {
      var errorLine := FindLastLine(lines, keyword);
      if errorLine != -1 {
        var startLine := errorLine - Radius;
        if startLine < 0 {
          startLine := 0;
        }
        var endLine := errorLine + Radius;
        if endLine > |lines| {
          endLine := |lines|;
        }
        var errorLines := AppendLines(lines, startLine, endLine);
        errorLogFile := Some(LogFile(ErrorLogName(stamp), errorLines));
      }
    }
  }

  /** The keyword loop: the first keyword, in order, that yields an excerpt decides it. */
  function FirstExcerpt(keywords: seq<string>, logText: string, lines: seq<string>, stamp: string): (r: Option<LogFile>)
    ensures r.Some? ==> r.value.name == ErrorLogName(stamp)
    ensures r.Some? ==> exists j :: 0 <= j < |keywords| && Contains(logText, keywords[j])
    decreases |keywords|
  {
    if keywords == [] then None
    else
      var excerpt := KeywordExcerpt(keywords[0], logText, lines, stamp);
      if excerpt.Some? then excerpt else FirstExcerpt(keywords[1..], logText, lines, stamp)
  }

  /** There is no excerpt exactly when no keyword yields one. */
  lemma {:induction false} FirstExcerptNone(keywords: seq<string>, logText: string, lines: seq<string>, stamp: string)
    ensures FirstExcerpt(keywords, logText, lines, stamp).None? <==>
      forall j :: 0 <= j < |keywords| ==> KeywordExcerpt(keywords[j], logText, lines, stamp).None?
    decreases |keywords|
  {
    if keywords != [] {
      var rest := keywords[1..];
      FirstExcerptNone(rest, logText, lines, stamp);
      assert forall j :: 1 <= j < |keywords| ==> keywords[j] == rest[j - 1];
    }
  }

  /**
   * Keyword priority: when keyword j yields an excerpt and no earlier
   * keyword does, that excerpt is the result; later keywords are never
   * consulted.
   */
  lemma {:induction false} FirstExcerptPriority(keywords: seq<string>, logText: string, lines: seq<string>, stamp: string, j: nat)
    requires j < |keywords| && KeywordExcerpt(keywords[j], logText, lines, stamp).Some?
    requires forall t :: 0 <= t < j ==> KeywordExcerpt(keywords[t], logText, lines, stamp).None?
    ensures FirstExcerpt(keywords, logText, lines, stamp) == KeywordExcerpt(keywords[j], logText, lines, stamp)
    decreases j
  {
    if j > 0 {
      var rest := keywords[1..];
      assert KeywordExcerpt(keywords[0], logText, lines, stamp).None?;
      assert rest[j - 1] == keywords[j];
      forall t | 0 <= t < j - 1
        ensures KeywordExcerpt(rest[t], logText, lines, stamp).None?
      {
        assert rest[t] == keywords[t + 1];
      }
      FirstExcerptPriority(rest, logText, lines, stamp, j - 1);
    }
  }

  /** The `for (keyword in keywordsToSearchFor)` loop with its early `break`. */
  method SearchKeywords(keywords: seq<string>, logText: string, lines: seq<string>, stamp: string)
    returns (errorLogFile: Option<LogFile>)
    ensures errorLogFile == FirstExcerpt(keywords, logText, lines, stamp)
  {
    errorLogFile := None;
    for i := 0 to |keywords|
      invariant errorLogFile.None? ==>
        FirstExcerpt(keywords, logText, lines, stamp) == FirstExcerpt(keywords[i..], logText, lines, stamp)
      invariant errorLogFile.Some? ==> errorLogFile == FirstExcerpt(keywords, logText, lines, stamp)
    {
      if errorLogFile.Some? {
        break;
      }
      assert keywords[i..][1..] == keywords[i + 1..];
      errorLogFile := ErrorLogsForKeyword(keywords[i], logText, lines, stamp);
    }
  }
}
