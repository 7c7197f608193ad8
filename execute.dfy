/**
 * `executeFile` and `isWindows` (Notifier.kt:172-206, 264): run the build
 * script through bash, echo and capture every line it prints, and report
 * its exit code. The operating system's process is abstracted as what its
 * standard output yields and how it ends.
 */
module Execute {
  import opened Wrappers
  import opened Text
  import opened Lines

  /** The exit code reported when the process never finished normally. */
  const NoExitCode: int := -1

  /** `isWindows()`: the lower-cased `os.name` property mentions "windows". */
  predicate IsWindows(osName: string)
    ensures IsWindows(osName) ==> |osName| >= 7
  {
    Contains(AsciiLower(osName), "windows")
  }

  /** Upper or lower case in `os.name` makes no difference. */
  lemma IsWindowsIgnoresCase(osName: string)
    ensures IsWindows(AsciiLower(osName)) == IsWindows(osName)
  {
    assert AsciiLower(AsciiLower(osName)) == AsciiLower(osName);
  }

  /** Names seen on the JVM's `os.name` property on Windows. */
  lemma WindowsIsWindows()
    ensures IsWindows("Windows 10")
  {
    var win := AsciiLower("Windows 10");
    forall t | 0 <= t < 7 ensures win[t] == "windows"[t] {
      assert win[t] == AsciiLowerChar("Windows 10"[t]);
    }
    assert OccursAt(win, "windows", 0);
  }

  /** Names seen on the JVM's `os.name` property elsewhere. */
  lemma OthersAreNotWindows()
    ensures !IsWindows("Linux")
    ensures !IsWindows("Mac OS X")
  {
    NotWindows("Linux");
    NotWindows("Mac OS X");
  }

  /** A name without the letter 'w' in either case cannot mention "windows". */
  lemma NotWindows(osName: string)
    requires forall i :: 0 <= i < |osName| ==> osName[i] != 'w' && osName[i] != 'W'
    ensures !IsWindows(osName)
  {
    var lower := AsciiLower(osName);
    forall i | 0 <= i <= |lower| - 7 ensures !OccursAt(lower, "windows", i) {
      assert lower[i] != 'w';
      assert lower[i..i + 7][0] == lower[i];
    }
  }

  /**
   * The command `ProcessBuilder` is given: the script through WSL's bash on
   * Windows, through bash directly elsewhere.
   */
  function ShellCommand(fileName: string, osName: string): (cmd: seq<string>)
    ensures |cmd| >= 2 && cmd[|cmd| - 2..] == ["bash", fileName]
    ensures IsWindows(osName) <==> cmd[0] == "wsl"
    ensures IsWindows(osName) ==> cmd == ["wsl", "-e", "bash", fileName]
    ensures !IsWindows(osName) ==> cmd == ["bash", fileName]
  {
    if IsWindows(osName) then ["wsl", "-e", "bash", fileName] else ["bash", fileName]
  }

  /** How the process's standard output stops yielding lines. */
  datatype StreamEnd =
    | EndOfStream  // `readLine` returns null
    | ReadFault    // `readLine` throws

  /** What the operating system does with a command. */
  datatype Process =
    | StartFault   // `ProcessBuilder.start` throws
    | Started(output: seq<string>, end: StreamEnd, exit: Option<int>)  // `exit` is None when `waitFor` throws

  /** The pair `executeFile` returns: the exit code and the captured log. */
  datatype Execution = Execution(exitCode: int, log: string)

  /** `line + "\n"` where `line: String?`: Kotlin writes a null line as "null". */
  function Rendered(line: Option<string>): string {
    match line
    case Some(l) => l
    case None => "null"
  }

  /**
   * What `executeFile` returns for a process: every line read, each followed
   * by "\n", then "null\n" for the read that found the end of the stream;
   * the exit code only when `waitFor` returned one. An exit code other than
   * -1 comes only from a process that ran to the end of its output and whose
   * `waitFor` returned that code; a process that never started leaves
   * nothing in the log.
   */
  function Capture(p: Process): (r: Execution)
    ensures r.exitCode != NoExitCode ==> p.Started? && p.end == EndOfStream && p.exit == Some(r.exitCode)
    ensures p.StartFault? ==> r == Execution(NoExitCode, "")
    ensures p.Started? && p.end == ReadFault ==> r.exitCode == NoExitCode
  {
    match p
    case StartFault => Execution(NoExitCode, "")
    case Started(output, ReadFault, _) => Execution(NoExitCode, JoinLines(output))
    case Started(output, EndOfStream, None) => Execution(NoExitCode, JoinLines(output) + "null\n")
    case Started(output, EndOfStream, Some(code)) => Execution(code, JoinLines(output) + "null\n")
  }

  /** The lines `println(line)` shows on the console while the process runs. */
  function Echoed(p: Process): seq<string> {
    match p
    case StartFault => []
    case Started(output, ReadFault, _) => output
    case Started(output, EndOfStream, _) => output + ["null"]
  }

  /**
   * The `do { line = reader.readLine(); ... } while (line != null)` loop:
   * copy each line read to the log, followed by "\n"; `faulted` when a read
   * threw and ended the loop.
   */
  method ReadOutput(output: seq<string>, end: StreamEnd) returns (logBuilder: string, faulted: bool)
    ensures faulted <==> end == ReadFault
    ensures faulted ==> logBuilder == JoinLines(output)
    ensures !faulted ==> logBuilder == JoinLines(output) + "null\n"
  {
    logBuilder := "";
    faulted := false;
    var i := 0;
    var line: Option<string> := Some("");
    while line.Some?
      invariant 0 <= i <= |output|
      invariant line.Some? ==> logBuilder == JoinLines(output[..i])
      invariant line.None? ==> i == |output| && end == EndOfStream && logBuilder == JoinLines(output) + "null\n"
      decreases |output| - i + (if line.Some? then 1 else 0)
    {
      if i < |output| {
        line := Some(output[i]);
        assert output[..i + 1] == output[..i] + [output[i]];
        JoinLinesSnoc(output[..i], output[i]);
        i := i + 1;
      } else if end == ReadFault {
        faulted := true;
        break;
      } else {
        line := None;
        assert output[..i] == output;
      }
      logBuilder := logBuilder + Rendered(line) + "\n";
    }
    if faulted {
      assert output[..i] == output;
    }
  }

  /**
   * `executeFile`: start the command in the working directory, copy each
   * line read to the log until `readLine` gives null, then wait for the
   * exit code; any exception leaves the exit code at -1 and the log as far
   * as it got.
   */
  method ExecuteFile(fileName: string, osName: string, exec: seq<string> -> Process)
    returns (result: Execution)
    ensures result == Capture(exec(ShellCommand(fileName, osName)))
  {
    result := Launch(ShellCommand(fileName, osName), exec);
  }

  /** The body of `executeFile` once the command is built. */
  method Launch(command: seq<string>, exec: seq<string> -> Process) returns (result: Execution)
    ensures result == Capture(exec(command))
  {
    var logBuilder := "";
    var exitCode := NoExitCode;
    var p := exec(command);
    if p.Started? {
      var faulted;
      logBuilder, faulted := ReadOutput(p.output, p.end);
      if !faulted && p.exit.Some? {
        exitCode := p.exit.value;
      }
    }
    result := Execution(exitCode, logBuilder);
    assert result == Capture(p) by {
      match p
      case StartFault =>
      case Started(_, ReadFault, _) =>
      case Started(_, EndOfStream, None) =>
      case Started(_, EndOfStream, Some(_)) =>
    }
  }

  /**
   * The captured log, split into lines as `readLines()` splits it, is
   * exactly what was echoed to the console, in the same order.
   */
  lemma CaptureMatchesEcho(p: Process)
    requires p.Started? ==> forall j :: 0 <= j < |p.output| ==> IsLine(p.output[j])
    ensures ReadLines(Capture(p).log) == Echoed(p)
  {
    match p
    case StartFault =>
    case Started(output, ReadFault, _) =>
      ReadJoinedLines(output);
    case Started(output, EndOfStream, _) =>
      assert Capture(p).log == JoinLines(output) + "null" + "\n";
      JoinLinesSnoc(output, "null");
      assert IsLine("null");
      ReadJoinedLines(output + ["null"]);
  }
}
