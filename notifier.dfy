/**
 * `main` (Notifier.kt:28-167) and `Array.getOr` (Notifier.kt:169): read the
 * positional arguments, run the build script, save its log, cut an error
 * excerpt out of a failed build's log, read the device token, upload the
 * logs, work out the progress marker and send the notification. The file
 * system, the storage bucket and the messaging service are abstracted as
 * an `Environment` value that says what each of them yields.
 */
module Notifier {
  import opened Wrappers
  import opened Text
  import opened Lines
  import opened Execute
  import opened Excerpt

  /** `args.getOr(num, defaultValue)`: the argument at `num` when there is one, else the default. */
  function GetOr(args: seq<string>, num: nat, defaultValue: string): (r: string)
    ensures num < |args| ==> r == args[num]
    ensures |args| <= num ==> r == defaultValue
  {
    if |args| > num then args[num] else defaultValue
  }

  /** `File.separatorChar` and the alternative that `java.io.File` accepts on Windows. */
  predicate IsSeparator(c: char, windows: bool) {
    c == '/' || (windows && c == '\\')
  }

  /** `File.separator`. */
  function Separator(windows: bool): string {
    if windows then "\\" else "/"
  }

  /** The longest suffix of `path` that holds no separator. */
  function LastComponent(path: string, windows: bool): (r: string)
    ensures |r| <= |path| && r == path[|path| - |r|..]
    ensures forall i :: 0 <= i < |r| ==> !IsSeparator(r[i], windows)
    ensures |r| < |path| ==> IsSeparator(path[|path| - |r| - 1], windows)
  {
    if path == [] || IsSeparator(path[|path| - 1], windows) then []
    else LastComponent(path[..|path| - 1], windows) + [path[|path| - 1]]
  }

  /** `path` without its trailing separators, as `java.io.File` normalises it. */
  function StripTrailing(path: string, windows: bool): (r: string)
    ensures |r| <= |path| && r == path[..|r|]
    ensures forall i :: |r| <= i < |path| ==> IsSeparator(path[i], windows)
    ensures r == [] || !IsSeparator(r[|r| - 1], windows)
  {
    if path != [] && IsSeparator(path[|path| - 1], windows) then StripTrailing(path[..|path| - 1], windows)
    else path
  }

  /**
   * `File(path).name`: what follows the last separator once trailing
   * separators are dropped; empty only when the path is nothing but
   * separators.
   */
  function BaseName(path: string, windows: bool): (r: string)
    ensures |r| <= |StripTrailing(path, windows)|
    ensures r == StripTrailing(path, windows)[|StripTrailing(path, windows)| - |r|..]
    ensures forall i :: 0 <= i < |r| ==> !IsSeparator(r[i], windows)
    ensures r == [] <==> forall i :: 0 <= i < |path| ==> IsSeparator(path[i], windows)
  {
    LastComponent(StripTrailing(path, windows), windows)
  }

  /** A plain file name appended after a separator is the base name of the result. */
  lemma BaseNameOfPlainName(dir: string, name: string, windows: bool)
    requires dir == [] || IsSeparator(dir[|dir| - 1], windows)
    requires name != [] && forall i :: 0 <= i < |name| ==> !IsSeparator(name[i], windows)
    ensures BaseName(dir + name, windows) == name
  {
    var path := dir + name;
    assert path[|path| - 1] == name[|name| - 1];
    LastComponentOfPlainName(dir, name, windows);
  }

  lemma LastComponentOfPlainName(dir: string, name: string, windows: bool)
    requires dir == [] || IsSeparator(dir[|dir| - 1], windows)
    requires forall i :: 0 <= i < |name| ==> !IsSeparator(name[i], windows)
    ensures LastComponent(dir + name, windows) == name
  {
    var path := dir + name;
    var r := LastComponent(path, windows);
    assert forall i :: |dir| <= i < |path| ==> path[i] == name[i - |dir|];
    assert |name| <= |r|;
    assert dir != [] ==> path[|dir| - 1] == dir[|dir| - 1];
    assert |r| <= |name|;
    assert path[|dir|..] == name;
  }

  /**
   * The path of the build script, `<working dir>/logs/` + separator + the
   * script argument; only its base name reaches the shell.
   */
  function BuildFilePath(workingDir: string, script: string, windows: bool): string {
    var sep := Separator(windows);
    workingDir + sep + "logs" + sep + sep + script
  }

  /** `build_<timestamp>.log`. */
  function BuildLogName(stamp: string): string {
    "build_" + stamp + ".log"
  }

  /** The progress marker used when no line starts with '['. */
  const UnknownProgress: string := "Unknown"

  /** Index of the last line that starts with '[', or -1 when none does. */
  function LastBracketed(lines: seq<string>): (r: int)
    ensures -1 <= r < |lines|
    ensures r == -1 <==> forall j :: 0 <= j < |lines| ==> !StartsWithBracket(lines[j])
    ensures 0 <= r ==> StartsWithBracket(lines[r])
    ensures forall j :: r < j < |lines| ==> !StartsWithBracket(lines[j])
  {
    if lines == [] then -1
    else if StartsWithBracket(lines[|lines| - 1]) then |lines| - 1
    else LastBracketed(lines[..|lines| - 1])
  }

  /**
   * The progress marker: characters 1 to 3 of the last line starting with
   * '[', or "Unknown", trimmed (trimming leaves "Unknown" as it is); None
   * when that line is shorter than four characters, where `substring(1, 4)`
   * throws.
   */
  function ProgressMarker(lines: seq<string>): (r: Option<string>)
    ensures r.Some? && r.value != [] ==> !IsWhitespace(r.value[0]) && !IsWhitespace(r.value[|r.value| - 1])
    ensures r.Some? ==> |r.value| <= 3 || r.value == UnknownProgress
  {
    var i := LastBracketed(lines);
    if i == -1 then Some(UnknownProgress)
    else if |lines[i]| < 4 then None
    else
      var chars := lines[i][1..4];
      TrimShortens(chars);
      Some(Trim(chars))
  }

  /**
   * The marker is "Unknown" exactly when no line starts with '[' (a marker
   * taken from a line has at most three characters).
   */
  lemma ProgressUnknown(lines: seq<string>)
    ensures ProgressMarker(lines) == Some(UnknownProgress) <==>
      forall j :: 0 <= j < |lines| ==> !StartsWithBracket(lines[j])
  {
    var last := LastBracketed(lines);
    UnknownIsTrimmed();
    if last != -1 && 4 <= |lines[last]| {
      TrimShortens(lines[last][1..4]);
      assert |UnknownProgress| == 7;
    }
  }

  /** The scan fails exactly when the last line starting with '[' is too short. */
  lemma ProgressFaultCase(lines: seq<string>)
    ensures ProgressMarker(lines).None? <==>
      (exists i :: 0 <= i < |lines| && StartsWithBracket(lines[i]) && |lines[i]| < 4
        && forall j :: i < j < |lines| ==> !StartsWithBracket(lines[j]))
  {
    var last := LastBracketed(lines);
    if ProgressMarker(lines).None? {
      assert 0 <= last < |lines| && StartsWithBracket(lines[last]) && |lines[last]| < 4;
    }
  }

  /** Otherwise the marker comes from the LAST line starting with '['. */
  lemma ProgressFromLastBracket(lines: seq<string>, i: int)
    requires 0 <= i < |lines| && StartsWithBracket(lines[i]) && 4 <= |lines[i]|
    requires forall j :: i < j < |lines| ==> !StartsWithBracket(lines[j])
    ensures ProgressMarker(lines) == Some(Trim(lines[i][1..4]))
  {
    assert LastBracketed(lines) == i;
  }

  lemma UnknownIsTrimmed()
    ensures Trim(UnknownProgress) == UnknownProgress
  {
    assert TrimStart(UnknownProgress) == UnknownProgress;
    assert TrimEnd(UnknownProgress) == UnknownProgress;
  }

  lemma TrimShortens(s: string)
    ensures |Trim(s)| <= |s|
  {
    assert |TrimStart(s)| <= |s|;
  }

  /** The reverse scan for the progress line with its `break`, then `progress.trim()`. */
  method ScanProgress(lines: seq<string>) returns (progress: Option<string>)
    ensures progress == ProgressMarker(lines)
  {
    var marker := UnknownProgress;
    var i := |lines|;
    while i > 0
      invariant 0 <= i <= |lines|
      invariant forall j :: i <= j < |lines| ==> !StartsWithBracket(lines[j])
    {
      i := i - 1;
      if StartsWithBracket(lines[i]) {
        assert LastBracketed(lines) == i;
        if |lines[i]| < 4 {
          return None;
        }
        marker := lines[i][1..4];
        break;
      }
    }
    progress := Some(Trim(marker));
  }

  /** The fields of the message data. */
  datatype Field = Device | Time | Status | Progress | BuildVersion | TimeTaken | LogFileKey | ErrorLogFileKey

  /** The key each field is sent under. */
  function FieldName(f: Field): string {
    match f
    case Device => "device"
    case Time => "time"
    case Status => "status"
    case Progress => "progress"
    case BuildVersion => "buildVersion"
    case TimeTaken => "timeTaken"
    case LogFileKey => "logFile"
    case ErrorLogFileKey => "errorLogFile"
  }

  /** No two fields share a key, so a map over fields is a map over their keys. */
  lemma FieldNameInjective(f: Field, g: Field)
    ensures FieldName(f) == FieldName(g) ==> f == g
  {
    if FieldName(f) == FieldName(g) {
      assert |FieldName(f)| == |FieldName(g)|;
      assert FieldName(f)[0] == FieldName(g)[0];
    }
  }

  lemma FieldNamesDistinct()
    ensures forall f: Field, g: Field :: FieldName(f) == FieldName(g) ==> f == g
  {
    forall f: Field, g: Field
      ensures FieldName(f) == FieldName(g) ==> f == g
    {
      FieldNameInjective(f, g);
    }
  }

  /**
   * The `Map<String, String>` handed to the messaging service: each field's
   * value under that field's key, and no other key.
   */
  function WireData(data: map<Field, string>): (r: map<string, string>)
    ensures r.Keys == set f | f in data :: FieldName(f)
    ensures forall f :: f in data ==> FieldName(f) in r && r[FieldName(f)] == data[f]
  {
    FieldNamesDistinct();
    map f | f in data :: FieldName(f) := data[f]
  }

  /** The data of the message sent to the device: each field's value, keyed by field. */
  datatype Message = Message(token: string, data: map<Field, string>)

  /** How a run ends. */
  datatype Ending =
    | TokenUnreadable                            // `readText` of the token file throws
    | NoToken                                    // the trimmed token is empty: `main` returns
    | ProgressFault                              // `substring(1, 4)` throws
    | SendFault(message: Message)                // `FirebaseMessaging.send` throws
    | Notified(message: Message, delivered: bool)  // `send` returned; `delivered` when its id is not empty

  /**
   * What a run did: the logs it wrote, the storage keys `main` names for
   * uploads (a key is listed even when `bucket()` threw before `create` was
   * called, or `create` threw), and how it ended.
   */
  datatype Report = Report(buildLog: LogFile, errorLog: Option<LogFile>, uploads: seq<string>, end: Ending)

  /**
   * Everything `main` learns from outside: the operating system name, the
   * working directory, what the operating system does with a command, the
   * clock (the start time, its `yyyyMMdd_HHmm` rendering and the measured
   * duration), the text of the files in the working directory, whether each
   * upload goes through, and what the messaging service returns (None when
   * it throws).
   */
  datatype Environment = Environment(
    osName: string,
    workingDir: string,
    exec: seq<string> -> Process,
    time: int,
    stamp: string,
    timeTaken: int,
    files: map<string, string>,
    logUploadOk: bool,
    errorLogUploadOk: bool,
    sendResult: Option<string>)

  /** The message data: six fixed fields, then the storage keys of the uploads that went through. */
  function Payload(device: string, time: int, status: bool, progress: string, buildVersion: string,
                   timeTaken: int, blobName: Option<string>, errorBlobName: Option<string>): (r: map<Field, string>)
    ensures LogFileKey in r <==> blobName.Some?
    ensures ErrorLogFileKey in r <==> errorBlobName.Some?
    ensures blobName.Some? ==> r[LogFileKey] == blobName.value
    ensures errorBlobName.Some? ==> r[ErrorLogFileKey] == errorBlobName.value
  {
    var fixed := map[
      Device := device,
      Time := IntToString(time),
      Status := BoolToString(status),
      Progress := progress,
      BuildVersion := buildVersion,
      TimeTaken := IntToString(timeTaken)];
    var withLog := if blobName.Some? then fixed[LogFileKey := blobName.value] else fixed;
    if errorBlobName.Some? then withLog[ErrorLogFileKey := errorBlobName.value] else withLog
  }

  /** The key an upload is stored under: `<token>/<file name>`. */
  function BlobName(token: string, file: LogFile): string {
    token + "/" + file.name
  }

  /** What running the build script gives: its exit code and log. */
  function BuildResult(args: seq<string>, env: Environment): Execution {
    var windows := IsWindows(env.osName);
    var script := BaseName(BuildFilePath(env.workingDir, GetOr(args, 2, "build.sh"), windows), windows);
    Capture(env.exec(ShellCommand(script, env.osName)))
  }

  /** The build log `main` writes: `build_<timestamp>.log` holding the captured output. */
  function BuildLog(result: Execution, stamp: string): LogFile {
    LogFile(BuildLogName(stamp), result.log)
  }

  /** The error excerpt: searched for, in the saved build log, only when the build failed. */
  function ErrorLog(result: Execution, stamp: string): (r: Option<LogFile>)
    ensures r.Some? ==> result.exitCode != 0 && r.value.name == ErrorLogName(stamp)
  {
    if result.exitCode != 0 then FirstExcerpt(Keywords, result.log, ReadLines(BuildLog(result, stamp).content), stamp)
    else None
  }

  /**
   * The storage keys `main` names for uploads: the build log's, then the
   * error log's if there is one; whether each upload went through is a
   * separate flag of the environment.
   */
  function Uploads(token: string, buildLog: LogFile, errorLog: Option<LogFile>): seq<string> {
    if errorLog.Some? then [BlobName(token, buildLog), BlobName(token, errorLog.value)]
    else [BlobName(token, buildLog)]
  }

  /** The message for a known token and progress marker, with the keys of the uploads that went through. */
  function NotificationMessage(device: string, buildVersion: string, status: bool, buildLog: LogFile,
                               errorLog: Option<LogFile>, token: string, progress: string, env: Environment): Message
  {
    var blobName := if env.logUploadOk then Some(BlobName(token, buildLog)) else None;
    var errorBlobName := if errorLog.Some? && env.errorLogUploadOk then Some(BlobName(token, errorLog.value)) else None;
    Message(token, Payload(device, env.time, status, progress, buildVersion, env.timeTaken, blobName, errorBlobName))
  }

  /** How sending `message` ends: `send` throws, or returns an id that is empty when nothing was delivered. */
  function SendOutcome(message: Message, sendResult: Option<string>): Ending {
    match sendResult
    case None => SendFault(message)
    case Some(id) => Notified(message, id != [])
  }

  /** The run once a non-empty device token is known: uploads, progress marker, message. */
  function Delivery(device: string, buildVersion: string, status: bool, buildLog: LogFile,
                    errorLog: Option<LogFile>, token: string, env: Environment): (r: Report)
    ensures r.buildLog == buildLog && r.errorLog == errorLog
    ensures 1 <= |r.uploads| <= 2
  {
    var uploads := Uploads(token, buildLog, errorLog);
    match ProgressMarker(ReadLines(buildLog.content))
    case None => Report(buildLog, errorLog, uploads, ProgressFault)
    case Some(progress) =>
      var message := NotificationMessage(device, buildVersion, status, buildLog, errorLog, token, progress, env);
      Report(buildLog, errorLog, uploads, SendOutcome(message, env.sendResult))
  }

  /** The rest of `main` once the build script has given `result`. */
  function AfterBuild(args: seq<string>, env: Environment, result: Execution): (r: Report)
    ensures r.buildLog == BuildLog(result, env.stamp) && r.errorLog == ErrorLog(result, env.stamp)
    ensures |r.uploads| <= 2
  {
    var buildLog := BuildLog(result, env.stamp);
    var errorLog := ErrorLog(result, env.stamp);
    var tokenFile := GetOr(args, 3, "deviceToken.txt");
    if tokenFile !in env.files then Report(buildLog, errorLog, [], TokenUnreadable)
    else
      var token := Trim(env.files[tokenFile]);
      if token == [] then Report(buildLog, errorLog, [], NoToken)
      else Delivery(GetOr(args, 0, "Default"), GetOr(args, 1, "Default"), result.exitCode == 0,
                    buildLog, errorLog, token, env)
  }

  /** The run, step by step as `main` takes it. */
  function RunSpec(args: seq<string>, env: Environment): (r: Report)
    ensures r.buildLog.name == BuildLogName(env.stamp) && r.buildLog.content == BuildResult(args, env).log
    ensures r.errorLog.Some? ==> BuildResult(args, env).exitCode != 0 && r.errorLog.value.name == ErrorLogName(env.stamp)
    ensures |r.uploads| <= 2
  {
    AfterBuild(args, env, BuildResult(args, env))
  }

  /**
   * The second half of `main`: upload the build log and the error log,
   * each under `<token>/<file name>` and each forgotten if its upload
   * throws; scan for the progress marker; build and send the message.
   */
  method Deliver(device: string, buildVersion: string, status: bool, buildLogFile: LogFile,
                 errorLogFile: Option<LogFile>, targetDevice: string, env: Environment)
    returns (report: Report)
    ensures report == Delivery(device, buildVersion, status, buildLogFile, errorLogFile, targetDevice, env)
  {
    var uploads := Uploads(targetDevice, buildLogFile, errorLogFile);
    var blobName: Option<string> := Some(BlobName(targetDevice, buildLogFile));
    if !env.logUploadOk {
      blobName := None;
    }

    var errorBlobName: Option<string> := None;
    if errorLogFile.Some? {
      errorBlobName := Some(BlobName(targetDevice, errorLogFile.value));
      if !env.errorLogUploadOk {
        errorBlobName := None;
      }
    }

    var progress := ScanProgress(ReadLines(buildLogFile.content));
    if progress.None? {
      return Report(buildLogFile, errorLogFile, uploads, ProgressFault);
    }

    var message := Message(targetDevice, Payload(device, env.time, status, progress.value,
                                                  buildVersion, env.timeTaken, blobName, errorBlobName));
    match env.sendResult {
      case None =>
        report := Report(buildLogFile, errorLogFile, uploads, SendFault(message));
      case Some(response) =>
        report := Report(buildLogFile, errorLogFile, uploads, Notified(message, response != []));
    }
  }

  /**
   * The first half of `main`: run the build script, keep its output as the
   * build log and, when it failed, search that log for an error excerpt.
   */
  method Build(args: seq<string>, env: Environment) returns (result: Execution, buildLogFile: LogFile, errorLogFile: Option<LogFile>)
    ensures result == BuildResult(args, env)
    ensures buildLogFile == BuildLog(result, env.stamp)
    ensures errorLogFile == ErrorLog(result, env.stamp)
  {
    var windows := IsWindows(env.osName);
    var buildFile := BuildFilePath(env.workingDir, GetOr(args, 2, "build.sh"), windows);
    errorLogFile := None;

    result := ExecuteFile(BaseName(buildFile, windows), env.osName, env.exec);
    buildLogFile := LogFile(BuildLogName(env.stamp), result.log);

    if result.exitCode != 0 {
      errorLogFile := SearchKeywords(Keywords, result.log, ReadLines(buildLogFile.content), env.stamp);
    }
  }

  /** `main`, with its file writes, uploads and message returned as a report. */
  method Run(args: seq<string>, env: Environment) returns (report: Report)
    ensures report == RunSpec(args, env)
  {
    var device := GetOr(args, 0, "Default");
    var buildVersion := GetOr(args, 1, "Default");
    var result, buildLogFile, errorLogFile := Build(args, env);
    var status := result.exitCode == 0;

    var tokenFile := GetOr(args, 3, "deviceToken.txt");
    if tokenFile !in env.files {
      return Report(buildLogFile, errorLogFile, [], TokenUnreadable);
    }
    var targetDevice := Trim(env.files[tokenFile]);
    if targetDevice == [] {
      return Report(buildLogFile, errorLogFile, [], NoToken);
    }
    report := Deliver(device, buildVersion, status, buildLogFile, errorLogFile, targetDevice, env);
  }

  /** The run got as far as building the message. */
  predicate MessageBuilt(end: Ending) {
    end.SendFault? || end.Notified?
  }

  /**
   * The message data holds the six fixed fields with their values, and
   * `logFile` and `errorLogFile` exactly when a key is given for them.
   */
  lemma PayloadShape(device: string, time: int, status: bool, progress: string, buildVersion: string,
                     timeTaken: int, blobName: Option<string>, errorBlobName: Option<string>)
    ensures var data := Payload(device, time, status, progress, buildVersion, timeTaken, blobName, errorBlobName);
      && data.Keys == {Device, Time, Status, Progress, BuildVersion, TimeTaken}
           + (if blobName.Some? then {LogFileKey} else {})
           + (if errorBlobName.Some? then {ErrorLogFileKey} else {})
      && (LogFileKey in data <==> blobName.Some?)
      && (ErrorLogFileKey in data <==> errorBlobName.Some?)
      && data[Device] == device
      && data[Time] == IntToString(time)
      && (data[Status] == "true" <==> status)
      && data[Progress] == progress
      && data[BuildVersion] == buildVersion
      && data[TimeTaken] == IntToString(timeTaken)
      && (blobName.Some? ==> data[LogFileKey] == blobName.value)
      && (errorBlobName.Some? ==> data[ErrorLogFileKey] == errorBlobName.value)
  {
  }

  /**
   * Once the token is known, the run names one storage key for the build
   * log and one more for the error log when there is one; it builds a message
   * exactly when the build log has a progress marker, and sends it: a
   * returned id that is empty means nothing was delivered.
   */
  lemma DeliveryOutcome(device: string, buildVersion: string, status: bool, buildLog: LogFile,
                        errorLog: Option<LogFile>, token: string, env: Environment)
    ensures var report := Delivery(device, buildVersion, status, buildLog, errorLog, token, env);
      && report.uploads == [token + "/" + buildLog.name] + (if errorLog.Some? then [token + "/" + errorLog.value.name] else [])
      && (report.end == ProgressFault <==> ProgressMarker(ReadLines(buildLog.content)).None?)
      && (MessageBuilt(report.end) <==> ProgressMarker(ReadLines(buildLog.content)).Some?)
      && (report.end.Notified? <==> env.sendResult.Some? && MessageBuilt(report.end))
      && (report.end.Notified? ==> (report.end.delivered <==> env.sendResult.value != []))
  {
  }

  /**
   * A message that gets built carries the build log's key exactly when its
   * upload went through, the error log's key exactly when there is an error
   * log whose upload went through, and the progress marker of the build log.
   */
  lemma DeliveryShape(device: string, buildVersion: string, status: bool, buildLog: LogFile,
                      errorLog: Option<LogFile>, token: string, env: Environment)
    ensures var report := Delivery(device, buildVersion, status, buildLog, errorLog, token, env);
      MessageBuilt(report.end) ==>
        var data := report.end.message.data;
        && report.end.message.token == token
        && data.Keys == {Device, Time, Status, Progress, BuildVersion, TimeTaken}
             + (if env.logUploadOk then {LogFileKey} else {})
             + (if errorLog.Some? && env.errorLogUploadOk then {ErrorLogFileKey} else {})
        && (LogFileKey in data <==> env.logUploadOk)
        && (ErrorLogFileKey in data <==> errorLog.Some? && env.errorLogUploadOk)
        && data[Device] == device
        && data[BuildVersion] == buildVersion
        && data[Time] == IntToString(env.time)
        && data[TimeTaken] == IntToString(env.timeTaken)
        && (data[Status] == "true" <==> status)
        && Some(data[Progress]) == ProgressMarker(ReadLines(buildLog.content))
        && (env.logUploadOk ==> data[LogFileKey] == token + "/" + buildLog.name)
        && (errorLog.Some? && env.errorLogUploadOk ==> data[ErrorLogFileKey] == token + "/" + errorLog.value.name)
  {
    var progress := ProgressMarker(ReadLines(buildLog.content));
    if progress.Some? {
      var blobName := if env.logUploadOk then Some(BlobName(token, buildLog)) else None;
      var errorBlobName := if errorLog.Some? && env.errorLogUploadOk then Some(BlobName(token, errorLog.value)) else None;
      PayloadShape(device, env.time, status, progress.value, buildVersion, env.timeTaken, blobName, errorBlobName);
      var message := NotificationMessage(device, buildVersion, status, buildLog, errorLog, token, progress.value, env);
      assert Delivery(device, buildVersion, status, buildLog, errorLog, token, env).end.message == message;
    }
  }

  /**
   * A missing token file or a token that is only whitespace stops the run
   * before any upload or send; otherwise the run goes on to the uploads with
   * the trimmed token.
   */
  lemma TokenGatesTraffic(args: seq<string>, env: Environment, result: Execution)
    ensures var tokenFile := GetOr(args, 3, "deviceToken.txt");
      var report := AfterBuild(args, env, result);
      && (tokenFile !in env.files ==> report.end == TokenUnreadable && report.uploads == [])
      && (tokenFile in env.files && (forall i :: 0 <= i < |env.files[tokenFile]| ==> IsWhitespace(env.files[tokenFile][i])) ==>
            report.end == NoToken && report.uploads == [])
      && (tokenFile in env.files && Trim(env.files[tokenFile]) != [] ==>
            report == Delivery(GetOr(args, 0, "Default"), GetOr(args, 1, "Default"), result.exitCode == 0,
                               BuildLog(result, env.stamp), ErrorLog(result, env.stamp), Trim(env.files[tokenFile]), env))
  {
    var tokenFile := GetOr(args, 3, "deviceToken.txt");
    if tokenFile in env.files {
      TrimEmpty(env.files[tokenFile]);
    }
  }

  /** Uploads happen only with a non-empty token, and the first is the build log's, under that token. */
  lemma RunUploads(args: seq<string>, env: Environment, result: Execution)
    ensures var report := AfterBuild(args, env, result);
      var tokenFile := GetOr(args, 3, "deviceToken.txt");
      report.uploads != [] ==>
        && tokenFile in env.files && Trim(env.files[tokenFile]) != []
        && report.uploads[0] == Trim(env.files[tokenFile]) + "/" + BuildLogName(env.stamp)
  {
    TokenGatesTraffic(args, env, result);
    var tokenFile := GetOr(args, 3, "deviceToken.txt");
    if tokenFile in env.files && Trim(env.files[tokenFile]) != [] {
      DeliveryOutcome(GetOr(args, 0, "Default"), GetOr(args, 1, "Default"), result.exitCode == 0,
                      BuildLog(result, env.stamp), ErrorLog(result, env.stamp), Trim(env.files[tokenFile]), env);
    }
  }

  /**
   * A message that gets built goes to the trimmed token; its `status` is
   * "true" exactly when the script exited with 0; it names the device and
   * build version from the arguments (or "Default"), and its log keys are
   * `<token>/build_<timestamp>.log` and `<token>/error_<timestamp>.log`.
   */
  lemma RunMessage(args: seq<string>, env: Environment, result: Execution)
    ensures var report := AfterBuild(args, env, result);
      var tokenFile := GetOr(args, 3, "deviceToken.txt");
      MessageBuilt(report.end) ==>
        var data := report.end.message.data;
        && tokenFile in env.files && report.end.message.token == Trim(env.files[tokenFile])
        && {Device, Status, BuildVersion} <= data.Keys
        && (data[Status] == "true" <==> result.exitCode == 0)
        && data[Device] == GetOr(args, 0, "Default")
        && data[BuildVersion] == GetOr(args, 1, "Default")
        && (LogFileKey in data <==> env.logUploadOk)
        && (LogFileKey in data ==> data[LogFileKey] == report.end.message.token + "/" + BuildLogName(env.stamp))
        && (ErrorLogFileKey in data <==> report.errorLog.Some? && env.errorLogUploadOk)
        && (ErrorLogFileKey in data ==> data[ErrorLogFileKey] == report.end.message.token + "/" + ErrorLogName(env.stamp))
  {
    TokenGatesTraffic(args, env, result);
    var tokenFile := GetOr(args, 3, "deviceToken.txt");
    var errorLog := ErrorLog(result, env.stamp);
    if tokenFile in env.files && Trim(env.files[tokenFile]) != [] {
      DeliveryShape(GetOr(args, 0, "Default"), GetOr(args, 1, "Default"), result.exitCode == 0,
                    BuildLog(result, env.stamp), errorLog, Trim(env.files[tokenFile]), env);
    }
  }

  /**
   * The error log is looked for only after a failed build, and then in
   * exactly the lines the script printed (with the closing "null" line),
   * whether or not the whole log is checked for the keyword first.
   */
  lemma ErrorLogOnlyOnFailure(p: Process, stamp: string)
    requires p.Started? ==> forall j :: 0 <= j < |p.output| ==> IsLine(p.output[j])
    ensures Capture(p).exitCode == 0 ==> ErrorLog(Capture(p), stamp).None?
    ensures Capture(p).exitCode != 0 ==> ErrorLog(Capture(p), stamp) == FirstLinesExcerpt(Keywords, Echoed(p), stamp)
  {
    CaptureMatchesEcho(p);
    FirstExcerptIgnoresText(Keywords, Capture(p).log, stamp);
  }

  /** The keyword loop over lines alone, without the check on the whole text. */
  function FirstLinesExcerpt(keywords: seq<string>, lines: seq<string>, stamp: string): Option<LogFile>
    decreases |keywords|
  {
    if keywords == [] then None
    else
      var excerpt := LinesExcerpt(keywords[0], lines, stamp);
      if excerpt.Some? then excerpt else FirstLinesExcerpt(keywords[1..], lines, stamp)
  }

  lemma {:induction false} FirstExcerptIgnoresText(keywords: seq<string>, logText: string, stamp: string)
    ensures FirstExcerpt(keywords, logText, ReadLines(logText), stamp) == FirstLinesExcerpt(keywords, ReadLines(logText), stamp)
    decreases |keywords|
  {
    if keywords != [] {
      TextCheckRedundant(keywords[0], logText, stamp);
      FirstExcerptIgnoresText(keywords[1..], logText, stamp);
    }
  }

}
