# BuildNotifier server: a Dafny model of the notifier's core

BuildNotifier's server side is a post-build hook, `Notifier.kt`. It does the following, in order:

1. runs a build script through bash (through WSL's bash on Windows), echoing and capturing every line the script prints on standard output;
2. saves the output as `build_<timestamp>.log`;
3. when the script failed, cuts an excerpt of up to 100 lines before and 99 after the last line holding a failure keyword, and saves it as `error_<timestamp>.log`;
4. reads a device token;
5. uploads both logs under `<token>/<file name>`;
6. works out a progress marker from the log;
7. sends a push notification whose data names the device, build version, time, status, progress, duration and the uploaded log keys.

The model has six modules:

- `Wrappers`: the `Option` datatype.
- `Text` (`text.dfy`): the `kotlin.text` operations the program depends on:
  - `contains`;
  - `trim`, with the JVM's whitespace set;
  - ASCII `toLowerCase`;
  - `Long.toString` and `Boolean.toString`.
- `Lines` (`lines.dfy`): the two views of a log:
  - the text a `StringBuilder` builds by appending `line + "\n"`;
  - the lines `readLines()` gives back from it.
- `Execute` (`execute.dfy`): `executeFile`, `isWindows` and the shell command. A process is described by:
  - the lines its standard output yields;
  - whether reading ends normally or throws;
  - the exit code `waitFor` returns, or `None` when it throws.
- `Excerpt` (`excerpt.dfy`): `getErrorLogsForKeyword` and the keyword loop in `main`.
- `Notifier` (`notifier.dfy`): `getOr`, the progress scan and the whole of `main`.
  - The file system, storage bucket, messaging service and clock are an `Environment` value that says what each returns.
  - `main`'s file writes, upload attempts and final message come back as a `Report`.
  - The exceptions that end `main` become `Ending` constructors: an unreadable token file, a progress line too short for `substring(1, 4)`, and a failing `send`.

Each loop of the source is a method proved equal to a specification function:

- `ExecuteFile` / `Launch` / `ReadOutput` to `Capture`;
- `ErrorLogsForKeyword` / `FindLastLine` / `AppendLines` to `KeywordExcerpt`;
- `SearchKeywords` to `FirstExcerpt`;
- `ScanProgress` to `ProgressMarker`;
- `Run` / `Build` / `Deliver` to `RunSpec`.

What the source promises is then proved as lemmas about those functions.

`main` appears twice, on purpose. `Run`, `Build` and `Deliver` follow `main` statement by statement, with its mutable locals, its `try`/`catch` blocks and its early `return`. `RunSpec`, `AfterBuild` and `Delivery` are the same computation as functions. Dafny lemmas cannot call methods, so the properties of a run (`TokenGatesTraffic`, `RunUploads`, `RunMessage`, `DeliveryShape`) are stated about the functions, and each method's postcondition ties it to its function.

The message data is modelled as a map from a `Field` enumeration to strings. `FieldName` gives each field's wire key. `WireData` converts the data to the `Map<String, String>` that the messaging service receives, keeping each field's value under its key.

Some of the code's behaviour differs from what its comments or a first reading suggest. The model follows the code:

- **Excerpt window.** `subList(startLine, endLine)` leaves out `endLine`, so the excerpt keeps at most 100 lines before the match and 99 after, not the ±100 lines the comment at Notifier.kt:210 promises. A match at line 50 of a 200-line log gives lines 0–149.
- **Missing token file.** `readText()` throws and `main` ends with that exception (`TokenUnreadable`). Only an empty token makes `main` return on its own. In both cases nothing is uploaded or sent.
- **Script location.** The build script is run by its base name in the working directory. The path built under `logs/` is used only for its name.
- **Whole-text check.** An excerpt also needs the whole log text to contain the keyword. `Excerpt.TextCheckRedundant` proves this check never changes the result when the lines are read back from that same text.

## Model

| member | source | states |
|---|---|---|
| Text.Contains | src/main/kotlin/com/codertainment/buildnotifer/server/Notifier.kt:217-221 | `contains` holds for the empty keyword in every string |
| Text.IsWhitespace | src/main/kotlin/com/codertainment/buildnotifer/server/Notifier.kt:93 | space, tab, newline and carriage return are whitespace; letters, digits and '[' are not; no whitespace character lies above U+3000 |
| Text.Trim | src/main/kotlin/com/codertainment/buildnotifer/server/Notifier.kt:93 | the trimmed token neither starts nor ends with JVM whitespace |
 Text.TrimEmpty | src/main/kotlin/com/codertainment/buildnotifer/server/Notifier.kt:93-95 | the trimmed token is empty exactly when the token file holds nothing but whitespace |
| Text.AsciiLower | src/main/kotlin/com/codertainment/buildnotifer/server/Notifier.kt:264 | lower-casing keeps the length and lowers each ASCII capital in place |
| Text.IntToString | src/main/kotlin/com/codertainment/buildnotifer/server/Notifier.kt:147 | `time.toString()` is non-empty and starts with '-' exactly for negative values |
| Text.IntToStringRoundTrip | src/main/kotlin/com/codertainment/buildnotifer/server/Notifier.kt:147-151 | the `time` and `timeTaken` renderings read back as the same numbers |
| Text.BoolToString | src/main/kotlin/com/codertainment/buildnotifer/server/Notifier.kt:148 | `status.toString()` is "true" or "false" |
| Lines.JoinLinesSnoc | src/main/kotlin/com/codertainment/buildnotifer/server/Notifier.kt:197 | appending `line + "\n"` to the builder extends the joined text by exactly that |
| Lines.JoinLinesCons | src/main/kotlin/com/codertainment/buildnotifer/server/Notifier.kt:237 | the joined text is the first line, "\n", then the joined rest |
| Lines.ReadLinesAreLines | src/main/kotlin/com/codertainment/buildnotifer/server/Notifier.kt:89 | `readLines()` yields lines holding no '\n' or '\r' |
| Lines.ReadJoinedLines | src/main/kotlin/com/codertainment/buildnotifer/server/Notifier.kt:78-89 | reading back the saved build log gives exactly the lines appended to it, in order |
| Lines.ReadLineInText | src/main/kotlin/com/codertainment/buildnotifer/server/Notifier.kt:217-221 | a line read from a text that contains a keyword makes the whole text contain it |
| Execute.IsWindowsIgnoresCase | src/main/kotlin/com/codertainment/buildnotifer/server/Notifier.kt:264 | the Windows test gives the same answer for `os.name` and its lower case |
| Execute.WindowsIsWindows | src/main/kotlin/com/codertainment/buildnotifer/server/Notifier.kt:264 | "Windows 10" counts as Windows |
| Execute.OthersAreNotWindows | src/main/kotlin/com/codertainment/buildnotifer/server/Notifier.kt:264 | "Linux" and "Mac OS X" do not |
| Execute.NotWindows | src/main/kotlin/com/codertainment/buildnotifer/server/Notifier.kt:264 | a name with no 'w' or 'W' is never Windows |
| Execute.IsWindows | src/main/kotlin/com/codertainment/buildnotifer/server/Notifier.kt:264 | a name counts as Windows only if it is long enough to hold "windows" |
| Execute.ShellCommand | src/main/kotlin/com/codertainment/buildnotifer/server/Notifier.kt:177-182 | the command is exactly `wsl -e bash <file>` on Windows and exactly `bash <file>` elsewhere |
| Execute.ReadOutput | src/main/kotlin/com/codertainment/buildnotifer/server/Notifier.kt:193-198 | the read loop leaves each line plus "\n" in order; if the stream ends, "null\n" follows; a read that throws leaves the text as far as it got and is reported |
| Execute.Capture | src/main/kotlin/com/codertainment/buildnotifer/server/Notifier.kt:188-205 | an exit code other than -1 comes only from a `waitFor` that returned it after the stream ended normally; a process that fails to start gives (-1, ""); a read that throws leaves the exit code at -1 |
| Execute.Launch | src/main/kotlin/com/codertainment/buildnotifer/server/Notifier.kt:188-205 | once the command is built, the `try` block with its read loop and `waitFor` returns the capture of the process |
| Execute.ExecuteFile | src/main/kotlin/com/codertainment/buildnotifer/server/Notifier.kt:172-206 | `executeFile` returns the capture of the process started with the OS's command: exit code -1 unless reading ended normally and `waitFor` returned |
| Execute.CaptureMatchesEcho | src/main/kotlin/com/codertainment/buildnotifer/server/Notifier.kt:194-198 | the captured log, read back as lines, is exactly what was echoed to the console, closing "null" included |
| Excerpt.LastContaining | src/main/kotlin/com/codertainment/buildnotifer/server/Notifier.kt:218-224 | the anchor is -1 exactly when no line holds the keyword; otherwise it is a line holding it, and no later line does |
| Excerpt.LastContainingStep | src/main/kotlin/com/codertainment/buildnotifer/server/Notifier.kt:220-224 | visiting one more line moves the anchor there exactly when that line holds the keyword |
| Excerpt.WindowShape | src/main/kotlin/com/codertainment/buildnotifer/server/Notifier.kt:229-236 | the window stays inside the log and holds at most 200 lines: at most 100 before the anchor and 99 after; it is a contiguous slice, contains the anchor line, and is clamped exactly when the anchor is within 100 lines of an end |
| Excerpt.KeywordExcerpt | src/main/kotlin/com/codertainment/buildnotifer/server/Notifier.kt:213-246 | an excerpt exists only when the whole log text holds the keyword, is named `error_<timestamp>.log`, and there is none for a log with no lines |
| Excerpt.KeywordExcerptAnchor | src/main/kotlin/com/codertainment/buildnotifer/server/Notifier.kt:213-246 | there is no excerpt exactly when the text or every line lacks the keyword; otherwise the excerpt is `error_<timestamp>.log` holding the window around the highest-index matching line, each line followed by "\n" |
| Excerpt.TextCheckRedundant | src/main/kotlin/com/codertainment/buildnotifer/server/Notifier.kt:217-221 | for lines read from the log text itself, checking the whole text first never changes the excerpt |
| Excerpt.FindLastLine | src/main/kotlin/com/codertainment/buildnotifer/server/Notifier.kt:218-224 | the `forEachIndexed` scan ends holding the index of the last line with the keyword, or -1 |
| Excerpt.AppendLines | src/main/kotlin/com/codertainment/buildnotifer/server/Notifier.kt:235-238 | the builder ends holding the lines from `startLine` up to, not including, `endLine`, each followed by "\n" |
| Excerpt.ErrorLogsForKeyword | src/main/kotlin/com/codertainment/buildnotifer/server/Notifier.kt:213-246 | `getErrorLogsForKeyword` returns exactly the keyword's excerpt |
| Excerpt.FirstExcerpt | src/main/kotlin/com/codertainment/buildnotifer/server/Notifier.kt:85-90 | whichever keyword wins, the error log is `error_<timestamp>.log`, and some keyword of the list occurs in the log text |
| Excerpt.FirstExcerptNone | src/main/kotlin/com/codertainment/buildnotifer/server/Notifier.kt:85-90 | the loop finds no excerpt exactly when no keyword in the list yields one |
| Excerpt.FirstExcerptPriority | src/main/kotlin/com/codertainment/buildnotifer/server/Notifier.kt:85-90 | when keyword j yields an excerpt and no earlier keyword does, the loop returns keyword j's excerpt; later keywords are never consulted |
| Excerpt.SearchKeywords | src/main/kotlin/com/codertainment/buildnotifer/server/Notifier.kt:85-90 | the loop with its early `break` returns the excerpt of the first keyword, in order, that yields one |
| Notifier.GetOr | src/main/kotlin/com/codertainment/buildnotifer/server/Notifier.kt:169 | `getOr` gives `args[num]` when `num` is below the array's size, and the default otherwise |
| Notifier.LastComponent | src/main/kotlin/com/codertainment/buildnotifer/server/Notifier.kt:65 | the name is the longest separator-free suffix of the path |
| Notifier.StripTrailing | src/main/kotlin/com/codertainment/buildnotifer/server/Notifier.kt:59 | `java.io.File` drops the trailing separators and nothing else: the result is a prefix of the path, what it drops is all separators, and it does not end in one |
| Notifier.BaseName | src/main/kotlin/com/codertainment/buildnotifer/server/Notifier.kt:71 | `buildFile.name` is a separator-free suffix of the path without its trailing separators, and is empty only when the path is nothing but separators |
| Notifier.BaseNameOfPlainName | src/main/kotlin/com/codertainment/buildnotifer/server/Notifier.kt:59-71 | a script argument without separators, put after a directory ending in a separator, is the name handed to bash |
| Notifier.LastComponentOfPlainName | src/main/kotlin/com/codertainment/buildnotifer/server/Notifier.kt:59-65 | the last component of such a path is the plain name itself |
| Notifier.LastBracketed | src/main/kotlin/com/codertainment/buildnotifer/server/Notifier.kt:137-138 | the reverse scan's stopping point is the last line starting with '[', or -1 when there is none |
| Notifier.ProgressMarker | src/main/kotlin/com/codertainment/buildnotifer/server/Notifier.kt:136-143 | the marker neither starts nor ends with whitespace, and is either "Unknown" or at most three characters long |
| Notifier.ProgressUnknown | src/main/kotlin/com/codertainment/buildnotifer/server/Notifier.kt:136-143 | the marker is "Unknown" exactly when no line starts with '[' |
| Notifier.ProgressFaultCase | src/main/kotlin/com/codertainment/buildnotifer/server/Notifier.kt:139 | the progress step fails exactly when the last line starting with '[' has fewer than four characters |
| Notifier.ProgressFromLastBracket | src/main/kotlin/com/codertainment/buildnotifer/server/Notifier.kt:137-143 | otherwise the marker is characters 1 to 3 of the LAST line starting with '[', trimmed |
| Notifier.UnknownIsTrimmed | src/main/kotlin/com/codertainment/buildnotifer/server/Notifier.kt:136-143 | trimming the default marker leaves "Unknown" |
| Notifier.ScanProgress | src/main/kotlin/com/codertainment/buildnotifer/server/Notifier.kt:136-143 | the reverse `for` loop with its `break`, followed by `trim()`, gives the progress marker |
| Notifier.FieldNameInjective | src/main/kotlin/com/codertainment/buildnotifer/server/Notifier.kt:146-155 | no two message fields share a key |
| Notifier.WireData | src/main/kotlin/com/codertainment/buildnotifer/server/Notifier.kt:145-155 | the wire map has exactly the keys of the fields present, each holding that field's value |
| Notifier.Payload | src/main/kotlin/com/codertainment/buildnotifer/server/Notifier.kt:145-155 | `logFile` / `errorLogFile` are present exactly when their key is given, and then hold it |
| Notifier.PayloadShape | src/main/kotlin/com/codertainment/buildnotifer/server/Notifier.kt:145-155 | device, time, status, progress, buildVersion and timeTaken are always present with their values; `logFile` / `errorLogFile` are present exactly when a key is given, and then hold it |
| Notifier.ErrorLog | src/main/kotlin/com/codertainment/buildnotifer/server/Notifier.kt:81-90 | an error log exists only after a non-zero exit code, and is named `error_<timestamp>.log` |
| Notifier.Delivery | src/main/kotlin/com/codertainment/buildnotifer/server/Notifier.kt:110-166 | the uploads, progress scan and send leave the build log and error log as they were, and name one or two storage keys |
| Notifier.AfterBuild | src/main/kotlin/com/codertainment/buildnotifer/server/Notifier.kt:74-166 | the rest of `main` keeps the captured output as the build log and the keyword search's result as the error log, and names at most two storage keys |
| Notifier.RunSpec | src/main/kotlin/com/codertainment/buildnotifer/server/Notifier.kt:28-167 | the build log is `build_<timestamp>.log` holding the script's captured output; an error log exists only after a non-zero exit code and is `error_<timestamp>.log`; at most two storage keys are named |
| Notifier.Build | src/main/kotlin/com/codertainment/buildnotifer/server/Notifier.kt:59-91 | the first half of `main` runs the script, keeps its output as the build log, and searches for an error log only after a failure |
| Notifier.Deliver | src/main/kotlin/com/codertainment/buildnotifer/server/Notifier.kt:110-166 | the second half of `main` equals `Delivery`: each upload key is `<token>/<file name>` and is dropped when its upload throws; a short '[' line ends the run with `ProgressFault`; otherwise the message is built and sent (its properties are in `DeliveryShape`) |
| Notifier.Run | src/main/kotlin/com/codertainment/buildnotifer/server/Notifier.kt:28-167 | `main` equals `RunSpec`: the `Build` half, then the token gate and `Deliver` (its properties are in `TokenGatesTraffic`, `RunUploads`, `RunMessage` and `ErrorLogOnlyOnFailure`) |
| Notifier.DeliveryOutcome | src/main/kotlin/com/codertainment/buildnotifer/server/Notifier.kt:110-166 | once a token is known, the storage keys are `<token>/build_…` then `<token>/error_…` if there is an error log; a message exists exactly when the progress step succeeds; `Notified` means `send` returned, and delivery means a non-empty id |
| Notifier.DeliveryShape | src/main/kotlin/com/codertainment/buildnotifer/server/Notifier.kt:145-157 | a message that is built goes to the token with the fixed fields, the progress marker, and each log key exactly when that upload went through |
| Notifier.TokenGatesTraffic | src/main/kotlin/com/codertainment/buildnotifer/server/Notifier.kt:93-98 | an unreadable token file or an all-whitespace token ends the run with no upload and no send; otherwise the run delivers with the trimmed token |
| Notifier.RunUploads | src/main/kotlin/com/codertainment/buildnotifer/server/Notifier.kt:110-120 | any upload implies a non-empty token, and the first upload key is `<token>/build_<timestamp>.log` |
| Notifier.RunMessage | src/main/kotlin/com/codertainment/buildnotifer/server/Notifier.kt:145-157 | a message sent goes to the trimmed token; `status` is "true" exactly when the script exited with 0; device and buildVersion come from the arguments or "Default"; `logFile` / `errorLogFile` are present exactly when their upload went through (and, for the error log, when there is one), with values `<token>/build_<timestamp>.log` and `<token>/error_<timestamp>.log` |
| Notifier.ErrorLogOnlyOnFailure | src/main/kotlin/com/codertainment/buildnotifer/server/Notifier.kt:81-90 | a build that exits with 0 has no error log; a failed build's error log is the first keyword's excerpt of exactly the lines the script printed |
| Notifier.FirstExcerptIgnoresText | src/main/kotlin/com/codertainment/buildnotifer/server/Notifier.kt:85-90 | over a log's own lines, the keyword loop gives the same result with or without the whole-text check |

## Left out

- Firebase initialisation, credential loading, the storage bucket's `create` and `FirebaseMessaging.send` are foreign SDK calls. The model keeps only their outcomes: one flag per upload, and the id `send` returns or `None` when it throws. The failure of `FirebaseApp.initializeApp` is not modelled.
- `ProcessBuilder.start`, `BufferedReader` and `waitFor` are operating-system I/O. They are described by a `Process` value, and the process's working directory is not modelled.
- Execute.ExecuteFile and Notifier.Run: describe only runs that end. A script whose standard output never ends, or whose standard error fills its pipe (it is never read), blocks `executeFile` forever; the model has no such run.
- Standard error of the script is ignored, as `executeFile` ignores it: it is neither echoed nor captured.
- File system effects are not modelled: `mkdirs`, `writeText`, `readText` and `readLines` on disk. The model works on the texts these produce and assumes `writeText` does not fail. A missing or unreadable token file is a missing entry in `Environment.files`.
- `SimpleDateFormat`, `System.currentTimeMillis` and `measureTimeMillis` are the clock and library formatting. The start time, the formatted timestamp and the duration are inputs. The timestamp is assumed to hold no path separators.
- `System.getProperty("os.name")` is a parameter.
- `ColoredPrinter` and the `print*` helpers are console output only, and are left out, as are `println` and `printStackTrace`.
- Text.AsciiLower: lower-cases ASCII letters only, as `toLowerCase` does in an English-like default locale. `toLowerCase` uses the JVM's default locale: under a Turkish or Azerbaijani locale 'I' becomes a dotless 'ı', so "WINDOWS" would not count as Windows there. The model assumes a locale where ASCII letters lower-case to ASCII, and it leaves every non-ASCII character as it is, where the JVM may lower-case a few of them (such as U+0130) to an ASCII letter followed by a combining mark.
- Text.IsWhitespace: follows current JVMs. Older JVMs also count U+180E. Strings are Dafny `char` sequences rather than UTF-16 code units.
- Text.IntToString: works on unbounded integers. `time` and `timeTaken` are 64-bit `Long`s on the JVM.
- Notifier.GetOr: takes `num` as a natural number. A negative index, where `get` would throw, is never passed by `main`.
- Notifier.BaseName: handles only trailing separators. Other `java.io.File` path normalisation, such as Windows drive prefixes, is not modelled.
