# conquer: a verified model of the restart supervisor

`conquer` is a command-line tool. It runs a script under an interpreter (`node`, `coffee` or one
given with `-x`), watches directories for file changes, and restarts the script when a watched
file changes. It also restarts when the script is interrupted with `SIGUSR2` and, with `-r`, when
the script exits cleanly. This project models the supervisor in `bin/conquer.js` and the logger
in `bin/logger.js`, and proves properties of both.

The model has one module per concern:

| module | file | models |
|---|---|---|
| `Wrappers` | `wrappers.dfy` | `Option` and `Result` |
| `Text` | `text.dfy` | the JavaScript string operations the source uses: `split`, `indexOf`, `toLowerCase` (ASCII), the `\s` class |
| `Paths` | `paths.dfy` | Node's POSIX `path.extname`, `path.basename` and `path.dirname` |
| `OptionParsers` | `option_parsers.dfy` | `extensionsParser` and `listParser`, the coercions for `-e` and `-w` |
| `Logger` | `logger.dfy` | `write`, `log`, `warn`, `error` and `appLog` |
| `Configuration` | `configuration.dfy` | how start-up resolves the script, its arguments, the parser, the watch paths and extensions; the watch listener's filter |
| `ChildStreams` | `child_streams.dfy` | delivery of a child's output chunks to the `data` listeners that `start` registers |
| `Supervisor` | `supervisor.dfy` | class `Conquer`: the `instance` slot, `kill`, `start`, `restart`, and the handlers for child exit, child output, file changes, signals, uncaught exceptions and watcher set-up |

The supervisor's handlers all run on one event loop, so each is a method of the class.
- Spawning a process, sending a kill, requesting `process.exit` and printing a log line are recorded as events in a ghost trace.
- A child process is an abstract number, handed out in spawn order.
- Two ghost sets record which children have not yet reported their exit (`running`) and which were sent a kill (`killed`).
- `Valid()` states that a running child that has not been sent a kill is the one in the slot. `AtMostOneLive` derives from it that there is at most one such child.
- A killed child may still be shutting down beside its successor, because `kill` does not wait for the exit.

Some behaviours of the code are worth stating plainly, because a reader of its comments or help text might expect otherwise:
- Extension normalisation is not idempotent. The regular expression at `bin/conquer.js:31` removes at most one whitespace character on each side, so `"js  "` gives `".js "`, and normalising that again gives `".js"` (`NormalizeExtensionNotIdempotent`). `NormalizeExtensionIdempotentIff` states exactly when a normalised entry is a fixed point.
- The child's exit handler (`bin/conquer.js:97-110`) never touches `instance`, so after a natural exit the slot still holds the finished child. `OnExit` keeps the slot unchanged when it does not restart.
- The code has no keep-alive option, no notification hub and no system-command mode; none is modelled.

## Model

| member | source | states |
|---|---|---|
| Text.Split | bin/conquer.js:28 | `str.split(sep)` yields one more piece than there are separators, and no piece contains the separator |
| Text.JoinSplit | bin/conquer.js:28 | joining the pieces of a split with the separator gives the string back |
| Text.SplitJoin | bin/conquer.js:28 | splitting a join of separator-free pieces gives the pieces back |
| Text.SplitAppend | bin/logger.js:17 | splitting `a + sep + b` is the split of `a` followed by the split of `b` |
| Text.Lower | bin/conquer.js:32 | `toLowerCase` keeps the length and lowers each character independently |
| Text.LowerOfLower | bin/conquer.js:32 | a lowered string has no upper-case letter, and lowering changes a string exactly when it has one |
| Text.IndexOf | bin/conquer.js:203 | `indexOf` is -1 exactly when the element is absent, otherwise the position of its first occurrence |
| Text.DropLeadingSpace | bin/conquer.js:46 | the `^\s?` alternative removes the first character only when it is whitespace |
| Text.DropTrailingSpace | bin/conquer.js:46 | the `\s?$` alternative removes the last character only when it is whitespace |
| Paths.ExtName | bin/conquer.js:210 | `path.extname` is empty or a dot followed by neither a dot nor a slash |
| Paths.Basename | bin/conquer.js:234 | `path.basename` is the last segment, which contains no slash |
| Paths.Dirname | bin/conquer.js:198 | `path.dirname` is never empty (`.` or `/` at the least) |
| Paths.ExtNameOfChild | bin/conquer.js:232-234 | extension and base name of `dir/name` depend on `name` only |
| Paths.ExtNameOfStem | bin/conquer.js:210 | the extension of `stem.ext` is `.ext` |
| Paths.ExtNameOfDotDot | bin/conquer.js:210 | `..` has no extension, alone or as the last segment of a path |
| Paths.ExtNameWithoutDot | bin/conquer.js:232 | a name without a dot has no extension |
| Paths.ExtNameOfDotfile | bin/conquer.js:232 | a segment whose only dot is its first character (`.bashrc`) has no extension, alone or at the end of a path |
| Paths.DirnameOfChild | bin/conquer.js:198 | `path.dirname` of `dir/name` is `dir`, and of a bare name is `.` |
| OptionParsers.NormalizeExtension | bin/conquer.js:31-32 | every entry starts with `.` and has no upper-case letter |
| OptionParsers.ExtensionsParser | bin/conquer.js:26-35 | the in-place loop over the split pieces returns their normal forms, one per piece, in order |
| OptionParsers.ListParser | bin/conquer.js:43-48 | the in-place loop over the split pieces returns them trimmed, one per piece, in order |
| OptionParsers.TrimListPiecePadded | bin/conquer.js:46 | at most one whitespace character on each side of a piece is removed |
| OptionParsers.TrimExtensionPiecePadded | bin/conquer.js:31 | at most one leading whitespace character, one leading dot and one trailing whitespace character are removed |
| OptionParsers.NormalizeExtensionPadded | bin/conquer.js:31-32 | with or without a dot, in any case, padded by one whitespace character on each side, an extension gives the same dot-prefixed lower-case entry |
| OptionParsers.NormalizeExtensionExamples | bin/conquer.js:31-32 | `js`, `.JS`, ` .js ` and `.js` all give `.js` |
| OptionParsers.NormalizeExtensionIdempotentIff | bin/conquer.js:31-32 | normalising an entry again leaves it unchanged exactly when it does not end in whitespace |
| OptionParsers.NormalizeExtensionNotIdempotent | bin/conquer.js:31-32 | `js  ` gives `.js `, which normalises further to `.js` |
| OptionParsers.ParseExtensionsShape | bin/conquer.js:26-35 | one entry per comma-separated piece, in order, each the piece's normal form |
| OptionParsers.ParseExtensionsJoin | bin/conquer.js:26-35 | a comma-joined list of bare lower-case extensions parses back to them with a dot in front |
| OptionParsers.ParseListJoin | bin/conquer.js:43-48 | a comma-joined list of bare pieces parses back to the same pieces, case unchanged |
| OptionParsers.ParseTwoPieces | bin/conquer.js:28-32 | a two-piece argument gives exactly the two normalised or trimmed pieces |
| OptionParsers.NormalizeDottedExtension | bin/conquer.js:31-32 | a bare lower-case extension written with its dot is its own entry |
| OptionParsers.HelpTextExtensions | bin/conquer.js:168 | the help text's `-e ".js, .jade"` gives `[".js", ".jade"]` |
| OptionParsers.HelpTextWatchList | bin/conquer.js:153 | the help text's list `"./, bin/"` gives `["./", "bin/"]` |
| Logger.StripLineEnds | bin/logger.js:19 | the end-of-line replacement never lengthens a piece |
| Logger.StripLineEndsPlain | bin/logger.js:19 | on a piece without line terminators it removes exactly the one trailing whitespace character, if any |
| Logger.StripLineEndsCarriageReturn | bin/logger.js:19 | with a carriage return inside the piece more than one character goes |
| Logger.EmitPieces | bin/logger.js:18-22 | at most one line per piece, each with the prefix, the colour and non-empty text |
| Logger.EmitPiecesAppend | bin/logger.js:18-22 | the lines for concatenated pieces are the lines for each part, in order |
| Logger.WriteLines | bin/logger.js:12-23 | at most one line more than `\n` characters, never an empty line, all with the same prefix and the given colour |
| Logger.WriteLinesNewline | bin/logger.js:17-22 | the parts of a message on either side of a `\n` are printed independently and in order |
| Logger.WriteLinesSingle | bin/logger.js:17-22 | a message without `\n` prints its stripped text, or nothing when that is empty |
| Logger.WriteLinesTrailingNewline | bin/logger.js:17-22 | a trailing `\n` prints nothing more |
| Logger.Write | bin/logger.js:12-23 | the loop prints exactly the lines `WriteLines` describes |
| Logger.Log | bin/logger.js:26-29 | the default prefix, no colour |
| Logger.Warn | bin/logger.js:32-35 | the default prefix, yellow |
| Logger.Error | bin/logger.js:38-41 | the default prefix, red |
| Logger.AppLogLines | bin/logger.js:49-53 | prefix `[app]` in yellow; red exactly when `isError`, otherwise uncoloured |
| Logger.AppLog | bin/logger.js:49-53 | prints exactly `AppLogLines` |
| Configuration.SelectParserExec | bin/conquer.js:205-207 | a non-empty `-x` value is the parser, whatever the script and the platform |
| Configuration.SelectParserByExtension | bin/conquer.js:208-215 | without `-x`, `stem.ext` runs under `coffee` (`coffee.cmd` on Windows) exactly when `ext` is `coffee`, case-sensitively, and under `node` otherwise |
| Configuration.DotCoffee | bin/conquer.js:210 | `.ext` is `.coffee` exactly when `ext` is `coffee` |
| Configuration.ScriptParams | bin/conquer.js:203 | the arguments after the script's first occurrence, or all arguments when it does not occur |
| Configuration.Resolve | bin/conquer.js:179-223 | fails with "no input file" exactly when there is no script argument and with "not found" exactly when it does not exist; on success the script is the first argument, its parameters are `ScriptParams`, the parser is `SelectParser`'s, the watch paths are the parsed `-w` list or the script's `Dirname`, the extensions the parsed `-e` list or the defaults (each starting with `.`), and the `-r` flag is kept |
| Configuration.ResolveDefaults | bin/conquer.js:11-15 | without options, `dir/name` is watched in `dir` for `.js`, `.json` and `.coffee` and runs under `node` |
| Configuration.ExtensionlessNeverWatched | bin/conquer.js:232-233 | a path without an extension never passes the filter |
| Configuration.IsWatchedFile | bin/conquer.js:232-233 | `dir/stem.ext` passes exactly when `.` plus the lower-cased `ext` is configured |
| ChildStreams.Deliver | bin/conquer.js:89-96 | at most one effect per listener; a delivery throws only if some listener calls `scriptLog` |
| ChildStreams.AsWrittenEveryChunkThrows | bin/conquer.js:89-90 | with the listeners as registered, every chunk on either stream throws before printing anything |
| ChildStreams.AsWrittenMissesExecvpFailure | bin/conquer.js:90-96 | an `execvp()` diagnostic does not end the supervisor as written, and does with `appLog` |
| ChildStreams.DeliverStdout | bin/conquer.js:89 | with `appLog`, a stdout chunk is printed uncoloured and nothing throws |
| ChildStreams.DeliverStderr | bin/conquer.js:90-96 | with `appLog`, a stderr chunk is printed in red, and the supervisor ends exactly when the chunk starts with `execvp()` |
| Supervisor.RestartKillsThenSpawns | bin/conquer.js:67-71 | a restart logs first, kills the held child right before spawning, and spawns exactly one child, last |
| Supervisor.Conquer.AtMostOneLive | bin/conquer.js:16 | at most one running child has not been sent a kill, and it is the one in the slot |
| Supervisor.Conquer.Load | bin/conquer.js:179-226 | given the outcome of `Resolve`: start-up logs the watch settings, or warns ("no input file" or "not found") and requests exit; the supervisor is halted exactly on failure; no child runs yet |
| Supervisor.Conquer.Kill | bin/conquer.js:55-64 | an empty slot does nothing; otherwise "Killed" unless `noMsg`, a kill to the held child, and an empty slot |
| Supervisor.Conquer.Start | bin/conquer.js:78-86 | "Starting" unless `noMsg`, even when the slot is full; a spawn that fills the slot only when it is empty |
| Supervisor.Conquer.Restart | bin/conquer.js:67-71 | log, kill the held child, spawn one new child; the new child is then the only live one |
| Supervisor.Conquer.OnExit | bin/conquer.js:97-110 | `SIGUSR2` logs the interruption and restarts; otherwise the code is logged and a restart happens exactly when the code is 0 and `restartOnCleanExit` is set; the slot is never emptied; the whole new state is given in both cases |
| Supervisor.Conquer.OnFileEvent | bin/conquer.js:229-236 | a change restarts exactly when the path passes the filter, logging its base name, with the whole new state given; otherwise nothing changes |
| Supervisor.Conquer.Exit | bin/conquer.js:119-122 | an exit request is followed by `kill()` |
| Supervisor.Conquer.OnChildData | bin/conquer.js:89-96 | corrected listeners: the recorded events are those of `ChildStreams.Deliver` on the stream's listeners, namely the chunk relayed through `appLog` and, for a stderr `execvp()` chunk, the failure log, the exit request and the kill |
| Supervisor.DeliveredEvents | bin/conquer.js:89-96 | the events of delivering a chunk to the corrected listeners: the relayed lines, then the fatal report exactly for a stderr `execvp()` chunk |
| Supervisor.Conquer.OnChildDataAsWritten | bin/conquer.js:89-90 | as written: every chunk ends in an uncaught exception and a restart, with the whole new state given |
| Supervisor.Conquer.OnUncaughtException | bin/conquer.js:114-117 | logs the error and restarts, with the whole new state given |
| Supervisor.Conquer.OnSigint | bin/conquer.js:124-130 | outside Windows: warn, kill, request exit; on Windows the default action ends the process; the children and the numbering are unchanged |
| Supervisor.Conquer.OnSigterm | bin/conquer.js:131-134 | outside Windows: kill, request exit; on Windows the default action ends the process; the children and the numbering are unchanged |
| Supervisor.Conquer.OnWatcherReady | bin/conquer.js:238-244 | success starts the child (spawning only into an empty slot); an error becomes an uncaught exception and a restart; the slot, the numbering and the child sets afterwards are given for each case |

## Left out

- Spawning processes, delivering signals and ending the process are not performed. They are events in the trace. A child's exit is a call to `OnExit` by whoever drives the model.
- The `watchr` watcher is not modelled. Only its listener's decision on a path (`OnFileEvent`) and its set-up callback (`OnWatcherReady`) are.
- `commander` is not modelled, nor are `--help` and `--version`. `CommandLine` holds what it leaves behind: the positional arguments, the raw `-e`, `-w` and `-x` strings and the `-r` flag. `Resolve` applies the coercions `ParseExtensions` and `ParseList` to the raw strings, as `commander` would.
- `cli-color` and `util.format` are not modelled. Colours are tags, and log messages are the `Message` datatype rather than formatted strings. The exit code in the "exited with code" line is kept as the raw `Option<int>`.
- `fs.existsSync` and `process.platform` are not called. Their answers are the boolean parameters `scriptExists` and `isWindows`.
- The error stack that the uncaught-exception hook prints is not modelled. It becomes the message `UncaughtException`.
- Text.Lower: lowers ASCII letters only. Full Unicode `toLowerCase` is not modelled.
- Paths.ExtName, Paths.Basename and Paths.Dirname: follow Node's POSIX algorithms only. Windows path semantics (backslashes, drive letters) are not modelled.
- Logger.Write: the message is a `string`. `data.toString()` on a child's output buffer (the UTF-8 decoding) is not modelled.
- Supervisor.Conquer.Load: takes the outcome of `Resolve` as its argument instead of the command line, so its contract speaks of that outcome; what the outcome is, is stated by `Resolve`'s own contract.
- Supervisor.Conquer.Exit: `process.exit` does not return. The model records the request, runs the process-wide `exit` hook (`kill()`) and marks the supervisor halted. Events that would have been delivered afterwards are still accepted as method calls.
- Supervisor.Conquer.OnChildData: the listeners run with `appLog`, the corrected behaviour (see Findings). `OnChildDataAsWritten` keeps the behaviour as written.
- Keep-alive, the websocket notification hub and system-command mode are not part of this code, so they are not modelled.

## Findings

| source | as written | input that shows it | evidently intended | confidence | as-written member | corrected member |
|---|---|---|---|---|---|---|
| bin/conquer.js:89-90 | the `data` listeners call `logger.scriptLog`, which `bin/logger.js:56-59` does not export; each chunk throws a `TypeError` before anything is printed, the stderr `execvp()` listener registered after it never runs, and the uncaught-exception hook restarts the child on every chunk | a child writing `execvp(): No such file or directory` to stderr: as written, the supervisor restarts it instead of reporting the failure and exiting | relay each chunk through the exported `appLog(script, data, isError)`, so the output is printed under `[script]` and the `execvp()` check runs | high; not executed | ChildStreams.AsWrittenMissesExecvpFailure | ChildStreams.DeliverStderr |
