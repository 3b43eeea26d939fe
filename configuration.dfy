/** Start-up resolution of the supervisor's settings (`bin/conquer.js:11-17` and `179-223`)
    and the watch listener's filter (`bin/conquer.js:229-236`). */
module Configuration {
  import opened Wrappers
  import opened Text
  import opened Paths
  import opened OptionParsers

  /** What the command-line parser leaves behind: the positional arguments and the raw
      values of `-e`, `-w` and `-x` (each coerced below), and whether `-r` was given. */
  datatype CommandLine = CommandLine(
    args: seq<string>,
    extensions: Option<string>,
    watch: Option<string>,
    exec: Option<string>,
    restartOnExit: bool)

  /** The module-level settings once start-up has resolved them. */
  datatype Config = Config(
    script: string,
    scriptParams: seq<string>,
    parser: string,
    watchPaths: seq<string>,
    extensions: seq<string>,
    restartOnCleanExit: bool,
    isWindows: bool)

  /** The two start-up checks that end the program with a warning. */
  datatype ConfigError = NoInputFile | InputFileNotFound

  const DefaultExtensions: seq<string> := [".js", ".json", ".coffee"]
  const DefaultParser: string := "node"

  /** `-x` wins when it is a non-empty string; otherwise a script whose extension is exactly
      `.coffee` runs under `coffee` (`coffee.cmd` on Windows), and any other under `node`. */
  function SelectParser(exec: Option<string>, script: string, isWindows: bool): (r: string)
    ensures exec.Some? && exec.value != "" ==> r == exec.value
    ensures (exec.None? || exec.value == "") && ExtName(script) == ".coffee" ==>
              r == (if isWindows then "coffee.cmd" else "coffee")
    ensures (exec.None? || exec.value == "") && ExtName(script) != ".coffee" ==> r == DefaultParser
  {
    if exec.Some? && exec.value != "" then exec.value
    else if ExtName(script) == ".coffee" then (if isWindows then "coffee.cmd" else "coffee")
    else DefaultParser
  }

  /** Without `-x`, a script `stem.ext` runs under `coffee` exactly when `ext` is `coffee`,
      compared case-sensitively (`RUN.COFFEE` runs under `node`). */
  lemma SelectParserByExtension(stem: string, ext: string, isWindows: bool)
    requires stem != [] && '/' !in stem && '/' !in ext && '.' !in ext
    ensures SelectParser(None, stem + "." + ext, isWindows) ==
            if ext == "coffee" then (if isWindows then "coffee.cmd" else "coffee") else DefaultParser
  {
    if stem + "." + ext == ".." {
      assert ext == [] by { assert |stem + "." + ext| == 2; }
      ExtNameOfDotDot("", stem + "." + ext);
    } else {
      ExtNameOfStem(stem, ext);
      DotCoffee(ext);
    }
  }

  /** A non-empty `-x` value is used verbatim, whatever the script and the platform. */
  lemma SelectParserExec(exec: string, script: string, isWindows: bool)
    requires exec != ""
    ensures SelectParser(Some(exec), script, isWindows) == exec
  {
  }

  lemma DotCoffee(ext: string)
    ensures ("." + ext == ".coffee") <==> ext == "coffee"
  {
    if "." + ext == ".coffee" {
      assert ("." + ext)[1..] == ext;
    }
  }

  /** `process.argv.slice(process.argv.indexOf(script) + 1)`: the arguments after the first
      occurrence of the script, or all of them when it does not occur. */
  function ScriptParams(argv: seq<string>, script: string): (r: seq<string>)
    ensures script !in argv ==> r == argv
    ensures script in argv ==>
              exists i :: 0 <= i < |argv| && script !in argv[..i] && argv == argv[..i] + [script] + r
  {
    var i := IndexOf(argv, script);
    assert i >= 0 ==> argv == argv[..i] + [script] + argv[i + 1..];
    argv[i + 1..]
  }

  /** `program.args[0]` when it is truthy. */
  function ScriptArgument(cl: CommandLine): Option<string>
  {
    if |cl.args| > 0 && cl.args[0] != "" then Some(cl.args[0]) else None
  }

  /** Start-up: the script must be named and exist; the watch paths default to the script's
      directory, the extensions to `.js`, `.json` and `.coffee`; the parser is selected; the
      script's own arguments are those after it. */
  function Resolve(cl: CommandLine, argv: seq<string>, scriptExists: bool, isWindows: bool): (r: Result<Config, ConfigError>)
    ensures r == Failure(NoInputFile) <==> ScriptArgument(cl).None?
    ensures r == Failure(InputFileNotFound) <==> ScriptArgument(cl).Some? && !scriptExists
    ensures r.Success? ==>
              r.value.script == cl.args[0] &&
              r.value.restartOnCleanExit == cl.restartOnExit &&
              r.value.isWindows == isWindows &&
              (forall k :: 0 <= k < |r.value.extensions| ==> r.value.extensions[k] != [] && r.value.extensions[k][0] == '.')
    ensures r.Success? ==> r.value.scriptParams == ScriptParams(argv, cl.args[0])
    ensures r.Success? ==> r.value.parser == SelectParser(cl.exec, cl.args[0], isWindows)
    ensures r.Success? ==>
              r.value.watchPaths == (if cl.watch.Some? then ParseList(cl.watch.value) else [Dirname(cl.args[0])])
    ensures r.Success? ==>
              r.value.extensions == (if cl.extensions.Some? then ParseExtensions(cl.extensions.value) else DefaultExtensions)
  {
    match ScriptArgument(cl)
    case None => Failure(NoInputFile)
    case Some(script) =>
      if !scriptExists then Failure(InputFileNotFound)
      else
        var watchPaths := if cl.watch.Some? then ParseList(cl.watch.value) else [Dirname(script)];
        var extensions := if cl.extensions.Some? then ParseExtensions(cl.extensions.value) else DefaultExtensions;
        Success(Config(script, ScriptParams(argv, script), SelectParser(cl.exec, script, isWindows),
                       watchPaths, extensions, cl.restartOnExit, isWindows))
  }

  /** Without `-w`, `-e` and `-x`, a script `dir/name` is watched in `dir` for the default
      extensions and runs under `node` unless its extension is `.coffee`. */
  lemma ResolveDefaults(dir: string, name: string, argv: seq<string>, isWindows: bool)
    requires '/' !in name && name != []
    requires dir != [] && dir[|dir| - 1] != '/'
    requires ExtName(name) != ".coffee"
    ensures var r := Resolve(CommandLine([dir + "/" + name], None, None, None, false), argv, true, isWindows);
            r.Success? && r.value.watchPaths == [dir] && r.value.extensions == DefaultExtensions &&
            r.value.parser == DefaultParser && !r.value.restartOnCleanExit
  {
    DirnameOfChild(dir, name);
    ExtNameOfChild(dir, name);
  }

  /** The watch listener's test: `extensions.indexOf(path.extname(filePath).toLowerCase()) != -1`. */
  predicate IsWatched(path: string, extensions: seq<string>)
  {
    Lower(ExtName(path)) in extensions
  }

  /** Every configured entry starts with `.`, so a path without an extension never passes. */
  lemma ExtensionlessNeverWatched(path: string, extensions: seq<string>)
    requires ExtName(path) == ""
    requires forall k :: 0 <= k < |extensions| ==> extensions[k] != [] && extensions[k][0] == '.'
    ensures !IsWatched(path, extensions)
  {
  }

  /** A file `name.ext` anywhere passes exactly when the lower-cased `.ext` is configured:
      the test ignores the directory and the case of the extension. */
  lemma IsWatchedFile(dir: string, stem: string, ext: string, extensions: seq<string>)
    requires stem != [] && '/' !in stem && '/' !in ext && '.' !in ext && stem + "." + ext != ".."
    ensures IsWatched(dir + "/" + (stem + "." + ext), extensions) <==> "." + Lower(ext) in extensions
  {
    StemAndExtension(stem, ext);
    ExtNameOfChild(dir, stem + "." + ext);
    ExtNameOfStem(stem, ext);
    LowerDotExtension(ext);
  }

  lemma LowerDotExtension(ext: string)
    ensures Lower("." + ext) == "." + Lower(ext)
  {
    LowerAppend(".", ext);
    assert Lower(".") == ".";
  }
}
