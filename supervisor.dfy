/** The supervisor of `bin/conquer.js`: one slot for the child process, the handlers that
    start, kill and restart it, and the handlers for the child's exit, its output, file
    changes and process-wide events. Every handler runs to completion on the single event
    loop, so each is a method. Spawning, signalling and logging are recorded as events in a
    trace; a child is an abstract number handed out in spawn order. */
module Supervisor {
  import opened Wrappers
  import opened Text
  import opened Paths
  import opened Configuration
  import Logger
  import ChildStreams

  datatype Level = Info | Warn | Error

  /** The supervisor's own log messages (their colouring is not modelled). */
  datatype Message =
    | Watching(paths: seq<string>, extensions: seq<string>)
    | Starting(script: string, parser: string)
    | Killed(script: string)
    | Restarting(script: string)
    | SignalInterruption
    | ExitedWithCode(script: string, code: Option<int>)
    | Changed(file: string)
    | FailedToRestart
    | NoInputFile
    | InputFileNotFound
    | UserKilledProcess
    | UncaughtException

  datatype Event =
    | Log(level: Level, message: Message)
    | Relay(lines: seq<Logger.Line>)                        // child output printed via the logger
    | Spawn(child: nat, parser: string, args: seq<string>)  // `spawn(parser, [script].concat(scriptParams))`
    | KillSent(child: nat)                                  // `instance.kill()`
    | ExitRequested(code: int)                              // `process.exit(code)`
    | DefaultSignalAction(signal: string)                   // a signal with no handler ends the process

  function Held(slot: Option<nat>): set<nat>
  {
    if slot.Some? then {slot.value} else {}
  }

  /** The events of `kill(noMsg)` on a slot. */
  function KillEvents(slot: Option<nat>, noMsg: bool, script: string): seq<Event>
  {
    match slot
    case None => []
    case Some(child) => (if noMsg then [] else [Log(Info, Killed(script))]) + [KillSent(child)]
  }

  /** The events of `start(noMsg)` on a slot, `next` being the number the new child gets. */
  function StartEvents(slot: Option<nat>, noMsg: bool, next: nat, c: Config): seq<Event>
  {
    (if noMsg then [] else [Log(Info, Starting(c.script, c.parser))]) +
    (if slot.None? then [Spawn(next, c.parser, [c.script] + c.scriptParams)] else [])
  }

  /** The events of `restart()`: the log line, then `kill(true)`, then `start(true)`. */
  function RestartEvents(slot: Option<nat>, next: nat, c: Config): seq<Event>
  {
    [Log(Info, Restarting(c.script))] + KillEvents(slot, true, c.script) + StartEvents(None, true, next, c)
  }

  function SpawnedIn(events: seq<Event>): set<nat>
  {
    set k | 0 <= k < |events| && events[k].Spawn? :: events[k].child
  }

  /** A restart logs first, kills the current child (if any) right before spawning, and
      spawns exactly one child, last. */
  lemma RestartKillsThenSpawns(slot: Option<nat>, next: nat, c: Config)
    ensures var e := RestartEvents(slot, next, c);
            |e| == (if slot.Some? then 3 else 2) &&
            e[0] == Log(Info, Restarting(c.script)) &&
            e[|e| - 1] == Spawn(next, c.parser, [c.script] + c.scriptParams) &&
            (slot.Some? ==> e[1] == KillSent(slot.value)) &&
            SpawnedIn(e) == {next}
  {
    var e := RestartEvents(slot, next, c);
    assert forall k :: 0 <= k < |e| - 1 ==> !e[k].Spawn?;
    assert e[|e| - 1].Spawn?;
  }

  /** Whether the exit handler restarts: on `SIGUSR2`, or on exit code 0 when
      `restartOnCleanExit` is set (a missing code is never `== 0`). */
  predicate RestartsOnExit(code: Option<int>, signal: Option<string>, restartOnCleanExit: bool)
  {
    signal == Some("SIGUSR2") || (code == Some(0) && restartOnCleanExit)
  }

  /** The events the supervisor records for the effects of delivering one output chunk:
      a relayed chunk, or the fatal report followed by the exit request and the `exit`
      hook's `kill()` on the slot. */
  function EffectEvents(effects: seq<ChildStreams.Effect>, slot: Option<nat>, script: string): seq<Event>
  {
    if effects == [] then []
    else
      (match effects[0]
       case Printed(lines) => [Relay(lines)]
       case Fatal => [Log(Error, FailedToRestart), ExitRequested(0)] + KillEvents(slot, false, script)) +
      EffectEvents(effects[1..], slot, script)
  }

  /** Delivering a chunk to the corrected listeners records the relayed lines, then the
      fatal report exactly for a stderr `execvp()` chunk. */
  lemma DeliveredEvents(fromStderr: bool, script: string, data: string, slot: Option<nat>)
    ensures var fatal := fromStderr && ChildStreams.IsExecvpFailure(data);
            EffectEvents(ChildStreams.Deliver(ChildStreams.Listeners(fromStderr), script, data).effects, slot, script) ==
            [Relay(Logger.AppLogLines(script, data, fromStderr))] +
            (if fatal then [Log(Error, FailedToRestart), ExitRequested(0)] + KillEvents(slot, false, script) else [])
  {
    var relay := ChildStreams.Printed(Logger.AppLogLines(script, data, fromStderr));
    if fromStderr {
      ChildStreams.DeliverStderr(script, data);
      if ChildStreams.IsExecvpFailure(data) {
        var effects := [relay, ChildStreams.Fatal];
        assert effects[1..][1..] == [];
        assert EffectEvents(effects[1..], slot, script) ==
               [Log(Error, FailedToRestart), ExitRequested(0)] + KillEvents(slot, false, script);
      } else {
        assert [relay] + [] == [relay];
        assert [relay][1..] == [];
      }
    } else {
      ChildStreams.DeliverStdout(script, data);
      assert [relay][1..] == [];
    }
  }

  /** What start-up records: the watch settings, or the warning and the exit request. */
  function StartupEvents(resolved: Result<Config, ConfigError>): (r: seq<Event>)
    ensures resolved.Success? ==> r == [Log(Info, Watching(resolved.value.watchPaths, resolved.value.extensions))]
    ensures resolved == Failure(ConfigError.NoInputFile) ==> r == [Log(Warn, Message.NoInputFile), ExitRequested(0)]
    ensures resolved == Failure(ConfigError.InputFileNotFound) ==> r == [Log(Warn, Message.InputFileNotFound), ExitRequested(0)]
  {
    match resolved
    case Success(c) => [Log(Info, Watching(c.watchPaths, c.extensions))]
    case Failure(e) => [Log(Warn, if e.NoInputFile? then Message.NoInputFile else Message.InputFileNotFound), ExitRequested(0)]
  }

  class Conquer {
    /** The settings resolved at start-up. */
    var config: Config
    /** The slot `instance`: the child last spawned, until `kill` empties it. */
    var instance: Option<nat>
    /** The number the next spawned child gets. */
    var nextChild: nat
    /** Set once the process has been asked to end. */
    var halted: bool

    /** Children whose exit has not been reported yet. */
    ghost var running: set<nat>
    /** Children that have been sent a kill. */
    ghost var killed: set<nat>
    /** Everything the supervisor has done, in order. */
    ghost var trace: seq<Event>

    /** The running children that nobody has asked to stop. */
    ghost function Live(): set<nat>
      reads this
    {
      running - killed
    }

    /** Children are numbered in spawn order, and a running child that has not been sent a
        kill is the one in the slot. */
    ghost predicate Valid()
      reads this
    {
      (instance.Some? ==> instance.value < nextChild) &&
      (forall c :: c in running ==> c < nextChild) &&
      (forall c :: c in killed ==> c < nextChild) &&
      (forall c :: c in running && c !in killed ==> instance == Some(c))
    }

    /** At most one live child, and none while the slot is empty. A killed child may still
        be shutting down beside its successor, since `kill` does not wait. */
    lemma AtMostOneLive()
      requires Valid()
      ensures |Live()| <= 1
      ensures instance.None? ==> Live() == {}
      ensures Live() <= Held(instance)
    {
      assert Live() <= Held(instance);
      if instance.Some? {
        assert Live() <= {instance.value};
        SubsetCard(Live(), {instance.value});
      }
    }

    static lemma SubsetCard(a: set<nat>, b: set<nat>)
      requires a <= b
      ensures |a| <= |b|
    {
      if a != {} {
        var x :| x in a;
        SubsetCard(a - {x}, b - {x});
      }
    }

    /** Module load and start-up (`bin/conquer.js:11-17`, `179-226`), given the outcome of
        resolving the settings (`Resolve`): log the watch settings, or warn and request exit.
        The watcher has not reported ready yet, so no child runs. */
    constructor Load(resolved: Result<Config, ConfigError>, isWindows: bool)
      ensures Valid()
      ensures instance == None && nextChild == 0 && running == {} && killed == {}
      ensures trace == StartupEvents(resolved)
      ensures halted <==> resolved.Failure?
      ensures resolved.Success? ==> config == resolved.value
    {
      instance := None;
      nextChild := 0;
      running := {};
      killed := {};
      trace := StartupEvents(resolved);
      halted := resolved.Failure?;
      config := if resolved.Success? then resolved.value
                else Config("", [], DefaultParser, ["./"], DefaultExtensions, false, isWindows);
    }

    /** `kill(noMsg)`: nothing at all on an empty slot; otherwise log unless `noMsg`, send
        the kill and empty the slot. */
    method Kill(noMsg: bool)
      requires Valid()
      modifies this
      ensures Valid() && instance == None && Live() == {}
      ensures trace == old(trace) + KillEvents(old(instance), noMsg, config.script)
      ensures killed == old(killed) + Held(old(instance))
      ensures config == old(config) && running == old(running) && nextChild == old(nextChild)
      ensures halted == old(halted)
    {
      if instance.None? {
        return;
      }
      if !noMsg {
        trace := trace + [Log(Info, Killed(config.script))];
      }
      var child := instance.value;
      trace := trace + [KillSent(child)];
      killed := killed + {child};
      instance := None;
    }

    /** `start(noMsg)`: log unless `noMsg` (even when a child is already held); spawn and
        fill the slot only when it is empty. */
    method Start(noMsg: bool)
      requires Valid()
      modifies this
      ensures Valid()
      ensures trace == old(trace) + StartEvents(old(instance), noMsg, old(nextChild), config)
      ensures old(instance).Some? ==>
                instance == old(instance) && nextChild == old(nextChild) && running == old(running)
      ensures old(instance).None? ==>
                instance == Some(old(nextChild)) && nextChild == old(nextChild) + 1 &&
                running == old(running) + {old(nextChild)} && Live() == {old(nextChild)}
      ensures config == old(config) && killed == old(killed) && halted == old(halted)
    {
      if !noMsg {
        trace := trace + [Log(Info, Starting(config.script, config.parser))];
      }
      if instance.Some? {
        return;
      }
      var child := nextChild;
      trace := trace + [Spawn(child, config.parser, [config.script] + config.scriptParams)];
      instance := Some(child);
      nextChild := nextChild + 1;
      running := running + {child};
    }

    /** `restart()`: log, `kill(true)`, `start(true)`. Afterwards the new child is the only
        live one. */
    method Restart()
      requires Valid()
      modifies this
      ensures Valid()
      ensures trace == old(trace) + RestartEvents(old(instance), old(nextChild), config)
      ensures instance == Some(old(nextChild)) && nextChild == old(nextChild) + 1
      ensures Live() == {old(nextChild)}
      ensures running == old(running) + {old(nextChild)} && killed == old(killed) + Held(old(instance))
      ensures config == old(config) && halted == old(halted)
    {
      trace := trace + [Log(Info, Restarting(config.script))];
      Kill(true);
      Start(true);
    }

    /** The child's `exit` handler, run once when `child` ends: on `SIGUSR2` log the
        interruption and restart; otherwise log the code and restart only on code 0 with
        `restartOnCleanExit`. It never empties the slot itself. */
    method OnExit(child: nat, code: Option<int>, signal: Option<string>)
      requires Valid() && child in running
      modifies this
      ensures Valid()
      ensures trace == old(trace) +
                (if signal == Some("SIGUSR2") then [Log(Error, SignalInterruption)]
                 else [Log(Info, ExitedWithCode(config.script, code))]) +
                (if RestartsOnExit(code, signal, config.restartOnCleanExit)
                 then RestartEvents(old(instance), old(nextChild), config) else [])
      ensures !RestartsOnExit(code, signal, config.restartOnCleanExit) ==>
                instance == old(instance) && nextChild == old(nextChild) &&
                running == old(running) - {child} && killed == old(killed)
      ensures RestartsOnExit(code, signal, config.restartOnCleanExit) ==>
                instance == Some(old(nextChild)) && Live() == {old(nextChild)} &&
                nextChild == old(nextChild) + 1 &&
                running == old(running) - {child} + {old(nextChild)} &&
                killed == old(killed) + Held(old(instance))
      ensures config == old(config) && halted == old(halted)
    {
      running := running - {child};
      if signal == Some("SIGUSR2") {
        trace := trace + [Log(Error, SignalInterruption)];
        Restart();
        return;
      }
      trace := trace + [Log(Info, ExitedWithCode(config.script, code))];
      if code == Some(0) && config.restartOnCleanExit {
        Restart();
        return;
      }
    }

    /** The watch listener: a changed file whose lower-cased extension is configured is
        logged by its base name and restarts the child; any other changes nothing. */
    method OnFileEvent(path: string)
      requires Valid()
      modifies this
      ensures Valid()
      ensures IsWatched(path, config.extensions) ==>
                trace == old(trace) + [Log(Info, Changed(Basename(path)))] +
                         RestartEvents(old(instance), old(nextChild), config) &&
                instance == Some(old(nextChild)) && Live() == {old(nextChild)} &&
                nextChild == old(nextChild) + 1 && running == old(running) + {old(nextChild)} &&
                killed == old(killed) + Held(old(instance))
      ensures !IsWatched(path, config.extensions) ==>
                trace == old(trace) && instance == old(instance) && nextChild == old(nextChild) &&
                running == old(running) && killed == old(killed)
      ensures config == old(config) && halted == old(halted)
    {
      var ext := Lower(ExtName(path));
      if ext in config.extensions {
        trace := trace + [Log(Info, Changed(Basename(path)))];
        Restart();
      }
    }

    /** `process.exit(0)`: the process-wide `exit` hook then runs `kill()`. */
    method Exit()
      requires Valid()
      modifies this
      ensures Valid() && halted && instance == None && Live() == {}
      ensures trace == old(trace) + [ExitRequested(0)] + KillEvents(old(instance), false, config.script)
      ensures killed == old(killed) + Held(old(instance))
      ensures config == old(config) && running == old(running) && nextChild == old(nextChild)
    {
      trace := trace + [ExitRequested(0)];
      Kill(false);
      halted := true;
    }

    /** A chunk of the child's output, with the logger's `appLog` as the relay: print it
        under the script's name (red for stderr); a stderr chunk starting with `execvp()`
        is fatal and ends the supervisor. */
    method OnChildData(fromStderr: bool, data: string)
      requires Valid()
      modifies this
      ensures Valid()
      ensures var fatal := fromStderr && ChildStreams.IsExecvpFailure(data);
              trace == old(trace) + [Relay(Logger.AppLogLines(config.script, data, fromStderr))] +
                       (if fatal then [Log(Error, FailedToRestart), ExitRequested(0)] +
                                      KillEvents(old(instance), false, config.script)
                        else []) &&
              halted == (old(halted) || fatal) &&
              (fatal ==> instance == None && killed == old(killed) + Held(old(instance))) &&
              (!fatal ==> instance == old(instance) && killed == old(killed))
      ensures trace == old(trace) +
                EffectEvents(ChildStreams.Deliver(ChildStreams.Listeners(fromStderr), config.script, data).effects,
                             old(instance), config.script)
      ensures config == old(config) && running == old(running) && nextChild == old(nextChild)
    {
      ghost var slot := instance;
      DeliveredEvents(fromStderr, config.script, data, slot);
      var lines := Logger.AppLog(config.script, data, fromStderr);
      trace := trace + [Relay(lines)];
      if fromStderr && ChildStreams.IsExecvpFailure(data) {
        trace := trace + [Log(Error, FailedToRestart)];
        Exit();
      }
    }

    /** A chunk of the child's output with the listeners as registered: the call to the
        logger's missing `scriptLog` throws, and the uncaught-exception hook restarts the
        child. */
    method OnChildDataAsWritten(fromStderr: bool, data: string)
      requires Valid()
      modifies this
      ensures Valid()
      ensures trace == old(trace) + [Log(Error, UncaughtException)] +
                       RestartEvents(old(instance), old(nextChild), config)
      ensures instance == Some(old(nextChild)) && Live() == {old(nextChild)}
      ensures nextChild == old(nextChild) + 1 && running == old(running) + {old(nextChild)}
      ensures killed == old(killed) + Held(old(instance))
      ensures config == old(config) && halted == old(halted)
    {
      ChildStreams.AsWrittenEveryChunkThrows(config.script, data);
      OnUncaughtException();
    }

    /** The `uncaughtException` hook: log the error and restart. */
    method OnUncaughtException()
      requires Valid()
      modifies this
      ensures Valid()
      ensures trace == old(trace) + [Log(Error, UncaughtException)] +
                       RestartEvents(old(instance), old(nextChild), config)
      ensures instance == Some(old(nextChild)) && Live() == {old(nextChild)}
      ensures nextChild == old(nextChild) + 1 && running == old(running) + {old(nextChild)}
      ensures killed == old(killed) + Held(old(instance))
      ensures config == old(config) && halted == old(halted)
    {
      trace := trace + [Log(Error, UncaughtException)];
      Restart();
    }

    /** `SIGINT`: outside Windows, warn, `kill()` and exit with 0; on Windows no handler is
        installed and the signal's default action ends the process. */
    method OnSigint()
      requires Valid()
      modifies this
      ensures Valid() && halted
      ensures !config.isWindows ==>
                trace == old(trace) + [Log(Warn, UserKilledProcess)] +
                         KillEvents(old(instance), false, config.script) + [ExitRequested(0)] &&
                instance == None && Live() == {}
      ensures config.isWindows ==>
                trace == old(trace) + [DefaultSignalAction("SIGINT")] && instance == old(instance) &&
                killed == old(killed)
      ensures !config.isWindows ==> killed == old(killed) + Held(old(instance))
      ensures running == old(running) && nextChild == old(nextChild) && config == old(config)
    {
      if config.isWindows {
        trace := trace + [DefaultSignalAction("SIGINT")];
        halted := true;
        return;
      }
      trace := trace + [Log(Warn, UserKilledProcess)];
      Kill(false);
      Exit();
    }

    /** `SIGTERM`: outside Windows, `kill()` and exit with 0; on Windows the default action
        ends the process. */
    method OnSigterm()
      requires Valid()
      modifies this
      ensures Valid() && halted
      ensures !config.isWindows ==>
                trace == old(trace) + KillEvents(old(instance), false, config.script) + [ExitRequested(0)] &&
                instance == None && Live() == {}
      ensures config.isWindows ==>
                trace == old(trace) + [DefaultSignalAction("SIGTERM")] && instance == old(instance) &&
                killed == old(killed)
      ensures !config.isWindows ==> killed == old(killed) + Held(old(instance))
      ensures running == old(running) && nextChild == old(nextChild) && config == old(config)
    {
      if config.isWindows {
        trace := trace + [DefaultSignalAction("SIGTERM")];
        halted := true;
        return;
      }
      Kill(false);
      Exit();
    }

    /** The watcher's set-up callback: on success `start()`; an error is thrown, and the
        uncaught-exception hook restarts, which starts the child as well. */
    method OnWatcherReady(failed: bool)
      requires Valid()
      modifies this
      ensures Valid()
      ensures !failed ==> trace == old(trace) + StartEvents(old(instance), false, old(nextChild), config)
      ensures failed ==>
                trace == old(trace) + [Log(Error, UncaughtException)] +
                         RestartEvents(old(instance), old(nextChild), config)
      ensures instance == (if !failed && old(instance).Some? then old(instance) else Some(old(nextChild)))
      ensures nextChild == (if !failed && old(instance).Some? then old(nextChild) else old(nextChild) + 1)
      ensures running == (if !failed && old(instance).Some? then old(running) else old(running) + {old(nextChild)})
      ensures killed == (if failed then old(killed) + Held(old(instance)) else old(killed))
      ensures config == old(config) && halted == old(halted)
    {
      if failed {
        OnUncaughtException();
      } else {
        Start(false);
      }
    }
  }
}
