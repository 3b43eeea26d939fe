/** The `data` listeners that `start` attaches to a child's output streams
    (`bin/conquer.js:89-96`), delivered the way an event emitter delivers an event: in
    registration order, until one of them throws or ends the process. */
module ChildStreams {
  import opened Text
  import opened Logger

  datatype Listener =
    | ScriptLog(isError: bool)  // `logger.scriptLog(script, data, isError)`; `bin/logger.js` exports no such name
    | AppLog(isError: bool)     // `logger.appLog(script, data, isError)`
    | ExecvpCheck               // `/^execvp\(\)/` test: log the failure, then `process.exit(0)`

  /** What a listener does that the supervisor can see: lines printed, or the fatal
      "Failed to restart child process." followed by the end of the process. */
  datatype Effect = Printed(lines: seq<Line>) | Fatal

  /** The effects of one delivery, and whether a listener threw. */
  datatype Delivery = Delivery(effects: seq<Effect>, threw: bool)

  /** The chunk is the diagnostic a child prints when its executable cannot be run. */
  predicate IsExecvpFailure(data: string)
  {
    StartsWith(data, "execvp()")
  }

  /** Delivers one chunk of the child's output to the listeners. Calling a name the logger
      does not export throws a `TypeError`, which stops the delivery; so does the end of the
      process. */
  function Deliver(listeners: seq<Listener>, script: string, data: string): (d: Delivery)
    ensures |d.effects| <= |listeners|
    ensures d.threw ==> exists k :: 0 <= k < |listeners| && listeners[k].ScriptLog?
  {
    if listeners == [] then Delivery([], false)
    else match listeners[0]
      case ScriptLog(_) => Delivery([], true)
      case AppLog(isError) =>
        var rest := Deliver(listeners[1..], script, data);
        assert rest.threw ==> exists k :: 0 <= k < |listeners| && listeners[k].ScriptLog? by {
          if rest.threw {
            var k :| 0 <= k < |listeners[1..]| && listeners[1..][k].ScriptLog?;
            assert listeners[k + 1].ScriptLog?;
          }
        }
        Delivery([Printed(AppLogLines(script, data, isError))] + rest.effects, rest.threw)
      case ExecvpCheck =>
        if IsExecvpFailure(data) then Delivery([Fatal], false)
        else
          var rest := Deliver(listeners[1..], script, data);
          assert rest.threw ==> exists k :: 0 <= k < |listeners| && listeners[k].ScriptLog? by {
            if rest.threw {
              var k :| 0 <= k < |listeners[1..]| && listeners[1..][k].ScriptLog?;
              assert listeners[k + 1].ScriptLog?;
            }
          }
          rest
  }

  /** The listeners as `start` registers them: stdout, then stderr. */
  const StdoutAsWritten: seq<Listener> := [ScriptLog(false)]
  const StderrAsWritten: seq<Listener> := [ScriptLog(true), ExecvpCheck]

  /** The listeners with the logger's `appLog` in place of the missing `scriptLog`. */
  const StdoutListeners: seq<Listener> := [AppLog(false)]
  const StderrListeners: seq<Listener> := [AppLog(true), ExecvpCheck]

  /** The corrected listeners of the stream a chunk arrives on. */
  function Listeners(fromStderr: bool): seq<Listener>
  {
    if fromStderr then StderrListeners else StdoutListeners
  }

  /** As written, every chunk on either stream throws before printing anything, so the
      `execvp()` check never runs and the exception reaches the process-wide hook. */
  lemma AsWrittenEveryChunkThrows(script: string, data: string)
    ensures Deliver(StdoutAsWritten, script, data) == Delivery([], true)
    ensures Deliver(StderrAsWritten, script, data) == Delivery([], true)
  {
  }

  /** A concrete chunk: the child's executable is missing, and the as-written listeners do
      not end the supervisor, while the corrected ones do. */
  lemma AsWrittenMissesExecvpFailure()
    ensures var data := "execvp(): No such file or directory";
            IsExecvpFailure(data) &&
            Fatal !in Deliver(StderrAsWritten, "server.js", data).effects &&
            Fatal in Deliver(StderrListeners, "server.js", data).effects
  {
    var data := "execvp(): No such file or directory";
    assert data[..8] == "execvp()";
    DeliverStderr("server.js", data);
  }

  /** Corrected stdout: the chunk is printed through `appLog`, uncoloured, and nothing
      throws. */
  lemma DeliverStdout(script: string, data: string)
    ensures Deliver(StdoutListeners, script, data) == Delivery([Printed(AppLogLines(script, data, false))], false)
  {
    assert StdoutListeners[1..] == [];
  }

  /** Corrected stderr: the chunk is printed in red through `appLog`; then the supervisor
      ends exactly when the chunk starts with `execvp()`; nothing throws. */
  lemma DeliverStderr(script: string, data: string)
    ensures Deliver(StderrListeners, script, data) ==
            Delivery([Printed(AppLogLines(script, data, true))] + (if IsExecvpFailure(data) then [Fatal] else []), false)
  {
    assert StderrListeners[1..] == [ExecvpCheck];
    assert StderrListeners[1..][1..] == [];
  }
}
