/**
 * `Command`: runs a command under torsocks, reads its merged output line by
 * line, reports every torsocks port disclosure on the correlation queue and
 * hands each line to the module's output callback.
 */
module Commands {
  import opened Wrappers
  import opened Text
  import opened PortPattern
  import opened Runtime
  import opened Dispatch

  const Torsocks: string := "torsocks"
  const ConfFileVar: string := "TORSOCKS_CONF_FILE"
  const LogLevelVar: string := "TORSOCKS_LOG_LEVEL"
  /** The torsocks log level at which it prints the port disclosures. */
  const LogLevel: string := "5"

  /** The argument vector `execute` runs: torsocks first, then the caller's argv unchanged. */
  function TorsocksArgv(command: seq<string>): (r: seq<string>)
    ensures |r| == |command| + 1 && r[0] == Torsocks && r[1..] == command
  {
    [Torsocks] + command
  }

  /** n copies of x. */
  function Repeat<T>(x: T, n: nat): (r: seq<T>)
    ensures |r| == n && forall k :: 0 <= k < n ==> r[k] == x
  {
    if n == 0 then [] else Repeat(x, n - 1) + [x]
  }

  lemma {:induction false} RepeatAppend<T>(x: T, m: nat, n: nat)
    ensures Repeat(x, m) + Repeat(x, n) == Repeat(x, m + n)
  {
    assert forall k :: 0 <= k < m + n ==> (Repeat(x, m) + Repeat(x, n))[k] == x;
  }

  /** The loop's account of the queue, extended by one line. */
  lemma ItemsAccountStep(circId: CircuitId, lines: seq<string>, line: string, items0: seq<Event>)
    ensures items0 + MatchedEvents(circId, lines) + LineEvents(circId, line) ==
            items0 + MatchedEvents(circId, lines + [line])
  {
    MatchedEventsAppend(circId, lines, line);
  }

  /** The loop's account of the socket class at each put, extended by one line. */
  lemma ViaAccountStep(circId: CircuitId, origSocket: SocketImpl, lines: seq<string>, line: string,
                       via0: seq<SocketImpl>)
    ensures via0 + Repeat(origSocket, |MatchedEvents(circId, lines)|) + Repeat(origSocket, |LineEvents(circId, line)|) ==
            via0 + Repeat(origSocket, |MatchedEvents(circId, lines + [line])|)
  {
    var m := |MatchedEvents(circId, lines)|;
    var n := |LineEvents(circId, line)|;
    MatchedEventsAppend(circId, lines, line);
    RepeatAppend(origSocket, m, n);
    assert via0 + Repeat(origSocket, m) + Repeat(origSocket, n) == via0 + Repeat(origSocket, m + n);
  }

  /** The loop's account of the effect log, extended by one line. */
  lemma LogAccountStep(circId: CircuitId, lines: seq<string>, line: string, log0: seq<Step>)
    ensures log0 + Blocks(circId, lines) + LineSteps(circId, line) == log0 + Blocks(circId, lines + [line])
  {
    BlocksAppend(circId, lines, line);
  }

  /** A spawned process: the argument vector and the environment it was given. */
  datatype Process = Process(argv: seq<string>, env: map<string, string>)

  /**
   * A module's output callback. Its answer (true: keep reading) is a function
   * of every line it has received; `received` records those lines.
   */
  class LineCallback {
    const decide: seq<string> -> bool
    var received: seq<string>

    constructor (decide: seq<string> -> bool)
      ensures this.decide == decide && received == []
    {
      this.decide := decide;
      received := [];
    }

    method Call(line: string, ghost log: EffectLog) returns (keepReading: bool)
      modifies this, log
      ensures received == old(received) + [line]
      ensures keepReading == decide(received)
      ensures log.steps == old(log.steps) + [Deliver(line)]
    {
      received := received + [line];
      log.steps := log.steps + [Deliver(line)];
      keepReading := decide(received);
    }
  }

  class Command {
    var process: Option<Process>
    var stdout: Option<string>
    var stderr: Option<string>
    var outputCallback: LineCallback?
    const queue: Queue
    const origSocket: SocketImpl
    const circId: CircuitId

    constructor (queue: Queue, circId: CircuitId, origSocket: SocketImpl)
      ensures this.queue == queue && this.circId == circId && this.origSocket == origSocket
      ensures process == None && stdout == None && stderr == None && outputCallback == null
    {
      process := None;
      stdout := None;
      stderr := None;
      outputCallback := null;
      this.queue := queue;
      this.origSocket := origSocket;
      this.circId := circId;
    }

    /**
     * Puts an event on the queue with the original socket implementation
     * installed, and puts back whatever was installed before.
     */
    method PutWithOriginalSocket(event: Event, globals: Globals, ghost log: EffectLog)
      modifies queue, globals, log
      ensures queue.items == old(queue.items) + [event]
      ensures queue.putVia == old(queue.putVia) + Repeat(origSocket, 1)
      ensures log.steps == old(log.steps) + [Enqueue(event)]
      ensures globals.State() == old(globals.State())
    {
      var saved := globals.socket;
      globals.socket := origSocket;
      queue.Put(event, globals, log);
      globals.socket := saved;
    }

    /**
     * One pass of the read loop: read the value at `read`; at an empty read
     * report end of file, otherwise strip it, report its port disclosure, if
     * any, and hand it to the callback. `log` receives the two effects in the
     * order they happen.
     */
    method ReadOne(output: seq<string>, read: nat, callback: LineCallback, globals: Globals,
                   ghost log: EffectLog)
      returns (eof: bool, line: string, keepReading: bool)
      requires read <= |output|
      modifies queue, globals, callback, log
      ensures eof <==> read == |output| || output[read] == ""
      ensures eof ==> unchanged(queue, callback, log) && globals.State() == old(globals.State())
      ensures !eof ==> line == Strip(output[read])
      ensures !eof ==> log.steps == old(log.steps) + LineSteps(circId, line)
      ensures !eof ==> queue.items == old(queue.items) + LineEvents(circId, line)
      ensures !eof ==> queue.putVia == old(queue.putVia) + Repeat(origSocket, |LineEvents(circId, line)|)
      ensures !eof ==> callback.received == old(callback.received) + [line]
      ensures !eof ==> keepReading == callback.decide(callback.received)
      ensures globals.State() == old(globals.State())
    {
      line := if read < |output| then output[read] else "";
      eof := line == "";
      keepReading := false;
      if !eof {
        line := Strip(line);
        var port := ExtractPort(line);
        if port.Some? {
          var event := Event(circId, Address(Localhost, DecimalValue(port.value)));
          PutWithOriginalSocket(event, globals, log);
        }
        keepReading := callback.Call(line, log);
      }
    }

    /**
     * One pass of the read loop, as the loop sees it: `lines` were handed over
     * so far, from `read` reads, and `whole` is what the loop hands over in
     * all. At end of file those are all; otherwise the line just read joins
     * them, with its event on the queue.
     */
    method ReadPass(output: seq<string>, read: nat, callback: LineCallback, globals: Globals,
                    ghost seen0: seq<string>, ghost items0: seq<Event>, ghost via0: seq<SocketImpl>,
                    ghost lines: seq<string>, ghost whole: seq<string>,
                    ghost log: EffectLog, ghost log0: seq<Step>)
      returns (eof: bool, line: string, keepReading: bool)
      requires read <= |output| && read == |lines|
      requires log.steps == log0 + Blocks(circId, lines)
      requires queue.items == items0 + MatchedEvents(circId, lines)
      requires queue.putVia == via0 + Repeat(origSocket, |MatchedEvents(circId, lines)|)
      requires callback.received == seen0 + lines
      requires LoopFrom(output, callback.decide, seen0, lines, read) == whole
      modifies queue, globals, callback, log
      ensures globals.State() == old(globals.State())
      ensures eof ==> lines == whole && unchanged(queue, callback, log)
      ensures !eof ==> read < |output|
      ensures !eof ==> log.steps == log0 + Blocks(circId, lines + [line])
      ensures !eof ==> queue.items == items0 + MatchedEvents(circId, lines + [line])
      ensures !eof ==> queue.putVia == via0 + Repeat(origSocket, |MatchedEvents(circId, lines + [line])|)
      ensures !eof ==> callback.received == seen0 + (lines + [line])
      ensures !eof && keepReading ==> LoopFrom(output, callback.decide, seen0, lines + [line], read + 1) == whole
      ensures !eof && !keepReading ==> lines + [line] == whole
    {
      LoopFromStep(output, callback.decide, seen0, lines, read, whole);
      eof, line, keepReading := ReadOne(output, read, callback, globals, log);
      if !eof {
        assert callback.received == seen0 + (lines + [line]);
        ItemsAccountStep(circId, lines, line, items0);
        ViaAccountStep(circId, origSocket, lines, line, via0);
        LogAccountStep(circId, lines, line, log0);
      }
    }

    /**
     * The read loop over `output`, the values `readline()` returns: stop at an
     * empty read, otherwise strip the line, handle it, and go on while the
     * callback answers true. `read` is the number of lines taken from the
     * pipe; `steps` is the order in which events were put on the queue and
     * lines handed to the callback, as `log` recorded them.
     */
    method ReadLoop(output: seq<string>, callback: LineCallback, globals: Globals, ghost log: EffectLog)
      returns (read: nat, ghost steps: seq<Step>)
      modifies queue, globals, callback, log
      ensures steps == Steps(circId, output, callback.decide, old(callback.received))
      ensures log.steps == old(log.steps) + steps
      ensures read == |Delivered(steps)| <= |output|
      ensures queue.items == old(queue.items) + Enqueued(steps)
      ensures queue.putVia == old(queue.putVia) + Repeat(origSocket, |Enqueued(steps)|)
      ensures callback.received == old(callback.received) + Delivered(steps)
      ensures globals.State() == old(globals.State())
    {
      read := 0;
      ghost var lines: seq<string> := [];
      ghost var seen0 := callback.received;
      ghost var items0 := queue.items;
      ghost var via0 := queue.putVia;
      ghost var log0 := log.steps;
      ghost var whole := LoopFrom(output, callback.decide, seen0, [], 0);
      var keepReading := true;
      while keepReading
        invariant read <= |output| && read == |lines|
        invariant globals.State() == old(globals.State())
        invariant queue.items == items0 + MatchedEvents(circId, lines)
        invariant queue.putVia == via0 + Repeat(origSocket, |MatchedEvents(circId, lines)|)
        invariant callback.received == seen0 + lines
        invariant log.steps == log0 + Blocks(circId, lines)
        invariant keepReading ==> LoopFrom(output, callback.decide, seen0, lines, read) == whole
        invariant !keepReading ==> lines == whole
        decreases |output| - read
      {
        var eof, line;
        eof, line, keepReading := ReadPass(output, read, callback, globals, seen0, items0, via0, lines, whole,
                                         log, log0);
        if eof {
          break;
        }
        read := read + 1;
        lines := lines + [line];
      }
      LoopFromSteps(circId, output, callback.decide, seen0, lines);
      steps := Blocks(circId, lines);
    }

    /**
     * Starts `command` with the current environment and, when a callback is
     * set, runs the read loop; then `communicate()` collects the rest of the
     * merged output as stdout, and stderr is empty (None) because it was merged.
     */
    method InvokeProcess(command: seq<string>, output: seq<string>, globals: Globals, ghost log: EffectLog)
      returns (ghost steps: seq<Step>)
      requires PipeOutput(output)
      modifies this, queue, globals, outputCallback, log
      ensures log.steps == old(log.steps) + steps
      ensures process == Some(Process(command, old(globals.env)))
      ensures outputCallback == old(outputCallback) && globals.State() == old(globals.State())
      ensures stderr == None
      ensures outputCallback == null ==>
                steps == [] && queue.items == old(queue.items) && queue.putVia == old(queue.putVia) &&
                stdout == Some(Concat(output))
      ensures outputCallback != null ==>
                steps == Steps(circId, output, outputCallback.decide, old(outputCallback.received)) &&
                queue.items == old(queue.items) + Enqueued(steps) &&
                queue.putVia == old(queue.putVia) + Repeat(origSocket, |Enqueued(steps)|) &&
                outputCallback.received == old(outputCallback.received) + Delivered(steps) &&
                |Delivered(steps)| <= |output| && stdout == Some(Concat(output[|Delivered(steps)|..]))
    {
      process := Some(Process(command, globals.env));
      steps := [];
      var read := 0;
      if outputCallback != null {
        read, steps := ReadLoop(output, outputCallback, globals, log);
      }
      stdout := Some(Concat(output[read..]));
      stderr := None;
    }

    /**
     * `execute`: prefixes torsocks, installs the callback, points torsocks at
     * the temporary configuration file `confFile` and at log level 5 through
     * the environment (which stays set afterwards), runs the process and
     * returns the captured stdout and stderr.
     */
    method Execute(command: seq<string>, callback: LineCallback?, confFile: string,
                   output: seq<string>, globals: Globals, ghost log: EffectLog)
      returns (out: Option<string>, err: Option<string>, ghost steps: seq<Step>)
      requires PipeOutput(output)
      modifies this, queue, globals, callback, log
      ensures log.steps == old(log.steps) + steps
      ensures outputCallback == callback
      ensures globals.env == old(globals.env)[ConfFileVar := confFile][LogLevelVar := LogLevel]
      ensures globals.socket == old(globals.socket) && globals.proxy == old(globals.proxy)
      ensures globals.torQueue == old(globals.torQueue) && globals.torCircId == old(globals.torCircId)
      ensures process == Some(Process(TorsocksArgv(command), globals.env))
      ensures out == stdout && err == stderr && err == None
      ensures callback == null ==>
                steps == [] && queue.items == old(queue.items) && out == Some(Concat(output))
      ensures callback != null ==>
                steps == Steps(circId, output, callback.decide, old(callback.received)) &&
                queue.items == old(queue.items) + Enqueued(steps) &&
                queue.putVia == old(queue.putVia) + Repeat(origSocket, |Enqueued(steps)|) &&
                callback.received == old(callback.received) + Delivered(steps) &&
                |Delivered(steps)| <= |output| && out == Some(Concat(output[|Delivered(steps)|..]))
    {
      var argv := TorsocksArgv(command);
      outputCallback := callback;
      globals.env := globals.env[ConfFileVar := confFile][LogLevelVar := LogLevel];
      steps := InvokeProcess(argv, output, globals, log);
      out, err := stdout, stderr;
    }
  }
}
