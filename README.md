# exitmap `command.py`, modelled in Dafny

exitmap runs a command under `torsocks` so that all of the command's connections go out
through one Tor circuit. It reads the command's merged stdout/stderr line by line. When
torsocks (at log level 5) reports the local port of a new connection
(`Connection on fd N originating from HOST:PORT`), exitmap puts
`[circ_id, ("127.0.0.1", int(PORT))]` on a queue shared with the stream correlator. It then
hands the stripped line to the scanning module's callback, and keeps reading while the
callback answers true. A second facility, the closure returned by `run_python_over_tor`,
runs a Python function with `socket.socket` replaced by torsocks' socket class.

The project has these modules:

- `Text` (`text.dfy`): `str.strip()`, decimal digits and `int()` of a digit string.
- `PortPattern` (`port_pattern.dfy`): the pattern at src/command.py:118-119. `MatchAt` states
  it as positions in a line. `ExtractPort` is a scanner, proved to return exactly the capture
  of the leftmost match.
- `Runtime` (`runtime.dfy`):
  - the process-wide state that the code reassigns: `socket.socket`, the torsocks default
    proxy, `torsocks.queue`, `torsocks.circ_id` and `os.environ`, as the class `Globals`;
  - the correlation queue, as the class `Queue`;
  - `EffectLog`, ghost bookkeeping of the order in which queue puts and callback
    deliveries happen.
- `Dispatch` (`dispatch.dfy`): the read loop as pure functions over the sequence of values
  `readline()` returns. `Steps` is the interleaved trace of queue puts and callback
  deliveries. `ReadLines` is the lines delivered. `LoopFrom` is the loop as it runs forward.
  The module also holds lemmas on ordering, stopping and events.
- `Commands` (`command.dfy`): the class `Command`, whose methods
  `ReadOne`/`ReadPass`/`ReadLoop`/`InvokeProcess`/`Execute` change the queue, the callback's
  log and the globals. Each is proved against the `Dispatch` functions.
- `TorClosure` (`tor_closure.dfy`): the closure as the class `OverTor`, with its effect on
  the globals as the functions `Installed` and `AfterCall`. The function it runs is the
  class `PyFunction`.

Modelling decisions:

- **Port extraction.** `util.extract_pattern` is not part of this model. It is taken to
  return capture group 1 of the leftmost `re.search` match, or `None`.
- **Process output.** The output is a `seq<string>` of successive `readline()` results. An
  empty string, or the end of the sequence, is end of file. A pipe gives the empty read
  only last (`PipeOutput`), which `InvokeProcess` and `Execute` require.
- **Callback.** The value the callback returns, read as a truth value, is
  `decide(lines received so far)`. `LineCallback.received` logs the lines it is handed.
- **Socket at each put.** The queue records, as ghost state, the `socket.socket` value at
  each put (`putVia`). This lets the swap at src/command.py:127-130 be stated.
- **Order of effects.** `Queue.Put` appends `Enqueue(event)` and `LineCallback.Call`
  appends `Deliver(line)` to a shared ghost `EffectLog` at the moment each happens. The
  read loop's methods state the log they leave, so the order of puts and deliveries is a
  fact about the code and not only about the reference trace `Steps`.
- **Called function.** The function the closure calls is a `PyFunction`. Its `Invoke`
  records the process-wide state it runs in (`ranIn`) and ends with the function's fixed
  outcome: `Returned`, `SocksError` or `OtherError`.

## Model

| member | source | states |
|---|---|---|
| Text.TrimLeftSpec | src/command.py:113 | stripping leading whitespace leaves the longest suffix that does not start with whitespace, and everything removed is whitespace |
| Text.TrimRightSpec | src/command.py:113 | stripping trailing whitespace leaves the longest prefix that does not end with whitespace, and everything removed is whitespace |
| Text.StripSlice | src/command.py:113 | `line.strip()` is a slice of the line with only whitespace before and after it |
| Text.StripSpec | src/command.py:113 | the stripped line is no longer than the line, starts and ends with non-whitespace, is empty exactly when the line is all whitespace, and is a slice surrounded by whitespace only |
| Text.DecimalValueBound | src/command.py:129 | `int()` of an n-digit numeral is below 10^n |
| PortPattern.DigitsEnd | src/command.py:118-119 | the digit run found stays within the limit and the line, and stops at the limit, the end of the line or a non-digit |
| PortPattern.ColonIndex | src/command.py:118-119 | the index found is the first colon at or after the start, or the end of the line when there is none |
| PortPattern.DigitsEndUnique | src/command.py:118-119 | a digit run that stops where the greedy `[0-9]{1,5}` stops is the one DigitsEnd finds |
| PortPattern.ColonIndexUnique | src/command.py:118-119 | the colon ending a `[^:]+` run is the one ColonIndex finds |
| PortPattern.TryAt | src/command.py:118-120 | a capture at a fixed start is 1 to 5 decimal digits |
| PortPattern.TryAtSound | src/command.py:118-119 | whatever the anchored scan returns is the capture of a match of the pattern at that index |
| PortPattern.TryAtComplete | src/command.py:118-119 | every match at an index is found by the anchored scan, with the same capture, so the capture at an index is unique |
| PortPattern.ScanFromCorrect | src/command.py:120 | scanning from i, with no match before i, returns nothing exactly when the pattern occurs nowhere, and otherwise the leftmost capture |
| PortPattern.LeftmostCaptureUnique | src/command.py:120 | the leftmost capture is unique |
| PortPattern.ExtractPort | src/command.py:120 | the extracted port is 1 to 5 decimal digits |
| PortPattern.ExtractPortCorrect | src/command.py:118-120 | the extractor returns p exactly when p is group 1 of the leftmost match, and nothing exactly when the pattern matches nowhere in the line |
| PortPattern.NoMatchBeforeC | src/command.py:118-120 | no match of the pattern can start at a character other than 'C' |
| PortPattern.WellFormedLine | src/command.py:118-120 | a line `<log prefix without 'C'>Connection on fd <digits> originating from <non-colon text>:<1-5 digits><text not continuing the digits>` yields exactly its port digits |
| Dispatch.EventFor | src/command.py:120-129 | a line yields an event exactly when a port is extracted; the event carries the invocation's circuit, the literal "127.0.0.1" and a port below 100000 |
| Dispatch.DisclosureEvent | src/command.py:118-129 | a well-formed disclosure line, after a log prefix without 'C', yields `[circ_id, ("127.0.0.1", int(port))]`, whatever host the line names |
| Dispatch.PortAboveTcpRange | src/command.py:119-129 | the port 99999 is passed on unchanged, without a range check |
| Dispatch.ZeroPaddedPort | src/command.py:119-129 | the port "00000" is passed on as 0 |
| Dispatch.StepsAreBlocks | src/command.py:106-132 | the loop's trace is, per line read, its event (if any) and then its delivery; the lines delivered are the lines read and the events put are those of the matching lines |
| Dispatch.EventsFollowDeliveredLines | src/command.py:122-132 | the queue receives one event per matching delivered line, in the order the lines are delivered |
| Dispatch.MatchedEventsShape | src/command.py:122-129 | every event names the invocation's circuit and the loopback address, with a port below 100000; there are no more events than lines |
| Dispatch.ReadLinesArePrefix | src/command.py:109-113 | the lines delivered are the stripped first reads, and none of those reads was the empty end-of-file read |
| Dispatch.ReadLinesContinued | src/command.py:106-107 | the callback answered true to every line delivered except possibly the last |
| Dispatch.ReadLinesStop | src/command.py:106-111 | nothing is read after an immediate end of file, and when the last answer was true the next read is end of file |
| Dispatch.BlankLineIsDelivered | src/command.py:109-113 | a read of just a newline is not end of file: it is delivered as "" and yields no event |
| Dispatch.EnqueueThenDeliver | src/command.py:122-132 | in a block trace every event is immediately followed by the delivery of the line that produced it |
| Dispatch.DeliverAfterEnqueue | src/command.py:122-132 | in a block trace every delivery of a matching line immediately follows that line's event |
| Dispatch.EventPrecedesItsLine | src/command.py:122-132 | in the loop's trace each event comes right before its line is delivered, and a matching line is never delivered without its event just before it |
| Dispatch.LoopFromIsReadLines | src/command.py:106-132 | running the loop from a midway point gives the lines so far followed by those delivered from the rest of the output |
| Dispatch.LoopFromSteps | src/command.py:106-132 | once the loop stops, its lines give exactly the reference trace, deliveries and events |
| Commands.TorsocksArgv | src/command.py:143 | the argv run is one longer than the caller's, starts with "torsocks" and continues with the caller's argv unchanged |
| Commands.LineCallback.Call | src/command.py:132 | the callback is handed the line, the delivery is logged at that moment, and its answer is its decision on all lines received so far |
| Commands.Command.constructor | src/command.py:73-81 | a new command holds no process, output or callback, and keeps the given queue, circuit and original socket class |
| Commands.Command.PutWithOriginalSocket | src/command.py:127-130 | the event is appended to the queue (and logged as an Enqueue) while the original socket class is installed, and the globals afterwards are exactly as before |
| Commands.Command.ReadOne | src/command.py:109-132 | one pass: an empty read is end of file and changes nothing; otherwise the stripped line's event (if any) is appended and then the line is handed to the callback, in that order in the effect log (`LineSteps`), and the callback's answer is returned |
| Commands.Command.ReadPass | src/command.py:107-132 | one pass keeps the loop's account: queue, socket record, effect log, callback log and the lines still to come agree with the forward loop model |
| Commands.Command.ReadLoop | src/command.py:101-132 | the effect log is extended by exactly the trace Steps, recorded as the effects happen; queue and callback log are extended by its events and deliveries, as many lines are taken as delivered, and the globals are unchanged |
| Commands.Command.InvokeProcess | src/command.py:94-136 | the process gets the argv and environment; without a callback nothing is scanned and the queue is unchanged; with one the read loop runs and the effect log gets its trace; stdout is the unread output and stderr is None |
| Commands.Command.Execute | src/command.py:138-170 | installs the callback, sets TORSOCKS_CONF_FILE and TORSOCKS_LOG_LEVEL=5, runs `["torsocks"] + command`, and returns stdout and stderr as InvokeProcess leaves them, with the effect log extended by the loop's trace |
| Runtime.Queue.Put | src/command.py:129 | the event is appended, the socket class installed at that moment is recorded, and the put is logged as an Enqueue |
| TorClosure.Installed | src/command.py:49-54 | before the call the proxy is 127.0.0.1 at the SOCKS port, torsocks holds the queue and circuit, and torsocks' socket class is installed |
| TorClosure.AfterCall | src/command.py:49-62 | after the call the torsocks settings stay set; the saved socket class is back after a normal return and torsocks' class stays installed after any exception |
| TorClosure.AfterCallKeepsSocketIff | src/command.py:53-62 | the original socket class survives the call exactly when the function returned normally or torsocks' class was already installed |
| TorClosure.SocksErrorLeaksTorSocket | src/command.py:56-62 | after a SOCKSv5Error torsocks' class stays installed, and a later normally returning call does not bring the original class back |
| TorClosure.AfterCallIdempotent | src/command.py:49-62 | two normally returning calls leave the same state as one |
| TorClosure.AfterCallRestoring | src/command.py:41-62 | with restoration in a `finally` clause, the socket class after the call is the one before it, whatever the outcome |
| TorClosure.RestoringIsOutcomeIndependent | src/command.py:41-62 | with a `finally` clause every outcome leaves the state that a normal return leaves as written |
| TorClosure.OverTor.constructor | src/command.py:36-39 | the closure captures the queue, circuit and SOCKS port |
| TorClosure.PyFunction.Invoke | src/command.py:57 | `func(*args)` runs once in the current process-wide state, which it records, and ends with the function's outcome |
| TorClosure.OverTor.Call | src/command.py:41-62 | as written: the function runs exactly once, in the Installed state, the globals end as AfterCall says for its outcome, and only a non-SOCKS exception propagates |
| TorClosure.OverTor.CallRestoring | src/command.py:41-62 | the corrected closure runs the function once in the Installed state and ends as AfterCallRestoring says, with the same propagation |

## Left out

- Process creation, pipes, `readline()` and `communicate()` are not performed. The
  output is an input sequence and stdout is the concatenation of the unread lines.
- The timeout thread (`threading.Thread`, `join(timeout)`, `process.kill()`,
  src/command.py:157-168) is left out: it is concurrency and wall-clock time. Because of
  this, `Execute` has no `timeout` parameter.
- The callback can kill the process with the handle it is given. The model does not cover
  this, and it assumes the callback raises no exceptions.
- `tempfile.NamedTemporaryFile` is not modelled. Its file name is the parameter
  `confFile`, and creating and deleting the file are left out.
- Logging calls (src/command.py:59, 146, 153, 166) are left out.
- The internals of torsocks (`set_default_proxy`, `torsocket`), `util.extract_pattern` and
  `error.SOCKSv5Error` are not part of this model. The socket class is an opaque value, and
  the pattern search is assumed to return the leftmost capture.
- The queue is a plain sequence with append. Its thread-safety and the consumer on the
  other end are left out.
- Effects of the function the closure calls are not modelled, other than how it ends. Its
  network traffic, and any changes it makes to the globals itself, are left out.
- The closure's `*args` are left out.
- The closure's return value is left out: it is None on every path that returns.
- `Commands.Command.Execute`: the two environment variables stay set after the call. This
  matches the code (src/command.py:154-155) and is stated as such. Unsetting them is not
  modelled, because the code does not do it.
- `TorClosure.AfterCallRestoring`: the corrected version restores only the socket class. The
  proxy, `torsocks.queue` and `torsocks.circ_id` stay set, as they do in the code.
- `TorClosure.PyFunction.Invoke`: the function is assumed not to reassign the globals
  itself; its effects other than how it ends are left out (see above).
- The docstring at src/command.py:45-46 says the socket class is reset "once the function
  returns". The model follows the code, which resets it only after a normal return; see the
  finding below.

## Findings

| source | as written | input that shows it | evidently intended | confidence | as-written member | corrected member |
|---|---|---|---|---|---|---|
| src/command.py:53-62 | `socket.socket = orig_socket` runs only when `func` returns; the `except error.SOCKSv5Error` branch returns early and any other exception propagates, both with `torsocks.torsocket` still installed | a function that raises SOCKSv5Error, called with the native socket class installed: afterwards `socket.socket` is torsocks' class, and a later normal call saves and "restores" torsocks' class | the docstring at src/command.py:45-46 ("temporarily monkey-patch socket.socket … and reset it, once the function returns") calls for putting the socket class back whenever the function is done, as a `finally` clause does | medium (not executed) | TorClosure.SocksErrorLeaksTorSocket | TorClosure.RestoringIsOutcomeIndependent |
