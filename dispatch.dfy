/**
 * What the read loop of `Command.invoke_process` does, as a trace of the
 * two effects it has per line: putting a correlation event on the queue and
 * handing the stripped line to the output callback.
 *
 * The process output is the sequence of values `readline()` returns; an empty
 * value, or the end of the sequence, is end of file. The callback's answer is
 * a function of all lines it has received so far.
 */
module Dispatch {
  import opened Wrappers
  import opened Text
  import opened PortPattern
  import opened Runtime

  /** The event a stripped line gives rise to: the literal loopback address and `int(port)`. */
  function EventFor(circId: CircuitId, line: string): (r: Option<Event>)
    ensures r.Some? <==> ExtractPort(line).Some?
    ensures r.Some? ==> r.value.circId == circId && r.value.peer.host == Localhost &&
                        0 <= r.value.peer.port < 100000
  {
    match ExtractPort(line)
    case None => None
    case Some(p) =>
      DecimalValueBound(p);
      assert Pow10(|p|) <= Pow10(MaxPortDigits) by { Pow10Monotone(|p|, MaxPortDigits); }
      Some(Event(circId, Address(Localhost, DecimalValue(p))))
  }

  lemma {:induction false} Pow10Monotone(m: nat, n: nat)
    requires m <= n
    ensures Pow10(m) <= Pow10(n)
    decreases n
  {
    if m < n { Pow10Monotone(m, n - 1); }
  }

  /**
   * A well-formed disclosure line, after a log prefix without 'C', gives the
   * event for `int(port)` on the loopback address, whatever host text the line
   * names; the port is not range-checked.
   */
  lemma DisclosureEvent(circId: CircuitId, pre: string, fd: string, host: string, port: string, rest: string)
    requires forall k :: 0 <= k < |pre| ==> pre[k] != 'C'
    requires |fd| >= 1 && AllDigits(fd)
    requires |host| >= 1 && NoColon(host)
    requires 1 <= |port| <= MaxPortDigits && AllDigits(port)
    requires |port| == MaxPortDigits || rest == [] || !IsDigit(rest[0])
    ensures EventFor(circId, pre + Prefix + fd + Middle + host + ":" + port + rest) ==
            Some(Event(circId, Address(Localhost, DecimalValue(port))))
  {
    WellFormedLine(pre, fd, host, port, rest);
  }

  /** A port outside the TCP range is passed on as `int()` reads it. */
  lemma PortAboveTcpRange(circId: CircuitId)
    ensures EventFor(circId, Prefix + "7" + Middle + "h" + ":" + "99999" + "") ==
            Some(Event(circId, Address(Localhost, 99999)))
  {
    assert AllDigits("7") && AllDigits("99999") && NoColon("h");
    assert "99999"[..4] == "9999" && "9999"[..3] == "999" && "999"[..2] == "99" && "99"[..1] == "9";
    assert DecimalValue("99999") == 99999;
    assert "" + Prefix == Prefix;
    DisclosureEvent(circId, "", "7", "h", "99999", "");
  }

  /** A zero-padded port is passed on as `int()` reads it. */
  lemma ZeroPaddedPort(circId: CircuitId)
    ensures EventFor(circId, Prefix + "7" + Middle + "h" + ":" + "00000" + "") ==
            Some(Event(circId, Address(Localhost, 0)))
  {
    assert AllDigits("7") && AllDigits("00000") && NoColon("h");
    assert "00000"[..4] == "0000" && "0000"[..3] == "000" && "000"[..2] == "00" && "00"[..1] == "0";
    assert DecimalValue("00000") == 0;
    assert "" + Prefix == Prefix;
    DisclosureEvent(circId, "", "7", "h", "00000", "");
  }

  /** The events one line puts on the queue: none, or its one event. */
  function LineEvents(circId: CircuitId, line: string): seq<Event> {
    match EventFor(circId, line) case Some(e) => [e] case None => []
  }

  /** The effects of one line: its event, if any, and then its delivery. */
  function LineSteps(circId: CircuitId, line: string): seq<Step> {
    (match EventFor(circId, line) case Some(e) => [Enqueue(e)] case None => []) + [Deliver(line)]
  }

  /**
   * The loop on output `stream`, for a callback that has already received `seen`:
   * stop at end of file; otherwise strip the line, emit its steps, and go on
   * only when the callback answers true.
   */
  function Steps(circId: CircuitId, stream: seq<string>, decide: seq<string> -> bool,
                 seen: seq<string>): seq<Step>
    decreases |stream|
  {
    if stream == [] || stream[0] == "" then []
    else
      var line := Strip(stream[0]);
      LineSteps(circId, line) +
      (if decide(seen + [line]) then Steps(circId, stream[1..], decide, seen + [line]) else [])
  }

  /**
   * The lines the loop hands to the callback: the stripped reads up to end of
   * file, or up to and including the first one the callback answers false to.
   */
  function ReadLines(stream: seq<string>, decide: seq<string> -> bool, seen: seq<string>): seq<string>
    decreases |stream|
  {
    if stream == [] || stream[0] == "" then []
    else
      var line := Strip(stream[0]);
      [line] + (if decide(seen + [line]) then ReadLines(stream[1..], decide, seen + [line]) else [])
  }

  /**
   * What `readline()` on a pipe can return: the empty read of end of file
   * comes last, if at all.
   */
  predicate PipeOutput(output: seq<string>) {
    forall k :: 0 <= k < |output| - 1 ==> output[k] != ""
  }

  /** The events a trace puts on the queue, in order. */
  function Enqueued(steps: seq<Step>): seq<Event> {
    if steps == [] then []
    else (if steps[0].Enqueue? then [steps[0].event] else []) + Enqueued(steps[1..])
  }

  /** The lines a trace hands to the callback, in order. */
  function Delivered(steps: seq<Step>): seq<string> {
    if steps == [] then []
    else (if steps[0].Deliver? then [steps[0].line] else []) + Delivered(steps[1..])
  }

  /** The per-line steps of the given lines, one block after another. */
  function Blocks(circId: CircuitId, lines: seq<string>): seq<Step> {
    if lines == [] then [] else LineSteps(circId, lines[0]) + Blocks(circId, lines[1..])
  }

  /** Reference definition of the events: one per matching line, in line order. */
  function MatchedEvents(circId: CircuitId, lines: seq<string>): seq<Event> {
    if lines == [] then [] else LineEvents(circId, lines[0]) + MatchedEvents(circId, lines[1..])
  }

  function StripAll(lines: seq<string>): (r: seq<string>)
    ensures |r| == |lines| && forall k :: 0 <= k < |lines| ==> r[k] == Strip(lines[k])
  {
    if lines == [] then [] else [Strip(lines[0])] + StripAll(lines[1..])
  }

  lemma {:induction false} ProjectionsAppend(a: seq<Step>, b: seq<Step>)
    ensures Enqueued(a + b) == Enqueued(a) + Enqueued(b)
    ensures Delivered(a + b) == Delivered(a) + Delivered(b)
  {
    if a != [] {
      assert (a + b)[1..] == a[1..] + b;
      ProjectionsAppend(a[1..], b);
    } else {
      assert a + b == b;
    }
  }

  lemma LineStepsProjections(circId: CircuitId, line: string)
    ensures Delivered(LineSteps(circId, line)) == [line]
    ensures Enqueued(LineSteps(circId, line)) == LineEvents(circId, line)
  {
    var ev := match EventFor(circId, line) case Some(e) => [Enqueue(e)] case None => [];
    ProjectionsAppend(ev, [Deliver(line)]);
    assert Delivered([Deliver(line)]) == [line];
    assert Enqueued([Deliver(line)]) == [];
  }

  /** A block trace delivers exactly its lines. */
  lemma {:induction false} BlocksDelivered(circId: CircuitId, lines: seq<string>)
    ensures Delivered(Blocks(circId, lines)) == lines
  {
    if lines != [] {
      ProjectionsAppend(LineSteps(circId, lines[0]), Blocks(circId, lines[1..]));
      LineStepsProjections(circId, lines[0]);
      BlocksDelivered(circId, lines[1..]);
    }
  }

  /** A block trace enqueues exactly the matched events of its lines. */
  lemma {:induction false} BlocksEnqueued(circId: CircuitId, lines: seq<string>)
    ensures Enqueued(Blocks(circId, lines)) == MatchedEvents(circId, lines)
  {
    if lines != [] {
      var head := LineSteps(circId, lines[0]);
      var tail := Blocks(circId, lines[1..]);
      assert Blocks(circId, lines) == head + tail;
      ProjectionsAppend(head, tail);
      LineStepsProjections(circId, lines[0]);
      BlocksEnqueued(circId, lines[1..]);
    }
  }

  lemma {:induction false} MatchedEventsAppend(circId: CircuitId, lines: seq<string>, line: string)
    ensures MatchedEvents(circId, lines + [line]) == MatchedEvents(circId, lines) + LineEvents(circId, line)
  {
    if lines == [] {
      assert lines + [line] == [line];
    } else {
      assert (lines + [line])[1..] == lines[1..] + [line];
      MatchedEventsAppend(circId, lines[1..], line);
    }
  }

  lemma {:induction false} BlocksAppend(circId: CircuitId, lines: seq<string>, line: string)
    ensures Blocks(circId, lines + [line]) == Blocks(circId, lines) + LineSteps(circId, line)
  {
    if lines == [] {
      assert lines + [line] == [line];
      assert Blocks(circId, [line]) == LineSteps(circId, line) + [];
    } else {
      assert (lines + [line])[1..] == lines[1..] + [line];
      BlocksAppend(circId, lines[1..], line);
    }
  }

  /** The loop's trace is the block trace of the lines it reads, which are the lines it delivers. */
  lemma {:induction false} StepsAreBlocks(circId: CircuitId, stream: seq<string>,
                                          decide: seq<string> -> bool, seen: seq<string>)
    ensures Steps(circId, stream, decide, seen) == Blocks(circId, ReadLines(stream, decide, seen))
    ensures Delivered(Steps(circId, stream, decide, seen)) == ReadLines(stream, decide, seen)
    ensures Enqueued(Steps(circId, stream, decide, seen)) ==
            MatchedEvents(circId, ReadLines(stream, decide, seen))
    decreases |stream|
  {
    if stream != [] && stream[0] != "" {
      var line := Strip(stream[0]);
      var lines := ReadLines(stream, decide, seen);
      if decide(seen + [line]) {
        StepsAreBlocks(circId, stream[1..], decide, seen + [line]);
        assert lines[1..] == ReadLines(stream[1..], decide, seen + [line]);
      } else {
        assert lines == [line];
        assert Blocks(circId, lines[1..]) == [];
      }
    }
    BlocksDelivered(circId, ReadLines(stream, decide, seen));
    BlocksEnqueued(circId, ReadLines(stream, decide, seen));
  }

  /**
   * Each matching delivered line puts exactly one event on the queue, carrying
   * the invocation's circuit and the loopback address, in the order the lines
   * were read; other lines put nothing.
   */
  lemma EventsFollowDeliveredLines(circId: CircuitId, stream: seq<string>,
                                   decide: seq<string> -> bool, seen: seq<string>)
    ensures var steps := Steps(circId, stream, decide, seen);
            Enqueued(steps) == MatchedEvents(circId, Delivered(steps))
  {
    StepsAreBlocks(circId, stream, decide, seen);
  }

  /** Every event of MatchedEvents names the given circuit and the loopback address. */
  lemma {:induction false} MatchedEventsShape(circId: CircuitId, lines: seq<string>)
    ensures forall e :: e in MatchedEvents(circId, lines) ==>
              e.circId == circId && e.peer.host == Localhost && 0 <= e.peer.port < 100000
    ensures |MatchedEvents(circId, lines)| <= |lines|
  {
    if lines != [] {
      MatchedEventsShape(circId, lines[1..]);
    }
  }

  /**
   * The lines read are the stripped first n reads, and none of those reads
   * was the empty read of end of file.
   */
  lemma {:induction false} ReadLinesArePrefix(stream: seq<string>, decide: seq<string> -> bool,
                                              seen: seq<string>)
    ensures var lines := ReadLines(stream, decide, seen);
            |lines| <= |stream| && lines == StripAll(stream[..|lines|]) &&
            forall k :: 0 <= k < |lines| ==> stream[k] != ""
    decreases |stream|
  {
    if stream != [] && stream[0] != "" {
      var line := Strip(stream[0]);
      var lines := ReadLines(stream, decide, seen);
      if decide(seen + [line]) {
        ReadLinesArePrefix(stream[1..], decide, seen + [line]);
        assert forall k :: 1 <= k < |lines| ==> stream[k] == stream[1..][k - 1];
      }
    }
  }

  /** The callback answered true to every line read except possibly the last. */
  lemma {:induction false} ReadLinesContinued(stream: seq<string>, decide: seq<string> -> bool,
                                              seen: seq<string>, k: nat)
    requires 0 < k < |ReadLines(stream, decide, seen)|
    ensures decide(seen + ReadLines(stream, decide, seen)[..k])
    decreases k
  {
    var line := Strip(stream[0]);
    var lines := ReadLines(stream, decide, seen);
    if decide(seen + [line]) {
      var tail := ReadLines(stream[1..], decide, seen + [line]);
      assert lines == [line] + tail;
      if k == 1 {
        assert lines[..k] == [line];
      } else {
        ReadLinesContinued(stream[1..], decide, seen + [line], k - 1);
        assert seen + lines[..k] == (seen + [line]) + tail[..k - 1];
      }
    }
  }

  /**
   * The loop stops at end of file (before any line, or after a true answer)
   * or right after the callback answered false: when the last answer was
   * true, the next read is end of file.
   */
  lemma {:induction false} ReadLinesStop(stream: seq<string>, decide: seq<string> -> bool,
                                         seen: seq<string>)
    ensures var lines := ReadLines(stream, decide, seen);
            var n := |lines|;
            (n == 0 ==> stream == [] || stream[0] == "") &&
            (n > 0 ==> n <= |stream| &&
                       (decide(seen + lines) ==> n == |stream| || stream[n] == ""))
    decreases |stream|
  {
    if stream != [] && stream[0] != "" {
      var line := Strip(stream[0]);
      var lines := ReadLines(stream, decide, seen);
      if decide(seen + [line]) {
        var tail := ReadLines(stream[1..], decide, seen + [line]);
        ReadLinesStop(stream[1..], decide, seen + [line]);
        assert lines == [line] + tail;
        assert seen + lines == (seen + [line]) + tail;
        if tail != [] {
          assert |lines| < |stream| ==> stream[|lines|] == stream[1..][|tail|];
        }
      } else {
        assert lines == [line];
      }
    }
  }

  /**
   * The loop as it runs, from the value at `read` with `lines` handed over so
   * far: the lines it has handed over when it stops.
   */
  function LoopFrom(stream: seq<string>, decide: seq<string> -> bool, seen0: seq<string>,
                    lines: seq<string>, read: nat): seq<string>
    requires read <= |stream|
    decreases |stream| - read
  {
    if read == |stream| || stream[read] == "" then lines
    else
      var next := lines + [Strip(stream[read])];
      if decide(seen0 + next) then LoopFrom(stream, decide, seen0, next, read + 1) else next
  }

  /** One more pass of the loop: end of file ends it, otherwise the next line joins the lines handed over. */
  lemma LoopFromStep(stream: seq<string>, decide: seq<string> -> bool, seen0: seq<string>,
                     lines: seq<string>, read: nat, whole: seq<string>)
    requires read <= |stream| && LoopFrom(stream, decide, seen0, lines, read) == whole
    ensures read == |stream| || stream[read] == "" ==> lines == whole
    ensures read < |stream| && stream[read] != "" ==>
              var next := lines + [Strip(stream[read])];
              (decide(seen0 + next) ==> LoopFrom(stream, decide, seen0, next, read + 1) == whole) &&
              (!decide(seen0 + next) ==> next == whole)
  {
  }

  /** ReadLines on the reads from index `read` on, unfolded once. */
  lemma ReadLinesAt(stream: seq<string>, decide: seq<string> -> bool, seen: seq<string>, read: nat)
    requires read < |stream| && stream[read] != ""
    ensures var line := Strip(stream[read]);
            ReadLines(stream[read..], decide, seen) ==
            [line] + (if decide(seen + [line]) then ReadLines(stream[read + 1..], decide, seen + [line]) else [])
  {
    assert stream[read..][0] == stream[read] && stream[read..][1..] == stream[read + 1..];
  }

  /** A pass that goes on: the loop from the next read, extended back by the line just read. */
  lemma LoopFromContinues(stream: seq<string>, decide: seq<string> -> bool, seen0: seq<string>,
                          lines: seq<string>, read: nat)
    requires read < |stream| && stream[read] != ""
    requires var next := lines + [Strip(stream[read])];
             decide(seen0 + next) &&
             LoopFrom(stream, decide, seen0, next, read + 1) ==
             next + ReadLines(stream[read + 1..], decide, seen0 + next)
    ensures LoopFrom(stream, decide, seen0, lines, read) ==
            lines + ReadLines(stream[read..], decide, seen0 + lines)
  {
    var line := Strip(stream[read]);
    var next := lines + [line];
    ReadLinesAt(stream, decide, seen0 + lines, read);
    assert (seen0 + lines) + [line] == seen0 + next;
    var tail := ReadLines(stream[read + 1..], decide, seen0 + next);
    assert next + tail == lines + ([line] + tail);
  }

  /** A pass the callback answers false to: the line just read is the last one. */
  lemma LoopFromStops(stream: seq<string>, decide: seq<string> -> bool, seen0: seq<string>,
                      lines: seq<string>, read: nat)
    requires read < |stream| && stream[read] != ""
    requires !decide(seen0 + (lines + [Strip(stream[read])]))
    ensures LoopFrom(stream, decide, seen0, lines, read) ==
            lines + ReadLines(stream[read..], decide, seen0 + lines)
  {
    var line := Strip(stream[read]);
    ReadLinesAt(stream, decide, seen0 + lines, read);
    assert (seen0 + lines) + [line] == seen0 + (lines + [line]);
    assert lines + [line] == lines + ([line] + []);
  }

  /** Running the loop from a midway point completes the lines read so far with those of the rest. */
  lemma {:induction false} LoopFromIsReadLines(stream: seq<string>, decide: seq<string> -> bool,
                                               seen0: seq<string>, lines: seq<string>, read: nat)
    requires read <= |stream|
    ensures LoopFrom(stream, decide, seen0, lines, read) ==
            lines + ReadLines(stream[read..], decide, seen0 + lines)
    decreases |stream| - read
  {
    if read == |stream| || stream[read] == "" {
      var rest := stream[read..];
      assert rest == [] || rest[0] == "";
      assert lines + [] == lines;
    } else if decide(seen0 + (lines + [Strip(stream[read])])) {
      LoopFromIsReadLines(stream, decide, seen0, lines + [Strip(stream[read])], read + 1);
      LoopFromContinues(stream, decide, seen0, lines, read);
    } else {
      LoopFromStops(stream, decide, seen0, lines, read);
    }
  }

  /** What the loop has done when it stops, stated about the lines it handed over. */
  lemma LoopFromSteps(circId: CircuitId, stream: seq<string>, decide: seq<string> -> bool,
                      seen0: seq<string>, lines: seq<string>)
    requires lines == LoopFrom(stream, decide, seen0, [], 0)
    ensures Blocks(circId, lines) == Steps(circId, stream, decide, seen0)
    ensures Delivered(Blocks(circId, lines)) == lines
    ensures Enqueued(Blocks(circId, lines)) == MatchedEvents(circId, lines)
  {
    LoopFromIsReadLines(stream, decide, seen0, [], 0);
    assert stream[0..] == stream && seen0 + [] == seen0;
    assert lines == ReadLines(stream, decide, seen0);
    StepsAreBlocks(circId, stream, decide, seen0);
  }

  /** A line that is only a newline is not end of file: it is delivered as "" and matches nothing. */
  lemma BlankLineIsDelivered(circId: CircuitId, stream: seq<string>,
                             decide: seq<string> -> bool, seen: seq<string>)
    requires stream != [] && stream[0] == "\n"
    ensures var lines := ReadLines(stream, decide, seen);
            lines != [] && lines[0] == "" && EventFor(circId, lines[0]) == None
  {
    assert "\n"[1..] == "";
    assert TrimLeft("\n") == "";
    assert ExtractPort("") == None;
  }

  /** Every event in a trace is immediately followed by the delivery of the line that produced it. */
  lemma {:induction false} EnqueueThenDeliver(circId: CircuitId, lines: seq<string>, j: nat)
    requires j < |Blocks(circId, lines)| && Blocks(circId, lines)[j].Enqueue?
    ensures var steps := Blocks(circId, lines);
            j + 1 < |steps| && steps[j + 1].Deliver? &&
            EventFor(circId, steps[j + 1].line) == Some(steps[j].event)
  {
    var head := LineSteps(circId, lines[0]);
    var steps := Blocks(circId, lines);
    assert steps == head + Blocks(circId, lines[1..]);
    if j >= |head| {
      EnqueueThenDeliver(circId, lines[1..], j - |head|);
      assert steps[j] == Blocks(circId, lines[1..])[j - |head|];
      assert steps[j + 1] == Blocks(circId, lines[1..])[j + 1 - |head|];
    }
  }

  /** Every delivery of a matching line is immediately preceded by that line's event. */
  lemma {:induction false} DeliverAfterEnqueue(circId: CircuitId, lines: seq<string>, j: nat)
    requires j < |Blocks(circId, lines)| && Blocks(circId, lines)[j].Deliver?
    requires EventFor(circId, Blocks(circId, lines)[j].line).Some?
    ensures var steps := Blocks(circId, lines);
            j > 0 && steps[j - 1] == Enqueue(EventFor(circId, steps[j].line).value)
  {
    var head := LineSteps(circId, lines[0]);
    var steps := Blocks(circId, lines);
    assert steps == head + Blocks(circId, lines[1..]);
    if j >= |head| {
      var tail := Blocks(circId, lines[1..]);
      assert steps[j] == tail[j - |head|];
      DeliverAfterEnqueue(circId, lines[1..], j - |head|);
      assert steps[j - 1] == tail[j - 1 - |head|];
    }
  }

  /**
   * For the loop's trace: an event is put on the queue right before its line
   * is handed to the callback, and a matching line is never delivered before
   * its event is put.
   */
  lemma EventPrecedesItsLine(circId: CircuitId, stream: seq<string>,
                             decide: seq<string> -> bool, seen: seq<string>, j: nat)
    requires j < |Steps(circId, stream, decide, seen)|
    ensures var steps := Steps(circId, stream, decide, seen);
            (steps[j].Enqueue? ==>
               j + 1 < |steps| && steps[j + 1].Deliver? &&
               EventFor(circId, steps[j + 1].line) == Some(steps[j].event)) &&
            (steps[j].Deliver? && EventFor(circId, steps[j].line).Some? ==>
               j > 0 && steps[j - 1] == Enqueue(EventFor(circId, steps[j].line).value))
  {
    var steps := Steps(circId, stream, decide, seen);
    StepsAreBlocks(circId, stream, decide, seen);
    var lines := ReadLines(stream, decide, seen);
    if steps[j].Enqueue? { EnqueueThenDeliver(circId, lines, j); }
    if steps[j].Deliver? && EventFor(circId, steps[j].line).Some? { DeliverAfterEnqueue(circId, lines, j); }
  }
}
