/**
 * `run_python_over_tor(queue, circ_id, socks_port)`: a closure that runs a
 * Python function with all new sockets going through Tor. It points the
 * torsocks module at the local SOCKS port, the correlation queue and the
 * circuit, installs torsocks' socket class in the `socket.socket` slot, calls
 * the function, and puts the original class back.
 *
 * The called function is represented by the state it runs in and by how it
 * ends: it returns, it raises `SOCKSv5Error` (which the closure logs and
 * swallows), or it raises anything else (which propagates out of the closure).
 */
module TorClosure {
  import opened Wrappers
  import opened Runtime

  datatype FuncOutcome = Returned | SocksError | OtherError

  /** The settings `closure` makes before the call: proxy, queue, circuit and the torsocks socket class. */
  function Installed(pre: GlobalState, queue: Queue, circId: CircuitId, socksPort: int): (r: GlobalState)
    ensures r.socket == TorSocket && r.proxy == Some(Address(Localhost, socksPort))
    ensures r.torQueue == queue && r.torCircId == Some(circId) && r.env == pre.env
  {
    pre.(socket := TorSocket, proxy := Some(Address(Localhost, socksPort)),
         torQueue := queue, torCircId := Some(circId))
  }

  /**
   * The state after the closure, as written: the torsocks settings stay, and
   * the saved socket class is put back only when the function returned.
   */
  function AfterCall(pre: GlobalState, queue: Queue, circId: CircuitId, socksPort: int,
                     outcome: FuncOutcome): (r: GlobalState)
    ensures r.proxy == Some(Address(Localhost, socksPort)) && r.torQueue == queue
    ensures r.torCircId == Some(circId) && r.env == pre.env
    ensures outcome == Returned ==> r.socket == pre.socket
    ensures outcome != Returned ==> r.socket == TorSocket
  {
    var during := Installed(pre, queue, circId, socksPort);
    if outcome == Returned then during.(socket := pre.socket) else during
  }

  /**
   * The state after the closure when the socket class is put back whatever
   * the function did (a `finally` clause).
   */
  function AfterCallRestoring(pre: GlobalState, queue: Queue, circId: CircuitId, socksPort: int,
                              outcome: FuncOutcome): (r: GlobalState)
    ensures r.socket == pre.socket && r.env == pre.env
    ensures r.proxy == Some(Address(Localhost, socksPort)) && r.torQueue == queue
    ensures r.torCircId == Some(circId)
  {
    Installed(pre, queue, circId, socksPort).(socket := pre.socket)
  }

  /**
   * As written, the original socket class survives the closure exactly when
   * the function returned normally or torsocks' class was installed already.
   */
  lemma AfterCallKeepsSocketIff(pre: GlobalState, queue: Queue, circId: CircuitId, socksPort: int,
                                outcome: FuncOutcome)
    ensures AfterCall(pre, queue, circId, socksPort, outcome).socket == pre.socket <==>
            outcome == Returned || pre.socket == TorSocket
  {
  }

  /**
   * A `SOCKSv5Error` leaves torsocks' class installed, and a later call that
   * returns normally saves and "restores" that class, so the original class
   * does not come back.
   */
  lemma SocksErrorLeaksTorSocket(queue: Queue, circId: CircuitId, socksPort: int)
    ensures var pre := GlobalState(NativeSocket, None, null, None, map[]);
            var afterError := AfterCall(pre, queue, circId, socksPort, SocksError);
            afterError.socket == TorSocket &&
            AfterCall(afterError, queue, circId, socksPort, Returned).socket == TorSocket
  {
    var pre := GlobalState(NativeSocket, None, null, None, map[]);
    var afterError := AfterCall(pre, queue, circId, socksPort, SocksError);
    assert afterError.socket == TorSocket;
  }

  /** With a `finally`, the closure leaves the same state whatever the function did, and as written on a normal return. */
  lemma RestoringIsOutcomeIndependent(pre: GlobalState, queue: Queue, circId: CircuitId, socksPort: int,
                                      outcome: FuncOutcome)
    ensures AfterCallRestoring(pre, queue, circId, socksPort, outcome) ==
            AfterCall(pre, queue, circId, socksPort, Returned)
  {
  }

  /** Calling the closure twice with normal returns leaves the state of one call. */
  lemma AfterCallIdempotent(pre: GlobalState, queue: Queue, circId: CircuitId, socksPort: int)
    ensures var once := AfterCall(pre, queue, circId, socksPort, Returned);
            AfterCall(once, queue, circId, socksPort, Returned) == once
  {
  }

  /**
   * The Python function the closure runs. How it ends is fixed by the
   * function; `ranIn` records the process-wide state at each of its calls,
   * which is where its sockets come from.
   */
  class PyFunction {
    const outcome: FuncOutcome
    ghost var ranIn: seq<GlobalState>

    constructor (outcome: FuncOutcome)
      ensures this.outcome == outcome && ranIn == []
    {
      this.outcome := outcome;
      ranIn := [];
    }

    /** `func(*args)`: runs in the current state and ends as the function does. */
    method Invoke(globals: Globals) returns (result: FuncOutcome)
      modifies this
      ensures ranIn == old(ranIn) + [globals.State()]
      ensures result == outcome
    {
      ranIn := ranIn + [globals.State()];
      result := outcome;
    }
  }

  /** The closure `run_python_over_tor` returns, with its three captured values. */
  class OverTor {
    const queue: Queue
    const circId: CircuitId
    const socksPort: int

    constructor (queue: Queue, circId: CircuitId, socksPort: int)
      ensures this.queue == queue && this.circId == circId && this.socksPort == socksPort
    {
      this.queue := queue;
      this.circId := circId;
      this.socksPort := socksPort;
    }

    /**
     * `closure(func, *args)` as written: the function runs once, with the
     * torsocks settings and socket class installed; `raised` tells whether an
     * exception other than `SOCKSv5Error` propagates to the caller.
     */
    method Call(globals: Globals, func: PyFunction) returns (raised: bool)
      modifies globals, func
      ensures func.ranIn == old(func.ranIn) + [Installed(old(globals.State()), queue, circId, socksPort)]
      ensures globals.State() == AfterCall(old(globals.State()), queue, circId, socksPort, func.outcome)
      ensures raised <==> func.outcome == OtherError
    {
      globals.proxy := Some(Address(Localhost, socksPort));
      globals.torQueue := queue;
      globals.torCircId := Some(circId);
      var origSocket := globals.socket;
      globals.socket := TorSocket;
      var outcome := func.Invoke(globals);
      if outcome == SocksError {
        return false;
      } else if outcome == OtherError {
        return true;
      }
      globals.socket := origSocket;
      raised := false;
    }

    /** The closure with the socket class put back in a `finally` clause. */
    method CallRestoring(globals: Globals, func: PyFunction) returns (raised: bool)
      modifies globals, func
      ensures func.ranIn == old(func.ranIn) + [Installed(old(globals.State()), queue, circId, socksPort)]
      ensures globals.State() == AfterCallRestoring(old(globals.State()), queue, circId, socksPort, func.outcome)
      ensures raised <==> func.outcome == OtherError
    {
      globals.proxy := Some(Address(Localhost, socksPort));
      globals.torQueue := queue;
      globals.torCircId := Some(circId);
      var origSocket := globals.socket;
      globals.socket := TorSocket;
      var outcome := func.Invoke(globals);
      raised := outcome == OtherError;
      globals.socket := origSocket;
    }
  }
}
