/**
 * The process-wide state that `command.py` reads and reassigns: the
 * `socket.socket` slot, the module-level settings of the `torsocks` module
 * (default proxy, `torsocks.queue`, `torsocks.circ_id`) and `os.environ`;
 * and the correlation queue shared with the stream correlator.
 */
module Runtime {
  import opened Wrappers

  /** A circuit identifier; only compared and passed along. */
  type CircuitId = string

  /** The loopback address every correlation event carries. */
  const Localhost: string := "127.0.0.1"

  /** A value of the `socket.socket` slot: the interpreter's own class, torsocks' class, or any other one. */
  datatype SocketImpl = NativeSocket | TorSocket | OtherSocket(id: nat)

  /** A (host, port) pair. */
  datatype Address = Address(host: string, port: int)

  /** `[circ_id, (address, port)]` as put on the correlation queue. */
  datatype Event = Event(circId: CircuitId, peer: Address)

  /** An effect of the read loop: an event put on the queue, or a line handed to the output callback. */
  datatype Step = Enqueue(event: Event) | Deliver(line: string)

  /**
   * The order in which the queue and the output callback see their effects:
   * ghost bookkeeping that both append to at the moment the effect happens.
   */
  class EffectLog {
    ghost var steps: seq<Step>

    constructor ()
      ensures steps == []
    {
      steps := [];
    }
  }

  /** The correlation queue. It is shared; only appends are modelled. */
  class Queue {
    var items: seq<Event>
    /** The value of the `socket.socket` slot at each put, in order. */
    ghost var putVia: seq<SocketImpl>

    constructor ()
      ensures items == [] && putVia == []
    {
      items := [];
      putVia := [];
    }

    /** `queue.put(event)`, performed while `globals.socket` is installed. */
    method Put(event: Event, globals: Globals, ghost log: EffectLog)
      modifies this, log
      ensures items == old(items) + [event]
      ensures putVia == old(putVia) + [globals.socket]
      ensures log.steps == old(log.steps) + [Enqueue(event)]
    {
      items := items + [event];
      putVia := putVia + [globals.socket];
      log.steps := log.steps + [Enqueue(event)];
    }
  }

  /** A snapshot of the process-wide state. */
  datatype GlobalState = GlobalState(
    socket: SocketImpl,
    proxy: Option<Address>,
    torQueue: Queue?,
    torCircId: Option<CircuitId>,
    env: map<string, string>)

  /** The process-wide state, updated in place. */
  class Globals {
    /** `socket.socket` */
    var socket: SocketImpl
    /** the default proxy set by `torsocks.set_default_proxy` */
    var proxy: Option<Address>
    /** `torsocks.queue` */
    var torQueue: Queue?
    /** `torsocks.circ_id` */
    var torCircId: Option<CircuitId>
    /** `os.environ` */
    var env: map<string, string>

    constructor (socket: SocketImpl, env: map<string, string>)
      ensures State() == GlobalState(socket, None, null, None, env)
    {
      this.socket := socket;
      proxy := None;
      torQueue := null;
      torCircId := None;
      this.env := env;
    }

    function State(): GlobalState
      reads this
    {
      GlobalState(socket, proxy, torQueue, torCircId, env)
    }
  }
}
