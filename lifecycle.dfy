/** The lifecycle of a Thrift server front-end, as values.

    A `Server` is everything the server object and its abstracted collaborators
    (the transport, the executors, the interrupt close() raises) hold at
    one moment. `Start` and `Close` are the two state-changing operations; `Run`
    applies a sequence of them, so that properties of whole call histories
    (state never moves backward, teardown happens once, the bound port never
    changes once known) can be stated and proved. */
module Lifecycle {

  datatype Option<T> = None | Some(value: T)

  /** The exceptions the server's operations raise to their callers. */
  datatype Error =
    | ServerClosed          // start() on a closed server: the state precondition fails
    | TransportStartFailed  // transport.start(...) threw; the exception propagates
    | PortNotYetDetermined  // ephemeral port asked for before a server channel exists
    | BoundPortUnknown      // the server channel's local address is not an inet address

  datatype Result<T> = Ok(value: T) | Err(error: Error)

  datatype State = NotStarted | Running | Closed

  /** Position of a state along NotStarted -> Running -> Closed. */
  function Rank(st: State): nat
  {
    match st
    case NotStarted => 0
    case Running => 1
    case Closed => 2
  }

  /** The local address of the transport's server channel. */
  datatype SocketAddress = InetAddress(port: int) | OtherAddress

  /** The worker executor taken from the configuration: a thread pool whose size
      can be asked for, some other executor service, or none at all. */
  datatype WorkerExecutor = ThreadPool(poolSize: nat) | OtherExecutor | NoExecutor

  /** The part of the server configuration that the lifecycle reads. */
  datatype Config = Config(port: int, acceptorThreadCount: int, ioThreadCount: int, workerExecutor: WorkerExecutor)

  datatype Server = Server(
    // read once from the configuration, never changed
    configuredPort: int,
    acceptorThreads: int,
    ioThreads: int,
    worker: WorkerExecutor,
    // the lifecycle state
    state: State,
    // the transport's server channel, present once transport.start succeeded
    serverChannel: Option<SocketAddress>,
    // calls made to the collaborators
    transportStartCalls: nat,
    transportStopCalls: nat,
    workerShutdownCalls: nat,
    factoryShutdownCalls: nat,
    // whether close() has set the calling thread's interrupt flag; the flag itself
    // belongs to the thread, which may carry it already or clear it elsewhere
    interruptRaised: bool)

  /** What holds of every server reachable from construction. */
  ghost predicate Inv(s: Server)
  {
    && (s.serverChannel.Some? ==> s.transportStartCalls >= 1)
    && match s.state
       case NotStarted =>
         && s.serverChannel.None?
         && s.transportStopCalls == 0 && s.workerShutdownCalls == 0 && s.factoryShutdownCalls == 0
         && !s.interruptRaised
       case Running =>
         && s.serverChannel.Some?
         && s.transportStopCalls == 0 && s.workerShutdownCalls == 0 && s.factoryShutdownCalls == 0
         && !s.interruptRaised
       case Closed =>
         // the transport was stopped exactly when it had been bound
         && s.transportStopCalls == (if s.serverChannel.Some? then 1 else 0)
         // the worker executor was shut down exactly once, when there is one
         && s.workerShutdownCalls == (if s.worker.NoExecutor? then 0 else 1)
         // the channel factory was shut down once, unless a flagged worker-shutdown failure skipped it
         && s.factoryShutdownCalls <= 1
         && (s.factoryShutdownCalls == 0 ==> s.interruptRaised && s.workerShutdownCalls == 1)
  }

  /** The server as the constructor leaves it. */
  function New(config: Config): (s: Server)
    ensures s.state == NotStarted && s.serverChannel.None? && s.transportStartCalls == 0
    ensures s.configuredPort == config.port && s.worker == config.workerExecutor
    ensures s.acceptorThreads == config.acceptorThreadCount && s.ioThreads == config.ioThreadCount
    ensures Inv(s)
  {
    Server(config.port, config.acceptorThreadCount, config.ioThreadCount, config.workerExecutor,
           NotStarted, None, 0, 0, 0, 0, false)
  }

  /** start(): refused on a closed server, a no-op on a running one, and from
      NotStarted one call to transport.start followed by the move to Running.
      `transportFails` says whether that call throws; `bound` is the local
      address the transport binds when it does not. */
  function Start(s: Server, transportFails: bool, bound: SocketAddress): (r: (Result<()>, Server))
    ensures s.state == Closed ==> r == (Err(ServerClosed), s)
    ensures s.state == Running ==> r == (Ok(()), s)
    ensures s.state == NotStarted ==>
              && r.1.transportStartCalls == s.transportStartCalls + 1
              && (r.0.Ok? <==> !transportFails)
              && (r.1.state == Running <==> !transportFails)
              && (!transportFails ==> r.1.serverChannel == Some(bound))
    ensures s.state == NotStarted && transportFails ==>
              r == (Err(TransportStartFailed), s.(transportStartCalls := s.transportStartCalls + 1))
    ensures Rank(s.state) <= Rank(r.1.state)
    ensures r.1 == s.(state := r.1.state, serverChannel := r.1.serverChannel,
                      transportStartCalls := r.1.transportStartCalls)
    ensures Inv(s) ==> Inv(r.1)
  {
    if s.state == Closed then
      (Err(ServerClosed), s)
    else if s.state == Running then
      (Ok(()), s)
    else if transportFails then
      // the assignment to the state comes after the call that threw
      (Err(TransportStartFailed), s.(transportStartCalls := s.transportStartCalls + 1))
    else
      (Ok(()), s.(state := Running, serverChannel := Some(bound),
                  transportStartCalls := s.transportStartCalls + 1))
  }

  /** Whether some step of close()'s teardown threw. */
  function TeardownFailed(s: Server, stopFails: bool, workerFails: bool, factoryFails: bool): bool
  {
    || (s.state == Running && stopFails)
    || (!s.worker.NoExecutor? && workerFails)
    || ((s.worker.NoExecutor? || !workerFails) && factoryFails)
  }

  /** close(): a no-op on a closed server; otherwise stop the transport if it
      runs, then shut down the worker executor (when there is one) and the
      channel factory in one guarded block, and end Closed. A step that throws
      an Exception only sets the interrupt flag; a throwing worker shutdown skips the channel
      factory shutdown that follows it in the same block. */
  function Close(s: Server, stopFails: bool, workerFails: bool, factoryFails: bool): (r: Server)
    ensures r.state == Closed
    ensures s.state == Closed ==> r == s
    ensures r.transportStopCalls == s.transportStopCalls + (if s.state == Running then 1 else 0)
    ensures s.state != Closed && !s.worker.NoExecutor? ==> r.workerShutdownCalls == s.workerShutdownCalls + 1
    ensures s.worker.NoExecutor? ==> r.workerShutdownCalls == s.workerShutdownCalls
    ensures r.factoryShutdownCalls ==
              s.factoryShutdownCalls + (if s.state != Closed && (s.worker.NoExecutor? || !workerFails) then 1 else 0)
    ensures s.state != Closed ==>
              (r.interruptRaised <==> s.interruptRaised || TeardownFailed(s, stopFails, workerFails, factoryFails))
    ensures r == s.(state := Closed, transportStopCalls := r.transportStopCalls,
                    workerShutdownCalls := r.workerShutdownCalls,
                    factoryShutdownCalls := r.factoryShutdownCalls, interruptRaised := r.interruptRaised)
    ensures Inv(s) ==> Inv(r)
  {
    if s.state == Closed then
      s
    else
      var stopped := s.state == Running;
      var workerShut := !s.worker.NoExecutor?;
      var factoryShut := !(workerShut && workerFails);
      s.(state := Closed,
         transportStopCalls := s.transportStopCalls + (if stopped then 1 else 0),
         workerShutdownCalls := s.workerShutdownCalls + (if workerShut then 1 else 0),
         factoryShutdownCalls := s.factoryShutdownCalls + (if factoryShut then 1 else 0),
         interruptRaised := s.interruptRaised || TeardownFailed(s, stopFails, workerFails, factoryFails))
  }

  /** The local port of a bound server channel. */
  function BoundPort(address: SocketAddress): (r: Result<int>)
    ensures r.Ok? <==> address.InetAddress?
    ensures r.Ok? ==> r.value == address.port
    ensures r.Err? ==> r.error == BoundPortUnknown
  {
    match address
    case InetAddress(port) => Ok(port)
    case OtherAddress => Err(BoundPortUnknown)
  }

  /** getPort(): the configured port when it is not 0, otherwise the port the
      transport bound, which does not exist before transport.start succeeded. */
  function Port(s: Server): (r: Result<int>)
    ensures s.configuredPort != 0 ==> r == Ok(s.configuredPort)
    ensures s.configuredPort == 0 && s.serverChannel.Some? ==> r == BoundPort(s.serverChannel.value)
    ensures s.configuredPort == 0 && s.serverChannel.None? ==> r == Err(PortNotYetDetermined)
    ensures s.configuredPort == 0 ==> (r.Ok? <==> s.serverChannel.Some? && s.serverChannel.value.InetAddress?)
    ensures s.configuredPort == 0 && r.Ok? ==> s.serverChannel == Some(InetAddress(r.value))
  {
    if s.configuredPort != 0 then Ok(s.configuredPort)
    else match s.serverChannel
      case None => Err(PortNotYetDetermined)
      case Some(address) => BoundPort(address)
  }

  /** getWorkerThreads(): the pool size of a thread-pool worker, 0 for any other. */
  function WorkerThreads(s: Server): (n: nat)
    ensures s.worker.ThreadPool? ==> n == s.worker.poolSize
    ensures !s.worker.ThreadPool? ==> n == 0
  {
    match s.worker
    case ThreadPool(size) => size
    case OtherExecutor => 0
    case NoExecutor => 0
  }

  /** One call on the server, with the behaviour of its collaborators. */
  datatype Call =
    | StartCall(transportFails: bool, bound: SocketAddress)
    | CloseCall(stopFails: bool, workerFails: bool, factoryFails: bool)

  function Apply(s: Server, c: Call): Server
  {
    match c
    case StartCall(transportFails, bound) => Start(s, transportFails, bound).1
    case CloseCall(stopFails, workerFails, factoryFails) => Close(s, stopFails, workerFails, factoryFails)
  }

  /** The server after the calls `cs`, in order. */
  function Run(s: Server, cs: seq<Call>): Server
    decreases |cs|
  {
    if cs == [] then s else Run(Apply(s, cs[0]), cs[1..])
  }

  /** How a server may change over any history: the state never moves back,
      the configuration never changes, collaborator calls are never undone and
      a raised interrupt stays recorded. */
  ghost predicate Advances(s: Server, t: Server)
  {
    && Rank(s.state) <= Rank(t.state)
    && t.configuredPort == s.configuredPort && t.acceptorThreads == s.acceptorThreads
    && t.ioThreads == s.ioThreads && t.worker == s.worker
    && s.transportStartCalls <= t.transportStartCalls && s.transportStopCalls <= t.transportStopCalls
    && s.workerShutdownCalls <= t.workerShutdownCalls && s.factoryShutdownCalls <= t.factoryShutdownCalls
    && (s.interruptRaised ==> t.interruptRaised)
  }

  lemma {:induction false} RunPreservesInv(s: Server, cs: seq<Call>)
    requires Inv(s)
    ensures Inv(Run(s, cs))
    decreases |cs|
  {
    if cs != [] {
      RunPreservesInv(Apply(s, cs[0]), cs[1..]);
    }
  }

  lemma {:induction false} RunAdvances(s: Server, cs: seq<Call>)
    ensures Advances(s, Run(s, cs))
    decreases |cs|
  {
    if cs != [] {
      RunAdvances(Apply(s, cs[0]), cs[1..]);
    }
  }

  /** Closed is absorbing: no call changes anything about a closed server,
      in particular start() binds nothing and close() tears nothing down. */
  lemma {:induction false} RunFromClosed(s: Server, cs: seq<Call>)
    requires s.state == Closed
    ensures Run(s, cs) == s
    decreases |cs|
  {
    if cs != [] {
      RunFromClosed(Apply(s, cs[0]), cs[1..]);
    }
  }

  /** Over any history from construction, the transport is stopped at most once
      and only if it was bound, and each executor teardown happens at most once;
      once Closed, every teardown call was made, unless a flagged failure of the
      worker shutdown skipped the channel factory shutdown. */
  lemma TeardownAtMostOnce(config: Config, cs: seq<Call>)
    ensures var t := Run(New(config), cs);
      && t.transportStopCalls <= 1 && t.workerShutdownCalls <= 1 && t.factoryShutdownCalls <= 1
      && (t.transportStopCalls == 1 ==> t.serverChannel.Some?)
      && (t.state == Closed ==>
            && t.transportStopCalls == (if t.serverChannel.Some? then 1 else 0)
            && t.workerShutdownCalls == (if config.workerExecutor.NoExecutor? then 0 else 1)
            && (t.factoryShutdownCalls == 1 || t.interruptRaised))
  {
    RunPreservesInv(New(config), cs);
    RunAdvances(New(config), cs);
  }

  /** The transport binds at most once: once a server channel exists, every
      further call leaves that same channel in place. */
  lemma {:induction false} ChannelStable(s: Server, cs: seq<Call>)
    requires Inv(s)
    requires s.serverChannel.Some?
    ensures Run(s, cs).serverChannel == s.serverChannel
    decreases |cs|
  {
    if cs != [] {
      ChannelStable(Apply(s, cs[0]), cs[1..]);
    }
  }

  /** The worker executor that getWorkerThreads() asks is the configured one
      for the server's whole life: no call history replaces it. */
  lemma WorkerExecutorFixed(s: Server, cs: seq<Call>)
    ensures Run(s, cs).worker == s.worker
  {
    RunAdvances(s, cs);
  }

  /** The bound address, once known, never changes: a port that getPort()
      returned once is the port it returns after any further calls. */
  lemma PortStable(s: Server, cs: seq<Call>)
    requires Inv(s)
    requires Port(s).Ok?
    ensures Port(Run(s, cs)) == Port(s)
    decreases |cs|
  {
    RunAdvances(s, cs);
    if s.configuredPort == 0 {
      ChannelStable(s, cs);
    }
  }

  /** A non-zero configured port is what getPort() returns, whatever the state. */
  lemma ConfiguredPortWins(config: Config, cs: seq<Call>)
    requires config.port != 0
    ensures Port(Run(New(config), cs)) == Ok(config.port)
  {
    RunAdvances(New(config), cs);
  }

  /** With an ephemeral port, getPort() fails until transport.start has
      succeeded: in particular on a server that was never started, whatever
      calls it went through. */
  lemma PortNeedsBinding(config: Config, cs: seq<Call>)
    requires config.port == 0
    ensures var t := Run(New(config), cs);
      && (t.state == NotStarted ==> Port(t) == Err(PortNotYetDetermined))
      && (Port(t).Ok? ==> t.serverChannel == Some(InetAddress(Port(t).value)) && t.state != NotStarted)
  {
    RunPreservesInv(New(config), cs);
    RunAdvances(New(config), cs);
  }

  /** A call whose transport does not fail to start. */
  predicate Reliable(c: Call)
  {
    !(c.StartCall? && c.transportFails)
  }

  lemma {:induction false} SingleStartFrom(s: Server, cs: seq<Call>)
    requires s.transportStartCalls <= (if s.state == NotStarted then 0 else 1)
    requires forall i :: 0 <= i < |cs| ==> Reliable(cs[i])
    ensures Run(s, cs).transportStartCalls <= 1
    decreases |cs|
  {
    if cs != [] {
      SingleStartFrom(Apply(s, cs[0]), cs[1..]);
    }
  }

  /** When the transport never fails to start, any number of start() calls
      from construction make at most one call to transport.start. */
  lemma SingleTransportStart(config: Config, cs: seq<Call>)
    requires forall i :: 0 <= i < |cs| ==> Reliable(cs[i])
    ensures Run(New(config), cs).transportStartCalls <= 1
  {
    SingleStartFrom(New(config), cs);
  }
}
