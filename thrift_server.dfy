/** The server object: the fields the source keeps, with the transport and the
    executors abstracted to what the lifecycle observes of them. Each operation
    is proved to act as the corresponding `Lifecycle` function on `Model()`. */
module Service {

  import opened Lifecycle

  class ThriftServer {
    const configuredPort: int
    const acceptorThreads: int
    const ioThreads: int
    const workerExecutor: WorkerExecutor

    var state: State

    // the transport, abstracted: its server channel and the calls made to it
    var serverChannel: Option<SocketAddress>
    var transportStartCalls: nat
    var transportStopCalls: nat

    // teardown calls on the worker executor and on the channel factory (which
    // releases the acceptor and I/O executors and closes every open channel)
    var workerShutdownCalls: nat
    var factoryShutdownCalls: nat

    // whether close() has set the calling thread's interrupt flag
    var interruptRaised: bool

    /** The server as a value. */
    function Model(): Server
      reads this
    {
      Server(configuredPort, acceptorThreads, ioThreads, workerExecutor, state, serverChannel,
             transportStartCalls, transportStopCalls, workerShutdownCalls, factoryShutdownCalls, interruptRaised)
    }

    ghost predicate Valid()
      reads this
    {
      Inv(Model())
    }

    /** Reads the configuration; creates the executors and the transport, but
        binds nothing. */
    constructor (config: Config)
      ensures Valid()
      ensures Model() == New(config)
      ensures GetAcceptorThreads() == config.acceptorThreadCount && GetIoThreads() == config.ioThreadCount
      ensures !IsRunning() && serverChannel.None?
    {
      configuredPort := config.port;
      workerExecutor := config.workerExecutor;
      acceptorThreads := config.acceptorThreadCount;
      ioThreads := config.ioThreadCount;
      state := NotStarted;
      serverChannel := None;
      transportStartCalls, transportStopCalls := 0, 0;
      workerShutdownCalls, factoryShutdownCalls := 0, 0;
      interruptRaised := false;
    }

    function GetPort(): (r: Result<int>)
      reads this
      ensures r == Port(Model())
    {
      if configuredPort != 0 then
        Ok(configuredPort)
      else if serverChannel.None? then
        Err(PortNotYetDetermined)
      else
        GetBoundPort()
    }

    function GetBoundPort(): (r: Result<int>)
      reads this
      requires serverChannel.Some?
      ensures r == BoundPort(serverChannel.value)
    {
      if serverChannel.value.InetAddress? then Ok(serverChannel.value.port) else Err(BoundPortUnknown)
    }

    function GetWorkerThreads(): (n: nat)
      ensures n == WorkerThreads(Model())
    {
      if workerExecutor.ThreadPool? then workerExecutor.poolSize else 0
    }

    function GetAcceptorThreads(): (n: int)
      reads this
      ensures n == Model().acceptorThreads
    {
      acceptorThreads
    }

    function GetIoThreads(): (n: int)
      reads this
      ensures n == Model().ioThreads
    {
      ioThreads
    }

    /** Running exactly in state Running, and then the transport is bound. */
    function IsRunning(): (r: bool)
      reads this
      ensures r <==> Model().state == Running
      ensures Valid() && r ==> Model().serverChannel.Some?
    {
      state == Running
    }

    method Start(transportFails: bool, bound: SocketAddress) returns (r: Result<()>)
      requires Valid()
      modifies this
      ensures Valid()
      ensures (r, Model()) == Lifecycle.Start(old(Model()), transportFails, bound)
    {
      if state == Closed {
        return Err(ServerClosed);
      }
      if state == NotStarted {
        transportStartCalls := transportStartCalls + 1;
        if transportFails {
          return Err(TransportStartFailed);
        }
        serverChannel := Some(bound);
        state := Running;
      }
      return Ok(());
    }

    method Close(stopFails: bool, workerFails: bool, factoryFails: bool)
      requires Valid()
      modifies this
      ensures Valid()
      ensures Model() == Lifecycle.Close(old(Model()), stopFails, workerFails, factoryFails)
    {
      if state == Closed {
        return;
      }
      if state == Running {
        transportStopCalls := transportStopCalls + 1;
        if stopFails {
          interruptRaised := true;
        }
      }
      // the worker shutdown and the channel factory shutdown share one guarded block
      var failed := false;
      if !workerExecutor.NoExecutor? {
        workerShutdownCalls := workerShutdownCalls + 1;
        failed := workerFails;
      }
      if !failed {
        factoryShutdownCalls := factoryShutdownCalls + 1;
        failed := factoryFails;
      }
      if failed {
        interruptRaised := true;
      }
      state := Closed;
    }
  }

  /** With an ephemeral port: getPort() fails before start(), returns the port
      the transport bound after it, and close() leaves the server not running,
      with the worker executor (when there is one) and the channel factory
      shut down and no interrupt raised. */
  method EphemeralPortScenario(worker: WorkerExecutor, boundPort: int)
    returns (before: Result<int>, started: Result<()>, after: Result<int>, runningAfterClose: bool, released: bool)
    ensures before == Err(PortNotYetDetermined)
    ensures started == Ok(())
    ensures after == Ok(boundPort)
    ensures !runningAfterClose && released
  {
    var server := new ThriftServer(Config(0, 2, 2, worker));
    before := server.GetPort();
    started := server.Start(false, InetAddress(boundPort));
    after := server.GetPort();
    server.Close(false, false, false);
    runningAfterClose := server.IsRunning();
    released := && server.workerShutdownCalls == (if worker.NoExecutor? then 0 else 1)
                && server.factoryShutdownCalls == 1 && !server.interruptRaised;
  }

  /** start() twice binds once and succeeds both times; close() twice is
      harmless; start() after close() fails and binds nothing. */
  method IdempotenceScenario(config: Config, bound: SocketAddress)
    returns (first: Result<()>, second: Result<()>, afterClose: Result<()>, starts: nat, stops: nat)
    ensures first == Ok(()) && second == Ok(())
    ensures afterClose == Err(ServerClosed)
    ensures starts == 1 && stops == 1
  {
    var server := new ThriftServer(config);
    first := server.Start(false, bound);
    second := server.Start(false, bound);
    server.Close(false, false, false);
    server.Close(true, true, true);
    afterClose := server.Start(false, bound);
    starts, stops := server.transportStartCalls, server.transportStopCalls;
  }
}
