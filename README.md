# ThriftServer lifecycle, modelled in Dafny

This project models the lifecycle controller of swift's `ThriftServer`. That is the
server front-end that owns a Netty server transport, an acceptor executor, an I/O
executor and a worker executor, and moves through the states
`NOT_STARTED -> RUNNING -> CLOSED` (or `NOT_STARTED -> CLOSED`):

- `start()` is refused on a closed server. It is a no-op on a running one. From
  `NOT_STARTED` it calls `transport.start` once and only then moves to `RUNNING`.
- `close()` is a no-op on a closed server. Otherwise it stops the transport if the
  server is running. It then shuts down the worker executor and the channel factory.
  An `Exception` thrown by a teardown step never escapes: it only sets the calling
  thread's interrupt flag. The server then always ends `CLOSED`.
- `getPort()` returns the configured port when it is non-zero. Otherwise it returns
  the port the transport actually bound, and it fails before binding or when the
  bound address is not an inet address.
- `getWorkerThreads()` returns the worker pool size when the worker is a thread pool,
  and 0 otherwise. `getAcceptorThreads()` and `getIoThreads()` return the configured
  counts.

The collaborators are abstracted to what the lifecycle observes of them. Whether
`transport.start`, `transport.stop`, the worker-executor shutdown or the
channel-factory shutdown throws is a parameter of the operation. The local address
the transport binds is also a parameter. The model counts the calls made to each
collaborator and records the server channel and whether close() raised the interrupt flag.

Files:

- `lifecycle.dfy` (module `Lifecycle`) holds the server as a value (`Server`). It
  defines the operations `New`, `Start`, `Close`, `Port`, `WorkerThreads` and the
  invariant `Inv`. It defines `Run`, which applies a sequence of calls. Its lemmas
  cover whole call histories: the state never moves back, `CLOSED` absorbs every
  call, teardown happens at most once, the bound port never changes once known, and
  a reliable transport is started at most once.
- `thrift_server.dfy` (module `Service`) holds the class `ThriftServer`. It has the
  source's fields, and its `Start` and `Close` methods are proved to act as the
  `Lifecycle` functions on `Model()`. The file also has two client scenarios built
  only on the class's contracts.

The comment at ThriftServer.java:192-193 says that the executors are to be shut down in `close()` even if the server never started. The model follows the code where the code falls short of that:

- In `close()`, the worker-executor shutdown and the channel-factory shutdown sit in
  one `try` block (ThriftServer.java:194-202). A throwing worker shutdown therefore
  skips the channel-factory shutdown. Every teardown step is meant to
  run, but this one does not. `Lifecycle.Close` states the skip. `Lifecycle.Inv` and
  `Lifecycle.TeardownAtMostOnce` state that a missing channel-factory shutdown
  always comes with an interrupt raised by close().

close() reports a contained teardown failure only through the calling thread's
interrupt flag (ThriftServer.java:188, 201).

## Model

| member | source | states |
|---|---|---|
| Lifecycle.New | swift-service/src/main/java/com/facebook/swift/service/ThriftServer.java:76-107 | a constructed server is NOT_STARTED with no server channel and no transport.start call, carries the configured port, thread counts and worker executor, and satisfies the lifecycle invariant (nothing stopped or shut down, no interrupt raised) |
| Lifecycle.Start | swift-service/src/main/java/com/facebook/swift/service/ThriftServer.java:165-173 | on CLOSED: fails with ServerClosed and changes nothing; on RUNNING: succeeds and changes nothing; from NOT_STARTED: exactly one more transport.start call, and success, RUNNING and the bound channel hold exactly when the transport does not fail; a transport failure gives TransportStartFailed and leaves the server as it was (NOT_STARTED) except for one more transport.start call; state never moves back; only state, channel and start count change; the invariant is preserved |
| Lifecycle.Close | swift-service/src/main/java/com/facebook/swift/service/ThriftServer.java:177-205 | always ends CLOSED; on CLOSED nothing changes; transport.stop is called once exactly when the prior state was RUNNING; the worker executor is shut down once even without a start and after a stop failure, and never when there is none; the channel factory is shut down once exactly when no worker shutdown failed before it, and otherwise not at all; the interrupt is raised exactly when some teardown step failed; nothing else changes; the invariant is preserved |
| Lifecycle.RunPreservesInv | swift-service/src/main/java/com/facebook/swift/service/ThriftServer.java:165-205 | after any sequence of start/close calls the lifecycle invariant still holds |
| Lifecycle.RunAdvances | swift-service/src/main/java/com/facebook/swift/service/ThriftServer.java:165-205 | over any call history the state never moves backward, the configuration never changes, no collaborator call count decreases and an interrupt raised by close() stays recorded |
| Lifecycle.RunFromClosed | swift-service/src/main/java/com/facebook/swift/service/ThriftServer.java:165-205 | CLOSED is absorbing: any sequence of calls on a closed server leaves it exactly as it was (start binds nothing, close tears nothing down) |
| Lifecycle.TeardownAtMostOnce | swift-service/src/main/java/com/facebook/swift/service/ThriftServer.java:177-205 | from construction, transport.stop and each executor teardown happen at most once and stop only after a bind; once CLOSED the transport was stopped iff it was bound, the worker was shut down iff there is one, and the channel factory shutdown was called or close() raised the interrupt |
| Lifecycle.PortStable | swift-service/src/main/java/com/facebook/swift/service/ThriftServer.java:110-146 | once getPort() succeeds, it returns the same port after any further calls, close() included (see Left out on transport.stop) |
| Lifecycle.ConfiguredPortWins | swift-service/src/main/java/com/facebook/swift/service/ThriftServer.java:110-114 | a non-zero configured port is what getPort() returns after any call history, independent of state |
| Lifecycle.PortNeedsBinding | swift-service/src/main/java/com/facebook/swift/service/ThriftServer.java:110-146 | with port 0, getPort() fails with PortNotYetDetermined on a never-started server, and a successful result is the inet port of the bound channel of a started server |
| Lifecycle.ChannelStable | swift-service/src/main/java/com/facebook/swift/service/ThriftServer.java:165-205 | once the transport has bound a server channel, no call history replaces or removes it: the transport binds at most once |
| Lifecycle.Port | swift-service/src/main/java/com/facebook/swift/service/ThriftServer.java:110-121 | a non-zero configured port is returned as is; with port 0 and no server channel the result is PortNotYetDetermined; with port 0 and a server channel the result is Lifecycle.BoundPort of its address, so it succeeds exactly for an inet address, with its port, and otherwise gives BoundPortUnknown |
| Lifecycle.BoundPort | swift-service/src/main/java/com/facebook/swift/service/ThriftServer.java:136-146 | succeeds exactly for an inet address, with its port; any other address gives BoundPortUnknown |
| Lifecycle.WorkerThreads | swift-service/src/main/java/com/facebook/swift/service/ThriftServer.java:123-134 | the pool size for a thread-pool worker, 0 (unknown) for any other worker |
| Lifecycle.WorkerExecutorFixed | swift-service/src/main/java/com/facebook/swift/service/ThriftServer.java:63 | the worker executor that getWorkerThreads() asks is the configured one after any call history; its reported pool size is not claimed constant |
| Lifecycle.SingleTransportStart | swift-service/src/main/java/com/facebook/swift/service/ThriftServer.java:165-173 | when transport.start never fails, any call history from construction calls it at most once |
| Service.ThriftServer.constructor | swift-service/src/main/java/com/facebook/swift/service/ThriftServer.java:76-107 | the new object is the value Lifecycle.New of its configuration; the acceptor and I/O counts are the configured ones; it is not running and nothing is bound |
| Service.ThriftServer.GetPort | swift-service/src/main/java/com/facebook/swift/service/ThriftServer.java:110-146 | the branch on configured port, then server channel, then address kind agrees with Lifecycle.Port |
| Service.ThriftServer.GetBoundPort | swift-service/src/main/java/com/facebook/swift/service/ThriftServer.java:136-146 | the port of the bound channel's address as Lifecycle.BoundPort: the inet port, else BoundPortUnknown |
| Service.ThriftServer.GetAcceptorThreads | swift-service/src/main/java/com/facebook/swift/service/ThriftServer.java:148-152 | the server's acceptor count, which the constructor sets to the configured count and no call changes |
| Service.ThriftServer.GetIoThreads | swift-service/src/main/java/com/facebook/swift/service/ThriftServer.java:154-158 | the server's I/O count, which the constructor sets to the configured count and no call changes |
| Service.ThriftServer.GetWorkerThreads | swift-service/src/main/java/com/facebook/swift/service/ThriftServer.java:123-134 | the pool size for a thread-pool worker, 0 for any other worker, as Lifecycle.WorkerThreads |
| Service.ThriftServer.IsRunning | swift-service/src/main/java/com/facebook/swift/service/ThriftServer.java:160-162 | true exactly in state RUNNING, and then the transport's server channel is bound |
| Service.ThriftServer.Start | swift-service/src/main/java/com/facebook/swift/service/ThriftServer.java:165-173 | keeps the object invariant; the result and the new state are those of Lifecycle.Start on the old state |
| Service.ThriftServer.Close | swift-service/src/main/java/com/facebook/swift/service/ThriftServer.java:177-205 | keeps the object invariant; the new state is Lifecycle.Close of the old state |
| Service.EphemeralPortScenario | swift-service/src/main/java/com/facebook/swift/service/ThriftServer.java:110-205 | with port 0: getPort() fails before start and returns the bound port after it; start succeeds; after close the server is not running, the worker executor (when there is one) and the channel factory were each shut down once, and no interrupt was raised |
| Service.IdempotenceScenario | swift-service/src/main/java/com/facebook/swift/service/ThriftServer.java:165-205 | two starts both succeed with one transport.start; two closes make one transport.stop; start after close fails with ServerClosed |

## Left out

- Netty internals: the transport, the NIO server socket channel factory, the channel group and the wheel timer. Each appears only as "was called" and "may fail", plus the bound local address.
- The server definition builder (frame size, idle timeout, connection limit, processor factory, ThriftServer.java:97-106). It only forwards configuration to the transport.
- Thread creation and thread-name formats of the acceptor and I/O executors. These are library code.
- The internals of shutdownExecutor and shutdownChannelFactory. They are not part of this model; only their call and their possible failure are modelled.
- The effect of transport.stop on the transport's server channel is not shown in the source. The model leaves the channel reference as it was.
- Lifecycle.PortStable: past close(), it rests on the choice above that transport.stop keeps the server channel. If stop dropped it, getPort() with port 0 would fail again after close().
- The channel factory's validation of the thread counts (ThriftServer.java:95) is not modelled. Lifecycle.New accepts any count.
- Whether the calling thread was already interrupted, or is cleared elsewhere, is not modelled. The model records only whether close() raised the interrupt.
- `synchronized`: the operations are modelled as atomic sequential steps on one object. Concurrent callers are not modelled.
- Service.ThriftServer.GetWorkerThreads: the pool size of a thread pool varies over time. The model takes it as a fixed value of the worker executor. In particular it does not model the pool growing once requests arrive, or reporting 0 once close() has shut it down.
- Lifecycle.WorkerExecutorFixed: it states only that the worker executor is never replaced. Its pool size is not constant in the program and the model claims nothing about it over time.
- Lifecycle.PortNeedsBinding: a transport.start that throws is modelled as leaving no server channel. What the transport assigns before it throws is not part of this model. If it kept a channel, getPort() on a NOT_STARTED server could succeed, and Lifecycle.Start would not leave the server as it was.
- Lifecycle.Close: the failure inputs stopFails, workerFails and factoryFails stand for an `Exception` only, which close() catches. A `java.lang.Error` thrown by a teardown step escapes close() before the state is set (ThriftServer.java:204), and leaves the state unchanged. That case is not modelled.
- Java `instanceof` checks are explicit variants: `WorkerExecutor` for the worker executor and `SocketAddress` for the bound address.
- JMX, Guice, `@PostConstruct`/`@PreDestroy` and the `TProcessor` wiring. These are framework plumbing.
- Socket binding and the OS's choice of an ephemeral port. The bound address is an input of `Start`.
- Lifecycle.SingleTransportStart: it is stated only for histories where transport.start never fails, because a failed start leaves the server NOT_STARTED and a later start() calls the transport again.
