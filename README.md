# NettyTCPServer lifecycle, in Dafny

This project models the core of `NettyTCPServer`, the abstract TCP server
bootstrap of j360-netty-core. The server carries a lifecycle state
(`Created`, `Initialized`, `Starting`, `Started`, `Shutdown`) and changes it
by compare-and-set:

- `init` moves Created to Initialized.
- `start` moves Initialized to Starting. It then picks a transport, picks or
  builds the boss and worker event-loop groups, stores them, and sets up an
  asynchronous bind.
- The bind-completion callback sets Started on success and then notifies an
  optional listener.
- `isRunning` reads the state. `stop` does nothing.
- Each accepted connection gets a pipeline holding a single stage named
  `"handler"`.

Files:

- `lifecycle.dfy` (module `Lifecycle`): the lifecycle as data. It defines
  states, groups, errors, listener events and a `Machine` holding what the
  server reads and writes. Each operation is a step function on it. It also
  holds the transport switch `UseNettyEpoll` and the group-building
  constants (boss: 1 thread, I/O ratio 100; worker: 0 threads, I/O ratio 70).
- `lifecycle_traces.dfy` (module `LifecycleTraces`): `Run` applies any
  sequence of calls and bind completions. Lemmas proved by induction on that
  sequence state what holds over a server's whole life.
- `tcp_server.dfy` (module `TcpServer`): the server object as a class. Its
  fields are updated in place the way the source updates them. Each
  state-changing method ties its new state to the step function of
  `Lifecycle` and states the promised effect directly. It also holds the
  per-connection pipeline as a class and start scenarios: two servers on
  port 8081, and a server whose group construction throws.

Each listener call is recorded in a ghost trace, together with the lifecycle
state at the moment of the call. So "the state is Started before `onSuccess`
runs" is a statement about the trace. A listener is modelled by whether it is
present (`listener != null`).

Facts about the code that the model keeps:

- `stop` is an empty stub, and no line sets `Shutdown`.
- The native-transport probe sits behind `if (false)`, so every start of this
  class uses NIO.
- The pipeline gets only the handler stage, because the decoder and encoder
  lines are commented out.
- The event-loop groups are built outside the `try` of `createServer`. An
  exception while building them escapes `start` unwrapped. The state stays
  Starting, no group is stored, and the listener is not told. Only failures
  inside that `try` reach `onFailure` and are wrapped in a
  `NettyServiceException`.

## Model

| member | source | states |
|---|---|---|
| `TcpServer.Server.constructor` | j360-netty-core/src/main/java/me/j360/netty/core/tcp/NettyTCPServer.java:43-46 | a new server is Created, has no host, no pending bind and no listener calls, and keeps any groups installed before start |
| `TcpServer.Server.WithHost` | j360-netty-core/src/main/java/me/j360/netty/core/tcp/NettyTCPServer.java:48-51 | as the constructor, and the host is stored |
| `TcpServer.Server.Init` | j360-netty-core/src/main/java/me/j360/netty/core/tcp/NettyTCPServer.java:53-58 | returns normally exactly when the state was Created, and then the state is Initialized; otherwise it throws "already started" and changes nothing |
| `TcpServer.Server.Start` | j360-netty-core/src/main/java/me/j360/netty/core/tcp/NettyTCPServer.java:60-71 | from a state other than Initialized it throws with that state and changes nothing, so no group is built; from Initialized the state becomes Starting and the rest follows the start step (transport, groups, bind set-up); if building the groups throws, that exception escapes unwrapped, no group is stored and the listener is not told |
| `TcpServer.Server.Stop` | j360-netty-core/src/main/java/me/j360/netty/core/tcp/NettyTCPServer.java:72-75 | returns normally and leaves the whole server state as it was |
| `TcpServer.Server.IsRunning` | j360-netty-core/src/main/java/me/j360/netty/core/tcp/NettyTCPServer.java:79-82 | true exactly when the state is Started; reads only; a running server has no pending bind |
| `TcpServer.Server.SelectGroups` | j360-netty-core/src/main/java/me/j360/netty/core/tcp/NettyTCPServer.java:104-117 | a preset boss or worker group is reused as it is; a missing boss group is replaced by a new group on the chosen transport with 1 thread and I/O ratio 100, a missing worker group by one with 0 threads and I/O ratio 70 |
| `TcpServer.Server.CreateTransportServer` | j360-netty-core/src/main/java/me/j360/netty/core/tcp/NettyTCPServer.java:85-120 | an exception while building the groups escapes as it is, changing nothing; otherwise the chosen groups are stored in the fields, and the bind set-up either fails synchronously (listener told, exception with the port and cause) or registers the callback |
| `TcpServer.Server.CreateServer` | j360-netty-core/src/main/java/me/j360/netty/core/tcp/NettyTCPServer.java:122-156 | stores the given groups; a synchronous failure (an injected exception, or a port outside 0..65535) calls onFailure if there is a listener and throws, leaving the state Starting; otherwise the callback capturing the listener is registered |
| `TcpServer.Server.BindComplete` | j360-netty-core/src/main/java/me/j360/netty/core/tcp/NettyTCPServer.java:140-149 | on success the state becomes Started and then onSuccess is called, observing Started; on failure the state stays Starting and onFailure gets the cause; no listener call without a listener; onFailure never after success |
| `TcpServer.Server.InitPipeline` | j360-netty-core/src/main/java/me/j360/netty/core/tcp/NettyTCPServer.java:185-189 | appends exactly one stage, named "handler", holding the specialization's handler, and nothing else |
| `TcpServer.Server.InitChannel` | j360-netty-core/src/main/java/me/j360/netty/core/tcp/NettyTCPServer.java:131-136 | each connection gets a new pipeline of its own whose stages are exactly the handler stage |
| `TcpServer.Pipeline.AddLast` | j360-netty-core/src/main/java/me/j360/netty/core/tcp/NettyTCPServer.java:188 | appends the named stage at the end of the pipeline |
| `Lifecycle.UseNettyEpoll` | j360-netty-core/src/main/java/me/j360/netty/core/tcp/NettyTCPServer.java:212-222 | false whatever the native probe would find, so start always takes the NIO path |
| `LifecycleTraces.StepFacts` | j360-netty-core/src/main/java/me/j360/netty/core/tcp/NettyTCPServer.java:53-156 | every call keeps the state or moves it one step forward, only appends listener calls, keeps preset groups, builds only NIO groups with the fixed sizes, and changes nothing before init except to refuse start |
| `LifecycleTraces.RunKeepsValid` | j360-netty-core/src/main/java/me/j360/netty/core/tcp/NettyTCPServer.java:140-149 | in every run a bind callback is pending only while the server is Starting, and the port never changes |
| `LifecycleTraces.RankNeverDecreases` | j360-netty-core/src/main/java/me/j360/netty/core/tcp/NettyTCPServer.java:53-149 | over any sequence of calls the state only moves forward along Created, Initialized, Starting, Started |
| `LifecycleTraces.NeverShutdown` | j360-netty-core/src/main/java/me/j360/netty/core/tcp/NettyTCPServer.java:34-75 | no sequence of calls reaches Shutdown |
| `LifecycleTraces.InitAtMostOnce` | j360-netty-core/src/main/java/me/j360/netty/core/tcp/NettyTCPServer.java:54-58 | in any sequence of calls at most one init returns normally, and none once the server has left Created, so a second init always throws |
| `LifecycleTraces.StartAtMostOnce` | j360-netty-core/src/main/java/me/j360/netty/core/tcp/NettyTCPServer.java:61-64 | in any sequence of calls at most one start returns normally, and none once the server has left Initialized; a start from Initialized moves it to Starting whatever its outcome |
| `LifecycleTraces.StartNeedsInit` | j360-netty-core/src/main/java/me/j360/netty/core/tcp/NettyTCPServer.java:61-64 | until init is called nothing changes the server: no start returns normally, no group is built and no listener is called |
| `LifecycleTraces.FailedStartIsFinal` | j360-netty-core/src/main/java/me/j360/netty/core/tcp/NettyTCPServer.java:61-64 | a server left Starting without a pending bind (its start threw) is never changed again by any sequence of calls: it never runs and no start succeeds |
| `LifecycleTraces.RunningIffBound` | j360-netty-core/src/main/java/me/j360/netty/core/tcp/NettyTCPServer.java:79-144 | after any sequence of calls the server is running exactly when it was already running or a registered bind callback reported success |
| `LifecycleTraces.NotificationsOrdered` | j360-netty-core/src/main/java/me/j360/netty/core/tcp/NettyTCPServer.java:140-153 | listener calls are only appended; every onSuccess observed Started and every onFailure observed Starting |
| `LifecycleTraces.BudgetNeverGrows` | j360-netty-core/src/main/java/me/j360/netty/core/tcp/NettyTCPServer.java:140-153 | listener calls made plus listener calls still possible (a pending callback, a start not yet made) never grow |
| `LifecycleTraces.AtMostOneNotification` | j360-netty-core/src/main/java/me/j360/netty/core/tcp/NettyTCPServer.java:140-153 | over a server's whole life its listener is called at most once |
| `LifecycleTraces.GroupSelection` | j360-netty-core/src/main/java/me/j360/netty/core/tcp/NettyTCPServer.java:104-124 | over any sequence of calls a preset boss or worker group is never replaced, and a group the server builds is an NIO group with 1 thread and ratio 100 (boss) or 0 threads and ratio 70 (worker) |

## Left out

- Netty's `ServerBootstrap`, the channel factory, the selector provider and the allocator options in `initOptions` are left out. They are calls into the Netty library.
- The real socket bind is left out. Its outcome is an input of `BindComplete`. An exception from building the event-loop groups (thread factories, selector provider, group constructors) is an input `groupFault` of `Start`. An exception from setting up the bootstrap is an input `fault` of `Start`.
- The address construction uses only the port. It is modelled only by its rejection of a port outside 0..65535. The `host` field is stored but never read.
- The native-library probe is left out. Its outcome is an input that `UseNettyEpoll` ignores, because the probe sits behind `if (false)`. The epoll variant is the `Epoll` transport of `CreateTransportServer`, and nothing in this class reaches it. `useNettyEpoll()` is protected and can be overridden; a specialization that overrides it reaches the epoll path, and the model does not cover that.
- Inside the event-loop groups and thread factories, only the thread count and the I/O ratio are kept. Thread names and thread pools are left out.
- `getIoRate()` returns 70 but nothing reads it. The worker ratio 70 is a literal in the group construction, and the model uses that literal.
- `getBossGroup` and `getWorkerGroup` are overridable getters. The model reads the fields they return. A specialization's preset groups are constructor inputs.
- `getDecoder` and `getEncoder` are left out. Their pipeline lines are commented out in the source. `getChannelHandler` is abstract, so the handler is an input.
- `TcpServer.Pipeline.AddLast` does not model Netty's rejection of a duplicate stage name. That check is in the Netty library.
- Each compare-and-set is one atomic sequential step. Concurrent callers and the delivery of the bind callback on another thread are not modelled.
- Logging is left out.
