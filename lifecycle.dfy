/**
 The lifecycle of a Netty TCP server bootstrap, as pure data.

 A `Machine` is everything the server's lifecycle logic reads or writes:
 the lifecycle state, the boss (acceptor) and worker event-loop groups, the
 bind-completion callback that `start` registers, and the listener
 notifications delivered so far. Each public operation of the server is a
 step function from a machine to the next machine and what the caller sees.
 The class `TcpServer.Server` is tied to these functions; the lemmas in
 `LifecycleTraces` are stated over them.
 */
module Lifecycle {

  datatype Option<+T> = None | Some(value: T)

  /** The server's lifecycle state (`NettyTCPServer.State`). */
  datatype State = Created | Initialized | Starting | Started | Shutdown

  /** Position of a state on the forward path Created -> ... -> Shutdown. */
  function Rank(s: State): nat
  {
    match s
    case Created => 0
    case Initialized => 1
    case Starting => 2
    case Started => 3
    case Shutdown => 4
  }

  /** The one-step forward moves the server code performs. */
  predicate Advances(s: State, t: State)
  {
    (s == Created && t == Initialized) ||
    (s == Initialized && t == Starting) ||
    (s == Starting && t == Started)
  }

  /** The I/O multiplexer an event-loop group is built on. */
  datatype Transport = Epoll | Nio

  /**
   An event-loop group: one supplied before start (borrowed, kept as it is),
   or one the server builds with a thread count and an I/O ratio.
   */
  datatype Group = Borrowed(id: nat) | Owned(transport: Transport, threads: nat, ioRatio: nat)

  const BossThreads: nat := 1
  const BossIoRatio: nat := 100
  /** Zero threads: Netty sizes the worker group from the available processors. */
  const WorkerThreads: nat := 0
  const WorkerIoRatio: nat := 70

  function NewBossGroup(t: Transport): Group
  {
    Owned(t, BossThreads, BossIoRatio)
  }

  function NewWorkerGroup(t: Transport): Group
  {
    Owned(t, WorkerThreads, WorkerIoRatio)
  }

  /** The group a start uses: the preset one if there is one, else the one built for it. */
  function GroupOrNew(preset: Option<Group>, built: Group): Group
  {
    if preset.Some? then preset.value else built
  }

  /** The native-transport switch; it is off in the source. */
  const EpollEnabled := false

  /**
   Whether start takes the epoll path. `nativeAvailable` is the outcome the
   native-library probe would have; the probe sits behind a disabled switch,
   so the answer is always no.
   */
  function UseNettyEpoll(nativeAvailable: bool): (r: bool)
    ensures !r
  {
    EpollEnabled && nativeAvailable
  }

  /** Why a start or a bind failed. */
  datatype Cause =
    | PortOutOfRange(port: int)  // the listening address rejects the port
    | Fault(code: nat)           // any other exception or bind error, e.g. address in use

  /** The `NettyServiceException`s the server throws. */
  datatype Error =
    | AlreadyStarted                          // init when not Created
    | IllegalState(current: State)            // start when not Initialized; carries the state
    | StartException(port: int, cause: Cause) // synchronous failure while setting up the bind

  /**
   How `init`, `start` and `stop` end abnormally: a `NettyServiceException`,
   or an exception from building the event-loop groups, which `start` lets
   through unwrapped.
   */
  datatype Failure = Service(error: Error) | Escaped(cause: Cause)

  /** How `init`, `start` and `stop` return. */
  datatype Completion = Normal | Thrown(failure: Failure)

  /**
   A call made on the listener, with the lifecycle state a listener calling
   back into the server would observe at that moment.
   */
  datatype Event = OnSuccess(seen: State) | OnFailure(cause: Cause, seen: State)

  datatype Machine = Machine(
    port: int,
    state: State,
    boss: Option<Group>,
    work: Option<Group>,
    callback: Option<bool>,  // the bind-completion callback; holds whether it captured a listener
    events: seq<Event>)

  /** A server just constructed, possibly with groups a specialization installed. */
  function Initial(port: int, boss: Option<Group>, work: Option<Group>): Machine
  {
    Machine(port, Created, boss, work, None, [])
  }

  /** A bind callback is pending only while the server is Starting. */
  predicate Valid(m: Machine)
  {
    m.callback.Some? ==> m.state == Starting
  }

  predicate ValidPort(port: int)
  {
    0 <= port <= 65535
  }

  /**
   The synchronous failure of the bind set-up, if any: an exception from
   configuring the bootstrap (`fault`) comes first, then the address
   construction, which rejects a port outside 0..65535.
   */
  function SetupFailure(port: int, fault: Option<Cause>): Option<Cause>
  {
    if fault.Some? then fault
    else if ValidPort(port) then None
    else Some(PortOutOfRange(port))
  }

  /** The listener is called only when there is one. */
  function Notify(events: seq<Event>, listener: bool, e: Event): seq<Event>
  {
    if listener then events + [e] else events
  }

  /** `init`: compare-and-set Created -> Initialized, or throw. */
  function InitStep(m: Machine): (Machine, Completion)
  {
    if m.state == Created then (m.(state := Initialized), Normal)
    else (m, Thrown(Service(AlreadyStarted)))
  }

  /**
   `start`: compare-and-set Initialized -> Starting, or throw with the current
   state. On success choose the transport and build the missing groups. If
   building them throws (`groupFault`), the exception escapes as it is: the
   state stays Starting, no group is stored and the listener is not told.
   Otherwise store the groups, then either fail synchronously (listener told,
   exception wrapped and thrown) or register the bind-completion callback.
   */
  function StartStep(m: Machine, listener: bool, nativeAvailable: bool, groupFault: Option<Cause>, fault: Option<Cause>): (Machine, Completion)
  {
    if m.state != Initialized then (m, Thrown(Service(IllegalState(m.state))))
    else if groupFault.Some? then (m.(state := Starting), Thrown(Escaped(groupFault.value)))
    else
      var t := if UseNettyEpoll(nativeAvailable) then Epoll else Nio;
      var m1 := m.(state := Starting,
                   boss := Some(GroupOrNew(m.boss, NewBossGroup(t))),
                   work := Some(GroupOrNew(m.work, NewWorkerGroup(t))));
      match SetupFailure(m.port, fault)
      case Some(c) =>
        (m1.(events := Notify(m1.events, listener, OnFailure(c, m1.state))), Thrown(Service(StartException(m.port, c))))
      case None =>
        (m1.(callback := Some(listener)), Normal)
  }

  /**
   The bind-completion callback: on success set Started and then tell the
   listener; on failure leave the state and tell the listener the cause.
   */
  function BindStep(m: Machine, success: bool, cause: Cause): Machine
    requires m.callback.Some?
  {
    var listener := m.callback.value;
    if success then
      var m1 := m.(state := Started, callback := None);
      m1.(events := Notify(m1.events, listener, OnSuccess(m1.state)))
    else
      var m1 := m.(callback := None);
      m1.(events := Notify(m1.events, listener, OnFailure(cause, m1.state)))
  }

  /** `stop` is empty in the source. */
  function StopStep(m: Machine): (Machine, Completion)
  {
    (m, Normal)
  }

  /** `isRunning`. */
  predicate Running(m: Machine)
  {
    m.state == Started
  }

  /** What can happen to a server, one call or event at a time. */
  datatype Call =
    | Init
    | Start(listener: bool, nativeAvailable: bool, groupFault: Option<Cause>, fault: Option<Cause>)
    | BindDone(success: bool, cause: Cause)
    | Stop(listener: bool)
    | IsRunning

  /** What the caller observes of each call. */
  datatype Reply =
    | Returned(completion: Completion)
    | Answered(running: bool)
    | Delivered(success: bool)  // the registered callback ran
    | Dropped                   // no callback was registered, nothing ran

  function Step(m: Machine, c: Call): (Machine, Reply)
  {
    match c
    case Init =>
      var (m1, r) := InitStep(m); (m1, Returned(r))
    case Start(listener, nativeAvailable, groupFault, fault) =>
      var (m1, r) := StartStep(m, listener, nativeAvailable, groupFault, fault); (m1, Returned(r))
    case BindDone(success, cause) =>
      if m.callback.Some? then (BindStep(m, success, cause), Delivered(success)) else (m, Dropped)
    case Stop(_) =>
      var (m1, r) := StopStep(m); (m1, Returned(r))
    case IsRunning =>
      (m, Answered(Running(m)))
  }
}
