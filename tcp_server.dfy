/**
 The server bootstrap object (`NettyTCPServer`) and the per-connection
 pipeline it fills.

 `Server` keeps the lifecycle state, the two event-loop groups and the
 registered bind-completion callback in fields, and updates them in place as
 the source does. Every state-changing method says its new state through
 `Abstract()`, in terms of the step functions of `Lifecycle`, and spells out
 what the source promises of that call.
 */
module TcpServer {
  import opened Lifecycle

  /** The terminal handler a specialization supplies (`getChannelHandler()`). */
  datatype Handler = Handler(id: nat)

  /** A named stage of a channel pipeline. */
  datatype Stage = Stage(name: string, handler: Handler)

  const HandlerStageName := "handler"

  /** A connection's processing chain; stages are appended at its end. */
  class Pipeline {
    var stages: seq<Stage>

    constructor ()
      ensures stages == []
    {
      stages := [];
    }

    method AddLast(name: string, handler: Handler)
      modifies this
      ensures stages == old(stages) + [Stage(name, handler)]
    {
      stages := stages + [Stage(name, handler)];
    }
  }

  class Server {
    const port: int
    const host: Option<string>  // stored but never read by the server
    var state: State
    var bossGroup: Option<Group>
    var workGroup: Option<Group>
    /** The bind-completion callback registered by start; holds whether it captured a listener. */
    var callback: Option<bool>
    /** The listener calls made so far, with the state each one observed. */
    ghost var events: seq<Event>

    ghost function Abstract(): Machine
      reads this
    {
      Machine(port, state, bossGroup, workGroup, callback, events)
    }

    ghost predicate Valid()
      reads this
    {
      Lifecycle.Valid(Abstract())
    }

    /**
     A server on `port` with no host. `boss` and `work` are the groups a
     specialization installed before start, if any.
     */
    constructor (port: int, boss: Option<Group>, work: Option<Group>)
      ensures Valid() && Abstract() == Initial(port, boss, work) && host == None
    {
      this.port := port;
      this.host := None;
      state := Created;
      bossGroup, workGroup := boss, work;
      callback := None;
      events := [];
    }

    constructor WithHost(host: string, port: int, boss: Option<Group>, work: Option<Group>)
      ensures Valid() && Abstract() == Initial(port, boss, work) && this.host == Some(host)
    {
      this.port := port;
      this.host := Some(host);
      state := Created;
      bossGroup, workGroup := boss, work;
      callback := None;
      events := [];
    }

    /** Created -> Initialized; from any other state throw and change nothing. */
    method Init() returns (r: Completion)
      requires Valid()
      modifies this
      ensures Valid()
      ensures (Abstract(), r) == InitStep(old(Abstract()))
      ensures r == Normal <==> old(state) == Created
      ensures r == Normal ==> state == Initialized
      ensures r != Normal ==> r == Thrown(Service(AlreadyStarted)) && unchanged(this)
    {
      if state != Created {
        return Thrown(Service(AlreadyStarted));
      }
      state := Initialized;
      r := Normal;
    }

    /**
     Initialized -> Starting, then set up the bind on the transport
     `UseNettyEpoll` picks. From any other state throw with the current state
     and change nothing; in particular build no group. `groupFault` is the
     exception building the groups throws, if it does; `fault` the one setting
     up the bootstrap throws.
     */
    method Start(listener: bool, nativeAvailable: bool, groupFault: Option<Cause>, fault: Option<Cause>) returns (r: Completion)
      requires Valid()
      modifies this
      ensures Valid()
      ensures (Abstract(), r) == StartStep(old(Abstract()), listener, nativeAvailable, groupFault, fault)
      ensures old(state) != Initialized ==> r == Thrown(Service(IllegalState(old(state)))) && unchanged(this)
      ensures old(state) == Initialized ==> state == Starting
      ensures old(state) == Initialized && groupFault.Some? ==>
        r == Thrown(Escaped(groupFault.value)) && bossGroup == old(bossGroup) && workGroup == old(workGroup) &&
        callback.None? && events == old(events)
    {
      if state != Initialized {
        return Thrown(Service(IllegalState(state)));
      }
      state := Starting;
      var transport := if UseNettyEpoll(nativeAvailable) then Epoll else Nio;
      r := CreateTransportServer(listener, transport, groupFault, fault);
    }

    /** `stop` does nothing. */
    method Stop(listener: bool) returns (r: Completion)
      ensures r == Normal && Abstract() == old(Abstract())
    {
      r := Normal;
    }

    function IsRunning(): (r: bool)
      reads this
      ensures r <==> state == Started
      ensures Valid() ==> (r ==> callback.None?)
    {
      state == Started
    }

    /**
     The groups a start on transport `t` uses: a preset group as it is, else
     a new one (boss: 1 thread, I/O ratio 100; worker: 0 threads, I/O ratio 70).
     */
    method SelectGroups(t: Transport) returns (boss: Group, work: Group)
      ensures bossGroup.Some? ==> boss == bossGroup.value
      ensures bossGroup.None? ==> boss.Owned? && boss.transport == t && boss.threads == 1 && boss.ioRatio == 100
      ensures workGroup.Some? ==> work == workGroup.value
      ensures workGroup.None? ==> work.Owned? && work.transport == t && work.threads == 0 && work.ioRatio == 70
    {
      var b := bossGroup;
      var w := workGroup;
      if b.None? {
        b := Some(NewBossGroup(t));
      }
      if w.None? {
        w := Some(NewWorkerGroup(t));
      }
      boss, work := b.value, w.value;
    }

    /**
     `createEpollServer` and `createNioServer`, which differ only in the
     transport `t` of the groups they build: choose the groups, then create
     the server with them. Building a group happens outside the server's
     exception handling: if it throws (`groupFault`), the exception escapes
     unwrapped, before any field is assigned and without telling the listener.
     */
    method CreateTransportServer(listener: bool, t: Transport, groupFault: Option<Cause>, fault: Option<Cause>) returns (r: Completion)
      requires Valid() && state == Starting && callback.None?
      modifies this
      ensures Valid() && state == Starting
      ensures groupFault.Some? ==>
        r == Thrown(Escaped(groupFault.value)) && unchanged(this)
      ensures groupFault.None? ==>
        bossGroup == Some(GroupOrNew(old(bossGroup), NewBossGroup(t))) &&
        workGroup == Some(GroupOrNew(old(workGroup), NewWorkerGroup(t)))
      ensures groupFault.None? && SetupFailure(port, fault).Some? ==>
        var c := SetupFailure(port, fault).value;
        r == Thrown(Service(StartException(port, c))) && callback.None? &&
        events == Notify(old(events), listener, OnFailure(c, Starting))
      ensures groupFault.None? && SetupFailure(port, fault).None? ==>
        r == Normal && callback == Some(listener) && events == old(events)
    {
      if groupFault.Some? {
        return Thrown(Escaped(groupFault.value));
      }
      var boss, work := SelectGroups(t);
      r := CreateServer(listener, boss, work, fault);
    }

    /**
     Store the chosen groups, then set up the bind. A synchronous failure
     tells the listener (if any) and throws; otherwise the bind-completion
     callback is registered, capturing the listener.
     */
    method CreateServer(listener: bool, boss: Group, work: Group, fault: Option<Cause>) returns (r: Completion)
      requires Valid() && state == Starting && callback.None?
      modifies this
      ensures Valid() && state == Starting
      ensures bossGroup == Some(boss) && workGroup == Some(work)
      ensures SetupFailure(port, fault).Some? ==>
        var c := SetupFailure(port, fault).value;
        r == Thrown(Service(StartException(port, c))) && callback.None? &&
        events == Notify(old(events), listener, OnFailure(c, Starting))
      ensures SetupFailure(port, fault).None? ==>
        r == Normal && callback == Some(listener) && events == old(events)
    {
      bossGroup := Some(boss);
      workGroup := Some(work);
      var failure := fault;
      if failure.None? && !ValidPort(port) {
        failure := Some(PortOutOfRange(port));
      }
      if failure.Some? {
        if listener {
          events := events + [OnFailure(failure.value, state)];
        }
        return Thrown(Service(StartException(port, failure.value)));
      }
      callback := Some(listener);
      r := Normal;
    }

    /**
     The bind-completion callback. On success the state becomes Started and
     only then is the listener's onSuccess called; on failure the state stays
     Starting and onFailure gets the cause. Without a listener nothing is
     called; onFailure never follows a successful bind.
     */
    method BindComplete(success: bool, cause: Cause)
      requires Valid() && callback.Some?
      modifies this
      ensures Valid()
      ensures Abstract() == BindStep(old(Abstract()), success, cause)
      ensures state == (if success then Started else Starting) && callback.None?
      ensures old(callback.value) ==> events == old(events) + [if success then OnSuccess(Started) else OnFailure(cause, Starting)]
      ensures !old(callback.value) ==> events == old(events)
    {
      var listener := callback.value;
      callback := None;
      if success {
        state := Started;
        if listener {
          events := events + [OnSuccess(state)];
        }
      } else if listener {
        events := events + [OnFailure(cause, state)];
      }
    }

    /** A connection's pipeline gets one stage, named "handler", appended at its end. */
    method InitPipeline(pipeline: Pipeline, handler: Handler)
      modifies pipeline
      ensures pipeline.stages == old(pipeline.stages) + [Stage(HandlerStageName, handler)]
    {
      pipeline.AddLast(HandlerStageName, handler);
    }

    /**
     The channel initializer: each accepted connection gets a pipeline of its
     own holding exactly the handler stage.
     */
    method InitChannel(handler: Handler) returns (pipeline: Pipeline)
      ensures fresh(pipeline)
      ensures pipeline.stages == [Stage(HandlerStageName, handler)]
    {
      pipeline := new Pipeline();
      InitPipeline(pipeline, handler);
    }
  }

  /**
   Two servers on port 8081: the first binds and runs, the second's bind
   fails with the port in use; a start before init is refused and builds no
   group. A third server whose group construction throws is left Starting,
   with no group stored and no listener call.
   */
  method StartScenarios(inUse: Cause)
  {
    var first := new Server(8081, None, None);
    var r := first.Init();
    r := first.Start(true, false, None, None);
    assert r == Normal && !first.IsRunning();
    first.BindComplete(true, inUse);
    assert first.IsRunning() && first.events == [OnSuccess(Started)];

    var second := new Server(8081, None, None);
    r := second.Start(true, false, None, None);
    assert r == Thrown(Service(IllegalState(Created))) && second.bossGroup == None;
    r := second.Init();
    r := second.Start(true, false, None, None);
    second.BindComplete(false, inUse);
    assert !second.IsRunning() && second.events == [OnFailure(inUse, Starting)];
    assert second.bossGroup == Some(Owned(Nio, 1, 100));

    var third := new Server(8082, None, None);
    r := third.Init();
    r := third.Start(true, false, Some(inUse), None);
    assert r == Thrown(Escaped(inUse)) && third.state == Starting;
    assert third.bossGroup == None && third.events == [] && !third.IsRunning();
  }
}
