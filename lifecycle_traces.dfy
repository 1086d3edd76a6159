/**
 Properties of the server lifecycle over every sequence of calls.

 `Run` applies a sequence of calls (and bind completions) to a machine and
 collects what each one returned. Each lemma holds for all machines that
 satisfy `Valid` and all call sequences, and is proved by induction on the
 sequence from the one-step facts in `StepFacts`.
 */
module LifecycleTraces {
  import opened Lifecycle

  function Run(m: Machine, calls: seq<Call>): (r: (Machine, seq<Reply>))
    ensures |r.1| == |calls|
    decreases |calls|
  {
    if calls == [] then (m, [])
    else
      var (m1, reply) := Step(m, calls[0]);
      var (mN, rest) := Run(m1, calls[1..]);
      (mN, [reply] + rest)
  }

  /** How many `init` calls (`inits`) or `start` calls (otherwise) returned normally. */
  function Succeeded(calls: seq<Call>, replies: seq<Reply>, inits: bool): nat
    requires |calls| == |replies|
    decreases |calls|
  {
    if calls == [] then 0
    else
      var counts := (if inits then calls[0].Init? else calls[0].Start?) && replies[0] == Returned(Normal);
      (if counts then 1 else 0) + Succeeded(calls[1..], replies[1..], inits)
  }

  /** Every listener call saw the state the ordering promises. */
  predicate Consistent(events: seq<Event>)
  {
    forall i :: 0 <= i < |events| ==>
      match events[i]
      case OnSuccess(seen) => seen == Started
      case OnFailure(_, seen) => seen == Starting
  }

  /**
   Listener calls still possible: one for a pending callback, one for a start
   that has not yet been made.
   */
  function Budget(m: Machine): nat
  {
    |m.events| + (if m.callback.Some? then 1 else 0) + (if Rank(m.state) <= 1 then 1 else 0)
  }

  /** What a single call does, for every call and every valid machine. */
  lemma StepFacts(m: Machine, c: Call)
    requires Valid(m)
    ensures var (m1, r) := Step(m, c);
      && Valid(m1)
      && (m1.state == m.state || Advances(m.state, m1.state))
      && m1.port == m.port
      && m.events <= m1.events
      && (Consistent(m.events) ==> Consistent(m1.events))
      && Budget(m1) <= Budget(m)
      && (m1.state == Started <==> m.state == Started || r == Delivered(true))
      && (c.Init? && r == Returned(Normal) ==> m.state == Created && m1.state == Initialized)
      && (c.Start? && r == Returned(Normal) ==> m.state == Initialized && m1.state == Starting)
      && (m.state == Created && !c.Init? ==> m1 == m && !(c.Start? && r == Returned(Normal)))
      && (m.boss.Some? ==> m1.boss == m.boss)
      && (m.work.Some? ==> m1.work == m.work)
      && (m.boss.None? && m1.boss.Some? ==> m1.boss.value == NewBossGroup(Nio))
      && (m.work.None? && m1.work.Some? ==> m1.work.value == NewWorkerGroup(Nio))
  {
  }

  /** The lifecycle state never moves backwards. */
  lemma {:induction false} RankNeverDecreases(m: Machine, calls: seq<Call>)
    requires Valid(m)
    ensures Rank(Run(m, calls).0.state) >= Rank(m.state)
    decreases |calls|
  {
    if calls != [] {
      StepFacts(m, calls[0]);
      RankNeverDecreases(Step(m, calls[0]).0, calls[1..]);
    }
  }

  /** Nothing the server does ever reaches Shutdown. */
  lemma {:induction false} NeverShutdown(m: Machine, calls: seq<Call>)
    requires Valid(m) && m.state != Shutdown
    ensures Run(m, calls).0.state != Shutdown
    decreases |calls|
  {
    if calls != [] {
      StepFacts(m, calls[0]);
      NeverShutdown(Step(m, calls[0]).0, calls[1..]);
    }
  }

  /** Validity is kept by every run, so the one-step facts apply at every point. */
  lemma {:induction false} RunKeepsValid(m: Machine, calls: seq<Call>)
    requires Valid(m)
    ensures Valid(Run(m, calls).0)
    ensures Run(m, calls).0.port == m.port
    decreases |calls|
  {
    if calls != [] {
      StepFacts(m, calls[0]);
      RunKeepsValid(Step(m, calls[0]).0, calls[1..]);
    }
  }

  /** `init` returns normally at most once, and never once the server has left Created. */
  lemma {:induction false} InitAtMostOnce(m: Machine, calls: seq<Call>)
    requires Valid(m)
    ensures Succeeded(calls, Run(m, calls).1, true) <= if m.state == Created then 1 else 0
    decreases |calls|
  {
    if calls != [] {
      var m1 := Step(m, calls[0]).0;
      StepFacts(m, calls[0]);
      InitAtMostOnce(m1, calls[1..]);
    }
  }

  /**
   `start` returns normally at most once, and never once the server has left
   Initialized; a start from Initialized moves it to Starting whatever its outcome.
   */
  lemma {:induction false} StartAtMostOnce(m: Machine, calls: seq<Call>)
    requires Valid(m)
    ensures Succeeded(calls, Run(m, calls).1, false) <= if Rank(m.state) <= 1 then 1 else 0
    decreases |calls|
  {
    if calls != [] {
      var m1 := Step(m, calls[0]).0;
      StepFacts(m, calls[0]);
      StartAtMostOnce(m1, calls[1..]);
    }
  }

  /**
   Before `init`, nothing changes the server: every `start` throws, no group
   is built or stored and no listener is called.
   */
  lemma {:induction false} StartNeedsInit(m: Machine, calls: seq<Call>)
    requires Valid(m) && m.state == Created
    requires forall i :: 0 <= i < |calls| ==> !calls[i].Init?
    ensures Run(m, calls).0 == m
    ensures Succeeded(calls, Run(m, calls).1, false) == 0
    decreases |calls|
  {
    if calls != [] {
      StepFacts(m, calls[0]);
      StartNeedsInit(m, calls[1..]);
    }
  }

  /** The server is running exactly when it was already, or a bind completed successfully. */
  lemma {:induction false} RunningIffBound(m: Machine, calls: seq<Call>)
    requires Valid(m)
    ensures Running(Run(m, calls).0) <==> Running(m) || Delivered(true) in Run(m, calls).1
    decreases |calls|
  {
    if calls != [] {
      var (m1, reply) := Step(m, calls[0]);
      StepFacts(m, calls[0]);
      RunningIffBound(m1, calls[1..]);
      assert Run(m, calls).1 == [reply] + Run(m1, calls[1..]).1;
    }
  }

  /**
   A start that threw after the compare-and-set leaves the server Starting with
   no callback; from there no call changes it, so it never runs and cannot be
   started again.
   */
  lemma {:induction false} FailedStartIsFinal(m: Machine, calls: seq<Call>)
    requires m.state == Starting && m.callback.None?
    ensures Run(m, calls).0 == m
    ensures !Running(Run(m, calls).0)
    ensures Succeeded(calls, Run(m, calls).1, false) == 0
    decreases |calls|
  {
    if calls != [] {
      StepFacts(m, calls[0]);
      FailedStartIsFinal(m, calls[1..]);
    }
  }

  /**
   Listener calls are only ever appended, and each one saw Started (for
   onSuccess) or Starting (for onFailure): the state is set before onSuccess.
   */
  lemma {:induction false} NotificationsOrdered(m: Machine, calls: seq<Call>)
    requires Valid(m) && Consistent(m.events)
    ensures m.events <= Run(m, calls).0.events
    ensures Consistent(Run(m, calls).0.events)
    decreases |calls|
  {
    if calls != [] {
      StepFacts(m, calls[0]);
      NotificationsOrdered(Step(m, calls[0]).0, calls[1..]);
    }
  }

  /** No run adds more listener calls than the machine's budget allows. */
  lemma {:induction false} BudgetNeverGrows(m: Machine, calls: seq<Call>)
    requires Valid(m)
    ensures Budget(Run(m, calls).0) <= Budget(m)
    decreases |calls|
  {
    if calls != [] {
      StepFacts(m, calls[0]);
      BudgetNeverGrows(Step(m, calls[0]).0, calls[1..]);
    }
  }

  /** Over a server's whole life the listener is called at most once. */
  lemma AtMostOneNotification(port: int, boss: Option<Group>, work: Option<Group>, calls: seq<Call>)
    ensures |Run(Initial(port, boss, work), calls).0.events| <= 1
  {
    BudgetNeverGrows(Initial(port, boss, work), calls);
  }

  /**
   A group present before a call stays as it is; a group the server builds is
   an NIO group, with 1 thread and I/O ratio 100 for the boss, 0 threads and
   I/O ratio 70 for the worker.
   */
  lemma {:induction false} GroupSelection(m: Machine, calls: seq<Call>)
    requires Valid(m)
    ensures var m1 := Run(m, calls).0;
      && (m.boss.Some? ==> m1.boss == m.boss)
      && (m.work.Some? ==> m1.work == m.work)
      && (m.boss.None? && m1.boss.Some? ==> m1.boss.value == NewBossGroup(Nio))
      && (m.work.None? && m1.work.Some? ==> m1.work.value == NewWorkerGroup(Nio))
    decreases |calls|
  {
    if calls != [] {
      var m1 := Step(m, calls[0]).0;
      StepFacts(m, calls[0]);
      GroupSelection(m1, calls[1..]);
    }
  }
}
