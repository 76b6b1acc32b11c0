/** The registry of cancellable tasks, and when a running turn has no published queue: a stop waits
    only for the tasks in the registry, and a command that runs inside a turn takes that very turn
    out of it. */
module DispatchQueues {
  import opened Transcript
  import opened Dispatch
  import opened DispatchSafety
  import opened DispatchRuns

  /** Messages for the session of the turn are injected into this turn. */
  predicate Published(s: State, i: nat)
    requires i < |s.tasks|
  {
    s.tasks[i].key in s.published && s.published[s.tasks[i].key] == i
  }

  /** A command that cancels the tasks of the session is under way. */
  predicate Stopping(s: State, key: string) {
    s.hand.Busy? && (s.hand.msg.body.StopCommand? || s.hand.msg.body.Reset?) && Key(s.config, s.hand.msg) == key
  }

  /** Someone took the task out of the registry for good, and does not wait for it: the task itself,
      by the reset command, or the shutdown. */
  predicate Disowned(s: State, i: nat) { i in s.resets || s.closed }

  ghost predicate TaskRegistered(s: State, i: nat)
    requires i < |s.tasks|
  {
    var t := s.tasks[i];
    && (i in s.active ==> t.work.FromBus? && !t.pc.Done?)
    && (t.work.FromBus? && !t.pc.Done? && i !in s.active ==> i in s.doomed)
    && (t.pc.Running? && i !in s.active ==> Disowned(s, i) || (s.hand.Busy? && i in s.hand.waits))
    && (Stopping(s, t.key) ==> i !in s.active)
    && (i in s.taken ==> !t.pc.Created? && !t.pc.WaitLock? && !t.pc.WaitGate? && Disowned(s, i))
    && (t.pc.Running? ==> (Published(s, i) <==> i !in s.taken))
  }

  ghost predicate Registry(s: State) {
    && (forall i :: i in s.active ==> i < |s.tasks|)
    && (forall i :: i in s.taken ==> i < |s.tasks|)
    && forall i :: 0 <= i < |s.tasks| ==> TaskRegistered(s, i)
  }

  // ---------------------------------------------------------------- one step

  /** A task the step does not touch. */
  lemma Untouched(s: State, u: State, j: nat)
    requires j < |s.tasks| && TaskRegistered(s, j) && u.config == s.config
    requires j < |u.tasks| && u.tasks[j] == s.tasks[j]
    requires j in u.active <==> j in s.active
    requires j in u.taken <==> j in s.taken
    requires s.doomed <= u.doomed && s.resets <= u.resets && (s.closed ==> u.closed)
    requires u.hand == s.hand || (!u.hand.Busy? && !s.hand.Busy?)
    requires s.tasks[j].pc.Running? ==> (Published(u, j) <==> Published(s, j))
    ensures TaskRegistered(u, j)
  {
  }

  /** Nothing the registry is about changes. */
  lemma SameRegistry(s: State, u: State)
    requires Registry(s) && u.config == s.config && u.tasks == s.tasks && u.published == s.published
    requires u.active == s.active && u.taken == s.taken && u.doomed == s.doomed && u.resets == s.resets
    requires u.closed == s.closed && (u.hand == s.hand || (!u.hand.Busy? && !s.hand.Busy?))
    ensures Registry(u)
  {
    forall j | 0 <= j < |s.tasks| ensures TaskRegistered(u, j) { Untouched(s, u, j); }
  }

  /** Task i moves on, and publishes nothing. */
  lemma Moved(s: State, u: State, i: nat, pc: Pc)
    requires Registry(s) && i < |s.tasks| && u.config == s.config && u.hand == s.hand
    requires |u.tasks| == |s.tasks| && u.tasks[i].pc == pc && u.tasks[i].work == s.tasks[i].work
    requires u.tasks[i].key == s.tasks[i].key
    requires forall j :: 0 <= j < |s.tasks| && j != i ==> u.tasks[j] == s.tasks[j]
    requires u.active == if pc.Done? then s.active - {i} else s.active
    requires u.taken == s.taken && u.doomed == s.doomed && u.resets == s.resets && u.closed == s.closed
    requires forall j :: 0 <= j < |s.tasks| && j != i && s.tasks[j].pc.Running? ==> (Published(u, j) <==> Published(s, j))
    requires pc.Running? ==> s.tasks[i].pc.Running? && (Published(u, i) <==> Published(s, i))
    requires pc.Created? || pc.WaitLock? || pc.WaitGate? ==> BeforeTurn(s.tasks[i].pc)
    requires !s.tasks[i].pc.Done?
    ensures Registry(u)
  {
    forall j | 0 <= j < |s.tasks| && j != i ensures TaskRegistered(u, j) { Untouched(s, u, j); }
    assert TaskRegistered(s, i);
  }

  predicate BeforeTurn(pc: Pc) { pc.Created? || pc.WaitLock? || pc.WaitGate? }

  lemma MovedPc(s: State, u: State, i: nat, pc: Pc)
    requires Registry(s) && i < |s.tasks| && u.hand == s.hand && !s.tasks[i].pc.Done?
    requires var v := WithPc(s, i, pc); u.config == s.config && u.tasks == v.tasks && u.active == v.active
    requires u.taken == s.taken && u.doomed == s.doomed && u.resets == s.resets && u.closed == s.closed
    requires u.published == s.published
    requires pc.Running? ==> s.tasks[i].pc.Running?
    requires BeforeTurn(pc) ==> BeforeTurn(s.tasks[i].pc)
    ensures Registry(u)
  {
    Moved(s, u, i, pc);
  }

  /** No other turn of the session runs beside one that holds the lock. */
  lemma OnlyHolder(s: State, i: nat, j: nat)
    requires Core(s) && i < |s.tasks| && j < |s.tasks| && HoldsLock(s.tasks[i]) && s.tasks[j].pc.Running?
    ensures s.tasks[i].key == s.tasks[j].key ==> i == j
  {
    assert HoldsLock(s.tasks[j]);
  }

  lemma EndTurnRegistry(s: State, i: nat)
    requires Core(s) && Registry(s) && i < |s.tasks| && s.tasks[i].pc.Running?
    ensures Registry(EndTurn(s, i))
  {
    var u := EndTurn(s, i);
    EndTurnShape(s, i);
    forall j | 0 <= j < |s.tasks| && j != i && s.tasks[j].pc.Running? ensures Published(u, j) <==> Published(s, j) {
      OnlyHolder(s, i, j);
      assert u.tasks[j] == s.tasks[j];
    }
    Moved(s, u, i, Draining(s.tasks[i].pc.queue));
  }

  lemma EndTurnShape(s: State, i: nat)
    requires i < |s.tasks| && s.tasks[i].pc.Running?
    ensures var u := EndTurn(s, i);
      && u == WithPc(s, i, Draining(s.tasks[i].pc.queue)).(published := u.published)
      && forall key :: key != s.tasks[i].key ==>
        (key in u.published <==> key in s.published) && (key in s.published ==> u.published[key] == s.published[key])
  {
  }

  lemma TakeGateRegistry(s: State, i: nat)
    requires Core(s) && Registry(s) && Enabled(s, TakeGate(i)) && PublishedAreRunning(s)
    ensures Registry(After(s, TakeGate(i)))
  {
    var u := After(s, TakeGate(i));
    forall j | 0 <= j < |s.tasks| && j != i ensures TaskRegistered(u, j) {
      if s.tasks[j].pc.Running? { OnlyHolder(s, i, j); }
      Untouched(s, u, j);
    }
    assert TaskRegistered(s, i) && TaskOk(s.config, s.tasks[i]);
  }

  lemma StartRegistry(s: State, i: nat)
    requires Registry(s) && Enabled(s, Start(i)) && PublishedAreRunning(s)
    ensures Registry(After(s, Start(i)))
  {
    Moved(s, After(s, Start(i)), i, WaitLock);
  }

  lemma TakeLockRegistry(s: State, i: nat)
    requires Registry(s) && Enabled(s, TakeLock(i)) && PublishedAreRunning(s)
    ensures Registry(After(s, TakeLock(i)))
  {
    MovedPc(s, After(s, TakeLock(i)), i, if s.tasks[i].work.Direct? then DirectRun else WaitGate);
  }

  lemma DrainRegistry(s: State, i: nat)
    requires Registry(s) && Enabled(s, Drain(i)) && PublishedAreRunning(s)
    ensures Registry(After(s, Drain(i)))
  {
    MovedPc(s, After(s, Drain(i)), i, Running(s.tasks[i].pc.queue[1..]));
  }

  lemma FinishRegistry(s: State, i: nat)
    requires Core(s) && Registry(s) && Enabled(s, Finish(i))
    ensures Registry(AfterFinish(s, i))
  {
    if s.tasks[i].pc.DirectRun? {
      MovedPc(s, AfterFinish(s, i), i, Done);
    } else {
      EndTurnRegistry(s, i);
      SameRegistry(EndTurn(s, i), AfterFinish(s, i));
    }
  }

  lemma CancelRegistry(s: State, i: nat)
    requires Core(s) && Registry(s) && Enabled(s, Cancel(i))
    ensures Registry(AfterCancel(s, i))
  {
    var t := s.tasks[i];
    if t.work.FromBus? && t.pc.Running? {
      EndTurnRegistry(s, i);
      SameRegistry(EndTurn(s, i), AfterCancel(s, i));
    } else {
      assert TaskOk(s.config, t);
      MovedPc(s, AfterCancel(s, i), i, if t.work.FromBus? && !t.pc.Created? then Leaving else Done);
    }
  }

  lemma PutBackRegistry(s: State, i: nat)
    requires Registry(s) && Enabled(s, PutBack(i))
    ensures Registry(AfterPutBack(s, i))
  {
    MovedPc(s, AfterPutBack(s, i), i, AfterPutBack(s, i).tasks[i].pc);
  }

  lemma PickRegistry(s: State, i: nat)
    requires Registry(s) && Enabled(s, Pick(i))
    ensures Registry(AfterPick(s, i))
  {
    MovedPc(s, AfterPick(s, i), i, AfterPick(s, i).tasks[i].pc);
  }

  lemma PutRegistry(s: State, i: nat)
    requires Registry(s) && Enabled(s, Put(i))
    ensures Registry(AfterPut(s, i))
  {
    MovedPc(s, AfterPut(s, i), i, AfterPut(s, i).tasks[i].pc);
  }

  lemma ReleaseRegistry(s: State, i: nat)
    requires Registry(s) && Enabled(s, Release(i)) && PublishedAreRunning(s)
    ensures Registry(After(s, Release(i)))
  {
    MovedPc(s, After(s, Release(i)), i, Done);
  }

  lemma DirectRegistry(s: State, key: string)
    requires Registry(s) && PublishedAreRunning(s)
    ensures Registry(After(s, CallDirect(key)))
  {
    var u := After(s, CallDirect(key));
    forall j | 0 <= j < |s.tasks| ensures TaskRegistered(u, j) { Untouched(s, u, j); }
  }

  lemma SpawnRegistry(s: State, m: Inbound)
    requires Registry(s) && s.hand.Popped?
    ensures Registry(Spawned(s, m))
  {
    var u := Spawned(s, m);
    forall j | 0 <= j < |s.tasks| ensures TaskRegistered(u, j) { Untouched(s, u, j); }
  }

  /** The command empties the registry of the session, and waits for what it took out. */
  lemma CommandRegistry(s: State, m: Inbound)
    requires Registry(s) && s.hand.Popped?
    ensures Registry(Commanded(s, m))
  {
    var u := Commanded(s, m);
    forall j | 0 <= j < |s.tasks| ensures TaskRegistered(u, j) { CommandedTask(s, m, j); }
  }

  lemma CommandedTask(s: State, m: Inbound, j: nat)
    requires j < |s.tasks| && TaskRegistered(s, j) && s.hand.Popped?
    ensures TaskRegistered(Commanded(s, m), j)
  {
    if j in Registered(s, Key(s.config, m)) {
      assert s.tasks[j].key == Key(s.config, m);
    }
  }

  lemma InjectRegistry(s: State, i: nat, queue: seq<Inbound>)
    requires Registry(s) && s.hand.Popped? && i < |s.tasks| && s.tasks[i].pc.Running?
    ensures Registry(WithPc(s, i, Running(queue)).(hand := Empty))
  {
    MovedPc(s, WithPc(s, i, Running(queue)), i, Running(queue));
    SameRegistry(WithPc(s, i, Running(queue)), WithPc(s, i, Running(queue)).(hand := Empty));
  }

  lemma RouteRegistry(s: State)
    requires Registry(s) && Enabled(s, RouteIt) && PublishedAreRunning(s)
    ensures Registry(AfterRoute(s))
  {
    var m := s.hand.msg;
    var key := Key(s.config, m);
    if m.automation && key in s.published {
      SameRegistry(s, AfterRoute(s));
    } else {
      SpawnRegistry(s, m);
      CommandRegistry(s, m);
      if key in s.published {
        var owner := s.published[key];
        InjectRegistry(s, owner, s.tasks[owner].pc.queue + [Pinned(s.config, m)]);
      }
    }
  }

  /** The reset takes its own turn out of the registry, and no other turn of the session runs. */
  lemma ResetRegistry(s: State, i: nat)
    requires Core(s) && Registry(s) && Enabled(s, ResetIn(i)) && PublishedAreRunning(s)
    ensures Registry(After(s, ResetIn(i)))
  {
    var u := After(s, ResetIn(i));
    forall j | 0 <= j < |s.tasks| ensures TaskRegistered(u, j) {
      assert TaskRegistered(s, j);
      if s.tasks[j].pc.Running? { OnlyHolder(s, i, j); }
    }
  }

  lemma CloseRegistry(s: State)
    requires Registry(s) && PublishedAreRunning(s)
    ensures Registry(After(s, CloseAll))
  {
    forall j | 0 <= j < |s.tasks| ensures TaskRegistered(After(s, CloseAll), j) { assert TaskRegistered(s, j); }
  }

  /** Whoever still runs when a stop of the session ends was taken out of the registry by itself
      or by the shutdown. */
  lemma StopOutlived(s: State, i: nat)
    requires Registry(s) && Enabled(s, EndInline) && i < |s.tasks| && s.tasks[i].pc.Running?
    requires Stopping(s, s.tasks[i].key)
    ensures Disowned(s, i)
  {
    assert TaskRegistered(s, i);
  }

  lemma InlineRegistry(s: State)
    requires Core(s) && Registry(s) && Enabled(s, EndInline) && PublishedAreRunning(s)
    ensures Registry(AfterInline(s))
  {
    var u := AfterInline(s);
    var key := Key(s.config, s.hand.msg);
    var takes := s.hand.msg.body.StopCommand? && key in s.published;
    if takes { StopOutlived(s, s.published[key]); }
    forall j | 0 <= j < |s.tasks| ensures TaskRegistered(u, j) {
      if takes { TakenTask(s, j); } else { ServedTask(s, j); }
    }
  }

  lemma ServedTask(s: State, j: nat)
    requires j < |s.tasks| && TaskRegistered(s, j) && Enabled(s, EndInline) && PublishedAreRunning(s)
    requires !s.hand.msg.body.StopCommand? || Key(s.config, s.hand.msg) !in s.published
    ensures TaskRegistered(AfterInline(s), j)
  {
  }

  lemma TakenTask(s: State, j: nat)
    requires Core(s) && j < |s.tasks| && TaskRegistered(s, j) && Enabled(s, EndInline) && PublishedAreRunning(s)
    requires s.hand.msg.body.StopCommand? && Key(s.config, s.hand.msg) in s.published
    requires Disowned(s, s.published[Key(s.config, s.hand.msg)])
    ensures TaskRegistered(AfterInline(s), j)
  {
    if s.tasks[j].pc.Running? { OnlyHolder(s, s.published[Key(s.config, s.hand.msg)], j); }
  }

  lemma StepRegistry(s: State, a: Action)
    requires Core(s) && Registry(s) && Enabled(s, a) && PublishedAreRunning(s)
    ensures Registry(After(s, a))
  {
    match a
    case Arrive(_) => SameRegistry(s, After(s, a));
    case Consume => SameRegistry(s, After(s, a));
    case Begin => CommandRegistry(s, s.hand.msg);
    case RouteIt => RouteRegistry(s);
    case EndInline => InlineRegistry(s);
    case CallDirect(key) => DirectRegistry(s, key);
    case ResetIn(i) => ResetRegistry(s, i);
    case CloseAll => CloseRegistry(s);
    case Start(i) => StartRegistry(s, i);
    case TakeLock(i) => TakeLockRegistry(s, i);
    case TakeGate(i) => TakeGateRegistry(s, i);
    case Drain(i) => DrainRegistry(s, i);
    case Finish(i) => FinishRegistry(s, i);
    case PutBack(i) => PutBackRegistry(s, i);
    case Pick(i) => PickRegistry(s, i);
    case Put(i) => PutRegistry(s, i);
    case Release(i) => ReleaseRegistry(s, i);
    case Cancel(i) => CancelRegistry(s, i);
    case Collect(_) => SameRegistry(s, After(s, a));
  }

  // ---------------------------------------------------------------- whole runs

  lemma {:induction false} RunKeepsRegistry(s: State, actions: seq<Action>, t: State)
    requires Inv(s) && Registry(s) && Leads(s, actions, t)
    ensures Inv(t) && Registry(t)
    decreases |actions|
  {
    if actions != [] {
      StepKeepsInv(s, actions[0]);
      StepRegistry(s, actions[0]);
      RunKeepsRegistry(After(s, actions[0]), actions[1..], t);
    }
  }

  lemma ReachedRegistry(c: Config, actions: seq<Action>, s: State)
    requires Leads(Initial(c), actions, s)
    ensures Inv(s) && Registry(s)
  {
    StartsSafe(c);
    RunKeepsRegistry(Initial(c), actions, s);
  }

  /** In every reachable state the queue of a running turn is published unless a stop took it, and
      only from a turn that ran the reset itself, or during the shutdown, has one taken it. */
  lemma PublishedUnlessTaken(c: Config, actions: seq<Action>, s: State, i: nat)
    requires Leads(Initial(c), actions, s) && i < |s.tasks| && s.tasks[i].pc.Running?
    ensures Published(s, i) <==> i !in s.taken
    ensures i in s.taken ==> Disowned(s, i)
  {
    ReachedRegistry(c, actions, s);
    assert TaskRegistered(s, i);
  }

  /** The turns of the session that are out of the registry and still run. */
  ghost predicate Outlives(s: State, i: nat)
    requires i < |s.tasks|
  {
    s.tasks[i].pc.Running? && i !in s.active && i !in s.taken
  }

  /** A stop that ends finds a queue precisely when a turn of its session outlived it; that turn
      ran the reset itself, or the shutdown has begun. */
  lemma StopFindsQueueIff(c: Config, actions: seq<Action>, s: State)
    requires Leads(Initial(c), actions, s) && Enabled(s, EndInline) && s.hand.msg.body.StopCommand?
    ensures var key := Key(s.config, s.hand.msg);
      && (key in s.published <==> exists i :: 0 <= i < |s.tasks| && s.tasks[i].key == key && Outlives(s, i))
      && forall i :: 0 <= i < |s.tasks| && s.tasks[i].key == key && Outlives(s, i) ==> Disowned(s, i)
  {
    ReachedRegistry(c, actions, s);
    var key := Key(s.config, s.hand.msg);
    forall i | 0 <= i < |s.tasks| && s.tasks[i].key == key && Outlives(s, i)
      ensures Disowned(s, i) && key in s.published
    {
      assert TaskRegistered(s, i);
    }
    if key in s.published {
      assert TaskRegistered(s, s.published[key]);
      assert Outlives(s, s.published[key]);
    }
  }

  /** In a run without a reset inside a turn and without shutdown, no stop that ends finds a
      queue. */
  lemma StopFindsNothing(c: Config, actions: seq<Action>, s: State)
    requires Leads(Initial(c), actions, s) && Enabled(s, EndInline) && s.hand.msg.body.StopCommand?
    requires forall k :: 0 <= k < |actions| ==> !actions[k].ResetIn? && !actions[k].CloseAll?
    ensures Key(s.config, s.hand.msg) !in s.published
  {
    StopFindsQueueIff(c, actions, s);
    NobodyDisowned(Initial(c), actions, s);
  }

  lemma {:induction false} NobodyDisowned(s: State, actions: seq<Action>, t: State)
    requires Leads(s, actions, t)
    requires forall k :: 0 <= k < |actions| ==> !actions[k].ResetIn? && !actions[k].CloseAll?
    ensures SameOwners(s, t)
    decreases |actions|
  {
    if actions != [] {
      StepSteady(s, actions[0]);
      NobodyDisowned(After(s, actions[0]), actions[1..], t);
    }
  }

  ghost predicate AllPublished(s: State) {
    forall i :: 0 <= i < |s.tasks| && s.tasks[i].pc.Running? ==> Published(s, i)
  }

  /** The step that leaves a running turn without its queue: a stop of its session ends. */
  ghost predicate Unpublishes(s: State, a: Action) {
    && a.EndInline? && s.hand.Busy? && s.hand.msg.body.StopCommand?
    && exists i :: 0 <= i < |s.tasks| && s.tasks[i].pc.Running? && s.tasks[i].key == Key(s.config, s.hand.msg)
  }

  /** While nothing was taken, every running turn has its queue. */
  lemma PublishedIffNoneTaken(s: State)
    requires Registry(s)
    ensures AllPublished(s) <==> forall i :: 0 <= i < |s.tasks| && s.tasks[i].pc.Running? ==> i !in s.taken
  {
    forall i | 0 <= i < |s.tasks| && s.tasks[i].pc.Running? ensures Published(s, i) <==> i !in s.taken {
      assert TaskRegistered(s, i);
    }
  }

  lemma StaysPublished(s: State, a: Action)
    requires Core(s) && Registry(s) && AllPublished(s) && Enabled(s, a) && PublishedAreRunning(s) && !a.EndInline?
    ensures AllPublished(After(s, a))
  {
    var u := After(s, a);
    StepRegistry(s, a);
    StepSteady(s, a);
    PublishedIffNoneTaken(s);
    forall i | 0 <= i < |u.tasks| && u.tasks[i].pc.Running? ensures i !in u.taken {
      assert TaskRegistered(s, i);
    }
    PublishedIffNoneTaken(u);
  }

  lemma StopUnpublishes(s: State)
    requires Core(s) && Registry(s) && AllPublished(s) && Enabled(s, EndInline) && PublishedAreRunning(s)
    ensures AllPublished(AfterInline(s)) <==> !Unpublishes(s, EndInline)
  {
    var u := AfterInline(s);
    var key := Key(s.config, s.hand.msg);
    if Unpublishes(s, EndInline) {
      var i :| 0 <= i < |s.tasks| && s.tasks[i].pc.Running? && s.tasks[i].key == key;
      assert Published(s, i) && u.tasks[i].pc.Running? && !Published(u, i);
    }
  }

  /** The exact condition, for every step from every reachable state. */
  lemma UnpublishedOnlyByStop(c: Config, actions: seq<Action>, s: State, a: Action)
    requires Leads(Initial(c), actions, s) && AllPublished(s) && Enabled(s, a) && PublishedAreRunning(s)
    ensures AllPublished(After(s, a)) <==> !Unpublishes(s, a)
    ensures Unpublishes(s, a) ==> exists i :: 0 <= i < |s.tasks| && s.tasks[i].pc.Running? && Disowned(s, i)
  {
    ReachedRegistry(c, actions, s);
    if a.EndInline? { StopUnpublishes(s); } else { StaysPublished(s, a); }
    if Unpublishes(s, a) {
      var i :| 0 <= i < |s.tasks| && s.tasks[i].pc.Running? && s.tasks[i].key == Key(s.config, s.hand.msg);
      StopOutlived(s, i);
    }
  }
}
