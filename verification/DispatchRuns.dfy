/** Whole runs of the dispatch protocol: what holds in every reachable state, and when a
    deferred automation turn can be left behind. */
module DispatchRuns {
  import opened Transcript
  import opened Dispatch
  import opened DispatchSafety

  ghost predicate Inv(s: State) {
    Core(s) && PermitsBalance(s) && forall id :: Conserved(s, id)
  }

  lemma StartsSafe(c: Config)
    ensures Inv(Initial(c))
  {
  }

  lemma StepKeepsInv(s: State, a: Action)
    requires Inv(s) && Enabled(s, a)
    ensures PublishedAreRunning(s) && Inv(After(s, a))
  {
    OwnersAreRunning(s);
    StepCore(s, a);
    StepPermits(s, a);
    forall id: nat ensures Conserved(After(s, a), id) {
      StepConserves(s, a, id);
    }
  }

  /** The enabled actions lead from s to t, one after the other. */
  ghost predicate Leads(s: State, actions: seq<Action>, t: State)
    decreases |actions|
  {
    if actions == [] then t == s
    else Enabled(s, actions[0]) && PublishedAreRunning(s) && Leads(After(s, actions[0]), actions[1..], t)
  }

  lemma {:induction false} RunKeepsInv(s: State, actions: seq<Action>, t: State)
    requires Inv(s) && Leads(s, actions, t)
    ensures Inv(t)
    decreases |actions|
  {
    if actions != [] {
      StepKeepsInv(s, actions[0]);
      RunKeepsInv(After(s, actions[0]), actions[1..], t);
    }
  }

  // ---------------------------------------------------------------- the guarantees

  /** Turns of one session never overlap, and they share one lock whatever the weak map
      collected meanwhile. */
  lemma OneTurnPerSession(c: Config, actions: seq<Action>, s: State, i: nat, j: nat)
    requires Leads(Initial(c), actions, s) && i < j < |s.tasks|
    ensures HoldsLock(s.tasks[i]) && HoldsLock(s.tasks[j]) ==> s.tasks[i].key != s.tasks[j].key
    ensures RefersToLock(s.tasks[i]) && RefersToLock(s.tasks[j]) ==>
      (s.tasks[i].lock == s.tasks[j].lock <==> s.tasks[i].key == s.tasks[j].key)
  {
    StartsSafe(c);
    RunKeepsInv(Initial(c), actions, s);
    assert LocksShared(s) && LocksDistinct(s);
  }

  lemma GateBoundsTurns(c: Config, actions: seq<Action>, s: State)
    requires Leads(Initial(c), actions, s) && c.limit.Some?
    ensures Gates(s.tasks) <= c.limit.value
  {
    StartsSafe(c);
    RunKeepsInv(Initial(c), actions, s);
    ConfigStays(Initial(c), actions, s);
  }

  /** Only a stop that ends takes queues, and who runs waited at the gate before. */
  ghost predicate Steady(s: State, u: State) {
    && u.config == s.config && u.taken == s.taken
    && forall i :: 0 <= i < |u.tasks| && u.tasks[i].pc.Running? ==>
      i < |s.tasks| && (s.tasks[i].pc.Running? || s.tasks[i].pc.WaitGate?)
  }

  /** Nobody was taken out of the registry by itself or by the shutdown. */
  predicate SameOwners(s: State, u: State) { u.resets == s.resets && u.closed == s.closed }

  lemma SpawnSteady(s: State, m: Inbound)
    ensures Steady(s, Spawned(s, m)) && SameOwners(s, Spawned(s, m))
    ensures Steady(s, Commanded(s, m)) && SameOwners(s, Commanded(s, m))
  {
  }

  lemma RouteSteady(s: State)
    requires Enabled(s, RouteIt) && PublishedAreRunning(s)
    ensures Steady(s, AfterRoute(s)) && SameOwners(s, AfterRoute(s))
  {
    var m := s.hand.msg;
    var key := Key(s.config, m);
    SpawnSteady(s, m);
    if key in s.published {
      var owner := s.published[key];
      assert Steady(s, WithPc(s, owner, Running(s.tasks[owner].pc.queue + [Pinned(s.config, m)])).(hand := Empty));
    }
  }

  lemma LoopSteady(s: State, a: Action)
    requires Enabled(s, a) && PublishedAreRunning(s)
    requires a.Arrive? || a.Consume? || a.Begin? || a.CallDirect? || a.Collect? || a.ResetIn? || a.CloseAll?
    ensures Steady(s, After(s, a)) && (a.ResetIn? || a.CloseAll? || SameOwners(s, After(s, a)))
  {
  }

  lemma TurnSteady(s: State, a: Action)
    requires Enabled(s, a) && PublishedAreRunning(s)
    requires a.Start? || a.TakeLock? || a.TakeGate? || a.Drain? || a.Release?
    ensures Steady(s, After(s, a)) && SameOwners(s, After(s, a))
  {
  }

  lemma EndTurnSteady(s: State, i: nat)
    requires i < |s.tasks| && s.tasks[i].pc.Running?
    ensures Steady(s, EndTurn(s, i)) && SameOwners(s, EndTurn(s, i))
  {
  }

  lemma FinishSteady(s: State, i: nat)
    requires Enabled(s, Finish(i))
    ensures Steady(s, AfterFinish(s, i)) && SameOwners(s, AfterFinish(s, i))
  {
    if s.tasks[i].pc.Running? { EndTurnSteady(s, i); }
  }

  lemma CancelSteady(s: State, i: nat)
    requires Enabled(s, Cancel(i))
    ensures Steady(s, AfterCancel(s, i)) && SameOwners(s, AfterCancel(s, i))
  {
    if s.tasks[i].pc.Running? { EndTurnSteady(s, i); }
  }

  lemma HandingSteady(s: State, i: nat)
    requires i < |s.tasks|
    ensures Enabled(s, PutBack(i)) ==> Steady(s, AfterPutBack(s, i)) && SameOwners(s, AfterPutBack(s, i))
    ensures Enabled(s, Pick(i)) ==> Steady(s, AfterPick(s, i)) && SameOwners(s, AfterPick(s, i))
    ensures Enabled(s, Put(i)) ==> Steady(s, AfterPut(s, i)) && SameOwners(s, AfterPut(s, i))
  {
  }

  lemma InlineOwners(s: State)
    requires Enabled(s, EndInline) && PublishedAreRunning(s)
    ensures SameOwners(s, AfterInline(s))
  {
  }

  lemma StepSteady(s: State, a: Action)
    requires Enabled(s, a) && PublishedAreRunning(s)
    ensures a.EndInline? || Steady(s, After(s, a))
    ensures a.ResetIn? || a.CloseAll? || SameOwners(s, After(s, a))
  {
    match a
    case RouteIt => RouteSteady(s);
    case EndInline => InlineOwners(s);
    case Start(_) => TurnSteady(s, a);
    case TakeLock(_) => TurnSteady(s, a);
    case TakeGate(_) => TurnSteady(s, a);
    case Drain(_) => TurnSteady(s, a);
    case Release(_) => TurnSteady(s, a);
    case Finish(i) => FinishSteady(s, i);
    case Cancel(i) => CancelSteady(s, i);
    case PutBack(i) => HandingSteady(s, i);
    case Pick(i) => HandingSteady(s, i);
    case Put(i) => HandingSteady(s, i);
    case _ => LoopSteady(s, a);
  }

  lemma {:induction false} ConfigStays(s: State, actions: seq<Action>, t: State)
    requires Leads(s, actions, t)
    ensures t.config == s.config
    decreases |actions|
  {
    if actions != [] {
      StepSteady(s, actions[0]);
      ConfigStays(After(s, actions[0]), actions[1..], t);
    }
  }

  /** A published queue belongs to the one running turn of that session, which holds its
      lock. */
  lemma QueueOwnerHoldsLock(c: Config, actions: seq<Action>, s: State, key: string)
    requires Leads(Initial(c), actions, s) && key in s.published
    ensures s.published[key] < |s.tasks|
    ensures var owner := s.tasks[s.published[key]];
      owner.pc.Running? && owner.key == key && HoldsLock(owner) && key in s.locks && s.locks[key] == owner.lock
    ensures |s.tasks[s.published[key]].pc.queue| <= PENDING_QUEUE_SIZE
    ensures forall i :: 0 <= i < |s.tasks| && s.tasks[i].pc.Running? && s.tasks[i].key == key ==> i == s.published[key]
  {
    StartsSafe(c);
    RunKeepsInv(Initial(c), actions, s);
    var owner := s.tasks[s.published[key]];
    assert TaskOk(s.config, owner) && RefersToLock(owner);
  }

  /** A message that arrived once is in exactly one place: on the bus, in the loop's hand, in
      one task, in one deferred queue, consumed or cancelled. */
  lemma NothingLost(c: Config, actions: seq<Action>, s: State, id: nat)
    requires Leads(Initial(c), actions, s)
    ensures Count(s.bus, id) + InHand(s.hand, id) + InTasks(s.tasks, id) + InQueues(s.deferred, id)
            + Count(s.consumed, id) + Count(s.cancelled, id) == s.arrived[id]
  {
    StartsSafe(c);
    RunKeepsInv(Initial(c), actions, s);
    assert Conserved(s, id);
  }

  /** Each kind of message stays out of the queues of the others: what is injected into a turn is
      plain text for its session that no schedule sent, and only in the mode that injects; what
      is deferred are automation turns of its session that are no command for the loop. */
  lemma QueuesHoldTheirKind(c: Config, actions: seq<Action>, s: State)
    requires Leads(Initial(c), actions, s)
    ensures forall i, m :: 0 <= i < |s.tasks| && s.tasks[i].pc.Running? && m in s.tasks[i].pc.queue ==>
      c.mode == "inject" && Key(c, m) == s.tasks[i].key && !m.automation && m.body.Plain?
    ensures forall k, m :: k in s.deferred && m in s.deferred[k] ==>
      Key(c, m) == k && m.automation && !m.Inline()
  {
    StartsSafe(c);
    RunKeepsInv(Initial(c), actions, s);
    ConfigStays(Initial(c), actions, s);
    forall i, m | 0 <= i < |s.tasks| && s.tasks[i].pc.Running? && m in s.tasks[i].pc.queue
      ensures Injectable(c, s.tasks[i].key, m)
    {
      assert TaskOk(s.config, s.tasks[i]);
    }
    forall k, m | k in s.deferred && m in s.deferred[k] ensures Deferrable(c, k, m) {
      assert QueueOk(s.config, k, s.deferred[k]);
    }
  }

  // ---------------------------------------------------------------- deferred turns

  /** Somebody will look at the deferred queue of the session again: a task other than the
      excepted one that has not handed on yet, or a re-published turn of it. */
  ghost predicate Carried(s: State, key: string, except: int) {
    || (exists i :: 0 <= i < |s.tasks| && i != except && WillHand(s.tasks[i]) && s.tasks[i].key == key)
    || (exists m :: m in s.bus && Deferrable(s.config, key, m))
    || (s.hand.Popped? && Deferrable(s.config, key, s.hand.msg))
  }

  ghost predicate NoStranded(s: State) {
    forall key :: key in s.deferred ==> Carried(s, key, -1)
  }

  /** The step that leaves deferred turns behind: a task that has not run yet is cancelled,
      so its cleanup never runs, and it was the last to look at the queue. */
  ghost predicate Strands(s: State, a: Action)
    requires Enabled(s, a)
  {
    && a.Cancel? && s.tasks[a.task].pc.Created?
    && s.tasks[a.task].key in s.deferred && !Carried(s, s.tasks[a.task].key, a.task)
  }

  lemma CarriedByTask(s: State, key: string, i: nat)
    requires i < |s.tasks| && WillHand(s.tasks[i]) && s.tasks[i].key == key
    ensures Carried(s, key, -1)
  {
  }

  lemma CarriedByBus(s: State, key: string, m: Inbound)
    requires m in s.bus && Deferrable(s.config, key, m)
    ensures Carried(s, key, -1)
  {
  }

  /** Tasks keep their place and their session; all but one keep looking. */
  lemma StillCarried(s: State, u: State, key: string, i: int)
    requires Carried(s, key, i) && u.config == s.config && |s.tasks| <= |u.tasks|
    requires forall j :: 0 <= j < |s.tasks| && j != i && WillHand(s.tasks[j]) ==>
      WillHand(u.tasks[j]) && u.tasks[j].key == s.tasks[j].key
    requires forall m :: m in s.bus ==> m in u.bus
    requires u.hand == s.hand || (s.hand.Popped? && s.hand.msg.Inline()) || !s.hand.Popped?
    ensures Carried(u, key, -1)
  {
    if j :| 0 <= j < |s.tasks| && j != i && WillHand(s.tasks[j]) && s.tasks[j].key == key {
      CarriedByTask(u, key, j);
    } else if m :| m in s.bus && Deferrable(s.config, key, m) {
      CarriedByBus(u, key, m);
    }
  }

  lemma CarriedElsewhere(s: State, key: string, i: nat)
    requires Carried(s, key, -1) && i < |s.tasks| && (s.tasks[i].key != key || !WillHand(s.tasks[i]))
    ensures Carried(s, key, i)
  {
  }

  /** The tasks after routing: the same, one more, or one with a longer queue. */
  ghost predicate Routed(s: State, u: State) {
    && u.bus == s.bus && u.config == s.config
    && (|| u.tasks == s.tasks
        || (|u.tasks| == |s.tasks| + 1 && u.tasks[..|s.tasks|] == s.tasks)
        || exists i, queue ::
             0 <= i < |s.tasks| && u.tasks == s.tasks[i := s.tasks[i].(pc := Running(queue))] && s.tasks[i].pc.Running?)
  }

  lemma RouteTasks(s: State)
    requires Enabled(s, RouteIt) && PublishedAreRunning(s)
    ensures Routed(s, AfterRoute(s))
  {
    var m := s.hand.msg;
    var key := Key(s.config, m);
    if m.automation && key in s.published {
      assert AfterRoute(s).tasks == s.tasks;
    } else if key in s.published {
      var i := s.published[key];
      var queue := s.tasks[i].pc.queue + [Pinned(s.config, m)];
      assert AfterRoute(s) == Commanded(s, m) || AfterRoute(s) == Spawned(s, m)
          || AfterRoute(s) == WithPc(s, i, Running(queue)).(hand := Empty);
    } else {
      assert AfterRoute(s) == Spawned(s, m);
    }
  }

  /** Routing keeps the bus and every task; it adds at most one. */
  lemma RouteShape(s: State)
    requires Core(s) && Enabled(s, RouteIt) && PublishedAreRunning(s)
    ensures var u := AfterRoute(s);
      && u.bus == s.bus && u.config == s.config && |s.tasks| <= |u.tasks|
      && forall j :: 0 <= j < |s.tasks| && WillHand(s.tasks[j]) ==> WillHand(u.tasks[j]) && u.tasks[j].key == s.tasks[j].key
  {
    RouteTasks(s);
    var tasks := AfterRoute(s).tasks;
    assert |s.tasks| <= |tasks|;
    forall j | 0 <= j < |s.tasks| && WillHand(s.tasks[j]) ensures WillHand(tasks[j]) && tasks[j].key == s.tasks[j].key {
      if |tasks| == |s.tasks| + 1 { assert tasks[j] == tasks[..|s.tasks|][j]; }
    }
  }

  /** An automation turn gets a task, or its session has a running one. */
  lemma RoutedTurn(s: State)
    requires Core(s) && Enabled(s, RouteIt) && PublishedAreRunning(s)
    requires s.hand.msg.automation || Key(s.config, s.hand.msg) in s.published
    ensures Carried(AfterRoute(s), Key(s.config, s.hand.msg), -1)
  {
    var key := Key(s.config, s.hand.msg);
    RouteShape(s);
    CarriedByTask(AfterRoute(s), key, if key in s.published then s.published[key] else |s.tasks|);
  }

  lemma RouteStrandsNothing(s: State)
    requires Core(s) && NoStranded(s) && Enabled(s, RouteIt) && PublishedAreRunning(s)
    ensures NoStranded(AfterRoute(s))
  {
    var u := AfterRoute(s);
    RouteDefers(s);
    forall key | key in u.deferred ensures Carried(u, key, -1) {
      if key == Key(s.config, s.hand.msg) && (s.hand.msg.automation || key in s.published) {
        RoutedTurn(s);
      } else {
        RouteKeepsCarried(s, key);
      }
    }
  }

  /** Routing defers only an automation turn of an active session. */
  lemma RouteDefers(s: State)
    requires Enabled(s, RouteIt) && PublishedAreRunning(s)
    ensures forall key :: key in AfterRoute(s).deferred ==>
      key in s.deferred || (key == Key(s.config, s.hand.msg) && s.hand.msg.automation && key in s.published)
  {
  }

  lemma RouteKeepsCarried(s: State, key: string)
    requires Core(s) && Enabled(s, RouteIt) && PublishedAreRunning(s) && Carried(s, key, -1)
    requires !Deferrable(s.config, key, s.hand.msg)
    ensures Carried(AfterRoute(s), key, -1)
  {
    var u := AfterRoute(s);
    RouteShape(s);
    if j :| 0 <= j < |s.tasks| && WillHand(s.tasks[j]) && s.tasks[j].key == key {
      CarriedByTask(u, key, j);
    } else {
      var m :| m in s.bus && Deferrable(s.config, key, m);
      CarriedByBus(u, key, m);
    }
  }

  lemma PickStrandsNothing(s: State, i: nat)
    requires Core(s) && NoStranded(s) && Enabled(s, Pick(i))
    ensures NoStranded(AfterPick(s, i))
  {
    var u := AfterPick(s, i);
    assert TaskOk(s.config, s.tasks[i]);
    forall key | key in u.deferred ensures Carried(u, key, -1) {
      if key == s.tasks[i].key {
        assert QueueOk(s.config, key, s.deferred[key]);
        CarriedByTask(u, key, i);
      } else {
        CarriedElsewhere(s, key, i);
        StillCarried(s, u, key, i);
      }
    }
  }

  lemma PutStrandsNothing(s: State, i: nat)
    requires Core(s) && NoStranded(s) && Enabled(s, Put(i))
    ensures NoStranded(AfterPut(s, i))
  {
    var u := AfterPut(s, i);
    assert TaskOk(s.config, s.tasks[i]);
    forall key | key in u.deferred ensures Carried(u, key, -1) {
      if key == s.tasks[i].key {
        CarriedByBus(u, key, s.tasks[i].pc.held);
      } else {
        CarriedElsewhere(s, key, i);
        StillCarried(s, u, key, i);
      }
    }
  }

  lemma CancelStrandsNothing(s: State, i: nat)
    requires Core(s) && NoStranded(s) && Enabled(s, Cancel(i)) && !Strands(s, Cancel(i))
    ensures NoStranded(AfterCancel(s, i))
  {
    var u := AfterCancel(s, i);
    assert TaskOk(s.config, s.tasks[i]);
    forall key | key in u.deferred ensures Carried(u, key, -1) {
      if s.tasks[i].pc.Created? {
        if key != s.tasks[i].key { CarriedElsewhere(s, key, i); }
        StillCarried(s, u, key, i);
      } else {
        StillCarried(s, u, key, -1);
      }
    }
  }

  lemma CancelledIsGone(s: State, i: nat, key: string)
    requires Core(s) && Enabled(s, Cancel(i)) && s.tasks[i].pc.Created? && Carried(AfterCancel(s, i), key, -1)
    ensures Carried(s, key, i)
  {
    assert TaskOk(s.config, s.tasks[i]);
  }

  lemma StrandedByCancel(s: State, i: nat)
    requires Core(s) && Enabled(s, Cancel(i)) && Strands(s, Cancel(i))
    ensures !NoStranded(AfterCancel(s, i))
  {
    var u := AfterCancel(s, i);
    var key := s.tasks[i].key;
    assert TaskOk(s.config, s.tasks[i]) && key in u.deferred;
    if Carried(u, key, -1) { CancelledIsGone(s, i, key); }
  }

  lemma LoopStrandsNothing(s: State, a: Action)
    requires Core(s) && NoStranded(s) && Enabled(s, a) && PublishedAreRunning(s)
    requires a.Arrive? || a.Begin? || a.CallDirect? || a.Collect? || a.ResetIn? || a.CloseAll?
    ensures NoStranded(After(s, a))
  {
    forall key | key in After(s, a).deferred ensures Carried(After(s, a), key, -1) {
      StillCarried(s, After(s, a), key, -1);
    }
  }

  lemma InlineStrandsNothing(s: State)
    requires Core(s) && NoStranded(s) && Enabled(s, EndInline) && PublishedAreRunning(s)
    ensures NoStranded(AfterInline(s))
  {
    var u := AfterInline(s);
    assert |u.tasks| == |s.tasks| && u.bus == s.bus;
    forall key | key in u.deferred ensures Carried(u, key, -1) {
      StillCarried(s, u, key, -1);
    }
  }

  lemma ConsumeStrandsNothing(s: State)
    requires NoStranded(s) && Enabled(s, Consume) && PublishedAreRunning(s)
    ensures NoStranded(After(s, Consume))
  {
    var u := After(s, Consume);
    forall key | key in u.deferred ensures Carried(u, key, -1) {
      if j :| 0 <= j < |s.tasks| && WillHand(s.tasks[j]) && s.tasks[j].key == key {
        CarriedByTask(u, key, j);
      } else if m :| m in s.bus && Deferrable(s.config, key, m) {
        if m in s.bus[1..] { CarriedByBus(u, key, m); }
      }
    }
  }

  lemma TurnStrandsNothing(s: State, a: Action)
    requires Core(s) && NoStranded(s) && Enabled(s, a) && PublishedAreRunning(s)
    requires a.Start? || a.TakeLock? || a.TakeGate? || a.Drain?
    ensures NoStranded(After(s, a))
  {
    assert TaskOk(s.config, s.tasks[a.task]);
    forall key | key in After(s, a).deferred ensures Carried(After(s, a), key, -1) {
      StillCarried(s, After(s, a), key, -1);
    }
  }

  lemma FinishStrandsNothing(s: State, i: nat)
    requires Core(s) && NoStranded(s) && Enabled(s, Finish(i)) && PublishedAreRunning(s)
    ensures NoStranded(AfterFinish(s, i))
  {
    assert TaskOk(s.config, s.tasks[i]);
    forall key | key in AfterFinish(s, i).deferred ensures Carried(AfterFinish(s, i), key, -1) {
      StillCarried(s, AfterFinish(s, i), key, -1);
    }
  }

  lemma CleanupStrandsNothing(s: State, a: Action)
    requires Core(s) && NoStranded(s) && Enabled(s, a) && PublishedAreRunning(s)
    requires a.PutBack? || a.Release?
    ensures NoStranded(After(s, a))
  {
    assert TaskOk(s.config, s.tasks[a.task]);
    forall key | key in After(s, a).deferred ensures Carried(After(s, a), key, -1) {
      StillCarried(s, After(s, a), key, -1);
    }
  }

  /** The exact condition, for every step from every safe state. */
  lemma StrandedOnlyByUnstartedCancel(s: State, a: Action)
    requires Inv(s) && NoStranded(s) && Enabled(s, a) && PublishedAreRunning(s)
    ensures NoStranded(After(s, a)) <==> !Strands(s, a)
  {
    match a
    case RouteIt => RouteStrandsNothing(s);
    case Pick(i) => PickStrandsNothing(s, i);
    case Put(i) => PutStrandsNothing(s, i);
    case Cancel(i) => if Strands(s, a) { StrandedByCancel(s, i); } else { CancelStrandsNothing(s, i); }
    case Consume => ConsumeStrandsNothing(s);
    case Arrive(_) => LoopStrandsNothing(s, a);
    case Begin => LoopStrandsNothing(s, a);
    case EndInline => InlineStrandsNothing(s);
    case ResetIn(_) => LoopStrandsNothing(s, a);
    case CloseAll => LoopStrandsNothing(s, a);
    case CallDirect(_) => LoopStrandsNothing(s, a);
    case Collect(_) => LoopStrandsNothing(s, a);
    case Finish(i) => FinishStrandsNothing(s, i);
    case PutBack(_) => CleanupStrandsNothing(s, a);
    case Release(_) => CleanupStrandsNothing(s, a);
    case _ => TurnStrandsNothing(s, a);
  }

  /** A run in which every cancelled task had started. */
  ghost predicate CancelsStarted(s: State, actions: seq<Action>, t: State)
    requires Leads(s, actions, t)
    decreases |actions|
  {
    actions != [] ==>
      && (actions[0].Cancel? ==> !s.tasks[actions[0].task].pc.Created?)
      && CancelsStarted(After(s, actions[0]), actions[1..], t)
  }

  /** No deferred turn is left behind, whatever the interleaving. */
  lemma {:induction false} NothingStranded(s: State, actions: seq<Action>, t: State)
    requires Inv(s) && NoStranded(s) && Leads(s, actions, t) && CancelsStarted(s, actions, t)
    ensures NoStranded(t)
    decreases |actions|
  {
    if actions != [] {
      StepKeepsInv(s, actions[0]);
      StrandedOnlyByUnstartedCancel(s, actions[0]);
      NothingStranded(After(s, actions[0]), actions[1..], t);
    }
  }
}
