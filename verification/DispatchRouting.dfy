/** Where a message goes, and in which order queues are served: what each step of the protocol does
    to the tables, said without the functions that compute it. */
module DispatchRouting {
  import opened Transcript
  import opened Dispatch
  import opened DispatchSafety
  import opened DispatchRuns
  import opened DispatchQueues

  /** The message waits at the back of the session's deferred queue. */
  ghost predicate Waits(s: State, u: State, key: string, p: Inbound) {
    && key in u.deferred && u.deferred[key] == (if key in s.deferred then s.deferred[key] else []) + [p]
    && (forall k :: k != key ==> (k in u.deferred <==> k in s.deferred))
    && (forall k :: k in s.deferred && k != key ==> u.deferred[k] == s.deferred[k])
    && u.(hand := s.hand, deferred := s.deferred) == s && u.hand == Empty
  }

  /** The loop itself runs the command; no task is made for it. A stop or a reset asks the registered
      tasks of the session to cancel, and the loop waits for these. */
  ghost predicate RunsAtOnce(s: State, u: State, key: string, m: Inbound) {
    && u.hand.Busy? && u.hand.msg == m
    && u.(hand := s.hand, active := s.active, doomed := s.doomed) == s
    && (forall i :: i in u.hand.waits <==>
          (m.body.Reset? || m.body.StopCommand?) && i in s.active && i < |s.tasks| && s.tasks[i].key == key)
    && u.active == s.active - u.hand.waits && u.doomed == s.doomed + u.hand.waits
  }

  /** The message is the last in the queue of the turn that runs for its session. */
  ghost predicate Folds(s: State, u: State, owner: nat, p: Inbound) {
    && |u.tasks| == |s.tasks| && owner < |s.tasks| && s.tasks[owner].pc.Running?
    && u.tasks[owner] == s.tasks[owner].(pc := Running(s.tasks[owner].pc.queue + [p]))
    && (forall i :: 0 <= i < |s.tasks| && i != owner ==> u.tasks[i] == s.tasks[i])
    && u.(hand := s.hand, tasks := s.tasks) == s && u.hand == Empty
  }

  /** One more task, registered, that has not run yet. */
  ghost predicate GetsTask(s: State, u: State, key: string, p: Inbound) {
    && |u.tasks| == |s.tasks| + 1 && (forall i :: 0 <= i < |s.tasks| ==> u.tasks[i] == s.tasks[i])
    && u.tasks[|s.tasks|].work == FromBus(p) && u.tasks[|s.tasks|].key == key && u.tasks[|s.tasks|].pc == Created
    && u.active == s.active + {|s.tasks|}
    && u.(hand := s.hand, tasks := s.tasks, active := s.active) == s && u.hand == Empty
  }

  /** What becomes of a message that is no control and no priority command. While a turn of its
      session is active: an automation turn waits; a command runs at once, in every mode; where
      messages are injected, text joins the running turn while its queue has room. All else, and
      everything while no turn is active, gets a task of its own. */
  ghost predicate Placed(s: State, u: State)
    requires s.hand.Popped? && PublishedAreRunning(s)
  {
    var m := s.hand.msg;
    var key := Key(s.config, m);
    var p := Pinned(s.config, m);
    var activeTurn := key in s.published;
    if activeTurn && m.automation then Waits(s, u, key, p)
    else if activeTurn && (m.body.Dispatchable? || m.body.Reset?) then RunsAtOnce(s, u, key, m)
    else if activeTurn && s.config.mode == "inject" && |s.tasks[s.published[key]].pc.queue| < 20
    then Folds(s, u, s.published[key], p)
    else GetsTask(s, u, key, p)
  }

  lemma RoutePlaces(s: State)
    requires Enabled(s, RouteIt) && PublishedAreRunning(s)
    ensures Placed(s, AfterRoute(s))
  {
    var m := s.hand.msg;
    var key := Key(s.config, m);
    CommandRunsAtOnce(s, m);
    SpawnGivesTask(s, m);
    if key in s.published && s.config.mode == "inject" {
      FoldsInto(s, s.published[key], Pinned(s.config, m));
    }
  }

  lemma CommandRunsAtOnce(s: State, m: Inbound)
    ensures RunsAtOnce(s, Commanded(s, m), Key(s.config, m), m)
  {
  }

  /** A control or a priority command is never routed: the loop runs it at once, whatever is active. */
  lemma PriorityRunsAtOnce(s: State)
    requires s.hand.Popped? && PublishedAreRunning(s)
    ensures Enabled(s, Begin) <==> !Enabled(s, RouteIt)
    ensures Enabled(s, Begin) <==>
      s.hand.msg.body.Priority? || s.hand.msg.body.StopCommand? || s.hand.msg.body.Control?
    ensures Enabled(s, Begin) ==> RunsAtOnce(s, After(s, Begin), Key(s.config, s.hand.msg), s.hand.msg)
  {
    CommandRunsAtOnce(s, s.hand.msg);
  }

  lemma SpawnGivesTask(s: State, m: Inbound)
    ensures GetsTask(s, Spawned(s, m), Key(s.config, m), Pinned(s.config, m))
  {
  }

  lemma FoldsInto(s: State, i: nat, p: Inbound)
    requires i < |s.tasks| && s.tasks[i].pc.Running?
    ensures Folds(s, WithPc(s, i, Running(s.tasks[i].pc.queue + [p])).(hand := Empty), i, p)
  {
  }

  /** The session a message belongs to: the one it names, else the shared one where sessions are
      unified, else the route it came on. The pinned message names it. */
  lemma SessionOf(c: Config, m: Inbound)
    ensures m.override != "" ==> Key(c, m) == m.override
    ensures m.override == "" && c.unified ==> Key(c, m) == "unified:default"
    ensures m.override == "" && !c.unified ==> Key(c, m) == m.route
    ensures Pinned(c, m).SessionKey() == Key(c, m)
    ensures Pinned(c, m).(override := m.override) == m
  {
  }

  /** In every reachable state a turn of the session is active, for routing, precisely when one runs
      whose queue no stop has taken; and the message goes where it belongs. */
  lemma EachGoesWhereItBelongs(c: Config, actions: seq<Action>, s: State)
    requires Leads(Initial(c), actions, s) && Enabled(s, RouteIt)
    ensures PublishedAreRunning(s) && Placed(s, After(s, RouteIt)) && s.config == c
    ensures Key(c, s.hand.msg) in s.published <==>
      exists i :: 0 <= i < |s.tasks| && TakesInjections(s, i) && s.tasks[i].key == Key(c, s.hand.msg)
  {
    ReachedRegistry(c, actions, s);
    ConfigStays(Initial(c), actions, s);
    OwnersAreRunning(s);
    RoutePlaces(s);
    var key := Key(c, s.hand.msg);
    if key in s.published {
      assert TaskRegistered(s, s.published[key]);
      assert TakesInjections(s, s.published[key]);
    }
    if i :| 0 <= i < |s.tasks| && TakesInjections(s, i) && s.tasks[i].key == key {
      assert TaskRegistered(s, i);
    }
  }

  predicate TakesInjections(s: State, i: nat)
    requires i < |s.tasks|
  {
    s.tasks[i].pc.Running? && i !in s.taken
  }

  // ---------------------------------------------------------------- the order of the queues

  function Waiting(s: State, key: string): seq<Inbound> { if key in s.deferred then s.deferred[key] else [] }

  /** A deferred queue stays, grows at its back by the message the loop holds, or gives its front to
      a task of its session that ends. */
  ghost predicate ServedInOrder(s: State, a: Action, u: State, key: string)
    requires Enabled(s, a)
  {
    var before, after := Waiting(s, key), Waiting(u, key);
    || after == before
    || (a.RouteIt? && Key(s.config, s.hand.msg) == key && after == before + [Pinned(s.config, s.hand.msg)])
    || (a.Pick? && s.tasks[a.task].key == key && before != [] && after == before[1..]
        && a.task < |u.tasks| && u.tasks[a.task].pc.Putting? && u.tasks[a.task].pc.held == before[0])
  }

  lemma PickServes(s: State, i: nat, key: string)
    requires Core(s) && Enabled(s, Pick(i))
    ensures ServedInOrder(s, Pick(i), AfterPick(s, i), key)
  {
    if s.tasks[i].key in s.deferred {
      assert QueueOk(s.config, s.tasks[i].key, s.deferred[s.tasks[i].key]);
    }
  }

  lemma RouteServes(s: State, key: string)
    requires Enabled(s, RouteIt) && PublishedAreRunning(s)
    ensures ServedInOrder(s, RouteIt, AfterRoute(s), key)
  {
    RoutePlaces(s);
  }

  lemma LoopServes(s: State, a: Action)
    requires Enabled(s, a) && PublishedAreRunning(s)
    requires a.Arrive? || a.Consume? || a.Begin? || a.CallDirect? || a.Collect? || a.ResetIn? || a.CloseAll?
    ensures After(s, a).deferred == s.deferred
  {
  }

  lemma TurnServes(s: State, a: Action)
    requires Enabled(s, a) && PublishedAreRunning(s)
    requires a.Start? || a.TakeLock? || a.TakeGate? || a.Drain? || a.Release?
    ensures After(s, a).deferred == s.deferred
  {
  }

  lemma HandServes(s: State, a: Action)
    requires Enabled(s, a) && PublishedAreRunning(s)
    requires a.EndInline? || a.PutBack? || a.Put?
    ensures After(s, a).deferred == s.deferred
  {
  }

  lemma EndServes(s: State, i: nat)
    requires i < |s.tasks|
    ensures Enabled(s, Finish(i)) ==> AfterFinish(s, i).deferred == s.deferred
    ensures Enabled(s, Cancel(i)) ==> AfterCancel(s, i).deferred == s.deferred
  {
  }

  /** Deferred turns of a session are served first come, first served, in every reachable state. */
  lemma DeferredInOrder(c: Config, actions: seq<Action>, s: State, a: Action, key: string)
    requires Leads(Initial(c), actions, s) && Enabled(s, a)
    ensures PublishedAreRunning(s) && ServedInOrder(s, a, After(s, a), key)
  {
    StartsSafe(c);
    RunKeepsInv(Initial(c), actions, s);
    OwnersAreRunning(s);
    match a
    case Pick(i) => PickServes(s, i, key);
    case RouteIt => RouteServes(s, key);
    case EndInline => HandServes(s, a);
    case Finish(i) => EndServes(s, i);
    case Cancel(i) => EndServes(s, i);
    case PutBack(_) => HandServes(s, a);
    case Put(_) => HandServes(s, a);
    case Start(_) => TurnServes(s, a);
    case TakeLock(_) => TurnServes(s, a);
    case TakeGate(_) => TurnServes(s, a);
    case Drain(_) => TurnServes(s, a);
    case Release(_) => TurnServes(s, a);
    case _ => LoopServes(s, a);
  }

  /** What waits for a running turn stays, grows at its back by the message the loop holds, gives its
      front to the turn, is taken whole by a stop, or is left whole when the turn ends. */
  ghost predicate TakenInOrder(s: State, a: Action, u: State, i: nat)
    requires Enabled(s, a) && i < |s.tasks| && s.tasks[i].pc.Running?
  {
    i < |u.tasks| &&
    var q, pc := s.tasks[i].pc.queue, u.tasks[i].pc;
    || pc == s.tasks[i].pc
    || (a.RouteIt? && pc == Running(q + [Pinned(s.config, s.hand.msg)]))
    || (a == Drain(i) && q != [] && pc == Running(q[1..]) && u.consumed == s.consumed + [q[0]])
    || (a.EndInline? && pc == Running([]) && u.cancelled == s.cancelled + q)
    || ((a == Finish(i) || a == Cancel(i)) && pc == (if s.tasks[i].work.FromBus? then Draining(q) else Done))
  }

  lemma OtherTask(s: State, a: Action, i: nat)
    requires Enabled(s, a) && PublishedAreRunning(s) && HasTask(s, a) && i < |s.tasks|
    requires a.Start? || a.TakeLock? || a.TakeGate? || a.Drain? || a.Release?
    requires a.task != i
    ensures i < |After(s, a).tasks| && After(s, a).tasks[i] == s.tasks[i]
  {
  }

  lemma OtherEnd(s: State, j: nat, i: nat)
    requires j < |s.tasks| && i < |s.tasks| && i != j
    ensures Enabled(s, Finish(j)) ==> i < |AfterFinish(s, j).tasks| && AfterFinish(s, j).tasks[i] == s.tasks[i]
    ensures Enabled(s, Cancel(j)) ==> i < |AfterCancel(s, j).tasks| && AfterCancel(s, j).tasks[i] == s.tasks[i]
  {
  }

  lemma OtherHander(s: State, a: Action, i: nat)
    requires Enabled(s, a) && PublishedAreRunning(s) && HasTask(s, a) && i < |s.tasks|
    requires a.PutBack? || a.Pick? || a.Put?
    requires a.task != i
    ensures i < |After(s, a).tasks| && After(s, a).tasks[i] == s.tasks[i]
  {
  }

  lemma RouteTakes(s: State, i: nat)
    requires Enabled(s, RouteIt) && PublishedAreRunning(s) && i < |s.tasks| && s.tasks[i].pc.Running?
    ensures TakenInOrder(s, RouteIt, AfterRoute(s), i)
  {
    RoutePlaces(s);
  }

  lemma OwnTurnTakes(s: State, a: Action, i: nat)
    requires Core(s) && Enabled(s, a) && PublishedAreRunning(s) && i < |s.tasks| && s.tasks[i].pc.Running?
    requires a == Drain(i) || a == Finish(i) || a == Cancel(i)
    ensures TakenInOrder(s, a, After(s, a), i)
  {
    assert TaskOk(s.config, s.tasks[i]);
  }

  lemma InlineTakes(s: State, i: nat)
    requires Enabled(s, EndInline) && PublishedAreRunning(s) && i < |s.tasks| && s.tasks[i].pc.Running?
    ensures TakenInOrder(s, EndInline, AfterInline(s), i)
  {
  }

  lemma LoopTakes(s: State, a: Action, i: nat)
    requires Enabled(s, a) && PublishedAreRunning(s) && i < |s.tasks|
    requires a.Arrive? || a.Consume? || a.Begin? || a.CallDirect? || a.Collect? || a.ResetIn? || a.CloseAll?
    ensures i < |After(s, a).tasks| && After(s, a).tasks[i] == s.tasks[i]
  {
  }

  /** A running turn is given what was injected first come, first served, in every reachable state. */
  lemma InjectedInOrder(c: Config, actions: seq<Action>, s: State, a: Action, i: nat)
    requires Leads(Initial(c), actions, s) && Enabled(s, a) && i < |s.tasks| && s.tasks[i].pc.Running?
    ensures PublishedAreRunning(s) && TakenInOrder(s, a, After(s, a), i)
  {
    StartsSafe(c);
    RunKeepsInv(Initial(c), actions, s);
    OwnersAreRunning(s);
    if a.RouteIt? { RouteTakes(s, i); }
    else if a.EndInline? { InlineTakes(s, i); }
    else if a == Drain(i) || a == Finish(i) || a == Cancel(i) { OwnTurnTakes(s, a, i); }
    else { Unmoved(s, a, i); }
  }

  lemma Unmoved(s: State, a: Action, i: nat)
    requires Enabled(s, a) && PublishedAreRunning(s) && i < |s.tasks| && s.tasks[i].pc.Running?
    requires !a.RouteIt? && !a.EndInline? && a != Drain(i) && a != Finish(i) && a != Cancel(i)
    ensures i < |After(s, a).tasks| && After(s, a).tasks[i] == s.tasks[i]
  {
    match a
    case Drain(_) => OtherTask(s, a, i);
    case Finish(j) => OtherEnd(s, j, i);
    case Cancel(j) => OtherEnd(s, j, i);
    case Start(_) => OtherTask(s, a, i);
    case TakeLock(_) => OtherTask(s, a, i);
    case TakeGate(_) => OtherTask(s, a, i);
    case Release(_) => OtherTask(s, a, i);
    case PutBack(_) => OtherHander(s, a, i);
    case Pick(_) => OtherHander(s, a, i);
    case Put(_) => OtherHander(s, a, i);
    case _ => LoopTakes(s, a, i);
  }
}
