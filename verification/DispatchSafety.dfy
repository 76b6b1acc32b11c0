/** What every interleaving of the dispatch protocol keeps: turns of one session exclude each
    other, the gate bounds the turns, a published queue belongs to the holder of its session
    lock, and no message is lost or doubled. */
module DispatchSafety {
  import opened Transcript
  import opened Dispatch

  // ---------------------------------------------------------------- the invariant

  /** An injected message: of this session, in a mode that injects, neither an automation turn
      nor any command. */
  predicate Injectable(c: Config, key: string, m: Inbound) {
    Key(c, m) == key && !m.automation && m.body.Plain? && c.mode == "inject"
  }

  ghost predicate AllInjectable(c: Config, key: string, ms: seq<Inbound>) {
    forall m :: m in ms ==> Injectable(c, key, m)
  }

  /** A deferred message: an automation turn of this session that the loop did not handle. */
  predicate Deferrable(c: Config, key: string, m: Inbound) {
    m.automation && !m.Inline() && Key(c, m) == key
  }

  ghost predicate TaskOk(c: Config, t: Task) {
    match t.work
    case Direct => t.pc.WaitLock? || t.pc.DirectRun? || t.pc.Done?
    case FromBus(m) =>
      && Key(c, m) == t.key && !t.pc.DirectRun?
      && (t.pc.Running? ==> |t.pc.queue| <= PENDING_QUEUE_SIZE && AllInjectable(c, t.key, t.pc.queue))
      && (t.pc.Draining? ==> AllInjectable(c, t.key, t.pc.left))
      && (t.pc.Putting? ==> Deferrable(c, t.key, t.pc.held))
  }

  ghost predicate TasksOk(s: State) {
    forall i :: 0 <= i < |s.tasks| ==> TaskOk(s.config, s.tasks[i])
  }

  /** Every task that refers to a lock refers to the one in the weak map. */
  ghost predicate LocksShared(s: State) {
    forall i :: 0 <= i < |s.tasks| && RefersToLock(s.tasks[i]) ==>
      s.tasks[i].key in s.locks && s.locks[s.tasks[i].key] == s.tasks[i].lock
  }

  ghost predicate LocksDistinct(s: State) {
    && (forall k :: k in s.locks ==> s.locks[k] < s.nextLock)
    && (forall j, k :: j in s.locks && k in s.locks && s.locks[j] == s.locks[k] ==> j == k)
  }

  /** At most one turn of a session is between its lock and its release. */
  ghost predicate Exclusive(s: State) {
    forall i, j :: 0 <= i < j < |s.tasks| && HoldsLock(s.tasks[i]) && HoldsLock(s.tasks[j]) ==>
      s.tasks[i].key != s.tasks[j].key
  }

  ghost predicate PublishedByOwner(s: State) {
    forall k :: k in s.published ==>
      && s.published[k] < |s.tasks| && s.tasks[s.published[k]].pc.Running?
      && s.tasks[s.published[k]].key == k && s.tasks[s.published[k]].work.FromBus?
  }

  function Gates(tasks: seq<Task>): nat {
    if tasks == [] then 0 else (if HoldsGate(tasks[0]) then 1 else 0) + Gates(tasks[1..])
  }

  ghost predicate PermitsBalance(s: State) {
    s.config.limit.Some? ==> s.permits + Gates(s.tasks) == s.config.limit.value
  }

  ghost predicate QueueOk(c: Config, key: string, queue: seq<Inbound>) {
    queue != [] && forall m :: m in queue ==> Deferrable(c, key, m)
  }

  ghost predicate DeferredOk(s: State) {
    forall k :: k in s.deferred ==> QueueOk(s.config, k, s.deferred[k])
  }

  // Where a message is: how often its id occurs in each place.

  function Is(m: Inbound, id: nat): nat { if m.id == id then 1 else 0 }

  function Count(ms: seq<Inbound>, id: nat): nat {
    if ms == [] then 0 else Is(ms[0], id) + Count(ms[1..], id)
  }

  function InTask(t: Task, id: nat): nat {
    match t.pc
    case Running(queue) => (if t.work.FromBus? then Is(t.work.msg, id) else 0) + Count(queue, id)
    case Draining(left) => Count(left, id)
    case Putting(held, _) => Is(held, id)
    case _ => if t.work.FromBus? && InTurn(t.pc) then Is(t.work.msg, id) else 0
  }

  function InTasks(tasks: seq<Task>, id: nat): nat {
    if tasks == [] then 0 else InTask(tasks[0], id) + InTasks(tasks[1..], id)
  }

  function InHand(h: Hand, id: nat): nat {
    if h.Empty? then 0 else Is(h.msg, id)
  }

  ghost function InQueues(queues: map<string, seq<Inbound>>, id: nat): nat
    decreases |queues|
  {
    if queues == map[] then 0
    else
      var k :| k in queues;
      Count(queues[k], id) + InQueues(queues - {k}, id)
  }

  ghost function Everywhere(s: State, id: nat): nat {
    Count(s.bus, id) + InHand(s.hand, id) + InTasks(s.tasks, id) + InQueues(s.deferred, id)
    + Count(s.consumed, id) + Count(s.cancelled, id)
  }

  /** A message is in as many places as often it arrived. */
  ghost predicate Conserved(s: State, id: nat) { Everywhere(s, id) == s.arrived[id] }

  // ---------------------------------------------------------------- one task changes

  ghost predicate Locked(s: State) { LocksShared(s) && LocksDistinct(s) && Exclusive(s) }

  function With(s: State, i: nat, t: Task): State
    requires i < |s.tasks|
  {
    s.(tasks := s.tasks[i := t])
  }

  lemma SwapTasksOk(s: State, i: nat, t: Task)
    requires TasksOk(s) && i < |s.tasks| && TaskOk(s.config, t)
    ensures TasksOk(With(s, i, t))
  {
  }

  lemma SwapLocked(s: State, i: nat, t: Task)
    requires Locked(s) && i < |s.tasks| && t.key == s.tasks[i].key
    requires RefersToLock(t) ==> RefersToLock(s.tasks[i]) && t.lock == s.tasks[i].lock
    requires HoldsLock(t) ==> HoldsLock(s.tasks[i])
    ensures Locked(With(s, i, t))
  {
  }

  lemma SwapOwned(s: State, i: nat, t: Task)
    requires PublishedByOwner(s) && i < |s.tasks| && t.key == s.tasks[i].key && t.work == s.tasks[i].work
    requires t.pc.Running? <==> s.tasks[i].pc.Running?
    ensures PublishedByOwner(With(s, i, t))
  {
  }

  lemma AppendTask(s: State, t: Task)
    requires TasksOk(s) && Locked(s) && PublishedByOwner(s) && TaskOk(s.config, t) && t.pc.Created?
    ensures var u := s.(tasks := s.tasks + [t]); TasksOk(u) && Locked(u) && PublishedByOwner(u)
  {
  }

  lemma MakeLock(s: State, key: string)
    requires Locked(s) && PublishedByOwner(s) && TasksOk(s)
    ensures var u := WithLock(s, key); Locked(u) && PublishedByOwner(u) && TasksOk(u)
    ensures var u := WithLock(s, key); key in u.locks && u.locks[key] == LockFor(s, key)
  {
  }

  lemma AppendWaiter(s: State, t: Task)
    requires TasksOk(s) && Locked(s) && PublishedByOwner(s) && TaskOk(s.config, t) && t.pc.WaitLock?
    requires t.key in s.locks && s.locks[t.key] == t.lock
    ensures var u := s.(tasks := s.tasks + [t]); TasksOk(u) && Locked(u) && PublishedByOwner(u)
  {
  }

  lemma StartLocked(s: State, i: nat, t: Task)
    requires Locked(s) && i < |s.tasks| && t.key == s.tasks[i].key && t.pc.WaitLock?
    requires t.key in s.locks && s.locks[t.key] == t.lock
    ensures Locked(With(s, i, t))
  {
  }

  /** The lock is free, so nobody of the session holds it: every holder of the session
      refers to this very lock. */
  lemma TakeLocked(s: State, i: nat, t: Task)
    requires Locked(s) && i < |s.tasks| && RefersToLock(s.tasks[i]) && LockIsFree(s, s.tasks[i].lock)
    requires t.key == s.tasks[i].key && t.lock == s.tasks[i].lock
    ensures Locked(With(s, i, t))
  {
    forall j | 0 <= j < |s.tasks| && HoldsLock(s.tasks[j]) ensures s.tasks[j].key != t.key {
      assert RefersToLock(s.tasks[j]) && RefersToLock(s.tasks[i]);
    }
  }

  lemma PublishOwned(s: State, i: nat, t: Task)
    requires PublishedByOwner(s) && i < |s.tasks| && s.tasks[i].pc.WaitGate?
    requires t.key == s.tasks[i].key && t.pc.Running? && t.work.FromBus?
    ensures PublishedByOwner(With(s, i, t).(published := s.published[t.key := i]))
  {
    var u := With(s, i, t).(published := s.published[t.key := i]);
    forall k | k in u.published && k != t.key ensures u.tasks[u.published[k]].pc.Running? {
      assert s.published[k] != i;
    }
  }

  /** A running turn finds its own queue published, or none: never the queue of another. */
  lemma NoOtherQueue(s: State, i: nat)
    requires PublishedByOwner(s) && Exclusive(s) && i < |s.tasks| && s.tasks[i].pc.Running?
    ensures s.tasks[i].key in s.published ==> s.published[s.tasks[i].key] == i
  {
    var key := s.tasks[i].key;
    if key in s.published {
      var j := s.published[key];
      assert HoldsLock(s.tasks[j]) && HoldsLock(s.tasks[i]);
    }
  }

  lemma WithdrawOwned(s: State, i: nat, t: Task)
    requires PublishedByOwner(s) && Exclusive(s) && i < |s.tasks| && s.tasks[i].pc.Running?
    requires t.key == s.tasks[i].key && t.work == s.tasks[i].work
    ensures PublishedByOwner(With(s, i, t).(published := s.published - {s.tasks[i].key}))
  {
    NoOtherQueue(s, i);
  }

  // ---------------------------------------------------------------- one step

  ghost predicate Core(s: State) {
    TasksOk(s) && Locked(s) && PublishedByOwner(s) && DeferredOk(s)
  }

  lemma OwnersAreRunning(s: State)
    requires PublishedByOwner(s)
    ensures PublishedAreRunning(s)
  {
  }

  lemma Swap(s: State, i: nat, t: Task)
    requires Core(s) && i < |s.tasks| && t.key == s.tasks[i].key && t.work == s.tasks[i].work
    requires TaskOk(s.config, t)
    requires RefersToLock(t) ==> RefersToLock(s.tasks[i]) && t.lock == s.tasks[i].lock
    requires HoldsLock(t) ==> HoldsLock(s.tasks[i])
    requires t.pc.Running? <==> s.tasks[i].pc.Running?
    ensures Core(With(s, i, t))
  {
    SwapTasksOk(s, i, t);
    SwapLocked(s, i, t);
    SwapOwned(s, i, t);
  }

  /** The invariant does not look at the bus, the hand, the permits or what is over. */
  lemma Elsewhere(s: State, u: State)
    requires Core(s)
    requires u.config == s.config && u.tasks == s.tasks && u.published == s.published
    requires u.locks == s.locks && u.nextLock == s.nextLock && u.deferred == s.deferred
    ensures Core(u)
  {
  }

  lemma DeferredAppend(c: Config, key: string, queue: seq<Inbound>, m: Inbound)
    requires (queue == [] || QueueOk(c, key, queue)) && Deferrable(c, key, m)
    ensures QueueOk(c, key, queue + [m])
  {
  }

  lemma DeferCore(s: State, key: string, m: Inbound)
    requires Core(s) && Deferrable(s.config, key, m)
    ensures Core(s.(deferred := s.deferred[key := Deferrals(s, key) + [m]]))
  {
    var u := s.(deferred := s.deferred[key := Deferrals(s, key) + [m]]);
    DeferredAppend(s.config, key, Deferrals(s, key), m);
    assert TasksOk(u) && Locked(u) && PublishedByOwner(u);
  }

  lemma InjectCore(s: State, i: nat, m: Inbound)
    requires Core(s) && i < |s.tasks| && s.tasks[i].pc.Running? && s.tasks[i].work.FromBus?
    requires Injectable(s.config, s.tasks[i].key, m) && |s.tasks[i].pc.queue| < PENDING_QUEUE_SIZE
    ensures Core(WithPc(s, i, Running(s.tasks[i].pc.queue + [m])))
  {
    Swap(s, i, s.tasks[i].(pc := Running(s.tasks[i].pc.queue + [m])));
  }

  lemma SpawnCore(s: State, m: Inbound)
    requires Core(s)
    ensures Core(Spawned(s, m))
  {
    var t := Task(FromBus(Pinned(s.config, m)), Key(s.config, m), 0, Created);
    AppendTask(s, t);
    Elsewhere(s.(tasks := s.tasks + [t]), Spawned(s, m));
  }

  lemma CommandCore(s: State, m: Inbound)
    requires Core(s)
    ensures Core(Commanded(s, m))
  {
    Elsewhere(s, Commanded(s, m));
  }

  lemma RouteCore(s: State)
    requires Core(s) && Enabled(s, RouteIt) && PublishedAreRunning(s)
    ensures Core(AfterRoute(s))
  {
    var m := s.hand.msg;
    var key := Key(s.config, m);
    var pinned := Pinned(s.config, m);
    if m.automation && key in s.published {
      DeferCore(s, key, pinned);
      Elsewhere(s.(deferred := s.deferred[key := Deferrals(s, key) + [pinned]]), AfterRoute(s));
    } else {
      match MidTurnRoute(m.IsCommand(), key in s.published, s.config.mode)
      case AsCommand => CommandCore(s, m);
      case AsInjection =>
        var owner := s.published[key];
        if |s.tasks[owner].pc.queue| < PENDING_QUEUE_SIZE {
          InjectCore(s, owner, pinned);
          Elsewhere(WithPc(s, owner, Running(s.tasks[owner].pc.queue + [pinned])), AfterRoute(s));
        } else {
          SpawnCore(s, m);
        }
      case AsTask => SpawnCore(s, m);
    }
  }

  lemma DirectCore(s: State, key: string)
    requires Core(s)
    ensures Core(After(s, CallDirect(key)))
  {
    MakeLock(s, key);
    AppendWaiter(WithLock(s, key), Task(Direct, key, LockFor(s, key), WaitLock));
  }

  lemma StartCore(s: State, i: nat)
    requires Core(s) && Enabled(s, Start(i))
    ensures Core(After(s, Start(i)))
  {
    var u := WithLock(s, s.tasks[i].key);
    var t := s.tasks[i].(lock := LockFor(s, s.tasks[i].key), pc := WaitLock);
    MakeLock(s, t.key);
    SwapTasksOk(u, i, t);
    StartLocked(u, i, t);
    SwapOwned(u, i, t);
  }

  lemma TakeLockCore(s: State, i: nat)
    requires Core(s) && Enabled(s, TakeLock(i))
    ensures Core(After(s, TakeLock(i)))
  {
    var t := s.tasks[i].(pc := if s.tasks[i].work.Direct? then DirectRun else WaitGate);
    SwapTasksOk(s, i, t);
    TakeLocked(s, i, t);
    SwapOwned(s, i, t);
  }

  lemma TakeGateCore(s: State, i: nat)
    requires Core(s) && Enabled(s, TakeGate(i)) && PublishedAreRunning(s)
    ensures Core(After(s, TakeGate(i)))
  {
    var t := s.tasks[i].(pc := Running([]));
    SwapTasksOk(s, i, t);
    SwapLocked(s, i, t);
    PublishOwned(s, i, t);
    Elsewhere(With(s, i, t).(published := s.published[t.key := i]), After(s, TakeGate(i)));
  }

  lemma EndTurnCore(s: State, i: nat)
    requires Core(s) && i < |s.tasks| && s.tasks[i].pc.Running?
    ensures Core(EndTurn(s, i)) && EndTurn(s, i).published == s.published - {s.tasks[i].key}
  {
    var t := s.tasks[i].(pc := Draining(s.tasks[i].pc.queue));
    NoOtherQueue(s, i);
    SwapTasksOk(s, i, t);
    SwapLocked(s, i, t);
    WithdrawOwned(s, i, t);
    var u := With(s, i, t).(published := s.published - {t.key});
    assert s.tasks[i].key !in s.published ==> s.published - {t.key} == s.published;
    Elsewhere(u, EndTurn(s, i));
  }

  lemma FinishCore(s: State, i: nat)
    requires Core(s) && Enabled(s, Finish(i))
    ensures Core(AfterFinish(s, i))
  {
    if s.tasks[i].pc.DirectRun? {
      Swap(s, i, s.tasks[i].(pc := Done));
    } else {
      EndTurnCore(s, i);
      Elsewhere(EndTurn(s, i), AfterFinish(s, i));
    }
  }

  lemma CancelCore(s: State, i: nat)
    requires Core(s) && Enabled(s, Cancel(i))
    ensures Core(AfterCancel(s, i))
  {
    var t := s.tasks[i];
    if t.work.Direct? {
      Swap(s, i, t.(pc := Done));
    } else if t.pc.Running? {
      EndTurnCore(s, i);
      Elsewhere(EndTurn(s, i), AfterCancel(s, i));
    } else {
      var u := t.(pc := if t.pc.Created? then Done else Leaving);
      Swap(s, i, u);
      Elsewhere(With(s, i, u), AfterCancel(s, i));
    }
  }

  lemma DrainCore(s: State, i: nat)
    requires Core(s) && Enabled(s, Drain(i)) && PublishedAreRunning(s)
    ensures Core(After(s, Drain(i)))
  {
    var t := s.tasks[i].(pc := Running(s.tasks[i].pc.queue[1..]));
    Swap(s, i, t);
    Elsewhere(With(s, i, t), After(s, Drain(i)));
  }

  lemma PutBackCore(s: State, i: nat)
    requires Core(s) && Enabled(s, PutBack(i))
    ensures Core(AfterPutBack(s, i))
  {
    var left := s.tasks[i].pc.left;
    var t := s.tasks[i].(pc := if left == [] then Handing else Draining(left[1..]));
    Swap(s, i, t);
    Elsewhere(With(s, i, t), AfterPutBack(s, i));
  }

  lemma PickCore(s: State, i: nat)
    requires Core(s) && Enabled(s, Pick(i))
    ensures Core(AfterPick(s, i))
  {
    var key, inside := s.tasks[i].key, s.tasks[i].pc.Handing?;
    var queue := Deferrals(s, key);
    if queue == [] {
      Swap(s, i, s.tasks[i].(pc := if inside then Exiting else Done));
    } else {
      assert QueueOk(s.config, key, queue) && queue[0] in queue;
      var t := s.tasks[i].(pc := Putting(queue[0], inside));
      Swap(s, i, t);
      PoppedCore(With(s, i, t), key);
    }
  }

  lemma PoppedCore(s: State, key: string)
    requires Core(s) && key in s.deferred
    ensures Core(s.(deferred := if |s.deferred[key]| == 1 then s.deferred - {key}
                                else s.deferred[key := s.deferred[key][1..]]))
  {
    var u := s.(deferred := if |s.deferred[key]| == 1 then s.deferred - {key}
                            else s.deferred[key := s.deferred[key][1..]]);
    assert QueueOk(s.config, key, s.deferred[key]);
    assert TasksOk(u) && Locked(u) && PublishedByOwner(u);
  }

  lemma PutCore(s: State, i: nat)
    requires Core(s) && Enabled(s, Put(i))
    ensures Core(AfterPut(s, i))
  {
    var t := s.tasks[i].(pc := if s.tasks[i].pc.inside then Exiting else Done);
    Swap(s, i, t);
    Elsewhere(With(s, i, t), AfterPut(s, i));
  }

  lemma ReleaseCore(s: State, i: nat)
    requires Core(s) && Enabled(s, Release(i)) && PublishedAreRunning(s)
    ensures Core(After(s, Release(i)))
  {
    var t := s.tasks[i].(pc := Done);
    Swap(s, i, t);
    Elsewhere(With(s, i, t), After(s, Release(i)));
  }

  /** Collecting an unreferenced lock leaves every task with the lock it refers to. */
  lemma CollectCore(s: State, key: string)
    requires Core(s) && Enabled(s, Collect(key))
    ensures Core(s.(locks := s.locks - {key}))
  {
    var u := s.(locks := s.locks - {key});
    assert LocksShared(u) && LocksDistinct(u) && Exclusive(u);
    assert TasksOk(u) && PublishedByOwner(u) && DeferredOk(u);
  }

  /** A stop may take a queue from under its turn, which runs on without one. */
  lemma InlineCore(s: State)
    requires Core(s) && Enabled(s, EndInline) && PublishedAreRunning(s)
    ensures Core(AfterInline(s))
  {
    var key := Key(s.config, s.hand.msg);
    if s.hand.msg.body.StopCommand? && key in s.published {
      var owner := s.published[key];
      var t := s.tasks[owner].(pc := Running([]));
      SwapTasksOk(s, owner, t);
      SwapLocked(s, owner, t);
      WithdrawOwned(s, owner, t);
      Elsewhere(With(s, owner, t).(published := s.published - {key}), AfterInline(s));
    } else {
      Elsewhere(s, AfterInline(s));
    }
  }

  /** Of a task, or of the loop. */
  predicate OfLoop(a: Action) {
    || a.Arrive? || a.Consume? || a.Begin? || a.RouteIt? || a.EndInline?
    || a.CallDirect? || a.ResetIn? || a.CloseAll? || a.Collect?
  }

  lemma LoopCore(s: State, a: Action)
    requires Core(s) && Enabled(s, a) && PublishedAreRunning(s) && OfLoop(a)
    ensures Core(After(s, a))
  {
    match a
    case RouteIt => RouteCore(s);
    case EndInline => InlineCore(s);
    case CallDirect(key) => DirectCore(s, key);
    case Collect(key) => CollectCore(s, key);
    case Arrive(_) => Elsewhere(s, After(s, a));
    case Consume => Elsewhere(s, After(s, a));
    case Begin => CommandCore(s, s.hand.msg);
    case ResetIn(_) => Elsewhere(s, After(s, a));
    case CloseAll => Elsewhere(s, After(s, a));
  }

  lemma TaskCore(s: State, a: Action)
    requires Core(s) && Enabled(s, a) && PublishedAreRunning(s) && !OfLoop(a)
    ensures Core(After(s, a))
  {
    match a
    case Start(i) => StartCore(s, i);
    case TakeLock(i) => TakeLockCore(s, i);
    case TakeGate(i) => TakeGateCore(s, i);
    case Drain(i) => DrainCore(s, i);
    case Finish(i) => FinishCore(s, i);
    case PutBack(i) => PutBackCore(s, i);
    case Pick(i) => PickCore(s, i);
    case Put(i) => PutCore(s, i);
    case Release(i) => ReleaseCore(s, i);
    case Cancel(i) => CancelCore(s, i);
  }

  lemma StepCore(s: State, a: Action)
    requires Core(s) && Enabled(s, a) && PublishedAreRunning(s)
    ensures Core(After(s, a))
  {
    if OfLoop(a) { LoopCore(s, a); } else { TaskCore(s, a); }
  }

  // ---------------------------------------------------------------- the gate

  lemma {:induction false} GatesSwap(tasks: seq<Task>, i: nat, t: Task)
    requires i < |tasks|
    ensures Gates(tasks[i := t]) ==
      Gates(tasks) - (if HoldsGate(tasks[i]) then 1 else 0) + (if HoldsGate(t) then 1 else 0)
  {
    if i == 0 {
      assert tasks[0 := t][1..] == tasks[1..];
    } else {
      GatesSwap(tasks[1..], i - 1, t);
      assert tasks[i := t][1..] == tasks[1..][i - 1 := t];
    }
  }

  lemma {:induction false} GatesAppend(tasks: seq<Task>, t: Task)
    ensures Gates(tasks + [t]) == Gates(tasks) + (if HoldsGate(t) then 1 else 0)
  {
    if tasks == [] {
      assert [] + [t] == [t];
    } else {
      GatesAppend(tasks[1..], t);
      assert (tasks + [t])[1..] == tasks[1..] + [t];
    }
  }

  lemma Swapped(s: State, i: nat, t: Task)
    requires i < |s.tasks| && PermitsBalance(s) && HoldsGate(t) == HoldsGate(s.tasks[i])
    ensures PermitsBalance(With(s, i, t))
  {
    GatesSwap(s.tasks, i, t);
  }

  lemma SpawnPermits(s: State, m: Inbound)
    requires PermitsBalance(s)
    ensures PermitsBalance(Spawned(s, m))
  {
    GatesAppend(s.tasks, Task(FromBus(Pinned(s.config, m)), Key(s.config, m), 0, Created));
  }

  lemma RoutePermits(s: State)
    requires PermitsBalance(s) && Enabled(s, RouteIt) && PublishedAreRunning(s)
    ensures PermitsBalance(AfterRoute(s))
  {
    var m := s.hand.msg;
    var key := Key(s.config, m);
    SpawnPermits(s, m);
    if key in s.published {
      var owner := s.tasks[s.published[key]];
      Swapped(s, s.published[key], owner.(pc := Running(owner.pc.queue + [Pinned(s.config, m)])));
    }
  }

  lemma InlinePermits(s: State)
    requires PermitsBalance(s) && Enabled(s, EndInline) && PublishedAreRunning(s)
    ensures PermitsBalance(AfterInline(s))
  {
    var key := Key(s.config, s.hand.msg);
    if key in s.published {
      Swapped(s, s.published[key], s.tasks[s.published[key]].(pc := Running([])));
    }
  }

  lemma EndTurnPermits(s: State, i: nat)
    requires i < |s.tasks| && s.tasks[i].pc.Running? && PermitsBalance(s)
    ensures PermitsBalance(EndTurn(s, i))
  {
    Swapped(s, i, s.tasks[i].(pc := Draining(s.tasks[i].pc.queue)));
  }

  lemma TurnPermits(s: State, a: Action)
    requires PermitsBalance(s) && Enabled(s, a) && PublishedAreRunning(s)
    requires a.TakeGate? || a.Release? || a.TakeLock? || a.Start? || a.Drain?
    ensures PermitsBalance(After(s, a))
  {
    GatesSwap(s.tasks, a.task, After(s, a).tasks[a.task]);
  }

  lemma PutBackPermits(s: State, i: nat)
    requires PermitsBalance(s) && Enabled(s, PutBack(i))
    ensures PermitsBalance(AfterPutBack(s, i))
  {
    Swapped(s, i, AfterPutBack(s, i).tasks[i]);
  }

  lemma PickPermits(s: State, i: nat)
    requires PermitsBalance(s) && Enabled(s, Pick(i))
    ensures PermitsBalance(AfterPick(s, i))
  {
    Swapped(s, i, AfterPick(s, i).tasks[i]);
  }

  lemma PutPermits(s: State, i: nat)
    requires PermitsBalance(s) && Enabled(s, Put(i))
    ensures PermitsBalance(AfterPut(s, i))
  {
    Swapped(s, i, AfterPut(s, i).tasks[i]);
  }

  lemma FinishPermits(s: State, i: nat)
    requires PermitsBalance(s) && Enabled(s, Finish(i))
    ensures PermitsBalance(AfterFinish(s, i))
  {
    if s.tasks[i].pc.Running? {
      EndTurnPermits(s, i);
    } else {
      Swapped(s, i, s.tasks[i].(pc := Done));
    }
  }

  lemma CancelPermits(s: State, i: nat)
    requires PermitsBalance(s) && Enabled(s, Cancel(i)) && TasksOk(s)
    ensures PermitsBalance(AfterCancel(s, i))
  {
    if s.tasks[i].pc.Running? {
      EndTurnPermits(s, i);
    } else {
      Swapped(s, i, AfterCancel(s, i).tasks[i]);
    }
  }

  lemma StepPermits(s: State, a: Action)
    requires Core(s) && Enabled(s, a) && PublishedAreRunning(s) && PermitsBalance(s)
    ensures PermitsBalance(After(s, a))
  {
    match a
    case Arrive(_) => assert After(s, a).tasks == s.tasks;
    case Consume => assert After(s, a).tasks == s.tasks;
    case Begin => assert After(s, a).tasks == s.tasks;
    case RouteIt => RoutePermits(s);
    case EndInline => InlinePermits(s);
    case ResetIn(_) => assert After(s, a).tasks == s.tasks;
    case CloseAll => assert After(s, a).tasks == s.tasks;
    case CallDirect(key) => GatesAppend(s.tasks, Task(Direct, key, LockFor(s, key), WaitLock));
    case Collect(_) => assert After(s, a).tasks == s.tasks;
    case Finish(i) => FinishPermits(s, i);
    case Cancel(i) => CancelPermits(s, i);
    case PutBack(i) => PutBackPermits(s, i);
    case Pick(i) => PickPermits(s, i);
    case Put(i) => PutPermits(s, i);
    case _ => TurnPermits(s, a);
  }

  // ---------------------------------------------------------------- nothing lost

  lemma {:induction false} CountAppend(a: seq<Inbound>, b: seq<Inbound>, id: nat)
    ensures Count(a + b, id) == Count(a, id) + Count(b, id)
  {
    if a == [] {
      assert a + b == b;
    } else {
      CountAppend(a[1..], b, id);
      assert (a + b)[1..] == a[1..] + b;
    }
  }

  lemma CountOne(a: seq<Inbound>, m: Inbound, id: nat)
    ensures Count(a + [m], id) == Count(a, id) + Is(m, id)
    ensures Count([m], id) == Is(m, id)
  {
    assert [m][1..] == [];
    CountAppend(a, [m], id);
  }

  lemma {:induction false} InTasksSwap(tasks: seq<Task>, i: nat, t: Task, id: nat)
    requires i < |tasks|
    ensures InTasks(tasks[i := t], id) == InTasks(tasks, id) - InTask(tasks[i], id) + InTask(t, id)
  {
    if i == 0 {
      assert tasks[0 := t][1..] == tasks[1..];
    } else {
      InTasksSwap(tasks[1..], i - 1, t, id);
      assert tasks[i := t][1..] == tasks[1..][i - 1 := t];
    }
  }

  lemma {:induction false} InTasksAppend(tasks: seq<Task>, t: Task, id: nat)
    ensures InTasks(tasks + [t], id) == InTasks(tasks, id) + InTask(t, id)
  {
    if tasks == [] {
      assert [] + [t] == [t] && [t][1..] == [];
    } else {
      InTasksAppend(tasks[1..], t, id);
      assert (tasks + [t])[1..] == tasks[1..] + [t];
    }
  }

  /** The sum over the deferred queues does not depend on the order they are taken in. */
  lemma {:induction false} QueuesAt(queues: map<string, seq<Inbound>>, key: string, id: nat)
    requires key in queues
    ensures InQueues(queues, id) == Count(queues[key], id) + InQueues(queues - {key}, id)
    decreases |queues|
  {
    var k :| k in queues && InQueues(queues, id) == Count(queues[k], id) + InQueues(queues - {k}, id);
    if k != key {
      QueuesAt(queues - {k}, key, id);
      QueuesAt(queues - {key}, k, id);
      assert queues - {k} - {key} == queues - {key} - {k};
    }
  }

  lemma QueuesSet(queues: map<string, seq<Inbound>>, key: string, queue: seq<Inbound>, id: nat)
    ensures InQueues(queues[key := queue], id) == Count(queue, id) + InQueues(queues - {key}, id)
  {
    QueuesAt(queues[key := queue], key, id);
    assert queues[key := queue] - {key} == queues - {key};
  }

  lemma QueuesAppend(s: State, key: string, m: Inbound, id: nat)
    ensures InQueues(s.deferred[key := Deferrals(s, key) + [m]], id) == InQueues(s.deferred, id) + Is(m, id)
  {
    QueuesSet(s.deferred, key, Deferrals(s, key) + [m], id);
    CountOne(Deferrals(s, key), m, id);
    if key in s.deferred { QueuesAt(s.deferred, key, id); } else { assert s.deferred - {key} == s.deferred; }
  }

  /** Where the messages are does not depend on locks, permits or the registry. */
  lemma SamePlaces(s: State, u: State, id: nat)
    requires u.bus == s.bus && u.hand == s.hand && u.tasks == s.tasks && u.deferred == s.deferred
    requires u.consumed == s.consumed && u.cancelled == s.cancelled
    ensures Everywhere(u, id) == Everywhere(s, id)
  {
  }

  lemma ArriveConserves(s: State, m: Inbound, id: nat)
    requires Enabled(s, Arrive(m)) && PublishedAreRunning(s) && Conserved(s, id)
    ensures Conserved(After(s, Arrive(m)), id)
  {
    CountOne(s.bus, m, id);
  }

  lemma ConsumeConserves(s: State, id: nat)
    requires Enabled(s, Consume) && PublishedAreRunning(s) && Conserved(s, id)
    ensures Conserved(After(s, Consume), id)
  {
  }

  lemma CommandConserves(s: State, m: Inbound, id: nat)
    requires s.hand.Popped? && s.hand.msg == m && Conserved(s, id)
    ensures Conserved(Commanded(s, m), id)
  {
    var u := Commanded(s, m);
    SamePlaces(s, u.(hand := s.hand), id);
  }

  lemma TablesConserve(s: State, a: Action, id: nat)
    requires Enabled(s, a) && PublishedAreRunning(s) && Conserved(s, id)
    requires a.Collect? || a.ResetIn? || a.CloseAll?
    ensures Conserved(After(s, a), id)
  {
    SamePlaces(s, After(s, a), id);
  }

  lemma SwapEverywhere(s: State, i: nat, t: Task, id: nat)
    requires i < |s.tasks|
    ensures Everywhere(With(s, i, t), id) == Everywhere(s, id) - InTask(s.tasks[i], id) + InTask(t, id)
  {
    InTasksSwap(s.tasks, i, t, id);
  }

  lemma DeferConserves(s: State, key: string, m: Inbound, id: nat)
    requires s.hand.Popped? && m.id == s.hand.msg.id && Conserved(s, id)
    ensures Conserved(s.(deferred := s.deferred[key := Deferrals(s, key) + [m]], hand := Empty), id)
  {
    QueuesAppend(s, key, m, id);
  }

  lemma SpawnConserves(s: State, id: nat)
    requires s.hand.Popped? && Conserved(s, id)
    ensures Conserved(Spawned(s, s.hand.msg), id)
  {
    var m := s.hand.msg;
    InTasksAppend(s.tasks, Task(FromBus(Pinned(s.config, m)), Key(s.config, m), 0, Created), id);
  }

  lemma InjectConserves(s: State, i: nat, m: Inbound, id: nat)
    requires s.hand.Popped? && m.id == s.hand.msg.id && Conserved(s, id)
    requires i < |s.tasks| && s.tasks[i].pc.Running?
    ensures Conserved(WithPc(s, i, Running(s.tasks[i].pc.queue + [m])).(hand := Empty), id)
  {
    SwapEverywhere(s, i, s.tasks[i].(pc := Running(s.tasks[i].pc.queue + [m])), id);
    CountOne(s.tasks[i].pc.queue, m, id);
  }

  lemma RouteConserves(s: State, id: nat)
    requires Enabled(s, RouteIt) && PublishedAreRunning(s) && Conserved(s, id)
    ensures Conserved(AfterRoute(s), id)
  {
    var m := s.hand.msg;
    var key := Key(s.config, m);
    var pinned := Pinned(s.config, m);
    SpawnConserves(s, id);
    CommandConserves(s, m, id);
    if key in s.published {
      DeferConserves(s, key, pinned, id);
      InjectConserves(s, s.published[key], pinned, id);
    }
  }

  lemma TakenConserves(s: State, owner: nat, key: string, id: nat)
    requires owner < |s.tasks| && s.tasks[owner].pc.Running?
    ensures var u := WithPc(s, owner, Running([])).(published := s.published - {key}, taken := s.taken + {owner},
                                                  cancelled := s.cancelled + s.tasks[owner].pc.queue);
      Everywhere(u, id) == Everywhere(s, id)
  {
    SwapEverywhere(s, owner, s.tasks[owner].(pc := Running([])), id);
    CountAppend(s.cancelled, s.tasks[owner].pc.queue, id);
  }

  lemma HandEmptied(s: State, id: nat)
    requires s.hand.Busy?
    ensures Everywhere(s.(hand := Empty, consumed := s.consumed + [s.hand.msg]), id) == Everywhere(s, id)
  {
    CountOne(s.consumed, s.hand.msg, id);
  }

  lemma InlineConserves(s: State, id: nat)
    requires Enabled(s, EndInline) && PublishedAreRunning(s) && Conserved(s, id)
    ensures Conserved(AfterInline(s), id)
  {
    var key := Key(s.config, s.hand.msg);
    var t := s.(hand := Empty, consumed := s.consumed + [s.hand.msg]);
    HandEmptied(s, id);
    if key in s.published { TakenConserves(t, s.published[key], key, id); }
  }

  lemma DirectConserves(s: State, key: string, id: nat)
    requires Conserved(s, id) && PublishedAreRunning(s)
    ensures Conserved(After(s, CallDirect(key)), id)
  {
    InTasksAppend(s.tasks, Task(Direct, key, LockFor(s, key), WaitLock), id);
  }

  lemma StartConserves(s: State, i: nat, id: nat)
    requires Enabled(s, Start(i)) && PublishedAreRunning(s) && Conserved(s, id)
    ensures Conserved(After(s, Start(i)), id)
  {
    InTasksSwap(s.tasks, i, s.tasks[i].(lock := LockFor(s, s.tasks[i].key), pc := WaitLock), id);
  }

  lemma TakeConserves(s: State, i: nat, id: nat)
    requires TasksOk(s) && Enabled(s, TakeLock(i)) && PublishedAreRunning(s) && Conserved(s, id)
    ensures Conserved(After(s, TakeLock(i)), id)
  {
    SwapEverywhere(s, i, s.tasks[i].(pc := if s.tasks[i].work.Direct? then DirectRun else WaitGate), id);
  }

  lemma RunConserves(s: State, i: nat, id: nat)
    requires Enabled(s, TakeGate(i)) && PublishedAreRunning(s) && Conserved(s, id)
    ensures Conserved(After(s, TakeGate(i)), id)
  {
    SwapEverywhere(s, i, s.tasks[i].(pc := Running([])), id);
  }

  lemma ReleaseConserves(s: State, i: nat, id: nat)
    requires Enabled(s, Release(i)) && PublishedAreRunning(s) && Conserved(s, id)
    ensures Conserved(After(s, Release(i)), id)
  {
    SwapEverywhere(s, i, s.tasks[i].(pc := Done), id);
  }

  lemma DrainConserves(s: State, i: nat, id: nat)
    requires Enabled(s, Drain(i)) && PublishedAreRunning(s) && Conserved(s, id)
    ensures Conserved(After(s, Drain(i)), id)
  {
    var queue := s.tasks[i].pc.queue;
    SwapEverywhere(s, i, s.tasks[i].(pc := Running(queue[1..])), id);
    CountOne(s.consumed, queue[0], id);
  }

  lemma EndTurnEverywhere(s: State, i: nat, id: nat)
    requires i < |s.tasks| && s.tasks[i].pc.Running? && s.tasks[i].work.FromBus?
    ensures Everywhere(EndTurn(s, i), id) == Everywhere(s, id) - Is(s.tasks[i].work.msg, id)
  {
    var t := s.tasks[i].(pc := Draining(s.tasks[i].pc.queue));
    SwapEverywhere(s, i, t, id);
    SamePlaces(With(s, i, t), EndTurn(s, i), id);
  }

  lemma CompleteConserves(s: State, i: nat, id: nat)
    requires Enabled(s, Finish(i)) && s.tasks[i].work.FromBus? && s.tasks[i].pc.Running? && Conserved(s, id)
    ensures Conserved(AfterFinish(s, i), id)
  {
    EndTurnEverywhere(s, i, id);
    CountOne(s.consumed, s.tasks[i].work.msg, id);
  }

  lemma FinishConserves(s: State, i: nat, id: nat)
    requires TasksOk(s) && Enabled(s, Finish(i)) && Conserved(s, id)
    ensures Conserved(AfterFinish(s, i), id)
  {
    if s.tasks[i].pc.DirectRun? {
      SwapEverywhere(s, i, s.tasks[i].(pc := Done), id);
    } else {
      CompleteConserves(s, i, id);
    }
  }

  lemma SkipConserves(s: State, i: nat, id: nat)
    requires Enabled(s, Cancel(i)) && s.tasks[i].work.FromBus? && !s.tasks[i].pc.Running? && !s.tasks[i].pc.DirectRun?
    requires Conserved(s, id)
    ensures Conserved(AfterCancel(s, i), id)
  {
    var t := s.tasks[i];
    SwapEverywhere(s, i, t.(pc := if t.pc.Created? then Done else Leaving), id);
    CountOne(s.cancelled, t.work.msg, id);
  }

  lemma AbortConserves(s: State, i: nat, id: nat)
    requires Enabled(s, Cancel(i)) && s.tasks[i].work.FromBus? && s.tasks[i].pc.Running? && Conserved(s, id)
    ensures Conserved(AfterCancel(s, i), id)
  {
    EndTurnEverywhere(s, i, id);
    CountOne(s.cancelled, s.tasks[i].work.msg, id);
  }

  lemma CancelConserves(s: State, i: nat, id: nat)
    requires TasksOk(s) && Enabled(s, Cancel(i)) && Conserved(s, id)
    ensures Conserved(AfterCancel(s, i), id)
  {
    var t := s.tasks[i];
    if t.work.Direct? {
      SwapEverywhere(s, i, t.(pc := Done), id);
    } else if t.pc.Running? {
      AbortConserves(s, i, id);
    } else {
      SkipConserves(s, i, id);
    }
  }

  lemma PutBackConserves(s: State, i: nat, id: nat)
    requires Enabled(s, PutBack(i)) && Conserved(s, id)
    ensures Conserved(AfterPutBack(s, i), id)
  {
    var t := s.tasks[i];
    var left := t.pc.left;
    SwapEverywhere(s, i, t.(pc := if left == [] then Handing else Draining(left[1..])), id);
    if left != [] {
      CountOne(s.bus, left[0], id);
    } else if t.work.FromBus? {
      assert InTask(t.(pc := Handing), id) == 0;
    }
  }

  lemma PutConserves(s: State, i: nat, id: nat)
    requires Enabled(s, Put(i)) && Conserved(s, id)
    ensures Conserved(AfterPut(s, i), id)
  {
    var t := s.tasks[i];
    SwapEverywhere(s, i, t.(pc := if t.pc.inside then Exiting else Done), id);
    CountOne(s.bus, t.pc.held, id);
  }

  lemma PickConserves(s: State, i: nat, id: nat)
    requires Core(s) && Enabled(s, Pick(i)) && Conserved(s, id)
    ensures Conserved(AfterPick(s, i), id)
  {
    SwapEverywhere(s, i, AfterPick(s, i).tasks[i], id);
    var key := s.tasks[i].key;
    if key in s.deferred {
      var queue := s.deferred[key];
      assert QueueOk(s.config, key, queue);
      QueuesAt(s.deferred, key, id);
      QueuesSet(s.deferred, key, queue[1..], id);
    }
  }

  lemma StepConserves(s: State, a: Action, id: nat)
    requires Core(s) && Enabled(s, a) && PublishedAreRunning(s) && Conserved(s, id)
    ensures Conserved(After(s, a), id)
  {
    match a
    case RouteIt => RouteConserves(s, id);
    case EndInline => InlineConserves(s, id);
    case CallDirect(key) => DirectConserves(s, key, id);
    case Drain(i) => DrainConserves(s, i, id);
    case Finish(i) => FinishConserves(s, i, id);
    case Cancel(i) => CancelConserves(s, i, id);
    case PutBack(i) => PutBackConserves(s, i, id);
    case Put(i) => PutConserves(s, i, id);
    case Pick(i) => PickConserves(s, i, id);
    case Arrive(m) => ArriveConserves(s, m, id);
    case Consume => ConsumeConserves(s, id);
    case Begin => CommandConserves(s, s.hand.msg, id);
    case Collect(_) => TablesConserve(s, a, id);
    case ResetIn(_) => TablesConserve(s, a, id);
    case CloseAll => TablesConserve(s, a, id);
    case Start(i) => StartConserves(s, i, id);
    case TakeLock(i) => TakeConserves(s, i, id);
    case TakeGate(i) => RunConserves(s, i, id);
    case Release(i) => ReleaseConserves(s, i, id);
  }
}
