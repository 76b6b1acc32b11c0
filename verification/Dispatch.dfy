/** How inbound messages become turns: one loop that routes them, one task per turn, a lock
    per session held through a weak map, a gate that bounds the turns overall, a queue for
    what arrives during a turn, and queues of automation turns that must wait.

    The state machine has one action per stretch of code that runs without awaiting, so a
    sequence of enabled actions is one interleaving of the original. */
module Dispatch {
  import opened Transcript

  const UNIFIED_SESSION_KEY := "unified:default"
  const PENDING_QUEUE_SIZE := 20

  /** Reset is the dispatchable command that starts a session anew. */
  datatype Body = Plain | Dispatchable | Reset | Priority | StopCommand | Control

  datatype Inbound = Inbound(id: nat, route: string, override: string, automation: bool, body: Body)
  {
    function SessionKey(): string { if override != "" then override else route }

    /** Handled by the loop itself: a priority command or a runtime control. */
    predicate Inline() { body.Priority? || body.StopCommand? || body.Control? }

    predicate IsCommand() { body.Dispatchable? || body.Reset? }
  }

  datatype Config = Config(unified: bool, mode: string, limit: Option<nat>, busSize: nat)

  function Key(c: Config, m: Inbound): string {
    if c.unified && m.override == "" then UNIFIED_SESSION_KEY else m.SessionKey()
  }

  /** The message with the key it was routed under written into it. */
  function Pinned(c: Config, m: Inbound): (p: Inbound)
    ensures Key(c, p) == Key(c, m)
    ensures p.id == m.id && p.automation == m.automation && p.body == m.body
  {
    if Key(c, m) != m.SessionKey() then m.(override := Key(c, m)) else m
  }

  datatype Route = AsCommand | AsInjection | AsTask

  function MidTurnRoute(isCommand: bool, turnActive: bool, mode: string): Route {
    if turnActive && isCommand then AsCommand
    else if turnActive && mode == "inject" then AsInjection
    else AsTask
  }

  // ---------------------------------------------------------------- the state

  datatype Pc =
    | Created                              // not yet run
    | WaitLock
    | WaitGate                             // holds the session lock
    | Running(queue: seq<Inbound>)         // holds lock and gate, and published its queue
    | Draining(left: seq<Inbound>)         // cleaning up: puts back what the turn did not take
    | Handing                              // cleaning up: about to pick a deferred turn
    | Leaving                              // never ran: about to pick a deferred turn, holds nothing
    | Putting(held: Inbound, inside: bool) // waits for room on the bus with the picked turn
    | Exiting                              // about to release gate and lock
    | DirectRun                            // a direct call: holds the lock
    | Done

  datatype Work = FromBus(msg: Inbound) | Direct

  datatype Task = Task(work: Work, key: string, lock: nat, pc: Pc)

  /** A busy loop runs a command, and waits for these tasks to end. */
  datatype Hand = Empty | Popped(msg: Inbound) | Busy(msg: Inbound, waits: set<nat>)

  datatype State = State(
    config: Config,
    bus: seq<Inbound>,
    hand: Hand,                            // what the loop popped and has not routed
    tasks: seq<Task>,
    published: map<string, nat>,           // session -> the task whose queue takes injections
    locks: map<string, nat>,               // the weak map of session locks
    nextLock: nat,
    permits: nat,
    deferred: map<string, seq<Inbound>>,
    active: set<nat>,                      // the registry of tasks that a command can cancel
    doomed: set<nat>,                      // asked to cancel
    resets: set<nat>,                      // ran a command that emptied the registry of their session
    taken: set<nat>,                       // had their published queue taken by a stop
    closed: bool,                          // the whole registry was emptied, to shut down
    arrived: multiset<nat>,                // ids of all messages that ever came in
    consumed: seq<Inbound>,                // reached a turn, or were handled inline
    cancelled: seq<Inbound>)

  function Initial(c: Config): State {
    State(c, [], Empty, [], map[], map[], 0, if c.limit.Some? then c.limit.value else 0, map[],
          {}, {}, {}, {}, false, multiset{}, [], [])
  }

  predicate HoldsLock(t: Task) {
    match t.pc
    case WaitGate => true
    case Running(_) => true
    case Draining(_) => true
    case Handing => true
    case Putting(_, inside) => inside
    case Exiting => true
    case DirectRun => true
    case _ => false
  }

  predicate HoldsGate(t: Task) {
    HoldsLock(t) && !t.pc.WaitGate? && !t.pc.DirectRun?
  }

  /** The frame of the task keeps the lock object alive. */
  predicate RefersToLock(t: Task) { !t.pc.Created? && !t.pc.Done? }

  /** The task will still look for a deferred turn, or holds the one it picked. */
  predicate WillHand(t: Task) {
    t.work.FromBus? && !t.pc.Exiting? && !t.pc.Done? && !t.pc.DirectRun?
  }

  // ---------------------------------------------------------------- the actions

  datatype Action =
    | Arrive(msg: Inbound)   // a channel, a schedule or a turn publishes a message
    | Consume                // the loop takes the head of the bus
    | Begin                  // it is a control or a priority command
    | RouteIt                // it is not
    | EndInline              // the inline command is done
    | CallDirect(key: string)
    | ResetIn(task: nat)     // a running turn executes the reset command itself
    | CloseAll               // shutting down cancels every registered task
    | Start(task: nat)
    | TakeLock(task: nat)
    | TakeGate(task: nat)
    | Drain(task: nat)       // the running turn takes an injected message
    | Finish(task: nat)      // the turn ends, well or with an error
    | PutBack(task: nat)
    | Pick(task: nat)        // a deferred turn, if there is one
    | Put(task: nat)
    | Release(task: nat)
    | Cancel(task: nat)
    | Collect(key: string)   // the weak map drops a lock nobody refers to

  predicate HasTask(s: State, a: Action) {
    match a
    case Start(_) => a.task < |s.tasks|
    case TakeLock(_) => a.task < |s.tasks|
    case TakeGate(_) => a.task < |s.tasks|
    case Drain(_) => a.task < |s.tasks|
    case Finish(_) => a.task < |s.tasks|
    case PutBack(_) => a.task < |s.tasks|
    case Pick(_) => a.task < |s.tasks|
    case Put(_) => a.task < |s.tasks|
    case Release(_) => a.task < |s.tasks|
    case Cancel(_) => a.task < |s.tasks|
    case ResetIn(_) => a.task < |s.tasks|
    case _ => true
  }

  predicate Room(s: State) { |s.bus| < s.config.busSize }

  predicate LockIsFree(s: State, lock: nat) {
    forall j :: 0 <= j < |s.tasks| && HoldsLock(s.tasks[j]) ==> s.tasks[j].lock != lock
  }

  predicate AllDone(s: State, waits: set<nat>) {
    forall j :: j in waits ==> j < |s.tasks| && s.tasks[j].pc.Done?
  }

  /** A task that was asked to cancel gets no further before its turn. */
  predicate MayGoOn(s: State, i: nat)
    requires i < |s.tasks|
  {
    s.tasks[i].work.FromBus? ==> i !in s.doomed
  }

  predicate RunsReset(t: Task) {
    t.pc.DirectRun? || (t.pc.Running? && t.work.FromBus? && t.work.msg.body.Reset?)
  }

  predicate Unreferenced(s: State, key: string) {
    forall j :: 0 <= j < |s.tasks| && RefersToLock(s.tasks[j]) ==> s.tasks[j].key != key
  }

  predicate Enabled(s: State, a: Action) {
    && HasTask(s, a)
    && match a
       case Arrive(_) => Room(s)
       case Consume => s.bus != [] && s.hand.Empty?
       case Begin => s.hand.Popped? && s.hand.msg.Inline()
       case RouteIt => s.hand.Popped? && !s.hand.msg.Inline()
       case EndInline => s.hand.Busy? && AllDone(s, s.hand.waits)
       case CallDirect(_) => true
       case ResetIn(i) => RunsReset(s.tasks[i])
       case CloseAll => true
       case Start(i) => s.tasks[i].pc.Created? && MayGoOn(s, i)
       case TakeLock(i) => s.tasks[i].pc.WaitLock? && MayGoOn(s, i) && LockIsFree(s, s.tasks[i].lock)
       case TakeGate(i) =>
         s.tasks[i].pc.WaitGate? && MayGoOn(s, i) && (s.config.limit.Some? ==> s.permits > 0)
       case Drain(i) => s.tasks[i].pc.Running? && s.tasks[i].pc.queue != []
       case Finish(i) => s.tasks[i].pc.Running? || s.tasks[i].pc.DirectRun?
       case PutBack(i) => s.tasks[i].pc.Draining? && (s.tasks[i].pc.left != [] ==> Room(s))
       case Pick(i) => s.tasks[i].pc.Handing? || s.tasks[i].pc.Leaving?
       case Put(i) => s.tasks[i].pc.Putting? && Room(s)
       case Release(i) => s.tasks[i].pc.Exiting?
       case Cancel(i) => InTurn(s.tasks[i].pc) && (s.tasks[i].work.FromBus? ==> i in s.doomed)
       case Collect(k) => k in s.locks && Unreferenced(s, k)
  }

  /** Cancellation reaches a task here; inside its cleanup it does not. */
  predicate InTurn(pc: Pc) {
    pc.Created? || pc.WaitLock? || pc.WaitGate? || pc.Running? || pc.DirectRun?
  }

  function WithPc(s: State, i: nat, pc: Pc): State
    requires i < |s.tasks|
  {
    s.(tasks := s.tasks[i := s.tasks[i].(pc := pc)], active := if pc.Done? then s.active - {i} else s.active)
  }

  /** The registered tasks of a session. */
  function Registered(s: State, key: string): set<nat> {
    set i | i in s.active && i < |s.tasks| && s.tasks[i].key == key
  }

  /** Take the tasks of a session out of the registry and ask each of them to cancel. */
  function Cancelling(s: State, key: string): State {
    s.(active := s.active - Registered(s, key), doomed := s.doomed + Registered(s, key))
  }

  /** The loop turns to a command. Stop and reset cancel the tasks of the session, and wait. */
  function Commanded(s: State, m: Inbound): State {
    var key := Key(s.config, m);
    if m.body.StopCommand? || m.body.Reset?
    then Cancelling(s, key).(hand := Busy(m, Registered(s, key)))
    else s.(hand := Busy(m, {}))
  }

  /** The lock of the session, made on demand. */
  function LockFor(s: State, key: string): nat {
    if key in s.locks then s.locks[key] else s.nextLock
  }

  function WithLock(s: State, key: string): State {
    if key in s.locks then s
    else s.(locks := s.locks[key := s.nextLock], nextLock := s.nextLock + 1)
  }

  function Deferrals(s: State, key: string): seq<Inbound> {
    if key in s.deferred then s.deferred[key] else []
  }

  function Spawned(s: State, m: Inbound): State {
    s.(tasks := s.tasks + [Task(FromBus(Pinned(s.config, m)), Key(s.config, m), 0, Created)],
       active := s.active + {|s.tasks|}, hand := Empty)
  }

  function AfterRoute(s: State): State
    requires Enabled(s, RouteIt) && PublishedAreRunning(s)
  {
    var m := s.hand.msg;
    var key := Key(s.config, m);
    var pinned := Pinned(s.config, m);
    if m.automation && key in s.published then
      s.(deferred := s.deferred[key := Deferrals(s, key) + [pinned]], hand := Empty)
    else
      match MidTurnRoute(m.IsCommand(), key in s.published, s.config.mode)
      case AsCommand => Commanded(s, m)
      case AsInjection =>
        var owner := s.published[key];
        var queue := s.tasks[owner].pc.queue;
        if |queue| < PENDING_QUEUE_SIZE
        then WithPc(s, owner, Running(queue + [pinned])).(hand := Empty)
        else Spawned(s, m)
      case AsTask => Spawned(s, m)
  }

  predicate PublishedAreRunning(s: State) {
    forall k :: k in s.published ==> s.published[k] < |s.tasks| && s.tasks[s.published[k]].pc.Running?
  }

  /** The command is done. Stop also takes and empties the queue that is published for its
      session. */
  function AfterInline(s: State): State
    requires Enabled(s, EndInline) && PublishedAreRunning(s)
  {
    var m := s.hand.msg;
    var key := Key(s.config, m);
    var t := s.(hand := Empty, consumed := s.consumed + [m]);
    if m.body.StopCommand? && key in s.published then
      var owner := s.published[key];
      WithPc(t, owner, Running([])).(published := s.published - {key}, taken := s.taken + {owner},
                                      cancelled := s.cancelled + s.tasks[owner].pc.queue)
    else t
  }

  /** The turn of task i is over: withdraw its queue, if the published one is its own. */
  function EndTurn(s: State, i: nat): State
    requires i < |s.tasks| && s.tasks[i].pc.Running?
  {
    var key := s.tasks[i].key;
    var t := WithPc(s, i, Draining(s.tasks[i].pc.queue));
    if key in s.published && s.published[key] == i
    then t.(published := s.published - {key})
    else t
  }

  function AfterFinish(s: State, i: nat): State
    requires Enabled(s, Finish(i))
  {
    var t := s.tasks[i];
    if t.pc.DirectRun? then WithPc(s, i, Done)
    else match t.work
      case FromBus(m) => EndTurn(s, i).(consumed := s.consumed + [m])
      case Direct => EndTurn(s, i)
  }

  function AfterPutBack(s: State, i: nat): State
    requires Enabled(s, PutBack(i))
  {
    var left := s.tasks[i].pc.left;
    if left == [] then WithPc(s, i, Handing)
    else WithPc(s, i, Draining(left[1..])).(bus := s.bus + [left[0]])
  }

  function AfterPick(s: State, i: nat): State
    requires Enabled(s, Pick(i))
  {
    var key, inside := s.tasks[i].key, s.tasks[i].pc.Handing?;
    var queue := Deferrals(s, key);
    if queue == [] then WithPc(s, i, if inside then Exiting else Done)
    else
      WithPc(s, i, Putting(queue[0], inside)).(
        deferred := if |queue| == 1 then s.deferred - {key} else s.deferred[key := queue[1..]])
  }

  function AfterPut(s: State, i: nat): State
    requires Enabled(s, Put(i))
  {
    var pc := s.tasks[i].pc;
    WithPc(s, i, if pc.inside then Exiting else Done).(bus := s.bus + [pc.held])
  }

  /** A task that has not started yet just ends; one that waits skips its turn but still
      hands on; one that runs cleans up. */
  function AfterCancel(s: State, i: nat): State
    requires Enabled(s, Cancel(i))
  {
    var t := s.tasks[i];
    match t.work
    case Direct => WithPc(s, i, Done)
    case FromBus(m) =>
      var u := if t.pc.Running? then EndTurn(s, i)
               else WithPc(s, i, if t.pc.Created? then Done else Leaving);
      u.(cancelled := s.cancelled + [m])
  }

  function After(s: State, a: Action): State
    requires Enabled(s, a) && PublishedAreRunning(s)
  {
    match a
    case Arrive(m) => s.(bus := s.bus + [m], arrived := s.arrived + multiset{m.id})
    case Consume => s.(bus := s.bus[1..], hand := Popped(s.bus[0]))
    case Begin => Commanded(s, s.hand.msg)
    case RouteIt => AfterRoute(s)
    case EndInline => AfterInline(s)
    case CallDirect(key) =>
      WithLock(s, key).(tasks := s.tasks + [Task(Direct, key, LockFor(s, key), WaitLock)])
    case ResetIn(i) => Cancelling(s, s.tasks[i].key).(resets := s.resets + {i})
    case CloseAll => s.(active := {}, doomed := s.doomed + s.active, closed := true)
    case Start(i) =>
      var t := s.tasks[i];
      WithLock(s, t.key).(tasks := s.tasks[i := t.(lock := LockFor(s, t.key), pc := WaitLock)])
    case TakeLock(i) => WithPc(s, i, if s.tasks[i].work.Direct? then DirectRun else WaitGate)
    case TakeGate(i) =>
      WithPc(s, i, Running([])).(
        published := s.published[s.tasks[i].key := i],
        permits := if s.config.limit.Some? then s.permits - 1 else s.permits)
    case Drain(i) =>
      var queue := s.tasks[i].pc.queue;
      WithPc(s, i, Running(queue[1..])).(consumed := s.consumed + [queue[0]])
    case Finish(i) => AfterFinish(s, i)
    case PutBack(i) => AfterPutBack(s, i)
    case Pick(i) => AfterPick(s, i)
    case Put(i) => AfterPut(s, i)
    case Release(i) =>
      WithPc(s, i, Done).(permits := if s.config.limit.Some? then s.permits + 1 else s.permits)
    case Cancel(i) => AfterCancel(s, i)
    case Collect(k) => s.(locks := s.locks - {k})
  }
}
