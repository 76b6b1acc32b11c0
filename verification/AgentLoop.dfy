/** The tables the loop updates in place, and the stretches of code between two awaits that
    update them. Each is one action of the protocol, or the table part of one. */
module AgentLoop {
  import opened Transcript
  import opened Dispatch

  class Loop {
    const config: Config
    var bus: seq<Inbound>
    var hand: Hand
    var tasks: seq<Task>
    var pendingQueues: map<string, nat>
    var sessionLocks: map<string, nat>
    var nextLock: nat
    var permits: nat
    var deferredTurns: map<string, seq<Inbound>>
    var activeTasks: set<nat>
    ghost var doomed: set<nat>
    ghost var resets: set<nat>
    ghost var taken: set<nat>
    ghost var closed: bool
    ghost var arrived: multiset<nat>
    ghost var consumed: seq<Inbound>
    ghost var cancelled: seq<Inbound>

    ghost function View(): State
      reads this
    {
      State(config, bus, hand, tasks, pendingQueues, sessionLocks, nextLock, permits, deferredTurns,
            activeTasks, doomed, resets, taken, closed, arrived, consumed, cancelled)
    }

    constructor (config: Config)
      ensures View() == Initial(config)
    {
      this.config := config;
      bus, hand, tasks, pendingQueues, sessionLocks, nextLock := [], Empty, [], map[], map[], 0;
      permits := if config.limit.Some? then config.limit.value else 0;
      deferredTurns, activeTasks := map[], {};
      doomed, resets, taken, closed := {}, {}, {}, false;
      arrived, consumed, cancelled := multiset{}, [], [];
    }

    /** The shared lock of the session, made when the weak map holds none. */
    method GetSessionLock(key: string) returns (lock: nat)
      modifies this`sessionLocks, this`nextLock
      ensures View() == WithLock(old(View()), key) && lock == LockFor(old(View()), key)
    {
      if key in sessionLocks {
        return sessionLocks[key];
      }
      lock := nextLock;
      sessionLocks := sessionLocks[key := lock];
      nextLock := nextLock + 1;
    }

    /** An automation turn waits while its session is active. */
    method DeferIfActive(msg: Inbound) returns (deferred: bool)
      modifies this`deferredTurns
      ensures var key := Key(config, msg);
        && deferred == (msg.automation && key in pendingQueues)
        && deferredTurns == if deferred
             then old(deferredTurns)[key := old(Deferrals(View(), key)) + [Pinned(config, msg)]]
             else old(deferredTurns)
    {
      var key := Key(config, msg);
      if !(msg.automation && key in pendingQueues) { return false; }
      var queue := if key in deferredTurns then deferredTurns[key] else [];
      deferredTurns := deferredTurns[key := queue + [Pinned(config, msg)]];
      deferred := true;
    }

    /** Into the queue of the running turn, while it has room. */
    method PutNoWait(owner: nat, msg: Inbound) returns (full: bool)
      requires owner < |tasks| && tasks[owner].pc.Running?
      modifies this`tasks
      ensures full == (|old(tasks[owner].pc.queue)| >= PENDING_QUEUE_SIZE)
      ensures full ==> tasks == old(tasks)
      ensures !full ==> View() == WithPc(old(View()), owner, Running(old(tasks[owner].pc.queue) + [msg]))
    {
      var queue := tasks[owner].pc.queue;
      full := |queue| >= PENDING_QUEUE_SIZE;
      if !full {
        tasks := tasks[owner := tasks[owner].(pc := Running(queue + [msg]))];
      }
    }

    /** What the loop does with a message that is no control and no priority command. */
    method Route()
      requires hand.Popped? && !hand.msg.Inline() && PublishedAreRunning(View())
      modifies this`hand, this`tasks, this`deferredTurns, this`activeTasks, this`doomed
      ensures View() == AfterRoute(old(View()))
    {
      var msg := hand.msg;
      var key := Key(config, msg);
      var deferred := DeferIfActive(msg);
      if deferred {
        hand := Empty;
        return;
      }
      match MidTurnRoute(msg.IsCommand(), key in pendingQueues, config.mode)
      case AsCommand =>
        TurnToCommand();
      case AsInjection =>
        var full := PutNoWait(pendingQueues[key], Pinned(config, msg));
        if full { CreateTask(msg); } else { hand := Empty; }
      case AsTask =>
        CreateTask(msg);
    }

    method CreateTask(msg: Inbound)
      modifies this`hand, this`tasks, this`activeTasks
      ensures View() == Spawned(old(View()), msg)
    {
      hand := Empty;
      activeTasks := activeTasks + {|tasks|};
      tasks := tasks + [Task(FromBus(Pinned(config, msg)), Key(config, msg), 0, Created)];
    }

    /** Take the tasks of the session out of the registry, and ask each of them to cancel. */
    method CancelActiveTasks(key: string) returns (waits: set<nat>)
      modifies this`activeTasks, this`doomed
      ensures View() == Cancelling(old(View()), key) && waits == Registered(old(View()), key)
    {
      waits := set i | i in activeTasks && i < |tasks| && tasks[i].key == key;
      activeTasks := activeTasks - waits;
      doomed := doomed + waits;
    }

    /** The loop itself runs the command it holds. */
    method TurnToCommand()
      requires hand.Popped?
      modifies this`hand, this`activeTasks, this`doomed
      ensures View() == Commanded(old(View()), old(hand.msg))
    {
      var msg := hand.msg;
      var waits := {};
      if msg.body.StopCommand? || msg.body.Reset? {
        waits := CancelActiveTasks(Key(config, msg));
      }
      hand := Busy(msg, waits);
    }

    /** The command is done: a stop takes the queue it finds, and empties it. */
    method FinishCommand()
      requires Enabled(View(), EndInline) && PublishedAreRunning(View())
      modifies this`hand, this`tasks, this`pendingQueues, this`taken, this`consumed, this`cancelled
      ensures View() == AfterInline(old(View()))
    {
      var msg := hand.msg;
      var key := Key(config, msg);
      hand, consumed := Empty, consumed + [msg];
      if msg.body.StopCommand? && key in pendingQueues { TakeQueue(key); }
    }

    method TakeQueue(key: string)
      requires PublishedAreRunning(View()) && key in pendingQueues
      modifies this`tasks, this`pendingQueues, this`taken, this`cancelled
      ensures var s, owner := old(View()), old(pendingQueues[key]);
        View() == WithPc(s, owner, Running([])).(published := s.published - {key}, taken := s.taken + {owner},
                                                 cancelled := s.cancelled + s.tasks[owner].pc.queue)
    {
      var owner := pendingQueues[key];
      pendingQueues, taken := pendingQueues - {key}, taken + {owner};
      EmptyQueue(owner);
    }

    /** Take everything out of a queue, one by one. */
    method EmptyQueue(owner: nat)
      requires owner < |tasks| && tasks[owner].pc.Running?
      modifies this`tasks, this`cancelled
      ensures tasks == old(tasks)[owner := old(tasks)[owner].(pc := Running([]))]
      ensures cancelled == old(cancelled) + old(tasks[owner].pc.queue)
    {
      ghost var before, queue := tasks, tasks[owner].pc.queue;
      while tasks[owner].pc.queue != []
        invariant |tasks| == |before| && tasks[owner].pc.Running?
        invariant tasks == before[owner := before[owner].(pc := tasks[owner].pc)]
        invariant cancelled + tasks[owner].pc.queue == old(cancelled) + queue
        decreases |tasks[owner].pc.queue|
      {
        ghost var item := tasks[owner].pc.queue[0];
        cancelled := cancelled + [item];
        tasks := tasks[owner := tasks[owner].(pc := Running(tasks[owner].pc.queue[1..]))];
      }
    }

    /** The turn of a task is over: take its own queue out of the table. */
    method Withdraw(task: nat)
      requires task < |tasks| && tasks[task].pc.Running?
      modifies this`pendingQueues, this`tasks
      ensures View() == EndTurn(old(View()), task)
    {
      var key := tasks[task].key;
      if key in pendingQueues && pendingQueues[key] == task {
        pendingQueues := pendingQueues - {key};
      }
      tasks := tasks[task := tasks[task].(pc := Draining(tasks[task].pc.queue))];
    }

    /** Pick the next deferred turn of the session, if there is one. */
    method PopDeferred(task: nat)
      requires task < |tasks| && (tasks[task].pc.Handing? || tasks[task].pc.Leaving?)
      modifies this`deferredTurns, this`tasks, this`activeTasks
      ensures View() == AfterPick(old(View()), task)
    {
      var key, inside := tasks[task].key, tasks[task].pc.Handing?;
      if key !in deferredTurns || deferredTurns[key] == [] {
        tasks := tasks[task := tasks[task].(pc := if inside then Exiting else Done)];
        if !inside { activeTasks := activeTasks - {task}; }
        return;
      }
      var queue := deferredTurns[key];
      var msg := queue[0];
      queue := queue[1..];
      if queue == [] {
        deferredTurns := deferredTurns - {key};
      } else {
        deferredTurns := deferredTurns[key := queue];
      }
      tasks := tasks[task := tasks[task].(pc := Putting(msg, inside))];
    }

    /** Put back what the turn did not take, while the bus has room. */
    method PutBackLeftovers(task: nat) returns (n: nat)
      requires task < |tasks| && tasks[task].pc.Draining?
      modifies this`bus, this`tasks
      ensures n <= |old(tasks[task].pc.left)|
      ensures bus == old(bus) + old(tasks[task].pc.left)[..n]
      ensures tasks == old(tasks)[task := old(tasks)[task].(pc := Draining(old(tasks[task].pc.left)[n..]))]
      ensures n < |old(tasks[task].pc.left)| ==> |bus| >= config.busSize
    {
      ghost var before, start, left := tasks, bus, tasks[task].pc.left;
      n := 0;
      while tasks[task].pc.left != [] && |bus| < config.busSize
        invariant 0 <= n <= |left| && |tasks| == |before| && bus == start + left[..n]
        invariant tasks == before[task := before[task].(pc := Draining(left[n..]))]
        decreases |left| - n
      {
        var item := tasks[task].pc.left[0];
        tasks := tasks[task := tasks[task].(pc := Draining(tasks[task].pc.left[1..]))];
        bus := bus + [item];
        n := n + 1;
      }
    }
  }
}
