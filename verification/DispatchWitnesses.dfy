/** Concrete runs of the dispatch protocol. */
module DispatchWitnesses {
  import opened Transcript
  import opened Dispatch
  import opened DispatchSafety
  import opened DispatchRuns

  // ---------------------------------------------------------------- the run that strands a turn

  const SCHEDULED: string := "cli:direct"

  function Scheduled(id: nat): Inbound { Inbound(id, SCHEDULED, "", true, Plain) }

  const STOP := Inbound(9, SCHEDULED, "", false, StopCommand)

  const NEW := Inbound(0, SCHEDULED, "", false, Reset)

  const SMALL := Config(false, "queue", None, 10)

  lemma {:induction false} LeadsFurther(s: State, actions: seq<Action>, t: State, a: Action)
    requires Leads(s, actions, t) && Enabled(t, a) && PublishedAreRunning(t)
    ensures Leads(s, actions + [a], After(t, a))
    decreases |actions|
  {
    if actions == [] {
      assert [] + [a] == [a] && [a][1..] == [];
    } else {
      LeadsFurther(After(s, actions[0]), actions[1..], t, a);
      assert (actions + [a])[1..] == actions[1..] + [a];
    }
  }

  lemma Do(s: State, actions: seq<Action>, t: State, a: Action) returns (longer: seq<Action>, u: State)
    requires Leads(s, actions, t) && Enabled(t, a) && PublishedAreRunning(t)
    ensures Leads(s, longer, u) && u == After(t, a)
  {
    LeadsFurther(s, actions, t, a);
    longer, u := actions + [a], After(t, a);
  }

  function First(pc: Pc): seq<Task> { [Task(FromBus(Scheduled(0)), SCHEDULED, 0, pc)] }

  /** A turn has a task. */
  function TurnDue(): State {
    State(SMALL, [], Empty, First(Created), map[], map[], 0, 0, map[], {0}, {}, {}, {}, false,
          multiset{0}, [], [])
  }

  /** It runs. */
  function TurnRuns(): State {
    TurnDue().(tasks := First(Running([])), published := map[SCHEDULED := 0],
               locks := map[SCHEDULED := 0], nextLock := 1)
  }

  function Deferring(t: State, m: Inbound): State {
    var key := Key(t.config, m);
    t.(deferred := t.deferred[key := Deferrals(t, key) + [Pinned(t.config, m)]],
       arrived := t.arrived + multiset{m.id})
  }

  /** Another is due, and waits; and one more. */
  function OneWaits(): State { Deferring(TurnRuns(), Scheduled(1)) }

  function TwoWait(): State { Deferring(OneWaits(), Scheduled(2)) }

  /** The turn is over. */
  function TurnEnds(): State {
    TwoWait().(tasks := First(Draining([])), published := map[], consumed := [Scheduled(0)])
  }

  function TurnOver(): State { TurnEnds().(tasks := First(Handing)) }

  function OnePicked(): State {
    TurnOver().(tasks := First(Putting(Scheduled(1), true)), deferred := map[SCHEDULED := [Scheduled(2)]])
  }

  /** One of the two is back on the bus. */
  function OneBack(): State {
    OnePicked().(bus := [Scheduled(1)], tasks := First(Done), active := {})
  }

  /** A scheduled turn arrives while its session is active. */
  lemma DeferNext(s: State, run: seq<Action>, t: State, m: Inbound) returns (longer: seq<Action>)
    requires Leads(s, run, t) && Room(t) && t.hand.Empty? && t.bus == [] && PublishedAreRunning(t)
    requires m.automation && !m.Inline() && Key(t.config, m) in t.published
    ensures Leads(s, longer, Deferring(t, m))
  {
    var u;
    longer, u := Do(s, run, t, Arrive(m));
    assert u.bus == [m];
    longer, u := Do(s, longer, u, Consume);
    assert u == t.(hand := Popped(m), arrived := t.arrived + multiset{m.id});
    longer, u := Do(s, longer, u, RouteIt);
  }

  lemma ReachTurnDue() returns (run: seq<Action>)
    ensures Leads(Initial(SMALL), run, TurnDue())
  {
    var s, t := Initial(SMALL), Initial(SMALL);
    run := [];
    run, t := Do(s, run, t, Arrive(Scheduled(0)));
    run, t := Do(s, run, t, Consume);
    run, t := Do(s, run, t, RouteIt);
    assert t == TurnDue();
  }

  lemma ReachTurnRuns() returns (run: seq<Action>)
    ensures Leads(Initial(SMALL), run, TurnRuns())
  {
    var s, t := Initial(SMALL), TurnDue();
    run := ReachTurnDue();
    run, t := Do(s, run, t, Start(0));
    run, t := Do(s, run, t, TakeLock(0));
    run, t := Do(s, run, t, TakeGate(0));
    assert t == TurnRuns();
  }

  lemma ReachOneWaits() returns (run: seq<Action>)
    ensures Leads(Initial(SMALL), run, OneWaits())
  {
    run := ReachTurnRuns();
    run := DeferNext(Initial(SMALL), run, TurnRuns(), Scheduled(1));
  }

  lemma ReachTwoWait() returns (run: seq<Action>)
    ensures Leads(Initial(SMALL), run, TwoWait())
  {
    run := ReachOneWaits();
    run := DeferNext(Initial(SMALL), run, OneWaits(), Scheduled(2));
  }

  lemma ReachTurnEnds() returns (run: seq<Action>)
    ensures Leads(Initial(SMALL), run, TurnEnds())
  {
    var s, t := Initial(SMALL), TwoWait();
    run := ReachTwoWait();
    run, t := Do(s, run, t, Finish(0));
    assert t == TurnEnds();
  }

  lemma ReachTurnOver() returns (run: seq<Action>)
    ensures Leads(Initial(SMALL), run, TurnOver())
  {
    var s, t := Initial(SMALL), TurnEnds();
    run := ReachTurnEnds();
    run, t := Do(s, run, t, PutBack(0));
    assert t == TurnOver();
  }

  lemma ReachOnePicked() returns (run: seq<Action>)
    ensures Leads(Initial(SMALL), run, OnePicked())
  {
    var s, t := Initial(SMALL), TurnOver();
    run := ReachTurnOver();
    assert t.deferred[SCHEDULED] == [Scheduled(1), Scheduled(2)];
    run, t := Do(s, run, t, Pick(0));
    assert t == OnePicked();
  }

  lemma ReachOneBack() returns (run: seq<Action>)
    ensures Leads(Initial(SMALL), run, OneBack())
  {
    var s, t := Initial(SMALL), OnePicked();
    run := ReachOnePicked();
    run, t := Do(s, run, t, Put(0));
    run, t := Do(s, run, t, Release(0));
    assert t == OneBack();
  }

  /** A stop arrives behind it. */
  function BackInHand(): State {
    OneBack().(bus := [STOP], hand := Popped(Scheduled(1)), arrived := multiset{0, 1, 2, 9})
  }

  /** It has a task again. */
  function Reassigned(): State {
    OneBack().(bus := [STOP], tasks := First(Done) + [Task(FromBus(Scheduled(1)), SCHEDULED, 0, Created)],
               active := {1}, arrived := multiset{0, 1, 2, 9})
  }

  /** A stop cancels it. */
  function TaskCancelled(): State {
    StopBegins().(tasks := First(Done) + [Task(FromBus(Scheduled(1)), SCHEDULED, 0, Done)],
                  cancelled := [Scheduled(1)])
  }

  function StopBegins(): State {
    Reassigned().(bus := [], hand := Busy(STOP, {1}), active := {}, doomed := {1})
  }

  lemma ReachBackInHand() returns (run: seq<Action>)
    ensures Leads(Initial(SMALL), run, BackInHand())
  {
    var s, t := Initial(SMALL), OneBack();
    run := ReachOneBack();
    run, t := Do(s, run, t, Arrive(STOP));
    run, t := Do(s, run, t, Consume);
    assert t == BackInHand();
  }

  lemma ReachReassigned() returns (run: seq<Action>)
    ensures Leads(Initial(SMALL), run, Reassigned())
  {
    var s, t := Initial(SMALL), BackInHand();
    run := ReachBackInHand();
    run, t := Do(s, run, t, RouteIt);
    assert t == Reassigned();
  }

  lemma ReachStopBegins() returns (run: seq<Action>)
    ensures Leads(Initial(SMALL), run, StopBegins())
  {
    var s, t := Initial(SMALL), Reassigned();
    run := ReachReassigned();
    run, t := Do(s, run, t, Consume);
    run, t := Do(s, run, t, Begin);
    assert Registered(Reassigned(), SCHEDULED) == {1};
    assert t == StopBegins();
  }

  lemma ReachTaskCancelled() returns (run: seq<Action>)
    ensures Leads(Initial(SMALL), run, TaskCancelled())
  {
    var s, t := Initial(SMALL), StopBegins();
    run := ReachStopBegins();
    run, t := Do(s, run, t, Cancel(1));
    assert t == TaskCancelled();
  }

  /** The loop routes it to a task, and the next message, a stop, cancels the task before it first
      runs: the other turn stays deferred with nobody left to look at it. */
  lemma ATurnIsStranded()
    ensures exists run, t :: Leads(Initial(SMALL), run, t) && !NoStranded(t)
  {
    var s, t := Initial(SMALL), TaskCancelled();
    var run := ReachTaskCancelled();
    run, t := Do(s, run, t, EndInline);
    assert SCHEDULED in t.deferred && !Carried(t, SCHEDULED, -1);
  }

  // ---------------------------------------------------------------- the stop that takes a queue

  function Anew(pc: Pc): seq<Task> { [Task(FromBus(NEW), SCHEDULED, 0, pc)] }

  /** The reset command has its own turn. */
  function NewDue(): State {
    State(SMALL, [], Empty, Anew(Created), map[], map[], 0, 0, map[], {0}, {}, {}, {}, false,
          multiset{0}, [], [])
  }

  /** It runs. */
  function NewRuns(): State {
    NewDue().(tasks := Anew(Running([])), published := map[SCHEDULED := 0],
              locks := map[SCHEDULED := 0], nextLock := 1)
  }

  /** It has cancelled every task of its session, itself too. */
  function SelfCancelled(): State { NewRuns().(active := {}, doomed := {0}, resets := {0}) }

  function StopInHand(): State {
    SelfCancelled().(hand := Popped(STOP), arrived := multiset{0, 9})
  }

  /** A stop begins, with nothing left to cancel. */
  function NothingToStop(): State {
    SelfCancelled().(hand := Busy(STOP, {}), arrived := multiset{0, 9})
  }

  lemma ReachNewDue() returns (run: seq<Action>)
    ensures Leads(Initial(SMALL), run, NewDue())
  {
    var s, t := Initial(SMALL), Initial(SMALL);
    run := [];
    run, t := Do(s, run, t, Arrive(NEW));
    run, t := Do(s, run, t, Consume);
    run, t := Do(s, run, t, RouteIt);
    assert t == NewDue();
  }

  lemma ReachNewRuns() returns (run: seq<Action>)
    ensures Leads(Initial(SMALL), run, NewRuns())
  {
    var s, t := Initial(SMALL), NewDue();
    run := ReachNewDue();
    run, t := Do(s, run, t, Start(0));
    run, t := Do(s, run, t, TakeLock(0));
    run, t := Do(s, run, t, TakeGate(0));
    assert t == NewRuns();
  }

  lemma ReachSelfCancelled() returns (run: seq<Action>)
    ensures Leads(Initial(SMALL), run, SelfCancelled())
  {
    var s, t := Initial(SMALL), NewRuns();
    run := ReachNewRuns();
    assert Registered(NewRuns(), SCHEDULED) == {0};
    run, t := Do(s, run, t, ResetIn(0));
    assert t == SelfCancelled();
  }

  lemma ReachStopInHand() returns (run: seq<Action>)
    ensures Leads(Initial(SMALL), run, StopInHand())
  {
    var s, t := Initial(SMALL), SelfCancelled();
    run := ReachSelfCancelled();
    run, t := Do(s, run, t, Arrive(STOP));
    run, t := Do(s, run, t, Consume);
    assert t == StopInHand();
  }

  lemma ReachNothingToStop() returns (run: seq<Action>)
    ensures Leads(Initial(SMALL), run, NothingToStop())
  {
    var s, t := Initial(SMALL), StopInHand();
    run := ReachStopInHand();
    assert Registered(SelfCancelled(), SCHEDULED) == {};
    run, t := Do(s, run, t, Begin);
    assert t == NothingToStop();
  }

  /** The session is idle when the reset command arrives, so it gets a turn; inside it the command
      takes that turn out of the registry. A stop then waits for nothing, and takes the queue of
      the turn, which runs on without one. */
  lemma AQueueIsTaken()
    ensures exists run, t ::
      Leads(Initial(SMALL), run, t) && |t.tasks| > 0 && t.tasks[0].pc.Running? && t.tasks[0].key !in t.published
  {
    var s, t := Initial(SMALL), NothingToStop();
    var run := ReachNothingToStop();
    run, t := Do(s, run, t, EndInline);
    assert t.tasks[0].pc.Running? && t.tasks[0].key !in t.published;
  }
}
