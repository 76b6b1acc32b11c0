/** One Dream run, in the order the code takes its steps, while turns append to the log. Each
    such run is a run of the memory protocol, so everything proved of those holds here. */
module DreamRun {
  import opened Transcript
  import opened MemoryLog
  import opened MemoryRuns

  datatype Entry = Entry(content: string, stamp: string, readable: bool)

  /** How the agent's turn over the prompt ended. */
  datatype Verdict = Raised | Returned(stopCompleted: bool, endedInError: bool)

  datatype Outcome = InProgress | Unreadable | NoInput | Failed | Incomplete | Completed

  predicate RunCompleted(v: Verdict) { v.Returned? && v.stopCompleted && !v.endedInError }

  function ToAppend(e: Entry): Action { Append(e.content, e.stamp, e.readable) }

  class Memory {
    const store: MemoryStore
    var locked: bool
    ghost var run: Option<seq<Line>>
    ghost var ever: seq<Line>
    ghost var offered: seq<Line>

    ghost function View(): State
      reads this, store
    {
      State(store.maxHistoryEntries, store.Disk(), run, ever, offered)
    }

    constructor (store: MemoryStore)
      requires store.Disk() == Files([], None, Missing)
      ensures View() == Initial(store.maxHistoryEntries) && Valid() && !locked && this.store == store
    {
      this.store := store;
      locked, run, ever, offered := false, None, [], [];
    }

    method AppendEntry(e: Entry)
      modifies this`ever, store`history, store`counter
      ensures View() == After(old(View()), ToAppend(e))
    {
      var cursor, _ := store.AppendHistory(e.content, e.stamp, e.readable);
      ever := ever + [Record(Some(cursor), true, e.stamp, e.content)];
    }

    /** The entries of the next batch; none when there is nothing to process, or the cursor
        does not read. */
    method BuildDreamPrompt() returns (batch: seq<Line>, readable: bool)
      ensures batch == NextBatch(store.Disk())
      ensures readable == !store.dreamCursor.Garbled?
    {
      var done := DreamCursor(store.dreamCursor);
      readable := done.Some?;
      if !readable { return [], false; }
      var entries := Unprocessed(store.history, done.value);
      batch := store.DreamHistoryBatch(entries, DREAM_MAX_ENTRIES);
      BatchIsUnique(entries, DREAM_MAX_ENTRIES, |batch|, BatchSize(entries, 0));
    }

    /** What happens in turns of other sessions while the agent works. */
    method Meanwhile(entries: seq<Entry>, ghost start: State, ghost steps: seq<Action>) returns (ghost longer: seq<Action>)
      requires Leads(start, steps, View())
      modifies this`ever, store`history, store`counter
      ensures Leads(start, longer, View())
      ensures run == old(run) && offered == old(offered) && store.dreamCursor == old(store.dreamCursor)
    {
      longer := steps;
      for i := 0 to |entries|
        invariant Leads(start, longer, View())
        invariant run == old(run) && offered == old(offered) && store.dreamCursor == old(store.dreamCursor)
      {
        LeadsOn(start, longer, View(), ToAppend(entries[i]));
        longer := longer + [ToAppend(entries[i])];
        AppendEntry(entries[i]);
      }
    }

    /** The lock is held exactly while a run is under way. */
    ghost predicate Valid()
      reads this
    {
      locked <==> run.Some?
    }

    /** A request for a Dream run: refused while another holds the lock; otherwise one batch is
        shown, and the cursor moves to its last entry exactly when the run completed. */
    method RunDream(verdict: Verdict, meanwhile: seq<Entry>) returns (outcome: Outcome, ghost steps: seq<Action>)
      requires Valid()
      modifies this`run, this`ever, this`offered, this`locked, store`history, store`counter, store`dreamCursor
      ensures Leads(old(View()), steps, View())
      ensures Valid() && locked == old(locked) && run == old(run)
      ensures outcome == InProgress <==> old(locked)
      ensures outcome in {InProgress, Unreadable, NoInput} ==> View() == old(View()) && steps == []
      ensures outcome == Completed <==>
        && !old(locked) && old(NextBatch(store.Disk())) != []
        && verdict.Returned? && verdict.stopCompleted && !verdict.endedInError
      ensures offered == old(offered) + if outcome == Completed then old(NextBatch(store.Disk())) else []
      ensures var batch := old(NextBatch(store.Disk()));
        store.dreamCursor == if outcome == Completed then Holds(Cursor(batch[|batch| - 1])) else old(store.dreamCursor)
    {
      steps := [];
      if locked { return InProgress, []; }
      locked := true;
      var batch, readable := BuildDreamPrompt();
      if batch == [] {
        locked := false;
        outcome := if readable then NoInput else Unreadable;
        return;
      }
      ghost var start := old(View());
      LeadsOn(start, [], View(), BeginDream);
      steps := [BeginDream];
      run := Some(batch);
      steps := Meanwhile(meanwhile, start, steps);
      outcome, steps := Commit(batch, verdict, start, steps);
      steps := FinishDreamRun(start, steps);
      locked := false;
    }

    method Commit(batch: seq<Line>, verdict: Verdict, ghost start: State, ghost steps: seq<Action>)
      returns (outcome: Outcome, ghost longer: seq<Action>)
      requires batch != [] && run == Some(batch) && Leads(start, steps, View())
      modifies this`run, this`offered, store`dreamCursor
      ensures Leads(start, longer, View()) && run.None?
      ensures outcome in {Failed, Incomplete, Completed} && (outcome == Completed <==> RunCompleted(verdict))
      ensures offered == old(offered) + if outcome == Completed then batch else []
      ensures store.dreamCursor
        == if outcome == Completed then Holds(Cursor(batch[|batch| - 1])) else old(store.dreamCursor)
    {
      if RunCompleted(verdict) {
        LeadsOn(start, steps, View(), CompleteDream);
        longer := steps + [CompleteDream];
        store.dreamCursor := Holds(Cursor(batch[|batch| - 1]));
        offered := offered + batch;
        outcome := Completed;
      } else {
        LeadsOn(start, steps, View(), FailDream);
        longer := steps + [FailDream];
        outcome := if verdict.Raised? then Failed else Incomplete;
      }
      run := None;
    }

    /** The end of every run that started: compact, whether or not it completed. */
    method FinishDreamRun(ghost start: State, ghost steps: seq<Action>) returns (ghost longer: seq<Action>)
      requires Leads(start, steps, View())
      modifies store`history
      ensures Leads(start, longer, View())
    {
      longer := steps;
      if store.maxHistoryEntries > 0 {
        LeadsOn(start, steps, View(), Compact);
        longer := steps + [Compact];
        var _ := store.CompactHistoryLocked();
      }
    }
  }
}
