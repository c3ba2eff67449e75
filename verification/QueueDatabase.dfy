/** The database and the outside world as the services meet them: one atomic step at a time. */
module QueueDatabase {
  import opened Basics
  import opened OutboundRow
  import opened QueueMachine
  import opened QueueRuns
  import opened QueueSteps

  /** Every insert of the script is of a draft that the callers of the queue hand over. */
  predicate OnlyInserts(drafts: Draft -> bool, script: seq<Action>) {
    forall k :: 0 <= k < |script| && script[k].Insert? ==> drafts(script[k].draft)
  }

  /** `drafts` tells what the callers of the queue hand over; everybody keeps to it. */
  class Database {
    const drafts: Draft -> bool
    var state: State

    /** Everything that happened so far. */
    ghost var script: seq<Action>

    /** The state is the one that the machine reaches by the script. */
    ghost predicate Valid()
      reads this
    {
      state == Run(EMPTY, script) && OnlyInserts(drafts, script)
    }

    constructor (drafts: Draft -> bool)
      ensures Valid() && script == [] && this.drafts == drafts
    {
      this.drafts := drafts;
      state := EMPTY;
      script := [];
    }

    method Do(a: Action)
      requires Valid() && (a.Insert? ==> drafts(a.draft))
      modifies this
      ensures Valid() && script == old(script) + [a] && state == Step(old(state), a)
    {
      RunSnoc(EMPTY, script, a);
      state := Step(state, a);
      script := script + [a];
    }

    /** While `me` waits for an answer, everybody else may take any number of steps. */
    method Others(me: Option<Id>)
      requires Valid()
      modifies this
      ensures Valid() && old(script) <= script
      ensures forall k :: |old(script)| <= k < |script| ==> me == None || ActorOf(script[k]) != me
      ensures me.Some? ==> PhaseOf(state, me.value) == old(PhaseOf(state, me.value))
    {
      var steps: int :| 0 <= steps;
      for i := 0 to steps
        invariant Valid() && old(script) <= script
        invariant forall k :: |old(script)| <= k < |script| ==> me == None || ActorOf(script[k]) != me
        invariant me.Some? ==> PhaseOf(state, me.value) == old(PhaseOf(state, me.value))
      {
        var a: Action := *;
        if (me == None || ActorOf(a) != me) && (a.Insert? ==> drafts(a.draft)) {
          if me.Some? { OthersLeaveMyPhase(state, a, me.value); }
          Do(a);
        }
      }
    }
  }
}
