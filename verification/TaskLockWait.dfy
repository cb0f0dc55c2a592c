/**
 * A waiter left to itself: exactly when it can come to hold the lock, and what a
 * holder's release gives it.
 */
module TaskLockWait {
  import opened ControlEvents
  import opened TaskLock

  /** All steps are this attempt's own: nobody else moves, begins or dies. */
  predicate Alone(steps: seq<Step>, a: Attempt) {
    forall i :: 0 <= i < |steps| ==> !steps[i].Begin? && !steps[i].Die? && steps[i].a == a
  }

  /** The claim is by a dead process, or on another record than the one in place. */
  predicate LeftBehind(s: State, c: Claim) {
    !Live(s, c.claimer) || (s.lock.Some? && s.lock.value.owner != c.target)
  }

  /** There is no lock, or its owner is dead and nobody alive is recovering it. */
  predicate CanTake(s: State) {
    s.lock.Some? ==>
      !Live(s, s.lock.value.owner)
      && (s.lock.value.claim.Some? ==> LeftBehind(s, s.lock.value.claim.value))
  }

  lemma Then(s: State, steps: seq<Step>, step: Step)
    ensures RunFrom(s, steps + [step]) == Next(RunFrom(s, steps), step)
  {
    hide Next;
    assert (steps + [step])[..|steps|] == steps;
  }

  lemma AloneMore(steps: seq<Step>, step: Step, a: Attempt)
    requires Alone(steps, a) && !step.Begin? && !step.Die? && step.a == a
    ensures Alone(steps + [step], a)
  {
  }

  lemma Moves(s: State, steps: seq<Step>, step: Step, a: Attempt) returns (longer: seq<Step>)
    requires Alone(steps, a) && !step.Begin? && !step.Die? && step.a == a && Enabled(RunFrom(s, steps), step)
    ensures Alone(longer, a) && RunFrom(s, longer) == Apply(RunFrom(s, steps), step)
  {
    hide RunFrom;
    Then(s, steps, step);
    AloneMore(steps, step, a);
    longer := steps + [step];
  }

  /** It takes a left behind claim away. */
  lemma ReapsClaim(s: State, steps: seq<Step>, a: Attempt) returns (longer: seq<Step>)
    requires Alone(steps, a)
    requires var t := RunFrom(s, steps);
             && AtStep(t, a) && t.local[a].Waiting? && t.lock.Some? && CanTake(t)
    ensures Alone(longer, a)
    ensures var t, t' := RunFrom(s, steps), RunFrom(s, longer);
            && AtStep(t', a) && t'.local[a].Waiting? && t'.alive == t.alive && t'.pidOf == t.pidOf
            && t'.lock == Some(Dir(t.lock.value.owner, None))
  {
    var t := RunFrom(s, steps);
    hide RunFrom;
    if t.lock.value.claim.None? {
      longer := steps;
    } else {
      longer := Moves(s, steps, ReadRecord(a), a);
      longer := Moves(s, longer, ReadClaim(a), a);
      longer := Moves(s, longer, Reap(a), a);
    }
  }

  /** It claims the dead owner's lock and renames it away. */
  lemma Recovers(s: State, steps: seq<Step>, a: Attempt, o: Attempt) returns (longer: seq<Step>)
    requires Alone(steps, a)
    requires var t := RunFrom(s, steps);
             AtStep(t, a) && t.local[a].Waiting? && t.lock == Some(Dir(o, None)) && !Live(t, o)
    ensures Alone(longer, a)
    ensures var t, t' := RunFrom(s, steps), RunFrom(s, longer);
            AtStep(t', a) && t'.local[a].Waiting? && t'.lock.None?
  {
    hide RunFrom;
    longer := Moves(s, steps, ReadRecord(a), a);
    longer := Moves(s, longer, ReadClaim(a), a);
    longer := Moves(s, longer, WriteClaim(a), a);
    longer := Checks(s, longer, a, o);
    longer := Moves(s, longer, Quarantine(a), a);
  }

  lemma Checks(s: State, steps: seq<Step>, a: Attempt, o: Attempt) returns (longer: seq<Step>)
    requires Alone(steps, a)
    requires var t := RunFrom(s, steps);
             && AtStep(t, a) && t.local[a].Claimed? && t.lock == Some(Dir(o, Some(t.local[a].claim)))
             && t.local[a].claim.target == o && !Live(t, o)
    ensures Alone(longer, a)
    ensures var t, t' := RunFrom(s, steps), RunFrom(s, longer);
            AtStep(t', a) && t'.local[a].Quarantining? && t'.lock == t.lock
  {
    hide RunFrom;
    longer := Moves(s, steps, CheckRecord(a), a);
    longer := Moves(s, longer, CheckClaim(a), a);
    longer := Moves(s, longer, CheckRecordAgain(a), a);
  }

  /** What a waiter cannot change: a live owner, or a live process's claim on the record in place. */
  predicate Stuck(s: State, a: Attempt) {
    && s.lock.Some? && a in s.local
    && match s.local[a]
       case Waiting => !CanTake(s)
       case SawRecord(seen) => !CanTake(s) && seen == s.lock.value.owner
       case Reaping(_) => Live(s, s.lock.value.owner)
       case Done => true
       case _ => false
  }

  lemma StuckStays(s: State, step: Step, a: Attempt)
    requires Stuck(s, a) && !step.Begin? && !step.Die? && step.a == a
    ensures Stuck(Next(s, step), a)
  {
  }

  lemma {:induction false} StuckForGood(s: State, steps: seq<Step>, a: Attempt)
    requires Stuck(s, a) && Alone(steps, a)
    ensures Stuck(RunFrom(s, steps), a)
  {
    hide Stuck, Next;
    if steps != [] {
      var n := |steps| - 1;
      assert Alone(steps[..n], a);
      StuckForGood(s, steps[..n], a);
      StuckStays(RunFrom(s, steps[..n]), steps[n], a);
    }
  }

  /**
   * A live waiter that is left to itself can come to hold the lock if and only if
   * there is none, or its owner is dead and any claim in it is left behind.
   */
  lemma TakesAloneIff(s: State, a: Attempt)
    requires AtStep(s, a) && s.local[a].Waiting?
    ensures (exists steps :: Alone(steps, a) && Holds(RunFrom(s, steps), a)) <==> CanTake(s)
  {
    hide RunFrom;
    if CanTake(s) {
      Start(s);
      var steps: seq<Step> := [];
      if s.lock.Some? {
        steps := ReapsClaim(s, steps, a);
        steps := Recovers(s, steps, a, s.lock.value.owner);
      }
      steps := Moves(s, steps, Acquire(a), a);
      assert Alone(steps, a) && Holds(RunFrom(s, steps), a);
    } else {
      forall steps | Alone(steps, a) ensures !Holds(RunFrom(s, steps), a) {
        StuckForGood(s, steps, a);
      }
    }
  }

  lemma Start(s: State)
    ensures RunFrom(s, []) == s
  {
  }

  /** A holder's release takes its own two steps and leaves no lock: any live waiter can take it then. */
  lemma ReleaseFrees(alive: set<Pid>, steps: seq<Step>, a: Attempt)
    requires Matched(Init(alive), steps) && Holds(Run(alive, steps), a) && Run(alive, steps).local[a].Holding?
    ensures var s' := RunFrom(Run(alive, steps), [CheckOwnRecord(a), Release(a)]);
            s'.lock.None? && CanTake(s') && a in s'.local && s'.local[a].Done?
  {
    hide RunFrom;
    InitOk(alive);
    RunKeeps(Init(alive), steps);
    var s := Run(alive, steps);
    assert LocalOk(s, a, s.local[a]);
    Start(s);
    Then(s, [], CheckOwnRecord(a));
    Then(s, [CheckOwnRecord(a)], Release(a));
    assert [] + [CheckOwnRecord(a)] == [CheckOwnRecord(a)];
    assert [CheckOwnRecord(a)] + [Release(a)] == [CheckOwnRecord(a), Release(a)];
  }
}
