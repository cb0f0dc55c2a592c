/**
 * Why a mismatched read matters: from every one of them a run leads to two live
 * holders, and three processes are enough to get to one.
 */
module TaskLockRun {
  import opened ControlEvents
  import opened TaskLock

  lemma Took(s: State, steps: seq<Step>, step: Step, s': State)
    requires Matched(s, steps) && Enabled(RunFrom(s, steps), step) && Apply(RunFrom(s, steps), step) == s'
    requires !Mismatched(RunFrom(s, steps), step)
    ensures Matched(s, steps + [step]) && RunFrom(s, steps + [step]) == s'
  {
    hide Mismatched, Apply;
    assert (steps + [step])[..|steps|] == steps;
  }

  // ---- From a mismatched read to two holders ----

  /** What a mismatched waiter and the claimer it disturbs go on to change. */
  datatype Pair = Pair(lock: Option<Dir>, past: set<Attempt>, claims: nat, waiter: Local, claimer: Local)

  /** The state once waiter `a` and claimer `x` have come so far; nobody else moves. */
  function Among(s: State, a: Attempt, x: Attempt, w: Pair): State {
    s.(lock := w.lock, past := w.past, claims := w.claims, local := s.local[a := w.waiter][x := w.claimer])
  }

  /** Neither begins nor kills anybody, and is taken by one of the two. */
  predicate Only(steps: seq<Step>, a: Attempt, x: Attempt) {
    forall i :: 0 <= i < |steps| ==> !steps[i].Begin? && !steps[i].Die? && steps[i].a in {a, x}
  }

  /** The stage: a waiter and a claimer of live processes, and a dead owner. */
  predicate Stage(s: State, a: Attempt, x: Attempt, o: Attempt) {
    a != x && AtStep(s, a) && AtStep(s, x) && !Live(s, o)
  }

  lemma WaiterMoved(s: State, steps: seq<Step>, s1: State, a: Attempt, x: Attempt, w: Pair, step: Step, w': Pair)
    returns (longer: seq<Step>)
    requires a != x && Matched(s, steps) && RunFrom(s, steps) == Among(s1, a, x, w)
    requires Only(steps, a, x) && Only([step], a, x)
    requires Enabled(Among(s1, a, x, w), step) && !Mismatched(Among(s1, a, x, w), step)
    requires Apply(Among(s1, a, x, w), step) == Go(Among(s1, a, x, w'), a, w'.waiter)
    ensures Matched(s, longer) && RunFrom(s, longer) == Among(s1, a, x, w') && Only(longer, a, x)
  {
    hide RunFrom, Matched, Mismatched, Enabled, Apply;
    assert Only([step], a, x) ==> [step][0].a in {a, x};
    assert Go(Among(s1, a, x, w'), a, w'.waiter) == Among(s1, a, x, w');
    Took(s, steps, step, Among(s1, a, x, w'));
    longer := steps + [step];
  }

  lemma ClaimerMoved(s: State, steps: seq<Step>, s1: State, a: Attempt, x: Attempt, w: Pair, step: Step, w': Pair)
    returns (longer: seq<Step>)
    requires a != x && Matched(s, steps) && RunFrom(s, steps) == Among(s1, a, x, w)
    requires Only(steps, a, x) && Only([step], a, x)
    requires Enabled(Among(s1, a, x, w), step) && !Mismatched(Among(s1, a, x, w), step)
    requires Apply(Among(s1, a, x, w), step) == Go(Among(s1, a, x, w'), x, w'.claimer)
    ensures Matched(s, longer) && RunFrom(s, longer) == Among(s1, a, x, w') && Only(longer, a, x)
  {
    hide RunFrom, Matched, Mismatched, Enabled, Apply;
    assert Only([step], a, x) ==> [step][0].a in {a, x};
    assert Go(Among(s1, a, x, w'), x, w'.claimer) == Among(s1, a, x, w');
    Took(s, steps, step, Among(s1, a, x, w'));
    longer := steps + [step];
  }

  /** A claimer whose claim is in place on the dead owner's lock passes all its checks. */
  lemma ClaimerGoesOn(s: State, steps: seq<Step>, s1: State, a: Attempt, x: Attempt, w: Pair, c: Claim)
    returns (longer: seq<Step>)
    requires Stage(s1, a, x, c.target) && w.lock == Some(Dir(c.target, Some(c)))
    requires CarriesOut(w.claimer, c, c.target)
    requires Matched(s, steps) && RunFrom(s, steps) == Among(s1, a, x, w) && Only(steps, a, x)
    ensures Matched(s, longer) && Only(longer, a, x)
    ensures RunFrom(s, longer) == Among(s1, a, x, w.(claimer := Quarantining(c)))
  {
    hide RunFrom, Matched;
    longer := steps;
    var w1 := w;
    if w1.claimer.Claimed? {
      longer := ClaimerMoved(s, longer, s1, a, x, w1, CheckRecord(x), w1.(claimer := RecordChecked(c)));
      w1 := w1.(claimer := RecordChecked(c));
    }
    if w1.claimer.RecordChecked? {
      longer := ClaimerMoved(s, longer, s1, a, x, w1, CheckClaim(x), w1.(claimer := ClaimChecked(c)));
      w1 := w1.(claimer := ClaimChecked(c));
    }
    if w1.claimer.ClaimChecked? {
      longer := ClaimerMoved(s, longer, s1, a, x, w1, CheckRecordAgain(x), w1.(claimer := Quarantining(c)));
    }
  }

  /** The waiter takes the claim away and finds the dead owner's record again. */
  lemma WaiterReaps(s: State, steps: seq<Step>, s1: State, a: Attempt, x: Attempt, w: Pair, c: Claim)
    returns (longer: seq<Step>)
    requires Stage(s1, a, x, c.target) && w.lock == Some(Dir(c.target, Some(c))) && w.waiter == Reaping(c)
    requires Matched(s, steps) && RunFrom(s, steps) == Among(s1, a, x, w) && Only(steps, a, x)
    ensures Matched(s, longer) && Only(longer, a, x)
    ensures RunFrom(s, longer)
         == Among(s1, a, x, w.(lock := Some(Dir(c.target, None)), waiter := SawRecord(c.target)))
  {
    hide RunFrom, Matched;
    var w1 := w.(lock := Some(Dir(c.target, None)), waiter := Waiting);
    longer := WaiterMoved(s, steps, s1, a, x, w, Reap(a), w1);
    longer := WaiterMoved(s, longer, s1, a, x, w1, ReadRecord(a), w1.(waiter := SawRecord(c.target)));
  }

  /** It claims the dead owner's lock for itself. */
  lemma WaiterClaims(s: State, steps: seq<Step>, s1: State, a: Attempt, x: Attempt, w: Pair, o: Attempt)
    returns (longer: seq<Step>)
    requires Stage(s1, a, x, o) && w.lock == Some(Dir(o, None)) && w.waiter == SawRecord(o)
    requires Matched(s, steps) && RunFrom(s, steps) == Among(s1, a, x, w) && Only(steps, a, x)
    ensures var d := Claim(w.claims, a, o, o);
            Matched(s, longer) && Only(longer, a, x)
            && RunFrom(s, longer)
               == Among(s1, a, x, w.(lock := Some(Dir(o, Some(d))), claims := w.claims + 1, waiter := Claimed(d)))
  {
    hide RunFrom, Matched;
    var w1 := w.(waiter := Claiming(o));
    longer := WaiterMoved(s, steps, s1, a, x, w, ReadClaim(a), w1);
    var d := Claim(w.claims, a, o, o);
    var w2 := w.(lock := Some(Dir(o, Some(d))), claims := w.claims + 1, waiter := Claimed(d));
    longer := WaiterMoved(s, longer, s1, a, x, w1, WriteClaim(a), w2);
  }

  /** Now both are past their checks: the waiter too. */
  lemma WaiterChecks(s: State, steps: seq<Step>, s1: State, a: Attempt, x: Attempt, w: Pair, d: Claim)
    returns (longer: seq<Step>)
    requires Stage(s1, a, x, d.target) && w.lock == Some(Dir(d.target, Some(d))) && w.waiter == Claimed(d)
    requires Matched(s, steps) && RunFrom(s, steps) == Among(s1, a, x, w) && Only(steps, a, x)
    ensures Matched(s, longer) && Only(longer, a, x)
    ensures RunFrom(s, longer) == Among(s1, a, x, w.(waiter := Quarantining(d)))
  {
    hide RunFrom, Matched;
    var w1 := w.(waiter := RecordChecked(d));
    longer := WaiterMoved(s, steps, s1, a, x, w, CheckRecord(a), w1);
    var w2 := w.(waiter := ClaimChecked(d));
    longer := WaiterMoved(s, longer, s1, a, x, w1, CheckClaim(a), w2);
    longer := WaiterMoved(s, longer, s1, a, x, w2, CheckRecordAgain(a), w.(waiter := Quarantining(d)));
  }

  /** The claimer takes the dead owner's lock; the waiter renames that away and takes it as well. */
  lemma BothTake(s: State, steps: seq<Step>, s1: State, a: Attempt, x: Attempt, w: Pair) returns (longer: seq<Step>)
    requires a != x && AtStep(s1, a) && AtStep(s1, x)
    requires w.lock.Some? && w.waiter.Quarantining? && w.claimer.Quarantining?
    requires Matched(s, steps) && RunFrom(s, steps) == Among(s1, a, x, w) && Only(steps, a, x)
    ensures Matched(s, longer) && Only(longer, a, x)
    ensures Holds(RunFrom(s, longer), a) && Holds(RunFrom(s, longer), x)
  {
    hide RunFrom, Matched;
    var w1 := w.(lock := None, past := w.past + {w.lock.value.owner}, claimer := Waiting);
    longer := ClaimerMoved(s, steps, s1, a, x, w, Quarantine(x), w1);
    var w2 := w1.(lock := Some(Dir(x, None)), claimer := Holding);
    longer := ClaimerMoved(s, longer, s1, a, x, w1, Acquire(x), w2);
    var w3 := w2.(lock := None, past := w2.past + {x}, waiter := Waiting);
    longer := WaiterMoved(s, longer, s1, a, x, w2, Quarantine(a), w3);
    longer := WaiterMoved(s, longer, s1, a, x, w3, Acquire(a), w3.(lock := Some(Dir(a, None)), waiter := Holding));
  }

  /** Those who play in it: the waiter, the claimer it disturbs, and the dead owner. */
  lemma MismatchStage(s: State, a: Attempt)
    requires Inv(s) && ClaimerOk(s) && Mismatched(s, ReadClaim(a))
    ensures var c := ClaimInPlace(s).value;
            && Stage(s, a, c.claimer, c.target) && s.lock == Some(Dir(c.target, Some(c)))
            && c.target in s.pidOf && CarriesOut(s.local[c.claimer], c, c.target)
            && Apply(s, ReadClaim(a)) == Go(s, a, Reaping(c))
  {
    var c := ClaimInPlace(s).value;
    assert LocalOk(s, c.claimer, s.local[c.claimer]);
  }

  /**
   * Every mismatched read can go wrong: the waiter and the claimer it disturbs,
   * on their own and with no further mismatched read, both come to hold the lock.
   */
  lemma MismatchBreaks(s: State, a: Attempt) returns (more: seq<Step>)
    requires Inv(s) && ClaimerOk(s) && Mismatched(s, ReadClaim(a))
    ensures var s' := Apply(s, ReadClaim(a));
            var x := ClaimInPlace(s).value.claimer;
            Matched(s', more) && Only(more, a, x) && Holds(RunFrom(s', more), a) && Holds(RunFrom(s', more), x)
  {
    hide Inv, Mismatched, RunFrom, Matched;
    MismatchStage(s, a);
    var c := ClaimInPlace(s).value;
    var x := c.claimer;
    var s' := Go(s, a, Reaping(c));
    var w := Pair(s.lock, s.past, s.claims, Reaping(c), s.local[x]);
    StartsAmong(s', a, x, w);
    more := ClaimerGoesOn(s', [], s', a, x, w, c);
    var w1 := w.(claimer := Quarantining(c));
    more := WaiterReaps(s', more, s', a, x, w1, c);
    var w2 := w1.(lock := Some(Dir(c.target, None)), waiter := SawRecord(c.target));
    more := WaiterClaims(s', more, s', a, x, w2, c.target);
    var d := Claim(w.claims, a, c.target, c.target);
    var w3 := w2.(lock := Some(Dir(c.target, Some(d))), claims := w2.claims + 1, waiter := Claimed(d));
    more := WaiterChecks(s', more, s', a, x, w3, d);
    more := BothTake(s', more, s', a, x, w3.(waiter := Quarantining(d)));
  }

  lemma StartsAmong(s: State, a: Attempt, x: Attempt, w: Pair)
    requires a in s.local && x in s.local
    requires w == Pair(s.lock, s.past, s.claims, s.local[a], s.local[x])
    ensures Matched(s, []) && RunFrom(s, []) == Among(s, a, x, w)
  {
    assert s.local == s.local[a := w.waiter][x := w.claimer];
  }

  /**
   * Exactly which steps are safe: after a matched run, a step leaves the lock
   * exclusive in all matched continuations if and only if it is not a
   * mismatched read.
   */
  lemma ExclusiveIffMatched(alive: set<Pid>, steps: seq<Step>, step: Step)
    requires Matched(Init(alive), steps)
    ensures !Mismatched(Run(alive, steps), step)
       <==> forall more :: Matched(Next(Run(alive, steps), step), more) ==>
              OneHolder(RunFrom(Next(Run(alive, steps), step), more))
  {
    hide RunFrom, Inv, ClaimerOk, Matched, Holds;
    InitOk(alive);
    RunKeeps(Init(alive), steps);
    var s := Run(alive, steps);
    if Mismatched(s, step) {
      var more := MismatchBreaks(s, step.a);
      MismatchStage(s, step.a);
      assert Matched(Next(s, step), more) && !OneHolder(RunFrom(Next(s, step), more));
    } else {
      NextKeeps(s, step);
      ClaimerKeeps(s, step);
      forall more | Matched(Next(s, step), more) ensures OneHolder(RunFrom(Next(s, step), more)) {
        RunKeeps(Next(s, step), more);
        InvOneHolder(RunFrom(Next(s, step), more));
      }
    }
  }

  // ---- How many processes it takes ----

  /** A process starts an attempt only after its earlier ones are done. */
  predicate OneAtATime(s: State, steps: seq<Step>) {
    steps == []
    || (OneAtATime(s, steps[..|steps| - 1]) && StartsAlone(RunFrom(s, steps[..|steps| - 1]), steps[|steps| - 1]))
  }

  predicate StartsAlone(s: State, step: Step) {
    step.Begin? ==> forall b :: b in s.local && b in s.pidOf && s.pidOf[b] == step.p ==> s.local[b].Done?
  }

  /** Every process is one of the first ones, and runs at most one attempt. */
  predicate Alone(alive: set<Pid>, s: State) {
    && s.alive <= alive
    && (forall a :: a in s.pidOf ==> s.pidOf[a] in alive)
    && (forall a, b | a in s.local && b in s.local && a in s.pidOf && b in s.pidOf ::
          s.pidOf[a] == s.pidOf[b] && !s.local[a].Done? && !s.local[b].Done? ==> a == b)
  }

  lemma AloneKeeps(alive: set<Pid>, s: State, step: Step)
    requires Alone(alive, s) && StartsAlone(s, step) && s.local.Keys == s.pidOf.Keys
    ensures Alone(alive, Next(s, step))
  {
  }

  /** With two processes nobody is left to disturb: the owner of a claimed lock is dead. */
  lemma TwoNeverMismatch(alive: set<Pid>, s: State, step: Step)
    requires Inv(s) && ClaimerOk(s) && Alone(alive, s) && |alive| <= 2
    ensures !Mismatched(s, step)
  {
    if Mismatched(s, step) {
      MismatchStage(s, step.a);
      var c := ClaimInPlace(s).value;
      var three := {s.pidOf[step.a], s.pidOf[c.claimer], s.pidOf[c.target]};
      assert |three| == 3;
      CardinalityAtMost(three, alive);
    }
  }

  lemma {:induction false} CardinalityAtMost<T>(small: set<T>, large: set<T>)
    requires small <= large
    ensures |small| <= |large|
  {
    if small != {} {
      var x :| x in small;
      CardinalityAtMost(small - {x}, large - {x});
    }
  }

  lemma {:induction false} TwoStayMatched(alive: set<Pid>, steps: seq<Step>)
    requires |alive| <= 2 && OneAtATime(Init(alive), steps)
    ensures Matched(Init(alive), steps) && Alone(alive, Run(alive, steps))
  {
    if steps != [] {
      hide Inv, ClaimerOk, Mismatched, Next, StartsAlone, Alone;
      var n := |steps| - 1;
      TwoStayMatched(alive, steps[..n]);
      InitOk(alive);
      RunKeeps(Init(alive), steps[..n]);
      var s := Run(alive, steps[..n]);
      TwoNeverMismatch(alive, s, steps[n]);
      KeysAgree(s);
      AloneKeeps(alive, s, steps[n]);
    }
  }

  lemma KeysAgree(s: State)
    requires Inv(s)
    ensures s.local.Keys == s.pidOf.Keys
  {
  }

  /** What is fixed of a run of three processes, one of which comes twice. */
  predicate Looks(alive: set<Pid>, steps: seq<Step>, s: State) {
    Run(alive, steps) == s && Matched(Init(alive), steps) && OneAtATime(Init(alive), steps)
  }

  lemma Then(alive: set<Pid>, steps: seq<Step>, s: State, step: Step, s': State) returns (longer: seq<Step>)
    requires Looks(alive, steps, s) && Enabled(s, step) && Apply(s, step) == s'
    requires !Mismatched(s, step) && StartsAlone(s, step)
    ensures Looks(alive, longer, s')
  {
    hide StartsAlone, Apply, Enabled, Mismatched;
    longer := steps + [step];
    assert longer[..|longer| - 1] == steps;
  }

  /** Attempt 1 reads the record of attempt 0. */
  lemma ReadsRecord(alive: set<Pid>, p: Pid, q: Pid) returns (steps: seq<Step>)
    requires p in alive && q in alive && p != q
    ensures Looks(alive, steps, State(Some(Dir(0, None)), {}, alive, 0, map[0 := p, 1 := q],
                                      map[0 := Holding, 1 := SawRecord(0)]))
  {
    steps := [];
    var s1 := State(None, {}, alive, 0, map[0 := p], map[0 := Waiting]);
    steps := Then(alive, steps, Init(alive), Begin(0, p), s1);
    hide Looks;
    var s2 := s1.(lock := Some(Dir(0, None)), local := map[0 := Holding]);
    steps := Then(alive, steps, s1, Acquire(0), s2);
    var s3 := s2.(pidOf := map[0 := p, 1 := q], local := map[0 := Holding, 1 := Waiting]);
    steps := Then(alive, steps, s2, Begin(1, q), s3);
    steps := Then(alive, steps, s3, ReadRecord(1), s3.(local := map[0 := Holding, 1 := SawRecord(0)]));
  }

  /** Attempt 0 releases the lock; then attempt 2 takes it and dies. */
  lemma OwnerDies(alive: set<Pid>, p: Pid, q: Pid, r: Pid) returns (steps: seq<Step>)
    requires p in alive && q in alive && r in alive && p != q && p != r && q != r
    ensures Looks(alive, steps, State(Some(Dir(2, None)), {0}, alive - {r}, 0, map[0 := p, 1 := q, 2 := r],
                                      map[0 := Done, 1 := SawRecord(0), 2 := Holding]))
  {
    hide Looks;
    steps := ReadsRecord(alive, p, q);
    var s0 := State(Some(Dir(0, None)), {}, alive, 0, map[0 := p, 1 := q], map[0 := Holding, 1 := SawRecord(0)]);
    var s1 := s0.(local := map[0 := Releasing, 1 := SawRecord(0)]);
    steps := Then(alive, steps, s0, CheckOwnRecord(0), s1);
    var s2 := s1.(lock := None, past := {0}, local := map[0 := Done, 1 := SawRecord(0)]);
    steps := Then(alive, steps, s1, Release(0), s2);
    var s3 := s2.(pidOf := map[0 := p, 1 := q, 2 := r], local := map[0 := Done, 1 := SawRecord(0), 2 := Waiting]);
    steps := Then(alive, steps, s2, Begin(2, r), s3);
    var s4 := s3.(lock := Some(Dir(2, None)), local := map[0 := Done, 1 := SawRecord(0), 2 := Holding]);
    steps := Then(alive, steps, s3, Acquire(2), s4);
    steps := Then(alive, steps, s4, Die(r), s4.(alive := alive - {r}));
  }

  /** The process that held the lock first comes again and claims the dead owner's lock. */
  lemma ComesAgain(alive: set<Pid>, p: Pid, q: Pid, r: Pid) returns (steps: seq<Step>, s: State)
    requires p in alive && q in alive && r in alive && p != q && p != r && q != r
    ensures Looks(alive, steps, s) && Mismatched(s, ReadClaim(1))
  {
    hide Looks;
    steps := OwnerDies(alive, p, q, r);
    var s0 := State(Some(Dir(2, None)), {0}, alive - {r}, 0, map[0 := p, 1 := q, 2 := r],
                    map[0 := Done, 1 := SawRecord(0), 2 := Holding]);
    s := s0.(pidOf := s0.pidOf[3 := p], local := s0.local[3 := Waiting]);
    steps := Then(alive, steps, s0, Begin(3, p), s);
    var s1 := Go(s, 3, SawRecord(2));
    steps := Then(alive, steps, s, ReadRecord(3), s1);
    var s2 := Go(s1, 3, Claiming(2));
    steps := Then(alive, steps, s1, ReadClaim(3), s2);
    var c := Claim(0, 3, 2, 2);
    s := Go(s2.(claims := 1, lock := Some(Dir(2, Some(c)))), 3, Claimed(c));
    steps := Then(alive, steps, s2, WriteClaim(3), s);
  }

  /** A run that begins nothing more starts nothing beside what is running. */
  lemma {:induction false} OnlyStartsNone(s: State, steps: seq<Step>, more: seq<Step>, a: Attempt, x: Attempt)
    requires OneAtATime(s, steps) && Only(more, a, x)
    ensures OneAtATime(s, steps + more) && RunFrom(s, steps + more) == RunFrom(RunFrom(s, steps), more)
  {
    if more == [] {
      assert steps + more == steps;
    } else {
      var n := |more| - 1;
      OnlyStartsNone(s, steps, more[..n], a, x);
      assert (steps + more)[..|steps + more| - 1] == steps + more[..n];
    }
  }

  /** Three processes, one attempt of each at a time, can come to hold the lock twice. */
  lemma TwoHolders(alive: set<Pid>, p: Pid, q: Pid, r: Pid) returns (steps: seq<Step>)
    requires p in alive && q in alive && r in alive && p != q && p != r && q != r
    ensures OneAtATime(Init(alive), steps) && !OneHolder(Run(alive, steps))
  {
    hide Mismatched, Apply, Enabled, Inv, ClaimerOk, Holds;
    var before, s := ComesAgain(alive, p, q, r);
    InitOk(alive);
    RunKeeps(Init(alive), before);
    MismatchStage(s, 1);
    var more := MismatchBreaks(s, 1);
    var x := ClaimInPlace(s).value.claimer;
    MismatchEnabled(s, 1);
    var upTo := before + [ReadClaim(1)];
    assert upTo[..|upTo| - 1] == before;
    OnlyStartsNone(Init(alive), upTo, more, 1, x);
    steps := upTo + more;
  }

  lemma MismatchEnabled(s: State, a: Attempt)
    requires Mismatched(s, ReadClaim(a))
    ensures Next(s, ReadClaim(a)) == Apply(s, ReadClaim(a))
  {
  }

  lemma ThreeOf(alive: set<Pid>) returns (p: Pid, q: Pid, r: Pid)
    requires |alive| > 2
    ensures p in alive && q in alive && r in alive && p != q && p != r && q != r
  {
    p :| p in alive;
    assert |alive - {p}| > 1;
    q :| q in alive - {p};
    assert |alive - {p} - {q}| > 0;
    r :| r in alive - {p} - {q};
  }

  /**
   * With one attempt at a time in each process the lock is exclusive in every
   * run if and only if at most two processes use it.
   */
  lemma ExclusiveIffTwoProcesses(alive: set<Pid>)
    ensures (forall steps :: OneAtATime(Init(alive), steps) ==> OneHolder(Run(alive, steps))) <==> |alive| <= 2
  {
    hide RunFrom, Matched, OneAtATime;
    if |alive| <= 2 {
      forall steps | OneAtATime(Init(alive), steps) ensures OneHolder(Run(alive, steps)) {
        TwoStayMatched(alive, steps);
        AtMostOneHolder(alive, steps);
      }
    } else {
      var p, q, r := ThreeOf(alive);
      var steps := TwoHolders(alive, p, q, r);
      assert OneAtATime(Init(alive), steps) && !OneHolder(Run(alive, steps));
    }
  }
}
