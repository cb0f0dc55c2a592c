/**
 * Mutual exclusion on task-credential mutations: a directory put in place by rename, taken
 * over from dead owners under an exclusive recovery claim. Any number of
 * processes run it, step by system call, and any of them may die.
 */
module TaskLock {
  import opened ControlEvents

  /** One attempt to take the lock; its nonce. Attempts are never reused. */
  type Attempt = nat

  /** A process, told apart by pid and start identity together. */
  type Pid = nat

  /** A recovery claim. `home` is the owner of the directory it was created in. */
  datatype Claim = Claim(id: nat, claimer: Attempt, target: Attempt, home: Attempt)

  /** The lock directory: the attempt its record names, and the recovery claim in it. */
  datatype Dir = Dir(owner: Attempt, claim: Option<Claim>)

  /** Where an attempt stands between two system calls. */
  datatype Local =
    | Waiting
    | SawRecord(seen: Attempt)
    | Reaping(claim: Claim)
    | Claiming(target: Attempt)
    | Claimed(claim: Claim)
    | RecordChecked(claim: Claim)
    | ClaimChecked(claim: Claim)
    | Quarantining(claim: Claim)
    | CleaningUp(claim: Claim)
    | Holding
    | Releasing
    | Done

  /**
   * `past` are the owners of directories that were renamed away, `pidOf` the
   * process of every attempt started so far, `claims` the claims ever written.
   */
  datatype State = State(lock: Option<Dir>, past: set<Attempt>, alive: set<Pid>, claims: nat,
                         pidOf: map<Attempt, Pid>, local: map<Attempt, Local>)

  function Init(alive: set<Pid>): State {
    State(None, {}, alive, 0, map[], map[])
  }

  predicate Live(s: State, a: Attempt) {
    a in s.pidOf && s.pidOf[a] in s.alive
  }

  predicate AtStep(s: State, a: Attempt) {
    a in s.local && Live(s, a)
  }

  function Go(s: State, a: Attempt, l: Local): State {
    s.(local := s.local[a := l])
  }

  predicate Holds(s: State, a: Attempt) {
    a in s.local && Live(s, a) && (s.local[a].Holding? || s.local[a].Releasing?)
  }

  datatype Step =
    | Begin(a: Attempt, p: Pid)
    | Die(p: Pid)
    | Acquire(a: Attempt)
    | GiveUp(a: Attempt)
    | ReadRecord(a: Attempt)
    | ReadClaim(a: Attempt)
    | Reap(a: Attempt)
    | WriteClaim(a: Attempt)
    | CheckRecord(a: Attempt)
    | CheckClaim(a: Attempt)
    | CheckRecordAgain(a: Attempt)
    | Quarantine(a: Attempt)
    | CleanUp(a: Attempt)
    | CheckOwnRecord(a: Attempt)
    | Release(a: Attempt)

  predicate Enabled(s: State, step: Step) {
    match step
    case Begin(a, p) => a !in s.pidOf && a !in s.local && p in s.alive
    case Die(p) => p in s.alive
    case Acquire(a) => AtStep(s, a) && s.local[a].Waiting? && s.lock.None?
    case GiveUp(a) => AtStep(s, a) && s.local[a].Waiting?
    case ReadRecord(a) => AtStep(s, a) && s.local[a].Waiting? && s.lock.Some?
    case ReadClaim(a) => AtStep(s, a) && s.local[a].SawRecord?
    case Reap(a) => AtStep(s, a) && s.local[a].Reaping?
    case WriteClaim(a) => AtStep(s, a) && s.local[a].Claiming?
    case CheckRecord(a) => AtStep(s, a) && s.local[a].Claimed?
    case CheckClaim(a) => AtStep(s, a) && s.local[a].RecordChecked?
    case CheckRecordAgain(a) => AtStep(s, a) && s.local[a].ClaimChecked?
    case Quarantine(a) => AtStep(s, a) && s.local[a].Quarantining?
    case CleanUp(a) => AtStep(s, a) && s.local[a].CleaningUp?
    case CheckOwnRecord(a) => AtStep(s, a) && s.local[a].Holding?
    case Release(a) => AtStep(s, a) && s.local[a].Releasing?
  }

  /** What a waiter does once it has seen a record and, separately, a claim or none. */
  function Decide(s: State, seen: Attempt, claim: Option<Claim>): Local {
    match claim
    case Some(c) => if c.target != seen || !Live(s, c.claimer) then Reaping(c) else Waiting
    case None => if Live(s, seen) then Waiting else Claiming(seen)
  }

  function ClaimInPlace(s: State): Option<Claim> {
    if s.lock.Some? then s.lock.value.claim else None
  }

  /** Compare the claim in place with `c` and take it away, in one step. */
  function RemoveClaim(s: State, c: Claim): State {
    if ClaimInPlace(s) == Some(c) then s.(lock := Some(s.lock.value.(claim := None))) else s
  }

  function DoWriteClaim(s: State, a: Attempt, target: Attempt): State {
    if s.lock.None? || s.lock.value.claim.Some? then Go(s, a, Waiting)
    else
      var c := Claim(s.claims, a, target, s.lock.value.owner);
      Go(s.(claims := s.claims + 1, lock := Some(s.lock.value.(claim := Some(c)))), a, Claimed(c))
  }

  /** The record in place is the claimed one and its owner is dead. */
  predicate TargetInPlace(s: State, c: Claim) {
    s.lock.Some? && s.lock.value.owner == c.target && !Live(s, c.target)
  }

  /** The lock directory is renamed away, whoever's it is. */
  function RenameAway(s: State): State {
    if s.lock.None? then s else s.(lock := None, past := s.past + {s.lock.value.owner})
  }

  function Apply(s: State, step: Step): State
    requires Enabled(s, step)
  {
    match step
    case Begin(a, p) => s.(pidOf := s.pidOf[a := p], local := s.local[a := Waiting])
    case Die(p) => s.(alive := s.alive - {p})
    case Acquire(a) => Go(s.(lock := Some(Dir(a, None))), a, Holding)
    case GiveUp(a) => Go(s, a, Done)
    case ReadRecord(a) => Go(s, a, SawRecord(s.lock.value.owner))
    case ReadClaim(a) => Go(s, a, Decide(s, s.local[a].seen, ClaimInPlace(s)))
    case Reap(a) => Go(RemoveClaim(s, s.local[a].claim), a, Waiting)
    case WriteClaim(a) => DoWriteClaim(s, a, s.local[a].target)
    case CheckRecord(a) =>
      var c := s.local[a].claim;
      Go(s, a, if TargetInPlace(s, c) then RecordChecked(c) else CleaningUp(c))
    case CheckClaim(a) =>
      var c := s.local[a].claim;
      Go(s, a, if ClaimInPlace(s) == Some(c) then ClaimChecked(c) else CleaningUp(c))
    case CheckRecordAgain(a) =>
      var c := s.local[a].claim;
      Go(s, a, if TargetInPlace(s, c) then Quarantining(c) else CleaningUp(c))
    case Quarantine(a) =>
      Go(RenameAway(s), a, if s.lock.Some? then Waiting else CleaningUp(s.local[a].claim))
    case CleanUp(a) => Go(RemoveClaim(s, s.local[a].claim), a, Waiting)
    case CheckOwnRecord(a) => Go(s, a, if s.lock.Some? && s.lock.value.owner == a then Releasing else Done)
    case Release(a) => Go(RenameAway(s), a, Done)
  }

  function Next(s: State, step: Step): State {
    if Enabled(s, step) then Apply(s, step) else s
  }

  function RunFrom(s: State, steps: seq<Step>): State {
    if steps == [] then s else Next(RunFrom(s, steps[..|steps| - 1]), steps[|steps| - 1])
  }

  function Run(alive: set<Pid>, steps: seq<Step>): State {
    RunFrom(Init(alive), steps)
  }

  /**
   * A waiter reads the record and then, separately, the claim. Here the lock
   * changed hands in between, and it meets a live process's claim on the record
   * now in place, which it takes for one left behind.
   */
  predicate Mismatched(s: State, step: Step) {
    step.ReadClaim? && Enabled(s, step) && ClaimInPlace(s).Some? && var c := ClaimInPlace(s).value;
    c.target == s.lock.value.owner && c.target != s.local[step.a].seen && Live(s, c.claimer)
  }

  /** No read of the run is mismatched. */
  predicate Matched(s: State, steps: seq<Step>) {
    steps == []
    || (Matched(s, steps[..|steps| - 1]) && !Mismatched(RunFrom(s, steps[..|steps| - 1]), steps[|steps| - 1]))
  }

  // ---- Invariant of runs without a mismatched read ----

  predicate ClaimOk(s: State, c: Claim) {
    && c.id < s.claims && c.claimer in s.pidOf && c.target in s.pidOf
    && (c.home in s.past || (s.lock.Some? && s.lock.value.owner == c.home))
  }

  predicate LocalOk(s: State, a: Attempt, l: Local) {
    match l
    case Waiting => true
    case SawRecord(seen) => seen in s.pidOf
    case Reaping(c) => ClaimOk(s, c) && (c.home != c.target || !Live(s, c.claimer))
    case Claiming(target) => target in s.pidOf && !Live(s, target)
    case Claimed(c) => ClaimOk(s, c) && c.claimer == a && !Live(s, c.target)
    case RecordChecked(c) =>
      ClaimOk(s, c) && c.claimer == a && !Live(s, c.target) && (c.home == c.target || c.home in s.past)
    case ClaimChecked(c) => Guards(s, a, c)
    case Quarantining(c) => Guards(s, a, c)
    case CleaningUp(c) => ClaimOk(s, c) && c.claimer == a
    case Holding => s.lock.Some? && s.lock.value.owner == a
    case Releasing => s.lock.Some? && s.lock.value.owner == a
    case Done => true
  }

  /** A live claimer past its checks: the dead owner's directory is in place and holds this claim. */
  predicate Guards(s: State, a: Attempt, c: Claim) {
    && ClaimOk(s, c) && c.claimer == a && c.home == c.target && !Live(s, c.target)
    && s.lock == Some(Dir(c.target, Some(c)))
  }

  predicate LockOk(s: State) {
    && (s.lock.Some? ==>
          && s.lock.value.owner !in s.past && s.lock.value.owner in s.pidOf
          && (s.lock.value.claim.Some? ==>
                ClaimOk(s, s.lock.value.claim.value) && s.lock.value.claim.value.home == s.lock.value.owner))
    && (forall a :: a in s.past ==> a in s.pidOf)
    && s.local.Keys == s.pidOf.Keys
  }

  /** A waiting or claiming attempt never owned a directory. */
  predicate NeverOwned(s: State, a: Attempt) {
    a in s.past || (s.lock.Some? && s.lock.value.owner == a) ==>
      a in s.local && (s.local[a].Holding? || s.local[a].Releasing? || s.local[a].Done?)
  }

  predicate LocalsOk(s: State) {
    forall a :: a in s.local && Live(s, a) ==> LocalOk(s, a, s.local[a]) && NeverOwned(s, a)
  }

  predicate Inv(s: State) {
    LockOk(s) && LocalsOk(s)
  }

  /** Only the local state of `a` changes. */
  lemma GoKeeps(s: State, a: Attempt, l: Local)
    requires Inv(s) && a in s.local
    requires Live(s, a) ==> LocalOk(s, a, l)
    requires NeverOwned(s, a)
    requires !(s.local[a].Holding? || s.local[a].Releasing? || s.local[a].Done?)
          || l.Holding? || l.Releasing? || l.Done?
    ensures Inv(Go(s, a, l))
  {
    hide LocalOk;
    var s' := Go(s, a, l);
    forall b | b in s'.local && Live(s', b) ensures LocalOk(s', b, s'.local[b]) && NeverOwned(s', b) {
      LocalSame(s, s', b, s'.local[b]);
    }
    assert forall c: Claim :: ClaimOk(s, c) ==> ClaimOk(s', c);
  }

  /** The condition on one attempt looks at the lock, the dead and the claims only. */
  lemma LocalSame(s: State, s': State, b: Attempt, l: Local)
    requires s'.lock == s.lock && s'.past == s.past && s'.claims == s.claims
    requires s'.alive == s.alive && s'.pidOf == s.pidOf
    ensures LocalOk(s', b, l) <==> LocalOk(s, b, l)
  {
  }

  lemma BeginKeeps(s: State, a: Attempt, p: Pid)
    requires Inv(s) && Enabled(s, Begin(a, p))
    ensures Inv(Apply(s, Begin(a, p)))
  {
    hide LocalOk;
    var s' := Apply(s, Begin(a, p));
    forall b | b in s'.local && Live(s', b) ensures LocalOk(s', b, s'.local[b]) && NeverOwned(s', b) {
      if b != a { BornSame(s, s', a, b, s.local[b]); } else { FreshWaits(s', a); }
    }
    assert forall c: Claim :: ClaimOk(s, c) ==> ClaimOk(s', c);
  }

  lemma FreshWaits(s: State, a: Attempt)
    ensures LocalOk(s, a, Waiting)
  {
  }

  lemma BornSame(s: State, s': State, a: Attempt, b: Attempt, l: Local)
    requires Inv(s) && b in s.local && Live(s, b) && LocalOk(s, b, l)
    requires a !in s.pidOf && s' == s.(pidOf := s'.pidOf, local := s'.local)
    requires s'.pidOf.Keys == s.pidOf.Keys + {a} && forall j :: j in s.pidOf ==> s'.pidOf[j] == s.pidOf[j]
    ensures LocalOk(s', b, l)
  {
  }

  lemma DieKeeps(s: State, p: Pid)
    requires Inv(s) && Enabled(s, Die(p))
    ensures Inv(Apply(s, Die(p)))
  {
    var s' := Apply(s, Die(p));
    assert forall c: Claim :: ClaimOk(s, c) ==> ClaimOk(s', c);
    forall b | b in s'.local && Live(s', b) ensures LocalOk(s', b, s'.local[b]) && NeverOwned(s', b) {
      assert Live(s, b);
    }
  }

  lemma AcquireKeeps(s: State, a: Attempt)
    requires Inv(s) && Enabled(s, Acquire(a))
    ensures Inv(Apply(s, Acquire(a)))
  {
    var s' := Apply(s, Acquire(a));
    assert forall c: Claim :: ClaimOk(s, c) ==> ClaimOk(s', c);
    forall b | b in s'.local && Live(s', b) && b != a ensures LocalOk(s', b, s'.local[b]) && NeverOwned(s', b) {
      assert LocalOk(s, b, s.local[b]);
    }
  }

  lemma ReadRecordKeeps(s: State, a: Attempt)
    requires Inv(s) && Enabled(s, ReadRecord(a))
    ensures Inv(Apply(s, ReadRecord(a)))
  {
    GoFrom(s, a, SawRecord(s.lock.value.owner));
  }

  /** A claim it decides to take away guards nothing, unless the read was mismatched. */
  lemma ReadClaimKeeps(s: State, a: Attempt)
    requires Inv(s) && Enabled(s, ReadClaim(a)) && !Mismatched(s, ReadClaim(a))
    ensures Inv(Apply(s, ReadClaim(a)))
  {
    assert LocalOk(s, a, s.local[a]);
    GoFrom(s, a, Decide(s, s.local[a].seen, ClaimInPlace(s)));
  }

  /** A live attempt that holds nothing moves on without touching the lock. */
  lemma GoFrom(s: State, a: Attempt, l: Local)
    requires Inv(s) && AtStep(s, a) && LocalOk(s, a, l)
    requires !(s.local[a].Holding? || s.local[a].Releasing? || s.local[a].Done?) || l.Done? || l.Releasing?
    ensures Inv(Go(s, a, l))
  {
    hide LocalOk;
    GoKeeps(s, a, l);
  }

  /** Taking away a claim that guards nothing. */
  lemma RemoveKeeps(s: State, c: Claim, a: Attempt)
    requires Inv(s) && AtStep(s, a)
    requires forall b :: b in s.local && Live(s, b) && s.local[b].ClaimChecked? ==> s.local[b].claim != c
    requires forall b :: b in s.local && Live(s, b) && s.local[b].Quarantining? ==> s.local[b].claim != c
    ensures Inv(RemoveClaim(s, c))
  {
    var s' := RemoveClaim(s, c);
    assert forall d: Claim :: ClaimOk(s, d) ==> ClaimOk(s', d);
    forall b | b in s'.local && Live(s', b) ensures LocalOk(s', b, s'.local[b]) && NeverOwned(s', b) {
      assert LocalOk(s, b, s.local[b]);
    }
  }

  lemma ReapKeeps(s: State, a: Attempt)
    requires Inv(s) && Enabled(s, Reap(a))
    ensures Inv(Apply(s, Reap(a)))
  {
    var c := s.local[a].claim;
    assert LocalOk(s, a, s.local[a]);
    forall b | b in s.local && Live(s, b) && (s.local[b].ClaimChecked? || s.local[b].Quarantining?)
      ensures s.local[b].claim != c
    {
      assert LocalOk(s, b, s.local[b]);
    }
    RemoveKeeps(s, c, a);
    GoFrom(RemoveClaim(s, c), a, Waiting);
  }

  lemma CleanUpKeeps(s: State, a: Attempt)
    requires Inv(s) && Enabled(s, CleanUp(a))
    ensures Inv(Apply(s, CleanUp(a)))
  {
    var c := s.local[a].claim;
    assert LocalOk(s, a, s.local[a]);
    forall b | b in s.local && Live(s, b) && (s.local[b].ClaimChecked? || s.local[b].Quarantining?)
      ensures s.local[b].claim != c
    {
      assert LocalOk(s, b, s.local[b]);
    }
    RemoveKeeps(s, c, a);
    GoFrom(RemoveClaim(s, c), a, Waiting);
  }

  lemma WriteClaimKeeps(s: State, a: Attempt)
    requires Inv(s) && Enabled(s, WriteClaim(a))
    ensures Inv(Apply(s, WriteClaim(a)))
  {
    var t := s.local[a].target;
    assert LocalOk(s, a, s.local[a]);
    if s.lock.None? || s.lock.value.claim.Some? {
      GoFrom(s, a, Waiting);
    } else {
      var c := Claim(s.claims, a, t, s.lock.value.owner);
      var s1 := s.(claims := s.claims + 1, lock := Some(s.lock.value.(claim := Some(c))));
      assert forall d: Claim :: ClaimOk(s, d) ==> ClaimOk(s1, d);
      forall b | b in s1.local && Live(s1, b) ensures LocalOk(s1, b, s1.local[b]) && NeverOwned(s1, b) {
        assert LocalOk(s, b, s.local[b]);
      }
      GoFrom(s1, a, Claimed(c));
    }
  }

  lemma CheckKeeps(s: State, a: Attempt, step: Step)
    requires Inv(s) && Enabled(s, step)
    requires step == CheckRecord(a) || step == CheckClaim(a) || step == CheckRecordAgain(a)
    ensures Inv(Apply(s, step))
  {
    assert LocalOk(s, a, s.local[a]);
    GoFrom(s, a, Apply(s, step).local[a]);
  }

  /** Only the directory of a dead owner, or its own, is ever renamed away. */
  lemma RenameKeeps(s: State, a: Attempt, l: Local)
    requires Inv(s) && AtStep(s, a) && s.lock.Some?
    requires (s.local[a].Quarantining? && l == Waiting) || (s.local[a].Releasing? && l == Done)
    ensures Inv(Go(RenameAway(s), a, l))
  {
    assert LocalOk(s, a, s.local[a]);
    var s1 := RenameAway(s);
    var s' := Go(s1, a, l);
    assert forall d: Claim :: ClaimOk(s, d) ==> ClaimOk(s', d);
    forall b | b in s'.local && Live(s', b) ensures LocalOk(s', b, s'.local[b]) && NeverOwned(s', b) {
      if b != a { assert LocalOk(s, b, s.local[b]); }
    }
  }

  lemma NextKeeps(s: State, step: Step)
    requires Inv(s) && !Mismatched(s, step)
    ensures Inv(Next(s, step))
  {
    hide Inv, RemoveClaim, RenameAway, DoWriteClaim, Decide, TargetInPlace, Mismatched;
    if Enabled(s, step) {
      match step
      case Begin(a, p) => BeginKeeps(s, a, p);
      case Die(p) => DieKeeps(s, p);
      case Acquire(a) => AcquireKeeps(s, a);
      case GiveUp(a) => GoFrom(s, a, Done);
      case ReadRecord(a) => ReadRecordKeeps(s, a);
      case ReadClaim(a) => ReadClaimKeeps(s, a);
      case Reap(a) => ReapKeeps(s, a);
      case WriteClaim(a) => WriteClaimKeeps(s, a);
      case CheckRecord(a) => CheckKeeps(s, a, step);
      case CheckClaim(a) => CheckKeeps(s, a, step);
      case CheckRecordAgain(a) => CheckKeeps(s, a, step);
      case Quarantine(a) =>
        if s.lock.Some? { RenameKeeps(s, a, Waiting); } else { QuarantiningIsInPlace(s, a); }
      case CleanUp(a) => CleanUpKeeps(s, a);
      case CheckOwnRecord(a) => OwnRecordKeeps(s, a);
      case Release(a) => QuarantiningIsInPlace(s, a); RenameKeeps(s, a, Done);
    }
  }

  lemma QuarantiningIsInPlace(s: State, a: Attempt)
    requires Inv(s) && AtStep(s, a)
    ensures s.local[a].Quarantining? || s.local[a].Releasing? || s.local[a].Holding? ==> s.lock.Some?
  {
    assert LocalOk(s, a, s.local[a]);
  }

  lemma OwnRecordKeeps(s: State, a: Attempt)
    requires Inv(s) && Enabled(s, CheckOwnRecord(a))
    ensures Inv(Apply(s, CheckOwnRecord(a)))
  {
    assert LocalOk(s, a, s.local[a]);
    GoFrom(s, a, Releasing);
  }

  // ---- The claim in place is being carried out ----

  /** An attempt that goes on to take the dead owner's lock away, or to take its claim back. */
  predicate CarriesOut(l: Local, c: Claim, owner: Attempt) {
    || ((l.Claimed? || l.RecordChecked? || l.ClaimChecked? || l.Quarantining?) && l.claim == c)
    || (l.CleaningUp? && l.claim == c && c.target != owner)
  }

  predicate ClaimerOk(s: State) {
    ClaimInPlace(s).Some? && Live(s, ClaimInPlace(s).value.claimer) ==>
      var c := ClaimInPlace(s).value;
      c.claimer in s.local && CarriesOut(s.local[c.claimer], c, s.lock.value.owner)
  }

  lemma ClaimerKeeps(s: State, step: Step)
    requires Inv(s) && ClaimerOk(s)
    ensures ClaimerOk(Next(s, step))
  {
    if Enabled(s, step) && !step.Begin? && !step.Die? {
      assert LocalOk(s, step.a, s.local[step.a]);
    }
  }

  lemma {:induction false} RunKeeps(s: State, steps: seq<Step>)
    requires Inv(s) && ClaimerOk(s) && Matched(s, steps)
    ensures Inv(RunFrom(s, steps)) && ClaimerOk(RunFrom(s, steps))
  {
    if steps != [] {
      hide Inv, ClaimerOk, Next, Mismatched;
      var n := |steps| - 1;
      RunKeeps(s, steps[..n]);
      NextKeeps(RunFrom(s, steps[..n]), steps[n]);
      ClaimerKeeps(RunFrom(s, steps[..n]), steps[n]);
    }
  }

  lemma InitOk(alive: set<Pid>)
    ensures Inv(Init(alive)) && ClaimerOk(Init(alive))
  {
  }

  // ---- Mutual exclusion ----

  ghost predicate OneHolder(s: State) {
    forall a, b :: Holds(s, a) && Holds(s, b) ==> a == b
  }

  lemma HolderOwns(s: State, a: Attempt)
    requires Inv(s) && Holds(s, a)
    ensures s.lock.Some? && s.lock.value.owner == a
  {
    assert LocalOk(s, a, s.local[a]);
  }

  lemma InvOneHolder(s: State)
    requires Inv(s)
    ensures OneHolder(s)
  {
    forall a, b | Holds(s, a) && Holds(s, b) ensures a == b {
      HolderOwns(s, a);
      HolderOwns(s, b);
    }
  }

  /**
   * In every run of any number of processes, dying at any step, in which no
   * read is mismatched: every live holder's own lock is in place, so there is
   * at most one.
   */
  lemma AtMostOneHolder(alive: set<Pid>, steps: seq<Step>)
    requires Matched(Init(alive), steps)
    ensures OneHolder(Run(alive, steps))
    ensures var s := Run(alive, steps);
            forall a :: Holds(s, a) ==> s.lock.Some? && s.lock.value.owner == a
  {
    hide RunFrom, Inv;
    InitOk(alive);
    RunKeeps(Init(alive), steps);
    var s := Run(alive, steps);
    InvOneHolder(s);
    forall a | Holds(s, a) ensures s.lock.Some? && s.lock.value.owner == a {
      HolderOwns(s, a);
    }
  }

  /** And no step renames away the lock of another live process. */
  lemma LiveLockStays(alive: set<Pid>, steps: seq<Step>, step: Step)
    requires Matched(Init(alive), steps)
    requires var s := Run(alive, steps); Enabled(s, step) && s.lock.Some? && Apply(s, step).lock.None?
    ensures var s := Run(alive, steps);
            !Live(s, s.lock.value.owner) || step == Release(s.lock.value.owner)
  {
    hide RunFrom;
    InitOk(alive);
    RunKeeps(Init(alive), steps);
    var s := Run(alive, steps);
    match step
    case Quarantine(a) => assert LocalOk(s, a, s.local[a]);
    case Release(a) => assert LocalOk(s, a, s.local[a]);
    case _ =>
  }
}
