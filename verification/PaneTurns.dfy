/**
 * Which queued entries reach their handlers, told over the steps of a run; and
 * that every entry can leave and every caller be answered.
 */
module PaneTurns {
  import opened ControlEvents
  import opened PaneQueues

  // ---- What one step does to one entry ----

  /** A member of a queue object is an entry of its own target that has not left. */
  predicate IsMember(s: State, t: Target, i: nat, command: bool) {
    i < |s.items| && s.items[i].target == t && s.items[i].command == command && !s.items[i].runner.Finished?
  }

  predicate OwnMembers(s: State) {
    && (forall t, i :: t in s.queues && i in s.queues[t].items ==> IsMember(s, t, i, true))
    && (forall t, i :: t in s.queues && i in s.queues[t].effects ==> IsMember(s, t, i, false))
  }

  /** What an entry is does not change. */
  predicate SameEntry(x: Item, y: Item) {
    && y.target == x.target && y.command == x.command && y.automation == x.automation && y.barrier == x.barrier
    && (x.requested.Pending? || y.requested == x.requested)
  }

  predicate SameEntries(s: State, s': State) {
    |s.items| <= |s'.items| && forall i :: 0 <= i < |s.items| ==> SameEntry(s.items[i], s'.items[i])
  }

  lemma {:induction false} PreemptBelowIs(s: State, members: set<nat>, n: nat)
    requires n <= |s.items|
    ensures var r := PreemptBelow(s, members, n);
            && r.barriers == s.barriers && r.surfaces == s.surfaces && r.queues == s.queues && r.order == s.order
            && forall i :: 0 <= i < |s.items| ==>
                 var x := s.items[i];
                 if i < n && i in members && x.automation && !x.started && x.fixedBy.None?
                 then r.items[i] == x.(preempted := true, fixedBy := r.items[i].fixedBy) && r.items[i].fixedBy.Some?
                 else r.items[i] == x
  {
    if n > 0 { PreemptBelowIs(s, members, n - 1); }
  }

  /** A takeover raises the barrier of its pane and ends exactly the waiting automation of its registered queue. */
  lemma TakeoverIs(s: State, p: Id, i: nat)
    requires i < |s.items|
    ensures var s' := DoTakeover(s, p); var x, t := s.items[i], PaneTarget(s, p);
            && |s'.items| == |s.items| && s'.queues == s.queues && s'.surfaces == s.surfaces && s'.order == s.order
            && s'.barriers == s.barriers[p := Barrier(s, p) + 1]
            && if t in s.queues && i in s.queues[t].items && x.automation && !x.started && x.fixedBy.None?
               then s'.items[i] == x.(preempted := true, fixedBy := s'.items[i].fixedBy) && s'.items[i].fixedBy.Some?
               else s'.items[i] == x
  {
    var s1 := s.(barriers := s.barriers[p := Barrier(s, p) + 1]);
    var t := PaneTarget(s, p);
    if t in s.queues { PreemptBelowIs(s1, s.queues[t].items, |s.items|); }
  }

  /** At most one entry changed, in what may change of it; queues only lose members. */
  predicate OneChanged(s: State, s': State, j: nat) {
    && j < |s.items| && |s'.items| == |s.items| && s'.items == s.items[j := s'.items[j]]
    && SameEntry(s.items[j], s'.items[j]) && s'.barriers == s.barriers && s'.queues.Keys == s.queues.Keys
    && (forall t :: t in s.queues ==>
          s'.queues[t].items <= s.queues[t].items && s'.queues[t].effects <= s.queues[t].effects
          && s'.queues[t].blocked == s.queues[t].blocked)
  }

  lemma AwaitChanges(s: State, j: nat, catching: bool)
    requires j < |s.items|
    ensures OneChanged(s, AwaitTerminal(s, j, catching), j)
  {
  }

  lemma EndingChanges(s: State, j: nat, catching: bool)
    requires j < |s.items|
    ensures OneChanged(s, AwaitTerminal(s, j, catching), j) && OneChanged(s, Catch(s, j), j)
    ensures OneChanged(s, WithRunner(s, j, Leaving), j)
  {
    AwaitChanges(s, j, catching);
    AwaitChanges(s, j, true);
    hide AwaitTerminal;
  }

  /** What ending an entry makes of it. */
  predicate EndedTo(s: State, s': State, i: nat) {
    && i < |s.items| && |s'.items| == |s.items| && s'.order == s.order && s'.queues == s.queues
    && s'.barriers == s.barriers && s'.items[i].preempted == s.items[i].preempted
    && s'.items[i].requested == s.items[i].requested && s'.items[i].started == s.items[i].started
    && (s'.items[i].runner.Awaiting? || s'.items[i].runner.Leaving?)
    && (s'.items[i].runner.Awaiting? ==> s'.items[i].runner.call == |s.calls| && s'.calls == s.calls + [Call(i, None)])
    && (s.items[i].fixedBy.Some? ==> s'.items[i].runner.Leaving?)
  }

  lemma AwaitEnds(s: State, i: nat, catching: bool)
    requires i < |s.items|
    ensures EndedTo(s, AwaitTerminal(s, i, catching), i)
  {
  }

  lemma EndingEnds(s: State, i: nat)
    requires i < |s.items|
    ensures EndedTo(s, AwaitTerminal(s, i, false), i) && EndedTo(s, Catch(s, i), i)
    ensures EndedTo(s, WithRunner(s, i, Leaving), i)
  {
    AwaitEnds(s, i, false);
    AwaitEnds(s, i, true);
    hide AwaitTerminal;
  }

  predicate OfEntry(step: Step) {
    step.RequestAnswered? || step.TakeTurn? || step.HandlerReturned? || step.Resume? || step.Leave?
  }

  /** Steps of one entry. */
  lemma EntryStep(s: State, step: Step)
    requires Enabled(s, step) && OfEntry(step)
    ensures OneChanged(s, Apply(s, step), step.i)
  {
    EndingChanges(s, step.i, false);
    match step
    case RequestAnswered(_, _) =>
    case TakeTurn(i, valid) => TurnChanges(s, i, valid);
    case HandlerReturned(i, ok, timedOut) => HandlerChanges(s, i, ok, timedOut);
    case Resume(i) => ResumeChanges(s, i);
    case Leave(i) => LeaveChanges(s, i);
    case _ =>
  }

  lemma TurnChanges(s: State, i: nat, valid: bool)
    requires i < |s.items|
    ensures OneChanged(s, DoTakeTurn(s, i, valid), i)
  {
    EndingChanges(s, i, false);
    assert OneChanged(s, Start(s, i), i);
    hide AwaitTerminal, Catch, Start, WithRunner, OneChanged;
  }

  lemma HandlerChanges(s: State, i: nat, ok: bool, timedOut: bool)
    requires i < |s.items|
    ensures OneChanged(s, DoHandlerReturned(s, i, ok, timedOut), i)
  {
    EndingChanges(s, i, false);
    hide AwaitTerminal, Catch;
  }

  lemma ResumeChanges(s: State, i: nat)
    requires Enabled(s, Resume(i))
    ensures OneChanged(s, DoResume(s, i), i)
  {
    EndingChanges(s, i, true);
    hide AwaitTerminal, Catch;
  }

  lemma LeaveChanges(s: State, i: nat)
    requires i < |s.items|
    ensures OneChanged(s, DoLeave(s, i), i)
  {
  }

  lemma EntryStays(s: State, step: Step, i: nat)
    requires Enabled(s, step) && i < |s.items|
    ensures i < |Apply(s, step).items| && SameEntry(s.items[i], Apply(s, step).items[i])
  {
    if step.Takeover? {
      TakeoverIs(s, step.pane, i);
    } else if OfEntry(step) {
      EntryStep(s, step);
    } else {
      hide Enabled;
    }
  }

  /** Only leaving ends an entry, and a registered one leaves its queue then. */
  lemma LeavingOnly(s: State, step: Step, i: nat)
    requires Enabled(s, step) && i < |s.items| && i < |Apply(s, step).items|
    requires !s.items[i].runner.Finished? && Apply(s, step).items[i].runner.Finished?
    ensures step == Leave(i)
  {
    if step.Takeover? {
      TakeoverIs(s, step.pane, i);
    } else if OfEntry(step) {
      EntryStep(s, step);
      if step.i == i && !step.Leave? { EndsByLeaving(s, step); }
    } else {
      hide Enabled;
    }
  }

  lemma EndsByLeaving(s: State, step: Step)
    requires Enabled(s, step) && OfEntry(step) && !step.Leave? && !s.items[step.i].runner.Finished?
    ensures step.i < |Apply(s, step).items| && !Apply(s, step).items[step.i].runner.Finished?
  {
    EndingEnds(s, step.i);
    hide AwaitTerminal, Catch, DoLeave, DoEnqueue, DoEnqueueEffect, DoTakeover, Done, WithQueue;
  }

  lemma LeftIsNoMember(s: State, i: nat, t: Target)
    requires Inv(s) && Enabled(s, Leave(i)) && t in s.queues && s.items[i].target == t
    ensures t in DoLeave(s, i).queues
    ensures s.items[i].command ==> i !in DoLeave(s, i).queues[t].items
    ensures !s.items[i].command ==> i !in DoLeave(s, i).queues[t].effects
  {
    assert Registered(s, i);
    hide Inv;
  }

  lemma OwnMembersStay(s: State, step: Step)
    requires Inv(s) && OwnMembers(s)
    ensures OwnMembers(Next(s, step))
  {
    if Enabled(s, step) {
      var s' := Apply(s, step);
      hide Apply, Enabled, Inv;
      forall t, i | t in s'.queues && i in s'.queues[t].items ensures IsMember(s', t, i, true) {
        MemberStays(s, step, t, i, true);
      }
      forall t, i | t in s'.queues && i in s'.queues[t].effects ensures IsMember(s', t, i, false) {
        MemberStays(s, step, t, i, false);
      }
    }
  }

  lemma MemberStays(s: State, step: Step, t: Target, i: nat, command: bool)
    requires Inv(s) && OwnMembers(s) && Enabled(s, step) && t in Apply(s, step).queues
    requires i in (if command then Apply(s, step).queues[t].items else Apply(s, step).queues[t].effects)
    ensures IsMember(Apply(s, step), t, i, command)
  {
    MemberWas(s, step, t, i, command);
    if i < |s.items| {
      assert IsMember(s, t, i, command);
      EntryStays(s, step, i);
      if Apply(s, step).items[i].runner.Finished? {
        LeavingOnly(s, step, i);
        LeftIsNoMember(s, i, t);
      }
      hide Apply, Enabled, Inv;
    }
  }

  lemma MemberWas(s: State, step: Step, t: Target, i: nat, command: bool)
    requires Enabled(s, step) && t in Apply(s, step).queues
    requires i in (if command then Apply(s, step).queues[t].items else Apply(s, step).queues[t].effects)
    ensures (t in s.queues && i in (if command then s.queues[t].items else s.queues[t].effects))
            || (i == |s.items| && IsMember(Apply(s, step), t, i, command))
  {
    if step.Takeover? {
      if s.items != [] { TakeoverIs(s, step.pane, 0); }
      hide PreemptBelow;
    } else if OfEntry(step) {
      EntryStep(s, step);
      hide Apply;
    } else {
      OutsideMembers(s, step, t, i, command);
    }
  }

  predicate WasMember(s: State, s': State, t: Target, i: nat, command: bool)
    requires t in s'.queues
  {
    i in (if command then s'.queues[t].items else s'.queues[t].effects) ==>
      (t in s.queues && i in (if command then s.queues[t].items else s.queues[t].effects))
      || (i == |s.items| && IsMember(s', t, i, command))
  }

  lemma EnqueueMembers(s: State, p: Id, automation: bool, t: Target, i: nat, command: bool)
    requires t in DoEnqueue(s, p, automation).queues
    ensures WasMember(s, DoEnqueue(s, p, automation), t, i, command)
  {
  }

  lemma EffectMembers(s: State, u: Target, t: Target, i: nat, command: bool)
    requires t in DoEnqueueEffect(s, u).queues
    ensures WasMember(s, DoEnqueueEffect(s, u), t, i, command)
  {
  }

  lemma OutsideMembers(s: State, step: Step, t: Target, i: nat, command: bool)
    requires Enabled(s, step) && !step.Takeover? && !OfEntry(step) && t in Apply(s, step).queues
    ensures WasMember(s, Apply(s, step), t, i, command)
  {
    if step.Enqueue? {
      EnqueueMembers(s, step.pane, step.automation, t, i, command);
      hide WasMember;
    } else if step.EnqueueEffect? {
      EffectMembers(s, step.target, t, i, command);
      hide WasMember;
    } else {
      hide DoEnqueue, DoEnqueueEffect;
    }
  }

  // ---- Which entries reach their handlers ----

  /** At this step of the run a takeover of its pane finds the entry waiting for its turn. */
  predicate OvertakenAt(steps: seq<Step>, n: nat, i: nat)
    requires n < |steps|
  {
    var s := Run(steps[..n]);
    steps[n].Takeover? && i < |s.items| && s.items[i].runner.Queued? && s.items[i].target.id == steps[n].pane
  }

  predicate Overtaken(steps: seq<Step>, i: nat) {
    exists n :: 0 <= n < |steps| && OvertakenAt(steps, n, i)
  }

  /** At this step of the run the entry takes its turn and is found valid. */
  predicate ValidAt(steps: seq<Step>, n: nat, i: nat)
    requires n < |steps|
  {
    steps[n] == TakeTurn(i, true) && Enabled(Run(steps[..n]), steps[n])
  }

  predicate FoundValid(steps: seq<Step>, i: nat) {
    exists n :: 0 <= n < |steps| && ValidAt(steps, n, i)
  }

  /** `overtaken` and `valid` say what happened to the entry so far. */
  predicate Told(s: State, i: nat, overtaken: bool, valid: bool) {
    && i < |s.items|
    && var x := s.items[i];
       if x.runner.Queued? then
         && !x.started && (x.preempted ==> x.fixedBy.Some?) && (x.fixedBy.Some? ==> overtaken && x.automation)
         && (x.automation ==> (x.barrier == Barrier(s, x.target.id) <==> !overtaken))
         && (!x.command ==> !valid)
       else if x.command then x.started <==> x.requested.Written? && !(x.automation && overtaken)
       else x.started <==> valid
  }

  /** Nothing happens to the entry that matters for that. */
  predicate Calm(s: State, s': State, i: nat) {
    && i < |s.items| && i < |s'.items| && SameEntry(s.items[i], s'.items[i])
    && var x, y := s.items[i], s'.items[i];
       && y.runner.Queued? == x.runner.Queued? && y.started == x.started
       && (x.runner.Queued? ==> y.fixedBy == x.fixedBy && y.preempted == x.preempted)
       && (!x.runner.Queued? ==> y.requested == x.requested)
       && (x.runner.Queued? && x.automation ==> Barrier(s', x.target.id) == Barrier(s, x.target.id))
  }

  lemma CalmTold(s: State, s': State, i: nat, o: bool, v: bool)
    requires Told(s, i, o, v) && Calm(s, s', i)
    ensures Told(s', i, o, v)
  {
  }

  lemma TakeoverTold(s: State, p: Id, i: nat, o: bool, v: bool)
    requires Inv(s) && OwnMembers(s) && Told(s, i, o, v)
    ensures var x := s.items[i];
            Told(DoTakeover(s, p), i, o || (x.runner.Queued? && x.target.id == p), v)
  {
    ItemFacts(s, i);
    TakeoverIs(s, p, i);
    hide Inv, ChainOk;
  }

  lemma TurnTold(s: State, i: nat, valid: bool, o: bool, v: bool)
    requires Inv(s) && Told(s, i, o, v) && Enabled(s, TakeTurn(i, valid))
    ensures Told(DoTakeTurn(s, i, valid), i, o, v || valid)
  {
    ItemFacts(s, i);
    hide Inv, ChainOk, ItemOk, Done;
  }

  /** Any other step of the entry itself. */
  lemma OwnStepCalm(s: State, step: Step)
    requires Inv(s) && Enabled(s, step) && OfEntry(step) && !step.TakeTurn?
    ensures Calm(s, Apply(s, step), step.i)
  {
    EntryStep(s, step);
    hide AwaitTerminal, Catch, DoTakeTurn, DoHandlerReturned, DoResume;
    match step
    case RequestAnswered(i, _) => AnswerFindsWaiting(s, i);
    case HandlerReturned(i, ok, timedOut) => HandlerCalm(s, i, ok, timedOut);
    case Resume(i) => ResumeCalm(s, i);
    case _ =>
  }

  /** A request is answered before its command's turn. */
  lemma AnswerFindsWaiting(s: State, i: nat)
    requires Inv(s) && i < |s.items| && s.items[i].requested.Pending?
    ensures s.items[i].runner.Queued?
  {
    ItemFacts(s, i);
  }

  lemma HandlerCalm(s: State, i: nat, ok: bool, timedOut: bool)
    requires i < |s.items| && s.items[i].runner.Handling?
    ensures var s' := DoHandlerReturned(s, i, ok, timedOut); OneChanged(s, s', i) ==> Calm(s, s', i)
  {
    EndingEnds(s, i);
    hide AwaitTerminal, Catch;
  }

  lemma ResumeCalm(s: State, i: nat)
    requires Enabled(s, Resume(i))
    ensures OneChanged(s, DoResume(s, i), i) ==> Calm(s, DoResume(s, i), i)
  {
    EndingEnds(s, i);
    hide AwaitTerminal, Catch;
  }

  lemma OthersCalm(s: State, step: Step, i: nat)
    requires Inv(s) && Enabled(s, step) && i < |s.items| && !step.Takeover? && (OfEntry(step) ==> step.i != i)
    ensures Calm(s, Apply(s, step), i)
  {
    EntryStays(s, step, i);
    hide Apply, Inv, Enabled;
    if OfEntry(step) {
      EntryStep(s, step);
    } else if step.PruneBarrier? {
      PruneCalm(s, step.pane, i);
    } else {
      OutsideCalm(s, step, i);
    }
  }

  /** Steps that are no entry's. */
  lemma OutsideCalm(s: State, step: Step, i: nat)
    requires Enabled(s, step) && i < |s.items| && !step.Takeover? && !OfEntry(step) && !step.PruneBarrier?
    requires i < |Apply(s, step).items| && SameEntry(s.items[i], Apply(s, step).items[i])
    ensures Calm(s, Apply(s, step), i)
  {
  }

  lemma PruneCalm(s: State, p: Id, i: nat)
    requires Inv(s) && Enabled(s, PruneBarrier(p)) && i < |s.items|
    ensures Calm(s, Apply(s, PruneBarrier(p)), i)
  {
    ItemFacts(s, i);
    if s.items[i].command && !s.items[i].runner.Finished? { PrunableHasNone(s, p, i); }
    hide Inv;
  }

  lemma StepTold(s: State, step: Step, i: nat, o: bool, v: bool)
    requires Inv(s) && OwnMembers(s) && Told(s, i, o, v) && Enabled(s, step)
    ensures Told(Apply(s, step), i,
                 o || (step.Takeover? && s.items[i].runner.Queued? && s.items[i].target.id == step.pane),
                 v || step == TakeTurn(i, true))
  {
    hide Inv, Calm, DoTakeTurn, DoTakeover;
    var s' := Apply(s, step);
    if step.Takeover? {
      TakeoverTold(s, step.pane, i, o, v);
    } else if step.TakeTurn? && step.i == i {
      TurnTold(s, i, step.valid, o, v);
    } else {
      if OfEntry(step) && step.i == i { OwnStepCalm(s, step); } else { OthersCalm(s, step, i); }
      CalmTold(s, s', i, o, v);
    }
  }

  /** A new entry starts with nothing having happened to it. */
  lemma NewTold(s: State, step: Step)
    requires Enabled(s, step) && |Apply(s, step).items| > |s.items|
    ensures |Apply(s, step).items| == |s.items| + 1 && Told(Apply(s, step), |s.items|, false, false)
  {
    if step.Takeover? && s.items != [] {
      TakeoverIs(s, step.pane, 0);
    } else if OfEntry(step) {
      EntryStep(s, step);
    }
  }

  lemma {:induction false} RunOwnMembers(steps: seq<Step>)
    ensures OwnMembers(Run(steps))
  {
    if steps != [] {
      hide OwnMembers, Next, Inv;
      RunKeeps(steps[..|steps| - 1]);
      RunOwnMembers(steps[..|steps| - 1]);
      OwnMembersStay(Run(steps[..|steps| - 1]), steps[|steps| - 1]);
    } else {
      assert Run(steps) == Init();
    }
  }

  lemma {:induction false} EntriesStay(steps: seq<Step>, n: nat)
    requires n <= |steps|
    ensures SameEntries(Run(steps[..n]), Run(steps))
  {
    if n < |steps| {
      hide SameEntry;
      var m := |steps| - 1;
      EntriesStay(steps[..m], n);
      assert steps[..m][..n] == steps[..n];
      var s := Run(steps[..m]);
      if Enabled(s, steps[m]) {
        StepEntries(s, steps[m]);
      } else {
        SameSelf(s);
      }
      SameTransitive(Run(steps[..n]), s, Run(steps));
    } else {
      assert steps[..n] == steps;
      SameSelf(Run(steps));
    }
  }

  lemma StepEntries(s: State, step: Step)
    requires Enabled(s, step)
    ensures SameEntries(s, Apply(s, step))
  {
    hide Apply, Enabled, SameEntry;
    forall i | 0 <= i < |s.items| ensures i < |Apply(s, step).items| && SameEntry(s.items[i], Apply(s, step).items[i]) {
      EntryStays(s, step, i);
    }
    if s.items != [] { EntryStays(s, step, |s.items| - 1); }
  }

  lemma SameSelf(s: State)
    ensures SameEntries(s, s)
  {
  }

  lemma SameTransitive(a: State, b: State, c: State)
    requires SameEntries(a, b) && SameEntries(b, c)
    ensures SameEntries(a, c)
  {
    forall i | 0 <= i < |a.items| ensures SameEntry(a.items[i], c.items[i]) {
      assert SameEntry(a.items[i], b.items[i]) && SameEntry(b.items[i], c.items[i]);
    }
  }

  lemma OvertakenSnoc(steps: seq<Step>, i: nat)
    requires steps != []
    ensures var n := |steps| - 1;
            Overtaken(steps, i) <==> Overtaken(steps[..n], i) || OvertakenAt(steps, n, i)
  {
    hide RunFrom;
    var m := |steps| - 1;
    if n :| 0 <= n < |steps| && OvertakenAt(steps, n, i) {
      if n < m {
        assert steps[..m][..n] == steps[..n] && OvertakenAt(steps[..m], n, i);
      }
    }
    if n :| 0 <= n < |steps[..m]| && OvertakenAt(steps[..m], n, i) {
      assert steps[..m][..n] == steps[..n] && OvertakenAt(steps, n, i);
    }
  }

  lemma FoundValidSnoc(steps: seq<Step>, i: nat)
    requires steps != []
    ensures var n := |steps| - 1;
            FoundValid(steps, i) <==> FoundValid(steps[..n], i) || ValidAt(steps, n, i)
  {
    hide RunFrom, Enabled;
    var m := |steps| - 1;
    if n :| 0 <= n < |steps| && ValidAt(steps, n, i) {
      if n < m {
        assert steps[..m][..n] == steps[..n] && ValidAt(steps[..m], n, i);
      }
    }
    if n :| 0 <= n < |steps[..m]| && ValidAt(steps[..m], n, i) {
      assert steps[..m][..n] == steps[..n] && ValidAt(steps, n, i);
    }
  }

  /** Nothing happened to an entry before it was queued. */
  lemma NotBefore(steps: seq<Step>, i: nat)
    requires i >= |Run(steps).items|
    ensures !Overtaken(steps, i) && !FoundValid(steps, i)
  {
    hide RunFrom;
    forall n | 0 <= n < |steps| ensures !OvertakenAt(steps, n, i) && !ValidAt(steps, n, i) {
      EntriesStay(steps, n);
    }
  }

  lemma {:induction false} RunTold(steps: seq<Step>, i: nat)
    requires i < |Run(steps).items|
    ensures Told(Run(steps), i, Overtaken(steps, i), FoundValid(steps, i))
  {
    hide Inv, OwnMembers, Told, Overtaken, FoundValid, OvertakenAt, ValidAt, Next, RunFrom;
    RunLast(steps);
    var n := |steps| - 1;
    RunKeeps(steps[..n]);
    RunOwnMembers(steps[..n]);
    OvertakenSnoc(steps, i);
    FoundValidSnoc(steps, i);
    if i < |Run(steps[..n]).items| {
      RunTold(steps[..n], i);
      LastTold(steps, i, Overtaken(steps[..n], i), FoundValid(steps[..n], i));
    } else {
      NotBefore(steps[..n], i);
      LastNew(steps, i);
    }
  }

  lemma RunLast(steps: seq<Step>)
    ensures steps == [] ==> Run(steps) == Init()
    ensures steps != [] ==> Run(steps) == Next(Run(steps[..|steps| - 1]), steps[|steps| - 1])
  {
    hide Next;
  }

  lemma LastTold(steps: seq<Step>, i: nat, o: bool, v: bool)
    requires steps != [] && var s := Run(steps[..|steps| - 1]); Inv(s) && OwnMembers(s) && Told(s, i, o, v)
    ensures var n := |steps| - 1;
            Told(Next(Run(steps[..n]), steps[n]), i, o || OvertakenAt(steps, n, i), v || ValidAt(steps, n, i))
  {
    hide Inv, OwnMembers, RunFrom, Apply;
    var s, step := Run(steps[..|steps| - 1]), steps[|steps| - 1];
    if Enabled(s, step) { StepTold(s, step, i, o, v); }
  }

  lemma LastNew(steps: seq<Step>, i: nat)
    requires steps != [] && var n := |steps| - 1;
             |Run(steps[..n]).items| <= i < |Next(Run(steps[..n]), steps[n]).items|
    ensures var n := |steps| - 1;
            && Told(Next(Run(steps[..n]), steps[n]), i, false, false)
            && !OvertakenAt(steps, n, i) && !ValidAt(steps, n, i)
  {
    hide RunFrom, Told, Apply;
    NewTold(Run(steps[..|steps| - 1]), steps[|steps| - 1]);
  }

  /**
   * In every run an entry that took its turn reached its handler exactly if: as
   * a command, its request was written and, for automation, no takeover of its
   * pane found it waiting; as an effect, it was found valid. While it waits it
   * did not, and a takeover is the only thing that ends it beforehand.
   */
  lemma StartedIff(steps: seq<Step>, i: nat)
    requires i < |Run(steps).items|
    ensures var s := Run(steps); var x := s.items[i];
            && (x.runner.Queued? ==> !x.started && (x.fixedBy.Some? ==> x.automation && Overtaken(steps, i)))
            && (!x.runner.Queued? && x.command ==>
                  (x.started <==> x.requested.Written? && !(x.automation && Overtaken(steps, i))))
            && (!x.runner.Queued? && !x.command ==> (x.started <==> FoundValid(steps, i)))
  {
    hide RunFrom, Overtaken, FoundValid;
    RunTold(steps, i);
  }

  /**
   * Taking the turn invokes the handler at once, next in order, exactly if the
   * request was written and, for automation, no takeover of its pane came since
   * it was queued; an effect's handler exactly if the effect is found valid.
   */
  lemma TurnStartsIff(steps: seq<Step>, i: nat, valid: bool)
    requires Enabled(Run(steps), TakeTurn(i, valid))
    ensures var s := Run(steps); var x, s' := s.items[i], Apply(s, TakeTurn(i, valid));
            var starts := if x.command then x.requested.Written? && !(x.automation && Overtaken(steps, i)) else valid;
            && !x.started && s'.items[i].started == starts && s'.order == s.order + (if starts then [i] else [])
            && (starts ==> s'.items[i].runner.Handling?)
            && (!starts ==> s'.items[i].runner.Awaiting? || s'.items[i].runner.Leaving?)
  {
    hide RunFrom, Overtaken, FoundValid, Done;
    RunTold(steps, i);
    EndingEnds(Run(steps), i);
    hide AwaitTerminal, Catch;
  }

  // ---- Every entry can leave, and every caller be answered ----

  function Stages(s: State, i: nat): nat
    requires i < |s.items|
  {
    match s.items[i].runner
    case Queued => if s.items[i].requested.Pending? then 7 else 6
    case Handling => 5
    case Awaiting(c, _) => if c < |s.calls| && s.calls[c].answer.Some? then 3 else 4
    case Leaving => 2
    case Finished => 0
  }

  predicate AllBefore(s: State, i: nat) {
    i <= |s.items| && forall j :: 0 <= j < i ==> s.items[j].runner.Finished?
  }

  /** The call an entry awaits can return. */
  lemma CallCanReturn(s: State, i: nat, c: nat)
    requires Inv(s) && i < |s.items| && s.items[i].fixedBy == Some(c) && !s.items[i].requested.Pending?
    requires c < |s.calls| && s.calls[c].answer.None?
    ensures var step := CallReturns(c, s.items[i].requested.Written?);
            && Enabled(s, step) && s.calls[c].item == i
            && Apply(s, step).items == s.items[i := s.items[i].(settlements := s.items[i].settlements + 1)]
            && |Apply(s, step).calls| == |s.calls| && Apply(s, step).calls[c].answer.Some?
  {
    ItemFacts(s, i);
  }

  /** The step an entry can take next once its predecessors have left. */
  function NextOf(s: State, i: nat): Step
    requires i < |s.items|
  {
    var x := s.items[i];
    match x.runner
    case Queued => if x.requested.Pending? then RequestAnswered(i, true) else TakeTurn(i, true)
    case Handling => HandlerReturned(i, true, false)
    case Awaiting(c, _) =>
      if c < |s.calls| && s.calls[c].answer.None? then CallReturns(c, x.requested.Written?) else Resume(i)
    case Leaving => Leave(i)
    case Finished => Leave(i)
  }

  lemma NextEnabled(s: State, i: nat)
    requires Inv(s) && i < |s.items| && AllBefore(s, i) && !s.items[i].runner.Finished?
    ensures Enabled(s, NextOf(s, i))
  {
    ItemFacts(s, i);
    if s.items[i].runner.Awaiting? && s.calls[s.items[i].runner.call].answer.None? {
      CallCanReturn(s, i, s.items[i].runner.call);
    }
    hide Inv;
  }

  lemma OnlyOneMoves(s: State, i: nat)
    requires Inv(s) && i < |s.items| && !s.items[i].runner.Finished? && Enabled(s, NextOf(s, i))
    ensures var s' := Apply(s, NextOf(s, i));
            |s'.items| == |s.items| && forall j :: 0 <= j < |s.items| && j != i ==> s'.items[j] == s.items[j]
  {
    var step := NextOf(s, i);
    if OfEntry(step) {
      EntryStep(s, step);
    } else {
      ItemFacts(s, i);
      CallCanReturn(s, i, s.items[i].runner.call);
    }
    hide Inv, Apply, Enabled;
  }

  lemma NextMoves(s: State, i: nat)
    requires Inv(s) && i < |s.items| && !s.items[i].runner.Finished? && Enabled(s, NextOf(s, i))
    ensures i < |Apply(s, NextOf(s, i)).items| && Stages(Apply(s, NextOf(s, i)), i) < Stages(s, i)
  {
    OnlyOneMoves(s, i);
    var x := s.items[i];
    hide DoTakeTurn, DoHandlerReturned, DoResume, DoLeave;
    if x.runner.Queued? {
      if !x.requested.Pending? { TurnMoves(s, i); }
    } else if x.runner.Handling? {
      HandlerMoves(s, i);
    } else if x.runner.Awaiting? {
      AwaitingMoves(s, i);
    } else {
      LeaveMoves(s, i);
    }
  }

  lemma AwaitingMoves(s: State, i: nat)
    requires Inv(s) && i < |s.items| && s.items[i].runner.Awaiting? && Enabled(s, NextOf(s, i))
    ensures |Apply(s, NextOf(s, i)).items| == |s.items| && Stages(Apply(s, NextOf(s, i)), i) < Stages(s, i)
  {
    OnlyOneMoves(s, i);
    ItemFacts(s, i);
    hide Inv;
    if NextOf(s, i).Resume? { ResumeMoves(s, i); hide DoResume; }
  }

  /** The next step of an entry whose predecessors have left brings it closer to leaving. */
  lemma MovesOn(s: State, i: nat) returns (step: Step)
    requires Inv(s) && i < |s.items| && AllBefore(s, i) && !s.items[i].runner.Finished?
    ensures Enabled(s, step) && |Apply(s, step).items| == |s.items|
    ensures Stages(Apply(s, step), i) < Stages(s, i)
    ensures AllBefore(Apply(s, step), i)
  {
    hide Inv, NextOf, Apply, Enabled, Stages;
    step := NextOf(s, i);
    NextEnabled(s, i);
    OnlyOneMoves(s, i);
    NextMoves(s, i);
  }

  lemma TurnMoves(s: State, i: nat)
    requires i < |s.items| && s.items[i].runner.Queued? && !s.items[i].requested.Pending?
    ensures Stages(DoTakeTurn(s, i, true), i) < 6
  {
    EndingEnds(s, i);
    hide AwaitTerminal, Catch;
  }

  lemma HandlerMoves(s: State, i: nat)
    requires i < |s.items| && s.items[i].runner.Handling?
    ensures Stages(DoHandlerReturned(s, i, true, false), i) < 5
  {
    EndingEnds(s, i);
    hide AwaitTerminal, Catch;
  }

  lemma LeaveMoves(s: State, i: nat)
    requires i < |s.items|
    ensures Stages(DoLeave(s, i), i) == 0
  {
  }

  lemma ResumeMoves(s: State, i: nat)
    requires Inv(s) && Enabled(s, Resume(i))
    ensures Stages(DoResume(s, i), i) < 3
  {
    ItemFacts(s, i);
    EndingEnds(s, i);
    hide Inv, AwaitTerminal, Catch, ChainOk;
  }

  lemma {:induction false} LeavesFrom(s: State, i: nat) returns (more: seq<Step>)
    requires Inv(s) && i < |s.items| && AllBefore(s, i)
    ensures var s' := RunFrom(s, more); Inv(s') && |s'.items| == |s.items| && AllBefore(s', i + 1)
    decreases Stages(s, i)
  {
    if s.items[i].runner.Finished? {
      more := [];
    } else {
      hide Inv, Apply, Enabled, RunFrom;
      var step := MovesOn(s, i);
      var s1 := Next(s, step);
      NextKeeps(s, step);
      var rest := LeavesFrom(s1, i);
      more := [step] + rest;
      RunMore(s, [step], rest);
      RunOne(s, step);
    }
  }

  lemma RunOne(s: State, step: Step)
    ensures RunFrom(s, [step]) == Next(s, step) && RunFrom(s, []) == s
  {
    assert [step][..0] == [] && RunFrom(s, []) == s;
  }

  lemma {:induction false} AllLeave(s: State, n: nat) returns (more: seq<Step>)
    requires Inv(s) && n <= |s.items|
    ensures var s' := RunFrom(s, more); Inv(s') && |s'.items| == |s.items| && AllBefore(s', n)
  {
    if n == 0 {
      more := [];
    } else {
      hide Inv, RunFrom;
      more := AllLeave(s, n - 1);
      var rest := LeavesFrom(RunFrom(s, more), n - 1);
      RunMore(s, more, rest);
      more := more + rest;
    }
  }

  /**
   * From every state a run comes to, every entry can still leave its queue, and
   * the caller of every command be answered exactly once: nothing blocks for good.
   */
  lemma EveryoneCanLeave(steps: seq<Step>, i: nat) returns (more: seq<Step>)
    requires i < |Run(steps).items|
    ensures var s := Run(steps + more);
            && |s.items| == |Run(steps).items| && s.items[i].runner.Finished?
            && (s.items[i].command ==> s.items[i].settlements == 1)
  {
    hide RunFrom, Inv, Enabled, Apply;
    RunKeeps(steps);
    more := AllLeave(Run(steps), i + 1);
    RunMore(Init(), steps, more);
    var s := Run(steps + more);
    if s.items[i].command && s.items[i].settlements == 0 {
      var step := LastAnswer(s, i);
      RunOne(s, step);
      RunMore(Init(), steps + more, [step]);
      assert steps + more + [step] == steps + (more + [step]);
      more := more + [step];
    } else if s.items[i].command {
      AtMostOne(s, i);
    }
  }

  lemma AtMostOne(s: State, i: nat)
    requires Inv(s) && i < |s.items| && s.items[i].command
    ensures s.items[i].settlements <= 1
  {
    ItemFacts(s, i);
  }

  lemma LastAnswer(s: State, i: nat) returns (step: Step)
    requires Inv(s) && i < |s.items| && s.items[i].command && s.items[i].runner.Finished?
    requires s.items[i].settlements == 0
    ensures var s' := Next(s, step);
            |s'.items| == |s.items| && s'.items[i] == s.items[i].(settlements := 1)
  {
    ItemFacts(s, i);
    var c := s.items[i].fixedBy.value;
    CallCanReturn(s, i, c);
    step := CallReturns(c, s.items[i].requested.Written?);
  }

  // ---- Queues ----

  /** A registered queue holds exactly the entries of its target that have not left. */
  lemma QueueHolds(steps: seq<Step>, t: Target, i: nat)
    requires t in Run(steps).queues && i < |Run(steps).items|
    ensures var s := Run(steps); var x := s.items[i];
            && (i in s.queues[t].items <==> x.command && x.target == t && !x.runner.Finished?)
            && (i in s.queues[t].effects <==> !x.command && x.target == t && !x.runner.Finished?)
  {
    hide RunFrom;
    RunKeeps(steps);
    RunOwnMembers(steps);
    var s := Run(steps);
    if i in s.queues[t].items { assert IsMember(s, t, i, true); }
    if i in s.queues[t].effects { assert IsMember(s, t, i, false); }
    if !s.items[i].runner.Finished? { assert Registered(s, i); }
  }

  /**
   * A command waits, last, where the effects on its pane's surface wait: if the
   * pane is registered, under its generation, and otherwise under none.
   */
  lemma CommandQueued(s: State, p: Id, automation: bool)
    ensures var s' := Apply(s, Enqueue(p, automation));
            && |s'.items| == |s.items| + 1
            && var x := s'.items[|s.items|];
               && x.command && x.automation == automation && x.runner.Queued? && x.requested.Pending? && !x.started
               && x.target.kind.PaneKind? && x.target.id == p
               && (forall g :: p in s.surfaces && s.surfaces[p] == Surface(PaneKind, g) ==> x.target.generation == g)
               && (p !in s.surfaces || !s.surfaces[p].kind.PaneKind? ==> x.target.generation == 0)
               && x.target in s'.queues && s'.queues[x.target].tail == Some(|s.items|)
               && x.prior == if x.target in s.queues then s.queues[x.target].tail else None
  {
  }

  /** The outcome of a request's append is what its command goes by, and nothing else changes with it. */
  lemma RequestIsAnswered(s: State, i: nat, written: bool)
    requires Enabled(s, RequestAnswered(i, written))
    ensures var s' := Apply(s, RequestAnswered(i, written));
            && |s'.items| == |s.items| && s'.items[i].requested.Written? == written
            && s'.items[i].requested.Refused? == !written
            && s'.items[i] == s.items[i].(requested := s'.items[i].requested)
            && s' == s.(items := s'.items) && forall j :: 0 <= j < |s.items| && j != i ==> s'.items[j] == s.items[j]
  {
  }

  /** A queue is blocked from when it is asked to be until it is unblocked. */
  lemma BlockedIff(s: State, step: Step, t: Target)
    requires Enabled(s, step) && t in s.queues && t in Apply(s, step).queues
    ensures Apply(s, step).queues[t].blocked == if step == Block(t) then true
                                                else if step == Unblock(t) then false
                                                else s.queues[t].blocked
  {
    if step.Takeover? {
      if s.items != [] { TakeoverIs(s, step.pane, 0); }
    } else if OfEntry(step) {
      EntryStep(s, step);
      hide Apply;
    }
  }

  // ---- Effects and quarantine ----

  /** An effect is queued, last on its target, unless its queue is quarantined or has as many as it may. */
  lemma EffectQueuedIff(s: State, t: Target)
    ensures var s' := Apply(s, EnqueueEffect(t));
            var refused := t in s.queues && (s.queues[t].quarantined || |s.queues[t].effects| >= QUEUE_DEPTH);
            if refused then s' == s
            else
              && |s'.items| == |s.items| + 1 && t in s'.queues && s'.queues[t].tail == Some(|s.items|)
              && var x := s'.items[|s.items|];
                 !x.command && x.target == t && x.runner.Queued? && !x.started
                 && x.prior == if t in s.queues then s.queues[t].tail else None
  {
  }

  /** A queue becomes quarantined exactly when an effect queued on that very object times out. */
  lemma QuarantineIff(steps: seq<Step>, step: Step, t: Target)
    requires var s := Run(steps); Enabled(s, step) && t in s.queues && !s.queues[t].quarantined
    requires t in Apply(Run(steps), step).queues
    ensures var s := Run(steps);
            Apply(s, step).queues[t].quarantined <==>
              && step.HandlerReturned? && step.timedOut && !s.items[step.i].command
              && s.items[step.i].target == t && s.items[step.i].queue == s.queues[t].serial
  {
    hide RunFrom;
    var s := Run(steps);
    if step.Takeover? {
      if s.items != [] { TakeoverIs(s, step.pane, 0); }
    } else if OfEntry(step) {
      FlagsOf(s, step, t);
    }
  }

  lemma FlagsOf(s: State, step: Step, t: Target)
    requires Enabled(s, step) && OfEntry(step) && t in s.queues
    ensures t in Apply(s, step).queues
    ensures !(step.HandlerReturned? && step.timedOut && !s.items[step.i].command) ==>
              Apply(s, step).queues[t].quarantined == s.queues[t].quarantined
  {
    EndingEnds(s, step.i);
    hide AwaitTerminal, Catch;
  }
}
