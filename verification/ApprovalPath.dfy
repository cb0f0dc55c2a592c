/**
 * The way to a handler is open: an action that passes its checks is called,
 * at once or after an operator approved it.
 */
module ApprovalPath {
  import opened Actions
  import opened Approvals
  import opened ApprovalGate
  import opened ApprovalLaws
  import opened ControlEvents
  import Leases = CapabilityLeases

  /** Everything an action is checked for, at one time; `x` is how it reads. */
  ghost predicate Passes(epoch: nat, s: State, x: Context, semantic: Option<Semantic>, now: int) {
    && Understood(x.command, semantic) == Some(x) && InTime(epoch, x.command, now) && TargetStands(s, x.command)
    && LeaseCurrent(epoch, s.leaseOps, x, now)
  }

  lemma ReachMore(epoch: nat, steps: seq<Step>, step: Step)
    ensures Reach(epoch, steps + [step]) == Next(epoch, Reach(epoch, steps), step)
  {
    hide Next;
    assert (steps + [step])[..|steps|] == steps;
  }

  /** An assertion that passes leaves the lease as current as it was. */
  lemma StillCurrent(epoch: nat, ops: seq<Leases.Op>, x: Context, now: int)
    requires LeaseCurrent(epoch, ops, x, now)
    ensures LeaseCurrent(epoch, ops + [Leases.AssertOp(AssertionOf(x), now)], x, now)
  {
    var all := ops + [Leases.AssertOp(AssertionOf(x), now)];
    assert all[..|all| - 1] == ops;
  }

  lemma StillPasses(epoch: nat, s: State, s': State, x: Context, semantic: Option<Semantic>, now: int)
    requires Passes(epoch, s, x, semantic, now) && s'.places == s.places
    requires s'.leaseOps == s.leaseOps || s'.leaseOps == s.leaseOps + [Leases.AssertOp(AssertionOf(x), now)]
    ensures Passes(epoch, s', x, semantic, now)
  {
    StillCurrent(epoch, s.leaseOps, x, now);
    hide LeaseCurrent;
  }

  /** From the queue to the handler. */
  lemma IsCalled(epoch: nat, steps: seq<Step>, f: nat, semantic: Option<Semantic>, now: int) returns (longer: seq<Step>)
    requires f < |Reach(epoch, steps).flights| && Reach(epoch, steps).flights[f].stage.Queued?
    requires Passes(epoch, Reach(epoch, steps), Reach(epoch, steps).flights[f].context, semantic, now)
    ensures steps <= longer
    ensures var s, s' := Reach(epoch, steps), Reach(epoch, longer);
            && |s'.flights| == |s.flights| && s'.flights[f].stage.Called?
            && s'.flights[f].context == s.flights[f].context && s'.flights[f].ticket == s.flights[f].ticket
  {
    hide Reach, LeaseCurrent, Understood, TargetStands, InTime;
    var s := Reach(epoch, steps);
    ReachMore(epoch, steps, LeaveQueue(f, semantic, now));
    var s1 := Move(s, f, Leaving(s.flights[f].context, |s.leaseOps|));
    assert Reach(epoch, steps + [LeaveQueue(f, semantic, now)]) == s1;
    var steps1 := steps + [LeaveQueue(f, semantic, now)];
    ReachMore(epoch, steps1, AssertAgain(f, true, now));
    var steps2 := steps1 + [AssertAgain(f, true, now)];
    assert Reach(epoch, steps2).flights[f].stage.Current?;
    ReachMore(epoch, steps2, Call(f));
    longer := steps2 + [Call(f)];
  }

  /** An action the policy allows outright is queued when it is submitted, and called. */
  lemma AllowedIsCalled(epoch: nat, steps: seq<Step>, x: Context, semantic: Option<Semantic>, id: string, now: int)
    returns (longer: seq<Step>)
    requires Passes(epoch, Reach(epoch, steps), x, semantic, now) && x.classification.decision.Allowed?
    requires id !in LedgerOf(Reach(epoch, steps).ops).requested
    ensures steps <= longer
    ensures var f, s' := |Reach(epoch, steps).flights|, Reach(epoch, longer);
            && |s'.flights| == f + 1 && s'.flights[f].stage.Called? && s'.flights[f].context == x
            && s'.flights[f].ticket.None?
  {
    hide Reach, LeaseCurrent, Understood, TargetStands, InTime, LedgerOf;
    var s := Reach(epoch, steps);
    var step := ApprovalGate.Submit(x.command, semantic, true, id, now);
    UnderstoodCommand(x.command, semantic);
    ReachMore(epoch, steps, step);
    var s1 := Asserting(s, x, now).(flights := s.flights + [Flight(x, None, false, Queued)]);
    assert Reach(epoch, steps + [step]) == s1;
    StillPasses(epoch, s, s1, x, semantic, now);
    longer := IsCalled(epoch, steps + [step], |s.flights|, semantic, now);
  }

  lemma UnderstoodCommand(c: Command, semantic: Option<Semantic>)
    ensures Understood(c, semantic).Some? ==> Understood(c, semantic).value.command == c
  {
  }

  /** The approval store has no record of the action, room for one, and a usable new id. */
  predicate CanAsk(s: State, x: Context, id: string)
    requires x.effect.Some?
  {
    var store := Run(s.ops);
    && WellFormed(IdentityOf(x)) && |ActiveOf(store.approvals)| < ACTIVE_LIMIT
    && (forall i :: 0 <= i < |store.approvals| ==> store.approvals[i].1.identity.actionId != x.command.id)
    && id != "" && Lookup(store, id).None? && id !in LedgerOf(s.ops).requested && id !in s.contexts
  }

  lemma OneOp(ops: seq<Op>, op: Op)
    ensures Run(ops + [op]) == Approvals.Step(Run(ops), op).0
  {
    assert (ops + [op])[..|ops|] == ops;
  }

  /** The record the action gets, pending. */
  lemma Asks(s: State, x: Context, id: string, now: int)
    requires x.effect.Some? && CanAsk(s, x, id)
    ensures var op := RequestOp(IdentityOf(x), id, now, false);
            var a := Fresh(id, IdentityOf(x), now);
            && AskApproval(s, x, id, now) == s.(ops := s.ops + [op], contexts := s.contexts[id := x])
            && Lookup(Run(s.ops + [op]), id) == Some(a)
  {
    hide Run, LedgerOf, ActiveOf, Position, Lookup, RequestAt;
    var identity := IdentityOf(x);
    var store := Run(s.ops);
    var op := RequestOp(identity, id, now, false);
    RunValid(s.ops);
    OneOp(s.ops, op);
    RequestAdds(store, identity, id, now);
    RequestRecord(store, identity, id, now, id);
    RequestServes(store, identity, id, now);
  }

  /** An operator approves it by its digest. */
  lemma IsApproved(ops: seq<Op>, a: Approval, id: string, actor: string, now: int)
    requires Lookup(Run(ops), id) == Some(a) && a.status.Pending? && now < a.expires && !Blank(actor)
    ensures var op := ResolveOp(id, actor, Of(a.identity), true, now);
            && Approves(Run(ops), op)
            && Lookup(Run(ops + [op]), id) == Some(a.(status := Approved, resolvedBy := Some(actor), resolvedAt := now))
  {
    hide Run, Lookup, Blank;
    RunValid(ops);
    ResolveIff(Run(ops), id, actor, Of(a.identity), true, now);
    OneOp(ops, ResolveOp(id, actor, Of(a.identity), true, now));
    hide Resolve;
  }

  /** And the approval can be spent. */
  lemma IsSpent(ops: seq<Op>, a: Approval, id: string, now: int)
    requires Lookup(Run(ops), id) == Some(a) && a.status.Approved? && now < a.expires
    requires id != "" && WellFormed(a.identity)
    ensures Consumes(Run(ops), ConsumeOp(id, a.identity, Of(a.identity), now))
  {
    hide Run, Lookup, WellFormed;
    RunValid(ops);
    ConsumeOnlyApproved(Run(ops), id, a.identity, Of(a.identity), now);
    hide Consume;
  }

  /** The steps of a resolution that approves: begun, decided, cleared and spent. */
  lemma Resolves(epoch: nat, steps: seq<Step>, x: Context, semantic: Option<Semantic>, id: string, actor: string,
                 a: Approval, now: int)
    returns (longer: seq<Step>)
    requires var s := Reach(epoch, steps);
             && Passes(epoch, s, x, semantic, now) && id in s.contexts && s.contexts[id] == x
             && Lookup(Run(s.ops), id) == Some(a)
    requires x.effect.Some? && a.identity == IdentityOf(x) && a.status.Pending? && now < a.expires
    requires !Blank(actor) && id != "" && WellFormed(IdentityOf(x))
    ensures steps <= longer
    ensures var s, s' := Reach(epoch, steps), Reach(epoch, longer); var f := |s.flights|;
            && |s'.flights| == f + 1 && Passes(epoch, s', x, semantic, now)
            && s'.flights[f] == Flight(x, Some(Ticket(id, Of(IdentityOf(x)))), true, Queued)
  {
    hide Reach, LeaseCurrent, Understood, TargetStands, InTime, LedgerOf, Run, Lookup, Blank, WellFormed, IdentityOf;
    hide Approves, Consumes;
    var s, digest := Reach(epoch, steps), Of(a.identity);
    var f, ticket := |s.flights|, Some(Ticket(id, digest));
    var step1 := BeginResolve(id, digest);
    ReachMore(epoch, steps, step1);
    var s1 := s.(flights := s.flights + [Flight(x, ticket, false, Deciding)]);
    var op2 := ResolveOp(id, actor, digest, true, now);
    IsApproved(s.ops, a, id, actor, now);
    var steps1 := steps + [step1];
    var step2 := Decide(f, actor, true, true, now);
    ReachMore(epoch, steps1, step2);
    var s2 := s.(ops := s.ops + [op2], flights := s.flights + [Flight(x, ticket, false, Granted)]);
    assert Next(epoch, s1, step2) == s2;
    var steps2 := steps1 + [step2];
    var step3 := Clear(f, true, now);
    ReachMore(epoch, steps2, step3);
    var s3 := Asserting(s2, x, now).(flights := s.flights + [Flight(x, ticket, false, Cleared)]);
    StillPasses(epoch, s, s2, x, semantic, now);
    assert Next(epoch, s2, step3) == s3;
    var steps3 := steps2 + [step3];
    var step4 := Spend(f, now);
    ReachMore(epoch, steps3, step4);
    IsSpent(s2.ops, a.(status := Approved, resolvedBy := Some(actor), resolvedAt := now), id, now);
    longer := steps3 + [step4];
    StillPasses(epoch, s2, Reach(epoch, longer), x, semantic, now);
  }

  /**
   * In every run an action that needs an approval, passes its checks and finds
   * room in the approval store can be submitted, approved by an operator, spent
   * and called, under its own approval.
   */
  lemma ApprovedIsCalled(epoch: nat, steps: seq<Step>, x: Context, semantic: Option<Semantic>, id: string,
                         actor: string, now: int)
    returns (longer: seq<Step>)
    requires Passes(epoch, Reach(epoch, steps), x, semantic, now) && x.effect.Some?
    requires x.classification.decision.NeedsApproval? && CanAsk(Reach(epoch, steps), x, id) && !Blank(actor)
    ensures steps <= longer
    ensures var f, s' := |Reach(epoch, steps).flights|, Reach(epoch, longer);
            && |s'.flights| == f + 1 && s'.flights[f].stage.Called? && s'.flights[f].context == x
            && s'.flights[f].ticket == Some(Ticket(id, Of(IdentityOf(x))))
  {
    hide Reach, LeaseCurrent, Understood, TargetStands, InTime, LedgerOf, Run, Lookup, Blank, WellFormed, IdentityOf;
    hide ActiveOf, AskApproval;
    var s := Reach(epoch, steps);
    var step := ApprovalGate.Submit(x.command, semantic, true, id, now);
    UnderstoodCommand(x.command, semantic);
    ReachMore(epoch, steps, step);
    var s1 := Asserting(s, x, now);
    Asks(s1, x, id, now);
    var s2 := AskApproval(s1, x, id, now);
    assert Reach(epoch, steps + [step]) == s2;
    StillPasses(epoch, s, s2, x, semantic, now);
    var f := |s.flights|;
    longer := Resolves(epoch, steps + [step], x, semantic, id, actor, Fresh(id, IdentityOf(x), now), now);
    longer := IsCalled(epoch, longer, f, semantic, now);
  }

  // ---- What each check lets through ----

  /** The command is of this process and has not expired. */
  predicate Timely(epoch: nat, c: Command, now: int) {
    c.ownerEpoch == epoch && (c.expires.None? || now < c.expires.value)
  }

  /** A project target is the command's own project; a surface is registered in it, with that kind and generation. */
  predicate Registered(s: State, c: Command) {
    && (c.target.Project? ==> c.target.id == c.projectRoot)
    && (c.target.Surface? ==>
          && c.target.id in s.places
          && var p := s.places[c.target.id];
             p.kind == c.target.kind && p.generation == c.target.generation && p.projectRoot == c.projectRoot)
  }

  lemma ChecksAre(epoch: nat, s: State, x: Context, now: int)
    requires Leases.FreshIds(s.leaseOps)
    ensures InTime(epoch, x.command, now) <==> Timely(epoch, x.command, now)
    ensures TargetStands(s, x.command) <==> Registered(s, x.command)
    ensures LeaseCurrent(epoch, s.leaseOps, x, now) <==> LeaseGrants(epoch, s.leaseOps, x, now)
  {
    CurrentIffGrants(epoch, s.leaseOps, x, now);
    hide LeaseCurrent, LeaseGrants;
  }

  /**
   * A submitted action is queued, or an approval asked for, exactly if it is
   * timely, the policy knows it, its target is registered, its subject active
   * and its capability granted; which of the two is the policy's decision. The
   * intent of an approval already asked for is never replaced.
   */
  lemma SubmitsIff(epoch: nat, steps: seq<Step>, c: Command, semantic: Option<Semantic>, active: bool, id: string,
                   now: int)
    requires id !in LedgerOf(Reach(epoch, steps).ops).requested
    ensures var s, u := Reach(epoch, steps), Understood(c, semantic);
            var s' := Next(epoch, s, ApprovalGate.Submit(c, semantic, active, id, now));
            var passes := && Timely(epoch, c, now) && u.Some? && Registered(s, c) && active
                          && LeaseGrants(epoch, s.leaseOps, u.value, now);
            && (s'.flights != s.flights <==> passes && u.value.classification.decision.Allowed?)
            && (s'.flights != s.flights ==> s'.flights == s.flights + [Flight(u.value, None, false, Queued)])
            && (s'.ops != s.ops <==> passes && u.value.classification.decision.NeedsApproval?)
            && (s'.ops != s.ops ==>
                  u.value.effect.Some? && s'.ops == s.ops + [RequestOp(IdentityOf(u.value), id, now, false)])
            && (forall j :: j in s.contexts ==> j in s'.contexts && s'.contexts[j] == s.contexts[j])
            && (forall j :: j in s'.contexts && j !in s.contexts ==> passes && s'.contexts[j] == u.value)
  {
    hide Reach, LedgerOf, Run, LeaseCurrent, LeaseGrants, InTime, TargetStands, Timely, Registered, Leases.FreshIds;
    ReachStages(epoch, steps);
    var s := Reach(epoch, steps);
    var u := Understood(c, semantic);
    if u.Some? {
      UnderstoodCommand(c, semantic);
      EffectIffApproval(c, semantic);
      ChecksAre(epoch, s, u.value, now);
      hide Understood;
    }
  }

  /** A decision grants exactly an approval of a live pending record by its digest, for an active subject. */
  lemma DecidesIff(epoch: nat, steps: seq<Step>, f: nat, actor: string, approve: bool, active: bool, now: int)
    requires Enabled(Reach(epoch, steps), Decide(f, actor, approve, active, now))
    ensures var s := Reach(epoch, steps);
            var s', t := Apply(epoch, s, Decide(f, actor, approve, active, now)), s.flights[f].ticket.value;
            var record := Lookup(Run(s.ops), t.id);
            var granted := && active && approve && !Blank(actor) && record.Some?
                           && record.value.status.Pending? && now < record.value.expires
                           && t.digest == Of(record.value.identity);
            s'.flights[f] == s.flights[f].(stage := if granted then Granted else Refused)
  {
    hide Reach, LedgerOf, Run, Lookup, Blank, Resolve;
    ReachTickets(epoch, steps);
    var s := Reach(epoch, steps);
    assert TicketOk(LedgerOf(s.ops), s.flights[f]);
    RunValid(s.ops);
    ResolveIff(Run(s.ops), s.flights[f].ticket.value.id, actor, s.flights[f].ticket.value.digest, approve, now);
  }

  /** Clearing lets through exactly what is still registered, active and granted. */
  lemma ClearsIff(epoch: nat, steps: seq<Step>, f: nat, active: bool, now: int)
    requires Enabled(Reach(epoch, steps), Clear(f, active, now))
    ensures var s := Reach(epoch, steps);
            var s', x := Apply(epoch, s, Clear(f, active, now)), s.flights[f].context;
            var cleared := Registered(s, x.command) && active && LeaseGrants(epoch, s.leaseOps, x, now);
            s'.flights[f] == s.flights[f].(stage := if cleared then Cleared else Refused)
  {
    hide Reach, LeaseCurrent, LeaseGrants, TargetStands, Registered, InTime, Timely, Leases.FreshIds;
    ReachStages(epoch, steps);
    ChecksAre(epoch, Reach(epoch, steps), Reach(epoch, steps).flights[f].context, now);
  }

  /** An approval is spent exactly if it is approved, unexpired, and of this very intent under this digest. */
  lemma SpendsIff(epoch: nat, steps: seq<Step>, f: nat, now: int)
    requires Enabled(Reach(epoch, steps), Spend(f, now))
    ensures var s := Reach(epoch, steps);
            var s', x := Apply(epoch, s, Spend(f, now)), s.flights[f];
            var t, identity := x.ticket.value, IdentityOf(x.context);
            var record := Lookup(Run(s.ops), t.id);
            var spent := && t.id != "" && WellFormed(identity) && record.Some? && record.value.status.Approved?
                         && now < record.value.expires && record.value.identity == identity
                         && t.digest == Of(identity);
            && s'.flights[f] == (if spent then x.(consumed := true, stage := Queued) else x.(stage := Refused))
            && s'.contexts == s.contexts - {t.id}
  {
    hide Reach, Run, Lookup, WellFormed, Consume, IdentityOf;
    var s := Reach(epoch, steps);
    RunValid(s.ops);
    var t := s.flights[f].ticket.value;
    ConsumeOnlyApproved(Run(s.ops), t.id, IdentityOf(s.flights[f].context), t.digest, now);
  }

  /** An effect leaves its queue for the last checks exactly if it is timely, still understood and registered. */
  lemma LeavesIff(epoch: nat, steps: seq<Step>, f: nat, semantic: Option<Semantic>, now: int)
    requires Enabled(Reach(epoch, steps), LeaveQueue(f, semantic, now))
    ensures var s := Reach(epoch, steps);
            var s', c := Apply(epoch, s, LeaveQueue(f, semantic, now)), s.flights[f].context.command;
            var u := Understood(c, semantic);
            s'.flights[f] == s.flights[f].(stage := if Timely(epoch, c, now) && u.Some? && Registered(s, c)
                                                    then Leaving(u.value, |s.leaseOps|) else Refused)
  {
    hide Reach, LeaseCurrent, LeaseGrants, TargetStands, Registered, InTime, Timely, Leases.FreshIds, Understood;
    ReachStages(epoch, steps);
    ChecksAre(epoch, Reach(epoch, steps), Reach(epoch, steps).flights[f].context, now);
  }

  /** The last assertion passes exactly for an active subject whose lease grants what the action now is. */
  lemma CurrentIff(epoch: nat, steps: seq<Step>, f: nat, active: bool, now: int)
    requires Enabled(Reach(epoch, steps), AssertAgain(f, active, now))
    ensures var s := Reach(epoch, steps);
            var s', l := Apply(epoch, s, AssertAgain(f, active, now)), s.flights[f].stage;
            var current := active && LeaseGrants(epoch, s.leaseOps, l.seen, now);
            s'.flights[f] == s.flights[f].(stage := if current then Current(Found(l.seen, l.left, |s.leaseOps|, now))
                                                    else Refused)
  {
    hide Reach, LeaseCurrent, LeaseGrants, TargetStands, Registered, InTime, Timely, Leases.FreshIds, Understood;
    ReachStages(epoch, steps);
    ChecksAre(epoch, Reach(epoch, steps), Reach(epoch, steps).flights[f].stage.seen, now);
  }

  /** The handler is called exactly if the action reads as it did when it was submitted. */
  lemma CallsIff(epoch: nat, steps: seq<Step>, f: nat)
    requires Enabled(Reach(epoch, steps), Call(f))
    ensures var s := Reach(epoch, steps);
            var s', found := Apply(epoch, s, Call(f)), s.flights[f].stage.found;
            s'.flights[f] == s.flights[f].(stage := if found.seen == s.flights[f].context then Called(found)
                                                    else Refused)
  {
    hide Reach, LeaseCurrent, Leases.FreshIds, Understood;
    ReachStages(epoch, steps);
    var s := Reach(epoch, steps);
    var x := s.flights[f];
    assert Faithful(x.context) && StageOk(epoch, s.leaseOps, x.context, x.stage);
    if ContextsMatch(x.context, x.stage.found.seen) { MatchingSame(x.context, x.stage.found.seen); }
  }
}
