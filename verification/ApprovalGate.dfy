/**
 * From a submitted action to its handler call: with and without an operator's
 * approval, with anything else happening to approvals, leases and surfaces in
 * between. A step is what the runtime does between two awaits.
 */
module ApprovalGate {
  import opened Actions
  import opened Approvals
  import opened ControlEvents
  import Leases = CapabilityLeases

  /** The approval a flight goes by, and the digest its operator named. */
  datatype Ticket = Ticket(id: string, digest: Digest)

  /**
   * What an effect found when it left its queue: its action understood anew as
   * `seen`, when `left` operations of the lease store had been done; and its
   * lease current at `now`, after the first `at` of them.
   */
  datatype Found = Found(seen: Context, left: nat, at: nat, now: int)

  /** A resolution goes through all stages; an action without approval starts queued. */
  datatype Stage =
    | Deciding | Granted | Cleared | Queued | Leaving(seen: Context, left: nat)
    | Current(found: Found) | Called(found: Found) | Refused

  datatype Flight = Flight(context: Context, ticket: Option<Ticket>, consumed: bool, stage: Stage)

  /** A registered surface. */
  datatype Place = Place(kind: string, generation: nat, projectRoot: string)

  /** `contexts` are the intents of approvals waiting for a decision. */
  datatype State = State(leaseOps: seq<Leases.Op>, places: map<string, Place>, ops: seq<Op>,
                         contexts: map<string, Context>, flights: seq<Flight>)

  function Init(): State {
    State([], map[], [], map[], [])
  }

  datatype Step =
    | Submit(command: Command, semantic: Option<Semantic>, active: bool, id: string, now: int)
    | BeginResolve(id: string, digest: Digest)
    | Decide(f: nat, actor: string, approve: bool, active: bool, now: int)
    | Clear(f: nat, active: bool, now: int)
    | Spend(f: nat, now: int)
    | LeaveQueue(f: nat, semantic: Option<Semantic>, now: int)
    | AssertAgain(f: nat, active: bool, now: int)
    | Call(f: nat)
    | Refuse(f: nat)
    | Forget(id: string)
    | ApprovalOp(op: Op)
    | LeaseOp(leaseOp: Leases.Op)
    | SetPlace(id: string, place: Place)
    | RemovePlace(id: string)

  // ---- Parts of the checks ----

  predicate InTime(epoch: nat, c: Command, now: int) {
    c.ownerEpoch == epoch && (c.expires.Some? ==> c.expires.value > now)
  }

  /** The target is registered as the command has it, in the command's project. */
  predicate TargetStands(s: State, c: Command) {
    match c.target
    case Project(id) => id == c.projectRoot
    case Surface(kind, id, generation) => id in s.places && s.places[id] == Place(kind, generation, c.projectRoot)
  }

  function AssertionOf(x: Context): Leases.Assertion {
    var c := x.command;
    Leases.Assertion(c.leaseId, c.leaseRevision, c.ownerEpoch, c.actorId, c.taskId, c.target,
                     x.classification.capability)
  }

  /** Does the lease store, after these operations, let the action pass? */
  ghost predicate LeaseCurrent(epoch: nat, ops: seq<Leases.Op>, x: Context, now: int) {
    Leases.AssertStep(Leases.Run(epoch, ops), AssertionOf(x), epoch, now).1.Ok?
  }

  function IdentityOf(x: Context): Identity
    requires x.effect.Some?
  {
    var c := x.command;
    Identity(c.id, c.ownerEpoch, c.taskId, c.actorId, c.subjectId, c.leaseId, c.leaseRevision, c.target,
             x.classification.capability, x.effect.value, x.executable)
  }

  // ---- Steps ----

  ghost predicate Enabled(s: State, step: Step) {
    match step
    case Submit(_, _, _, id, _) => id !in LedgerOf(s.ops).requested
    case BeginResolve(id, _) => id in s.contexts
    case Decide(f, _, _, _, _) => f < |s.flights| && s.flights[f].stage.Deciding? && s.flights[f].ticket.Some?
    case Clear(f, _, _) => f < |s.flights| && s.flights[f].stage.Granted?
    case Spend(f, _) =>
      && f < |s.flights| && s.flights[f].stage.Cleared? && s.flights[f].ticket.Some?
      && s.flights[f].context.effect.Some?
    case LeaveQueue(f, _, _) => f < |s.flights| && s.flights[f].stage.Queued?
    case AssertAgain(f, _, _) => f < |s.flights| && s.flights[f].stage.Leaving?
    case Call(f) => f < |s.flights| && s.flights[f].stage.Current?
    case Refuse(f) => f < |s.flights| && !s.flights[f].stage.Called?
    case Forget(_) => true
    case ApprovalOp(op) => op.ExpireOp? || op.RevokeOp? || op.ResolveOp?
    case LeaseOp(leaseOp) => leaseOp.GrantOp? ==> !Leases.Offered(s.leaseOps, leaseOp.newId)
    case SetPlace(_, _) => true
    case RemovePlace(_) => true
  }

  function Move(s: State, f: nat, stage: Stage): State
    requires f < |s.flights|
  {
    s.(flights := s.flights[f := s.flights[f].(stage := stage)])
  }

  function Asserting(s: State, x: Context, now: int): State {
    s.(leaseOps := s.leaseOps + [Leases.AssertOp(AssertionOf(x), now)])
  }

  /** Asks for an approval and remembers the intent under its id, if none is remembered yet. */
  function AskApproval(s: State, x: Context, id: string, now: int): State
    requires x.effect.Some?
  {
    var op := RequestOp(IdentityOf(x), id, now, false);
    var r := Approvals.Step(Run(s.ops), op).1.value;
    var s1 := s.(ops := s.ops + [op]);
    if r.Ok? && r.approval.id !in s.contexts then s1.(contexts := s.contexts[r.approval.id := x]) else s1
  }

  /** An action that passes its checks is queued, or an approval asked for. */
  ghost function DoSubmit(epoch: nat, s: State, step: Step): State
    requires step.Submit?
  {
    var c := step.command;
    var u := Understood(c, step.semantic);
    if !InTime(epoch, c, step.now) || u.None? || !TargetStands(s, c) || !step.active then s
    else
      var x := u.value;
      var s1 := Asserting(s, x, step.now);
      if !LeaseCurrent(epoch, s.leaseOps, x, step.now) then s1
      else if x.classification.decision.Allowed? then s1.(flights := s.flights + [Flight(x, None, false, Queued)])
      else if x.effect.None? then s1
      else AskApproval(s1, x, step.id, step.now)
  }

  function DoDecide(s: State, step: Step): State
    requires step.Decide? && step.f < |s.flights| && s.flights[step.f].ticket.Some?
  {
    var x := s.flights[step.f];
    var op := ResolveOp(x.ticket.value.id, step.actor, x.ticket.value.digest, step.approve, step.now);
    if !step.active then Move(s, step.f, Refused)
    else
      var s1 := s.(ops := s.ops + [op]);
      Move(s1, step.f, if Approves(Run(s.ops), op) && x.context.effect.Some? then Granted else Refused)
  }

  ghost function DoClear(epoch: nat, s: State, f: nat, active: bool, now: int): State
    requires f < |s.flights|
  {
    var x := s.flights[f].context;
    if !TargetStands(s, x.command) || !active then Move(s, f, Refused)
    else Move(Asserting(s, x, now), f, if LeaseCurrent(epoch, s.leaseOps, x, now) then Cleared else Refused)
  }

  function DoSpend(s: State, f: nat, now: int): State
    requires f < |s.flights| && s.flights[f].ticket.Some? && s.flights[f].context.effect.Some?
  {
    var x := s.flights[f];
    var id := x.ticket.value.id;
    var op := ConsumeOp(id, IdentityOf(x.context), x.ticket.value.digest, now);
    var s1 := s.(ops := s.ops + [op], contexts := s.contexts - {id});
    if Consumes(Run(s.ops), op) then s1.(flights := s.flights[f := x.(consumed := true, stage := Queued)])
    else Move(s1, f, Refused)
  }

  /** The turn of an effect: its command is checked and understood anew. */
  function DoLeave(epoch: nat, s: State, f: nat, semantic: Option<Semantic>, now: int): State
    requires f < |s.flights|
  {
    var c := s.flights[f].context.command;
    var u := Understood(c, semantic);
    Move(s, f, if InTime(epoch, c, now) && u.Some? && TargetStands(s, c) then Leaving(u.value, |s.leaseOps|)
               else Refused)
  }

  ghost function DoAssertAgain(epoch: nat, s: State, f: nat, active: bool, now: int): State
    requires f < |s.flights| && s.flights[f].stage.Leaving?
  {
    var l := s.flights[f].stage;
    if !active then Move(s, f, Refused)
    else
      Move(Asserting(s, l.seen, now), f,
           if LeaseCurrent(epoch, s.leaseOps, l.seen, now) then Current(Found(l.seen, l.left, |s.leaseOps|, now))
           else Refused)
  }

  /** The handler is called only if nothing about the action reads differently now. */
  function DoCall(s: State, f: nat): State
    requires f < |s.flights| && s.flights[f].stage.Current?
  {
    var x := s.flights[f];
    Move(s, f, if ContextsMatch(x.context, x.stage.found.seen) then Called(x.stage.found) else Refused)
  }

  ghost function Apply(epoch: nat, s: State, step: Step): State
    requires Enabled(s, step)
  {
    match step
    case Submit(_, _, _, _, _) => DoSubmit(epoch, s, step)
    case BeginResolve(id, digest) =>
      s.(flights := s.flights + [Flight(s.contexts[id], Some(Ticket(id, digest)), false, Deciding)])
    case Decide(_, _, _, _, _) => DoDecide(s, step)
    case Clear(f, active, now) => DoClear(epoch, s, f, active, now)
    case Spend(f, now) => DoSpend(s, f, now)
    case LeaveQueue(f, semantic, now) => DoLeave(epoch, s, f, semantic, now)
    case AssertAgain(f, active, now) => DoAssertAgain(epoch, s, f, active, now)
    case Call(f) => DoCall(s, f)
    case Refuse(f) => Move(s, f, Refused)
    case Forget(id) => s.(contexts := s.contexts - {id})
    case ApprovalOp(op) => s.(ops := s.ops + [op])
    case LeaseOp(leaseOp) => s.(leaseOps := s.leaseOps + [leaseOp])
    case SetPlace(id, place) => s.(places := s.places[id := place])
    case RemovePlace(id) => s.(places := s.places - {id})
  }

  ghost function Next(epoch: nat, s: State, step: Step): State {
    if Enabled(s, step) then Apply(epoch, s, step) else s
  }

  ghost function Reach(epoch: nat, steps: seq<Step>): State {
    if steps == [] then Init() else Next(epoch, Reach(epoch, steps[..|steps| - 1]), steps[|steps| - 1])
  }

  // ---- Counting ----

  predicate Spent(x: Flight, id: string) {
    x.ticket.Some? && x.ticket.value.id == id && x.consumed
  }

  function Spendings(fs: seq<Flight>, id: string): nat {
    if fs == [] then 0 else Spendings(fs[..|fs| - 1], id) + (if Spent(fs[|fs| - 1], id) then 1 else 0)
  }

  function Calls(fs: seq<Flight>, id: string): nat {
    if fs == [] then 0
    else
      var x := fs[|fs| - 1];
      Calls(fs[..|fs| - 1], id)
      + (if x.ticket.Some? && x.ticket.value.id == id && x.stage.Called? then 1 else 0)
  }

  lemma {:induction false} SpendingsUpdate(fs: seq<Flight>, f: nat, x: Flight, id: string)
    requires f < |fs|
    ensures Spendings(fs[f := x], id)
         == Spendings(fs, id) - (if Spent(fs[f], id) then 1 else 0) + (if Spent(x, id) then 1 else 0)
  {
    var n := |fs| - 1;
    if f < n {
      assert fs[f := x][..n] == fs[..n][f := x];
      SpendingsUpdate(fs[..n], f, x, id);
    } else {
      assert fs[f := x][..n] == fs[..n];
    }
  }

  lemma {:induction false} CallsAreSpent(fs: seq<Flight>, id: string)
    requires forall i :: 0 <= i < |fs| && fs[i].stage.Called? && fs[i].ticket.Some? ==> fs[i].consumed
    ensures Calls(fs, id) <= Spendings(fs, id)
  {
    if fs != [] {
      CallsAreSpent(fs[..|fs| - 1], id);
    }
  }

  lemma {:induction false} SpentCounts(fs: seq<Flight>, i: nat, id: string)
    requires i < |fs| && Spent(fs[i], id)
    ensures Spendings(fs, id) >= 1
  {
    if i < |fs| - 1 {
      assert fs[..|fs| - 1][i] == fs[i];
      SpentCounts(fs[..|fs| - 1], i, id);
    }
  }

  // ---- Invariant ----

  /** A context is what the policy makes of its command and of the meaning its digest covers. */
  predicate Faithful(x: Context) {
    Understood(x.command, x.executable.semantic) == Some(x)
  }

  lemma UnderstoodFaithful(c: Command, semantic: Option<Semantic>)
    requires Understood(c, semantic).Some?
    ensures Faithful(Understood(c, semantic).value) && Understood(c, semantic).value.command == c
  {
  }

  /** Two faithful readings of one command that match are the same: equal digests cover equal meanings. */
  lemma MatchingSame(a: Context, b: Context)
    requires Faithful(a) && Faithful(b) && a.command == b.command && ContextsMatch(a, b)
    ensures a == b
  {
  }

  ghost predicate FoundOk(epoch: nat, ops: seq<Leases.Op>, x: Context, found: Found) {
    && Faithful(found.seen) && found.seen.command == x.command
    && found.left <= found.at <= |ops| && LeaseCurrent(epoch, ops[..found.at], found.seen, found.now)
  }

  /** What has been passed at each stage. */
  ghost predicate StageOk(epoch: nat, ops: seq<Leases.Op>, x: Context, stage: Stage) {
    match stage
    case Leaving(seen, left) => Faithful(seen) && seen.command == x.command && left <= |ops|
    case Current(found) => FoundOk(epoch, ops, x, found)
    case Called(found) => FoundOk(epoch, ops, x, found) && found.seen == x
    case _ => true
  }

  /** What the ledger knows of the approval a flight goes by. */
  predicate TicketOk(l: Ledger, x: Flight) {
    match x.ticket
    case None =>
      !x.consumed && x.context.classification.decision.Allowed? && !x.stage.Deciding? && !x.stage.Granted?
      && !x.stage.Cleared?
    case Some(t) =>
      && x.context.classification.decision.NeedsApproval? && x.context.effect.Some?
      && ((x.stage.Deciding? || x.stage.Granted? || x.stage.Cleared?) ==> !x.consumed)
      && ((x.stage.Queued? || x.stage.Leaving? || x.stage.Current? || x.stage.Called?) ==> x.consumed)
      && (x.consumed ==>
            t.id in l.approved && t.id in l.requested && l.requested[t.id] == IdentityOf(x.context)
            && t.digest == Of(IdentityOf(x.context)))
  }

  predicate ContextOk(x: Context) {
    Faithful(x) && x.classification.decision.NeedsApproval? && x.effect.Some?
  }

  ghost predicate StagesOk(epoch: nat, s: State) {
    && Leases.FreshIds(s.leaseOps)
    && (forall id :: id in s.contexts ==> ContextOk(s.contexts[id]))
    && (forall i :: 0 <= i < |s.flights| ==>
          Faithful(s.flights[i].context) && StageOk(epoch, s.leaseOps, s.flights[i].context, s.flights[i].stage))
  }

  ghost predicate TicketsOk(s: State) {
    && FreshIds(s.ops)
    && (forall i :: 0 <= i < |s.flights| ==> TicketOk(LedgerOf(s.ops), s.flights[i]))
    && (forall id :: Spendings(s.flights, id) == Times(LedgerOf(s.ops), id))
  }

  // ---- Stages: what was seen and found ----

  /** More lease operations leave what was found before them as it was. */
  lemma StageLater(epoch: nat, ops: seq<Leases.Op>, op: Leases.Op, x: Context, stage: Stage)
    requires StageOk(epoch, ops, x, stage)
    ensures StageOk(epoch, ops + [op], x, stage)
  {
    match stage
    case Current(found) => assert (ops + [op])[..found.at] == ops[..found.at];
    case Called(found) => assert (ops + [op])[..found.at] == ops[..found.at];
    case _ =>
  }

  lemma FreshLater(ops: seq<Leases.Op>, op: Leases.Op)
    requires Leases.FreshIds(ops) && (op.GrantOp? ==> !Leases.Offered(ops, op.newId))
    ensures Leases.FreshIds(ops + [op])
  {
    var all := ops + [op];
    forall i, j | 0 <= i < j < |all| && all[i].GrantOp? && all[j].GrantOp? ensures all[i].newId != all[j].newId {
      assert all[i] == ops[i];
      if j < |ops| { assert all[j] == ops[j]; }
    }
  }

  lemma LeaseOpKeeps(epoch: nat, s: State, op: Leases.Op)
    requires StagesOk(epoch, s) && (op.GrantOp? ==> !Leases.Offered(s.leaseOps, op.newId))
    ensures StagesOk(epoch, s.(leaseOps := s.leaseOps + [op]))
  {
    hide StageOk, Leases.FreshIds, Leases.Offered, Faithful;
    FreshLater(s.leaseOps, op);
    forall i | 0 <= i < |s.flights|
      ensures StageOk(epoch, s.leaseOps + [op], s.flights[i].context, s.flights[i].stage)
    {
      StageLater(epoch, s.leaseOps, op, s.flights[i].context, s.flights[i].stage);
    }
  }

  /** Flights and contexts may change in one place each; approvals and surfaces at will. */
  lemma StagesFrame(epoch: nat, s: State, s': State)
    requires StagesOk(epoch, s) && s'.leaseOps == s.leaseOps
    requires forall id :: id in s'.contexts ==> ContextOk(s'.contexts[id])
    requires |s.flights| <= |s'.flights| <= |s.flights| + 1
    requires forall i :: 0 <= i < |s'.flights| ==>
               (i < |s.flights| && s'.flights[i] == s.flights[i])
               || (Faithful(s'.flights[i].context)
                   && StageOk(epoch, s.leaseOps, s'.flights[i].context, s'.flights[i].stage))
    ensures StagesOk(epoch, s')
  {
  }

  lemma SubmitStages(epoch: nat, s: State, step: Step)
    requires StagesOk(epoch, s) && step.Submit?
    ensures StagesOk(epoch, DoSubmit(epoch, s, step))
  {
    hide StagesOk, LeaseCurrent, AskApproval, Faithful;
    var u := Understood(step.command, step.semantic);
    if u.Some? {
      UnderstoodFaithful(step.command, step.semantic);
      var x := u.value;
      LeaseOpKeeps(epoch, s, Leases.AssertOp(AssertionOf(x), step.now));
      var s1 := Asserting(s, x, step.now);
      ContextsOf(epoch, s1);
      StagesFrame(epoch, s1, s1.(flights := s1.flights + [Flight(x, None, false, Queued)]));
      if x.effect.Some? && x.classification.decision.NeedsApproval? {
        AskStages(epoch, s1, x, step.id, step.now);
      }
    }
  }

  lemma ContextsOf(epoch: nat, s: State)
    requires StagesOk(epoch, s)
    ensures forall id :: id in s.contexts ==> ContextOk(s.contexts[id])
  {
  }

  lemma AskStages(epoch: nat, s: State, x: Context, id: string, now: int)
    requires StagesOk(epoch, s) && ContextOk(x)
    ensures StagesOk(epoch, AskApproval(s, x, id, now))
  {
    assert x.effect.Some?;
    hide StagesOk, ContextOk, Run, Approvals.Step;
    ContextsOf(epoch, s);
    StagesFrame(epoch, s, AskApproval(s, x, id, now));
  }

  lemma MoveStages(epoch: nat, s: State, f: nat, stage: Stage)
    requires StagesOk(epoch, s) && f < |s.flights| && StageOk(epoch, s.leaseOps, s.flights[f].context, stage)
    ensures StagesOk(epoch, Move(s, f, stage))
  {
    hide StageOk, Faithful, ContextOk;
  }

  lemma AssertAgainStages(epoch: nat, s: State, f: nat, active: bool, now: int)
    requires StagesOk(epoch, s) && f < |s.flights| && s.flights[f].stage.Leaving?
    ensures StagesOk(epoch, DoAssertAgain(epoch, s, f, active, now))
  {
    var l := s.flights[f].stage;
    assert StageOk(epoch, s.leaseOps, s.flights[f].context, l);
    var s1 := Asserting(s, l.seen, now);
    assert s1.leaseOps[..|s.leaseOps|] == s.leaseOps;
    hide StagesOk, LeaseCurrent, Faithful;
    LeaseOpKeeps(epoch, s, Leases.AssertOp(AssertionOf(l.seen), now));
    MoveStages(epoch, s, f, Refused);
    MoveStages(epoch, s1, f, Refused);
    if LeaseCurrent(epoch, s.leaseOps, l.seen, now) {
      MoveStages(epoch, s1, f, Current(Found(l.seen, l.left, |s.leaseOps|, now)));
    }
  }

  lemma CallStages(epoch: nat, s: State, f: nat)
    requires StagesOk(epoch, s) && f < |s.flights| && s.flights[f].stage.Current?
    ensures StagesOk(epoch, DoCall(s, f))
  {
    var x := s.flights[f];
    assert StageOk(epoch, s.leaseOps, x.context, x.stage);
    assert Faithful(x.context);
    hide StagesOk, LeaseCurrent, Faithful, ContextsMatch;
    if ContextsMatch(x.context, x.stage.found.seen) {
      MatchingSame(x.context, x.stage.found.seen);
      MoveStages(epoch, s, f, Called(x.stage.found));
    } else {
      MoveStages(epoch, s, f, Refused);
    }
  }

  lemma LeaveStages(epoch: nat, s: State, f: nat, semantic: Option<Semantic>, now: int)
    requires StagesOk(epoch, s) && f < |s.flights|
    ensures StagesOk(epoch, DoLeave(epoch, s, f, semantic, now))
  {
    hide StagesOk, Faithful, Understood;
    var c := s.flights[f].context.command;
    if Understood(c, semantic).Some? {
      UnderstoodFaithful(c, semantic);
      MoveStages(epoch, s, f, Leaving(Understood(c, semantic).value, |s.leaseOps|));
    }
    MoveStages(epoch, s, f, Refused);
  }

  lemma ClearStages(epoch: nat, s: State, f: nat, active: bool, now: int)
    requires StagesOk(epoch, s) && f < |s.flights|
    ensures StagesOk(epoch, DoClear(epoch, s, f, active, now))
  {
    hide StagesOk, LeaseCurrent, TargetStands;
    var x := s.flights[f].context;
    LeaseOpKeeps(epoch, s, Leases.AssertOp(AssertionOf(x), now));
    var s1 := Asserting(s, x, now);
    MoveStages(epoch, s, f, Refused);
    MoveStages(epoch, s1, f, Refused);
    MoveStages(epoch, s1, f, Cleared);
  }

  lemma NextStages(epoch: nat, s: State, step: Step)
    requires StagesOk(epoch, s)
    ensures StagesOk(epoch, Next(epoch, s, step))
  {
    hide DoSubmit, DoClear, DoLeave, DoAssertAgain, DoCall, LedgerOf, Run, Consumes, Approves, Leases.Offered;
    hide StagesOk, Faithful;
    ContextsOf(epoch, s);
    if Enabled(s, step) {
      match step
      case Submit(_, _, _, _, _) => SubmitStages(epoch, s, step);
      case Clear(f, active, now) => ClearStages(epoch, s, f, active, now);
      case LeaveQueue(f, semantic, now) => LeaveStages(epoch, s, f, semantic, now);
      case AssertAgain(f, active, now) => AssertAgainStages(epoch, s, f, active, now);
      case Call(f) => CallStages(epoch, s, f);
      case LeaseOp(leaseOp) => LeaseOpKeeps(epoch, s, leaseOp);
      case Decide(_, _, _, _, _) => PlainStages(epoch, s, step);
      case Spend(_, _) => PlainStages(epoch, s, step);
      case Refuse(f) => MoveStages(epoch, s, f, Refused);
      case _ => StagesFrame(epoch, s, Apply(epoch, s, step));
    }
  }

  lemma PlainStages(epoch: nat, s: State, step: Step)
    requires StagesOk(epoch, s) && (step.Decide? || step.Spend?) && Enabled(s, step)
    ensures StagesOk(epoch, Apply(epoch, s, step))
  {
    hide LedgerOf, Run, Consumes, Approves, Faithful, ContextOk;
  }

  lemma {:induction false} ReachStages(epoch: nat, steps: seq<Step>)
    ensures StagesOk(epoch, Reach(epoch, steps))
  {
    if steps != [] {
      hide StagesOk, Next;
      ReachStages(epoch, steps[..|steps| - 1]);
      NextStages(epoch, Reach(epoch, steps[..|steps| - 1]), steps[|steps| - 1]);
    }
  }

  // ---- Tickets: what an approval was spent on ----

  lemma LedgerSnoc(ops: seq<Op>, op: Op)
    ensures LedgerOf(ops + [op]) == Noted(LedgerOf(ops), Run(ops), op)
    ensures FreshIds(ops) && (op.RequestOp? ==> op.id !in LedgerOf(ops).requested) ==> FreshIds(ops + [op])
  {
    hide Run, Noted;
    var all := ops + [op];
    var n := |all| - 1;
    assert all[..n] == ops && all[n] == op && all != [];
    assert LedgerOf(all) == Noted(LedgerOf(all[..n]), Run(all[..n]), all[n]);
    assert FreshIds(all) == (FreshIds(all[..n]) && (all[n].RequestOp? ==> all[n].id !in LedgerOf(all[..n]).requested));
  }

  /** What the ledger knows of an approval stays true, unless its id is requested again. */
  lemma TicketStays(l: Ledger, s: Store, op: Op, x: Flight)
    requires TicketOk(l, x)
    requires op.RequestOp? ==> op.id !in l.requested
    ensures TicketOk(Noted(l, s, op), x)
  {
    hide Approvals.Step, Before, Lookup, IdentityOf;
  }

  /** An operation that consumes nothing. */
  lemma OpKeeps(s: State, op: Op)
    requires TicketsOk(s) && (op.RequestOp? ==> op.id !in LedgerOf(s.ops).requested)
    requires !Consumes(Run(s.ops), op)
    ensures TicketsOk(s.(ops := s.ops + [op]))
  {
    hide Run, Spendings, TicketOk, LedgerOf, FreshIds, Creates, Approves, Consumes;
    LedgerSnoc(s.ops, op);
    forall i | 0 <= i < |s.flights| ensures TicketOk(LedgerOf(s.ops + [op]), s.flights[i]) {
      TicketStays(LedgerOf(s.ops), Run(s.ops), op, s.flights[i]);
    }
  }

  /** Leases, surfaces and remembered intents are nothing to the ledger. */
  lemma TicketsFrame(s: State, s': State)
    requires TicketsOk(s) && s'.ops == s.ops && s'.flights == s.flights
    ensures TicketsOk(s')
  {
  }

  lemma NewFlightKeeps(s: State, x: Flight)
    requires TicketsOk(s) && TicketOk(LedgerOf(s.ops), x) && !x.consumed
    ensures TicketsOk(s.(flights := s.flights + [x]))
  {
    hide TicketOk, LedgerOf, FreshIds;
    assert (s.flights + [x])[..|s.flights|] == s.flights;
  }

  lemma MoveKeeps(s: State, f: nat, stage: Stage)
    requires TicketsOk(s) && f < |s.flights| && TicketOk(LedgerOf(s.ops), s.flights[f].(stage := stage))
    ensures TicketsOk(Move(s, f, stage))
  {
    hide TicketOk, LedgerOf, FreshIds, Spendings;
    var x := s.flights[f].(stage := stage);
    forall id ensures Spendings(s.flights[f := x], id) == Spendings(s.flights, id) {
      SpendingsUpdate(s.flights, f, x, id);
    }
  }

  lemma RefuseKeeps(s: State, f: nat)
    requires TicketsOk(s) && f < |s.flights|
    ensures TicketsOk(Move(s, f, Refused))
  {
    hide LedgerOf, FreshIds, Spendings;
    assert TicketOk(LedgerOf(s.ops), s.flights[f]);
    hide TicketsOk;
    MoveKeeps(s, f, Refused);
  }

  /** From one stage to a later one that asks nothing more of the ticket. */
  lemma OnwardKeeps(s: State, f: nat, stage: Stage)
    requires TicketsOk(s) && f < |s.flights|
    requires var from := s.flights[f].stage;
             || (from.Deciding? && stage.Granted?) || (from.Granted? && stage.Cleared?)
             || ((from.Queued? || from.Leaving? || from.Current?)
                 && (stage.Leaving? || stage.Current? || stage.Called?))
    ensures TicketsOk(Move(s, f, stage))
  {
    hide LedgerOf, FreshIds, Spendings;
    assert TicketOk(LedgerOf(s.ops), s.flights[f]);
    hide TicketsOk;
    MoveKeeps(s, f, stage);
  }

  lemma SubmitTickets(epoch: nat, s: State, step: Step)
    requires TicketsOk(s) && Enabled(s, step) && step.Submit?
    ensures TicketsOk(DoSubmit(epoch, s, step))
  {
    hide LedgerOf, TicketsOk, Run, Approvals.Step, FreshIds, LeaseCurrent, Understood, TargetStands;
    var u := Understood(step.command, step.semantic);
    if u.Some? {
      var x := u.value;
      var s1 := Asserting(s, x, step.now);
      TicketsFrame(s, s1);
      if x.classification.decision.Allowed? {
        NewFlightKeeps(s1, Flight(x, None, false, Queued));
      } else if x.effect.Some? {
        var op := RequestOp(IdentityOf(x), step.id, step.now, false);
        OpKeeps(s1, op);
        TicketsFrame(s1.(ops := s1.ops + [op]), AskApproval(s1, x, step.id, step.now));
      }
    }
  }

  lemma DecideTickets(s: State, step: Step)
    requires TicketsOk(s) && Enabled(s, step) && step.Decide?
    ensures TicketsOk(DoDecide(s, step))
  {
    hide LedgerOf, TicketsOk, Run, FreshIds, Approves;
    var t := s.flights[step.f].ticket.value;
    var op := ResolveOp(t.id, step.actor, t.digest, step.approve, step.now);
    RefuseKeeps(s, step.f);
    OpKeeps(s, op);
    var s1 := s.(ops := s.ops + [op]);
    RefuseKeeps(s1, step.f);
    OnwardKeeps(s1, step.f, Granted);
  }

  lemma SpendTickets(s: State, f: nat, now: int)
    requires TicketsOk(s) && Enabled(s, Spend(f, now))
    ensures TicketsOk(DoSpend(s, f, now))
  {
    var x := s.flights[f];
    var op := ConsumeOp(x.ticket.value.id, IdentityOf(x.context), x.ticket.value.digest, now);
    hide LedgerOf, TicketsOk, Run, FreshIds, Consumes, Approvals.Step;
    if Consumes(Run(s.ops), op) {
      SpendKeeps(s, f, now);
      TicketsFrame(s.(ops := s.ops + [op], flights := s.flights[f := x.(consumed := true, stage := Queued)]),
                   DoSpend(s, f, now));
    } else {
      OpKeeps(s, op);
      var s1 := s.(ops := s.ops + [op], contexts := s.contexts - {x.ticket.value.id});
      TicketsFrame(s.(ops := s.ops + [op]), s1);
      RefuseKeeps(s1, f);
    }
  }

  lemma SpendKeeps(s: State, f: nat, now: int)
    requires TicketsOk(s) && Enabled(s, Spend(f, now))
    requires var x := s.flights[f];
             Consumes(Run(s.ops), ConsumeOp(x.ticket.value.id, IdentityOf(x.context), x.ticket.value.digest, now))
    ensures var x := s.flights[f];
            var op := ConsumeOp(x.ticket.value.id, IdentityOf(x.context), x.ticket.value.digest, now);
            TicketsOk(s.(ops := s.ops + [op], flights := s.flights[f := x.(consumed := true, stage := Queued)]))
  {
    var x := s.flights[f];
    var y := x.(consumed := true, stage := Queued);
    var t := x.ticket.value;
    var op := ConsumeOp(t.id, IdentityOf(x.context), t.digest, now);
    var l := LedgerOf(s.ops);
    assert TicketOk(l, x);
    hide Run, LedgerOf, FreshIds, Spendings, Consumes, IdentityOf;
    ConsumeNeedsApproval(s.ops, op);
    LedgerSnoc(s.ops, op);
    var l' := LedgerOf(s.ops + [op]);
    assert l' == l.(consumed := l.consumed[t.id := Times(l, t.id) + 1]);
    var fs := s.flights[f := y];
    forall i | 0 <= i < |fs| ensures TicketOk(l', fs[i]) {
      assert TicketOk(l, s.flights[i]);
    }
    forall id ensures Spendings(fs, id) == Times(l', id) {
      SpendingsUpdate(s.flights, f, y, id);
    }
  }

  lemma ClearTickets(epoch: nat, s: State, f: nat, active: bool, now: int)
    requires TicketsOk(s) && Enabled(s, Clear(f, active, now))
    ensures TicketsOk(DoClear(epoch, s, f, active, now))
  {
    hide LedgerOf, TicketsOk, LeaseCurrent, TargetStands;
    var s1 := Asserting(s, s.flights[f].context, now);
    TicketsFrame(s, s1);
    RefuseKeeps(s, f);
    RefuseKeeps(s1, f);
    OnwardKeeps(s1, f, Cleared);
  }

  lemma TurnTickets(epoch: nat, s: State, step: Step)
    requires TicketsOk(s) && Enabled(s, step) && (step.LeaveQueue? || step.AssertAgain? || step.Call?)
    ensures TicketsOk(Apply(epoch, s, step))
  {
    hide LedgerOf, TicketsOk, LeaseCurrent, TargetStands, Understood, ContextsMatch;
    RefuseKeeps(s, step.f);
    match step
    case LeaveQueue(f, semantic, now) =>
      var u := Understood(s.flights[f].context.command, semantic);
      if u.Some? { OnwardKeeps(s, f, Leaving(u.value, |s.leaseOps|)); }
    case AssertAgain(f, _, now) =>
      var l := s.flights[f].stage;
      var s1 := Asserting(s, l.seen, now);
      TicketsFrame(s, s1);
      RefuseKeeps(s1, f);
      OnwardKeeps(s1, f, Current(Found(l.seen, l.left, |s.leaseOps|, now)));
    case Call(f) => OnwardKeeps(s, f, Called(s.flights[f].stage.found));
  }

  lemma BeginTickets(epoch: nat, s: State, id: string, digest: Digest)
    requires TicketsOk(s) && StagesOk(epoch, s) && id in s.contexts
    ensures TicketsOk(Apply(epoch, s, BeginResolve(id, digest)))
  {
    ContextsOf(epoch, s);
    hide TicketsOk, StagesOk, LedgerOf;
    NewFlightKeeps(s, Flight(s.contexts[id], Some(Ticket(id, digest)), false, Deciding));
  }

  lemma NextTickets(epoch: nat, s: State, step: Step)
    requires TicketsOk(s) && StagesOk(epoch, s)
    ensures TicketsOk(Next(epoch, s, step))
  {
    hide TicketsOk, StagesOk, DoSubmit, DoDecide, DoClear, DoSpend, DoLeave, DoAssertAgain, DoCall;
    hide LedgerOf, Run, Leases.Offered, Approvals.Step;
    if Enabled(s, step) {
      match step
      case Submit(_, _, _, _, _) => SubmitTickets(epoch, s, step);
      case BeginResolve(id, digest) => BeginTickets(epoch, s, id, digest);
      case Decide(_, _, _, _, _) => DecideTickets(s, step);
      case Clear(f, active, now) => ClearTickets(epoch, s, f, active, now);
      case Spend(f, now) => SpendTickets(s, f, now);
      case LeaveQueue(_, _, _) => TurnTickets(epoch, s, step);
      case AssertAgain(_, _, _) => TurnTickets(epoch, s, step);
      case Call(_) => TurnTickets(epoch, s, step);
      case Refuse(f) => RefuseKeeps(s, f);
      case ApprovalOp(op) => OpKeeps(s, op);
      case _ => TicketsFrame(s, Apply(epoch, s, step));
    }
  }

  lemma {:induction false} ReachTickets(epoch: nat, steps: seq<Step>)
    ensures TicketsOk(Reach(epoch, steps))
  {
    if steps == [] {
      assert FreshIds([]);
    } else {
      hide TicketsOk, StagesOk, Next;
      ReachTickets(epoch, steps[..|steps| - 1]);
      ReachStages(epoch, steps[..|steps| - 1]);
      NextTickets(epoch, Reach(epoch, steps[..|steps| - 1]), steps[|steps| - 1]);
    }
  }

  // ---- Over whole runs ----

  lemma FreshBefore(ops: seq<Leases.Op>, more: seq<Leases.Op>)
    requires Leases.FreshIds(ops + more)
    ensures Leases.FreshIds(ops)
  {
    Leases.FreshPrefix(ops, more, 0);
    assert ops + more[..0] == ops;
  }

  /**
   * In every interleaving with submissions, expiry, revocation and other
   * decisions, an approval leads to at most one handler call.
   */
  lemma CalledAtMostOnce(epoch: nat, steps: seq<Step>, id: string)
    ensures Calls(Reach(epoch, steps).flights, id) <= 1
  {
    hide Reach, LedgerOf, Spendings, Calls;
    ReachTickets(epoch, steps);
    var s := Reach(epoch, steps);
    CallsAreSpent(s.flights, id);
    ConsumedAtMostOnce(s.ops, id);
  }

  /**
   * The command's lease, as it stood after these operations: of this process and
   * at the revision the command names, unexpired, of the command's actor and
   * task, and with a grant that lists the capability on the command's target.
   */
  ghost predicate LeaseGrants(epoch: nat, ops: seq<Leases.Op>, x: Context, now: int) {
    var c, leases := x.command, Leases.Run(epoch, ops).leases;
    && c.leaseId in leases && c.ownerEpoch == epoch
    && var l := leases[c.leaseId];
       && l.ownerEpoch == epoch && l.revision == c.leaseRevision && now < l.expires
       && l.actorId == c.actorId && l.taskId == c.taskId
       && exists i :: 0 <= i < |l.grants| && l.grants[i].target == c.target
                      && x.classification.capability in l.grants[i].capabilities
  }

  lemma CurrentIffGrants(epoch: nat, ops: seq<Leases.Op>, x: Context, now: int)
    requires Leases.FreshIds(ops)
    ensures LeaseCurrent(epoch, ops, x, now) <==> LeaseGrants(epoch, ops, x, now)
  {
    hide Leases.Valid, Leases.Run, Leases.AssertStep, Leases.FreshIds;
    Leases.RunValid(epoch, ops);
    Leases.AssertIff(Leases.Run(epoch, ops), AssertionOf(x), epoch, now);
  }

  /**
   * A handler is called only for an action that reads, as its effect leaves the
   * queue, exactly as it did when it was submitted, and whose lease, after that,
   * granted its capability on its target to its actor and task. If the policy has it need an approval, an operator
   * approved it and that approval was spent on it, once, under the digest the
   * operator named; and otherwise no approval was involved.
   */
  lemma CalledOnlyAsApproved(epoch: nat, steps: seq<Step>, i: nat)
    requires i < |Reach(epoch, steps).flights| && Reach(epoch, steps).flights[i].stage.Called?
    ensures var s := Reach(epoch, steps);
            var x, found := s.flights[i], s.flights[i].stage.found;
            && Understood(x.context.command, found.seen.executable.semantic) == Some(found.seen)
            && found.seen == x.context
            && found.left <= found.at <= |s.leaseOps|
            && LeaseGrants(epoch, s.leaseOps[..found.at], x.context, found.now)
            && (found.seen.classification.decision.NeedsApproval? <==> x.ticket.Some?)
            && (x.ticket.Some? ==>
                  var l, t := LedgerOf(s.ops), x.ticket.value;
                  && x.context.effect.Some? && t.id in l.approved && Times(l, t.id) == 1
                  && t.id in l.requested && l.requested[t.id] == IdentityOf(x.context)
                  && t.digest == Of(IdentityOf(x.context)))
  {
    hide Reach, LedgerOf, IdentityOf, Spendings, LeaseCurrent, LeaseGrants, Understood, Leases.FreshIds;
    ReachTickets(epoch, steps);
    ReachStages(epoch, steps);
    var s := Reach(epoch, steps);
    var x := s.flights[i];
    assert TicketOk(LedgerOf(s.ops), x) && StageOk(epoch, s.leaseOps, x.context, x.stage);
    var before := s.leaseOps[..x.stage.found.at];
    assert before + s.leaseOps[x.stage.found.at..] == s.leaseOps;
    FreshBefore(before, s.leaseOps[x.stage.found.at..]);
    CurrentIffGrants(epoch, before, x.context, x.stage.found.now);
    if x.ticket.Some? {
      ConsumedAtMostOnce(s.ops, x.ticket.value.id);
      SpentCounts(s.flights, i, x.ticket.value.id);
    }
  }

  // ---- A lease that ended ----

  /** The lease was granted once and has ended, by revocation, release or expiry. */
  ghost predicate LeaseGone(epoch: nat, s: State, id: string) {
    Leases.Offered(s.leaseOps, id) && id !in Leases.Run(epoch, s.leaseOps).leases
  }

  /** A flight under a lease that ended before it was found current. */
  ghost predicate Stranded(epoch: nat, s: State, i: nat) {
    && i < |s.flights| && !s.flights[i].stage.Current? && !s.flights[i].stage.Called?
    && LeaseGone(epoch, s, s.flights[i].context.command.leaseId)
  }

  lemma GoneStays(epoch: nat, s: State, op: Leases.Op, id: string)
    requires StagesOk(epoch, s) && LeaseGone(epoch, s, id) && (op.GrantOp? ==> !Leases.Offered(s.leaseOps, op.newId))
    ensures LeaseGone(epoch, s.(leaseOps := s.leaseOps + [op]), id)
  {
    var all := s.leaseOps + [op];
    assert all[..|all| - 1] == s.leaseOps;
    hide Leases.Offered, Leases.FreshIds;
    Leases.OfferedSnoc(all, id);
    FreshLater(s.leaseOps, op);
    var a := Leases.Assertion(id, 0, 0, "", "", Project(""), PaneCreate);
    Leases.EndedNeverPasses(epoch, s.leaseOps, [op], a, 0);
  }

  lemma GoneNeverCurrent(epoch: nat, s: State, x: Context, now: int)
    requires LeaseGone(epoch, s, x.command.leaseId)
    ensures !LeaseCurrent(epoch, s.leaseOps, x, now)
  {
  }

  /** One more lease operation at most, and no grant of an id offered before. */
  lemma LeaseOpsGrow(epoch: nat, s: State, step: Step)
    ensures var s' := Next(epoch, s, step);
            s'.leaseOps == s.leaseOps
            || (|s'.leaseOps| == |s.leaseOps| + 1 && s'.leaseOps[..|s.leaseOps|] == s.leaseOps
                && var op := s'.leaseOps[|s.leaseOps|];
                   op.GrantOp? ==> !Leases.Offered(s.leaseOps, op.newId))
  {
    hide LedgerOf, Run, Consumes, Approves, Approvals.Step, Understood, TargetStands, ContextsMatch;
    hide Leases.Offered, LeaseCurrent, IdentityOf, AssertionOf;
  }

  /** There is no way to be found current but through a lease in force. */
  lemma FlightStays(epoch: nat, s: State, step: Step, i: nat)
    requires i < |s.flights| && !s.flights[i].stage.Current? && !s.flights[i].stage.Called?
    ensures var s' := Next(epoch, s, step);
            && i < |s'.flights| && s'.flights[i].context == s.flights[i].context && !s'.flights[i].stage.Called?
            && (s'.flights[i].stage.Current? ==>
                  && step.AssertAgain? && step.f == i && s.flights[i].stage.Leaving?
                  && LeaseCurrent(epoch, s.leaseOps, s.flights[i].stage.seen, step.now))
  {
    hide LedgerOf, Run, Consumes, Approves, Approvals.Step, Understood, TargetStands, ContextsMatch;
    hide Leases.Offered, LeaseCurrent, IdentityOf, AssertionOf;
  }

  lemma StrandedStays(epoch: nat, s: State, step: Step, i: nat)
    requires StagesOk(epoch, s) && Stranded(epoch, s, i)
    ensures Stranded(epoch, Next(epoch, s, step), i)
  {
    hide StagesOk, Leases.Offered, LeaseGone, LeaseCurrent;
    var s' := Next(epoch, s, step);
    var id := s.flights[i].context.command.leaseId;
    LeaseOpsGrow(epoch, s, step);
    FlightStays(epoch, s, step, i);
    hide Next;
    if s'.leaseOps == s.leaseOps {
      SameGone(epoch, s, s', id);
    } else {
      var op := s'.leaseOps[|s.leaseOps|];
      assert s'.leaseOps == s.leaseOps + [op];
      GoneStays(epoch, s, op, id);
      SameGone(epoch, s.(leaseOps := s.leaseOps + [op]), s', id);
    }
    if s'.flights[i].stage.Current? {
      SeenIsOwn(epoch, s, i);
      GoneNeverCurrent(epoch, s, s.flights[i].stage.seen, step.now);
    }
  }

  lemma SameGone(epoch: nat, s: State, s': State, id: string)
    requires LeaseGone(epoch, s, id) && s'.leaseOps == s.leaseOps
    ensures LeaseGone(epoch, s', id)
  {
  }

  lemma SeenIsOwn(epoch: nat, s: State, i: nat)
    requires StagesOk(epoch, s) && i < |s.flights| && s.flights[i].stage.Leaving?
    ensures s.flights[i].stage.seen.command == s.flights[i].context.command
  {
    assert StageOk(epoch, s.leaseOps, s.flights[i].context, s.flights[i].stage);
  }

  /**
   * Once its lease has ended, an action that was not yet found current when its
   * effect left the queue never reaches its handler, approved or not and
   * whatever is granted later.
   */
  lemma {:induction false} LeaseEndedNeverCalls(epoch: nat, steps: seq<Step>, more: seq<Step>, i: nat)
    requires Stranded(epoch, Reach(epoch, steps), i)
    ensures var s := Reach(epoch, steps + more);
            Stranded(epoch, s, i) && i < |s.flights| && !s.flights[i].stage.Called?
  {
    hide StagesOk, Next, LeaseGone;
    if more == [] {
      assert steps + more == steps;
    } else {
      var n := |more| - 1;
      var all := steps + more;
      assert all[..|all| - 1] == steps + more[..n] && all[|all| - 1] == more[n];
      LeaseEndedNeverCalls(epoch, steps, more[..n], i);
      ReachStages(epoch, steps + more[..n]);
      StrandedStays(epoch, Reach(epoch, steps + more[..n]), more[n], i);
    }
  }
}
