/**
 * Commands and effects queued on panes, tabs and projects, and takeovers that
 * preempt queued automation. A step is what the runtime does between two awaits.
 */
module PaneQueues {
  import opened ControlEvents

  datatype Kind = PaneKind | TabKind | ProjectKind

  type Id = string

  /** What a queue belongs to; a pane without a surface has generation 0. */
  datatype Target = Target(kind: Kind, id: Id, generation: nat)

  datatype Surface = Surface(kind: Kind, generation: nat)

  /** The most effects that may wait on one queue. */
  const QUEUE_DEPTH: nat := 64

  datatype Append = Pending | Written | Refused

  /**
   * Where the code that runs an entry stands: its turn has not come; inside its
   * handler; awaiting the call that fixes its outcome, from the body or from the
   * catch branch; about to leave the queue; gone.
   */
  datatype Runner = Queued | Handling | Awaiting(call: nat, catching: bool) | Leaving | Finished

  /**
   * An entry of a queue: a command or, with `command` false, an effect. `queue`
   * is the queue object it was chained on and `prior` the entry whose promise
   * was that object's tail then. `barrier` is the pane's barrier when it was
   * queued and `requested` the append of its request. `fixedBy` is the call that
   * fixed its outcome (until then it is not terminalized), and `settlements`
   * counts how often its caller's promise was resolved or rejected.
   */
  datatype Item = Item(target: Target, queue: nat, prior: Option<nat>, command: bool, automation: bool,
                       barrier: nat, requested: Append, runner: Runner, started: bool, preempted: bool,
                       fixedBy: Option<nat>, settlements: nat)

  /** A call that fixed an outcome: it awaits the request, appends, and then settles. */
  datatype Call = Call(item: nat, answer: Option<bool>)

  /** A queue object: told apart by `serial`; the entry whose promise is its tail, if it has one. */
  datatype Queue = Queue(serial: nat, items: set<nat>, effects: set<nat>, quarantined: bool, blocked: bool,
                         tail: Option<nat>)

  /** `queues` are the registered queue objects; `order` lists the entries whose handler was invoked. */
  datatype State = State(items: seq<Item>, calls: seq<Call>, queues: map<Target, Queue>, serials: nat,
                         barriers: map<Id, nat>, surfaces: map<Id, Surface>, order: seq<nat>)

  function Init(): State {
    State([], [], map[], 0, map[], map[], [])
  }

  function Barrier(s: State, p: Id): nat {
    if p in s.barriers then s.barriers[p] else 0
  }

  function PaneTarget(s: State, p: Id): Target {
    Target(PaneKind, p, if p in s.surfaces && s.surfaces[p].kind.PaneKind? then s.surfaces[p].generation else 0)
  }

  /** The registered queue object, or a new one whose tail is a settled promise. */
  function QueueFor(s: State, t: Target): Queue {
    if t in s.queues then s.queues[t] else Queue(s.serials, {}, {}, false, false, None)
  }

  function WithQueue(s: State, t: Target, q: Queue): State {
    s.(queues := s.queues[t := q], serials := if t in s.queues then s.serials else s.serials + 1)
  }

  function WithItem(s: State, i: nat, x: Item): State
    requires i < |s.items|
  {
    s.(items := s.items[i := x])
  }

  function WithRunner(s: State, i: nat, r: Runner): State
    requires i < |s.items|
  {
    WithItem(s, i, s.items[i].(runner := r))
  }

  predicate Stale(s: State, x: Item) {
    x.automation && x.barrier != Barrier(s, x.target.id)
  }

  predicate Done(s: State, prior: Option<nat>) {
    prior.Some? ==> prior.value < |s.items| && s.items[prior.value].runner.Finished?
  }

  datatype Step =
    | Enqueue(pane: Id, automation: bool)
    | EnqueueEffect(target: Target)
    | RequestAnswered(i: nat, written: bool)
    | TakeTurn(i: nat, valid: bool)
    | HandlerReturned(i: nat, ok: bool, timedOut: bool)
    | CallReturns(call: nat, ok: bool)
    | Resume(i: nat)
    | Leave(i: nat)
    | Takeover(pane: Id)
    | SetSurface(id: Id, surface: Surface)
    | RemoveSurface(id: Id)
    | Block(target: Target)
    | Unblock(target: Target)
    | PruneQueue(target: Target)
    | PruneInactive(target: Target)
    | PruneBarrier(pane: Id)

  predicate Idle(q: Queue) {
    q.items == {} && q.effects == {} && !q.blocked
  }

  predicate Enabled(s: State, step: Step) {
    match step
    case Enqueue(_, _) => true
    case EnqueueEffect(_) => true
    case RequestAnswered(i, _) => i < |s.items| && s.items[i].requested.Pending?
    case TakeTurn(i, _) =>
      i < |s.items| && s.items[i].runner.Queued? && Done(s, s.items[i].prior) && !s.items[i].requested.Pending?
    case HandlerReturned(i, _, _) => i < |s.items| && s.items[i].runner.Handling?
    case CallReturns(c, ok) =>
      && c < |s.calls| && s.calls[c].answer.None? && s.calls[c].item < |s.items|
      && var x := s.items[s.calls[c].item]; !x.requested.Pending? && (ok ==> x.requested.Written?)
    case Resume(i) =>
      && i < |s.items| && s.items[i].runner.Awaiting? && s.items[i].runner.call < |s.calls|
      && s.calls[s.items[i].runner.call].answer.Some?
    case Leave(i) => i < |s.items| && s.items[i].runner.Leaving?
    case Takeover(_) => true
    case SetSurface(_, _) => true
    case RemoveSurface(_) => true
    case Block(_) => true
    case Unblock(t) => t in s.queues
    case PruneQueue(t) =>
      t in s.queues && Idle(s.queues[t]) && !s.queues[t].quarantined && Done(s, s.queues[t].tail)
    case PruneInactive(t) =>
      && t in s.queues && Idle(s.queues[t]) && s.queues[t].quarantined && !t.kind.ProjectKind?
      && (t.id !in s.surfaces || s.surfaces[t.id] != Surface(t.kind, t.generation))
    case PruneBarrier(p) =>
      p in s.barriers && p !in s.surfaces && forall t :: t in s.queues && t.kind.PaneKind? ==> t.id != p
  }

  /** A command is chained on the tail of its pane's queue and becomes the tail. */
  function DoEnqueue(s: State, p: Id, automation: bool): State {
    var t := PaneTarget(s, p);
    var q := QueueFor(s, t);
    var i := |s.items|;
    var x := Item(t, q.serial, q.tail, true, automation, Barrier(s, p), Pending, Queued, false, false, None, 0);
    WithQueue(s, t, q.(items := q.items + {i}, tail := Some(i))).(items := s.items + [x])
  }

  /** So is an effect, unless the queue is quarantined or full. */
  function DoEnqueueEffect(s: State, t: Target): State {
    var q := QueueFor(s, t);
    if q.quarantined || |q.effects| >= QUEUE_DEPTH then s
    else
      var i := |s.items|;
      var x := Item(t, q.serial, q.tail, false, false, 0, Written, Queued, false, false, None, 0);
      WithQueue(s, t, q.(effects := q.effects + {i}, tail := Some(i))).(items := s.items + [x])
  }

  /** Fix the outcome of a command and start the call that will settle it, unless it is fixed. */
  function Terminalize(s: State, i: nat): State
    requires i < |s.items|
  {
    if s.items[i].fixedBy.Some? then s
    else WithItem(s, i, s.items[i].(fixedBy := Some(|s.calls|))).(calls := s.calls + [Call(i, None)])
  }

  function AwaitTerminal(s: State, i: nat, catching: bool): State
    requires i < |s.items|
  {
    WithRunner(Terminalize(s, i), i,
               if s.items[i].fixedBy.Some? then Leaving else Awaiting(|s.calls|, catching))
  }

  /** The catch branch of a runner. */
  function Catch(s: State, i: nat): State
    requires i < |s.items|
  {
    if s.items[i].fixedBy.Some? then WithRunner(s, i, Leaving) else AwaitTerminal(s, i, true)
  }

  function Start(s: State, i: nat): State
    requires i < |s.items|
  {
    WithItem(s, i, s.items[i].(started := true, runner := Handling)).(order := s.order + [i])
  }

  /** The turn of an entry: its handler is invoked unless it is ended already, stale, or not valid any more. */
  function DoTakeTurn(s: State, i: nat, valid: bool): State
    requires i < |s.items|
  {
    var x := s.items[i];
    if !x.command then if valid then Start(s, i) else WithRunner(s, i, Leaving)
    else if x.requested.Refused? then Catch(s, i)
    else if x.fixedBy.Some? then WithRunner(s, i, Leaving)
    else if x.preempted || Stale(s, x) then AwaitTerminal(s, i, false)
    else Start(s, i)
  }

  /** An effect that timed out quarantines its queue object. */
  function DoHandlerReturned(s: State, i: nat, ok: bool, timedOut: bool): State
    requires i < |s.items|
  {
    var x := s.items[i];
    if x.command then if ok then AwaitTerminal(s, i, false) else Catch(s, i)
    else
      var s1 := WithRunner(s, i, Leaving);
      if timedOut && x.target in s.queues && s.queues[x.target].serial == x.queue
      then s1.(queues := s.queues[x.target := s.queues[x.target].(quarantined := true)])
      else s1
  }

  function Settle(s: State, i: nat): State
    requires i < |s.items|
  {
    WithItem(s, i, s.items[i].(settlements := s.items[i].settlements + 1))
  }

  /** A runner goes on after the call it awaited, which may have thrown. */
  function DoResume(s: State, i: nat): State
    requires Enabled(s, Resume(i))
  {
    var r := s.items[i].runner;
    if s.calls[r.call].answer == Some(true) then WithRunner(s, i, Leaving)
    else if !r.catching then Catch(s, i)
    else if s.items[i].fixedBy.Some? then WithRunner(s, i, Leaving)
    else Settle(WithRunner(s, i, Leaving), i)
  }

  /** A command is deleted from whatever queue is registered, an effect from its own. */
  function DoLeave(s: State, i: nat): State
    requires i < |s.items|
  {
    var x := s.items[i];
    var s1 := WithRunner(s, i, Finished);
    if x.target !in s.queues then s1
    else
      var q := s.queues[x.target];
      if x.command then s1.(queues := s.queues[x.target := q.(items := q.items - {i})])
      else if q.serial == x.queue then s1.(queues := s.queues[x.target := q.(effects := q.effects - {i})])
      else s1
  }

  function PreemptOne(s: State, members: set<nat>, i: nat): State
    requires i < |s.items|
  {
    var x := s.items[i];
    if i in members && x.automation && !x.started && x.fixedBy.None?
    then Terminalize(WithItem(s, i, x.(preempted := true)), i)
    else s
  }

  /** A takeover visits the members of a queue in the order they were queued. */
  function PreemptBelow(s: State, members: set<nat>, n: nat): (r: State)
    requires n <= |s.items|
    ensures |r.items| == |s.items|
  {
    if n == 0 then s else PreemptOne(PreemptBelow(s, members, n - 1), members, n - 1)
  }

  function DoTakeover(s: State, p: Id): State {
    var s1 := s.(barriers := s.barriers[p := Barrier(s, p) + 1]);
    var t := PaneTarget(s, p);
    if t in s.queues then PreemptBelow(s1, s.queues[t].items, |s.items|) else s1
  }

  function Apply(s: State, step: Step): State
    requires Enabled(s, step)
  {
    match step
    case Enqueue(p, automation) => DoEnqueue(s, p, automation)
    case EnqueueEffect(t) => DoEnqueueEffect(s, t)
    case RequestAnswered(i, written) =>
      WithItem(s, i, s.items[i].(requested := if written then Written else Refused))
    case TakeTurn(i, valid) => DoTakeTurn(s, i, valid)
    case HandlerReturned(i, ok, timedOut) => DoHandlerReturned(s, i, ok, timedOut)
    case CallReturns(c, ok) => Settle(s.(calls := s.calls[c := s.calls[c].(answer := Some(ok))]), s.calls[c].item)
    case Resume(i) => DoResume(s, i)
    case Leave(i) => DoLeave(s, i)
    case Takeover(p) => DoTakeover(s, p)
    case SetSurface(id, surface) => s.(surfaces := s.surfaces[id := surface])
    case RemoveSurface(id) => s.(surfaces := s.surfaces - {id})
    case Block(t) => WithQueue(s, t, QueueFor(s, t).(blocked := true))
    case Unblock(t) => s.(queues := s.queues[t := s.queues[t].(blocked := false)])
    case PruneQueue(t) => s.(queues := s.queues - {t})
    case PruneInactive(t) => s.(queues := s.queues - {t})
    case PruneBarrier(p) => s.(barriers := s.barriers - {p})
  }

  function Next(s: State, step: Step): State {
    if Enabled(s, step) then Apply(s, step) else s
  }

  function RunFrom(s: State, steps: seq<Step>): State {
    if steps == [] then s else Next(RunFrom(s, steps[..|steps| - 1]), steps[|steps| - 1])
  }

  function Run(steps: seq<Step>): State {
    RunFrom(Init(), steps)
  }

  // ---- Invariant ----

  /** What an entry says of itself, its call and its barrier. */
  predicate ItemOk(s: State, x: Item, i: nat) {
    && (x.command ==> x.target.kind.PaneKind?)
    && (!x.command ==> !x.automation && x.fixedBy.None? && !x.runner.Awaiting? && x.requested.Written?)
    && (x.command && !x.runner.Finished? ==> x.barrier <= Barrier(s, x.target.id))
    && (x.started ==> !x.runner.Queued?) && (!x.runner.Queued? ==> !x.requested.Pending?)
    && (x.preempted ==> x.fixedBy.Some? && !x.started)
    && (x.runner.Handling? ==> x.started && x.fixedBy.None?)
    && (x.runner.Awaiting? ==> x.fixedBy == Some(x.runner.call))
    && (x.command && (x.runner.Leaving? || x.runner.Finished?) ==> x.fixedBy.Some?)
    && (x.fixedBy.None? ==> x.settlements == 0)
    && (x.fixedBy.Some? ==>
          && x.fixedBy.value < |s.calls| && s.calls[x.fixedBy.value].item == i
          && x.settlements == if s.calls[x.fixedBy.value].answer.Some? then 1 else 0)
  }

  predicate ItemsOk(s: State) {
    forall i :: 0 <= i < |s.items| ==> ItemOk(s, s.items[i], i)
  }

  predicate CallsOk(s: State) {
    forall c :: 0 <= c < |s.calls| ==>
      s.calls[c].item < |s.items| && s.items[s.calls[c].item].fixedBy == Some(c)
  }

  /** An entry that has not left is a member of the registered queue object it was chained on. */
  predicate Registered(s: State, i: nat)
    requires i < |s.items|
  {
    var x := s.items[i];
    && x.target in s.queues && s.queues[x.target].serial == x.queue
    && i in (if x.command then s.queues[x.target].items else s.queues[x.target].effects)
  }

  predicate MembersOk(s: State) {
    && (forall i :: 0 <= i < |s.items| ==> s.items[i].queue < s.serials)
    && (forall i :: 0 <= i < |s.items| && !s.items[i].runner.Finished? ==> Registered(s, i))
  }

  /** Nobody after entry `p` and before `n` was chained on object `serial`. */
  predicate NoneBetween(s: State, serial: nat, p: Option<nat>, n: nat)
    requires n <= |s.items|
  {
    forall j :: (if p.Some? then p.value + 1 else 0) <= j < n ==> s.items[j].queue != serial
  }

  predicate ChainOk(s: State, i: nat)
    requires i < |s.items|
  {
    var x := s.items[i];
    && (x.prior.Some? ==> x.prior.value < i && s.items[x.prior.value].queue == x.queue)
    && NoneBetween(s, x.queue, x.prior, i)
    && (!x.runner.Queued? ==> Done(s, x.prior))
    && (forall j :: 0 <= j < i && s.items[j].target == x.target && s.items[j].queue != x.queue ==>
          s.items[j].runner.Finished?)
  }

  predicate ChainsOk(s: State) {
    forall i :: 0 <= i < |s.items| ==> ChainOk(s, i)
  }

  predicate QueueOk(s: State, t: Target)
    requires t in s.queues
  {
    var q := s.queues[t];
    && q.serial < s.serials && |q.effects| <= QUEUE_DEPTH
    && (q.tail.Some? ==> q.tail.value < |s.items| && s.items[q.tail.value].queue == q.serial)
    && NoneBetween(s, q.serial, q.tail, |s.items|)
  }

  predicate QueuesOk(s: State) {
    && (forall t :: t in s.queues ==> QueueOk(s, t))
    && (forall t, u :: t in s.queues && u in s.queues && s.queues[t].serial == s.queues[u].serial ==> t == u)
  }

  /** Handlers on one target were invoked in the order their entries were queued, each once. */
  predicate OrderOk(s: State) {
    && (forall a :: 0 <= a < |s.order| ==> s.order[a] < |s.items| && s.items[s.order[a]].started)
    && (forall a, b :: 0 <= a < b < |s.order| && s.items[s.order[a]].target == s.items[s.order[b]].target ==>
          s.order[a] < s.order[b])
  }

  predicate Inv(s: State) {
    ItemsOk(s) && CallsOk(s) && MembersOk(s) && ChainsOk(s) && QueuesOk(s) && OrderOk(s)
  }

  // ---- Turns are taken in order ----

  /** Along the chain of tails everything queued earlier on the same object has left. */
  lemma {:induction false} ChainHasTurn(s: State, i: nat, j: nat)
    requires ChainsOk(s) && j < i < |s.items| && Done(s, s.items[i].prior) && s.items[j].queue == s.items[i].queue
    ensures s.items[j].runner.Finished?
    decreases i
  {
    assert ChainOk(s, i);
    var p := s.items[i].prior.value;
    if j != p {
      assert ChainOk(s, p);
      ChainHasTurn(s, p, j);
    }
  }

  /** Once an entry's turn has come, every entry queued before it on its target has left. */
  lemma HasTurn(s: State, i: nat, j: nat)
    requires ChainsOk(s) && j < i < |s.items| && Done(s, s.items[i].prior) && s.items[j].target == s.items[i].target
    ensures s.items[j].runner.Finished?
  {
    assert ChainOk(s, i);
    if s.items[j].queue == s.items[i].queue { ChainHasTurn(s, i, j); }
  }

  // ---- Steps keep the invariant ----

  /** What stays fixed about an entry; it leaves only in a step of its own. */
  predicate SameChain(x: Item, y: Item) {
    && y.target == x.target && y.queue == x.queue && y.prior == x.prior && y.command == x.command
    && y.automation == x.automation && y.barrier == x.barrier
    && (x.started ==> y.started) && (y.runner.Queued? ==> x.runner.Queued?)
  }

  /** Queues keep their members and tails; their flags may change. */
  predicate SameMembers(s: State, s': State) {
    && s'.queues.Keys == s.queues.Keys && s'.serials == s.serials && s'.order == s.order
    && forall t :: t in s.queues ==>
         && s'.queues[t].serial == s.queues[t].serial && s'.queues[t].items == s.queues[t].items
         && s'.queues[t].effects == s.queues[t].effects && s'.queues[t].tail == s.queues[t].tail
  }

  /** Chains and members do not see what happens to one entry before it leaves. */
  lemma ChainFrame(s: State, s': State, i: nat, y: Item)
    requires Inv(s) && i < |s.items| && s'.items == s.items[i := y] && SameMembers(s, s')
    requires SameChain(s.items[i], y) && y.runner.Finished? == s.items[i].runner.Finished?
    requires !y.runner.Queued? ==> Done(s, y.prior)
    ensures MembersOk(s') && ChainsOk(s') && QueuesOk(s') && OrderOk(s')
  {
    hide ItemsOk, CallsOk, ChainsOk, MembersOk, QueuesOk, Done;
    ChainsFrame(s, s', i, y);
    MembersFrame(s, s', i, y);
    QueuesFrame(s, s', i, y);
  }

  lemma MembersFrame(s: State, s': State, i: nat, y: Item)
    requires MembersOk(s) && i < |s.items| && s'.items == s.items[i := y] && SameMembers(s, s')
    requires SameChain(s.items[i], y) && y.runner.Finished? == s.items[i].runner.Finished?
    ensures MembersOk(s')
  {
    forall j | 0 <= j < |s'.items| && !s'.items[j].runner.Finished? ensures Registered(s', j) {
      assert Registered(s, j);
    }
  }

  lemma QueuesFrame(s: State, s': State, i: nat, y: Item)
    requires QueuesOk(s) && i < |s.items| && s'.items == s.items[i := y] && SameMembers(s, s')
    requires SameChain(s.items[i], y)
    ensures QueuesOk(s')
  {
    forall t | t in s'.queues ensures QueueOk(s', t) { assert QueueOk(s, t); }
  }

  /** Nor do chains see an entry leave, except as done. */
  lemma ChainsFrame(s: State, s': State, i: nat, y: Item)
    requires ChainsOk(s) && i < |s.items| && s'.items == s.items[i := y]
    requires SameChain(s.items[i], y) && (s.items[i].runner.Finished? ==> y.runner.Finished?)
    requires !y.runner.Queued? ==> Done(s, y.prior)
    ensures ChainsOk(s')
  {
    forall j | 0 <= j < |s'.items| ensures ChainOk(s', j) { assert ChainOk(s, j); }
  }

  /** A change of one entry that fixes no outcome. */
  lemma ItemKeeps(s: State, s': State, i: nat, y: Item)
    requires Inv(s) && i < |s.items| && s'.items == s.items[i := y] && SameMembers(s, s')
    requires SameChain(s.items[i], y) && y.runner.Finished? == s.items[i].runner.Finished?
    requires !y.runner.Queued? ==> Done(s, y.prior)
    requires s'.calls == s.calls && s'.barriers == s.barriers && y.fixedBy == s.items[i].fixedBy
    requires ItemOk(s, y, i)
    ensures Inv(s')
  {
    hide ItemOk;
    ChainFrame(s, s', i, y);
    forall j | 0 <= j < |s'.items| ensures ItemOk(s', s'.items[j], j) {
      ItemFrame(s, s', s'.items[j], j);
    }
    assert CallsOk(s');
  }

  lemma ItemFrame(s: State, s': State, x: Item, j: nat)
    requires ItemOk(s, x, j)
    requires s'.barriers == s.barriers && |s.calls| <= |s'.calls|
    requires x.fixedBy.Some? ==> s'.calls[x.fixedBy.value] == s.calls[x.fixedBy.value]
    ensures ItemOk(s', x, j)
  {
  }

  /** Fixing an outcome that was open starts the one call that settles it. */
  lemma FixKeeps(s: State, s': State, i: nat, y: Item)
    requires Inv(s) && i < |s.items| && s.items[i].command && s.items[i].fixedBy.None?
    requires s'.items == s.items[i := y] && SameMembers(s, s') && s'.barriers == s.barriers
    requires SameChain(s.items[i], y) && !y.runner.Finished? && !s.items[i].runner.Finished?
    requires !y.runner.Queued? ==> Done(s, y.prior)
    requires s'.calls == s.calls + [Call(i, None)] && y.fixedBy == Some(|s.calls|)
    requires ItemOk(s', y, i)
    ensures Inv(s')
  {
    ChainFrame(s, s', i, y);
    hide MembersOk, ChainsOk, QueuesOk, OrderOk, SameMembers;
    FixItems(s, s', i, y);
  }

  lemma FixItems(s: State, s': State, i: nat, y: Item)
    requires ItemsOk(s) && CallsOk(s) && i < |s.items| && s.items[i].fixedBy.None?
    requires s'.items == s.items[i := y] && s'.barriers == s.barriers
    requires s'.calls == s.calls + [Call(i, None)] && y.fixedBy == Some(|s.calls|)
    requires ItemOk(s', y, i)
    ensures ItemsOk(s') && CallsOk(s')
  {
    hide ItemOk;
    forall j | 0 <= j < |s'.items| ensures ItemOk(s', s'.items[j], j) {
      if j != i {
        FixedWithin(s, j);
        ItemFrame(s, s', s.items[j], j);
      }
    }
    forall c | 0 <= c < |s'.calls|
      ensures s'.calls[c].item < |s'.items| && s'.items[s'.calls[c].item].fixedBy == Some(c)
    {
      if c < |s.calls| { assert s'.calls[c] == s.calls[c]; }
    }
  }

  lemma FixedWithin(s: State, j: nat)
    requires ItemsOk(s) && j < |s.items|
    ensures s.items[j].fixedBy.Some? ==> s.items[j].fixedBy.value < |s.calls|
  {
    assert ItemOk(s, s.items[j], j);
  }

  /** A runner whose turn has come ends its command. */
  lemma AwaitKeeps(s: State, i: nat, catching: bool)
    requires Inv(s) && i < |s.items| && s.items[i].command && Done(s, s.items[i].prior)
    requires !s.items[i].requested.Pending? && !s.items[i].runner.Finished?
    ensures Inv(AwaitTerminal(s, i, catching))
  {
    var x := s.items[i];
    var s' := AwaitTerminal(s, i, catching);
    assert ItemOk(s, x, i);
    if x.fixedBy.Some? {
      ItemKeeps(s, s', i, x.(runner := Leaving));
    } else {
      var y := x.(fixedBy := Some(|s.calls|), runner := Awaiting(|s.calls|, catching));
      FixKeeps(s, s', i, y);
    }
  }

  lemma CatchKeeps(s: State, i: nat)
    requires Inv(s) && i < |s.items| && s.items[i].command && Done(s, s.items[i].prior)
    requires !s.items[i].requested.Pending? && !s.items[i].runner.Finished?
    ensures Inv(Catch(s, i))
  {
    if s.items[i].fixedBy.Some? { LeavesKeeps(s, i); } else { AwaitKeeps(s, i, true); }
  }

  lemma LeavesKeeps(s: State, i: nat)
    requires Inv(s) && i < |s.items| && Done(s, s.items[i].prior)
    requires !s.items[i].requested.Pending? && !s.items[i].runner.Finished?
    requires s.items[i].command ==> s.items[i].fixedBy.Some?
    ensures Inv(WithRunner(s, i, Leaving))
  {
    assert ItemOk(s, s.items[i], i);
    ItemKeeps(s, WithRunner(s, i, Leaving), i, s.items[i].(runner := Leaving));
  }

  /** Every handler invoked on the target so far belongs to an entry queued earlier. */
  lemma StartKeeps(s: State, i: nat)
    requires Inv(s) && i < |s.items| && s.items[i].runner.Queued? && Done(s, s.items[i].prior)
    requires !s.items[i].requested.Pending? && s.items[i].fixedBy.None? && !s.items[i].preempted
    ensures Inv(Start(s, i))
  {
    var x := s.items[i];
    assert ItemOk(s, x, i);
    var s1 := WithItem(s, i, x.(started := true, runner := Handling));
    ItemKeeps(s, s1, i, x.(started := true, runner := Handling));
    forall a | 0 <= a < |s.order| && s.items[s.order[a]].target == x.target ensures s.order[a] < i {
      StartedBefore(s, i, s.order[a]);
    }
    OrderGrows(s1, i);
  }

  lemma StartedBefore(s: State, i: nat, j: nat)
    requires Inv(s) && i < |s.items| && j < |s.items| && s.items[i].runner.Queued?
    requires s.items[j].started && s.items[j].target == s.items[i].target
    ensures j < i
  {
    assert ItemOk(s, s.items[j], j);
    if i < j {
      assert ChainOk(s, j);
      HasTurn(s, j, i);
    }
  }

  lemma OrderGrows(s: State, i: nat)
    requires Inv(s) && i < |s.items| && s.items[i].started
    requires forall a | 0 <= a < |s.order| :: s.items[s.order[a]].target == s.items[i].target ==> s.order[a] < i
    ensures Inv(s.(order := s.order + [i]))
  {
    var s' := s.(order := s.order + [i]);
    forall j | 0 <= j < |s.items| ensures ItemOk(s', s'.items[j], j) && ChainOk(s', j) {
      assert ItemOk(s, s.items[j], j) && ChainOk(s, j);
    }
    forall j | 0 <= j < |s'.items| && !s'.items[j].runner.Finished? ensures Registered(s', j) {
      assert Registered(s, j);
    }
    forall t | t in s'.queues ensures QueueOk(s', t) { assert QueueOk(s, t); }
  }

  lemma TurnKeeps(s: State, i: nat, valid: bool)
    requires Inv(s) && Enabled(s, TakeTurn(i, valid))
    ensures Inv(DoTakeTurn(s, i, valid))
  {
    hide Inv;
    var x := s.items[i];
    ItemFacts(s, i);
    if !x.command {
      if valid { StartKeeps(s, i); } else { LeavesKeeps(s, i); }
    } else if x.requested.Refused? {
      CatchKeeps(s, i);
    } else if x.fixedBy.Some? {
      LeavesKeeps(s, i);
    } else if x.preempted || Stale(s, x) {
      AwaitKeeps(s, i, false);
    } else {
      StartKeeps(s, i);
    }
  }

  lemma ItemFacts(s: State, i: nat)
    requires Inv(s) && i < |s.items|
    ensures ItemOk(s, s.items[i], i) && ChainOk(s, i)
  {
  }

  lemma HandlerKeeps(s: State, i: nat, ok: bool, timedOut: bool)
    requires Inv(s) && Enabled(s, HandlerReturned(i, ok, timedOut))
    ensures Inv(DoHandlerReturned(s, i, ok, timedOut))
  {
    ItemFacts(s, i);
    if s.items[i].command {
      if ok { AwaitKeeps(s, i, false); } else { CatchKeeps(s, i); }
    } else {
      EffectReturnKeeps(s, i, ok, timedOut);
    }
  }

  lemma EffectReturnKeeps(s: State, i: nat, ok: bool, timedOut: bool)
    requires Inv(s) && Enabled(s, HandlerReturned(i, ok, timedOut)) && !s.items[i].command
    ensures Inv(DoHandlerReturned(s, i, ok, timedOut))
  {
    ItemFacts(s, i);
    hide Inv;
    assert Done(s, s.items[i].prior);
    hide ChainOk;
    EffectLeaving(s, s.items[i], i);
    var s' := DoHandlerReturned(s, i, ok, timedOut);
    hide ItemOk;
    assert SameMembers(s, s');
    assert s'.items == s.items[i := s.items[i].(runner := Leaving)] && s'.calls == s.calls && s'.barriers == s.barriers;
    hide DoHandlerReturned, SameMembers;
    ItemKeeps(s, s', i, s.items[i].(runner := Leaving));
  }

  lemma EffectLeaving(s: State, x: Item, i: nat)
    requires ItemOk(s, x, i) && !x.command && !x.runner.Queued?
    ensures ItemOk(s, x.(runner := Leaving), i)
  {
  }

  /** A call answers once; that is the one time its command's caller is answered. */
  lemma ReturnKeeps(s: State, c: nat, ok: bool)
    requires Inv(s) && Enabled(s, CallReturns(c, ok))
    ensures Inv(Apply(s, CallReturns(c, ok)))
  {
    var i := s.calls[c].item;
    var s' := Apply(s, CallReturns(c, ok));
    ItemFacts(s, i);
    ChainFrame(s, s', i, s'.items[i]);
    ReturnItems(s, c, i, s');
  }

  lemma ReturnItems(s: State, c: nat, i: nat, s': State)
    requires ItemsOk(s) && CallsOk(s) && c < |s.calls| && s.calls[c] == Call(i, None) && i < |s.items|
    requires |s'.calls| == |s.calls| && s'.calls == s.calls[c := s'.calls[c]]
    requires s'.calls[c].item == i && s'.calls[c].answer.Some?
    requires s'.items == s.items[i := s.items[i].(settlements := s.items[i].settlements + 1)]
    requires s'.barriers == s.barriers
    ensures ItemsOk(s') && CallsOk(s')
  {
    assert ItemOk(s, s.items[i], i);
    forall j | 0 <= j < |s'.items| && j != i ensures ItemOk(s', s'.items[j], j) {
      assert ItemOk(s, s.items[j], j);
    }
  }

  lemma ResumeKeeps(s: State, i: nat)
    requires Inv(s) && Enabled(s, Resume(i))
    ensures Inv(DoResume(s, i))
  {
    ItemFacts(s, i);
    LeavesKeeps(s, i);
  }

  lemma LeaveKeeps(s: State, i: nat)
    requires Inv(s) && Enabled(s, Leave(i))
    ensures Inv(DoLeave(s, i))
  {
    var s' := DoLeave(s, i);
    ItemFacts(s, i);
    LeaveItems(s, i, s');
    ChainsFrame(s, s', i, s'.items[i]);
    LeaveQueues(s, i, s');
  }

  lemma LeaveItems(s: State, i: nat, s': State)
    requires Inv(s) && Enabled(s, Leave(i)) && s' == DoLeave(s, i)
    ensures ItemsOk(s') && CallsOk(s') && OrderOk(s')
  {
    hide MembersOk, ChainsOk, QueuesOk, ItemOk;
    var x := s.items[i];
    assert s'.items == s.items[i := x.(runner := Finished)] && s'.calls == s.calls && s'.barriers == s.barriers;
    hide DoLeave;
    forall j | 0 <= j < |s'.items| ensures ItemOk(s', s'.items[j], j) {
      ItemFacts(s, j);
      FixedWithin(s, j);
      if j == i { LeftOk(s, x, i); }
      ItemFrame(s, s', s'.items[j], j);
    }
  }

  lemma LeftOk(s: State, x: Item, i: nat)
    requires ItemOk(s, x, i) && x.runner.Leaving?
    ensures ItemOk(s, x.(runner := Finished), i)
  {
  }

  /** It leaves the object it was registered with, whether found by target or at hand. */
  lemma LeaveQueues(s: State, i: nat, s': State)
    requires Inv(s) && Enabled(s, Leave(i)) && s' == DoLeave(s, i)
    ensures MembersOk(s') && QueuesOk(s')
  {
    hide ItemsOk, CallsOk, OrderOk, ChainsOk;
    assert Registered(s, i);
    var t := s.items[i].target;
    var q := s'.queues[t];
    assert s' == WithRunner(s, i, Finished).(queues := s.queues[t := q]);
    assert q == s.queues[t].(items := q.items, effects := q.effects);
    Fewer(s.queues[t].effects, i);
    assert q.items >= s.queues[t].items - {i} && q.effects >= s.queues[t].effects - {i};
    assert |q.effects| <= |s.queues[t].effects|;
    hide DoLeave;
    FewerMembers(s, i, t, q, s');
    FewerQueues(s, i, t, q, s');
  }

  lemma FewerMembers(s: State, i: nat, t: Target, q: Queue, s': State)
    requires MembersOk(s) && i < |s.items| && t in s.queues
    requires s' == WithRunner(s, i, Finished).(queues := s.queues[t := q])
    requires q == s.queues[t].(items := q.items, effects := q.effects)
    requires q.items >= s.queues[t].items - {i} && q.effects >= s.queues[t].effects - {i}
    ensures MembersOk(s')
  {
    forall j | 0 <= j < |s'.items| && !s'.items[j].runner.Finished? ensures Registered(s', j) {
      assert Registered(s, j);
    }
  }

  lemma FewerQueues(s: State, i: nat, t: Target, q: Queue, s': State)
    requires QueuesOk(s) && i < |s.items| && t in s.queues
    requires s' == WithRunner(s, i, Finished).(queues := s.queues[t := q])
    requires q == s.queues[t].(items := q.items, effects := q.effects) && |q.effects| <= |s.queues[t].effects|
    ensures QueuesOk(s')
  {
    forall u | u in s'.queues ensures QueueOk(s', u) { assert QueueOk(s, u); }
  }

  lemma Fewer(a: set<nat>, i: nat)
    ensures |a - {i}| <= |a|
  {
    if i !in a { assert a - {i} == a; }
  }

  /** A new entry is chained on the registered object, or on a new one once nobody is left. */
  lemma ChainedKeeps(s: State, t: Target, x: Item, q: Queue, s': State)
    requires Inv(s) && x.target == t && x.queue == QueueFor(s, t).serial && x.prior == QueueFor(s, t).tail
    requires x.runner.Queued? && !x.started && x.fixedBy.None? && x.settlements == 0 && !x.preempted
    requires ItemOk(s, x, |s.items|)
    requires q.serial == x.queue && q.tail == Some(|s.items|) && |q.effects| <= QUEUE_DEPTH
    requires q.items == QueueFor(s, t).items + (if x.command then {|s.items|} else {})
    requires q.effects == QueueFor(s, t).effects + (if x.command then {} else {|s.items|})
    requires s' == WithQueue(s, t, q).(items := s.items + [x])
    ensures Inv(s')
  {
    ChainedItems(s, x, s');
    forall j | 0 <= j < |s'.items| ensures ChainOk(s', j) {
      if j < |s.items| { ItemFacts(s, j); } else { NewestChain(s, t, x, s'); }
    }
    ChainedMembers(s, t, x, q, s');
  }

  lemma ChainedItems(s: State, x: Item, s': State)
    requires Inv(s) && ItemOk(s, x, |s.items|) && x.fixedBy.None?
    requires s' == s.(items := s.items + [x], queues := s'.queues, serials := s'.serials)
    ensures ItemsOk(s') && CallsOk(s') && OrderOk(s')
  {
    hide MembersOk, ChainsOk, QueuesOk, ItemOk;
    var n := |s.items|;
    forall j | 0 <= j <= n ensures ItemOk(s', s'.items[j], j) {
      if j < n { ItemFacts(s, j); FixedWithin(s, j); ItemFrame(s, s', s.items[j], j); } else { ItemFrame(s, s', x, n); }
    }
  }

  lemma ChainedMembers(s: State, t: Target, x: Item, q: Queue, s': State)
    requires MembersOk(s) && QueuesOk(s) && x.queue == QueueFor(s, t).serial && x.target == t
    requires q.serial == x.queue && q.tail == Some(|s.items|) && |q.effects| <= QUEUE_DEPTH
    requires q.items >= QueueFor(s, t).items && q.effects >= QueueFor(s, t).effects
    requires |s.items| in (if x.command then q.items else q.effects)
    requires s' == WithQueue(s, t, q).(items := s.items + [x])
    ensures MembersOk(s') && QueuesOk(s')
  {
    ChainedQueues(s, t, q, s');
    assert q.serial < s'.serials by { assert QueueOk(s', t); }
    hide QueuesOk, QueueOk;
    forall j | 0 <= j < |s'.items| && !s'.items[j].runner.Finished? ensures Registered(s', j) {
      if j < |s.items| { StillRegistered(s, t, q, s', j); }
    }
  }

  lemma StillRegistered(s: State, t: Target, q: Queue, s': State, j: nat)
    requires j < |s.items| <= |s'.items| && s'.items[j] == s.items[j] && Registered(s, j)
    requires s'.queues == s.queues[t := q] && q.serial == QueueFor(s, t).serial
    requires q.items >= QueueFor(s, t).items && q.effects >= QueueFor(s, t).effects
    ensures Registered(s', j)
  {
  }

  lemma ChainedQueues(s: State, t: Target, q: Queue, s': State)
    requires QueuesOk(s) && MembersOk(s) && q.serial == QueueFor(s, t).serial
    requires q.tail == Some(|s.items|) && |q.effects| <= QUEUE_DEPTH
    requires |s'.items| == |s.items| + 1 && s'.items[..|s.items|] == s.items && s'.items[|s.items|].queue == q.serial
    requires s' == WithQueue(s, t, q).(items := s'.items)
    ensures QueuesOk(s')
  {
    forall u | u in s.queues ensures QueueOk(s, u) && s.queues[u].serial < s.serials {}
    assert forall j :: 0 <= j < |s.items| ==> s'.items[j] == s.items[j] by {
      assert forall j :: 0 <= j < |s.items| ==> s'.items[..|s.items|][j] == s'.items[j];
    }
    forall u | u in s'.queues ensures QueueOk(s', u) {
      if u != t { assert QueueOk(s, u); }
    }
  }

  lemma NewestChain(s: State, t: Target, x: Item, s': State)
    requires Inv(s) && x.target == t && x.queue == QueueFor(s, t).serial && x.prior == QueueFor(s, t).tail
    requires x.runner.Queued? && s'.items == s.items + [x]
    ensures ChainOk(s', |s.items|)
  {
    if t in s.queues { assert QueueOk(s, t); }
    forall j | 0 <= j < |s.items| && s.items[j].target == t && s.items[j].queue != x.queue
      ensures s.items[j].runner.Finished?
    {
      assert s.items[j].runner.Finished? || Registered(s, j);
    }
  }

  lemma EnqueueKeeps(s: State, p: Id, automation: bool)
    requires Inv(s)
    ensures Inv(DoEnqueue(s, p, automation))
  {
    var t := PaneTarget(s, p);
    var q := QueueFor(s, t);
    if t in s.queues { assert QueueOk(s, t); }
    var x := Item(t, q.serial, q.tail, true, automation, Barrier(s, p), Pending, Queued, false, false, None, 0);
    ChainedKeeps(s, t, x, q.(items := q.items + {|s.items|}, tail := Some(|s.items|)), DoEnqueue(s, p, automation));
  }

  lemma EnqueueEffectKeeps(s: State, t: Target)
    requires Inv(s)
    ensures Inv(DoEnqueueEffect(s, t))
  {
    var q := QueueFor(s, t);
    if t in s.queues { assert QueueOk(s, t); }
    if !q.quarantined && |q.effects| < QUEUE_DEPTH {
      var x := Item(t, q.serial, q.tail, false, false, 0, Written, Queued, false, false, None, 0);
      ChainedKeeps(s, t, x, q.(effects := q.effects + {|s.items|}, tail := Some(|s.items|)), DoEnqueueEffect(s, t));
    }
  }

  lemma PreemptOneKeeps(s: State, members: set<nat>, i: nat)
    requires Inv(s) && i < |s.items|
    ensures Inv(PreemptOne(s, members, i))
  {
    var x := s.items[i];
    ItemFacts(s, i);
    if i in members && x.automation && !x.started && x.fixedBy.None? {
      FixKeeps(s, PreemptOne(s, members, i), i, x.(preempted := true, fixedBy := Some(|s.calls|)));
    }
  }

  lemma {:induction false} PreemptKeeps(s: State, members: set<nat>, n: nat)
    requires Inv(s) && n <= |s.items|
    ensures Inv(PreemptBelow(s, members, n))
  {
    hide Inv, PreemptOne;
    if n > 0 {
      PreemptKeeps(s, members, n - 1);
      PreemptOneKeeps(PreemptBelow(s, members, n - 1), members, n - 1);
    }
  }

  /** Changing surfaces, barriers or a queue's flags, and dropping or adding a queue object without members. */
  lemma QueuesKeep(s: State, s': State)
    requires Inv(s) && s'.items == s.items && s'.calls == s.calls && s'.order == s.order && s.serials <= s'.serials
    requires forall t :: t in s'.queues && t in s.queues ==>
               && s'.queues[t].serial == s.queues[t].serial && s'.queues[t].items == s.queues[t].items
               && s'.queues[t].effects == s.queues[t].effects && s'.queues[t].tail == s.queues[t].tail
    requires forall t :: t in s.queues && t !in s'.queues ==> s.queues[t].items == {} && s.queues[t].effects == {}
    requires forall t :: t in s'.queues && t !in s.queues ==>
               && s'.queues[t] == QueueFor(s, t).(blocked := s'.queues[t].blocked) && s'.serials == s.serials + 1
    requires forall t, u | t in s'.queues && u in s'.queues :: t !in s.queues && u !in s.queues ==> t == u
    requires forall i | 0 <= i < |s.items| :: s.items[i].command && !s.items[i].runner.Finished? ==>
               Barrier(s, s.items[i].target.id) <= Barrier(s', s.items[i].target.id)
    ensures Inv(s')
  {
    forall j | 0 <= j < |s'.items| ensures ItemOk(s', s'.items[j], j) && ChainOk(s', j) { ItemFacts(s, j); }
    forall j | 0 <= j < |s'.items| && !s'.items[j].runner.Finished? ensures Registered(s', j) {
      assert Registered(s, j);
    }
    forall t | t in s'.queues ensures QueueOk(s', t) {
      if t in s.queues { assert QueueOk(s, t); }
    }
    forall t, u | t in s'.queues && u in s'.queues && s'.queues[t].serial == s'.queues[u].serial ensures t == u {
      if t in s.queues { assert QueueOk(s, t); }
      if u in s.queues { assert QueueOk(s, u); }
    }
  }

  lemma TakeoverKeeps(s: State, p: Id)
    requires Inv(s)
    ensures Inv(DoTakeover(s, p))
  {
    hide Inv;
    var s1 := s.(barriers := s.barriers[p := Barrier(s, p) + 1]);
    QueuesKeep(s, s1);
    var t := PaneTarget(s, p);
    if t in s.queues { PreemptKeeps(s1, s.queues[t].items, |s.items|); }
  }

  /** A pane whose barrier may be dropped has no command left. */
  lemma PrunableHasNone(s: State, p: Id, i: nat)
    requires Inv(s) && Enabled(s, PruneBarrier(p)) && i < |s.items|
    requires s.items[i].command && !s.items[i].runner.Finished?
    ensures s.items[i].target.id != p
  {
    ItemFacts(s, i);
    assert Registered(s, i);
  }

  lemma PruneBarrierKeeps(s: State, p: Id)
    requires Inv(s) && Enabled(s, PruneBarrier(p))
    ensures Inv(Apply(s, PruneBarrier(p)))
  {
    forall i | 0 <= i < |s.items| && s.items[i].command && !s.items[i].runner.Finished?
      ensures s.items[i].target.id != p
    {
      PrunableHasNone(s, p, i);
    }
    QueuesKeep(s, Apply(s, PruneBarrier(p)));
  }

  lemma AnsweredKeeps(s: State, i: nat, written: bool)
    requires Inv(s) && Enabled(s, RequestAnswered(i, written))
    ensures Inv(Apply(s, RequestAnswered(i, written)))
  {
    ItemFacts(s, i);
    var y := s.items[i].(requested := if written then Written else Refused);
    ItemKeeps(s, Apply(s, RequestAnswered(i, written)), i, y);
  }

  lemma NextKeeps(s: State, step: Step)
    requires Inv(s)
    ensures Inv(Next(s, step))
  {
    hide Inv, DoTakeTurn, DoHandlerReturned, DoResume, DoLeave, DoTakeover, DoEnqueue, DoEnqueueEffect, Settle;
    if Enabled(s, step) {
      match step
      case Enqueue(p, automation) => EnqueueKeeps(s, p, automation);
      case EnqueueEffect(t) => EnqueueEffectKeeps(s, t);
      case RequestAnswered(i, written) => AnsweredKeeps(s, i, written);
      case TakeTurn(i, valid) => TurnKeeps(s, i, valid);
      case HandlerReturned(i, ok, timedOut) => HandlerKeeps(s, i, ok, timedOut);
      case CallReturns(c, ok) => ReturnKeeps(s, c, ok);
      case Resume(i) => ResumeKeeps(s, i);
      case Leave(i) => LeaveKeeps(s, i);
      case Takeover(p) => TakeoverKeeps(s, p);
      case PruneBarrier(p) => PruneBarrierKeeps(s, p);
      case _ => FlagsKeep(s, step);
    }
  }

  lemma FlagsKeep(s: State, step: Step)
    requires Inv(s) && Enabled(s, step)
    requires step.SetSurface? || step.RemoveSurface? || step.Block? || step.Unblock?
          || step.PruneQueue? || step.PruneInactive?
    ensures Inv(Apply(s, step))
  {
    hide Inv;
    QueuesKeep(s, Apply(s, step));
  }

  lemma InitOk()
    ensures Inv(Init())
  {
  }

  lemma {:induction false} RunKeeps(steps: seq<Step>)
    ensures Inv(Run(steps))
  {
    if steps == [] {
      InitOk();
    } else {
      hide Inv, Next;
      RunKeeps(steps[..|steps| - 1]);
      NextKeeps(Run(steps[..|steps| - 1]), steps[|steps| - 1]);
    }
  }

  // ---- Over whole runs ----

  lemma {:induction false} RunMore(s: State, steps: seq<Step>, more: seq<Step>)
    ensures RunFrom(s, steps + more) == RunFrom(RunFrom(s, steps), more)
  {
    hide Next;
    if more == [] {
      assert steps + more == steps;
    } else {
      var n := |more| - 1;
      var all := steps + more;
      RunMore(s, steps, more[..n]);
      assert all[..|all| - 1] == steps + more[..n] && all[|all| - 1] == more[n];
    }
  }

  /** Automation that can start no more: it left, its outcome is fixed, or its barrier is behind. */
  predicate Doomed(s: State, i: nat) {
    && i < |s.items| && s.items[i].automation && !s.items[i].started
    && var x := s.items[i];
       x.runner.Finished? || x.fixedBy.Some? || x.barrier < Barrier(s, x.target.id)
  }

  lemma {:induction false} PreemptLeaves(s: State, members: set<nat>, n: nat, i: nat)
    requires Doomed(s, i) && n <= |s.items|
    ensures Doomed(PreemptBelow(s, members, n), i) && PreemptBelow(s, members, n).barriers == s.barriers
  {
    if n > 0 { PreemptLeaves(s, members, n - 1, i); }
  }

  /** What a step must leave alone for that. */
  predicate Sealed(s: State, s': State, i: nat) {
    && i < |s.items| <= |s'.items| && var x, y := s.items[i], s'.items[i];
    && y.target == x.target && y.automation == x.automation && y.barrier == x.barrier && y.started == x.started
    && (x.runner.Finished? ==> y.runner.Finished?) && (x.fixedBy.Some? ==> y.fixedBy.Some?)
    && (!x.runner.Finished? ==> Barrier(s, x.target.id) <= Barrier(s', x.target.id))
  }

  lemma SealedDoomed(s: State, s': State, i: nat)
    requires Doomed(s, i) && Sealed(s, s', i)
    ensures Doomed(s', i)
  {
  }

  predicate IsRunners(step: Step) {
    step.TakeTurn? || step.HandlerReturned? || step.CallReturns? || step.Resume? || step.Leave?
  }

  lemma ReplacedSeals(s: State, s': State, j: nat, y: Item, i: nat)
    requires i < |s.items| && j < |s.items| && s'.items == s.items[j := y] && s'.barriers == s.barriers
    requires y == s.items[j].(runner := y.runner, fixedBy := y.fixedBy, settlements := y.settlements)
    requires s.items[j].fixedBy.Some? ==> y.fixedBy.Some?
    requires s.items[j].runner.Finished? ==> y.runner.Finished?
    ensures Sealed(s, s', i)
  {
  }

  lemma EndingSeals(s: State, j: nat, catching: bool, i: nat)
    requires i < |s.items| && j < |s.items| && !s.items[j].runner.Finished?
    ensures Sealed(s, AwaitTerminal(s, j, catching), i) && Sealed(s, Catch(s, j), i)
    ensures Sealed(s, WithRunner(s, j, Leaving), i)
  {
    hide Sealed;
    ReplacedSeals(s, WithRunner(s, j, Leaving), j, s.items[j].(runner := Leaving), i);
    AwaitSeals(s, j, catching, i);
    AwaitSeals(s, j, true, i);
  }

  lemma AwaitSeals(s: State, j: nat, catching: bool, i: nat)
    requires i < |s.items| && j < |s.items| && !s.items[j].runner.Finished?
    ensures Sealed(s, AwaitTerminal(s, j, catching), i)
  {
    hide Sealed;
    var s' := AwaitTerminal(s, j, catching);
    ReplacedSeals(s, s', j, s'.items[j], i);
  }

  lemma TurnSeals(s: State, step: Step, i: nat)
    requires i < |s.items| && Enabled(s, step) && step.TakeTurn? && step.i != i
    ensures Sealed(s, Apply(s, step), i)
  {
    EndingSeals(s, step.i, false, i);
    assert Sealed(s, Start(s, step.i), i);
    hide AwaitTerminal, Catch, Sealed, Start, WithRunner;
  }

  lemma RunnerSeals(s: State, step: Step, i: nat)
    requires i < |s.items| && Enabled(s, step) && IsRunners(step) && (step.TakeTurn? ==> step.i != i)
    ensures Sealed(s, Apply(s, step), i)
  {
    hide Sealed;
    match step
    case TakeTurn(_, _) => TurnSeals(s, step, i);
    case HandlerReturned(j, _, _) =>
      EndingSeals(s, j, false, i);
      hide AwaitTerminal, Catch;
      if !s.items[j].command { ReplacedSeals(s, Apply(s, step), j, s.items[j].(runner := Leaving), i); }
    case Resume(j) => ResumeSeals(s, j, i);
    case CallReturns(c, _) =>
      var x := s.items[s.calls[c].item];
      ReplacedSeals(s, Apply(s, step), s.calls[c].item, x.(settlements := x.settlements + 1), i);
    case Leave(j) => ReplacedSeals(s, Apply(s, step), j, s.items[j].(runner := Finished), i);
    case _ =>
  }

  lemma ResumeSeals(s: State, j: nat, i: nat)
    requires i < |s.items| && Enabled(s, Resume(j))
    ensures Sealed(s, DoResume(s, j), i)
  {
    hide Sealed, AwaitTerminal, Catch;
    EndingSeals(s, j, false, i);
    var x := s.items[j];
    var s' := Settle(WithRunner(s, j, Leaving), j);
    ReplacedSeals(s, s', j, x.(runner := Leaving, settlements := x.settlements + 1), i);
  }

  lemma OthersSeal(s: State, step: Step, i: nat)
    requires i < |s.items| && Enabled(s, step) && !IsRunners(step) && !step.Takeover? && !step.PruneBarrier?
    ensures Sealed(s, Apply(s, step), i)
  {
  }

  lemma DoomedStays(s: State, step: Step, i: nat)
    requires Inv(s) && Doomed(s, i)
    ensures Doomed(Next(s, step), i)
  {
    hide Inv, Doomed, Sealed, Apply;
    DoomedWithin(s, i);
    if Enabled(s, step) {
      match step
      case PruneBarrier(p) =>
        PruneSeals(s, p, i);
        SealedDoomed(s, Next(s, step), i);
      case Takeover(p) => TakeoverLeaves(s, step, i);
      case TakeTurn(j, _) =>
        if j == i { DoomedTurn(s, step); } else { RunnerSeals(s, step, i); SealedDoomed(s, Next(s, step), i); }
      case _ =>
        if IsRunners(step) { RunnerSeals(s, step, i); } else { OthersSeal(s, step, i); }
        SealedDoomed(s, Next(s, step), i);
    }
  }

  lemma DoomedWithin(s: State, i: nat)
    requires Doomed(s, i)
    ensures i < |s.items| && s.items[i].automation
  {
  }

  lemma PruneSeals(s: State, p: Id, i: nat)
    requires Inv(s) && Enabled(s, PruneBarrier(p)) && i < |s.items| && s.items[i].automation
    ensures Sealed(s, Apply(s, PruneBarrier(p)), i)
  {
    if !s.items[i].runner.Finished? { PrunableOrPast(s, p, i); }
  }

  lemma TakeoverLeaves(s: State, step: Step, i: nat)
    requires step.Takeover? && Doomed(s, i)
    ensures Doomed(Apply(s, step), i)
  {
    hide PreemptBelow;
    var p := step.pane;
    var s1 := s.(barriers := s.barriers[p := Barrier(s, p) + 1]);
    var t := PaneTarget(s, p);
    if t in s.queues { PreemptLeaves(s1, s.queues[t].items, |s.items|, i); }
  }

  lemma PrunableOrPast(s: State, p: Id, i: nat)
    requires Inv(s) && Enabled(s, PruneBarrier(p)) && i < |s.items|
    requires s.items[i].automation && !s.items[i].runner.Finished?
    ensures s.items[i].target.id != p
  {
    ItemFacts(s, i);
    PrunableHasNone(s, p, i);
  }

  lemma DoomedTurn(s: State, step: Step)
    requires step.TakeTurn? && Inv(s) && Doomed(s, step.i) && Enabled(s, step)
    ensures Doomed(Apply(s, step), step.i)
  {
    ItemFacts(s, step.i);
  }

  lemma {:induction false} DoomedForGood(s: State, more: seq<Step>, i: nat)
    requires Inv(s) && Doomed(s, i)
    ensures Inv(RunFrom(s, more)) && Doomed(RunFrom(s, more), i)
  {
    if more != [] {
      hide Inv, Next, Doomed;
      var n := |more| - 1;
      DoomedForGood(s, more[..n], i);
      DoomedStays(RunFrom(s, more[..n]), more[n], i);
      NextKeeps(RunFrom(s, more[..n]), more[n]);
    }
  }

  /** A takeover puts every command queued on the pane before it behind the barrier. */
  lemma TakeoverDooms(s: State, p: Id, i: nat)
    requires Inv(s) && i < |s.items| && s.items[i].target.id == p && s.items[i].automation && !s.items[i].started
    ensures Doomed(DoTakeover(s, p), i)
  {
    hide ChainsOk, QueuesOk, OrderOk, PreemptBelow;
    ItemFacts(s, i);
    var s1 := s.(barriers := s.barriers[p := Barrier(s, p) + 1]);
    var t := PaneTarget(s, p);
    if t in s.queues { PreemptLeaves(s1, s.queues[t].items, |s.items|, i); }
  }

  lemma StartedIfOrdered(s: State, i: nat)
    requires Inv(s) && i in s.order
    ensures i < |s.items| && s.items[i].started
  {
  }

  lemma RunTakeover(steps: seq<Step>, p: Id)
    ensures Run(steps + [Takeover(p)]) == DoTakeover(Run(steps), p)
  {
    hide DoTakeover;
    assert (steps + [Takeover(p)])[..|steps|] == steps;
  }

  lemma DoomedIsIdle(s: State, i: nat)
    requires Doomed(s, i)
    ensures i < |s.items| && !s.items[i].started
  {
  }

  /**
   * Once a takeover has raised a pane's barrier, no automation queued on any of
   * the pane's targets before it and not started yet ever reaches its handler,
   * whatever surfaces come and go and whatever is pruned.
   */
  lemma OvertakenNeverStarts(steps: seq<Step>, p: Id, more: seq<Step>, i: nat)
    requires i < |Run(steps).items|
    requires var x := Run(steps).items[i]; x.target.id == p && x.automation && !x.started
    ensures var s := Run(steps + [Takeover(p)] + more);
            i < |s.items| && !s.items[i].started && i !in s.order
  {
    hide RunFrom, Inv, DoTakeover, Doomed;
    RunKeeps(steps);
    TakeoverKeeps(Run(steps), p);
    TakeoverDooms(Run(steps), p, i);
    var s1 := DoTakeover(Run(steps), p);
    RunTakeover(steps, p);
    DoomedForGood(s1, more, i);
    RunMore(Init(), steps + [Takeover(p)], more);
    var s := Run(steps + [Takeover(p)] + more);
    DoomedIsIdle(s, i);
    if i in s.order { StartedIfOrdered(s, i); }
  }

  /**
   * Commands and effects on one target reach their handlers in the order they
   * were queued, each at most once, and one only after every entry queued
   * before it on that target has left, over all queue objects the target had.
   */
  lemma FirstInFirstOut(steps: seq<Step>, b: nat)
    requires b < |Run(steps).order|
    ensures var s := Run(steps); var i := s.order[b];
            && i < |s.items| && s.items[i].started
            && (forall j :: 0 <= j < i && s.items[j].target == s.items[i].target ==> s.items[j].runner.Finished?)
            && (forall a :: 0 <= a < b ==> s.order[a] < |s.items| && s.order[a] != i)
            && (forall a :: 0 <= a < b && s.items[s.order[a]].target == s.items[i].target ==> s.order[a] < i)
  {
    hide RunFrom;
    RunKeeps(steps);
    var s := Run(steps);
    var i := s.order[b];
    ItemFacts(s, i);
    forall j | 0 <= j < i && s.items[j].target == s.items[i].target ensures s.items[j].runner.Finished? {
      HasTurn(s, i, j);
    }
  }

  /**
   * A command's caller is answered at most once, although its runner, its catch
   * branch and takeovers may all try to end it; and one that left the queue
   * unanswered has a call under way that answers it.
   */
  lemma AnsweredOnce(steps: seq<Step>, i: nat)
    requires i < |Run(steps).items| && Run(steps).items[i].command
    ensures var s := Run(steps); var x := s.items[i];
            && x.settlements <= 1
            && (x.runner.Finished? && x.settlements == 0 ==>
                  && x.fixedBy.Some? && x.fixedBy.value < |s.calls|
                  && Enabled(s, CallReturns(x.fixedBy.value, false))
                  && Apply(s, CallReturns(x.fixedBy.value, false)).items[i].settlements == 1)
  {
    hide RunFrom;
    RunKeeps(steps);
    ItemFacts(Run(steps), i);
  }

  /** Nothing that has not left is ever pruned: it stays with the queue object it was chained on. */
  lemma NothingPrunedWaiting(steps: seq<Step>, i: nat)
    requires i < |Run(steps).items| && !Run(steps).items[i].runner.Finished?
    ensures var s := Run(steps); var x := s.items[i];
            && x.target in s.queues && s.queues[x.target].serial == x.queue
            && (i in s.queues[x.target].items || i in s.queues[x.target].effects)
            && !Enabled(s, PruneQueue(x.target)) && !Enabled(s, PruneInactive(x.target))
  {
    hide RunFrom;
    RunKeeps(steps);
    assert Registered(Run(steps), i);
  }

  /** Dropping a barrier touches no command still queued: what was stale stays stale. */
  lemma PruningRevivesNothing(steps: seq<Step>, p: Id, i: nat)
    requires Enabled(Run(steps), PruneBarrier(p)) && i < |Run(steps).items|
    requires Run(steps).items[i].command && !Run(steps).items[i].runner.Finished?
    ensures var s := Run(steps);
            s.items[i].target.id != p && Stale(Apply(s, PruneBarrier(p)), s.items[i]) == Stale(s, s.items[i])
  {
    hide RunFrom;
    RunKeeps(steps);
    PrunableHasNone(Run(steps), p, i);
  }
}
