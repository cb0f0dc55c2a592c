/**
 * What every step of the runtime keeps, key by key and for the journal, the
 * snapshot and the compaction attempt together.
 */
module RuntimeInvariant {
  import opened ControlEvents
  import opened RuntimeLog
  import opened RuntimeModel

  // ---- One key ----

  /**
   * What the history says about a key: its last and first terminal event and
   * last request, how often it was requested, its latest and first outcome, all
   * its outcomes, and those of events some compaction attempt covered; which of
   * its commands are open; and whether its command itself last came to need an
   * approval.
   */
  datatype Facts = Facts(t: nat, u: nat, r: nat, requests: nat, latest: Outcome, first: Outcome, all: set<Outcome>,
                         past: set<Outcome>, open: set<nat>, asks: bool)

  function FactsOf(log: seq<Ev>, reach: nat, k: Key): Facts {
    var u, own := FirstTerm(log, k), LastOwn(log, k);
    Facts(LastTerm(log, k), u, LastReq(log, k), Requests(log, k),
          if LastTerm(log, k) > 0 then Latest(log, k) else LeftOpen, if u > 0 then log[u - 1].value else LeftOpen,
          Outcomes(log, k), Outcomes(log[..if reach <= |log| then reach else |log|], k),
          OpenIds(log, k), own > 0 && log[own - 1].value.NeedsApproval?)
  }

  /** An outcome record tells an outcome of the key, a marker only of a covered one. */
  predicate RecOk(f: Facts, rec: Rec) {
    match rec
    case Exact(w) => w in f.all
    case Marker => f.past != {}
  }

  predicate RecOld(f: Facts, rec: Rec) {
    match rec
    case Exact(w) => w in f.past
    case Marker => f.past != {}
  }

  /**
   * A plain command has one outcome, unless a restart recovered an earlier
   * request of its key that was given up: that one's comes later.
   */
  predicate OutcomesOk(f: Facts, lost: nat) {
    f.all <= {f.first, RECOVERED} && (f.all <= {f.latest} || (f.latest == RECOVERED && lost > 0))
  }

  /**
   * One request and one handler call, and one more each for every time the
   * command was given up; requests before terminal events, and no more of them
   * open than are left.
   */
  predicate HistoryOk(f: Facts, plain: bool, x: KeyState) {
    && (f.t > 0 ==> 0 < f.r < f.u)
    && x.runs <= f.requests <= Lost(x) + 1
    && |f.open| + (if f.t > 0 then 1 else 0) <= f.requests
    && (f.t == 0 < f.r ==> f.open != {})
    && (plain ==> OutcomesOk(f, Lost(x)))
  }

  /** A sidecar a restart published for a pending approval before it journaled the outcome. */
  predicate Ahead(f: Facts, plain: bool, rec: Rec) {
    !plain && f.asks && rec == Exact(ApprovalLost)
  }

  predicate SideOk(f: Facts, plain: bool, p: Process, side: Option<Rec>) {
    side.Some? ==> RecOk(f, side.value) || ((p.Up? ==> !p.phase.Serving?) && Ahead(f, plain, side.value))
  }

  /** A covered terminal event has its sidecar. */
  predicate EvidenceOk(f: Facts, covered: nat, x: KeyState) {
    0 < f.t <= covered ==> x.side.Some?
  }

  predicate OpOk(f: Facts, op: Op) {
    match op
    case Store(n, w) => 0 < n <= f.t && w in f.all
    case Replace(rec) => RecOld(f, rec)
  }

  predicate MemoryOk(f: Facts, x: KeyState) {
    && (x.hot.Some? ==> RecOk(f, x.hot.value))
    && (x.dirty.Some? ==>
          && 0 < x.dirty.value.sequence <= f.t
          && (x.dirty.value.outcome.Some? ==> x.dirty.value.outcome.value in f.all))
    && (forall i :: 0 <= i < |x.ops| ==> OpOk(f, x.ops[i]))
    && (x.ops == [] ==> x.head.Waiting?)
    && (x.ops != [] && x.ops[0].Store? && !x.head.Waiting? ==>
          x.head.Published? && x.side == Some(Exact(x.ops[0].value)))
  }

  predicate TaskOk(f: Facts, recovering: bool, x: KeyState) {
    match x.task
    case Idle => recovering || f.t > 0 || f.requests <= Lost(x)
    case LoadingRetained(n, w, _) => 0 < n <= f.t && f.r < f.t && w in f.all && (n == f.t ==> w == f.latest)
    case LoadingCold => if f.t > 0 then x.side.Some? else f.requests <= Lost(x)
    case Admitted => f.t == 0 && f.requests <= Lost(x)
    case Requesting => f.t == 0 && f.requests <= Lost(x)
    case Ready => f.r > 0 && f.t == 0 && x.id in f.open && x.runs < f.requests
    case Running => f.r > 0 && f.t == 0 && x.id in f.open
    case Terminating(_) => f.r > 0 && f.t == 0 && x.id in f.open
  }

  /** The sidecar tells the latest outcome, or a marker covering the same outcome. */
  predicate Settled(f: Facts, side: Option<Rec>) {
    side == Some(Exact(f.latest)) || (side == Some(Marker) && f.latest in f.past)
  }

  predicate StoreOf(op: Op, n: nat) {
    op.Store? && op.sequence == n
  }

  /**
   * Once this process marked the latest terminal event dirty, the entry stays
   * until the sidecar tells that event's outcome, and no older publication can
   * still come after it.
   */
  predicate MineOk(f: Facts, x: KeyState) {
    && x.mine <= f.t
    && (0 < x.mine == f.t ==>
          && (x.dirty.Some? ==> x.dirty.value == Dirty(f.t, Some(f.latest)))
          && (x.dirty.None? ==>
                Settled(f, x.side)
                && forall i :: 0 <= i < |x.ops| && x.ops[i].Store? ==> StoreOf(x.ops[i], f.t))
          && (forall i, j ::
                0 <= i < j < |x.ops| && StoreOf(x.ops[i], f.t) && x.ops[j].Store? ==> StoreOf(x.ops[j], f.t))
          && (forall i :: 0 <= i < |x.ops| && StoreOf(x.ops[i], f.t) ==> x.ops[i].value == f.latest)
          && (x.task.LoadingRetained? && x.task.sequence == f.t ==> x.dirty.None?))
  }

  predicate MemoryEmpty(x: KeyState) {
    x == KeyState(x.side, None, None, Idle, 0, [], Waiting, 0, x.runs, x.rejected, x.givenUp)
  }

  predicate PhaseOk(p: Process, x: KeyState) {
    match p
    case Down => MemoryEmpty(x)
    case Up(phase, _, _, _) =>
      match phase
      case Recovering(_, _) => MemoryEmpty(x)
      case Restoring(_, _, _) => x.mine == 0 && x.task.Idle?
      case Serving => true
  }

  predicate StartingUp(p: Process) {
    p.Down? || p.phase.Recovering?
  }

  predicate KeyOk(f: Facts, plain: bool, covered: nat, p: Process, x: KeyState) {
    && HistoryOk(f, plain, x) && EvidenceOk(f, covered, x) && MemoryOk(f, x)
    && TaskOk(f, StartingUp(p), x) && MineOk(f, x) && PhaseOk(p, x) && SideOk(f, plain, p, x.side)
  }

  predicate KeyInv(s: State, k: Key) {
    KeyOk(FactsOf(s.log, s.reach, k), k !in s.kinds.surface, s.snap.covered, s.process, At(s, k))
  }

  ghost predicate KeysInv(s: State) {
    forall k: Key :: KeyInv(s, k)
  }

  // ---- The journal, the snapshot, the startup ----

  predicate DiskInv(s: State) {
    && 1 <= s.diskFirst <= s.snap.covered + 1
    && s.snap.covered <= s.reach
    && (s.reach == 0 || s.reach + RETAINED_EVENTS <= |s.log|)
    && s.snap.open == OpenSet(s.log[..s.snap.covered])
    && s.snap.done <= TerminalKeys(s.log)
  }

  ghost predicate StartupInv(s: State) {
    s.process.Up? ==>
      && 1 <= s.process.first <= s.diskFirst
      && s.process.legacy <= TerminalKeys(s.log)
      && match s.process.phase
         case Recovering(todo, recovered) =>
           && s.process.attempt.None?
           && (forall x: Tx :: x in todo <==> x.id in OpenIds(s.log, x.key))
           && (forall k :: k in recovered ==> RECOVERED in Outcomes(s.log, k))
         case Restoring(persist, rewrite, _) =>
           && (forall k :: k in persist ==> RECOVERED in Outcomes(s.log, k))
           && (forall k: Key :: k in rewrite <==> Awaits(s, k))
         case Serving => true
  }

  // ---- The compaction attempt ----

  ghost predicate SidesThrough(s: State, covered: nat) {
    forall k: Key :: 0 < LastTerm(s.log, k) <= covered ==> At(s, k).side.Some?
  }

  ghost predicate VerifiedOk(s: State, a: Attempt) {
    forall k :: k in a.expected ==> At(s, k).side.Some? && RecOld(FactsOf(s.log, s.reach, k), a.expected[k])
  }

  ghost predicate TodoOk(s: State, covered: nat, todo: map<Key, Outcome>)
    requires s.process.Up?
  {
    && (forall k: Key :: 0 < LastTerm(s.log, k) && s.process.first <= LastTerm(s.log, k) <= covered
          ==> k in todo || At(s, k).side.Some?)
    && (forall k :: k in todo ==> todo[k] in FactsOf(s.log, s.reach, k).past)
  }

  predicate NextSnapOk(s: State, a: Attempt, next: Snap) {
    && next.covered == a.covered <= |s.log|
    && next.open == OpenSet(s.log[..next.covered])
    && next.done <= TerminalKeys(s.log)
  }

  ghost predicate StageOk(s: State, a: Attempt)
    requires s.process.Up?
  {
    match a.stage
    case Flushing => true
    case Verifying(todo) => TodoOk(s, a.covered, todo)
    case Snapshotting => SidesThrough(s, a.covered)
    case SnapReady(next) => SidesThrough(s, a.covered) && NextSnapOk(s, a, next)
    case SnapRenaming(next) => SidesThrough(s, a.covered) && NextSnapOk(s, a, next)
    case SnapWritten => a.invalidated || s.snap.covered == a.covered
    case Marking(_, _, _, _) => a.invalidated || s.snap.covered == a.covered
    case Compacting => a.invalidated || s.snap.covered == a.covered
    case CompactRenaming => s.snap.covered == a.covered
  }

  ghost predicate AttemptInv(s: State) {
    Attempting(s) ==>
      var a := TheAttempt(s);
      && s.process.first <= a.covered == s.reach <= |s.log|
      && (a.stage.Flushing? || a.invalidated || CleanThrough(s.keys, a.covered))
      && VerifiedOk(s, a)
      && StageOk(s, a)
  }

  // ---- A line that may have stayed behind ----

  /** An event that may be adopted from the file: its key is as when its append was rejected. */
  predicate Adoptable(s: State, e: Ev) {
    match e
    case Note => true
    case Req(k, _) => LastTerm(s.log, k) == 0 && Requests(s.log, k) <= Lost(At(s, k))
    case Term(k, id, _, recovered) =>
      && !recovered && LastReq(s.log, k) > 0
      && if LastTerm(s.log, k) == 0 then id in OpenIds(s.log, k) else k in s.kinds.surface
  }

  predicate TornInv(s: State) {
    s.torn.Some? ==> IsServing(s) && Adoptable(s, s.torn.value)
  }

  ghost predicate Inv(s: State) {
    KeysInv(s) && DiskInv(s) && StartupInv(s) && AttemptInv(s) && TornInv(s)
  }
}
