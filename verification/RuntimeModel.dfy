/**
 * The control runtime's durable side as a state machine. A step is what the
 * process does between two awaits, or the completion of one system call; a
 * crash may come between any two steps.
 */
module RuntimeModel {
  import opened ControlEvents
  import opened RuntimeLog

  /** Events a compaction leaves in the journal. */
  const RETAINED_EVENTS: nat := 1000

  /** An ordinary compaction is due once the journal holds more events than this. */
  const COMPACTION_TRIGGER: nat := 2000

  /** The most open commands a snapshot may carry. */
  const OPEN_LIMIT: nat := 256

  /** Markers a compaction publishes at a time. */
  const MARKER_BATCH: nat := 32

  // ---- State ----

  /** A durable outcome record: the exact outcome, or the marker a compaction left in its place. */
  datatype Rec = Exact(value: Outcome) | Marker

  /** An outcome not known to be durable yet. */
  datatype Dirty = Dirty(sequence: nat, outcome: Option<Outcome>)

  /** A publication waiting in a key's queue. */
  datatype Op = Store(sequence: nat, value: Outcome) | Replace(expected: Rec)

  /** How far the head of the queue got. */
  datatype Progress = Waiting | Published | Mismatched

  /** What a submitted command is waiting for. */
  datatype Task =
    | Idle
    | LoadingRetained(sequence: nat, value: Outcome, reconstructible: bool)
    | LoadingCold
    | Admitted
    | Requesting
    | Ready
    | Running
    | Terminating(value: Outcome)

  /**
   * One idempotency key: its sidecar on disk; its hot outcome, dirty entry,
   * command (`id` is the one submitted last) and publication queue in memory;
   * and the last terminal event this process marked dirty. Kept for counting:
   * how often its handler was ever invoked, how often its terminal event was
   * decided and not committed, and how often it was given up before that.
   */
  datatype KeyState = KeyState(side: Option<Rec>, hot: Option<Rec>, dirty: Option<Dirty>, task: Task, id: nat,
                               ops: seq<Op>, head: Progress, mine: nat, runs: nat, rejected: nat, givenUp: nat)

  /** How often the command was given up between its request and its terminal event. */
  function Lost(x: KeyState): nat {
    x.rejected + x.givenUp
  }

  /** The snapshot file: what it covers, what was open there, and some of the keys completed. */
  datatype Snap = Snap(covered: nat, open: set<Tx>, done: set<Key>)

  datatype Stage =
    | Flushing
    | Verifying(todo: map<Key, Outcome>)
    | Snapshotting
    | SnapReady(next: Snap)
    | SnapRenaming(next: Snap)
    | SnapWritten
    | Marking(left: set<Key>, pending: set<Key>, room: nat, failed: bool)
    | Compacting
    | CompactRenaming

  /** A compaction attempt; `expected` holds the sidecar digests it verified. */
  datatype Attempt = Attempt(covered: nat, invalidated: bool, expected: map<Key, Rec>, stage: Stage)

  datatype Phase =
    | Recovering(todo: set<Tx>, recovered: set<Key>)
    | Restoring(persist: set<Key>, rewrite: set<Key>, restore: set<Key>)
    | Serving

  /** `first` is the lowest sequence in memory; `legacy` the keys that must not run without a sidecar. */
  datatype Process = Down | Up(phase: Phase, first: nat, legacy: set<Key>, attempt: Option<Attempt>)

  /**
   * Keys of commands that act on a surface and may end more than once; and keys
   * of commands some failure of which, after their request, nothing catches.
   */
  datatype Kinds = Kinds(surface: set<Key>, unguarded: set<Key>)

  /**
   * `log` is every event ever committed, `diskFirst` the first one the journal
   * file still holds, `reach` the highest compaction target so far. `torn` is
   * the event of a rejected append whose whole line may have stayed at the end
   * of the file.
   */
  datatype State = State(kinds: Kinds, log: seq<Ev>, diskFirst: nat, torn: Option<Ev>, snap: Snap, reach: nat,
                         process: Process, keys: map<Key, KeyState>)

  const UNSEEN := KeyState(None, None, None, Idle, 0, [], Waiting, 0, 0, 0, 0)

  function At(s: State, k: Key): KeyState {
    if k in s.keys then s.keys[k] else UNSEEN
  }

  function Put(s: State, k: Key, x: KeyState): State {
    s.(keys := s.keys[k := x])
  }

  function Init(kinds: Kinds): State {
    State(kinds, [], 1, None, Snap(0, {}, {}), 0, Down, map[])
  }

  // ---- The dirty map ----

  /** `markDirtyTerminalOutcome`: the latest terminal event wins, and an outcome is never forgotten. */
  function MarkDirty(d: Option<Dirty>, sequence: nat, outcome: Option<Outcome>): Dirty {
    match d
    case None => Dirty(sequence, outcome)
    case Some(prior) =>
      if sequence >= prior.sequence then Dirty(sequence, if outcome.Some? then outcome else prior.outcome)
      else if prior.outcome.None? && outcome.Some? then Dirty(prior.sequence, outcome)
      else prior
  }

  /** Marking throws when the map is full and has no entry for the key yet. */
  predicate MarkThrows(d: Option<Dirty>, full: bool) {
    d.None? && full
  }

  function ClearDirty(d: Option<Dirty>, sequence: nat): Option<Dirty> {
    if d.Some? && d.value.sequence <= sequence then None else d
  }

  // ---- Compaction attempts ----

  predicate Attempting(s: State) {
    s.process.Up? && s.process.attempt.Some?
  }

  function TheAttempt(s: State): Attempt
    requires Attempting(s)
  {
    s.process.attempt.value
  }

  function WithAttempt(s: State, a: Option<Attempt>): State
    requires s.process.Up?
  {
    s.(process := s.process.(attempt := a))
  }

  function WithStage(s: State, stage: Stage): State
    requires Attempting(s)
  {
    WithAttempt(s, Some(TheAttempt(s).(stage := stage)))
  }

  /** The flag is sticky: nothing ever resets it. */
  function Invalidate(s: State): State {
    if Attempting(s) then WithAttempt(s, Some(TheAttempt(s).(invalidated := true))) else s
  }

  predicate CleanThrough(keys: map<Key, KeyState>, covered: nat) {
    forall k :: k in keys && keys[k].dirty.Some? ==> keys[k].dirty.value.sequence > covered
  }

  predicate ShouldAbort(s: State)
    requires Attempting(s)
  {
    TheAttempt(s).invalidated || !CleanThrough(s.keys, TheAttempt(s).covered)
  }

  /** No journal rewrite holds the append tail. */
  predicate CanAppend(s: State) {
    s.process.Up? && !(Attempting(s) && TheAttempt(s).stage.CompactRenaming?)
  }

  // ---- Lookup ----

  function LastEvent(log: seq<Ev>, k: Key): (i: nat)
    ensures i <= |log|
  {
    if LastReq(log, k) > LastTerm(log, k) then LastReq(log, k) else LastTerm(log, k)
  }

  /** The event the idempotency index holds for a key, as a sequence, when it is a terminal one. */
  function RetainedTerminal(log: seq<Ev>, first: nat, k: Key): Option<nat> {
    var i := LastEvent(log, k);
    if 0 < i && first <= i && log[i - 1].Term? then Some(i) else None
  }

  /** The outcome can be read back off the events: a recovery event, or a plain command whose request is retained. */
  predicate Reconstructible(s: State, first: nat, k: Key, e: Ev) {
    e.Term? && (e.recovered || (k !in s.kinds.surface && RequestRetained(s.log, first, Tx(k, e.id))))
  }

  predicate RequestRetained(log: seq<Ev>, first: nat, x: Tx) {
    0 < RequestOf(log, x) && first <= RequestOf(log, x)
  }

  // ---- Steps ----

  /** Submit, lookup and execution of a command, and its terminal event. */
  datatype CommandStep =
    | Submit(k: Key, id: nat)
    | Loaded(k: Key, ok: bool, full: bool)
    | Refuse(k: Key)
    | Reserve(k: Key)
    | Requested(k: Key)
    | Start(k: Key)
    | Decide(k: Key, value: Outcome)
    | Terminated(k: Key, full: bool)
    | TerminatedAgain(k: Key, value: Outcome, full: bool)
    | GiveUp(k: Key)
    | AppendRejected(e: Ev, torn: Option<Ev>)
    | Evict(k: Key)

  /** The publication queue of one key. */
  datatype QueueStep =
    | FlushDirty(k: Key)
    | Publish(k: Key)
    | OpFails(k: Key)
    | Finish(k: Key, synced: bool)

  datatype CompactionStep =
    | Begin
    | Flushed
    | Verify(k: Key, ok: bool)
    | Verified
    | TakeSnapshot(ok: bool, done: set<Key>)
    | GuardSnapshot
    | SnapshotRenamed(synced: bool)
    | SnapshotFails
    | AfterSnapshot
    | StartBatch
    | EnqueueMarker(k: Key)
    | BatchDone
    | GuardCompact
    | CompactRenamed(synced: bool)
    | CompactFails

  /** Other events, death and restart. */
  datatype LifeStep =
    | OtherEvent
    | Crash(adopted: Option<Ev>)
    | Open
    | RecoverOne(x: Tx)
    | Recovered
    | PersistRecovered(k: Key, full: bool)
    | RewriteStore(k: Key)
    | RewriteAppend(k: Key)
    | RestoreOne(k: Key, ok: bool, full: bool)
    | Restored

  datatype Step = Command(c: CommandStep) | Queue(q: QueueStep) | Compaction(p: CompactionStep) | Life(l: LifeStep)

  predicate IsServing(s: State) {
    s.process.Up? && s.process.phase.Serving?
  }

  predicate HeadIs(x: KeyState, p: Progress) {
    x.ops != [] && x.head == p
  }

  /** Keys whose latest retained terminal event is covered, with its outcome. */
  function Targets(s: State, first: nat, covered: nat): map<Key, Outcome> {
    map k | k in TerminalKeys(s.log) && 0 < LastTerm(s.log, k) && first <= LastTerm(s.log, k) <= covered
      :: Latest(s.log, k)
  }

  /** The events a fresh snapshot folds: those in memory above the previous snapshot, up to the target. */
  function EventsSince(s: State, first: nat, from: nat, covered: nat): seq<Ev> {
    var a := if first > from + 1 then first - 1 else from;
    if a <= covered <= |s.log| then s.log[a..covered] else []
  }

  /** The commands open at the target, as the snapshot in the making would carry them. */
  function NextOpen(s: State): set<Tx>
    requires Attempting(s)
  {
    FoldOpen(s.snap.open, EventsSince(s, s.process.first, s.snap.covered, TheAttempt(s).covered))
  }

  /** The latest outcome a surface action came to by itself is that it needs an approval. */
  predicate Awaits(s: State, k: Key) {
    k in s.kinds.surface && LastOwn(s.log, k) > 0 && s.log[LastOwn(s.log, k) - 1].value.NeedsApproval?
  }

  /** The command that came to it. */
  function OwnId(log: seq<Ev>, k: Key): nat {
    if LastOwn(log, k) > 0 then log[LastOwn(log, k) - 1].id else 0
  }

  /** A restart is at the approvals that were pending; their outcomes are published before they are journaled. */
  predicate IsRewriting(s: State, k: Key) {
    s.process.Up? && s.process.phase.Restoring? && s.process.phase.persist == {} && k in s.process.phase.rewrite
  }

  /** An append some command had in flight may turn out written when the process dies. */
  predicate InFlight(s: State, e: Ev)
    requires s.process.Up?
  {
    match e
    case Note => true
    case Req(k, id) => At(s, k).task.Requesting? && At(s, k).id == id
    case Term(k, id, v, recovered) =>
      if recovered then s.process.phase.Recovering? && Tx(k, id) in s.process.phase.todo && v == RECOVERED
      else
        || (At(s, k).task == Terminating(v) && At(s, k).id == id)
        || (IsServing(s) && k in s.kinds.surface && LastOwn(s.log, k) > 0 && OwnId(s.log, k) == id)
        || (IsRewriting(s, k) && v == ApprovalLost && At(s, k).side == Some(Exact(v)) && OwnId(s.log, k) == id)
  }

  predicate CanCommand(s: State, step: CommandStep) {
    match step
    case Submit(k, _) => IsServing(s) && At(s, k).task.Idle?
    case Loaded(k, _, _) => IsServing(s) && (At(s, k).task.LoadingRetained? || At(s, k).task.LoadingCold?)
    case Refuse(k) => IsServing(s) && At(s, k).task.Admitted?
    case Reserve(k) => IsServing(s) && At(s, k).task.Admitted?
    case Requested(k) => IsServing(s) && CanAppend(s) && At(s, k).task.Requesting?
    case Start(k) => IsServing(s) && At(s, k).task.Ready? && k !in s.kinds.surface
    case Decide(k, _) => IsServing(s) && (At(s, k).task.Ready? || At(s, k).task.Running?)
    case Terminated(k, _) => IsServing(s) && CanAppend(s) && At(s, k).task.Terminating?
    case TerminatedAgain(k, _, _) => IsServing(s) && CanAppend(s) && k in s.kinds.surface && LastOwn(s.log, k) > 0
    case GiveUp(k) => IsServing(s) && (At(s, k).task.Ready? || At(s, k).task.Running?) && k in s.kinds.unguarded
    case AppendRejected(e, torn) =>
      IsServing(s) && InFlight(s, e) && (torn == s.torn || (CanAppend(s) && (torn.None? || torn == Some(e))))
    case Evict(k) => s.process.Up?
  }

  predicate CanQueue(s: State, step: QueueStep) {
    match step
    case FlushDirty(k) => s.process.Up? && At(s, k).dirty.Some? && At(s, k).dirty.value.outcome.Some?
    case Publish(k) => s.process.Up? && HeadIs(At(s, k), Waiting)
    case OpFails(k) => s.process.Up? && HeadIs(At(s, k), Waiting)
    case Finish(k, _) => s.process.Up? && At(s, k).ops != [] && !At(s, k).head.Waiting?
  }

  predicate CanCompact(s: State, step: CompactionStep) {
    match step
    case Begin =>
      && s.process.Up? && s.process.attempt.None? && !s.process.phase.Recovering?
      && s.process.first + RETAINED_EVENTS <= |s.log|
    case Flushed => Attempting(s) && TheAttempt(s).stage.Flushing?
    case Verify(k, _) => Attempting(s) && TheAttempt(s).stage.Verifying? && k in TheAttempt(s).stage.todo
    case Verified => Attempting(s) && TheAttempt(s).stage.Verifying? && TheAttempt(s).stage.todo == map[]
    case TakeSnapshot(ok, done) =>
      && Attempting(s) && TheAttempt(s).stage.Snapshotting? && (ok ==> |NextOpen(s)| <= OPEN_LIMIT)
      && done <= s.snap.done + TerminalKeys(EventsSince(s, s.process.first, s.snap.covered, TheAttempt(s).covered))
    case GuardSnapshot => Attempting(s) && TheAttempt(s).stage.SnapReady?
    case SnapshotRenamed(_) => Attempting(s) && TheAttempt(s).stage.SnapRenaming?
    case SnapshotFails => Attempting(s) && TheAttempt(s).stage.SnapRenaming?
    case AfterSnapshot => Attempting(s) && TheAttempt(s).stage.SnapWritten?
    case StartBatch =>
      && Attempting(s) && TheAttempt(s).stage.Marking?
      && TheAttempt(s).stage.room == 0 && TheAttempt(s).stage.pending == {}
    case EnqueueMarker(k) =>
      && Attempting(s) && TheAttempt(s).stage.Marking?
      && TheAttempt(s).stage.room > 0 && k in TheAttempt(s).stage.left && k in TheAttempt(s).expected
    case BatchDone =>
      && Attempting(s) && TheAttempt(s).stage.Marking?
      && TheAttempt(s).stage.room > 0 && TheAttempt(s).stage.left == {}
    case GuardCompact => Attempting(s) && TheAttempt(s).stage.Compacting?
    case CompactRenamed(_) => Attempting(s) && TheAttempt(s).stage.CompactRenaming?
    case CompactFails => Attempting(s) && TheAttempt(s).stage.CompactRenaming?
  }

  predicate CanLive(s: State, step: LifeStep) {
    match step
    case OtherEvent => CanAppend(s)
    case Crash(adopted) =>
      s.process.Up? && (adopted.Some? ==> (CanAppend(s) && InFlight(s, adopted.value)) || adopted == s.torn)
    case Open => s.process.Down?
    case RecoverOne(x) => s.process.Up? && s.process.phase.Recovering? && x in s.process.phase.todo
    case Recovered => s.process.Up? && s.process.phase.Recovering? && s.process.phase.todo == {}
    case PersistRecovered(k, _) => s.process.Up? && s.process.phase.Restoring? && k in s.process.phase.persist
    case RewriteStore(k) => IsRewriting(s, k) && At(s, k).ops == []
    case RewriteAppend(k) => IsRewriting(s, k) && CanAppend(s) && At(s, k).side == Some(Exact(ApprovalLost))
    case RestoreOne(k, _, _) =>
      && s.process.Up? && s.process.phase.Restoring? && s.process.phase.persist == s.process.phase.rewrite == {}
      && k in s.process.phase.restore && LastTerm(s.log, k) > 0
    case Restored =>
      && s.process.Up? && s.process.phase.Restoring? && s.process.phase.persist == s.process.phase.rewrite == {}
      && s.process.phase.restore == {}
  }

  predicate Enabled(s: State, step: Step) {
    match step
    case Command(c) => CanCommand(s, c)
    case Queue(q) => CanQueue(s, q)
    case Compaction(p) => CanCompact(s, p)
    case Life(l) => CanLive(s, l)
  }

  // ---- What a step does ----

  /** A successful append first cut off what an earlier one may have left. */
  function Append(s: State, e: Ev): State {
    s.(log := s.log + [e], torn := None)
  }

  /**
   * A command's own event could not be built or its append was rejected, in a
   * process that lives on; its caller gets the error.
   */
  function DoAppendRejected(s: State, e: Ev, torn: Option<Ev>): State {
    var s1 := s.(torn := torn);
    match e
    case Note => s1
    case Req(k, _) => EndCommand(s1, k)
    case Term(k, id, v, _) =>
      var x := At(s, k);
      if x.task == Terminating(v) && x.id == id then Put(s1, k, x.(task := Idle, rejected := x.rejected + 1)) else s1
  }

  /** The outcome of a load of the key's sidecar goes to the hot cache and ends the command. */
  function Remember(s: State, k: Key, dirty: Option<Dirty>, rec: Rec): State {
    Put(s, k, At(s, k).(hot := Some(rec), dirty := dirty, task := Idle))
  }

  function EndCommand(s: State, k: Key): State {
    Put(s, k, At(s, k).(task := Idle))
  }

  function DoSubmit(s: State, k: Key, id: nat): State
    requires CanCommand(s, Submit(k, id))
  {
    var x := At(s, k).(id := id);
    if x.hot.Some? || (x.dirty.Some? && x.dirty.value.outcome.Some?) then s
    else
      match RetainedTerminal(s.log, s.process.first, k)
      case Some(i) =>
        var e := s.log[i - 1];
        Put(s, k, x.(task := LoadingRetained(i, e.value, Reconstructible(s, s.process.first, k, e))))
      case None => Put(s, k, x.(task := LoadingCold))
  }

  /** The sidecar was read for a key with a retained terminal event; `full` says the dirty map is. */
  function LoadedRetained(s: State, k: Key, ok: bool, full: bool): State
    requires At(s, k).task.LoadingRetained?
  {
    var x := At(s, k);
    var t := x.task;
    if !ok then Invalidate(EndCommand(s, k))
    else
      match x.side
      case Some(Marker) => Remember(s, k, ClearDirty(x.dirty, t.sequence), Marker)
      case Some(Exact(w)) =>
        if w == t.value then Remember(s, k, ClearDirty(x.dirty, t.sequence), Exact(w))
        else Invalidate(EndCommand(s, k))
      case None =>
        if MarkThrows(x.dirty, full) then Invalidate(EndCommand(s, k))
        else if t.reconstructible then
          Invalidate(Remember(s, k, Some(MarkDirty(x.dirty, t.sequence, Some(t.value))), Exact(t.value)))
        else
          Invalidate(Put(s, k, x.(dirty := Some(MarkDirty(x.dirty, t.sequence, None)), task := Idle)))
  }

  /** The sidecar was read for a key without one. */
  function LoadedCold(s: State, k: Key, ok: bool): State
    requires s.process.Up?
  {
    var x := At(s, k);
    if !ok then EndCommand(s, k)
    else
      match x.side
      case Some(rec) => Remember(s, k, x.dirty, rec)
      case None => if k in s.process.legacy then EndCommand(s, k) else Put(s, k, x.(task := Admitted))
  }

  /** A terminal event was appended: remember, mark dirty, and queue the publication. */
  function Settle(s: State, k: Key, id: nat, v: Outcome, full: bool): State {
    var s1 := Append(s, Term(k, id, v, false));
    var x := At(s, k);
    var n := |s.log| + 1;
    if MarkThrows(x.dirty, full) then Invalidate(Put(s1, k, x.(hot := Some(Exact(v)))))
    else Invalidate(Put(s1, k, x.(hot := Some(Exact(v)), dirty := Some(MarkDirty(x.dirty, n, Some(v))),
                                  ops := x.ops + [Store(n, v)], mine := n)))
  }

  function DoPublish(x: KeyState): KeyState
    requires x.ops != []
  {
    match x.ops[0]
    case Store(_, v) => x.(side := Some(Exact(v)), head := Published)
    case Replace(expected) =>
      if x.side != Some(expected) then x.(head := Mismatched)
      else x.(side := Some(Marker), head := Published)
  }

  /** A replacement reports to the attempt that asked for it. */
  function Report(s: State, k: Key, replaced: bool): State {
    if Attempting(s) && TheAttempt(s).stage.Marking? then
      var stage := TheAttempt(s).stage;
      WithStage(s, stage.(pending := stage.pending - {k}, failed := stage.failed || !replaced))
    else s
  }

  function Dequeue(x: KeyState): KeyState
    requires x.ops != []
  {
    x.(ops := x.ops[1..], head := Waiting)
  }

  function DoOpFails(s: State, k: Key): State
    requires At(s, k).ops != []
  {
    var x := At(s, k);
    var s1 := Put(s, k, Dequeue(x));
    if x.ops[0].Store? then s1 else Report(s1, k, false)
  }

  /** The directory sync after a publication ended; only a synced store clears its dirty entry. */
  function DoFinish(s: State, k: Key, synced: bool): State
    requires At(s, k).ops != []
  {
    var x := At(s, k);
    match x.ops[0]
    case Store(n, _) => Put(s, k, Dequeue(x).(dirty := if synced then ClearDirty(x.dirty, n) else x.dirty))
    case Replace(_) => Report(Put(s, k, Dequeue(x)), k, x.head.Published? && synced)
  }

  // ---- Compaction ----

  function EndAttempt(s: State): State
    requires s.process.Up?
  {
    WithAttempt(s, None)
  }

  function DoBegin(s: State): State
    requires CanCompact(s, Begin)
  {
    var covered := |s.log| - RETAINED_EVENTS;
    WithAttempt(s, Some(Attempt(covered, false, map[], Flushing))).(reach := covered)
  }

  function DoVerify(s: State, k: Key, ok: bool): State
    requires CanCompact(s, Verify(k, ok))
  {
    var a := TheAttempt(s);
    var todo := a.stage.todo;
    if ShouldAbort(s) then EndAttempt(s)
    else if ok && (At(s, k).side == Some(Marker) || At(s, k).side == Some(Exact(todo[k]))) then
      WithAttempt(s, Some(a.(expected := a.expected[k := At(s, k).side.value], stage := Verifying(todo - {k}))))
    else EndAttempt(s)
  }

  /** An attempt goes on to the next stage unless it should abort. */
  function Proceed(s: State, stage: Stage): State
    requires Attempting(s)
  {
    if ShouldAbort(s) then EndAttempt(s) else WithStage(s, stage)
  }

  function DoStartBatch(s: State): State
    requires CanCompact(s, StartBatch)
  {
    var stage := TheAttempt(s).stage;
    if stage.failed then EndAttempt(s)
    else Proceed(s, if stage.left == {} then Compacting else stage.(room := MARKER_BATCH))
  }

  function DoEnqueueMarker(s: State, k: Key): State
    requires CanCompact(s, EnqueueMarker(k))
  {
    var x := At(s, k);
    var stage := TheAttempt(s).stage;
    Put(WithStage(s, stage.(left := stage.left - {k}, pending := stage.pending + {k}, room := stage.room - 1)),
        k, x.(ops := x.ops + [Replace(TheAttempt(s).expected[k])]))
  }

  // ---- Death and restart ----

  function Forget(x: KeyState): KeyState {
    KeyState(x.side, None, None, Idle, 0, [], Waiting, 0, x.runs, x.rejected, x.givenUp)
  }

  /** Everything in memory is gone. */
  function Die(s: State): State {
    s.(process := Down, torn := None, keys := map k | k in s.keys :: Forget(s.keys[k]))
  }

  function Retained(s: State): seq<Ev> {
    if 1 <= s.diskFirst <= |s.log| + 1 then s.log[s.diskFirst - 1..] else []
  }

  function DoOpen(s: State): State {
    s.(process := Up(Recovering(RecoverSet(s.snap.open, Retained(s)), {}), s.diskFirst, s.snap.done, None))
  }

  function DoRecoverOne(s: State, x: Tx): State
    requires CanLive(s, RecoverOne(x))
  {
    var phase := s.process.phase;
    Append(s, Term(x.key, x.id, RECOVERED, true))
      .(process := s.process.(phase := Recovering(phase.todo - {x}, phase.recovered + {x.key})))
  }

  /** Restored are the keys whose latest terminal event lies above the snapshot. */
  function ToRestore(s: State): set<Key> {
    set k | k in TerminalKeys(s.log) && LastTerm(s.log, k) > s.snap.covered
  }

  function ToRewrite(s: State): set<Key> {
    set k | k in TerminalKeys(s.log) && Awaits(s, k)
  }

  /** The new terminal event has its sidecar already; it still has to pass the startup check. */
  function DoRewriteAppend(s: State, k: Key): State
    requires CanLive(s, RewriteAppend(k))
  {
    var phase := s.process.phase;
    Append(s, Term(k, OwnId(s.log, k), ApprovalLost, false))
      .(process := s.process.(phase := phase.(rewrite := phase.rewrite - {k}, restore := phase.restore + {k})))
  }

  function DoPersistRecovered(s: State, k: Key, full: bool): State
    requires CanLive(s, PersistRecovered(k, full))
  {
    var x := At(s, k);
    var n := LastTerm(s.log, k);
    var s1 := s.(process := s.process.(phase := s.process.phase.(persist := s.process.phase.persist - {k})));
    if MarkThrows(x.dirty, full) then Die(s)
    else Invalidate(Put(s1, k, x.(hot := Some(Exact(RECOVERED)), dirty := Some(MarkDirty(x.dirty, n, Some(RECOVERED))),
                                  ops := x.ops + [Store(n, RECOVERED)])))
  }

  /** The startup check of one retained terminal event; a failure refuses the start. */
  function DoRestoreOne(s: State, k: Key, ok: bool, full: bool): State
    requires CanLive(s, RestoreOne(k, ok, full))
  {
    var x := At(s, k);
    var n := LastTerm(s.log, k);
    var e := s.log[n - 1];
    var s1 := s.(process := s.process.(phase := s.process.phase.(restore := s.process.phase.restore - {k})));
    if !ok then Die(s)
    else
      match x.side
      case Some(Marker) => Put(s1, k, x.(hot := Some(Marker), dirty := ClearDirty(x.dirty, n)))
      case Some(Exact(w)) =>
        if w == e.value then Put(s1, k, x.(hot := Some(Exact(w)), dirty := ClearDirty(x.dirty, n))) else Die(s)
      case None =>
        if !Reconstructible(s, s.process.first, k, e) || MarkThrows(x.dirty, full) then Die(s)
        else Invalidate(Put(s1, k, x.(hot := Some(Exact(e.value)),
                                      dirty := Some(MarkDirty(x.dirty, n, Some(e.value))))))
  }

  function ApplyCommand(s: State, step: CommandStep): State
    requires CanCommand(s, step)
  {
    match step
    case Submit(k, id) => DoSubmit(s, k, id)
    case Loaded(k, ok, full) =>
      if At(s, k).task.LoadingCold? then LoadedCold(s, k, ok) else LoadedRetained(s, k, ok, full)
    case Refuse(k) => EndCommand(s, k)
    case Reserve(k) => Put(s, k, At(s, k).(task := Requesting))
    case Requested(k) => Put(Append(s, Req(k, At(s, k).id)), k, At(s, k).(task := Ready))
    case Start(k) => Put(s, k, At(s, k).(task := Task.Running, runs := At(s, k).runs + 1))
    case Decide(k, v) => Put(s, k, At(s, k).(task := Terminating(v)))
    case Terminated(k, full) => EndCommand(Settle(s, k, At(s, k).id, At(s, k).task.value, full), k)
    case TerminatedAgain(k, v, full) => Settle(s, k, OwnId(s.log, k), v, full)
    case GiveUp(k) => Put(s, k, At(s, k).(task := Idle, givenUp := At(s, k).givenUp + 1))
    case AppendRejected(e, torn) => DoAppendRejected(s, e, torn)
    case Evict(k) => Put(s, k, At(s, k).(hot := None))
  }

  function ApplyQueue(s: State, step: QueueStep): State
    requires CanQueue(s, step)
  {
    match step
    case FlushDirty(k) =>
      var x := At(s, k);
      Put(s, k, x.(ops := x.ops + [Store(x.dirty.value.sequence, x.dirty.value.outcome.value)]))
    case Publish(k) => Put(s, k, DoPublish(At(s, k)))
    case OpFails(k) => DoOpFails(s, k)
    case Finish(k, synced) => DoFinish(s, k, synced)
  }

  function ApplyCompaction(s: State, step: CompactionStep): State
    requires CanCompact(s, step)
  {
    match step
    case Begin => DoBegin(s)
    case Flushed => Proceed(s, Verifying(Targets(s, s.process.first, TheAttempt(s).covered)))
    case Verify(k, ok) => DoVerify(s, k, ok)
    case Verified => Proceed(s, Snapshotting)
    case TakeSnapshot(ok, done) =>
      var covered := TheAttempt(s).covered;
      if ok then WithStage(s, SnapReady(Snap(covered, NextOpen(s), done)))
      else EndAttempt(s)
    case GuardSnapshot =>
      WithStage(s, if ShouldAbort(s) then SnapWritten else SnapRenaming(TheAttempt(s).stage.next))
    case SnapshotRenamed(synced) =>
      var s1 := s.(snap := TheAttempt(s).stage.next);
      if synced then WithStage(s1, SnapWritten) else EndAttempt(s1)
    case SnapshotFails => EndAttempt(s)
    case AfterSnapshot => Proceed(s, Marking(TheAttempt(s).expected.Keys, {}, 0, false))
    case StartBatch => DoStartBatch(s)
    case EnqueueMarker(k) => DoEnqueueMarker(s, k)
    case BatchDone => WithStage(s, TheAttempt(s).stage.(room := 0))
    case GuardCompact => Proceed(s, CompactRenaming)
    case CompactRenamed(synced) =>
      var s1 := EndAttempt(s).(diskFirst := TheAttempt(s).covered + 1);
      if synced then s1.(process := s1.process.(first := TheAttempt(s).covered + 1)) else s1
    case CompactFails => EndAttempt(s)
  }

  function ApplyLife(s: State, step: LifeStep): State
    requires CanLive(s, step)
  {
    match step
    case OtherEvent => Append(s, Ev.Note)
    case Crash(adopted) => Die(if adopted.Some? then Append(s, adopted.value) else s)
    case Open => DoOpen(s)
    case RecoverOne(x) => DoRecoverOne(s, x)
    case Recovered =>
      s.(process := s.process.(phase := Restoring(s.process.phase.recovered, ToRewrite(s), ToRestore(s))))
    case PersistRecovered(k, full) => DoPersistRecovered(s, k, full)
    case RewriteStore(k) => Put(s, k, At(s, k).(side := Some(Exact(ApprovalLost))))
    case RewriteAppend(k) => DoRewriteAppend(s, k)
    case RestoreOne(k, ok, full) => DoRestoreOne(s, k, ok, full)
    case Restored => s.(process := s.process.(phase := Phase.Serving))
  }

  function Apply(s: State, step: Step): State
    requires Enabled(s, step)
  {
    match step
    case Command(c) => ApplyCommand(s, c)
    case Queue(q) => ApplyQueue(s, q)
    case Compaction(p) => ApplyCompaction(s, p)
    case Life(l) => ApplyLife(s, l)
  }

  /** What a step hands back to whoever submitted the key. */
  function Answer(s: State, step: CommandStep): Option<(Key, Rec)> {
    match step
    case Submit(k, _) =>
      var x := At(s, k);
      if x.hot.Some? then Some((k, x.hot.value))
      else if x.dirty.Some? && x.dirty.value.outcome.Some? then Some((k, Exact(x.dirty.value.outcome.value)))
      else None
    case Loaded(k, ok, full) =>
      var x := At(s, k);
      if !ok then None
      else if x.side.Some? then
        if x.task.LoadingRetained? && x.side.value.Exact? && x.side.value.value != x.task.value then None
        else Some((k, x.side.value))
      else if x.task.LoadingRetained? && x.task.reconstructible && !MarkThrows(x.dirty, full)
      then Some((k, Exact(x.task.value)))
      else None
    case _ => None
  }

  // ---- Runs ----

  /** The key's terminal event is not committed, in a process that lives on. */
  predicate Rejects(s: State, step: Step, k: Key) {
    && Enabled(s, step) && step.Command? && step.c.AppendRejected? && step.c.e.Term? && step.c.e.key == k
    && At(s, k).task == Terminating(step.c.e.value) && At(s, k).id == step.c.e.id
  }

  /** The key's command is given up without coming to a terminal event: it failed where nothing catches. */
  predicate GivesUp(s: State, step: Step, k: Key) {
    Enabled(s, step) && step == Command(GiveUp(k))
  }

  /** A step that cannot be taken where it stands does nothing. */
  function Next(s: State, step: Step): State {
    if Enabled(s, step) then Apply(s, step) else s
  }

  function Run(kinds: Kinds, steps: seq<Step>): State {
    if steps == [] then Init(kinds) else Next(Run(kinds, steps[..|steps| - 1]), steps[|steps| - 1])
  }

  function Rejections(kinds: Kinds, steps: seq<Step>, k: Key): nat {
    if steps == [] then 0
    else
      Rejections(kinds, steps[..|steps| - 1], k)
      + (if Rejects(Run(kinds, steps[..|steps| - 1]), steps[|steps| - 1], k) then 1 else 0)
  }

  function GiveUps(kinds: Kinds, steps: seq<Step>, k: Key): nat {
    if steps == [] then 0
    else
      GiveUps(kinds, steps[..|steps| - 1], k)
      + (if GivesUp(Run(kinds, steps[..|steps| - 1]), steps[|steps| - 1], k) then 1 else 0)
  }
}
