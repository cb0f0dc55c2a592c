/** What holds after every run of the control runtime. */
module Runtime {
  import opened ControlEvents
  import opened RuntimeLog
  import opened RuntimeModel
  import opened RuntimeInvariant
  import opened RuntimeSteps

  lemma InitKeeps(kinds: Kinds)
    ensures Inv(Init(kinds))
  {
    hide KeyOk, FactsOf;
    forall k: Key ensures KeyInv(Init(kinds), k) {
      NothingYet(k, k !in kinds.surface);
    }
    assert OpenSet([]) == {};
  }

  lemma NothingYet(k: Key, plain: bool)
    ensures KeyOk(FactsOf([], 0, k), plain, 0, Down, UNSEEN)
  {
    hide KeyOk, FactsOf;
    NoFacts(k);
    NothingOk(plain);
  }

  lemma NothingOk(plain: bool)
    ensures KeyOk(Facts(0, 0, 0, 0, LeftOpen, LeftOpen, {}, {}, {}, false), plain, 0, Down, UNSEEN)
  {
  }

  lemma NoFacts(k: Key)
    ensures FactsOf([], 0, k) == Facts(0, 0, 0, 0, LeftOpen, LeftOpen, {}, {}, {}, false)
  {
    assert Outcomes([], k) == {} && OpenIds([], k) == {};
  }

  lemma CommandKeeps(s: State, step: CommandStep)
    requires Inv(s) && CanCommand(s, step)
    ensures Inv(ApplyCommand(s, step))
  {
    hide Inv, DoSubmit, LoadedCold, LoadedRetained, Settle, EndCommand, DoAppendRejected;
    match step
    case Submit(k, id) => SubmitKeeps(s, k, id);
    case Loaded(k, ok, full) =>
      if At(s, k).task.LoadingCold? { LoadedColdKeeps(s, k, ok); } else { LoadedRetainedKeeps(s, k, ok, full); }
    case Refuse(k) => EndKeeps(s, k);
    case Reserve(k) => ReserveKeeps(s, k);
    case Requested(k) => RequestedKeeps(s, k);
    case Start(k) => StartKeeps(s, k);
    case Decide(k, v) => DecideKeeps(s, k, v);
    case Terminated(k, full) => SettleKeeps(s, k, At(s, k).id, At(s, k).task.value, full);
    case TerminatedAgain(k, v, full) => SettledAgain(s, k, v, full);
    case GiveUp(k) => GiveUpKeeps(s, k);
    case AppendRejected(e, torn) => RejectedKeeps(s, e, torn);
    case Evict(k) => EvictKeeps(s, k);
  }

  /** A command still between request and terminal event has none yet. */
  lemma SettledAgain(s: State, k: Key, v: Outcome, full: bool)
    requires Inv(s) && CanCommand(s, TerminatedAgain(k, v, full))
    ensures Inv(Settle(s, k, OwnId(s.log, k), v, full))
  {
    hide Inv, LastTerm, FirstTerm, LastOwn, LastReq, Settle;
    OwnBelow(s.log, k);
    RequestsFirst(s, k);
    SettleKeeps(s, k, OwnId(s.log, k), v, full);
  }

  lemma QueueKeeps(s: State, step: QueueStep)
    requires Inv(s) && CanQueue(s, step)
    ensures Inv(ApplyQueue(s, step))
  {
    hide Inv, DoOpFails, DoFinish, DoPublish;
    match step
    case FlushDirty(k) => FlushKeeps(s, k);
    case Publish(k) => PublishKeeps(s, k);
    case OpFails(k) => OpFailsKeeps(s, k);
    case Finish(k, synced) => FinishKeeps(s, k, synced);
  }

  lemma CompactionKeeps(s: State, step: CompactionStep)
    requires Inv(s) && CanCompact(s, step)
    ensures Inv(ApplyCompaction(s, step))
  {
    hide Inv, DoBegin, DoVerify, DoEnqueueMarker, DoStartBatch, Proceed, EndAttempt, Targets, EventsSince;
    match step
    case Begin => BeginKeeps(s);
    case Flushed => FlushedKeeps(s);
    case Verify(k, ok) => VerifyKeeps(s, k, ok);
    case Verified => VerifiedKeeps(s);
    case TakeSnapshot(ok, done) => TakeSnapshotKeeps(s, ok, done);
    case GuardSnapshot => GuardSnapshotKeeps(s);
    case SnapshotRenamed(synced) => SnapshotRenamedKeeps(s, synced);
    case SnapshotFails => EndAttemptKeeps(s);
    case AfterSnapshot => SimpleStages(s);
    case StartBatch => SimpleStages(s);
    case EnqueueMarker(k) => EnqueueMarkerKeeps(s, k);
    case BatchDone => SimpleStages(s);
    case GuardCompact => SimpleStages(s);
    case CompactRenamed(synced) => CompactRenamedKeeps(s, synced);
    case CompactFails => EndAttemptKeeps(s);
  }

  lemma LifeKeeps(s: State, step: LifeStep)
    requires Inv(s) && CanLive(s, step)
    ensures Inv(ApplyLife(s, step))
  {
    hide Inv, Die, DoOpen, DoRecoverOne, DoPersistRecovered, DoRestoreOne, DoRewriteAppend, ToRestore, ToRewrite;
    match step
    case OtherEvent => OtherEventKeeps(s);
    case Crash(adopted) => CrashKeeps(s, adopted);
    case Open => OpenKeeps(s);
    case RecoverOne(x) => RecoverOneKeeps(s, x);
    case Recovered => RecoveredKeeps(s);
    case PersistRecovered(k, full) => PersistRecoveredKeeps(s, k, full);
    case RewriteStore(k) => RewriteStoreKeeps(s, k);
    case RewriteAppend(k) => RewriteAppendKeeps(s, k);
    case RestoreOne(k, ok, full) => RestoreOneKeeps(s, k, ok, full);
    case Restored => RestoredKeeps(s);
  }

  /** Every run of submits, compactions, crashes and restarts keeps the invariant. */
  lemma {:induction false} RunInv(kinds: Kinds, steps: seq<Step>)
    ensures Inv(Run(kinds, steps)) && Run(kinds, steps).kinds == kinds
  {
    hide Inv, ApplyCommand, ApplyQueue, ApplyCompaction, ApplyLife, Enabled;
    if steps == [] {
      InitKeeps(kinds);
    } else {
      var n := |steps| - 1;
      RunInv(kinds, steps[..n]);
      NextKeeps(Run(kinds, steps[..n]), steps[n]);
    }
  }

  lemma NextKeeps(s: State, step: Step)
    requires Inv(s)
    ensures Inv(Next(s, step)) && Next(s, step).kinds == s.kinds
  {
    hide Inv;
    if Enabled(s, step) {
      KindsStay(s, step);
      match step
      case Command(c) => CommandKeeps(s, c);
      case Queue(q) => QueueKeeps(s, q);
      case Compaction(p) => CompactionKeeps(s, p);
      case Life(l) => LifeKeeps(s, l);
    }
  }

  lemma KindsStay(s: State, step: Step)
    requires Enabled(s, step)
    ensures Apply(s, step).kinds == s.kinds
  {
  }

  // ---- At most once ----

  lemma KeyAfterRun(kinds: Kinds, steps: seq<Step>, k: Key)
    ensures var s := Run(kinds, steps);
            Inv(s) && s.kinds == kinds
            && var f := FactsOf(s.log, s.reach, k);
               && Sane(f) && s.reach <= |s.log|
               && KeyOk(f, k !in kinds.surface, s.snap.covered, s.process, At(s, k))
  {
    hide Inv, KeyOk, FactsOf, Run;
    RunInv(kinds, steps);
    AtInv(Run(kinds, steps), k);
  }

  lemma CountStep(s: State, step: Step, k: Key)
    ensures At(Next(s, step), k).rejected == At(s, k).rejected + (if Rejects(s, step, k) then 1 else 0)
    ensures At(Next(s, step), k).givenUp == At(s, k).givenUp + (if GivesUp(s, step, k) then 1 else 0)
  {
    hide LastTerm, LastReq, Targets, EventsSince, FoldOpen, CleanThrough, RecoverSet, ToRestore, Reconstructible;
    if Enabled(s, step) {
      match step
      case Command(c) => CountCommand(s, c, k);
      case Queue(q) => CountQueue(s, q, k);
      case Compaction(p) => CountCompaction(s, p, k);
      case Life(l) => CountLife(s, l, k);
    }
  }

  predicate SameCount(s: State, s': State, k: Key) {
    At(s', k).rejected == At(s, k).rejected && At(s', k).givenUp == At(s, k).givenUp
  }

  lemma CountCommand(s: State, c: CommandStep, k: Key)
    requires CanCommand(s, c)
    ensures var x, y := At(s, k), At(ApplyCommand(s, c), k);
            && y.rejected == x.rejected + (if Rejects(s, Command(c), k) then 1 else 0)
            && y.givenUp == x.givenUp + (if GivesUp(s, Command(c), k) then 1 else 0)
  {
    hide LastTerm, LastReq, Reconstructible, MarkDirty, ClearDirty, LoadedRetained, LoadedCold, Settle;
    match c
    case Loaded(j, ok, full) => CountLoaded(s, j, ok, full, k);
    case Terminated(j, full) => CountSettle(s, j, At(s, j).id, At(s, j).task.value, full, k);
    case TerminatedAgain(j, v, full) => CountSettle(s, j, OwnId(s.log, j), v, full, k);
    case _ =>
  }

  lemma CountSettle(s: State, j: Key, id: nat, v: Outcome, full: bool, k: Key)
    ensures SameCount(s, Settle(s, j, id, v, full), k)
  {
    hide MarkDirty;
  }

  lemma CountLoaded(s: State, j: Key, ok: bool, full: bool, k: Key)
    requires CanCommand(s, Loaded(j, ok, full))
    ensures At(s, j).task.LoadingRetained? ==> SameCount(s, LoadedRetained(s, j, ok, full), k)
    ensures SameCount(s, LoadedCold(s, j, ok), k)
  {
    hide MarkDirty, ClearDirty;
  }

  lemma CountQueue(s: State, q: QueueStep, k: Key)
    requires CanQueue(s, q)
    ensures SameCount(s, ApplyQueue(s, q), k)
  {
    hide ClearDirty;
  }

  lemma CountCompaction(s: State, p: CompactionStep, k: Key)
    requires CanCompact(s, p)
    ensures SameCount(s, ApplyCompaction(s, p), k)
  {
    hide LastTerm, LastReq, Targets, EventsSince, FoldOpen, CleanThrough;
  }

  lemma CountLife(s: State, l: LifeStep, k: Key)
    requires CanLive(s, l)
    ensures SameCount(s, ApplyLife(s, l), k)
  {
    hide LastTerm, LastReq, RecoverSet, ToRestore, Reconstructible, MarkDirty, ClearDirty;
  }

  lemma {:induction false} Counted(kinds: Kinds, steps: seq<Step>, k: Key)
    ensures At(Run(kinds, steps), k).rejected == Rejections(kinds, steps, k)
    ensures At(Run(kinds, steps), k).givenUp == GiveUps(kinds, steps, k)
  {
    hide Next, Rejects, GivesUp;
    if steps != [] {
      var n := |steps| - 1;
      Counted(kinds, steps[..n], k);
      CountStep(Run(kinds, steps[..n]), steps[n], k);
    }
  }

  lemma {:induction false} OnlyUnguardedGiveUp(kinds: Kinds, steps: seq<Step>, k: Key)
    requires k !in kinds.unguarded
    ensures GiveUps(kinds, steps, k) == 0
  {
    if steps != [] {
      hide Inv, Run;
      OnlyUnguardedGiveUp(kinds, steps[..|steps| - 1], k);
      RunInv(kinds, steps[..|steps| - 1]);
    }
  }

  /**
   * In every run, whatever the crashes, restarts, compactions and rejected
   * appends: a key's handler is invoked no more often than the key was
   * requested, and that is at most once, plus once for every terminal event of
   * it that was decided and not committed, and for every time it was given up
   * before, which happens to unguarded commands only.
   */
  lemma AtMostOnce(kinds: Kinds, steps: seq<Step>, k: Key)
    ensures var s := Run(kinds, steps);
            && At(s, k).runs <= Requests(s.log, k)
            && Requests(s.log, k) <= 1 + Rejections(kinds, steps, k) + GiveUps(kinds, steps, k)
            && (k !in kinds.unguarded ==> GiveUps(kinds, steps, k) == 0)
  {
    hide Run, LastTerm, LastReq, Requests, Outcomes, Inv, MemoryOk, TaskOk, MineOk, Rejections, GiveUps;
    KeyAfterRun(kinds, steps, k);
    Counted(kinds, steps, k);
    if k !in kinds.unguarded { OnlyUnguardedGiveUp(kinds, steps, k); }
  }

  predicate OneAtMost(outcomes: set<Outcome>) {
    forall v, w :: v in outcomes && w in outcomes ==> v == w
  }

  /**
   * A plain command has one outcome in every run in which no attempt at it was
   * lost: no terminal event decided and not committed, and never given up.
   * Otherwise a restart can still end the request that was lost: then it may
   * have a second outcome, which is recovery's and the last one.
   */
  lemma OutcomeIsKept(kinds: Kinds, steps: seq<Step>, k: Key)
    requires k !in kinds.surface
    ensures var s := Run(kinds, steps);
            && (OneAtMost(Outcomes(s.log, k))
                || (LastTerm(s.log, k) > 0 && Latest(s.log, k) == RECOVERED
                    && OneAtMost(Outcomes(s.log, k) - {RECOVERED})))
            && (Rejections(kinds, steps, k) + GiveUps(kinds, steps, k) == 0 ==> OneAtMost(Outcomes(s.log, k)))
  {
    hide Run, LastTerm, Outcomes, Inv, Rejections, GiveUps, KeyOk, Sane, FactsOf, OneAtMost;
    KeyAfterRun(kinds, steps, k);
    Counted(kinds, steps, k);
    var s := Run(kinds, steps);
    FactsTerm(s.log, s.reach, k);
    KeptFacts(FactsOf(s.log, s.reach, k), s.snap.covered, s.process, At(s, k));
  }

  lemma KeptFacts(f: Facts, covered: nat, p: Process, x: KeyState)
    requires KeyOk(f, true, covered, p, x) && Sane(f)
    ensures OneAtMost(f.all) || (f.t > 0 && f.latest == RECOVERED && OneAtMost(f.all - {RECOVERED}))
    ensures Lost(x) == 0 ==> OneAtMost(f.all)
  {
    hide EvidenceOk, MemoryOk, TaskOk, MineOk, PhaseOk, SideOk;
  }

  /** A key that has a terminal event is never admitted, requested or run again. */
  lemma EndedNeverRunsAgain(kinds: Kinds, steps: seq<Step>, k: Key)
    ensures var s := Run(kinds, steps);
            LastTerm(s.log, k) > 0 ==>
              && (At(s, k).task.Idle? || At(s, k).task.LoadingRetained? || At(s, k).task.LoadingCold?)
              && (At(s, k).task.LoadingCold? ==> At(s, k).side.Some?)
  {
    hide Run, LastTerm, LastReq, Requests, Outcomes, Inv, MemoryOk, MineOk;
    KeyAfterRun(kinds, steps, k);
  }

  /**
   * Every answer a submit ever gets tells an outcome recorded for its key, for
   * a plain key of which no attempt was lost the only one; a marker stands for
   * an outcome some compaction attempt covered.
   */
  lemma AnswersAreRecorded(kinds: Kinds, steps: seq<Step>, c: CommandStep, k: Key, rec: Rec)
    requires CanCommand(Run(kinds, steps), c) && Answer(Run(kinds, steps), c) == Some((k, rec))
    ensures var s := Run(kinds, steps);
            && LastTerm(s.log, k) > 0
            && (rec.Exact? ==> rec.value in Outcomes(s.log, k))
            && (rec.Exact? && k !in kinds.surface ==>
                  rec.value == Latest(s.log, k)
                  || (Latest(s.log, k) == RECOVERED && Rejections(kinds, steps, k) + GiveUps(kinds, steps, k) > 0))
            && (rec.Marker? ==> s.reach <= |s.log| && Outcomes(s.log[..s.reach], k) != {})
  {
    hide Run, LastTerm, LastReq, Requests, Outcomes, Inv, KeyOk, Answer, CanCommand, Rejections, GiveUps;
    KeyAfterRun(kinds, steps, k);
    Counted(kinds, steps, k);
    var s := Run(kinds, steps);
    var f := FactsOf(s.log, s.reach, k);
    AnswerTells(s, f, c, k, rec);
    OneOutcome(f, k !in kinds.surface, s.snap.covered, s.process, At(s, k));
  }

  /** What a step hands back tells an outcome of the key. */
  lemma AnswerTells(s: State, f: Facts, c: CommandStep, k: Key, rec: Rec)
    requires CanCommand(s, c) && Answer(s, c) == Some((k, rec))
    requires KeyOk(f, k !in s.kinds.surface, s.snap.covered, s.process, At(s, k))
    ensures RecOk(f, rec)
  {
    hide HistoryOk, OutcomesOk, EvidenceOk, MineOk, PhaseOk, LastTerm, LastOwn, LastReq, Ahead;
  }

  lemma OneOutcome(f: Facts, plain: bool, covered: nat, p: Process, x: KeyState)
    requires KeyOk(f, plain, covered, p, x)
    ensures plain ==> f.all <= {f.latest} || (f.latest == RECOVERED && Lost(x) > 0)
  {
  }

  /** A completed key recorded in a snapshot always has its sidecar, so its retry is never turned away. */
  lemma LegacyKeysNeverBlock(kinds: Kinds, steps: seq<Step>, k: Key)
    requires var s := Run(kinds, steps); IsServing(s) && At(s, k).task.LoadingCold? && k in s.process.legacy
    ensures At(Run(kinds, steps), k).side.Some?
  {
    hide Run, LastTerm, LastReq, Requests, Outcomes, AttemptInv, KeysInv, MemoryOk, MineOk, HistoryOk, TerminalKeys;
    KeyAfterRun(kinds, steps, k);
    TerminalKeysMember(Run(kinds, steps).log, k);
  }

  /**
   * When a retry of an ended plain command fails although its sidecar could be
   * read: exactly when the sidecar contradicts the terminal event in memory, or
   * there is none yet and either the outcome cannot be told from the events (its
   * request was compacted away and no recovery wrote it) or the dirty map is
   * full.
   */
  lemma RetryFailsIff(kinds: Kinds, steps: seq<Step>, k: Key, id: nat, full: bool)
    requires k !in kinds.surface
    requires var s := Run(kinds, steps);
             IsServing(s) && At(s, k).task.Idle? && LastTerm(s.log, k) > 0 && Answer(s, Submit(k, id)).None?
    ensures var s := Run(kinds, steps);
            var s1 := ApplyCommand(s, Submit(k, id));
            var e := s.log[LastTerm(s.log, k) - 1];
            && CanCommand(s1, Loaded(k, true, full))
            && (Answer(s1, Loaded(k, true, full)).None? <==>
                  match At(s, k).side
                  case Some(Marker) => false
                  case Some(Exact(w)) => w != e.value && s.process.first <= LastTerm(s.log, k)
                  case None =>
                    MarkThrows(At(s, k).dirty, full)
                    || !(e.recovered || RequestRetained(s.log, s.process.first, Tx(k, e.id))))
  {
    hide Run, LastTerm, FirstTerm, LastReq, Requests, Outcomes, Inv, KeyOk, FactsOf, RequestOf;
    RunInv(kinds, steps);
    var s := Run(kinds, steps);
    LookupFacts(s, k);
    FactsTerm(s.log, s.reach, k);
    EndedFacts(s, k);
  }

  lemma FactsTerm(log: seq<Ev>, reach: nat, k: Key)
    ensures var f := FactsOf(log, reach, k);
            && f.t == LastTerm(log, k) && f.r == LastReq(log, k) && f.all == Outcomes(log, k)
            && (f.t > 0 ==> f.latest == Latest(log, k))
  {
  }

  // ---- Evidence ----

  /**
   * Compaction never loses evidence: in every reachable state, crash points
   * included, a key with a committed terminal event has one the journal file
   * still holds or a sidecar; the file starts at most one past the snapshot;
   * and the snapshot tells exactly the commands open where it ends.
   */
  lemma EvidenceAfterRun(kinds: Kinds, steps: seq<Step>, k: Key)
    ensures var s := Run(kinds, steps);
            && (LastTerm(s.log, k) > 0 ==> s.diskFirst <= LastTerm(s.log, k) || At(s, k).side.Some?)
            && 1 <= s.diskFirst <= s.snap.covered + 1 && s.snap.covered <= |s.log|
            && s.snap.open == OpenSet(s.log[..s.snap.covered])
            && s.snap.done <= TerminalKeys(s.log)
  {
    hide Run, LastTerm, LastReq, Requests, Outcomes, OpenSet, TerminalKeys, KeysInv, StartupInv, AttemptInv;
    RunInv(kinds, steps);
    EvidenceAt(Run(kinds, steps), k);
  }

  /**
   * A snapshot write that was skipped without a word can never be followed by a
   * marker or by a rewrite of the journal: past it, an attempt that still goes
   * on has its own snapshot on disk.
   */
  lemma NothingDroppedWithoutSnapshot(kinds: Kinds, steps: seq<Step>)
    requires Attempting(Run(kinds, steps))
    ensures var s := Run(kinds, steps);
            var a := TheAttempt(s);
            && (a.stage.Marking? || a.stage.Compacting? ==> ShouldAbort(s) || s.snap.covered == a.covered)
            && (a.stage.CompactRenaming? ==> s.snap.covered == a.covered)
  {
    hide Run, KeysInv, DiskInv, StartupInv, VerifiedOk, CleanThrough;
    RunInv(kinds, steps);
  }

  /** Compaction targets never go back, across attempts and restarts alike. */
  lemma TargetsNeverGoBack(kinds: Kinds, steps: seq<Step>, step: Step)
    requires Enabled(Run(kinds, steps), step)
    ensures var s, s' := Run(kinds, steps), Apply(Run(kinds, steps), step);
            && s.reach <= s'.reach
            && (Attempting(s') ==> TheAttempt(s').covered == s'.reach)
            && (step == Compaction(Begin) ==> s.reach <= TheAttempt(s').covered)
  {
    hide Run, KeysInv, StartupInv, OpenSet, TerminalKeys, VerifiedOk, StageOk, CleanThrough;
    RunInv(kinds, steps);
    ReachGrows(Run(kinds, steps), step);
    NextKeeps(Run(kinds, steps), step);
  }

  lemma ReachGrows(s: State, step: Step)
    requires DiskInv(s) && Enabled(s, step)
    ensures Apply(s, step).reach == if step == Compaction(Begin) then |s.log| - RETAINED_EVENTS else s.reach
    ensures step == Compaction(Begin) ==> s.reach <= Apply(s, step).reach
  {
    hide LastTerm, LastReq, OpenSet, TerminalKeys, Outcomes, FoldOpen, RecoverSet, MarkDirty, ClearDirty;
  }

  // ---- The later outcome wins ----

  /**
   * In every interleaving with compaction: the entry of the latest terminal
   * event this process marked dirty stays dirty until the sidecar tells that
   * event's exact outcome. Only an outcome that a covered event already had can
   * read as a marker.
   */
  lemma LaterOutcomeWins(kinds: Kinds, steps: seq<Step>, k: Key)
    requires var s := Run(kinds, steps); 0 < At(s, k).mine == LastTerm(s.log, k)
    ensures var s := Run(kinds, steps);
            var x, v := At(s, k), Latest(s.log, k);
            && s.reach <= |s.log|
            && (x.dirty.Some? ==> x.dirty.value == Dirty(LastTerm(s.log, k), Some(v)))
            && (x.dirty.None? && v !in Outcomes(s.log[..s.reach], k) ==> x.side == Some(Exact(v)))
            && (x.dirty.None? ==> x.side == Some(Exact(v)) || x.side == Some(Marker))
  {
    hide Run, LastTerm, LastReq, Requests, Outcomes, Inv, MemoryOk, TaskOk, HistoryOk;
    KeyAfterRun(kinds, steps, k);
  }
}
