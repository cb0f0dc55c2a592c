/**
 * Compaction does what it is for: when it should, an attempt goes through, drops
 * what it covers and leaves a marker for every outcome it covered.
 */
module RuntimeCompaction {
  import opened ControlEvents
  import opened RuntimeLog
  import opened RuntimeModel
  import opened RuntimeInvariant
  import opened RuntimeSteps
  import opened Runtime
  import opened RuntimeRuns

  // ---- One check ----

  /** The sidecar is a marker or tells this outcome. */
  predicate Agrees(side: Option<Rec>, v: Outcome) {
    side.Some? && (side.value.Exact? ==> side.value.value == v)
  }

  /**
   * An attempt that should not abort survives the check of a key exactly if the
   * sidecar can be read and is a marker or tells the outcome the key had; then it
   * remembers that very record and has one key less to check.
   */
  lemma CheckPassesIff(s: State, k: Key, ok: bool)
    requires CanCompact(s, Verify(k, ok)) && !ShouldAbort(s)
    ensures var s' := ApplyCompaction(s, Verify(k, ok)); var a := TheAttempt(s);
            && (Attempting(s') <==> ok && Agrees(At(s, k).side, a.stage.todo[k]))
            && (Attempting(s') ==>
                  TheAttempt(s') == a.(expected := a.expected[k := At(s, k).side.value],
                                       stage := Verifying(a.stage.todo - {k})))
  {
    hide CleanThrough;
    AgreesIff(At(s, k).side, TheAttempt(s).stage.todo[k]);
  }

  lemma AgreesIff(side: Option<Rec>, v: Outcome)
    ensures Agrees(side, v) <==> side == Some(Marker) || side == Some(Exact(v))
  {
    match side {
      case None =>
      case Some(rec) =>
        match rec
        case Exact(_) =>
        case Marker =>
    }
  }

  /**
   * What an attempt survives: where it looks, that it should not abort; a failed
   * check, snapshot or marker ends it, and so does the rewrite, done or failed.
   */
  lemma AttemptSurvivesIff(s: State, p: CompactionStep)
    requires CanCompact(s, p)
    ensures Attempting(ApplyCompaction(s, p)) <==>
            match p
            case Verify(k, ok) => !ShouldAbort(s) && ok && Agrees(At(s, k).side, TheAttempt(s).stage.todo[k])
            case TakeSnapshot(ok, _) => ok
            case SnapshotRenamed(synced) => synced
            case StartBatch => !TheAttempt(s).stage.failed && !ShouldAbort(s)
            case GuardSnapshot => true
            case EnqueueMarker(_) => true
            case BatchDone => true
            case SnapshotFails => false
            case CompactRenamed(_) => false
            case CompactFails => false
            case Flushed => !ShouldAbort(s)
            case Verified => !ShouldAbort(s)
            case AfterSnapshot => !ShouldAbort(s)
            case GuardCompact => !ShouldAbort(s)
            case Begin => true
  {
    hide CleanThrough, ShouldAbort, NextOpen;
    if p.Verify? { AgreesIff(At(s, p.k).side, TheAttempt(s).stage.todo[p.k]); }
  }

  /** A marker that was not put in place for certain is a failure its attempt will see. */
  lemma FailuresAreSeen(s: State, k: Key, synced: bool)
    requires CanQueue(s, Finish(k, synced)) && Attempting(s) && TheAttempt(s).stage.Marking?
    requires At(s, k).ops[0].Replace?
    ensures var s' := ApplyQueue(s, Finish(k, synced));
            && Attempting(s') && TheAttempt(s').stage.Marking?
            && (TheAttempt(s').stage.failed <==>
                  TheAttempt(s).stage.failed || !synced || At(s, k).head.Mismatched?)
            && TheAttempt(s').stage.pending == TheAttempt(s).stage.pending - {k}
  {
  }

  /** So is one that could not even be tried. */
  lemma FailedTriesAreSeen(s: State, k: Key)
    requires CanQueue(s, OpFails(k)) && Attempting(s) && TheAttempt(s).stage.Marking? && At(s, k).ops[0].Replace?
    ensures var s' := ApplyQueue(s, OpFails(k));
            && Attempting(s') && TheAttempt(s').stage.Marking? && TheAttempt(s').stage.failed
            && TheAttempt(s').stage.pending == TheAttempt(s).stage.pending - {k}
            && At(s', k) == At(s, k).(ops := At(s, k).ops[1..])
  {
  }

  // ---- What is checked against ----

  predicate IsChecking(s: State) {
    Attempting(s) && TheAttempt(s).stage.Verifying?
  }

  /** The outcomes an attempt checks against: the latest of each key, unless the key has ended again since. */
  predicate ChecksLatest(s: State) {
    IsChecking(s) ==>
      var a := TheAttempt(s);
      a.covered <= |s.log|
      && forall k :: k in a.stage.todo ==>
           && 0 < LastTerm(s.log, k)
           && (LastTerm(s.log, k) <= a.covered ==> a.stage.todo[k] == Latest(s.log, k))
  }

  /** At most one event more, and no new checks. */
  predicate ChecksOn(s: State, s': State) {
    && (s'.log == s.log || (s'.log != [] && s'.log[..|s'.log| - 1] == s.log))
    && (IsChecking(s') ==>
          && IsChecking(s) && TheAttempt(s').covered == TheAttempt(s).covered
          && forall k :: k in TheAttempt(s').stage.todo ==>
               k in TheAttempt(s).stage.todo && TheAttempt(s').stage.todo[k] == TheAttempt(s).stage.todo[k])
  }

  lemma ChecksOnLatest(s: State, s': State)
    requires ChecksLatest(s) && ChecksOn(s, s')
    ensures ChecksLatest(s')
  {
    hide LastTerm;
    if IsChecking(s') && s'.log != s.log {
      var e := s'.log[|s'.log| - 1];
      assert s'.log == s.log + [e];
      forall k | k in TheAttempt(s').stage.todo
        ensures 0 < LastTerm(s'.log, k)
        ensures LastTerm(s'.log, k) <= TheAttempt(s').covered ==> TheAttempt(s').stage.todo[k] == Latest(s'.log, k)
      {
        Snoc(s.log, e, k);
      }
    }
  }

  lemma CommandChecks(s: State, c: CommandStep)
    requires CanCommand(s, c)
    ensures ChecksOn(s, ApplyCommand(s, c))
  {
    hide LastTerm, LastReq, LastOwn, MarkDirty, ClearDirty, MarkThrows, Reconstructible, OwnId, At, RetainedTerminal;
  }

  lemma QueueChecks(s: State, q: QueueStep)
    requires CanQueue(s, q)
    ensures ChecksOn(s, ApplyQueue(s, q))
  {
    hide MarkDirty, ClearDirty;
  }

  lemma CompactionChecks(s: State, p: CompactionStep)
    requires CanCompact(s, p) && !p.Flushed?
    ensures ChecksOn(s, ApplyCompaction(s, p))
  {
    hide ShouldAbort, NextOpen, EventsSince, TerminalKeys;
  }

  lemma LifeChecks(s: State, l: LifeStep)
    requires CanLive(s, l)
    ensures ChecksOn(s, ApplyLife(s, l))
  {
    hide LastTerm, LastReq, LastOwn, RecoverSet, ToRestore, ToRewrite, MarkDirty, ClearDirty, MarkThrows;
    hide Reconstructible, OwnId, Retained;
  }

  lemma FlushedChecks(s: State)
    requires CanCompact(s, Flushed) && AttemptInv(s)
    ensures ChecksLatest(ApplyCompaction(s, Flushed))
  {
    hide LastTerm, ShouldAbort;
  }

  lemma StepChecks(s: State, step: Step)
    requires Inv(s) && ChecksLatest(s)
    ensures ChecksLatest(Next(s, step))
  {
    hide ChecksLatest, ChecksOn, CanCommand, CanQueue, CanCompact, CanLive;
    hide ApplyCommand, ApplyQueue, ApplyCompaction, ApplyLife;
    if Enabled(s, step) {
      if step == Compaction(Flushed) {
        FlushedChecks(s);
      } else {
        match step {
          case Command(c) => CommandChecks(s, c);
          case Queue(q) => QueueChecks(s, q);
          case Compaction(p) => CompactionChecks(s, p);
          case Life(l) => LifeChecks(s, l);
        }
        ChecksOnLatest(s, Apply(s, step));
      }
    }
  }

  lemma {:induction false} RunChecks(kinds: Kinds, steps: seq<Step>)
    ensures ChecksLatest(Run(kinds, steps))
  {
    if steps != [] {
      hide ChecksLatest, Next, Inv;
      RunChecks(kinds, steps[..|steps| - 1]);
      RunInv(kinds, steps[..|steps| - 1]);
      StepChecks(Run(kinds, steps[..|steps| - 1]), steps[|steps| - 1]);
    }
  }

  /**
   * So in every run: unless the key has ended once more since, a check that finds
   * nothing to abort for is survived exactly if the sidecar can be read and is a
   * marker or tells the key's latest outcome.
   */
  lemma CheckPassesIfLatest(kinds: Kinds, steps: seq<Step>, k: Key, ok: bool)
    requires CanCompact(Run(kinds, steps), Verify(k, ok)) && !ShouldAbort(Run(kinds, steps))
    requires LastTerm(Run(kinds, steps).log, k) <= TheAttempt(Run(kinds, steps)).covered
    ensures var s := Run(kinds, steps);
            && 0 < LastTerm(s.log, k)
            && (Attempting(ApplyCompaction(s, Verify(k, ok))) <==> ok && Agrees(At(s, k).side, Latest(s.log, k)))
  {
    hide Run, LastTerm, ApplyCompaction, ShouldAbort;
    RunChecks(kinds, steps);
    CheckPassesIff(Run(kinds, steps), k, ok);
  }

  // ---- When a compaction goes through ----

  /** What a compaction begun now would cover. */
  function Goal(s: State): nat {
    if RETAINED_EVENTS <= |s.log| then |s.log| - RETAINED_EVENTS else 0
  }

  /** The keys whose latest terminal event it would drop. */
  function Dropped(s: State): set<Key>
    requires s.process.Up?
  {
    set k | k in TerminalKeys(s.log) && s.process.first <= LastTerm(s.log, k) <= Goal(s)
  }

  /**
   * There is enough to drop, nothing is dirty up to the target, not too many
   * commands are open there, and every outcome that would lose its event has its
   * sidecar and no publication under way.
   */
  predicate CanGoThrough(s: State) {
    && IsServing(s) && s.process.attempt.None? && 1 <= s.process.first && s.process.first + RETAINED_EVENTS <= |s.log|
    && CleanThrough(s.keys, Goal(s)) && |OpenSet(s.log[..Goal(s)])| <= OPEN_LIMIT
    && forall k :: k in Dropped(s) ==>
         0 < LastTerm(s.log, k) && At(s, k).ops == [] && Agrees(At(s, k).side, Latest(s.log, k))
  }

  /** A marker for each of the keys. */
  function MarkAll(keys: map<Key, KeyState>, marked: set<Key>): map<Key, KeyState> {
    map k | k in keys :: if k in marked then keys[k].(side := Some(Marker)) else keys[k]
  }

  /** The process in the middle of the attempt. */
  function Mid(s: State, a: Attempt, snap: Snap, marked: set<Key>): State
    requires s.process.Up?
  {
    s.(snap := snap, reach := a.covered, process := s.process.(attempt := Some(a)), keys := MarkAll(s.keys, marked))
  }

  function Trying(s: State, expected: map<Key, Rec>, stage: Stage): Attempt {
    Attempt(Goal(s), false, expected, stage)
  }

  lemma MarkNone(keys: map<Key, KeyState>)
    ensures MarkAll(keys, {}) == keys
  {
  }

  lemma NeverAborts(s: State, expected: map<Key, Rec>, stage: Stage, snap: Snap, marked: set<Key>)
    requires CanGoThrough(s)
    ensures !ShouldAbort(Mid(s, Trying(s, expected, stage), snap, marked))
  {
  }

  /** Targets depend on the log alone. */
  lemma GoalTargets(s: State, expected: map<Key, Rec>, stage: Stage, snap: Snap)
    requires CanGoThrough(s)
    ensures var m := Mid(s, Trying(s, expected, stage), snap, {});
            && Targets(m, m.process.first, Goal(s)).Keys == Dropped(s)
            && forall k :: k in Dropped(s) ==> Targets(m, m.process.first, Goal(s))[k] == Latest(s.log, k)
  {
  }

  /** The attempt begins and comes to its checks. */
  lemma ComesToChecks(kinds: Kinds, steps: seq<Step>, s: State) returns (longer: seq<Step>, todo: map<Key, Outcome>)
    requires Run(kinds, steps) == s && CanGoThrough(s)
    ensures steps <= longer && Run(kinds, longer) == Mid(s, Trying(s, map[], Verifying(todo)), s.snap, {})
    ensures todo.Keys == Dropped(s) && Due(s, todo) && Found(s, map[])
  {
    hide Run, Targets, ShouldAbort, Latest, LastTerm;
    MarkNone(s.keys);
    var flushing := Mid(s, Trying(s, map[], Flushing), s.snap, {});
    NeverAborts(s, map[], Flushing, s.snap, {});
    GoalTargets(s, map[], Flushing, s.snap);
    todo := Targets(flushing, s.process.first, Goal(s));
    longer := Extend(kinds, steps, Compaction(Begin), flushing);
    longer := Extend(kinds, longer, Compaction(Flushed), Mid(s, Trying(s, map[], Verifying(todo)), s.snap, {}));
  }

  /** What the checks found so far. */
  predicate Found(s: State, expected: map<Key, Rec>) {
    forall k :: k in expected ==> At(s, k).side == Some(expected[k])
  }

  /** What is still to be checked. */
  predicate Due(s: State, todo: map<Key, Outcome>)
    requires s.process.Up?
  {
    todo.Keys <= Dropped(s) && forall k :: k in todo ==> 0 < LastTerm(s.log, k) && todo[k] == Latest(s.log, k)
  }

  lemma {:induction false} ChecksPass(kinds: Kinds, steps: seq<Step>, s: State, expected: map<Key, Rec>,
                                      todo: map<Key, Outcome>)
    returns (longer: seq<Step>, all: map<Key, Rec>)
    requires s.process.Up? && CanGoThrough(s) && Found(s, expected) && Due(s, todo)
    requires Run(kinds, steps) == Mid(s, Trying(s, expected, Verifying(todo)), s.snap, {})
    ensures steps <= longer && Run(kinds, longer) == Mid(s, Trying(s, all, Verifying(map[])), s.snap, {})
    ensures all.Keys == expected.Keys + todo.Keys && Found(s, all)
    decreases |todo|
  {
    hide Run, Found, Due, Mid, Trying, CanCompact, ApplyCompaction, CanGoThrough, At;
    if todo == map[] {
      longer, all := steps, expected;
    } else {
      var k :| k in todo;
      CheckPasses(s, expected, todo, k);
      OneChecked(s, expected, todo, k);
      var rest, found := todo - {k}, expected[k := At(s, k).side.value];
      longer := Extend(kinds, steps, Compaction(Verify(k, true)),
                       Mid(s, Trying(s, found, Verifying(rest)), s.snap, {}));
      longer, all := ChecksPass(kinds, longer, s, found, rest);
    }
  }

  lemma OneChecked(s: State, expected: map<Key, Rec>, todo: map<Key, Outcome>, k: Key)
    requires s.process.Up? && k in todo && Found(s, expected) && Due(s, todo) && At(s, k).side.Some?
    ensures var found := expected[k := At(s, k).side.value];
            && Found(s, found) && Due(s, todo - {k}) && |todo - {k}| < |todo|
            && found.Keys + (todo - {k}).Keys == expected.Keys + todo.Keys
  {
    FewerLeft(todo, k);
    KeysMove(expected, todo, k, At(s, k).side.value);
    DueLess(s, todo, k);
    hide Latest, LastTerm, Dropped, Due;
  }

  lemma DueLess(s: State, todo: map<Key, Outcome>, k: Key)
    requires s.process.Up? && Due(s, todo)
    ensures Due(s, todo - {k})
  {
    hide Latest, LastTerm, Dropped;
    var rest := todo - {k};
    assert forall j :: j in rest ==> j in todo && rest[j] == todo[j];
  }

  lemma KeysMove(expected: map<Key, Rec>, todo: map<Key, Outcome>, k: Key, rec: Rec)
    requires k in todo
    ensures expected[k := rec].Keys + (todo - {k}).Keys == expected.Keys + todo.Keys
  {
  }

  lemma CheckPasses(s: State, expected: map<Key, Rec>, todo: map<Key, Outcome>, k: Key)
    requires CanGoThrough(s) && k in todo && Due(s, todo)
    ensures At(s, k).side.Some?
    ensures var m := Mid(s, Trying(s, expected, Verifying(todo)), s.snap, {});
            var found := expected[k := At(s, k).side.value];
            && CanCompact(m, Verify(k, true))
            && ApplyCompaction(m, Verify(k, true)) == Mid(s, Trying(s, found, Verifying(todo - {k})), s.snap, {})
  {
    hide ShouldAbort, Latest, LastTerm, CleanThrough;
    NeverAborts(s, expected, Verifying(todo), s.snap, {});
    MarkNone(s.keys);
    AgreesIff(At(s, k).side, todo[k]);
    hide Agrees;
  }

  lemma FewerLeft(todo: map<Key, Outcome>, k: Key)
    requires k in todo
    ensures |todo - {k}| < |todo|
  {
    assert todo.Keys == (todo - {k}).Keys + {k};
    assert |todo| == |todo.Keys| && |todo - {k}| == |(todo - {k}).Keys|;
  }

  /** The snapshot the attempt writes, with some of the keys completed. */
  function Written(s: State, done: set<Key>): Snap {
    Snap(Goal(s), OpenSet(s.log[..Goal(s)]), done)
  }

  /** Keys the snapshot may list as completed: those of the last one and those that ended since. */
  function Completed(s: State): set<Key>
    requires s.process.Up?
  {
    s.snap.done + TerminalKeys(EventsSince(s, s.process.first, s.snap.covered, Goal(s)))
  }

  lemma OpenAtGoal(s: State, expected: map<Key, Rec>)
    requires Inv(s) && CanGoThrough(s)
    ensures var m := Mid(s, Trying(s, expected, Snapshotting), s.snap, {});
            NextOpen(m) == OpenSet(s.log[..Goal(s)])
            && EventsSince(m, m.process.first, m.snap.covered, Goal(s))
               == EventsSince(s, s.process.first, s.snap.covered, Goal(s))
  {
    EventsSinceIs(s, Goal(s));
    hide Inv, FoldOpen, OpenSet, CleanThrough;
  }

  lemma WritesSnapshot(kinds: Kinds, steps: seq<Step>, s: State, expected: map<Key, Rec>, done: set<Key>)
    returns (longer: seq<Step>)
    requires Inv(s) && CanGoThrough(s) && done <= Completed(s)
    requires Run(kinds, steps) == Mid(s, Trying(s, expected, Verifying(map[])), s.snap, {})
    ensures steps <= longer
    ensures Run(kinds, longer)
         == Mid(s, Trying(s, expected, Marking(expected.Keys, {}, 0, false)), Written(s, done), {})
  {
    hide Run, ShouldAbort, Inv, EventsSince, OpenSet, TerminalKeys, FoldOpen, CleanThrough;
    var next := Written(s, done);
    NeverAborts(s, expected, Verifying(map[]), s.snap, {});
    NeverAborts(s, expected, SnapReady(next), s.snap, {});
    NeverAborts(s, expected, SnapWritten, next, {});
    OpenAtGoal(s, expected);
    longer := Extend(kinds, steps, Compaction(Verified), Mid(s, Trying(s, expected, Snapshotting), s.snap, {}));
    longer := Extend(kinds, longer, Compaction(TakeSnapshot(true, done)),
                     Mid(s, Trying(s, expected, SnapReady(next)), s.snap, {}));
    longer := Extend(kinds, longer, Compaction(GuardSnapshot),
                     Mid(s, Trying(s, expected, SnapRenaming(next)), s.snap, {}));
    longer := Extend(kinds, longer, Compaction(SnapshotRenamed(true)),
                     Mid(s, Trying(s, expected, SnapWritten), next, {}));
    longer := Extend(kinds, longer, Compaction(AfterSnapshot),
                     Mid(s, Trying(s, expected, Marking(expected.Keys, {}, 0, false)), next, {}));
  }

  // ---- Markers ----

  /** Some keys marked, and others at their publications. */
  function Keyed(keys: map<Key, KeyState>, marked: set<Key>, waiting: set<Key>, expected: map<Key, Rec>):
    map<Key, KeyState>
  {
    map k | k in keys :: if k in marked then keys[k].(side := Some(Marker))
                         else if k in waiting && k in expected then keys[k].(ops := [Replace(expected[k])])
                         else keys[k]
  }

  /** The middle of a batch. */
  function Busy(s: State, expected: map<Key, Rec>, left: set<Key>, room: nat, snap: Snap, marked: set<Key>,
                waiting: set<Key>): State
    requires s.process.Up?
  {
    Mid(s, Trying(s, expected, Marking(left, waiting, room, false)), snap, {})
      .(keys := Keyed(s.keys, marked, waiting, expected))
  }

  /** The key is known, and nothing is queued for it. */
  predicate Ready(s: State, k: Key, rec: Rec) {
    k in s.keys && s.keys[k].ops == [] && s.keys[k].head.Waiting? && s.keys[k].side == Some(rec)
  }

  lemma ReadyKnown(s: State, k: Key, rec: Rec)
    requires Ready(s, k, rec)
    ensures k in s.keys
  {
  }

  lemma NothingWaits(s: State, expected: map<Key, Rec>, left: set<Key>, snap: Snap, marked: set<Key>)
    requires s.process.Up?
    ensures Busy(s, expected, left, 0, snap, marked, {})
         == Mid(s, Trying(s, expected, Marking(left, {}, 0, false)), snap, marked)
  {
  }

  lemma BatchStarts(s: State, expected: map<Key, Rec>, snap: Snap, marked: set<Key>, left: set<Key>)
    requires CanGoThrough(s)
    ensures var m := Mid(s, Trying(s, expected, Marking(left, {}, 0, false)), snap, marked);
            && CanCompact(m, StartBatch)
            && ApplyCompaction(m, StartBatch)
               == if left == {} then Mid(s, Trying(s, expected, Compacting), snap, marked)
                  else Busy(s, expected, left, MARKER_BATCH, snap, marked, {})
  {
    NothingWaits(s, expected, left, snap, marked);
    hide ShouldAbort, MarkAll, Keyed;
    NeverAborts(s, expected, Marking(left, {}, 0, false), snap, marked);
    hide CanGoThrough;
  }

  lemma MarkerQueued(s: State, expected: map<Key, Rec>, left: set<Key>, room: nat, snap: Snap, marked: set<Key>,
                     waiting: set<Key>, k: Key)
    requires s.process.Up? && room > 0 && k in expected && k in left && k !in marked && k !in waiting
    requires Ready(s, k, expected[k])
    ensures var b := Busy(s, expected, left, room, snap, marked, waiting);
            && CanCompact(b, EnqueueMarker(k))
            && ApplyCompaction(b, EnqueueMarker(k))
               == Busy(s, expected, left - {k}, room - 1, snap, marked, waiting + {k})
  {
    assert At(Busy(s, expected, left, room, snap, marked, waiting), k) == s.keys[k];
    assert [] + [Replace(expected[k])] == [Replace(expected[k])];
    assert Keyed(s.keys, marked, waiting, expected)[k := s.keys[k].(ops := [Replace(expected[k])])]
        == Keyed(s.keys, marked, waiting + {k}, expected);
    hide Keyed;
  }

  lemma BatchEnds(s: State, expected: map<Key, Rec>, room: nat, snap: Snap, marked: set<Key>, waiting: set<Key>)
    requires s.process.Up? && room > 0
    ensures var b := Busy(s, expected, {}, room, snap, marked, waiting);
            && CanCompact(b, BatchDone)
            && ApplyCompaction(b, BatchDone) == Busy(s, expected, {}, 0, snap, marked, waiting)
  {
    hide Keyed;
  }

  /** The marker of one key at its publication. */
  function Published(s: State, expected: map<Key, Rec>, left: set<Key>, snap: Snap, marked: set<Key>,
                     waiting: set<Key>, k: Key): State
    requires s.process.Up? && k in s.keys && k in expected
  {
    Put(Busy(s, expected, left, 0, snap, marked, waiting), k,
        s.keys[k].(ops := [Replace(expected[k])], side := Some(Marker), head := Progress.Published))
  }

  lemma MarkerPublished(s: State, expected: map<Key, Rec>, left: set<Key>, snap: Snap, marked: set<Key>,
                        waiting: set<Key>, k: Key)
    requires s.process.Up? && k in expected && k in waiting && k !in marked && Ready(s, k, expected[k])
    ensures var b := Busy(s, expected, left, 0, snap, marked, waiting);
            && CanQueue(b, Publish(k))
            && ApplyQueue(b, Publish(k)) == Published(s, expected, left, snap, marked, waiting, k)
  {
    assert At(Busy(s, expected, left, 0, snap, marked, waiting), k)
        == s.keys[k].(ops := [Replace(expected[k])]);
    hide Busy;
  }

  lemma MarkerReported(s: State, expected: map<Key, Rec>, left: set<Key>, snap: Snap, marked: set<Key>,
                       waiting: set<Key>, k: Key)
    requires s.process.Up? && k in expected && k in waiting && k !in marked && Ready(s, k, expected[k])
    ensures var b := Published(s, expected, left, snap, marked, waiting, k);
            && CanQueue(b, Finish(k, true))
            && ApplyQueue(b, Finish(k, true))
               == Busy(s, expected, left, 0, snap, marked + {k}, waiting - {k})
  {
    var x := s.keys[k].(ops := [Replace(expected[k])], side := Some(Marker), head := Progress.Published);
    assert [Replace(expected[k])][1..] == [];
    assert Dequeue(x) == s.keys[k].(side := Some(Marker));
    assert Keyed(s.keys, marked, waiting, expected)[k := x][k := Dequeue(x)]
        == Keyed(s.keys, marked + {k}, waiting - {k}, expected);
    hide Keyed;
  }

  /** The next markers are queued, as many as a batch takes. */
  lemma {:induction false} QueuesBatch(kinds: Kinds, steps: seq<Step>, s: State, expected: map<Key, Rec>,
                                       left: set<Key>, room: nat, snap: Snap, marked: set<Key>, waiting: set<Key>)
    returns (longer: seq<Step>, batch: set<Key>)
    requires s.process.Up? && marked !! left && waiting !! left
    requires forall k :: k in left ==> k in expected && Ready(s, k, expected[k])
    requires Run(kinds, steps) == Busy(s, expected, left, room, snap, marked, waiting)
    ensures steps <= longer && batch <= left && (room > 0 && left != {} ==> batch != {})
    ensures Run(kinds, longer) == Busy(s, expected, left - batch, 0, snap, marked, waiting + batch)
    decreases room
  {
    hide Run, Busy, Ready, CanCompact, ApplyCompaction;
    if room == 0 {
      longer, batch := steps, {};
      assert left - batch == left && waiting + batch == waiting;
    } else if left == {} {
      BatchEnds(s, expected, room, snap, marked, waiting);
      longer := Extend(kinds, steps, Compaction(BatchDone), Busy(s, expected, {}, 0, snap, marked, waiting));
      batch := {};
      assert left - batch == {} && waiting + batch == waiting;
    } else {
      var k :| k in left;
      MarkerQueued(s, expected, left, room, snap, marked, waiting, k);
      longer := Extend(kinds, steps, Compaction(EnqueueMarker(k)),
                       Busy(s, expected, left - {k}, room - 1, snap, marked, waiting + {k}));
      var rest;
      longer, rest := QueuesBatch(kinds, longer, s, expected, left - {k}, room - 1, snap, marked, waiting + {k});
      batch := rest + {k};
      assert left - {k} - rest == left - batch && waiting + {k} + rest == waiting + batch;
    }
  }

  /** They are published and reported. */
  lemma {:induction false} PublishesBatch(kinds: Kinds, steps: seq<Step>, s: State, expected: map<Key, Rec>,
                                          left: set<Key>, snap: Snap, marked: set<Key>, waiting: set<Key>)
    returns (longer: seq<Step>)
    requires s.process.Up? && marked !! waiting
    requires forall k :: k in waiting ==> k in expected && Ready(s, k, expected[k])
    requires Run(kinds, steps) == Busy(s, expected, left, 0, snap, marked, waiting)
    ensures steps <= longer && Run(kinds, longer) == Busy(s, expected, left, 0, snap, marked + waiting, {})
    decreases |waiting|
  {
    hide Run, Busy, Ready, CanQueue, ApplyQueue, Published;
    if waiting == {} {
      longer := steps;
      assert marked + waiting == marked;
    } else {
      var k :| k in waiting;
      ReadyKnown(s, k, expected[k]);
      MarkerPublished(s, expected, left, snap, marked, waiting, k);
      MarkerReported(s, expected, left, snap, marked, waiting, k);
      longer := Extend(kinds, steps, Queue(Publish(k)), Published(s, expected, left, snap, marked, waiting, k));
      longer := Extend(kinds, longer, Queue(Finish(k, true)),
                       Busy(s, expected, left, 0, snap, marked + {k}, waiting - {k}));
      longer := PublishesBatch(kinds, longer, s, expected, left, snap, marked + {k}, waiting - {k});
      assert marked + {k} + (waiting - {k}) == marked + waiting;
    }
  }

  /** Batch by batch every verified key gets its marker. */
  lemma {:induction false} MarksAll(kinds: Kinds, steps: seq<Step>, s: State, expected: map<Key, Rec>, snap: Snap,
                                    marked: set<Key>, left: set<Key>)
    returns (longer: seq<Step>)
    requires CanGoThrough(s) && s.process.Up? && marked !! left
    requires forall k :: k in left ==> k in expected && Ready(s, k, expected[k])
    requires Run(kinds, steps) == Mid(s, Trying(s, expected, Marking(left, {}, 0, false)), snap, marked)
    ensures steps <= longer
    ensures Run(kinds, longer) == Mid(s, Trying(s, expected, Marking({}, {}, 0, false)), snap, marked + left)
    decreases |left|
  {
    hide Run, CanGoThrough, Mid, Busy, Trying, Ready, CanCompact, ApplyCompaction;
    if left == {} {
      longer := steps;
      assert marked + left == marked;
    } else {
      BatchStarts(s, expected, snap, marked, left);
      longer := Extend(kinds, steps, Compaction(StartBatch),
                       Busy(s, expected, left, MARKER_BATCH, snap, marked, {}));
      var batch;
      longer, batch := QueuesBatch(kinds, longer, s, expected, left, MARKER_BATCH, snap, marked, {});
      assert {} + batch == batch;
      longer := PublishesBatch(kinds, longer, s, expected, left - batch, snap, marked, batch);
      NothingWaits(s, expected, left - batch, snap, marked + batch);
      Shrinks(left, batch);
      longer := MarksAll(kinds, longer, s, expected, snap, marked + batch, left - batch);
      assert marked + batch + (left - batch) == marked + left;
    }
  }

  lemma Shrinks(left: set<Key>, batch: set<Key>)
    requires batch <= left && batch != {}
    ensures |left - batch| < |left|
  {
    assert left == (left - batch) + batch;
    assert |batch| > 0;
  }

  /** The journal is rewritten, and the attempt over. */
  lemma Rewrites(kinds: Kinds, steps: seq<Step>, s: State, expected: map<Key, Rec>, snap: Snap, marked: set<Key>)
    returns (longer: seq<Step>)
    requires CanGoThrough(s) && s.process.Up?
    requires Run(kinds, steps) == Mid(s, Trying(s, expected, Marking({}, {}, 0, false)), snap, marked)
    ensures steps <= longer
    ensures Run(kinds, longer)
         == s.(snap := snap, reach := Goal(s), diskFirst := Goal(s) + 1, keys := MarkAll(s.keys, marked),
               process := s.process.(first := Goal(s) + 1))
  {
    BatchStarts(s, expected, snap, marked, {});
    RewriteSteps(s, expected, snap, marked);
    hide Run, Mid, Trying, CanCompact, ApplyCompaction, CanGoThrough, MarkAll;
    longer := Extend(kinds, steps, Compaction(StartBatch), Mid(s, Trying(s, expected, Compacting), snap, marked));
    longer := Extend(kinds, longer, Compaction(GuardCompact),
                     Mid(s, Trying(s, expected, CompactRenaming), snap, marked));
    longer := Extend(kinds, longer, Compaction(CompactRenamed(true)),
                     s.(snap := snap, reach := Goal(s), diskFirst := Goal(s) + 1, keys := MarkAll(s.keys, marked),
                        process := s.process.(first := Goal(s) + 1)));
  }

  lemma RewriteSteps(s: State, expected: map<Key, Rec>, snap: Snap, marked: set<Key>)
    requires CanGoThrough(s)
    ensures var m := Mid(s, Trying(s, expected, Compacting), snap, marked);
            var renaming := Mid(s, Trying(s, expected, CompactRenaming), snap, marked);
            && CanCompact(m, GuardCompact) && ApplyCompaction(m, GuardCompact) == renaming
            && CanCompact(renaming, CompactRenamed(true))
            && ApplyCompaction(renaming, CompactRenamed(true))
               == s.(snap := snap, reach := Goal(s), diskFirst := Goal(s) + 1, keys := MarkAll(s.keys, marked),
                     process := s.process.(first := Goal(s) + 1))
  {
    NeverAborts(s, expected, Compacting, snap, marked);
    hide MarkAll, ShouldAbort, CleanThrough;
  }

  lemma AllReady(s: State, expected: map<Key, Rec>)
    requires Inv(s) && CanGoThrough(s) && Found(s, expected) && expected.Keys == Dropped(s)
    ensures forall k :: k in expected ==> Ready(s, k, expected[k])
  {
    hide DiskInv, StartupInv, AttemptInv, TornInv, LastTerm, Latest, CleanThrough, OpenSet;
    forall k | k in expected ensures Ready(s, k, expected[k]) {
      assert KeyInv(s, k);
      assert k in Dropped(s) && Agrees(At(s, k).side, Latest(s.log, k));
    }
  }

  /**
   * What a compaction is for: the journal on disk and in memory starts past the
   * target, the snapshot covers it and lists exactly the commands open there,
   * each outcome that lost its event has its marker, and nothing else changed.
   */
  ghost predicate GoneThrough(s: State, s': State)
    requires s.process.Up?
  {
    var target := |s.log| - RETAINED_EVENTS;
    && IsServing(s') && s'.process.attempt.None? && s'.log == s.log && 0 <= target
    && s'.snap.covered == s'.diskFirst - 1 == s'.process.first - 1 == target
    && s'.snap.open == OpenSet(s.log[..target])
    && (forall k :: k in Dropped(s) ==> At(s', k) == At(s, k).(side := Some(Marker)))
    && (forall k :: k !in Dropped(s) ==> At(s', k) == At(s, k))
  }

  /** From every state a run comes to in which a compaction can go through, steps follow that take it through. */
  lemma CompactionGoesThrough(kinds: Kinds, steps: seq<Step>, done: set<Key>) returns (longer: seq<Step>)
    requires CanGoThrough(Run(kinds, steps)) && done <= Completed(Run(kinds, steps))
    ensures steps <= longer
    ensures GoneThrough(Run(kinds, steps), Run(kinds, longer)) && Run(kinds, longer).snap.done == done
  {
    var s := Run(kinds, steps);
    RunInv(kinds, steps);
    hide Run, Inv, GoneThrough, Dropped, Found, Due, Completed, Mid, Trying, Written;
    var todo, expected;
    longer, todo := ComesToChecks(kinds, steps, s);
    longer, expected := ChecksPass(kinds, longer, s, map[], todo);
    longer := WritesSnapshot(kinds, longer, s, expected, done);
    AllReady(s, expected);
    longer := MarksAll(kinds, longer, s, expected, Written(s, done), {}, expected.Keys);
    assert {} + expected.Keys == Dropped(s);
    longer := Rewrites(kinds, longer, s, expected, Written(s, done), Dropped(s));
    IsThrough(s, done);
  }

  lemma IsThrough(s: State, done: set<Key>)
    requires Inv(s) && CanGoThrough(s)
    ensures var s' := s.(snap := Written(s, done), reach := Goal(s), diskFirst := Goal(s) + 1,
                         keys := MarkAll(s.keys, Dropped(s)), process := s.process.(first := Goal(s) + 1));
            GoneThrough(s, s') && s'.snap.done == done
  {
    DroppedKnown(s);
    hide Inv, OpenSet, Dropped, CleanThrough;
  }

  lemma DroppedKnown(s: State)
    requires CanGoThrough(s)
    ensures forall k :: k in Dropped(s) ==> k in s.keys
  {
    hide LastTerm, Latest, OpenSet, CleanThrough;
  }
}
