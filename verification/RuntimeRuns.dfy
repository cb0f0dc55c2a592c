/**
 * Runs worth knowing: how often a handler can run at worst, outcomes that never
 * became durable, and exactly when a dead process can be started again.
 */
module RuntimeRuns {
  import opened ControlEvents
  import opened RuntimeLog
  import opened RuntimeModel
  import opened RuntimeInvariant
  import opened RuntimeSteps
  import opened Runtime

  /** A serving process that has seen one key, with the journal and snapshot of `b`. */
  function Solo(b: State, log: seq<Ev>, k: Key, x: KeyState): State {
    b.(log := log, keys := map[k := x])
  }

  /** Nothing is being compacted or may be adopted, and no key is remembered as completed. */
  predicate Quiet(b: State) {
    IsServing(b) && b.process.attempt.None? && b.process.legacy == {} && b.torn.None?
  }

  /** A process that started without a journal. */
  function Fresh(kinds: Kinds): State {
    State(kinds, [], 1, None, Snap(0, {}, {}), 0, Up(Phase.Serving, 1, {}, None), map[])
  }

  lemma Extend(kinds: Kinds, steps: seq<Step>, step: Step, s': State) returns (longer: seq<Step>)
    requires Enabled(Run(kinds, steps), step) && Apply(Run(kinds, steps), step) == s'
    ensures Run(kinds, longer) == s' && longer == steps + [step]
  {
    hide Apply, Enabled;
    longer := steps + [step];
    assert longer[..|longer| - 1] == steps;
  }

  lemma PutSolo(b: State, log: seq<Ev>, k: Key, x: KeyState, x': KeyState)
    ensures Put(Solo(b, log, k, x), k, x') == Solo(b, log, k, x')
    ensures At(Solo(b, log, k, x), k) == x
  {
  }

  /** One command step of the key. */
  lemma SoloStep(kinds: Kinds, steps: seq<Step>, b: State, log: seq<Ev>, k: Key, x: KeyState, c: CommandStep,
                 log': seq<Ev>, x': KeyState) returns (longer: seq<Step>)
    requires Run(kinds, steps) == Solo(b, log, k, x)
    requires CanCommand(Solo(b, log, k, x), c)
    requires ApplyCommand(Solo(b, log, k, x), c) == Solo(b, log', k, x')
    ensures Run(kinds, longer) == Solo(b, log', k, x')
  {
    hide Run, ApplyCommand, CanCommand, Solo;
    longer := Extend(kinds, steps, Command(c), Solo(b, log', k, x'));
  }

  /** A fresh process that has no journal starts and serves. */
  lemma Starts(kinds: Kinds, k: Key) returns (steps: seq<Step>)
    ensures Run(kinds, steps) == Solo(Fresh(kinds), [], k, UNSEEN)
  {
    NothingDone(kinds);
    StartSteps(kinds, k);
    hide Run, Enabled, Apply, Init, Solo, Fresh;
    steps := Extend(kinds, [], Life(Open), Idling(kinds, Recovering({}, {})));
    steps := Extend(kinds, steps, Life(Recovered), Idling(kinds, Restoring({}, {}, {})));
    steps := Extend(kinds, steps, Life(Restored), Idling(kinds, Phase.Serving));
    steps := Extend(kinds, steps, Command(Evict(k)), Solo(Fresh(kinds), [], k, UNSEEN));
  }

  /** A process without a journal, at a phase. */
  function Idling(kinds: Kinds, phase: Phase): State {
    Init(kinds).(process := Up(phase, 1, {}, None))
  }

  lemma NothingDone(kinds: Kinds)
    ensures Run(kinds, []) == Init(kinds)
  {
  }

  lemma StartSteps(kinds: Kinds, k: Key)
    ensures Enabled(Init(kinds), Life(Open)) && Apply(Init(kinds), Life(Open)) == Idling(kinds, Recovering({}, {}))
    ensures var s := Idling(kinds, Recovering({}, {}));
            Enabled(s, Life(Recovered)) && Apply(s, Life(Recovered)) == Idling(kinds, Restoring({}, {}, {}))
    ensures var s := Idling(kinds, Restoring({}, {}, {}));
            Enabled(s, Life(Restored)) && Apply(s, Life(Restored)) == Idling(kinds, Phase.Serving)
    ensures var s := Idling(kinds, Phase.Serving);
            Enabled(s, Command(Evict(k))) && Apply(s, Command(Evict(k))) == Solo(Fresh(kinds), [], k, UNSEEN)
  {
    var s1 := Idling(kinds, Recovering({}, {}));
    assert RecoverSet({}, Retained(Init(kinds))) == {};
    assert ToRestore(s1) == {} && ToRewrite(s1) == {};
    hide RecoverSet, ToRestore, ToRewrite, Retained;
  }

  lemma NoTerminal(log: seq<Ev>, first: nat, k: Key)
    requires LastTerm(log, k) == 0
    ensures RetainedTerminal(log, first, k) == None
  {
  }

  /** From lookup to request: the key has no outcome anywhere, so the command is admitted. */
  lemma Admits(kinds: Kinds, steps: seq<Step>, b: State, log: seq<Ev>, k: Key, id: nat, x: KeyState)
    returns (longer: seq<Step>)
    requires LastTerm(log, k) == 0 && Quiet(b)
    requires x.side.None? && x.hot.None? && x.dirty.None? && x.task.Idle?
    requires Run(kinds, steps) == Solo(b, log, k, x)
    ensures Run(kinds, longer) == Solo(b, log + [Req(k, id)], k, x.(id := id, task := Ready))
  {
    hide Run;
    var y := x.(id := id);
    NoTerminal(log, b.process.first, k);
    PutSolo(b, log, k, x, y.(task := LoadingCold));
    longer := SoloStep(kinds, steps, b, log, k, x, Submit(k, id), log, y.(task := LoadingCold));
    PutSolo(b, log, k, y.(task := LoadingCold), y.(task := Admitted));
    longer := SoloStep(kinds, longer, b, log, k, y.(task := LoadingCold), Loaded(k, true, false), log,
                       y.(task := Admitted));
    PutSolo(b, log, k, y.(task := Admitted), y.(task := Requesting));
    longer := SoloStep(kinds, longer, b, log, k, y.(task := Admitted), Reserve(k), log, y.(task := Requesting));
    PutSolo(b, log + [Req(k, id)], k, y.(task := Requesting), y.(task := Ready));
    longer := SoloStep(kinds, longer, b, log, k, y.(task := Requesting), CommandStep.Requested(k),
                       log + [Req(k, id)], y.(task := Ready));
  }

  // ---- At most once, and how far not ----

  /** The handler starts. */
  lemma StartsHandler(kinds: Kinds, steps: seq<Step>, b: State, log: seq<Ev>, k: Key, x: KeyState)
    returns (longer: seq<Step>)
    requires Quiet(b) && k !in b.kinds.surface && x.task.Ready? && Run(kinds, steps) == Solo(b, log, k, x)
    ensures Run(kinds, longer) == Solo(b, log, k, x.(task := Task.Running, runs := x.runs + 1))
  {
    hide Run;
    var y := x.(task := Task.Running, runs := x.runs + 1);
    PutSolo(b, log, k, x, y);
    longer := SoloStep(kinds, steps, b, log, k, x, Start(k), log, y);
  }

  /** The handler returns, and then the append of the terminal event is rejected. */
  lemma IsRejected(kinds: Kinds, steps: seq<Step>, b: State, log: seq<Ev>, k: Key, x: KeyState)
    returns (longer: seq<Step>)
    requires Quiet(b) && x.task.Running? && Run(kinds, steps) == Solo(b, log, k, x)
    ensures Run(kinds, longer) == Solo(b, log, k, x.(task := Idle, rejected := x.rejected + 1))
  {
    hide Run;
    var v := Final(1);
    var y := x.(task := Terminating(v));
    PutSolo(b, log, k, x, y);
    longer := SoloStep(kinds, steps, b, log, k, x, Decide(k, v), log, y);
    PutSolo(b, log, k, y, x.(task := Idle, rejected := x.rejected + 1));
    longer := SoloStep(kinds, longer, b, log, k, y, AppendRejected(Term(k, x.id, v, false), None), log,
                       x.(task := Idle, rejected := x.rejected + 1));
  }

  /**
   * The command fails where nothing catches: an event of its own is rejected, as
   * that of a delegation or a takeover, and it is given up.
   */
  lemma IsGivenUp(kinds: Kinds, steps: seq<Step>, b: State, log: seq<Ev>, k: Key, x: KeyState)
    returns (longer: seq<Step>)
    requires Quiet(b) && k in b.kinds.unguarded && x.task.Running? && Run(kinds, steps) == Solo(b, log, k, x)
    ensures Run(kinds, longer) == Solo(b, log, k, x.(task := Idle, givenUp := x.givenUp + 1))
  {
    hide Run;
    var y := x.(task := Idle, givenUp := x.givenUp + 1);
    longer := SoloStep(kinds, steps, b, log, k, x, AppendRejected(Ev.Note, None), log, x);
    PutSolo(b, log, k, x, y);
    longer := SoloStep(kinds, longer, b, log, k, x, GiveUp(k), log, y);
  }

  function Reqs(k: Key, n: nat): (log: seq<Ev>)
    ensures LastTerm(log, k) == 0 && Requests(log, k) == n
  {
    if n == 0 then [] else
      var before := Reqs(k, n - 1);
      Snoc(before, Req(k, 0), k);
      before + [Req(k, 0)]
  }

  lemma ReqsStep(k: Key, n: nat)
    ensures Reqs(k, n) == if n == 0 then [] else Reqs(k, n - 1) + [Req(k, 0)]
  {
  }

  /** A key whose handler ran for every attempt that was lost. */
  function LostKey(rejected: nat, givenUp: nat): KeyState {
    UNSEEN.(runs := rejected + givenUp, rejected := rejected, givenUp := givenUp)
  }

  /** A plain command is requested, runs, and its terminal event is not committed. */
  lemma RejectedOnce(kinds: Kinds, steps: seq<Step>, log: seq<Ev>, k: Key, r: nat, g: nat) returns (longer: seq<Step>)
    requires k !in kinds.surface && LastTerm(log, k) == 0
    requires Run(kinds, steps) == Solo(Fresh(kinds), log, k, LostKey(r, g))
    ensures Run(kinds, longer) == Solo(Fresh(kinds), log + [Req(k, 0)], k, LostKey(r + 1, g))
  {
    hide Run, Solo, LastTerm;
    var b, x := Fresh(kinds), LostKey(r, g);
    longer := Admits(kinds, steps, b, log, k, 0, x);
    longer := StartsHandler(kinds, longer, b, log + [Req(k, 0)], k, x.(task := Ready));
    longer := IsRejected(kinds, longer, b, log + [Req(k, 0)], k, x.(task := Task.Running, runs := r + g + 1));
  }

  /** An unguarded one is requested, runs, and is given up. */
  lemma GivenUpOnce(kinds: Kinds, steps: seq<Step>, log: seq<Ev>, k: Key, r: nat, g: nat) returns (longer: seq<Step>)
    requires k !in kinds.surface && k in kinds.unguarded && LastTerm(log, k) == 0
    requires Run(kinds, steps) == Solo(Fresh(kinds), log, k, LostKey(r, g))
    ensures Run(kinds, longer) == Solo(Fresh(kinds), log + [Req(k, 0)], k, LostKey(r, g + 1))
  {
    hide Run, Solo, LastTerm;
    var b, x := Fresh(kinds), LostKey(r, g);
    longer := Admits(kinds, steps, b, log, k, 0, x);
    longer := StartsHandler(kinds, longer, b, log + [Req(k, 0)], k, x.(task := Ready));
    longer := IsGivenUp(kinds, longer, b, log + [Req(k, 0)], k, x.(task := Task.Running, runs := r + g + 1));
  }

  lemma NoneLost()
    ensures LostKey(0, 0) == UNSEEN
  {
  }

  lemma {:induction false} LostTimes(kinds: Kinds, k: Key, r: nat, g: nat) returns (steps: seq<Step>)
    requires k !in kinds.surface && (g > 0 ==> k in kinds.unguarded)
    ensures Run(kinds, steps) == Solo(Fresh(kinds), Reqs(k, r + g), k, LostKey(r, g))
  {
    hide Run, Solo, LostKey, Fresh, Reqs, LastTerm, Requests;
    ReqsStep(k, r + g);
    NoneLost();
    if g > 0 {
      steps := LostTimes(kinds, k, r, g - 1);
      steps := GivenUpOnce(kinds, steps, Reqs(k, r + g - 1), k, r, g - 1);
    } else if r > 0 {
      steps := LostTimes(kinds, k, r - 1, g);
      steps := RejectedOnce(kinds, steps, Reqs(k, r + g - 1), k, r - 1, g);
    } else {
      steps := Starts(kinds, k);
    }
  }

  /**
   * The bound is reached: however many terminal events of a plain command are
   * not committed and, for an unguarded one, however often it is given up before,
   * it may be requested and its handler run once more than that.
   */
  lemma BoundIsReached(kinds: Kinds, k: Key, rejections: nat, giveUps: nat) returns (steps: seq<Step>)
    requires k !in kinds.surface && (giveUps > 0 ==> k in kinds.unguarded)
    ensures Rejections(kinds, steps, k) == rejections && GiveUps(kinds, steps, k) == giveUps
    ensures At(Run(kinds, steps), k).runs == Requests(Run(kinds, steps).log, k) == rejections + giveUps + 1
  {
    hide Run, Rejections, GiveUps;
    var b, n, x := Fresh(kinds), rejections + giveUps, LostKey(rejections, giveUps);
    steps := LostTimes(kinds, k, rejections, giveUps);
    steps := Admits(kinds, steps, b, Reqs(k, n), k, 0, x);
    Snoc(Reqs(k, n), Req(k, 0), k);
    steps := StartsHandler(kinds, steps, b, Reqs(k, n) + [Req(k, 0)], k, x.(task := Ready));
    PutSolo(b, Reqs(k, n) + [Req(k, 0)], k, x.(task := Task.Running, runs := n + 1), x);
    Counted(kinds, steps, k);
  }

  /** Its handler runs at most once in every run in which at most `n` of its decided ends were not committed. */
  ghost predicate RunsOnce(kinds: Kinds, k: Key, n: nat) {
    forall steps :: Rejections(kinds, steps, k) <= n ==> At(Run(kinds, steps), k).runs <= 1
  }

  /** So a plain command does if and only if `n` is zero and the command is guarded. */
  lemma AtMostOnceIff(kinds: Kinds, k: Key, n: nat)
    requires k !in kinds.surface
    ensures RunsOnce(kinds, k, n) <==> n == 0 && k !in kinds.unguarded
  {
    hide Run, Rejections, GiveUps;
    if n == 0 && k !in kinds.unguarded {
      forall steps | Rejections(kinds, steps, k) <= n ensures At(Run(kinds, steps), k).runs <= 1 {
        AtMostOnce(kinds, steps, k);
      }
    } else if n > 0 {
      var steps := BoundIsReached(kinds, k, 1, 0);
      assert Rejections(kinds, steps, k) <= n && At(Run(kinds, steps), k).runs > 1;
    } else {
      var steps := GivenUpRunsTwice(kinds, k);
      assert Rejections(kinds, steps, k) <= n && At(Run(kinds, steps), k).runs > 1;
    }
  }

  /**
   * An unguarded command, such as a delegation whose own event is rejected, can be
   * requested and carried out twice though every terminal event was committed.
   */
  lemma GivenUpRunsTwice(kinds: Kinds, k: Key) returns (steps: seq<Step>)
    requires k in kinds.unguarded && k !in kinds.surface
    ensures Rejections(kinds, steps, k) == 0
    ensures At(Run(kinds, steps), k).runs == 2 && Requests(Run(kinds, steps).log, k) == 2
  {
    steps := BoundIsReached(kinds, k, 0, 1);
  }

  // ---- A request compacted away while its command runs ----

  /** The request and `n` events of other kinds. */
  function Notes(k: Key, n: nat): (log: seq<Ev>)
    ensures |log| == n + 1 && log[0] == Req(k, 0) && LastTerm(log, k) == 0 && LastReq(log, k) == 1
    ensures TerminalKeys(log) == {} && OpenIds(log, k) == {0} && RequestOf(log, Tx(k, 0)) == 1
  {
    if n == 0 then
      Snoc([], Req(k, 0), k);
      RequestOfSnoc([], Req(k, 0), Tx(k, 0));
      assert [] + [Req(k, 0)] == [Req(k, 0)];
      [Req(k, 0)]
    else
      var before := Notes(k, n - 1);
      Snoc(before, Ev.Note, k);
      RequestOfSnoc(before, Ev.Note, Tx(k, 0));
      before + [Ev.Note]
  }

  lemma {:induction false} NotesTaken(kinds: Kinds, steps: seq<Step>, b: State, k: Key, x: KeyState, n: nat)
    returns (longer: seq<Step>)
    requires Quiet(b) && Run(kinds, steps) == Solo(b, Notes(k, 0), k, x)
    ensures Run(kinds, longer) == Solo(b, Notes(k, n), k, x)
  {
    hide Run, Enabled, Apply, Solo, Notes;
    if n == 0 {
      longer := steps;
    } else {
      longer := NotesTaken(kinds, steps, b, k, x, n - 1);
      OneNote(b, k, x, n);
      longer := Extend(kinds, longer, Life(OtherEvent), Solo(b, Notes(k, n), k, x));
    }
  }

  lemma OneNote(b: State, k: Key, x: KeyState, n: nat)
    requires Quiet(b) && n > 0
    ensures var s := Solo(b, Notes(k, n - 1), k, x);
            Enabled(s, Life(OtherEvent)) && Apply(s, Life(OtherEvent)) == Solo(b, Notes(k, n), k, x)
  {
    NotesStep(k, n);
    hide Notes;
  }

  /** The key's command while it runs. */
  const BUSY := UNSEEN.(task := Task.Running, runs := 1)

  /** What a compaction of the request and so many other events covers. */
  const COVERED: nat := COMPACTION_TRIGGER + 1 - RETAINED_EVENTS

  /** A compaction attempt that covers the request, at a stage; nothing is dirty. */
  function Attempted(kinds: Kinds, k: Key, snap: Snap, stage: Stage): State {
    Solo(State(kinds, [], 1, None, snap, COVERED,
               Up(Phase.Serving, 1, {}, Some(Attempt(COVERED, false, map[], stage))), map[]),
         Notes(k, COMPACTION_TRIGGER), k, BUSY)
  }

  /** The process once that attempt rewrote the journal. */
  function Compacted(kinds: Kinds, k: Key): State {
    State(kinds, [], COVERED + 1, None, Snap(COVERED, {Tx(k, 0)}, {}), COVERED,
          Up(Phase.Serving, COVERED + 1, {}, None), map[])
  }

  lemma NoTargets(kinds: Kinds, k: Key, snap: Snap, stage: Stage)
    ensures Targets(Attempted(kinds, k, snap, stage), 1, COVERED) == map[]
    ensures !ShouldAbort(Attempted(kinds, k, snap, stage))
  {
  }

  /** Up to the snapshot: there is no outcome to verify. */
  lemma CompactsToSnapshot(kinds: Kinds, steps: seq<Step>, k: Key) returns (longer: seq<Step>)
    requires Run(kinds, steps) == Solo(Fresh(kinds), Notes(k, COMPACTION_TRIGGER), k, BUSY)
    ensures Run(kinds, longer) == Attempted(kinds, k, Snap(0, {}, {}), Snapshotting)
  {
    hide Run, Notes, ShouldAbort, Targets;
    var none := Snap(0, {}, {});
    NoTargets(kinds, k, none, Flushing);
    NoTargets(kinds, k, none, Verifying(map[]));
    longer := Extend(kinds, steps, Compaction(Begin), Attempted(kinds, k, none, Flushing));
    longer := Extend(kinds, longer, Compaction(Flushed), Attempted(kinds, k, none, Verifying(map[])));
    longer := Extend(kinds, longer, Compaction(Verified), Attempted(kinds, k, none, Snapshotting));
  }

  lemma NotesStep(k: Key, n: nat)
    requires n > 0
    ensures Notes(k, n) == Notes(k, n - 1) + [Ev.Note]
  {
  }

  lemma {:induction false} NotesPrefix(k: Key, n: nat, m: nat)
    requires m <= n
    ensures Notes(k, n)[..m + 1] == Notes(k, m)
  {
    hide Notes;
    if m == n {
      assert Notes(k, n)[..n + 1] == Notes(k, n);
    } else {
      NotesPrefix(k, n - 1, m);
      NotesStep(k, n);
      assert (Notes(k, n - 1) + [Ev.Note])[..m + 1] == Notes(k, n - 1)[..m + 1];
    }
  }

  lemma {:induction false} NotesOpen(k: Key, n: nat)
    ensures FoldOpen({}, Notes(k, n)) == {Tx(k, 0)}
  {
    if n == 0 {
      assert Notes(k, 0) == [] + [Req(k, 0)];
      assert FoldOpen({}, []) == {};
    } else {
      NotesOpen(k, n - 1);
      NotesStep(k, n);
      hide Notes;
      assert (Notes(k, n - 1) + [Ev.Note])[..n] == Notes(k, n - 1);
    }
  }

  lemma SnapshotOpen(kinds: Kinds, k: Key)
    ensures var s := Attempted(kinds, k, Snap(0, {}, {}), Snapshotting);
            FoldOpen(s.snap.open, EventsSince(s, s.process.first, s.snap.covered, COVERED)) == {Tx(k, 0)}
  {
    var s := Attempted(kinds, k, Snap(0, {}, {}), Snapshotting);
    NotesPrefix(k, COMPACTION_TRIGGER, COVERED - 1);
    NotesOpen(k, COVERED - 1);
    hide Notes, FoldOpen;
    assert EventsSince(s, 1, 0, COVERED) == Notes(k, COMPACTION_TRIGGER)[..COVERED];
  }

  lemma SnapshotWritten(kinds: Kinds, steps: seq<Step>, k: Key) returns (longer: seq<Step>)
    requires Run(kinds, steps) == Attempted(kinds, k, Snap(0, {}, {}), Snapshotting)
    ensures Run(kinds, longer) == Attempted(kinds, k, Snap(COVERED, {Tx(k, 0)}, {}), SnapWritten)
  {
    hide Run, Notes, ShouldAbort, EventsSince, FoldOpen, TerminalKeys;
    var none, next := Snap(0, {}, {}), Snap(COVERED, {Tx(k, 0)}, {});
    SnapshotOpen(kinds, k);
    NoTargets(kinds, k, none, SnapReady(next));
    longer := Extend(kinds, steps, Compaction(TakeSnapshot(true, {})), Attempted(kinds, k, none, SnapReady(next)));
    longer := Extend(kinds, longer, Compaction(GuardSnapshot), Attempted(kinds, k, none, SnapRenaming(next)));
    longer := Extend(kinds, longer, Compaction(SnapshotRenamed(true)), Attempted(kinds, k, next, SnapWritten));
  }

  lemma JournalRewritten(kinds: Kinds, steps: seq<Step>, k: Key) returns (longer: seq<Step>)
    requires Run(kinds, steps) == Attempted(kinds, k, Snap(COVERED, {Tx(k, 0)}, {}), SnapWritten)
    ensures Run(kinds, longer) == Solo(Compacted(kinds, k), Notes(k, COMPACTION_TRIGGER), k, BUSY)
  {
    hide Run, Notes, ShouldAbort;
    var next := Snap(COVERED, {Tx(k, 0)}, {});
    var marking := Marking({}, {}, 0, false);
    NoTargets(kinds, k, next, SnapWritten);
    NoTargets(kinds, k, next, marking);
    NoTargets(kinds, k, next, Compacting);
    var none: map<Key, Rec> := map[];
    assert none.Keys == {};
    longer := Extend(kinds, steps, Compaction(AfterSnapshot), Attempted(kinds, k, next, marking));
    longer := Extend(kinds, longer, Compaction(StartBatch), Attempted(kinds, k, next, Compacting));
    longer := Extend(kinds, longer, Compaction(GuardCompact), Attempted(kinds, k, next, CompactRenaming));
    longer := Extend(kinds, longer, Compaction(CompactRenamed(true)),
                     Solo(Compacted(kinds, k), Notes(k, COMPACTION_TRIGGER), k, BUSY));
  }

  /** A plain command runs while two thousand other events are journaled and its request is compacted away. */
  lemma CompactedWhileRunning(kinds: Kinds, k: Key) returns (steps: seq<Step>)
    requires k !in kinds.surface
    ensures Run(kinds, steps) == Solo(Compacted(kinds, k), Notes(k, COMPACTION_TRIGGER), k, BUSY)
  {
    hide Run;
    var b := Fresh(kinds);
    steps := Starts(kinds, k);
    steps := Admits(kinds, steps, b, [], k, 0, UNSEEN);
    assert [] + [Req(k, 0)] == Notes(k, 0);
    steps := StartsHandler(kinds, steps, b, Notes(k, 0), k, UNSEEN.(task := Ready));
    steps := NotesTaken(kinds, steps, b, k, BUSY, COMPACTION_TRIGGER);
    steps := CompactsToSnapshot(kinds, steps, k);
    steps := SnapshotWritten(kinds, steps, k);
    steps := JournalRewritten(kinds, steps, k);
  }

  /** That command ends, and its outcome finds no room in the dirty map or waits for its publication. */
  lemma EndsCompacted(kinds: Kinds, k: Key, v: Outcome, full: bool) returns (steps: seq<Step>)
    requires k !in kinds.surface
    ensures Run(kinds, steps) == Solo(Compacted(kinds, k), Notes(k, COMPACTION_TRIGGER) + [Term(k, 0, v, false)], k,
                                      SettledKey(UNSEEN.(runs := 1), COMPACTION_TRIGGER + 2, v, full))
  {
    hide Run, Notes;
    var b, log := Compacted(kinds, k), Notes(k, COMPACTION_TRIGGER);
    var x := BUSY.(task := Terminating(v));
    var y := SettledKey(UNSEEN.(runs := 1), COMPACTION_TRIGGER + 2, v, full);
    steps := CompactedWhileRunning(kinds, k);
    PutSolo(b, log, k, BUSY, x);
    steps := SoloStep(kinds, steps, b, log, k, BUSY, Decide(k, v), log, x);
    SettleIs(Solo(b, log, k, x), k, 0, v, full);
    var log2 := log + [Term(k, 0, v, false)];
    assert Append(Solo(b, log, k, x), Term(k, 0, v, false)) == Solo(b, log2, k, x);
    PutSolo(b, log2, k, x, y);
    assert SettledKey(x, COMPACTION_TRIGGER + 2, v, full).(task := Idle) == y;
    steps := SoloStep(kinds, steps, b, log, k, x, Terminated(k, full), log2, y);
  }

  lemma CompactedFacts(k: Key, v: Outcome)
    ensures var log := Notes(k, COMPACTION_TRIGGER) + [Term(k, 0, v, false)];
            && |log| == COMPACTION_TRIGGER + 2 == LastTerm(log, k) && RequestOf(log, Tx(k, 0)) == 1
            && OpenIds(log, k) == {} && LastOwn(log, k) == |log|
            && log[|log| - 1] == Term(k, 0, v, false)
  {
    Snoc(Notes(k, COMPACTION_TRIGGER), Term(k, 0, v, false), k);
    RequestOfSnoc(Notes(k, COMPACTION_TRIGGER), Term(k, 0, v, false), Tx(k, 0));
  }

  /**
   * A retry of a plain command can fail though nothing was rejected,
   * the sidecar can be read and the dirty map has room again: its request was
   * compacted away while it ran, its outcome found the dirty map full, and the
   * hot outcome was evicted.
   */
  lemma RetryCanFail(kinds: Kinds, k: Key, v: Outcome) returns (steps: seq<Step>)
    requires k !in kinds.surface
    ensures var s := Run(kinds, steps);
            && IsServing(s) && At(s, k).task.Idle? && LastTerm(s.log, k) > 0 && Rejections(kinds, steps, k) == 0
            && CanCommand(s, Submit(k, 0)) && Answer(s, Submit(k, 0)).None?
            && CanCommand(ApplyCommand(s, Submit(k, 0)), Loaded(k, true, false))
            && Answer(ApplyCommand(s, Submit(k, 0)), Loaded(k, true, false)).None?
  {
    hide Run, Notes, Rejections, GiveUps;
    var b, log := Compacted(kinds, k), Notes(k, COMPACTION_TRIGGER) + [Term(k, 0, v, false)];
    var x := SettledKey(UNSEEN.(runs := 1), COMPACTION_TRIGGER + 2, v, true);
    var y := UNSEEN.(runs := 1);
    steps := EndsCompacted(kinds, k, v, true);
    PutSolo(b, log, k, x, y);
    steps := SoloStep(kinds, steps, b, log, k, x, Evict(k), log, y);
    PutSolo(b, log, k, y, y);
    Counted(kinds, steps, k);
    CompactedFacts(k, v);
    hide LastTerm, LastReq;
  }

  // ---- Which dead processes can be started again ----

  /**
   * The startup check of a key can pass: the sidecar agrees, or there is none
   * and the event tells the outcome, or a pending approval is ended first.
   */
  predicate Agrees(awaits: bool, side: Option<Rec>, e: Ev, retained: bool)
    requires e.Term?
  {
    awaits ||
    match side
    case Some(Marker) => true
    case Some(Exact(w)) => w == e.value
    case None => e.recovered || retained
  }

  /** That is so for the key. */
  predicate Passes(s: State, k: Key)
    requires LastTerm(s.log, k) > 0
  {
    var e := s.log[LastTerm(s.log, k) - 1];
    Agrees(Awaits(s, k), At(s, k).side, e, k !in s.kinds.surface && RequestRetained(s.log, s.diskFirst, Tx(k, e.id)))
  }

  /** Or the restart ends one more command of the key and publishes that outcome. */
  predicate Restorable(s: State, k: Key)
    requires LastTerm(s.log, k) > 0
  {
    OpenIds(s.log, k) != {} || Passes(s, k)
  }

  /** What the startup check looks at. */
  lemma PassesSame(s: State, s': State, k: Key)
    requires s'.log == s.log && s'.kinds == s.kinds && s.diskFirst <= s'.diskFirst && At(s', k).side == At(s, k).side
    ensures LastTerm(s.log, k) > 0 ==> Restorable(s', k) ==> Restorable(s, k)
    ensures s'.diskFirst == s.diskFirst && LastTerm(s.log, k) > 0 ==>
              Passes(s', k) == Passes(s, k) && Restorable(s', k) == Restorable(s, k)
    ensures JustEnded(s', k) == JustEnded(s, k) && Awaits(s', k) == Awaits(s, k)
  {
    hide LastTerm, LastOwn, OpenIds, RequestOf;
  }

  /** Recovery wrote the latest terminal event of the key. */
  predicate JustEnded(s: State, k: Key) {
    LastTerm(s.log, k) > 0 && Latest(s.log, k) == RECOVERED
  }

  /** An event of another key is nothing to it. */
  lemma PassesOther(s: State, e: Ev, k: Key)
    requires !About(e, k)
    ensures LastTerm(s.log + [e], k) == LastTerm(s.log, k)
    ensures LastTerm(s.log, k) > 0 ==>
              Passes(Append(s, e), k) == Passes(s, k) && Restorable(Append(s, e), k) == Restorable(s, k)
    ensures JustEnded(Append(s, e), k) == JustEnded(s, k)
  {
    SnocOther(s.log, e, k);
    AwaitsOther(s, e, k);
    if LastTerm(s.log, k) > 0 {
      RequestOfSnoc(s.log, e, Tx(k, s.log[LastTerm(s.log, k) - 1].id));
      SameEvent(s.log, e, LastTerm(s.log, k));
      hide LastTerm, LastOwn, OpenIds, RequestOf, Passes, Restorable;
      PassesBy(s, Append(s, e), k);
    }
  }

  lemma PassesBy(s: State, s': State, k: Key)
    requires 0 < LastTerm(s.log, k) == LastTerm(s'.log, k) && OpenIds(s'.log, k) == OpenIds(s.log, k)
    requires s'.log[LastTerm(s.log, k) - 1] == s.log[LastTerm(s.log, k) - 1] && Awaits(s', k) == Awaits(s, k)
    requires var x := Tx(k, s.log[LastTerm(s.log, k) - 1].id); RequestOf(s'.log, x) == RequestOf(s.log, x)
    requires s'.keys == s.keys && s'.kinds == s.kinds && s'.diskFirst == s.diskFirst
    ensures Passes(s', k) == Passes(s, k) && Restorable(s', k) == Restorable(s, k)
    ensures JustEnded(s', k) == JustEnded(s, k)
  {
    hide LastTerm, LastOwn, OpenIds, RequestOf, Awaits, Agrees;
  }

  lemma SameEvent(log: seq<Ev>, e: Ev, n: nat)
    requires 0 < n <= |log|
    ensures (log + [e])[n - 1] == log[n - 1]
  {
  }

  lemma AwaitsOther(s: State, e: Ev, k: Key)
    requires !About(e, k)
    ensures Awaits(Append(s, e), k) == Awaits(s, k)
  {
    SnocOther(s.log, e, k);
    hide LastOwn;
    assert LastOwn(s.log, k) > 0 ==> (s.log + [e])[LastOwn(s.log, k) - 1] == s.log[LastOwn(s.log, k) - 1];
  }

  /**
   * The latest terminal event of a key lies above the snapshot and its startup
   * check cannot pass; no command of the key is open, and nothing is waiting to
   * publish the outcome.
   */
  predicate Blocked(s: State, k: Key) {
    var t := LastTerm(s.log, k);
    var x := At(s, k);
    && 0 < t && s.snap.covered < t && s.diskFirst <= t && !Restorable(s, k)
    && x.dirty.None? && x.ops == [] && x.task.Idle? && s.torn.None?
    && StartBlocked(s.process, t, Latest(s.log, k), k)
    && (s.process.Up? && x.side.None? && k !in s.kinds.surface ==>
          !RequestRetained(s.log, s.process.first, Tx(k, s.log[t - 1].id)))
  }

  /** No startup phase has dealt with the key, and no attempt gets past verifying it. */
  predicate StartBlocked(p: Process, t: nat, latest: Outcome, k: Key) {
    p.Up? ==>
      && p.first <= t
      && (match p.phase
          case Recovering(todo, recovered) =>
            (forall x :: x in todo ==> x.key != k) && k !in recovered && p.attempt.None?
          case Restoring(persist, rewrite, restore) => k in restore && k !in persist && k !in rewrite
          case Serving => false)
      && (p.attempt.Some? ==> StillBlocked(p.attempt.value, t, latest, k))
  }

  predicate StillBlocked(a: Attempt, t: nat, latest: Outcome, k: Key) {
    && k !in a.expected
    && match a.stage
       case Flushing => true
       case Verifying(todo) => if a.covered < t then k !in todo else k in todo && todo[k] == latest
       case _ => a.covered < t
  }

  lemma NotReopened(s: State, k: Key)
    requires Inv(s) && OpenIds(s.log, k) == {}
    ensures forall x :: x in RecoverSet(s.snap.open, Retained(s)) ==> x.key != k
  {
    hide Inv, OpenIds, RecoverSet, Retained;
    forall x | x in RecoverSet(s.snap.open, Retained(s)) ensures x.key != k {
      OpenTx(s, x);
    }
  }

  /** A step that changes nothing a blocked key depends on, but perhaps where the start has got to. */
  predicate Spares(s: State, s': State, k: Key) {
    && s'.log == s.log && s'.kinds == s.kinds && s'.torn == s.torn && s'.snap.covered < LastTerm(s.log, k)
    && s.diskFirst <= s'.diskFirst <= LastTerm(s.log, k)
    && At(s', k).side == At(s, k).side && At(s', k).dirty.None? && At(s', k).ops == [] && At(s', k).task.Idle?
    && (s'.process.Up? ==> s.process.Up? && s.process.first <= s'.process.first)
  }

  lemma BlockedFrame(s: State, s': State, k: Key)
    requires Blocked(s, k) && Spares(s, s', k) && StartBlocked(s'.process, LastTerm(s.log, k), Latest(s.log, k), k)
    ensures Blocked(s', k)
  {
    hide LastTerm, Latest, Restorable, StartBlocked, RequestOf;
    PassesSame(s, s', k);
  }

  lemma BlockedQueue(s: State, k: Key, q: QueueStep)
    requires Blocked(s, k) && CanQueue(s, q)
    ensures Blocked(ApplyQueue(s, q), k)
  {
    hide LastTerm, Restorable, Latest, RequestRetained;
    var s' := ApplyQueue(s, q);
    assert Spares(s, s', k) && StartBlocked(s'.process, LastTerm(s.log, k), Latest(s.log, k), k);
    hide Blocked;
    BlockedFrame(s, s', k);
  }

  /** The sidecar neither agrees nor is a marker. */
  lemma BlockedSide(s: State, k: Key)
    requires Blocked(s, k)
    ensures At(s, k).side != Some(Marker) && At(s, k).side != Some(Exact(Latest(s.log, k)))
  {
    hide LastTerm, OpenIds, StartBlocked, RequestRetained, Awaits;
  }

  lemma BlockedTargets(s: State, k: Key)
    requires Blocked(s, k) && Attempting(s)
    ensures var todo := Targets(s, s.process.first, TheAttempt(s).covered);
            if TheAttempt(s).covered < LastTerm(s.log, k) then k !in todo
            else k in todo && todo[k] == Latest(s.log, k)
  {
    hide LastTerm, TerminalKeys;
    TerminalKeysMember(s.log, k);
  }

  /** A snapshot about to be written covers what its attempt covers. */
  predicate SnapMatches(s: State) {
    Attempting(s) ==>
      var a := TheAttempt(s);
      && (a.stage.SnapReady? ==> a.stage.next.covered == a.covered)
      && (a.stage.SnapRenaming? ==> a.stage.next.covered == a.covered)
      && s.process.first <= a.covered
  }

  /** A compaction attempt of a blocked start. */
  lemma BlockedStill(s: State, k: Key)
    requires Blocked(s, k) && Attempting(s)
    ensures StillBlocked(TheAttempt(s), LastTerm(s.log, k), Latest(s.log, k), k) && s.process.phase.Restoring?
  {
    hide LastTerm, Latest, Restorable, RequestRetained, StillBlocked;
  }

  /** It ends, or goes on to a stage that does not get past verifying the key. */
  lemma BlockedAttempt(s: State, a: Option<Attempt>, k: Key)
    requires Blocked(s, k) && s.process.Up? && !s.process.phase.Recovering?
    requires a.Some? ==> StillBlocked(a.value, LastTerm(s.log, k), Latest(s.log, k), k)
    ensures Blocked(WithAttempt(s, a), k)
  {
    hide LastTerm, Latest, Restorable, RequestRetained, StillBlocked;
    assert Spares(s, WithAttempt(s, a), k);
    BlockedFrame(s, WithAttempt(s, a), k);
  }

  lemma BlockedVerifying(s: State, k: Key, p: CompactionStep)
    requires Blocked(s, k) && CanCompact(s, p) && (p.Flushed? || p.Verify? || p.Verified?)
    ensures Blocked(ApplyCompaction(s, p), k)
  {
    BlockedSide(s, k);
    BlockedStill(s, k);
    if p.Flushed? { BlockedTargets(s, k); }
    hide Blocked, LastTerm, Targets, ShouldAbort, Latest;
    var s' := ApplyCompaction(s, p);
    assert s' == WithAttempt(s, s'.process.attempt);
    BlockedAttempt(s, s'.process.attempt, k);
  }

  lemma BlockedBegin(s: State, k: Key)
    requires Blocked(s, k) && CanCompact(s, Begin)
    ensures Blocked(DoBegin(s), k)
  {
    hide LastTerm, Latest, Restorable, RequestRetained;
    var s' := DoBegin(s);
    assert Spares(s, s', k) && StartBlocked(s'.process, LastTerm(s.log, k), Latest(s.log, k), k);
    hide Blocked;
    BlockedFrame(s, s', k);
  }

  lemma BlockedWriting(s: State, k: Key, p: CompactionStep)
    requires Blocked(s, k) && CanCompact(s, p) && SnapMatches(s) && s.process.first <= s.diskFirst
    requires s.diskFirst <= s.snap.covered + 1 && (p.CompactRenamed? ==> s.snap.covered == TheAttempt(s).covered)
    requires !(p.Begin? || p.Flushed? || p.Verify? || p.Verified?)
    ensures Blocked(ApplyCompaction(s, p), k)
  {
    hide LastTerm, EventsSince, FoldOpen, CleanThrough, Latest, Restorable, RequestRetained;
    var s' := ApplyCompaction(s, p);
    assert Spares(s, s', k) && StartBlocked(s'.process, LastTerm(s.log, k), Latest(s.log, k), k);
    hide Blocked;
    BlockedFrame(s, s', k);
  }

  lemma BlockedCompaction(s: State, k: Key, p: CompactionStep)
    requires Inv(s) && Blocked(s, k) && CanCompact(s, p)
    ensures Blocked(ApplyCompaction(s, p), k)
  {
    CompactionFacts(s);
    hide Inv, Blocked, CanCompact, ApplyCompaction;
    if p.Begin? {
      BlockedBegin(s, k);
      BeginIs(s);
    } else if p.Flushed? || p.Verify? || p.Verified? {
      BlockedVerifying(s, k, p);
    } else {
      if p.CompactRenamed? { RenamingFacts(s, p); }
      BlockedWriting(s, k, p);
    }
  }

  lemma BeginIs(s: State)
    requires CanCompact(s, Begin)
    ensures ApplyCompaction(s, Begin) == DoBegin(s)
  {
    hide DoBegin;
  }

  lemma CompactionFacts(s: State)
    requires Inv(s)
    ensures SnapMatches(s) && 1 <= s.diskFirst <= s.snap.covered + 1
    ensures s.process.Up? ==> s.process.first <= s.diskFirst
  {
    hide KeysInv, VerifiedOk, SidesThrough, TodoOk, OpenSet, TerminalKeys, CleanThrough, Outcomes, LastTerm, LastReq;
  }

  lemma RenamingFacts(s: State, p: CompactionStep)
    requires Inv(s) && CanCompact(s, p) && p.CompactRenamed?
    ensures s.snap.covered == TheAttempt(s).covered
  {
    hide KeysInv, VerifiedOk, SidesThrough, TodoOk, OpenSet, TerminalKeys, CleanThrough, Outcomes, LastTerm, LastReq;
  }

  lemma BlockedDie(s: State, k: Key)
    requires Blocked(s, k)
    ensures Blocked(Die(s), k)
  {
    hide LastTerm, Latest, Restorable, RequestRetained, StillBlocked;
    assert Spares(s, Die(s), k);
    BlockedFrame(s, Die(s), k);
  }

  lemma BlockedAppend(s: State, e: Ev, k: Key)
    requires Blocked(s, k) && !About(e, k)
    ensures Blocked(Append(s, e), k)
  {
    PassesOther(s, e, k);
    SnocOther(s.log, e, k);
    RequestOfSnoc(s.log, e, Tx(k, s.log[LastTerm(s.log, k) - 1].id));
    hide LastTerm, LastOwn, OpenIds, RequestOf, StartBlocked, Restorable;
  }

  lemma BlockedCrash(s: State, k: Key, adopted: Option<Ev>)
    requires Blocked(s, k) && CanLive(s, Crash(adopted)) && 1 <= s.diskFirst
    ensures Blocked(ApplyLife(s, Crash(adopted)), k)
  {
    hide LastTerm, LastReq, TerminalKeys, Die, StillBlocked, Latest;
    BlockedDie(s, k);
    if adopted.Some? {
      BlockedAppend(s, adopted.value, k);
      BlockedDie(Append(s, adopted.value), k);
    }
  }

  lemma BlockedOpen(s: State, k: Key)
    requires Inv(s) && Blocked(s, k) && s.process.Down?
    ensures Blocked(DoOpen(s), k)
  {
    NotReopened(s, k);
    hide Inv, LastTerm, Latest, RecoverSet, Retained, StillBlocked;
    PassesSame(s, DoOpen(s), k);
  }

  lemma BlockedRecovering(s: State, k: Key, l: LifeStep)
    requires Blocked(s, k) && CanLive(s, l) && (l.RecoverOne? || l.Recovered?)
    ensures Blocked(ApplyLife(s, l), k)
  {
    hide LastTerm, TerminalKeys, StillBlocked, Latest, Restorable, RequestRetained, Awaits;
    match l
    case RecoverOne(x) =>
      var e := Term(x.key, x.id, RECOVERED, true);
      BlockedAppend(s, e, k);
      SnocOther(s.log, e, k);
      assert Spares(Append(s, e), DoRecoverOne(s, x), k);
      BlockedFrame(Append(s, e), DoRecoverOne(s, x), k);
    case Recovered =>
      TerminalKeysMember(s.log, k);
      BlockedAsks(s, k);
      RewriteIffAwaits(s, k);
      hide ToRewrite;
      assert Spares(s, ApplyLife(s, Recovered), k);
      BlockedFrame(s, ApplyLife(s, Recovered), k);
  }

  lemma BlockedAsks(s: State, k: Key)
    requires Blocked(s, k)
    ensures !Awaits(s, k)
  {
    hide LastTerm, Latest, OpenIds, StartBlocked, RequestRetained, Awaits;
  }

  lemma BlockedLife(s: State, k: Key, l: LifeStep)
    requires Inv(s) && Blocked(s, k) && CanLive(s, l) && 1 <= s.diskFirst
    ensures Blocked(ApplyLife(s, l), k)
  {
    hide Inv, Blocked, DoOpen, DoRecoverOne, DoPersistRecovered, DoRestoreOne, DoRewriteAppend, InFlight;
    match l
    case OtherEvent => BlockedAppend(s, Ev.Note, k);
    case Crash(adopted) => BlockedCrash(s, k, adopted);
    case Open => BlockedOpen(s, k);
    case RecoverOne(_) => BlockedRecovering(s, k, l);
    case Recovered => BlockedRecovering(s, k, l);
    case _ => BlockedRestoring(s, k, l);
  }

  lemma BlockedRestoring(s: State, k: Key, l: LifeStep)
    requires Blocked(s, k) && CanLive(s, l) && s.process.Up? && s.process.phase.Restoring?
    requires l.PersistRecovered? || l.RewriteStore? || l.RewriteAppend? || l.RestoreOne? || l.Restored?
    ensures Blocked(ApplyLife(s, l), k)
  {
    match l
    case PersistRecovered(j, full) => BlockedPersist(s, k, j, full);
    case RewriteStore(j) => BlockedRewriteStore(s, k, j);
    case RewriteAppend(j) => BlockedRewriteAppend(s, k, j);
    case RestoreOne(j, ok, full) => BlockedRestoreOne(s, k, j, ok, full);
    case Restored => hide LastTerm, Latest, Restorable, RequestRetained, StillBlocked;
    hide Blocked, DoPersistRecovered, DoRestoreOne, DoRewriteAppend;
  }

  lemma BlockedRewriteStore(s: State, k: Key, j: Key)
    requires Blocked(s, k) && CanLive(s, RewriteStore(j))
    ensures Blocked(ApplyLife(s, RewriteStore(j)), k)
  {
    hide LastTerm, Latest, Restorable, RequestRetained, StillBlocked;
    var s' := ApplyLife(s, RewriteStore(j));
    assert Spares(s, s', k);
    BlockedFrame(s, s', k);
  }

  lemma BlockedRewriteAppend(s: State, k: Key, j: Key)
    requires Blocked(s, k) && CanLive(s, RewriteAppend(j))
    ensures Blocked(DoRewriteAppend(s, j), k)
  {
    hide LastTerm, Latest, Restorable, RequestRetained, StillBlocked;
    var e := Term(j, OwnId(s.log, j), ApprovalLost, false);
    BlockedAppend(s, e, k);
    SnocOther(s.log, e, k);
    assert Spares(Append(s, e), DoRewriteAppend(s, j), k);
    BlockedFrame(Append(s, e), DoRewriteAppend(s, j), k);
  }

  lemma BlockedRestoreOne(s: State, k: Key, j: Key, ok: bool, full: bool)
    requires Blocked(s, k) && CanLive(s, RestoreOne(j, ok, full))
    ensures Blocked(DoRestoreOne(s, j, ok, full), k)
  {
    BlockedDie(s, k);
    if j == k {
      RefusedNow(s, k, ok, full);
    } else {
      hide LastTerm, Die, Restorable, Latest, RequestRetained, Reconstructible, MarkDirty, ClearDirty, StillBlocked;
      var s' := DoRestoreOne(s, j, ok, full);
      if s' != Die(s) {
        assert Spares(s, s', k) && StartBlocked(s'.process, LastTerm(s.log, k), Latest(s.log, k), k) by {
          OnRestoring(s, k, s.process.phase.(restore := s.process.phase.restore - {j}));
        }
        hide Blocked;
        BlockedFrame(s, s', k);
      }
    }
  }

  /** A start goes on without the key, and a compaction under way is given up at most. */
  lemma OnRestoring(s: State, k: Key, phase: Phase)
    requires Blocked(s, k) && s.process.Up? && s.process.phase.Restoring? && phase.Restoring?
    requires phase.persist <= s.process.phase.persist && k !in phase.rewrite && k in phase.restore
    ensures var p := s.process.(phase := phase);
            StartBlocked(p, LastTerm(s.log, k), Latest(s.log, k), k)
    ensures var s' := Invalidate(s.(process := s.process.(phase := phase)));
            StartBlocked(s'.process, LastTerm(s.log, k), Latest(s.log, k), k)
  {
    hide LastTerm, Latest, Restorable, RequestRetained;
  }

  /** The startup check of a blocked key fails. */
  lemma RefusedNow(s: State, k: Key, ok: bool, full: bool)
    requires Blocked(s, k) && CanLive(s, RestoreOne(k, ok, full))
    ensures DoRestoreOne(s, k, ok, full) == Die(s)
  {
    BlockedSide(s, k);
    hide LastTerm, Latest, Die, OpenIds, Awaits, MarkDirty, ClearDirty, StillBlocked, RequestOf;
  }

  lemma BlockedPersist(s: State, k: Key, j: Key, full: bool)
    requires Blocked(s, k) && CanLive(s, PersistRecovered(j, full))
    ensures Blocked(DoPersistRecovered(s, j, full), k)
  {
    BlockedDie(s, k);
    hide LastTerm, Die, Restorable, Latest, RequestRetained, MarkDirty, StillBlocked;
    var s' := DoPersistRecovered(s, j, full);
    if s' != Die(s) {
      assert Spares(s, s', k) && StartBlocked(s'.process, LastTerm(s.log, k), Latest(s.log, k), k) by {
        OnRestoring(s, k, s.process.phase.(persist := s.process.phase.persist - {j}));
      }
      hide Blocked;
      BlockedFrame(s, s', k);
    }
  }

  lemma BlockedCommand(s: State, k: Key, c: CommandStep)
    requires Blocked(s, k) && CanCommand(s, c)
    ensures Blocked(ApplyCommand(s, c), k)
  {
    hide LastTerm, LastOwn, StillBlocked, Latest, Restorable, RequestRetained;
    assert c.Evict?;
    var s' := ApplyCommand(s, c);
    assert Spares(s, s', k);
    hide Blocked;
    BlockedFrame(s, s', k);
  }

  lemma BlockedNext(s: State, k: Key, step: Step)
    requires Inv(s) && Blocked(s, k)
    ensures Inv(Next(s, step)) && Blocked(Next(s, step), k)
  {
    hide Inv, Blocked, ApplyCommand, ApplyQueue, ApplyCompaction, ApplyLife, CanCommand, CanQueue, CanCompact, CanLive;
    NextKeeps(s, step);
    CompactionFacts(s);
    if Enabled(s, step) {
      match step
      case Command(c) => BlockedCommand(s, k, c);
      case Queue(q) => BlockedQueue(s, k, q);
      case Compaction(p) => BlockedCompaction(s, k, p);
      case Life(l) => BlockedLife(s, k, l);
    }
  }

  /** Once blocked, no restart ever serves again. */
  lemma {:induction false} RefusedForGood(kinds: Kinds, steps: seq<Step>, more: seq<Step>, k: Key)
    requires Blocked(Run(kinds, steps), k)
    ensures Blocked(Run(kinds, steps + more), k) && !IsServing(Run(kinds, steps + more))
  {
    hide Blocked, Inv, Next, IsServing;
    if more == [] {
      assert steps + more == steps;
    } else {
      var n := |more| - 1;
      assert (steps + more)[..|steps + more| - 1] == steps + more[..n];
      RefusedForGood(kinds, steps, more[..n], k);
      RunInv(kinds, steps + more[..n]);
      BlockedNext(Run(kinds, steps + more[..n]), k, more[n]);
    }
    BlockedNotServing(Run(kinds, steps + more), k);
  }

  lemma BlockedNotServing(s: State, k: Key)
    requires Blocked(s, k)
    ensures !IsServing(s)
  {
    hide LastTerm, LastReq, Latest, StillBlocked;
  }

  // ---- Outcomes that were never published ----

  /** A plain command whose process dies between its terminal event and the publication of its outcome. */
  lemma PlainCanBlock(kinds: Kinds, k: Key, v: Outcome) returns (steps: seq<Step>)
    requires k !in kinds.surface
    ensures Rejections(kinds, steps, k) == 0 && Blocked(Run(kinds, steps), k)
    ensures forall more :: !IsServing(Run(kinds, steps + more))
  {
    hide Run, Notes, Rejections, GiveUps, IsServing;
    var x := SettledKey(UNSEEN.(runs := 1), COMPACTION_TRIGGER + 2, v, false);
    var s := Solo(Compacted(kinds, k), Notes(k, COMPACTION_TRIGGER) + [Term(k, 0, v, false)], k, x);
    steps := EndsCompacted(kinds, k, v, false);
    CompactedFacts(k, v);
    steps := Extend(kinds, steps, Life(Crash(None)), Die(s));
    Counted(kinds, steps, k);
    DeadIsBlocked(s, k);
    forall more ensures !IsServing(Run(kinds, steps + more)) {
      RefusedForGood(kinds, steps, more, k);
    }
  }

  /** What is left of the key when the process dies. */
  lemma DeadIsBlocked(s: State, k: Key)
    requires k in s.keys && 0 < LastTerm(s.log, k)
    requires s.snap.covered < LastTerm(s.log, k) && s.diskFirst <= LastTerm(s.log, k) && !Restorable(s, k)
    ensures Blocked(Die(s), k)
    ensures At(Die(s), k).rejected == At(s, k).rejected && At(Die(s), k).side == At(s, k).side
  {
    hide LastTerm, LastReq;
    assert At(Die(s), k) == Forget(At(s, k));
  }

  /** A command ends without a handler call. */
  lemma EndsFrom(kinds: Kinds, steps: seq<Step>, log: seq<Ev>, k: Key, id: nat, x: KeyState, v: Outcome)
    returns (longer: seq<Step>)
    requires LastTerm(log, k) == 0 && x.side.None? && x.hot.None? && x.dirty.None? && x.task.Idle?
    requires Run(kinds, steps) == Solo(Fresh(kinds), log, k, x)
    ensures Run(kinds, longer) == Solo(Fresh(kinds), log + [Req(k, id)] + [Term(k, id, v, false)], k,
                                       SettledKey(x.(id := id), |log| + 2, v, false))
  {
    hide Run;
    var b := Fresh(kinds);
    longer := Admits(kinds, steps, b, log, k, id, x);
    var log1 := log + [Req(k, id)];
    var y := x.(id := id, task := Ready);
    PutSolo(b, log1, k, y, y.(task := Terminating(v)));
    longer := SoloStep(kinds, longer, b, log1, k, y, Decide(k, v), log1, y.(task := Terminating(v)));
    y := y.(task := Terminating(v));
    var z := SettledKey(x.(id := id), |log| + 2, v, false);
    SettleIs(Solo(b, log1, k, y), k, id, v, false);
    var log2 := log1 + [Term(k, id, v, false)];
    assert Append(Solo(b, log1, k, y), Term(k, id, v, false)) == Solo(b, log2, k, y);
    PutSolo(b, log2, k, y, z);
    assert SettledKey(y, |log| + 2, v, false).(task := Idle) == z;
    longer := SoloStep(kinds, longer, b, log1, k, y, Terminated(k, false), log2, z);
  }

  /** A key after its command ended so. */
  lemma EndsOnce(kinds: Kinds, k: Key, v: Outcome) returns (steps: seq<Step>)
    ensures Run(kinds, steps) == Solo(Fresh(kinds), [] + [Req(k, 0)] + [Term(k, 0, v, false)], k,
                                      SettledKey(UNSEEN, 2, v, false))
  {
    hide Run;
    steps := Starts(kinds, k);
    steps := EndsFrom(kinds, steps, [], k, 0, UNSEEN, v);
  }

  /** And its outcome is published. */
  lemma PublishesFrom(kinds: Kinds, steps: seq<Step>, log: seq<Ev>, k: Key, x: KeyState, n: nat, v: Outcome)
    returns (longer: seq<Step>)
    requires x.dirty.None? && x.ops == [] && x.head.Waiting?
    requires Run(kinds, steps) == Solo(Fresh(kinds), log, k, SettledKey(x, n, v, false))
    ensures Run(kinds, longer)
         == Solo(Fresh(kinds), log, k, x.(side := Some(Exact(v)), hot := Some(Exact(v)), mine := n))
  {
    hide Run;
    var b := Fresh(kinds);
    var y := SettledKey(x, n, v, false);
    assert y.ops == [Store(n, v)] && [Store(n, v)][1..] == [];
    var z := y.(side := Some(Exact(v)), head := Published);
    PutSolo(b, log, k, y, z);
    longer := Extend(kinds, steps, Queue(Publish(k)), Solo(b, log, k, z));
    var done := x.(side := Some(Exact(v)), hot := Some(Exact(v)), mine := n);
    PutSolo(b, log, k, z, done);
    longer := Extend(kinds, longer, Queue(Finish(k, true)), Solo(b, log, k, done));
  }

  /** A surface command needs no compaction for that. */
  lemma SurfaceCanBlock(kinds: Kinds, k: Key, v: Outcome) returns (steps: seq<Step>)
    requires k in kinds.surface && !v.NeedsApproval?
    ensures Rejections(kinds, steps, k) == 0 && Blocked(Run(kinds, steps), k)
    ensures forall more :: !IsServing(Run(kinds, steps + more))
  {
    hide Run, Rejections, GiveUps, IsServing;
    steps := EndsOnce(kinds, k, v);
    var s := Solo(Fresh(kinds), [] + [Req(k, 0)] + [Term(k, 0, v, false)], k, SettledKey(UNSEEN, 2, v, false));
    Snoc([], Req(k, 0), k);
    Snoc([] + [Req(k, 0)], Term(k, 0, v, false), k);
    steps := Extend(kinds, steps, Life(Crash(None)), Die(s));
    Counted(kinds, steps, k);
    DeadIsBlocked(s, k);
    forall more ensures !IsServing(Run(kinds, steps + more)) {
      RefusedForGood(kinds, steps, more, k);
    }
  }

  /** A surface command that ended once and whose outcome was published. */
  lemma EndsPublished(kinds: Kinds, k: Key, v: Outcome) returns (steps: seq<Step>)
    ensures Run(kinds, steps) == Solo(Fresh(kinds), [] + [Req(k, 0)] + [Term(k, 0, v, false)], k,
                                      UNSEEN.(side := Some(Exact(v)), hot := Some(Exact(v)), mine := 2))
  {
    hide Run;
    steps := EndsOnce(kinds, k, v);
    steps := PublishesFrom(kinds, steps, [] + [Req(k, 0)] + [Term(k, 0, v, false)], k, UNSEEN, 2, v);
  }

  /** The surface command of an approved action ends a second time. */
  lemma EndsTwice(kinds: Kinds, k: Key, v: Outcome, w: Outcome) returns (steps: seq<Step>, x: KeyState)
    requires k in kinds.surface
    ensures x.side == Some(Exact(v))
    ensures Run(kinds, steps)
         == Solo(Fresh(kinds), [] + [Req(k, 0)] + [Term(k, 0, v, false)] + [Term(k, 0, w, false)], k, x)
  {
    hide Run;
    steps := EndsPublished(kinds, k, v);
    var b, log := Fresh(kinds), [] + [Req(k, 0)] + [Term(k, 0, v, false)];
    var log2 := log + [Term(k, 0, w, false)];
    Snoc([] + [Req(k, 0)], Term(k, 0, v, false), k);
    var y := UNSEEN.(side := Some(Exact(v)), hot := Some(Exact(v)), mine := 2);
    x := SettledKey(y, 3, w, false);
    SettleIs(Solo(b, log, k, y), k, 0, w, false);
    assert Append(Solo(b, log, k, y), Term(k, 0, w, false)) == Solo(b, log2, k, y);
    PutSolo(b, log2, k, y, x);
    hide SettledKey;
    steps := SoloStep(kinds, steps, b, log, k, y, TerminatedAgain(k, w, false), log2, x);
  }

  lemma TwiceFacts(s: State, k: Key, v: Outcome, w: Outcome)
    requires s.log == [] + [Req(k, 0)] + [Term(k, 0, v, false)] + [Term(k, 0, w, false)]
    requires k in s.keys && s.keys[k].side == Some(Exact(v)) && v != w && !w.NeedsApproval?
    ensures LastTerm(s.log, k) == 3 && !Restorable(s, k)
  {
    Snoc([], Req(k, 0), k);
    Snoc([] + [Req(k, 0)], Term(k, 0, v, false), k);
    Snoc([] + [Req(k, 0)] + [Term(k, 0, v, false)], Term(k, 0, w, false), k);
    hide LastTerm, LastReq;
  }

  /**
   * Nor does one that ends a second time, as an approved action does, and whose
   * sidecar still tells the first outcome when the process dies.
   */
  lemma DyingBeforePublicationBlocks(kinds: Kinds, k: Key, v: Outcome, w: Outcome) returns (steps: seq<Step>)
    requires k in kinds.surface && v != w && !w.NeedsApproval?
    ensures Blocked(Run(kinds, steps), k) && At(Run(kinds, steps), k).side == Some(Exact(v))
    ensures forall more :: !IsServing(Run(kinds, steps + more))
  {
    hide Run, IsServing;
    var x: KeyState;
    steps, x := EndsTwice(kinds, k, v, w);
    var s := Solo(Fresh(kinds), [] + [Req(k, 0)] + [Term(k, 0, v, false)] + [Term(k, 0, w, false)], k, x);
    TwiceFacts(s, k, v, w);
    hide LastTerm, LastReq, Blocked, Restorable;
    steps := Extend(kinds, steps, Life(Crash(None)), Die(s));
    DeadIsBlocked(s, k);
    forall more ensures !IsServing(Run(kinds, steps + more)) {
      RefusedForGood(kinds, steps, more, k);
    }
  }

  // ---- And all others can ----

  /** Every key that ended after the snapshot can pass the startup check. */
  ghost predicate Restartable(s: State) {
    forall k: Key :: LastTerm(s.log, k) > s.snap.covered ==> Restorable(s, k)
  }

  /** Nothing stands in the way of a start that is under way, and no publication waits. */
  ghost predicate Unhindered(s: State) {
    && s.process.Up? && s.process.attempt.None? && s.torn.None? && 1 <= s.process.first == s.diskFirst
    && forall k :: k in s.keys ==> s.keys[k].ops == []
  }

  /** All keys pass but those whose outcome this start has still to publish; and its lists are what they should be. */
  ghost predicate Starting(s: State) {
    && Unhindered(s)
    && match s.process.phase
       case Recovering(_, recovered) =>
         && (forall k: Key :: LastTerm(s.log, k) > s.snap.covered ==> k in recovered || Restorable(s, k))
         && (forall k :: k in recovered ==> JustEnded(s, k))
       case Restoring(persist, rewrite, restore) =>
         && (forall k: Key :: LastTerm(s.log, k) > s.snap.covered ==> k in persist || Passes(s, k))
         && (forall k :: k in persist ==> JustEnded(s, k))
         && (forall k: Key :: k in rewrite <==> Awaits(s, k))
         && (forall k :: k in restore ==> LastTerm(s.log, k) > s.snap.covered)
       case Serving => true
  }

  lemma RecoverOneStarting(s: State, x: Tx)
    requires Starting(s) && CanLive(s, RecoverOne(x))
    ensures Starting(DoRecoverOne(s, x)) && DoRecoverOne(s, x).process.phase.Recovering?
    ensures |DoRecoverOne(s, x).process.phase.todo| < |s.process.phase.todo|
  {
    hide LastTerm, LastOwn, OpenIds, Passes, Restorable, JustEnded;
    var e := Term(x.key, x.id, RECOVERED, true);
    var s1, s' := Append(s, e), DoRecoverOne(s, x);
    assert Unhindered(s');
    forall k: Key
      ensures LastTerm(s'.log, k) > s'.snap.covered ==> k in s'.process.phase.recovered || Restorable(s', k)
      ensures k in s'.process.phase.recovered ==> JustEnded(s', k)
    {
      PassesSame(s1, s', k);
      if k != x.key { PassesOther(s, e, k); } else { RecoveredJust(s, e); }
    }
  }

  lemma RecoveredJust(s: State, e: Ev)
    requires e.Term? && e.value == RECOVERED
    ensures JustEnded(Append(s, e), e.key)
  {
    Snoc(s.log, e, e.key);
  }

  lemma RunMore(kinds: Kinds, steps: seq<Step>, more: seq<Step>, step: Step)
    ensures Run(kinds, steps + (more + [step])) == Next(Run(kinds, steps + more), step)
  {
    hide Next;
    var all := steps + (more + [step]);
    assert all[..|all| - 1] == steps + more && all[|all| - 1] == step;
  }

  lemma {:induction false} RecoversAll(kinds: Kinds, steps: seq<Step>, more: seq<Step>) returns (longer: seq<Step>)
    requires Starting(Run(kinds, steps + more)) && Run(kinds, steps + more).process.phase.Recovering?
    ensures Starting(Run(kinds, steps + longer)) && Run(kinds, steps + longer).process.phase.Restoring?
    decreases |Run(kinds, steps + more).process.phase.todo|
  {
    hide Run, Starting, Inv, DoRecoverOne;
    var s := Run(kinds, steps + more);
    RunInv(kinds, steps + more);
    StartingUp(s);
    if s.process.phase.todo == {} {
      longer := more + [Life(Recovered)];
      RunMore(kinds, steps, more, Life(Recovered));
      RecoveredStarting(s);
    } else {
      var x :| x in s.process.phase.todo;
      RunMore(kinds, steps, more, Life(RecoverOne(x)));
      RecoverOneStarting(s, x);
      longer := RecoversAll(kinds, steps, more + [Life(RecoverOne(x))]);
    }
  }

  lemma StartingUp(s: State)
    requires Starting(s)
    ensures s.process.Up? && s.process.attempt.None? && CanAppend(s) && 1 <= s.process.first == s.diskFirst
  {
    hide LastTerm, Restorable, Passes, JustEnded, Awaits;
  }

  lemma RecoveredStarting(s: State)
    requires Inv(s) && Starting(s) && CanLive(s, Recovered)
    ensures Starting(ApplyLife(s, Recovered)) && ApplyLife(s, Recovered).process.phase.Restoring?
  {
    hide Inv, LastTerm, LastOwn, OpenIds, TerminalKeys, Passes, JustEnded, Awaits;
    var s' := ApplyLife(s, Recovered);
    forall k: Key
      ensures LastTerm(s.log, k) > s.snap.covered ==> k in s'.process.phase.persist || Passes(s', k)
      ensures JustEnded(s', k) == JustEnded(s, k) && (k in ToRewrite(s) <==> Awaits(s', k))
    {
      PassesSame(s, s', k);
      NoneOpen(s, k);
      RewriteIffAwaits(s, k);
    }
    assert Unhindered(s');
  }

  /** A key gets a sidecar of its latest outcome, or keeps its own; and the lists get shorter. */
  lemma StartingGoesOn(s: State, s': State, k: Key, y: KeyState)
    requires Starting(s) && s.process.phase.Restoring? && y.ops == []
    requires s'.process.Up? && s'.process.phase.Restoring?
    requires s' == s.(process := s.process.(phase := s'.process.phase), keys := s.keys[k := y])
    requires s'.process.phase.rewrite == s.process.phase.rewrite && s'.process.phase.restore <= s.process.phase.restore
    requires s.process.phase.persist - {k} <= s'.process.phase.persist <= s.process.phase.persist
    requires if k in s.process.phase.persist then y.side == Some(Exact(RECOVERED)) || k in s'.process.phase.persist
             else y.side == At(s, k).side || Awaits(s, k)
    ensures Starting(s')
  {
    hide LastTerm, LastOwn, OpenIds, Restorable, RequestRetained;
    assert Unhindered(s');
    forall j: Key
      ensures LastTerm(s.log, j) > s.snap.covered ==> j in s'.process.phase.persist || Passes(s', j)
      ensures JustEnded(s', j) == JustEnded(s, j) && Awaits(s', j) == Awaits(s, j)
    {
      if j != k { PassesSame(s, s', j); }
    }
  }

  /** What recovery wrote is published: the sidecar tells it, and the queue is empty again. */
  lemma PersistsOne(kinds: Kinds, steps: seq<Step>, more: seq<Step>, k: Key) returns (longer: seq<Step>)
    requires Starting(Run(kinds, steps + more)) && Run(kinds, steps + more).process.phase.Restoring?
    requires k in Run(kinds, steps + more).process.phase.persist
    ensures var s, s' := Run(kinds, steps + more), Run(kinds, steps + longer);
            && Starting(s') && s'.process.phase.Restoring?
            && s'.process.phase.persist == s.process.phase.persist - {k}
  {
    hide Run, Starting, Inv, LastTerm, Next;
    var s := Run(kinds, steps + more);
    StartingUp(s);
    RunInv(kinds, steps + more);
    HeadWaits(s, k);
    var s1, s2, s3 := PersistSteps(s, k);
    RunMore(kinds, steps, more, Life(PersistRecovered(k, false)));
    longer := more + [Life(PersistRecovered(k, false))];
    RunMore(kinds, steps, longer, Queue(Publish(k)));
    longer := longer + [Queue(Publish(k))];
    RunMore(kinds, steps, longer, Queue(Finish(k, true)));
    longer := longer + [Queue(Finish(k, true))];
    StartingGoesOn(s, s3, k, At(s3, k));
  }

  lemma PersistSteps(s: State, k: Key) returns (s1: State, s2: State, s3: State)
    requires Starting(s) && s.process.phase.Restoring? && k in s.process.phase.persist && At(s, k).head.Waiting?
    ensures s1 == Next(s, Life(PersistRecovered(k, false)))
    ensures s2 == Next(s1, Queue(Publish(k))) && s3 == Next(s2, Queue(Finish(k, true)))
    ensures At(s3, k).ops == [] && At(s3, k).side == Some(Exact(RECOVERED))
    ensures var phase := s.process.phase.(persist := s.process.phase.persist - {k});
            s3 == s.(process := s.process.(phase := phase), keys := s.keys[k := At(s3, k)])
  {
    hide LastTerm, Next;
    s1 := PersistTaken(s, k);
    hide Starting;
    s2, s3 := StorePublished(s1, k, LastTerm(s.log, k));
  }

  /** Recovery's outcome is queued for publication. */
  lemma PersistTaken(s: State, k: Key) returns (s1: State)
    requires Starting(s) && s.process.phase.Restoring? && k in s.process.phase.persist && At(s, k).head.Waiting?
    ensures s1 == Next(s, Life(PersistRecovered(k, false))) && s1.process.Up?
    ensures At(s1, k).ops == [Store(LastTerm(s.log, k), RECOVERED)] && At(s1, k).head.Waiting?
    ensures var phase := s.process.phase.(persist := s.process.phase.persist - {k});
            s1 == s.(process := s.process.(phase := phase), keys := s.keys[k := At(s1, k)])
  {
    NothingQueued(s, k);
    hide Starting, LastTerm, MarkDirty;
    s1 := DoPersistRecovered(s, k, false);
    assert [] + [Store(LastTerm(s.log, k), RECOVERED)] == [Store(LastTerm(s.log, k), RECOVERED)];
  }

  /** And published. */
  lemma StorePublished(s1: State, k: Key, n: nat) returns (s2: State, s3: State)
    requires s1.process.Up? && At(s1, k).ops == [Store(n, RECOVERED)] && At(s1, k).head.Waiting?
    ensures s2 == Next(s1, Queue(Publish(k))) && s3 == Next(s2, Queue(Finish(k, true)))
    ensures At(s3, k).ops == [] && At(s3, k).side == Some(Exact(RECOVERED))
    ensures s3 == s1.(keys := s1.keys[k := At(s3, k)])
  {
    hide ClearDirty, DoFinish;
    s2 := Put(s1, k, DoPublish(At(s1, k)));
    s3 := DoFinish(s2, k, true);
    FinishesStore(s2, k, n);
  }

  lemma FinishesStore(s: State, k: Key, n: nat)
    requires At(s, k).ops == [Store(n, RECOVERED)]
    ensures DoFinish(s, k, true)
         == Put(s, k, At(s, k).(ops := [], head := Waiting, dirty := ClearDirty(At(s, k).dirty, n)))
  {
    assert [Store(n, RECOVERED)][1..] == [];
  }

  lemma HeadWaits(s: State, k: Key)
    requires Inv(s) && Starting(s)
    ensures At(s, k).head.Waiting?
  {
    NothingQueued(s, k);
    AtInv(s, k);
    hide Inv, Starting, HistoryOk, EvidenceOk, TaskOk, MineOk, PhaseOk, SideOk, FactsOf;
  }

  lemma NothingQueued(s: State, k: Key)
    requires Starting(s)
    ensures At(s, k).ops == [] && s.process.attempt.None?
  {
    hide LastTerm, Restorable, Passes, JustEnded, Awaits;
  }

  lemma RewriteStoreStarting(s: State, k: Key)
    requires Starting(s) && s.process.phase.Restoring? && IsRewriting(s, k)
    ensures CanLive(s, RewriteStore(k))
    ensures var s' := ApplyLife(s, RewriteStore(k));
            Starting(s') && s'.process == s.process && At(s', k).side == Some(Exact(ApprovalLost))
  {
    NothingQueued(s, k);
    InList(s, k);
    hide Starting, LastTerm, LastOwn, Awaits;
    StartingGoesOn(s, ApplyLife(s, RewriteStore(k)), k, At(s, k).(side := Some(Exact(ApprovalLost))));
  }

  lemma InList(s: State, k: Key)
    requires Starting(s) && s.process.phase.Restoring?
    ensures k in s.process.phase.rewrite <==> Awaits(s, k)
    ensures k in s.process.phase.restore ==> LastTerm(s.log, k) > s.snap.covered
    ensures s.process.phase.persist == {} && LastTerm(s.log, k) > s.snap.covered ==> Passes(s, k)
  {
    hide Unhindered, LastTerm, LastOwn, Passes, JustEnded;
  }

  lemma RewriteAppendStarting(s: State, k: Key)
    requires Starting(s) && s.process.phase.Restoring? && CanLive(s, RewriteAppend(k)) && s.snap.covered <= |s.log|
    ensures var s' := DoRewriteAppend(s, k);
            && Starting(s') && s'.process.phase.Restoring? && s'.process.phase.persist == {}
            && |s'.process.phase.rewrite| < |s.process.phase.rewrite|
  {
    hide LastTerm, LastOwn, OpenIds, Restorable, Passes, JustEnded, Awaits;
    var e := Term(k, OwnId(s.log, k), ApprovalLost, false);
    var s1, s' := Append(s, e), DoRewriteAppend(s, k);
    assert Unhindered(s');
    forall j: Key
      ensures LastTerm(s'.log, j) > s'.snap.covered ==> Passes(s', j)
      ensures j in s'.process.phase.rewrite <==> Awaits(s', j)
      ensures j in s'.process.phase.restore ==> LastTerm(s'.log, j) > s'.snap.covered
    {
      InList(s, j);
      PassesSame(s1, s', j);
      AwaitsNext(s, e, j);
      if j != k { PassesOther(s, e, j); } else { AgreesPasses(s, e); }
    }
  }

  /** A terminal event that its sidecar agrees with. */
  lemma AgreesPasses(s: State, e: Ev)
    requires e.Term? && At(s, e.key).side == Some(Exact(e.value))
    ensures LastTerm(s.log + [e], e.key) == |s.log| + 1 && Passes(Append(s, e), e.key)
  {
    Snoc(s.log, e, e.key);
    hide LastTerm, LastOwn;
  }

  lemma RestoreStarting(s: State, k: Key)
    requires Starting(s) && s.process.phase.Restoring? && CanLive(s, RestoreOne(k, true, false))
    ensures var s' := DoRestoreOne(s, k, true, false);
            && Starting(s') && s'.process.phase.Restoring?
            && s'.process.phase.persist == s'.process.phase.rewrite == {}
            && |s'.process.phase.restore| < |s.process.phase.restore|
  {
    InList(s, k);
    StartingUp(s);
    NothingQueued(s, k);
    RestoreAccepts(s, k);
    hide Starting, LastTerm, DoRestoreOne, Passes, Awaits;
    var s' := DoRestoreOne(s, k, true, false);
    StartingGoesOn(s, s', k, At(s', k));
  }

  /** A key that passes is taken off the list. */
  lemma RestoreAccepts(s: State, k: Key)
    requires CanLive(s, RestoreOne(k, true, false)) && Passes(s, k) && !Awaits(s, k)
    requires s.process.first == s.diskFirst && s.process.attempt.None?
    ensures var s' := DoRestoreOne(s, k, true, false);
            var phase := s.process.phase.(restore := s.process.phase.restore - {k});
            && s' == s.(process := s.process.(phase := phase), keys := s.keys[k := At(s', k)])
            && At(s', k).ops == At(s, k).ops && At(s', k).side == At(s, k).side
  {
    hide LastTerm, LastOwn, RequestRetained, MarkDirty, ClearDirty, Awaits;
  }

  /** What recovery wrote is made durable, pending approvals are ended, and the other keys pass their check. */
  lemma {:induction false} RestoresAll(kinds: Kinds, steps: seq<Step>, more: seq<Step>) returns (longer: seq<Step>)
    requires Starting(Run(kinds, steps + more)) && Run(kinds, steps + more).process.phase.Restoring?
    ensures IsServing(Run(kinds, steps + longer))
    decreases |Run(kinds, steps + more).process.phase.persist|, |Run(kinds, steps + more).process.phase.rewrite|,
              |Run(kinds, steps + more).process.phase.restore|
  {
    hide Run, Starting, DoRestoreOne, DoRewriteAppend, LastTerm, Inv, Passes;
    var s := Run(kinds, steps + more);
    RunInv(kinds, steps + more);
    CompactionFacts(s);
    StartingUp(s);
    if s.process.phase.persist != {} {
      var k :| k in s.process.phase.persist;
      longer := PersistsOne(kinds, steps, more, k);
      longer := RestoresAll(kinds, steps, longer);
    } else if s.process.phase.rewrite != {} {
      var k :| k in s.process.phase.rewrite;
      longer := more + [Life(RewriteStore(k))] + [Life(RewriteAppend(k))];
      RewritesOne(kinds, steps, more, k);
      longer := RestoresAll(kinds, steps, longer);
    } else if s.process.phase.restore != {} {
      var k :| k in s.process.phase.restore;
      InList(s, k);
      RunMore(kinds, steps, more, Life(RestoreOne(k, true, false)));
      RestoreStarting(s, k);
      longer := RestoresAll(kinds, steps, more + [Life(RestoreOne(k, true, false))]);
    } else {
      longer := more + [Life(Restored)];
      RunMore(kinds, steps, more, Life(Restored));
    }
  }

  lemma RewritesOne(kinds: Kinds, steps: seq<Step>, more: seq<Step>, k: Key)
    requires Starting(Run(kinds, steps + more)) && Run(kinds, steps + more).process.phase.Restoring?
    requires IsRewriting(Run(kinds, steps + more), k)
    ensures var s := Run(kinds, steps + more);
            var s' := Run(kinds, steps + (more + [Life(RewriteStore(k))] + [Life(RewriteAppend(k))]));
            && Starting(s') && s'.process.phase.Restoring? && s'.process.phase.persist == {}
            && |s'.process.phase.rewrite| < |s.process.phase.rewrite|
  {
    hide Run, Starting, DoRewriteAppend, LastTerm, Inv;
    var s := Run(kinds, steps + more);
    RunMore(kinds, steps, more, Life(RewriteStore(k)));
    RewriteStoreStarting(s, k);
    var s1 := ApplyLife(s, RewriteStore(k));
    StartingUp(s1);
    RunInv(kinds, steps + more);
    LogBound(s);
    RunMore(kinds, steps, more + [Life(RewriteStore(k))], Life(RewriteAppend(k)));
    RewriteAppendStarting(s1, k);
  }

  lemma LogBound(s: State)
    requires Inv(s)
    ensures s.snap.covered <= |s.log|
  {
    AtInv(s, "");
  }

  lemma OpenStarting(s: State)
    requires Inv(s) && s.process.Down? && Restartable(s)
    ensures Starting(DoOpen(s)) && DoOpen(s).process.phase.Recovering?
  {
    hide OpenSet, TerminalKeys, LastTerm, LastOwn, OpenIds, Latest, RecoverSet, Retained, HistoryOk, EvidenceOk;
    hide Restorable, JustEnded;
    var s' := DoOpen(s);
    forall k | k in s'.keys ensures s'.keys[k].ops == [] {
      assert KeyInv(s, k);
    }
    assert Unhindered(s');
    hide Inv;
    forall k: Key | LastTerm(s'.log, k) > s'.snap.covered ensures Restorable(s', k) {
      PassesSame(s, s', k);
    }
  }

  /** A key that cannot pass, in a process that is down. */
  lemma UnrestorableBlocks(s: State, k: Key)
    requires Inv(s) && s.process.Down? && LastTerm(s.log, k) > s.snap.covered && !Restorable(s, k)
    ensures Blocked(s, k)
  {
    hide LastTerm, LastOwn, OpenIds, RequestOf, Requests, Outcomes, OpenSet, TerminalKeys, Restorable, AttemptInv;
    assert KeyInv(s, k);
  }

  /**
   * Exactly when a dead process can be started again, by any number of restarts:
   * every key that ended after the snapshot has a sidecar that agrees with its
   * latest terminal event, or a marker, or no sidecar and an event the outcome
   * can be told from; or it awaited an approval, or one of its commands is still
   * open, which a restart ends first.
   */
  lemma RestartServesIff(kinds: Kinds, steps: seq<Step>)
    requires Run(kinds, steps).process.Down?
    ensures (exists more :: IsServing(Run(kinds, steps + more))) <==> Restartable(Run(kinds, steps))
  {
    hide Run, Inv, IsServing, Restorable, Blocked;
    var s := Run(kinds, steps);
    RunInv(kinds, steps);
    if Restartable(s) {
      OpenStarting(s);
      assert steps + [] == steps;
      RunMore(kinds, steps, [], Life(Open));
      hide Restartable, Starting;
      var more := RecoversAll(kinds, steps, [] + [Life(Open)]);
      more := RestoresAll(kinds, steps, more);
    } else {
      var k: Key :| LastTerm(s.log, k) > s.snap.covered && !Restorable(s, k);
      UnrestorableBlocks(s, k);
      forall more ensures !IsServing(Run(kinds, steps + more)) {
        RefusedForGood(kinds, steps, more, k);
      }
    }
  }
}
