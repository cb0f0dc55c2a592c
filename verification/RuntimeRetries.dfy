/**
 * Retries and command ids: a plain key keeps its outcome while its retries
 * repeat the command id; a retry under a fresh id, after an attempt that was
 * given up, can have its outcome replaced by the next restart.
 */
module RuntimeRetries {
  import opened ControlEvents
  import opened RuntimeLog
  import opened RuntimeModel
  import opened RuntimeInvariant
  import opened RuntimeSteps
  import opened Runtime
  import opened RuntimeRuns

  // ---- The event a step appends ----

  function Appended(s: State, step: Step): Option<Ev>
    requires Enabled(s, step)
  {
    match step
    case Command(Requested(k)) => Some(Req(k, At(s, k).id))
    case Command(Terminated(k, _)) => Some(Term(k, At(s, k).id, At(s, k).task.value, false))
    case Command(TerminatedAgain(k, v, _)) => Some(Term(k, OwnId(s.log, k), v, false))
    case Life(OtherEvent) => Some(Ev.Note)
    case Life(Crash(adopted)) => adopted
    case Life(RecoverOne(x)) => Some(Term(x.key, x.id, RECOVERED, true))
    case Life(RewriteAppend(k)) => Some(Term(k, OwnId(s.log, k), ApprovalLost, false))
    case _ => None
  }

  /** Every event comes from a command that was under way, or stayed behind when its append was rejected. */
  lemma AppendedInFlight(s: State, step: Step)
    requires Enabled(s, step) && Appended(s, step).Some?
    ensures var e := Appended(s, step).value; s.process.Up? && (e.Note? || InFlight(s, e) || s.torn == Some(e))
  {
    hide LastTerm, LastOwn, LastReq;
  }

  /** What a step does to the history, to what may be adopted, and to the command of a key. */
  predicate Moves(s: State, step: Step, s': State, k: Key)
    requires Enabled(s, step)
  {
    var e, x, y := Appended(s, step), At(s, k), At(s', k);
    && s'.log == (if e.Some? then s.log + [e.value] else s.log)
    && (s'.torn.None? || s'.torn == s.torn || (s.process.Up? && InFlight(s, s'.torn.value)))
    && (y.task.Idle? || (!x.task.Idle? && y.id == x.id) || step == Command(Submit(k, y.id)))
  }

  lemma CommandMoves(s: State, c: CommandStep, k: Key)
    requires CanCommand(s, c)
    ensures Moves(s, Command(c), ApplyCommand(s, c), k)
  {
    hide LastTerm, LastOwn, LastReq, RetainedTerminal, Reconstructible, MarkDirty, ClearDirty;
    hide LoadedRetained, LoadedCold, Settle, DoSubmit;
    match c
    case Submit(j, id) => SubmitMoves(s, j, id, k);
    case Loaded(j, ok, full) => LoadedMoves(s, j, ok, full, k);
    case Terminated(j, full) => SettleMoves(s, j, At(s, j).id, At(s, j).task.value, full, k);
    case TerminatedAgain(j, v, full) => SettleMoves(s, j, OwnId(s.log, j), v, full, k);
    case _ =>
  }

  lemma SubmitMoves(s: State, j: Key, id: nat, k: Key)
    requires CanCommand(s, Submit(j, id))
    ensures var s', x, y := DoSubmit(s, j, id), At(s, k), At(DoSubmit(s, j, id), k);
            && s'.log == s.log && s'.torn == s.torn
            && (y.task.Idle? || (!x.task.Idle? && y.id == x.id) || (j == k && y.id == id))
  {
    hide LastTerm, LastReq, RetainedTerminal, Reconstructible;
  }

  lemma LoadedMoves(s: State, j: Key, ok: bool, full: bool, k: Key)
    requires CanCommand(s, Loaded(j, ok, full))
    ensures var s', x, y := ApplyCommand(s, Loaded(j, ok, full)), At(s, k), At(ApplyCommand(s, Loaded(j, ok, full)), k);
            && s'.log == s.log && s'.torn == s.torn && (y.task.Idle? || (!x.task.Idle? && y.id == x.id))
  {
    hide MarkDirty, ClearDirty;
  }

  lemma SettleMoves(s: State, j: Key, id: nat, v: Outcome, full: bool, k: Key)
    ensures var s', x, y := Settle(s, j, id, v, full), At(s, k), At(Settle(s, j, id, v, full), k);
            && s'.log == s.log + [Term(j, id, v, false)] && s'.torn.None? && y.task == x.task && y.id == x.id
    ensures var s' := EndCommand(Settle(s, j, id, v, full), j); var x, y := At(s, k), At(s', k);
            && s'.log == s.log + [Term(j, id, v, false)] && s'.torn.None?
            && (y.task.Idle? || (y.task == x.task && y.id == x.id))
  {
    hide MarkDirty;
  }

  lemma QueueMoves(s: State, q: QueueStep, k: Key)
    requires CanQueue(s, q)
    ensures Moves(s, Queue(q), ApplyQueue(s, q), k)
  {
    hide ClearDirty, InFlight;
  }

  lemma CompactionMoves(s: State, p: CompactionStep, k: Key)
    requires CanCompact(s, p)
    ensures Moves(s, Compaction(p), ApplyCompaction(s, p), k)
  {
    hide LastTerm, Targets, EventsSince, FoldOpen, CleanThrough, InFlight;
  }

  lemma LifeMoves(s: State, l: LifeStep, k: Key)
    requires CanLive(s, l)
    ensures Moves(s, Life(l), ApplyLife(s, l), k)
  {
    hide LastTerm, LastOwn, RecoverSet, ToRestore, ToRewrite, Retained;
    hide Reconstructible, MarkDirty, ClearDirty, InFlight;
  }

  lemma StepMoves(s: State, step: Step, k: Key)
    requires Enabled(s, step)
    ensures Moves(s, step, Apply(s, step), k)
  {
    hide Moves, CanCommand, CanQueue, CanCompact, CanLive, ApplyCommand, ApplyQueue, ApplyCompaction, ApplyLife;
    match step
    case Command(c) => CommandMoves(s, c, k);
    case Queue(q) => QueueMoves(s, q, k);
    case Compaction(p) => CompactionMoves(s, p, k);
    case Life(l) => LifeMoves(s, l, k);
  }

  // ---- Retries that repeat the id ----

  /** All that is known of the key is of one command, and once that ended nothing of it is open. */
  predicate OneCommand(s: State, k: Key, id: nat) {
    && OpenIds(s.log, k) <= {id} && OneAtMost(Outcomes(s.log, k))
    && (LastTerm(s.log, k) > 0 ==> OpenIds(s.log, k) == {})
    && (!At(s, k).task.Idle? ==> At(s, k).id == id)
    && (s.torn.Some? && IsReq(s.torn.value, k) ==> s.torn.value.id == id)
  }

  /** An event of the key, by what holds when it is appended. */
  lemma OneCommandAppend(log: seq<Ev>, e: Ev, k: Key, id: nat)
    requires OpenIds(log, k) <= {id} && OneAtMost(Outcomes(log, k)) && (LastTerm(log, k) > 0 ==> OpenIds(log, k) == {})
    requires IsReq(e, k) ==> LastTerm(log, k) == 0 && e.id == id
    requires IsTerm(e, k) ==> LastTerm(log, k) == 0 && e.id in OpenIds(log, k)
    ensures OpenIds(log + [e], k) <= {id} && OneAtMost(Outcomes(log + [e], k))
    ensures LastTerm(log + [e], k) > 0 ==> OpenIds(log + [e], k) == {}
  {
    Snoc(log, e, k);
    OutcomesFacts(log, k);
    hide LastTerm, OpenIds, Outcomes;
  }

  /** Not a submit of the key under another command id. */
  predicate Repeats(step: Step, k: Key, id: nat) {
    step.Command? && step.c.Submit? && step.c.k == k ==> step.c.id == id
  }

  lemma OneCommandNext(s: State, step: Step, k: Key, id: nat)
    requires Inv(s) && k !in s.kinds.surface && OneCommand(s, k, id) && Enabled(s, step)
    requires Repeats(step, k, id)
    ensures OneCommand(Apply(s, step), k, id)
  {
    hide Inv, LastTerm, OpenIds, Outcomes, OneAtMost, InFlight, Apply, Enabled;
    StepMoves(s, step, k);
    var s' := Apply(s, step);
    var e := Appended(s, step);
    if e.Some? {
      AppendedInFlight(s, step);
      if About(e.value, k) { EventOfOne(s, e.value, k, id); }
      OneCommandAppend(s.log, e.value, k, id);
    }
    if s'.torn.Some? && IsReq(s'.torn.value, k) && s'.torn != s.torn { RequestOfOne(s, s'.torn.value, k, id); }
  }

  /** A request in flight is that of the command under way. */
  lemma RequestOfOne(s: State, e: Ev, k: Key, id: nat)
    requires OneCommand(s, k, id) && s.process.Up? && InFlight(s, e) && IsReq(e, k)
    ensures e.id == id
  {
  }

  lemma EventOfOne(s: State, e: Ev, k: Key, id: nat)
    requires Inv(s) && k !in s.kinds.surface && OneCommand(s, k, id) && About(e, k)
    requires s.process.Up? && (InFlight(s, e) || s.torn == Some(e))
    ensures e.Req? ==> LastTerm(s.log, k) == 0 && e.id == id
    ensures e.Term? ==> LastTerm(s.log, k) == 0 && e.id in OpenIds(s.log, k)
  {
    AdoptedEvent(s, e, k);
    hide Inv, LastTerm, OpenIds, Outcomes, FirstTerm, LastOwn, LastReq, Requests, OneAtMost;
    if e.Req? && s.torn != Some(e) { RequestOfOne(s, e, k, id); }
  }

  /** Every submit of the key carries this command id. */
  predicate RepeatsId(steps: seq<Step>, k: Key, id: nat) {
    forall i :: 0 <= i < |steps| ==> Repeats(steps[i], k, id)
  }

  lemma {:induction false} RepeatedCommand(kinds: Kinds, steps: seq<Step>, k: Key, id: nat)
    requires k !in kinds.surface && RepeatsId(steps, k, id)
    ensures OneCommand(Run(kinds, steps), k, id)
  {
    hide Inv, OneCommand, Apply, Enabled;
    if steps == [] {
      NothingCommanded(kinds, k, id);
    } else {
      var n := |steps| - 1;
      assert forall i :: 0 <= i < n ==> steps[..n][i] == steps[i];
      assert Repeats(steps[n], k, id);
      RepeatedCommand(kinds, steps[..n], k, id);
      RunInv(kinds, steps[..n]);
      if Enabled(Run(kinds, steps[..n]), steps[n]) {
        OneCommandNext(Run(kinds, steps[..n]), steps[n], k, id);
      }
    }
  }

  lemma NothingCommanded(kinds: Kinds, k: Key, id: nat)
    ensures OneCommand(Init(kinds), k, id)
  {
  }

  /**
   * A plain key whose retries all repeat the command id keeps its outcome: in
   * every run there is at most one, whatever is rejected, given up, compacted
   * away or recovered.
   */
  lemma SameIdKeepsOutcome(kinds: Kinds, steps: seq<Step>, k: Key, id: nat)
    requires k !in kinds.surface && RepeatsId(steps, k, id)
    ensures OneAtMost(Outcomes(Run(kinds, steps).log, k))
  {
    hide Run, Outcomes, OneAtMost, OpenIds, LastTerm;
    RepeatedCommand(kinds, steps, k, id);
  }

  // ---- Retries under a fresh id ----

  /** The history of an attempt that was given up, a retry under another id, and the end of the retry. */
  function Retried(k: Key, v: Outcome): seq<Ev> {
    [Req(k, 0)] + [Req(k, 1)] + [Term(k, 1, v, false)]
  }

  /** The key after that attempt: given up before its terminal event, or with that event not committed. */
  function OneLost(gaveUp: bool): KeyState {
    if gaveUp then LostKey(0, 1) else LostKey(1, 0)
  }

  /** The first attempt. */
  lemma LosesOne(kinds: Kinds, k: Key, gaveUp: bool) returns (steps: seq<Step>)
    requires k !in kinds.surface && (gaveUp ==> k in kinds.unguarded)
    ensures Run(kinds, steps) == Solo(Fresh(kinds), [Req(k, 0)], k, OneLost(gaveUp))
  {
    hide Run, Solo, Fresh;
    NoneLost();
    assert [] + [Req(k, 0)] == [Req(k, 0)];
    steps := Starts(kinds, k);
    if gaveUp {
      steps := GivenUpOnce(kinds, steps, [], k, 0, 0);
    } else {
      steps := RejectedOnce(kinds, steps, [], k, 0, 0);
    }
  }

  /** The retry's outcome is published, and answered. */
  lemma RetryEnds(kinds: Kinds, k: Key, v: Outcome, gaveUp: bool) returns (steps: seq<Step>)
    requires k !in kinds.surface && (gaveUp ==> k in kinds.unguarded)
    ensures Run(kinds, steps)
         == Solo(Fresh(kinds), Retried(k, v), k,
                 OneLost(gaveUp).(id := 1, side := Some(Exact(v)), hot := Some(Exact(v)), mine := 3))
  {
    hide Run, Solo;
    steps := LosesOne(kinds, k, gaveUp);
    assert [] + [Req(k, 0)] == [Req(k, 0)];
    Snoc([], Req(k, 0), k);
    steps := EndsFrom(kinds, steps, [Req(k, 0)], k, 1, OneLost(gaveUp), v);
    steps := PublishesFrom(kinds, steps, Retried(k, v), k, OneLost(gaveUp).(id := 1), 3, v);
  }

  /** Dead, with the first attempt still open. */
  function DeadRetry(kinds: Kinds, k: Key, v: Outcome, gaveUp: bool): State {
    State(kinds, Retried(k, v), 1, None, Snap(0, {}, {}), 0, Down, map[k := OneLost(gaveUp).(side := Some(Exact(v)))])
  }

  lemma RetryOpen(k: Key, v: Outcome)
    ensures RecoverSet({}, Retried(k, v)) == {Tx(k, 0)}
  {
    var log := Retried(k, v);
    assert log[..2] == [Req(k, 0), Req(k, 1)] && log[..2][..1] == [Req(k, 0)] && log[..1][..0] == [];
    assert FoldOpen({}, log[..2][..1]) == {Tx(k, 0)};
    assert FoldOpen({}, log[..2]) == {Tx(k, 0), Tx(k, 1)};
    assert FoldOpen({}, log) == {Tx(k, 0)};
    TerminalTxsMember(log, Tx(k, 0));
  }

  /** The history once recovery ended the first attempt. */
  function AfterRecovery(k: Key, v: Outcome): seq<Ev> {
    Retried(k, v) + [Term(k, 0, RECOVERED, true)]
  }

  lemma EndedFacts(k: Key, v: Outcome)
    ensures LastTerm(AfterRecovery(k, v), k) == 4 && Outcomes(AfterRecovery(k, v), k) == {v, RECOVERED}
    ensures TerminalKeys(AfterRecovery(k, v)) == {k}
  {
    EndedKeys(k, v);
    hide LastTerm, Outcomes, TerminalKeys;
    assert LastTerm([], k) == 0 && Outcomes([], k) == {} by { NothingEver(k); }
    Snoc([], Req(k, 0), k);
    Snoc([Req(k, 0)], Req(k, 1), k);
    Snoc([Req(k, 0)] + [Req(k, 1)], Term(k, 1, v, false), k);
    Snoc(Retried(k, v), Term(k, 0, RECOVERED, true), k);
    assert {} + {v} + {RECOVERED} == {v, RECOVERED};
  }

  lemma NothingEver(k: Key)
    ensures LastTerm([], k) == 0 && Outcomes([], k) == {}
  {
  }

  lemma EndedKeys(k: Key, v: Outcome)
    ensures TerminalKeys(AfterRecovery(k, v)) == {k}
  {
    var log := AfterRecovery(k, v);
    assert log[3].Term? && log[3].key == k && log[3] in log;
    assert forall e :: e in log && e.Term? ==> e.key == k;
  }

  /** The restart on its way. */
  function Restarting(kinds: Kinds, k: Key, v: Outcome, phase: Phase, x: KeyState): State {
    State(kinds, AfterRecovery(k, v), 1, None, Snap(0, {}, {}), 0, Up(phase, 1, {}, None), map[k := x])
  }

  /** It opens with the first attempt to recover. */
  function Reopened(kinds: Kinds, k: Key, v: Outcome, gaveUp: bool): State {
    DeadRetry(kinds, k, v, gaveUp).(process := Up(Recovering({Tx(k, 0)}, {}), 1, {}, None))
  }

  lemma RetryReopens(kinds: Kinds, k: Key, v: Outcome, gaveUp: bool, steps: seq<Step>)
    returns (longer: seq<Step>)
    requires Run(kinds, steps)
          == Solo(Fresh(kinds), Retried(k, v), k,
                  OneLost(gaveUp).(id := 1, side := Some(Exact(v)), hot := Some(Exact(v)), mine := 3))
    ensures Run(kinds, longer) == Reopened(kinds, k, v, gaveUp) && steps <= longer
  {
    hide Run, RecoverSet;
    longer := Extend(kinds, steps, Life(Crash(None)), DeadRetry(kinds, k, v, gaveUp));
    RetryOpen(k, v);
    assert Retained(DeadRetry(kinds, k, v, gaveUp)) == Retried(k, v);
    longer := Extend(kinds, longer, Life(Open), Reopened(kinds, k, v, gaveUp));
  }

  lemma RetryRecovers(kinds: Kinds, k: Key, v: Outcome, gaveUp: bool, steps: seq<Step>)
    returns (longer: seq<Step>)
    requires k !in kinds.surface && Run(kinds, steps) == Reopened(kinds, k, v, gaveUp)
    ensures Run(kinds, longer)
         == Restarting(kinds, k, v, Restoring({k}, {}, {k}), OneLost(gaveUp).(side := Some(Exact(v))))
    ensures steps <= longer
  {
    hide Run;
    var x := OneLost(gaveUp).(side := Some(Exact(v)));
    var s1, s2 := Reopened(kinds, k, v, gaveUp), Restarting(kinds, k, v, Recovering({}, {k}), x);
    assert s1.process.phase.todo - {Tx(k, 0)} == {} && s1.process.phase.recovered + {k} == {k};
    assert DoRecoverOne(s1, Tx(k, 0)) == s2;
    longer := Extend(kinds, steps, Life(RecoverOne(Tx(k, 0))), s2);
    EndedFacts(k, v);
    hide LastTerm, TerminalKeys, AfterRecovery, Retried;
    assert ToRestore(s2) == {k} && ToRewrite(s2) == {};
    longer := Extend(kinds, longer, Life(Recovered), Restarting(kinds, k, v, Restoring({k}, {}, {k}), x));
  }

  /** The first attempt's outcome waits for its publication. */
  function WaitingKey(gaveUp: bool): KeyState {
    OneLost(gaveUp).(hot := Some(Exact(RECOVERED)), dirty := Some(Dirty(4, Some(RECOVERED))),
                     ops := [Store(4, RECOVERED)])
  }

  /** And is published. */
  function ReplacedKey(gaveUp: bool): KeyState {
    OneLost(gaveUp).(side := Some(Exact(RECOVERED)), hot := Some(Exact(RECOVERED)))
  }

  lemma RetryPersisted(kinds: Kinds, k: Key, v: Outcome, gaveUp: bool)
    ensures var s := Restarting(kinds, k, v, Restoring({k}, {}, {k}), OneLost(gaveUp).(side := Some(Exact(v))));
            && CanLive(s, PersistRecovered(k, false))
            && DoPersistRecovered(s, k, false)
               == Restarting(kinds, k, v, Restoring({}, {}, {k}), WaitingKey(gaveUp).(side := Some(Exact(v))))
  {
    EndedFacts(k, v);
    hide LastTerm, AfterRecovery;
    assert {k} - {k} == {} && OneLost(gaveUp).ops + [Store(4, RECOVERED)] == [Store(4, RECOVERED)];
  }

  lemma RetryReplaced(kinds: Kinds, k: Key, v: Outcome, gaveUp: bool, steps: seq<Step>)
    returns (longer: seq<Step>)
    requires Run(kinds, steps)
          == Restarting(kinds, k, v, Restoring({}, {}, {k}), WaitingKey(gaveUp).(side := Some(Exact(v))))
    ensures Run(kinds, longer) == Restarting(kinds, k, v, Restoring({}, {}, {k}), ReplacedKey(gaveUp))
    ensures steps <= longer
  {
    hide Run, AfterRecovery;
    var phase := Restoring({}, {}, {k});
    var x := WaitingKey(gaveUp).(side := Some(Exact(RECOVERED)), head := Published);
    longer := Extend(kinds, steps, Queue(Publish(k)), Restarting(kinds, k, v, phase, x));
    assert [Store(4, RECOVERED)][1..] == [];
    longer := Extend(kinds, longer, Queue(Finish(k, true)), Restarting(kinds, k, v, phase, ReplacedKey(gaveUp)));
  }

  lemma RetryRestored(kinds: Kinds, k: Key, v: Outcome, gaveUp: bool, steps: seq<Step>)
    returns (longer: seq<Step>)
    requires Run(kinds, steps)
          == Restarting(kinds, k, v, Restoring({k}, {}, {k}), OneLost(gaveUp).(side := Some(Exact(v))))
    ensures Run(kinds, longer) == Restarting(kinds, k, v, Phase.Serving, ReplacedKey(gaveUp))
    ensures steps <= longer
  {
    hide Run, Restarting, DoPersistRecovered, DoRestoreOne;
    RetryPersisted(kinds, k, v, gaveUp);
    RetryPasses(kinds, k, v, gaveUp);
    RetryServes(kinds, k, v, gaveUp);
    longer := Extend(kinds, steps, Life(PersistRecovered(k, false)),
                     Restarting(kinds, k, v, Restoring({}, {}, {k}), WaitingKey(gaveUp).(side := Some(Exact(v)))));
    longer := RetryReplaced(kinds, k, v, gaveUp, longer);
    longer := Extend(kinds, longer, Life(RestoreOne(k, true, false)),
                     Restarting(kinds, k, v, Restoring({}, {}, {}), ReplacedKey(gaveUp)));
    longer := Extend(kinds, longer, Life(Restored), Restarting(kinds, k, v, Phase.Serving, ReplacedKey(gaveUp)));
  }

  lemma RetryServes(kinds: Kinds, k: Key, v: Outcome, gaveUp: bool)
    ensures var s := Restarting(kinds, k, v, Restoring({}, {}, {}), ReplacedKey(gaveUp));
            CanLive(s, Restored)
            && ApplyLife(s, Restored) == Restarting(kinds, k, v, Phase.Serving, ReplacedKey(gaveUp))
  {
    hide AfterRecovery;
  }

  lemma RetryPasses(kinds: Kinds, k: Key, v: Outcome, gaveUp: bool)
    ensures var s := Restarting(kinds, k, v, Restoring({}, {}, {k}), ReplacedKey(gaveUp));
            CanLive(s, RestoreOne(k, true, false))
            && DoRestoreOne(s, k, true, false) == Restarting(kinds, k, v, Restoring({}, {}, {}), ReplacedKey(gaveUp))
  {
    EndedFacts(k, v);
    hide LastTerm;
    assert AfterRecovery(k, v)[3] == Term(k, 0, RECOVERED, true) && {k} - {k} == {};
  }

  /**
   * Otherwise a plain command can change its outcome: an attempt is lost after
   * its request, a retry under a fresh id ends, its outcome is durable and
   * answered, and after a restart the same key answers that the outcome is
   * unknown. If the command is unguarded, no terminal event need be uncommitted.
   */
  lemma OutcomeCanChange(kinds: Kinds, k: Key, v: Outcome, gaveUp: bool)
    returns (steps: seq<Step>, longer: seq<Step>)
    requires k !in kinds.surface && (gaveUp ==> k in kinds.unguarded)
    ensures steps <= longer
    ensures Rejections(kinds, longer, k) == (if gaveUp then 0 else 1)
    ensures GiveUps(kinds, longer, k) == (if gaveUp then 1 else 0)
    ensures var s := Run(kinds, steps);
            && CanCommand(s, Submit(k, 1)) && Answer(s, Submit(k, 1)) == Some((k, Exact(v)))
            && At(s, k).side == Some(Exact(v))
    ensures var s := Run(kinds, longer);
            && CanCommand(s, Submit(k, 1)) && Answer(s, Submit(k, 1)) == Some((k, Exact(RECOVERED)))
            && Outcomes(s.log, k) == {v, RECOVERED}
  {
    hide Run, Rejections, GiveUps, Outcomes;
    steps := RetryEnds(kinds, k, v, gaveUp);
    var mid := RetryReopens(kinds, k, v, gaveUp, steps);
    mid := RetryRecovers(kinds, k, v, gaveUp, mid);
    longer := RetryRestored(kinds, k, v, gaveUp, mid);
    EndedFacts(k, v);
    Counted(kinds, longer, k);
  }

  /** It has one outcome in every run in which at most `n` of its decided ends were not committed. */
  ghost predicate KeepsOutcome(kinds: Kinds, k: Key, n: nat) {
    forall steps :: Rejections(kinds, steps, k) <= n ==> OneAtMost(Outcomes(Run(kinds, steps).log, k))
  }

  /** So a plain command does if and only if `n` is zero and the command is guarded. */
  lemma OutcomeKeptIff(kinds: Kinds, k: Key, n: nat)
    requires k !in kinds.surface
    ensures KeepsOutcome(kinds, k, n) <==> n == 0 && k !in kinds.unguarded
  {
    hide Run, Rejections, GiveUps, Outcomes;
    if n == 0 && k !in kinds.unguarded {
      forall steps | Rejections(kinds, steps, k) <= n ensures OneAtMost(Outcomes(Run(kinds, steps).log, k)) {
        OutcomeIsKept(kinds, steps, k);
        OnlyUnguardedGiveUp(kinds, steps, k);
      }
    } else {
      var steps, longer := OutcomeCanChange(kinds, k, Final(0), n == 0);
      var all := Outcomes(Run(kinds, longer).log, k);
      assert Final(0) in all && RECOVERED in all && !OneAtMost(all);
    }
  }
}
