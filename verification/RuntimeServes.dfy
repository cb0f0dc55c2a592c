/** The runtime does what it is for: a command that was never ended can be carried out and is answered from then on. */
module RuntimeServes {
  import opened ControlEvents
  import opened RuntimeLog
  import opened RuntimeModel
  import opened RuntimeInvariant
  import opened RuntimeSteps
  import opened Runtime
  import opened RuntimeRuns

  /** The same process with another history and another state of one key. */
  function With(s: State, log: seq<Ev>, torn: Option<Ev>, k: Key, x: KeyState): State {
    s.(log := log, torn := torn, keys := s.keys[k := x])
  }

  /** It serves, and no compaction is under way. */
  predicate AtEase(s: State) {
    IsServing(s) && s.process.attempt.None?
  }

  lemma WithTwice(s: State, log: seq<Ev>, torn: Option<Ev>, k: Key, x: KeyState, y: KeyState)
    ensures At(With(s, log, torn, k, x), k) == x
    ensures Put(With(s, log, torn, k, x), k, y) == With(s, log, torn, k, y)
  {
  }

  /** One command step of the key. */
  lemma Takes(kinds: Kinds, steps: seq<Step>, s: State, log: seq<Ev>, torn: Option<Ev>, k: Key, x: KeyState,
              c: CommandStep, log': seq<Ev>, torn': Option<Ev>, x': KeyState)
    returns (longer: seq<Step>)
    requires Run(kinds, steps) == With(s, log, torn, k, x) && CanCommand(With(s, log, torn, k, x), c)
    requires ApplyCommand(With(s, log, torn, k, x), c) == With(s, log', torn', k, x')
    ensures steps <= longer && Run(kinds, longer) == With(s, log', torn', k, x')
  {
    hide Run, ApplyCommand, CanCommand, With;
    longer := Extend(kinds, steps, Command(c), With(s, log', torn', k, x'));
  }

  /** Nothing is known of the key but requests that came to nothing. */
  predicate Untouched(s: State, k: Key, x: KeyState) {
    && x.side.None? && x.hot.None? && x.dirty.None? && x.ops == [] && x.head.Waiting? && x.task.Idle?
    && s.process.Up? && k !in s.process.legacy
  }

  lemma NeverEnded(s: State, k: Key)
    requires Inv(s) && AtEase(s) && At(s, k).task.Idle? && LastTerm(s.log, k) == 0
    ensures Untouched(s, k, At(s, k))
  {
    hide LastTerm, LastReq, Requests, TerminalKeys, AttemptInv, TornInv, KeysInv, MineOk, HistoryOk;
    AtInv(s, k);
    TerminalKeysMember(s.log, k);
    NoFacts(FactsOf(s.log, s.reach, k), At(s, k), k !in s.kinds.surface, s.process, s.snap.covered);
  }

  lemma NoFacts(f: Facts, x: KeyState, plain: bool, p: Process, covered: nat)
    requires Sane(f) && f.t == 0 && p.Up? && p.phase.Serving? && KeyOk(f, plain, covered, p, x)
    ensures x.side.None? && x.hot.None? && x.dirty.None? && x.ops == [] && x.head.Waiting?
  {
    hide HistoryOk, MineOk, TaskOk;
    if x.ops != [] {
      NoOp(f, x.ops[0]);
    }
  }

  lemma NoOp(f: Facts, op: Op)
    requires f.t == 0 && f.past == {}
    ensures !OpOk(f, op)
  {
  }

  /** From its submit to its journaled request. */
  lemma IsRequested(kinds: Kinds, steps: seq<Step>, s: State, log: seq<Ev>, torn: Option<Ev>, k: Key, id: nat,
                    x: KeyState)
    returns (longer: seq<Step>)
    requires AtEase(s) && LastTerm(log, k) == 0 && Untouched(s, k, x)
    requires Run(kinds, steps) == With(s, log, torn, k, x)
    ensures steps <= longer
    ensures Run(kinds, longer) == With(s, log + [Req(k, id)], None, k, x.(id := id, task := Ready))
  {
    hide Run;
    var y := x.(id := id);
    NoTerminal(log, s.process.first, k);
    WithTwice(s, log, torn, k, x, y.(task := LoadingCold));
    longer := Takes(kinds, steps, s, log, torn, k, x, Submit(k, id), log, torn, y.(task := LoadingCold));
    WithTwice(s, log, torn, k, y.(task := LoadingCold), y.(task := Admitted));
    longer := Takes(kinds, longer, s, log, torn, k, y.(task := LoadingCold), Loaded(k, true, false), log, torn,
                    y.(task := Admitted));
    WithTwice(s, log, torn, k, y.(task := Admitted), y.(task := Requesting));
    longer := Takes(kinds, longer, s, log, torn, k, y.(task := Admitted), Reserve(k), log, torn,
                    y.(task := Requesting));
    WithTwice(s, log + [Req(k, id)], None, k, y.(task := Requesting), y.(task := Ready));
    longer := Takes(kinds, longer, s, log, torn, k, y.(task := Requesting), CommandStep.Requested(k),
                    log + [Req(k, id)], None, y.(task := Ready));
  }

  /** A plain command's handler is invoked. */
  lemma IsHandled(kinds: Kinds, steps: seq<Step>, s: State, log: seq<Ev>, k: Key, x: KeyState)
    returns (longer: seq<Step>, y: KeyState)
    requires AtEase(s) && x.task.Ready? && Run(kinds, steps) == With(s, log, None, k, x)
    ensures steps <= longer && Run(kinds, longer) == With(s, log, None, k, y)
    ensures y == if k in s.kinds.surface then x else x.(task := Task.Running, runs := x.runs + 1)
  {
    hide Run;
    y := if k in s.kinds.surface then x else x.(task := Task.Running, runs := x.runs + 1);
    if k in s.kinds.surface {
      longer := steps;
    } else {
      WithTwice(s, log, None, k, x, y);
      longer := Takes(kinds, steps, s, log, None, k, x, Start(k), log, None, y);
    }
  }

  /** Its terminal event is journaled and its outcome published. */
  lemma IsEnded(kinds: Kinds, steps: seq<Step>, s: State, log: seq<Ev>, k: Key, x: KeyState, v: Outcome)
    returns (longer: seq<Step>)
    requires AtEase(s) && (x.task.Ready? || x.task.Running?) && x.dirty.None? && x.ops == [] && x.head.Waiting?
    requires Run(kinds, steps) == With(s, log, None, k, x)
    ensures steps <= longer
    ensures Run(kinds, longer)
         == With(s, log + [Term(k, x.id, v, false)], None, k,
                 x.(task := Idle, side := Some(Exact(v)), hot := Some(Exact(v)), mine := |log| + 1))
  {
    hide Run;
    var y := x.(task := Terminating(v));
    WithTwice(s, log, None, k, x, y);
    longer := Takes(kinds, steps, s, log, None, k, x, Decide(k, v), log, None, y);
    var log1, n := log + [Term(k, x.id, v, false)], |log| + 1;
    var z := SettledKey(y, n, v, false).(task := Idle);
    SettleIs(With(s, log, None, k, y), k, x.id, v, false);
    assert Append(With(s, log, None, k, y), Term(k, x.id, v, false)) == With(s, log1, None, k, y);
    WithTwice(s, log1, None, k, y, z);
    longer := Takes(kinds, longer, s, log, None, k, y, Terminated(k, false), log1, None, z);
    assert z.ops == [Store(n, v)] && [Store(n, v)][1..] == [];
    var p := z.(side := Some(Exact(v)), head := Published);
    WithTwice(s, log1, None, k, z, p);
    longer := Extend(kinds, longer, Queue(Publish(k)), With(s, log1, None, k, p));
    var done := x.(task := Idle, side := Some(Exact(v)), hot := Some(Exact(v)), mine := n);
    WithTwice(s, log1, None, k, p, done);
    longer := Extend(kinds, longer, Queue(Finish(k, true)), With(s, log1, None, k, done));
  }

  /** What a command carried out leaves: its events, its durable outcome, one more handler call, and the answer. */
  ghost predicate Served(s: State, s': State, k: Key, id: nat, v: Outcome) {
    && s'.log == s.log + [Req(k, id)] + [Term(k, id, v, false)] && s'.process == s.process
    && s'.snap == s.snap && s'.diskFirst == s.diskFirst
    && At(s', k).side == Some(Exact(v)) && At(s', k).dirty.None? && At(s', k).ops == [] && At(s', k).task.Idle?
    && At(s', k).runs == At(s, k).runs + (if k in s.kinds.surface then 0 else 1)
    && (forall again :: Answer(s', Submit(k, again)) == Some((k, Exact(v))))
    && (forall j :: j != k ==> At(s', j) == At(s, j))
  }

  /**
   * In every run: when no compaction is under way and the key never ended and is
   * not at work, a command of it can be admitted, carried out once, ended with
   * any outcome and published; every later submit is answered with that.
   */
  lemma CommandIsServed(kinds: Kinds, steps: seq<Step>, k: Key, id: nat, v: Outcome) returns (longer: seq<Step>)
    requires var s := Run(kinds, steps); AtEase(s) && At(s, k).task.Idle? && LastTerm(s.log, k) == 0
    ensures steps <= longer && Served(Run(kinds, steps), Run(kinds, longer), k, id, v)
  {
    hide Run, Inv, LastTerm, Served;
    var s := Run(kinds, steps);
    RunInv(kinds, steps);
    NeverEnded(s, k);
    longer := Extend(kinds, steps, Command(Evict(k)), With(s, s.log, s.torn, k, At(s, k)));
    longer := IsRequested(kinds, longer, s, s.log, s.torn, k, id, At(s, k));
    var log, x := s.log + [Req(k, id)], At(s, k).(id := id, task := Ready);
    var y;
    longer, y := IsHandled(kinds, longer, s, log, k, x);
    longer := IsEnded(kinds, longer, s, log, k, y, v);
    IsServed(s, Run(kinds, longer), k, id, v, y);
  }

  lemma IsServed(s: State, s': State, k: Key, id: nat, v: Outcome, y: KeyState)
    requires Untouched(s, k, At(s, k)) && y.dirty.None? && y.ops == []
    requires y.runs == At(s, k).runs + (if k in s.kinds.surface then 0 else 1)
    requires s' == With(s, s.log + [Req(k, id)] + [Term(k, id, v, false)], None, k,
                        y.(task := Idle, side := Some(Exact(v)), hot := Some(Exact(v)), mine := |s.log| + 2))
    ensures Served(s, s', k, id, v)
  {
  }

  // ---- Outcomes that are not durable yet ----

  /** Marking keeps the later of the two events and never forgets an outcome. */
  lemma MarkDirtyIs(d: Option<Dirty>, sequence: nat, outcome: Option<Outcome>)
    ensures var m := MarkDirty(d, sequence, outcome);
            && m.sequence >= sequence && (d.Some? ==> m.sequence >= d.value.sequence)
            && (m.sequence == sequence || (d.Some? && m.sequence == d.value.sequence))
            && (m.outcome.Some? <==> outcome.Some? || (d.Some? && d.value.outcome.Some?))
            && (outcome.Some? && (d.Some? ==> d.value.sequence <= sequence) ==> m == Dirty(sequence, outcome))
  {
  }

  /**
   * A terminal event that was appended is answered at once. Its outcome is dirty
   * and queued for publication exactly if the dirty map has room or an entry of
   * the key; and no compaction goes on that could drop the event meanwhile.
   */
  lemma SettledIff(s: State, k: Key, full: bool)
    requires CanCommand(s, Terminated(k, full))
    ensures var v, s' := At(s, k).task.value, ApplyCommand(s, Terminated(k, full));
            var x, n := At(s', k), |s.log| + 1;
            var marked := At(s, k).dirty.Some? || !full;
            var newest := At(s, k).dirty.Some? ==> At(s, k).dirty.value.sequence <= n;
            && s'.log == s.log + [Term(k, At(s, k).id, v, false)] && x.hot == Some(Exact(v)) && x.task.Idle?
            && (marked ==> x.dirty.Some? && x.ops == At(s, k).ops + [Store(n, v)])
            && (marked && newest ==> x.dirty == Some(Dirty(n, Some(v))))
            && (!marked ==> x.dirty.None? && x.ops == At(s, k).ops)
            && (Attempting(s') ==> ShouldAbort(s'))
  {
    hide CleanThrough;
    SettleIs(s, k, At(s, k).id, At(s, k).task.value, full);
    assert At(EndCommand(Settle(s, k, At(s, k).id, At(s, k).task.value, full), k), k)
        == SettledKey(At(s, k), |s.log| + 1, At(s, k).task.value, full).(task := Idle);
  }

  /**
   * A submit is answered at once exactly if the key's outcome is hot or dirty, the
   * hot one first; otherwise its lookup begins, by the terminal event if the
   * journal in memory still holds the key's last event and it is one.
   */
  lemma SubmitsIff(s: State, k: Key, id: nat)
    requires CanCommand(s, Submit(k, id))
    ensures var x, s' := At(s, k), ApplyCommand(s, Submit(k, id)); var answer := Answer(s, Submit(k, id));
            var known := x.hot.Some? || (x.dirty.Some? && x.dirty.value.outcome.Some?);
            && (answer.Some? <==> known)
            && (x.hot.Some? ==> answer == Some((k, x.hot.value)))
            && (x.hot.None? && known ==> answer == Some((k, Exact(x.dirty.value.outcome.value))))
            && (known ==> s' == s)
            && (!known ==>
                  && At(s', k) == x.(id := id, task := At(s', k).task)
                  && var t := LastTerm(s.log, k);
                     var ended := 0 < t && s.process.first <= t && LastReq(s.log, k) <= t;
                     && (At(s', k).task.LoadingRetained? <==> ended) && (At(s', k).task.LoadingCold? <==> !ended)
                     && (ended ==> At(s', k).task.sequence == t && At(s', k).task.value == Latest(s.log, k)))
  {
  }

  /**
   * What a lookup comes to. With a retained terminal event: the marker, the exact
   * outcome if it agrees, or without a sidecar what the event tells, if there is
   * room to mark it. Without one: the sidecar as it is, or admission if there is
   * none and the key is not remembered as completed.
   */
  lemma LookupIff(s: State, k: Key, ok: bool, full: bool, rec: Rec)
    requires CanCommand(s, Loaded(k, ok, full))
    ensures var x, answer := At(s, k), Answer(s, Loaded(k, ok, full));
            var y := At(ApplyCommand(s, Loaded(k, ok, full)), k);
            && (x.task.LoadingCold? ==>
                  && (answer == Some((k, rec)) <==> ok && x.side == Some(rec))
                  && (y.task.Admitted? <==> ok && x.side.None? && k !in s.process.legacy)
                  && (y.task.Admitted? || y.task.Idle?))
            && (x.task.LoadingRetained? ==>
                  && y.task.Idle?
                  && (answer == Some((k, rec)) <==>
                        ok && match x.side
                              case Some(found) => rec == found && (found.Exact? ==> found.value == x.task.value)
                              case None => x.task.reconstructible && (x.dirty.Some? || !full)
                                           && rec == Exact(x.task.value)))
  {
  }

  /** An answer read from a sidecar or told from the event is in the hot cache from then on. */
  lemma AnswerIsRemembered(s: State, k: Key, ok: bool, full: bool, rec: Rec)
    requires CanCommand(s, Loaded(k, ok, full)) && Answer(s, Loaded(k, ok, full)) == Some((k, rec))
    ensures var s' := ApplyCommand(s, Loaded(k, ok, full));
            At(s', k).hot == Some(rec) && At(s', k).task.Idle? && Answer(s', Submit(k, At(s, k).id)) == Some((k, rec))
  {
  }

  /**
   * A load that finds no sidecar for a retained terminal event leaves the key
   * dirty, with its outcome as far as it can be told, unless the map is full; in
   * either case no compaction goes on.
   */
  lemma MissingSidecarMarks(s: State, k: Key, full: bool)
    requires CanCommand(s, Loaded(k, true, full)) && At(s, k).task.LoadingRetained? && At(s, k).side.None?
    ensures var t, s' := At(s, k).task, ApplyCommand(s, Loaded(k, true, full));
            && (At(s, k).dirty.Some? || !full ==>
                  && At(s', k).dirty.Some? && At(s', k).dirty.value.sequence >= t.sequence
                  && (t.reconstructible ==> At(s', k).dirty.value.outcome.Some?))
            && (At(s, k).dirty.None? && full ==> At(s', k).dirty.None?)
            && (Attempting(s') ==> ShouldAbort(s'))
  {
    hide CleanThrough;
  }

  /** A rejected append of a command's request or decided end frees the key for the next submit, and nothing else. */
  lemma RejectedEnds(s: State, e: Ev, torn: Option<Ev>)
    requires CanCommand(s, AppendRejected(e, torn)) && !e.Note?
    requires e.Req? || (At(s, e.key).task == Terminating(e.value) && At(s, e.key).id == e.id)
    ensures var s', k := ApplyCommand(s, AppendRejected(e, torn)), e.key;
            && s'.log == s.log && s'.torn == torn && s'.process == s.process
            && At(s', k) == At(s, k).(task := Idle, rejected := At(s, k).rejected + (if e.Term? then 1 else 0))
            && forall j :: j != k ==> At(s', j) == At(s, j)
  {
  }

  /** A request is retained exactly if the journal in memory still holds one of that very command. */
  lemma RequestRetainedIff(log: seq<Ev>, first: nat, x: Tx)
    ensures RequestRetained(log, first, x) <==>
            exists i :: 0 <= i < |log| && first <= i + 1 && log[i] == Req(x.key, x.id)
  {
    if RequestRetained(log, first, x) {
      assert log[RequestOf(log, x) - 1] == Req(x.key, x.id);
    }
    if i :| 0 <= i < |log| && first <= i + 1 && log[i] == Req(x.key, x.id) {
      NoLaterRequest(log, x, i);
    }
  }

  lemma {:induction false} NoLaterRequest(log: seq<Ev>, x: Tx, i: nat)
    requires i < |log| && log[i] == Req(x.key, x.id)
    ensures i < RequestOf(log, x)
  {
    if i < |log| - 1 {
      assert log[..|log| - 1][i] == log[i];
      NoLaterRequest(log[..|log| - 1], x, i);
    }
  }

  lemma ThenQueue(kinds: Kinds, steps: seq<Step>, q: QueueStep)
    requires CanQueue(Run(kinds, steps), q)
    ensures Run(kinds, steps + [Queue(q)]) == ApplyQueue(Run(kinds, steps), q)
  {
    hide CanQueue, ApplyQueue;
    assert (steps + [Queue(q)])[..|steps|] == steps;
  }

  /** In every run a dirty outcome with nothing queued can be flushed: then it is durable and no longer dirty. */
  lemma DirtyIsRepaired(kinds: Kinds, steps: seq<Step>, k: Key)
    requires var s := Run(kinds, steps);
             s.process.Up? && At(s, k).dirty.Some? && At(s, k).dirty.value.outcome.Some? && At(s, k).ops == []
    ensures var s := Run(kinds, steps);
            var s' := Run(kinds, steps + [Queue(FlushDirty(k)), Queue(Publish(k)), Queue(Finish(k, true))]);
            && At(s', k).dirty.None? && At(s', k).side == Some(Exact(At(s, k).dirty.value.outcome.value))
            && At(s', k).ops == [] && s'.log == s.log && s'.process == s.process
            && forall j :: j != k ==> At(s', j) == At(s, j)
  {
    var s := Run(kinds, steps);
    RunInv(kinds, steps);
    HeadIsWaiting(s, k);
    FlushSteps(s, k);
    hide Run, Inv, CanQueue, ApplyQueue, At;
    ThenQueue(kinds, steps, FlushDirty(k));
    ThenQueue(kinds, steps + [Queue(FlushDirty(k))], Publish(k));
    ThenQueue(kinds, steps + [Queue(FlushDirty(k))] + [Queue(Publish(k))], Finish(k, true));
    assert steps + [Queue(FlushDirty(k))] + [Queue(Publish(k))] + [Queue(Finish(k, true))]
        == steps + [Queue(FlushDirty(k)), Queue(Publish(k)), Queue(Finish(k, true))];
  }

  lemma FlushSteps(s: State, k: Key)
    requires s.process.Up? && At(s, k).dirty.Some? && At(s, k).dirty.value.outcome.Some?
    requires At(s, k).ops == [] && At(s, k).head.Waiting?
    ensures CanQueue(s, FlushDirty(k))
    ensures var s1 := ApplyQueue(s, FlushDirty(k));
            && CanQueue(s1, Publish(k))
            && var s2 := ApplyQueue(s1, Publish(k));
               && CanQueue(s2, Finish(k, true))
               && var s' := ApplyQueue(s2, Finish(k, true));
                  && At(s', k).dirty.None? && At(s', k).side == Some(Exact(At(s, k).dirty.value.outcome.value))
                  && At(s', k).ops == [] && s'.log == s.log && s'.process == s.process
                  && forall j :: j != k ==> At(s', j) == At(s, j)
  {
    var x := At(s, k);
    var op := Store(x.dirty.value.sequence, x.dirty.value.outcome.value);
    assert [] + [op] == [op] && [op][1..] == [];
    assert At(ApplyQueue(s, FlushDirty(k)), k) == x.(ops := [op]);
  }

  lemma HeadIsWaiting(s: State, k: Key)
    requires Inv(s) && At(s, k).ops == []
    ensures At(s, k).head.Waiting?
  {
    AtInv(s, k);
  }
}
