/** Each kind of runtime step keeps the invariant. */
module RuntimeSteps {
  import opened ControlEvents
  import opened RuntimeLog
  import opened RuntimeModel
  import opened RuntimeInvariant

  // ---- Facts about a key under growth of the history ----

  predicate Sane(f: Facts) {
    && (f.t > 0 ==> f.latest in f.all && f.first in f.all) && (f.t == 0 <==> f.all == {})
    && f.u <= f.t && (f.u == 0 <==> f.t == 0)
    && (f.r == 0 <==> f.requests == 0)
    && f.past <= f.all
  }

  lemma FactsSane(log: seq<Ev>, reach: nat, k: Key)
    requires reach <= |log|
    ensures Sane(FactsOf(log, reach, k))
    ensures var f := FactsOf(log, reach, k); 0 < f.t <= reach ==> f.latest in f.past
    ensures FactsOf(log, reach, k).t <= |log|
  {
    hide LastTerm, FirstTerm, LastOwn, LastReq, Requests, Outcomes, OpenIds;
    OutcomesFacts(log, k);
    OutcomesOfPrefix(log, reach, k);
    if 0 < LastTerm(log, k) <= reach { LatestInPrefix(log, reach, k); }
  }

  lemma FactsAppendOther(log: seq<Ev>, reach: nat, e: Ev, k: Key)
    requires reach <= |log| && !About(e, k)
    ensures FactsOf(log + [e], reach, k) == FactsOf(log, reach, k)
  {
    hide LastTerm, FirstTerm, LastOwn, LastReq, Requests, Outcomes, OpenIds;
    SnocOther(log, e, k);
    assert (log + [e])[..reach] == log[..reach];
  }

  /** The facts about a key once an event about it has been appended as the `n`-th. */
  function Grown(f: Facts, n: nat, e: Ev): Facts {
    match e
    case Req(_, id) => f.(r := n, requests := f.requests + 1, open := f.open + {id})
    case Term(_, id, v, recovered) =>
      f.(t := n, u := if f.u == 0 then n else f.u, latest := v, first := if f.u == 0 then v else f.first,
         all := f.all + {v}, open := f.open - {id}, asks := if recovered then f.asks else v.NeedsApproval?)
    case Note => f
  }

  lemma FactsAppend(log: seq<Ev>, reach: nat, e: Ev, k: Key)
    requires reach <= |log| && About(e, k)
    ensures FactsOf(log + [e], reach, k) == Grown(FactsOf(log, reach, k), |log| + 1, e)
  {
    hide LastTerm, FirstTerm, LastOwn, LastReq, Requests, Outcomes, OpenIds;
    Snoc(log, e, k);
    assert (log + [e])[..reach] == log[..reach];
  }

  lemma FactsReach(log: seq<Ev>, reach: nat, reach': nat, k: Key)
    requires reach <= reach' <= |log|
    ensures var f, f' := FactsOf(log, reach, k), FactsOf(log, reach', k);
            f' == f.(past := f'.past) && f.past <= f'.past
  {
    hide LastTerm, FirstTerm, LastOwn, LastReq, Requests, Outcomes, OpenIds;
    OutcomesMonotone(log, reach, reach', k);
  }

  // ---- All keys ----

  lemma PutKeys(s: State, k: Key, x: KeyState)
    requires KeysInv(s)
    requires KeyOk(FactsOf(s.log, s.reach, k), k !in s.kinds.surface, s.snap.covered, s.process, x)
    ensures KeysInv(Put(s, k, x))
  {
    hide KeyOk, FactsOf;
    forall j: Key ensures KeyInv(Put(s, k, x), j) {
      assert KeyInv(s, j);
    }
  }

  lemma AppendPutKeys(s: State, e: Ev, k: Key, x: KeyState)
    requires KeysInv(s) && s.reach <= |s.log| && About(e, k)
    requires KeyOk(FactsOf(s.log + [e], s.reach, k), k !in s.kinds.surface, s.snap.covered, s.process, x)
    ensures KeysInv(Put(Append(s, e), k, x))
  {
    hide KeyOk, FactsOf;
    forall j: Key ensures KeyInv(Put(Append(s, e), k, x), j) {
      assert KeyInv(s, j);
      if j != k { FactsAppendOther(s.log, s.reach, e, j); }
    }
  }

  lemma AppendKeys(s: State, e: Ev, k: Key)
    requires KeysInv(s) && s.reach <= |s.log| && (e.Note? || About(e, k))
    requires About(e, k) ==>
               KeyOk(FactsOf(s.log + [e], s.reach, k), k !in s.kinds.surface, s.snap.covered, s.process, At(s, k))
    ensures KeysInv(Append(s, e))
  {
    hide KeyOk, FactsOf;
    forall j: Key ensures KeyInv(Append(s, e), j) {
      assert KeyInv(s, j);
      if !About(e, j) { FactsAppendOther(s.log, s.reach, e, j); }
    }
  }

  /** The invariant of a key looks at the process only through its phase. */
  lemma SamePhaseKeys(s: State, p: Process)
    requires KeysInv(s) && s.process.Up? && p.Up?
    requires p.phase == s.process.phase
             || (p.phase.Recovering? && s.process.phase.Recovering?)
             || (p.phase.Restoring? && s.process.phase.Restoring?)
    ensures KeysInv(s.(process := p))
  {
    hide HistoryOk, EvidenceOk, MemoryOk, TaskOk, MineOk, FactsOf;
    forall j: Key ensures KeyInv(s.(process := p), j) {
      assert KeyInv(s, j);
    }
  }

  // ---- The rest of the invariant under changes of one key or of the history ----

  lemma StartupPut(s: State, k: Key, x: KeyState)
    requires StartupInv(s)
    ensures StartupInv(Put(s, k, x))
  {
    hide LastTerm, LastReq, Outcomes, TerminalKeys;
  }

  lemma AttemptPut(s: State, k: Key, x: KeyState)
    requires AttemptInv(s)
    requires At(s, k).side.Some? ==> x.side.Some?
    requires x.dirty.Some? ==> x.dirty == At(s, k).dirty
    ensures AttemptInv(Put(s, k, x))
  {
    hide FactsOf, LastTerm, OpenSet, TerminalKeys, RecOld;
    if Attempting(s) {
      StagePut(s, TheAttempt(s), k, x);
      var s' := Put(s, k, x);
      forall j | j in s'.keys && s'.keys[j].dirty.Some? ensures j in s.keys && s.keys[j].dirty == s'.keys[j].dirty {}
    }
  }

  lemma StagePut(s: State, a: Attempt, k: Key, x: KeyState)
    requires s.process.Up? && StageOk(s, a) && VerifiedOk(s, a)
    requires At(s, k).side.Some? ==> x.side.Some?
    ensures StageOk(Put(s, k, x), a) && VerifiedOk(Put(s, k, x), a)
  {
    hide FactsOf, LastTerm, OpenSet, TerminalKeys, RecOld;
    var s' := Put(s, k, x);
    forall j: Key ensures At(s, j).side.Some? ==> At(s', j).side.Some? {}
  }

  lemma AttemptPutInvalidate(s: State, k: Key, x: KeyState)
    requires AttemptInv(s)
    requires At(s, k).side.Some? ==> x.side.Some?
    ensures AttemptInv(Invalidate(Put(s, k, x)))
  {
    if Attempting(s) {
      StagePut(s, TheAttempt(s), k, x);
      StageInvalidate(Put(s, k, x), TheAttempt(s));
    }
  }

  lemma StageInvalidate(s: State, a: Attempt)
    requires Attempting(s) && TheAttempt(s) == a && StageOk(s, a) && VerifiedOk(s, a)
    ensures var a' := a.(invalidated := true); StageOk(Invalidate(s), a') && VerifiedOk(Invalidate(s), a')
  {
    hide FactsOf, LastTerm, OpenSet, TerminalKeys, RecOld;
  }

  lemma InvalidateRest(s: State)
    requires StartupInv(s)
    ensures StartupInv(Invalidate(s))
  {
    hide LastTerm, LastReq, Outcomes, TerminalKeys;
  }

  lemma DiskAppend(s: State, e: Ev)
    requires DiskInv(s)
    ensures DiskInv(Append(s, e))
  {
    hide OpenSet, TerminalKeys;
    assert (s.log + [e])[..s.snap.covered] == s.log[..s.snap.covered];
    TerminalKeysGrow(s.log, e);
  }

  lemma TerminalKeysGrow(log: seq<Ev>, e: Ev)
    ensures TerminalKeys(log) <= TerminalKeys(log + [e])
  {
    forall x | x in log ensures x in log + [e] {}
  }

  lemma AttemptAppend(s: State, e: Ev)
    requires AttemptInv(s)
    ensures AttemptInv(Append(s, e))
  {
    if Attempting(s) {
      StageAppend(s, TheAttempt(s), e);
      VerifiedAppend(s, TheAttempt(s), e);
    }
  }

  lemma VerifiedAppend(s: State, a: Attempt, e: Ev)
    requires s.reach <= |s.log| && VerifiedOk(s, a)
    ensures VerifiedOk(Append(s, e), a)
  {
    hide FactsOf;
    forall k | k in a.expected ensures RecOld(FactsOf(s.log + [e], s.reach, k), a.expected[k]) {
      PastAppend(s.log, s.reach, e, k);
    }
  }

  lemma PastAppend(log: seq<Ev>, reach: nat, e: Ev, k: Key)
    requires reach <= |log|
    ensures FactsOf(log + [e], reach, k).past == FactsOf(log, reach, k).past
  {
    hide LastTerm, FirstTerm, LastOwn, LastReq, Requests, Outcomes, OpenIds;
    assert (log + [e])[..reach] == log[..reach];
  }

  lemma StageAppend(s: State, a: Attempt, e: Ev)
    requires s.process.Up? && a.covered <= |s.log| && s.reach <= |s.log| && StageOk(s, a)
    ensures StageOk(Append(s, e), a)
  {
    hide FactsOf, LastTerm, OpenSet, TerminalKeys;
    forall k: Key ensures LastTerm(s.log + [e], k) <= a.covered ==> LastTerm(s.log + [e], k) == LastTerm(s.log, k) {
      Snoc(s.log, e, k);
    }
    forall k: Key ensures FactsOf(s.log + [e], s.reach, k).past == FactsOf(s.log, s.reach, k).past {
      PastAppend(s.log, s.reach, e, k);
    }
    TerminalKeysGrow(s.log, e);
    assert (s.log + [e])[..a.covered] == s.log[..a.covered];
  }

  lemma StartupAppend(s: State, e: Ev)
    requires StartupInv(s)
    requires s.process.Up? && !s.process.phase.Serving? ==> e.Note?
    ensures StartupInv(Append(s, e))
  {
    hide LastTerm, LastReq, Outcomes, TerminalKeys;
    TerminalKeysGrow(s.log, e);
    forall k: Key ensures Outcomes(s.log, k) <= Outcomes(s.log + [e], k) { Snoc(s.log, e, k); }
    if e.Note? {
      forall k: Key
        ensures LastTerm(s.log + [e], k) == LastTerm(s.log, k) && LastReq(s.log + [e], k) == LastReq(s.log, k)
      {
        SnocOther(s.log, e, k);
      }
    }
  }

  /** Nothing but a change of the history could spoil what may be adopted. */
  lemma TornPut(s: State, k: Key, x: KeyState)
    requires TornInv(s) && Lost(At(s, k)) <= Lost(x)
    ensures TornInv(Put(s, k, x))
  {
    hide LastTerm, LastReq, Requests, Lost;
    var s' := Put(s, k, x);
    assert s'.torn == s.torn && s'.log == s.log && s'.kinds == s.kinds && s'.process == s.process;
    if s.torn.Some? && s.torn.value.Req? {
      var j := s.torn.value.key;
      assert At(s', j) == if j == k then x else At(s, j);
    }
  }

  lemma TornFrame(s: State, s': State)
    requires TornInv(s) && s'.torn == s.torn && s'.log == s.log && s'.keys == s.keys && s'.kinds == s.kinds
    requires IsServing(s) ==> IsServing(s')
    ensures TornInv(s')
  {
    hide LastTerm, LastReq, Requests;
  }

  // ---- Combined ----

  lemma PutInv(s: State, k: Key, x: KeyState)
    requires Inv(s)
    requires KeyOk(FactsOf(s.log, s.reach, k), k !in s.kinds.surface, s.snap.covered, s.process, x)
    requires At(s, k).side.Some? ==> x.side.Some?
    requires x.dirty.Some? ==> x.dirty == At(s, k).dirty
    requires Lost(At(s, k)) <= Lost(x)
    ensures Inv(Put(s, k, x))
  {
    hide KeysInv, StartupInv, AttemptInv, KeyOk, FactsOf, TornInv;
    TornPut(s, k, x);
    PutKeys(s, k, x);
    StartupPut(s, k, x);
    AttemptPut(s, k, x);
  }

  lemma InvalidateKeys(s: State)
    requires KeysInv(s)
    ensures KeysInv(Invalidate(s))
  {
    hide KeysInv;
    if Attempting(s) { SamePhaseKeys(s, Invalidate(s).process); }
  }

  lemma PutInvalidateInv(s: State, k: Key, x: KeyState)
    requires Inv(s)
    requires KeyOk(FactsOf(s.log, s.reach, k), k !in s.kinds.surface, s.snap.covered, s.process, x)
    requires At(s, k).side.Some? ==> x.side.Some?
    requires Lost(At(s, k)) <= Lost(x)
    ensures Inv(Invalidate(Put(s, k, x)))
  {
    hide KeysInv, StartupInv, AttemptInv, KeyOk, FactsOf, TornInv;
    TornPut(s, k, x);
    TornFrame(Put(s, k, x), Invalidate(Put(s, k, x)));
    PutKeys(s, k, x);
    InvalidateKeys(Put(s, k, x));
    StartupPut(s, k, x);
    InvalidateRest(Put(s, k, x));
    AttemptPutInvalidate(s, k, x);
  }

  lemma AppendPutInv(s: State, e: Ev, k: Key, x: KeyState)
    requires Inv(s) && About(e, k) && IsServing(s)
    requires KeyOk(FactsOf(s.log + [e], s.reach, k), k !in s.kinds.surface, s.snap.covered, s.process, x)
    requires At(s, k).side.Some? ==> x.side.Some?
    ensures x.dirty == At(s, k).dirty ==> Inv(Put(Append(s, e), k, x))
    ensures Inv(Invalidate(Put(Append(s, e), k, x)))
  {
    hide KeysInv, StartupInv, AttemptInv, KeyOk, FactsOf, OpenSet, TerminalKeys;
    AppendPutKeys(s, e, k, x);
    InvalidateKeys(Put(Append(s, e), k, x));
    DiskAppend(s, e);
    StartupAppend(s, e);
    StartupPut(Append(s, e), k, x);
    InvalidateRest(Put(Append(s, e), k, x));
    AttemptAppend(s, e);
    AttemptPutInvalidate(Append(s, e), k, x);
    if x.dirty == At(s, k).dirty { AttemptPut(Append(s, e), k, x); }
  }

  // ---- Commands ----

  lemma AtInv(s: State, k: Key)
    requires Inv(s)
    ensures KeyInv(s, k) && Sane(FactsOf(s.log, s.reach, k)) && DiskInv(s)
    ensures s.reach <= |s.log| && s.snap.covered <= |s.log|
    ensures FactsOf(s.log, s.reach, k).t <= |s.log|
  {
    hide FactsOf, KeyOk, OpenSet, TerminalKeys;
    FactsSane(s.log, s.reach, k);
  }

  /** What the invariant of a key says about its requests and its task. */
  lemma KeyHistory(f: Facts, plain: bool, covered: nat, p: Process, x: KeyState)
    requires KeyOk(f, plain, covered, p, x)
    ensures f.t > 0 ==> 0 < f.r < f.u && !x.task.Terminating?
    ensures f.t == 0 < f.r ==> f.open != {}
  {
    hide EvidenceOk, MemoryOk, MineOk, PhaseOk, SideOk, OutcomesOk;
  }

  /** Of a key that ended: its requests came before. */
  lemma RequestsFirst(s: State, k: Key)
    requires Inv(s) && LastTerm(s.log, k) > 0
    ensures 0 < LastReq(s.log, k) < FirstTerm(s.log, k) <= LastTerm(s.log, k) && !At(s, k).task.Terminating?
  {
    hide Inv, KeyOk, Sane, LastTerm, FirstTerm, LastOwn, LastReq, Requests, Outcomes, OpenIds;
    AtInv(s, k);
    KeyHistory(FactsOf(s.log, s.reach, k), k !in s.kinds.surface, s.snap.covered, s.process, At(s, k));
    FirstBelow(s.log, k);
  }

  /** Evicting, refusing, ending, reserving: nothing durable and nothing dirty changes. */
  lemma EvictKeeps(s: State, k: Key)
    requires Inv(s) && s.process.Up?
    ensures Inv(Put(s, k, At(s, k).(hot := None)))
  {
    hide Inv, FactsOf;
    AtInv(s, k);
    PutInv(s, k, At(s, k).(hot := None));
  }

  lemma EndKeeps(s: State, k: Key)
    requires Inv(s) && IsServing(s)
    requires var t := At(s, k).task; t.Admitted? || t.LoadingCold? || t.LoadingRetained?
    ensures Inv(EndCommand(s, k)) && Inv(Invalidate(EndCommand(s, k)))
  {
    hide Inv, FactsOf;
    AtInv(s, k);
    PutInv(s, k, At(s, k).(task := Idle));
    PutInvalidateInv(s, k, At(s, k).(task := Idle));
  }

  lemma LookupFacts(s: State, k: Key)
    requires Inv(s) && IsServing(s)
    ensures var f := FactsOf(s.log, s.reach, k);
            match RetainedTerminal(s.log, s.process.first, k)
            case Some(i) => i == f.t > 0 && f.r < f.t && s.log[i - 1].Term? && s.log[i - 1].value == f.latest
            case None => f.t > 0 ==> At(s, k).side.Some?
  {
    var t, r := LastTerm(s.log, k), LastReq(s.log, k);
    if t > 0 { EndedFacts(s, k); }
    hide Inv, Outcomes, LastTerm, LastReq, Requests, At;
    if r > t { assert IsReq(s.log[r - 1], k); }
  }

  /** Of a key that ended: its request came before, and it has a sidecar if memory does not hold its end. */
  lemma EndedFacts(s: State, k: Key)
    requires Inv(s) && LastTerm(s.log, k) > 0
    ensures 0 < LastReq(s.log, k) < LastTerm(s.log, k)
    ensures s.process.Up? && LastTerm(s.log, k) < s.process.first ==> At(s, k).side.Some?
  {
    hide Inv, LastTerm, FirstTerm, LastReq;
    EvidenceAt(s, k);
    RequestsFirst(s, k);
  }

  lemma ColdTask(f: Facts, plain: bool, covered: nat, p: Process, x: KeyState, id: nat)
    requires KeyOk(f, plain, covered, p, x) && x.task.Idle? && p.Up? && p.phase.Serving?
    requires f.t > 0 ==> x.side.Some?
    ensures TaskOk(f, false, x.(id := id, task := LoadingCold))
  {
    hide HistoryOk, EvidenceOk, MemoryOk, MineOk;
  }

  /** An outcome neither hot nor dirty was not marked by this process. */
  lemma RetainedTask(f: Facts, plain: bool, covered: nat, p: Process, x: KeyState, id: nat, reconstructible: bool)
    requires KeyOk(f, plain, covered, p, x) && Sane(f) && f.r < f.t
    requires x.dirty.None? || x.dirty.value.outcome.None?
    ensures TaskOk(f, false, x.(id := id, task := LoadingRetained(f.t, f.latest, reconstructible)))
    ensures 0 < x.mine == f.t ==> x.dirty.None?
  {
    hide HistoryOk, EvidenceOk, MemoryOk;
  }

  lemma SubmitKeeps(s: State, k: Key, id: nat)
    requires Inv(s) && CanCommand(s, Submit(k, id))
    ensures Inv(DoSubmit(s, k, id))
  {
    hide Inv, FactsOf, KeyOk, TaskOk, LastTerm, LastReq, Reconstructible, RetainedTerminal;
    AtInv(s, k);
    LookupFacts(s, k);
    var x, f := At(s, k), FactsOf(s.log, s.reach, k);
    if !(x.hot.Some? || (x.dirty.Some? && x.dirty.value.outcome.Some?)) {
      match RetainedTerminal(s.log, s.process.first, k)
      case Some(i) =>
        var rec := Reconstructible(s, s.process.first, k, s.log[i - 1]);
        RetainedTask(f, k !in s.kinds.surface, s.snap.covered, s.process, x, id, rec);
        TaskInv(s, k, id, LoadingRetained(f.t, f.latest, rec));
      case None =>
        ColdTask(f, k !in s.kinds.surface, s.snap.covered, s.process, x, id);
        TaskInv(s, k, id, LoadingCold);
    }
  }

  /** A command goes on to another task. */
  lemma TaskKeyOk(f: Facts, plain: bool, covered: nat, p: Process, x: KeyState, id: nat, task: Task)
    requires KeyOk(f, plain, covered, p, x) && p.Up? && p.phase.Serving?
    requires TaskOk(f, false, x.(id := id, task := task))
    requires task.LoadingRetained? && 0 < x.mine == f.t == task.sequence ==> x.dirty.None?
    ensures KeyOk(f, plain, covered, p, x.(id := id, task := task))
  {
    assert MineOk(f, x.(id := id, task := task));
    hide MineOk;
  }

  lemma TaskInv(s: State, k: Key, id: nat, task: Task)
    requires Inv(s) && IsServing(s)
    requires var f, x := FactsOf(s.log, s.reach, k), At(s, k);
             && TaskOk(f, false, x.(id := id, task := task))
             && (task.LoadingRetained? && 0 < x.mine == f.t == task.sequence ==> x.dirty.None?)
    ensures Inv(Put(s, k, At(s, k).(id := id, task := task)))
  {
    hide Inv, FactsOf, KeyOk, TaskOk;
    AtInv(s, k);
    TaskKeyOk(FactsOf(s.log, s.reach, k), k !in s.kinds.surface, s.snap.covered, s.process, At(s, k), id, task);
    PutInv(s, k, At(s, k).(id := id, task := task));
  }

  lemma LoadedRetainedKeeps(s: State, k: Key, ok: bool, full: bool)
    requires Inv(s) && IsServing(s) && At(s, k).task.LoadingRetained?
    ensures Inv(LoadedRetained(s, k, ok, full))
  {
    hide Inv, FactsOf;
    EndKeeps(s, k);
    AtInv(s, k);
    var x := At(s, k);
    var t := x.task;
    if ok {
      match x.side
      case Some(Marker) =>
        PutInv(s, k, x.(hot := Some(Marker), dirty := ClearDirty(x.dirty, t.sequence), task := Idle));
      case Some(Exact(w)) =>
        if w == t.value {
          PutInv(s, k, x.(hot := Some(Exact(w)), dirty := ClearDirty(x.dirty, t.sequence), task := Idle));
        }
      case None =>
        if !MarkThrows(x.dirty, full) {
          if t.reconstructible {
            PutInvalidateInv(s, k, x.(hot := Some(Exact(t.value)),
              dirty := Some(MarkDirty(x.dirty, t.sequence, Some(t.value))), task := Idle));
          } else {
            PutInvalidateInv(s, k, x.(dirty := Some(MarkDirty(x.dirty, t.sequence, None)), task := Idle));
          }
        }
    }
  }

  lemma LoadedColdKeeps(s: State, k: Key, ok: bool)
    requires Inv(s) && IsServing(s) && At(s, k).task.LoadingCold?
    ensures Inv(LoadedCold(s, k, ok))
  {
    hide Inv, FactsOf;
    EndKeeps(s, k);
    AtInv(s, k);
    var x := At(s, k);
    if ok {
      match x.side
      case Some(rec) => PutInv(s, k, x.(hot := Some(rec), task := Idle));
      case None => if k !in s.process.legacy { PutInv(s, k, x.(task := Admitted)); }
    }
  }

  lemma ReserveKeyOk(f: Facts, plain: bool, covered: nat, p: Process, x: KeyState)
    requires KeyOk(f, plain, covered, p, x) && p.Up? && p.phase.Serving? && x.task.Admitted?
    ensures KeyOk(f, plain, covered, p, x.(task := Requesting))
  {
    hide RecOk, RecOld, OpOk, Settled, StoreOf;
  }

  lemma ReserveKeeps(s: State, k: Key)
    requires Inv(s) && CanCommand(s, Reserve(k))
    ensures Inv(Put(s, k, At(s, k).(task := Requesting)))
  {
    hide Inv, FactsOf, KeyOk;
    AtInv(s, k);
    ReserveKeyOk(FactsOf(s.log, s.reach, k), k !in s.kinds.surface, s.snap.covered, s.process, At(s, k));
    PutInv(s, k, At(s, k).(task := Requesting));
  }

  lemma StartKeyOk(f: Facts, plain: bool, covered: nat, p: Process, x: KeyState)
    requires KeyOk(f, plain, covered, p, x) && p.Up? && p.phase.Serving? && x.task.Ready?
    ensures KeyOk(f, plain, covered, p, x.(task := Task.Running, runs := x.runs + 1))
  {
    hide RecOk, RecOld, OpOk, Settled, StoreOf;
  }

  lemma StartKeeps(s: State, k: Key)
    requires Inv(s) && CanCommand(s, Start(k))
    ensures Inv(Put(s, k, At(s, k).(task := Task.Running, runs := At(s, k).runs + 1)))
  {
    hide Inv, FactsOf, KeyOk;
    AtInv(s, k);
    StartKeyOk(FactsOf(s.log, s.reach, k), k !in s.kinds.surface, s.snap.covered, s.process, At(s, k));
    PutInv(s, k, At(s, k).(task := Task.Running, runs := At(s, k).runs + 1));
  }

  lemma DecideKeyOk(f: Facts, plain: bool, covered: nat, p: Process, x: KeyState, v: Outcome)
    requires KeyOk(f, plain, covered, p, x) && p.Up? && p.phase.Serving? && (x.task.Ready? || x.task.Running?)
    ensures KeyOk(f, plain, covered, p, x.(task := Terminating(v)))
  {
    hide RecOk, RecOld, OpOk, Settled, StoreOf;
  }

  lemma DecideKeeps(s: State, k: Key, v: Outcome)
    requires Inv(s) && CanCommand(s, Decide(k, v))
    ensures Inv(Put(s, k, At(s, k).(task := Terminating(v))))
  {
    hide Inv, FactsOf, KeyOk;
    AtInv(s, k);
    DecideKeyOk(FactsOf(s.log, s.reach, k), k !in s.kinds.surface, s.snap.covered, s.process, At(s, k), v);
    PutInv(s, k, At(s, k).(task := Terminating(v)));
  }

  /** The facts about a key once the command is requested. */
  lemma RequestedKeyOk(f: Facts, plain: bool, covered: nat, p: Process, x: KeyState, n: nat)
    requires KeyOk(f, plain, covered, p, x) && Sane(f) && p.Up? && p.phase.Serving? && x.task.Requesting? && n > f.r
    ensures KeyOk(Grown(f, n, Req("", x.id)), plain, covered, p, x.(task := Ready))
  {
    OneMore(f.open, x.id);
    assert MineOk(Grown(f, n, Req("", x.id)), x.(task := Ready));
    hide MineOk;
  }

  lemma OneMore<T>(s: set<T>, x: T)
    ensures |s + {x}| <= |s| + 1 && |s - {x}| <= |s| && (x in s ==> |s - {x}| == |s| - 1)
  {
    if x in s { assert s + {x} == s && s == (s - {x}) + {x}; } else { assert s - {x} == s; }
  }

  lemma RequestedKeeps(s: State, k: Key)
    requires Inv(s) && CanCommand(s, CommandStep.Requested(k))
    ensures Inv(Put(Append(s, Req(k, At(s, k).id)), k, At(s, k).(task := Ready)))
  {
    hide Inv, FactsOf, KeyOk;
    AtInv(s, k);
    var x := At(s, k);
    RequestBelow(s, k);
    RequestedKeyOk(FactsOf(s.log, s.reach, k), k !in s.kinds.surface, s.snap.covered, s.process, x, |s.log| + 1);
    FactsAppend(s.log, s.reach, Req(k, x.id), k);
    AppendPutInv(s, Req(k, x.id), k, x.(task := Ready));
  }

  lemma RequestBelow(s: State, k: Key)
    ensures FactsOf(s.log, s.reach, k).r <= |s.log|
  {
    hide LastTerm, FirstTerm, LastOwn, LastReq, Requests, Outcomes, OpenIds;
  }

  /** The key state after its terminal event was appended and marked. */
  function Marked(x: KeyState, n: nat, v: Outcome): KeyState {
    x.(hot := Some(Exact(v)), dirty := Some(MarkDirty(x.dirty, n, Some(v))), ops := x.ops + [Store(n, v)], mine := n)
  }

  /** All that queue and marks look at, once an outcome came `n`-th. */
  predicate Ended(f: Facts, f': Facts, n: nat, v: Outcome) {
    f'.t == n && f'.latest == v && f'.all == f.all + {v} && f'.past == f.past
  }

  lemma MarkedMine(f: Facts, f': Facts, x: KeyState, n: nat, v: Outcome)
    requires MemoryOk(f, x) && MineOk(f, x) && f.t < n && Ended(f, f', n, v)
    requires x.task.LoadingRetained? ==> x.task.sequence <= f.t
    ensures MemoryOk(f', Marked(x, n, v)) && MineOk(f', Marked(x, n, v))
  {
    var ops' := x.ops + [Store(n, v)];
    forall i | 0 <= i < |ops'| ensures OpOk(f', ops'[i]) && (i < |x.ops| ==> !StoreOf(ops'[i], n)) {
      if i < |x.ops| { assert OpOk(f, x.ops[i]); }
    }
  }

  /** A first terminal event closes the command it is of. */
  lemma SettleHistory(f: Facts, plain: bool, x: KeyState, n: nat, e: Ev)
    requires HistoryOk(f, plain, x) && Sane(f) && e.Term? && !e.recovered && f.t < n && f.r < n
    requires plain ==> f.t == 0
    requires f.t == 0 ==> f.r > 0 && e.id in f.open
    ensures HistoryOk(Grown(f, n, e), plain, x)
  {
    OneMore(f.open, e.id);
  }

  lemma SettleKeyOk(f: Facts, plain: bool, covered: nat, p: Process, x: KeyState, n: nat, e: Ev)
    requires KeyOk(f, plain, covered, p, x) && Sane(f) && p.Up? && p.phase.Serving? && e.Term? && !e.recovered
    requires f.t < n && f.r < n && covered < n
    requires plain ==> f.t == 0
    requires if x.task.Terminating? then e.id == x.id else f.t > 0 && f.r < f.t
    ensures var f' := Grown(f, n, e);
            var task := if x.task.Terminating? then Idle else x.task;
            && KeyOk(f', plain, covered, p, x.(hot := Some(Exact(e.value)), task := task))
            && KeyOk(f', plain, covered, p, Marked(x, n, e.value).(task := task))
  {
    SettleHistory(f, plain, x, n, e);
    hide HistoryOk, OutcomesOk;
    EndedKeyOk(f, Grown(f, n, e), plain, covered, p, x, n, e.value);
  }

  /** The rest of the key's invariant once an outcome came `n`-th. */
  lemma EndedKeyOk(f: Facts, f': Facts, plain: bool, covered: nat, p: Process, x: KeyState, n: nat, v: Outcome)
    requires KeyOk(f, plain, covered, p, x) && Sane(f) && p.Up? && p.phase.Serving?
    requires f.t < n && f.r < n && covered < n && Ended(f, f', n, v) && f'.r == f.r && HistoryOk(f', plain, x)
    requires x.task.Terminating? || (f.t > 0 && f.r < f.t)
    ensures var task := if x.task.Terminating? then Idle else x.task;
            && KeyOk(f', plain, covered, p, x.(hot := Some(Exact(v)), task := task))
            && KeyOk(f', plain, covered, p, Marked(x, n, v).(task := task))
  {
    var task := if x.task.Terminating? then Idle else x.task;
    SameHistory(f', plain, x, x.(hot := Some(Exact(v)), task := task));
    SameHistory(f', plain, x, Marked(x, n, v).(task := task));
    hide HistoryOk;
    MarkedMine(f, f', x, n, v);
    MineWithTask(f, f', x, n, v);
    hide MineOk, Settled;
  }

  lemma SameHistory(f: Facts, plain: bool, x: KeyState, y: KeyState)
    requires HistoryOk(f, plain, x) && y.runs == x.runs && y.rejected == x.rejected && y.givenUp == x.givenUp
    ensures HistoryOk(f, plain, y)
  {
  }

  lemma MineWithTask(f: Facts, f': Facts, x: KeyState, n: nat, v: Outcome)
    requires MemoryOk(f, x) && MineOk(f, x) && f.t < n && Ended(f, f', n, v) && MineOk(f', Marked(x, n, v))
    ensures MineOk(f', Marked(x, n, v).(task := Idle))
    ensures MineOk(f', x.(hot := Some(Exact(v)))) && MineOk(f', x.(hot := Some(Exact(v)), task := Idle))
  {
  }

  lemma SettleFacts(s: State, k: Key)
    requires KeyInv(s, k) && DiskInv(s) && s.process.Up?
    requires At(s, k).task.Terminating? || (k in s.kinds.surface && LastTerm(s.log, k) > 0)
    ensures var f := FactsOf(s.log, s.reach, k);
            && f.t < |s.log| + 1 && f.r < |s.log| + 1 && s.snap.covered < |s.log| + 1
            && (k !in s.kinds.surface ==> f.t == 0)
            && (At(s, k).task.Terminating? || (f.t > 0 && f.r < f.t))
  {
    hide LastTerm, FirstTerm, LastOwn, LastReq, Requests, Outcomes, OpenIds, OpenSet, TerminalKeys, MemoryOk, MineOk;
    FirstBelow(s.log, k);
  }

  lemma FirstBelow(log: seq<Ev>, k: Key)
    ensures FirstTerm(log, k) <= LastTerm(log, k)
  {
    OutcomesFacts(log, k);
  }

  /** What is put for the key when its terminal event is appended. */
  function SettledKey(x: KeyState, n: nat, v: Outcome, full: bool): KeyState {
    if MarkThrows(x.dirty, full) then x.(hot := Some(Exact(v))) else Marked(x, n, v)
  }

  lemma SettleIs(s: State, k: Key, id: nat, v: Outcome, full: bool)
    ensures var y := SettledKey(At(s, k), |s.log| + 1, v, full);
            var s1 := Append(s, Term(k, id, v, false));
            && Settle(s, k, id, v, full) == Invalidate(Put(s1, k, y))
            && EndCommand(Settle(s, k, id, v, full), k) == Invalidate(Put(s1, k, y.(task := Idle)))
  {
    var y := SettledKey(At(s, k), |s.log| + 1, v, full);
    var s1 := Append(s, Term(k, id, v, false));
    var s2 := Invalidate(Put(s1, k, y));
    assert At(s2, k) == y;
    assert s2.keys[k := y.(task := Idle)] == Put(s1, k, y.(task := Idle)).keys;
  }

  lemma SettleKeeps(s: State, k: Key, id: nat, v: Outcome, full: bool)
    requires Inv(s) && IsServing(s)
    requires if At(s, k).task.Terminating? then id == At(s, k).id else k in s.kinds.surface && LastTerm(s.log, k) > 0
    ensures At(s, k).task.Terminating? ==> Inv(EndCommand(Settle(s, k, id, v, full), k))
    ensures !At(s, k).task.Terminating? ==> Inv(Settle(s, k, id, v, full))
  {
    hide Inv, LastTerm, LastReq, Requests, Outcomes, OpenSet, TerminalKeys, KeyOk, FactsOf, Grown, LastOwn, OpenIds;
    AtInv(s, k);
    var x := At(s, k);
    var n := |s.log| + 1;
    var e := Term(k, id, v, false);
    SettleIs(s, k, id, v, full);
    FactsAppend(s.log, s.reach, e, k);
    SettleFacts(s, k);
    SettleKeyOk(FactsOf(s.log, s.reach, k), k !in s.kinds.surface, s.snap.covered, s.process, x, n, e);
    var task := if x.task.Terminating? then Idle else x.task;
    var y := SettledKey(x, n, v, full).(task := task);
    assert Lost(y) == Lost(x) && y.side == x.side;
    hide Settle, EndCommand, Invalidate, SettledKey, Put;
    AppendPutInv(s, e, k, y);
  }

  // ---- Commands that are given up ----

  /** Given up once more, a command may be requested and run once more. */
  lemma GiveUpKeyOk(f: Facts, plain: bool, covered: nat, p: Process, x: KeyState, y: KeyState)
    requires KeyOk(f, plain, covered, p, x) && p.Up? && p.phase.Serving?
    requires y == x.(task := Idle, rejected := y.rejected, givenUp := y.givenUp) && Lost(y) == Lost(x) + 1
    ensures KeyOk(f, plain, covered, p, y)
  {
    assert MineOk(f, y);
    hide MineOk;
  }

  lemma GiveUpKeeps(s: State, k: Key)
    requires Inv(s) && CanCommand(s, GiveUp(k))
    ensures Inv(Put(s, k, At(s, k).(task := Idle, givenUp := At(s, k).givenUp + 1)))
  {
    hide Inv, KeyOk, FactsOf;
    AtInv(s, k);
    var x := At(s, k);
    var y := x.(task := Idle, givenUp := x.givenUp + 1);
    GiveUpKeyOk(FactsOf(s.log, s.reach, k), k !in s.kinds.surface, s.snap.covered, s.process, x, y);
    PutInv(s, k, y);
  }

  /** What a rejected append may leave at the end of the file. */
  lemma TornSet(s: State, torn: Option<Ev>)
    requires Inv(s) && IsServing(s) && (torn.Some? ==> Adoptable(s, torn.value))
    ensures Inv(s.(torn := torn))
  {
    hide KeyOk, FactsOf, OpenSet, TerminalKeys, LastTerm, LastReq, Requests, Outcomes, VerifiedOk;
    TornKeys(s, torn);
    TornStartup(s, torn);
    TornAttempt(s, torn);
  }

  lemma TornKeys(s: State, torn: Option<Ev>)
    requires KeysInv(s)
    ensures KeysInv(s.(torn := torn))
  {
    hide KeyOk, FactsOf;
    forall k: Key ensures KeyInv(s.(torn := torn), k) {
      assert KeyInv(s, k);
    }
  }

  lemma TornStartup(s: State, torn: Option<Ev>)
    requires StartupInv(s)
    ensures StartupInv(s.(torn := torn))
  {
    hide TerminalKeys, LastTerm, LastReq, Outcomes;
  }

  lemma TornAttempt(s: State, torn: Option<Ev>)
    requires AttemptInv(s)
    ensures AttemptInv(s.(torn := torn))
  {
    hide FactsOf, OpenSet, TerminalKeys, LastTerm, RecOld, CleanThrough;
  }

  lemma InFlightAdoptable(s: State, e: Ev)
    requires Inv(s) && IsServing(s) && InFlight(s, e)
    ensures Adoptable(s, e)
  {
    if !e.Note? { AdoptedFacts(s, e, e.key); }
  }

  lemma RejectedKeeps(s: State, e: Ev, torn: Option<Ev>)
    requires Inv(s) && CanCommand(s, AppendRejected(e, torn))
    ensures Inv(DoAppendRejected(s, e, torn))
  {
    hide Inv, KeyOk, FactsOf, Adoptable, InFlight;
    InFlightAdoptable(s, e);
    TornAdoptable(s);
    TornSet(s, torn);
    var s1 := s.(torn := torn);
    if !e.Note? {
      var k, x := e.key, At(s, e.key);
      AtInv(s1, k);
      if e.Req? {
        AtInv(s, k);
        RequestingFacts(s, e);
        TaskInv(s1, k, x.id, Idle);
      } else if x.task == Terminating(e.value) && x.id == e.id {
        var y := x.(task := Idle, rejected := x.rejected + 1);
        GiveUpKeyOk(FactsOf(s.log, s.reach, k), k !in s.kinds.surface, s.snap.covered, s.process, x, y);
        PutInv(s1, k, y);
      }
    }
  }

  lemma TornAdoptable(s: State)
    requires Inv(s)
    ensures s.torn.Some? ==> Adoptable(s, s.torn.value)
  {
    hide KeysInv, DiskInv, StartupInv, AttemptInv, Adoptable;
  }

  lemma RequestingFacts(s: State, e: Ev)
    requires e.Req? && KeyInv(s, e.key) && IsServing(s) && InFlight(s, e)
    ensures TaskOk(FactsOf(s.log, s.reach, e.key), false, At(s, e.key).(task := Idle))
  {
    hide MemoryOk, MineOk, HistoryOk, EvidenceOk;
  }

  // ---- Publication queues ----

  lemma FlushKeyOk(f: Facts, plain: bool, covered: nat, p: Process, x: KeyState)
    requires KeyOk(f, plain, covered, p, x) && x.dirty.Some? && x.dirty.value.outcome.Some?
    ensures KeyOk(f, plain, covered, p,
                  x.(ops := x.ops + [Store(x.dirty.value.sequence, x.dirty.value.outcome.value)]))
  {
    var op := Store(x.dirty.value.sequence, x.dirty.value.outcome.value);
    var ops' := x.ops + [op];
    forall i | 0 <= i < |ops'| ensures OpOk(f, ops'[i]) {
      if i < |x.ops| { assert ops'[i] == x.ops[i]; }
    }
  }

  lemma FlushKeeps(s: State, k: Key)
    requires Inv(s) && CanQueue(s, FlushDirty(k))
    ensures Inv(ApplyQueue(s, FlushDirty(k)))
  {
    hide Inv, FactsOf, KeyOk;
    AtInv(s, k);
    var x := At(s, k);
    FlushKeyOk(FactsOf(s.log, s.reach, k), k !in s.kinds.surface, s.snap.covered, s.process, x);
    PutInv(s, k, x.(ops := x.ops + [Store(x.dirty.value.sequence, x.dirty.value.outcome.value)]));
  }

  lemma PublishKeyOk(f: Facts, plain: bool, covered: nat, p: Process, x: KeyState)
    requires KeyOk(f, plain, covered, p, x) && Sane(f) && x.ops != []
    ensures KeyOk(f, plain, covered, p, DoPublish(x))
  {
    assert OpOk(f, x.ops[0]);
  }

  lemma PublishKeeps(s: State, k: Key)
    requires Inv(s) && CanQueue(s, Publish(k))
    ensures Inv(Put(s, k, DoPublish(At(s, k))))
  {
    hide Inv, FactsOf, KeyOk;
    AtInv(s, k);
    PublishKeyOk(FactsOf(s.log, s.reach, k), k !in s.kinds.surface, s.snap.covered, s.process, At(s, k));
    PutInv(s, k, DoPublish(At(s, k)));
  }

  lemma DequeueKeyOk(f: Facts, plain: bool, covered: nat, p: Process, x: KeyState)
    requires KeyOk(f, plain, covered, p, x) && x.ops != []
    ensures KeyOk(f, plain, covered, p, Dequeue(x))
    ensures x.ops[0].Store? && !x.head.Waiting? ==>
              KeyOk(f, plain, covered, p, Dequeue(x).(dirty := ClearDirty(x.dirty, x.ops[0].sequence)))
  {
    assert OpOk(f, x.ops[0]);
    forall i | 0 <= i < |x.ops| - 1 ensures x.ops[1..][i] == x.ops[i + 1] && OpOk(f, x.ops[1..][i]) {}
  }

  /** A report only changes the stage of a marking attempt. */
  lemma ReportKeeps(s: State, k: Key, replaced: bool)
    requires Inv(s)
    ensures Inv(Report(s, k, replaced))
  {
    hide KeysInv, OpenSet, TerminalKeys, VerifiedOk;
    if Attempting(s) && TheAttempt(s).stage.Marking? {
      SamePhaseKeys(s, Report(s, k, replaced).process);
      ReportAttempt(s, k, replaced);
    }
  }

  lemma ReportAttempt(s: State, k: Key, replaced: bool)
    requires AttemptInv(s) && StartupInv(s) && Attempting(s) && TheAttempt(s).stage.Marking?
    ensures AttemptInv(Report(s, k, replaced)) && StartupInv(Report(s, k, replaced))
  {
    hide FactsOf, LastTerm, LastReq, Outcomes, OpenSet, TerminalKeys, RecOld;
  }

  lemma OpFailsKeeps(s: State, k: Key)
    requires Inv(s) && CanQueue(s, OpFails(k))
    ensures Inv(DoOpFails(s, k))
  {
    hide Inv, FactsOf, KeyOk, Report;
    AtInv(s, k);
    DequeueKeyOk(FactsOf(s.log, s.reach, k), k !in s.kinds.surface, s.snap.covered, s.process, At(s, k));
    PutInv(s, k, Dequeue(At(s, k)));
    ReportKeeps(Put(s, k, Dequeue(At(s, k))), k, false);
  }

  lemma FinishKeeps(s: State, k: Key, synced: bool)
    requires Inv(s) && CanQueue(s, Finish(k, synced))
    ensures Inv(DoFinish(s, k, synced))
  {
    hide Inv, FactsOf, KeyOk, Report;
    AtInv(s, k);
    var x := At(s, k);
    DequeueKeyOk(FactsOf(s.log, s.reach, k), k !in s.kinds.surface, s.snap.covered, s.process, x);
    match x.ops[0]
    case Store(n, _) =>
      PutInv(s, k, Dequeue(x));
      PutInv(s, k, Dequeue(x).(dirty := ClearDirty(x.dirty, n)));
    case Replace(_) =>
      PutInv(s, k, Dequeue(x));
      ReportKeeps(Put(s, k, Dequeue(x)), k, x.head.Published? && synced);
  }

  // ---- Compaction ----

  lemma AttemptChange(s: State, a: Option<Attempt>)
    requires Inv(s) && s.process.Up? && !s.process.phase.Recovering?
    requires AttemptInv(WithAttempt(s, a))
    ensures Inv(WithAttempt(s, a))
  {
    hide KeysInv, AttemptInv, OpenSet, TerminalKeys, Outcomes, LastTerm, LastReq;
    SamePhaseKeys(s, WithAttempt(s, a).process);
  }

  lemma EndAttemptKeeps(s: State)
    requires Inv(s) && Attempting(s)
    ensures Inv(EndAttempt(s))
  {
    hide KeysInv, OpenSet, TerminalKeys, Outcomes, LastTerm, LastReq;
    AttemptChange(s, None);
  }

  /** Going on to a stage keeps the invariant when that stage's own condition holds. */
  lemma ProceedKeeps(s: State, stage: Stage)
    requires Inv(s) && Attempting(s)
    requires !ShouldAbort(s) ==> StageOk(s, TheAttempt(s).(stage := stage))
    ensures Inv(Proceed(s, stage))
  {
    hide KeysInv, DiskInv, FactsOf, LastTerm, LastReq, Outcomes, OpenSet, TerminalKeys, RecOld;
    EndAttemptKeeps(s);
    if !ShouldAbort(s) {
      StageSame(s, TheAttempt(s).(stage := stage));
      AttemptChange(s, Some(TheAttempt(s).(stage := stage)));
    }
  }

  lemma StageSame(s: State, a: Attempt)
    requires s.process.Up? && StageOk(s, a)
    ensures StageOk(WithAttempt(s, Some(a)), a)
  {
    hide FactsOf, LastTerm, OpenSet, TerminalKeys;
  }

  lemma ReachKeys(s: State, reach: nat)
    requires KeysInv(s) && s.reach <= reach <= |s.log|
    ensures KeysInv(s.(reach := reach))
  {
    hide KeyOk, FactsOf;
    forall k: Key ensures KeyInv(s.(reach := reach), k) {
      assert KeyInv(s, k);
      FactsReach(s.log, s.reach, reach, k);
      MorePast(FactsOf(s.log, s.reach, k), FactsOf(s.log, reach, k).past, k !in s.kinds.surface, s.snap.covered,
               s.process, At(s, k));
    }
  }

  lemma MorePast(f: Facts, past: set<Outcome>, plain: bool, covered: nat, p: Process, x: KeyState)
    requires KeyOk(f, plain, covered, p, x) && f.past <= past
    ensures KeyOk(f.(past := past), plain, covered, p, x)
  {
    var f' := f.(past := past);
    assert f.past != {} ==> past != {};
    forall i | 0 <= i < |x.ops| ensures OpOk(f', x.ops[i]) { assert OpOk(f, x.ops[i]); }
  }

  lemma BeginKeeps(s: State)
    requires Inv(s) && CanCompact(s, Begin)
    ensures Inv(DoBegin(s))
  {
    hide KeysInv, OpenSet, TerminalKeys, Outcomes, LastTerm, LastReq, FactsOf;
    var covered := |s.log| - RETAINED_EVENTS;
    ReachKeys(s, covered);
    SamePhaseKeys(s.(reach := covered), DoBegin(s).process);
  }

  lemma TargetsOk(s: State, a: Attempt)
    requires Inv(s) && Attempting(s) && a == TheAttempt(s)
    ensures TodoOk(s, a.covered, Targets(s, s.process.first, a.covered))
  {
    hide KeysInv, LastTerm, TerminalKeys, Outcomes, StartupInv;
    var todo := Targets(s, s.process.first, a.covered);
    forall k: Key | 0 < LastTerm(s.log, k) && s.process.first <= LastTerm(s.log, k) <= a.covered ensures k in todo {
      TerminalKeysMember(s.log, k);
    }
    forall k | k in todo ensures todo[k] in FactsOf(s.log, s.reach, k).past {
      FactsSane(s.log, s.reach, k);
    }
  }

  lemma FlushedKeeps(s: State)
    requires Inv(s) && CanCompact(s, Flushed)
    ensures Inv(ApplyCompaction(s, Flushed))
  {
    hide Inv, Targets, TodoOk;
    TargetsOk(s, TheAttempt(s));
    ProceedKeeps(s, Verifying(Targets(s, s.process.first, TheAttempt(s).covered)));
  }

  lemma VerifyKeeps(s: State, k: Key, ok: bool)
    requires Inv(s) && CanCompact(s, Verify(k, ok))
    ensures Inv(DoVerify(s, k, ok))
  {
    hide Inv, KeyOk, FactsOf, AttemptInv, CleanThrough;
    EndAttemptKeeps(s);
    var a := TheAttempt(s);
    var todo := a.stage.todo;
    if !ShouldAbort(s) && ok && (At(s, k).side == Some(Marker) || At(s, k).side == Some(Exact(todo[k]))) {
      VerifyAttempt(s, k);
      AttemptChange(s, Some(a.(expected := a.expected[k := At(s, k).side.value], stage := Verifying(todo - {k}))));
    }
  }

  lemma VerifyAttempt(s: State, k: Key)
    requires Inv(s) && Attempting(s) && TheAttempt(s).stage.Verifying? && k in TheAttempt(s).stage.todo
    requires !ShouldAbort(s)
    requires At(s, k).side == Some(Marker) || At(s, k).side == Some(Exact(TheAttempt(s).stage.todo[k]))
    ensures var a := TheAttempt(s);
            AttemptInv(WithAttempt(s, Some(a.(expected := a.expected[k := At(s, k).side.value],
                                              stage := Verifying(a.stage.todo - {k})))))
            && !s.process.phase.Recovering?
  {
    hide KeysInv, DiskInv, StartupInv, FactsOf, LastTerm, KeyOk, CleanThrough, RecOk, RecOld;
    NotRecovering(s);
    MarkerRec(s, k);
    var a := TheAttempt(s);
    SideOld(FactsOf(s.log, s.reach, k), At(s, k).side.value, a.stage.todo[k]);
    VerifiedMore(s, a, k, a.stage.todo - {k});
  }

  lemma SideOld(f: Facts, rec: Rec, covered: Outcome)
    requires covered in f.past && (rec == Exact(covered) || (rec == Marker && RecOk(f, rec)))
    ensures RecOld(f, rec)
  {
  }

  lemma VerifiedMore(s: State, a: Attempt, k: Key, todo: map<Key, Outcome>)
    requires s.process.Up? && VerifiedOk(s, a) && a.stage.Verifying? && TodoOk(s, a.covered, a.stage.todo)
    requires At(s, k).side.Some? && RecOld(FactsOf(s.log, s.reach, k), At(s, k).side.value)
    requires todo == a.stage.todo - {k}
    ensures var a' := a.(expected := a.expected[k := At(s, k).side.value], stage := Verifying(todo));
            VerifiedOk(WithAttempt(s, Some(a')), a') && StageOk(WithAttempt(s, Some(a')), a')
  {
    hide FactsOf, LastTerm, RecOld;
  }

  lemma MarkerRec(s: State, k: Key)
    requires KeysInv(s)
    ensures At(s, k).side == Some(Marker) ==> RecOk(FactsOf(s.log, s.reach, k), Marker)
  {
    hide FactsOf, EvidenceOk, MemoryOk, TaskOk, MineOk;
    assert KeyInv(s, k);
  }

  lemma NotRecovering(s: State)
    requires StartupInv(s) && Attempting(s)
    ensures !s.process.phase.Recovering?
  {
  }

  lemma VerifiedKeeps(s: State)
    requires Inv(s) && CanCompact(s, Verified)
    ensures Inv(Proceed(s, Snapshotting))
  {
    hide KeysInv, StartupInv, FactsOf, LastTerm, OpenSet, TerminalKeys;
    var a := TheAttempt(s);
    forall k: Key | 0 < LastTerm(s.log, k) <= a.covered ensures At(s, k).side.Some? {
      EvidenceAt(s, k);
    }
    ProceedKeeps(s, Snapshotting);
  }

  /** A key whose last terminal event left the memory has its sidecar. */
  lemma EvidenceAt(s: State, k: Key)
    requires Inv(s)
    ensures 0 < LastTerm(s.log, k) <= s.snap.covered ==> At(s, k).side.Some?
    ensures s.process.Up? ==> s.process.first <= s.diskFirst <= s.snap.covered + 1
  {
    hide LastTerm, OpenSet, TerminalKeys, AttemptInv, MemoryOk, TaskOk, MineOk, HistoryOk;
    assert KeyInv(s, k);
  }

  lemma EventsSinceIs(s: State, covered: nat)
    requires DiskInv(s) && StartupInv(s) && s.process.Up? && s.snap.covered <= covered <= |s.log|
    ensures EventsSince(s, s.process.first, s.snap.covered, covered) == s.log[s.snap.covered..covered]
    ensures FoldOpen(s.snap.open, s.log[s.snap.covered..covered]) == OpenSet(s.log[..covered])
  {
    hide FoldOpen, TerminalKeys;
    assert s.log[..covered] == s.log[..s.snap.covered] + s.log[s.snap.covered..covered];
    FoldOpenConcat({}, s.log[..s.snap.covered], s.log[s.snap.covered..covered]);
  }

  lemma SliceTerminalKeys(log: seq<Ev>, a: nat, b: nat)
    requires a <= b <= |log|
    ensures TerminalKeys(log[a..b]) <= TerminalKeys(log)
  {
    forall e | e in log[a..b] ensures e in log {}
  }

  lemma TakeSnapshotKeeps(s: State, ok: bool, done: set<Key>)
    requires Inv(s) && CanCompact(s, TakeSnapshot(ok, done))
    ensures Inv(ApplyCompaction(s, TakeSnapshot(ok, done)))
  {
    hide KeysInv, FactsOf, LastTerm, LastReq, Outcomes, FoldOpen, OpenSet, TerminalKeys, VerifiedOk;
    EndAttemptKeeps(s);
    var a := TheAttempt(s);
    EventsSinceIs(s, a.covered);
    SliceTerminalKeys(s.log, s.snap.covered, a.covered);
    if ok {
      var next := Snap(a.covered, NextOpen(s), done);
      VerifiedSame(s, a, SnapReady(next));
      AttemptChange(s, Some(a.(stage := SnapReady(next))));
    }
  }

  lemma VerifiedSame(s: State, a: Attempt, stage: Stage)
    requires s.process.Up? && VerifiedOk(s, a)
    ensures VerifiedOk(WithAttempt(s, Some(a.(stage := stage))), a.(stage := stage))
  {
    hide FactsOf, RecOld;
  }

  lemma GuardSnapshotKeeps(s: State)
    requires Inv(s) && CanCompact(s, GuardSnapshot)
    ensures Inv(ApplyCompaction(s, GuardSnapshot))
  {
    hide KeysInv, DiskInv, FactsOf, LastTerm, LastReq, Outcomes, TerminalKeys, OpenSet, VerifiedOk;
    var a := TheAttempt(s);
    var stage := if ShouldAbort(s) then SnapWritten else SnapRenaming(a.stage.next);
    VerifiedSame(s, a, stage);
    AttemptChange(s, Some(a.(stage := stage)));
  }

  lemma SnapshotKeys(s: State, next: Snap)
    requires KeysInv(s) && SidesThrough(s, next.covered)
    ensures KeysInv(s.(snap := next))
  {
    hide HistoryOk, MemoryOk, TaskOk, MineOk, PhaseOk;
    forall k: Key ensures KeyInv(s.(snap := next), k) {
      assert KeyInv(s, k);
    }
  }

  lemma SnapshotRenamedKeeps(s: State, synced: bool)
    requires Inv(s) && CanCompact(s, SnapshotRenamed(synced))
    ensures Inv(ApplyCompaction(s, SnapshotRenamed(synced)))
  {
    hide KeysInv, FactsOf, LastTerm, LastReq, Outcomes, TerminalKeys, OpenSet, VerifiedOk;
    var a := TheAttempt(s);
    var next := a.stage.next;
    var s1 := s.(snap := next);
    SnapshotKeys(s, next);
    VerifiedSnap(s, a, next);
    VerifiedSame(s1, a, SnapWritten);
    SamePhaseKeys(s1, WithAttempt(s1, None).process);
    SamePhaseKeys(s1, WithAttempt(s1, Some(a.(stage := SnapWritten))).process);
  }

  lemma VerifiedSnap(s: State, a: Attempt, next: Snap)
    requires VerifiedOk(s, a)
    ensures VerifiedOk(s.(snap := next), a)
  {
    hide FactsOf, RecOld;
  }

  lemma SimpleStages(s: State)
    requires Inv(s) && Attempting(s)
    ensures TheAttempt(s).stage.SnapWritten? ==> Inv(ApplyCompaction(s, AfterSnapshot))
    ensures TheAttempt(s).stage.Compacting? ==> Inv(ApplyCompaction(s, GuardCompact))
    ensures TheAttempt(s).stage.Marking? && CanCompact(s, StartBatch) ==> Inv(DoStartBatch(s))
    ensures CanCompact(s, BatchDone) ==> Inv(ApplyCompaction(s, BatchDone))
  {
    hide KeysInv, DiskInv, FactsOf, LastTerm, LastReq, Outcomes, TerminalKeys, OpenSet, VerifiedOk;
    EndAttemptKeeps(s);
    var a := TheAttempt(s);
    match a.stage
    case SnapWritten => ProceedKeeps(s, Marking(a.expected.Keys, {}, 0, false));
    case Compacting => ProceedKeeps(s, CompactRenaming);
    case Marking(left, _, _, _) =>
      ProceedKeeps(s, Compacting);
      ProceedKeeps(s, a.stage.(room := MARKER_BATCH));
      VerifiedSame(s, a, a.stage.(room := 0));
      NotRecovering(s);
      AttemptChange(s, Some(a.(stage := a.stage.(room := 0))));
    case _ =>
  }

  lemma MarkerKeyOk(f: Facts, plain: bool, covered: nat, p: Process, x: KeyState, rec: Rec)
    requires KeyOk(f, plain, covered, p, x) && RecOld(f, rec) && p.Up? && !p.phase.Recovering?
    ensures KeyOk(f, plain, covered, p, x.(ops := x.ops + [Replace(rec)]))
  {
    var ops' := x.ops + [Replace(rec)];
    forall i | 0 <= i < |ops'| ensures OpOk(f, ops'[i]) {
      if i < |x.ops| { assert ops'[i] == x.ops[i]; }
    }
    assert x.ops != [] ==> ops'[0] == x.ops[0];
    hide MineOk;
    MarkerMine(f, x, rec);
  }

  lemma MarkerMine(f: Facts, x: KeyState, rec: Rec)
    requires MineOk(f, x)
    ensures MineOk(f, x.(ops := x.ops + [Replace(rec)]))
  {
    var ops' := x.ops + [Replace(rec)];
    assert !Replace(rec).Store?;
    if 0 < x.mine == f.t {
      forall i | 0 <= i < |ops'| && ops'[i].Store? ensures i < |x.ops| && ops'[i] == x.ops[i] {}
      forall i, j | 0 <= i < j < |ops'| && StoreOf(ops'[i], f.t) && ops'[j].Store? ensures StoreOf(ops'[j], f.t) {
        assert StoreOf(x.ops[i], f.t);
      }
      forall i | 0 <= i < |ops'| && StoreOf(ops'[i], f.t) ensures ops'[i].value == f.latest {
        assert StoreOf(x.ops[i], f.t);
      }
    }
  }

  lemma EnqueueMarkerKeeps(s: State, k: Key)
    requires Inv(s) && CanCompact(s, EnqueueMarker(k))
    ensures Inv(DoEnqueueMarker(s, k))
  {
    hide KeysInv, DiskInv, FactsOf, LastTerm, LastReq, Outcomes, TerminalKeys, OpenSet, RecOld;
    var x := At(s, k);
    var a := TheAttempt(s);
    var stage := a.stage.(left := a.stage.left - {k}, pending := a.stage.pending + {k}, room := a.stage.room - 1);
    VerifiedSame(s, a, stage);
    NotRecovering(s);
    AttemptChange(s, Some(a.(stage := stage)));
    var s1 := WithStage(s, stage);
    MarkerPut(s1, k, a.expected[k]);
  }

  lemma MarkerPut(s: State, k: Key, rec: Rec)
    requires Inv(s) && RecOld(FactsOf(s.log, s.reach, k), rec) && s.process.Up? && !s.process.phase.Recovering?
    ensures Inv(Put(s, k, At(s, k).(ops := At(s, k).ops + [Replace(rec)])))
  {
    hide Inv, FactsOf, KeyOk;
    AtInv(s, k);
    MarkerKeyOk(FactsOf(s.log, s.reach, k), k !in s.kinds.surface, s.snap.covered, s.process, At(s, k), rec);
    PutInv(s, k, At(s, k).(ops := At(s, k).ops + [Replace(rec)]));
  }

  lemma CompactRenamedKeeps(s: State, synced: bool)
    requires Inv(s) && CanCompact(s, CompactRenamed(synced))
    ensures Inv(ApplyCompaction(s, CompactRenamed(synced)))
  {
    hide KeysInv, FactsOf, LastTerm, LastReq, Outcomes, TerminalKeys, OpenSet, VerifiedOk;
    SameKeys(s, ApplyCompaction(s, CompactRenamed(synced)));
  }

  /** Where the journal starts is no part of a key's invariant. */
  lemma SameKeys(s: State, s': State)
    requires KeysInv(s) && s.process.Up? && s'.process.Up? && s'.process.phase == s.process.phase
    requires s' == s.(process := s'.process, diskFirst := s'.diskFirst)
    ensures KeysInv(s')
  {
    hide HistoryOk, EvidenceOk, MemoryOk, TaskOk, MineOk, FactsOf;
    forall k: Key ensures KeyInv(s', k) {
      assert KeyInv(s, k);
    }
  }

  // ---- Other events, death and restart ----

  lemma OtherEventKeeps(s: State)
    requires Inv(s) && s.process.Up?
    ensures Inv(Append(s, Ev.Note))
  {
    hide KeysInv, StartupInv, AttemptInv, OpenSet, TerminalKeys;
    AppendKeys(s, Ev.Note, "");
    DiskAppend(s, Ev.Note);
    StartupAppend(s, Ev.Note);
    AttemptAppend(s, Ev.Note);
  }

  lemma ForgetKeyOk(f: Facts, plain: bool, covered: nat, p: Process, x: KeyState)
    requires KeyOk(f, plain, covered, p, x)
    ensures KeyOk(f, plain, covered, Down, Forget(x))
  {
  }

  lemma DieKeeps(s: State)
    requires Inv(s)
    ensures Inv(Die(s))
  {
    hide FactsOf, KeyOk, OpenSet, TerminalKeys;
    forall k: Key ensures KeyInv(Die(s), k) {
      assert KeyInv(s, k);
      ForgetKeyOk(FactsOf(s.log, s.reach, k), k !in s.kinds.surface, s.snap.covered, s.process, At(s, k));
      assert At(Die(s), k) == Forget(At(s, k));
    }
  }

  /** An append in flight when the process dies may have been committed all the same. */
  lemma CrashKeyOk(f: Facts, plain: bool, covered: nat, p: Process, x: KeyState, n: nat, e: Ev)
    requires KeyOk(f, plain, covered, p, x) && Sane(f) && p.Up? && n > f.t && n > f.r && n > covered
    requires match e
             case Note => false
             case Req(_, _) => f.t == 0 && f.requests <= Lost(x)
             case Term(_, id, v, recovered) =>
               f.r > 0
               && if recovered then v == RECOVERED && id in f.open else if f.t == 0 then id in f.open else !plain
    requires x.side.Some? && !RecOk(f, x.side.value) ==>
               Ahead(f, plain, x.side.value) && e.Term? && (e.recovered || e.value == ApprovalLost)
    ensures KeyOk(Grown(f, n, e), plain, covered, Down, Forget(x))
  {
    GrownHistory(f, plain, x, n, e);
    hide HistoryOk;
    SameHistory(Grown(f, n, e), plain, x, Forget(x));
  }

  lemma GrownHistory(f: Facts, plain: bool, x: KeyState, n: nat, e: Ev)
    requires HistoryOk(f, plain, x) && Sane(f) && n > f.t && n > f.r && !e.Note?
    requires match e
             case Req(_, _) => f.t == 0 && f.requests <= Lost(x)
             case Term(_, id, v, recovered) =>
               f.r > 0
               && if recovered then v == RECOVERED && id in f.open else if f.t == 0 then id in f.open else !plain
    ensures HistoryOk(Grown(f, n, e), plain, x)
  {
    OneMore(f.open, e.id);
  }

  lemma CrashKeeps(s: State, adopted: Option<Ev>)
    requires Inv(s) && CanLive(s, Crash(adopted))
    ensures Inv(ApplyLife(s, Crash(adopted)))
  {
    hide KeyOk, FactsOf, OpenSet, TerminalKeys, AttemptInv, KeysInv;
    if adopted.None? {
      DieKeeps(s);
    } else {
      var e := adopted.value;
      DiskAppend(s, e);
      AdoptedKeys(s, e);
      DownInv(Append(s, e));
    }
  }

  lemma DownInv(s: State)
    requires DiskInv(s) && KeysInv(Die(s))
    ensures Inv(Die(s))
  {
    hide KeysInv, OpenSet, TerminalKeys;
  }

  lemma AdoptedKeys(s: State, e: Ev)
    requires Inv(s) && CanLive(s, Crash(Some(e)))
    ensures KeysInv(Die(Append(s, e)))
  {
    hide Inv, KeyInv, Die, CanLive, About;
    forall k: Key ensures KeyInv(Die(Append(s, e)), k) {
      AdoptedKey(s, e, k);
    }
  }

  lemma AdoptedKey(s: State, e: Ev, k: Key)
    requires Inv(s) && CanLive(s, Crash(Some(e)))
    ensures KeyInv(Die(Append(s, e)), k)
  {
    hide Inv, KeyOk, FactsOf, LastTerm, LastReq, Requests, Outcomes, Forget, Grown;
    AtInv(s, k);
    DeadKey(Append(s, e), k);
    if About(e, k) {
      AdoptedAbout(s, e, k, FactsOf(s.log, s.reach, k));
      FactsAppend(s.log, s.reach, e, k);
    } else {
      FactsAppendOther(s.log, s.reach, e, k);
      ForgetKeyOk(FactsOf(s.log, s.reach, k), k !in s.kinds.surface, s.snap.covered, s.process, At(s, k));
    }
  }

  lemma DeadKey(s: State, k: Key)
    ensures At(Die(s), k) == Forget(At(s, k))
  {
  }

  lemma AdoptedAbout(s: State, e: Ev, k: Key, f: Facts)
    requires Inv(s) && s.process.Up? && (InFlight(s, e) || s.torn == Some(e)) && About(e, k)
    requires f == FactsOf(s.log, s.reach, k)
    ensures KeyOk(Grown(f, |s.log| + 1, e), k !in s.kinds.surface, s.snap.covered, Down, Forget(At(s, k)))
  {
    hide KeyOk, FactsOf, LastTerm, LastReq, Requests, Outcomes, Forget, Grown, At, InFlight;
    AdoptedFacts(s, e, k);
    AtInv(s, k);
    hide Inv;
    CrashKeyOk(f, k !in s.kinds.surface, s.snap.covered, s.process, At(s, k), |s.log| + 1, e);
  }

  /** What an event in flight says about its key so far. */
  lemma AdoptedFacts(s: State, e: Ev, k: Key)
    requires Inv(s) && s.process.Up? && (InFlight(s, e) || s.torn == Some(e)) && About(e, k)
    ensures var f, side, plain := FactsOf(s.log, s.reach, k), At(s, k).side, k !in s.kinds.surface;
            && f.r <= |s.log| && f.t <= |s.log|
            && (side.Some? && !RecOk(f, side.value) ==>
                  Ahead(f, plain, side.value) && e.Term? && (e.recovered || e.value == ApprovalLost))
            && (e.Req? ==> f.t == 0 && f.requests <= Lost(At(s, k)))
            && (e.Term? ==>
                  f.r > 0
                  && if e.recovered then e.value == RECOVERED && e.id in f.open
                     else if f.t == 0 then e.id in f.open else !plain)
  {
    AdoptedEvent(s, e, k);
    AdoptedSide(s, e, k);
    hide LastTerm, FirstTerm, LastOwn, LastReq, Requests, Outcomes, OpenIds, Inv, InFlight;
  }

  /** A sidecar ahead of its event is there only while starting up. */
  lemma AdoptedSide(s: State, e: Ev, k: Key)
    requires Inv(s) && s.process.Up? && (InFlight(s, e) || s.torn == Some(e)) && About(e, k)
    ensures var f, side := FactsOf(s.log, s.reach, k), At(s, k).side;
            side.Some? && !RecOk(f, side.value) ==>
              Ahead(f, k !in s.kinds.surface, side.value) && e.Term? && (e.recovered || e.value == ApprovalLost)
  {
    hide LastTerm, FirstTerm, LastOwn, LastReq, Requests, Outcomes, OpenIds, FactsOf, MemoryOk, MineOk, HistoryOk;
    hide AttemptInv, DiskInv, StartupInv, EvidenceOk, RecOk, Ahead;
    assert KeyInv(s, k);
  }

  /** Of an event that is no recovery: what its key must be like. */
  predicate EventFits(f: Facts, plain: bool, lost: nat, e: Ev) {
    && (e.Req? ==> f.t == 0 && f.requests <= lost)
    && (e.Term? && !e.recovered ==> f.r > 0 && if f.t == 0 then e.id in f.open else !plain)
  }

  lemma AdoptedEvent(s: State, e: Ev, k: Key)
    requires Inv(s) && s.process.Up? && (InFlight(s, e) || s.torn == Some(e)) && About(e, k)
    ensures var f := FactsOf(s.log, s.reach, k);
            && EventFits(f, k !in s.kinds.surface, Lost(At(s, k)), e)
            && (e.Term? && e.recovered ==> f.r > 0 && e.value == RECOVERED && e.id in f.open)
  {
    hide LastTerm, FirstTerm, LastOwn, LastReq, Requests, Outcomes, OpenIds, KeyInv, AttemptInv, DiskInv, InFlight;
    if e.Term? && e.recovered {
      InTodo(s, e);
    } else if s.torn == Some(e) {
      hide KeysInv, StartupInv;
    } else {
      AtInv(s, k);
      if LastTerm(s.log, k) > 0 { RequestedBefore(s, k); }
      if IsRewriting(s, k) { RewriteFacts(s, k); }
      hide Inv;
      InFlightFits(s, e, k);
    }
  }

  lemma InFlightFits(s: State, e: Ev, k: Key)
    requires KeyInv(s, k) && s.process.Up? && InFlight(s, e) && About(e, k) && !(e.Term? && e.recovered)
    requires LastTerm(s.log, k) > 0 ==> LastReq(s.log, k) > 0
    requires IsRewriting(s, k) ==> k in s.kinds.surface && LastTerm(s.log, k) > 0
    ensures EventFits(FactsOf(s.log, s.reach, k), k !in s.kinds.surface, Lost(At(s, k)), e)
  {
    OwnBelow(s.log, k);
    hide LastTerm, FirstTerm, LastOwn, LastReq, Requests, Outcomes, OpenIds;
    hide HistoryOk, EvidenceOk, MemoryOk, MineOk, PhaseOk, SideOk;
    if e.Term? && !(At(s, k).task == Terminating(e.value) && At(s, k).id == e.id) {
      assert LastTerm(s.log, k) > 0 && k in s.kinds.surface;
    }
  }

  lemma InTodo(s: State, e: Ev)
    requires Inv(s) && s.process.Up? && (InFlight(s, e) || s.torn == Some(e)) && e.Term? && e.recovered
    ensures e.id in OpenIds(s.log, e.key) && LastReq(s.log, e.key) > 0 && e.value == RECOVERED
  {
    hide LastTerm, FirstTerm, LastOwn, LastReq, Requests, Outcomes, OpenIds, KeysInv, AttemptInv, DiskInv;
    assert Tx(e.key, e.id) in s.process.phase.todo;
    RequestedOpen(s, e.key, e.id);
  }

  lemma OwnBelow(log: seq<Ev>, k: Key)
    ensures LastOwn(log, k) <= LastTerm(log, k)
  {
  }

  /** An open command was requested. */
  lemma RequestedOpen(s: State, k: Key, id: nat)
    requires Inv(s) && id in OpenIds(s.log, k)
    ensures LastReq(s.log, k) > 0
  {
    hide LastTerm, FirstTerm, LastOwn, LastReq, Requests, Outcomes, OpenIds, MemoryOk, MineOk, AttemptInv;
    assert KeyInv(s, k);
    OutcomesFacts(s.log, k);
  }

  /** A key with a terminal event was requested once. */
  lemma RequestedBefore(s: State, k: Key)
    requires Inv(s) && LastTerm(s.log, k) > 0
    ensures LastReq(s.log, k) > 0
  {
    hide Inv, LastTerm, FirstTerm, LastReq;
    RequestsFirst(s, k);
  }

  lemma OpenKeeps(s: State)
    requires Inv(s) && s.process.Down?
    ensures Inv(DoOpen(s))
  {
    hide FactsOf, LastTerm, LastReq, Outcomes, OpenSet, TerminalKeys, RecoverSet, KeysInv;
    UpKeys(s, DoOpen(s).process);
    forall x: Tx ensures x in RecoverSet(s.snap.open, Retained(s)) <==> x.id in OpenIds(s.log, x.key) {
      OpenTx(s, x);
    }
  }

  lemma OpenTx(s: State, x: Tx)
    requires Inv(s)
    ensures x in RecoverSet(s.snap.open, Retained(s)) <==> x.id in OpenIds(s.log, x.key)
  {
    RetainedIs(s);
    AtInv(s, x.key);
    hide Inv, LastTerm, FirstTerm, LastReq, OpenIds, OpenSet, RecoverSet, Retained;
    FirstEnded(s.log, x.key);
    if LastTerm(s.log, x.key) > 0 { RequestsFirst(s, x.key); }
    RecoverSetMeaning(s.log, s.diskFirst - 1, s.snap.covered, x);
    OpenIdsMember(s.log, x);
  }

  lemma RetainedIs(s: State)
    requires Inv(s)
    ensures 1 <= s.diskFirst <= s.snap.covered + 1 <= |s.log| + 1 && Retained(s) == s.log[s.diskFirst - 1..]
    ensures s.snap.open == OpenSet(s.log[..s.snap.covered])
  {
    hide KeysInv, StartupInv, AttemptInv, TornInv, OpenSet, TerminalKeys;
  }

  lemma FirstEnded(log: seq<Ev>, k: Key)
    ensures FirstTerm(log, k) == 0 <==> LastTerm(log, k) == 0
  {
    OutcomesFacts(log, k);
  }

  lemma UpKeys(s: State, p: Process)
    requires KeysInv(s) && s.process.Down? && p.Up? && p.phase.Recovering?
    ensures KeysInv(s.(process := p))
  {
    hide HistoryOk, EvidenceOk, MemoryOk, TaskOk, MineOk, FactsOf;
    forall k: Key ensures KeyInv(s.(process := p), k) {
      assert KeyInv(s, k);
    }
  }

  lemma RecoverKeyOk(f: Facts, plain: bool, covered: nat, p: Process, x: KeyState, n: nat, e: Ev)
    requires KeyOk(f, plain, covered, p, x) && Sane(f) && p.Up? && p.phase.Recovering?
    requires e.Term? && e.recovered && e.value == RECOVERED && e.id in f.open
    requires f.r > 0 && f.t < n && f.r < n && covered < n
    ensures KeyOk(Grown(f, n, e), plain, covered, p, x)
  {
    GrownHistory(f, plain, x, n, e);
    hide HistoryOk;
  }

  lemma RecoverOneKeeps(s: State, x: Tx)
    requires Inv(s) && CanLive(s, RecoverOne(x))
    ensures Inv(DoRecoverOne(s, x))
  {
    hide FactsOf, LastTerm, LastReq, Outcomes, OpenSet, TerminalKeys, KeysInv, KeyOk, OpenIds;
    var e := Term(x.key, x.id, RECOVERED, true);
    var k := x.key;
    AtInv(s, k);
    KeyAt(s, k);
    RequestedOpen(s, k, x.id);
    FactsAppend(s.log, s.reach, e, k);
    RecoverKeyOk(FactsOf(s.log, s.reach, k), k !in s.kinds.surface, s.snap.covered, s.process, At(s, k),
                 |s.log| + 1, e);
    AppendKeys(s, e, k);
    SamePhaseKeys(Append(s, e), DoRecoverOne(s, x).process);
    DiskAppend(s, e);
    RecoverStartup(s, x);
  }

  lemma KeyAt(s: State, k: Key)
    requires Inv(s)
    ensures var f := FactsOf(s.log, s.reach, k);
            && f.t == LastTerm(s.log, k) && f.r == LastReq(s.log, k) && f.all == Outcomes(s.log, k)
            && f.open == OpenIds(s.log, k)
            && f.t <= |s.log| && f.r <= |s.log|
            && (f.t > 0 ==> f.latest == Latest(s.log, k))
            && KeyOk(f, k !in s.kinds.surface, s.snap.covered, s.process, At(s, k))
  {
    hide LastTerm, LastReq, Outcomes, Requests, KeyOk, OpenSet, TerminalKeys, AttemptInv;
    assert KeyInv(s, k);
  }

  lemma RecoverStartup(s: State, x: Tx)
    requires StartupInv(s) && CanLive(s, RecoverOne(x))
    ensures StartupInv(DoRecoverOne(s, x)) && AttemptInv(DoRecoverOne(s, x))
  {
    hide LastTerm, LastReq, Outcomes, TerminalKeys, OpenIds;
    var e := Term(x.key, x.id, RECOVERED, true);
    TerminalKeysGrow(s.log, e);
    forall j: Key
      ensures Outcomes(s.log, j) <= Outcomes(s.log + [e], j) && (j == x.key ==> RECOVERED in Outcomes(s.log + [e], j))
      ensures OpenIds(s.log + [e], j) == if j == x.key then OpenIds(s.log, j) - {x.id} else OpenIds(s.log, j)
    {
      Snoc(s.log, e, j);
    }
  }

  /** Leaving recovery: every request has its terminal event now. */
  lemma RecoveredKeeps(s: State)
    requires Inv(s) && CanLive(s, Recovered)
    ensures Inv(ApplyLife(s, Recovered))
  {
    hide OpenSet, TerminalKeys, ToRestore, ToRewrite, Outcomes, LastTerm, LastOwn, OpenIds, KeyOk, FactsOf;
    var s' := ApplyLife(s, Recovered);
    forall k: Key ensures KeyInv(s', k) && (k in ToRewrite(s) <==> Awaits(s, k)) {
      RewriteIffAwaits(s, k);
      NoneOpen(s, k);
      AtInv(s, k);
      KeyAt(s, k);
      RecoveredKeyOk(FactsOf(s.log, s.reach, k), k !in s.kinds.surface, s.snap.covered, s.process, At(s, k),
                     s'.process);
    }
  }

  /** Nothing is left to recover, so no command is open. */
  lemma NoneOpen(s: State, k: Key)
    requires Inv(s) && CanLive(s, Recovered)
    ensures OpenIds(s.log, k) == {}
  {
    hide KeysInv, DiskInv, AttemptInv, TornInv, LastTerm, OpenIds, Outcomes, TerminalKeys;
    forall id ensures id !in OpenIds(s.log, k) {
      var x := Tx(k, id);
      assert x in s.process.phase.todo <==> x.id in OpenIds(s.log, x.key);
    }
  }

  lemma RewriteIffAwaits(s: State, k: Key)
    ensures k in ToRewrite(s) <==> Awaits(s, k)
  {
    TerminalKeysMember(s.log, k);
    OwnBelow(s.log, k);
    hide LastTerm, LastOwn, TerminalKeys;
  }

  lemma RecoveredKeyOk(f: Facts, plain: bool, covered: nat, p: Process, x: KeyState, p': Process)
    requires KeyOk(f, plain, covered, p, x) && Sane(f) && f.open == {}
    requires p.Up? && p.phase.Recovering? && p'.Up? && p'.phase.Restoring?
    ensures KeyOk(f, plain, covered, p', x)
  {
    KeyHistory(f, plain, covered, p, x);
    hide HistoryOk, EvidenceOk, MemoryOk, MineOk;
  }

  lemma RestoredKeeps(s: State)
    requires Inv(s) && CanLive(s, Restored)
    ensures Inv(ApplyLife(s, Restored))
  {
    hide OpenSet, TerminalKeys, Outcomes, LastTerm, LastReq, FactsOf, KeysInv;
    forall k: Key
      ensures KeyInv(s, k) && !Ahead(FactsOf(s.log, s.reach, k), k !in s.kinds.surface, Exact(ApprovalLost))
    {
      NotAhead(s, k);
    }
    RestoredKeys(s);
    RestoredAttempt(s);
  }

  lemma RestoredKeys(s: State)
    requires CanLive(s, Restored)
    requires forall k: Key ::
               KeyInv(s, k) && !Ahead(FactsOf(s.log, s.reach, k), k !in s.kinds.surface, Exact(ApprovalLost))
    ensures KeysInv(ApplyLife(s, Restored))
  {
    hide HistoryOk, EvidenceOk, MemoryOk, TaskOk, MineOk, FactsOf;
    var s' := ApplyLife(s, Restored);
    forall k: Key ensures KeyInv(s', k) {
      assert KeyInv(s, k);
    }
  }

  /** With no approval left to rewrite no sidecar is ahead of its terminal event. */
  lemma NotAhead(s: State, k: Key)
    requires Inv(s) && s.process.Up? && s.process.phase.Restoring? && s.process.phase.rewrite == {}
    ensures KeyInv(s, k) && !Ahead(FactsOf(s.log, s.reach, k), k !in s.kinds.surface, Exact(ApprovalLost))
  {
    hide LastTerm, LastReq, Requests, Outcomes, KeyOk, DiskInv, AttemptInv, TornInv, TerminalKeys;
    assert KeyInv(s, k);
    assert !Awaits(s, k);
  }

  lemma RestoredAttempt(s: State)
    requires AttemptInv(s) && s.process.Up?
    ensures AttemptInv(s.(process := s.process.(phase := Phase.Serving)))
  {
    hide FactsOf, LastTerm, OpenSet, TerminalKeys, RecOld;
  }

  /** Taking a key off a startup list. */
  lemma ListKeeps(s: State, phase: Phase)
    requires Inv(s) && s.process.Up? && s.process.phase.Restoring? && phase.Restoring?
    requires phase.persist <= s.process.phase.persist && phase.rewrite == s.process.phase.rewrite
    ensures Inv(s.(process := s.process.(phase := phase)))
  {
    hide OpenSet, TerminalKeys, Outcomes, LastTerm, LastReq, FactsOf, KeysInv, RecOld;
    SamePhaseKeys(s, s.process.(phase := phase));
  }

  lemma PersistKeyOk(f: Facts, plain: bool, covered: nat, p: Process, x: KeyState, v: Outcome)
    requires KeyOk(f, plain, covered, p, x) && Sane(f) && p.Up? && p.phase.Restoring? && v in f.all
    ensures KeyOk(f, plain, covered, p, x.(hot := Some(Exact(v)), dirty := Some(MarkDirty(x.dirty, f.t, Some(v))),
                                           ops := x.ops + [Store(f.t, v)]))
    ensures KeyOk(f, plain, covered, p, x.(hot := Some(Exact(v)), dirty := Some(MarkDirty(x.dirty, f.t, Some(v)))))
  {
    var ops' := x.ops + [Store(f.t, v)];
    forall i | 0 <= i < |ops'| ensures OpOk(f, ops'[i]) {
      if i < |x.ops| { assert ops'[i] == x.ops[i]; }
    }
    assert x.ops != [] ==> ops'[0] == x.ops[0];
  }

  lemma PersistRecoveredKeeps(s: State, k: Key, full: bool)
    requires Inv(s) && CanLive(s, PersistRecovered(k, full))
    ensures Inv(DoPersistRecovered(s, k, full))
  {
    hide OpenSet, TerminalKeys, Outcomes, LastTerm, LastReq, FactsOf, KeyOk, KeysInv, AttemptInv, DiskInv;
    DieKeeps(s);
    var x := At(s, k);
    var phase := s.process.phase.(persist := s.process.phase.persist - {k});
    var s1 := s.(process := s.process.(phase := phase));
    if !MarkThrows(x.dirty, full) {
      ListKeeps(s, phase);
      AtInv(s1, k);
      KeyAt(s1, k);
      PersistKeyOk(FactsOf(s.log, s.reach, k), k !in s.kinds.surface, s.snap.covered, s1.process, x, RECOVERED);
      PutInvalidateInv(s1, k, x.(hot := Some(Exact(RECOVERED)),
        dirty := Some(MarkDirty(x.dirty, LastTerm(s.log, k), Some(RECOVERED))),
        ops := x.ops + [Store(LastTerm(s.log, k), RECOVERED)]));
    }
  }

  lemma RestoreKeyOk(f: Facts, plain: bool, covered: nat, p: Process, x: KeyState, rec: Rec)
    requires KeyOk(f, plain, covered, p, x) && p.Up? && p.phase.Restoring? && x.side == Some(rec)
    requires !Ahead(f, plain, Exact(ApprovalLost))
    ensures KeyOk(f, plain, covered, p, x.(hot := Some(rec), dirty := ClearDirty(x.dirty, f.t)))
  {
  }

  /** With the key off the list, its sidecar is remembered. */
  lemma RestoreRemembers(s: State, k: Key, rec: Rec)
    requires Inv(s) && s.process.Up? && s.process.phase.Restoring? && s.process.phase.rewrite == {}
    requires At(s, k).side == Some(rec)
    ensures Inv(Put(s, k, At(s, k).(hot := Some(rec), dirty := ClearDirty(At(s, k).dirty, LastTerm(s.log, k)))))
  {
    hide Inv, KeyOk, Ahead, LastTerm, LastReq, Outcomes, OpenSet, TerminalKeys;
    NotAhead(s, k);
    RestoreKeyOk(FactsOf(s.log, s.reach, k), k !in s.kinds.surface, s.snap.covered, s.process, At(s, k), rec);
    PutInv(s, k, At(s, k).(hot := Some(rec), dirty := ClearDirty(At(s, k).dirty, LastTerm(s.log, k))));
  }

  /** Or, without a sidecar, the outcome is told from the event. */
  lemma RestoreTells(s: State, k: Key, n: nat, v: Outcome)
    requires Inv(s) && s.process.Up? && s.process.phase.Restoring?
    requires 0 < n == LastTerm(s.log, k) && v == Latest(s.log, k)
    ensures var x := At(s, k);
            Inv(Invalidate(Put(s, k, x.(hot := Some(Exact(v)), dirty := Some(MarkDirty(x.dirty, n, Some(v)))))))
  {
    var x := At(s, k);
    RestoreFacts(s, k, v);
    hide Inv, KeyOk, Sane, FactsOf, LastTerm, LastReq, Latest, Outcomes, OpenSet, TerminalKeys, MarkDirty;
    PersistKeyOk(FactsOf(s.log, s.reach, k), k !in s.kinds.surface, s.snap.covered, s.process, x, v);
    PutInvalidateInv(s, k, x.(hot := Some(Exact(v)), dirty := Some(MarkDirty(x.dirty, n, Some(v)))));
  }

  lemma RestoreFacts(s: State, k: Key, v: Outcome)
    requires Inv(s) && LastTerm(s.log, k) > 0 && v == Latest(s.log, k)
    ensures var f := FactsOf(s.log, s.reach, k);
            && Sane(f) && f.t == LastTerm(s.log, k) && v in f.all
            && KeyOk(f, k !in s.kinds.surface, s.snap.covered, s.process, At(s, k))
  {
    hide Inv, KeyOk, LastTerm, LastReq, Requests, OpenSet, TerminalKeys;
    AtInv(s, k);
    OutcomesFacts(s.log, k);
  }

  lemma RestoreOneKeeps(s: State, k: Key, ok: bool, full: bool)
    requires Inv(s) && CanLive(s, RestoreOne(k, ok, full))
    ensures Inv(DoRestoreOne(s, k, ok, full))
  {
    hide Inv, LastTerm, Die, Put, Invalidate, Reconstructible, MarkDirty, ClearDirty;
    DieKeeps(s);
    var phase := s.process.phase.(restore := s.process.phase.restore - {k});
    var s1 := s.(process := s.process.(phase := phase));
    ListKeeps(s, phase);
    if At(s, k).side.Some? {
      RestoreRemembers(s1, k, At(s, k).side.value);
    } else {
      RestoreTells(s1, k, LastTerm(s.log, k), Latest(s.log, k));
    }
  }

  // ---- Approvals that were pending at a restart ----

  lemma AheadKeyOk(f: Facts, plain: bool, covered: nat, p: Process, x: KeyState)
    requires KeyOk(f, plain, covered, p, x) && p.Up? && p.phase.Restoring? && x.ops == []
    requires !plain && f.asks
    ensures KeyOk(f, plain, covered, p, x.(side := Some(Exact(ApprovalLost))))
  {
  }

  lemma RewriteStoreKeeps(s: State, k: Key)
    requires Inv(s) && CanLive(s, RewriteStore(k))
    ensures Inv(Put(s, k, At(s, k).(side := Some(Exact(ApprovalLost)))))
  {
    RewriteFacts(s, k);
    hide Inv, KeyOk, FactsOf;
    AtInv(s, k);
    AheadKeyOk(FactsOf(s.log, s.reach, k), k !in s.kinds.surface, s.snap.covered, s.process, At(s, k));
    PutInv(s, k, At(s, k).(side := Some(Exact(ApprovalLost))));
  }

  lemma RewriteFacts(s: State, k: Key)
    requires Inv(s) && IsRewriting(s, k)
    ensures var f := FactsOf(s.log, s.reach, k);
            k in s.kinds.surface && f.t > 0 && f.asks && f.t <= |s.log| && f.r <= |s.log|
  {
    hide LastTerm, FirstTerm, LastOwn, LastReq, Requests, Outcomes, OpenIds;
    hide KeysInv, DiskInv, AttemptInv, TornInv, TerminalKeys;
    assert Awaits(s, k);
    OwnBelow(s.log, k);
  }

  lemma RewrittenKeyOk(f: Facts, plain: bool, covered: nat, p: Process, x: KeyState, n: nat, e: Ev)
    requires KeyOk(f, plain, covered, p, x) && Sane(f) && p.Up? && p.phase.Restoring? && !plain
    requires 0 < f.t < n && f.r < n && covered < n && x.side == Some(Exact(ApprovalLost))
    requires e.Term? && !e.recovered && e.value == ApprovalLost
    ensures KeyOk(Grown(f, n, e), plain, covered, p, x)
  {
    SettleHistory(f, plain, x, n, e);
    hide HistoryOk;
  }

  lemma RewriteAppendKeeps(s: State, k: Key)
    requires Inv(s) && CanLive(s, RewriteAppend(k))
    ensures Inv(DoRewriteAppend(s, k))
  {
    hide FactsOf, LastTerm, LastReq, Outcomes, OpenSet, TerminalKeys, KeysInv, KeyOk, AttemptInv;
    var e := Term(k, OwnId(s.log, k), ApprovalLost, false);
    AtInv(s, k);
    RewriteFacts(s, k);
    FactsAppend(s.log, s.reach, e, k);
    RewrittenKeyOk(FactsOf(s.log, s.reach, k), k !in s.kinds.surface, s.snap.covered, s.process, At(s, k),
                   |s.log| + 1, e);
    AppendKeys(s, e, k);
    DiskAppend(s, e);
    AttemptAppend(s, e);
    SamePhaseKeys(Append(s, e), DoRewriteAppend(s, k).process);
    RewriteStartup(s, k);
    RewriteAttempt(s, k);
  }

  /** Recovery leaves an approval pending; another terminal event of the key decides. */
  lemma AwaitsNext(s: State, e: Ev, k: Key)
    ensures Awaits(Append(s, e), k) <==>
              if IsTerm(e, k) && !e.recovered then k in s.kinds.surface && e.value.NeedsApproval? else Awaits(s, k)
  {
    Snoc(s.log, e, k);
    hide LastOwn;
  }

  lemma RewriteStartup(s: State, k: Key)
    requires StartupInv(s) && CanLive(s, RewriteAppend(k))
    ensures StartupInv(DoRewriteAppend(s, k))
  {
    hide LastTerm, LastOwn, LastReq, Outcomes, TerminalKeys, OpenIds;
    var e := Term(k, OwnId(s.log, k), ApprovalLost, false);
    TerminalKeysGrow(s.log, e);
    forall j: Key ensures Awaits(Append(s, e), j) <==> j != k && Awaits(s, j) {
      AwaitsNext(s, e, j);
    }
  }

  lemma RewriteAttempt(s: State, k: Key)
    requires AttemptInv(Append(s, Term(k, OwnId(s.log, k), ApprovalLost, false))) && CanLive(s, RewriteAppend(k))
    ensures AttemptInv(DoRewriteAppend(s, k))
  {
    hide FactsOf, LastTerm, OpenSet, TerminalKeys, RecOld, CleanThrough;
  }
}
