/**
 * What the broker does for its callers: which effects go out, how each of them is
 * answered, when a tab is taken or given up, and that a disconnect can complete.
 */
module BrokerLaws {
  import opened ControlEvents
  import opened ProviderBroker

  // ---- Effects ----

  predicate IsPending(s: State, i: nat) {
    exists a :: a in s.pending && s.pending[a].effect == i
  }

  /** An effect without an answer is in flight. */
  predicate NothingLost(s: State) {
    forall i :: 0 <= i < |s.effects| && s.effects[i].answers == [] ==> IsPending(s, i)
  }

  lemma SettleLoses(s: State, action: string, answer: Answer)
    requires NothingLost(s) && Unanswered(s.pending, s.effects) && action in s.pending
    ensures NothingLost(Settle(s, action, answer))
  {
    var s' := Settle(s, action, answer);
    forall i | 0 <= i < |s'.effects| && s'.effects[i].answers == [] ensures IsPending(s', i) {
      assert IsPending(s, i);
      var a :| a in s.pending && s.pending[a].effect == i;
      assert a in s'.pending && s'.pending[a].effect == i;
    }
  }

  lemma DropLoses(s: State, provider: string)
    requires NothingLost(s) && Unanswered(s.pending, s.effects)
    ensures NothingLost(DropProvider(s, provider))
  {
    var s' := DropProvider(s, provider);
    forall i | 0 <= i < |s'.effects| && s'.effects[i].answers == [] ensures IsPending(s', i) {
      assert IsPending(s, i);
      var a :| a in s.pending && s.pending[a].effect == i;
      assert a in s'.pending && s'.pending[a].effect == i;
    }
  }

  lemma DispatchLoses(s: State, action: string, tab: string, generation: nat, sent: bool)
    requires NothingLost(s) && EffectsOk(s) && Enabled(s, Dispatch(action, tab, generation, sent))
    ensures NothingLost(DoDispatch(s, action, tab, sent))
  {
    var s1 := DoDispatch(s, action, tab, true);
    DispatchSent(s, action, tab, generation);
    forall i | 0 <= i < |s1.effects| && s1.effects[i].answers == [] ensures IsPending(s1, i) {
      if i < |s.effects| {
        assert IsPending(s, i);
        var a :| a in s.pending && s.pending[a].effect == i;
        assert a in s1.pending && s1.pending[a].effect == i;
      } else {
        assert action in s1.pending && s1.pending[action].effect == i;
      }
    }
    if !sent { SettleLoses(s1, action, BySendFailure); }
  }

  lemma SameLoses(s: State, s': State)
    requires NothingLost(s) && s'.pending == s.pending && s'.effects == s.effects
    ensures NothingLost(s')
  {
    forall i | 0 <= i < |s'.effects| && s'.effects[i].answers == [] ensures IsPending(s', i) { assert IsPending(s, i); }
  }

  lemma {:induction false} RunLoses(steps: seq<Step>)
    ensures NothingLost(Run(steps))
  {
    if steps != [] {
      hide NothingLost, EffectsOk, Run, DropProvider, Settle, DoDispatch;
      hide DoStart, DoFinish, DoCleanOne, DoFinishCleanup;
      var s, step := Run(steps[..|steps| - 1]), steps[|steps| - 1];
      LastOf(steps);
      RunLoses(steps[..|steps| - 1]);
      RunEffects(steps[..|steps| - 1]);
      if Enabled(s, step) { StepLoses(s, step); }
    } else {
      assert Run([]) == Init();
    }
  }

  lemma LastOf(steps: seq<Step>)
    requires steps != []
    ensures Run(steps) == Next(Run(steps[..|steps| - 1]), steps[|steps| - 1])
  {
    hide Next;
  }

  lemma StepLoses(s: State, step: Step)
    requires NothingLost(s) && EffectsOk(s) && Enabled(s, step)
    ensures NothingLost(Apply(s, step))
  {
    hide NothingLost, DropProvider, Settle, DoDispatch, DoStart, DoFinish, DoCleanOne, DoFinishCleanup;
    match step
    case Dispatch(action, tab, generation, sent) => DispatchLoses(s, action, tab, generation, sent);
    case Complete(r, action) => SettleLoses(s, action, ByProvider(r));
    case TimeOut(action) => SettleLoses(s, action, ByTimeout);
    case Disconnect(r) => DisconnectLoses(s, r);
    case _ => SameLoses(s, Apply(s, step));
  }

  lemma DisconnectLoses(s: State, r: nat)
    requires NothingLost(s) && EffectsOk(s) && r < |s.registrations|
    ensures NothingLost(DoDisconnect(s, r))
  {
    hide NothingLost, DropProvider;
    var s1 := s.(registrations := s.registrations[r := s.registrations[r].(connected := false)]);
    SameLoses(s, s1);
    DropLoses(s1, s.registrations[r].id);
    SameLoses(DropProvider(s1, s.registrations[r].id), DoDisconnect(s, r));
  }

  /** No effect is forgotten: in every run each has its answer exactly when it is no longer in flight. */
  lemma AnsweredIffSettled(steps: seq<Step>, i: nat)
    requires i < |Run(steps).effects|
    ensures |Run(steps).effects[i].answers| == (if IsPending(Run(steps), i) then 0 else 1)
  {
    hide Run;
    RunLoses(steps);
    RunEffects(steps);
  }

  /** What an effect in flight is told in a step. */
  function Told(s: State, step: Step, i: nat): seq<Answer>
    requires i < |s.effects|
  {
    match step
    case Complete(r, action) => if action in s.pending && s.pending[action].effect == i then [ByProvider(r)] else []
    case TimeOut(action) => if action in s.pending && s.pending[action].effect == i then [ByTimeout] else []
    case Disconnect(r) =>
      if IsPending(s, i) && r < |s.registrations| && s.effects[i].provider == s.registrations[r].id
      then [ByDisconnect] else []
    case _ => []
  }

  /**
   * An effect is answered by its result, by its timeout, and by a disconnect of
   * its provider, and by nothing else; a new one whose frame cannot be sent at once.
   */
  lemma AnswersAre(steps: seq<Step>, step: Step)
    requires Enabled(Run(steps), step)
    ensures var s, s' := Run(steps), Apply(Run(steps), step);
            && |s'.effects| == |s.effects| + (if step.Dispatch? then 1 else 0)
            && (forall i :: 0 <= i < |s.effects| ==>
                  s'.effects[i] == s.effects[i].(answers := s.effects[i].answers + Told(s, step, i)))
            && (step.Dispatch? ==>
                  s'.effects[|s.effects|]
                    == Effect(s.resources[step.tab].provider, if step.sent then [] else [BySendFailure]))
  {
    hide Run, Told;
    RunEffects(steps);
    var s := Run(steps);
    forall i | 0 <= i < |s.effects|
      ensures i < |Apply(s, step).effects|
      ensures Apply(s, step).effects[i] == s.effects[i].(answers := s.effects[i].answers + Told(s, step, i))
    {
      OneTold(s, step, i);
    }
    assert step.Dispatch? ==> [] + [BySendFailure] == [BySendFailure];
  }

  lemma OneTold(s: State, step: Step, i: nat)
    requires EffectsOk(s) && Enabled(s, step) && i < |s.effects|
    ensures i < |Apply(s, step).effects|
    ensures Apply(s, step).effects[i] == s.effects[i].(answers := s.effects[i].answers + Told(s, step, i))
  {
    assert s.effects[i].answers + [] == s.effects[i].answers;
    if step.Disconnect? {
      DisconnectTells(s, step.r, i);
    } else if step.Complete? || step.TimeOut? {
      assert s.pending[step.action].effect < |s.effects|;
      hide EffectsOk;
    } else {
      OthersTell(s, step, i);
    }
  }

  lemma OthersTell(s: State, step: Step, i: nat)
    requires Enabled(s, step) && i < |s.effects|
    requires !step.Disconnect? && !step.Complete? && !step.TimeOut?
    ensures i < |Apply(s, step).effects| && Apply(s, step).effects[i] == s.effects[i]
  {
  }

  lemma DisconnectTells(s: State, r: nat, i: nat)
    requires EffectsOk(s) && Enabled(s, Disconnect(r)) && i < |s.effects|
    ensures i < |DoDisconnect(s, r).effects|
    ensures DoDisconnect(s, r).effects[i]
         == s.effects[i].(answers := s.effects[i].answers + Told(s, Disconnect(r), i))
  {
    assert s.effects[i].answers + [] == s.effects[i].answers;
    if IsPending(s, i) {
      var a :| a in s.pending && s.pending[a].effect == i;
      assert s.effects[i].provider == s.pending[a].provider;
    }
    hide EffectsOk;
  }

  /** An effect can go out exactly to the live owner of the tab, while neither the action nor the tab is busy. */
  lemma DispatchIff(steps: seq<Step>, action: string, tab: string, generation: nat, sent: bool)
    ensures var s := Run(steps);
            Enabled(s, Dispatch(action, tab, generation, sent)) <==>
              && tab in s.resources && s.resources[tab].generation == generation
              && (exists r :: 0 <= r < |s.registrations| && Live(s, r)
                              && s.registrations[r].id == s.resources[tab].provider)
              && (forall a :: a in s.pending ==> a != action && s.pending[a].tab != tab) && |s.pending| < MAX_PENDING
  {
    hide Run;
    RunEffects(steps);
    RunServed(steps);
    var s := Run(steps);
    if tab in s.resources && s.resources[tab].provider in s.providers {
      var r := s.providers[s.resources[tab].provider];
      assert r < |s.registrations| ==> (Live(s, r) <==> s.registrations[r].connected);
    }
    if tab in s.byTab { assert s.pending[s.byTab[tab]].tab == tab; }
  }

  // ---- Tabs ----

  /** Steps taken one after the other. */
  lemma Then(steps: seq<Step>, step: Step)
    ensures Run(steps + [step]) == Next(Run(steps), step)
  {
    hide Next;
    assert (steps + [step])[..|steps|] == steps;
  }

  predicate LockFree(s: State) {
    s.running.None? && s.queue == []
  }

  /** The tabs of a provider, counted. */
  function TabsOf(s: State, id: string): nat {
    |set t | t in s.resources && s.resources[t].provider == id|
  }

  /** A job that gets the free lock at once is carried out if it is accepted, and leaves no trace otherwise. */
  lemma OneJob(s: State, job: Job, generation: nat)
    requires LockFree(s) && Live(s, job.r) && !job.Cleanup?
    ensures var started := Next(Next(s, Enqueue(job)), StartJob);
            var busy := s.(running := Some(Holder(job, {}, false)));
            && (ProviderBroker.Accepted(s, job) ==> started == busy && Enabled(busy, FinishJob(true, generation)))
            && (!ProviderBroker.Accepted(s, job) ==> started == s && Next(s, FinishJob(true, generation)) == s)
  {
    hide ProviderBroker.Accepted, OwnedBy;
    assert [] + [job] == [job] && [job][1..] == [];
    assert Next(s, Enqueue(job)) == s.(queue := [job]);
    AcceptedSame(s, s.(queue := [job]), job);
  }

  lemma AcceptedSame(s: State, s': State, job: Job)
    requires job.r < |s.registrations| && s'.registrations == s.registrations && s'.resources == s.resources
    ensures ProviderBroker.Accepted(s', job) <==> ProviderBroker.Accepted(s, job)
  {
  }

  lemma OneJobRun(steps: seq<Step>, job: Job, generation: nat)
    ensures Run(steps + [Enqueue(job), StartJob, FinishJob(true, generation)])
         == Next(Next(Next(Run(steps), Enqueue(job)), StartJob), FinishJob(true, generation))
  {
    hide Run, Next;
    Then(steps, Enqueue(job));
    Then(steps + [Enqueue(job)], StartJob);
    Then(steps + [Enqueue(job)] + [StartJob], FinishJob(true, generation));
    assert steps + [Enqueue(job)] + [StartJob] + [FinishJob(true, generation)]
        == steps + [Enqueue(job), StartJob, FinishJob(true, generation)];
  }

  /**
   * With the lock free, a live registration's tab is taken, under the generation
   * the callback settled on, exactly if it names its own provider and is either
   * that provider's already or still fits; otherwise nothing changes.
   */
  lemma UpsertTakesIff(steps: seq<Step>, r: nat, tab: string, res: Resource, generation: nat)
    requires LockFree(Run(steps)) && Live(Run(steps), r)
    ensures var s := Run(steps); var id := s.registrations[r].id;
            var s' := Run(steps + [Enqueue(Upsert(r, tab, res)), StartJob, FinishJob(true, generation)]);
            var taken := && res.provider == id && res.generation >= 1
                         && (if tab in s.resources then s.resources[tab].provider == id
                             else |s.resources| < MAX_RESOURCES && TabsOf(s, id) < MAX_PER_PROVIDER);
            s' == if taken then s.(resources := s.resources[tab := Resource(id, generation)]) else s
  {
    hide Run;
    var s := Run(steps);
    OneJobRun(steps, Upsert(r, tab, res), generation);
    OneJob(s, Upsert(r, tab, res), generation);
    assert OwnedBy(s.resources, s.registrations[r].id)
        == set t | t in s.resources && s.resources[t].provider == s.registrations[r].id;
    hide OwnedBy, DoStart;
  }

  /** And it is given up exactly if it is that provider's at that generation. */
  lemma RemoveTakesIff(steps: seq<Step>, r: nat, tab: string, generation: nat)
    requires LockFree(Run(steps)) && Live(Run(steps), r)
    ensures var s := Run(steps); var id := s.registrations[r].id;
            var s' := Run(steps + [Enqueue(Remove(r, tab, generation)), StartJob, FinishJob(true, 0)]);
            var given := && generation >= 1 && tab in s.resources && s.resources[tab].provider == id
                         && s.resources[tab].generation == generation;
            s' == if given then s.(resources := s.resources - {tab}) else s
  {
    hide Run, OwnedBy, DoStart;
    OneJobRun(steps, Remove(r, tab, generation), 0);
    OneJob(Run(steps), Remove(r, tab, generation), 0);
  }

  // ---- A disconnect ----

  /** A cleanup gives its provider's id free exactly if nothing failed in it; a tab whose removal failed stays. */
  lemma CleanupFreesIff(s: State, tab: string, ok: bool)
    ensures Enabled(s, CleanOne(tab, ok)) ==>
              var s' := Apply(s, CleanOne(tab, ok));
              && s'.resources == (if ok then s.resources - {tab} else s.resources)
              && s'.running.Some? && s'.running.value.failed == (s.running.value.failed || !ok)
    ensures Enabled(s, FinishCleanup) ==>
              var s', id := Apply(s, FinishCleanup), s.registrations[s.running.value.job.r].id;
              && (forall p :: p in s'.providers <==> p in s.providers && (p != id || s.running.value.failed))
              && (forall p :: p in s'.providers ==> s'.providers[p] == s.providers[p])
              && s'.running.None? && s'.resources == s.resources
  {
  }

  /** Without these tabs. */
  function Without(s: State, tabs: set<string>): State {
    s.(resources := s.resources - tabs)
  }

  lemma OneCleaned(s: State, job: Job, owned: set<string>, tab: string)
    requires s.running == Some(Holder(job, owned, false)) && job.Cleanup? && tab in owned
    ensures Next(s, CleanOne(tab, true)) == Without(s, {tab}).(running := Some(Holder(job, owned - {tab}, false)))
  {
  }

  lemma WithoutBoth(s: State, tab: string, owned: set<string>, x: Option<Holder>, y: Option<Holder>)
    requires tab in owned
    ensures Without(Without(s, {tab}).(running := x), owned - {tab}).(running := y)
         == Without(s, owned).(running := y)
  {
    assert s.resources - {tab} - (owned - {tab}) == s.resources - owned;
  }

  lemma {:induction false} CleansAll(steps: seq<Step>, job: Job, owned: set<string>) returns (longer: seq<Step>)
    requires Run(steps).running == Some(Holder(job, owned, false)) && job.Cleanup?
    ensures steps <= longer
    ensures Run(longer) == Without(Run(steps), owned).(running := Some(Holder(job, {}, false)))
    decreases |owned|
  {
    hide Run, Next;
    var s := Run(steps);
    if owned == {} {
      longer := steps;
      assert s.resources - {} == s.resources;
    } else {
      var tab :| tab in owned;
      Then(steps, CleanOne(tab, true));
      OneCleaned(s, job, owned, tab);
      longer := CleansAll(steps + [CleanOne(tab, true)], job, owned - {tab});
      WithoutBoth(s, tab, owned, Some(Holder(job, owned - {tab}, false)), Some(Holder(job, {}, false)));
      hide Without;
    }
  }

  /** What is left once a registration is gone for good. */
  ghost predicate Gone(s: State, s': State, r: nat)
    requires r < |s.registrations|
  {
    var id := s.registrations[r].id;
    && LockFree(s') && s'.registrations == s.registrations[r := Registration(id, false)]
    && s'.providers == s.providers - {id}
    && (forall t :: t in s'.resources <==> t in s.resources && s.resources[t].provider != id)
    && (forall t :: t in s'.resources ==> s'.resources[t] == s.resources[t])
    && (forall a :: a in s'.pending <==> a in s.pending && s.pending[a].provider != id)
    && (forall a :: a in s'.pending ==> s'.pending[a] == s.pending[a])
  }

  /**
   * With the lock free a live registration can disconnect for good: its id is
   * free again, its tabs and effects are gone, and those of others untouched.
   */
  lemma DisconnectCompletes(steps: seq<Step>, r: nat) returns (longer: seq<Step>)
    requires LockFree(Run(steps)) && Live(Run(steps), r)
    ensures steps <= longer && Gone(Run(steps), Run(longer), r)
  {
    hide Run, Next, Without, Gone, OwnedBy;
    var s, job := Run(steps), Cleanup(r, true);
    var id := s.registrations[r].id;
    Then(steps, Disconnect(r));
    Then(steps + [Disconnect(r)], StartJob);
    CleanupStarts(s, r);
    var owned := OwnedBy(s.resources, id);
    longer := CleansAll(steps + [Disconnect(r)] + [StartJob], job, owned);
    Then(longer, FinishCleanup);
    CleanupEnds(s, r);
    longer := longer + [FinishCleanup];
    IsGone(s, r);
  }

  lemma CleanupStarts(s: State, r: nat)
    requires LockFree(s) && Live(s, r)
    ensures Next(Next(s, Disconnect(r)), StartJob)
         == DoDisconnect(s, r).(queue := [],
                                running := Some(Holder(Cleanup(r, true), OwnedBy(s.resources, s.registrations[r].id),
                                                       false)))
  {
    hide DropProvider, OwnedBy;
    assert [] + [Cleanup(r, true)] == [Cleanup(r, true)] && [Cleanup(r, true)][1..] == [];
  }

  lemma CleanupEnds(s: State, r: nat)
    requires LockFree(s) && Live(s, r)
    ensures var s1, id := DoDisconnect(s, r), s.registrations[r].id;
            var started := s1.(queue := [], running := Some(Holder(Cleanup(r, true), OwnedBy(s.resources, id), false)));
            var done := Some(Holder(Cleanup(r, true), {}, false));
            var cleaned := Without(started, OwnedBy(s.resources, id)).(running := done);
            Next(cleaned, FinishCleanup)
              == Without(s1, OwnedBy(s.resources, id)).(queue := [], running := None, providers := s1.providers - {id})
  {
    hide DropProvider, OwnedBy;
  }

  lemma IsGone(s: State, r: nat)
    requires LockFree(s) && r < |s.registrations|
    ensures var id := s.registrations[r].id;
            var s1 := DoDisconnect(s, r);
            Gone(s, Without(s1, OwnedBy(s.resources, id)).(queue := [], running := None,
                                                          providers := s1.providers - {id}), r)
  {
  }

  /** The registration's id can be taken again. */
  lemma IdIsFree(s: State, s': State, r: nat)
    requires |s.providers| <= MAX_PROVIDERS && Live(s, r) && Gone(s, s', r)
    ensures Enabled(s', Register(s.registrations[r].id))
  {
    var id := s.registrations[r].id;
    assert s.providers.Keys == s'.providers.Keys + {id};
    assert |s.providers| == |s.providers.Keys| && |s'.providers| == |s'.providers.Keys|;
  }
}
