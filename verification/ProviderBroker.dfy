/**
 * Browser effects in flight with desktop providers, and the tabs those
 * providers own, changed one at a time under a first-come lock.
 */
module ProviderBroker {
  import opened ControlEvents

  const MAX_PROVIDERS: nat := 8
  const MAX_PENDING: nat := 128
  const MAX_RESOURCES: nat := 256
  const MAX_PER_PROVIDER: nat := 64

  /** A registration; the object a provider's calls go through. Registrations are never reused. */
  datatype Registration = Registration(id: string, connected: bool)

  datatype Resource = Resource(provider: string, generation: nat)

  /** An effect in flight; `effect` is its place in the list of all effects ever dispatched. */
  datatype Pending = Pending(provider: string, tab: string, effect: nat)

  datatype Answer = ByProvider(registration: nat) | ByTimeout | BySendFailure | ByDisconnect

  /** Every answer the caller of a dispatched effect got. */
  datatype Effect = Effect(provider: string, answers: seq<Answer>)

  /** Work waiting for the resource lock; `own` tells a disconnect's cleanup from one `ready` asked for. */
  datatype Job =
    | Upsert(r: nat, tab: string, res: Resource)
    | Remove(r: nat, tab: string, generation: nat)
    | Cleanup(r: nat, own: bool)

  datatype Holder = Holder(job: Job, owned: set<string>, failed: bool)

  datatype State = State(registrations: seq<Registration>, providers: map<string, nat>,
                         resources: map<string, Resource>,
                         pending: map<string, Pending>, byTab: map<string, string>, effects: seq<Effect>,
                         queue: seq<Job>, running: Option<Holder>)

  function Init(): State {
    State([], map[], map[], map[], map[], [], [], None)
  }

  datatype Step =
    | Register(id: string)
    | Dispatch(action: string, tab: string, generation: nat, sent: bool)
    | Complete(r: nat, action: string)
    | TimeOut(action: string)
    | Disconnect(r: nat)
    | Ready(r: nat)
    | Enqueue(job: Job)
    | StartJob
    | FinishJob(ok: bool, generation: nat)
    | CleanOne(tab: string, ok: bool)
    | FinishCleanup

  predicate Live(s: State, r: nat) {
    r < |s.registrations| && s.registrations[r].connected
    && s.registrations[r].id in s.providers && s.providers[s.registrations[r].id] == r
  }

  function OwnedBy(resources: map<string, Resource>, provider: string): set<string> {
    set t | t in resources && resources[t].provider == provider
  }

  // ---- Settling ----

  /** Takes an effect out of both maps and notes the one answer its caller gets. */
  function Settle(s: State, action: string, answer: Answer): State
    requires action in s.pending && s.pending[action].effect < |s.effects|
  {
    var p := s.pending[action];
    var e := s.effects[p.effect];
    s.(pending := s.pending - {action},
       byTab := if p.tab in s.byTab && s.byTab[p.tab] == action then s.byTab - {p.tab} else s.byTab,
       effects := s.effects[p.effect := e.(answers := e.answers + [answer])])
  }

  /** Both maps without the effects of a provider, each of them answered. */
  function DropProvider(s: State, provider: string): (r: State)
    ensures r == s.(pending := r.pending, byTab := r.byTab, effects := r.effects)
  {
    s.(pending := map a | a in s.pending && s.pending[a].provider != provider :: s.pending[a],
       byTab := map t | t in s.byTab && !(s.byTab[t] in s.pending && s.pending[s.byTab[t]].provider == provider)
                  :: s.byTab[t],
       effects := AnswerAll(s.effects,
                            set a | a in s.pending && s.pending[a].provider == provider :: s.pending[a].effect))
  }

  function AnswerAll(effects: seq<Effect>, which: set<nat>): (r: seq<Effect>)
    ensures |r| == |effects|
    ensures forall i :: 0 <= i < |r| ==>
      r[i] == if i in which then effects[i].(answers := effects[i].answers + [ByDisconnect]) else effects[i]
  {
    if effects == [] then []
    else
      var n := |effects| - 1;
      AnswerAll(effects[..n], which)
        + [if n in which then effects[n].(answers := effects[n].answers + [ByDisconnect]) else effects[n]]
  }

  // ---- Steps ----

  predicate Enabled(s: State, step: Step) {
    match step
    case Register(id) => id !in s.providers && |s.providers| < MAX_PROVIDERS
    case Dispatch(action, tab, generation, _) =>
      && tab in s.resources && s.resources[tab].generation == generation
      && s.resources[tab].provider in s.providers
      && s.providers[s.resources[tab].provider] < |s.registrations|
      && s.registrations[s.providers[s.resources[tab].provider]].connected
      && action !in s.pending && tab !in s.byTab && |s.pending| < MAX_PENDING
    case Complete(r, action) =>
      Live(s, r) && action in s.pending && s.pending[action].provider == s.registrations[r].id
      && s.pending[action].effect < |s.effects|
    case TimeOut(action) => action in s.pending && s.pending[action].effect < |s.effects|
    case Disconnect(r) => r < |s.registrations| && s.registrations[r].connected
    case Ready(r) => r < |s.registrations| && !s.registrations[r].connected
                     && s.registrations[r].id in s.providers && s.providers[s.registrations[r].id] == r
    case Enqueue(job) => !job.Cleanup? && Live(s, job.r)
    case StartJob => s.running.None? && s.queue != [] && s.queue[0].r < |s.registrations|
    case FinishJob(_, _) => s.running.Some? && !s.running.value.job.Cleanup?
                            && s.running.value.job.r < |s.registrations|
    case CleanOne(tab, _) => s.running.Some? && s.running.value.job.Cleanup? && tab in s.running.value.owned
    case FinishCleanup => s.running.Some? && s.running.value.job.Cleanup? && s.running.value.owned == {}
                          && s.running.value.job.r < |s.registrations|
  }

  function DoDispatch(s: State, action: string, tab: string, sent: bool): State
    requires tab in s.resources
  {
    var p := Pending(s.resources[tab].provider, tab, |s.effects|);
    var s1 := s.(pending := s.pending[action := p], byTab := s.byTab[tab := action],
                 effects := s.effects + [Effect(p.provider, [])]);
    if sent then s1 else Settle(s1, action, BySendFailure)
  }

  function DoDisconnect(s: State, r: nat): State
    requires r < |s.registrations|
  {
    var s1 := s.(registrations := s.registrations[r := s.registrations[r].(connected := false)]);
    DropProvider(s1, s.registrations[r].id).(queue := s.queue + [Cleanup(r, true)])
  }

  /** What an upsert or a removal checks once it has the lock. */
  predicate Accepted(s: State, job: Job)
    requires job.r < |s.registrations|
  {
    var id := s.registrations[job.r].id;
    match job
    case Upsert(_, tab, res) =>
      && res.provider == id && res.generation >= 1
      && (if tab in s.resources then s.resources[tab].provider == id
          else |s.resources| < MAX_RESOURCES && |OwnedBy(s.resources, id)| < MAX_PER_PROVIDER)
    case Remove(_, tab, generation) =>
      generation >= 1 && tab in s.resources && s.resources[tab] == Resource(id, generation)
    case Cleanup(_, _) => true
  }

  function DoStart(s: State): (s': State)
    requires Enabled(s, StartJob)
    ensures s' == s.(queue := s'.queue, running := s'.running)
  {
    var job := s.queue[0];
    var owned := if job.Cleanup? then OwnedBy(s.resources, s.registrations[job.r].id) else {};
    s.(queue := s.queue[1..], running := if Accepted(s, job) then Some(Holder(job, owned, false)) else None)
  }

  /** The runtime's callback returned; `generation` is the one it settled on. */
  function DoFinish(s: State, ok: bool, generation: nat): (s': State)
    requires Enabled(s, FinishJob(ok, generation))
    ensures s' == s.(running := None, resources := s'.resources)
  {
    var job := s.running.value.job;
    var s1 := s.(running := None);
    if !ok then s1
    else match job
         case Upsert(r, tab, res) => s1.(resources := s.resources[tab := Resource(s.registrations[r].id, generation)])
         case Remove(_, tab, _) => s1.(resources := s.resources - {tab})
         case Cleanup(_, _) => s1
  }

  function DoCleanOne(s: State, tab: string, ok: bool): (s': State)
    requires Enabled(s, CleanOne(tab, ok))
    ensures s' == s.(running := s'.running, resources := s'.resources)
  {
    var run := s.running.value;
    var s1 := s.(running := Some(run.(owned := run.owned - {tab}, failed := run.failed || !ok)));
    if ok then s1.(resources := s.resources - {tab}) else s1
  }

  /** A cleanup without failures forgets the provider, by its id. */
  function DoFinishCleanup(s: State): (s': State)
    requires Enabled(s, FinishCleanup)
    ensures s' == s.(running := None, providers := s'.providers)
  {
    var run := s.running.value;
    var s1 := s.(running := None);
    if run.failed then s1 else s1.(providers := s.providers - {s.registrations[run.job.r].id})
  }

  function Apply(s: State, step: Step): State
    requires Enabled(s, step)
  {
    match step
    case Register(id) =>
      s.(registrations := s.registrations + [Registration(id, true)], providers := s.providers[id := |s.registrations|])
    case Dispatch(action, tab, _, sent) => DoDispatch(s, action, tab, sent)
    case Complete(r, action) => Settle(s, action, ByProvider(r))
    case TimeOut(action) => Settle(s, action, ByTimeout)
    case Disconnect(r) => DoDisconnect(s, r)
    case Ready(r) => s.(queue := s.queue + [Cleanup(r, false)])
    case Enqueue(job) => s.(queue := s.queue + [job])
    case StartJob => DoStart(s)
    case FinishJob(ok, generation) => DoFinish(s, ok, generation)
    case CleanOne(tab, ok) => DoCleanOne(s, tab, ok)
    case FinishCleanup => DoFinishCleanup(s)
  }

  /** The cleanup about to finish is not for a provider id registered again since. */
  predicate NotReplaced(s: State) {
    s.running.Some? && s.running.value.job.r < |s.registrations| ==>
      var id := s.registrations[s.running.value.job.r].id;
      id in s.providers ==> s.providers[id] == s.running.value.job.r
  }

  predicate Allowed(s: State, step: Step) {
    step.FinishCleanup? ==> NotReplaced(s)
  }

  function Next(s: State, step: Step): State {
    if Enabled(s, step) then Apply(s, step) else s
  }

  function Run(steps: seq<Step>): State {
    if steps == [] then Init() else Next(Run(steps[..|steps| - 1]), steps[|steps| - 1])
  }

  predicate AllowedRun(steps: seq<Step>) {
    steps == [] || (AllowedRun(steps[..|steps| - 1]) && Allowed(Run(steps[..|steps| - 1]), steps[|steps| - 1]))
  }

  // ---- Effects: one a tab, one answer each ----

  /** The two maps of effects in flight are each other's inverse. */
  predicate Paired(pending: map<string, Pending>, byTab: map<string, string>) {
    && (forall a :: a in pending ==> pending[a].tab in byTab && byTab[pending[a].tab] == a)
    && (forall t :: t in byTab ==> byTab[t] in pending && pending[byTab[t]].tab == t)
  }

  /** An effect in flight is unanswered, and no other is under the same dispatch. */
  predicate Unanswered(pending: map<string, Pending>, effects: seq<Effect>) {
    && (forall a :: a in pending ==>
          pending[a].effect < |effects| && effects[pending[a].effect] == Effect(pending[a].provider, []))
    && (forall a, b :: a in pending && b in pending && a != b ==> pending[a].effect != pending[b].effect)
  }

  predicate AtMostOneAnswer(effects: seq<Effect>) {
    forall i :: 0 <= i < |effects| ==> |effects[i].answers| <= 1
  }

  predicate EffectsOk(s: State) {
    && Paired(s.pending, s.byTab) && Unanswered(s.pending, s.effects) && AtMostOneAnswer(s.effects)
    && |s.pending| <= MAX_PENDING
  }

  lemma SettlePairs(s: State, action: string, answer: Answer)
    requires Paired(s.pending, s.byTab) && action in s.pending && s.pending[action].effect < |s.effects|
    ensures Paired(Settle(s, action, answer).pending, Settle(s, action, answer).byTab)
  {
  }

  lemma SettleAnswers(s: State, action: string, answer: Answer)
    requires Unanswered(s.pending, s.effects) && AtMostOneAnswer(s.effects) && action in s.pending
    ensures Unanswered(Settle(s, action, answer).pending, Settle(s, action, answer).effects)
    ensures AtMostOneAnswer(Settle(s, action, answer).effects)
  {
  }

  lemma SettleKeeps(s: State, action: string, answer: Answer)
    requires EffectsOk(s) && action in s.pending
    ensures EffectsOk(Settle(s, action, answer))
  {
    SettlePairs(s, action, answer);
    SettleAnswers(s, action, answer);
    hide Paired, Unanswered, AtMostOneAnswer;
    assert |s.pending - {action}| <= |s.pending| by {
      SubsetSize((s.pending - {action}).Keys, s.pending.Keys);
      assert |s.pending - {action}| == |(s.pending - {action}).Keys| && |s.pending| == |s.pending.Keys|;
    }
  }

  lemma DispatchKeeps(s: State, action: string, tab: string, generation: nat, sent: bool)
    requires EffectsOk(s) && Enabled(s, Dispatch(action, tab, generation, sent))
    ensures EffectsOk(DoDispatch(s, action, tab, sent))
  {
    DispatchSent(s, action, tab, generation);
    hide EffectsOk;
    if !sent { SettleKeeps(DoDispatch(s, action, tab, true), action, BySendFailure); }
  }

  lemma DispatchSent(s: State, action: string, tab: string, generation: nat)
    requires EffectsOk(s) && Enabled(s, Dispatch(action, tab, generation, true))
    ensures EffectsOk(DoDispatch(s, action, tab, true))
  {
    var p := Pending(s.resources[tab].provider, tab, |s.effects|);
    NewPair(s.pending, s.byTab, action, p);
    NewUnanswered(s.pending, s.effects, action, p);
  }

  lemma NewPair(pending: map<string, Pending>, byTab: map<string, string>, action: string, p: Pending)
    requires Paired(pending, byTab) && action !in pending && p.tab !in byTab
    ensures Paired(pending[action := p], byTab[p.tab := action])
  {
  }

  lemma NewUnanswered(pending: map<string, Pending>, effects: seq<Effect>, action: string, p: Pending)
    requires Unanswered(pending, effects) && AtMostOneAnswer(effects) && action !in pending && p.effect == |effects|
    ensures Unanswered(pending[action := p], effects + [Effect(p.provider, [])])
    ensures AtMostOneAnswer(effects + [Effect(p.provider, [])])
  {
  }

  lemma DropKeeps(s: State, provider: string)
    requires EffectsOk(s)
    ensures EffectsOk(DropProvider(s, provider))
    ensures forall a :: a in DropProvider(s, provider).pending ==>
              DropProvider(s, provider).pending[a].provider != provider
  {
    DropPairs(s, provider);
    DropAnswers(s, provider);
    hide Paired, Unanswered, AtMostOneAnswer;
    var s' := DropProvider(s, provider);
    assert s'.pending.Keys <= s.pending.Keys;
    SubsetSize(s'.pending.Keys, s.pending.Keys);
    assert |s'.pending| == |s'.pending.Keys| && |s.pending| == |s.pending.Keys|;
  }

  lemma DropPairs(s: State, provider: string)
    requires Paired(s.pending, s.byTab)
    ensures Paired(DropProvider(s, provider).pending, DropProvider(s, provider).byTab)
  {
  }

  lemma DropAnswers(s: State, provider: string)
    requires Unanswered(s.pending, s.effects) && AtMostOneAnswer(s.effects)
    ensures Unanswered(DropProvider(s, provider).pending, DropProvider(s, provider).effects)
    ensures AtMostOneAnswer(DropProvider(s, provider).effects)
  {
  }

  lemma SubsetSize<T>(a: set<T>, b: set<T>)
    requires a <= b
    ensures |a| <= |b|
  {
    assert b == a + (b - a);
  }

  lemma NextEffects(s: State, step: Step)
    requires EffectsOk(s)
    ensures EffectsOk(Next(s, step))
  {
    hide Settle, DropProvider, DoDispatch, DoDisconnect, DoStart, DoFinish, DoCleanOne, DoFinishCleanup, EffectsOk;
    if Enabled(s, step) {
      match step
      case Dispatch(action, tab, generation, sent) => DispatchKeeps(s, action, tab, generation, sent);
      case Complete(r, action) => SettleKeeps(s, action, ByProvider(r));
      case TimeOut(action) => SettleKeeps(s, action, ByTimeout);
      case Disconnect(r) => DisconnectKeeps(s, r);
      case _ => SameEffects(s, Apply(s, step));
    }
  }

  lemma SameEffects(s: State, s': State)
    requires EffectsOk(s) && s'.pending == s.pending && s'.byTab == s.byTab && s'.effects == s.effects
    ensures EffectsOk(s')
  {
  }

  lemma DisconnectKeeps(s: State, r: nat)
    requires EffectsOk(s) && r < |s.registrations|
    ensures EffectsOk(DoDisconnect(s, r))
    ensures forall a :: a in DoDisconnect(s, r).pending ==>
      a in s.pending && DoDisconnect(s, r).pending[a] == s.pending[a] && s.pending[a].provider != s.registrations[r].id
  {
    hide EffectsOk;
    var s1 := s.(registrations := s.registrations[r := s.registrations[r].(connected := false)]);
    SameEffects(s, s1);
    DropKeeps(s1, s.registrations[r].id);
    SameEffects(DropProvider(s1, s.registrations[r].id), DoDisconnect(s, r));
  }

  lemma {:induction false} RunEffects(steps: seq<Step>)
    ensures EffectsOk(Run(steps))
  {
    if steps != [] {
      hide EffectsOk, Next;
      RunEffects(steps[..|steps| - 1]);
      NextEffects(Run(steps[..|steps| - 1]), steps[|steps| - 1]);
    }
  }

  /** A provider's answer came through a registration of the effect's own provider. */
  predicate AnswerOwn(registrations: seq<Registration>, e: Effect) {
    forall k :: 0 <= k < |e.answers| && e.answers[k].ByProvider? ==>
      e.answers[k].registration < |registrations| && registrations[e.answers[k].registration].id == e.provider
  }

  predicate AnswersOwn(s: State) {
    forall i :: 0 <= i < |s.effects| ==> AnswerOwn(s.registrations, s.effects[i])
  }

  lemma SettleOwn(s: State, action: string, answer: Answer)
    requires EffectsOk(s) && AnswersOwn(s) && action in s.pending
    requires answer.ByProvider? ==>
               answer.registration < |s.registrations|
               && s.registrations[answer.registration].id == s.pending[action].provider
    ensures AnswersOwn(Settle(s, action, answer))
  {
    assert s.effects[s.pending[action].effect] == Effect(s.pending[action].provider, []);
  }

  lemma DispatchOwn(s: State, action: string, tab: string, generation: nat, sent: bool)
    requires EffectsOk(s) && AnswersOwn(s) && Enabled(s, Dispatch(action, tab, generation, sent))
    ensures AnswersOwn(DoDispatch(s, action, tab, sent))
  {
    DispatchSent(s, action, tab, generation);
    var s1 := DoDispatch(s, action, tab, true);
    assert AnswersOwn(s1);
    hide EffectsOk, AnswersOwn;
    if !sent { SettleOwn(s1, action, BySendFailure); }
  }

  /** Registrations keep their ids, and effects gain no answer by a provider. */
  lemma OwnFrame(s: State, s': State)
    requires AnswersOwn(s) && |s'.effects| == |s.effects| && |s.registrations| <= |s'.registrations|
    requires forall r :: 0 <= r < |s.registrations| ==> s'.registrations[r].id == s.registrations[r].id
    requires forall i :: 0 <= i < |s.effects| ==>
               s'.effects[i] == s.effects[i]
               || s'.effects[i] == s.effects[i].(answers := s.effects[i].answers + [ByDisconnect])
    ensures AnswersOwn(s')
  {
    forall i | 0 <= i < |s'.effects| ensures AnswerOwn(s'.registrations, s'.effects[i]) {
      assert AnswerOwn(s.registrations, s.effects[i]);
    }
  }

  lemma NextOwn(s: State, step: Step)
    requires EffectsOk(s) && AnswersOwn(s)
    ensures AnswersOwn(Next(s, step))
  {
    hide Settle, DoDispatch, DoStart, DoFinish, DoCleanOne, DoFinishCleanup, EffectsOk, AnswersOwn;
    if Enabled(s, step) {
      match step
      case Dispatch(action, tab, generation, sent) => DispatchOwn(s, action, tab, generation, sent);
      case Complete(r, action) => SettleOwn(s, action, ByProvider(r));
      case TimeOut(action) => SettleOwn(s, action, ByTimeout);
      case StartJob => OwnFrame(s, DoStart(s));
      case FinishJob(ok, generation) => OwnFrame(s, DoFinish(s, ok, generation));
      case CleanOne(tab, ok) => OwnFrame(s, DoCleanOne(s, tab, ok));
      case FinishCleanup => OwnFrame(s, DoFinishCleanup(s));
      case _ => OwnFrame(s, Apply(s, step));
    }
  }

  lemma {:induction false} RunOwn(steps: seq<Step>)
    ensures AnswersOwn(Run(steps))
  {
    if steps != [] {
      hide EffectsOk, AnswersOwn, Next;
      RunOwn(steps[..|steps| - 1]);
      RunEffects(steps[..|steps| - 1]);
      NextOwn(Run(steps[..|steps| - 1]), steps[|steps| - 1]);
    }
  }

  /**
   * However the run goes, even past a replaced registration: at most one effect
   * is in flight a tab; an effect's caller is answered at most once, not while it
   * is in flight, and by a provider only through a registration of its own.
   */
  lemma AnsweredOnce(steps: seq<Step>, a: string, b: string)
    ensures var s := Run(steps);
            && (forall i :: 0 <= i < |s.effects| ==>
                  |s.effects[i].answers| <= 1 && AnswerOwn(s.registrations, s.effects[i]))
            && (a in s.pending && b in s.pending && s.pending[a].tab == s.pending[b].tab ==> a == b)
            && (a in s.pending ==> s.pending[a].effect < |s.effects| && s.effects[s.pending[a].effect].answers == [])
  {
    hide Run, AnswerOwn;
    RunEffects(steps);
    RunOwn(steps);
  }

  // ---- Registrations, the lock, and what a disconnect leaves ----

  predicate IsCleanup(job: Job, r: nat) {
    job.Cleanup? && job.r == r
  }

  /** Some cleanup a disconnect asked for is still to finish. */
  predicate OwnDue(s: State, r: nat) {
    || (exists i :: 0 <= i < |s.queue| && s.queue[i] == Cleanup(r, true))
    || (s.running.Some? && s.running.value.job == Cleanup(r, true))
  }

  predicate ProvidersOk(s: State) {
    forall id :: id in s.providers ==>
      s.providers[id] < |s.registrations| && s.registrations[s.providers[id]].id == id
  }

  /** Every connected registration can be used. */
  predicate AllLive(s: State) {
    forall r :: 0 <= r < |s.registrations| && s.registrations[r].connected ==> Live(s, r)
  }

  /** Effects in flight belong to a provider still connected. */
  predicate PendingLive(s: State)
    requires ProvidersOk(s)
  {
    forall a :: a in s.pending ==>
      s.pending[a].provider in s.providers && s.registrations[s.providers[s.pending[a].provider]].connected
  }

  predicate LiveOk(s: State) {
    ProvidersOk(s) && AllLive(s) && PendingLive(s)
  }

  /** Jobs are of known registrations, cleanups of disconnected ones, and a disconnect's own comes before others. */
  predicate JobsOk(s: State) {
    && (forall i :: 0 <= i < |s.queue| ==> JobOk(s, s.queue[i]))
    && (s.running.Some? ==> JobOk(s, s.running.value.job))
    && (forall i, j :: 0 <= i < j < |s.queue| && s.queue[i].Cleanup? ==> s.queue[j] != Cleanup(s.queue[i].r, true))
    && (forall j :: 0 <= j < |s.queue| && s.running.Some? && s.running.value.job.Cleanup?
          ==> s.queue[j] != Cleanup(s.running.value.job.r, true))
  }

  predicate JobOk(s: State, job: Job) {
    job.r < |s.registrations| && (job.Cleanup? ==> !s.registrations[job.r].connected)
  }

  /** Until a disconnect's own cleanup is over, nobody else gets the id. */
  ghost predicate OwnOk(s: State) {
    forall r: nat :: OwnDue(s, r) && r < |s.registrations| ==>
      s.registrations[r].id in s.providers && s.providers[s.registrations[r].id] == r
  }

  ghost predicate CapsOk(s: State) {
    && |s.resources| <= MAX_RESOURCES
    && (forall p: string :: |OwnedBy(s.resources, p)| <= MAX_PER_PROVIDER)
  }

  /** What the job that has the lock found still holds. */
  predicate LockOk(s: State) {
    s.running.Some? && s.running.value.job.r < |s.registrations| ==>
      var run := s.running.value;
      if run.job.Cleanup? then
        run.owned <= OwnedBy(s.resources, s.registrations[run.job.r].id)
        && (!run.failed ==> run.owned == OwnedBy(s.resources, s.registrations[run.job.r].id))
      else Accepted(s, run.job)
  }

  ghost predicate Inv(s: State) {
    LiveOk(s) && JobsOk(s) && OwnOk(s)
  }

  /** The limits, and what the lock guarantees; no registration need be in order for these. */
  ghost predicate Bounded(s: State) {
    && CapsOk(s) && LockOk(s) && |s.providers| <= MAX_PROVIDERS
    && (s.running.Some? ==> s.running.value.job.r < |s.registrations|)
  }

  // Each group of steps, each part of the invariant.

  lemma RegisterKeeps(s: State, id: string)
    requires Inv(s) && Enabled(s, Register(id))
    ensures Inv(Apply(s, Register(id)))
  {
    var s' := Apply(s, Register(id));
    RegisterLive(s, id);
    assert forall job :: JobOk(s, job) ==> JobOk(s', job);
    hide LiveOk;
    forall r: nat | OwnDue(s', r) && r < |s'.registrations|
      ensures s'.registrations[r].id in s'.providers && s'.providers[s'.registrations[r].id] == r
    {
      assert OwnDue(s, r);
    }
  }

  lemma RegisterLive(s: State, id: string)
    requires LiveOk(s) && Enabled(s, Register(id))
    ensures LiveOk(Apply(s, Register(id)))
  {
    var s' := Apply(s, Register(id));
    forall r | 0 <= r < |s'.registrations| && s'.registrations[r].connected ensures Live(s', r) {
      if r < |s.registrations| { assert Live(s, r); }
    }
  }

  lemma OneMore<V>(m: map<string, V>, k: string, v: V)
    ensures |m[k := v]| == if k in m then |m| else |m| + 1
  {
    assert m[k := v].Keys == m.Keys + {k};
    assert |m[k := v]| == |m[k := v].Keys| && |m| == |m.Keys|;
  }

  /** Steps about effects only. */
  lemma EffectKeeps(s: State, s': State)
    requires Inv(s) && s' == s.(pending := s'.pending, byTab := s'.byTab, effects := s'.effects)
    requires forall a :: a in s'.pending ==>
               (a in s.pending && s'.pending[a].provider == s.pending[a].provider)
               || (s'.pending[a].provider in s.providers
                   && s.registrations[s.providers[s'.pending[a].provider]].connected)
    ensures Inv(s')
  {
    hide OwnOk, JobsOk;
    SameJobs(s, s');
  }

  lemma SameJobs(s: State, s': State)
    requires s' == s.(pending := s'.pending, byTab := s'.byTab, effects := s'.effects)
    ensures JobsOk(s) ==> JobsOk(s')
    ensures OwnOk(s) ==> OwnOk(s')
  {
    forall job ensures JobOk(s', job) == JobOk(s, job) {}
    forall r: nat ensures OwnDue(s', r) == OwnDue(s, r) {}
  }

  /** A job that is no disconnect's own cleanup is added at the end. */
  lemma EnqueueKeeps(s: State, job: Job)
    requires Inv(s) && JobOk(s, job) && !(job.Cleanup? && job.own)
    ensures Inv(s.(queue := s.queue + [job]))
  {
    var s' := s.(queue := s.queue + [job]);
    hide LiveOk;
    assert forall j :: JobOk(s, j) ==> JobOk(s', j);
    forall r: nat | OwnDue(s', r) ensures OwnDue(s, r) {
      if !(s.running.Some? && s.running.value.job == Cleanup(r, true)) {
        var i :| 0 <= i < |s'.queue| && s'.queue[i] == Cleanup(r, true);
        assert s.queue[i] == Cleanup(r, true);
      }
    }
    EnqueueFrame(s, job);
  }

  lemma EnqueueFrame(s: State, job: Job)
    ensures LiveOk(s) ==> LiveOk(s.(queue := s.queue + [job]))
  {
  }

  lemma DisconnectInv(s: State, r: nat)
    requires Inv(s) && EffectsOk(s) && Enabled(s, Disconnect(r))
    ensures Inv(DoDisconnect(s, r))
  {
    DisconnectKeeps(s, r);
    DisconnectLive(s, r);
    DisconnectJobs(s, r);
  }

  lemma DisconnectLive(s: State, r: nat)
    requires LiveOk(s) && EffectsOk(s) && Enabled(s, Disconnect(r))
    ensures LiveOk(DoDisconnect(s, r))
  {
    DisconnectKeeps(s, r);
    hide DropProvider, EffectsOk;
    var s' := DoDisconnect(s, r);
    ConnectedRest(s, s', r);
    assert s'.registrations == s.registrations[r := s.registrations[r].(connected := false)]
        && s'.providers == s.providers;
    DisconnectProviders(s, s', r);
    hide DoDisconnect;
    DisconnectPending(s, s', r);
  }

  lemma DisconnectProviders(s: State, s': State, r: nat)
    requires ProvidersOk(s) && r < |s.registrations| && s'.providers == s.providers
    requires s'.registrations == s.registrations[r := s.registrations[r].(connected := false)]
    ensures ProvidersOk(s')
  {
  }

  lemma DisconnectPending(s: State, s': State, r: nat)
    requires ProvidersOk(s) && ProvidersOk(s') && PendingLive(s) && r < |s.registrations| && s'.providers == s.providers
    requires s'.registrations == s.registrations[r := s.registrations[r].(connected := false)]
    requires forall a :: a in s'.pending ==>
               a in s.pending && s'.pending[a] == s.pending[a] && s.pending[a].provider != s.registrations[r].id
    ensures PendingLive(s')
  {
  }

  lemma ConnectedRest(s: State, s': State, r: nat)
    requires r < |s.registrations| && s'.providers == s.providers
    requires s'.registrations == s.registrations[r := s.registrations[r].(connected := false)]
    requires AllLive(s)
    ensures AllLive(s')
  {
    forall q | 0 <= q < |s'.registrations| && s'.registrations[q].connected ensures Live(s', q) {
      assert Live(s, q);
    }
  }

  /** A connected registration has no cleanup anywhere yet. */
  lemma NoneDue(s: State, r: nat)
    requires JobsOk(s) && r < |s.registrations| && s.registrations[r].connected
    ensures forall i, own :: 0 <= i < |s.queue| ==> s.queue[i] != Cleanup(r, own)
    ensures s.running.Some? ==> !IsCleanup(s.running.value.job, r)
  {
    forall i, own | 0 <= i < |s.queue| ensures s.queue[i] != Cleanup(r, own) {
      assert JobOk(s, s.queue[i]);
    }
  }

  lemma DisconnectJobs(s: State, r: nat)
    requires JobsOk(s) && OwnOk(s) && LiveOk(s) && Enabled(s, Disconnect(r))
    ensures JobsOk(DoDisconnect(s, r)) && OwnOk(DoDisconnect(s, r))
  {
    hide DropProvider;
    NoneDue(s, r);
    var s' := DoDisconnect(s, r);
    assert forall job :: JobOk(s, job) ==> JobOk(s', job);
    assert Live(s, r);
    forall q: nat | OwnDue(s', q) && q < |s'.registrations|
      ensures s'.registrations[q].id in s'.providers && s'.providers[s'.registrations[q].id] == q
    {
      if q != r { OwnDueBefore(s, s', r, q); }
    }
  }

  lemma OwnDueBefore(s: State, s': State, r: nat, q: nat)
    requires s'.queue == s.queue + [Cleanup(r, true)] && s'.running == s.running && OwnDue(s', q) && q != r
    ensures OwnDue(s, q)
  {
    if !(s.running.Some? && s.running.value.job == Cleanup(q, true)) {
      var i :| 0 <= i < |s'.queue| && s'.queue[i] == Cleanup(q, true);
      assert s.queue[i] == Cleanup(q, true);
    }
  }

  lemma StartKeeps(s: State)
    requires Inv(s) && Enabled(s, StartJob)
    ensures Inv(DoStart(s))
  {
    StartJobs(s);
    hide JobsOk, OwnOk;
    StartFrame(s);
  }

  lemma StartFrame(s: State)
    requires Enabled(s, StartJob)
    ensures LiveOk(s) ==> LiveOk(DoStart(s))
  {
  }

  lemma StartJobs(s: State)
    requires JobsOk(s) && OwnOk(s) && Enabled(s, StartJob)
    ensures JobsOk(DoStart(s)) && OwnOk(DoStart(s))
  {
    hide Accepted, OwnedBy;
    var s' := DoStart(s);
    assert forall job :: JobOk(s, job) ==> JobOk(s', job);
    assert forall i :: 0 <= i < |s'.queue| ==> s'.queue[i] == s.queue[i + 1];
    assert s'.running.Some? ==> s'.running.value.job == s.queue[0];
    forall q: nat | OwnDue(s', q) && q < |s'.registrations|
      ensures s'.registrations[q].id in s'.providers && s'.providers[s'.registrations[q].id] == q
    {
      OwnDueStarted(s, s', q);
    }
  }

  lemma OwnDueStarted(s: State, s': State, q: nat)
    requires s.queue != [] && s'.queue == s.queue[1..] && OwnDue(s', q)
    requires s'.running.Some? ==> s'.running.value.job == s.queue[0]
    ensures OwnDue(s, q)
  {
    if s'.running.Some? && s'.running.value.job == Cleanup(q, true) {
      assert s.queue[0] == Cleanup(q, true);
    } else {
      var i :| 0 <= i < |s'.queue| && s'.queue[i] == Cleanup(q, true);
      assert s.queue[i + 1] == Cleanup(q, true);
    }
  }

  /** The job that has the lock goes on with it or lets it go; only resources change. */
  lemma LockedKeeps(s: State, s': State)
    requires Inv(s) && s' == s.(running := s'.running, resources := s'.resources)
    requires s'.running.Some? ==> s.running.Some? && s'.running.value.job == s.running.value.job
    ensures Inv(s')
  {
    forall job ensures JobOk(s', job) == JobOk(s, job) {}
    forall r: nat | OwnDue(s', r) ensures OwnDue(s, r) {}
    LockedFrame(s, s');
  }

  lemma LockedFrame(s: State, s': State)
    requires s' == s.(running := s'.running, resources := s'.resources)
    ensures LiveOk(s) ==> LiveOk(s')
  {
  }

  /** An accepted upsert stays within the limits it was checked against under the lock. */
  lemma UpsertCaps(s: State, r: nat, tab: string, res: Resource, generation: nat)
    requires CapsOk(s) && r < |s.registrations| && Accepted(s, Upsert(r, tab, res))
    ensures CapsOk(s.(resources := s.resources[tab := Resource(s.registrations[r].id, generation)]))
  {
    var id := s.registrations[r].id;
    var m := s.resources[tab := Resource(id, generation)];
    OneMore(s.resources, tab, Resource(id, generation));
    forall p: string ensures |OwnedBy(m, p)| <= MAX_PER_PROVIDER {
      assert |OwnedBy(s.resources, p)| <= MAX_PER_PROVIDER;
      if p == id {
        assert OwnedBy(m, p) == OwnedBy(s.resources, p) + {tab};
      } else {
        assert OwnedBy(m, p) <= OwnedBy(s.resources, p);
        SubsetSize(OwnedBy(m, p), OwnedBy(s.resources, p));
      }
    }
  }

  lemma RemoveCaps(s: State, tab: string)
    requires CapsOk(s)
    ensures CapsOk(s.(resources := s.resources - {tab}))
  {
    var m := s.resources - {tab};
    SubsetSize(m.Keys, s.resources.Keys);
    assert |m| == |m.Keys| && |s.resources| == |s.resources.Keys|;
    forall p: string ensures |OwnedBy(m, p)| <= MAX_PER_PROVIDER {
      assert |OwnedBy(s.resources, p)| <= MAX_PER_PROVIDER;
      SubsetSize(OwnedBy(m, p), OwnedBy(s.resources, p));
    }
  }

  lemma CleanOneLock(s: State, tab: string, ok: bool)
    requires LockOk(s) && Enabled(s, CleanOne(tab, ok))
    ensures LockOk(DoCleanOne(s, tab, ok))
  {
    var s' := DoCleanOne(s, tab, ok);
    var run := s.running.value;
    if run.job.r < |s.registrations| {
      var id := s.registrations[run.job.r].id;
      assert OwnedBy(s.resources - {tab}, id) == OwnedBy(s.resources, id) - {tab};
    }
  }

  lemma FinishCleanupKeeps(s: State)
    requires Inv(s) && Enabled(s, FinishCleanup) && NotReplaced(s)
    ensures Inv(DoFinishCleanup(s))
  {
    FinishCleanupJobs(s);
    FinishCleanupLive(s);
  }

  lemma FinishCleanupJobs(s: State)
    requires JobsOk(s) && OwnOk(s) && Enabled(s, FinishCleanup) && NotReplaced(s)
    ensures JobsOk(DoFinishCleanup(s)) && OwnOk(DoFinishCleanup(s))
    ensures !s.registrations[s.running.value.job.r].connected
  {
    hide OwnedBy, Accepted;
    var s' := DoFinishCleanup(s);
    var r := s.running.value.job.r;
    assert JobOk(s, s.running.value.job);
    assert s'.queue == s.queue && s'.registrations == s.registrations && s'.running.None?;
    forall job ensures JobOk(s', job) == JobOk(s, job) {}
    forall q: nat | OwnDue(s', q) && q < |s'.registrations|
      ensures s'.registrations[q].id in s'.providers && s'.providers[s'.registrations[q].id] == q
    {
      assert OwnDue(s, q);
      assert q != r;
    }
  }

  lemma FinishCleanupLive(s: State)
    requires LiveOk(s) && Enabled(s, FinishCleanup) && NotReplaced(s)
    requires !s.registrations[s.running.value.job.r].connected
    ensures LiveOk(DoFinishCleanup(s))
  {
    var s' := DoFinishCleanup(s);
    forall q | 0 <= q < |s'.registrations| && s'.registrations[q].connected ensures Live(s', q) {
      assert Live(s, q);
    }
  }

  lemma NextKeeps(s: State, step: Step)
    requires Inv(s) && EffectsOk(s) && Allowed(s, step)
    ensures Inv(Next(s, step))
  {
    hide Inv, EffectsOk, Settle, DropProvider, DoDispatch, DoDisconnect;
    hide DoStart, DoFinish, DoFinishCleanup, NotReplaced;
    if Enabled(s, step) {
      match step
      case Register(id) => RegisterKeeps(s, id);
      case Dispatch(action, tab, generation, sent) => DispatchInv(s, action, tab, generation, sent);
      case Complete(r, action) => SettleInv(s, action, ByProvider(r));
      case TimeOut(action) => SettleInv(s, action, ByTimeout);
      case Disconnect(r) => DisconnectInv(s, r);
      case Ready(r) => EnqueueKeeps(s, Cleanup(r, false));
      case Enqueue(job) => EnqueueKeeps(s, job);
      case StartJob => StartKeeps(s);
      case FinishJob(_, _) => LockedKeeps(s, Apply(s, step));
      case CleanOne(_, _) => LockedKeeps(s, Apply(s, step));
      case FinishCleanup => FinishCleanupKeeps(s);
    }
  }

  lemma SettleInv(s: State, action: string, answer: Answer)
    requires Inv(s) && action in s.pending && s.pending[action].effect < |s.effects|
    ensures Inv(Settle(s, action, answer))
  {
    hide Inv;
    EffectKeeps(s, Settle(s, action, answer));
  }

  lemma DispatchInv(s: State, action: string, tab: string, generation: nat, sent: bool)
    requires Inv(s) && Enabled(s, Dispatch(action, tab, generation, sent))
    ensures Inv(DoDispatch(s, action, tab, sent))
  {
    hide Inv;
    EffectKeeps(s, DoDispatch(s, action, tab, sent));
  }

  lemma {:induction false} RunKeeps(steps: seq<Step>)
    requires AllowedRun(steps)
    ensures Inv(Run(steps)) && EffectsOk(Run(steps))
  {
    RunEffects(steps);
    if steps == [] {
      InitInv();
    } else {
      hide Inv, EffectsOk, Next, Allowed;
      RunKeeps(steps[..|steps| - 1]);
      NextKeeps(Run(steps[..|steps| - 1]), steps[|steps| - 1]);
    }
  }

  lemma InitInv()
    ensures Inv(Init())
  {
  }

  // ---- The limits, in every run ----

  lemma FinishBounded(s: State, ok: bool, generation: nat)
    requires Bounded(s) && Enabled(s, FinishJob(ok, generation))
    ensures Bounded(DoFinish(s, ok, generation))
  {
    var job := s.running.value.job;
    var s' := DoFinish(s, ok, generation);
    assert Accepted(s, job);
    hide Accepted;
    if ok {
      match job
      case Upsert(r, tab, res) => UpsertCaps(s, r, tab, res, generation);
      case Remove(_, tab, _) => RemoveCaps(s, tab);
    }
    SameCaps(s.(resources := s'.resources), s');
  }

  lemma SameCaps(s: State, s': State)
    requires CapsOk(s) && s'.resources == s.resources
    ensures CapsOk(s')
  {
  }

  lemma CleanOneBounded(s: State, tab: string, ok: bool)
    requires Bounded(s) && Enabled(s, CleanOne(tab, ok))
    ensures Bounded(DoCleanOne(s, tab, ok))
  {
    var s' := DoCleanOne(s, tab, ok);
    CleanOneLock(s, tab, ok);
    RemoveCaps(s, tab);
    hide LockOk;
    SameCaps(s.(resources := s'.resources), s');
  }

  lemma StartBounded(s: State)
    requires Bounded(s) && Enabled(s, StartJob)
    ensures Bounded(DoStart(s))
  {
    SameCaps(s, DoStart(s));
    hide CapsOk;
  }

  lemma RegisterBounded(s: State, id: string)
    requires Bounded(s) && Enabled(s, Register(id))
    ensures Bounded(Apply(s, Register(id)))
  {
    OneMore(s.providers, id, |s.registrations|);
    SameCaps(s, Apply(s, Register(id)));
    hide CapsOk;
  }

  lemma FinishCleanupBounded(s: State)
    requires Bounded(s) && Enabled(s, FinishCleanup)
    ensures Bounded(DoFinishCleanup(s))
  {
    var s' := DoFinishCleanup(s);
    SubsetSize(s'.providers.Keys, s.providers.Keys);
    assert |s'.providers| == |s'.providers.Keys| && |s.providers| == |s.providers.Keys|;
    SameCaps(s, s');
  }

  /** Steps that leave resources, providers and the lock's holder alone. */
  lemma ElsewhereBounded(s: State, s': State)
    requires Bounded(s) && s'.resources == s.resources && s'.providers == s.providers && s'.running == s.running
    requires |s'.registrations| == |s.registrations|
    requires forall r :: 0 <= r < |s.registrations| ==> s'.registrations[r].id == s.registrations[r].id
    ensures Bounded(s')
  {
    SameCaps(s, s');
    hide CapsOk;
  }

  /** No step leaves the limits, whatever became of registrations. */
  lemma NextBounded(s: State, step: Step)
    requires Bounded(s)
    ensures Bounded(Next(s, step))
  {
    hide Bounded, DropProvider, DoStart, DoFinish, DoCleanOne, DoFinishCleanup;
    if Enabled(s, step) {
      match step
      case Register(id) => RegisterBounded(s, id);
      case StartJob => StartBounded(s);
      case FinishJob(ok, generation) => FinishBounded(s, ok, generation);
      case CleanOne(tab, ok) => CleanOneBounded(s, tab, ok);
      case FinishCleanup => FinishCleanupBounded(s);
      case _ => ElsewhereBounded(s, Apply(s, step));
    }
  }

  lemma {:induction false} RunBounded(steps: seq<Step>)
    ensures Bounded(Run(steps))
  {
    if steps == [] {
      assert forall p: string :: OwnedBy(map[], p) == {};
    } else {
      hide Bounded, Next;
      RunBounded(steps[..|steps| - 1]);
      NextBounded(Run(steps[..|steps| - 1]), steps[|steps| - 1]);
    }
  }

  /**
   * In every run, even past a replaced registration, resources never exceed 256
   * in all nor 64 a provider, providers 8, and effects in flight 128.
   */
  lemma WithinCaps(steps: seq<Step>, provider: string)
    ensures var s := Run(steps);
            |s.resources| <= MAX_RESOURCES && |OwnedBy(s.resources, provider)| <= MAX_PER_PROVIDER
            && |s.providers| <= MAX_PROVIDERS && |s.pending| <= MAX_PENDING
  {
    hide Run, LockOk, OwnedBy;
    RunBounded(steps);
    RunEffects(steps);
  }

  /** Some registration of the provider is connected. */
  predicate Served(s: State, id: string) {
    exists q :: 0 <= q < |s.registrations| && s.registrations[q].connected && s.registrations[q].id == id
  }

  predicate PendingServed(s: State) {
    forall a :: a in s.pending ==> Served(s, s.pending[a].provider)
  }

  /** Registrations and providers are as they were, and no effect was dispatched. */
  lemma ServedFrame(s: State, s': State)
    requires PendingServed(s) && s'.registrations == s.registrations
    requires forall a :: a in s'.pending ==> a in s.pending && s'.pending[a].provider == s.pending[a].provider
    ensures PendingServed(s')
  {
  }

  lemma DispatchServed(s: State, action: string, tab: string, generation: nat, sent: bool)
    requires PendingServed(s) && ProvidersOk(s) && Enabled(s, Dispatch(action, tab, generation, sent))
    ensures PendingServed(DoDispatch(s, action, tab, sent))
  {
    var s1 := DoDispatch(s, action, tab, true);
    var q := s.providers[s.resources[tab].provider];
    assert s.registrations[q].connected && s.registrations[q].id == s.resources[tab].provider;
    assert Served(s1, s.resources[tab].provider);
    forall a | a in s1.pending ensures Served(s1, s1.pending[a].provider) {
      if a != action { assert Served(s, s.pending[a].provider); }
    }
    if !sent { ServedFrame(s1, DoDispatch(s, action, tab, sent)); }
  }

  /** Disconnecting one registration of a provider drops all effects of the provider. */
  lemma DisconnectServed(s: State, r: nat)
    requires PendingServed(s) && EffectsOk(s) && Enabled(s, Disconnect(r))
    ensures PendingServed(DoDisconnect(s, r))
  {
    var s' := DoDisconnect(s, r);
    DisconnectKeeps(s, r);
    hide DropProvider, EffectsOk;
    forall a | a in s'.pending ensures Served(s', s'.pending[a].provider) {
      var q :| 0 <= q < |s.registrations| && s.registrations[q].connected
               && s.registrations[q].id == s.pending[a].provider;
      assert q != r && s'.registrations[q] == s.registrations[q];
    }
  }

  lemma RegisterServed(s: State, id: string)
    requires PendingServed(s) && Enabled(s, Register(id))
    ensures PendingServed(Apply(s, Register(id)))
  {
    var s' := Apply(s, Register(id));
    forall a | a in s'.pending ensures Served(s', s'.pending[a].provider) {
      var q :| 0 <= q < |s.registrations| && s.registrations[q].connected
               && s.registrations[q].id == s.pending[a].provider;
      assert s'.registrations[q] == s.registrations[q];
    }
  }

  lemma NextServed(s: State, step: Step)
    requires PendingServed(s) && EffectsOk(s) && ProvidersOk(s)
    ensures PendingServed(Next(s, step))
  {
    hide PendingServed, EffectsOk, ProvidersOk, DoDispatch, DoDisconnect, DoStart, DoFinish, DoCleanOne;
    if Enabled(s, step) {
      match step
      case Register(id) => RegisterServed(s, id);
      case Dispatch(action, tab, generation, sent) => DispatchServed(s, action, tab, generation, sent);
      case Disconnect(r) => DisconnectServed(s, r);
      case _ => ServedFrame(s, Apply(s, step));
    }
  }

  lemma NextProviders(s: State, step: Step)
    requires ProvidersOk(s)
    ensures ProvidersOk(Next(s, step))
  {
    hide DropProvider, DoStart, DoFinish, DoCleanOne, Accepted, OwnedBy;
  }

  lemma {:induction false} RunServed(steps: seq<Step>)
    ensures PendingServed(Run(steps)) && ProvidersOk(Run(steps))
  {
    if steps != [] {
      hide PendingServed, ProvidersOk, EffectsOk, Next;
      var s := Run(steps[..|steps| - 1]);
      RunServed(steps[..|steps| - 1]);
      RunEffects(steps[..|steps| - 1]);
      NextServed(s, steps[|steps| - 1]);
      NextProviders(s, steps[|steps| - 1]);
    }
  }

  /**
   * A disconnect that completes leaves nothing: when its own cleanup ends
   * without a failure, the provider has no resource and its id is free again,
   * in every run; and no effect in flight, unless another registration of the
   * provider is connected by then, as after a cleanup dropped a replacement.
   */
  lemma DisconnectLeavesNothing(steps: seq<Step>, r: nat)
    requires Enabled(Run(steps), FinishCleanup)
    requires Run(steps).running.value.job == Cleanup(r, true) && !Run(steps).running.value.failed
    ensures var s := Run(steps);
            var id := s.registrations[r].id;
            var s' := Apply(s, FinishCleanup);
            && OwnedBy(s'.resources, id) == {} && id !in s'.providers
            && (!Served(s, id) || AllowedRun(steps) ==> forall a :: a in s'.pending ==> s'.pending[a].provider != id)
  {
    hide Run, OwnedBy, CapsOk, AllowedRun, Served;
    RunBounded(steps);
    RunServed(steps);
    if AllowedRun(steps) {
      RunKeeps(steps);
      OwnLeavesNoEffect(Run(steps), r);
    }
  }

  lemma OwnLeavesNoEffect(s: State, r: nat)
    requires Inv(s) && Enabled(s, FinishCleanup) && s.running.value.job == Cleanup(r, true)
    ensures forall a :: a in s.pending ==> s.pending[a].provider != s.registrations[r].id
  {
    assert OwnDue(s, r);
    assert JobOk(s, s.running.value.job);
  }

  // ---- A replaced registration ----

  /**
   * Exactly when finishing a cleanup that had no failure keeps every connected
   * registration usable: unless its id has been registered again and that
   * registration is connected.
   */
  lemma FinishCleanupSafeIff(s: State)
    requires Inv(s) && Enabled(s, FinishCleanup) && !s.running.value.failed
    ensures var id := s.registrations[s.running.value.job.r].id;
            AllLive(DoFinishCleanup(s)) <==> !(id in s.providers && s.registrations[s.providers[id]].connected)
  {
    hide OwnOk;
    var s' := DoFinishCleanup(s);
    var id := s.registrations[s.running.value.job.r].id;
    if id in s.providers && s.registrations[s.providers[id]].connected {
      assert !Live(s', s.providers[id]);
    } else {
      forall q | 0 <= q < |s'.registrations| && s'.registrations[q].connected ensures Live(s', q) {
        assert Live(s, q);
      }
    }
  }

  /** A broker that only ever saw registrations of one provider id. */
  function Lone(registrations: seq<Registration>, provider: Option<nat>, id: string, queue: seq<Job>,
                running: Option<Holder>): State {
    State(registrations, if provider.Some? then map[id := provider.value] else map[], map[], map[], map[], [],
          queue, running)
  }

  lemma Extend(steps: seq<Step>, step: Step, s': State) returns (longer: seq<Step>)
    requires Enabled(Run(steps), step) && Apply(Run(steps), step) == s'
    ensures Run(longer) == s'
  {
    longer := steps + [step];
    assert longer[..|longer| - 1] == steps;
  }

  /** A registration disconnects while `ready` also asks for its cleanup, and the first cleanup ends. */
  lemma CleanedOnce(id: string) returns (steps: seq<Step>)
    ensures Run(steps) == Lone([Registration(id, false)], None, id, [Cleanup(0, false)], None)
  {
    var on, off := Registration(id, true), Registration(id, false);
    var own := Holder(Cleanup(0, true), {}, false);
    assert OwnedBy(map[], id) == {};
    hide Run;
    NothingRun();
    steps := Extend([], Register(id), Lone([on], Some(0), id, [], None));
    NoneToDrop(Lone([off], Some(0), id, [], None), id);
    assert [on][0 := off] == [off] && [] + [Cleanup(0, true)] == [Cleanup(0, true)];
    steps := Extend(steps, Disconnect(0), Lone([off], Some(0), id, [Cleanup(0, true)], None));
    steps := Extend(steps, Ready(0), Lone([off], Some(0), id, [Cleanup(0, true), Cleanup(0, false)], None));
    assert [Cleanup(0, true), Cleanup(0, false)][1..] == [Cleanup(0, false)];
    steps := Extend(steps, StartJob, Lone([off], Some(0), id, [Cleanup(0, false)], Some(own)));
    steps := Extend(steps, FinishCleanup, Lone([off], None, id, [Cleanup(0, false)], None));
  }

  lemma NothingRun()
    ensures Run([]) == Init()
  {
  }

  lemma NoneToDrop(s: State, provider: string)
    requires s.pending == map[] && s.byTab == map[] && s.effects == []
    ensures DropProvider(s, provider) == s
  {
  }

  /**
   * The code forgets a provider by id alone: if its client registers again
   * between a disconnect's cleanup and one `ready` had already asked for, that
   * later cleanup drops the new registration.
   */
  lemma DropsReplacement(id: string) returns (steps: seq<Step>)
    ensures Run(steps) == Lone([Registration(id, false), Registration(id, true)], None, id, [], None)
  {
    var on, off := Registration(id, true), Registration(id, false);
    var late := Holder(Cleanup(0, false), {}, false);
    assert OwnedBy(map[], id) == {};
    hide Run;
    steps := CleanedOnce(id);
    assert [off] + [on] == [off, on];
    steps := Extend(steps, Register(id), Lone([off, on], Some(1), id, [Cleanup(0, false)], None));
    assert [Cleanup(0, false)][1..] == [];
    steps := Extend(steps, StartJob, Lone([off, on], Some(1), id, [], Some(late)));
    steps := Extend(steps, FinishCleanup, Lone([off, on], None, id, [], None));
  }

  /** Nothing can be done through that registration, though it is connected. */
  lemma ReadyCanDropAReplacement(id: string) returns (steps: seq<Step>)
    ensures !AllLive(Run(steps))
  {
    hide Run;
    steps := DropsReplacement(id);
    assert !Live(Run(steps), 1);
  }

  /** The client has registered a third time and owns one tab. */
  function Third(second: bool, id: string, tab: string, effect: Option<string>, queue: seq<Job>,
                 running: Option<Holder>): State {
    var registrations := [Registration(id, false), Registration(id, second), Registration(id, true)];
    State(registrations, map[id := 2], map[tab := Resource(id, 1)],
          if effect.Some? then map[effect.value := Pending(id, tab, 0)] else map[],
          if effect.Some? then map[tab := effect.value] else map[],
          if effect.Some? then [Effect(id, [])] else [], queue, running)
  }

  lemma ThirdOwnsTab(id: string, tab: string) returns (steps: seq<Step>)
    ensures Run(steps) == Third(true, id, tab, None, [], None)
  {
    var on, off := Registration(id, true), Registration(id, false);
    var all := [off, on, on];
    var upsert := Upsert(2, tab, Resource(id, 1));
    assert OwnedBy(map[], id) == {} && [upsert][1..] == [] && [] + [upsert] == [upsert];
    hide Run;
    steps := DropsReplacement(id);
    assert [off, on] + [on] == all;
    steps := Extend(steps, Register(id), Lone(all, Some(2), id, [], None));
    steps := Extend(steps, Enqueue(upsert), Lone(all, Some(2), id, [upsert], None));
    steps := Extend(steps, StartJob, Lone(all, Some(2), id, [], Some(Holder(upsert, {}, false))));
    steps := Extend(steps, FinishJob(true, 1), Third(true, id, tab, None, [], None));
  }

  /** The dropped registration disconnects, and the third one dispatches before the cleanup gets the lock. */
  lemma ThirdDispatches(id: string, tab: string, action: string) returns (steps: seq<Step>)
    ensures Run(steps) == Third(false, id, tab, Some(action), [Cleanup(1, true)], None)
  {
    var own := Cleanup(1, true);
    hide Run;
    steps := ThirdOwnsTab(id, tab);
    NoneToDrop(Third(false, id, tab, None, [], None), id);
    assert [] + [own] == [own];
    steps := Extend(steps, Disconnect(1), Third(false, id, tab, None, [own], None));
    steps := Extend(steps, Dispatch(action, tab, 1, true), Third(false, id, tab, Some(action), [own], None));
  }

  lemma ThirdStarts(id: string, tab: string, action: string)
    ensures var own, s := Cleanup(1, true), Third(false, id, tab, Some(action), [Cleanup(1, true)], None);
            && Enabled(s, StartJob)
            && Apply(s, StartJob) == Third(false, id, tab, Some(action), [], Some(Holder(own, {tab}, false)))
  {
    assert OwnedBy(map[tab := Resource(id, 1)], id) == {tab} && [Cleanup(1, true)][1..] == [];
  }

  lemma ThirdCleaned(id: string, tab: string, action: string)
    ensures var s := Third(false, id, tab, Some(action), [], Some(Holder(Cleanup(1, true), {tab}, false)));
            && Enabled(s, CleanOne(tab, true))
            && Apply(s, CleanOne(tab, true))
               == s.(running := Some(Holder(Cleanup(1, true), {}, false)), resources := map[])
  {
    assert {tab} - {tab} == {} && map[tab := Resource(id, 1)] - {tab} == map[];
  }

  /**
   * Then a completed disconnect can leave an effect in flight: the cleanup takes
   * the tab and the provider away from the third registration, whose effect
   * stays.
   */
  lemma EffectCanOutliveCleanup(id: string, tab: string, action: string) returns (steps: seq<Step>)
    ensures Enabled(Run(steps), FinishCleanup)
    ensures Run(steps).running.value == Holder(Cleanup(1, true), {}, false)
    ensures var s' := Apply(Run(steps), FinishCleanup);
            && s'.registrations[1].id == id && id !in s'.providers
            && action in s'.pending && s'.pending[action].provider == id
  {
    hide Run, DoStart, DoCleanOne;
    var own := Cleanup(1, true);
    var s := Third(false, id, tab, Some(action), [], Some(Holder(own, {tab}, false)));
    steps := ThirdDispatches(id, tab, action);
    ThirdStarts(id, tab, action);
    ThirdCleaned(id, tab, action);
    steps := Extend(steps, StartJob, s);
    steps := Extend(steps, CleanOne(tab, true), s.(running := Some(Holder(own, {}, false)), resources := map[]));
  }
}
