/** The broker object: what its calls do between two awaits, proved to be the steps of the state machine. */
module BrowserBroker {
  import opened ControlEvents
  import opened ProviderBroker

  datatype Error = AlreadyRegistered | ProviderLimit | Unavailable | Replaced | Duplicate | Busy | NotPending

  class BrowserProviderBroker {
    var registrations: seq<Registration>
    var providers: map<string, nat>
    var resources: map<string, Resource>
    var pending: map<string, Pending>
    var pendingByTab: map<string, string>
    var effects: seq<Effect>
    var queue: seq<Job>
    var running: Option<Holder>

    function Now(): State
      reads this
    {
      State(registrations, providers, resources, pending, pendingByTab, effects, queue, running)
    }

    constructor ()
      ensures Now() == Init()
    {
      registrations, providers, resources := [], map[], map[];
      pending, pendingByTab, effects := map[], map[], [];
      queue, running := [], None;
    }

    method RegisterProvider(id: string) returns (error: Option<Error>)
      modifies this
      ensures error.None? <==> Enabled(old(Now()), Register(id))
      ensures error == Some(AlreadyRegistered) <==> id in old(providers)
      ensures error == Some(ProviderLimit) <==> id !in old(providers) && |old(providers)| >= MAX_PROVIDERS
      ensures Now() == Next(old(Now()), Register(id))
    {
      if id in providers { return Some(AlreadyRegistered); }
      if |providers| >= MAX_PROVIDERS { return Some(ProviderLimit); }
      providers := providers[id := |registrations|];
      registrations := registrations + [Registration(id, true)];
      error := None;
    }

    /** Takes an effect out of both maps, its caller having got this answer. */
    method SettleEffect(action: string, answer: Answer)
      requires action in pending ==> pending[action].effect < |effects|
      modifies this`pending, this`pendingByTab, this`effects
      ensures Now() == if action in old(pending) then Settle(old(Now()), action, answer) else old(Now())
    {
      if action !in pending { return; }
      var p := pending[action];
      pending := pending - {action};
      if p.tab in pendingByTab && pendingByTab[p.tab] == action { pendingByTab := pendingByTab - {p.tab}; }
      effects := effects[p.effect := effects[p.effect].(answers := effects[p.effect].answers + [answer])];
    }

    method DispatchEffect(action: string, tab: string, generation: nat, sent: bool) returns (error: Option<Error>)
      requires LiveOk(Now()) && EffectsOk(Now())
      modifies this
      ensures error.None? <==> Enabled(old(Now()), Dispatch(action, tab, generation, sent))
      ensures var tabThere := tab in old(resources);
              var current := tabThere && old(resources)[tab].generation == generation;
              var served := current && exists r :: 0 <= r < |old(registrations)| && Live(old(Now()), r)
                                                   && old(registrations)[r].id == old(resources)[tab].provider;
              && (error == Some(Replaced) <==> tabThere && !current)
              && (error == Some(Unavailable) <==> !tabThere || (current && !served))
              && (error == Some(Duplicate) <==> served && action in old(pending))
              && (error == Some(Busy) <==>
                    && served && action !in old(pending)
                    && (tab in old(pendingByTab) || |old(pending)| >= MAX_PENDING))
      ensures Now() == Next(old(Now()), Dispatch(action, tab, generation, sent))
    {
      hide Settle, AllLive, PendingLive, Paired, Unanswered, AtMostOneAnswer;
      assert tab in resources && resources[tab].provider in providers ==>
          var r := providers[resources[tab].provider];
          Live(Now(), r) <==> registrations[r].connected;
      if tab !in resources { return Some(Unavailable); }
      var resource := resources[tab];
      if resource.generation != generation { return Some(Replaced); }
      if resource.provider !in providers || !registrations[providers[resource.provider]].connected {
        return Some(Unavailable);
      }
      if action in pending { return Some(Duplicate); }
      if tab in pendingByTab { return Some(Busy); }
      if |pending| >= MAX_PENDING { return Some(Busy); }
      pending := pending[action := Pending(resource.provider, tab, |effects|)];
      pendingByTab := pendingByTab[tab := action];
      effects := effects + [Effect(resource.provider, [])];
      if !sent { SettleEffect(action, BySendFailure); }
      error := None;
    }

    /** A result is taken only through a live registration and only for its own provider's effect. */
    method CompleteEffect(r: nat, action: string) returns (error: Option<Error>)
      requires LiveOk(Now()) && EffectsOk(Now()) && r < |registrations|
      modifies this`pending, this`pendingByTab, this`effects
      ensures error.None? <==> Enabled(old(Now()), Complete(r, action))
      ensures error == Some(Unavailable) <==> !Live(old(Now()), r)
      ensures error == Some(NotPending) <==>
                && Live(old(Now()), r)
                && (action in old(pending) ==> old(pending)[action].provider != old(registrations)[r].id)
      ensures Now() == Next(old(Now()), Complete(r, action))
    {
      var me := registrations[r];
      if !me.connected || me.id !in providers || providers[me.id] != r { return Some(Unavailable); }
      if action !in pending || pending[action].provider != me.id { return Some(NotPending); }
      SettleEffect(action, ByProvider(r));
      error := None;
    }

    /** Ends every effect of a provider, one by one. */
    method EndEffects(id: string)
      requires EffectsOk(Now())
      modifies this`pending, this`pendingByTab, this`effects
      ensures Now() == DropProvider(old(Now()), id)
    {
      hide DropProvider, EffectsOk, Settle;
      ghost var was := Now();
      var actions := pending.Keys;
      while actions != {}
        invariant actions <= pending.Keys && EffectsOk(Now())
        invariant forall a :: a in pending && a !in actions ==> pending[a].provider != id
        invariant DropProvider(Now(), id) == DropProvider(was, id)
        decreases |actions|
      {
        var a :| a in actions;
        actions := actions - {a};
        if pending[a].provider == id {
          PendingBound(Now(), a);
          DropOne(Now(), a);
          SettleKeeps(Now(), a, ByDisconnect);
          SettledKeys(Now(), a);
          SettleEffect(a, ByDisconnect);
        }
      }
      AllDropped(Now(), id);
    }

    /** The provider is gone: its effects end at once, its tabs once the lock allows. */
    method DisconnectProvider(r: nat)
      requires LiveOk(Now()) && EffectsOk(Now()) && r < |registrations|
      modifies this
      ensures Now() == Next(old(Now()), Disconnect(r))
    {
      hide DropProvider, EffectsOk, LiveOk;
      var me := registrations[r];
      if !me.connected { return; }
      registrations := registrations[r := me.(connected := false)];
      SameEffects(old(Now()), Now());
      EndEffects(me.id);
      queue := queue + [Cleanup(r, true)];
    }
  }

  lemma PendingBound(s: State, a: string)
    requires EffectsOk(s) && a in s.pending
    ensures s.pending[a].effect < |s.effects|
  {
  }

  lemma SettledKeys(s: State, a: string)
    requires a in s.pending && s.pending[a].effect < |s.effects|
    ensures Settle(s, a, ByDisconnect).pending == s.pending - {a}
    ensures Settle(s, a, ByDisconnect).registrations == s.registrations
  {
  }

  /** Answering one of a provider's effects first makes no difference to answering all of them. */
  lemma DropOne(s: State, a: string)
    requires EffectsOk(s) && a in s.pending && s.pending[a].effect < |s.effects|
    ensures DropProvider(Settle(s, a, ByDisconnect), s.pending[a].provider) == DropProvider(s, s.pending[a].provider)
  {
    DropOnePair(s, a);
    DropOneAnswer(s, a);
    hide DropProvider;
    var id := s.pending[a].provider;
    assert DropProvider(Settle(s, a, ByDisconnect), id).queue == DropProvider(s, id).queue;
  }

  lemma DropOnePair(s: State, a: string)
    requires Paired(s.pending, s.byTab) && a in s.pending && s.pending[a].effect < |s.effects|
    ensures var id := s.pending[a].provider;
            var x, y := DropProvider(Settle(s, a, ByDisconnect), id), DropProvider(s, id);
            x.pending == y.pending && x.byTab == y.byTab
  {
    hide AnswerAll;
  }

  function EffectsOf(s: State, id: string): set<nat> {
    set b | b in s.pending && s.pending[b].provider == id :: s.pending[b].effect
  }

  lemma DropsEffectsOf(s: State, id: string)
    ensures DropProvider(s, id).effects == AnswerAll(s.effects, EffectsOf(s, id))
  {
  }

  lemma EffectsOfSettled(s: State, a: string)
    requires Unanswered(s.pending, s.effects) && a in s.pending
    ensures var id := s.pending[a].provider;
            var rest := EffectsOf(Settle(s, a, ByDisconnect), id);
            s.pending[a].effect !in rest && EffectsOf(s, id) == rest + {s.pending[a].effect}
  {
    var id := s.pending[a].provider;
    var s1 := Settle(s, a, ByDisconnect);
    assert s1.pending == s.pending - {a};
    forall e | e in EffectsOf(s, id) ensures e in EffectsOf(s1, id) + {s.pending[a].effect} {
      var b :| b in s.pending && s.pending[b].provider == id && s.pending[b].effect == e;
      if b != a { assert b in s1.pending && s1.pending[b] == s.pending[b]; }
    }
    forall e | e in EffectsOf(s1, id) ensures e in EffectsOf(s, id) && e != s.pending[a].effect {
      var b :| b in s1.pending && s1.pending[b].provider == id && s1.pending[b].effect == e;
      assert b in s.pending && s.pending[b] == s1.pending[b] && b != a;
    }
  }

  lemma DropOneAnswer(s: State, a: string)
    requires Unanswered(s.pending, s.effects) && a in s.pending
    ensures var id := s.pending[a].provider;
            DropProvider(Settle(s, a, ByDisconnect), id).effects == DropProvider(s, id).effects
  {
    hide DropProvider, AnswerAll;
    var id := s.pending[a].provider;
    var s1 := Settle(s, a, ByDisconnect);
    DropsEffectsOf(s, id);
    DropsEffectsOf(s1, id);
    EffectsOfSettled(s, a);
    var x, y := AnswerAll(s1.effects, EffectsOf(s1, id)), AnswerAll(s.effects, EffectsOf(s, id));
    assert forall i :: 0 <= i < |x| ==> x[i] == y[i];
  }

  lemma AllDropped(s: State, provider: string)
    requires EffectsOk(s) && forall a :: a in s.pending ==> s.pending[a].provider != provider
    ensures DropProvider(s, provider) == s
  {
    hide DropProvider, AnswerAll;
    DropsEffectsOf(s, provider);
    assert EffectsOf(s, provider) == {};
    var x := AnswerAll(s.effects, {});
    assert forall i :: 0 <= i < |x| ==> x[i] == s.effects[i];
    NothingPaired(s, provider);
  }

  lemma NothingPaired(s: State, provider: string)
    requires Paired(s.pending, s.byTab) && forall a :: a in s.pending ==> s.pending[a].provider != provider
    ensures DropProvider(s, provider).pending == s.pending && DropProvider(s, provider).byTab == s.byTab
  {
    hide AnswerAll;
  }
}
