/** Capability leases: what a grant list authorises, renewal, and leases that end for good. */
module CapabilityLeases {
  import opened Actions
  import opened ControlEvents

  /** Bound on a lease's life, in milliseconds. */
  const LEASE_TTL: int := 30 * 60_000

  datatype Grant = Grant(target: Target, capabilities: seq<Capability>)

  datatype Lease = Lease(id: string, requestId: string, revision: nat, ownerEpoch: nat, actorId: string, taskId: string,
                         grantedBy: string, grants: seq<Grant>, created: int, expires: int)

  datatype Entry = Entry(lease: Lease, expired: bool, ended: int)

  datatype Error = LeaseMissing | LeaseExpired | RevisionMismatch | OwnerRestarted | CapabilityDenied

  datatype Outcome = Ok(lease: Lease) | Err(error: Error)

  // ---- What grants authorise ----

  /** A target and a capability, as the key the code builds from them. */
  datatype Authority = Authority(target: Target, capability: Capability)

  ghost predicate Authorises(gs: seq<Grant>, a: Authority) {
    exists i :: 0 <= i < |gs| && gs[i].target == a.target && a.capability in gs[i].capabilities
  }

  /** Does some grant authorise this? As the assertion asks it. */
  predicate Permits(gs: seq<Grant>, target: Target, capability: Capability) {
    exists i :: 0 <= i < |gs| && gs[i].target == target && capability in gs[i].capabilities
  }

  method AuthorityKeys(gs: seq<Grant>) returns (keys: set<Authority>)
    ensures forall a :: a in keys <==> Authorises(gs, a)
  {
    keys := {};
    for i := 0 to |gs|
      invariant forall a :: a in keys <==> Authorises(gs[..i], a)
    {
      var g := gs[i];
      ghost var before := keys;
      for j := 0 to |g.capabilities|
        invariant forall a :: a in keys <==>
                  a in before || (a.target == g.target && a.capability in g.capabilities[..j])
      {
        keys := keys + {Authority(g.target, g.capabilities[j])};
        assert g.capabilities[..j + 1] == g.capabilities[..j] + [g.capabilities[j]];
      }
      assert g.capabilities[..|g.capabilities|] == g.capabilities;
      forall a
        ensures Authorises(gs[..i + 1], a) <==>
                  Authorises(gs[..i], a) || (a.target == g.target && a.capability in g.capabilities)
      {
        AuthorisesSnoc(gs, i, a);
      }
    }
    assert gs[..|gs|] == gs;
  }

  lemma AuthorisesSnoc(gs: seq<Grant>, i: nat, a: Authority)
    requires i < |gs|
    ensures Authorises(gs[..i + 1], a) <==>
              Authorises(gs[..i], a) || (a.target == gs[i].target && a.capability in gs[i].capabilities)
  {
    if Authorises(gs[..i], a) {
      var j :| 0 <= j < i && gs[..i][j].target == a.target && a.capability in gs[..i][j].capabilities;
      assert gs[..i + 1][j] == gs[j];
    }
    if a.target == gs[i].target && a.capability in gs[i].capabilities {
      assert gs[..i + 1][i] == gs[i];
    }
    if Authorises(gs[..i + 1], a) {
      var j :| 0 <= j < i + 1 && gs[..i + 1][j].target == a.target && a.capability in gs[..i + 1][j].capabilities;
      if j < i { assert gs[..i][j] == gs[j]; }
    }
  }

  ghost predicate SameAuthority(l: seq<Grant>, r: seq<Grant>) {
    forall a :: Authorises(l, a) <==> Authorises(r, a)
  }

  /** Comparing sizes and one inclusion decides whether two grant lists authorise the same. */
  method GrantsEqual(l: seq<Grant>, r: seq<Grant>) returns (equal: bool)
    ensures equal <==> SameAuthority(l, r)
  {
    var left := AuthorityKeys(l);
    var right := AuthorityKeys(r);
    KeysDecide(l, r, left, right);
    if |left| != |right| { return false; }
    equal := left <= right;
    if equal { SubsetOfSameSize(left, right); }
  }

  lemma KeysDecide(l: seq<Grant>, r: seq<Grant>, left: set<Authority>, right: set<Authority>)
    requires forall a :: a in left <==> Authorises(l, a)
    requires forall a :: a in right <==> Authorises(r, a)
    ensures SameAuthority(l, r) <==> left == right
  {
    hide Authorises;
    if SameAuthority(l, r) {
      forall a ensures a in left <==> a in right {
        assert a in left <==> Authorises(l, a);
      }
    }
  }

  lemma SubsetOfSameSize<T>(a: set<T>, b: set<T>)
    requires a <= b && |a| == |b|
    ensures a == b
  {
    assert b == a + (b - a);
    assert |b - a| == 0;
  }

  // ---- The store on values ----

  /** The leases by id and the lease of each request. */
  datatype Store = Store(leases: map<string, Lease>, byRequest: map<string, string>)

  /** The two maps are each other's inverse. */
  ghost predicate Valid(s: Store) {
    && (forall id :: id in s.leases ==>
          s.leases[id].id == id && s.leases[id].requestId in s.byRequest && s.byRequest[s.leases[id].requestId] == id)
    && (forall q :: q in s.byRequest ==> s.byRequest[q] in s.leases && s.leases[s.byRequest[q]].requestId == q)
  }

  /** What is asked for in a grant or renewal. */
  datatype Request = Request(requestId: string, actorId: string, taskId: string, grantedBy: string,
                             grants: seq<Grant>, ttl: int)

  function Clamp(ttl: int): int {
    var capped := if ttl < LEASE_TTL then ttl else LEASE_TTL;
    if capped < 0 then 0 else capped
  }

  function Invalidated(s: Store, id: string): Store {
    if id in s.leases then Store(s.leases - {id}, s.byRequest - {s.leases[id].requestId}) else s
  }

  /** The lease a request still has at `now`. */
  function Previous(s: Store, requestId: string, now: int): Option<Lease> {
    if requestId in s.byRequest && s.byRequest[requestId] in s.leases && s.leases[s.byRequest[requestId]].expires > now
    then Some(s.leases[s.byRequest[requestId]]) else None
  }

  /** The store once a lapsed lease of the request is out of the way. */
  function Swept(s: Store, requestId: string, now: int): Store {
    if requestId in s.byRequest && s.byRequest[requestId] in s.leases && s.leases[s.byRequest[requestId]].expires <= now
    then Invalidated(s, s.byRequest[requestId]) else s
  }

  /** Renewal may change neither whose lease it is nor what it authorises. */
  ghost predicate MayRenew(p: Lease, r: Request) {
    p.actorId == r.actorId && p.taskId == r.taskId && p.grantedBy == r.grantedBy && SameAuthority(p.grants, r.grants)
  }

  function Granted(p: Option<Lease>, r: Request, newId: string, epoch: nat, now: int): Lease {
    Lease(if p.Some? then p.value.id else newId, r.requestId, (if p.Some? then p.value.revision else 0) + 1, epoch,
          r.actorId, r.taskId, r.grantedBy, if p.Some? then p.value.grants else r.grants,
          if p.Some? then p.value.created else now, now + Clamp(r.ttl))
  }

  function Filed(s: Store, l: Lease): Store {
    Store(s.leases[l.id := l], s.byRequest[l.requestId := l.id])
  }

  /** One grant or renewal; `newId` is the id a new lease gets. */
  ghost function GrantStep(s: Store, r: Request, newId: string, epoch: nat, now: int): (Store, Outcome) {
    var s1 := Swept(s, r.requestId, now);
    var p := Previous(s, r.requestId, now);
    if p.Some? && p.value.ownerEpoch != epoch then (s1, Err(OwnerRestarted))
    else if p.Some? && !MayRenew(p.value, r) then (s1, Err(CapabilityDenied))
    else (Filed(s1, Granted(p, r, newId, epoch, now)), Ok(Granted(p, r, newId, epoch, now)))
  }

  datatype Assertion = Assertion(leaseId: string, revision: nat, ownerEpoch: nat, actorId: string, taskId: string,
                                 target: Target, capability: Capability)

  function AssertStep(s: Store, a: Assertion, epoch: nat, now: int): (Store, Outcome) {
    if a.leaseId !in s.leases then (s, Err(LeaseMissing))
    else
      var l := s.leases[a.leaseId];
      if l.ownerEpoch != epoch || a.ownerEpoch != epoch then (s, Err(OwnerRestarted))
      else if l.revision != a.revision then (s, Err(RevisionMismatch))
      else if l.expires <= now then (Invalidated(s, l.id), Err(LeaseExpired))
      else if l.actorId == a.actorId && l.taskId == a.taskId && Permits(l.grants, a.target, a.capability)
      then (s, Ok(l))
      else (s, Err(CapabilityDenied))
  }

  lemma InvalidatedValid(s: Store, id: string)
    requires Valid(s)
    ensures Valid(Invalidated(s, id)) && id !in Invalidated(s, id).leases
  {
  }

  lemma GrantValid(s: Store, r: Request, newId: string, epoch: nat, now: int)
    requires Valid(s) && newId !in s.leases
    ensures Valid(GrantStep(s, r, newId, epoch, now).0)
  {
    if r.requestId in s.byRequest { InvalidatedValid(s, s.byRequest[r.requestId]); }
    FiledValid(Swept(s, r.requestId, now), Granted(Previous(s, r.requestId, now), r, newId, epoch, now));
  }

  lemma FiledValid(s: Store, l: Lease)
    requires Valid(s)
    requires l.requestId in s.byRequest <==> l.id in s.leases
    requires l.requestId in s.byRequest ==> s.byRequest[l.requestId] == l.id
    ensures Valid(Filed(s, l))
  {
  }

  /**
   * A renewal succeeds exactly in the same process, for the same subject, by the
   * same operator and for the same authority; then it adds exactly one to the
   * revision and keeps whose lease it is, since when, and everything authorised.
   */
  lemma RenewalKeepsAuthority(s: Store, r: Request, newId: string, epoch: nat, now: int)
    requires Valid(s) && newId !in s.leases
    requires r.requestId in s.byRequest && s.leases[s.byRequest[r.requestId]].expires > now
    ensures var p := s.leases[s.byRequest[r.requestId]];
            var (s', o) := GrantStep(s, r, newId, epoch, now);
            var same := p.actorId == r.actorId && p.taskId == r.taskId && p.grantedBy == r.grantedBy
                        && forall a :: Authorises(p.grants, a) <==> Authorises(r.grants, a);
            && (o.Ok? <==> p.ownerEpoch == epoch && same)
            && (o.Ok? ==> o.lease == p.(revision := p.revision + 1, expires := o.lease.expires)
                          && s'.leases == s.leases[p.id := o.lease] && s'.byRequest == s.byRequest)
            && (o.Err? ==> s' == s && o.error == if p.ownerEpoch != epoch then OwnerRestarted else CapabilityDenied)
  {
  }

  // ---- What a lease lets pass ----

  /** The assertion is about this lease as it stands, in this process. */
  predicate Names(a: Assertion, l: Lease, epoch: nat) {
    l.ownerEpoch == epoch && a.ownerEpoch == epoch && a.revision == l.revision
  }

  /**
   * An assertion passes exactly for a filed lease of this process, at its current
   * revision, before its expiry, by its own actor and task, and for what one of
   * its grants authorises; and each refusal has its own reason, in this order.
   */
  lemma AssertIff(s: Store, a: Assertion, epoch: nat, now: int)
    requires Valid(s)
    ensures var (s', o) := AssertStep(s, a, epoch, now);
            && (o == Err(LeaseMissing) <==> a.leaseId !in s.leases)
            && (a.leaseId in s.leases ==>
                  var l := s.leases[a.leaseId];
                  var own := l.ownerEpoch == epoch && a.ownerEpoch == epoch;
                  var subject := a.actorId == l.actorId && a.taskId == l.taskId;
                  var granted := Authorises(l.grants, Authority(a.target, a.capability));
                  && (o == Err(OwnerRestarted) <==> !own)
                  && (o == Err(RevisionMismatch) <==> own && a.revision != l.revision)
                  && (o == Err(LeaseExpired) <==> Names(a, l, epoch) && l.expires <= now)
                  && (o == Err(CapabilityDenied) <==> Names(a, l, epoch) && now < l.expires && !(subject && granted))
                  && (o.Ok? <==> Names(a, l, epoch) && now < l.expires && subject && granted)
                  && (o.Ok? ==> o.lease == l))
            && (o == Err(LeaseExpired) <==> s' != s)
            && (o == Err(LeaseExpired) ==> s'.leases == s.leases - {a.leaseId})
  {
    if a.leaseId in s.leases {
      PermitsIff(s.leases[a.leaseId].grants, a.target, a.capability);
    }
  }

  lemma PermitsIff(gs: seq<Grant>, target: Target, capability: Capability)
    ensures Permits(gs, target, capability) <==> Authorises(gs, Authority(target, capability))
  {
  }

  /**
   * What a grant hands out works: until it expires, and as long as nothing else
   * happens to it, the lease passes at its own revision for the subject asked
   * for and exactly for what the request's grants authorise; the revision before
   * it does not pass any more.
   */
  lemma GrantedPasses(s: Store, r: Request, newId: string, epoch: nat, now: int, a: Assertion, later: int)
    requires Valid(s) && newId !in s.leases
    requires GrantStep(s, r, newId, epoch, now).1.Ok?
    requires a.leaseId == GrantStep(s, r, newId, epoch, now).1.lease.id
    ensures var (s', o) := GrantStep(s, r, newId, epoch, now);
            var r' := AssertStep(s', a, epoch, later).1;
            && (r'.Ok? <==> a.revision == o.lease.revision && a.ownerEpoch == epoch && later < o.lease.expires
                            && a.actorId == r.actorId && a.taskId == r.taskId
                            && Authorises(r.grants, Authority(a.target, a.capability)))
            && (a.ownerEpoch == epoch && a.revision == o.lease.revision - 1 ==> r' == Err(RevisionMismatch))
  {
    var (s', o) := GrantStep(s, r, newId, epoch, now);
    var p := Previous(s, r.requestId, now);
    GrantValid(s, r, newId, epoch, now);
    assert Authorises(o.lease.grants, Authority(a.target, a.capability)) <==>
           Authorises(r.grants, Authority(a.target, a.capability));
    AssertIff(s', a, epoch, later);
  }

  /** A grant lives as long as was asked for, but not longer than the bound. */
  lemma GrantExpires(s: Store, r: Request, newId: string, epoch: nat, now: int)
    requires GrantStep(s, r, newId, epoch, now).1.Ok?
    ensures var l := GrantStep(s, r, newId, epoch, now).1.lease;
            && now <= l.expires <= now + LEASE_TTL
            && (0 <= r.ttl <= LEASE_TTL ==> l.expires == now + r.ttl)
            && (r.ttl > LEASE_TTL ==> l.expires == now + LEASE_TTL)
  {
  }

  /** Without a lease in force the request gets a new one, at its first revision, and every other lease stays. */
  lemma FirstGrant(s: Store, r: Request, newId: string, epoch: nat, now: int)
    requires Valid(s) && newId !in s.leases
    requires r.requestId in s.byRequest ==> s.leases[s.byRequest[r.requestId]].expires <= now
    ensures var (s', o) := GrantStep(s, r, newId, epoch, now);
            && o.Ok? && o.lease.id == newId && o.lease.revision == 1 && o.lease.created == now
            && o.lease.requestId == r.requestId && o.lease.grantedBy == r.grantedBy
            && newId in s'.leases && s'.leases[newId] == o.lease
            && (forall id :: id in s.leases && (s.leases[id].requestId != r.requestId || s.leases[id].expires > now) ==>
                  id in s'.leases && s'.leases[id] == s.leases[id])
            && (forall id :: id in s'.leases && id != newId ==> id in s.leases && s.leases[id].requestId != r.requestId)
  {
  }

  // ---- Runs ----

  datatype Op =
    | GrantOp(r: Request, newId: string, now: int)
    | AssertOp(a: Assertion, now: int)
    | InvalidateOp(id: string)

  ghost function Step(s: Store, epoch: nat, op: Op): Store {
    match op
    case GrantOp(r, newId, now) => GrantStep(s, r, newId, epoch, now).0
    case AssertOp(a, now) => AssertStep(s, a, epoch, now).0
    case InvalidateOp(id) => Invalidated(s, id)
  }

  ghost function Run(epoch: nat, ops: seq<Op>): Store {
    if ops == [] then Store(map[], map[]) else Step(Run(epoch, ops[..|ops| - 1]), epoch, ops[|ops| - 1])
  }

  /** Generated ids are never handed out twice. */
  predicate FreshIds(ops: seq<Op>) {
    forall i, j :: 0 <= i < j < |ops| && ops[i].GrantOp? && ops[j].GrantOp? ==> ops[i].newId != ops[j].newId
  }

  predicate Offered(ops: seq<Op>, id: string) {
    exists i :: 0 <= i < |ops| && ops[i].GrantOp? && ops[i].newId == id
  }

  lemma StepLeases(s: Store, epoch: nat, op: Op, id: string)
    requires Valid(s)
    ensures id in Step(s, epoch, op).leases ==> id in s.leases || (op.GrantOp? && id == op.newId)
  {
  }

  lemma OfferedSnoc(ops: seq<Op>, id: string)
    requires ops != []
    ensures Offered(ops, id) <==>
              Offered(ops[..|ops| - 1], id) || (ops[|ops| - 1].GrantOp? && ops[|ops| - 1].newId == id)
  {
    if Offered(ops[..|ops| - 1], id) {
      var i :| 0 <= i < |ops| - 1 && ops[..|ops| - 1][i].GrantOp? && ops[..|ops| - 1][i].newId == id;
      assert ops[i].GrantOp?;
    }
    if Offered(ops, id) {
      var i :| 0 <= i < |ops| && ops[i].GrantOp? && ops[i].newId == id;
      if i < |ops| - 1 { assert ops[..|ops| - 1][i] == ops[i]; }
    }
  }

  lemma {:induction false} RunValid(epoch: nat, ops: seq<Op>)
    requires FreshIds(ops)
    ensures Valid(Run(epoch, ops))
    ensures forall id :: id in Run(epoch, ops).leases ==> Offered(ops, id)
  {
    if ops != [] {
      hide Valid, GrantStep, AssertStep, Invalidated;
      var n := |ops| - 1;
      RunValid(epoch, ops[..n]);
      var s := Run(epoch, ops[..n]);
      FreshNow(ops, s);
      StepValid(s, epoch, ops[n]);
      forall id | id in Run(epoch, ops).leases ensures Offered(ops, id) {
        StepLeases(s, epoch, ops[n], id);
        OfferedSnoc(ops, id);
      }
    }
  }

  lemma FreshNow(ops: seq<Op>, s: Store)
    requires FreshIds(ops) && ops != [] && forall id :: id in s.leases ==> Offered(ops[..|ops| - 1], id)
    ensures ops[|ops| - 1].GrantOp? ==> ops[|ops| - 1].newId !in s.leases
  {
  }

  lemma StepValid(s: Store, epoch: nat, op: Op)
    requires Valid(s) && (op.GrantOp? ==> op.newId !in s.leases)
    ensures Valid(Step(s, epoch, op))
  {
    match op
    case GrantOp(r, newId, now) => GrantValid(s, r, newId, epoch, now);
    case AssertOp(a, now) => InvalidatedValid(s, a.leaseId);
    case InvalidateOp(id) => InvalidatedValid(s, id);
  }

  /** A lease id once ended, by revocation or expiry, is never authority again, whatever is granted later. */
  lemma {:induction false} EndedNeverPasses(epoch: nat, ops: seq<Op>, more: seq<Op>, a: Assertion, now: int)
    requires FreshIds(ops + more) && Offered(ops, a.leaseId) && a.leaseId !in Run(epoch, ops).leases
    ensures a.leaseId !in Run(epoch, ops + more).leases
    ensures AssertStep(Run(epoch, ops + more), a, epoch, now).1 == Err(LeaseMissing)
  {
    hide Valid, Step, FreshIds, Offered;
    if more == [] {
      assert ops + more == ops;
    } else {
      var n := |more| - 1;
      assert (ops + more)[..|ops + more| - 1] == ops + more[..n];
      FreshPrefix(ops, more, n);
      EndedNeverPasses(epoch, ops, more[..n], a, now);
      RunValid(epoch, ops + more[..n]);
      OfferedDiffers(ops, more, n, a.leaseId);
      StepLeases(Run(epoch, ops + more[..n]), epoch, more[n], a.leaseId);
    }
  }

  lemma FreshPrefix(ops: seq<Op>, more: seq<Op>, n: nat)
    requires FreshIds(ops + more) && n <= |more|
    ensures FreshIds(ops + more[..n])
  {
    assert forall i :: 0 <= i < |ops + more[..n]| ==> (ops + more[..n])[i] == (ops + more)[i];
  }

  lemma OfferedDiffers(ops: seq<Op>, more: seq<Op>, n: nat, id: string)
    requires FreshIds(ops + more) && Offered(ops, id) && n < |more|
    ensures more[n].GrantOp? ==> more[n].newId != id
  {
    var i :| 0 <= i < |ops| && ops[i].GrantOp? && ops[i].newId == id;
    assert (ops + more)[i] == ops[i] && (ops + more)[|ops| + n] == more[n];
  }

  // ---- The object ----

  /** History without what is too much or too old, oldest first. */
  function PrunedHistory(h: seq<Entry>, limit: nat, cutoff: int): seq<Entry> {
    if h != [] && (|h| > limit || h[0].ended < cutoff) then PrunedHistory(h[1..], limit, cutoff) else h
  }

  /** Pruning drops the oldest entries, no more than it must. */
  lemma {:induction false} PrunedHistoryIs(h: seq<Entry>, limit: nat, cutoff: int) returns (k: nat)
    ensures k <= |h| && PrunedHistory(h, limit, cutoff) == h[k..]
    ensures |h| - k <= limit && (k < |h| ==> h[k].ended >= cutoff)
    ensures forall j :: 0 <= j < k ==> |h| - j > limit || h[j].ended < cutoff
  {
    if h != [] && (|h| > limit || h[0].ended < cutoff) {
      var n := PrunedHistoryIs(h[1..], limit, cutoff);
      k := n + 1;
      forall j | 0 <= j < k ensures |h| - j > limit || h[j].ended < cutoff {
        if j > 0 { assert h[j] == h[1..][j - 1]; }
      }
    } else {
      k := 0;
    }
  }

  predicate Grants(l: Lease, target: Target) {
    exists i :: 0 <= i < |l.grants| && l.grants[i].target == target
  }

  /** A lease that survives the revocation of a target authorises nothing on it. */
  lemma SurvivorsAuthoriseNothing(l: Lease, target: Target)
    ensures Grants(l, target) <==> exists g :: g in l.grants && g.target == target
    ensures !Grants(l, target) ==> forall c :: !Authorises(l.grants, Authority(target, c))
  {
  }

  /** Ending a lease takes away that lease and no other. */
  lemma ExactlyRemoved()
    ensures forall t: Store, id :: Invalidated(t, id).leases == t.leases - {id}
  {
  }

  class CapabilityLeaseStore {
    const ownerEpoch: nat
    const historyLimit: nat
    const historyTtl: int
    var leases: map<string, Lease>
    var leaseIdsByRequest: map<string, string>
    var lifecycleHistory: seq<Entry>

    ghost function State(): Store
      reads this
    {
      Store(leases, leaseIdsByRequest)
    }

    constructor (ownerEpoch: nat, historyLimit: nat, historyTtl: int)
      ensures State() == Store(map[], map[]) && lifecycleHistory == [] && Valid(State())
      ensures this.ownerEpoch == ownerEpoch && this.historyLimit == historyLimit && this.historyTtl == historyTtl
    {
      this.ownerEpoch, this.historyLimit, this.historyTtl := ownerEpoch, historyLimit, historyTtl;
      leases, leaseIdsByRequest, lifecycleHistory := map[], map[], [];
    }

    method PruneHistory(now: int)
      modifies this`lifecycleHistory
      ensures lifecycleHistory == PrunedHistory(old(lifecycleHistory), historyLimit, now - historyTtl)
    {
      var cutoff := now - historyTtl;
      while lifecycleHistory != [] && (|lifecycleHistory| > historyLimit || lifecycleHistory[0].ended < cutoff)
        invariant PrunedHistory(lifecycleHistory, historyLimit, cutoff) ==
                  PrunedHistory(old(lifecycleHistory), historyLimit, cutoff)
        decreases |lifecycleHistory|
      {
        lifecycleHistory := lifecycleHistory[1..];
      }
    }

    /** Ends a lease, if it is there, and remembers it in the history. */
    method Invalidate(leaseId: string, expired: bool, now: int) returns (lease: Option<Lease>)
      requires Valid(State())
      modifies this
      ensures State() == Invalidated(old(State()), leaseId) && Valid(State())
      ensures lease == if leaseId in old(leases) then Some(old(leases)[leaseId]) else None
      ensures lifecycleHistory ==
                if lease.None? then old(lifecycleHistory)
                else PrunedHistory(old(lifecycleHistory) + [Entry(lease.value, expired, now)],
                                   historyLimit, now - historyTtl)
    {
      InvalidatedValid(State(), leaseId);
      if leaseId !in leases { return None; }
      var ended := leases[leaseId];
      leases := leases - {leaseId};
      leaseIdsByRequest := leaseIdsByRequest - {ended.requestId};
      lifecycleHistory := lifecycleHistory + [Entry(ended, expired, now)];
      PruneHistory(now);
      lease := Some(ended);
    }

    method Grant(r: Request, newId: string, now: int) returns (o: Outcome)
      requires Valid(State()) && newId !in leases
      modifies this
      ensures (State(), o) == GrantStep(old(State()), r, newId, ownerEpoch, now) && Valid(State())
    {
      GrantValid(State(), r, newId, ownerEpoch, now);
      var previous: Option<Lease> := None;
      if r.requestId in leaseIdsByRequest {
        var id := leaseIdsByRequest[r.requestId];
        if leases[id].expires <= now {
          var ended := Invalidate(id, true, now);
        } else {
          previous := Some(leases[id]);
        }
      }
      if previous.Some? {
        var p := previous.value;
        if p.ownerEpoch != ownerEpoch { return Err(OwnerRestarted); }
        var same := GrantsEqual(p.grants, r.grants);
        if p.actorId != r.actorId || p.taskId != r.taskId || p.grantedBy != r.grantedBy || !same {
          return Err(CapabilityDenied);
        }
      }
      var lease := Granted(previous, r, newId, ownerEpoch, now);
      leases := leases[lease.id := lease];
      leaseIdsByRequest := leaseIdsByRequest[lease.requestId := lease.id];
      o := Ok(lease);
    }

    method Assert(a: Assertion, now: int) returns (o: Outcome)
      requires Valid(State())
      modifies this
      ensures (State(), o) == AssertStep(old(State()), a, ownerEpoch, now) && Valid(State())
    {
      if a.leaseId !in leases { return Err(LeaseMissing); }
      var lease := leases[a.leaseId];
      if lease.ownerEpoch != ownerEpoch || a.ownerEpoch != ownerEpoch { return Err(OwnerRestarted); }
      if lease.revision != a.revision { return Err(RevisionMismatch); }
      if lease.expires <= now {
        var ended := Invalidate(lease.id, true, now);
        return Err(LeaseExpired);
      }
      if lease.actorId == a.actorId && lease.taskId == a.taskId && Permits(lease.grants, a.target, a.capability) {
        return Ok(lease);
      }
      o := Err(CapabilityDenied);
    }

    /** Ends every lease with a grant on the target, visiting the leases in any order. */
    method RevokeTarget(target: Target, now: int)
      requires Valid(State())
      modifies this
      ensures Valid(State())
      ensures leases == map id | id in old(leases) && !Grants(old(leases)[id], target) :: old(leases)[id]
    {
      hide Valid, Invalidated;
      ExactlyRemoved();
      var ids := leases.Keys;
      while ids != {}
        invariant ids <= leases.Keys && Valid(State())
        invariant forall id :: id in leases <==> id in old(leases) && (id in ids || !Grants(old(leases)[id], target))
        invariant forall id :: id in leases ==> leases[id] == old(leases)[id]
        decreases |ids|
      {
        var id :| id in ids;
        ids := ids - {id};
        if Grants(leases[id], target) {
          var ended := Invalidate(id, false, now);
        }
      }
    }

    /** Ends every lapsed lease. */
    method Expire(now: int)
      requires Valid(State())
      modifies this
      ensures Valid(State())
      ensures leases == map id | id in old(leases) && old(leases)[id].expires > now :: old(leases)[id]
    {
      hide Valid, Invalidated;
      ExactlyRemoved();
      var ids := leases.Keys;
      while ids != {}
        invariant ids <= leases.Keys && Valid(State())
        invariant forall id :: id in leases <==> id in old(leases) && (id in ids || old(leases)[id].expires > now)
        invariant forall id :: id in leases ==> leases[id] == old(leases)[id]
        decreases |ids|
      {
        var id :| id in ids;
        ids := ids - {id};
        if leases[id].expires <= now {
          var ended := Invalidate(id, true, now);
        }
      }
    }
  }
}
