/** The approval store on values: what each operation does to the records and the action index. */
module Approvals {
  import opened Actions
  import opened ControlEvents
  import opened JsMap

  const ACTIVE_LIMIT: nat := 256
  const TERMINAL_LIMIT: nat := 1000

  /** How long an approval may stay undecided, in milliseconds. */
  const APPROVAL_TTL: int := 5 * 60 * 1000

  /** Everything an approval is bound to. */
  datatype Identity = Identity(actionId: string, ownerEpoch: nat, taskId: string, actorId: string,
                               subjectId: Option<string>, leaseId: string, leaseRevision: nat, resource: Target,
                               capability: Capability, effect: Effect, executable: Executable)

  /** A payload digest, one nothing has, or no digest at all; digests of different identities differ. */
  datatype Digest = Of(identity: Identity) | Unknown(text: string) | Malformed(text: string)

  datatype Status = Pending | Approved | Denied | Consumed | Expired | Revoked

  datatype Approval = Approval(id: string, status: Status, identity: Identity, digest: Digest, expires: int,
                               resolvedBy: Option<string>, resolvedAt: int, consumedAt: int)

  datatype Error =
    | ApprovalMissing | ApprovalExpired | ApprovalDenied | DigestMismatch | IdentityMismatch
    | ActionConflict | IdCollision | CapacityExceeded

  datatype Result = Ok(approval: Approval) | Err(error: Error)

  predicate WellFormed(x: Identity) {
    && x.actionId != "" && x.taskId != "" && x.actorId != "" && x.leaseId != "" && x.resource.id != ""
    && (x.subjectId.Some? ==> x.subjectId.value != "")
  }

  predicate Active(a: Approval) {
    a.status.Pending? || a.status.Approved?
  }

  /** The records by id in insertion order, and the id each action's approval has. */
  datatype Store = Store(approvals: JsMap<string, Approval>, byAction: map<string, string>)

  // ---- Records by position ----

  function Position(m: JsMap<string, Approval>, id: string): (r: Option<nat>)
    ensures r.Some? ==> r.value < |m| && m[r.value].0 == id
    ensures r.None? ==> forall i :: 0 <= i < |m| ==> m[i].0 != id
  {
    if m == [] then None
    else if m[0].0 == id then Some(0)
    else match Position(m[1..], id)
         case None => None
         case Some(i) => Some(i + 1)
  }

  function WithStatus(m: JsMap<string, Approval>, i: nat, a: Approval): JsMap<string, Approval>
    requires i < |m|
  {
    m[i := (m[i].0, a)]
  }

  function CountTerminal(m: JsMap<string, Approval>): (n: nat)
    ensures n <= |m|
  {
    if m == [] then 0 else CountTerminal(m[1..]) + (if Active(m[0].1) then 0 else 1)
  }

  function CountActive(m: JsMap<string, Approval>): nat {
    |m| - CountTerminal(m)
  }

  // ---- Pruning ----

  /** Without the first `n` terminal records. */
  function DropOldest(m: JsMap<string, Approval>, n: nat): JsMap<string, Approval> {
    if n == 0 || m == [] then m
    else if Active(m[0].1) then [m[0]] + DropOldest(m[1..], n)
    else DropOldest(m[1..], n - 1)
  }

  /** The records so dropped. */
  function Dropped(m: JsMap<string, Approval>, n: nat): seq<Approval> {
    if n == 0 || m == [] then []
    else if Active(m[0].1) then Dropped(m[1..], n)
    else [m[0].1] + Dropped(m[1..], n - 1)
  }

  function Unindex(byAction: map<string, string>, a: Approval): map<string, string> {
    if a.identity.actionId in byAction && byAction[a.identity.actionId] == a.id
    then byAction - {a.identity.actionId} else byAction
  }

  function UnindexAll(byAction: map<string, string>, dropped: seq<Approval>): map<string, string> {
    if dropped == [] then byAction else UnindexAll(Unindex(byAction, dropped[0]), dropped[1..])
  }

  function Pruned(s: Store): Store {
    var n := CountTerminal(s.approvals);
    if n <= TERMINAL_LIMIT then s
    else Store(DropOldest(s.approvals, n - TERMINAL_LIMIT),
               UnindexAll(s.byAction, Dropped(s.approvals, n - TERMINAL_LIMIT)))
  }

  // ---- Operations ----

  predicate Lapsed(a: Approval, now: int) {
    Active(a) && a.expires <= now
  }

  function Ended(a: Approval, cond: bool, status: Status): Approval {
    if cond then a.(status := status) else a
  }

  /** Every record after `expireAt`, in place. */
  function ExpiredRecords(m: JsMap<string, Approval>, now: int): (r: JsMap<string, Approval>)
    ensures |r| == |m|
    ensures forall i :: 0 <= i < |m| ==> r[i] == (m[i].0, Ended(m[i].1, Lapsed(m[i].1, now), Expired))
  {
    if m == [] then []
    else ExpiredRecords(m[..|m| - 1], now)
         + [(m[|m| - 1].0, Ended(m[|m| - 1].1, Lapsed(m[|m| - 1].1, now), Expired))]
  }

  function ExpireAt(s: Store, now: int): Store {
    Pruned(s.(approvals := ExpiredRecords(s.approvals, now)))
  }

  /** Which live approvals a revocation is for. */
  datatype Scope = ForLease(leaseId: string) | ForIds(ids: set<string>) | ForAll

  predicate InScope(scope: Scope, a: Approval) {
    match scope
    case ForLease(leaseId) => a.identity.leaseId == leaseId
    case ForIds(ids) => a.id in ids && a.id != ""
    case ForAll => true
  }

  function RevokedRecords(m: JsMap<string, Approval>, scope: Scope): (r: JsMap<string, Approval>)
    ensures |r| == |m|
    ensures forall i :: 0 <= i < |m| ==>
              r[i] == (m[i].0, Ended(m[i].1, Active(m[i].1) && InScope(scope, m[i].1), Revoked))
  {
    if m == [] then []
    else RevokedRecords(m[..|m| - 1], scope)
         + [(m[|m| - 1].0, Ended(m[|m| - 1].1, Active(m[|m| - 1].1) && InScope(scope, m[|m| - 1].1), Revoked))]
  }

  function RevokeWhere(s: Store, scope: Scope, now: int): Store {
    if scope.ForIds? && scope.ids - {""} == {} then s
    else
      var s1 := ExpireAt(s, now);
      Pruned(s1.(approvals := RevokedRecords(s1.approvals, scope)))
  }

  function Fresh(id: string, identity: Identity, now: int): Approval {
    Approval(id, Pending, identity, Of(identity), now + APPROVAL_TTL, None, 0, 0)
  }

  /** `id` is what the generator would hand out. */
  function RequestAt(s: Store, identity: Identity, id: string, now: int): (Store, Result) {
    if !WellFormed(identity) then (s, Err(IdentityMismatch))
    else if identity.actionId in s.byAction then
      match Position(s.approvals, s.byAction[identity.actionId])
      case Some(i) =>
        if s.approvals[i].1.digest == Of(identity) then (s, Ok(s.approvals[i].1)) else (s, Err(ActionConflict))
      case None => (s, Err(ActionConflict))
    else if CountActive(s.approvals) >= ACTIVE_LIMIT then (s, Err(CapacityExceeded))
    else if id == "" || Position(s.approvals, id).Some? then (s, Err(IdCollision))
    else
      var a := Fresh(id, identity, now);
      (Store(s.approvals + [(id, a)], s.byAction[identity.actionId := id]), Ok(a))
  }

  /** The record if it is neither missing nor expired; finding it lapsed expires it. */
  function RequireCurrent(s: Store, id: string, now: int): (Store, Result) {
    match Position(s.approvals, id)
    case None => (s, Err(ApprovalMissing))
    case Some(i) =>
      var a := s.approvals[i].1;
      if Lapsed(a, now) then
        (Pruned(s.(approvals := WithStatus(s.approvals, i, a.(status := Expired)))), Err(ApprovalExpired))
      else if a.status.Expired? then (s, Err(ApprovalExpired))
      else (s, Ok(a))
  }

  /** Replace a record that is in place. */
  function Replace(s: Store, a: Approval): Store {
    match Position(s.approvals, a.id)
    case None => s
    case Some(i) => Pruned(s.(approvals := WithStatus(s.approvals, i, a)))
  }

  predicate Blank(actor: string) {
    forall i :: 0 <= i < |actor| ==> actor[i] in " \t\n\r"
  }

  function Resolve(s: Store, id: string, actor: string, digest: Digest, approve: bool, now: int): (Store, Result) {
    if Blank(actor) then (s, Err(IdentityMismatch))
    else
      var (s1, r) := RequireCurrent(s, id, now);
      if r.Err? then (s1, r)
      else
        var a := r.approval;
        if a.digest != digest then (s1, Err(DigestMismatch))
        else if Of(a.identity) != a.digest then (s1, Err(IdentityMismatch))
        else if !a.status.Pending? then (s1, Err(ApprovalDenied))
        else
          var b := a.(status := if approve then Approved else Denied, resolvedBy := Some(actor), resolvedAt := now);
          (Replace(s1, b), Ok(b))
  }

  /** Everything but the action and the effect, which only the digest covers. */
  predicate AssertionMatches(a: Approval, x: Identity) {
    var y := a.identity;
    && y.ownerEpoch == x.ownerEpoch && y.taskId == x.taskId && y.actorId == x.actorId && y.subjectId == x.subjectId
    && y.leaseId == x.leaseId && y.leaseRevision == x.leaseRevision && y.capability == x.capability
    && y.executable == x.executable && y.resource == x.resource
  }

  function Consume(s: Store, id: string, x: Identity, digest: Digest, now: int): (Store, Result) {
    if id == "" || !WellFormed(x) then (s, Err(IdentityMismatch))
    else if digest.Malformed? then (s, Err(DigestMismatch))
    else
      var (s1, r) := RequireCurrent(s, id, now);
      if r.Err? then (s1, r)
      else
        var a := r.approval;
        if Of(a.identity) != a.digest || !AssertionMatches(a, x) then (s1, Err(IdentityMismatch))
        else if Of(x) != digest || Of(x) != a.digest then (s1, Err(DigestMismatch))
        else if !a.status.Approved? then (s1, Err(ApprovalDenied))
        else
          var b := a.(status := Consumed, consumedAt := now);
          (Replace(s1, b), Ok(b))
  }

  // ---- What every operation keeps ----

  predicate RecordsOk(m: JsMap<string, Approval>) {
    && (forall i, j :: 0 <= i < j < |m| ==> m[i].0 != m[j].0)
    && (forall i, j :: 0 <= i < j < |m| ==> m[i].1.identity.actionId != m[j].1.identity.actionId)
    && (forall i :: 0 <= i < |m| ==> m[i].1.id == m[i].0 && m[i].1.digest == Of(m[i].1.identity))
  }

  /** The action index is the exact inverse of the records. */
  predicate IndexOk(m: JsMap<string, Approval>, byAction: map<string, string>) {
    && (forall i :: 0 <= i < |m| ==>
          m[i].1.identity.actionId in byAction && byAction[m[i].1.identity.actionId] == m[i].0)
    && (forall a :: a in byAction ==>
          exists i :: 0 <= i < |m| && m[i].0 == byAction[a] && m[i].1.identity.actionId == a)
  }

  predicate Valid(s: Store) {
    && RecordsOk(s.approvals) && IndexOk(s.approvals, s.byAction)
    && CountActive(s.approvals) <= ACTIVE_LIMIT && CountTerminal(s.approvals) <= TERMINAL_LIMIT
  }

  // ---- Pruning keeps what it must ----

  lemma RecordsTail(m: JsMap<string, Approval>)
    requires RecordsOk(m) && m != []
    ensures RecordsOk(m[1..])
    ensures forall i :: 0 <= i < |m[1..]| ==>
              m[1..][i].0 != m[0].0 && m[1..][i].1.identity.actionId != m[0].1.identity.actionId
  {
    forall i | 0 <= i < |m[1..]| ensures m[1..][i] == m[i + 1] {}
  }

  /** Pruning drops exactly `n` records, all terminal, and keeps the others in order. */
  lemma {:induction false} DropCounts(m: JsMap<string, Approval>, n: nat)
    requires n <= CountTerminal(m)
    ensures CountTerminal(DropOldest(m, n)) == CountTerminal(m) - n
    ensures |DropOldest(m, n)| == |m| - n
  {
    if n == 0 || m == [] {
    } else if Active(m[0].1) {
      DropCounts(m[1..], n);
      assert DropOldest(m, n)[1..] == DropOldest(m[1..], n);
    } else {
      DropCounts(m[1..], n - 1);
    }
  }

  lemma {:induction false} DropMembers(m: JsMap<string, Approval>, n: nat, x: (string, Approval))
    ensures x in DropOldest(m, n) ==> x in m
    ensures x in m && Active(x.1) ==> x in DropOldest(m, n)
    ensures x in m ==> x in DropOldest(m, n) || x.1 in Dropped(m, n)
  {
    if n == 0 || m == [] {
    } else {
      assert x in m <==> x == m[0] || x in m[1..];
      if Active(m[0].1) {
        DropMembers(m[1..], n, x);
      } else {
        DropMembers(m[1..], n - 1, x);
      }
    }
  }

  lemma {:induction false} DroppedMembers(m: JsMap<string, Approval>, n: nat, d: Approval)
    requires d in Dropped(m, n)
    ensures !Active(d) && exists i :: 0 <= i < |m| && m[i].1 == d
  {
    if Active(m[0].1) || d != m[0].1 {
      DroppedMembers(m[1..], if Active(m[0].1) then n else n - 1, d);
      var i :| 0 <= i < |m[1..]| && m[1..][i].1 == d;
      assert m[i + 1].1 == d;
    }
  }

  /** No kept record shares its id or action with a dropped one. */
  lemma {:induction false} KeptApart(m: JsMap<string, Approval>, n: nat, x: (string, Approval), d: Approval)
    requires RecordsOk(m) && x in DropOldest(m, n) && d in Dropped(m, n)
    ensures x.0 != d.id && x.1.identity.actionId != d.identity.actionId
  {
    RecordsTail(m);
    var rest := m[1..];
    if Active(m[0].1) {
      if x == m[0] && x !in DropOldest(rest, n) {
        DroppedMembers(rest, n, d);
        var i :| 0 <= i < |rest| && rest[i].1 == d;
      } else {
        KeptApart(rest, n, x, d);
      }
    } else if d == m[0].1 && d !in Dropped(rest, n - 1) {
      DropMembers(rest, n - 1, x);
      var i :| 0 <= i < |rest| && rest[i] == x;
    } else {
      KeptApart(rest, n - 1, x, d);
    }
  }

  lemma {:induction false} DropRecords(m: JsMap<string, Approval>, n: nat)
    requires RecordsOk(m)
    ensures RecordsOk(DropOldest(m, n))
  {
    if n == 0 || m == [] {
    } else {
      RecordsTail(m);
      if Active(m[0].1) {
        var kept := DropOldest(m[1..], n);
        DropRecords(m[1..], n);
        forall i | 0 <= i < |kept|
          ensures kept[i].0 != m[0].0 && kept[i].1.identity.actionId != m[0].1.identity.actionId
        {
          DropMembers(m[1..], n, kept[i]);
        }
      } else {
        DropRecords(m[1..], n - 1);
      }
    }
  }

  predicate Names(ds: seq<Approval>, action: string, id: string) {
    exists j :: 0 <= j < |ds| && ds[j].identity.actionId == action && ds[j].id == id
  }

  lemma {:induction false} UnindexAllIs(byAction: map<string, string>, ds: seq<Approval>, action: string)
    ensures action in UnindexAll(byAction, ds) <==> action in byAction && !Names(ds, action, byAction[action])
    ensures action in UnindexAll(byAction, ds) ==> UnindexAll(byAction, ds)[action] == byAction[action]
  {
    if ds != [] {
      UnindexAllIs(Unindex(byAction, ds[0]), ds[1..], action);
      if action in byAction {
        NamesCons(ds, action, byAction[action]);
      }
    }
  }

  lemma NamesCons(ds: seq<Approval>, action: string, id: string)
    requires ds != []
    ensures Names(ds, action, id) <==>
              (ds[0].identity.actionId == action && ds[0].id == id) || Names(ds[1..], action, id)
  {
    if Names(ds[1..], action, id) {
      var j :| 0 <= j < |ds[1..]| && ds[1..][j].identity.actionId == action && ds[1..][j].id == id;
      assert ds[j + 1] == ds[1..][j];
    }
    if Names(ds, action, id) && !(ds[0].identity.actionId == action && ds[0].id == id) {
      var j :| 0 <= j < |ds| && ds[j].identity.actionId == action && ds[j].id == id;
      assert ds[1..][j - 1] == ds[j];
    }
  }

  lemma PruneIndex(m: JsMap<string, Approval>, byAction: map<string, string>, n: nat)
    requires RecordsOk(m) && IndexOk(m, byAction)
    ensures IndexOk(DropOldest(m, n), UnindexAll(byAction, Dropped(m, n)))
  {
    hide DropOldest, Dropped, UnindexAll;
    var kept, ds := DropOldest(m, n), Dropped(m, n);
    var b := UnindexAll(byAction, ds);
    forall i | 0 <= i < |kept| ensures kept[i].1.identity.actionId in b && b[kept[i].1.identity.actionId] == kept[i].0 {
      KeptIndexed(m, byAction, n, kept[i]);
    }
    forall a | a in b ensures exists i :: 0 <= i < |kept| && kept[i].0 == b[a] && kept[i].1.identity.actionId == a {
      UnindexAllIs(byAction, ds, a);
      var i :| 0 <= i < |m| && m[i].0 == byAction[a] && m[i].1.identity.actionId == a;
      DropMembers(m, n, m[i]);
      NamedIfIn(ds, m[i].1);
      var j :| 0 <= j < |kept| && kept[j] == m[i];
    }
  }

  lemma NamedIfIn(ds: seq<Approval>, x: Approval)
    ensures x in ds ==> Names(ds, x.identity.actionId, x.id)
  {
  }

  lemma KeptIndexed(m: JsMap<string, Approval>, byAction: map<string, string>, n: nat, x: (string, Approval))
    requires RecordsOk(m) && IndexOk(m, byAction) && x in DropOldest(m, n)
    ensures var b := UnindexAll(byAction, Dropped(m, n)); x.1.identity.actionId in b && b[x.1.identity.actionId] == x.0
  {
    hide DropOldest, Dropped, UnindexAll;
    DropMembers(m, n, x);
    var i :| 0 <= i < |m| && m[i] == x;
    var a := x.1.identity.actionId;
    UnindexAllIs(byAction, Dropped(m, n), a);
    if Names(Dropped(m, n), a, x.0) {
      var j :| 0 <= j < |Dropped(m, n)| && Dropped(m, n)[j].identity.actionId == a && Dropped(m, n)[j].id == x.0;
      KeptApart(m, n, x, Dropped(m, n)[j]);
    }
  }

  predicate Nearly(s: Store) {
    RecordsOk(s.approvals) && IndexOk(s.approvals, s.byAction) && CountActive(s.approvals) <= ACTIVE_LIMIT
  }

  lemma PrunedValid(s: Store)
    requires Nearly(s)
    ensures Valid(Pruned(s))
  {
    hide RecordsOk, IndexOk, DropOldest, Dropped, UnindexAll, CountTerminal;
    var n := CountTerminal(s.approvals);
    if n > TERMINAL_LIMIT {
      DropCounts(s.approvals, n - TERMINAL_LIMIT);
      DropRecords(s.approvals, n - TERMINAL_LIMIT);
      PruneIndex(s.approvals, s.byAction, n - TERMINAL_LIMIT);
    }
  }

  // ---- Status changes in place ----

  /** Records only changed in status and its bookkeeping, and no ended one came back. */
  predicate Progressed(m: JsMap<string, Approval>, m': JsMap<string, Approval>) {
    |m'| == |m| && forall i :: 0 <= i < |m| ==> m'[i].0 == m[i].0 && Successor(m[i].1, m'[i].1)
  }

  /** What may happen to one record: nothing once it is terminal. */
  predicate Successor(a: Approval, b: Approval) {
    && b.id == a.id && b.identity == a.identity && b.digest == a.digest && b.expires == a.expires
    && (a.status == b.status ==> a == b)
    && (!Active(a) ==> a == b)
    && (b.status.Pending? ==> a.status.Pending?)
    && (b.status.Consumed? && !a.status.Consumed? ==> a.status.Approved?)
  }

  lemma {:induction false} ProgressCounts(m: JsMap<string, Approval>, m': JsMap<string, Approval>)
    requires Progressed(m, m')
    ensures CountActive(m') <= CountActive(m)
  {
    if m != [] {
      assert m[0].0 == m'[0].0;
      forall i | 0 <= i < |m| - 1 ensures m[1..][i] == m[i + 1] && m'[1..][i] == m'[i + 1] {}
      ProgressCounts(m[1..], m'[1..]);
    }
  }

  lemma ProgressNearly(s: Store, m': JsMap<string, Approval>)
    requires Nearly(s) && Progressed(s.approvals, m')
    ensures Nearly(s.(approvals := m'))
  {
    hide CountActive;
    ProgressCounts(s.approvals, m');
    var m := s.approvals;
    forall a | a in s.byAction
      ensures exists i :: 0 <= i < |m'| && m'[i].0 == s.byAction[a] && m'[i].1.identity.actionId == a
    {
      var i :| 0 <= i < |m| && m[i].0 == s.byAction[a] && m[i].1.identity.actionId == a;
      assert m'[i].0 == m[i].0;
    }
  }

  lemma ExpireValid(s: Store, now: int)
    requires Valid(s)
    ensures Valid(ExpireAt(s, now))
  {
    hide CountTerminal, Pruned;
    ProgressNearly(s, ExpiredRecords(s.approvals, now));
    PrunedValid(s.(approvals := ExpiredRecords(s.approvals, now)));
  }

  lemma RevokeValid(s: Store, scope: Scope, now: int)
    requires Valid(s)
    ensures Valid(RevokeWhere(s, scope, now))
  {
    hide CountTerminal, Pruned, ExpireAt;
    ExpireValid(s, now);
    var s1 := ExpireAt(s, now);
    ProgressNearly(s1, RevokedRecords(s1.approvals, scope));
    PrunedValid(s1.(approvals := RevokedRecords(s1.approvals, scope)));
  }

  lemma {:induction false} CountAppend(m: JsMap<string, Approval>, x: (string, Approval))
    ensures CountTerminal(m + [x]) == CountTerminal(m) + (if Active(x.1) then 0 else 1)
  {
    if m != [] {
      assert (m + [x])[1..] == m[1..] + [x];
      CountAppend(m[1..], x);
    }
  }

  lemma RequestValid(s: Store, identity: Identity, id: string, now: int)
    requires Valid(s)
    ensures Valid(RequestAt(s, identity, id, now).0)
  {
    hide CountTerminal, RecordsOk, IndexOk;
    var (s', r) := RequestAt(s, identity, id, now);
    if s' != s {
      CountAppend(s.approvals, (id, Fresh(id, identity, now)));
      ActionUnused(s, identity.actionId);
      AddedRecord(s, Fresh(id, identity, now));
    }
  }

  lemma ActionUnused(s: Store, action: string)
    requires IndexOk(s.approvals, s.byAction) && action !in s.byAction
    ensures forall i :: 0 <= i < |s.approvals| ==> s.approvals[i].1.identity.actionId != action
  {
  }

  lemma AddedRecord(s: Store, a: Approval)
    requires RecordsOk(s.approvals) && IndexOk(s.approvals, s.byAction)
    requires forall i :: 0 <= i < |s.approvals| ==>
               s.approvals[i].0 != a.id && s.approvals[i].1.identity.actionId != a.identity.actionId
    requires a.digest == Of(a.identity)
    ensures RecordsOk(s.approvals + [(a.id, a)])
    ensures IndexOk(s.approvals + [(a.id, a)], s.byAction[a.identity.actionId := a.id])
  {
    AddedIndex(s, a);
    hide IndexOk;
    var m, m' := s.approvals, s.approvals + [(a.id, a)];
    assert forall i :: 0 <= i < |m| ==> m'[i] == m[i];
  }

  lemma AddedIndex(s: Store, a: Approval)
    requires IndexOk(s.approvals, s.byAction)
    requires forall i :: 0 <= i < |s.approvals| ==> s.approvals[i].1.identity.actionId != a.identity.actionId
    ensures IndexOk(s.approvals + [(a.id, a)], s.byAction[a.identity.actionId := a.id])
  {
    var m' := s.approvals + [(a.id, a)];
    var b' := s.byAction[a.identity.actionId := a.id];
    forall x | x in b' ensures exists i :: 0 <= i < |m'| && m'[i].0 == b'[x] && m'[i].1.identity.actionId == x {
      if x == a.identity.actionId {
        assert m'[|s.approvals|].0 == b'[x];
      } else {
        var i :| 0 <= i < |s.approvals| && s.approvals[i].0 == s.byAction[x] && s.approvals[i].1.identity.actionId == x;
        assert m'[i] == s.approvals[i];
      }
    }
  }

  lemma ReplaceValid(s: Store, a: Approval)
    requires Valid(s)
    requires match Position(s.approvals, a.id)
             case None => true
             case Some(i) => Successor(s.approvals[i].1, a)
    ensures Valid(Replace(s, a))
  {
    hide CountTerminal, Pruned;
    match Position(s.approvals, a.id)
    case None =>
    case Some(i) =>
      ProgressNearly(s, WithStatus(s.approvals, i, a));
      PrunedValid(s.(approvals := WithStatus(s.approvals, i, a)));
  }

  /** The record of an id, if there is one. */
  function Lookup(s: Store, id: string): Option<Approval> {
    match Position(s.approvals, id)
    case None => None
    case Some(i) => Some(s.approvals[i].1)
  }

  lemma RequireFacts(s: Store, id: string, now: int)
    requires Valid(s)
    ensures var (s1, r) := RequireCurrent(s, id, now);
            && Valid(s1)
            && (r.Ok? ==> s1 == s && Lookup(s, id) == Some(r.approval) && r.approval.id == id
                          && r.approval.digest == Of(r.approval.identity) && !Lapsed(r.approval, now))
  {
    hide CountTerminal, Pruned;
    match Position(s.approvals, id)
    case None =>
    case Some(i) =>
      if Lapsed(s.approvals[i].1, now) { ReplaceValid(s, s.approvals[i].1.(status := Expired)); }
  }

  lemma ResolveValid(s: Store, id: string, actor: string, digest: Digest, approve: bool, now: int)
    requires Valid(s)
    ensures Valid(Resolve(s, id, actor, digest, approve, now).0)
  {
    hide Valid, RequireCurrent, Replace;
    RequireFacts(s, id, now);
    var (s1, r) := RequireCurrent(s, id, now);
    if r.Ok? && r.approval.status.Pending? {
      ReplaceValid(s, r.approval.(status := if approve then Approved else Denied,
                                  resolvedBy := Some(actor), resolvedAt := now));
    }
  }

  lemma ConsumeValid(s: Store, id: string, x: Identity, digest: Digest, now: int)
    requires Valid(s)
    ensures Valid(Consume(s, id, x, digest, now).0)
  {
    hide Valid, RequireCurrent, Replace;
    RequireFacts(s, id, now);
    var (s1, r) := RequireCurrent(s, id, now);
    if r.Ok? && r.approval.status.Approved? {
      ReplaceValid(s, r.approval.(status := Consumed, consumedAt := now));
    }
  }

  /**
   * An approval is consumed only while approved and unexpired, by an assertion
   * of the very identity it was requested for and that identity's digest.
   */
  lemma ConsumeOnlyApproved(s: Store, id: string, x: Identity, digest: Digest, now: int)
    requires Valid(s)
    ensures var r := Consume(s, id, x, digest, now).1;
            r.Ok? <==>
              && id != "" && WellFormed(x)
              && Lookup(s, id).Some? && var a := Lookup(s, id).value;
                 a.status.Approved? && now < a.expires && a.identity == x && digest == Of(x)
    ensures var r := Consume(s, id, x, digest, now).1;
            r.Ok? ==> r.approval == Lookup(s, id).value.(status := Consumed, consumedAt := now)
  {
    hide Valid, Replace;
    RequireFacts(s, id, now);
  }

  // ---- Runs ----

  datatype Op =
    | RequestOp(identity: Identity, id: string, now: int, expireFirst: bool)
    | ResolveOp(id: string, actor: string, digest: Digest, approve: bool, now: int)
    | ConsumeOp(id: string, identity: Identity, digest: Digest, now: int)
    | ExpireOp(now: int)
    | RevokeOp(scope: Scope, now: int)

  function Step(s: Store, op: Op): (Store, Option<Result>) {
    match op
    case RequestOp(x, id, now, first) =>
      var (s', r) := RequestAt(if first then ExpireAt(s, now) else s, x, id, now);
      (s', Some(r))
    case ResolveOp(id, actor, digest, approve, now) =>
      var (s', r) := Resolve(s, id, actor, digest, approve, now);
      (s', Some(r))
    case ConsumeOp(id, x, digest, now) =>
      var (s', r) := Consume(s, id, x, digest, now);
      (s', Some(r))
    case ExpireOp(now) => (ExpireAt(s, now), None)
    case RevokeOp(scope, now) => (RevokeWhere(s, scope, now), None)
  }

  function Run(ops: seq<Op>): Store {
    if ops == [] then Store([], map[]) else Step(Run(ops[..|ops| - 1]), ops[|ops| - 1]).0
  }

  lemma StepValid(s: Store, op: Op)
    requires Valid(s)
    ensures Valid(Step(s, op).0)
  {
    hide Valid, ExpireAt, RequestAt, Resolve, Consume, RevokeWhere;
    match op
    case RequestOp(x, id, now, first) =>
      ExpireValid(s, now);
      RequestValid(if first then ExpireAt(s, now) else s, x, id, now);
    case ResolveOp(id, actor, digest, approve, now) => ResolveValid(s, id, actor, digest, approve, now);
    case ConsumeOp(id, x, digest, now) => ConsumeValid(s, id, x, digest, now);
    case ExpireOp(now) => ExpireValid(s, now);
    case RevokeOp(scope, now) => RevokeValid(s, scope, now);
  }

  /**
   * After any calls: the action index is the exact inverse of the records, at
   * most 256 are active and at most 1000 terminal.
   */
  lemma {:induction false} RunValid(ops: seq<Op>)
    ensures Valid(Run(ops))
  {
    if ops != [] {
      hide Valid, Step;
      RunValid(ops[..|ops| - 1]);
      StepValid(Run(ops[..|ops| - 1]), ops[|ops| - 1]);
    }
  }

  // ---- One record over a run ----

  lemma LookupMember(s: Store, id: string)
    ensures Lookup(s, id).Some? ==> (id, Lookup(s, id).value) in s.approvals
    ensures Lookup(s, id).None? ==> forall i :: 0 <= i < |s.approvals| ==> s.approvals[i].0 != id
  {
  }

  lemma MemberLookup(s: Store, x: (string, Approval))
    requires RecordsOk(s.approvals) && x in s.approvals
    ensures Lookup(s, x.0) == Some(x.1)
  {
    var i :| 0 <= i < |s.approvals| && s.approvals[i] == x;
  }

  /** Pruning forgets a terminal record or leaves it be; it never touches an active one. */
  lemma LookupPruned(s: Store, id: string)
    requires RecordsOk(s.approvals)
    ensures Lookup(Pruned(s), id) == Lookup(s, id) || (Lookup(Pruned(s), id).None? && !Active(Lookup(s, id).value))
  {
    hide RecordsOk, DropOldest, Dropped, CountTerminal, Lookup;
    var n := CountTerminal(s.approvals);
    if n > TERMINAL_LIMIT {
      var p := Pruned(s);
      DropRecords(s.approvals, n - TERMINAL_LIMIT);
      LookupMember(p, id);
      LookupMember(s, id);
      if Lookup(p, id).Some? {
        DropMembers(s.approvals, n - TERMINAL_LIMIT, (id, Lookup(p, id).value));
        MemberLookup(s, (id, Lookup(p, id).value));
      } else if Lookup(s, id).Some? {
        DropMembers(s.approvals, n - TERMINAL_LIMIT, (id, Lookup(s, id).value));
        if Active(Lookup(s, id).value) {
          MemberLookup(p, (id, Lookup(s, id).value));
        }
      }
    }
  }

  lemma LookupProgressed(s: Store, m': JsMap<string, Approval>, id: string)
    requires RecordsOk(s.approvals) && Progressed(s.approvals, m')
    ensures RecordsOk(m')
    ensures Lookup(s, id).None? ==> Lookup(s.(approvals := m'), id).None?
    ensures Lookup(s, id).Some? ==> Lookup(s.(approvals := m'), id).Some?
                                    && Successor(Lookup(s, id).value, Lookup(s.(approvals := m'), id).value)
  {
    match Position(s.approvals, id)
    case None =>
    case Some(i) => assert m'[i].0 == id;
  }

  /** A record only ended, by expiry or revocation, possibly to be forgotten. */
  predicate EndedOnly(a: Option<Approval>, b: Option<Approval>) {
    match b
    case None => true
    case Some(y) =>
      && a.Some?
      && (a.value == y
          || (Active(a.value) && (y == a.value.(status := Expired) || y == a.value.(status := Revoked))))
  }

  predicate EndedAt(a: Approval, b: Approval) {
    a == b || (Active(a) && (b == a.(status := Expired) || b == a.(status := Revoked)))
  }

  lemma EndRecord(s: Store, m': JsMap<string, Approval>, id: string)
    requires RecordsOk(s.approvals) && |m'| == |s.approvals|
    requires forall i :: 0 <= i < |m'| ==> m'[i].0 == s.approvals[i].0 && EndedAt(s.approvals[i].1, m'[i].1)
    ensures EndedOnly(Lookup(s, id), Lookup(Pruned(s.(approvals := m')), id))
  {
    hide Pruned, CountTerminal;
    EndedProgress(s, m');
    LookupProgressed(s, m', id);
    LookupPruned(s.(approvals := m'), id);
    EndedLookup(s, m', id);
  }

  lemma EndedProgress(s: Store, m': JsMap<string, Approval>)
    requires |m'| == |s.approvals|
    requires forall i :: 0 <= i < |m'| ==> m'[i].0 == s.approvals[i].0 && EndedAt(s.approvals[i].1, m'[i].1)
    ensures Progressed(s.approvals, m')
  {
  }

  lemma EndedLookup(s: Store, m': JsMap<string, Approval>, id: string)
    requires RecordsOk(s.approvals) && |m'| == |s.approvals|
    requires forall i :: 0 <= i < |m'| ==> m'[i].0 == s.approvals[i].0 && EndedAt(s.approvals[i].1, m'[i].1)
    ensures EndedOnly(Lookup(s, id), Lookup(s.(approvals := m'), id))
  {
    match Position(s.approvals, id)
    case None =>
    case Some(i) => assert m'[i].0 == id;
  }

  lemma ExpireRecord(s: Store, now: int, id: string)
    requires Valid(s)
    ensures EndedOnly(Lookup(s, id), Lookup(ExpireAt(s, now), id))
  {
    hide Pruned, CountTerminal, Lookup, EndedOnly, RecordsOk, IndexOk;
    EndRecord(s, ExpiredRecords(s.approvals, now), id);
  }

  lemma RevokeRecord(s: Store, scope: Scope, now: int, id: string)
    requires Valid(s)
    ensures EndedOnly(Lookup(s, id), Lookup(RevokeWhere(s, scope, now), id))
  {
    hide Pruned, CountTerminal, ExpireAt, Lookup, RecordsOk, IndexOk;
    ExpireRecord(s, now, id);
    ExpireValid(s, now);
    var s1 := ExpireAt(s, now);
    EndRecord(s1, RevokedRecords(s1.approvals, scope), id);
  }

  lemma ReplaceRecord(s: Store, a: Approval, id: string)
    requires Valid(s) && Lookup(s, a.id).Some? && Successor(Lookup(s, a.id).value, a)
    ensures id != a.id ==> EndedOnly(Lookup(s, id), Lookup(Replace(s, a), id))
    ensures Lookup(Replace(s, a), a.id) == Some(a) || Lookup(Replace(s, a), a.id).None?
  {
    hide Pruned, CountTerminal, RecordsOk, IndexOk, WithStatus;
    var i := Position(s.approvals, a.id).value;
    PutRecords(s, i, a);
    OthersSame(s, i, a, id);
    OthersSame(s, i, a, a.id);
    LookupPruned(s.(approvals := WithStatus(s.approvals, i, a)), id);
    LookupPruned(s.(approvals := WithStatus(s.approvals, i, a)), a.id);
  }

  lemma PutRecords(s: Store, i: nat, a: Approval)
    requires RecordsOk(s.approvals) && i < |s.approvals| && s.approvals[i].0 == a.id && Successor(s.approvals[i].1, a)
    ensures RecordsOk(WithStatus(s.approvals, i, a))
  {
  }

  lemma OthersSame(s: Store, i: nat, a: Approval, id: string)
    requires RecordsOk(s.approvals) && i < |s.approvals| && s.approvals[i].0 == a.id
    ensures var s' := s.(approvals := WithStatus(s.approvals, i, a));
            Lookup(s', id) == if id == a.id then Some(a) else Lookup(s, id)
  {
    var m' := WithStatus(s.approvals, i, a);
    forall j | 0 <= j < |m'| ensures m'[j].0 == s.approvals[j].0 {}
  }

  lemma RequestRecord(s: Store, x: Identity, newId: string, now: int, id: string)
    requires Valid(s)
    ensures var (s', r) := RequestAt(s, x, newId, now);
            || Lookup(s', id) == Lookup(s, id)
            || (id == newId && Lookup(s, id).None? && Lookup(s', id) == Some(Fresh(id, x, now))
                && r == Ok(Fresh(id, x, now)))
  {
    hide CountTerminal;
    var (s', r) := RequestAt(s, x, newId, now);
    if s' != s {
      LookupAppend(s.approvals, s.byAction, s'.byAction, (newId, Fresh(newId, x, now)), id);
    }
  }

  lemma {:induction false} LookupAppend(m: JsMap<string, Approval>, b: map<string, string>, b': map<string, string>,
                                        x: (string, Approval), id: string)
    requires Position(m, x.0).None?
    ensures Lookup(Store(m + [x], b'), id) == if id == x.0 then Some(x.1) else Lookup(Store(m, b), id)
  {
    if m == [] {
      assert m + [x] == [x];
    } else {
      assert (m + [x])[1..] == m[1..] + [x];
      assert m[0].0 != x.0;
      LookupAppend(m[1..], b, b', x, id);
    }
  }

  // ---- Each approval is consumed once ----

  /** What has happened to approval ids: what was requested, which were approved, how often each was consumed. */
  datatype Ledger = Ledger(requested: map<string, Identity>, approved: set<string>, consumed: map<string, nat>)

  predicate Creates(s: Store, op: Op) {
    op.RequestOp? && Step(s, op).1.value.Ok? && Step(s, op).1.value.approval.id == op.id
    && Lookup(Before(s, op), op.id).None?
  }

  /** The store a request meets: expired records are dealt with first, if asked. */
  function Before(s: Store, op: Op): Store {
    if op.RequestOp? && op.expireFirst then ExpireAt(s, op.now) else s
  }

  predicate Approves(s: Store, op: Op) {
    op.ResolveOp? && op.approve && Step(s, op).1.value.Ok?
  }

  predicate Consumes(s: Store, op: Op) {
    op.ConsumeOp? && Step(s, op).1.value.Ok?
  }

  function Times(l: Ledger, id: string): nat {
    if id in l.consumed then l.consumed[id] else 0
  }

  function Noted(l: Ledger, s: Store, op: Op): Ledger {
    if Creates(s, op) then l.(requested := l.requested[op.id := op.identity])
    else if Approves(s, op) then l.(approved := l.approved + {op.id})
    else if Consumes(s, op) then l.(consumed := l.consumed[op.id := Times(l, op.id) + 1])
    else l
  }

  function LedgerOf(ops: seq<Op>): Ledger {
    if ops == [] then Ledger(map[], {}, map[])
    else Noted(LedgerOf(ops[..|ops| - 1]), Run(ops[..|ops| - 1]), ops[|ops| - 1])
  }

  /** The generator never hands out an id it handed out before. */
  predicate FreshIds(ops: seq<Op>) {
    ops == [] ||
    (FreshIds(ops[..|ops| - 1])
     && (ops[|ops| - 1].RequestOp? ==> ops[|ops| - 1].id !in LedgerOf(ops[..|ops| - 1]).requested))
  }

  predicate RecordNoted(l: Ledger, id: string, a: Option<Approval>) {
    && (a.Some? ==>
          && id in l.requested && l.requested[id] == a.value.identity
          && (a.value.status.Approved? ==> id in l.approved)
          && (Times(l, id) > 0 ==> a.value.status.Consumed?))
    && Times(l, id) <= 1
    && (Times(l, id) > 0 ==> id in l.approved && id in l.requested)
  }

  ghost predicate LedgerOk(l: Ledger, s: Store) {
    forall id :: RecordNoted(l, id, Lookup(s, id))
  }

  lemma EndedNoted(l: Ledger, id: string, a: Option<Approval>, b: Option<Approval>)
    requires RecordNoted(l, id, a) && EndedOnly(a, b)
    ensures RecordNoted(l, id, b)
  {
  }

  lemma NotedRequest(l: Ledger, s: Store, op: Op, id: string)
    requires Valid(s) && LedgerOk(l, s) && op.RequestOp? && op.id !in l.requested
    ensures RecordNoted(Noted(l, s, op), id, Lookup(Step(s, op).0, id))
  {
    hide Lookup, ExpireAt, RequestAt, Valid;
    assert RecordNoted(l, id, Lookup(s, id));
    ExpireRecord(s, op.now, id);
    ExpireValid(s, op.now);
    EndedNoted(l, id, Lookup(s, id), Lookup(ExpireAt(s, op.now), id));
    RequestRecord(Before(s, op), op.identity, op.id, op.now, id);
    RequestRecord(Before(s, op), op.identity, op.id, op.now, op.id);
    assert RecordNoted(l, op.id, Lookup(s, op.id));
  }

  lemma ResolveRecord(s: Store, id: string, actor: string, digest: Digest, approve: bool, now: int, j: string)
    requires Valid(s)
    ensures var (s', r) := Resolve(s, id, actor, digest, approve, now);
            || EndedOnly(Lookup(s, j), Lookup(s', j))
            || (j == id && r.Ok? && Lookup(s, id).Some? && Lookup(s, id).value.status.Pending?
                && r.approval.identity == Lookup(s, id).value.identity
                && r.approval.status == (if approve then Approved else Denied)
                && digest == Of(r.approval.identity)
                && Lookup(s', id) == Some(r.approval))
  {
    hide Lookup, Valid, RequireCurrent, Replace;
    RequireFacts(s, id, now);
    RequireRecord(s, id, now, j);
    var (s1, r) := RequireCurrent(s, id, now);
    if r.Ok? {
      var b := r.approval.(status := if approve then Approved else Denied,
                           resolvedBy := Some(actor), resolvedAt := now);
      if r.approval.status.Pending? {
        ReplaceRecord(s, b, j);
        ReplaceRecord(s, b, id);
      }
    }
  }

  lemma RequireRecord(s: Store, id: string, now: int, j: string)
    requires Valid(s)
    ensures EndedOnly(Lookup(s, j), Lookup(RequireCurrent(s, id, now).0, j))
  {
    hide Pruned, CountTerminal, RecordsOk, IndexOk, WithStatus;
    match Position(s.approvals, id)
    case None =>
    case Some(i) =>
      var a := s.approvals[i].1;
      if Lapsed(a, now) {
        RecordId(s, i);
        ReplaceRecord(s, a.(status := Expired), j);
        ReplaceRecord(s, a.(status := Expired), id);
      }
  }

  lemma RecordId(s: Store, i: nat)
    requires RecordsOk(s.approvals) && i < |s.approvals|
    ensures s.approvals[i].1.id == s.approvals[i].0
  {
  }

  lemma ConsumeRecord(s: Store, id: string, x: Identity, digest: Digest, now: int, j: string)
    requires Valid(s)
    ensures var (s', r) := Consume(s, id, x, digest, now);
            || (EndedOnly(Lookup(s, j), Lookup(s', j)) && (j == id ==> r.Err? || Lookup(s', j).None?))
            || (j == id && r.Ok? && Lookup(s', id) == Some(r.approval))
    ensures var (s', r) := Consume(s, id, x, digest, now);
            r.Ok? ==> Lookup(s, id).Some? && Lookup(s, id).value.status.Approved? && r.approval.status.Consumed?
                      && r.approval.identity == Lookup(s, id).value.identity == x
  {
    hide Lookup, Valid, RequireCurrent, Replace, AssertionMatches;
    RequireFacts(s, id, now);
    RequireRecord(s, id, now, j);
    var (s1, r) := RequireCurrent(s, id, now);
    if r.Ok? && r.approval.status.Approved? {
      ReplaceRecord(s, r.approval.(status := Consumed, consumedAt := now), j);
      ReplaceRecord(s, r.approval.(status := Consumed, consumedAt := now), id);
    }
  }

  lemma NotedStep(l: Ledger, s: Store, op: Op, id: string)
    requires Valid(s) && LedgerOk(l, s)
    requires op.RequestOp? ==> op.id !in l.requested
    ensures RecordNoted(Noted(l, s, op), id, Lookup(Step(s, op).0, id))
  {
    hide Lookup, Valid, ExpireAt, RequestAt, Resolve, Consume, RevokeWhere, EndedOnly;
    assert RecordNoted(l, id, Lookup(s, id));
    match op
    case RequestOp(x, newId, now, first) => NotedRequest(l, s, op, id);
    case ResolveOp(j, actor, digest, approve, now) => NotedResolve(l, s, op, id);
    case ConsumeOp(j, x, digest, now) => NotedConsume(l, s, op, id);
    case ExpireOp(now) =>
      ExpireRecord(s, now, id);
      EndedNoted(l, id, Lookup(s, id), Lookup(ExpireAt(s, now), id));
    case RevokeOp(scope, now) =>
      RevokeRecord(s, scope, now, id);
      EndedNoted(l, id, Lookup(s, id), Lookup(RevokeWhere(s, scope, now), id));
  }

  lemma NotedResolve(l: Ledger, s: Store, op: Op, id: string)
    requires Valid(s) && RecordNoted(l, id, Lookup(s, id)) && op.ResolveOp?
    ensures RecordNoted(Noted(l, s, op), id, Lookup(Step(s, op).0, id))
  {
    hide Lookup, Valid, Resolve;
    ResolveRecord(s, op.id, op.actor, op.digest, op.approve, op.now, id);
  }

  lemma NotedConsume(l: Ledger, s: Store, op: Op, id: string)
    requires Valid(s) && RecordNoted(l, id, Lookup(s, id)) && op.ConsumeOp?
    ensures RecordNoted(Noted(l, s, op), id, Lookup(Step(s, op).0, id))
  {
    hide Lookup, Valid, Consume;
    ConsumeRecord(s, op.id, op.identity, op.digest, op.now, id);
  }

  lemma {:induction false} RunLedger(ops: seq<Op>)
    requires FreshIds(ops)
    ensures LedgerOk(LedgerOf(ops), Run(ops)) && Valid(Run(ops))
  {
    hide Valid, Step, Noted, Lookup, RecordNoted;
    RunValid(ops);
    if ops == [] {
      EmptyLedger();
    } else {
      var n := |ops| - 1;
      RunLedger(ops[..n]);
      forall id ensures RecordNoted(LedgerOf(ops), id, Lookup(Run(ops), id)) {
        NotedStep(LedgerOf(ops[..n]), Run(ops[..n]), ops[n], id);
      }
    }
  }

  lemma EmptyLedger()
    ensures LedgerOk(Ledger(map[], {}, map[]), Store([], map[]))
  {
  }

  /**
   * Over all calls, with generated ids never repeated: an approval id is
   * consumed at most once, never before an operator approved it, and only by an
   * assertion of the identity it was requested for.
   */
  lemma ConsumedAtMostOnce(ops: seq<Op>, id: string)
    requires FreshIds(ops)
    ensures var l := LedgerOf(ops);
            Times(l, id) <= 1 && (Times(l, id) == 1 ==> id in l.approved && id in l.requested)
  {
    hide Lookup, Valid, Run, LedgerOf;
    RunLedger(ops);
    assert RecordNoted(LedgerOf(ops), id, Lookup(Run(ops), id));
  }

  lemma ConsumeNeedsApproval(ops: seq<Op>, op: Op)
    requires FreshIds(ops) && Consumes(Run(ops), op)
    ensures var l := LedgerOf(ops);
            && Times(l, op.id) == 0 && op.id in l.approved && op.id in l.requested && l.requested[op.id] == op.identity
            && op.digest == Of(op.identity)
  {
    hide Lookup, Valid, Run, LedgerOf, Consume;
    RunLedger(ops);
    assert RecordNoted(LedgerOf(ops), op.id, Lookup(Run(ops), op.id));
    ConsumeOnlyApproved(Run(ops), op.id, op.identity, op.digest, op.now);
  }

  /** Once terminal a record never changes again; it can only be forgotten. */
  lemma TerminalIsFinal(ops: seq<Op>, op: Op, id: string)
    requires FreshIds(ops + [op])
    requires Lookup(Run(ops), id).Some? && !Active(Lookup(Run(ops), id).value)
    ensures Lookup(Step(Run(ops), op).0, id) == Lookup(Run(ops), id) || Lookup(Step(Run(ops), op).0, id).None?
  {
    hide Lookup, Valid, ExpireAt, RequestAt, Resolve, Consume, RevokeWhere, Run, LedgerOf;
    assert (ops + [op])[..|ops|] == ops;
    RunLedger(ops);
    var s := Run(ops);
    assert RecordNoted(LedgerOf(ops), id, Lookup(s, id));
    match op
    case RequestOp(x, newId, now, first) =>
      ExpireRecord(s, now, id);
      ExpireValid(s, now);
      RequestRecord(Before(s, op), x, newId, now, id);
    case ResolveOp(j, actor, digest, approve, now) => ResolveRecord(s, j, actor, digest, approve, now, id);
    case ConsumeOp(j, x, digest, now) => ConsumeRecord(s, j, x, digest, now, id);
    case ExpireOp(now) => ExpireRecord(s, now, id);
    case RevokeOp(scope, now) => RevokeRecord(s, scope, now, id);
  }
}
