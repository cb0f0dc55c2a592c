/**
 * What the approval store does for its callers, call by call, told by the record
 * an id or an action has.
 */
module ApprovalLaws {
  import opened Actions
  import opened ControlEvents
  import opened JsMap
  import opened Approvals

  lemma {:induction false} PositionAt(m: JsMap<string, Approval>, i: nat)
    requires i < |m| && forall j, k :: 0 <= j < k < |m| ==> m[j].0 != m[k].0
    ensures Position(m, m[i].0) == Some(i)
  {
  }

  // ---- Requests ----

  /** An action that has an approval gets that very one for the same intent, and is refused for any other. */
  lemma RequestReuses(s: Store, x: Identity, id: string, now: int, i: nat)
    requires Valid(s) && WellFormed(x)
    requires i < |s.approvals| && s.approvals[i].1.identity.actionId == x.actionId
    ensures RequestAt(s, x, id, now)
         == (s, if s.approvals[i].1.identity == x then Ok(s.approvals[i].1) else Err(ActionConflict))
  {
    hide CountTerminal;
    PositionAt(s.approvals, i);
  }

  /**
   * Any other action gets a new one, pending and unexpired for its time to live,
   * unless too many are active or the generated id cannot be used.
   */
  lemma RequestAdds(s: Store, x: Identity, id: string, now: int)
    requires Valid(s) && WellFormed(x)
    requires forall i :: 0 <= i < |s.approvals| ==> s.approvals[i].1.identity.actionId != x.actionId
    ensures var (s', r) := RequestAt(s, x, id, now);
            && (r == Err(CapacityExceeded) <==> |ActiveOf(s.approvals)| >= ACTIVE_LIMIT)
            && (r.Ok? <==> |ActiveOf(s.approvals)| < ACTIVE_LIMIT && id != "" && Lookup(s, id).None?)
            && (r.Err? ==> s' == s && r.error in {CapacityExceeded, IdCollision})
            && (r.Ok? ==>
                  var a := r.approval;
                  && a.id == id && a.status.Pending? && a.identity == x && a.digest == Of(x)
                  && a.expires == now + APPROVAL_TTL && a.resolvedBy.None?
                  && s'.approvals == s.approvals + [(id, a)] && s'.byAction == s.byAction[x.actionId := id])
  {
    hide CountTerminal, ActiveOf;
    ActiveOfCounts(s.approvals);
  }

  /** Whatever a request hands out is what was asked for, and filed under its action; nothing malformed passes. */
  lemma RequestServes(s: Store, x: Identity, id: string, now: int)
    requires Valid(s)
    ensures var (s', r) := RequestAt(s, x, id, now);
            && (!WellFormed(x) ==> s' == s && r == Err(IdentityMismatch))
            && (r.Ok? ==> r.approval.identity == x && x.actionId in s'.byAction
                          && Lookup(s', s'.byAction[x.actionId]) == Some(r.approval))
  {
    hide CountTerminal, ActiveOf, WellFormed, RecordsOk;
    if WellFormed(x) {
      if x.actionId in s.byAction {
        var i :| 0 <= i < |s.approvals| && s.approvals[i].0 == s.byAction[x.actionId]
                 && s.approvals[i].1.identity.actionId == x.actionId;
        RequestReuses(s, x, id, now, i);
        RecordAt(s, i);
      } else {
        ActionUnused(s, x.actionId);
        RequestAdds(s, x, id, now);
        if RequestAt(s, x, id, now).1.Ok? {
          LookupAppend(s.approvals, s.byAction, s.byAction[x.actionId := id], (id, Fresh(id, x, now)), id);
        }
      }
    }
  }

  lemma RecordAt(s: Store, i: nat)
    requires RecordsOk(s.approvals) && i < |s.approvals|
    ensures Lookup(s, s.approvals[i].0) == Some(s.approvals[i].1)
  {
    PositionAt(s.approvals, i);
  }

  // ---- Resolving and consuming ----

  predicate Past(a: Approval, now: int) {
    a.status.Expired? || ((a.status.Pending? || a.status.Approved?) && a.expires <= now)
  }

  /** An operator resolves exactly a pending record in its time, by its digest; each refusal has its own reason. */
  lemma ResolveIff(s: Store, id: string, actor: string, digest: Digest, approve: bool, now: int)
    requires Valid(s)
    ensures var (s', r) := Resolve(s, id, actor, digest, approve, now);
            && (r == Err(IdentityMismatch) <==> Blank(actor))
            && (r == Err(ApprovalMissing) <==> !Blank(actor) && Lookup(s, id).None?)
            && (!Blank(actor) && Lookup(s, id).Some? ==>
                  var a := Lookup(s, id).value;
                  && (r == Err(ApprovalExpired) <==> Past(a, now))
                  && (r == Err(DigestMismatch) <==> !Past(a, now) && digest != Of(a.identity))
                  && (r == Err(ApprovalDenied) <==>
                        !Past(a, now) && digest == Of(a.identity) && !a.status.Pending?)
                  && (r.Ok? <==> a.status.Pending? && now < a.expires && digest == Of(a.identity))
                  && (r.Ok? ==>
                        && r.approval == a.(status := if approve then Approved else Denied,
                                            resolvedBy := Some(actor), resolvedAt := now)
                        && (Lookup(s', id) == Some(r.approval) || (!approve && Lookup(s', id).None?))))
  {
    hide Valid, Replace, Blank;
    RequireFacts(s, id, now);
    StoredDigest(s, id);
    var r := Resolve(s, id, actor, digest, approve, now).1;
    if r.Ok? { PutKeeps(s, r.approval); }
  }

  lemma StoredDigest(s: Store, id: string)
    requires Valid(s)
    ensures Lookup(s, id).Some? ==>
              Lookup(s, id).value.id == id && Lookup(s, id).value.digest == Of(Lookup(s, id).value.identity)
  {
  }

  /** A record put in place is there afterwards; only a terminal one may be forgotten at once. */
  lemma PutKeeps(s: Store, a: Approval)
    requires Valid(s) && Lookup(s, a.id).Some? && Successor(Lookup(s, a.id).value, a)
    ensures Lookup(Replace(s, a), a.id) == Some(a) || (!Active(a) && Lookup(Replace(s, a), a.id).None?)
  {
    hide Pruned, CountTerminal, RecordsOk, IndexOk, WithStatus;
    var i := Position(s.approvals, a.id).value;
    PutRecords(s, i, a);
    OthersSame(s, i, a, a.id);
    LookupPruned(s.(approvals := WithStatus(s.approvals, i, a)), a.id);
  }

  /** What a consumption that does not succeed is told. */
  lemma ConsumeRefusals(s: Store, id: string, x: Identity, digest: Digest, now: int)
    requires Valid(s)
    ensures var (s', r) := Consume(s, id, x, digest, now);
            var formed := id != "" && WellFormed(x);
            && (!formed ==> s' == s && r == Err(IdentityMismatch))
            && (formed && digest.Malformed? ==> s' == s && r == Err(DigestMismatch))
            && (formed && !digest.Malformed? ==>
                  match Lookup(s, id)
                  case None => r == Err(ApprovalMissing)
                  case Some(a) =>
                    var same := a.identity == x.(actionId := a.identity.actionId, effect := a.identity.effect);
                    && (r == Err(ApprovalExpired) <==> Past(a, now))
                    && (r == Err(IdentityMismatch) <==> !Past(a, now) && !same)
                    && (r == Err(DigestMismatch) <==> !Past(a, now) && same && (digest != Of(x) || a.identity != x))
                    && (r == Err(ApprovalDenied) <==>
                          !Past(a, now) && digest == Of(x) && a.identity == x && !a.status.Approved?))
            && (r.Ok? ==> Lookup(s', id) == Some(r.approval) || Lookup(s', id).None?)
  {
    hide Valid, Replace, WellFormed;
    RequireFacts(s, id, now);
    StoredDigest(s, id);
    var r := Consume(s, id, x, digest, now).1;
    if r.Ok? { PutKeeps(s, r.approval); }
  }

  // ---- Expiry and revocation ----

  /** Expiry ends exactly the live records whose time is up; what it ended may be forgotten at once. */
  lemma ExpireIff(s: Store, now: int, id: string)
    requires Valid(s) && Lookup(s, id).Some?
    ensures var a, after := Lookup(s, id).value, Lookup(ExpireAt(s, now), id);
            if (a.status.Pending? || a.status.Approved?) && now < a.expires then after == Some(a)
            else if a.status.Pending? || a.status.Approved? then after.None? || after == Some(a.(status := Expired))
            else after.None? || after == Some(a)
  {
    hide Pruned, CountTerminal, IndexOk;
    var m' := ExpiredRecords(s.approvals, now);
    EndedProgress(s, m');
    LookupProgressed(s, m', id);
    LookupPruned(s.(approvals := m'), id);
    var i := Position(s.approvals, id).value;
    PositionAt(m', i);
  }

  /** The live records a revocation is for: those of a lease, those of some ids, or all. */
  predicate IsFor(scope: Scope, id: string, a: Approval) {
    && (scope.ForLease? ==> a.identity.leaseId == scope.leaseId)
    && (scope.ForIds? ==> id in scope.ids && id != "")
  }

  /** Revocation ends exactly those of the records still live, and leaves every other live one as it was. */
  lemma RevokeIff(s: Store, scope: Scope, now: int, id: string)
    requires Valid(s) && Lookup(s, id).Some?
    requires (Lookup(s, id).value.status.Pending? || Lookup(s, id).value.status.Approved?)
             && now < Lookup(s, id).value.expires
    ensures var a, after := Lookup(s, id).value, Lookup(RevokeWhere(s, scope, now), id);
            if IsFor(scope, id, a) then after.None? || after == Some(a.(status := Revoked)) else after == Some(a)
  {
    hide Pruned, CountTerminal, IndexOk, ExpireAt, RecordsOk;
    var a := Lookup(s, id).value;
    StoredDigest(s, id);
    if scope.ForIds? && id in scope.ids && id != "" { assert id in scope.ids - {""}; }
    if !(scope.ForIds? && scope.ids - {""} == {}) {
      ExpireIff(s, now, id);
      ExpireValid(s, now);
      RevokedRecord(ExpireAt(s, now), scope, id);
      assert InScope(scope, a) <==> IsFor(scope, id, a);
    }
  }

  lemma RevokedRecord(s: Store, scope: Scope, id: string)
    requires Valid(s) && Lookup(s, id).Some? && Active(Lookup(s, id).value)
    ensures var a := Lookup(s, id).value;
            var after := Lookup(Pruned(s.(approvals := RevokedRecords(s.approvals, scope))), id);
            if InScope(scope, a) then after.None? || after == Some(a.(status := Revoked)) else after == Some(a)
  {
    hide Pruned, CountTerminal, IndexOk, InScope;
    var m' := RevokedRecords(s.approvals, scope);
    EndedProgress(s, m');
    LookupProgressed(s, m', id);
    LookupPruned(s.(approvals := m'), id);
    PositionAt(m', Position(s.approvals, id).value);
  }

  // ---- Pruning ----

  /** The active records, in order. */
  function ActiveOf(m: JsMap<string, Approval>): (r: JsMap<string, Approval>)
    ensures forall x :: x in r <==> x in m && (x.1.status.Pending? || x.1.status.Approved?)
  {
    if m == [] then []
    else
      assert forall x :: x in m <==> x == m[0] || x in m[1..];
      (if m[0].1.status.Pending? || m[0].1.status.Approved? then [m[0]] else []) + ActiveOf(m[1..])
  }

  lemma {:induction false} ActiveOfCounts(m: JsMap<string, Approval>)
    ensures |ActiveOf(m)| == CountActive(m)
  {
    if m != [] {
      ActiveOfCounts(m[1..]);
    }
  }

  /** Dropping `n` terminal records takes them from the front: the active ones there stay, and all that follows. */
  lemma {:induction false} DropsOldest(m: JsMap<string, Approval>, n: nat) returns (c: nat)
    requires n <= CountTerminal(m)
    ensures c <= |m| && CountTerminal(m[..c]) == n
    ensures DropOldest(m, n) == ActiveOf(m[..c]) + m[c..]
  {
    if n == 0 || m == [] {
      c := 0;
    } else {
      var d := DropsOldest(m[1..], if Active(m[0].1) then n else n - 1);
      c := d + 1;
      assert m[..c][1..] == m[1..][..d] && m[c..] == m[1..][d..];
      assert ActiveOf(m[..c]) == (if Active(m[0].1) then [m[0]] else []) + ActiveOf(m[1..][..d]);
    }
  }

  /**
   * Pruning forgets the oldest terminal records, as many as there are above a
   * thousand, and nothing else.
   */
  lemma PrunedIs(s: Store) returns (c: nat)
    requires Nearly(s)
    ensures c <= |s.approvals| && Pruned(s).approvals == ActiveOf(s.approvals[..c]) + s.approvals[c..]
    ensures var terminal := |s.approvals| - |ActiveOf(s.approvals)|;
            |s.approvals[..c]| - |ActiveOf(s.approvals[..c])|
              == (if terminal <= TERMINAL_LIMIT then 0 else terminal - TERMINAL_LIMIT)
    ensures Valid(Pruned(s))
  {
    hide Nearly, Valid, DropOldest, ActiveOf, CountTerminal;
    PrunedValid(s);
    ActiveOfCounts(s.approvals);
    var n := CountTerminal(s.approvals);
    if n <= TERMINAL_LIMIT {
      c := 0;
      NoneActive();
    } else {
      c := DropsOldest(s.approvals, n - TERMINAL_LIMIT);
    }
    ActiveOfCounts(s.approvals[..c]);
  }

  lemma NoneActive()
    ensures ActiveOf([]) == []
  {
  }
}
