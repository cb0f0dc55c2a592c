/** The approval store as an object: two maps updated in place, proved to take the steps on values. */
module ApprovalStores {
  import opened ControlEvents
  import opened JsMap
  import opened Approvals

  lemma {:induction false} SetAt(m: JsMap<string, Approval>, i: nat, a: Approval)
    requires i < |m| && forall j, k :: 0 <= j < k < |m| ==> m[j].0 != m[k].0
    ensures Set(m, m[i].0, a) == m[i := (m[i].0, a)]
  {
    if i > 0 {
      assert m[0].0 != m[i].0;
      forall j, k | 0 <= j < k < |m[1..]| ensures m[1..][j].0 != m[1..][k].0 {
        assert m[1..][j] == m[j + 1] && m[1..][k] == m[k + 1];
      }
      SetAt(m[1..], i - 1, a);
      assert m[i := (m[i].0, a)] == [m[0]] + m[1..][i - 1 := (m[i].0, a)];
    }
  }

  lemma {:induction false} SetAbsent(m: JsMap<string, Approval>, id: string, a: Approval)
    requires forall j :: 0 <= j < |m| ==> m[j].0 != id
    ensures Set(m, id, a) == m + [(id, a)]
  {
    if m != [] {
      SetAbsent(m[1..], id, a);
    }
  }

  lemma {:induction false} DeleteAt(m: JsMap<string, Approval>, i: nat)
    requires i < |m| && forall j, k :: 0 <= j < k < |m| ==> m[j].0 != m[k].0
    ensures Delete(m, m[i].0) == m[..i] + m[i + 1..]
  {
    if i > 0 {
      assert m[0].0 != m[i].0;
      forall j, k | 0 <= j < k < |m[1..]| ensures m[1..][j].0 != m[1..][k].0 {
        assert m[1..][j] == m[j + 1] && m[1..][k] == m[k + 1];
      }
      DeleteAt(m[1..], i - 1);
      assert m[1..][..i - 1] == m[1..i] && m[1..][i..] == m[i + 1..];
      assert [m[0]] + m[1..i] == m[..i];
    }
  }

  /** The records a pass just ended, in order. */
  function NewlyEnded(before: JsMap<string, Approval>, after: JsMap<string, Approval>): seq<Approval>
    requires |before| == |after|
  {
    if before == [] then []
    else
      var n := |before| - 1;
      NewlyEnded(before[..n], after[..n]) + (if after[n].1 == before[n].1 then [] else [after[n].1])
  }

  /** They are exactly the records the pass changed, as they are after it. */
  lemma {:induction false} NewlyEndedMembers(before: JsMap<string, Approval>, after: JsMap<string, Approval>,
                                             x: Approval)
    requires |before| == |after|
    ensures x in NewlyEnded(before, after) <==>
            exists i :: 0 <= i < |before| && after[i].1 == x && before[i].1 != x
  {
    if before != [] {
      var n := |before| - 1;
      NewlyEndedMembers(before[..n], after[..n], x);
      if i :| 0 <= i < n && after[..n][i].1 == x && before[..n][i].1 != x {
        assert after[i].1 == x && before[i].1 != x;
      }
      if i :| 0 <= i < |before| && after[i].1 == x && before[i].1 != x {
        if i < n { assert after[..n][i].1 == x && before[..n][i].1 != x; }
      }
    }
  }

  lemma DropStep(m: JsMap<string, Approval>, i: nat, n: nat)
    requires i < |m|
    ensures n > 0 && Active(m[i].1) ==>
              m[..i] + DropOldest(m[i..], n) == m[..i + 1] + DropOldest(m[i + 1..], n)
              && Dropped(m[i..], n) == Dropped(m[i + 1..], n)
    ensures n > 0 && !Active(m[i].1) ==>
              DropOldest(m[i..], n) == DropOldest(m[i + 1..], n - 1)
              && Dropped(m[i..], n) == [m[i].1] + Dropped(m[i + 1..], n - 1)
  {
    assert m[i..][1..] == m[i + 1..] && m[i..][0] == m[i];
    assert m[..i + 1] == m[..i] + [m[i]];
  }

  lemma DropNone(m: JsMap<string, Approval>, i: nat, n: nat)
    requires i <= |m| && (n == 0 || i == |m|)
    ensures m[..i] + DropOldest(m[i..], n) == m && Dropped(m[i..], n) == []
  {
  }

  lemma UnindexFirst(byAction: map<string, string>, a: Approval, rest: seq<Approval>)
    ensures UnindexAll(byAction, [a] + rest) == UnindexAll(Unindex(byAction, a), rest)
  {
    assert ([a] + rest)[1..] == rest;
  }

  lemma UnindexNone(byAction: map<string, string>)
    ensures UnindexAll(byAction, []) == byAction
  {
  }

  lemma {:induction false} CountSnoc(m: JsMap<string, Approval>, i: nat)
    requires i < |m|
    ensures CountTerminal(m[..i + 1]) == CountTerminal(m[..i]) + (if Active(m[i].1) then 0 else 1)
  {
    if i == 0 {
      assert m[..1] == [m[0]];
    } else {
      assert m[..i + 1][1..] == m[1..][..i] && m[..i][1..] == m[1..][..i - 1];
      CountSnoc(m[1..], i - 1);
    }
  }

  lemma PassKeepsRecords(m: JsMap<string, Approval>, now: int, scope: Scope)
    requires RecordsOk(m)
    ensures RecordsOk(ExpiredRecords(m, now)) && RecordsOk(RevokedRecords(m, scope))
  {
    SameKeysRecords(m, ExpiredRecords(m, now));
    SameKeysRecords(m, RevokedRecords(m, scope));
  }

  lemma SameKeysRecords(m: JsMap<string, Approval>, m': JsMap<string, Approval>)
    requires RecordsOk(m) && |m'| == |m|
    requires forall i :: 0 <= i < |m| ==> m'[i].0 == m[i].0 && Successor(m[i].1, m'[i].1)
    ensures RecordsOk(m')
  {
  }

  class ApprovalStore {
    var approvals: JsMap<string, Approval>
    var approvalIdsByAction: map<string, string>

    function State(): Store
      reads this
    {
      Store(approvals, approvalIdsByAction)
    }

    constructor ()
      ensures State() == Store([], map[]) && Valid(State())
    {
      approvals, approvalIdsByAction := [], map[];
    }

    method CountTerminals() returns (n: nat)
      ensures n == CountTerminal(approvals)
    {
      n := 0;
      for i := 0 to |approvals|
        invariant n == CountTerminal(approvals[..i])
      {
        CountSnoc(approvals, i);
        if !Active(approvals[i].1) { n := n + 1; }
      }
      assert approvals[..|approvals|] == approvals;
    }

    /** Forgets the oldest terminal records while there are more than a thousand, and their actions. */
    method PruneTerminal()
      requires RecordsOk(approvals)
      modifies this
      ensures State() == Pruned(old(State()))
    {
      hide DropOldest, Dropped, UnindexAll, CountTerminal;
      var terminalCount := CountTerminals();
      if terminalCount <= TERMINAL_LIMIT { return; }
      ghost var was := State();
      var i := 0;
      var excess: nat := terminalCount - TERMINAL_LIMIT;
      assert approvals[0..] == approvals && approvals[..0] == [];
      while i < |approvals| && excess > 0
        invariant i <= |approvals| && RecordsOk(approvals)
        invariant approvals[..i] + DropOldest(approvals[i..], excess) == Pruned(was).approvals
        invariant UnindexAll(approvalIdsByAction, Dropped(approvals[i..], excess)) == Pruned(was).byAction
        decreases |approvals| - i
      {
        DropStep(approvals, i, excess);
        var a := approvals[i].1;
        if Active(a) {
          i := i + 1;
        } else {
          DeleteAt(approvals, i);
          DeletedRecords(approvals, i);
          ghost var rest := approvals[i + 1..];
          approvals := Delete(approvals, approvals[i].0);
          assert approvals[i..] == rest;
          UnindexFirst(approvalIdsByAction, a, Dropped(rest, excess - 1));
          approvalIdsByAction := Unindex(approvalIdsByAction, a);
          excess := excess - 1;
        }
      }
      DropNone(approvals, i, excess);
      UnindexNone(approvalIdsByAction);
    }

    /** Ends every active record whose time is up, in place. */
    method ExpireRecords(now: int) returns (expired: seq<Approval>)
      requires RecordsOk(approvals)
      modifies this`approvals
      ensures approvals == ExpiredRecords(old(approvals), now)
      ensures expired == NewlyEnded(old(approvals), approvals)
    {
      expired := [];
      ghost var was := approvals;
      ghost var all := ExpiredRecords(was, now);
      var count := |approvals|;
      for i := 0 to count
        invariant |approvals| == |was| && RecordsOk(approvals)
        invariant approvals[..i] == all[..i] && approvals[i..] == was[i..]
        invariant expired == NewlyEnded(was[..i], approvals[..i])
      {
        var a := approvals[i].1;
        assert approvals[i] == was[i] by { assert approvals[i..][0] == was[i..][0]; }
        ghost var before := approvals;
        if Lapsed(a, now) {
          var replacement := a.(status := Expired);
          SetAt(approvals, i, replacement);
          approvals := Set(approvals, approvals[i].0, replacement);
          expired := expired + [replacement];
        }
        StepOn(was, before, approvals, all, i);
      }
      assert was[..|was|] == was && approvals[..|was|] == approvals;
    }

    method ExpireAtTime(now: int) returns (expired: seq<Approval>)
      requires Valid(State())
      modifies this
      ensures State() == ExpireAt(old(State()), now) && Valid(State())
      ensures expired == NewlyEnded(old(approvals), ExpiredRecords(old(approvals), now))
    {
      hide Pruned, CountTerminal, RecordsOk, IndexOk;
      ExpireValid(State(), now);
      PassKeepsRecords(approvals, now, ForAll);
      expired := ExpireRecords(now);
      PruneTerminal();
    }

    /** Ends every active record a revocation is for, in place. */
    method RevokeRecords(scope: Scope) returns (revoked: seq<Approval>)
      requires RecordsOk(approvals)
      modifies this`approvals
      ensures approvals == RevokedRecords(old(approvals), scope)
      ensures revoked == NewlyEnded(old(approvals), approvals)
    {
      revoked := [];
      ghost var was := approvals;
      ghost var all := RevokedRecords(was, scope);
      var count := |approvals|;
      for i := 0 to count
        invariant |approvals| == |was| && RecordsOk(approvals)
        invariant approvals[..i] == all[..i] && approvals[i..] == was[i..]
        invariant revoked == NewlyEnded(was[..i], approvals[..i])
      {
        var a := approvals[i].1;
        assert approvals[i] == was[i] by { assert approvals[i..][0] == was[i..][0]; }
        ghost var before := approvals;
        if Active(a) && InScope(scope, a) {
          var replacement := a.(status := Revoked);
          SetAt(approvals, i, replacement);
          approvals := Set(approvals, approvals[i].0, replacement);
          revoked := revoked + [replacement];
        }
        StepOn(was, before, approvals, all, i);
      }
      assert was[..|was|] == was && approvals[..|was|] == approvals;
    }

    method Revoke(scope: Scope, now: int) returns (revoked: seq<Approval>)
      requires Valid(State())
      modifies this
      ensures State() == RevokeWhere(old(State()), scope, now) && Valid(State())
      ensures revoked == if scope.ForIds? && scope.ids - {""} == {} then []
                         else NewlyEnded(ExpireAt(old(State()), now).approvals,
                                         RevokedRecords(ExpireAt(old(State()), now).approvals, scope))
    {
      hide Pruned, CountTerminal, RecordsOk, IndexOk, ExpireAt;
      RevokeValid(State(), scope, now);
      if scope.ForIds? && scope.ids - {""} == {} { return []; }
      var expired := ExpireAtTime(now);
      PassKeepsRecords(approvals, now, scope);
      revoked := RevokeRecords(scope);
      PruneTerminal();
    }

    method RequestAtTime(identity: Identity, id: string, now: int) returns (r: Result)
      requires Valid(State())
      modifies this
      ensures (State(), r) == RequestAt(old(State()), identity, id, now) && Valid(State())
    {
      RequestValid(State(), identity, id, now);
      if !WellFormed(identity) { return Err(IdentityMismatch); }
      if identity.actionId in approvalIdsByAction {
        var existing := Position(approvals, approvalIdsByAction[identity.actionId]);
        if existing.Some? && approvals[existing.value].1.digest == Of(identity) {
          return Ok(approvals[existing.value].1);
        }
        return Err(ActionConflict);
      }
      var terminal := CountTerminals();
      if |approvals| - terminal >= ACTIVE_LIMIT { return Err(CapacityExceeded); }
      if id == "" || Position(approvals, id).Some? { return Err(IdCollision); }
      var approval := Fresh(id, identity, now);
      SetAbsent(approvals, id, approval);
      approvals := Set(approvals, id, approval);
      approvalIdsByAction := approvalIdsByAction[identity.actionId := id];
      r := Ok(approval);
    }

    method Request(identity: Identity, id: string, now: int) returns (r: Result)
      requires Valid(State())
      modifies this
      ensures (State(), Some(r)) == Step(old(State()), RequestOp(identity, id, now, true)) && Valid(State())
    {
      var expired := ExpireAtTime(now);
      r := RequestAtTime(identity, id, now);
    }

    /** Puts a new version of a record in place. */
    method Put(a: Approval)
      requires RecordsOk(approvals)
      requires match Position(approvals, a.id)
               case None => false
               case Some(i) => Successor(approvals[i].1, a)
      modifies this
      ensures State() == Replace(old(State()), a)
    {
      ghost var i := Position(approvals, a.id).value;
      SetAt(approvals, i, a);
      approvals := Set(approvals, a.id, a);
      PruneTerminal();
    }

    method RequireCurrentAt(id: string, now: int) returns (r: Result)
      requires Valid(State())
      modifies this
      ensures (State(), r) == RequireCurrent(old(State()), id, now) && Valid(State())
    {
      RequireFacts(State(), id, now);
      var i := Position(approvals, id);
      if i.None? { return Err(ApprovalMissing); }
      var approval := approvals[i.value].1;
      if Lapsed(approval, now) {
        Put(approval.(status := Expired));
        return Err(ApprovalExpired);
      }
      if approval.status.Expired? { return Err(ApprovalExpired); }
      r := Ok(approval);
    }

    method ResolveAs(id: string, actor: string, digest: Digest, approve: bool, now: int) returns (r: Result)
      requires Valid(State())
      modifies this
      ensures (State(), r) == Resolve(old(State()), id, actor, digest, approve, now) && Valid(State())
    {
      ResolveValid(State(), id, actor, digest, approve, now);
      RequireFacts(State(), id, now);
      if Blank(actor) { return Err(IdentityMismatch); }
      var current := RequireCurrentAt(id, now);
      if current.Err? { return current; }
      var approval := current.approval;
      if approval.digest != digest { return Err(DigestMismatch); }
      if Of(approval.identity) != approval.digest { return Err(IdentityMismatch); }
      if !approval.status.Pending? { return Err(ApprovalDenied); }
      var resolved := approval.(status := if approve then Approved else Denied,
                                 resolvedBy := Some(actor), resolvedAt := now);
      Put(resolved);
      r := Ok(resolved);
    }

    method ConsumeOnce(id: string, x: Identity, digest: Digest, now: int) returns (r: Result)
      requires Valid(State())
      modifies this
      ensures (State(), r) == Consume(old(State()), id, x, digest, now) && Valid(State())
    {
      ConsumeValid(State(), id, x, digest, now);
      RequireFacts(State(), id, now);
      if id == "" || !WellFormed(x) { return Err(IdentityMismatch); }
      if digest.Malformed? { return Err(DigestMismatch); }
      var current := RequireCurrentAt(id, now);
      if current.Err? { return current; }
      var approval := current.approval;
      if Of(approval.identity) != approval.digest || !AssertionMatches(approval, x) { return Err(IdentityMismatch); }
      if Of(x) != digest || Of(x) != approval.digest { return Err(DigestMismatch); }
      if !approval.status.Approved? { return Err(ApprovalDenied); }
      var consumed := approval.(status := Consumed, consumedAt := now);
      Put(consumed);
      r := Ok(consumed);
    }
  }

  lemma DeletedRecords(m: JsMap<string, Approval>, i: nat)
    requires RecordsOk(m) && i < |m|
    ensures RecordsOk(m[..i] + m[i + 1..])
    ensures (m[..i] + m[i + 1..])[..i] == m[..i] && (m[..i] + m[i + 1..])[i..] == m[i + 1..]
  {
    var d := m[..i] + m[i + 1..];
    forall j | 0 <= j < |d| ensures d[j] == m[if j < i then j else j + 1] {}
  }

  /** One more record of a pass over the whole map is in its final state. */
  lemma StepOn(was: JsMap<string, Approval>, before: JsMap<string, Approval>, after: JsMap<string, Approval>,
               all: JsMap<string, Approval>, i: nat)
    requires i < |was| == |before| == |after| == |all|
    requires before[..i] == all[..i] && before[i..] == was[i..] && RecordsOk(before)
    requires after == before[i := all[i]] && Successor(was[i].1, all[i].1) && was[i].0 == all[i].0
    ensures after[..i + 1] == all[..i + 1] && after[i + 1..] == was[i + 1..] && RecordsOk(after)
    ensures NewlyEnded(was[..i + 1], after[..i + 1])
         == NewlyEnded(was[..i], before[..i]) + (if all[i].1 == was[i].1 then [] else [all[i].1])
  {
    assert before[i] == was[i] by { assert before[i..][0] == was[i..][0]; }
    assert was[..i + 1][..i] == was[..i] && after[..i + 1][..i] == before[..i];
    forall j | i < j < |was| ensures after[j] == was[j] { assert before[i..][j - i] == was[i..][j - i]; }
  }
}
