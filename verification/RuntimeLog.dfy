/**
 * What the runtime reads off the journal: per idempotency key, the last
 * request, the terminal events, and every outcome recorded; and per transaction
 * whether it is open.
 */
module RuntimeLog {
  type Key = string

  /** A command under its idempotency key; a retry may come as another command under the same key. */
  datatype Tx = Tx(key: Key, id: nat)

  /**
   * An outcome, identified by its exact digest: what recovery records for a
   * command left open, what a restart records for an action whose approval was
   * pending, that an approval is needed, or any other.
   */
  datatype Outcome = LeftOpen | ApprovalLost | NeedsApproval(digest: nat) | Final(digest: nat)

  const RECOVERED: Outcome := LeftOpen

  /**
   * A committed event; event `log[i]` has sequence `i + 1`. `Note` is every
   * kind of event the idempotency paths do not look at.
   */
  datatype Ev = Req(key: Key, id: nat) | Term(key: Key, id: nat, value: Outcome, recovered: bool) | Note

  predicate IsReq(e: Ev, k: Key) {
    e.Req? && e.key == k
  }

  predicate IsTerm(e: Ev, k: Key) {
    e.Term? && e.key == k
  }

  function LastTerm(log: seq<Ev>, k: Key): (t: nat)
    ensures t <= |log|
    ensures t > 0 ==> IsTerm(log[t - 1], k)
  {
    if log == [] then 0
    else
      var n := |log| - 1;
      if IsTerm(log[n], k) then |log| else LastTerm(log[..n], k)
  }

  function FirstTerm(log: seq<Ev>, k: Key): (t: nat)
    ensures t <= |log|
    ensures t > 0 ==> IsTerm(log[t - 1], k)
  {
    if log == [] then 0
    else
      var n := |log| - 1;
      if IsTerm(log[n], k) && FirstTerm(log[..n], k) == 0 then |log| else FirstTerm(log[..n], k)
  }

  /** The last terminal event a command itself led to, not recovery. */
  function LastOwn(log: seq<Ev>, k: Key): (t: nat)
    ensures t <= LastTerm(log, k)
    ensures t > 0 ==> IsTerm(log[t - 1], k) && !log[t - 1].recovered
  {
    if log == [] then 0
    else
      var n := |log| - 1;
      if IsTerm(log[n], k) && !log[n].recovered then |log| else LastOwn(log[..n], k)
  }

  function LastReq(log: seq<Ev>, k: Key): (r: nat)
    ensures r <= |log|
    ensures r > 0 ==> IsReq(log[r - 1], k)
  {
    if log == [] then 0
    else
      var n := |log| - 1;
      if IsReq(log[n], k) then |log| else LastReq(log[..n], k)
  }

  /** How often a key was requested over the whole history. */
  function Requests(log: seq<Ev>, k: Key): nat {
    if log == [] then 0
    else Requests(log[..|log| - 1], k) + (if IsReq(log[|log| - 1], k) then 1 else 0)
  }

  /** The outcomes of all terminal events of a key. */
  function Outcomes(log: seq<Ev>, k: Key): set<Outcome> {
    if log == [] then {}
    else
      var e := log[|log| - 1];
      Outcomes(log[..|log| - 1], k) + (if IsTerm(e, k) then {e.value} else {})
  }

  /** The commands of a key that were requested and not ended since. */
  function OpenIds(log: seq<Ev>, k: Key): set<nat> {
    if log == [] then {} else ThenOpen(OpenIds(log[..|log| - 1], k), log[|log| - 1], k)
  }

  function ThenOpen(open: set<nat>, e: Ev, k: Key): set<nat> {
    if IsReq(e, k) then open + {e.id} else if IsTerm(e, k) then open - {e.id} else open
  }

  /** The outcome of the latest terminal event. */
  function Latest(log: seq<Ev>, k: Key): Outcome
    requires LastTerm(log, k) > 0
  {
    log[LastTerm(log, k) - 1].value
  }

  predicate About(e: Ev, k: Key) {
    !e.Note? && e.key == k
  }

  lemma Snoc(log: seq<Ev>, e: Ev, k: Key)
    ensures LastTerm(log + [e], k) == if IsTerm(e, k) then |log| + 1 else LastTerm(log, k)
    ensures FirstTerm(log + [e], k) == if IsTerm(e, k) && FirstTerm(log, k) == 0 then |log| + 1 else FirstTerm(log, k)
    ensures LastOwn(log + [e], k) == if IsTerm(e, k) && !e.recovered then |log| + 1 else LastOwn(log, k)
    ensures LastReq(log + [e], k) == if IsReq(e, k) then |log| + 1 else LastReq(log, k)
    ensures Requests(log + [e], k) == Requests(log, k) + (if IsReq(e, k) then 1 else 0)
    ensures Outcomes(log + [e], k) == Outcomes(log, k) + (if IsTerm(e, k) then {e.value} else {})
    ensures OpenIds(log + [e], k) == ThenOpen(OpenIds(log, k), e, k)
  {
    var l := log + [e];
    assert l != [] && l[|l| - 1] == e && l[..|l| - 1] == log;
  }

  lemma SnocOther(log: seq<Ev>, e: Ev, k: Key)
    requires !About(e, k)
    ensures LastTerm(log + [e], k) == LastTerm(log, k) && FirstTerm(log + [e], k) == FirstTerm(log, k)
    ensures LastOwn(log + [e], k) == LastOwn(log, k) && LastReq(log + [e], k) == LastReq(log, k)
    ensures Requests(log + [e], k) == Requests(log, k)
    ensures Outcomes(log + [e], k) == Outcomes(log, k)
    ensures OpenIds(log + [e], k) == OpenIds(log, k)
  {
    Snoc(log, e, k);
  }

  lemma {:induction false} OutcomesFacts(log: seq<Ev>, k: Key)
    ensures LastTerm(log, k) > 0 ==> Latest(log, k) in Outcomes(log, k)
    ensures LastTerm(log, k) == 0 <==> Outcomes(log, k) == {}
    ensures LastReq(log, k) == 0 <==> Requests(log, k) == 0
    ensures FirstTerm(log, k) <= LastTerm(log, k) && (FirstTerm(log, k) == 0 <==> LastTerm(log, k) == 0)
    ensures FirstTerm(log, k) > 0 ==> log[FirstTerm(log, k) - 1].value in Outcomes(log, k)
  {
    if log != [] {
      var n := |log| - 1;
      OutcomesFacts(log[..n], k);
    }
  }

  lemma {:induction false} OutcomesOfPrefix(log: seq<Ev>, c: nat, k: Key)
    requires c <= |log|
    ensures Outcomes(log[..c], k) <= Outcomes(log, k)
  {
    if c < |log| {
      var n := |log| - 1;
      assert log[..n][..c] == log[..c];
      OutcomesOfPrefix(log[..n], c, k);
    } else {
      assert log[..c] == log;
    }
  }

  lemma {:induction false} OutcomesMonotone(log: seq<Ev>, c: nat, d: nat, k: Key)
    requires c <= d <= |log|
    ensures Outcomes(log[..c], k) <= Outcomes(log[..d], k)
  {
    assert log[..d][..c] == log[..c];
    OutcomesOfPrefix(log[..d], c, k);
  }

  /** A last terminal event inside a prefix is the last one of the prefix. */
  lemma {:induction false} LastTermInPrefix(log: seq<Ev>, c: nat, k: Key)
    requires c <= |log| && LastTerm(log, k) <= c
    ensures LastTerm(log[..c], k) == LastTerm(log, k)
  {
    if c < |log| {
      var n := |log| - 1;
      assert log[..n][..c] == log[..c];
      LastTermInPrefix(log[..n], c, k);
    } else {
      assert log[..c] == log;
    }
  }

  lemma LatestInPrefix(log: seq<Ev>, c: nat, k: Key)
    requires 0 < LastTerm(log, k) <= c <= |log|
    ensures Latest(log, k) in Outcomes(log[..c], k)
  {
    LastTermInPrefix(log, c, k);
    OutcomesFacts(log[..c], k);
  }

  // ---- Open commands ----

  /** The fold the snapshot and recovery both use: a request opens, a terminal event closes. */
  function FoldOpen(open: set<Tx>, evs: seq<Ev>): set<Tx> {
    if evs == [] then open
    else
      var before := FoldOpen(open, evs[..|evs| - 1]);
      match evs[|evs| - 1]
      case Req(k, id) => before + {Tx(k, id)}
      case Term(k, id, _, _) => before - {Tx(k, id)}
      case Note => before
  }

  function OpenSet(log: seq<Ev>): set<Tx> {
    FoldOpen({}, log)
  }

  lemma {:induction false} FoldOpenConcat(open: set<Tx>, a: seq<Ev>, b: seq<Ev>)
    ensures FoldOpen(open, a + b) == FoldOpen(FoldOpen(open, a), b)
  {
    if b == [] {
      assert a + b == a;
    } else {
      var n := |b| - 1;
      assert (a + b)[..|a + b| - 1] == a + b[..n];
      FoldOpenConcat(open, a, b[..n]);
    }
  }

  lemma {:induction false} OpenIdsMember(log: seq<Ev>, x: Tx)
    ensures x in OpenSet(log) <==> x.id in OpenIds(log, x.key)
  {
    if log != [] {
      OpenIdsMember(log[..|log| - 1], x);
    }
  }

  function TerminalKeys(evs: seq<Ev>): set<Key> {
    set e | e in evs && e.Term? :: e.key
  }

  lemma {:induction false} TerminalKeysMember(evs: seq<Ev>, k: Key)
    ensures k in TerminalKeys(evs) <==> LastTerm(evs, k) > 0
  {
    if evs != [] {
      var n := |evs| - 1;
      TerminalKeysMember(evs[..n], k);
      assert evs == evs[..n] + [evs[n]];
      assert k in TerminalKeys(evs) <==> k in TerminalKeys(evs[..n]) || (evs[n].Term? && evs[n].key == k);
    }
  }

  function TerminalTxs(evs: seq<Ev>): set<Tx> {
    set e | e in evs && e.Term? :: Tx(e.key, e.id)
  }

  /** What a restart terminates: open by snapshot and retained events, and not terminal in those. */
  function RecoverSet(open: set<Tx>, retained: seq<Ev>): set<Tx> {
    FoldOpen(open, retained) - TerminalTxs(retained)
  }

  predicate Opens(e: Ev, x: Tx) {
    e == Req(x.key, x.id)
  }

  predicate Ends(e: Ev, x: Tx) {
    e.Term? && e.key == x.key && e.id == x.id
  }

  /** The last request of a transaction. */
  function RequestOf(log: seq<Ev>, x: Tx): (r: nat)
    ensures r <= |log|
    ensures r > 0 ==> Opens(log[r - 1], x)
  {
    if log == [] then 0
    else
      var n := |log| - 1;
      if Opens(log[n], x) then |log| else RequestOf(log[..n], x)
  }

  lemma RequestOfSnoc(log: seq<Ev>, e: Ev, x: Tx)
    ensures RequestOf(log + [e], x) == if Opens(e, x) then |log| + 1 else RequestOf(log, x)
  {
    var l := log + [e];
    assert l != [] && l[|l| - 1] == e && l[..|l| - 1] == log;
  }

  lemma {:induction false} RequestOfWithin(log: seq<Ev>, x: Tx)
    ensures RequestOf(log, x) <= LastReq(log, x.key)
  {
    if log != [] {
      RequestOfWithin(log[..|log| - 1], x);
    }
  }

  lemma {:induction false} ReqIndex(log: seq<Ev>, k: Key, i: nat)
    requires i < |log| && IsReq(log[i], k)
    ensures i < LastReq(log, k)
  {
    if i < |log| - 1 {
      assert log[..|log| - 1][i] == log[i];
      ReqIndex(log[..|log| - 1], k, i);
    }
  }

  lemma {:induction false} TermIndex(log: seq<Ev>, k: Key, i: nat)
    requires i < |log| && IsTerm(log[i], k)
    ensures 0 < FirstTerm(log, k) <= i + 1
  {
    if i < |log| - 1 {
      assert log[..|log| - 1][i] == log[i];
      TermIndex(log[..|log| - 1], k, i);
    }
  }

  /** A transaction that does not end among these events is open after them if it was, or is requested. */
  lemma {:induction false} NeverEnded(open: set<Tx>, evs: seq<Ev>, x: Tx)
    requires forall i :: 0 <= i < |evs| ==> !Ends(evs[i], x)
    ensures x in FoldOpen(open, evs) <==> x in open || exists i :: 0 <= i < |evs| && Opens(evs[i], x)
  {
    if evs != [] {
      var n := |evs| - 1;
      assert forall i :: 0 <= i < n ==> evs[..n][i] == evs[i];
      NeverEnded(open, evs[..n], x);
      assert !Ends(evs[n], x);
      if exists i :: 0 <= i < |evs| && Opens(evs[i], x) {
        var i :| 0 <= i < |evs| && Opens(evs[i], x);
        assert i < n ==> Opens(evs[..n][i], x);
      }
    }
  }

  /** One that is not requested among them is not opened by them, and closed once it ends. */
  lemma {:induction false} NotOpened(open: set<Tx>, evs: seq<Ev>, x: Tx, ended: nat)
    requires ended <= |evs| && (ended > 0 ==> Ends(evs[ended - 1], x))
    requires forall i :: ended <= i < |evs| ==> !Opens(evs[i], x)
    ensures x in FoldOpen(open, evs) ==> ended == 0 && x in open
  {
    if evs != [] && ended < |evs| {
      var n := |evs| - 1;
      assert forall i :: 0 <= i < n ==> evs[..n][i] == evs[i];
      NotOpened(open, evs[..n], x, ended);
      assert !Opens(evs[n], x);
    }
  }

  lemma TerminalTxsMember(evs: seq<Ev>, x: Tx)
    ensures x in TerminalTxs(evs) <==> exists i :: 0 <= i < |evs| && Ends(evs[i], x)
  {
    if x in TerminalTxs(evs) {
      var e :| e in evs && e.Term? && Tx(e.key, e.id) == x;
      var i :| 0 <= i < |evs| && evs[i] == e;
      assert Ends(evs[i], x);
    }
    if exists i :: 0 <= i < |evs| && Ends(evs[i], x) {
      var i :| 0 <= i < |evs| && Ends(evs[i], x);
      assert evs[i] in evs;
    }
  }

  /**
   * With the snapshot at `c` and the journal retained from event `a` on,
   * recovery terminates exactly the open transactions, of keys that are not
   * requested once they have ended.
   */
  lemma RecoverSetMeaning(log: seq<Ev>, a: nat, c: nat, x: Tx)
    requires a <= c <= |log|
    requires FirstTerm(log, x.key) > 0 ==> LastReq(log, x.key) < FirstTerm(log, x.key)
    ensures x in RecoverSet(OpenSet(log[..c]), log[a..]) <==> x in OpenSet(log)
  {
    hide FoldOpen, TerminalTxs, LastReq, FirstTerm;
    TerminalTxsMember(log[a..], x);
    if i :| 0 <= i < |log| && Ends(log[i], x) {
      NotOpenAgain(log, x, i);
      if a <= i {
        assert Ends(log[a..][i - a], x);
      } else {
        assert Ends(log[..c][i], x);
        NotOpened({}, log[..c], x, i + 1);
        NotOpened(OpenSet(log[..c]), log[a..], x, 0);
      }
      NotOpened({}, log, x, i + 1);
    } else {
      NeverEnded({}, log[..c], x);
      NeverEnded(OpenSet(log[..c]), log[a..], x);
      NeverEnded({}, log, x);
      if i :| 0 <= i < |log| && Opens(log[i], x) {
        assert if i < c then Opens(log[..c][i], x) else Opens(log[a..][i - a], x);
      }
    }
  }

  lemma NotOpenAgain(log: seq<Ev>, x: Tx, i: nat)
    requires i < |log| && Ends(log[i], x)
    requires FirstTerm(log, x.key) > 0 ==> LastReq(log, x.key) < FirstTerm(log, x.key)
    ensures forall j :: i < j < |log| ==> !Opens(log[j], x)
  {
    hide LastReq, FirstTerm;
    TermIndex(log, x.key, i);
    forall j | i < j < |log| ensures !Opens(log[j], x) {
      if Opens(log[j], x) { ReqIndex(log, x.key, j); }
    }
  }
}
