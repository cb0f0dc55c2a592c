/**
 * Open transactions: what a snapshot records of them, and which of them a
 * restarted journal terminates.
 */
module Recovery {
  import opened ControlEvents
  import opened JsMap
  import opened Folds

  type OpenTxns = map<Txn, OpenRecord>

  function OpenOf(e: Event): OpenRecord {
    Record(e.sequence, TxnOf(e), e.kind)
  }

  // ---- The code: one ordered map, set and deleted event by event ----

  function ApplyEvent(m: JsMap<Txn, OpenRecord>, e: Event): JsMap<Txn, OpenRecord> {
    if !NamesTxn(e) then m
    else if TerminalKind(e.kind) then Delete(m, TxnOf(e))
    else if OpenKind(e.kind) then Set(m, TxnOf(e), OpenOf(e))
    else m
  }

  function ApplyEvents(m: JsMap<Txn, OpenRecord>, evs: seq<Event>): JsMap<Txn, OpenRecord> {
    if evs == [] then m else ApplyEvent(ApplyEvents(m, evs[..|evs| - 1]), evs[|evs| - 1])
  }

  /** The snapshot's open transactions, or `None` when there are too many to record. */
  function OpenRound(restored: seq<OpenRecord>, events: seq<Event>): Option<seq<OpenRecord>> {
    var open := ApplyEvents(SetAll([], restored), events);
    if |open| > MAX_OPEN then None else Some(SortBySequence(Values(open)))
  }

  method DurableOpenTransactions(restored: seq<OpenRecord>, events: seq<Event>)
    returns (r: Option<seq<OpenRecord>>)
    ensures r == OpenRound(restored, events)
  {
    var open: JsMap<Txn, OpenRecord> := [];
    for i := 0 to |restored|
      invariant open == SetAll([], restored[..i])
    {
      assert restored[..i + 1][..i] == restored[..i];
      open := Set(open, restored[i].key, restored[i]);
    }
    assert restored[..|restored|] == restored;
    for i := 0 to |events|
      invariant open == ApplyEvents(SetAll([], restored), events[..i])
    {
      assert events[..i + 1][..i] == events[..i];
      var e := events[i];
      if NamesTxn(e) {
        if TerminalKind(e.kind) {
          open := Delete(open, TxnOf(e));
        } else if OpenKind(e.kind) {
          open := Set(open, TxnOf(e), OpenOf(e));
        }
      }
    }
    assert events[..|events|] == events;
    if |open| > MAX_OPEN { return None; }
    r := Some(SortBySequence(Values(open)));
  }

  function TerminalTxns(evs: seq<Event>): set<Txn> {
    set e | e in evs && TerminalKind(e.kind) && NamesTxn(e) :: TxnOf(e)
  }

  /** The transactions recovery appends a terminal event for, in order. */
  function RecoverTodo(restored: seq<OpenRecord>, retained: seq<Event>): seq<OpenRecord> {
    Without(SortBySequence(Values(ApplyEvents(SetAll([], restored), retained))), TerminalTxns(retained))
  }

  // ---- The reference: a mapping, and its ascending list ----

  function TxnStep(m: OpenTxns, e: Event): OpenTxns {
    if !NamesTxn(e) then m
    else if TerminalKind(e.kind) then m - {TxnOf(e)}
    else if OpenKind(e.kind) then m[TxnOf(e) := OpenOf(e)]
    else m
  }

  function OpenFrom(m: OpenTxns, evs: seq<Event>): OpenTxns {
    if evs == [] then m else TxnStep(OpenFrom(m, evs[..|evs| - 1]), evs[|evs| - 1])
  }

  /** The transactions open at the end of a history, by increasing sequence. */
  function OpenList(h: seq<Event>): seq<OpenRecord> {
    if h == [] then []
    else
      var before, e := OpenList(h[..|h| - 1]), h[|h| - 1];
      if !NamesTxn(e) then before
      else if TerminalKind(e.kind) then Without(before, {TxnOf(e)})
      else if OpenKind(e.kind) then Without(before, {TxnOf(e)}) + [OpenOf(e)]
      else before
  }

  lemma {:induction false} OpenListIsMap(h: seq<Event>)
    ensures LastMap(OpenList(h)) == OpenFrom(map[], h)
  {
    if h != [] {
      hide Without, LastMap;
      var before, e := OpenList(h[..|h| - 1]), h[|h| - 1];
      OpenListIsMap(h[..|h| - 1]);
      LastMapWithout(before, {TxnOf(e)});
      LastMapSnoc(Without(before, {TxnOf(e)}), OpenOf(e));
    } else {
      assert LastMap<Txn, Kind>([]) == map[];
    }
  }

  ghost predicate OpenListShape(open: seq<OpenRecord>, bound: nat) {
    && Ascending(open) && DistinctKeys(open)
    && forall i :: 0 <= i < |open| ==> open[i].sequence <= bound
  }

  lemma WithoutKeepsShape(open: seq<OpenRecord>, keys: set<Txn>, bound: nat)
    requires OpenListShape(open, bound)
    ensures OpenListShape(Without(open, keys), bound)
    ensures forall i :: 0 <= i < |Without(open, keys)| ==> Without(open, keys)[i].key !in keys
  {
    hide Without, Ascending, DistinctKeys;
    WithoutAscending(open, keys);
    WithoutKeepsDistinct(open, keys);
    var kept := Without(open, keys);
    forall i | 0 <= i < |kept| ensures kept[i].key !in keys && kept[i].sequence <= bound {
      WithoutMembers(open, keys, kept[i]);
      var j :| 0 <= j < |open| && open[j] == kept[i];
    }
  }

  lemma {:induction false} OpenListAscends(h: seq<Event>)
    requires Contiguous(h, 1)
    ensures OpenListShape(OpenList(h), |h|)
  {
    if h == [] {
    } else {
      hide Without, OpenListShape;
      var n := |h| - 1;
      var e := h[n];
      OpenListAscends(h[..n]);
      WithoutKeepsShape(OpenList(h[..n]), {TxnOf(e)}, n);
      ShapeSnoc(Without(OpenList(h[..n]), {TxnOf(e)}), OpenOf(e), n);
    }
  }

  lemma ShapeSnoc(open: seq<OpenRecord>, r: OpenRecord, bound: nat)
    requires OpenListShape(open, bound) && r.sequence == bound + 1
    requires forall i :: 0 <= i < |open| ==> open[i].key != r.key
    ensures OpenListShape(open + [r], bound + 1) && OpenListShape(open, bound + 1)
  {
  }

  lemma {:induction false} WithoutKeepsDistinct<K, V>(rs: seq<Record<K, V>>, keys: set<K>)
    requires DistinctKeys(rs)
    ensures DistinctKeys(Without(rs, keys))
  {
    if rs != [] {
      var rest, last := rs[..|rs| - 1], rs[|rs| - 1];
      WithoutKeepsDistinct(rest, keys);
      var kept := Without(rest, keys);
      forall i | 0 <= i < |kept| ensures kept[i].key != last.key {
        WithoutMembers(rest, keys, kept[i]);
      }
    }
  }

  lemma {:induction false} OpenFromConcat(m: OpenTxns, a: seq<Event>, b: seq<Event>)
    ensures OpenFrom(m, a + b) == OpenFrom(OpenFrom(m, a), b)
  {
    if b == [] {
      assert a + b == a;
    } else {
      assert (a + b)[..|a + b| - 1] == a + b[..|b| - 1];
      OpenFromConcat(m, a, b[..|b| - 1]);
    }
  }

  lemma {:induction false} ApplyEventsIsOpenFrom(m: JsMap<Txn, OpenRecord>, evs: seq<Event>)
    requires Distinct(m)
    ensures Distinct(ApplyEvents(m, evs)) && ToMap(ApplyEvents(m, evs)) == OpenFrom(ToMap(m), evs)
  {
    if evs != [] {
      hide ToMap, Distinct, Set, Delete;
      var before, e := ApplyEvents(m, evs[..|evs| - 1]), evs[|evs| - 1];
      ApplyEventsIsOpenFrom(m, evs[..|evs| - 1]);
      DeleteIsRemoval(before, TxnOf(e));
      SetIsUpdate(before, TxnOf(e), OpenOf(e));
    }
  }

  // ---- Replaying a suffix over a snapshot ----

  predicate Same(a: OpenTxns, b: OpenTxns, t: Txn) {
    (t in a <==> t in b) && (t in a ==> a[t] == b[t])
  }

  predicate Touches(evs: seq<Event>, t: Txn) {
    exists i :: 0 <= i < |evs| && NamesTxn(evs[i]) && TxnOf(evs[i]) == t
                && (TerminalKind(evs[i].kind) || OpenKind(evs[i].kind))
  }

  /** After the events that mention a transaction, where one started no longer matters for it. */
  lemma {:induction false} TouchedAgree(a: OpenTxns, b: OpenTxns, evs: seq<Event>, t: Txn)
    requires Same(a, b, t) || Touches(evs, t)
    ensures Same(OpenFrom(a, evs), OpenFrom(b, evs), t)
  {
    if evs != [] {
      var e := evs[|evs| - 1];
      if !(NamesTxn(e) && TxnOf(e) == t && (TerminalKind(e.kind) || OpenKind(e.kind))) {
        if !Same(a, b, t) {
          var i :| 0 <= i < |evs| && NamesTxn(evs[i]) && TxnOf(evs[i]) == t
                   && (TerminalKind(evs[i].kind) || OpenKind(evs[i].kind));
          assert evs[..|evs| - 1][i] == evs[i];
        }
        TouchedAgree(a, b, evs[..|evs| - 1], t);
      }
    }
  }

  lemma {:induction false} UntouchedStays(m: OpenTxns, evs: seq<Event>, t: Txn)
    requires !Touches(evs, t)
    ensures Same(OpenFrom(m, evs), m, t)
  {
    if evs != [] {
      assert forall i :: 0 <= i < |evs| - 1 ==> evs[..|evs| - 1][i] == evs[i];
      UntouchedStays(m, evs[..|evs| - 1], t);
      assert evs[|evs| - 1] == evs[|evs| - 1];
    }
  }

  /** Replaying events a snapshot already covers changes nothing. */
  lemma OverlapHarmless(h: seq<Event>, a: nat, c: nat)
    requires a <= c <= |h|
    ensures OpenFrom(OpenFrom(map[], h[..c]), h[a..]) == OpenFrom(map[], h)
  {
    hide OpenFrom;
    var covered := OpenFrom(map[], h[..c]);
    CutTwice(h, a, c);
    OpenFromConcat(covered, h[a..c], h[c..]);
    OpenFromConcat(map[], h[..c], h[c..]);
    ReplayAgain(OpenFrom(map[], h[..a]), h[a..c]);
    OpenFromConcat(map[], h[..a], h[a..c]);
  }

  lemma CutTwice(h: seq<Event>, a: nat, c: nat)
    requires a <= c <= |h|
    ensures h[..c] == h[..a] + h[a..c] && h[a..] == h[a..c] + h[c..] && h == h[..c] + h[c..]
  {
  }

  /** Folding a batch twice is folding it once. */
  lemma ReplayAgain(start: OpenTxns, batch: seq<Event>)
    ensures OpenFrom(OpenFrom(start, batch), batch) == OpenFrom(start, batch)
  {
    hide OpenFrom, Touches;
    var once := OpenFrom(start, batch);
    var twice := OpenFrom(once, batch);
    forall t ensures Same(twice, once, t) {
      if Touches(batch, t) {
        TouchedAgree(once, start, batch, t);
      } else {
        UntouchedStays(once, batch, t);
      }
    }
    SameEverywhere(twice, once);
  }

  lemma SameEverywhere(a: OpenTxns, b: OpenTxns)
    requires forall t :: Same(a, b, t)
    ensures a == b
  {
    forall t ensures t in a <==> t in b { assert Same(a, b, t); }
    forall t | t in a ensures a[t] == b[t] { assert Same(a, b, t); }
  }

  /** Sorting the code's map after any such replay gives the reference list of the whole history. */
  lemma ReplayedOpenList(h: seq<Event>, a: nat, c: nat)
    requires Contiguous(h, 1) && a <= c <= |h|
    ensures SortBySequence(Values(ApplyEvents(SetAll([], OpenList(h[..c])), h[a..]))) == OpenList(h)
    ensures |ApplyEvents(SetAll([], OpenList(h[..c])), h[a..])| == |OpenList(h)|
  {
    hide SetAll, LastMap, ToMap, Distinct, ApplyEvents, OpenFrom, OpenList, Ascending, SortBySequence, LatestPer;
    var restored := OpenList(h[..c]);
    var m := ApplyEvents(SetAll([], restored), h[a..]);
    SetAllIsLastMap(restored);
    OpenListIsMap(h[..c]);
    ApplyEventsIsOpenFrom(SetAll([], restored), h[a..]);
    OverlapHarmless(h, a, c);
    OpenListIsMap(h);
    OpenListAscends(h);
    OpenListMembers(h);
    LastMapKeyed(OpenList(h));
    SortedValuesUnique(m, OpenList(h));
    SortLength(Values(m));
  }

  lemma SortLength<K, V>(rs: seq<Record<K, V>>)
    ensures |SortBySequence(rs)| == |rs|
  {
    assert |multiset(SortBySequence(rs))| == |multiset(rs)|;
  }

  lemma OpenListMembers(h: seq<Event>)
    requires Contiguous(h, 1)
    ensures var m := LastMap(OpenList(h)); forall x :: x in OpenList(h) <==> x.key in m && m[x.key] == x
  {
    OpenListAscends(h);
    LatestPerOfDistinct(OpenList(h));
    LatestPerIsLastMap(OpenList(h));
  }

  /** The open transactions of a snapshot chain, or `None` once one of them overflowed. */
  function OpenSnapshot(h: seq<Event>, cuts: seq<nat>): Option<seq<OpenRecord>>
    requires Cuts(cuts, |h|)
  {
    if cuts == [] then Some([])
    else
      var before := cuts[..|cuts| - 1];
      match OpenSnapshot(h, before)
      case None => None
      case Some(previous) => OpenRound(previous, h[Covered(before)..Covered(cuts)])
  }

  /** A chain of snapshots records the transactions open at its last covered sequence, exactly. */
  lemma {:induction false} OpenSnapshotIsExact(h: seq<Event>, cuts: seq<nat>)
    requires Contiguous(h, 1) && Cuts(cuts, |h|)
    ensures match OpenSnapshot(h, cuts)
            case Some(open) => open == OpenList(h[..Covered(cuts)])
            case None => exists k :: 0 < k <= |cuts| && |OpenList(h[..Covered(cuts[..k])])| > MAX_OPEN
  {
    hide OpenList, OpenRound, Contiguous;
    if cuts == [] {
      assert h[..0] == [];
      EmptyOpenList();
    } else {
      var n := |cuts| - 1;
      var before := cuts[..n];
      OpenSnapshotIsExact(h, before);
      assert cuts[..n + 1] == cuts;
      if OpenSnapshot(h, before).None? {
        var k :| 0 < k <= |before| && |OpenList(h[..Covered(before[..k])])| > MAX_OPEN;
        assert before[..k] == cuts[..k];
      } else {
        OpenRoundIsExact(h, Covered(before), Covered(cuts));
      }
    }
  }

  lemma EmptyOpenList()
    ensures OpenList([]) == []
  {
  }

  lemma OpenRoundIsExact(h: seq<Event>, a: nat, c: nat)
    requires Contiguous(h, 1) && a <= c <= |h|
    ensures OpenRound(OpenList(h[..a]), h[a..c])
         == if |OpenList(h[..c])| > MAX_OPEN then None else Some(OpenList(h[..c]))
  {
    hide OpenList, ApplyEvents, SetAll, SortBySequence;
    var p := h[..c];
    assert p[..a] == h[..a] && p[a..] == h[a..c];
    ReplayedOpenList(p, a, a);
  }

  // ---- Recovery ----

  /** No open event follows a terminal event of the same transaction. */
  ghost predicate OpensFirst(h: seq<Event>) {
    forall i, j :: 0 <= i < j < |h| && TerminalKind(h[i].kind) && NamesTxn(h[i]) && OpenKind(h[j].kind)
      ==> TxnOf(h[i]) != TxnOf(h[j])
  }

  /**
   * Recovery, given the snapshot at `c` and the journal retained from `a`,
   * terminates exactly the open transactions if and only if none of them has a
   * terminal event among the retained ones.
   */
  lemma RecoverTodoIff(h: seq<Event>, a: nat, c: nat)
    requires Contiguous(h, 1) && a <= c <= |h|
    ensures RecoverTodo(OpenList(h[..c]), h[a..]) == Without(OpenList(h), TerminalTxns(h[a..]))
    ensures RecoverTodo(OpenList(h[..c]), h[a..]) == OpenList(h)
       <==> forall i :: 0 <= i < |OpenList(h)| ==> OpenList(h)[i].key !in TerminalTxns(h[a..])
  {
    hide OpenList, Without, ApplyEvents, SetAll, Ascending, SortBySequence, TerminalTxns;
    ReplayedOpenList(h, a, c);
    var open, gone := OpenList(h), TerminalTxns(h[a..]);
    if forall i :: 0 <= i < |open| ==> open[i].key !in gone {
      WithoutIrrelevant(open, gone);
    }
    forall i | 0 <= i < |open| && open[i].key in gone ensures Without(open, gone) != open {
      WithoutMembers(open, gone, open[i]);
      assert open[i] in open;
    }
  }

  lemma {:induction false} WithoutIrrelevant<K, V>(rs: seq<Record<K, V>>, keys: set<K>)
    requires forall i :: 0 <= i < |rs| ==> rs[i].key !in keys
    ensures Without(rs, keys) == rs
  {
    if rs != [] { WithoutIrrelevant(rs[..|rs| - 1], keys); }
  }

  /** An open transaction of a well-ordered history has no terminal event anywhere in it. */
  lemma {:induction false} OpenHasNoTerminal(h: seq<Event>, t: Txn)
    requires OpensFirst(h) && t in OpenFrom(map[], h)
    ensures t !in TerminalTxns(h)
  {
    var n := |h| - 1;
    var e := h[n];
    assert OpensFirst(h[..n]);
    assert h == h[..n] + [e];
    if NamesTxn(e) && OpenKind(e.kind) && TxnOf(e) == t {
      forall x | x in h && TerminalKind(x.kind) && NamesTxn(x) ensures TxnOf(x) != t {
        var i :| 0 <= i < |h| && h[i] == x;
        assert i != n;
      }
    } else {
      OpenHasNoTerminal(h[..n], t);
      assert e in h;
    }
  }

  /** For well-ordered histories recovery finds every open transaction and nothing else. */
  lemma RecoveryIsComplete(h: seq<Event>, a: nat, c: nat)
    requires Contiguous(h, 1) && OpensFirst(h) && a <= c <= |h|
    ensures RecoverTodo(OpenList(h[..c]), h[a..]) == OpenList(h)
  {
    hide OpenList, RecoverTodo, OpensFirst;
    RecoverTodoIff(h, a, c);
    OpenListIsMap(h);
    LastMapKeyed(OpenList(h));
    forall i | 0 <= i < |OpenList(h)| ensures OpenList(h)[i].key !in TerminalTxns(h[a..]) {
      assert OpenList(h)[i] in OpenList(h);
      OpenHasNoTerminal(h, OpenList(h)[i].key);
      SuffixTerminals(h, a);
    }
  }

  lemma SuffixTerminals(h: seq<Event>, a: nat)
    requires a <= |h|
    ensures TerminalTxns(h[a..]) <= TerminalTxns(h)
  {
    forall e | e in h[a..] ensures e in h {}
  }

  /** The terminal events recovery appends, numbered from `next`. */
  function RecoveredEvents(todo: seq<OpenRecord>, next: nat): (evs: seq<Event>)
    ensures |evs| == |todo|
    ensures Contiguous(evs, next)
    ensures forall i :: 0 <= i < |todo| ==> evs[i].kind == Unknown && TxnOf(evs[i]) == todo[i].key
  {
    if todo == [] then []
    else RecoveredEvents(todo[..|todo| - 1], next)
         + [RecoveredEvent(todo[|todo| - 1], next + |todo| - 1)]
  }

  /** `recovered-nonterminal`, an unknown outcome; `detail` 0 stands for it. */
  function RecoveredEvent(o: OpenRecord, sequence: nat): Event {
    Event(sequence, Unknown, o.key.commandId, o.key.key, None, 0)
  }

  lemma {:induction false} TerminalsClose(m: OpenTxns, evs: seq<Event>)
    requires forall i :: 0 <= i < |evs| ==> TerminalKind(evs[i].kind) && NamesTxn(evs[i])
    ensures OpenFrom(m, evs) == m - TerminalTxns(evs)
  {
    if evs != [] {
      var rest, e := evs[..|evs| - 1], evs[|evs| - 1];
      TerminalsClose(m, rest);
      assert evs == rest + [e];
      assert TerminalTxns(evs) == TerminalTxns(rest) + {TxnOf(e)};
    }
  }

  lemma {:induction false} OpenNamesTxn(h: seq<Event>)
    ensures forall t :: t in OpenFrom(map[], h) ==> t.commandId != "" && t.key != ""
  {
    if h != [] { OpenNamesTxn(h[..|h| - 1]); }
  }

  ghost function OpenedTxns(evs: seq<Event>): set<Txn> {
    set e | e in evs && OpenKind(e.kind) && NamesTxn(e) :: TxnOf(e)
  }

  /** A transaction once opened is still open or has a terminal event. */
  lemma {:induction false} OpenedStaysAccountedFor(h: seq<Event>)
    ensures OpenedTxns(h) <= OpenFrom(map[], h).Keys + TerminalTxns(h)
  {
    if h != [] {
      var rest, e := h[..|h| - 1], h[|h| - 1];
      OpenedStaysAccountedFor(rest);
      assert h == rest + [e];
      assert OpenedTxns(h) <= OpenedTxns(rest) + (if OpenKind(e.kind) && NamesTxn(e) then {TxnOf(e)} else {});
      assert TerminalTxns(h) == TerminalTxns(rest) + (if TerminalKind(e.kind) && NamesTxn(e) then {TxnOf(e)} else {});
    }
  }

  /**
   * After recovery nothing is open: every transaction ever opened has a
   * terminal event, the history stays well ordered, and recovering again from
   * any later snapshot and any retained suffix appends nothing.
   */
  lemma RecoveryTerminatesAll(h: seq<Event>, a: nat, c: nat, a': nat, c': nat)
    requires Contiguous(h, 1) && OpensFirst(h) && a <= c <= |h|
    requires a' <= c' <= |h| + |OpenList(h)|
    ensures var h' := h + RecoveredEvents(RecoverTodo(OpenList(h[..c]), h[a..]), |h| + 1);
            && Contiguous(h', 1) && |h'| == |h| + |OpenList(h)|
            && OpenList(h') == [] && OpenedTxns(h') <= TerminalTxns(h')
            && OpensFirst(h')
            && RecoverTodo(OpenList(h'[..c']), h'[a'..]) == []
  {
    hide OpenList, RecoverTodo, LastMap, TerminalTxns, OpenedTxns;
    RecoveryIsComplete(h, a, c);
    var todo := OpenList(h);
    var evs := RecoveredEvents(todo, |h| + 1);
    var h' := h + evs;
    OpenListIsMap(h);
    LastMapKeyed(todo);
    OpenNamesTxn(h);
    forall i | 0 <= i < |evs| ensures NamesTxn(evs[i]) {
      assert todo[i] in todo;
    }
    OpenFromConcat(map[], h, evs);
    TerminalsClose(OpenFrom(map[], h), evs);
    assert OpenFrom(map[], h') == map[] by {
      forall t | t in OpenFrom(map[], h) ensures t in TerminalTxns(evs) {
        RecoveredClosesOpen(h, t);
      }
    }
    OpenedStaysAccountedFor(h');
    OpenListIsMap(h');
    LastMapKeyed(OpenList(h'));
    EmptyIfNoMember(OpenList(h'));
    OpensFirstExtends(h, evs);
    RecoveryIsComplete(h', a', c');
  }

  lemma RecoveredClosesOpen(h: seq<Event>, t: Txn)
    requires t in OpenFrom(map[], h)
    ensures t in TerminalTxns(RecoveredEvents(OpenList(h), |h| + 1))
  {
    hide OpenList, LastMap;
    OpenListIsMap(h);
    LastMapKeyed(OpenList(h));
    OpenNamesTxn(h);
    var r := LastMap(OpenList(h))[t];
    var i :| 0 <= i < |OpenList(h)| && OpenList(h)[i] == r;
    assert RecoveredEvents(OpenList(h), |h| + 1)[i] in RecoveredEvents(OpenList(h), |h| + 1);
  }

  lemma OpensFirstExtends(h: seq<Event>, evs: seq<Event>)
    requires OpensFirst(h) && forall i :: 0 <= i < |evs| ==> TerminalKind(evs[i].kind)
    ensures OpensFirst(h + evs)
  {
  }
}
