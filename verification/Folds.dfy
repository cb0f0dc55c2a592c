/**
 * The durable projections of the event history: latest receipt per action,
 * completed transactions and open transactions, each folded over successive
 * prefixes of the history and capped when a snapshot is written.
 */
module Folds {
  import opened ControlEvents
  import opened JsMap

  /** Bound on retained records (`MAX_COMMAND_RECORDS`). */
  const MAX_RECORDS: nat := 1000

  /** Bound on open transactions a snapshot may carry (`pendingCommands`). */
  const MAX_OPEN: nat := 256

  function LastN<T>(s: seq<T>, n: nat): seq<T> {
    if |s| <= n then s else s[|s| - n..]
  }

  // ---- Latest record per key ----

  function Without<K(==), V>(rs: seq<Record<K, V>>, keys: set<K>): seq<Record<K, V>> {
    if rs == [] then []
    else
      var rest := Without(rs[..|rs| - 1], keys);
      var last := rs[|rs| - 1];
      if last.key in keys then rest else rest + [last]
  }

  lemma {:induction false} WithoutMembers<K, V>(rs: seq<Record<K, V>>, keys: set<K>, x: Record<K, V>)
    ensures x in Without(rs, keys) <==> x in rs && x.key !in keys
  {
    if rs != [] {
      WithoutMembers(rs[..|rs| - 1], keys, x);
      assert rs == rs[..|rs| - 1] + [rs[|rs| - 1]];
    }
  }

  /** The reference projection: every record no later record of the same key replaces, in order. */
  function LatestPer<K(==), V>(rs: seq<Record<K, V>>): seq<Record<K, V>> {
    if rs == [] then []
    else Without(LatestPer(rs[..|rs| - 1]), {rs[|rs| - 1].key}) + [rs[|rs| - 1]]
  }

  ghost predicate LatestAt<K, V>(rs: seq<Record<K, V>>, i: nat) {
    i < |rs| && forall j :: i < j < |rs| ==> rs[j].key != rs[i].key
  }

  lemma LatestSnoc<K, V>(rs: seq<Record<K, V>>, x: Record<K, V>)
    requires rs != []
    ensures x in LatestPer(rs) <==>
            x == rs[|rs| - 1] || (x in LatestPer(rs[..|rs| - 1]) && x.key != rs[|rs| - 1].key)
  {
    hide Without;
    var before := LatestPer(rs[..|rs| - 1]);
    WithoutMembers(before, {rs[|rs| - 1].key}, x);
    var kept := Without(before, {rs[|rs| - 1].key});
    assert LatestPer(rs) == kept + [rs[|rs| - 1]];
  }

  lemma LatestAtSnoc<K, V>(rs: seq<Record<K, V>>, i: nat)
    requires i < |rs| - 1
    ensures LatestAt(rs, i) <==> LatestAt(rs[..|rs| - 1], i) && rs[i].key != rs[|rs| - 1].key
  {
    var rest := rs[..|rs| - 1];
    assert rest[i] == rs[i];
    forall j | i < j < |rest| ensures rest[j] == rs[j] {}
    if LatestAt(rest, i) && rs[i].key != rs[|rs| - 1].key {
      forall j | i < j < |rs| ensures rs[j].key != rs[i].key {
        if j < |rest| { assert rest[j].key != rest[i].key; }
      }
    }
  }

  /** `LatestPer` holds exactly the records that are the last of their key. */
  lemma {:induction false} LatestPerMeaning<K, V>(rs: seq<Record<K, V>>, x: Record<K, V>)
    ensures x in LatestPer(rs) <==> exists i: nat :: LatestAt(rs, i) && rs[i] == x
  {
    if rs != [] {
      hide LatestPer, LatestAt;
      var n := |rs| - 1;
      LatestPerMeaning(rs[..n], x);
      LatestSnoc(rs, x);
      forall i: nat | i < n ensures LatestAt(rs, i) <==> LatestAt(rs[..n], i) && rs[i].key != rs[n].key {
        LatestAtSnoc(rs, i);
      }
      LatestAtBounds(rs);
      LatestAtBounds(rs[..n]);
      assert LatestAt(rs, n);
    }
  }

  lemma LatestAtBounds<K, V>(rs: seq<Record<K, V>>)
    ensures forall i: nat :: LatestAt(rs, i) ==> i < |rs|
    ensures rs != [] ==> LatestAt(rs, |rs| - 1)
  {
  }

  function LastMap<K, V>(rs: seq<Record<K, V>>): map<K, Record<K, V>> {
    if rs == [] then map[] else LastMap(rs[..|rs| - 1])[rs[|rs| - 1].key := rs[|rs| - 1]]
  }

  lemma {:induction false} LatestPerIsLastMap<K, V>(rs: seq<Record<K, V>>)
    requires Ascending(rs)
    ensures Ascending(LatestPer(rs))
    ensures forall x :: x in LatestPer(rs) ==> x in rs
    ensures forall x :: x in LatestPer(rs) <==> x.key in LastMap(rs) && LastMap(rs)[x.key] == x
  {
    if rs != [] {
      var n := |rs| - 1;
      var before := LatestPer(rs[..n]);
      LatestPerIsLastMap(rs[..n]);
      assert rs == rs[..n] + [rs[n]];
      LatestAscendingSnoc(rs[..n], rs[n]);
      hide LatestPer, Ascending;
      var m := LastMap(rs[..n]);
      assert LastMap(rs) == m[rs[n].key := rs[n]];
      hide LastMap;
      forall x
        ensures x in LatestPer(rs) <==> x.key in LastMap(rs) && LastMap(rs)[x.key] == x
        ensures x in LatestPer(rs) ==> x in rs
      {
        LatestSnoc(rs, x);
        assert x in before ==> x in rs[..n] && x.key in m;
        assert x.key in m && m[x.key] == x ==> x in before;
      }
      assert Ascending(LatestPer(rs));
    }
  }

  lemma LatestAscendingSnoc<K, V>(rest: seq<Record<K, V>>, last: Record<K, V>)
    requires Ascending(rest + [last]) && Ascending(LatestPer(rest))
    requires forall x :: x in LatestPer(rest) ==> x in rest
    ensures Ascending(LatestPer(rest + [last]))
  {
    hide Without;
    LatestPerSnoc(rest + [last], rest, last);
    var before := LatestPer(rest);
    var kept := Without(before, {last.key});
    WithoutAscending(before, {last.key});
    forall i | 0 <= i < |kept| ensures kept[i].sequence < last.sequence {
      WithoutMembers(before, {last.key}, kept[i]);
      var j :| 0 <= j < |rest| && rest[j] == kept[i];
      assert (rest + [last])[j].sequence < (rest + [last])[|rest|].sequence;
    }
  }

  lemma {:induction false} WithoutAscending<K, V>(rs: seq<Record<K, V>>, keys: set<K>)
    requires Ascending(rs)
    ensures Ascending(Without(rs, keys))
  {
    if rs != [] {
      WithoutAscending(rs[..|rs| - 1], keys);
      var kept := Without(rs[..|rs| - 1], keys);
      forall i | 0 <= i < |kept| ensures kept[i].sequence < rs[|rs| - 1].sequence {
        WithoutMembers(rs[..|rs| - 1], keys, kept[i]);
      }
    }
  }

  lemma {:induction false} LastMapConcat<K, V>(a: seq<Record<K, V>>, b: seq<Record<K, V>>)
    ensures LastMap(a + b) == LastMap(a) + LastMap(b)
  {
    if b == [] {
      assert a + b == a;
    } else {
      assert (a + b)[..|a + b| - 1] == a + b[..|b| - 1];
      LastMapConcat(a, b[..|b| - 1]);
    }
  }

  lemma SameLastMap<K, V>(a: seq<Record<K, V>>, b: seq<Record<K, V>>)
    requires Ascending(a) && Ascending(b) && LastMap(a) == LastMap(b)
    ensures LatestPer(a) == LatestPer(b)
  {
    LatestPerIsLastMap(a);
    LatestPerIsLastMap(b);
    AscendingUnique(LatestPer(a), LatestPer(b));
  }

  lemma {:induction false} LastMapKeyed<K, V>(rs: seq<Record<K, V>>)
    ensures forall k :: k in LastMap(rs) ==> LastMap(rs)[k].key == k && LastMap(rs)[k] in rs
    ensures forall x :: x in rs ==> x.key in LastMap(rs)
  {
    if rs != [] {
      LastMapKeyed(rs[..|rs| - 1]);
      assert rs == rs[..|rs| - 1] + [rs[|rs| - 1]];
    }
  }

  lemma LastMapSnoc<K, V>(rest: seq<Record<K, V>>, last: Record<K, V>)
    ensures LastMap(rest + [last]) == LastMap(rest)[last.key := last]
  {
    assert (rest + [last])[..|rest|] == rest;
  }

  lemma UpdateThenRemove<K, W>(m: map<K, W>, keys: set<K>, k: K, w: W)
    ensures m[k := w] - keys == if k in keys then m - keys else (m - keys)[k := w]
  {
  }

  lemma {:induction false} LastMapWithout<K, V>(rs: seq<Record<K, V>>, keys: set<K>)
    ensures LastMap(Without(rs, keys)) == LastMap(rs) - keys
  {
    if rs != [] {
      var rest, last := rs[..|rs| - 1], rs[|rs| - 1];
      LastMapWithout(rest, keys);
      LastMapSnoc(Without(rest, keys), last);
      UpdateThenRemove(LastMap(rest), keys, last.key, last);
    }
  }

  /** Projecting twice is projecting once. */
  lemma {:induction false} LastMapOfLatest<K, V>(rs: seq<Record<K, V>>)
    ensures LastMap(LatestPer(rs)) == LastMap(rs)
  {
    if rs != [] {
      hide LatestPer, LastMap;
      var rest, last := rs[..|rs| - 1], rs[|rs| - 1];
      LastMapOfLatest(rest);
      LastMapOfLatestStep(rest, last);
      assert rs == rest + [last];
    }
  }

  lemma LastMapOfLatestStep<K, V>(rest: seq<Record<K, V>>, last: Record<K, V>)
    requires LastMap(LatestPer(rest)) == LastMap(rest)
    ensures LastMap(LatestPer(rest + [last])) == LastMap(rest + [last])
  {
    hide LatestPer, LastMap, Without;
    LatestPerSnoc(rest + [last], rest, last);
    LastMapWithout(LatestPer(rest), {last.key});
    LastMapSnoc(Without(LatestPer(rest), {last.key}), last);
    LastMapSnoc(rest, last);
  }

  // ---- The code: an ordered map set record by record, then sorted ----

  function SetAll<K(==), V>(m: JsMap<K, Record<K, V>>, rs: seq<Record<K, V>>): JsMap<K, Record<K, V>> {
    if rs == [] then m
    else Set(SetAll(m, rs[..|rs| - 1]), rs[|rs| - 1].key, rs[|rs| - 1])
  }

  /** What the code computes from a list of records: `[...map.values()].sort(bySequence)`. */
  function LatestSorted<K(==), V>(rs: seq<Record<K, V>>): seq<Record<K, V>> {
    SortBySequence(Values(SetAll([], rs)))
  }

  lemma {:induction false} SetAllIsLastMap<K, V>(rs: seq<Record<K, V>>)
    ensures Distinct(SetAll([], rs)) && ToMap(SetAll([], rs)) == LastMap(rs)
  {
    if rs != [] {
      SetAllIsLastMap(rs[..|rs| - 1]);
      SetIsUpdate(SetAll([], rs[..|rs| - 1]), rs[|rs| - 1].key, rs[|rs| - 1]);
    }
  }

  lemma AscendingInjective<K, V>(rs: seq<Record<K, V>>, x: Record<K, V>, y: Record<K, V>)
    requires Ascending(rs) && x in rs && y in rs && x != y
    ensures x.sequence != y.sequence
  {
    var i :| 0 <= i < |rs| && rs[i] == x;
    var j :| 0 <= j < |rs| && rs[j] == y;
  }

  lemma KeyedValues<K, V>(m: JsMap<K, Record<K, V>>)
    requires Distinct(m)
    requires forall k :: k in ToMap(m) ==> ToMap(m)[k].key == k
    ensures forall i :: 0 <= i < |m| ==>
      var v := Values(m)[i]; v.key == m[i].0 && v.key in ToMap(m) && ToMap(m)[v.key] == v
    ensures forall k :: k in ToMap(m) ==> ToMap(m)[k] in Values(m)
  {
    ToMapKeys(m);
    DistinctAt(m);
    hide ToMap, Values, Distinct;
    forall k | k in ToMap(m) ensures ToMap(m)[k] in Values(m) {
      var i :| 0 <= i < |m| && m[i] == (k, ToMap(m)[k]);
      assert Values(m)[i] == ToMap(m)[k];
    }
  }

  /** Elements of an ordered map of records filed under their own keys, sorted. */
  lemma SortedValuesUnique<K, V>(m: JsMap<K, Record<K, V>>, out: seq<Record<K, V>>)
    requires Distinct(m) && Ascending(out)
    requires forall x :: x in out <==> x.key in ToMap(m) && ToMap(m)[x.key] == x
    requires forall k :: k in ToMap(m) ==> ToMap(m)[k].key == k
    ensures SortBySequence(Values(m)) == out
  {
    hide ToMap, Values, Ascending, SortBySequence;
    var vs := Values(m);
    KeyedValues(m);
    DistinctAt(m);
    forall i, j | 0 <= i < j < |vs| ensures vs[i].sequence != vs[j].sequence {
      assert vs[i].key != vs[j].key;
      AscendingInjective(out, vs[i], vs[j]);
    }
    SortDistinct(vs, out);
  }

  /** The code's ordered map and sort compute the reference projection. */
  lemma LatestSortedIsLatestPer<K, V>(rs: seq<Record<K, V>>)
    requires Ascending(rs)
    ensures LatestSorted(rs) == LatestPer(rs)
  {
    SetAllIsLastMap(rs);
    LatestPerIsLastMap(rs);
    LastMapKeyed(rs);
    SortedValuesUnique(SetAll([], rs), LatestPer(rs));
  }

  // ---- Folding round by round ----

  /** Replacing a suffix by its projection changes nothing. */
  lemma LatestOfSuffix<K, V>(a: seq<Record<K, V>>, b: seq<Record<K, V>>)
    requires Ascending(a + b)
    ensures Ascending(b) && Ascending(a + LatestPer(b))
    ensures LatestPer(a + LatestPer(b)) == LatestPer(a + b)
  {
    AscendingParts(a, b);
    LatestPerIsLastMap(b);
    LastMapOfLatest(b);
    LastMapConcat(a, b);
    LastMapConcat(a, LatestPer(b));
    AscendingJoin(a, a, LatestPer(b), b);
    SameLastMap(a + LatestPer(b), a + b);
  }

  lemma AscendingParts<K, V>(a: seq<Record<K, V>>, b: seq<Record<K, V>>)
    requires Ascending(a + b)
    ensures Ascending(a) && Ascending(b)
    ensures forall x, y :: x in a && y in b ==> x.sequence < y.sequence
  {
    var c := a + b;
    assert forall i :: 0 <= i < |a| ==> c[i] == a[i];
    assert forall i :: 0 <= i < |b| ==> c[|a| + i] == b[i];
    forall i, j | 0 <= i < j < |b| ensures b[i].sequence < b[j].sequence {
      assert c[|a| + i].sequence < c[|a| + j].sequence;
    }
    forall x, y | x in a && y in b ensures x.sequence < y.sequence {
      var i :| 0 <= i < |a| && a[i] == x;
      var j :| 0 <= j < |b| && b[j] == y;
      assert c[i].sequence < c[|a| + j].sequence;
    }
  }

  /** Sublists of ascending halves are ascending when put together. */
  lemma AscendingJoin<K, V>(a': seq<Record<K, V>>, a: seq<Record<K, V>>, b': seq<Record<K, V>>, b: seq<Record<K, V>>)
    requires Ascending(a + b) && Ascending(a') && Ascending(b')
    requires forall x :: x in a' ==> x in a
    requires forall x :: x in b' ==> x in b
    ensures Ascending(a' + b')
  {
    AscendingParts(a, b);
    forall i, j | 0 <= i < j < |a' + b'| ensures (a' + b')[i].sequence < (a' + b')[j].sequence {
      if i < |a'| <= j {
        assert a'[i] in a && b'[j - |a'|] in b;
      }
    }
  }

  ghost function KeySet<K, V>(rs: seq<Record<K, V>>): set<K> {
    set r | r in rs :: r.key
  }

  lemma LatestSplitsStep<K, V>(a: seq<Record<K, V>>, rest: seq<Record<K, V>>, last: Record<K, V>)
    requires LatestPer(a + rest) == Without(LatestPer(a), KeySet(rest)) + LatestPer(rest)
    ensures LatestPer(a + (rest + [last]))
         == Without(LatestPer(a), KeySet(rest) + {last.key}) + LatestPer(rest + [last])
  {
    hide LatestPer, Without, KeySet;
    var keys := {last.key};
    var kept := Without(LatestPer(a), KeySet(rest));
    LatestPerSnoc(a + (rest + [last]), a + rest, last);
    LatestPerSnoc(rest + [last], rest, last);
    WithoutConcat(kept, LatestPer(rest), keys);
    WithoutTwice(LatestPer(a), KeySet(rest), keys);
    assert Without(kept, keys) + Without(LatestPer(rest), keys) + [last]
        == Without(kept, keys) + (Without(LatestPer(rest), keys) + [last]);
  }

  /** A later batch removes the keys it re-records and appends its own projection. */
  lemma {:induction false} LatestSplits<K, V>(a: seq<Record<K, V>>, b: seq<Record<K, V>>)
    ensures LatestPer(a + b) == Without(LatestPer(a), KeySet(b)) + LatestPer(b)
  {
    hide Without;
    if b == [] {
      assert a + b == a;
      assert KeySet<K, V>([]) == {} && LatestPer<K, V>([]) == [];
      WithoutNothing(LatestPer(a));
    } else {
      hide LatestPer, KeySet;
      var rest, last := b[..|b| - 1], b[|b| - 1];
      LatestSplits(a, rest);
      LatestSplitsStep(a, rest, last);
      KeySetSnoc(b);
      assert rest + [last] == b;
    }
  }

  lemma LatestPerSnoc<K, V>(rs: seq<Record<K, V>>, rest: seq<Record<K, V>>, last: Record<K, V>)
    requires rs == rest + [last]
    ensures LatestPer(rs) == Without(LatestPer(rest), {last.key}) + [last]
  {
    assert rs[..|rs| - 1] == rest;
  }

  lemma KeySetSnoc<K, V>(rs: seq<Record<K, V>>)
    requires rs != []
    ensures KeySet(rs) == KeySet(rs[..|rs| - 1]) + {rs[|rs| - 1].key}
  {
    assert rs == rs[..|rs| - 1] + [rs[|rs| - 1]];
  }

  lemma {:induction false} WithoutNothing<K, V>(rs: seq<Record<K, V>>)
    ensures Without(rs, {}) == rs
  {
    if rs != [] { WithoutNothing(rs[..|rs| - 1]); }
  }

  lemma {:induction false} WithoutConcat<K, V>(a: seq<Record<K, V>>, b: seq<Record<K, V>>, keys: set<K>)
    ensures Without(a + b, keys) == Without(a, keys) + Without(b, keys)
  {
    if b == [] {
      assert a + b == a;
    } else {
      assert (a + b)[..|a + b| - 1] == a + b[..|b| - 1];
      WithoutConcat(a, b[..|b| - 1], keys);
    }
  }

  lemma {:induction false} WithoutTwice<K, V>(rs: seq<Record<K, V>>, k1: set<K>, k2: set<K>)
    ensures Without(Without(rs, k1), k2) == Without(rs, k1 + k2)
  {
    if rs != [] {
      var rest := rs[..|rs| - 1];
      WithoutTwice(rest, k1, k2);
      if rs[|rs| - 1].key !in k1 {
        WithoutConcat(Without(rest, k1), [rs[|rs| - 1]], k2);
      }
    }
  }

  predicate DistinctKeys<K(==), V>(rs: seq<Record<K, V>>) {
    forall i, j :: 0 <= i < j < |rs| ==> rs[i].key != rs[j].key
  }

  /** Removing a set of keys from records with distinct keys removes at most that many. */
  lemma {:induction false} WithoutRemovesFew<K, V>(rs: seq<Record<K, V>>, keys: set<K>)
    requires DistinctKeys(rs)
    ensures |Without(rs, keys)| + |keys| >= |rs|
  {
    if rs != [] {
      var rest, last := rs[..|rs| - 1], rs[|rs| - 1];
      if last.key in keys {
        WithoutRemovesFew(rest, keys - {last.key});
        assert Without(rest, keys) == Without(rest, keys - {last.key}) by {
          WithoutAbsent(rest, keys - {last.key}, last.key);
          assert keys - {last.key} + {last.key} == keys;
        }
      } else {
        WithoutRemovesFew(rest, keys);
      }
    }
  }

  lemma {:induction false} WithoutAbsent<K, V>(rs: seq<Record<K, V>>, keys: set<K>, k: K)
    requires forall i :: 0 <= i < |rs| ==> rs[i].key != k
    ensures Without(rs, keys + {k}) == Without(rs, keys)
  {
    if rs != [] { WithoutAbsent(rs[..|rs| - 1], keys, k); }
  }

  lemma {:induction false} KeySetSize<K, V>(rs: seq<Record<K, V>>)
    ensures |KeySet(rs)| <= |rs|
  {
    if rs != [] {
      KeySetSize(rs[..|rs| - 1]);
      KeySetSnoc(rs);
    }
  }

  lemma LatestKeys<K, V>(rs: seq<Record<K, V>>)
    requires Ascending(rs)
    ensures KeySet(LatestPer(rs)) == KeySet(rs) && DistinctKeys(LatestPer(rs))
  {
    LatestPerIsLastMap(rs);
    LastMapKeyed(rs);
    var p := LatestPer(rs);
    forall k | k in KeySet(rs) ensures k in KeySet(p) {
      assert LastMap(rs)[k] in p;
    }
    forall i, j | 0 <= i < j < |p| ensures p[i].key != p[j].key {
      assert p[i] in p && p[j] in p && p[i] != p[j];
    }
  }

  /**
   * Capping before folding on is harmless: a record pushed out of the cap is
   * older than as many records of other keys, and none of those keys can
   * disappear from the projection later.
   */
  lemma CapIsExact<K, V>(a: seq<Record<K, V>>, b: seq<Record<K, V>>, n: nat)
    requires Ascending(a + b)
    ensures LastN(LatestPer(LastN(LatestPer(a), n) + b), n) == LastN(LatestPer(a + b), n)
  {
    hide LatestPer, Without, KeySet, Ascending;
    AscendingParts(a, b);
    var p := LatestPer(a);
    LatestKeys(a);
    LatestKeys(b);
    var c := LastN(p, n);
    var d := p[..|p| - |c|];
    assert p == d + c;
    LatestSplits(a, b);
    LatestSplits(c, b);
    LatestPerOfDistinct(c);
    WithoutConcat(d, c, KeySet(b));
    WithoutRemovesFew(c, KeySet(b));
    KeySetSize(LatestPer(b));
    if |p| > n {
      var tail := Without(c, KeySet(b)) + LatestPer(b);
      assert |tail| >= n;
      assert LatestPer(a + b) == Without(d, KeySet(b)) + tail;
    }
  }

  lemma {:induction false} LatestPerOfDistinct<K, V>(rs: seq<Record<K, V>>)
    requires DistinctKeys(rs)
    ensures LatestPer(rs) == rs
  {
    if rs != [] {
      var rest, last := rs[..|rs| - 1], rs[|rs| - 1];
      LatestPerOfDistinct(rest);
      WithoutAbsent(rest, {}, last.key);
      assert {} + {last.key} == {last.key};
      WithoutNothing(rest);
    }
  }

  // ---- Receipts, completed transactions, open transactions ----

  datatype ReceiptInfo = ReceiptInfo(txn: Txn, receipt: Receipt)

  type ReceiptRecord = Record<string, ReceiptInfo>
  type CompletedRecord = Record<Txn, ()>
  type OpenRecord = Record<Txn, Kind>

  predicate CarriesReceipt(e: Event) {
    TerminalKind(e.kind) && e.receipt.Some? && NamesTxn(e)
  }

  function ReceiptOf(e: Event): ReceiptRecord
    requires CarriesReceipt(e)
  {
    Record(e.sequence, e.receipt.value.actionId, ReceiptInfo(TxnOf(e), e.receipt.value))
  }

  /** Every receipt a history recorded, in order. */
  function ReceiptRecords(evs: seq<Event>): seq<ReceiptRecord> {
    if evs == [] then []
    else
      var e := evs[|evs| - 1];
      ReceiptRecords(evs[..|evs| - 1]) + (if CarriesReceipt(e) then [ReceiptOf(e)] else [])
  }

  /** Every completion a history recorded, in order. */
  function CompletedRecords(evs: seq<Event>): seq<CompletedRecord> {
    if evs == [] then []
    else
      var e := evs[|evs| - 1];
      CompletedRecords(evs[..|evs| - 1])
        + (if TerminalKind(e.kind) && NamesTxn(e) then [Record(e.sequence, TxnOf(e), ())] else [])
  }

  method LatestDurableReceiptRecords(events: seq<Event>) returns (r: seq<ReceiptRecord>)
    ensures r == LatestSorted(ReceiptRecords(events))
  {
    var latest: JsMap<string, ReceiptRecord> := [];
    for i := 0 to |events|
      invariant latest == SetAll([], ReceiptRecords(events[..i]))
    {
      assert events[..i + 1][..i] == events[..i];
      if CarriesReceipt(events[i]) {
        var record := ReceiptOf(events[i]);
        SetAllSnoc([], ReceiptRecords(events[..i]), record);
        latest := Set(latest, record.key, record);
      } else {
        assert ReceiptRecords(events[..i]) + [] == ReceiptRecords(events[..i]);
      }
    }
    assert events[..|events|] == events;
    r := SortBySequence(Values(latest));
  }

  lemma SetAllSnoc<K, V>(m: JsMap<K, Record<K, V>>, rs: seq<Record<K, V>>, r: Record<K, V>)
    ensures SetAll(m, rs + [r]) == Set(SetAll(m, rs), r.key, r)
  {
    assert (rs + [r])[..|rs|] == rs;
  }

  lemma {:induction false} SetAllConcat<K, V>(m: JsMap<K, Record<K, V>>, a: seq<Record<K, V>>, b: seq<Record<K, V>>)
    ensures SetAll(m, a + b) == SetAll(SetAll(m, a), b)
  {
    if b == [] {
      assert a + b == a;
    } else {
      assert (a + b)[..|a + b| - 1] == a + b[..|b| - 1];
      SetAllConcat(m, a, b[..|b| - 1]);
    }
  }

  /** Latest-wins union of the records a snapshot kept and those of the journal tail. */
  method MergeDurableReceiptRecords(restored: seq<ReceiptRecord>, replayed: seq<ReceiptRecord>)
    returns (r: seq<ReceiptRecord>)
    ensures r == LatestSorted(restored + replayed)
  {
    var latest: JsMap<string, ReceiptRecord> := [];
    for i := 0 to |restored|
      invariant latest == SetAll([], restored[..i])
    {
      assert restored[..i + 1][..i] == restored[..i];
      latest := Set(latest, restored[i].key, restored[i]);
    }
    assert restored[..|restored|] == restored;
    for i := 0 to |replayed|
      invariant latest == SetAll(SetAll([], restored), replayed[..i])
    {
      assert replayed[..i + 1][..i] == replayed[..i];
      latest := Set(latest, replayed[i].key, replayed[i]);
    }
    assert replayed[..|replayed|] == replayed;
    SetAllConcat([], restored, replayed);
    r := SortBySequence(Values(latest));
  }

  method DurableCompletedTransactions(restored: seq<CompletedRecord>, events: seq<Event>)
    returns (r: seq<CompletedRecord>)
    ensures r == LastN(LatestSorted(restored + CompletedRecords(events)), MAX_RECORDS)
  {
    var completed: JsMap<Txn, CompletedRecord> := [];
    for i := 0 to |restored|
      invariant completed == SetAll([], restored[..i])
    {
      assert restored[..i + 1][..i] == restored[..i];
      completed := Set(completed, restored[i].key, restored[i]);
    }
    assert restored[..|restored|] == restored;
    for i := 0 to |events|
      invariant completed == SetAll(SetAll([], restored), CompletedRecords(events[..i]))
    {
      assert events[..i + 1][..i] == events[..i];
      var e := events[i];
      if TerminalKind(e.kind) && NamesTxn(e) {
        var record: CompletedRecord := Record(e.sequence, TxnOf(e), ());
        SetAllSnoc(SetAll([], restored), CompletedRecords(events[..i]), record);
        completed := Set(completed, record.key, record);
      } else {
        assert CompletedRecords(events[..i]) + [] == CompletedRecords(events[..i]);
      }
    }
    assert events[..|events|] == events;
    SetAllConcat([], restored, CompletedRecords(events));
    r := LastN(SortBySequence(Values(completed)), MAX_RECORDS);
  }

  // ---- Snapshots over successive prefixes of a history ----

  lemma {:induction false} ReceiptRecordsAscend(h: seq<Event>)
    requires Contiguous(h, 1)
    ensures Ascending(ReceiptRecords(h))
    ensures forall x :: x in ReceiptRecords(h) ==> x.sequence <= |h|
  {
    if h != [] {
      ReceiptRecordsAscend(h[..|h| - 1]);
      var rest := ReceiptRecords(h[..|h| - 1]);
      forall i | 0 <= i < |rest| ensures rest[i].sequence < |h| {
        assert rest[i] in rest;
      }
    }
  }

  lemma {:induction false} ReceiptRecordsConcat(a: seq<Event>, b: seq<Event>)
    ensures ReceiptRecords(a + b) == ReceiptRecords(a) + ReceiptRecords(b)
  {
    if b == [] {
      assert a + b == a;
    } else {
      assert (a + b)[..|a + b| - 1] == a + b[..|b| - 1];
      ReceiptRecordsConcat(a, b[..|b| - 1]);
    }
  }

  lemma {:induction false} CompletedRecordsAscend(h: seq<Event>)
    requires Contiguous(h, 1)
    ensures Ascending(CompletedRecords(h))
    ensures forall x :: x in CompletedRecords(h) ==> x.sequence <= |h|
  {
    if h != [] {
      CompletedRecordsAscend(h[..|h| - 1]);
      var rest := CompletedRecords(h[..|h| - 1]);
      forall i | 0 <= i < |rest| ensures rest[i].sequence < |h| {
        assert rest[i] in rest;
      }
    }
  }

  lemma {:induction false} CompletedRecordsConcat(a: seq<Event>, b: seq<Event>)
    ensures CompletedRecords(a + b) == CompletedRecords(a) + CompletedRecords(b)
  {
    if b == [] {
      assert a + b == a;
    } else {
      assert (a + b)[..|a + b| - 1] == a + b[..|b| - 1];
      CompletedRecordsConcat(a, b[..|b| - 1]);
    }
  }

  /** One compaction round over the receipts recorded since the previous snapshot. */
  function ReceiptRound(previous: seq<ReceiptRecord>, events: seq<Event>): seq<ReceiptRecord> {
    LastN(LatestSorted(previous + LatestSorted(ReceiptRecords(events))), MAX_RECORDS)
  }

  function CompletedRound(previous: seq<CompletedRecord>, events: seq<Event>): seq<CompletedRecord> {
    LastN(LatestSorted(previous + CompletedRecords(events)), MAX_RECORDS)
  }

  /** Covered sequences of successive snapshots: they never go back. */
  predicate Cuts(cuts: seq<nat>, length: nat) {
    && (forall i :: 0 <= i < |cuts| ==> cuts[i] <= length)
    && (forall i :: 0 < i < |cuts| ==> cuts[i - 1] <= cuts[i])
  }

  function Covered(cuts: seq<nat>): nat {
    if cuts == [] then 0 else cuts[|cuts| - 1]
  }

  function ReceiptSnapshot(h: seq<Event>, cuts: seq<nat>): seq<ReceiptRecord>
    requires Cuts(cuts, |h|)
  {
    if cuts == [] then []
    else
      var before := cuts[..|cuts| - 1];
      ReceiptRound(ReceiptSnapshot(h, before), h[Covered(before)..Covered(cuts)])
  }

  function CompletedSnapshot(h: seq<Event>, cuts: seq<nat>): seq<CompletedRecord>
    requires Cuts(cuts, |h|)
  {
    if cuts == [] then []
    else
      var before := cuts[..|cuts| - 1];
      CompletedRound(CompletedSnapshot(h, before), h[Covered(before)..Covered(cuts)])
  }

  /** Folding one more batch onto a capped projection is projecting the longer history. */
  lemma RoundIsExact<K, V>(before: seq<Record<K, V>>, batch: seq<Record<K, V>>, n: nat)
    requires Ascending(before + batch)
    ensures var capped := LastN(LatestPer(before), n);
            && LastN(LatestSorted(capped + batch), n) == LastN(LatestPer(before + batch), n)
            && LastN(LatestSorted(capped + LatestSorted(batch)), n) == LastN(LatestPer(before + batch), n)
  {
    hide LatestPer, LatestSorted, Ascending;
    var capped := LastN(LatestPer(before), n);
    CapIsExact(before, batch, n);
    AscendingParts(before, batch);
    LatestPerIsLastMap(before);
    LastNAscending(LatestPer(before), n);
    AscendingJoin(capped, before, batch, batch);
    LatestSortedIsLatestPer(capped + batch);
    LatestSortedIsLatestPer(batch);
    LatestOfSuffix(capped, batch);
    LatestSortedIsLatestPer(capped + LatestPer(batch));
  }

  lemma LastNAscending<K, V>(rs: seq<Record<K, V>>, n: nat)
    requires Ascending(rs)
    ensures Ascending(LastN(rs, n)) && forall x :: x in LastN(rs, n) ==> x in rs
  {
  }

  lemma HistoryParts(h: seq<Event>, a: nat, b: nat)
    requires Contiguous(h, 1) && a <= b <= |h|
    ensures h[..b] == h[..a] + h[a..b] && Contiguous(h[..b], 1)
  {
  }

  /**
   * However many compaction rounds there were, the receipts a snapshot holds
   * are the last thousand of the latest-per-action projection of the whole
   * history up to its covered sequence.
   */
  lemma {:induction false} ReceiptSnapshotIsExact(h: seq<Event>, cuts: seq<nat>)
    requires Contiguous(h, 1) && Cuts(cuts, |h|)
    ensures ReceiptSnapshot(h, cuts) == LastN(LatestPer(ReceiptRecords(h[..Covered(cuts)])), MAX_RECORDS)
  {
    if cuts != [] {
      hide LatestPer, LatestSorted, Ascending, ReceiptRecords;
      var before := cuts[..|cuts| - 1];
      ReceiptSnapshotIsExact(h, before);
      HistoryParts(h, Covered(before), Covered(cuts));
      ReceiptRecordsConcat(h[..Covered(before)], h[Covered(before)..Covered(cuts)]);
      ReceiptRecordsAscend(h[..Covered(cuts)]);
      RoundIsExact(ReceiptRecords(h[..Covered(before)]), ReceiptRecords(h[Covered(before)..Covered(cuts)]),
                   MAX_RECORDS);
    }
  }

  /** What a restart restores from snapshot and journal tail is what the uncompacted history gives. */
  lemma RestoredReceiptsAreExact(h: seq<Event>, cuts: seq<nat>)
    requires Contiguous(h, 1) && Cuts(cuts, |h|)
    ensures LastN(LatestSorted(ReceiptSnapshot(h, cuts) + LatestSorted(ReceiptRecords(h[Covered(cuts)..]))),
                  MAX_RECORDS)
         == LastN(LatestPer(ReceiptRecords(h)), MAX_RECORDS)
  {
    hide LatestPer, LatestSorted, Ascending, ReceiptRecords;
    ReceiptSnapshotIsExact(h, cuts);
    HistoryParts(h, Covered(cuts), |h|);
    assert h[..|h|] == h && h[Covered(cuts)..|h|] == h[Covered(cuts)..];
    ReceiptRecordsConcat(h[..Covered(cuts)], h[Covered(cuts)..]);
    ReceiptRecordsAscend(h);
    RoundIsExact(ReceiptRecords(h[..Covered(cuts)]), ReceiptRecords(h[Covered(cuts)..]), MAX_RECORDS);
  }

  lemma {:induction false} CompletedSnapshotIsExact(h: seq<Event>, cuts: seq<nat>)
    requires Contiguous(h, 1) && Cuts(cuts, |h|)
    ensures CompletedSnapshot(h, cuts) == LastN(LatestPer(CompletedRecords(h[..Covered(cuts)])), MAX_RECORDS)
  {
    if cuts != [] {
      hide LatestPer, LatestSorted, Ascending, CompletedRecords;
      var before := cuts[..|cuts| - 1];
      CompletedSnapshotIsExact(h, before);
      HistoryParts(h, Covered(before), Covered(cuts));
      CompletedRecordsConcat(h[..Covered(before)], h[Covered(before)..Covered(cuts)]);
      CompletedRecordsAscend(h[..Covered(cuts)]);
      RoundIsExact(CompletedRecords(h[..Covered(before)]), CompletedRecords(h[Covered(before)..Covered(cuts)]),
                   MAX_RECORDS);
    }
  }

  // ---- The receipt cache a restart fills ----

  /** `rememberReceipt`: the newest entry goes last, the oldest falls out of a full cache. */
  function Remember(cache: JsMap<string, ReceiptRecord>, r: ReceiptRecord): JsMap<string, ReceiptRecord> {
    LastN(Delete(cache, r.key) + [(r.key, r)], MAX_RECORDS)
  }

  function RememberAll(rs: seq<ReceiptRecord>): JsMap<string, ReceiptRecord> {
    if rs == [] then [] else Remember(RememberAll(rs[..|rs| - 1]), rs[|rs| - 1])
  }

  lemma {:induction false} DeleteAbsent<K, V>(m: JsMap<K, V>, k: K)
    requires forall i :: 0 <= i < |m| ==> m[i].0 != k
    ensures Delete(m, k) == m
  {
    if m != [] {
      DeleteAbsent(m[1..], k);
    }
  }

  lemma ValuesOf<K, V>(m: JsMap<K, V>, vs: seq<V>)
    requires |vs| == |m| && forall i :: 0 <= i < |m| ==> m[i].1 == vs[i]
    ensures Values(m) == vs
  {
    hide Values;
    assert forall i :: 0 <= i < |vs| ==> Values(m)[i] == vs[i];
  }

  function Filed(rs: seq<ReceiptRecord>): JsMap<string, ReceiptRecord> {
    seq(|rs|, i requires 0 <= i < |rs| => (rs[i].key, rs[i]))
  }

  lemma FiledSnocCapped(rs: seq<ReceiptRecord>, r: ReceiptRecord, n: nat)
    ensures LastN(Filed(rs) + [(r.key, r)], n) == Filed(LastN(rs + [r], n))
  {
  }

  lemma LastNSnoc<T>(s: seq<T>, x: T, n: nat)
    requires n > 0
    ensures LastN(LastN(s, n) + [x], n) == LastN(s + [x], n)
  {
  }

  lemma {:induction false} RememberAllFiles(rs: seq<ReceiptRecord>)
    requires DistinctKeys(rs)
    ensures RememberAll(rs) == Filed(LastN(rs, MAX_RECORDS))
  {
    if rs != [] {
      hide Delete, Filed, LastN;
      var rest, last := rs[..|rs| - 1], rs[|rs| - 1];
      RememberAllFiles(rest);
      FiledKeys(rest, last.key, MAX_RECORDS);
      DeleteAbsent(RememberAll(rest), last.key);
      FiledSnocCapped(LastN(rest, MAX_RECORDS), last, MAX_RECORDS);
      LastNSnoc(rest, last, MAX_RECORDS);
      assert rs == rest + [last];
    }
  }

  lemma FiledKeys(rs: seq<ReceiptRecord>, k: string, n: nat)
    requires forall i :: 0 <= i < |rs| ==> rs[i].key != k
    ensures var m := Filed(LastN(rs, n)); forall i :: 0 <= i < |m| ==> m[i].0 != k
  {
  }

  /** Replaying records of distinct actions leaves exactly the last thousand of them. */
  lemma RehydrateIsCap(rs: seq<ReceiptRecord>)
    requires DistinctKeys(rs)
    ensures Values(RememberAll(rs)) == LastN(rs, MAX_RECORDS)
  {
    hide Values, RememberAll;
    RememberAllFiles(rs);
    ValuesOf(RememberAll(rs), LastN(rs, MAX_RECORDS));
  }

  /** The receipt cache after a restart: the last thousand of the uncompacted projection. */
  lemma RestartedCacheIsExact(h: seq<Event>, cuts: seq<nat>)
    requires Contiguous(h, 1) && Cuts(cuts, |h|)
    ensures var durable := LatestSorted(ReceiptSnapshot(h, cuts) + LatestSorted(ReceiptRecords(h[Covered(cuts)..])));
            Values(RememberAll(durable)) == LastN(LatestPer(ReceiptRecords(h)), MAX_RECORDS)
  {
    hide LatestPer, LatestSorted, ReceiptRecords, RememberAll, Values, ReceiptSnapshot;
    RestoredReceiptsAreExact(h, cuts);
    var tail := ReceiptRecords(h[Covered(cuts)..]);
    RestoredDistinct(h, cuts);
    RehydrateIsCap(LatestSorted(ReceiptSnapshot(h, cuts) + LatestSorted(tail)));
  }

  lemma RestoredDistinct(h: seq<Event>, cuts: seq<nat>)
    requires Contiguous(h, 1) && Cuts(cuts, |h|)
    ensures DistinctKeys(LatestSorted(ReceiptSnapshot(h, cuts) + LatestSorted(ReceiptRecords(h[Covered(cuts)..]))))
  {
    hide LatestPer, LatestSorted, ReceiptRecords, Ascending, ReceiptSnapshot;
    var head, tail := ReceiptRecords(h[..Covered(cuts)]), ReceiptRecords(h[Covered(cuts)..]);
    ReceiptSnapshotIsExact(h, cuts);
    HistoryParts(h, Covered(cuts), |h|);
    assert h[..|h|] == h && h[Covered(cuts)..|h|] == h[Covered(cuts)..];
    ReceiptRecordsConcat(h[..Covered(cuts)], h[Covered(cuts)..]);
    ReceiptRecordsAscend(h);
    AscendingParts(head, tail);
    LatestPerIsLastMap(head);
    LatestPerIsLastMap(tail);
    LastNAscending(LatestPer(head), MAX_RECORDS);
    var capped := LastN(LatestPer(head), MAX_RECORDS);
    AscendingJoin(capped, head, LatestPer(tail), tail);
    LatestSortedIsLatestPer(tail);
    LatestSortedIsLatestPer(capped + LatestPer(tail));
    LatestKeys(capped + LatestPer(tail));
  }
}
