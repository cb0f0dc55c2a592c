/**
 * JavaScript's insertion-ordered `Map`, and sorting its values by sequence.
 * Setting a present key keeps its place; a new key goes last.
 */
module JsMap {
  import opened ControlEvents

  type JsMap<K, V> = seq<(K, V)>

  function Set<K(==), V>(m: JsMap<K, V>, k: K, v: V): JsMap<K, V> {
    if m == [] then [(k, v)]
    else if m[0].0 == k then [(k, v)] + m[1..]
    else [m[0]] + Set(m[1..], k, v)
  }

  function Delete<K(==), V>(m: JsMap<K, V>, k: K): JsMap<K, V> {
    if m == [] then []
    else if m[0].0 == k then m[1..]
    else [m[0]] + Delete(m[1..], k)
  }

  function Values<K, V>(m: JsMap<K, V>): (vs: seq<V>)
    ensures |vs| == |m|
    ensures forall i :: 0 <= i < |m| ==> vs[i] == m[i].1
  {
    if m == [] then [] else [m[0].1] + Values(m[1..])
  }

  /** The mapping an ordered map stands for. */
  function ToMap<K, V>(m: JsMap<K, V>): map<K, V> {
    if m == [] then map[] else ToMap(m[1..])[m[0].0 := m[0].1]
  }

  /** No key occurs twice. */
  predicate Distinct<K(==), V>(m: JsMap<K, V>) {
    m == [] || (m[0].0 !in ToMap(m[1..]) && Distinct(m[1..]))
  }

  lemma {:induction false} ToMapKeys<K, V>(m: JsMap<K, V>)
    ensures forall i :: 0 <= i < |m| ==> m[i].0 in ToMap(m)
    ensures forall k :: k in ToMap(m) ==> exists i :: 0 <= i < |m| && m[i] == (k, ToMap(m)[k])
  {
    if m != [] {
      ToMapKeys(m[1..]);
      var rest := ToMap(m[1..]);
      forall k | k in ToMap(m) ensures exists i :: 0 <= i < |m| && m[i] == (k, ToMap(m)[k]) {
        if k == m[0].0 {
          assert m[0] == (k, ToMap(m)[k]);
        } else {
          var i :| 0 <= i < |m[1..]| && m[1..][i] == (k, rest[k]);
          assert m[i + 1] == (k, ToMap(m)[k]);
        }
      }
      forall i | 0 <= i < |m| ensures m[i].0 in ToMap(m) {
        if i > 0 { assert m[i] == m[1..][i - 1]; }
      }
    }
  }

  lemma {:induction false} DistinctAt<K, V>(m: JsMap<K, V>)
    requires Distinct(m)
    ensures forall i :: 0 <= i < |m| ==> m[i].0 in ToMap(m) && ToMap(m)[m[i].0] == m[i].1
    ensures forall i, j :: 0 <= i < j < |m| ==> m[i].0 != m[j].0
  {
    if m != [] {
      var rest := m[1..];
      DistinctAt(rest);
      assert forall i :: 0 < i < |m| ==> m[i] == rest[i - 1];
    }
  }

  lemma {:induction false} SetIsUpdate<K, V>(m: JsMap<K, V>, k: K, v: V)
    requires Distinct(m)
    ensures Distinct(Set(m, k, v)) && ToMap(Set(m, k, v)) == ToMap(m)[k := v]
  {
    if m != [] {
      var rest := m[1..];
      if m[0].0 == k {
        assert Set(m, k, v)[1..] == rest;
      } else {
        SetIsUpdate(rest, k, v);
        assert Set(m, k, v)[1..] == Set(rest, k, v);
      }
    }
  }

  lemma {:induction false} DeleteIsRemoval<K, V>(m: JsMap<K, V>, k: K)
    requires Distinct(m)
    ensures Distinct(Delete(m, k)) && ToMap(Delete(m, k)) == ToMap(m) - {k}
  {
    if m != [] {
      var rest := m[1..];
      if m[0].0 != k {
        DeleteIsRemoval(rest, k);
        assert Delete(m, k)[1..] == Delete(rest, k);
      }
    }
  }

  // ---- Records with a sequence number ----

  /** A durable record: where it was recorded, what it is about, and the rest. */
  datatype Record<K, V> = Record(sequence: nat, key: K, value: V)

  ghost predicate Ascending<K, V>(rs: seq<Record<K, V>>) {
    forall i, j :: 0 <= i < j < |rs| ==> rs[i].sequence < rs[j].sequence
  }

  /** Stable insertion by sequence: equal sequences keep their order. */
  function Insert<K, V>(rs: seq<Record<K, V>>, r: Record<K, V>): (out: seq<Record<K, V>>)
    ensures multiset(out) == multiset(rs) + multiset{r}
  {
    if rs == [] || rs[|rs| - 1].sequence <= r.sequence then
      assert rs + [r] == rs + [r];
      rs + [r]
    else
      var last := rs[|rs| - 1];
      var rest := rs[..|rs| - 1];
      assert rs == rest + [last];
      Insert(rest, r) + [last]
  }

  function SortBySequence<K, V>(rs: seq<Record<K, V>>): (out: seq<Record<K, V>>)
    ensures multiset(out) == multiset(rs)
  {
    if rs == [] then []
    else
      assert rs == rs[..|rs| - 1] + [rs[|rs| - 1]];
      Insert(SortBySequence(rs[..|rs| - 1]), rs[|rs| - 1])
  }

  predicate Sorted<K, V>(rs: seq<Record<K, V>>) {
    forall i, j :: 0 <= i < j < |rs| ==> rs[i].sequence <= rs[j].sequence
  }

  lemma {:induction false} InsertSorted<K, V>(rs: seq<Record<K, V>>, r: Record<K, V>)
    requires Sorted(rs)
    ensures Sorted(Insert(rs, r))
  {
    if rs != [] && rs[|rs| - 1].sequence > r.sequence {
      var last := rs[|rs| - 1];
      var rest := rs[..|rs| - 1];
      InsertSorted(rest, r);
      var out := Insert(rest, r);
      forall i | 0 <= i < |out| ensures out[i].sequence <= last.sequence {
        assert out[i] in multiset(out);
        assert out[i] in multiset(rest) || out[i] == r;
        if out[i] in multiset(rest) { assert out[i] in rest; }
      }
    }
  }

  lemma {:induction false} SortSorts<K, V>(rs: seq<Record<K, V>>)
    ensures Sorted(SortBySequence(rs))
  {
    if rs != [] {
      SortSorts(rs[..|rs| - 1]);
      InsertSorted(SortBySequence(rs[..|rs| - 1]), rs[|rs| - 1]);
    }
  }

  lemma EmptyIfNoMember<T>(s: seq<T>)
    ensures s != [] ==> exists x :: x in s
  {
    if s != [] { assert s[0] in s; }
  }

  /** Two ascending lists with the same elements are the same list. */
  lemma {:induction false} AscendingUnique<K, V>(a: seq<Record<K, V>>, b: seq<Record<K, V>>)
    requires Ascending(a) && Ascending(b)
    requires forall x :: x in a <==> x in b
    ensures a == b
  {
    if a == [] {
      EmptyIfNoMember(b);
    } else {
      var n, m := |a| - 1, |b| - 1;
      assert a[n] in b;
      assert b[m] in a;
      assert a[n] == b[m];
      forall x ensures x in a[..n] <==> x in b[..m] {
        if x in a[..n] { assert x in b && x != b[m]; }
        if x in b[..m] { assert x in a && x != a[n]; }
      }
      AscendingUnique(a[..n], b[..m]);
      assert a == a[..n] + [a[n]];
    }
  }

  /** A list without repeated sequences is sorted into the ascending list of its elements. */
  lemma SortDistinct<K, V>(rs: seq<Record<K, V>>, out: seq<Record<K, V>>)
    requires forall i, j :: 0 <= i < j < |rs| ==> rs[i].sequence != rs[j].sequence
    requires Ascending(out)
    requires forall x :: x in rs <==> x in out
    ensures SortBySequence(rs) == out
  {
    var s := SortBySequence(rs);
    SortSorts(rs);
    assert |multiset(s)| == |s| && |multiset(rs)| == |rs|;
    forall x ensures x in s <==> x in out {
      assert x in s <==> x in multiset(s);
      assert x in rs <==> x in multiset(rs);
    }
    forall i, j | 0 <= i < j < |s| ensures s[i].sequence < s[j].sequence {
      if s[i].sequence == s[j].sequence {
        assert s[i] in multiset(rs) && s[j] in multiset(rs);
        var p :| 0 <= p < |rs| && rs[p] == s[i];
        var q :| 0 <= q < |rs| && rs[q] == s[j];
        assert p == q;
        CountTwice(s, i, j);
        CountOnce(rs, p);
      }
    }
    AscendingUnique(s, out);
  }

  lemma CountTwice<T>(s: seq<T>, i: nat, j: nat)
    requires i < j < |s| && s[i] == s[j]
    ensures multiset(s)[s[i]] >= 2
  {
    assert s == s[..j] + [s[j]] + s[j + 1..];
    assert s[..j][i] == s[i];
  }

  lemma {:induction false} CountOnce<T>(s: seq<T>, i: nat)
    requires i < |s| && forall j :: 0 <= j < |s| && j != i ==> s[j] != s[i]
    ensures multiset(s)[s[i]] == 1
  {
    assert s == s[..i] + [s[i]] + s[i + 1..];
    assert s[i] !in s[..i] && s[i] !in s[i + 1..];
  }
}
