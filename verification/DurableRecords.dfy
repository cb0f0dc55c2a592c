/**
 * The durable records told over the events themselves: which event each record
 * comes from, what it is filed under, and which records a capped list keeps.
 */
module DurableRecords {
  import opened ControlEvents
  import opened JsMap
  import opened Folds
  import opened Recovery

  // ---- Positions in a history ----

  /** A terminal event that names its transaction. */
  predicate Closes(e: Event) {
    e.kind in {Succeeded, Failed, Unknown, Rejected} && e.commandId != "" && e.key != ""
  }

  predicate GivesReceipt(e: Event) {
    Closes(e) && e.receipt.Some?
  }

  /** The last event of the history with a receipt of its action. */
  predicate LastReceipt(evs: seq<Event>, i: nat) {
    && i < |evs| && GivesReceipt(evs[i])
    && forall j :: i < j < |evs| && GivesReceipt(evs[j]) ==>
         evs[j].receipt.value.actionId != evs[i].receipt.value.actionId
  }

  /** The last event that closes its transaction. */
  predicate LastClosing(evs: seq<Event>, i: nat) {
    && i < |evs| && Closes(evs[i])
    && forall j :: i < j < |evs| && Closes(evs[j]) ==> evs[j].commandId != evs[i].commandId || evs[j].key != evs[i].key
  }

  /** The record tells this event: its receipt, filed under its own action, its transaction and its sequence. */
  predicate TellsReceipt(x: ReceiptRecord, e: Event) {
    && x.sequence == e.sequence && e.receipt == Some(x.value.receipt) && x.key == x.value.receipt.actionId
    && x.value.txn == Txn(e.commandId, e.key)
  }

  predicate TellsClosing(x: CompletedRecord, e: Event) {
    x.sequence == e.sequence && x.key == Txn(e.commandId, e.key)
  }

  /** The record tells the last receipt of its action. */
  predicate IsReceipt(evs: seq<Event>, x: ReceiptRecord) {
    exists i :: 0 <= i < |evs| && LastReceipt(evs, i) && TellsReceipt(x, evs[i])
  }

  /** The record tells the last event that closes its transaction. */
  predicate IsClosing(evs: seq<Event>, x: CompletedRecord) {
    exists i :: 0 <= i < |evs| && LastClosing(evs, i) && TellsClosing(x, evs[i])
  }

  // ---- Which records a history has ----

  lemma IsReceiptSnoc(evs: seq<Event>, x: ReceiptRecord)
    requires evs != []
    ensures var n := |evs| - 1;
            IsReceipt(evs, x) <==>
              (GivesReceipt(evs[n]) && TellsReceipt(x, evs[n]))
              || (IsReceipt(evs[..n], x) && (GivesReceipt(evs[n]) ==> evs[n].receipt.value.actionId != x.key))
  {
    var n := |evs| - 1;
    if i :| 0 <= i < |evs| && LastReceipt(evs, i) && TellsReceipt(x, evs[i]) {
      if i < n { assert LastReceipt(evs[..n], i) && TellsReceipt(x, evs[..n][i]); }
    }
    if i :| 0 <= i < |evs[..n]| && LastReceipt(evs[..n], i) && TellsReceipt(x, evs[..n][i]) {
      assert forall j :: 0 <= j < n ==> evs[..n][j] == evs[j];
      if GivesReceipt(evs[n]) ==> evs[n].receipt.value.actionId != x.key { assert LastReceipt(evs, i); }
    }
    if GivesReceipt(evs[n]) && TellsReceipt(x, evs[n]) { assert LastReceipt(evs, n); }
  }

  lemma IsClosingSnoc(evs: seq<Event>, x: CompletedRecord)
    requires evs != []
    ensures var n := |evs| - 1;
            IsClosing(evs, x) <==>
              (Closes(evs[n]) && TellsClosing(x, evs[n]))
              || (IsClosing(evs[..n], x) && (Closes(evs[n]) ==> Txn(evs[n].commandId, evs[n].key) != x.key))
  {
    var n := |evs| - 1;
    if i :| 0 <= i < |evs| && LastClosing(evs, i) && TellsClosing(x, evs[i]) {
      if i < n { assert LastClosing(evs[..n], i) && TellsClosing(x, evs[..n][i]); }
    }
    if i :| 0 <= i < |evs[..n]| && LastClosing(evs[..n], i) && TellsClosing(x, evs[..n][i]) {
      assert forall j :: 0 <= j < n ==> evs[..n][j] == evs[j];
      if Closes(evs[n]) ==> Txn(evs[n].commandId, evs[n].key) != x.key { assert LastClosing(evs, i); }
    }
    if Closes(evs[n]) && TellsClosing(x, evs[n]) { assert LastClosing(evs, n); }
  }

  /** The projection of the receipts of a history holds exactly the last receipt of each action. */
  lemma {:induction false} ReceiptsTold(evs: seq<Event>, x: ReceiptRecord)
    ensures x in LatestPer(ReceiptRecords(evs)) <==> IsReceipt(evs, x)
  {
    if evs != [] {
      hide LatestPer, IsReceipt;
      var n := |evs| - 1;
      var rest, all := ReceiptRecords(evs[..n]), ReceiptRecords(evs);
      ReceiptsTold(evs[..n], x);
      IsReceiptSnoc(evs, x);
      if GivesReceipt(evs[n]) {
        assert all == rest + [ReceiptOf(evs[n])] && all[..|all| - 1] == rest;
        LatestSnoc(all, x);
      } else {
        assert all == rest;
      }
    } else {
      assert ReceiptRecords(evs) == [];
    }
  }

  /** A completion is its sequence and its transaction. */
  lemma NothingElse(x: CompletedRecord)
    ensures x == Record(x.sequence, x.key, ())
  {
    match x.value
    case () =>
  }

  /** That of its completions holds exactly the last event that closes each transaction. */
  lemma {:induction false} ClosingsTold(evs: seq<Event>, x: CompletedRecord)
    ensures x in LatestPer(CompletedRecords(evs)) <==> IsClosing(evs, x)
  {
    if evs != [] {
      hide LatestPer, IsClosing;
      var n := |evs| - 1;
      var rest, all := CompletedRecords(evs[..n]), CompletedRecords(evs);
      ClosingsTold(evs[..n], x);
      IsClosingSnoc(evs, x);
      if Closes(evs[n]) {
        assert all == rest + [Record(evs[n].sequence, TxnOf(evs[n]), ())] && all[..|all| - 1] == rest;
        NothingElse(x);
        LatestSnoc(all, x);
      } else {
        assert all == rest;
      }
    } else {
      assert CompletedRecords(evs) == [];
    }
  }

  // ---- What the loops return ----

  lemma {:induction false} RecordsAscend(evs: seq<Event>, first: nat)
    requires Contiguous(evs, first)
    ensures Ascending(ReceiptRecords(evs)) && Ascending(CompletedRecords(evs))
    ensures forall x :: x in ReceiptRecords(evs) ==> x.sequence < first + |evs|
    ensures forall x :: x in CompletedRecords(evs) ==> x.sequence < first + |evs|
  {
    if evs != [] {
      var n := |evs| - 1;
      RecordsAscend(evs[..n], first);
      var r, c := ReceiptRecords(evs[..n]), CompletedRecords(evs[..n]);
      forall i | 0 <= i < |r| ensures r[i].sequence < first + n { assert r[i] in r; }
      forall i | 0 <= i < |c| ensures c[i].sequence < first + n { assert c[i] in c; }
    }
  }

  /**
   * What is read back of a stretch of the journal: for each action that has a
   * receipt there the last one, in order, and no action twice.
   */
  lemma JournalReceipts(evs: seq<Event>, first: nat)
    requires Contiguous(evs, first)
    ensures var r := LatestSorted(ReceiptRecords(evs));
            && Ascending(r) && (forall x :: x in r <==> IsReceipt(evs, x))
            && (forall i, j :: 0 <= i < j < |r| ==> r[i].value.receipt.actionId != r[j].value.receipt.actionId)
  {
    hide LatestPer, LatestSorted, IsReceipt, Ascending;
    var rs := ReceiptRecords(evs);
    RecordsAscend(evs, first);
    LatestSortedIsLatestPer(rs);
    LatestPerIsLastMap(rs);
    LatestKeys(rs);
    forall x ensures x in LatestPer(rs) <==> IsReceipt(evs, x) { ReceiptsTold(evs, x); }
    FiledByAction(evs, LatestPer(rs));
  }

  lemma FiledByAction(evs: seq<Event>, r: seq<ReceiptRecord>)
    requires DistinctKeys(r) && forall x :: x in r ==> IsReceipt(evs, x)
    ensures forall i :: 0 <= i < |r| ==> r[i].key == r[i].value.receipt.actionId
    ensures forall i, j :: 0 <= i < j < |r| ==> r[i].value.receipt.actionId != r[j].value.receipt.actionId
  {
    forall i | 0 <= i < |r| ensures r[i].key == r[i].value.receipt.actionId {
      assert r[i] in r;
    }
  }

  /** Some event of the batch has a receipt of this action. */
  predicate Covers(r: seq<ReceiptRecord>, actionId: string) {
    exists i :: 0 <= i < |r| && r[i].value.receipt.actionId == actionId
  }

  /** Receipts as they are kept: in order, each filed under its own action and no action twice. */
  ghost predicate Kept(r: seq<ReceiptRecord>) {
    Ascending(r) && DistinctKeys(r) && forall i :: 0 <= i < |r| ==> r[i].key == r[i].value.receipt.actionId
  }

  /** A merge keeps the newer list, and of the older one exactly the receipts of actions the newer has none of. */
  lemma MergedReceipts(restored: seq<ReceiptRecord>, replayed: seq<ReceiptRecord>)
    requires Kept(restored) && Kept(replayed) && Ascending(restored + replayed)
    ensures var r := LatestSorted(restored + replayed);
            && Kept(r)
            && forall x :: x in r <==>
                 x in replayed || (x in restored && !Covers(replayed, x.value.receipt.actionId))
  {
    hide LatestPer, LatestSorted, Ascending;
    var all := restored + replayed;
    LatestSortedIsLatestPer(all);
    LatestPerIsLastMap(all);
    LatestKeys(all);
    LatestSplits(restored, replayed);
    LatestPerOfDistinct(restored);
    LatestPerOfDistinct(replayed);
    var r := LatestPer(all);
    var older := Without(restored, KeySet(replayed));
    assert r == older + replayed;
    forall x ensures x in r <==> x in replayed || (x in restored && !Covers(replayed, x.value.receipt.actionId)) {
      WithoutMembers(restored, KeySet(replayed), x);
      if x in restored { CoversKey(restored, replayed, x); }
    }
    forall i | 0 <= i < |r| ensures r[i].key == r[i].value.receipt.actionId {
      assert r[i] in restored || r[i] in replayed;
    }
  }

  lemma CoversKey(restored: seq<ReceiptRecord>, replayed: seq<ReceiptRecord>, x: ReceiptRecord)
    requires Kept(restored) && Kept(replayed) && x in restored
    ensures x.key in KeySet(replayed) <==> Covers(replayed, x.value.receipt.actionId)
  {
    if x.key in KeySet(replayed) {
      var y :| y in replayed && y.key == x.key;
      var i :| 0 <= i < |replayed| && replayed[i] == y;
    }
    if Covers(replayed, x.value.receipt.actionId) {
      var i :| 0 <= i < |replayed| && replayed[i].value.receipt.actionId == x.value.receipt.actionId;
      assert replayed[i] in replayed;
    }
  }

  // ---- Which of them a capped list keeps ----

  ghost function Sequences<K, V>(rs: seq<Record<K, V>>): set<nat> {
    set x | x in rs :: x.sequence
  }

  lemma {:induction false} SequencesCount<K, V>(rs: seq<Record<K, V>>)
    requires Ascending(rs)
    ensures |Sequences(rs)| == |rs|
  {
    if rs != [] {
      var n := |rs| - 1;
      SequencesCount(rs[..n]);
      assert rs == rs[..n] + [rs[n]];
      assert Sequences(rs) == Sequences(rs[..n]) + {rs[n].sequence};
      forall x | x in rs[..n] ensures x.sequence < rs[n].sequence {
        var i :| 0 <= i < n && rs[..n][i] == x;
      }
    }
  }

  /** The last `n` of an ascending list are those with fewer than `n` later ones. */
  lemma LastNMembers<K, V>(rs: seq<Record<K, V>>, n: nat, x: Record<K, V>)
    requires Ascending(rs)
    ensures x in LastN(rs, n) <==> x in rs && |Later(rs, x)| < n
  {
    if x in rs {
      var i :| 0 <= i < |rs| && rs[i] == x;
      LaterCount(rs, i);
      if |rs| <= n || i >= |rs| - n { LastNHas(rs, n, i); }
      if x in LastN(rs, n) && |rs| > n {
        var j :| 0 <= j < n && LastN(rs, n)[j] == x;
        assert rs[|rs| - n + j] == x && |rs| - n + j == i;
      }
    }
    if x in LastN(rs, n) {
      var j :| 0 <= j < |LastN(rs, n)| && LastN(rs, n)[j] == x;
      assert x == rs[if |rs| <= n then j else |rs| - n + j];
    }
  }

  lemma LastNHas<K, V>(rs: seq<Record<K, V>>, n: nat, i: nat)
    requires i < |rs| && (|rs| <= n || i >= |rs| - n)
    ensures rs[i] in LastN(rs, n)
  {
    if |rs| > n { assert LastN(rs, n)[i - (|rs| - n)] == rs[i]; }
  }

  ghost function Later<K, V>(rs: seq<Record<K, V>>, x: Record<K, V>): set<nat> {
    set y | y in rs && y.sequence > x.sequence :: y.sequence
  }

  lemma LaterCount<K, V>(rs: seq<Record<K, V>>, i: nat)
    requires Ascending(rs) && i < |rs|
    ensures |Later(rs, rs[i])| == |rs| - i - 1
  {
    var tail := rs[i + 1..];
    SequencesCount(tail);
    forall y ensures y in tail <==> y in rs && y.sequence > rs[i].sequence {
      if y in tail {
        var j :| 0 <= j < |tail| && tail[j] == y;
        assert rs[i + 1 + j] == y;
      }
      if y in rs && y.sequence > rs[i].sequence {
        var j :| 0 <= j < |rs| && rs[j] == y;
        assert tail[j - i - 1] == y;
      }
    }
    assert Later(rs, rs[i]) == Sequences(tail);
  }

  /** The last receipts of actions after an event, by sequence. */
  ghost function ReceiptsAfter(h: seq<Event>, sequence: nat): set<nat>
    requires Contiguous(h, 1)
  {
    set i | 0 <= i < |h| && LastReceipt(h, i) && h[i].sequence > sequence :: h[i].sequence
  }

  ghost function ClosingsAfter(h: seq<Event>, sequence: nat): set<nat>
    requires Contiguous(h, 1)
  {
    set i | 0 <= i < |h| && LastClosing(h, i) && h[i].sequence > sequence :: h[i].sequence
  }

  lemma LaterReceipts(h: seq<Event>, x: ReceiptRecord)
    requires Contiguous(h, 1)
    ensures Later(LatestPer(ReceiptRecords(h)), x) == ReceiptsAfter(h, x.sequence)
  {
    hide LatestPer, LastReceipt, ReceiptRecords, Contiguous;
    var rs := LatestPer(ReceiptRecords(h));
    forall n | n in ReceiptsAfter(h, x.sequence) ensures n in Later(rs, x) {
      var i :| 0 <= i < |h| && LastReceipt(h, i) && h[i].sequence > x.sequence && n == h[i].sequence;
      LastReceiptGives(h, i);
      ReceiptsTold(h, ReceiptOf(h[i]));
      assert TellsReceipt(ReceiptOf(h[i]), h[i]);
    }
    forall n | n in Later(rs, x) ensures n in ReceiptsAfter(h, x.sequence) {
      var y :| y in rs && y.sequence > x.sequence && n == y.sequence;
      ReceiptsTold(h, y);
      var i :| 0 <= i < |h| && LastReceipt(h, i) && TellsReceipt(y, h[i]);
      LastReceiptGives(h, i);
    }
  }

  lemma LastReceiptGives(h: seq<Event>, i: nat)
    requires LastReceipt(h, i)
    ensures i < |h| && CarriesReceipt(h[i])
  {
  }

  lemma LaterClosings(h: seq<Event>, x: CompletedRecord)
    requires Contiguous(h, 1)
    ensures Later(LatestPer(CompletedRecords(h)), x) == ClosingsAfter(h, x.sequence)
  {
    hide LatestPer, LastClosing, CompletedRecords, Contiguous;
    var rs := LatestPer(CompletedRecords(h));
    forall n | n in ClosingsAfter(h, x.sequence) ensures n in Later(rs, x) {
      var i :| 0 <= i < |h| && LastClosing(h, i) && h[i].sequence > x.sequence && n == h[i].sequence;
      var y: CompletedRecord := Record(h[i].sequence, TxnOf(h[i]), ());
      ClosingsTold(h, y);
      assert TellsClosing(y, h[i]);
    }
    forall n | n in Later(rs, x) ensures n in ClosingsAfter(h, x.sequence) {
      var y :| y in rs && y.sequence > x.sequence && n == y.sequence;
      ClosingsTold(h, y);
      var i :| 0 <= i < |h| && LastClosing(h, i) && TellsClosing(y, h[i]);
    }
  }

  /**
   * However often the history was compacted: the receipts restored from the last
   * snapshot and the journal after it are exactly the last receipt of each
   * action, except those with a thousand later ones of other actions.
   */
  lemma RestoredReceipts(h: seq<Event>, cuts: seq<nat>, x: ReceiptRecord)
    requires Contiguous(h, 1) && Cuts(cuts, |h|)
    ensures var tail := LatestSorted(ReceiptRecords(h[Covered(cuts)..]));
            x in LastN(LatestSorted(ReceiptSnapshot(h, cuts) + tail), MAX_RECORDS) <==>
              IsReceipt(h, x) && |ReceiptsAfter(h, x.sequence)| < MAX_RECORDS
  {
    hide LatestPer, LatestSorted, Ascending, IsReceipt, Later, LastN;
    RestoredReceiptsAreExact(h, cuts);
    RecordsAscend(h, 1);
    LatestPerIsLastMap(ReceiptRecords(h));
    LastNMembers(LatestPer(ReceiptRecords(h)), MAX_RECORDS, x);
    ReceiptsTold(h, x);
    LaterReceipts(h, x);
  }

  /** A snapshot's completions are those of the history it covers, except those with a thousand later ones. */
  lemma SnapshotCompletions(h: seq<Event>, cuts: seq<nat>, x: CompletedRecord)
    requires Contiguous(h, 1) && Cuts(cuts, |h|)
    ensures Contiguous(h[..Covered(cuts)], 1)
    ensures x in CompletedSnapshot(h, cuts) <==>
            var g := h[..Covered(cuts)];
            IsClosing(g, x) && |ClosingsAfter(g, x.sequence)| < MAX_RECORDS
  {
    hide LatestPer, LatestSorted, Ascending, IsClosing, Later, LastN;
    var g := h[..Covered(cuts)];
    assert Contiguous(g, 1);
    CompletedSnapshotIsExact(h, cuts);
    RecordsAscend(g, 1);
    LatestPerIsLastMap(CompletedRecords(g));
    LastNMembers(LatestPer(CompletedRecords(g)), MAX_RECORDS, x);
    ClosingsTold(g, x);
    LaterClosings(g, x);
  }

  /** The cache a restart fills holds exactly those receipts, each under its own action. */
  lemma RestartedCache(h: seq<Event>, cuts: seq<nat>, action: string, x: ReceiptRecord)
    requires Contiguous(h, 1) && Cuts(cuts, |h|)
    ensures var tail := LatestSorted(ReceiptRecords(h[Covered(cuts)..]));
            (action, x) in RememberAll(LatestSorted(ReceiptSnapshot(h, cuts) + tail)) <==>
              && x.value.receipt.actionId == action && IsReceipt(h, x)
              && |ReceiptsAfter(h, x.sequence)| < MAX_RECORDS
  {
    hide LatestPer, LatestSorted, Ascending, IsReceipt, LastN, RememberAll, ReceiptsAfter;
    hide ReceiptSnapshot, ReceiptRecords;
    var durable := LatestSorted(ReceiptSnapshot(h, cuts) + LatestSorted(ReceiptRecords(h[Covered(cuts)..])));
    RestoredDistinct(h, cuts);
    RememberAllFiles(durable);
    RestoredReceipts(h, cuts, x);
    var kept := LastN(durable, MAX_RECORDS);
    if (action, x) in Filed(kept) {
      var i :| 0 <= i < |kept| && Filed(kept)[i] == (action, x);
      assert kept[i] == x;
    }
    if x in kept {
      var i :| 0 <= i < |kept| && kept[i] == x;
      assert Filed(kept)[i] == (x.key, x);
    }
    if IsReceipt(h, x) { ReceiptKey(h, x); }
  }

  lemma ReceiptKey(h: seq<Event>, x: ReceiptRecord)
    requires IsReceipt(h, x)
    ensures x.key == x.value.receipt.actionId
  {
  }

  // ---- Open transactions ----

  /** The event asks for, accepts or runs a command of a transaction it names. */
  predicate Opens(e: Event) {
    e.kind in {Requested, Accepted, Running} && e.commandId != "" && e.key != ""
  }

  /** The last event of its transaction that opens or closes it, and it opens it. */
  predicate LastOpening(evs: seq<Event>, i: nat) {
    && i < |evs| && Opens(evs[i])
    && forall j :: i < j < |evs| && (Opens(evs[j]) || Closes(evs[j])) ==>
         evs[j].commandId != evs[i].commandId || evs[j].key != evs[i].key
  }

  predicate TellsOpen(x: OpenRecord, e: Event) {
    x.sequence == e.sequence && x.key == Txn(e.commandId, e.key) && x.value == e.kind
  }

  predicate IsOpen(evs: seq<Event>, x: OpenRecord) {
    exists i :: 0 <= i < |evs| && LastOpening(evs, i) && TellsOpen(x, evs[i])
  }

  lemma IsOpenSnoc(evs: seq<Event>, x: OpenRecord)
    requires evs != []
    ensures var n := |evs| - 1;
            IsOpen(evs, x) <==>
              (Opens(evs[n]) && TellsOpen(x, evs[n]))
              || (IsOpen(evs[..n], x)
                  && (Opens(evs[n]) || Closes(evs[n]) ==> Txn(evs[n].commandId, evs[n].key) != x.key))
  {
    var n := |evs| - 1;
    if i :| 0 <= i < |evs| && LastOpening(evs, i) && TellsOpen(x, evs[i]) {
      if i < n { assert LastOpening(evs[..n], i) && TellsOpen(x, evs[..n][i]); }
    }
    if i :| 0 <= i < |evs[..n]| && LastOpening(evs[..n], i) && TellsOpen(x, evs[..n][i]) {
      assert forall j :: 0 <= j < n ==> evs[..n][j] == evs[j];
      if Opens(evs[n]) || Closes(evs[n]) ==> Txn(evs[n].commandId, evs[n].key) != x.key {
        assert LastOpening(evs, i);
      }
    }
    if Opens(evs[n]) && TellsOpen(x, evs[n]) { assert LastOpening(evs, n); }
  }

  /** The open transactions of a history are those whose last event opens them, as that event tells. */
  lemma {:induction false} OpenTold(evs: seq<Event>, x: OpenRecord)
    ensures x in OpenList(evs) <==> IsOpen(evs, x)
  {
    if evs != [] {
      hide IsOpen, Without;
      var n := |evs| - 1;
      OpenTold(evs[..n], x);
      IsOpenSnoc(evs, x);
      WithoutMembers(OpenList(evs[..n]), {TxnOf(evs[n])}, x);
      assert x in [OpenOf(evs[n])] <==> x == OpenOf(evs[n]);
    }
  }

  /** A snapshot that did not overflow lists exactly the transactions open where it ends, oldest first. */
  lemma SnapshotOpens(h: seq<Event>, cuts: seq<nat>, x: OpenRecord)
    requires Contiguous(h, 1) && Cuts(cuts, |h|) && OpenSnapshot(h, cuts).Some?
    ensures x in OpenSnapshot(h, cuts).value <==> IsOpen(h[..Covered(cuts)], x)
    ensures Ascending(OpenSnapshot(h, cuts).value)
  {
    hide OpenList, IsOpen, OpenSnapshot, OpenListShape;
    OpenSnapshotIsExact(h, cuts);
    OpenTold(h[..Covered(cuts)], x);
    OpensAscend(h[..Covered(cuts)]);
  }

  /**
   * From any snapshot and any later stretch of the journal, recovery ends exactly
   * the transactions that are open over the whole history and that no event of
   * the stretch closes.
   */
  lemma RecoveryTold(h: seq<Event>, a: nat, c: nat, x: OpenRecord)
    requires Contiguous(h, 1) && a <= c <= |h|
    ensures x in RecoverTodo(OpenList(h[..c]), h[a..]) <==>
            IsOpen(h, x) && forall i :: a <= i < |h| && Closes(h[i]) ==> Txn(h[i].commandId, h[i].key) != x.key
  {
    hide OpenList, RecoverTodo, IsOpen;
    RecoverTodoIff(h, a, c);
    OpenTold(h, x);
    WithoutMembers(OpenList(h), TerminalTxns(h[a..]), x);
    hide Without;
    if i :| a <= i < |h| && Closes(h[i]) && Txn(h[i].commandId, h[i].key) == x.key {
      assert h[a..][i - a] == h[i];
    }
    if x.key in TerminalTxns(h[a..]) {
      var e :| e in h[a..] && TerminalKind(e.kind) && NamesTxn(e) && TxnOf(e) == x.key;
      var i :| 0 <= i < |h[a..]| && h[a..][i] == e;
      assert h[a + i] == e;
    }
  }

  lemma OpensAscend(h: seq<Event>)
    requires Contiguous(h, 1)
    ensures Ascending(OpenList(h))
  {
    OpenListAscends(h);
  }

  // ---- One receipt more in the cache ----

  /** Every entry is under its own key, no key twice, and there are not too many. */
  predicate CacheOk(m: JsMap<string, ReceiptRecord>) {
    Distinct(m) && |m| <= MAX_RECORDS
  }

  lemma {:induction false} AppendIsUpdate<V>(m: JsMap<string, V>, k: string, v: V)
    requires Distinct(m) && k !in ToMap(m)
    ensures Distinct(m + [(k, v)]) && ToMap(m + [(k, v)]) == ToMap(m)[k := v]
  {
    if m == [] {
      assert m + [(k, v)] == [(k, v)] && [(k, v)][1..] == [];
    } else {
      assert (m + [(k, v)])[1..] == m[1..] + [(k, v)];
      AppendIsUpdate(m[1..], k, v);
    }
  }

  lemma {:induction false} DeleteShrinks<V>(m: JsMap<string, V>, k: string)
    requires Distinct(m)
    ensures |Delete(m, k)| == (if k in ToMap(m) then |m| - 1 else |m|)
    ensures k !in ToMap(m) ==> Delete(m, k) == m
  {
    if m != [] && m[0].0 != k {
      DeleteShrinks(m[1..], k);
    }
  }

  /**
   * Remembering a receipt replaces what its action had and makes it the newest;
   * only a full cache without one for the action loses an entry, its oldest.
   */
  lemma RememberIs(cache: JsMap<string, ReceiptRecord>, r: ReceiptRecord)
    requires CacheOk(cache)
    ensures var m := Remember(cache, r);
            && CacheOk(m) && m != [] && m[|m| - 1] == (r.key, r)
            && ToMap(m) == (if r.key in ToMap(cache) || |cache| < MAX_RECORDS then ToMap(cache)[r.key := r]
                            else (ToMap(cache) - {cache[0].0})[r.key := r])
  {
    hide ToMap, Distinct, Delete;
    DeleteIsRemoval(cache, r.key);
    DeleteShrinks(cache, r.key);
    ToMapKeys(Delete(cache, r.key));
    AppendIsUpdate(Delete(cache, r.key), r.key, r);
    UpdateAfterRemoval(ToMap(cache), r.key, r);
    var all := Delete(cache, r.key) + [(r.key, r)];
    if |all| > MAX_RECORDS {
      assert Delete(cache, r.key) == cache;
      WithoutFirst(all);
      WithoutFirst(cache);
      assert all[0] == cache[0] && all[1..] == cache[1..] + [(r.key, r)];
      AppendIsUpdate(cache[1..], r.key, r);
    }
  }

  lemma UpdateAfterRemoval<V>(m: map<string, V>, k: string, v: V)
    ensures (m - {k})[k := v] == m[k := v]
  {
  }

  lemma WithoutFirst<V>(m: JsMap<string, V>)
    requires Distinct(m) && m != []
    ensures Distinct(m[1..]) && ToMap(m[1..]) == ToMap(m) - {m[0].0}
  {
  }
}
