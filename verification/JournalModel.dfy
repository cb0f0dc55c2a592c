/**
 * One control journal as a state machine: the file on disk, the in-memory
 * copy, and the fault every system call of an operation may meet.
 */
module JournalModel {
  import opened ControlEvents
  import opened JournalFormat

  /** The fields of a running journal; `unrolled` is the length a failed rollback left to restore. */
  datatype Memory = Memory(events: seq<Event>, current: nat, first: nat,
                           index: map<string, Event>, unrolled: Option<nat>)

  datatype Live = Live(file: Option<Bytes>, mem: Memory)

  function Content(file: Option<Bytes>): Bytes {
    if file.Some? then file.value else []
  }

  // ---- Idempotency index ----

  function IndexEvent(index: map<string, Event>, e: Event): map<string, Event> {
    if e.key != "" && IndexedKind(e.kind) then index[e.key := e] else index
  }

  function LastIndexed(evs: seq<Event>): map<string, Event> {
    if evs == [] then map[] else IndexEvent(LastIndexed(evs[..|evs| - 1]), evs[|evs| - 1])
  }

  ghost predicate IsLastIndexed(evs: seq<Event>, key: string, i: nat) {
    && i < |evs| && evs[i].key == key != "" && IndexedKind(evs[i].kind)
    && forall j :: i < j < |evs| ==> !(evs[j].key == key && IndexedKind(evs[j].kind))
  }

  /** The index maps exactly the keys of indexed events, each to its last one. */
  lemma {:induction false} LastIndexedMeaning(evs: seq<Event>, key: string)
    ensures key in LastIndexed(evs) <==> exists i: nat :: IsLastIndexed(evs, key, i)
    ensures forall i: nat :: IsLastIndexed(evs, key, i) ==> LastIndexed(evs)[key] == evs[i]
  {
    if evs != [] {
      var n := |evs| - 1;
      LastIndexedMeaning(evs[..n], key);
      if evs[n].key == key && key != "" && IndexedKind(evs[n].kind) {
        assert IsLastIndexed(evs, key, n);
      } else {
        forall i: nat ensures IsLastIndexed(evs, key, i) <==> IsLastIndexed(evs[..n], key, i) {
          if IsLastIndexed(evs[..n], key, i) {
            assert forall j :: i < j < n ==> evs[j] == evs[..n][j];
          }
          if IsLastIndexed(evs, key, i) {
            assert forall j :: i < j < n ==> evs[j] == evs[..n][j];
          }
        }
      }
    }
  }

  function RestrictIndex(index: map<string, Event>, first: nat): map<string, Event> {
    map k | k in index && index[k].sequence >= first :: index[k]
  }

  /** Forgetting the keys last seen before `first + drop` is re-indexing what is kept. */
  lemma {:induction false} LastIndexedAfterDrop(evs: seq<Event>, first: nat, drop: nat)
    requires Contiguous(evs, first) && drop <= |evs|
    ensures RestrictIndex(LastIndexed(evs), first + drop) == LastIndexed(evs[drop..])
  {
    if drop == |evs| {
      LastIndexedBelow(evs, first);
    } else {
      var n := |evs| - 1;
      LastIndexedAfterDrop(evs[..n], first, drop);
      assert evs[drop..][..|evs[drop..]| - 1] == evs[..n][drop..];
    }
  }

  lemma {:induction false} LastIndexedBelow(evs: seq<Event>, first: nat)
    requires Contiguous(evs, first)
    ensures forall k :: k in LastIndexed(evs) ==> LastIndexed(evs)[k].sequence < first + |evs|
  {
    if evs != [] {
      LastIndexedBelow(evs[..|evs| - 1], first);
    }
  }

  // ---- Append ----

  datatype WriteIo = Durable | Torn(written: nat)
  datatype RollbackIo = RolledBack | TruncateFails | SyncFails

  /** What each system call of one append does; calls never reached are ignored. */
  datatype AppendIo = AppendIo(repairStat: bool, repairTruncate: bool, open: bool, stat: bool,
                               write: WriteIo, rollback: RollbackIo)

  /** Finishing an earlier rollback; `None` when appending is refused. */
  function Repair(l: Live, io: AppendIo): Option<Live> {
    if l.mem.unrolled.None? then Some(l)
    else
      var length := l.mem.unrolled.value;
      var mended := l.mem.(unrolled := None);
      if l.file.None? || !io.repairStat || |l.file.value| < length then None
      else if |l.file.value| == length then Some(l.(mem := mended))
      else if !io.repairTruncate then None
      else Some(Live(Some(l.file.value[..length]), mended))
  }

  function NextEvent(mem: Memory, draft: Event): Event {
    draft.(sequence := mem.current + 1)
  }

  function Commit(mem: Memory, e: Event): Memory {
    mem.(events := mem.events + [e], current := e.sequence, index := IndexEvent(mem.index, e))
  }

  function Fragment(c: Codec, e: Event, written: nat): Bytes {
    var line := EncodeLine(c, e);
    line[..if written < |line| then written else |line|]
  }

  /** The write, sync and rollback of one append, once nothing is left to repair. */
  function WriteStep(c: Codec, r: Live, e: Event, io: AppendIo): (Live, Option<Event>) {
    var bytes := Content(r.file);
    if !io.open then (r, None)
    else if !io.stat then (r.(file := Some(bytes)), None)
    else
      match io.write
      case Durable => (Live(Some(bytes + EncodeLine(c, e)), Commit(r.mem, e)), Some(e))
      case Torn(n) =>
        match io.rollback
        case RolledBack => (r.(file := Some(bytes)), None)
        case SyncFails => (Live(Some(bytes), r.mem.(unrolled := Some(|bytes|))), None)
        case TruncateFails =>
          (Live(Some(bytes + Fragment(c, e, n)), r.mem.(unrolled := Some(|bytes|))), None)
  }

  /** One append: the new state, and the event when it was acknowledged. */
  function AppendStep(c: Codec, l: Live, draft: Event, io: AppendIo): (Live, Option<Event>) {
    match Repair(l, io)
    case None => (l, None)
    case Some(r) => WriteStep(c, r, NextEvent(r.mem, draft), io)
  }

  // ---- Compaction ----

  /** How the guarded replacement of the file ends. */
  datatype CompactIo = Replaced | Aborted | FailsBeforeRename | FailsAfterRename

  /** Index of the first event above `covered`, or the length when there is none. */
  function KeepFrom(evs: seq<Event>, covered: int): (k: nat)
    ensures k <= |evs|
    ensures forall i :: 0 <= i < k ==> evs[i].sequence <= covered
    ensures k < |evs| ==> evs[k].sequence > covered
  {
    if evs == [] || evs[0].sequence > covered then 0 else 1 + KeepFrom(evs[1..], covered)
  }

  function CompactedFirst(mem: Memory, keep: nat): nat
    requires keep <= |mem.events|
  {
    if keep < |mem.events| then mem.events[keep].sequence else mem.current + 1
  }

  function CompactStep(c: Codec, l: Live, covered: int, io: CompactIo): Live {
    var keep := KeepFrom(l.mem.events, covered);
    if keep == 0 || io.Aborted? || io.FailsBeforeRename? then l
    else
      var first := CompactedFirst(l.mem, keep);
      var kept := l.mem.events[keep..];
      var file := Some(Image(c, true, first, kept));
      if io.FailsAfterRename? then l.(file := file)
      else Live(file, Memory(kept, l.mem.current, first, RestrictIndex(l.mem.index, first), None))
  }

  // ---- Reopening, after a crash or a clean stop ----

  function OpenStep(c: Codec, file: Option<Bytes>): Option<Live> {
    match ReplaySpec(c, Content(file))
    case Corrupt(_) => None
    case Replayed(evs, first, kept) =>
      var current := if evs != [] then evs[|evs| - 1].sequence else first - 1;
      Some(Live(if file.None? then None else Some(file.value[..kept]),
                Memory(evs, current, first, LastIndexed(evs), None)))
  }

  // ---- What is on disk, in terms of the events ever committed ----

  /**
   * The history of committed events since the journal was created, where the
   * file starts in it, the bytes a torn append left behind and the event they
   * spell a part of, and the highest compaction target of this process.
   */
  datatype Trace = Trace(history: seq<Event>, headed: bool, base: nat, tail: Bytes, torn: Event, reach: int)

  /** The events of a history from sequence `base` on. */
  function Suffix(history: seq<Event>, base: nat): seq<Event> {
    if 1 <= base <= |history| + 1 then history[base - 1..] else []
  }

  lemma SuffixFacts(history: seq<Event>, base: nat, drop: nat)
    requires Contiguous(history, 1) && 1 <= base && base + drop <= |history| + 1
    ensures Contiguous(Suffix(history, base), base)
    ensures |Suffix(history, base)| == |history| + 1 - base
    ensures Suffix(history, base)[drop..] == Suffix(history, base + drop)
  {
  }

  lemma SuffixSnoc(history: seq<Event>, base: nat, e: Event)
    requires 1 <= base <= |history| + 1
    ensures Suffix(history + [e], base) == Suffix(history, base) + [e]
  {
  }

  /** The committed part of the file: the history from `base` on. */
  function Committed(c: Codec, t: Trace): Bytes {
    Image(c, t.headed, t.base, Suffix(t.history, t.base))
  }

  ghost predicate MemInv(m: Memory, t: Trace) {
    && Contiguous(t.history, 1)
    && 1 <= m.first <= t.base <= |t.history| + 1
    && (t.headed || t.base == 1)
    && m.current == |t.history|
    && m.events == Suffix(t.history, m.first)
    && m.index == LastIndexed(m.events)
    && (t.base == m.first || t.base <= t.reach + 1)
  }

  /** The file is the committed bytes and at most one fragment, whose start is remembered. */
  ghost predicate FileInv(c: Codec, file: Option<Bytes>, unrolled: Option<nat>, t: Trace) {
    var image := Committed(c, t);
    && Content(file) == image + t.tail
    && (t.tail != [] ==>
          && unrolled == Some(|image|)
          && t.torn.sequence == |t.history| + 1
          && t.tail <= EncodeLine(c, t.torn))
    && (unrolled.Some? ==> file.Some? && |image| <= unrolled.value)
  }

  ghost predicate Inv(c: Codec, l: Live, t: Trace) {
    MemInv(l.mem, t) && FileInv(c, l.file, l.mem.unrolled, t)
  }

  function InitTrace(): Trace {
    Trace([], false, 1, [], Event(1, Requested, "", "", None, 0), 0)
  }

  function InitLive(): Live {
    Live(None, Memory([], 0, 1, map[], None))
  }

  lemma InitInv(c: Codec)
    ensures Inv(c, InitLive(), InitTrace())
  {
  }

  /** The trace of a write that was attempted, acknowledged or not. */
  function WriteTrace(c: Codec, t: Trace, e: Event, io: AppendIo): Trace {
    if !io.open || !io.stat then t.(tail := [])
    else match io.write
         case Durable => t.(history := t.history + [e], tail := [])
         case Torn(n) => if io.rollback.TruncateFails? then t.(tail := Fragment(c, e, n), torn := e)
                         else t.(tail := [])
  }

  function AppendTrace(c: Codec, l: Live, t: Trace, draft: Event, io: AppendIo): Trace {
    if Repair(l, io).None? then t else WriteTrace(c, t, NextEvent(l.mem, draft), io)
  }

  lemma RepairKeepsInv(c: Codec, l: Live, t: Trace, io: AppendIo)
    requires Inv(c, l, t) && Repair(l, io).Some?
    ensures var r := Repair(l, io).value;
            && r.mem == l.mem.(unrolled := None)
            && MemInv(r.mem, t)
            && Content(r.file) == Committed(c, t)
  {
    hide Image;
    if l.mem.unrolled.Some? {
      assert l.file.value[..|Committed(c, t)|] == Committed(c, t);
    }
  }

  lemma CommitKeepsMemInv(m: Memory, t: Trace, e: Event)
    requires MemInv(m, t) && e.sequence == m.current + 1
    ensures MemInv(Commit(m, e), t.(history := t.history + [e], tail := []))
  {
    hide Suffix;
    SuffixSnoc(t.history, m.first, e);
    assert (m.events + [e])[..|m.events|] == m.events;
  }

  lemma CommitExtendsImage(c: Codec, t: Trace, e: Event)
    requires 1 <= t.base <= |t.history| + 1
    ensures Committed(c, t.(history := t.history + [e], tail := [])) == Committed(c, t) + EncodeLine(c, e)
  {
    hide Image, Suffix;
    ImageSnoc(c, t.headed, t.base, Suffix(t.history, t.base), e);
    SuffixSnoc(t.history, t.base, e);
  }

  lemma CleanFileInv(c: Codec, file: Option<Bytes>, t: Trace)
    requires Content(file) == Committed(c, t) && t.tail == []
    ensures FileInv(c, file, None, t)
  {
    hide Image, Suffix;
    assert Committed(c, t) + [] == Committed(c, t);
  }

  lemma CommitKeepsInv(c: Codec, r: Live, t: Trace, e: Event)
    requires MemInv(r.mem, t) && r.mem.unrolled.None? && Content(r.file) == Committed(c, t)
    requires e.sequence == r.mem.current + 1
    ensures Inv(c, Live(Some(Content(r.file) + EncodeLine(c, e)), Commit(r.mem, e)),
                t.(history := t.history + [e], tail := []))
  {
    hide Committed, EncodeLine, Suffix, LastIndexed, Contiguous, FileInv;
    CommitKeepsMemInv(r.mem, t, e);
    CommitExtendsImage(c, t, e);
    CleanFileInv(c, Some(Content(r.file) + EncodeLine(c, e)), t.(history := t.history + [e], tail := []));
  }

  lemma FailedWriteKeepsInv(c: Codec, r: Live, t: Trace, e: Event, written: nat, torn: bool)
    requires MemInv(r.mem, t) && r.mem.unrolled.None? && Content(r.file) == Committed(c, t)
    requires e.sequence == r.mem.current + 1
    ensures var bytes := Content(r.file);
            var m' := r.mem.(unrolled := Some(|bytes|));
            var tail := if torn then Fragment(c, e, written) else [];
            && Inv(c, Live(Some(bytes), r.mem), t.(tail := []))
            && Inv(c, Live(Some(bytes + tail), m'), t.(tail := tail, torn := if torn then e else t.torn))
            && bytes + [] == bytes
            && (r.file.None? ==> Inv(c, r, t.(tail := [])))
  {
    hide Image, LastIndexed, Suffix;
    var bytes := Content(r.file);
    assert bytes + [] == bytes;
  }

  lemma WriteKeepsInv(c: Codec, r: Live, t: Trace, e: Event, io: AppendIo)
    requires MemInv(r.mem, t) && r.mem.unrolled.None? && Content(r.file) == Committed(c, t)
    requires e.sequence == r.mem.current + 1
    ensures var (l', result) := WriteStep(c, r, e, io);
            && Inv(c, l', WriteTrace(c, t, e, io))
            && (result.Some? ==> result.value == e)
            && WriteTrace(c, t, e, io).history == t.history + (if result.Some? then [e] else [])
  {
    hide Inv, MemInv, Committed, EncodeLine, Fragment, Commit;
    if io.write.Durable? {
      CommitKeepsInv(c, r, t, e);
      FailedWriteKeepsInv(c, r, t, e, 0, false);
    } else {
      FailedWriteKeepsInv(c, r, t, e, io.write.written, io.rollback.TruncateFails?);
    }
  }

  /** An append keeps the file sound whatever its system calls do, and commits or changes nothing. */
  lemma AppendKeepsInv(c: Codec, l: Live, t: Trace, draft: Event, io: AppendIo)
    requires Inv(c, l, t)
    ensures var (l', result) := AppendStep(c, l, draft, io);
            var t' := AppendTrace(c, l, t, draft, io);
            && Inv(c, l', t')
            && t'.history == t.history + (if result.Some? then [NextEvent(l.mem, draft)] else [])
            && (result.Some? ==> result.value == NextEvent(l.mem, draft))
  {
    hide Inv, MemInv, FileInv, Committed, EncodeLine, Fragment, WriteStep, WriteTrace, Repair, LastIndexed;
    if Repair(l, io).Some? {
      RepairKeepsInv(c, l, t, io);
      WriteKeepsInv(c, Repair(l, io).value, t, NextEvent(l.mem, draft), io);
    }
  }

  /**
   * An append is acknowledged exactly if what an earlier one left can be mended
   * and its own open, size check, write and sync succeed; every refusal leaves
   * the committed events as they were. Something is left to mend exactly after
   * a write that failed and could not be rolled back for certain.
   */
  lemma AppendCommitsIff(c: Codec, l: Live, t: Trace, draft: Event, io: AppendIo)
    requires Inv(c, l, t)
    ensures var (l', result) := AppendStep(c, l, draft, io);
            var mended := l.mem.unrolled.None?
                          || (io.repairStat && l.mem.unrolled.value <= |Content(l.file)|
                              && (l.mem.unrolled.value == |Content(l.file)| || io.repairTruncate));
            && (result.Some? <==> mended && io.open && io.stat && io.write.Durable?)
            && (result.Some? ==> result.value.sequence == |t.history| + 1
                                 && result.value == draft.(sequence := |t.history| + 1)
                                 && l'.mem.events == l.mem.events + [result.value] && l'.mem.unrolled.None?)
            && (result.None? ==> l'.mem.events == l.mem.events && l'.mem.current == l.mem.current)
            && (l'.mem.unrolled.Some? <==>
                  if mended then io.open && io.stat && io.write.Torn? && !io.rollback.RolledBack?
                  else true)
            && (l'.file.Some? <==> l.file.Some? || (mended && io.open))
  {
    hide Image, EncodeLine, LastIndexed, Suffix, Contiguous;
  }

  /**
   * A compaction that succeeds drops exactly the events up to its target, keeps
   * the rest, and leaves nothing to mend; one that ends before its rename, or
   * has nothing to drop, changes nothing.
   */
  lemma CompactDrops(c: Codec, l: Live, t: Trace, covered: int, io: CompactIo)
    requires Inv(c, l, t)
    ensures var l' := CompactStep(c, l, covered, io);
            var drops := l.mem.first <= covered && l.mem.first <= l.mem.current;
            && (io.Aborted? || io.FailsBeforeRename? || !drops ==> l' == l)
            && (io.Replaced? && drops ==>
                  && l'.mem.first == (if covered < l.mem.current then covered else l.mem.current) + 1
                  && l'.mem.current == l.mem.current && l'.mem.unrolled.None?
                  && l'.mem.events == Suffix(t.history, l'.mem.first))
            && (io.FailsAfterRename? ==> l'.mem == l.mem)
  {
    hide Image, LastIndexed, KeepFrom, CompactedFirst, Suffix, FileInv;
    CompactedFirstIs(l.mem, t, covered);
  }

  lemma {:induction false} KeepFromContiguous(evs: seq<Event>, first: nat, covered: int)
    requires Contiguous(evs, first)
    ensures var k := KeepFrom(evs, covered);
            k == if covered < first then 0 else if covered - first + 1 < |evs| then covered - first + 1 else |evs|
  {
    if evs != [] {
      KeepFromContiguous(evs[1..], first + 1, covered);
    }
  }

  function CompactTrace(l: Live, t: Trace, covered: int, io: CompactIo): Trace {
    var keep := KeepFrom(l.mem.events, covered);
    var t' := t.(reach := if covered > t.reach then covered else t.reach);
    if keep == 0 || io.Aborted? || io.FailsBeforeRename? then t'
    else t'.(headed := true, base := CompactedFirst(l.mem, keep), tail := [])
  }

  lemma KeptSequence(evs: seq<Event>, first: nat, covered: int)
    requires Contiguous(evs, first) && KeepFrom(evs, covered) < |evs|
    ensures evs[KeepFrom(evs, covered)].sequence == first + KeepFrom(evs, covered)
  {
  }

  lemma CompactedFirstIs(m: Memory, t: Trace, covered: int)
    requires MemInv(m, t)
    ensures var keep := KeepFrom(m.events, covered);
            && (keep > 0 <==> m.first <= covered && m.first <= m.current)
            && (keep > 0 ==>
                  && CompactedFirst(m, keep) == m.first + keep
                  && m.first + keep == (if covered < m.current then covered + 1 else m.current + 1)
                  && m.events[keep..] == Suffix(t.history, m.first + keep))
  {
    hide LastIndexed, KeepFrom, Suffix, Contiguous;
    SuffixFacts(t.history, m.first, 0);
    KeepFromContiguous(m.events, m.first, covered);
    SuffixFacts(t.history, m.first, KeepFrom(m.events, covered));
    if KeepFrom(m.events, covered) < |m.events| {
      KeptSequence(m.events, m.first, covered);
    }
  }

  lemma CompactKeepsMemInv(c: Codec, l: Live, t: Trace, covered: int, io: CompactIo)
    requires MemInv(l.mem, t)
    ensures MemInv(CompactStep(c, l, covered, io).mem, CompactTrace(l, t, covered, io))
  {
    hide Image, KeepFrom, CompactedFirst, Suffix, Contiguous, LastIndexed;
    var keep := KeepFrom(l.mem.events, covered);
    CompactedFirstIs(l.mem, t, covered);
    SuffixFacts(t.history, l.mem.first, 0);
    if keep > 0 && io.Replaced? {
      LastIndexedAfterDrop(l.mem.events, l.mem.first, keep);
    }
  }

  /** The committed bytes get shorter as the file starts later in the history. */
  lemma CommittedShrinks(c: Codec, headed: bool, base: nat, base': nat, history: seq<Event>)
    requires Good(c) && Contiguous(history, 1) && 1 <= base < base' <= |history| + 1
    ensures |Image(c, true, base', Suffix(history, base'))| < |Image(c, headed, base, Suffix(history, base))|
  {
    ImageShrinks(c, headed, base, history[base - 1..], base' - base);
    assert history[base - 1..][base' - base..] == history[base' - 1..];
  }

  /** What a rewrite leaves behind, in terms of where the file starts before and after. */
  lemma RewriteKeepsFileInv(c: Codec, l: Live, t: Trace, covered: int, io: CompactIo)
    requires MemInv(l.mem, t) && KeepFrom(l.mem.events, covered) > 0
    requires io.Replaced? || io.FailsAfterRename?
    ensures var t' := CompactTrace(l, t, covered, io);
            && Content(CompactStep(c, l, covered, io).file) == Committed(c, t') + t'.tail
            && (FileInv(c, CompactStep(c, l, covered, io).file, CompactStep(c, l, covered, io).mem.unrolled, t')
                <==> io.Replaced? || l.mem.unrolled.None? || |Committed(c, t')| <= l.mem.unrolled.value)
  {
    hide Image, KeepFrom, CompactedFirst, Suffix, Contiguous, LastIndexed;
    CompactedFirstIs(l.mem, t, covered);
    var t' := CompactTrace(l, t, covered, io);
    assert Committed(c, t') + [] == Committed(c, t');
  }

  /** With targets that never go back, every way a compaction can end keeps the file sound. */
  lemma CompactKeepsInv(c: Codec, l: Live, t: Trace, covered: int, io: CompactIo)
    requires Good(c) && Inv(c, l, t)
    requires covered >= t.reach
    ensures Inv(c, CompactStep(c, l, covered, io), CompactTrace(l, t, covered, io))
  {
    hide Image, LastIndexed, KeepFrom, CompactedFirst, Suffix;
    CompactKeepsMemInv(c, l, t, covered, io);
    var t' := CompactTrace(l, t, covered, io);
    if KeepFrom(l.mem.events, covered) > 0 && (io.Replaced? || io.FailsAfterRename?) {
      RewriteKeepsFileInv(c, l, t, covered, io);
      CompactedFirstIs(l.mem, t, covered);
      if t'.base > t.base {
        CommittedShrinks(c, t.headed, t.base, t'.base, t.history);
      }
    } else {
      assert Committed(c, t') == Committed(c, t);
    }
  }

  /**
   * Exactly when a compaction that renames and then fails is safe while a torn
   * append is still remembered: its new first sequence must not lie before the
   * first sequence the file already has. Otherwise the file grows past the
   * remembered length and the next repair cuts committed lines.
   */
  lemma RenameThenFailSafeIff(c: Codec, l: Live, t: Trace, covered: int)
    requires Good(c) && Inv(c, l, t)
    requires KeepFrom(l.mem.events, covered) > 0
    requires l.mem.unrolled == Some(|Committed(c, t)|)
    ensures var t' := CompactTrace(l, t, covered, FailsAfterRename);
            Inv(c, CompactStep(c, l, covered, FailsAfterRename), t') <==> t'.base >= t.base
  {
    hide Image, LastIndexed, KeepFrom, CompactedFirst, Suffix;
    CompactKeepsMemInv(c, l, t, covered, FailsAfterRename);
    RewriteKeepsFileInv(c, l, t, covered, FailsAfterRename);
    CompactedFirstIs(l.mem, t, covered);
    var t' := CompactTrace(l, t, covered, FailsAfterRename);
    if t'.base > t.base {
      CommittedShrinks(c, t.headed, t.base, t'.base, t.history);
    } else if t'.base < t.base {
      CommittedShrinks(c, true, t'.base, t.base, t.history);
    }
  }

  /** In the unsafe case the next append, with every system call succeeding, cuts committed bytes. */
  lemma UnsafeRenameLosesBytes(c: Codec, l: Live, t: Trace, covered: int, draft: Event)
    requires Good(c) && Inv(c, l, t)
    requires KeepFrom(l.mem.events, covered) > 0
    requires l.mem.unrolled == Some(|Committed(c, t)|)
    requires CompactTrace(l, t, covered, FailsAfterRename).base < t.base
    ensures var l' := CompactStep(c, l, covered, FailsAfterRename);
            var t' := CompactTrace(l, t, covered, FailsAfterRename);
            var (l'', result) := AppendStep(c, l', draft, AppendIo(true, true, true, true, Durable, RolledBack));
            && result.Some?
            && Content(l'.file) == Committed(c, t')
            && Content(l''.file) == Committed(c, t')[..|Committed(c, t)|] + EncodeLine(c, result.value)
            && |Committed(c, t)| < |Committed(c, t')|
  {
    hide Image, LastIndexed;
    RewriteKeepsFileInv(c, l, t, covered, FailsAfterRename);
    CompactedFirstIs(l.mem, t, covered);
    var t' := CompactTrace(l, t, covered, FailsAfterRename);
    CommittedShrinks(c, true, t'.base, t.base, t.history);
    assert Committed(c, t') + [] == Committed(c, t');
  }

  function OpenTrace(c: Codec, t: Trace): Trace {
    var adopted := t.tail != [] && t.tail == EncodeLine(c, t.torn);
    t.(history := if adopted then t.history + [t.torn] else t.history, tail := [], reach := 0)
  }

  /**
   * Reopening never reports corruption: it returns the committed events the
   * file holds, in order, plus at most one unacknowledged event whose line had
   * been written whole.
   */
  lemma OpenKeepsInv(c: Codec, l: Live, t: Trace)
    requires Good(c) && Inv(c, l, t)
    ensures OpenStep(c, l.file).Some?
    ensures var l' := OpenStep(c, l.file).value;
            var t' := OpenTrace(c, t);
            && Inv(c, l', t')
            && l'.mem.first == t.base
            && l'.mem.events == Suffix(t'.history, t.base)
            && (t'.history == t.history || (t'.history == t.history + [t.torn] && t.tail == EncodeLine(c, t.torn)))
  {
    hide Committed, LastIndexed, EncodeLine, ReplaySpec, Suffix, FileInv, Inv, MemInv, Contiguous, Good;
    var t' := OpenTrace(c, t);
    OpenTraceCommitted(c, l, t);
    SuffixFacts(t'.history, t.base, 0);
    var l' := OpenStep(c, l.file).value;
    OpenedMemInv(l'.mem, t');
    CleanFileInv(c, l'.file, t');
    CombineInv(c, l', t');
  }

  lemma OpenedMemInv(m: Memory, t: Trace)
    requires Contiguous(t.history, 1) && 1 <= m.first == t.base <= |t.history| + 1
    requires t.headed || t.base == 1
    requires m.events == Suffix(t.history, t.base) && m.index == LastIndexed(m.events)
    requires m.current == if m.events != [] then m.events[|m.events| - 1].sequence else m.first - 1
    ensures MemInv(m, t)
  {
    hide LastIndexed;
  }

  lemma CombineInv(c: Codec, l: Live, t: Trace)
    requires MemInv(l.mem, t) && FileInv(c, l.file, l.mem.unrolled, t)
    ensures Inv(c, l, t)
  {
  }

  /** Replay keeps precisely the bytes and events the trace calls committed. */
  lemma OpenTraceCommitted(c: Codec, l: Live, t: Trace)
    requires Good(c) && Inv(c, l, t)
    ensures var t' := OpenTrace(c, t);
            var replay := ReplaySpec(c, Content(l.file));
            && Contiguous(t'.history, 1) && 1 <= t'.base <= |t'.history| + 1
            && (t.headed || t.base == 1)
            && replay.Replayed? && replay.firstSequence == t.base
            && replay.events == Suffix(t'.history, t.base)
            && Content(l.file)[..replay.kept] == Committed(c, t')
            && replay.kept == |Committed(c, t')|
  {
    hide Image, LastIndexed, ReplaySpec, Suffix;
    var image := Committed(c, t);
    var evs := Suffix(t.history, t.base);
    var next := t.torn.(sequence := |t.history| + 1);
    SuffixFacts(t.history, t.base, 0);
    ReplayAnyFragment(c, t.headed, t.base, evs, next, t.tail);
    if t.tail == EncodeLine(c, next) {
      assert next == t.torn;
      CommitExtendsImage(c, t, next);
      SuffixSnoc(t.history, t.base, next);
    }
  }

  // ---- Whole runs ----

  datatype Step = Append(draft: Event, io: AppendIo) | Compact(covered: int, cio: CompactIo) | Reopen

  datatype World = World(live: Live, trace: Trace)

  /** `Reopen` stands for a crash or a stop followed by a new process. */
  function Next(c: Codec, w: World, s: Step): World {
    match s
    case Append(draft, io) =>
      World(AppendStep(c, w.live, draft, io).0, AppendTrace(c, w.live, w.trace, draft, io))
    case Compact(covered, io) =>
      World(CompactStep(c, w.live, covered, io), CompactTrace(w.live, w.trace, covered, io))
    case Reopen =>
      var reopened := OpenStep(c, w.live.file);
      if reopened.None? then w else World(reopened.value, OpenTrace(c, w.trace))
  }

  /** A compaction target never lies below an earlier one of the same process. */
  predicate Allowed(w: World, s: Step) {
    s.Compact? ==> s.covered >= w.trace.reach
  }

  function Run(c: Codec, steps: seq<Step>): World {
    if steps == [] then World(InitLive(), InitTrace())
    else Next(c, Run(c, steps[..|steps| - 1]), steps[|steps| - 1])
  }

  predicate AllowedRun(c: Codec, steps: seq<Step>) {
    steps == [] ||
    (AllowedRun(c, steps[..|steps| - 1]) && Allowed(Run(c, steps[..|steps| - 1]), steps[|steps| - 1]))
  }

  /** Over any mix of appends, torn appends, repairs, compactions and crashes the invariant holds. */
  lemma {:induction false} RunKeepsInv(c: Codec, steps: seq<Step>)
    requires Good(c) && AllowedRun(c, steps)
    ensures Inv(c, Run(c, steps).live, Run(c, steps).trace)
  {
    hide MemInv, FileInv;
    if steps == [] {
      InitInv(c);
    } else {
      var w := Run(c, steps[..|steps| - 1]);
      RunKeepsInv(c, steps[..|steps| - 1]);
      match steps[|steps| - 1]
      case Append(draft, io) => AppendKeepsInv(c, w.live, w.trace, draft, io);
      case Compact(covered, io) => CompactKeepsInv(c, w.live, w.trace, covered, io);
      case Reopen => OpenKeepsInv(c, w.live, w.trace);
    }
  }

  /**
   * Durability of every run: whatever happened, a replay of the file now gives
   * back the committed events since the file's first sequence, all of them in
   * order, and at most one more whole line that was never acknowledged.
   */
  lemma ReplayAfterAnyRun(c: Codec, steps: seq<Step>)
    requires Good(c) && AllowedRun(c, steps)
    ensures var w := Run(c, steps);
            var replay := ReplaySpec(c, Content(w.live.file));
            && replay.Replayed? && replay.firstSequence == w.trace.base <= |w.trace.history| + 1
            && (replay.events == Suffix(w.trace.history, w.trace.base)
                || (replay.events == Suffix(w.trace.history + [w.trace.torn], w.trace.base)
                    && w.trace.tail == EncodeLine(c, w.trace.torn)))
  {
    RunKeepsInv(c, steps);
    var w := Run(c, steps);
    OpenKeepsInv(c, w.live, w.trace);
  }

  /** After any run the index maps a key to its last retained indexed event, and to nothing without one. */
  lemma IndexAfterAnyRun(c: Codec, steps: seq<Step>, key: string)
    requires Good(c) && AllowedRun(c, steps)
    ensures var w := Run(c, steps);
            var m := w.live.mem;
            && m.events == Suffix(w.trace.history, m.first)
            && (key in m.index <==> exists i: nat :: IsLastIndexed(m.events, key, i))
            && (forall i: nat :: IsLastIndexed(m.events, key, i) ==> m.index[key] == m.events[i])
  {
    hide IsLastIndexed, LastIndexed, Run;
    RunKeepsInv(c, steps);
    LastIndexedMeaning(Run(c, steps).live.mem.events, key);
  }

  /** No step rewrites or forgets the committed history; only appends and adoption extend it. */
  lemma HistoryOnlyGrows(c: Codec, w: World, s: Step)
    requires Inv(c, w.live, w.trace)
    ensures var h' := Next(c, w, s).trace.history;
            match s
            case Append(draft, io) =>
              var result := AppendStep(c, w.live, draft, io).1;
              h' == w.trace.history + (if result.Some? then [result.value] else [])
            case Compact(_, _) => h' == w.trace.history
            case Reopen => h' == w.trace.history || h' == w.trace.history + [w.trace.torn]
  {
    if s.Append? { AppendKeepsInv(c, w.live, w.trace, s.draft, s.io); }
  }

  // ---- A run that comes to the unsafe case ----

  const ALL_WELL: AppendIo := AppendIo(true, true, true, true, Durable, RolledBack)

  /** Nothing is left to repair, `n` events are committed, and the file starts at `base`. */
  ghost predicate Stands(c: Codec, w: World, n: nat, base: nat, reach: int) {
    && Inv(c, w.live, w.trace) && |w.trace.history| == n && w.live.mem.first == 1 && w.trace.base == base
    && w.trace.reach == reach && w.live.mem.unrolled.None?
  }

  lemma RunStep(c: Codec, steps: seq<Step>, s: Step)
    ensures Run(c, steps + [s]) == Next(c, Run(c, steps), s)
    ensures AllowedRun(c, steps + [s]) <==> AllowedRun(c, steps) && Allowed(Run(c, steps), s)
  {
    assert (steps + [s])[..|steps|] == steps;
  }

  lemma CommitsOne(c: Codec, w: World, draft: Event, n: nat)
    requires Stands(c, w, n, 1, 0)
    ensures Stands(c, Next(c, w, Append(draft, ALL_WELL)), n + 1, 1, 0)
  {
    hide MemInv, FileInv, EncodeLine;
    AppendKeepsInv(c, w.live, w.trace, draft, ALL_WELL);
  }

  lemma {:induction false} CommitsSome(c: Codec, draft: Event, n: nat) returns (steps: seq<Step>)
    requires Good(c)
    ensures AllowedRun(c, steps) && Stands(c, Run(c, steps), n, 1, 0)
  {
    hide Stands, Run;
    if n == 0 {
      steps := [];
      StartStands(c);
    } else {
      var before := CommitsSome(c, draft, n - 1);
      steps := before + [Append(draft, ALL_WELL)];
      RunStep(c, before, Append(draft, ALL_WELL));
      CommitsOne(c, Run(c, before), draft, n - 1);
    }
  }

  lemma StartStands(c: Codec)
    ensures AllowedRun(c, []) && Stands(c, Run(c, []), 0, 1, 0)
  {
    InitInv(c);
  }

  /** A compaction renames and then fails: the file starts later than the memory. */
  lemma StartsLater(c: Codec, w: World)
    requires Good(c) && Stands(c, w, 3, 1, 0)
    ensures Stands(c, Next(c, w, Compact(2, FailsAfterRename)), 3, 3, 2)
  {
    MemoryAsHistory(w.live.mem, w.trace);
    CompactedFirstIs(w.live.mem, w.trace, 2);
    hide MemInv, FileInv, Image, KeepFrom;
    CompactKeepsInv(c, w.live, w.trace, 2, FailsAfterRename);
  }

  lemma MemoryAsHistory(m: Memory, t: Trace)
    requires MemInv(m, t)
    ensures m.current == |t.history|
  {
  }

  /** A torn append cannot be rolled back. */
  lemma TearsOne(c: Codec, w: World, draft: Event)
    requires Stands(c, w, 3, 3, 2)
    ensures var w' := Next(c, w, Append(draft, ALL_WELL.(write := Torn(0), rollback := TruncateFails)));
            && Inv(c, w'.live, w'.trace) && w'.live.mem == w.live.mem.(unrolled := Some(|Committed(c, w'.trace)|))
            && |w'.trace.history| == 3 && w'.trace.base == 3 && w'.trace.reach == 2
  {
    hide MemInv, Image, EncodeLine;
    AppendKeepsInv(c, w.live, w.trace, draft, ALL_WELL.(write := Torn(0), rollback := TruncateFails));
  }

  /**
   * The unsafe case is not far: after three commits, a compaction that renames
   * and fails and a torn append that cannot be rolled back, one more compaction
   * that renames and fails, to a lower target, makes the file start earlier.
   */
  lemma UnsafeRenameIsReached(c: Codec, draft: Event) returns (steps: seq<Step>)
    requires Good(c)
    ensures AllowedRun(c, steps)
    ensures var w := Run(c, steps);
            && Inv(c, w.live, w.trace) && w.live.mem.unrolled == Some(|Committed(c, w.trace)|)
            && KeepFrom(w.live.mem.events, 1) > 0 && 1 < w.trace.reach
            && CompactTrace(w.live, w.trace, 1, FailsAfterRename).base < w.trace.base
  {
    hide Run, Inv, Stands, Committed, AppendStep, AppendTrace, CompactStep, KeepFrom;
    var torn := Append(draft, ALL_WELL.(write := Torn(0), rollback := TruncateFails));
    var some := CommitsSome(c, draft, 3);
    StartsLater(c, Run(c, some));
    RunStep(c, some, Compact(2, FailsAfterRename));
    StandsReach(c, Run(c, some), 3, 1, 0);
    var more := some + [Compact(2, FailsAfterRename)];
    StandsReach(c, Run(c, more), 3, 3, 2);
    TearsOne(c, Run(c, more), draft);
    RunStep(c, more, torn);
    steps := more + [torn];
    StartsEarlier(c, Run(c, steps));
  }

  lemma StandsReach(c: Codec, w: World, n: nat, base: nat, reach: int)
    requires Stands(c, w, n, base, reach)
    ensures w.trace.reach == reach && w.live.mem.first == 1
  {
  }

  lemma StartsEarlier(c: Codec, w: World)
    requires Inv(c, w.live, w.trace) && |w.trace.history| == 3 && w.trace.base == 3 && w.live.mem.first == 1
    ensures KeepFrom(w.live.mem.events, 1) > 0
    ensures CompactTrace(w.live, w.trace, 1, FailsAfterRename).base < w.trace.base
  {
    MemoryAsHistory(w.live.mem, w.trace);
    CompactedFirstIs(w.live.mem, w.trace, 1);
    hide MemInv, FileInv, KeepFrom;
  }
}
