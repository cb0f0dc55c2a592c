/**
 * The journal object: the fields it updates in place and the file behind it.
 * Every method is proved to take the step the state machine prescribes.
 */
module ControlJournals {
  import opened ControlEvents
  import opened JournalFormat
  import opened JournalModel
  import opened JsMap
  import opened Folds
  import opened Recovery

  /** The journal file; absent until first created. */
  class JournalFile {
    var bytes: Option<Bytes>

    constructor (bytes: Option<Bytes>)
      ensures this.bytes == bytes
    {
      this.bytes := bytes;
    }
  }

  // ---- Reading by position ----

  /** JavaScript's `slice(start, end)`: negative positions count from the end. */
  function JsSlice<T>(s: seq<T>, start: int, end: Option<int>): (r: seq<T>)
    ensures 0 <= start <= |s| && end == None ==> r == s[start..]
    ensures 0 <= start <= |s| && end.Some? && end.value >= start ==>
              r == s[start..if end.value < |s| then end.value else |s|]
  {
    var from := SliceIndex(start, |s|);
    var to := if end.None? then |s| else SliceIndex(end.value, |s|);
    if from <= to then s[from..to] else []
  }

  function SliceIndex(i: int, length: nat): (r: nat)
    ensures r <= length
  {
    if i < 0 then (if length + i < 0 then 0 else length + i)
    else if i < length then i else length
  }

  /** A page of the elements from `start` on; a negative limit leaves that many out when it reaches below zero. */
  lemma PageOfSuffix<T>(s: seq<T>, start: nat, limit: int)
    requires start < |s|
    ensures var page := JsSlice(s, start, Some(start + limit));
            if limit >= 0 then page == s[start..][..if limit < |s| - start then limit else |s| - start]
            else page == if start < -limit < |s| then s[start..][..|s| + limit] else []
  {
    if limit < 0 && start < -limit < |s| {
      assert s[start..][..|s| + limit] == s[start..|s| + start + limit];
    }
  }

  /** Everything recorded after a sequence, event by event. */
  function Newer(evs: seq<Event>, after: int): seq<Event> {
    if evs == [] then []
    else
      var e := evs[|evs| - 1];
      Newer(evs[..|evs| - 1], after) + (if e.sequence > after then [e] else [])
  }

  lemma {:induction false} NewerByIndex(evs: seq<Event>, first: nat, after: int)
    requires Contiguous(evs, first)
    ensures Newer(evs, after) ==
              if after < first then evs else if after - first + 1 < |evs| then evs[after - first + 1..] else []
  {
    if evs != [] {
      var n := |evs| - 1;
      NewerByIndex(evs[..n], first, after);
      assert evs == evs[..n] + [evs[n]] && evs[n].sequence == first + n;
      if 0 <= after - first + 1 <= n {
        assert evs[after - first + 1..] == evs[..n][after - first + 1..] + [evs[n]];
      }
    }
  }

  // ---- Recovery as a series of appends ----

  function RecoveryDraft(o: OpenRecord): Event {
    RecoveredEvent(o, 0)
  }

  /** Appends a terminal event per transaction in order; the first refused append ends it. */
  function RecoverAppends(c: Codec, l: Live, todo: seq<OpenRecord>, io: nat -> AppendIo): (Live, Option<seq<Event>>) {
    if todo == [] then (l, Some([]))
    else
      var n := |todo| - 1;
      var (l1, done) := RecoverAppends(c, l, todo[..n], io);
      if done.None? then (l1, None)
      else
        var (l2, appended) := AppendStep(c, l1, RecoveryDraft(todo[n]), io(n));
        (l2, if appended.None? then None else Some(done.value + [appended.value]))
  }

  function RecoverTrace(c: Codec, l: Live, t: Trace, todo: seq<OpenRecord>, io: nat -> AppendIo): Trace {
    if todo == [] then t
    else
      var n := |todo| - 1;
      var (l1, done) := RecoverAppends(c, l, todo[..n], io);
      var t1 := RecoverTrace(c, l, t, todo[..n], io);
      if done.None? then t1 else AppendTrace(c, l1, t1, RecoveryDraft(todo[n]), io(n))
  }

  /** With nothing left to mend and every append going well, recovery returns. */
  lemma {:induction false} RecoverSucceeds(c: Codec, l: Live, todo: seq<OpenRecord>, io: nat -> AppendIo)
    requires l.mem.unrolled.None?
    requires forall i: nat :: i < |todo| ==> io(i).open && io(i).stat && io(i).write.Durable?
    ensures var (l', done) := RecoverAppends(c, l, todo, io);
            && l'.mem.unrolled.None? && done.Some? && |done.value| == |todo|
            && l'.mem.events == l.mem.events + done.value && l'.mem.current == l.mem.current + |todo|
  {
    hide EncodeLine, IndexEvent;
    if todo == [] {
      assert l.mem.events + [] == l.mem.events;
    } else {
      var n := |todo| - 1;
      RecoverSucceeds(c, l, todo[..n], io);
      var (l1, done) := RecoverAppends(c, l, todo[..n], io);
      assert io(n).open;
    }
  }

  /** Recovery that returns has committed exactly the terminal events it owes, in sequence order. */
  lemma {:induction false} RecoverAppendsCommits(c: Codec, l: Live, t: Trace, todo: seq<OpenRecord>,
                                                   io: nat -> AppendIo)
    requires Good(c) && Inv(c, l, t)
    ensures var (l', done) := RecoverAppends(c, l, todo, io);
            var t' := RecoverTrace(c, l, t, todo, io);
            && Inv(c, l', t')
            && (done.Some? ==> done.value == RecoveredEvents(todo, |t.history| + 1)
                               && t'.history == t.history + done.value)
  {
    if todo == [] {
      NothingRecovered(|t.history| + 1);
      assert t.history + [] == t.history;
    } else {
      RecoverAppendsCommits(c, l, t, todo[..|todo| - 1], io);
      RecoverOneMore(c, l, t, todo, io);
    }
  }

  lemma RecoverOneMore(c: Codec, l: Live, t: Trace, todo: seq<OpenRecord>, io: nat -> AppendIo)
    requires Good(c) && todo != []
    requires var (l1, done) := RecoverAppends(c, l, todo[..|todo| - 1], io);
             var t1 := RecoverTrace(c, l, t, todo[..|todo| - 1], io);
             && Inv(c, l1, t1)
             && (done.Some? ==> done.value == RecoveredEvents(todo[..|todo| - 1], |t.history| + 1)
                                && t1.history == t.history + done.value)
    ensures var (l', done) := RecoverAppends(c, l, todo, io);
            var t' := RecoverTrace(c, l, t, todo, io);
            && Inv(c, l', t')
            && (done.Some? ==> done.value == RecoveredEvents(todo, |t.history| + 1)
                               && t'.history == t.history + done.value)
  {
    hide Inv, AppendStep, AppendTrace, RecoveredEvents;
    var n := |todo| - 1;
    var (l1, done) := RecoverAppends(c, l, todo[..n], io);
    var t1 := RecoverTrace(c, l, t, todo[..n], io);
    if done.Some? {
      var draft := RecoveryDraft(todo[n]);
      AppendKeepsInv(c, l1, t1, draft, io(n));
      var (l2, appended) := AppendStep(c, l1, draft, io(n));
      assert RecoverAppends(c, l, todo, io)
          == (l2, if appended.None? then None else Some(done.value + [appended.value]));
      assert RecoverTrace(c, l, t, todo, io) == AppendTrace(c, l1, t1, draft, io(n));
      if appended.Some? {
        CurrentIsHistory(c, l1, t1);
        RecoveredSnoc(todo, |t.history| + 1);
        assert t.history + done.value + [appended.value] == t.history + (done.value + [appended.value]);
      }
    }
  }

  lemma AppendedEvent(c: Codec, l: Live, draft: Event, io: AppendIo)
    ensures var (l', result) := AppendStep(c, l, draft, io);
            result.Some? ==> TxnOf(result.value) == TxnOf(draft)
                             && l'.mem.events == l.mem.events + [result.value]
  {
  }

  lemma NothingRecovered(next: nat)
    ensures RecoveredEvents([], next) == []
  {
  }

  lemma RecoveredSnoc(todo: seq<OpenRecord>, next: nat)
    requires todo != []
    ensures var n := |todo| - 1;
            RecoveredEvents(todo, next) == RecoveredEvents(todo[..n], next) + [RecoveredEvent(todo[n], next + n)]
  {
  }

  lemma CurrentIsHistory(c: Codec, l: Live, t: Trace)
    requires Inv(c, l, t)
    ensures l.mem.current == |t.history|
  {
    hide FileInv, LastIndexed, Suffix;
  }

  /** Some retained event ends the transaction. */
  predicate Terminated(evs: seq<Event>, t: Txn) {
    exists i :: 0 <= i < |evs| && TerminalKind(evs[i].kind) && TxnOf(evs[i]) == t
  }

  lemma TerminatedIsMember(evs: seq<Event>, t: Txn)
    requires t.commandId != "" && t.key != ""
    ensures Terminated(evs, t) <==> t in TerminalTxns(evs)
  {
    if Terminated(evs, t) {
      var i :| 0 <= i < |evs| && TerminalKind(evs[i].kind) && TxnOf(evs[i]) == t;
      assert evs[i] in evs;
    }
    if t in TerminalTxns(evs) {
      var e :| e in evs && TerminalKind(e.kind) && NamesTxn(e) && TxnOf(e) == t;
      var i :| 0 <= i < |evs| && evs[i] == e;
    }
  }

  lemma PermutedKeys(a: seq<OpenRecord>, b: seq<OpenRecord>)
    requires multiset(a) == multiset(b) && DistinctKeys(a)
    ensures DistinctKeys(b)
  {
    forall i, j | 0 <= i < j < |b| ensures b[i].key != b[j].key {
      assert b[i] in multiset(a) && b[j] in multiset(a);
      var p :| 0 <= p < |a| && a[p] == b[i];
      var q :| 0 <= q < |a| && a[q] == b[j];
      if b[i] == b[j] {
        CountTwice(b, i, j);
        CountOnce(a, p);
      }
    }
  }

  predicate Named(t: Txn) {
    t.commandId != "" && t.key != ""
  }

  lemma {:induction false} SetAllNamed(restored: seq<OpenRecord>)
    requires forall i :: 0 <= i < |restored| ==> Named(restored[i].key)
    ensures forall t :: t in LastMap(restored) ==> Named(t) && LastMap(restored)[t].key == t
  {
    if restored != [] { SetAllNamed(restored[..|restored| - 1]); }
  }

  lemma {:induction false} OpenFromNamed(m: OpenTxns, evs: seq<Event>)
    requires forall t :: t in m ==> Named(t) && m[t].key == t
    ensures var m' := OpenFrom(m, evs); forall t :: t in m' ==> Named(t) && m'[t].key == t
  {
    if evs != [] { OpenFromNamed(m, evs[..|evs| - 1]); }
  }

  /** Recovery's candidates carry distinct, well-formed transactions. */
  lemma CandidateKeys(restored: seq<OpenRecord>, evs: seq<Event>)
    requires forall i :: 0 <= i < |restored| ==> Named(restored[i].key)
    ensures var open := SortBySequence(Values(ApplyEvents(SetAll([], restored), evs)));
            DistinctKeys(open) && forall i :: 0 <= i < |open| ==> Named(open[i].key)
  {
    hide ToMap, Distinct, Values, ApplyEvents, SetAll, SortBySequence, OpenFrom, LastMap;
    var m := ApplyEvents(SetAll([], restored), evs);
    SetAllIsLastMap(restored);
    SetAllNamed(restored);
    ApplyEventsIsOpenFrom(SetAll([], restored), evs);
    OpenFromNamed(LastMap(restored), evs);
    KeyedValues(m);
    DistinctAt(m);
    var vs, open := Values(m), SortBySequence(Values(m));
    assert multiset(open) == multiset(vs);
    PermutedKeys(vs, open);
    forall i | 0 <= i < |open| ensures Named(open[i].key) {
      assert open[i] in multiset(vs);
    }
  }

  lemma {:induction false} RecoverStopped(c: Codec, l: Live, todo: seq<OpenRecord>, k: nat, io: nat -> AppendIo)
    requires k <= |todo| && RecoverAppends(c, l, todo[..k], io).1.None?
    ensures RecoverAppends(c, l, todo, io) == RecoverAppends(c, l, todo[..k], io)
  {
    if k == |todo| {
      assert todo[..k] == todo;
    } else {
      assert todo[..|todo| - 1][..k] == todo[..k];
      RecoverStopped(c, l, todo[..|todo| - 1], k, io);
    }
  }

  lemma RecoverNone(c: Codec, l: Live, io: nat -> AppendIo)
    ensures RecoverAppends(c, l, [], io) == (l, Some([]))
  {
  }

  lemma WithoutNone(rs: seq<OpenRecord>, keys: set<Txn>)
    ensures rs[..0] == [] && Without(rs[..0], keys) == []
  {
  }

  lemma RecoverSnoc(c: Codec, l: Live, todo: seq<OpenRecord>, o: OpenRecord, io: nat -> AppendIo)
    ensures var (l1, done) := RecoverAppends(c, l, todo, io);
            done.Some? ==>
              var (l2, appended) := AppendStep(c, l1, RecoveryDraft(o), io(|todo|));
              RecoverAppends(c, l, todo + [o], io)
                == (l2, if appended.None? then None else Some(done.value + [appended.value]))
  {
    assert (todo + [o])[..|todo|] == todo;
  }

  /** The first refused append ends recovery, whatever was still to do. */
  lemma StoppedAt(c: Codec, l: Live, open: seq<OpenRecord>, terminal: set<Txn>, i: nat, io: nat -> AppendIo)
    requires i <= |open| && RecoverAppends(c, l, Without(open[..i], terminal), io).1.None?
    ensures RecoverAppends(c, l, Without(open, terminal), io) == RecoverAppends(c, l, Without(open[..i], terminal), io)
  {
    hide Without, RecoverAppends;
    WithoutPrefix(open, terminal, i);
    var todo, all := Without(open[..i], terminal), Without(open, terminal);
    assert todo == all[..|todo|];
    RecoverStopped(c, l, all, |todo|, io);
  }

  lemma {:induction false} WithoutPrefix<K, V>(rs: seq<Record<K, V>>, keys: set<K>, i: nat)
    requires i <= |rs|
    ensures Without(rs[..i], keys) <= Without(rs, keys)
  {
    if i == |rs| {
      assert rs[..i] == rs;
    } else {
      assert rs[..|rs| - 1][..i] == rs[..i];
      WithoutPrefix(rs[..|rs| - 1], keys, i);
    }
  }

  lemma WithoutSnoc(rs: seq<OpenRecord>, keys: set<Txn>, i: nat)
    requires i < |rs|
    ensures rs[..i + 1] == rs[..i] + [rs[i]]
    ensures Without(rs[..i + 1], keys)
         == if rs[i].key in keys then Without(rs[..i], keys) else Without(rs[..i], keys) + [rs[i]]
  {
    assert rs[..i + 1][..i] == rs[..i];
  }

  lemma SliceSnoc(raw: Bytes, a: nat, i: nat)
    requires a <= i < |raw|
    ensures raw[a..i + 1] == raw[a..i] + [raw[i]]
  {
  }

  /** The bytes replay leaves in the file are those its result says it kept. */
  lemma ReplayedBytes(c: Codec, before: Option<Bytes>, after: Option<Bytes>)
    requires var (complete, tail) := Split(Content(before));
             after == if tail == [] then before else Some(Join(complete))
    ensures var r := ReplaySpec(c, Content(before));
            r.Replayed? ==> after == if before.None? then None else Some(before.value[..r.kept])
  {
    hide ParseEvents, FirstBadLine, HeaderOf, Split, Join;
    SplitJoin(Content(before));
    EmptySplit();
    var (complete, tail) := Split(Content(before));
    if before.Some? {
      assert before.value[..|before.value|] == before.value;
      assert (Join(complete) + tail)[..|before.value| - |tail|] == Join(complete);
    }
  }

  lemma EmptySplit()
    ensures Split([]) == ([], [])
  {
  }

  /** What recovery has appended once it dealt with the first `i` candidates. */
  predicate SoFar(open: seq<OpenRecord>, terminal: set<Txn>, i: nat, appended: seq<Event>) {
    && i <= |open|
    && |appended| == |Without(open[..i], terminal)|
    && forall k :: 0 <= k < |appended| ==> TxnOf(appended[k]) == Without(open[..i], terminal)[k].key
  }

  lemma NothingYet(open: seq<OpenRecord>, terminal: set<Txn>, c: Codec, l: Live, io: nat -> AppendIo)
    ensures SoFar(open, terminal, 0, [])
    ensures RecoverAppends(c, l, Without(open[..0], terminal), io) == (l, Some([]))
  {
    WithoutNone(open, terminal);
    RecoverNone(c, l, io);
  }

  /** A candidate is skipped exactly when the journal ended it before: what was appended since is of others. */
  lemma StillOpen(evs: seq<Event>, open: seq<OpenRecord>, i: nat, appended: seq<Event>)
    requires i < |open| && DistinctKeys(open) && Named(open[i].key) && SoFar(open, TerminalTxns(evs), i, appended)
    ensures Terminated(evs + appended, open[i].key) <==> open[i].key in TerminalTxns(evs)
  {
    TerminatedIsMember(evs, open[i].key);
    AppendedForOthers(open, TerminalTxns(evs), i, appended);
    hide TerminalTxns, SoFar, DistinctKeys;
    if Terminated(evs, open[i].key) {
      var p :| 0 <= p < |evs| && TerminalKind(evs[p].kind) && TxnOf(evs[p]) == open[i].key;
      assert (evs + appended)[p] == evs[p];
    }
    if Terminated(evs + appended, open[i].key) {
      var p :| 0 <= p < |evs + appended| && TerminalKind((evs + appended)[p].kind)
               && TxnOf((evs + appended)[p]) == open[i].key;
      assert p < |evs|;
      assert (evs + appended)[p] == evs[p];
    }
  }

  lemma AppendedForOthers(open: seq<OpenRecord>, terminal: set<Txn>, i: nat, appended: seq<Event>)
    requires i < |open| && DistinctKeys(open) && SoFar(open, terminal, i, appended)
    ensures forall k :: 0 <= k < |appended| ==> TxnOf(appended[k]) != open[i].key
  {
    hide Without;
    var todo := Without(open[..i], terminal);
    forall k | 0 <= k < |appended| ensures TxnOf(appended[k]) != open[i].key {
      WithoutMembers(open[..i], terminal, todo[k]);
      assert todo[k] in open[..i];
    }
  }

  lemma Skipped(open: seq<OpenRecord>, terminal: set<Txn>, i: nat, appended: seq<Event>)
    requires i < |open| && SoFar(open, terminal, i, appended) && open[i].key in terminal
    ensures Without(open[..i + 1], terminal) == Without(open[..i], terminal) && SoFar(open, terminal, i + 1, appended)
  {
    hide Without;
    WithoutSnoc(open, terminal, i);
  }

  /** One more append, taken or refused. */
  lemma OneAppended(c: Codec, before: Live, open: seq<OpenRecord>, terminal: set<Txn>, i: nat, appended: seq<Event>,
                    l: Live, io: nat -> AppendIo)
    requires i < |open| && SoFar(open, terminal, i, appended) && open[i].key !in terminal
    requires RecoverAppends(c, before, Without(open[..i], terminal), io) == (l, Some(appended))
    ensures var (l', event) := AppendStep(c, l, RecoveryDraft(open[i]), io(|appended|));
            if event.None? then RecoverAppends(c, before, Without(open, terminal), io) == (l', None)
            else
              && RecoverAppends(c, before, Without(open[..i + 1], terminal), io) == (l', Some(appended + [event.value]))
              && SoFar(open, terminal, i + 1, appended + [event.value])
              && l'.mem.events == l.mem.events + [event.value]
  {
    hide Without, RecoverAppends, AppendStep;
    var todo := Without(open[..i], terminal);
    WithoutSnoc(open, terminal, i);
    RecoverSnoc(c, before, todo, open[i], io);
    AppendedEvent(c, l, RecoveryDraft(open[i]), io(|appended|));
    if AppendStep(c, l, RecoveryDraft(open[i]), io(|appended|)).1.None? {
      StoppedAt(c, before, open, terminal, i + 1, io);
    }
  }

  class ControlJournal {
    const codec: Codec
    const file: JournalFile
    var events: seq<Event>
    var currentSequence: nat
    var firstRetainedSequence: nat
    var idempotencyIndex: map<string, Event>
    var unrolledAppendLength: Option<nat>

    /** The abstract state these fields and the file spell. */
    ghost function State(): Live
      reads this, file
    {
      Live(file.bytes, Memory(events, currentSequence, firstRetainedSequence, idempotencyIndex, unrolledAppendLength))
    }

    constructor (codec: Codec, file: JournalFile, events: seq<Event>, firstSequence: nat)
      requires firstSequence >= 1
      ensures this.codec == codec && this.file == file
      ensures State() == Live(file.bytes,
                Memory(events, if events != [] then events[|events| - 1].sequence else firstSequence - 1,
                       firstSequence, LastIndexed(events), None))
    {
      this.codec := codec;
      this.file := file;
      this.events := events;
      this.firstRetainedSequence := firstSequence;
      this.currentSequence := if events != [] then events[|events| - 1].sequence else firstSequence - 1;
      this.unrolledAppendLength := None;
      this.idempotencyIndex := map[];
      new;
      var index: map<string, Event> := map[];
      for i := 0 to |events|
        invariant index == LastIndexed(events[..i])
      {
        assert events[..i + 1][..i] == events[..i];
        index := IndexEvent(index, events[i]);
      }
      assert events[..|events|] == events;
      idempotencyIndex := index;
    }

    /**
     * Reads the file back. A final line without its newline is cut off; every
     * other line must parse as the header or as the next event in sequence.
     */
    static method Replay(codec: Codec, file: JournalFile) returns (r: Replayed)
      modifies file
      ensures r == ReplaySpec(codec, Content(old(file.bytes)))
      ensures var (complete, tail) := Split(Content(old(file.bytes)));
              file.bytes == if tail == [] then old(file.bytes) else Some(Join(complete))
    {
      if file.bytes.None? { return Replayed([], 1, 0); }
      var raw := file.bytes.value;
      SplitJoin(raw);
      var segments, tail := SplitLines(raw);
      if tail == [] {
        segments := PopEmpty(segments);
      } else {
        file.bytes := Some(raw[..|raw| - |tail|]);
      }
      var first, from := 1, 0;
      if segments != [] {
        match codec.decode(segments[0])
        case Some(Header(n)) => if n >= 1 { first, from := n, 1; }
        case _ =>
      }
      var parsed, bad := ParseLoop(codec, segments, from, first);
      r := if bad == 0 then Replayed(parsed, first, |raw| - |tail|) else Corrupt(bad);
    }

    static method SplitLines(raw: Bytes) returns (segments: seq<Bytes>, tail: Bytes)
      ensures (segments, tail) == Split(raw)
    {
      segments := [];
      var start := 0;
      for i := 0 to |raw|
        invariant 0 <= start <= i
        invariant (segments, raw[start..i]) == Split(raw[..i])
      {
        assert raw[..i + 1][..i] == raw[..i];
        if raw[i] == NEWLINE {
          segments := segments + [raw[start..i]];
          start := i + 1;
          assert raw[start..i + 1] == [];
        } else {
          SliceSnoc(raw, start, i);
        }
      }
      assert raw[..|raw|] == raw;
      tail := raw[start..];
    }

    static method PopEmpty(lines: seq<Bytes>) returns (segments: seq<Bytes>)
      ensures segments == DropTrailingEmpty(lines)
    {
      segments := lines;
      while segments != [] && segments[|segments| - 1] == []
        invariant DropTrailingEmpty(segments) == DropTrailingEmpty(lines)
        decreases |segments|
      {
        segments := segments[..|segments| - 1];
      }
    }

    /** `bad` is the number of the first line that is not the next event, or 0. */
    static method ParseLoop(codec: Codec, segments: seq<Bytes>, from: nat, first: nat)
      returns (parsed: seq<Event>, bad: nat)
      requires from <= |segments|
      ensures match ParseEvents(codec, segments, from, first)
              case Some(evs) => bad == 0 && parsed == evs
              case None => bad == FirstBadLine(codec, segments, from, first) > 0
    {
      parsed := [];
      var expected := first;
      assert forall rest: seq<Event> :: [] + rest == rest;
      for i := from to |segments|
        invariant expected == first + (i - from)
        invariant FirstBadLine(codec, segments, from, first) == FirstBadLine(codec, segments, i, expected)
        invariant match ParseEvents(codec, segments, i, expected)
                  case Some(rest) => ParseEvents(codec, segments, from, first) == Some(parsed + rest)
                  case None => ParseEvents(codec, segments, from, first) == None
      {
        match codec.decode(segments[i])
        case Some(Line(e)) =>
          if e.sequence != expected { return parsed, i + 1; }
          ghost var rest := ParseEvents(codec, segments, i + 1, expected + 1);
          assert rest.Some? ==> parsed + ([e] + rest.value) == parsed + [e] + rest.value;
          parsed := parsed + [e];
          expected := expected + 1;
        case _ => return parsed, i + 1;
      }
      assert parsed + [] == parsed;
      bad := 0;
    }

    /** Opens a journal over the file, unless the file is corrupt. */
    static method Open(codec: Codec, file: JournalFile) returns (j: ControlJournal?)
      modifies file
      ensures (j == null) == OpenStep(codec, old(file.bytes)).None?
      ensures j != null ==> fresh(j) && j.codec == codec && j.file == file
                            && Some(j.State()) == OpenStep(codec, old(file.bytes))
    {
      hide Split, Join, ReplaySpec, LastIndexed;
      var replayed := Replay(codec, file);
      ReplayedBytes(codec, old(file.bytes), file.bytes);
      match replayed
      case Corrupt(_) => j := null;
      case Replayed(evs, first, kept) => j := new ControlJournal(codec, file, evs, first);
    }

    /** Finishes a rollback an earlier append could not; `false` refuses the append. */
    method RepairUnrolledAppend(io: AppendIo) returns (ok: bool)
      modifies this`unrolledAppendLength, file
      ensures ok == Repair(old(State()), io).Some?
      ensures State() == if ok then Repair(old(State()), io).value else old(State())
    {
      if unrolledAppendLength.None? { return true; }
      var committedLength := unrolledAppendLength.value;
      if file.bytes.None? || !io.repairStat { return false; }
      var currentLength := |file.bytes.value|;
      if currentLength < committedLength { return false; }
      if currentLength > committedLength {
        if !io.repairTruncate { return false; }
        file.bytes := Some(file.bytes.value[..committedLength]);
      }
      unrolledAppendLength := None;
      ok := true;
    }

    method Append(draft: Event, io: AppendIo) returns (result: Option<Event>)
      modifies this, file
      ensures (State(), result) == AppendStep(codec, old(State()), draft, io)
    {
      var ok := RepairUnrolledAppend(io);
      if !ok { return None; }
      var event := draft.(sequence := currentSequence + 1);
      if !io.open { return None; }
      if file.bytes.None? { file.bytes := Some([]); }
      if !io.stat { return None; }
      var committedLength := |file.bytes.value|;
      var line := EncodeLine(codec, event);
      match io.write {
        case Torn(n) =>
          file.bytes := Some(file.bytes.value + line[..if n < |line| then n else |line|]);
          match io.rollback {
            case TruncateFails =>
              unrolledAppendLength := Some(committedLength);
            case SyncFails =>
              file.bytes := Some(file.bytes.value[..committedLength]);
              unrolledAppendLength := Some(committedLength);
            case RolledBack =>
              file.bytes := Some(file.bytes.value[..committedLength]);
          }
          return None;
        case Durable =>
          file.bytes := Some(file.bytes.value + line);
      }
      currentSequence := event.sequence;
      events := events + [event];
      idempotencyIndex := IndexEvent(idempotencyIndex, event);
      result := Some(event);
    }

    /**
     * The first `limit` retained events after a sequence, found by position.
     * A negative limit counts from the end, as `slice` does.
     */
    method Read(afterSequence: int, limit: Option<int>) returns (r: seq<Event>)
      requires Contiguous(events, firstRetainedSequence)
      ensures limit.None? ==> r == Newer(events, afterSequence)
      ensures limit.Some? && limit.value >= 0 ==>
                r == Newer(events, afterSequence)[..if limit.value < |Newer(events, afterSequence)|
                                                    then limit.value else |Newer(events, afterSequence)|]
      ensures limit.Some? && limit.value < 0 ==>
                var newer := Newer(events, afterSequence);
                r == if |events| - |newer| < -limit.value < |events| then newer[..|events| + limit.value] else []
    {
      NewerByIndex(events, firstRetainedSequence, afterSequence);
      if events == [] { return []; }
      var offset := afterSequence - events[0].sequence + 1;
      var start := if offset < 0 then 0 else offset;
      if start >= |events| { return []; }
      assert Newer(events, afterSequence) == events[start..];
      if limit.Some? { PageOfSuffix(events, start, limit.value); }
      var end := if limit.Some? then Some(start + limit.value) else None;
      r := JsSlice(events, start, end);
    }

    /** Drops the events at or below `covered` from the file and from memory. */
    method Compact(covered: int, io: CompactIo)
      modifies this, file
      ensures State() == CompactStep(codec, old(State()), covered, io)
    {
      var keepFrom := FindKept(events, covered);
      if keepFrom == 0 { return; }
      var retained := events[keepFrom..];
      var first := if retained != [] then retained[0].sequence else currentSequence + 1;
      if io.Aborted? || io.FailsBeforeRename? { return; }
      file.bytes := Some(Image(codec, true, first, retained));
      if io.FailsAfterRename? { return; }
      events := retained;
      firstRetainedSequence := first;
      unrolledAppendLength := None;
      DropBelow(first);
    }

    static method FindKept(events: seq<Event>, covered: int) returns (keep: nat)
      ensures keep == KeepFrom(events, covered)
    {
      keep := 0;
      while keep < |events| && events[keep].sequence <= covered
        invariant keep <= |events|
        invariant KeepFrom(events, covered) == keep + KeepFrom(events[keep..], covered)
      {
        assert events[keep..][1..] == events[keep + 1..];
        keep := keep + 1;
      }
    }

    /** Forgets every key whose last event lies below `first`, visiting the keys in any order. */
    method DropBelow(first: nat)
      modifies this`idempotencyIndex
      ensures idempotencyIndex == RestrictIndex(old(idempotencyIndex), first)
    {
      var keys := idempotencyIndex.Keys;
      while keys != {}
        invariant keys <= old(idempotencyIndex).Keys
        invariant forall k :: k in idempotencyIndex <==>
                    k in old(idempotencyIndex) && (k in keys || old(idempotencyIndex)[k].sequence >= first)
        invariant forall k :: k in idempotencyIndex ==> idempotencyIndex[k] == old(idempotencyIndex)[k]
        decreases |keys|
      {
        var key :| key in keys;
        if idempotencyIndex[key].sequence < first {
          idempotencyIndex := idempotencyIndex - {key};
        }
        keys := keys - {key};
      }
    }

    /**
     * Ends every transaction a previous process left open. The result is
     * `None` when an append was refused part of the way.
     */
    method RecoverNonterminalCommands(restored: seq<OpenRecord>, io: nat -> AppendIo)
      returns (recovered: Option<seq<Event>>)
      requires forall i :: 0 <= i < |restored| ==> restored[i].key.commandId != "" && restored[i].key.key != ""
      modifies this, file
      ensures (State(), recovered)
           == RecoverAppends(codec, old(State()), RecoverTodo(restored, old(events)), io)
    {
      hide ToMap, Distinct, Values, ApplyEvents, SetAll, SortBySequence, AppendStep, TerminalTxns, Terminated,
           Without, RecoverAppends, SoFar, DistinctKeys, RecoveryDraft;
      ghost var before := State();
      var terminal, nonterminal := CollectTransactions(restored);
      var open := SortBySequence(Values(nonterminal));
      CandidateKeys(restored, events);
      NothingYet(open, terminal, codec, before, io);
      var appended: seq<Event> := [];
      for i := 0 to |open|
        invariant SoFar(open, terminal, i, appended)
        invariant RecoverAppends(codec, before, Without(open[..i], terminal), io) == (State(), Some(appended))
        invariant events == before.mem.events + appended
      {
        StillOpen(before.mem.events, open, i, appended);
        if open[i].key in terminal || Terminated(events, open[i].key) {
          Skipped(open, terminal, i, appended);
        } else {
          OneAppended(codec, before, open, terminal, i, appended, State(), io);
          var event := Append(RecoveryDraft(open[i]), io(|appended|));
          if event.None? { return None; }
          appended := appended + [event.value];
        }
      }
      assert open[..|open|] == open;
      recovered := Some(appended);
    }

    method CollectTransactions(restored: seq<OpenRecord>)
      returns (terminal: set<Txn>, nonterminal: JsMap<Txn, OpenRecord>)
      ensures terminal == TerminalTxns(events)
      ensures nonterminal == ApplyEvents(SetAll([], restored), events)
    {
      terminal, nonterminal := {}, [];
      for i := 0 to |restored|
        invariant nonterminal == SetAll([], restored[..i])
      {
        assert restored[..i + 1][..i] == restored[..i];
        nonterminal := Set(nonterminal, restored[i].key, restored[i]);
      }
      assert restored[..|restored|] == restored;
      for i := 0 to |events|
        invariant nonterminal == ApplyEvents(SetAll([], restored), events[..i])
        invariant terminal == TerminalTxns(events[..i])
      {
        assert events[..i + 1] == events[..i] + [events[i]];
        var e := events[i];
        if NamesTxn(e) {
          if TerminalKind(e.kind) {
            terminal := terminal + {TxnOf(e)};
            nonterminal := Delete(nonterminal, TxnOf(e));
          } else if OpenKind(e.kind) {
            nonterminal := Set(nonterminal, TxnOf(e), OpenOf(e));
          }
        }
      }
      assert events[..|events|] == events;
    }
  }
}
