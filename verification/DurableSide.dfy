/**
 * The runtime's picture of its journal - a history, where the file starts, and
 * a line that may have stayed behind - is what the journal really does.
 */
module DurableSide {
  import opened ControlEvents
  import Format = JournalFormat
  import Journal = JournalModel
  import opened RuntimeLog
  import opened RuntimeModel

  /** What the idempotency paths read off the events. */
  function Read(read: Event -> Ev, history: seq<Event>): (log: seq<Ev>)
    ensures |log| == |history|
  {
    if history == [] then []
    else Read(read, history[..|history| - 1]) + [read(history[|history| - 1])]
  }

  lemma ReadSnoc(read: Event -> Ev, history: seq<Event>, e: Event)
    ensures Read(read, history + [e]) == Read(read, history) + [read(e)]
  {
    assert (history + [e])[..|history|] == history;
  }

  /** The whole line of a torn append is in the file. */
  predicate WholeLine(c: Format.Codec, t: Journal.Trace) {
    t.tail == Format.EncodeLine(c, t.torn)
  }

  /**
   * The runtime state pictures the journal: the same history, the same first
   * sequence on disk and in memory, and it reckons with a whole line that stayed.
   */
  predicate Pictures(read: Event -> Ev, c: Format.Codec, w: Journal.World, s: State) {
    && s.log == Read(read, w.trace.history) && s.diskFirst == w.trace.base
    && (s.process.Up? ==> s.process.first == w.live.mem.first)
    && (WholeLine(c, w.trace) ==> s.torn == Some(read(w.trace.torn)))
  }

  lemma LineNotEmpty(c: Format.Codec, e: Event)
    ensures Format.EncodeLine(c, e) != []
  {
  }

  lemma AppendCommits(read: Event -> Ev, c: Format.Codec, w: Journal.World, s: State, draft: Event,
                      io: Journal.AppendIo)
    requires Journal.Inv(c, w.live, w.trace) && Pictures(read, c, w, s)
    requires Journal.AppendStep(c, w.live, draft, io).1.Some?
    ensures Pictures(read, c, Journal.Next(c, w, Journal.Append(draft, io)),
                     RuntimeModel.Append(s, read(Journal.NextEvent(w.live.mem, draft))))
  {
    hide Journal.Inv, Format.EncodeLine, Journal.Fragment;
    var e := Journal.NextEvent(w.live.mem, draft);
    LineNotEmpty(c, w.trace.torn);
    LineNotEmpty(c, e);
    Journal.AppendKeepsInv(c, w.live, w.trace, draft, io);
    ReadSnoc(read, w.trace.history, e);
  }

  /** After a rejected append a whole line that stayed is the one from before or its own. */
  lemma AppendLeaves(read: Event -> Ev, c: Format.Codec, w: Journal.World, s: State, draft: Event,
                     io: Journal.AppendIo)
    requires Journal.Inv(c, w.live, w.trace) && Pictures(read, c, w, s)
    requires Journal.AppendStep(c, w.live, draft, io).1.None?
    ensures var w' := Journal.Next(c, w, Journal.Append(draft, io));
            var e := Journal.NextEvent(w.live.mem, draft);
            && w'.trace.history == w.trace.history && w'.trace.base == w.trace.base
            && w'.live.mem.first == w.live.mem.first
            && (WholeLine(c, w'.trace) ==>
                  w'.trace.torn == e || (w'.trace.torn == w.trace.torn && WholeLine(c, w.trace)))
  {
    hide Journal.Inv, Format.EncodeLine, Journal.Fragment, Read;
    LineNotEmpty(c, w.trace.torn);
    LineNotEmpty(c, Journal.NextEvent(w.live.mem, draft));
    Journal.AppendKeepsInv(c, w.live, w.trace, draft, io);
  }

  /**
   * An append is acknowledged exactly as the runtime's appends are, or it is
   * rejected: then the history stays, and what may be adopted later is nothing,
   * what it was, or the rejected event.
   */
  lemma AppendActs(read: Event -> Ev, c: Format.Codec, w: Journal.World, s: State, draft: Event, io: Journal.AppendIo)
    requires Journal.Inv(c, w.live, w.trace) && Pictures(read, c, w, s)
    ensures var w' := Journal.Next(c, w, Journal.Append(draft, io));
            var e := Journal.NextEvent(w.live.mem, draft);
            match Journal.AppendStep(c, w.live, draft, io).1
            case Some(_) => Pictures(read, c, w', RuntimeModel.Append(s, read(e)))
            case None =>
              exists torn :: (torn == None || torn == s.torn || torn == Some(read(e)))
                && Pictures(read, c, w', s.(torn := torn))
  {
    hide Journal.Inv, Journal.AppendStep, Journal.Next, Journal.NextEvent, WholeLine, Read;
    var w' := Journal.Next(c, w, Journal.Append(draft, io));
    if Journal.AppendStep(c, w.live, draft, io).1.Some? {
      AppendCommits(read, c, w, s, draft, io);
    } else {
      AppendLeaves(read, c, w, s, draft, io);
      var torn := if WholeLine(c, w'.trace) then Some(read(w'.trace.torn)) else None;
      assert Pictures(read, c, w', s.(torn := torn));
    }
  }

  /** A compaction that is aborted or fails before its rename changes nothing durable. */
  lemma CompactStays(read: Event -> Ev, c: Format.Codec, w: Journal.World, s: State, covered: int,
                     io: Journal.CompactIo)
    requires Pictures(read, c, w, s) && s.process.Up? && (io.Aborted? || io.FailsBeforeRename?)
    ensures Pictures(read, c, Journal.Next(c, w, Journal.Compact(covered, io)), EndAttempt(s))
  {
    hide Format.EncodeLine, Format.Image, Journal.LastIndexed, Journal.KeepFrom;
  }

  /** One that renames is the runtime's rename step, with or without what should follow it. */
  lemma CompactRenames(read: Event -> Ev, c: Format.Codec, w: Journal.World, s: State, synced: bool)
    requires Journal.Inv(c, w.live, w.trace) && Pictures(read, c, w, s)
    requires CanCompact(s, CompactRenamed(synced)) && s.process.first <= TheAttempt(s).covered <= |s.log|
    ensures var io := if synced then Journal.Replaced else Journal.FailsAfterRename;
            Pictures(read, c, Journal.Next(c, w, Journal.Compact(TheAttempt(s).covered, io)),
                     ApplyCompaction(s, CompactRenamed(synced)))
  {
    hide Format.EncodeLine, Format.Image, Journal.LastIndexed, Journal.KeepFrom, Journal.CompactedFirst, Journal.Suffix;
    LineNotEmpty(c, w.trace.torn);
    Journal.CompactedFirstIs(w.live.mem, w.trace, TheAttempt(s).covered);
  }

  /** A death and a restart find the history, and after it at most the line that stayed behind. */
  lemma ReopenActs(read: Event -> Ev, c: Format.Codec, w: Journal.World, s: State)
    requires Format.Good(c) && Journal.Inv(c, w.live, w.trace) && Pictures(read, c, w, s) && s.process.Up?
    ensures exists adopted ::
              CanLive(s, Crash(adopted))
              && Pictures(read, c, Journal.Next(c, w, Journal.Reopen), DoOpen(ApplyLife(s, Crash(adopted))))
  {
    hide Format.EncodeLine, Format.Good, Journal.Inv, Journal.Suffix, Journal.OpenStep, RecoverSet;
    Journal.OpenKeepsInv(c, w.live, w.trace);
    LineNotEmpty(c, w.trace.torn);
    var w' := Journal.Next(c, w, Journal.Reopen);
    if w'.trace.history == w.trace.history {
      assert Pictures(read, c, w', DoOpen(ApplyLife(s, Crash(None))));
    } else {
      ReadSnoc(read, w.trace.history, w.trace.torn);
      var adopted := Some(read(w.trace.torn));
      assert s.torn == adopted;
      assert Pictures(read, c, w', DoOpen(ApplyLife(s, Crash(adopted))));
    }
  }
}
