/**
 * The bytes of the control journal: newline-terminated lines, an optional
 * header line naming the first retained sequence, and replay of such a file.
 */
module JournalFormat {
  import opened ControlEvents

  newtype byte = x: int | 0 <= x < 256

  type Bytes = seq<byte>

  const NEWLINE: byte := 10

  datatype Entry = Header(firstSequence: nat) | Line(event: Event)

  /** The JSON encoder and parser, kept abstract. */
  datatype Codec = Codec(encode: Entry -> Bytes, decode: Bytes -> Option<Entry>)

  predicate NewlineFree(s: Bytes) {
    NEWLINE !in s
  }

  /**
   * What the code relies on: parsing undoes encoding, a line holds no newline,
   * and a header naming `n` is shorter than the line of event `n - 1`.
   */
  ghost predicate Good(c: Codec) {
    && (forall x :: c.decode(c.encode(x)) == Some(x))
    && (forall x :: NewlineFree(c.encode(x)))
    && (forall x :: c.encode(x) != [])
    && (forall e: Event :: |c.encode(Header(e.sequence + 1))| < |c.encode(Line(e))|)
  }

  function EncodeLine(c: Codec, e: Event): Bytes {
    c.encode(Line(e)) + [NEWLINE]
  }

  function EncodeLines(c: Codec, evs: seq<Event>): Bytes {
    if evs == [] then [] else EncodeLines(c, evs[..|evs| - 1]) + EncodeLine(c, evs[|evs| - 1])
  }

  function EncodeHeader(c: Codec, headed: bool, first: nat): Bytes {
    if headed then c.encode(Header(first)) + [NEWLINE] else []
  }

  /** The file holding `evs` from `first` on; an uncompacted journal has no header. */
  function Image(c: Codec, headed: bool, first: nat, evs: seq<Event>): Bytes {
    EncodeHeader(c, headed, first) + EncodeLines(c, evs)
  }

  // ---- Splitting into lines ----

  /** Complete lines of `raw` and the bytes after its last newline. */
  function Split(raw: Bytes): (r: (seq<Bytes>, Bytes))
  {
    if raw == [] then ([], [])
    else
      var (lines, tail) := Split(raw[..|raw| - 1]);
      var b := raw[|raw| - 1];
      if b == NEWLINE then (lines + [tail], []) else (lines, tail + [b])
  }

  function DropTrailingEmpty(lines: seq<Bytes>): seq<Bytes> {
    if lines != [] && lines[|lines| - 1] == [] then DropTrailingEmpty(lines[..|lines| - 1]) else lines
  }

  lemma SplitNewline(x: Bytes)
    ensures Split(x + [NEWLINE]) == (Split(x).0 + [Split(x).1], [])
  {
    assert (x + [NEWLINE])[..|x|] == x;
  }

  lemma {:induction false} SplitFree(x: Bytes, y: Bytes)
    requires NewlineFree(y)
    ensures Split(x + y) == (Split(x).0, Split(x).1 + y)
  {
    if y == [] {
      assert x + y == x;
      assert Split(x).1 + y == Split(x).1;
    } else {
      var z := y[..|y| - 1];
      var b := y[|y| - 1];
      assert y == z + [b];
      assert (x + y)[..|x + y| - 1] == x + z;
      assert b in y;
      SplitFree(x, z);
      assert Split(x).1 + z + [b] == Split(x).1 + y;
    }
  }

  /** Splitting loses nothing: lines and tail put back together are the input. */
  function Join(lines: seq<Bytes>): Bytes {
    if lines == [] then [] else Join(lines[..|lines| - 1]) + lines[|lines| - 1] + [NEWLINE]
  }

  lemma {:induction false} SplitJoin(raw: Bytes)
    ensures var (lines, tail) := Split(raw);
            && raw == Join(lines) + tail
            && NewlineFree(tail)
            && forall i :: 0 <= i < |lines| ==> NewlineFree(lines[i])
  {
    if raw == [] {
    } else {
      hide Join;
      SplitJoin(raw[..|raw| - 1]);
      var (lines, tail) := Split(raw[..|raw| - 1]);
      var b := raw[|raw| - 1];
      assert raw == raw[..|raw| - 1] + [b];
      if b == NEWLINE {
        JoinSnoc(lines, tail);
        assert raw == Join(lines + [tail]) + [];
      } else {
        assert raw == Join(lines) + (tail + [b]);
      }
    }
  }

  lemma JoinSnoc(lines: seq<Bytes>, last: Bytes)
    ensures Join(lines + [last]) == Join(lines) + last + [NEWLINE]
  {
    assert (lines + [last])[..|lines|] == lines;
  }

  lemma {:induction false} SplitOfJoin(lines: seq<Bytes>, tail: Bytes)
    requires NewlineFree(tail)
    requires forall i :: 0 <= i < |lines| ==> NewlineFree(lines[i])
    ensures Split(Join(lines) + tail) == (lines, tail)
  {
    if lines == [] {
      assert Join(lines) + tail == [] + tail;
      SplitFree([], tail);
      assert [] + tail == tail;
    } else {
      var rest, last := lines[..|lines| - 1], lines[|lines| - 1];
      SplitOfJoin(rest, last);
      SplitNewline(Join(rest) + last);
      assert Join(lines) == (Join(rest) + last) + [NEWLINE];
      assert rest + [last] == lines;
      SplitFree(Join(lines), tail);
      assert [] + tail == tail;
    }
  }

  // ---- Replay ----

  /** A successful replay also says how many bytes the file keeps. */
  datatype Replayed = Corrupt(line: nat) | Replayed(events: seq<Event>, firstSequence: nat, kept: nat)

  /** Parses `lines[from..]` as events numbered from `expected` on. */
  function ParseEvents(c: Codec, lines: seq<Bytes>, from: nat, expected: nat): Option<seq<Event>>
    requires from <= |lines|
    decreases |lines| - from
  {
    if from == |lines| then Some([])
    else
      match c.decode(lines[from])
      case Some(Line(e)) =>
        if e.sequence != expected then None
        else (match ParseEvents(c, lines, from + 1, expected + 1)
              case Some(rest) => Some([e] + rest)
              case None => None)
      case _ => None
  }

  /** The first line of `lines[from..]` at which `ParseEvents` gives up, counted from 1. */
  function FirstBadLine(c: Codec, lines: seq<Bytes>, from: nat, expected: nat): nat
    requires from <= |lines|
    decreases |lines| - from
  {
    if from == |lines| then 0
    else
      match c.decode(lines[from])
      case Some(Line(e)) =>
        if e.sequence != expected then from + 1 else FirstBadLine(c, lines, from + 1, expected + 1)
      case _ => from + 1
  }

  /** The header a first line spells, if it is one; sequences start at 1. */
  function HeaderOf(c: Codec, lines: seq<Bytes>): Option<nat> {
    if lines == [] then None
    else match c.decode(lines[0])
         case Some(Header(n)) => if n >= 1 then Some(n) else None
         case _ => None
  }

  /** What replaying `raw` must produce. */
  function ReplaySpec(c: Codec, raw: Bytes): (r: Replayed)
    ensures r.Replayed? ==> r.kept <= |raw| && r.firstSequence >= 1
  {
    SplitJoin(raw);
    var (complete, tail) := Split(raw);
    var lines := if tail == [] then DropTrailingEmpty(complete) else complete;
    var header := HeaderOf(c, lines);
    var first := if header.Some? then header.value else 1;
    var from := if header.Some? then 1 else 0;
    match ParseEvents(c, lines, from, first)
    case Some(evs) => Replayed(evs, first, |raw| - |tail|)
    case None => Corrupt(FirstBadLine(c, lines, from, first))
  }

  // ---- When a replay succeeds ----

  /** The line spells the event that is due at its place. */
  predicate Spells(c: Codec, line: Bytes, sequence: nat) {
    match c.decode(line)
    case Some(Line(e)) => e.sequence == sequence
    case _ => false
  }

  lemma {:induction false} TrailingEmpty(lines: seq<Bytes>) returns (k: nat)
    ensures k <= |lines| && DropTrailingEmpty(lines) == lines[..k]
    ensures (k > 0 ==> lines[k - 1] != []) && forall i :: k <= i < |lines| ==> lines[i] == []
  {
    if lines != [] && lines[|lines| - 1] == [] {
      k := TrailingEmpty(lines[..|lines| - 1]);
    } else {
      k := |lines|;
      assert lines[..k] == lines;
    }
  }

  lemma {:induction false} ParsesIff(c: Codec, lines: seq<Bytes>, from: nat, expected: nat)
    requires from <= |lines|
    ensures ParseEvents(c, lines, from, expected).Some? <==>
            forall i :: from <= i < |lines| ==> Spells(c, lines[i], expected + i - from)
    ensures ParseEvents(c, lines, from, expected).Some? ==>
              var evs := ParseEvents(c, lines, from, expected).value;
              && |evs| == |lines| - from
              && forall i :: from <= i < |lines| ==> c.decode(lines[i]) == Some(Line(evs[i - from]))
    ensures ParseEvents(c, lines, from, expected).None? ==>
              var bad := FirstBadLine(c, lines, from, expected);
              && from < bad <= |lines| && !Spells(c, lines[bad - 1], expected + bad - 1 - from)
              && forall i :: from <= i < bad - 1 ==> Spells(c, lines[i], expected + i - from)
    decreases |lines| - from
  {
    if from < |lines| && Spells(c, lines[from], expected) {
      ParsesIff(c, lines, from + 1, expected + 1);
    }
  }

  /**
   * Replay of any file: empty lines at its end and what follows its last newline
   * do not count; a first line that is a header says where the sequences start.
   * It succeeds exactly if every further line spells the event that is due, and
   * returns those; otherwise it names the first line that does not.
   */
  lemma ReplaysIff(c: Codec, lines: seq<Bytes>, tail: Bytes) returns (n: nat)
    requires NewlineFree(tail) && forall i :: 0 <= i < |lines| ==> NewlineFree(lines[i])
    ensures n <= |lines| && (tail != [] ==> n == |lines|)
    ensures tail == [] ==> (n > 0 ==> lines[n - 1] != []) && forall i :: n <= i < |lines| ==> lines[i] == []
    ensures var r, header := ReplaySpec(c, Join(lines) + tail), HeaderOf(c, lines[..n]);
            var first, from := if header.Some? then header.value else 1, if header.Some? then 1 else 0;
            && (r.Replayed? <==> forall i :: from <= i < n ==> Spells(c, lines[i], first + i - from))
            && (r.Replayed? ==>
                  && r.firstSequence == first && r.kept == |Join(lines)| && |r.events| == n - from
                  && forall i :: from <= i < n ==> c.decode(lines[i]) == Some(Line(r.events[i - from])))
            && (r.Corrupt? ==>
                  && from < r.line <= n && !Spells(c, lines[r.line - 1], first + r.line - 1 - from)
                  && forall i :: from <= i < r.line - 1 ==> Spells(c, lines[i], first + i - from))
  {
    hide Join, Split, NewlineFree, ParseEvents, FirstBadLine, HeaderOf, DropTrailingEmpty, Spells;
    SplitOfJoin(lines, tail);
    n := |lines|;
    if tail == [] { n := TrailingEmpty(lines); }
    assert lines[..|lines|] == lines;
    var header := HeaderOf(c, lines[..n]);
    HeaderIff(c, lines[..n]);
    ParsesIff(c, lines[..n], if header.Some? then 1 else 0, if header.Some? then header.value else 1);
    assert forall i :: 0 <= i < n ==> lines[..n][i] == lines[i];
  }

  /** A file says where it starts exactly if its first line is a header naming a sequence from 1 on. */
  lemma HeaderIff(c: Codec, lines: seq<Bytes>)
    ensures forall n ::
              HeaderOf(c, lines) == Some(n) <==> n >= 1 && lines != [] && c.decode(lines[0]) == Some(Header(n))
    ensures HeaderOf(c, lines).Some? ==> lines != []
  {
  }

  // ---- Replay of an image ----

  function EncodedLines(c: Codec, evs: seq<Event>): (lines: seq<Bytes>)
    ensures |lines| == |evs|
    ensures forall i :: 0 <= i < |evs| ==> lines[i] == c.encode(Line(evs[i]))
  {
    if evs == [] then [] else EncodedLines(c, evs[..|evs| - 1]) + [c.encode(Line(evs[|evs| - 1]))]
  }

  function HeaderLines(c: Codec, headed: bool, first: nat): seq<Bytes> {
    if headed then [c.encode(Header(first))] else []
  }

  function ImageLines(c: Codec, headed: bool, first: nat, evs: seq<Event>): seq<Bytes> {
    HeaderLines(c, headed, first) + EncodedLines(c, evs)
  }

  lemma {:induction false} JoinConcat(a: seq<Bytes>, b: seq<Bytes>)
    ensures Join(a + b) == Join(a) + Join(b)
  {
    if b == [] {
      assert a + b == a;
    } else {
      var butLast := b[..|b| - 1];
      assert (a + b)[..|a + b| - 1] == a + butLast;
      JoinConcat(a, butLast);
    }
  }

  lemma {:induction false} LinesJoin(c: Codec, evs: seq<Event>)
    ensures Join(EncodedLines(c, evs)) == EncodeLines(c, evs)
  {
    if evs != [] {
      LinesJoin(c, evs[..|evs| - 1]);
      var lines := EncodedLines(c, evs);
      assert lines[..|lines| - 1] == EncodedLines(c, evs[..|evs| - 1]);
    }
  }

  lemma ImageIsJoin(c: Codec, headed: bool, first: nat, evs: seq<Event>)
    ensures Image(c, headed, first, evs) == Join(ImageLines(c, headed, first, evs))
  {
    hide EncodeLines, EncodedLines;
    LinesJoin(c, evs);
    var header := HeaderLines(c, headed, first);
    JoinConcat(header, EncodedLines(c, evs));
    assert Join(header) == EncodeHeader(c, headed, first) by {
      if headed {
        assert header[..0] == [];
        assert Join(header) == Join([]) + header[0] + [NEWLINE];
      }
    }
  }

  lemma ImageSnoc(c: Codec, headed: bool, first: nat, evs: seq<Event>, e: Event)
    ensures Image(c, headed, first, evs + [e]) == Image(c, headed, first, evs) + EncodeLine(c, e)
  {
    assert (evs + [e])[..|evs|] == evs;
  }

  lemma {:induction false} ParseEncoded(c: Codec, lines: seq<Bytes>, from: nat, evs: seq<Event>, first: nat)
    requires Good(c)
    requires from <= |lines| && |lines| - from == |evs|
    requires lines[from..] == EncodedLines(c, evs)
    requires Contiguous(evs, first)
    ensures ParseEvents(c, lines, from, first) == Some(evs)
    decreases |evs|
  {
    hide EncodedLines;
    if evs != [] {
      assert lines[from] == lines[from..][0] == c.encode(Line(evs[0]));
      assert c.decode(lines[from]) == Some(Line(evs[0]));
      assert lines[from + 1..] == lines[from..][1..];
      forall i | 0 <= i < |evs| - 1 ensures lines[from + 1..][i] == EncodedLines(c, evs[1..])[i] {}
      assert lines[from + 1..] == EncodedLines(c, evs[1..]);
      ParseEncoded(c, lines, from + 1, evs[1..], first + 1);
      assert evs == [evs[0]] + evs[1..];
    }
  }

  lemma ImageLinesFacts(c: Codec, headed: bool, first: nat, evs: seq<Event>)
    requires Good(c) && first >= 1
    ensures var lines := ImageLines(c, headed, first, evs);
            && DropTrailingEmpty(lines) == lines
            && (forall i :: 0 <= i < |lines| ==> NewlineFree(lines[i]))
            && HeaderOf(c, lines) == (if headed then Some(first) else None)
            && (headed ==> lines != []) && lines[if headed then 1 else 0..] == EncodedLines(c, evs)
  {
    var lines := ImageLines(c, headed, first, evs);
    if !headed && lines != [] {
      assert lines[0] == c.encode(Line(evs[0]));
    }
  }

  /** A file image followed by a newline-less fragment replays to exactly the image's events. */
  lemma ReplayTornImage(c: Codec, headed: bool, first: nat, evs: seq<Event>, tail: Bytes)
    requires Good(c) && first >= 1 && (headed || first == 1)
    requires Contiguous(evs, first)
    requires NewlineFree(tail)
    ensures ReplaySpec(c, Image(c, headed, first, evs) + tail)
         == Replayed(evs, first, |Image(c, headed, first, evs)|)
  {
    hide Image, Split, Join, ParseEvents, FirstBadLine, HeaderOf, DropTrailingEmpty, ImageLines, EncodedLines;
    hide Contiguous, Good;
    var lines := ImageLines(c, headed, first, evs);
    ImageIsJoin(c, headed, first, evs);
    ImageLinesFacts(c, headed, first, evs);
    SplitOfJoin(lines, tail);
    ParseEncoded(c, lines, if headed then 1 else 0, evs, first);
  }

  /**
   * The residual case: a fragment that is the whole line of the next event,
   * newline included, is replayed as that event; any shorter one is dropped.
   */
  lemma ReplayAnyFragment(c: Codec, headed: bool, first: nat, evs: seq<Event>, next: Event, tail: Bytes)
    requires Good(c) && first >= 1 && (headed || first == 1)
    requires Contiguous(evs, first) && next.sequence == first + |evs|
    requires tail <= EncodeLine(c, next)
    ensures var image := Image(c, headed, first, evs);
            ReplaySpec(c, image + tail) ==
              if tail == EncodeLine(c, next) then Replayed(evs + [next], first, |image + tail|)
              else Replayed(evs, first, |image|)
  {
    var image := Image(c, headed, first, evs);
    if tail == EncodeLine(c, next) {
      ImageSnoc(c, headed, first, evs, next);
      ReplayTornImage(c, headed, first, evs + [next], []);
      assert image + tail + [] == image + tail;
    } else {
      var line := c.encode(Line(next));
      assert tail == EncodeLine(c, next)[..|tail|];
      assert tail <= line;
      assert NewlineFree(tail) by {
        forall i | 0 <= i < |tail| ensures tail[i] != NEWLINE { assert tail[i] == line[i]; }
      }
      ReplayTornImage(c, headed, first, evs, tail);
    }
  }

  // ---- Lengths ----

  lemma {:induction false} EncodeLinesConcat(c: Codec, a: seq<Event>, b: seq<Event>)
    ensures EncodeLines(c, a + b) == EncodeLines(c, a) + EncodeLines(c, b)
  {
    if b == [] {
      assert a + b == a;
    } else {
      var butLast := b[..|b| - 1];
      assert (a + b)[..|a + b| - 1] == a + butLast;
      EncodeLinesConcat(c, a, butLast);
    }
  }

  /**
   * Dropping events always shortens the file, even when it gains or lengthens
   * the header: the line of the last dropped event outweighs the new header.
   */
  lemma ImageShrinks(c: Codec, headed: bool, first: nat, evs: seq<Event>, drop: nat)
    requires Good(c) && Contiguous(evs, first) && 0 < drop <= |evs|
    ensures |Image(c, true, first + drop, evs[drop..])| < |Image(c, headed, first, evs)|
  {
    var e := evs[drop - 1];
    assert e.sequence + 1 == first + drop;
    assert evs == evs[..drop] + evs[drop..];
    EncodeLinesConcat(c, evs[..drop], evs[drop..]);
    assert evs[..drop][..drop - 1] == evs[..drop - 1];
    assert |EncodeLines(c, evs[..drop])| >= |EncodeLine(c, e)|;
  }
}
