/**
 * An encoder that has everything the journal relies on, so that what is proved
 * about all such encoders is proved about some.
 */
module JournalCodec {
  import opened ControlEvents
  import opened JournalFormat

  /** A number as that many ones and a two; nothing else starts like it. */
  function Number(n: nat): (b: Bytes)
    ensures |b| == n + 1
  {
    seq(n, _ => 1 as byte) + [2]
  }

  lemma NumberPrefix(a: nat, b: nat, x: Bytes, y: Bytes)
    requires Number(a) + x == Number(b) + y
    ensures a == b && x == y
  {
    FirstTwo(a, x);
    FirstTwo(b, y);
    assert (Number(b) + y)[a] == 2 && (Number(a) + x)[b] == 2;
    assert (Number(a) + x)[a + 1..] == x && (Number(b) + y)[b + 1..] == y;
  }

  /** The first two in front of anything is where the number ends. */
  lemma FirstTwo(a: nat, x: Bytes)
    ensures |Number(a) + x| > a && (Number(a) + x)[a] == 2
    ensures forall i :: 0 <= i < |Number(a) + x| && (Number(a) + x)[i] == 2 ==> a <= i
  {
  }

  function Chars(s: string): Bytes {
    if s == "" then [] else Number(s[0] as int) + Chars(s[1..])
  }

  function Text(s: string): Bytes {
    Number(|s|) + Chars(s)
  }

  lemma {:induction false} CharsPrefix(s: string, t: string, x: Bytes, y: Bytes)
    requires |s| == |t| && Chars(s) + x == Chars(t) + y
    ensures s == t && x == y
  {
    if s == "" {
      assert Chars(s) + x == x && Chars(t) + y == y;
    } else {
      assert Chars(s) + x == Number(s[0] as int) + (Chars(s[1..]) + x);
      assert Chars(t) + y == Number(t[0] as int) + (Chars(t[1..]) + y);
      NumberPrefix(s[0] as int, t[0] as int, Chars(s[1..]) + x, Chars(t[1..]) + y);
      CharsPrefix(s[1..], t[1..], x, y);
      assert s == [s[0]] + s[1..] && t == [t[0]] + t[1..];
    }
  }

  lemma TextPrefix(s: string, t: string, x: Bytes, y: Bytes)
    requires Text(s) + x == Text(t) + y
    ensures s == t && x == y
  {
    assert Text(s) + x == Number(|s|) + (Chars(s) + x) && Text(t) + y == Number(|t|) + (Chars(t) + y);
    NumberPrefix(|s|, |t|, Chars(s) + x, Chars(t) + y);
    CharsPrefix(s, t, x, y);
  }

  function KindNumber(k: Kind): nat {
    match k
    case Requested => 0
    case Accepted => 1
    case Running => 2
    case Succeeded => 3
    case Failed => 4
    case Unknown => 5
    case Rejected => 6
    case Other(_) => 7
  }

  function KindBytes(k: Kind): Bytes {
    Number(KindNumber(k)) + (if k.Other? then Text(k.name) else [])
  }

  lemma KindPrefix(k: Kind, l: Kind, x: Bytes, y: Bytes)
    requires KindBytes(k) + x == KindBytes(l) + y
    ensures k == l && x == y
  {
    hide Number, Text;
    var k', l' := if k.Other? then Text(k.name) else [], if l.Other? then Text(l.name) else [];
    assert KindBytes(k) + x == Number(KindNumber(k)) + (k' + x);
    assert KindBytes(l) + y == Number(KindNumber(l)) + (l' + y);
    NumberPrefix(KindNumber(k), KindNumber(l), k' + x, l' + y);
    if k.Other? {
      TextPrefix(k.name, l.name, x, y);
    } else {
      assert [] + x == x && [] + y == y;
    }
  }

  function DetailBytes(r: Receipt): Bytes {
    Text(r.actionId) + Number(r.detail)
  }

  lemma DetailPrefix(r: Receipt, q: Receipt, x: Bytes, y: Bytes)
    requires DetailBytes(r) + x == DetailBytes(q) + y
    ensures r == q && x == y
  {
    assert DetailBytes(r) + x == Text(r.actionId) + (Number(r.detail) + x);
    assert DetailBytes(q) + y == Text(q.actionId) + (Number(q.detail) + y);
    hide Text, Number, DetailBytes;
    TextPrefix(r.actionId, q.actionId, Number(r.detail) + x, Number(q.detail) + y);
    NumberPrefix(r.detail, q.detail, x, y);
  }

  function ReceiptBytes(r: Option<Receipt>): Bytes {
    if r.None? then Number(0) else Number(1) + DetailBytes(r.value)
  }

  lemma ReceiptPrefix(r: Option<Receipt>, q: Option<Receipt>, x: Bytes, y: Bytes)
    requires ReceiptBytes(r) + x == ReceiptBytes(q) + y
    ensures r == q && x == y
  {
    hide Number, DetailBytes;
    var r', q' := if r.None? then [] else DetailBytes(r.value), if q.None? then [] else DetailBytes(q.value);
    var rn, qn := if r.None? then 0 else 1, if q.None? then 0 else 1;
    assert ReceiptBytes(r) + x == Number(rn) + (r' + x) && ReceiptBytes(q) + y == Number(qn) + (q' + y);
    NumberPrefix(rn, qn, r' + x, q' + y);
    if r.None? {
      assert [] + x == x && [] + y == y;
    } else {
      DetailPrefix(r.value, q.value, x, y);
    }
  }

  /** Everything of an event after its sequence. */
  function Rest(e: Event): Bytes {
    KindBytes(e.kind) + (Text(e.commandId) + (Text(e.key) + (ReceiptBytes(e.receipt) + Number(e.detail))))
  }

  lemma RestInjective(e: Event, f: Event)
    requires Rest(e) == Rest(f)
    ensures e.(sequence := f.sequence) == f
  {
    var e3, f3 := ReceiptBytes(e.receipt) + Number(e.detail), ReceiptBytes(f.receipt) + Number(f.detail);
    KindPrefix(e.kind, f.kind, Text(e.commandId) + (Text(e.key) + e3), Text(f.commandId) + (Text(f.key) + f3));
    TextPrefix(e.commandId, f.commandId, Text(e.key) + e3, Text(f.key) + f3);
    TextPrefix(e.key, f.key, e3, f3);
    ReceiptPrefix(e.receipt, f.receipt, Number(e.detail), Number(f.detail));
    assert Number(e.detail) + [] == Number(e.detail) && Number(f.detail) + [] == Number(f.detail);
    NumberPrefix(e.detail, f.detail, [], []);
  }

  function Encode(x: Entry): Bytes {
    match x
    case Header(first) => Number(0) + Number(first)
    case Line(e) => Number(1) + (Number(e.sequence) + Rest(e))
  }

  lemma EncodeInjective(x: Entry, y: Entry)
    requires Encode(x) == Encode(y)
    ensures x == y
  {
    hide Number, Rest;
    var x', y' := Encode(x), Encode(y);
    var xn, yn := if x.Header? then 0 else 1, if y.Header? then 0 else 1;
    var xs := if x.Header? then Number(x.firstSequence) else Number(x.event.sequence) + Rest(x.event);
    var ys := if y.Header? then Number(y.firstSequence) else Number(y.event.sequence) + Rest(y.event);
    NumberPrefix(xn, yn, xs, ys);
    if x.Header? {
      assert Number(x.firstSequence) + [] == xs && Number(y.firstSequence) + [] == ys;
      NumberPrefix(x.firstSequence, y.firstSequence, [], []);
    } else {
      NumberPrefix(x.event.sequence, y.event.sequence, Rest(x.event), Rest(y.event));
      RestInjective(x.event, y.event);
    }
  }

  predicate OnesAndTwos(b: Bytes) {
    forall i :: 0 <= i < |b| ==> b[i] == 1 || b[i] == 2
  }

  lemma {:induction false} CharsFree(s: string)
    ensures OnesAndTwos(Chars(s))
  {
    if s != "" { CharsFree(s[1..]); }
  }

  lemma TextFree(s: string)
    ensures OnesAndTwos(Text(s))
  {
    CharsFree(s);
  }

  lemma EncodeFree(x: Entry)
    ensures NewlineFree(Encode(x)) && Encode(x) != []
  {
    assert |Number(0)| > 0 && |Number(1)| > 0;
    if x.Line? { RestFree(x.event); }
    assert OnesAndTwos(Encode(x));
  }

  lemma RestFree(e: Event)
    ensures OnesAndTwos(Rest(e)) && Rest(e) != []
  {
    if e.kind.Other? { TextFree(e.kind.name); }
    TextFree(e.commandId);
    TextFree(e.key);
    if e.receipt.Some? { TextFree(e.receipt.value.actionId); }
    assert OnesAndTwos(KindBytes(e.kind)) && |KindBytes(e.kind)| > 0;
    assert OnesAndTwos(ReceiptBytes(e.receipt));
  }

  ghost function Decode(b: Bytes): Option<Entry> {
    if exists x :: Encode(x) == b then
      var x :| Encode(x) == b;
      Some(x)
    else None
  }

  lemma DecodeEncode(x: Entry)
    ensures Decode(Encode(x)) == Some(x)
  {
    hide Encode;
    var y := Decode(Encode(x)).value;
    EncodeInjective(x, y);
  }

  /** A header naming the next sequence is shorter than an event's line. */
  lemma HeaderShorter(e: Event)
    ensures |Encode(Header(e.sequence + 1))| < |Encode(Line(e))|
  {
    hide Number;
    assert |Rest(e)| >= 5;
  }

  /** There is an encoder with all the journal relies on. */
  lemma GoodCodecExists()
    ensures exists c: Codec :: Good(c)
  {
    ghost var c := Codec(x => Encode(x), b => Decode(b));
    forall x ensures c.decode(c.encode(x)) == Some(x) && NewlineFree(c.encode(x)) && c.encode(x) != [] {
      DecodeEncode(x);
      EncodeFree(x);
    }
    forall e: Event ensures |c.encode(Header(e.sequence + 1))| < |c.encode(Line(e))| {
      HeaderShorter(e);
    }
    assert Good(c);
  }
}
