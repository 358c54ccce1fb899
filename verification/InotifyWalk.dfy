/**
 The walk over a buffer of inotify events.  Each event is a header of four 32-bit
 words, the last of which is the length of the name that follows it, so the place
 of each event is known only after its predecessor has been read.
 */
module InotifyWalk {
  import opened Runs

  type Byte = b: int | 0 <= b < 256
  type Word = w: int | 0 <= w < 0x1_0000_0000

  /** The name is kept with the NUL bytes that pad it, as the kernel delivers it. */
  datatype Event = Event(wd: Word, mask: Word, cookie: Word, name: seq<Byte>)

  const HEADER := 16    // sizeof(struct inotify_event)

  predicate NameFits(e: Event)
  {
    |e.name| < 0x1_0000_0000
  }

  ghost predicate NamesFit(es: seq<Event>)
  {
    forall k :: 0 <= k < |es| ==> NameFits(es[k])
  }

  // ---- The layout of the buffer

  function EncodeWord(w: Word): (b: seq<Byte>)
    ensures |b| == 4
  {
    [w % 256, w / 256 % 256, w / 256 / 256 % 256, w / 256 / 256 / 256]
  }

  function Pack(a: Byte, b: Byte, c: Byte, d: Byte): Word
  {
    a as int + 256 * (b as int + 256 * (c as int + 256 * (d as int)))
  }

  function DecodeWord(b: seq<Byte>, at: nat): Word
    requires at + 4 <= |b|
  {
    Pack(b[at], b[at + 1], b[at + 2], b[at + 3])
  }

  function Encode(e: Event): seq<Byte>
    requires NameFits(e)
  {
    EncodeWord(e.wd) + EncodeWord(e.mask) + EncodeWord(e.cookie) + EncodeWord(|e.name|) + e.name
  }

  function EncodeAll(es: seq<Event>): seq<Byte>
    requires NamesFit(es)
  {
    if es == [] then [] else Encode(es[0]) + EncodeAll(es[1..])
  }

  lemma LowByte(w: nat, low: Byte, high: nat)
    ensures w == low + 256 * high <==> w % 256 == low && w / 256 == high
  {
  }

  lemma WordRoundTrip(w: Word, b: seq<Byte>, at: nat)
    requires at + 4 <= |b|
    ensures b[at..at + 4] == EncodeWord(w) <==> DecodeWord(b, at) == w
  {
    var d: int := b[at + 3];
    var cd: int := b[at + 2] as int + 256 * d;
    var bcd: int := b[at + 1] as int + 256 * cd;
    LowByte(w, b[at], bcd);
    LowByte(w / 256, b[at + 1], cd);
    LowByte(w / 256 / 256, b[at + 2], d);
    var s := b[at..at + 4];
    assert s == [b[at], b[at + 1], b[at + 2], b[at + 3]];
  }

  // ---- The walk

  /** `b` starts with a whole event. */
  predicate WholeEvent(b: seq<Byte>)
  {
    HEADER <= |b| && HEADER + DecodeWord(b, 12) <= |b|
  }

  function EventSize(b: seq<Byte>): nat
    requires WholeEvent(b)
  {
    HEADER + DecodeWord(b, 12)
  }

  function FirstEvent(b: seq<Byte>): Event
    requires WholeEvent(b)
  {
    Event(DecodeWord(b, 0), DecodeWord(b, 4), DecodeWord(b, 8), b[HEADER..EventSize(b)])
  }

  /** The events that a walk over `b` visits, or `None` if it would leave the buffer. */
  function Walk(b: seq<Byte>): Option<seq<Event>>
  {
    if b == [] then Some([])
    else if !WholeEvent(b) then None
    else match Walk(b[EventSize(b)..])
      case None => None
      case Some(rest) => Some([FirstEvent(b)] + rest)
  }

  /** A whole event at the start of a buffer is the encoding of just one event. */
  lemma FirstEventRoundTrip(e: Event, rest: seq<Byte>)
    requires NameFits(e)
    ensures WholeEvent(Encode(e) + rest)
    ensures EventSize(Encode(e) + rest) == |Encode(e)| && FirstEvent(Encode(e) + rest) == e
    ensures (Encode(e) + rest)[|Encode(e)|..] == rest
  {
    var b := Encode(e) + rest;
    assert b[0..4] == EncodeWord(e.wd) && b[4..8] == EncodeWord(e.mask);
    assert b[8..12] == EncodeWord(e.cookie) && b[12..16] == EncodeWord(|e.name|);
    WordRoundTrip(e.wd, b, 0);
    WordRoundTrip(e.mask, b, 4);
    WordRoundTrip(e.cookie, b, 8);
    WordRoundTrip(|e.name|, b, 12);
    assert b[HEADER..HEADER + |e.name|] == e.name;
  }

  lemma FirstEventEncodes(b: seq<Byte>)
    requires WholeEvent(b)
    ensures NameFits(FirstEvent(b)) && b == Encode(FirstEvent(b)) + b[EventSize(b)..]
  {
    var e := FirstEvent(b);
    WordRoundTrip(e.wd, b, 0);
    WordRoundTrip(e.mask, b, 4);
    WordRoundTrip(e.cookie, b, 8);
    WordRoundTrip(|e.name|, b, 12);
    assert b == b[0..4] + b[4..8] + b[8..12] + b[12..16] + b[HEADER..EventSize(b)] + b[EventSize(b)..];
  }

  /** The walk visits exactly the events that were laid out, in order. */
  lemma {:induction false} WalkInvertsEncoding(es: seq<Event>)
    requires NamesFit(es)
    ensures Walk(EncodeAll(es)) == Some(es)
  {
    if es != [] {
      FirstEventRoundTrip(es[0], EncodeAll(es[1..]));
      WalkInvertsEncoding(es[1..]);
      assert EncodeAll(es) == Encode(es[0]) + EncodeAll(es[1..]) != [];
      assert es == [es[0]] + es[1..];
    }
  }

  /** And a buffer over which the walk ends is the layout of the events it visits. */
  lemma {:induction false} EncodingInvertsWalk(b: seq<Byte>)
    requires Walk(b).Some?
    ensures NamesFit(Walk(b).value) && EncodeAll(Walk(b).value) == b
  {
    if b != [] {
      var rest := b[EventSize(b)..];
      FirstEventEncodes(b);
      EncodingInvertsWalk(rest);
      assert Walk(b).value[1..] == Walk(rest).value;
    }
  }

  /** The walk stays inside the buffer exactly when the buffer is a layout of events. */
  lemma WalkStaysInsideIff(b: seq<Byte>)
    ensures Walk(b).Some? <==> exists es :: NamesFit(es) && EncodeAll(es) == b
  {
    if Walk(b).Some? {
      EncodingInvertsWalk(b);
    }
    forall es | NamesFit(es) && EncodeAll(es) == b
      ensures Walk(b).Some?
    {
      WalkInvertsEncoding(es);
    }
  }

  // ---- The program

  /**
   The loop of inotify_example over the `len` bytes that read() has put into `buf`; the
   kernel puts whole events there.  No access is outside those bytes, and the cursor
   ends at their number.
   */
  method VisitEvents(buf: array<Byte>, len: nat, ghost es: seq<Event>) returns (visited: seq<Event>, i: nat)
    requires len <= buf.Length && NamesFit(es) && buf[..len] == EncodeAll(es)
    ensures visited == es && i == len
  {
    visited, i := [], 0;
    ghost var b := buf[..len];
    WalkStarts(b, es);
    while i < len
      invariant i <= len && buf[..len] == b && OnTheWay(visited, b, i, es)
    {
      WalkMeetsEvent(visited, b, i, es);
      var e := EventAt(buf, i, len);
      var next := i + HEADER + |e.name|;
      WalkStep(visited, b, i, es, e, next);
      visited, i := visited + [e], next;
    }
    WalkEnds(visited, b, es);
  }

  /** The cursor is at the start of an event, with just the events of `es` before it visited. */
  ghost predicate OnTheWay(visited: seq<Event>, b: seq<Byte>, i: nat, es: seq<Event>)
  {
    i <= |b| && Walk(b[i..]).Some? && visited + Walk(b[i..]).value == es
  }

  lemma WalkStarts(b: seq<Byte>, es: seq<Event>)
    requires NamesFit(es) && b == EncodeAll(es)
    ensures OnTheWay([], b, 0, es)
  {
    WalkInvertsEncoding(es);
    assert b[0..] == b && [] + es == es;
  }

  lemma WalkMeetsEvent(visited: seq<Event>, b: seq<Byte>, i: nat, es: seq<Event>)
    requires i < |b| && OnTheWay(visited, b, i, es)
    ensures WholeEvent(b[i..])
  {
  }

  /** One turn of the loop, on sequences. */
  lemma WalkStep(visited: seq<Event>, b: seq<Byte>, i: nat, es: seq<Event>, e: Event, next: nat)
    requires i < |b| && OnTheWay(visited, b, i, es)
    requires WholeEvent(b[i..]) && e == FirstEvent(b[i..]) && next == i + EventSize(b[i..])
    ensures OnTheWay(visited + [e], b, next, es)
  {
    assert b[i..][EventSize(b[i..])..] == b[next..];
  }

  lemma WalkEnds(visited: seq<Event>, b: seq<Byte>, es: seq<Event>)
    requires OnTheWay(visited, b, |b|, es)
    ensures visited == es
  {
    assert b[|b|..] == [] && visited + [] == visited;
  }

  lemma SliceOfSlice(b: seq<Byte>, from: nat, lo: nat, hi: nat)
    requires from <= |b| && lo <= hi <= |b| - from
    ensures b[from..][lo..hi] == b[from + lo..from + hi]
  {
  }

  /** The event at some place in the buffer. */
  method EventAt(buf: array<Byte>, i: nat, len: nat) returns (e: Event)
    requires i <= len <= buf.Length && WholeEvent(buf[..len][i..])
    ensures e == FirstEvent(buf[..len][i..])
    ensures HEADER + |e.name| == EventSize(buf[..len][i..])
  {
    var wd := Pack(buf[i], buf[i + 1], buf[i + 2], buf[i + 3]);
    var mask := Pack(buf[i + 4], buf[i + 5], buf[i + 6], buf[i + 7]);
    var cookie := Pack(buf[i + 8], buf[i + 9], buf[i + 10], buf[i + 11]);
    var nameLen := Pack(buf[i + 12], buf[i + 13], buf[i + 14], buf[i + 15]);
    assert nameLen == DecodeWord(buf[..len][i..], 12);
    e := Event(wd, mask, cookie, buf[i + HEADER..i + HEADER + nameLen]);
    SliceOfSlice(buf[..len], i, HEADER, HEADER + nameLen);
    assert e.name == buf[..len][i + HEADER..i + HEADER + nameLen];
  }
}
