/**
 The incremental server-sent event parser: what it emits is independent of how the
 stream is cut into writes, as long as every line and every event's data fit the cap.
 It reads a looser form of section 9.2.6 of the WHATWG HTML Living Standard.
 */
module Tee {
  type Byte = x: int | 0 <= x < 256
  type Bytes = seq<Byte>

  const MAX_PENDING: nat := 0x40_0000
  const LF: Byte := 10
  const CR: Byte := 13
  const EVENT: Bytes := [101, 118, 101, 110, 116, 58] // event:
  const DATA: Bytes := [100, 97, 116, 97, 58]         // data:

  datatype SseEvent = SseEvent(typ: Bytes, data: Bytes)

  /** What is pending between lines. */
  datatype Pending = Pending(eventType: Bytes, dataLines: seq<Bytes>, bytes: nat, resyncing: bool)

  const NOTHING: Pending := Pending([], [], 0, false)

  // ---- lines ----

  /** Where the first line ends, or the length of an unterminated one. */
  function LineEnd(b: Bytes): (n: nat)
    ensures n <= |b| && LF !in b[..n] && (n < |b| ==> b[n] == LF)
  {
    if b == [] || b[0] == LF then 0 else 1 + LineEnd(b[1..])
  }

  function Raw(line: Bytes): Bytes {
    if line != [] && line[|line| - 1] == CR then line[..|line| - 1] else line
  }

  /** The length of the white space a text starts with: ASCII, or the UTF-8 form of a Unicode one. */
  function SpaceAt(b: Bytes): (n: nat)
    ensures n <= |b|
  {
    if b == [] then 0
    else if 9 <= b[0] <= 13 || b[0] == 32 then 1
    else if |b| >= 2 && b[0] == 0xC2 && (b[1] == 0x85 || b[1] == 0xA0) then 2
    else if |b| >= 3 && WideSpace(b[0], b[1], b[2]) then 3
    else 0
  }

  predicate WideSpace(x: Byte, y: Byte, z: Byte) {
    || (x == 0xE1 && y == 0x9A && z == 0x80)
    || (x == 0xE2 && y == 0x80 && (0x80 <= z <= 0x8A || z == 0xA8 || z == 0xA9 || z == 0xAF))
    || (x == 0xE2 && y == 0x81 && z == 0x9F)
    || (x == 0xE3 && y == 0x80 && z == 0x80)
  }

  /** The length of the white space a text ends with. */
  function SpaceBefore(b: Bytes): (n: nat)
    ensures n <= |b|
  {
    if |b| >= 1 && SpaceAt(b[|b| - 1..]) == 1 then 1
    else if |b| >= 2 && SpaceAt(b[|b| - 2..]) == 2 then 2
    else if |b| >= 3 && SpaceAt(b[|b| - 3..]) == 3 then 3
    else 0
  }

  /** The white space of Unicode, by code point. */
  predicate White(c: int) {
    || 9 <= c <= 13 || c == 0x20 || c == 0x85 || c == 0xA0 || c == 0x1680 || 0x2000 <= c <= 0x200A
    || c == 0x2028 || c == 0x2029 || c == 0x202F || c == 0x205F || c == 0x3000
  }

  /** The UTF-8 form of a code point below 0x10000 (section 3 of RFC 3629). */
  function Utf8(c: int): Bytes
    requires 0 <= c < 0x10000
  {
    if c < 0x80 then [c]
    else if c < 0x800 then [0xC0 + c / 0x40, 0x80 + c % 0x40]
    else [0xE0 + c / 0x1000, 0x80 + c / 0x40 % 0x40, 0x80 + c % 0x40]
  }

  /** What a text starts with is white space exactly when it is the encoding of a white code point. */
  lemma SpaceIs(b: Bytes, n: nat)
    requires 0 < n
    ensures SpaceAt(b) == n <==> exists c :: 0 <= c < 0x10000 && White(c) && |Utf8(c)| == n && Utf8(c) <= b
  {
    hide SpaceAt, White, Utf8;
    if SpaceAt(b) == n {
      var c := WhiteAt(b);
      assert White(c) && |Utf8(c)| == n && Utf8(c) <= b;
    }
    forall c | 0 <= c < 0x10000 && White(c) && |Utf8(c)| == n && Utf8(c) <= b
      ensures SpaceAt(b) == n
    {
      WhiteBytes(c);
      SpacePrefixed(Utf8(c), b);
    }
  }

  lemma WhiteAt(b: Bytes) returns (c: int)
    requires SpaceAt(b) > 0
    ensures 0 <= c < 0x10000 && White(c) && Utf8(c) == b[..SpaceAt(b)] && Utf8(c) <= b
  {
    var n := SpaceAt(b);
    var x: int, y: int, z: int := b[0], if n > 1 then b[1] else 0, if n > 2 then b[2] else 0;
    c := if n == 1 then x else if n == 2 then (x - 0xC0) * 0x40 + (y - 0x80)
         else (x - 0xE0) * 0x1000 + (y - 0x80) * 0x40 + (z - 0x80);
    assert Utf8(c) == b[..n];
  }

  lemma SpacePrefixed(a: Bytes, b: Bytes)
    requires a <= b && |a| > 0 && SpaceAt(a) == |a|
    ensures SpaceAt(b) == |a|
  {
    assert forall i :: 0 <= i < |a| ==> b[i] == a[i];
  }

  lemma WhiteBytes(c: int)
    requires 0 <= c < 0x10000 && White(c)
    ensures SpaceAt(Utf8(c)) == |Utf8(c)|
  {
  }

  function TrimLeft(b: Bytes): (r: Bytes)
    ensures |r| <= |b| && SpaceAt(r) == 0
    decreases |b|
  {
    if SpaceAt(b) == 0 then b else TrimLeft(b[SpaceAt(b)..])
  }

  function TrimRight(b: Bytes): (r: Bytes)
    ensures |r| <= |b| && SpaceBefore(r) == 0
    decreases |b|
  {
    if SpaceBefore(b) == 0 then b else TrimRight(b[..|b| - SpaceBefore(b)])
  }

  function Trim(b: Bytes): Bytes { TrimRight(TrimLeft(b)) }

  /** White space and nothing else. */
  predicate Blank(b: Bytes)
    decreases |b|
  {
    b == [] || (SpaceAt(b) > 0 && Blank(b[SpaceAt(b)..]))
  }

  lemma {:induction false} BlankAppend(a: Bytes, b: Bytes)
    requires Blank(a) && Blank(b)
    ensures Blank(a + b)
    decreases |a|
  {
    if a == [] {
      assert a + b == b;
    } else {
      var n := SpaceAt(a);
      assert SpaceAt(a + b) == n;
      assert (a + b)[n..] == a[n..] + b;
      BlankAppend(a[n..], b);
    }
  }

  lemma {:induction false} LeftTrimmed(b: Bytes)
    ensures exists pre :: Blank(pre) && b == pre + TrimLeft(b)
    decreases |b|
  {
    var n := SpaceAt(b);
    BlankNone();
    hide SpaceAt, Blank;
    if n == 0 {
      assert b == [] + b;
    } else {
      LeftTrimmed(b[n..]);
      var pre :| Blank(pre) && b[n..] == pre + TrimLeft(b[n..]);
      SpacePrefix(b);
      BlankAppend(b[..n], pre);
      assert b == b[..n] + pre + TrimLeft(b);
    }
  }

  lemma BlankNone()
    ensures Blank([])
  {
  }

  lemma BeforeIs(b: Bytes)
    ensures SpaceBefore(b) > 0 ==> SpaceAt(b[|b| - SpaceBefore(b)..]) == SpaceBefore(b)
  {
  }

  lemma SpacePrefix(b: Bytes)
    requires SpaceAt(b) > 0
    ensures Blank(b[..SpaceAt(b)])
  {
    var n := SpaceAt(b);
    assert SpaceAt(b[..n]) == n && b[..n][n..] == [];
  }

  lemma {:induction false} RightTrimmed(b: Bytes)
    ensures exists post :: Blank(post) && b == TrimRight(b) + post
    decreases |b|
  {
    var n := SpaceBefore(b);
    BlankNone();
    BeforeIs(b);
    hide SpaceAt, SpaceBefore, Blank;
    if n == 0 {
      assert b == b + [];
    } else {
      var most := b[..|b| - n];
      RightTrimmed(most);
      var post :| Blank(post) && most == TrimRight(most) + post;
      SpacePrefix(b[|b| - n..]);
      assert TrimRight(b) == TrimRight(most);
      assert b == most + b[|b| - n..] && b[|b| - n..][..n] == b[|b| - n..];
      BlankAppend(post, b[|b| - n..]);
      assert b == TrimRight(b) + (post + b[|b| - n..]);
    }
  }

  /** Trimming takes white space off both ends, and all of it. */
  lemma TrimIs(b: Bytes)
    ensures SpaceBefore(Trim(b)) == 0 && SpaceAt(TrimLeft(b)) == 0
    ensures exists pre, post :: Blank(pre) && Blank(post) && b == pre + Trim(b) + post
  {
    hide SpaceAt, SpaceBefore, Blank;
    LeftTrimmed(b);
    var pre :| Blank(pre) && b == pre + TrimLeft(b);
    RightTrimmed(TrimLeft(b));
    var post :| Blank(post) && TrimLeft(b) == Trim(b) + post;
    assert b == pre + Trim(b) + post;
  }

  function Join(lines: seq<Bytes>): Bytes {
    if lines == [] then [] else if |lines| == 1 then lines[0] else lines[0] + [LF] + Join(lines[1..])
  }

  function Total(lines: seq<Bytes>): nat {
    if lines == [] then 0 else |lines[|lines| - 1]| + Total(lines[..|lines| - 1])
  }

  // ---- one line ----

  /** The pending state after a complete line, before any cap, and the event it ends. */
  function Line(s: Pending, raw: Bytes): (Pending, seq<SseEvent>) {
    if raw == [] then
      (NOTHING, if !s.resyncing && s.dataLines != [] then [SseEvent(s.eventType, Join(s.dataLines))] else [])
    else if s.resyncing then (s, [])
    else if EVENT <= raw then (s.(eventType := Trim(raw[|EVENT|..])), [])
    else if DATA <= raw then
      var d := Trim(raw[|DATA|..]);
      (s.(dataLines := s.dataLines + [d], bytes := s.bytes + |d|), [])
    else (s, [])
  }

  const OVERFLOWED: Pending := Pending([], [], 0, true)

  // ---- a buffer ----

  /** What scanning a buffer leaves unread and pending, and the events it yields. */
  datatype Scanned = Scanned(rest: Bytes, s: Pending, events: seq<SseEvent>)

  function After(events: seq<SseEvent>, r: Scanned): Scanned { r.(events := events + r.events) }

  /** Line by line; an overflow drops the rest of the buffer. */
  function Scan(s: Pending, b: Bytes): Scanned
    decreases |b|
  {
    var n := LineEnd(b);
    if n == |b| then (if |b| > MAX_PENDING then Scanned([], OVERFLOWED, []) else Scanned(b, s, []))
    else
      var (t, events) := Line(s, Raw(b[..n]));
      if t.bytes > MAX_PENDING then Scanned([], OVERFLOWED, events) else After(events, Scan(t, b[n + 1..]))
  }

  /** Every line and every event's data fit the cap. */
  predicate Fits(s: Pending, b: Bytes)
    decreases |b|
  {
    var n := LineEnd(b);
    && n <= MAX_PENDING
    && (n < |b| ==> var t := Line(s, Raw(b[..n])).0; t.bytes <= MAX_PENDING && Fits(t, b[n + 1..]))
  }

  /** The whole stream parsed line by line, with no cap. */
  function Parse(s: Pending, b: Bytes): Scanned
    decreases |b|
  {
    var n := LineEnd(b);
    if n == |b| then Scanned(b, s, [])
    else
      var (t, events) := Line(s, Raw(b[..n]));
      After(events, Parse(t, b[n + 1..]))
  }

  lemma TotalNone()
    ensures Total([]) == 0
  {
  }

  lemma AfterTwice(a: seq<SseEvent>, b: seq<SseEvent>, r: Scanned)
    ensures After(a, After(b, r)) == After(a + b, r) && After([], r) == r
  {
  }

  // ---- the parser ----

  class Tee {
    var buf: Bytes
    var eventType: Bytes
    var dataLines: seq<Bytes>
    var pendingBytes: nat
    var resyncing: bool

    function View(): Pending
      reads this
    {
      Pending(eventType, dataLines, pendingBytes, resyncing)
    }

    /** What is held is bounded, and counted exactly. */
    ghost predicate Valid()
      reads this
    {
      && LF !in buf && |buf| <= MAX_PENDING
      && pendingBytes == Total(dataLines) && pendingBytes <= MAX_PENDING
    }

    constructor ()
      ensures Valid() && buf == [] && View() == NOTHING
    {
      buf, eventType, dataLines, pendingBytes, resyncing := [], [], [], 0, false;
    }

    method Overflow()
      modifies this
      ensures buf == [] && View() == OVERFLOWED
    {
      buf, eventType, dataLines, pendingBytes, resyncing := [], [], [], 0, true;
    }

    method IndexByte() returns (n: nat)
      ensures n == LineEnd(buf)
    {
      n := 0;
      while n < |buf| && buf[n] != LF
        invariant n <= |buf| && LineEnd(buf) == n + LineEnd(buf[n..])
      {
        assert buf[n..][1..] == buf[n + 1..];
        n := n + 1;
      }
    }

    /** Takes one complete line, and returns the event it ends. */
    method TakeLine(raw: Bytes) returns (events: seq<SseEvent>)
      requires pendingBytes == Total(dataLines)
      modifies `eventType, `dataLines, `pendingBytes, `resyncing
      ensures (View(), events) == Line(old(View()), raw) && pendingBytes == Total(dataLines)
    {
      hide Trim, Join;
      events := [];
      if raw == [] {
        if resyncing {
          resyncing := false;
        } else if |dataLines| > 0 {
          events := [SseEvent(eventType, Join(dataLines))];
        }
        eventType, dataLines, pendingBytes := [], [], 0;
      } else if resyncing {
      } else if EVENT <= raw {
        eventType := Trim(raw[|EVENT|..]);
      } else if DATA <= raw {
        var d := Trim(raw[|DATA|..]);
        assert (dataLines + [d])[..|dataLines|] == dataLines;
        dataLines := dataLines + [d];
        pendingBytes := pendingBytes + |d|;
      }
    }

    /** Scans each byte once; partial lines and events survive the end of a write. */
    method Consume(p: Bytes) returns (events: seq<SseEvent>)
      requires Valid()
      modifies this
      ensures Valid()
      ensures Scanned(buf, View(), events) == Scan(old(View()), old(buf) + p)
    {
      hide Raw, Line, Total, SpaceAt;
      TotalNone();
      ghost var s, b := View(), buf + p;
      buf := buf + p;
      events := [];
      while true
        invariant pendingBytes == Total(dataLines) && pendingBytes <= MAX_PENDING
        invariant After(events, Scan(View(), buf)) == Scan(s, b)
        decreases |buf|
      {
        var n := IndexByte();
        if n == |buf| {
          if |buf| > MAX_PENDING {
            Overflow();
          }
          return;
        }
        var line := buf[..n];
        ghost var before := buf;
        var more := TakeLine(Raw(line));
        buf := buf[n + 1..];
        AfterTwice(events, more, Scan(View(), buf));
        events := events + more;
        if pendingBytes > MAX_PENDING {
          Overflow();
          return;
        }
      }
    }
  }

  // ---- writes ----

  function Concat(chunks: seq<Bytes>): Bytes {
    if chunks == [] then [] else chunks[0] + Concat(chunks[1..])
  }

  /** What a parser is left with after a sequence of writes, and the events it emitted. */
  function Written(rest: Bytes, s: Pending, chunks: seq<Bytes>): Scanned
    decreases |chunks|
  {
    if chunks == [] then Scanned(rest, s, [])
    else
      var r := Scan(s, rest + chunks[0]);
      After(r.events, Written(r.rest, r.s, chunks[1..]))
  }

  lemma LineEndConcat(a: Bytes, b: Bytes)
    ensures LineEnd(a) < |a| ==> LineEnd(a + b) == LineEnd(a)
    decreases |a|
  {
    if a != [] && a[0] != LF {
      assert (a + b)[1..] == a[1..] + b;
      LineEndConcat(a[1..], b);
    }
  }

  /** Under the cap nothing is dropped. */
  lemma {:induction false} FitsScans(s: Pending, b: Bytes)
    requires Fits(s, b)
    ensures Scan(s, b) == Parse(s, b)
    decreases |b|
  {
    var n := LineEnd(b);
    if n < |b| {
      FitsScans(Line(s, Raw(b[..n])).0, b[n + 1..]);
    }
  }

  lemma ParseNext(s: Pending, b: Bytes)
    ensures var n := LineEnd(b);
            if n == |b| then Parse(s, b) == Scanned(b, s, [])
            else var (t, events) := Line(s, Raw(b[..n])); Parse(s, b) == After(events, Parse(t, b[n + 1..]))
  {
    hide Line, Raw, LineEnd;
  }

  /** Parsing goes on from where it was left. */
  lemma {:induction false} ParseConcat(s: Pending, a: Bytes, b: Bytes)
    ensures var r := Parse(s, a); Parse(s, a + b) == After(r.events, Parse(r.s, r.rest + b))
    decreases |a|
  {
    ParseNext(s, a);
    hide Line, Raw, Parse, LineEnd;
    var n := LineEnd(a);
    if n < |a| {
      LineEndConcat(a, b);
      assert (a + b)[..n] == a[..n] && (a + b)[n + 1..] == a[n + 1..] + b;
      ParseNext(s, a + b);
      var (t, events) := Line(s, Raw(a[..n]));
      ParseConcat(t, a[n + 1..], b);
      var r := Parse(t, a[n + 1..]);
      AfterTwice(events, r.events, Parse(r.s, r.rest + b));
    } else {
      AfterTwice([], [], Parse(s, a + b));
    }
  }

  lemma {:induction false} FitsConcat(s: Pending, a: Bytes, b: Bytes)
    requires Fits(s, a + b)
    ensures Fits(s, a) && var r := Parse(s, a); Fits(r.s, r.rest + b)
    decreases |a|
  {
    hide Line, Raw;
    var n := LineEnd(a);
    if n < |a| {
      LineEndConcat(a, b);
      assert (a + b)[..n] == a[..n] && (a + b)[n + 1..] == a[n + 1..] + b;
      FitsConcat(Line(s, Raw(a[..n])).0, a[n + 1..], b);
    } else {
      PrefixEnd(a, b);
    }
  }

  lemma PrefixEnd(a: Bytes, b: Bytes)
    requires LineEnd(a) == |a|
    ensures |a| <= LineEnd(a + b)
    decreases |a|
  {
    if a != [] {
      assert (a + b)[1..] == a[1..] + b;
      PrefixEnd(a[1..], b);
    }
  }

  /**
   Under the cap, any way of cutting the stream into writes gives the events and the final
   state of one line by line parse of the whole.
   */
  lemma {:induction false} ChunkIndependence(rest: Bytes, s: Pending, chunks: seq<Bytes>)
    requires LF !in rest && Fits(s, rest + Concat(chunks))
    ensures Written(rest, s, chunks) == Parse(s, rest + Concat(chunks))
    decreases |chunks|
  {
    if chunks == [] {
      assert rest + Concat(chunks) == rest;
      Unterminated(s, rest);
    } else {
      var b, c := rest + chunks[0], Concat(chunks[1..]);
      assert rest + Concat(chunks) == b + c;
      FitsConcat(s, b, c);
      FitsScans(s, b);
      ParseConcat(s, b, c);
      var r := Parse(s, b);
      ParseRest(s, b);
      ChunkIndependence(r.rest, r.s, chunks[1..]);
    }
  }

  lemma Unterminated(s: Pending, rest: Bytes)
    requires LF !in rest
    ensures Parse(s, rest) == Scanned(rest, s, [])
  {
  }

  /** What a parse leaves unread has no line end. */
  lemma {:induction false} ParseRest(s: Pending, b: Bytes)
    ensures LF !in Parse(s, b).rest
    decreases |b|
  {
    var n := LineEnd(b);
    if n < |b| {
      ParseRest(Line(s, Raw(b[..n])).0, b[n + 1..]);
    } else {
      assert b[..n] == b;
    }
  }

  /** Two ways of cutting one stream emit the same events and leave the same state. */
  lemma WritesAgree(chunks: seq<Bytes>, others: seq<Bytes>)
    requires Concat(chunks) == Concat(others) && Fits(NOTHING, Concat(chunks))
    ensures Written([], NOTHING, chunks) == Written([], NOTHING, others)
  {
    assert [] + Concat(chunks) == Concat(chunks);
    ChunkIndependence([], NOTHING, chunks);
    ChunkIndependence([], NOTHING, others);
  }

  // ---- what is written is read back ----

  /** An event as it is sent: its type, the lines of its data, and how its lines end. */
  datatype Sent = Sent(typ: Bytes, lines: seq<Bytes>, crlf: bool)

  function Field(name: Bytes, value: Bytes): Bytes { name + [32] + value }

  /** What stands before the line feed of a line. */
  function Ending(crlf: bool): Bytes { if crlf then [CR] else [] }

  function DataFields(lines: seq<Bytes>, crlf: bool): Bytes {
    if lines == [] then [] else Field(DATA, lines[0]) + Ending(crlf) + [LF] + DataFields(lines[1..], crlf)
  }

  function Frame(e: Sent): Bytes {
    Field(EVENT, e.typ) + Ending(e.crlf) + [LF] + (DataFields(e.lines, e.crlf) + (Ending(e.crlf) + [LF] + []))
  }

  function Stream(es: seq<Sent>): Bytes { if es == [] then [] else Frame(es[0]) + Stream(es[1..]) }

  /** An event without data is none. */
  function Emitted(e: Sent): seq<SseEvent> { if e.lines == [] then [] else [SseEvent(e.typ, Join(e.lines))] }

  function AllEmitted(es: seq<Sent>): seq<SseEvent> {
    if es == [] then [] else Emitted(es[0]) + AllEmitted(es[1..])
  }

  /** The lines of a text. */
  function Lines(b: Bytes): seq<Bytes>
    decreases |b|
  {
    var n := LineEnd(b);
    if n == |b| then [b] else [b[..n]] + Lines(b[n + 1..])
  }

  function WithData(es: seq<Sent>): seq<Sent> {
    if es == [] then [] else (if es[0].lines == [] then [] else [es[0]]) + WithData(es[1..])
  }

  /** Each event sent with data is received, in order, under its type and with its lines as the lines of its data. */
  ghost predicate Received(events: seq<SseEvent>, es: seq<Sent>) {
    && |events| == |WithData(es)|
    && forall i :: 0 <= i < |events| ==> events[i].typ == WithData(es)[i].typ && Lines(events[i].data) == WithData(es)[i].lines
  }

  lemma {:induction false} JoinLines(lines: seq<Bytes>)
    requires lines != [] && forall l :: l in lines ==> LF !in l
    ensures Lines(Join(lines)) == lines
    decreases |lines|
  {
    var first := lines[0];
    if |lines| == 1 {
      NoEnd(first);
    } else {
      LineEndAt(first, Join(lines[1..]));
      var b := first + [LF] + Join(lines[1..]);
      assert b[..|first|] == first && b[|first| + 1..] == Join(lines[1..]);
      JoinLines(lines[1..]);
    }
  }

  lemma NoEnd(line: Bytes)
    requires LF !in line
    ensures LineEnd(line) == |line|
  {
    assert forall i :: 0 <= i < |line| ==> line[i] in line;
  }

  lemma {:induction false} EmittedReceived(es: seq<Sent>)
    requires forall e :: e in es ==> CleanEvent(e)
    ensures Received(AllEmitted(es), es)
    decreases |es|
  {
    hide Join, Lines, Clean;
    if es != [] {
      assert CleanEvent(es[0]);
      EmittedReceived(es[1..]);
      if es[0].lines != [] {
        CleanLines(es[0]);
        JoinLines(es[0].lines);
      }
    }
  }

  lemma CleanLines(e: Sent)
    requires CleanEvent(e)
    ensures forall l :: l in e.lines ==> LF !in l
  {
  }

  /** A value on one line, without white space around it. */
  predicate Clean(b: Bytes) { LF !in b && SpaceAt(b) == 0 && SpaceBefore(b) == 0 }

  predicate CleanEvent(e: Sent) { Clean(e.typ) && forall l :: l in e.lines ==> Clean(l) }

  lemma ParseLine(s: Pending, line: Bytes, rest: Bytes)
    requires LF !in line
    ensures Parse(s, line + [LF] + rest) == After(Line(s, Raw(line)).1, Parse(Line(s, Raw(line)).0, rest))
  {
    var b := line + [LF] + rest;
    LineEndAt(line, rest);
    assert b[..|line|] == line && b[|line| + 1..] == rest;
  }

  lemma {:induction false} LineEndAt(line: Bytes, rest: Bytes)
    requires LF !in line
    ensures LineEnd(line + [LF] + rest) == |line|
  {
    var b := line + [LF] + rest;
    if line != [] {
      assert b[1..] == line[1..] + [LF] + rest;
      LineEndAt(line[1..], rest);
    }
  }

  lemma TrimClean(value: Bytes)
    requires Clean(value)
    ensures Trim([32] + value) == value
  {
    SpaceFirst(value);
    hide SpaceAt, SpaceBefore, WideSpace;
    assert ([32] + value)[1..] == value;
    assert TrimLeft(value) == value;
  }

  lemma SpaceFirst(value: Bytes)
    ensures SpaceAt([32] + value) == 1
  {
  }

  lemma FieldRaw(name: Bytes, value: Bytes, crlf: bool)
    requires (name == EVENT || name == DATA) && Clean(value)
    ensures LF !in Field(name, value) + Ending(crlf) && Raw(Field(name, value) + Ending(crlf)) == Field(name, value)
  {
    var line := Field(name, value);
    if value == [] {
      assert line[|line| - 1] == 32;
    } else {
      assert value[|value| - 1..] == [value[|value| - 1]];
      assert line[|line| - 1] == value[|value| - 1] != CR;
    }
    assert line + [] == line && (line + [CR])[..|line|] == line;
  }

  lemma FieldPrefix(name: Bytes, value: Bytes)
    ensures name <= Field(name, value) && Field(name, value)[|name|..] == [32] + value
    ensures name == EVENT ==> !(DATA <= Field(name, value))
    ensures name == DATA ==> !(EVENT <= Field(name, value))
  {
    assert EVENT[0] != DATA[0];
    if |name| > 0 {
      assert Field(name, value)[0] == name[0];
    }
  }

  lemma FieldLine(s: Pending, name: Bytes, value: Bytes, crlf: bool)
    requires (name == EVENT || name == DATA) && Clean(value) && !s.resyncing
    ensures var line := Field(name, value) + Ending(crlf);
            LF !in line
            && Line(s, Raw(line)) ==
                 (if name == EVENT then s.(eventType := value)
                  else s.(dataLines := s.dataLines + [value], bytes := s.bytes + |value|), [])
  {
    FieldRaw(name, value, crlf);
    FieldPrefix(name, value);
    TrimClean(value);
    hide Field, Trim, Clean, Join, Raw;
    assert Field(name, value) != [] by { assert name <= Field(name, value) && |name| > 0; }
  }

  lemma {:induction false} ParseFields(s: Pending, lines: seq<Bytes>, crlf: bool, rest: Bytes)
    requires !s.resyncing && forall l :: l in lines ==> Clean(l)
    ensures Parse(s, DataFields(lines, crlf) + rest) ==
              Parse(s.(dataLines := s.dataLines + lines, bytes := s.bytes + Lengths(lines)), rest)
    decreases |lines|
  {
    hide Line, Raw, Clean, Parse, Field, Ending;
    if lines == [] {
      assert DataFields(lines, crlf) + rest == rest;
      assert s.dataLines + lines == s.dataLines;
    } else {
      var more := DataFields(lines[1..], crlf) + rest;
      DataSplit(lines, crlf, rest);
      assert lines[0] in lines;
      FieldLine(s, DATA, lines[0], crlf);
      ParseLine(s, Field(DATA, lines[0]) + Ending(crlf), more);
      var t := s.(dataLines := s.dataLines + [lines[0]], bytes := s.bytes + |lines[0]|);
      assert Parse(s, DataFields(lines, crlf) + rest) == After([], Parse(t, more));
      ParseFields(t, lines[1..], crlf, rest);
      assert t.dataLines + lines[1..] == s.dataLines + lines;
    }
  }

  lemma DataSplit(lines: seq<Bytes>, crlf: bool, rest: Bytes)
    requires lines != []
    ensures DataFields(lines, crlf) + rest == Field(DATA, lines[0]) + Ending(crlf) + [LF] + (DataFields(lines[1..], crlf) + rest)
  {
    hide Field, Ending;
  }

  function Lengths(lines: seq<Bytes>): nat { if lines == [] then 0 else |lines[0]| + Lengths(lines[1..]) }

  lemma FrameSplit(e: Sent, rest: Bytes)
    ensures Frame(e) + rest ==
              Field(EVENT, e.typ) + Ending(e.crlf) + [LF] + (DataFields(e.lines, e.crlf) + (Ending(e.crlf) + [LF] + rest))
  {
    hide Field, DataFields, Ending;
  }

  lemma ParseFrame(e: Sent, rest: Bytes)
    requires CleanEvent(e)
    ensures Parse(NOTHING, Frame(e) + rest) == After(Emitted(e), Parse(NOTHING, rest))
  {
    hide Raw, Clean, Join, Parse, LineEnd, Field, Frame, DataFields, Line, Ending;
    var last := Ending(e.crlf) + [LF] + rest;
    var more := DataFields(e.lines, e.crlf) + last;
    FrameSplit(e, rest);
    FieldLine(NOTHING, EVENT, e.typ, e.crlf);
    ParseLine(NOTHING, Field(EVENT, e.typ) + Ending(e.crlf), more);
    var s := NOTHING.(eventType := e.typ);
    ParseFields(s, e.lines, e.crlf, last);
    var t := s.(dataLines := [] + e.lines, bytes := 0 + Lengths(e.lines));
    assert [] + e.lines == e.lines;
    BlankLine(t, e.crlf, rest);
  }

  /** A blank line dispatches what is pending, if there is data. */
  lemma BlankLine(s: Pending, crlf: bool, rest: Bytes)
    requires !s.resyncing
    ensures Parse(s, Ending(crlf) + [LF] + rest)
         == After(if s.dataLines == [] then [] else [SseEvent(s.eventType, Join(s.dataLines))], Parse(NOTHING, rest))
  {
    RawNone();
    hide Raw, Parse, LineEnd, Join;
    ParseLine(s, Ending(crlf), rest);
  }

  lemma RawNone()
    ensures Raw([]) == [] && Raw([CR]) == []
  {
  }

  lemma {:induction false} ParseStream(es: seq<Sent>)
    requires forall e :: e in es ==> CleanEvent(e)
    ensures Parse(NOTHING, Stream(es)) == Scanned([], NOTHING, AllEmitted(es))
    decreases |es|
  {
    if es != [] {
      hide CleanEvent, Frame, Join, Emitted;
      ParseFrame(es[0], Stream(es[1..]));
      ParseStream(es[1..]);
    }
  }

  /** A stream of events is parsed back to those that carry data, with nothing left over. */
  lemma RoundTrip(es: seq<Sent>)
    requires forall e :: e in es ==> CleanEvent(e)
    ensures var r := Parse(NOTHING, Stream(es)); r.rest == [] && r.s == NOTHING && Received(r.events, es)
  {
    hide CleanEvent, Stream, AllEmitted, Parse, Received;
    ParseStream(es);
    EmittedReceived(es);
  }

  /** However the stream is cut into writes, the events sent are the events emitted. */
  lemma AnyWritesRoundTrip(es: seq<Sent>, chunks: seq<Bytes>)
    requires (forall e :: e in es ==> CleanEvent(e)) && Concat(chunks) == Stream(es) && Fits(NOTHING, Stream(es))
    ensures var r := Written([], NOTHING, chunks); r.rest == [] && r.s == NOTHING && Received(r.events, es)
  {
    hide CleanEvent, Stream, Parse, Received;
    assert [] + Concat(chunks) == Concat(chunks);
    ChunkIndependence([], NOTHING, chunks);
    RoundTrip(es);
  }

  // ---- beyond the cap ----

  /** After an overflow nothing is emitted up to the next blank line. */
  function AfterBlank(b: Bytes): Bytes
    decreases |b|
  {
    var n := LineEnd(b);
    if n == |b| then b else if Raw(b[..n]) == [] then b[n + 1..] else AfterBlank(b[n + 1..])
  }

  /** From then on the stream is parsed as if it had begun there. */
  lemma {:induction false} Resyncs(b: Bytes)
    ensures Parse(OVERFLOWED, b).events == Parse(NOTHING, AfterBlank(b)).events
    decreases |b|
  {
    hide Line, Raw;
    var n := LineEnd(b);
    if n < |b| {
      LineResyncing(Raw(b[..n]));
      if Raw(b[..n]) != [] {
        Resyncs(b[n + 1..]);
      }
    }
  }

  lemma LineResyncing(raw: Bytes)
    ensures Line(OVERFLOWED, raw) == (if raw == [] then NOTHING else OVERFLOWED, [])
  {
  }

  /** A line that takes an event past the cap drops the rest of its write, and what later writes bring up to the next blank line. */
  lemma DataOverflow(s: Pending, line: Bytes, rest: Bytes, next: Bytes)
    requires LF !in line && Line(s, Raw(line)).0.bytes > 0x40_0000 && Fits(OVERFLOWED, next)
    ensures Written([], s, [line + [LF] + rest, next]).events == Line(s, Raw(line)).1 + Parse(NOTHING, AfterBlank(next)).events
  {
    hide Line, Raw, Fits;
    var b := line + [LF] + rest;
    LineEndAt(line, rest);
    assert b[..|line|] == line && b[|line| + 1..] == rest;
    WrittenTwo(s, b, next);
    assert [] + next == next;
    FitsScans(OVERFLOWED, next);
    Resyncs(next);
  }

  lemma ScanLine(s: Pending, line: Bytes, rest: Bytes)
    requires LF !in line && Line(s, Raw(line)).0.bytes <= MAX_PENDING
    ensures Scan(s, line + [LF] + rest) == After(Line(s, Raw(line)).1, Scan(Line(s, Raw(line)).0, rest))
  {
    hide Line, Raw;
    var b := line + [LF] + rest;
    LineEndAt(line, rest);
    assert b[..|line|] == line && b[|line| + 1..] == rest;
  }

  lemma BlankLines(s: Pending, events: seq<SseEvent>)
    requires Line(s, Raw([])) == (NOTHING, events) && Line(NOTHING, Raw([])) == (NOTHING, [])
    ensures Scan(s, [LF, LF]) == Scanned([], NOTHING, events)
  {
    hide Line, Raw;
    ScanLine(s, [], [LF]);
    ScanLine(NOTHING, [], []);
    assert [] + [LF] + [LF] == [LF, LF] && [] + [LF] + [] == [LF];
    assert Scan(NOTHING, []) == Scanned([], NOTHING, []);
  }

  lemma LongTail(s: Pending, long: Bytes)
    requires |long| > MAX_PENDING && LF !in long
    ensures Scan(s, long) == Scanned([], OVERFLOWED, [])
  {
    assert LineEnd(long) == |long|;
  }

  /** What ends at a line leaves the rest of a write to the state it parses to. */
  lemma {:induction false} ScanHead(s: Pending, head: Bytes, x: Bytes)
    requires Fits(s, head) && Parse(s, head).rest == []
    ensures Scan(s, head + x) == After(Parse(s, head).events, Scan(Parse(s, head).s, x))
    decreases |head|
  {
    hide Line, Raw;
    var n := LineEnd(head);
    if n == |head| {
      assert head == [] && head + x == x;
    } else {
      var line, rest := head[..n], head[n + 1..];
      var (t, events) := Line(s, Raw(line));
      assert head + x == line + [LF] + (rest + x);
      ScanLine(s, line, rest + x);
      ScanHead(t, rest, x);
    }
  }

  /** A long line the parser ignores in a state, for example because its field is unknown. */
  predicate Ignored(s: Pending, line: Bytes) { |line| > MAX_PENDING && LF !in line && Line(s, Raw(line)) == (s, []) }

  /** The blank line that ends the pending event. */
  lemma Dispatches(s: Pending)
    requires !s.resyncing && s.dataLines != []
    ensures Line(s, Raw([])) == (NOTHING, [SseEvent(s.eventType, Join(s.dataLines))])
    ensures Line(NOTHING, Raw([])) == (NOTHING, []) && Line(OVERFLOWED, Raw([])) == (NOTHING, [])
  {
    hide Join;
  }

  lemma IgnoredTail(s: Pending, long: Bytes)
    requires Ignored(s, long) && s.bytes <= MAX_PENDING && Line(NOTHING, Raw([])) == (NOTHING, [])
    ensures Scan(s, long + [LF, LF]) == Scan(s, [LF])
  {
    hide Line, Raw, Scan;
    ScanLine(s, long, [LF]);
    assert long + [LF, LF] == long + [LF] + [LF];
    AfterTwice([], [], Scan(s, [LF]));
  }

  /**
   Whatever came before, an overlong line the parser ignores costs the pending event when a
   write ends inside it, and costs nothing when it is written whole.
   */
  lemma OverflowDependsOnWrites(head: Bytes, long: Bytes)
    requires Fits(NOTHING, head) && Parse(NOTHING, head).rest == []
    requires var s := Parse(NOTHING, head).s; !s.resyncing && s.dataLines != [] && s.bytes <= MAX_PENDING && Ignored(s, long)
    ensures var a, b, r := head + long, [LF, LF], Parse(NOTHING, head);
            && Written([], NOTHING, [a + b]).events == r.events + [SseEvent(r.s.eventType, Join(r.s.dataLines))]
            && Written([], NOTHING, [a, b]).events == r.events
  {
    hide Line, Raw, Scan, Join, Ignored;
    var a, b, r := head + long, [LF, LF], Parse(NOTHING, head);
    var ended := [SseEvent(r.s.eventType, Join(r.s.dataLines))];
    Dispatches(r.s);
    BlankLines(OVERFLOWED, []);
    IgnoredLong(r.s, long);
    ScanHead(NOTHING, head, long);
    ScanHead(NOTHING, head, long + b);
    IgnoredTail(r.s, long);
    ScanBlank(r.s, ended);
    assert head + (long + b) == a + b && [] + b == b;
    WrittenOne(NOTHING, a + b);
    WrittenTwo(NOTHING, a, b);
  }

  const HEAD: Bytes := [100, 97, 116, 97, 58, 49]
  const HELD: Pending := Pending([], [[49]], 1, false)

  /** Such a stream: one data line, then a line of any length with no field the parser knows. */
  lemma OverflowHappens(long: Bytes)
    requires |long| > 0x40_0000 && forall c :: c in long ==> c == 120
    ensures Fits(NOTHING, HEAD + [LF]) && Parse(NOTHING, HEAD + [LF]) == Scanned([], HELD, []) && Ignored(HELD, long)
  {
    hide Line, Raw, Fits, Parse;
    ExampleLines(long);
    LineEndAt(HEAD, []);
    assert HEAD + [LF] + [] == HEAD + [LF];
    ParseLine(NOTHING, HEAD, []);
    FitsLine(NOTHING, HEAD);
    Unterminated(HELD, []);
    AfterTwice([], [], Scanned([], HELD, []));
  }

  lemma FitsLine(s: Pending, line: Bytes)
    requires LF !in line && |line| <= MAX_PENDING && Line(s, Raw(line)).0.bytes <= MAX_PENDING
    ensures Fits(s, line + [LF])
  {
    hide Line, Raw;
    var b := line + [LF] + [];
    LineEndAt(line, []);
    assert b == line + [LF] && b[..|line|] == line && b[|line| + 1..] == [];
  }

  /** The lines of the example, one by one. */
  lemma ExampleLines(long: Bytes)
    requires long != [] && forall c :: c in long ==> c == 120
    ensures Line(NOTHING, Raw(HEAD)) == (HELD, []) && Line(HELD, Raw(long)) == (HELD, [])
  {
    HeadLine();
    hide Trim, Join, LineEnd;
    assert long[0] in long && long[|long| - 1] in long;
    assert EVENT[0] == 101 && DATA[0] == 100;
    assert Raw(long) == long;
  }

  lemma HeadLine()
    ensures Line(NOTHING, Raw(HEAD)) == (HELD, [])
  {
    hide Join, LineEnd, Trim;
    TrimOne();
    assert Raw(HEAD) == HEAD && HEAD[|DATA|..] == [49] && HEAD[0] == 100 && EVENT[0] == 101;
    assert NOTHING.dataLines + [[49]] == [[49]];
  }

  lemma TrimOne()
    ensures Trim([49]) == [49]
  {
    var one: Bytes := [49];
    assert one[|one| - 1..] == one;
    assert SpaceAt(one) == 0 && SpaceBefore(one) == 0;
    hide SpaceAt, SpaceBefore;
  }

  lemma IgnoredLong(s: Pending, long: Bytes)
    requires Ignored(s, long)
    ensures Scan(s, long) == Scanned([], OVERFLOWED, [])
  {
    LongTail(s, long);
  }

  lemma ScanBlank(s: Pending, events: seq<SseEvent>)
    requires Line(s, Raw([])) == (NOTHING, events)
    ensures Scan(s, [LF]) == Scanned([], NOTHING, events)
  {
    hide Line, Raw;
    ScanLine(s, [], []);
    assert [] + [LF] + [] == [LF];
    ScanNone();
  }

  lemma WrittenOne(s: Pending, a: Bytes)
    ensures Written([], s, [a]) == Scan(s, a)
  {
    hide Scan;
    var none: seq<Bytes> := [];
    assert [] + a == a && [a][1..] == none;
  }

  lemma WrittenTwo(s: Pending, a: Bytes, b: Bytes)
    ensures var r := Scan(s, a); Written([], s, [a, b]) == After(r.events, Scan(r.s, r.rest + b))
  {
    hide Scan;
    var r := Scan(s, a);
    var none: seq<Bytes> := [];
    assert [] + a == a && [a, b][1..] == [b] && [b][1..] == none;
    assert Written(r.rest, r.s, [b]) == Scan(r.s, r.rest + b);
  }

  lemma ScanNone()
    ensures Scan(NOTHING, []) == Scanned([], NOTHING, [])
  {
  }
}
