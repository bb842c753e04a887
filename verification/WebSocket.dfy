// The server half of the WebSocket frame layer (sections 5.2 to 5.5 of RFC 6455)
// as functions on byte strings.
module WebSocket {
  import opened Bytes
  import opened Protocol

  const OP_CONT := 0
  const OP_TEXT := 1
  const OP_BIN := 2
  const OP_CLOSE := 8
  const OP_PING := 9
  const OP_PONG := 10

  type Opcode = x: int | 0 <= x < 16
  type Mask = s: Bytes | |s| == 4 witness [0, 0, 0, 0]

  function Pow2(k: nat): nat {
    if k == 0 then 1 else 2 * Pow2(k - 1)
  }

  // Exclusive or of the low k bits.
  function XorBits(a: nat, b: nat, k: nat): (r: nat)
    ensures r < Pow2(k)
  {
    if k == 0 then 0 else 2 * XorBits(a / 2, b / 2, k - 1) + (if a % 2 == b % 2 then 0 else 1)
  }

  function Xor(a: byte, m: byte): byte {
    assert Pow2(4) == 16;
    XorBits(a, m, 8)
  }

  lemma {:induction false} XorBitsInvolution(a: nat, m: nat, k: nat)
    requires a < Pow2(k)
    ensures XorBits(XorBits(a, m, k), m, k) == a
  {
    if k > 0 {
      XorBitsInvolution(a / 2, m / 2, k - 1);
      assert XorBits(a, m, k) / 2 == XorBits(a / 2, m / 2, k - 1);
    }
  }

  lemma XorInvolution(a: byte, m: byte)
    ensures Xor(Xor(a, m), m) == a
  {
    assert Pow2(4) == 16;
    XorBitsInvolution(a, m, 8);
  }

  // Masking and unmasking are the same operation (section 5.3 of RFC 6455).
  function Masked(data: Bytes, mask: Mask): (r: Bytes)
    ensures |r| == |data|
  {
    seq(|data|, i requires 0 <= i < |data| => Xor(data[i], mask[i % 4]))
  }

  lemma MaskedTwice(data: Bytes, mask: Mask)
    ensures Masked(Masked(data, mask), mask) == data
  {
    forall i | 0 <= i < |data| ensures Masked(Masked(data, mask), mask)[i] == data[i] {
      XorInvolution(data[i], mask[i % 4]);
    }
  }

  // ---- Parsing one client frame ----

  datatype Parse =
    | Need                                    // incomplete
    | Bad                                     // protocol violation, close code 1002
    | Got(opcode: Opcode, payload: Bytes, used: nat)

  // The end of the length field and the length it announces.
  datatype Header = Short | Illegal | Header(off: nat, len: nat)

  function ParseHeader(buf: Bytes): (h: Header)
    requires |buf| >= 2
    ensures h.Header? ==> 2 <= h.off <= |buf|
  {
    var len7 := buf[1] % 128;
    if len7 == 126 then
      if |buf| < 4 then Short else Header(4, FromBigEndian(buf[2..4]))
    else if len7 == 127 then
      if |buf| < 10 then Short
      else if buf[2] >= 128 then Illegal
      else Header(10, FromBigEndian(buf[2..10]))
    else Header(2, len7)
  }

  function ParseFrame(buf: Bytes): (r: Parse)
    ensures r.Got? ==> 0 < r.used <= |buf|
  {
    if |buf| < 2 then Need
    else if (buf[0] / 16) % 8 != 0 then Bad
    else if buf[1] < 128 then Bad
    else
      var opcode := buf[0] % 16;
      var fin := buf[0] >= 128;
      match ParseHeader(buf)
      case Short => Need
      case Illegal => Bad
      case Header(off, len) =>
        if opcode >= 8 && (!fin || len > 125) then Bad
        else if |buf| < off + 4 + len then Need
        else Got(opcode, Masked(buf[off + 4..off + 4 + len], buf[off..off + 4]), off + 4 + len)
  }

  // Any verdict other than "need more" is final: later bytes cannot change it.
  lemma VerdictStable(buf: Bytes, more: Bytes)
    requires !ParseFrame(buf).Need?
    ensures ParseFrame(buf + more) == ParseFrame(buf)
  {
    HeaderStable(buf, more);
    hide ParseHeader, Masked;
    var both := buf + more;
    assert both[0] == buf[0] && both[1] == buf[1];
    var h := ParseHeader(buf);
    if h.Header? && |buf| >= h.off + 4 + h.len {
      SliceStable(buf, more, h.off, h.off + 4);
      SliceStable(buf, more, h.off + 4, h.off + 4 + h.len);
    }
  }

  lemma SliceStable(buf: Bytes, more: Bytes, i: nat, j: nat)
    requires i <= j <= |buf|
    ensures (buf + more)[i..j] == buf[i..j]
  {
  }

  lemma HeaderStable(buf: Bytes, more: Bytes)
    requires |buf| >= 2
    ensures !ParseHeader(buf).Short? ==> ParseHeader(buf + more) == ParseHeader(buf)
  {
    hide FromBigEndian;
    var both := buf + more;
    assert both[1] == buf[1];
    if |buf| >= 4 {
      assert both[2..4] == buf[2..4];
    }
    if |buf| >= 10 {
      assert both[2] == buf[2] && both[2..10] == buf[2..10];
    }
  }

  // ---- The session ----

  datatype Verdict = Open | Ended | Violated

  datatype OutFrame = OutFrame(opcode: Opcode, payload: Bytes)

  // Payload bytes delivered so far, frames queued for the peer so far.
  datatype Ws = Ws(ready: Bytes, queued: seq<OutFrame>, closeSent: bool, verdict: Verdict)

  const FRESH := Ws([], [], false, Open)

  function QueueClose(ws: Ws, code: nat): Ws
    requires code < 0x1_0000
  {
    if ws.closeSent then ws
    else ws.(closeSent := true, queued := ws.queued + [OutFrame(OP_CLOSE, BigEndian(code, 2))])
  }

  function CloseCode(payload: Bytes): (code: nat)
    ensures code < 0x1_0000
  {
    if |payload| >= 2 then Shifted4(0, 0, payload[0], payload[1]) else 1000
  }

  // What one whole client frame does.
  function Handle(ws: Ws, opcode: Opcode, payload: Bytes): Ws {
    if opcode == OP_BIN || opcode == OP_CONT then ws.(ready := ws.ready + payload)
    else if opcode == OP_PING then ws.(queued := ws.queued + [OutFrame(OP_PONG, payload)])
    else if opcode == OP_PONG then ws
    else if opcode == OP_TEXT then QueueClose(ws, 1003).(verdict := Violated)
    else if opcode == OP_CLOSE then QueueClose(ws, CloseCode(payload)).(verdict := Ended)
    else QueueClose(ws, 1002).(verdict := Violated)
  }

  datatype Progress = Progress(ws: Ws, rest: Bytes)

  // Handles whole frames until one is incomplete or the session is over.
  function Consume(ws: Ws, buf: Bytes): Progress
    decreases |buf|
  {
    if ws.verdict != Open then Progress(ws, buf) else
    match ParseFrame(buf)
    case Need => Progress(ws, buf)
    case Bad => Progress(QueueClose(ws, 1002).(verdict := Violated), buf)
    case Got(opcode, payload, used) => Consume(Handle(ws, opcode, payload), buf[used..])
  }

  // One round of Consume.
  lemma ConsumeStep(ws: Ws, buf: Bytes)
    requires ws.verdict == Open
    ensures var p := ParseFrame(buf);
      && (p.Need? ==> Consume(ws, buf) == Progress(ws, buf))
      && (p.Bad? ==> Consume(ws, buf) == Consume(QueueClose(ws, 1002).(verdict := Violated), buf))
      && (p.Got? ==> Consume(ws, buf) == Consume(Handle(ws, p.opcode, p.payload), buf[p.used..]))
  {
  }

  lemma ConsumeOver(ws: Ws, buf: Bytes)
    requires ws.verdict != Open
    ensures Consume(ws, buf) == Progress(ws, buf)
  {
  }

  // Cutting the stream anywhere changes nothing.
  lemma {:induction false} ConsumeChunked(ws: Ws, a: Bytes, b: Bytes)
    ensures var first := Consume(ws, a); Consume(ws, a + b) == Consume(first.ws, first.rest + b)
    decreases |a|
  {
    if ws.verdict == Open && !ParseFrame(a).Need? {
      VerdictStable(a, b);
      match ParseFrame(a)
      case Bad =>
      case Got(opcode, payload, used) =>
        assert (a + b)[used..] == a[used..] + b;
        ConsumeChunked(Handle(ws, opcode, payload), a[used..], b);
    }
  }

  // What a session delivered and queued before does not influence what comes next.
  lemma {:induction false} ConsumeShift(ready: Bytes, queued: seq<OutFrame>, ws: Ws, buf: Bytes)
    ensures var before, after := Consume(ws, buf),
      Consume(ws.(ready := ready + ws.ready, queued := queued + ws.queued), buf);
            after == Progress(before.ws.(ready := ready + before.ws.ready, queued := queued + before.ws.queued),
              before.rest)
    decreases |buf|
  {
    hide ParseFrame, CloseCode, BigEndian;
    if ws.verdict == Open {
      match ParseFrame(buf)
      case Need =>
      case Bad => Associate(queued, ws.queued, [OutFrame(OP_CLOSE, BigEndian(1002, 2))]);
      case Got(opcode, payload, used) =>
        HandleShift(ready, queued, ws, opcode, payload);
        ConsumeShift(ready, queued, Handle(ws, opcode, payload), buf[used..]);
    }
  }

  lemma HandleShift(ready: Bytes, queued: seq<OutFrame>, ws: Ws, opcode: Opcode, payload: Bytes)
    ensures var after := Handle(ws, opcode, payload);
            Handle(ws.(ready := ready + ws.ready, queued := queued + ws.queued), opcode, payload) ==
            after.(ready := ready + after.ready, queued := queued + after.queued)
  {
    hide CloseCode, BigEndian;
    var shifted := Handle(ws.(ready := ready + ws.ready, queued := queued + ws.queued), opcode, payload);
    var after := Handle(ws, opcode, payload);
    if after.ready != ws.ready {
      Associate(ready, ws.ready, payload);
    } else {
      assert ws.ready + payload == ws.ready || shifted.ready == ready + ws.ready;
      Associate(ready, ws.ready, payload);
    }
    if after.queued != ws.queued {
      Associate(queued, ws.queued, [after.queued[|ws.queued|]]);
    }
  }

  // One call per chunk, the incomplete tail carried from call to call.
  function FeedAll(p: Progress, chunks: seq<Bytes>): Progress
    decreases |chunks|
  {
    if chunks == [] then p else FeedAll(Consume(p.ws, p.rest + chunks[0]), chunks[1..])
  }

  lemma ConsumeIdempotent(ws: Ws, buf: Bytes)
    ensures var p := Consume(ws, buf); Consume(p.ws, p.rest) == p
  {
    ConsumeChunked(ws, buf, []);
    assert buf + [] == buf;
    assert Consume(ws, buf).rest + [] == Consume(ws, buf).rest;
  }

  // Any way of splitting the stream into calls gives the delivered bytes, the queued
  // control frames, the close and the final verdict of a single call.
  lemma {:induction false} ChunkIndependence(p: Progress, chunks: seq<Bytes>)
    requires Consume(p.ws, p.rest) == p
    ensures FeedAll(p, chunks) == Consume(p.ws, p.rest + Concat(chunks))
    decreases |chunks|
  {
    if chunks == [] {
      assert p.rest + [] == p.rest;
    } else {
      var first := Consume(p.ws, p.rest + chunks[0]);
      ConsumeIdempotent(p.ws, p.rest + chunks[0]);
      ChunkIndependence(first, chunks[1..]);
      ConsumeChunked(p.ws, p.rest + chunks[0], Concat(chunks[1..]));
      Associate(p.rest, chunks[0], Concat(chunks[1..]));
    }
  }

  // At most one close frame is ever queued, and only a session that queued one is over.
  function Closes(frames: seq<OutFrame>): nat {
    if frames == [] then 0
    else (if frames[|frames| - 1].opcode == OP_CLOSE then 1 else 0) + Closes(frames[..|frames| - 1])
  }

  ghost predicate CloseOnce(ws: Ws) {
    && Closes(ws.queued) == (if ws.closeSent then 1 else 0)
    && (ws.verdict != Open ==> ws.closeSent)
  }

  lemma ClosesSnoc(frames: seq<OutFrame>, f: OutFrame)
    ensures Closes(frames + [f]) == Closes(frames) + (if f.opcode == OP_CLOSE then 1 else 0)
  {
    assert (frames + [f])[..|frames|] == frames;
  }

  lemma CloseOnceHandle(ws: Ws, opcode: Opcode, payload: Bytes)
    requires CloseOnce(ws)
    ensures CloseOnce(Handle(ws, opcode, payload))
  {
    var after := Handle(ws, opcode, payload);
    if |after.queued| > |ws.queued| {
      ClosesSnoc(ws.queued, after.queued[|ws.queued|]);
    }
  }

  lemma {:induction false} CloseOnceKept(ws: Ws, buf: Bytes)
    requires CloseOnce(ws)
    ensures CloseOnce(Consume(ws, buf).ws)
    ensures ws.verdict != Open ==> Consume(ws, buf).ws == ws
    decreases |buf|
  {
    if ws.verdict == Open {
      match ParseFrame(buf)
      case Need =>
      case Bad => ClosesSnoc(ws.queued, OutFrame(OP_CLOSE, BigEndian(1002, 2)));
      case Got(opcode, payload, used) =>
        CloseOnceHandle(ws, opcode, payload);
        CloseOnceKept(Handle(ws, opcode, payload), buf[used..]);
    }
  }

  // ---- What a conforming client sends ----

  // A 64-bit length must leave its top bit zero.
  const MAX_LENGTH := 0x8000_0000_0000_0000

  // The three encodings of a payload length; a client may use any that fits.
  datatype Form = Bits7 | Bits16 | Bits64

  predicate FormFits(form: Form, len: nat) {
    match form
    case Bits7 => len < 126
    case Bits16 => len < 0x1_0000
    case Bits64 => len < MAX_LENGTH
  }

  function LengthField(form: Form, len: nat): (s: Bytes)
    requires FormFits(form, len)
    ensures |s| >= 1 && s[0] < 128
  {
    match form
    case Bits7 => [len]
    case Bits16 => [126] + BigEndian(len, 2)
    case Bits64 => [127] + BigEndian(len, 8)
  }

  lemma Top64(n: nat)
    requires n < MAX_LENGTH
    ensures BigEndian(n, 8)[0] < 128
  {
    var s := BigEndian(n, 8);
    BigEndianRoundTrip(n, 8);
    Ranges();
    hide BigEndian, FromBigEndian, Range;
    TopByte(s, 8);
  }

  lemma {:induction false} TopByte(s: Bytes, w: nat)
    requires w == |s| >= 1
    ensures FromBigEndian(s) >= s[0] * Range(w - 1)
  {
    if w == 1 {
      assert FromBigEndian(s) == 256 * FromBigEndian(s[..0]) + s[0];
    } else {
      TopByte(s[..w - 1], w - 1);
      assert s[..w - 1][0] == s[0];
      Scale(s[0], Range(w - 2));
    }
  }

  lemma Scale(a: nat, r: nat)
    ensures 256 * (a * r) == a * (256 * r)
  {
  }

  lemma HeaderOfField(fin: bool, opcode: Opcode, form: Form, len: nat, tail: Bytes)
    requires FormFits(form, len)
    ensures ParseHeader(FirstBytes(fin, opcode, form, len) + tail) == Header(1 + |LengthField(form, len)|, len)
  {
    Ranges();
    hide BigEndian, FromBigEndian, Range;
    var buf := FirstBytes(fin, opcode, form, len) + tail;
    match form
    case Bits7 =>
    case Bits16 =>
      BigEndianRoundTrip(len, 2);
      assert buf[2..4] == BigEndian(len, 2);
    case Bits64 =>
      BigEndianRoundTrip(len, 8);
      Top64(len);
      assert buf[2..10] == BigEndian(len, 8);
      assert buf[2] == BigEndian(len, 8)[0];
  }

  lemma Slices(head: Bytes, mask: Mask, body: Bytes, rest: Bytes)
    ensures
      var buf := head + (mask + body + rest);
      var off := |head|;
      && buf[off..off + 4] == mask
      && buf[off + 4..off + 4 + |body|] == body
      && buf[off + 4 + |body|..] == rest
  {
  }

  function FirstBytes(fin: bool, opcode: Opcode, form: Form, len: nat): (head: Bytes)
    requires FormFits(form, len)
    ensures |head| == 1 + |LengthField(form, len)|
  {
    var field := LengthField(form, len);
    [(if fin then 128 else 0) + opcode] + [128 + field[0]] + field[1..]
  }

  // A frame from the client: masked, reserved bits zero.
  function ClientFrame(fin: bool, opcode: Opcode, form: Form, mask: Mask, payload: Bytes): Bytes
    requires FormFits(form, |payload|)
  {
    FirstBytes(fin, opcode, form, |payload|) + (mask + Masked(payload, mask))
  }

  lemma FirstTwo(fin: bool, opcode: Opcode, form: Form, len: nat, tail: Bytes)
    requires FormFits(form, len)
    ensures var buf := FirstBytes(fin, opcode, form, len) + tail;
      && (buf[0] / 16) % 8 == 0 && buf[0] % 16 == opcode && (buf[0] >= 128 <==> fin) && buf[1] >= 128
  {
    assert (FirstBytes(fin, opcode, form, len) + tail)[0] == (if fin then 128 else 0) + opcode;
  }

  lemma ClientFrameParses(fin: bool, opcode: Opcode, form: Form, mask: Mask, payload: Bytes, rest: Bytes)
    requires FormFits(form, |payload|)
    requires opcode >= 8 ==> fin && |payload| <= 125
    ensures
      var frame := ClientFrame(fin, opcode, form, mask, payload);
      ParseFrame(frame + rest) == Got(opcode, payload, |frame|)
      && (frame + rest)[|frame|..] == rest
  {
    hide FirstBytes, LengthField, ParseHeader, Masked, FormFits;
    var head := FirstBytes(fin, opcode, form, |payload|);
    var body := Masked(payload, mask);
    var tail := mask + body + rest;
    Associate(head, mask + body, rest);
    assert ClientFrame(fin, opcode, form, mask, payload) + rest == head + tail;
    FirstTwo(fin, opcode, form, |payload|, tail);
    HeaderOfField(fin, opcode, form, |payload|, tail);
    Slices(head, mask, body, rest);
    MaskedTwice(payload, mask);
  }

  // Fragments of binary messages interleaved with pings and pongs.
  datatype Item =
    | Fragment(fin: bool, continuation: bool, form: Form, mask: Mask, payload: Bytes)
    | Ping(form: Form, mask: Mask, payload: Bytes)
    | Pong(form: Form, mask: Mask, payload: Bytes)

  predicate WellFormed(i: Item) {
    FormFits(i.form, |i.payload|) && (!i.Fragment? ==> |i.payload| <= 125)
  }

  function ItemBytes(i: Item): Bytes
    requires WellFormed(i)
  {
    match i
    case Fragment(fin, continuation, form, mask, payload) =>
      ClientFrame(fin, if continuation then OP_CONT else OP_BIN, form, mask, payload)
    case Ping(form, mask, payload) => ClientFrame(true, OP_PING, form, mask, payload)
    case Pong(form, mask, payload) => ClientFrame(true, OP_PONG, form, mask, payload)
  }

  function ItemsBytes(items: seq<Item>): Bytes
    requires forall i <- items :: WellFormed(i)
  {
    if items == [] then [] else ItemBytes(items[0]) + ItemsBytes(items[1..])
  }

  // The application bytes a client put into its fragments.
  function Carried(items: seq<Item>): Bytes {
    if items == [] then [] else (if items[0].Fragment? then items[0].payload else []) + Carried(items[1..])
  }

  function PongsDue(items: seq<Item>): seq<OutFrame> {
    if items == [] then [] else
    (if items[0].Ping? then [OutFrame(OP_PONG, items[0].payload)] else []) + PongsDue(items[1..])
  }

  function OpcodeOf(i: Item): Opcode {
    if i.Ping? then OP_PING else if i.Pong? then OP_PONG else if i.continuation then OP_CONT else OP_BIN
  }

  function After(ws: Ws, items: seq<Item>): Ws {
    ws.(ready := ws.ready + Carried(items), queued := ws.queued + PongsDue(items))
  }

  lemma AfterStep(ws: Ws, items: seq<Item>)
    requires items != []
    ensures After(ws, items) == After(Handle(ws, OpcodeOf(items[0]), items[0].payload), items[1..])
  {
    var i := items[0];
    var here := if i.Fragment? then i.payload else [];
    var pong := if i.Ping? then [OutFrame(OP_PONG, i.payload)] else [];
    Associate(ws.ready, here, Carried(items[1..]));
    Associate(ws.queued, pong, PongsDue(items[1..]));
    var next := Handle(ws, OpcodeOf(i), i.payload);
    assert next.ready == ws.ready + here;
    assert next.queued == ws.queued + pong;
    assert next == ws.(ready := next.ready, queued := next.queued);
  }

  lemma {:induction false} ConsumeItems(ws: Ws, items: seq<Item>, rest: Bytes)
    requires ws.verdict == Open && forall i <- items :: WellFormed(i)
    ensures Consume(ws, ItemsBytes(items) + rest) == Consume(After(ws, items), rest)
    decreases |items|
  {
    if items == [] {
      assert ItemsBytes(items) + rest == rest;
      assert After(ws, items) == ws;
    } else {
      var i := items[0];
      assert WellFormed(i);
      var tail := ItemsBytes(items[1..]) + rest;
      ClientFrameParses(if i.Fragment? then i.fin else true, OpcodeOf(i), i.form, i.mask, i.payload, tail);
      Associate(ItemBytes(i), ItemsBytes(items[1..]), rest);
      AfterStep(ws, items);
      ConsumeItems(Handle(ws, OpcodeOf(i), i.payload), items[1..], rest);
    }
  }

  // A close frame from the client is echoed with its own code, unless a close was
  // already sent, and nothing behind it is ever looked at.
  lemma ClosingHandshake(ws: Ws, items: seq<Item>, form: Form, mask: Mask, payload: Bytes, rest: Bytes)
    requires ws.verdict == Open && forall i <- items :: WellFormed(i)
    requires FormFits(form, |payload|) && |payload| <= 125
    ensures Consume(ws, ItemsBytes(items) + (ClientFrame(true, OP_CLOSE, form, mask, payload) + rest)) ==
            Progress(QueueClose(After(ws, items), CloseCode(payload)).(verdict := Ended), rest)
  {
    ConsumeItems(ws, items, ClientFrame(true, OP_CLOSE, form, mask, payload) + rest);
    ClientFrameParses(true, OP_CLOSE, form, mask, payload, rest);
  }

  // Text is refused with code 1003, an unknown opcode and an unmasked frame with 1002.
  lemma Refusals(ws: Ws, fin: bool, opcode: Opcode, form: Form, mask: Mask, payload: Bytes, rest: Bytes)
    requires ws.verdict == Open && FormFits(form, |payload|)
    requires opcode == OP_TEXT || 3 <= opcode <= 7 || (opcode >= 11 && fin && |payload| <= 125)
    ensures Consume(ws, ClientFrame(fin, opcode, form, mask, payload) + rest) ==
            Progress(QueueClose(ws, if opcode == OP_TEXT then 1003 else 1002).(verdict := Violated), rest)
    ensures Consume(ws, ServerFrame(opcode, payload) + rest).ws == QueueClose(ws, 1002).(verdict := Violated)
  {
    hide Consume, ClientFrame, ParseFrame, ServerFrame;
    RefusedMasked(ws, fin, opcode, form, mask, payload, rest);
    Unmasked(opcode, payload, rest);
    ConsumeStep(ws, ServerFrame(opcode, payload) + rest);
    ConsumeOver(QueueClose(ws, 1002).(verdict := Violated), ServerFrame(opcode, payload) + rest);
  }

  lemma RefusedMasked(ws: Ws, fin: bool, opcode: Opcode, form: Form, mask: Mask, payload: Bytes, rest: Bytes)
    requires ws.verdict == Open && FormFits(form, |payload|)
    requires opcode == OP_TEXT || 3 <= opcode <= 7 || (opcode >= 11 && fin && |payload| <= 125)
    ensures Consume(ws, ClientFrame(fin, opcode, form, mask, payload) + rest) ==
            Progress(QueueClose(ws, if opcode == OP_TEXT then 1003 else 1002).(verdict := Violated), rest)
  {
    hide Consume, ClientFrame, ParseFrame;
    var buf := ClientFrame(fin, opcode, form, mask, payload) + rest;
    ClientFrameParses(fin, opcode, form, mask, payload, rest);
    ConsumeStep(ws, buf);
    ConsumeOver(Handle(ws, opcode, payload), rest);
  }

  lemma Unmasked(opcode: Opcode, payload: Bytes, rest: Bytes)
    ensures ParseFrame(ServerFrame(opcode, payload) + rest).Bad?
  {
    var buf := ServerFrame(opcode, payload) + rest;
    assert buf[0] == 128 + opcode && buf[1] < 128;
  }

  lemma NothingYet(ws: Ws)
    ensures Consume(ws, []) == Progress(ws, [])
  {
  }

  // Transparency: for any envelopes, however their stream is cut into fragments,
  // masked, interleaved with pings and pongs and then cut again into reads, the
  // frame decoder sees exactly the envelopes, and the pongs answer the pings in order.
  lemma Transparency(es: seq<Envelope>, items: seq<Item>, chunks: seq<Bytes>)
    requires forall e <- es :: Sendable(e)
    requires forall i <- items :: WellFormed(i)
    requires Carried(items) == Stream(es)
    requires Concat(chunks) == ItemsBytes(items)
    ensures
      var p := FeedAll(Progress(FRESH, []), chunks);
      && DecodeAll(Frames(p.ws.ready)) == AllSome(es) && Leftover(p.ws.ready) == []
      && p.ws.queued == PongsDue(items)
      && p.ws.verdict == Open && !p.ws.closeSent && p.rest == []
  {
    NothingYet(FRESH);
    hide Consume, FeedAll, Carried, PongsDue, ItemsBytes, Stream, Frames, Leftover, DecodeAll, AllSome, Concat;
    ChunkIndependence(Progress(FRESH, []), chunks);
    assert [] + Concat(chunks) == ItemsBytes(items) + [];
    ConsumeItems(FRESH, items, []);
    var last := After(FRESH, items);
    assert last.ready == Stream(es) && last.queued == PongsDue(items);
    NothingYet(last);
    StreamRoundTrip(es);
  }

  // ---- What the server sends ----

  // One unmasked frame, FIN set.
  function ServerFrame(opcode: Opcode, payload: Bytes): (f: Bytes)
    ensures |f| >= 2
  {
    var n := |payload|;
    [128 + opcode] +
    (if n < 126 then [n] else if n < 0x1_0000 then [126] + BigEndian(n, 2) else [127] + BigEndian(n, 8)) +
    payload
  }

  datatype ServerParse = Unreadable | Server(frame: OutFrame, rest: Bytes)

  // A client's reader of server frames: unmasked, final, minimal or not.
  function ParseServer(buf: Bytes): ServerParse {
    if |buf| < 2 || buf[0] / 16 != 8 || buf[1] >= 128 then Unreadable else
    match ParseHeader(buf)
    case Short => Unreadable
    case Illegal => Unreadable
    case Header(off, len) =>
      if |buf| < off + len then Unreadable
      else Server(OutFrame(buf[0] % 16, buf[off..off + len]), buf[off + len..])
  }

  // A client reads back what was framed exactly when the payload is shorter than 2^63.
  lemma ServerFrameReadable(opcode: Opcode, payload: Bytes, rest: Bytes)
    ensures ParseServer(ServerFrame(opcode, payload) + rest) == Server(OutFrame(opcode, payload), rest)
            <==> |payload| < MAX_LENGTH
  {
    var n := |payload|;
    var buf := ServerFrame(opcode, payload) + rest;
    Ranges();
    hide BigEndian, FromBigEndian, Range;
    if n < 126 {
      assert ParseHeader(buf) == Header(2, n);
      assert buf[2..2 + n] == payload && buf[2 + n..] == rest;
    } else if n < 0x1_0000 {
      BigEndianRoundTrip(n, 2);
      assert buf[2..4] == BigEndian(n, 2);
      assert ParseHeader(buf) == Header(4, n);
      assert buf[4..4 + n] == payload && buf[4 + n..] == rest;
    } else {
      BigEndianRoundTrip(n, 8);
      assert buf[2..10] == BigEndian(n, 8);
      assert buf[2] == BigEndian(n, 8)[0];
      if n < MAX_LENGTH {
        Top64(n);
        assert ParseHeader(buf) == Header(10, n);
        assert buf[10..10 + n] == payload && buf[10 + n..] == rest;
      } else if n < Range(8) {
        HighByte(n);
      }
    }
  }

  lemma Ranges()
    ensures Range(2) == 0x1_0000 && Range(7) == 0x100_0000_0000_0000 && Range(8) == 0x1_0000_0000_0000_0000
  {
    Range4();
    assert Range(6) == 0x1_0000_0000_0000;
  }

  lemma HighByte(n: nat)
    requires MAX_LENGTH <= n < Range(8)
    ensures BigEndian(n, 8)[0] >= 128
  {
    var s := BigEndian(n, 8);
    BigEndianRoundTrip(n, 8);
    Ranges();
    hide BigEndian, FromBigEndian, Range;
    TopByteUpper(s, 8);
  }

  lemma {:induction false} TopByteUpper(s: Bytes, w: nat)
    requires w == |s| >= 1
    ensures FromBigEndian(s) < (s[0] as int + 1) * Range(w - 1)
  {
    if w == 1 {
      assert FromBigEndian(s) == 256 * FromBigEndian(s[..0]) + s[0];
    } else {
      TopByteUpper(s[..w - 1], w - 1);
      assert s[..w - 1][0] == s[0];
      Scale(s[0] as int + 1, Range(w - 2));
    }
  }

  function WireFrames(frames: seq<OutFrame>): Bytes {
    if frames == [] then [] else ServerFrame(frames[0].opcode, frames[0].payload) + WireFrames(frames[1..])
  }

  lemma {:induction false} WireFramesAppend(a: seq<OutFrame>, b: seq<OutFrame>)
    ensures WireFrames(a + b) == WireFrames(a) + WireFrames(b)
  {
    hide ServerFrame;
    if a == [] {
      assert a + b == b;
    } else {
      WireFramesAppend(a[1..], b);
      assert (a + b)[1..] == a[1..] + b;
      Associate(ServerFrame(a[0].opcode, a[0].payload), WireFrames(a[1..]), WireFrames(b));
    }
  }

  // A client reading server frames one after the other.
  function ParseServerAll(buf: Bytes): seq<OutFrame>
    decreases |buf|
  {
    match ParseServer(buf)
    case Unreadable => []
    case Server(frame, rest) => [frame] + ParseServerAll(rest)
  }

  lemma {:induction false} WireFramesReadable(frames: seq<OutFrame>)
    requires forall f <- frames :: |f.payload| < MAX_LENGTH
    ensures ParseServerAll(WireFrames(frames)) == frames
    decreases |frames|
  {
    if frames != [] {
      assert frames[0] in frames;
      ServerFrameReadable(frames[0].opcode, frames[0].payload, WireFrames(frames[1..]));
      WireFramesReadable(frames[1..]);
    }
  }
}
