// The wire format: typed envelopes and the length-prefixed frames that carry them.
module Protocol {
  import opened Bytes

  const T_HELLO: byte := 1
  const T_HEARTBEAT: byte := 2
  const T_DATA: byte := 3
  const T_DATA_REQ: byte := 4
  const T_ACK: byte := 5

  type Identity = s: Bytes | |s| == 16 witness seq(16, _ => 0)
  type Salt = s: Bytes | |s| == 8 witness seq(8, _ => 0)

  // A message id is a sender's startup salt and that sender's counter.
  datatype MsgId = MsgId(salt: Salt, counter: nat)

  datatype Envelope =
    | Hello(version: byte, identity: Identity)
    | Heartbeat
    | Data(payload: Bytes)
    | DataReq(id: MsgId, payload: Bytes)
    | Ack(id: MsgId)

  function MsgIdBytes(id: MsgId): (s: Bytes)
    ensures |s| == 16
  {
    id.salt + BigEndian(id.counter, 8)
  }

  function MsgIdFromBytes(s: Bytes): (id: MsgId)
    requires |s| == 16
    ensures id.counter < Range(8)
  {
    MsgId(s[..8], FromBigEndian(s[8..]))
  }

  // The counter of an id occupies eight bytes; only smaller counters survive the wire.
  predicate Fits(e: Envelope) {
    (e.DataReq? || e.Ack?) ==> e.id.counter < Range(8)
  }

  // The envelope bytes: a type byte and the body.
  function Body(e: Envelope): (b: Bytes)
    ensures |b| >= 1
  {
    match e
    case Hello(version, identity) => [T_HELLO, version] + identity
    case Heartbeat => [T_HEARTBEAT]
    case Data(payload) => [T_DATA] + payload
    case DataReq(id, payload) => [T_DATA_REQ] + MsgIdBytes(id) + payload
    case Ack(id) => [T_ACK] + MsgIdBytes(id)
  }

  function Decode(frame: Bytes): (r: Option<Envelope>) {
    if frame == [] then None else
    var body := frame[1..];
    if frame[0] == T_HELLO then
      if |body| < 17 then None else Some(Hello(body[0], body[1..17]))
    else if frame[0] == T_HEARTBEAT then Some(Heartbeat)
    else if frame[0] == T_DATA then Some(Data(body))
    else if frame[0] == T_DATA_REQ then
      if |body| < 16 then None else Some(DataReq(MsgIdFromBytes(body[..16]), body[16..]))
    else if frame[0] == T_ACK then
      if |body| < 16 then None else Some(Ack(MsgIdFromBytes(body[..16])))
    else None
  }

  // A frame on the wire: a four-byte length, truncated to 32 bits, and the envelope.
  function Prefixed(frame: Bytes): (b: Bytes)
    ensures |b| == 4 + |frame|
  {
    BigEndian(|frame|, 4) + frame
  }

  function Encode(e: Envelope): (b: Bytes) {
    Prefixed(Body(e))
  }

  lemma MsgIdRoundTrip(id: MsgId)
    ensures MsgIdFromBytes(MsgIdBytes(id)) == id <==> id.counter < Range(8)
  {
    BigEndianRoundTrip(id.counter, 8);
    var s := MsgIdBytes(id);
    assert s[..8] == id.salt && s[8..] == BigEndian(id.counter, 8);
  }

  lemma MsgIdBytesOf(s: Bytes)
    requires |s| == 16
    ensures MsgIdBytes(MsgIdFromBytes(s)) == s
  {
    FromBigEndianInjective(s[8..]);
    assert s == s[..8] + s[8..];
  }

  lemma Drop1(t: byte, s: Bytes)
    ensures ([t] + s)[1..] == s
  {
  }

  lemma TakeDrop16(s: Bytes, t: Bytes)
    requires |s| == 16
    ensures (s + t)[..16] == s && (s + t)[16..] == t
  {
  }

  lemma HelloFields(version: byte, identity: Identity)
    ensures var body := ([T_HELLO, version] + identity)[1..];
            |body| == 17 && body[0] == version && body[1..17] == identity
  {
    var body := ([T_HELLO, version] + identity)[1..];
    assert body == [version] + identity;
    Drop1(version, identity);
    assert body[1..17] == body[1..];
  }

  // Every envelope whose id fits decodes to itself; an id that does not fit does not.
  lemma DecodeBody(e: Envelope)
    ensures Decode(Body(e)) == Some(e) <==> Fits(e)
  {
    hide BigEndian, FromBigEndian, MsgIdFromBytes, MsgIdBytes, Range;
    match e
    case Hello(version, identity) =>
      HelloFields(version, identity);
    case Heartbeat =>
    case Data(payload) =>
      Drop1(T_DATA, payload);
    case DataReq(id, payload) =>
      MsgIdRoundTrip(id);
      Associate([T_DATA_REQ], MsgIdBytes(id), payload);
      Drop1(T_DATA_REQ, MsgIdBytes(id) + payload);
      TakeDrop16(MsgIdBytes(id), payload);
    case Ack(id) =>
      MsgIdRoundTrip(id);
      Drop1(T_ACK, MsgIdBytes(id));
      TakeDrop16(MsgIdBytes(id), []);
      assert MsgIdBytes(id) + [] == MsgIdBytes(id);
  }

  lemma DecodeIgnoresTrailing(short: Bytes, frame: Bytes)
    requires short <= frame && Decode(short).Some?
    requires HasPayload(Decode(short).value) ==> short == frame
    ensures Decode(frame) == Decode(short)
  {
    var e := Decode(short).value;
    if e.Hello? {
      assert short[1..][1..17] == frame[1..][1..17];
    } else if e.Ack? {
      assert short[1..][..16] == frame[1..][..16];
    }
  }

  predicate HasPayload(e: Envelope) {
    e.Data? || e.DataReq?
  }

  lemma DecodedRequest(frame: Bytes, e: Envelope)
    requires Decode(frame) == Some(e) && e.DataReq?
    ensures Fits(e) && frame == Body(e)
  {
    hide BigEndian, FromBigEndian, Range;
    var body := frame[1..];
    MsgIdBytesOf(body[..16]);
    assert frame == [T_DATA_REQ] + (body[..16] + body[16..]);
    Associate([T_DATA_REQ], body[..16], body[16..]);
  }

  lemma DecodedAck(frame: Bytes, e: Envelope)
    requires Decode(frame) == Some(e) && e.Ack?
    ensures Fits(e) && Body(e) <= frame
  {
    hide BigEndian, FromBigEndian, Range;
    var body := frame[1..];
    MsgIdBytesOf(body[..16]);
    assert frame[..17] == [T_ACK] + body[..16];
  }

  lemma DecodedStartsWithBody(frame: Bytes, e: Envelope)
    requires Decode(frame) == Some(e)
    ensures Fits(e) && Body(e) <= frame && (HasPayload(e) ==> frame == Body(e))
  {
    hide MsgIdBytes, MsgIdFromBytes, Range;
    match e
    case Hello(version, identity) =>
      assert frame[..18] == [T_HELLO, version] + identity;
    case Heartbeat =>
    case Data(payload) =>
    case DataReq(id, payload) => DecodedRequest(frame, e);
    case Ack(id) => DecodedAck(frame, e);
  }

  // The decoder accepts exactly the encodings, plus trailing bytes behind the
  // envelopes that carry no payload; nothing else decodes.
  lemma DecodeCharacterized(frame: Bytes, e: Envelope)
    ensures Decode(frame) == Some(e) <==>
      Fits(e) && Body(e) <= frame && (HasPayload(e) ==> frame == Body(e))
  {
    hide *;
    if Decode(frame) == Some(e) {
      DecodedStartsWithBody(frame, e);
    } else if Fits(e) && Body(e) <= frame && (HasPayload(e) ==> frame == Body(e)) {
      DecodeBody(e);
      DecodeIgnoresTrailing(Body(e), frame);
      assert false;
    }
  }

  // ---- Frame splitting ----

  datatype Split = Incomplete | Whole(frame: Bytes, rest: Bytes)

  function TakeFrame(buf: Bytes): (r: Split)
    ensures r.Whole? ==> |r.rest| < |buf|
  {
    if |buf| < 4 then Incomplete else
    var len := FromBigEndian(buf[..4]);
    if |buf| < 4 + len then Incomplete else Whole(buf[4..4 + len], buf[4 + len..])
  }

  // All complete frames at the front of `buf`, and what is left.
  function Frames(buf: Bytes): seq<Bytes>
    decreases |buf|
  {
    match TakeFrame(buf)
    case Incomplete => []
    case Whole(frame, rest) => [frame] + Frames(rest)
  }

  function Leftover(buf: Bytes): Bytes
    decreases |buf|
  {
    match TakeFrame(buf)
    case Incomplete => buf
    case Whole(_, rest) => Leftover(rest)
  }

  lemma FramesStep(buf: Bytes)
    ensures TakeFrame(buf).Incomplete? ==> Frames(buf) == [] && Leftover(buf) == buf
    ensures TakeFrame(buf).Whole? ==>
      Frames(buf) == [TakeFrame(buf).frame] + Frames(TakeFrame(buf).rest) &&
      Leftover(buf) == Leftover(TakeFrame(buf).rest)
  {
  }

  function WireOf(frames: seq<Bytes>): Bytes {
    if frames == [] then [] else Prefixed(frames[0]) + WireOf(frames[1..])
  }

  lemma WireOfCons(frame: Bytes, frames: seq<Bytes>)
    ensures WireOf([frame] + frames) == Prefixed(frame) + WireOf(frames)
  {
    assert ([frame] + frames)[1..] == frames;
  }

  // The length prefix is 32 bits wide: a frame survives exactly when it is shorter than 2^32.
  lemma TakeFramePrefixed(frame: Bytes, rest: Bytes)
    ensures TakeFrame(Prefixed(frame) + rest) == Whole(frame, rest) <==> |frame| < Range(4)
  {
    var buf := Prefixed(frame) + rest;
    BigEndianRoundTrip(|frame|, 4);
    assert buf[..4] == BigEndian(|frame|, 4);
    if |frame| < Range(4) {
      assert buf[4..4 + |frame|] == frame;
      assert buf[4 + |frame|..] == rest;
    }
  }

  // Whatever is taken off the front was on the wire: nothing is invented or lost.
  lemma TakeFrameFaithful(buf: Bytes)
    requires TakeFrame(buf).Whole?
    ensures buf == Prefixed(TakeFrame(buf).frame) + TakeFrame(buf).rest
    ensures |TakeFrame(buf).frame| < Range(4)
  {
    FromBigEndianInjective(buf[..4]);
    var len := FromBigEndian(buf[..4]);
    assert buf == buf[..4] + buf[4..4 + len] + buf[4 + len..];
  }

  lemma TakeFrameExtends(buf: Bytes, more: Bytes)
    requires TakeFrame(buf).Whole?
    ensures TakeFrame(buf + more) == Whole(TakeFrame(buf).frame, TakeFrame(buf).rest + more)
  {
    assert (buf + more)[..4] == buf[..4];
    var len := FromBigEndian(buf[..4]);
    assert (buf + more)[4..4 + len] == buf[4..4 + len];
    assert (buf + more)[4 + len..] == buf[4 + len..] + more;
  }

  // Reassembly does not depend on how the stream was cut into reads.
  lemma {:induction false} FramesChunked(a: Bytes, b: Bytes)
    ensures Frames(a + b) == Frames(a) + Frames(Leftover(a) + b)
    ensures Leftover(a + b) == Leftover(Leftover(a) + b)
    decreases |a|
  {
    match TakeFrame(a)
    case Incomplete =>
    case Whole(frame, rest) =>
      TakeFrameExtends(a, b);
      FramesChunked(rest, b);
  }

  // Frames and leftover together account for every byte of the stream.
  lemma {:induction false} FramesFaithful(buf: Bytes)
    ensures buf == WireOf(Frames(buf)) + Leftover(buf)
    ensures TakeFrame(Leftover(buf)).Incomplete?
    decreases |buf|
  {
    match TakeFrame(buf)
    case Incomplete =>
    case Whole(frame, rest) =>
      TakeFrameFaithful(buf);
      FramesFaithful(rest);
      WireOfCons(frame, Frames(rest));
      Associate(Prefixed(frame), WireOf(Frames(rest)), Leftover(rest));
  }

  lemma {:induction false} FramesOfWire(frames: seq<Bytes>)
    requires forall f <- frames :: |f| < Range(4)
    ensures Frames(WireOf(frames)) == frames && Leftover(WireOf(frames)) == []
    decreases |frames|
  {
    if frames != [] {
      TakeFramePrefixed(frames[0], WireOf(frames[1..]));
      FramesOfWire(frames[1..]);
    }
  }

  lemma {:induction false} WireOfAppend(a: seq<Bytes>, b: seq<Bytes>)
    ensures WireOf(a + b) == WireOf(a) + WireOf(b)
  {
    hide Prefixed;
    if a == [] {
      assert a + b == b;
    } else {
      WireOfAppend(a[1..], b);
      assert (a + b)[1..] == a[1..] + b;
      Associate(Prefixed(a[0]), WireOf(a[1..]), WireOf(b));
    }
  }

  // ---- Envelope streams ----

  // Envelopes a four-byte length and an eight-byte counter can carry.
  predicate Sendable(e: Envelope) {
    Fits(e) && |Body(e)| < Range(4)
  }

  function Stream(es: seq<Envelope>): Bytes {
    if es == [] then [] else Encode(es[0]) + Stream(es[1..])
  }

  function DecodeAll(frames: seq<Bytes>): seq<Option<Envelope>> {
    if frames == [] then [] else [Decode(frames[0])] + DecodeAll(frames[1..])
  }

  function AllSome(es: seq<Envelope>): seq<Option<Envelope>> {
    if es == [] then [] else [Some(es[0])] + AllSome(es[1..])
  }

  // A stream of sendable envelopes decodes to exactly those envelopes, in order.
  lemma {:induction false} StreamRoundTrip(es: seq<Envelope>)
    requires forall e <- es :: Sendable(e)
    ensures DecodeAll(Frames(Stream(es))) == AllSome(es) && Leftover(Stream(es)) == []
    decreases |es|
  {
    if es != [] {
      var rest := Stream(es[1..]);
      assert Sendable(es[0]);
      TakeFramePrefixed(Body(es[0]), rest);
      DecodeBody(es[0]);
      StreamRoundTrip(es[1..]);
      assert TakeFrame(Stream(es)) == Whole(Body(es[0]), rest);
      assert ([Body(es[0])] + Frames(rest))[1..] == Frames(rest);
    }
  }

  // ---- The bytes on the wire ----

  // n in eight bytes, most significant first.
  ghost predicate EightBytes(s: Bytes, n: nat) {
    |s| == 8 && forall i | 0 <= i < 8 :: s[i] == ShiftRight(n, 7 - i) % 256
  }

  // Every envelope byte by byte: the type, and behind it version and identity, nothing,
  // the payload, salt, counter and payload, or salt and counter.
  lemma BodyLayout(e: Envelope)
    ensures var b := Body(e);
      match e
      case Hello(version, identity) => |b| == 18 && b[0] == 1 && b[1] == version && b[2..] == identity
      case Heartbeat => b == [2]
      case Data(payload) => b[0] == 3 && b[1..] == payload
      case DataReq(id, payload) =>
        |b| >= 17 && b[0] == 4 && b[1..9] == id.salt && EightBytes(b[9..17], id.counter) && b[17..] == payload
      case Ack(id) => |b| == 17 && b[0] == 5 && b[1..9] == id.salt && EightBytes(b[9..17], id.counter)
  {
    hide BigEndian;
    if e.DataReq? || e.Ack? {
      CounterBytes(e.id.counter);
      assert Body(e)[9..17] == BigEndian(e.id.counter, 8);
    }
  }

  lemma CounterBytes(n: nat)
    ensures EightBytes(BigEndian(n, 8), n)
  {
    forall i | 0 <= i < 8 ensures BigEndian(n, 8)[i] == ShiftRight(n, 7 - i) % 256 {
      BigEndianAt(n, 8, i);
    }
    hide BigEndian, ShiftRight;
  }

  // The length goes first, in four bytes, most significant first.
  lemma FrameLayout(e: Envelope)
    ensures var f := Encode(e);
      |f| == 4 + |Body(e)| && f[4..] == Body(e) && forall i | 0 <= i < 4 :: f[i] == ShiftRight(|Body(e)|, 3 - i) % 256
  {
    forall i | 0 <= i < 4 ensures BigEndian(|Body(e)|, 4)[i] == ShiftRight(|Body(e)|, 3 - i) % 256 {
      BigEndianAt(|Body(e)|, 4, i);
    }
    hide BigEndian, ShiftRight, Body;
  }
}
