// The WebSocket frame layer told bit by bit and byte by byte, with the numbers of
// RFC 6455 written out.
module WebSocketBytes {
  import opened Bytes
  import opened WebSocket

  // Bit j of x, the lowest being bit 0.
  function Bit(x: nat, j: nat): (b: nat)
    ensures b < 2
  {
    if j == 0 then x % 2 else Bit(x / 2, j - 1)
  }

  lemma {:induction false} XorBit(a: nat, m: nat, k: nat, j: nat)
    requires j < k
    ensures Bit(XorBits(a, m, k), j) == 1 <==> Bit(a, j) != Bit(m, j)
    decreases k
  {
    var r := XorBits(a, m, k);
    assert r / 2 == XorBits(a / 2, m / 2, k - 1);
    if j > 0 {
      XorBit(a / 2, m / 2, k - 1, j - 1);
    }
  }

  // Two bytes with the same bits are the same byte, so the bits say which byte it is.
  lemma {:induction false} BitsTell(a: nat, b: nat, k: nat)
    requires a < Pow2(k) && b < Pow2(k) && forall j: nat | j < k :: Bit(a, j) == Bit(b, j)
    ensures a == b
    decreases k
  {
    if k > 0 {
      assert Bit(a, 0) == Bit(b, 0);
      forall j: nat | j < k - 1 ensures Bit(a / 2, j) == Bit(b / 2, j) {
        assert Bit(a, j + 1) == Bit(b, j + 1);
      }
      BitsTell(a / 2, b / 2, k - 1);
    }
  }

  // r is the exclusive or of a and m: a bit is set exactly where they differ.
  ghost predicate Differ(r: byte, a: byte, m: byte) {
    forall j: nat | j < 8 :: Bit(r, j) == 1 <==> Bit(a, j) != Bit(m, j)
  }

  lemma XorDiffers(a: byte, m: byte)
    ensures Differ(Xor(a, m), a, m)
  {
    forall j: nat | j < 8 ensures Bit(Xor(a, m), j) == 1 <==> Bit(a, j) != Bit(m, j) {
      XorBit(a, m, 8, j);
    }
  }

  // ---- The parser's verdict ----

  // The first two bytes and the whole length field are there.
  predicate HeaderThere(buf: Bytes) {
    |buf| >= 2 && (buf[1] % 128 == 126 ==> |buf| >= 4) && (buf[1] % 128 == 127 ==> |buf| >= 10)
  }

  function FieldEnd(buf: Bytes): (off: nat)
    requires HeaderThere(buf)
    ensures 2 <= off <= |buf|
  {
    if buf[1] % 128 == 126 then 4 else if buf[1] % 128 == 127 then 10 else 2
  }

  function Announced(buf: Bytes): nat
    requires HeaderThere(buf)
  {
    if buf[1] % 128 == 126 then 256 * (buf[2] as int) + buf[3]
    else if buf[1] % 128 == 127 then
      ((((((((buf[2] as int * 256 + buf[3]) * 256 + buf[4]) * 256 + buf[5]) * 256 + buf[6]) * 256 + buf[7]) * 256
       + buf[8]) * 256 + buf[9]))
    else buf[1] % 128
  }

  // What no client may send: a reserved bit, no mask, a 64-bit length with its top bit
  // set, and a control frame in parts or longer than 125 bytes.
  predicate Forbidden(buf: Bytes) {
    |buf| >= 2 &&
    ((buf[0] / 16) % 8 != 0 || buf[1] < 128
     || (HeaderThere(buf) &&
         ((buf[1] % 128 == 127 && buf[2] >= 128) || (buf[0] % 16 >= 8 && (buf[0] < 128 || Announced(buf) > 125)))))
  }

  // The whole frame is there: header, mask and as many bytes as announced.
  predicate FrameThere(buf: Bytes) {
    HeaderThere(buf) && |buf| >= FieldEnd(buf) + 4 + Announced(buf)
  }

  lemma {:induction false} FromBytes8(s: Bytes)
    requires |s| == 8
    ensures FromBigEndian(s) ==
      ((((((((s[0] as int * 256 + s[1]) * 256 + s[2]) * 256 + s[3]) * 256 + s[4]) * 256 + s[5]) * 256
       + s[6]) * 256 + s[7]))
  {
    FromBigEndian4(s[..4]);
    FromOne(s[..5]);
    FromOne(s[..6]);
    FromOne(s[..7]);
    FromOne(s);
    assert s[..5][..4] == s[..4] && s[..6][..5] == s[..5] && s[..7][..6] == s[..6];
    hide FromBigEndian;
  }

  lemma FromOne(s: Bytes)
    requires s != []
    ensures FromBigEndian(s) == 256 * FromBigEndian(s[..|s| - 1]) + s[|s| - 1]
  {
  }

  lemma HeaderIs(buf: Bytes)
    requires |buf| >= 2
    ensures ParseHeader(buf) ==
      if !HeaderThere(buf) then Short
      else if buf[1] % 128 == 127 && buf[2] >= 128 then Illegal
      else Header(FieldEnd(buf), Announced(buf))
  {
    if |buf| >= 4 {
      FromBigEndian2(buf[2..4]);
    }
    if |buf| >= 10 {
      FromBytes8(buf[2..10]);
    }
    hide FromBigEndian;
  }

  // For every input: which verdict, which opcode, how many bytes are used, and each byte
  // of the payload as the exclusive or of its byte on the wire and the mask byte whose
  // turn it is.
  lemma ParseExactly(buf: Bytes)
    ensures ParseFrame(buf).Bad? <==> Forbidden(buf)
    ensures ParseFrame(buf).Got? <==> !Forbidden(buf) && FrameThere(buf)
    ensures var p := ParseFrame(buf);
      p.Got? ==> var off := FieldEnd(buf);
        && p.opcode == buf[0] % 16 && |p.payload| == Announced(buf) && p.used == off + 4 + |p.payload|
        && forall i | 0 <= i < |p.payload| :: Differ(p.payload[i], buf[off + 4 + i], buf[off + i % 4])
  {
    hide ParseHeader, Announced, Xor, Differ, Pow2, Bit;
    if |buf| >= 2 {
      HeaderIs(buf);
    }
    var p := ParseFrame(buf);
    if p.Got? {
      var off := FieldEnd(buf);
      forall i | 0 <= i < |p.payload| ensures Differ(p.payload[i], buf[off + 4 + i], buf[off + i % 4]) {
        XorDiffers(buf[off + 4 + i], buf[off + i % 4]);
      }
    }
  }

  // What the server writes: final, unmasked, the shortest length field that fits, and the
  // payload as it is.
  lemma ServerFrameBytes(opcode: Opcode, payload: Bytes)
    requires |payload| < MAX_LENGTH
    ensures var f := ServerFrame(opcode, payload);
      && f[0] == 128 + opcode && f[1] < 128 && HeaderThere(f)
      && FieldEnd(f) == (if |payload| < 126 then 2 else if |payload| < 65536 then 4 else 10)
      && Announced(f) == |payload| && f[FieldEnd(f)..] == payload
  {
    var f, n := ServerFrame(opcode, payload), |payload|;
    Ranges();
    hide BigEndian, FromBigEndian, Range;
    if n < 126 {
      assert f[2..] == payload;
    } else if n < 65536 {
      assert f[2..4] == BigEndian(n, 2) && f[4..] == payload;
      BigEndianRoundTrip(n, 2);
      FromBigEndian2(f[2..4]);
    } else {
      assert f[2..10] == BigEndian(n, 8) && f[10..] == payload;
      BigEndianRoundTrip(n, 8);
      FromBytes8(f[2..10]);
    }
  }

  // ---- What a frame does, by its number ----

  lemma TwoBytes(hi: byte, lo: byte)
    ensures BigEndian(256 * (hi as int) + lo, 2) == [hi, lo]
  {
    DivModIs(256 * (hi as int) + lo, hi, lo, 256);
    DivModIs(hi, 0, hi, 256);
    assert BigEndian(hi, 1) == BigEndian(0, 0) + [hi];
  }

  // The bytes of the echoed close: the client's own code, or 1000 if it sent none.
  function Echo(payload: Bytes): Bytes {
    if |payload| >= 2 then payload[..2] else [3, 232]
  }

  // Continuation and binary frames carry payload, a ping is answered, a pong ignored, a
  // close echoed, text refused with 1003 and all else with 1002; one close at most.
  lemma HandleByNumber(ws: Ws, opcode: Opcode, payload: Bytes)
    ensures Handle(ws, opcode, payload) ==
      if opcode == 0 || opcode == 2 then ws.(ready := ws.ready + payload)
      else if opcode == 9 then ws.(queued := ws.queued + [OutFrame(10, payload)])
      else if opcode == 10 then ws
      else ws.(closeSent := true, verdict := if opcode == 8 then Ended else Violated,
               queued := ws.queued + (if ws.closeSent then [] else
                 [OutFrame(8, if opcode == 8 then Echo(payload) else if opcode == 1 then [3, 235] else [3, 234])]))
  {
    TwoBytes(3, 232);
    TwoBytes(3, 234);
    TwoBytes(3, 235);
    if |payload| >= 2 {
      TwoBytes(payload[0], payload[1]);
      assert CloseCode(payload) == 256 * (payload[0] as int) + payload[1];
      assert payload[..2] == [payload[0], payload[1]];
    }
    hide BigEndian;
    assert ws.queued + [] == ws.queued;
  }

  // A violation is answered with 1002.
  lemma BadRefused(ws: Ws, buf: Bytes)
    requires ws.verdict == Open && Forbidden(buf)
    ensures Consume(ws, buf) ==
      Progress(ws.(closeSent := true, verdict := Violated,
                   queued := ws.queued + (if ws.closeSent then [] else [OutFrame(8, [3, 234])])), buf)
  {
    ParseExactly(buf);
    TwoBytes(3, 234);
    assert ws.queued + [] == ws.queued;
    hide ParseFrame, Forbidden, BigEndian;
  }
}
