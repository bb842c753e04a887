// The C library's WebSocket adapter: growable byte buffers, frames built byte by
// byte, and a feed loop that unmasks payloads in place.
module CWebSocket {
  import opened Bytes
  import opened WebSocket
  import opened CDecoding

  class ByteBuffer {
    var data: array<byte>
    var len: nat

    ghost predicate Valid()
      reads this
    {
      len <= data.Length
    }

    ghost function Contents(): Bytes
      requires Valid()
      reads this, data
    {
      data[..len]
    }

    constructor ()
      ensures Valid() && Contents() == [] && fresh(data)
    {
      data := new byte[0];
      len := 0;
    }

    // Doubles the capacity from 256 until n more bytes fit.
    method Reserve(n: nat)
      requires Valid()
      modifies this`data
      ensures Valid() && (data == old(data) || fresh(data))
      ensures Contents() == old(Contents()) && len + n <= data.Length
    {
      ghost var before := Contents();
      if len + n > data.Length {
        var cap := if data.Length != 0 then data.Length else 256;
        while cap < len + n
          invariant cap >= data.Length && cap > 0
          decreases len + n - cap
        {
          cap := cap * 2;
        }
        var grown := new byte[cap];
        forall i | 0 <= i < len {
          grown[i] := data[i];
        }
        assert grown[..len] == before;
        data := grown;
      }
    }

    method Append(bytes: Bytes)
      requires Valid()
      modifies this, data
      ensures Valid() && (data == old(data) || fresh(data))
      ensures Contents() == old(Contents()) + bytes
    {
      Reserve(|bytes|);
      Put(bytes);
    }

    method Put(bytes: Bytes)
      requires Valid() && len + |bytes| <= data.Length
      modifies this`len, data
      ensures Valid() && Contents() == old(Contents()) + bytes
    {
      forall i | 0 <= i < |bytes| {
        data[len + i] := bytes[i];
      }
      len := len + |bytes|;
      ghost var all := old(Contents()) + bytes;
      forall i | 0 <= i < len ensures data[i] == all[i] {
        if i < old(len) {
          assert data[i] == old(data[i]);
        } else {
          assert data[old(len) + (i - old(len))] == bytes[i - old(len)];
        }
      }
    }

    // Moves the bytes behind `off` to the front.
    method DropFront(off: nat)
      requires Valid() && off <= len
      modifies this`len, data
      ensures Valid() && Contents() == old(Contents())[off..]
    {
      ghost var rest := Contents()[off..];
      forall i | 0 <= i < len - off {
        data[i] := data[off + i];
      }
      len := len - off;
      assert Contents() == rest;
    }
  }

  // Fills in a 64-bit length behind the first two bytes.
  method PutLength64(f: array<byte>, n: nat)
    requires f.Length >= 10
    modifies f
    ensures f[2..10] == BigEndian(n, 8) && f[..2] == old(f[..2])
  {
    for i := 0 to 8
      invariant f[..2] == old(f[..2])
      invariant f[2..2 + i] == BigEndian(n, 8)[..i]
    {
      f[2 + i] := ShiftRight(n, 7 - i) % 256;
      BigEndianAt(n, 8, i);
    }
  }

  method PutLength16(f: array<byte>, n: nat)
    requires f.Length >= 4
    modifies f
    ensures f[2..4] == BigEndian(n, 2) && f[..2] == old(f[..2])
  {
    f[2] := (n / 256) % 256;
    f[3] := n % 256;
    BigEndianAt(n, 2, 0);
    BigEndianAt(n, 2, 1);
    assert ShiftRight(n, 1) == n / 256;
  }

  method PutPayload(f: array<byte>, header: nat, payload: Bytes)
    requires f.Length == header + |payload|
    modifies f
    ensures f[..] == old(f[..header]) + payload
  {
    ghost var head := f[..header];
    forall i | 0 <= i < |payload| {
      f[header + i] := payload[i];
    }
    assert f[..header] == head && f[header..] == payload;
    assert f[..] == f[..header] + f[header..];
  }

  // Builds one server frame in a fresh array.
  method EncodeFrame(opcode: Opcode, payload: Bytes) returns (f: array<byte>)
    ensures fresh(f) && f[..] == ServerFrame(opcode, payload)
  {
    hide BigEndian;
    var n := |payload|;
    var header := if n >= 65536 then 10 else if n >= 126 then 4 else 2;
    f := new byte[header + n];
    f[0] := 128 + opcode;
    f[1] := if header == 2 then n else if header == 4 then 126 else 127;
    ghost var two := f[..2];
    assert two == [128 + opcode] + [f[1]];
    if header == 4 {
      PutLength16(f, n);
      assert f[..4] == two + f[2..4];
    } else if header == 10 {
      PutLength64(f, n);
      assert f[..10] == two + f[2..10];
    }
    PutPayload(f, header, payload);
    if header != 2 {
      Associate([128 + opcode], two[1..], BigEndian(n, header - 2));
    }
  }

  datatype Scan = More | Fail | Found(opcode: Opcode, hdr: nat, plen: nat)

  // What a scan says about the unread bytes.
  ghost predicate Scanned(r: Scan, view: Bytes) {
    match r
    case More => ParseFrame(view) == Need
    case Fail => ParseFrame(view) == Bad
    case Found(opcode, hdr, plen) =>
      && hdr + 4 + plen <= |view|
      && ParseFrame(view) ==
         Got(opcode, Masked(view[hdr + 4..hdr + 4 + plen], view[hdr..hdr + 4]), hdr + 4 + plen)
  }

  class WsSession {
    const input: ByteBuffer
    const output: ByteBuffer
    var closeSent: bool

    ghost predicate Valid()
      reads this, input, output
    {
      input != output && input.Valid() && output.Valid() && input.data != output.data
    }

    constructor ()
      ensures Valid() && fresh(input) && fresh(output) && fresh(input.data) && fresh(output.data)
      ensures input.Contents() == [] && output.Contents() == [] && !closeSent
    {
      input := new ByteBuffer();
      output := new ByteBuffer();
      closeSent := false;
    }

    method QueueFrame(opcode: Opcode, payload: Bytes)
      requires Valid()
      modifies output, output.data
      ensures Valid() && (output.data == old(output.data) || fresh(output.data))
      ensures output.Contents() == old(output.Contents()) + ServerFrame(opcode, payload)
    {
      var f := EncodeFrame(opcode, payload);
      output.Append(f[..]);
    }

    // Queues a close frame, once.
    method QueueClose(code: nat)
      requires Valid() && code < 0x1_0000
      modifies this`closeSent, output, output.data
      ensures Valid() && closeSent && (output.data == old(output.data) || fresh(output.data))
      ensures old(closeSent) ==> output.Contents() == old(output.Contents())
      ensures !old(closeSent) ==>
        output.Contents() == old(output.Contents()) + ServerFrame(OP_CLOSE, BigEndian(code, 2))
    {
      if !closeSent {
        closeSent := true;
        BigEndianAt(code, 2, 0);
        BigEndianAt(code, 2, 1);
        assert ShiftRight(code, 1) == code / 256;
        var body := [code / 256, code % 256];
        assert body == BigEndian(code, 2);
        QueueFrame(OP_CLOSE, body);
      }
    }

    // The header checks on the bytes from `off` on.
    method ScanFrame(off: nat) returns (r: Scan)
      requires Valid() && off <= input.len
      ensures Scanned(r, input.Contents()[off..])
    {
      hide FromBigEndian;
      var avail := input.len - off;
      var p := input.data;
      ghost var view := input.Contents()[off..];
      if avail < 2 {
        return More;
      }
      var b0, b1 := p[off], p[off + 1];
      assert view[0] == b0 && view[1] == b1;
      if (b0 / 16) % 8 != 0 {
        return Fail;
      }
      var opcode := b0 % 16;
      var fin := b0 >= 128;
      if b1 < 128 {
        return Fail;
      }
      var plen: nat := b1 % 128;
      var hdr := 2;
      if plen == 126 {
        if avail < 4 {
          return More;
        }
        plen := ReadLength16(off);
        hdr := 4;
      } else if plen == 127 {
        if avail < 10 {
          return More;
        }
        assert view[2] == p[off + 2];
        if p[off + 2] >= 128 {
          return Fail;
        }
        plen := ReadLength64(off);
        hdr := 10;
      }
      assert ParseHeader(view) == Header(hdr, plen);
      if opcode >= 8 && (!fin || plen > 125) {
        return Fail;
      }
      if avail < hdr + 4 + plen {
        return More;
      }
      return Found(opcode, hdr, plen);
    }

    method ReadLength16(off: nat) returns (plen: nat)
      requires Valid() && off + 4 <= input.len
      ensures plen == FromBigEndian(input.Contents()[off..][2..4])
    {
      var b2, b3 := input.data[off + 2], input.data[off + 3];
      ghost var all := input.Contents();
      assert all[off + 2] == b2 && all[off + 3] == b3;
      Field16(all, off);
      plen := Shifted4(0, 0, b2, b3);
    }

    method ReadLength64(off: nat) returns (plen: nat)
      requires Valid() && off + 10 <= input.len
      ensures plen == FromBigEndian(input.Contents()[off..][2..10])
    {
      ghost var view := input.Contents()[off..];
      plen := 0;
      for i := 0 to 8
        invariant plen == FromBigEndian(view[2..2 + i])
      {
        assert view[2..2 + (i + 1)][..i] == view[2..2 + i];
        assert view[2 + i] == input.data[off + 2 + i];
        plen := plen * 256 + input.data[off + 2 + i];
      }
    }

    // Unmasks a payload where it lies; nothing else changes.
    method UnmaskInPlace(mask: nat, plen: nat)
      requires Valid() && mask + 4 + plen <= input.len
      modifies input.data
      ensures input.Contents()[mask + 4..mask + 4 + plen] ==
              Masked(old(input.Contents())[mask + 4..mask + 4 + plen], old(input.Contents())[mask..mask + 4])
      ensures input.Contents()[mask + 4 + plen..] == old(input.Contents())[mask + 4 + plen..]
    {
      var p := input.data;
      ghost var was := input.Contents();
      for i := 0 to plen
        invariant forall k :: 0 <= k < p.Length && !(mask + 4 <= k < mask + 4 + i) ==> p[k] == old(p[k])
        invariant forall k :: 0 <= k < i ==> p[mask + 4 + k] == Xor(old(p[mask + 4 + k]), old(p[mask + k % 4]))
      {
        p[mask + 4 + i] := Xor(p[mask + 4 + i], p[mask + i % 4]);
      }
      hide Xor;
      ghost var body := Masked(was[mask + 4..mask + 4 + plen], was[mask..mask + 4]);
      forall k | 0 <= k < plen ensures p[mask + 4 + k] == body[k] {
        assert was[mask + 4..mask + 4 + plen][k] == old(p[mask + 4 + k]);
        assert was[mask..mask + 4][k % 4] == old(p[mask + k % 4]);
      }
      SliceOf(p, input.len, mask + 4, mask + 4 + plen);
      assert p[mask + 4..mask + 4 + plen] == body;
      forall k | mask + 4 + plen <= k < input.len ensures input.Contents()[k] == was[k] {
        assert p[k] == old(p[k]);
      }
      assert input.Contents()[mask + 4 + plen..] == was[mask + 4 + plen..];
    }

    ghost predicate Separate(dec: Decoder)
      reads this, input, output, dec
    {
      Valid() && dec.Valid() && dec.buf != input.data && dec.buf != output.data
    }

    // What the loop has achieved when the session stands at `cur`.
    ghost predicate Standing(cur: Ws, dec: Decoder, decoded: Bytes, written: Bytes)
      reads this, input, output, output.data, dec, dec.buf
    {
      && Separate(dec)
      && dec.View() == decoded + cur.ready
      && output.Contents() == written + WireFrames(cur.queued)
      && closeSent == cur.closeSent
    }

    // One whole frame: decoder, output and close flag move as Handle says.
    method Dispatch(opcode: Opcode, payload: Bytes, dec: Decoder,
      ghost cur: Ws, ghost decoded: Bytes, ghost written: Bytes)
      returns (ok: bool)
      requires Standing(cur, dec, decoded, written) && cur.verdict == Open
      modifies this`closeSent, output, output.data, dec, dec.buf
      ensures Standing(Handle(cur, opcode, payload), dec, decoded, written)
      ensures ok <==> Handle(cur, opcode, payload).verdict == Open
      ensures (dec.buf == old(dec.buf) || fresh(dec.buf)) && (output.data == old(output.data) || fresh(output.data))
    {
      hide ServerFrame, BigEndian, WireFrames;
      if opcode == OP_BIN || opcode == OP_CONT {
        dec.Push(payload);
        Associate(decoded, cur.ready, payload);
        return true;
      } else if opcode == OP_PING {
        WireFramesSnoc(cur.queued, OutFrame(OP_PONG, payload));
        Associate(written, WireFrames(cur.queued), ServerFrame(OP_PONG, payload));
        QueueFrame(OP_PONG, payload);
        return true;
      } else if opcode == OP_PONG {
        return true;
      } else {
        var code := if opcode == OP_TEXT then 1003 else if opcode == OP_CLOSE then CloseCode(payload) else 1002;
        Refuse(code, dec, cur, decoded, written);
        return false;
      }
    }

    method Refuse(code: nat, dec: Decoder, ghost cur: Ws, ghost decoded: Bytes, ghost written: Bytes)
      requires code < 0x1_0000 && Standing(cur, dec, decoded, written)
      modifies this`closeSent, output, output.data
      ensures Standing(WebSocket.QueueClose(cur, code), dec, decoded, written)
      ensures output.data == old(output.data) || fresh(output.data)
    {
      hide ServerFrame, BigEndian, WireFrames;
      var f := OutFrame(OP_CLOSE, BigEndian(code, 2));
      WireFramesSnoc(cur.queued, f);
      Associate(written, WireFrames(cur.queued), ServerFrame(f.opcode, f.payload));
      QueueClose(code);
    }

    // Unmasks the payload of the scanned frame and points at it.
    method OpenPayload(off: nat, scan: Scan) returns (payload: Bytes)
      requires Valid() && off <= input.len
      requires scan.Found? && Scanned(scan, input.Contents()[off..])
      modifies input.data
      ensures payload == ParseFrame(old(input.Contents()[off..])).payload
      ensures input.Contents()[off + scan.hdr + 4 + scan.plen..] ==
              old(input.Contents()[off + scan.hdr + 4 + scan.plen..])
    {
      hide ParseFrame, Masked;
      ghost var view := input.Contents()[off..];
      var base := off + scan.hdr + 4;
      assert view[scan.hdr..scan.hdr + 4] == input.Contents()[base - 4..base];
      assert view[scan.hdr + 4..scan.hdr + 4 + scan.plen] == input.Contents()[base..base + scan.plen];
      UnmaskInPlace(off + scan.hdr, scan.plen);
      payload := input.data[base..base + scan.plen];
      SliceOf(input.data, input.len, base, base + scan.plen);
    }

    // One turn of the feed loop.
    method Turn(off: nat, dec: Decoder, ghost cur: Ws, ghost decoded: Bytes, ghost written: Bytes)
      returns (next: nat, end: Outcome, ghost after: Ws)
      requires off <= input.len && Standing(cur, dec, decoded, written) && cur.verdict == Open
      modifies this`closeSent, input.data, output, output.data, dec, dec.buf
      ensures off <= next <= input.len && Standing(after, dec, decoded, written)
      ensures (dec.buf == old(dec.buf) || fresh(dec.buf)) && (output.data == old(output.data) || fresh(output.data))
      ensures Consume(cur, old(input.Contents()[off..])) == Consume(after, input.Contents()[next..])
      ensures end.Again? ==> after.verdict == Open && next > off
      ensures end.Wait? ==> next == off && after.verdict == Open
      ensures end.Wait? ==> Consume(after, input.Contents()[next..]) == Progress(after, input.Contents()[next..])
      ensures end.Dead? ==> after.verdict != Open
    {
      hide Consume, Handle, WireFrames, ParseFrame, Masked;
      ghost var view := input.Contents()[off..];
      ConsumeStep(cur, view);
      var scan := ScanFrame(off);
      match scan
      case More =>
        next, end, after := off, Wait, cur;
      case Fail =>
        Refuse(1002, dec, cur, decoded, written);
        next, end, after := off, Dead, WebSocket.QueueClose(cur, 1002).(verdict := Violated);
      case Found(opcode, hdr, plen) =>
        var payload := OpenPayload(off, scan);
        next := off + hdr + 4 + plen;
        assert input.Contents()[next..] == view[hdr + 4 + plen..];
        var go := Dispatch(opcode, payload, dec, cur, decoded, written);
        after := Handle(cur, opcode, payload);
        end := if go then Again else Dead;
    }

    // Feeds one read. Payload goes to the decoder, control frames to the output, and
    // an incomplete tail stays in the input buffer for the next call.
    method Feed(data: Bytes, dec: Decoder) returns (ok: bool)
      requires Separate(dec)
      modifies this`closeSent, input, input.data, output, output.data, dec, dec.buf
      ensures Separate(dec)
      ensures dec.buf == old(dec.buf) || fresh(dec.buf)
      ensures input.data == old(input.data) || fresh(input.data)
      ensures output.data == old(output.data) || fresh(output.data)
      ensures var p := Consume(Ws([], [], old(closeSent), Open), old(input.Contents()) + data);
        && dec.View() == old(dec.View()) + p.ws.ready
        && output.Contents() == old(output.Contents()) + WireFrames(p.ws.queued)
        && closeSent == p.ws.closeSent
        && (ok <==> p.ws.verdict == Open)
        && (ok ==> input.Contents() == p.rest)
    {
      ghost var start := Ws([], [], closeSent, Open);
      ghost var decoded, written := dec.View(), output.Contents();
      ghost var all := input.Contents() + data;
      assert dec.View() == decoded + start.ready;
      assert output.Contents() == written + WireFrames(start.queued);
      hide Consume, WireFrames, ParseFrame, Handle;
      input.Append(data);
      var off := 0;
      ghost var cur := start;
      assert input.Contents()[0..] == all;
      var end := Again;
      while end.Again?
        invariant off <= input.len && Standing(cur, dec, decoded, written)
        invariant Consume(start, all) == Consume(cur, input.Contents()[off..])
        invariant end.Dead? <==> cur.verdict != Open
        invariant end.Wait? ==> Consume(cur, input.Contents()[off..]) == Progress(cur, input.Contents()[off..])
        invariant dec.buf == old(dec.buf) || fresh(dec.buf)
        invariant input.data == old(input.data) || fresh(input.data)
        invariant output.data == old(output.data) || fresh(output.data)
        decreases end.Again?, input.len - off
      {
        off, end, cur := Turn(off, dec, cur, decoded, written);
      }
      if end.Dead? {
        ConsumeOver(cur, input.Contents()[off..]);
        return false;
      }
      input.DropFront(off);
      return true;
    }

    // Feeds one read and hands the queued control frames to the socket.
    method FeedAndFlush(data: Bytes, dec: Decoder) returns (ok: bool, sent: Bytes)
      requires Separate(dec) && output.Contents() == []
      modifies this`closeSent, input, input.data, output, output.data, dec, dec.buf
      ensures Separate(dec) && output.Contents() == []
      ensures dec.buf == old(dec.buf) || fresh(dec.buf)
      ensures input.data == old(input.data) || fresh(input.data)
      ensures output.data == old(output.data) || fresh(output.data)
      ensures var p := Consume(Ws([], [], old(closeSent), Open), old(input.Contents()) + data);
        && dec.View() == old(dec.View()) + p.ws.ready
        && sent == WireFrames(p.ws.queued)
        && closeSent == p.ws.closeSent
        && (ok <==> p.ws.verdict == Open)
        && (ok ==> input.Contents() == p.rest)
    {
      hide Consume, WireFrames;
      ok := Feed(data, dec);
      sent := output.data[..output.len];
      output.len := 0;
    }
  }

  lemma SliceOf(p: array<byte>, n: nat, i: nat, j: nat)
    requires i <= j <= n <= p.Length
    ensures p[..n][i..j] == p[i..j]
  {
  }

  lemma Field16(all: Bytes, off: nat)
    requires off + 4 <= |all|
    ensures FromBigEndian(all[off..][2..4]) == Shifted4(0, 0, all[off + 2], all[off + 3])
  {
    assert all[off..][2..4] == [all[off + 2], all[off + 3]];
    FromBigEndian2(all[off..][2..4]);
  }

  datatype Outcome = Again | Wait | Dead

  // Where the state of a session stands after the bytes of `fed`.
  ghost predicate Caught(fed: Bytes, view: Bytes, wire: Bytes, closeSent: bool, ok: bool, rest: Bytes) {
    var p := Consume(FRESH, fed);
    && view == p.ws.ready && wire == WireFrames(p.ws.queued) && closeSent == p.ws.closeSent
    && (ok <==> p.ws.verdict == Open) && (ok ==> rest == p.rest)
  }

  lemma CaughtNext(fed: Bytes, view: Bytes, wire: Bytes, closeSent: bool, rest: Bytes, data: Bytes)
    requires Caught(fed, view, wire, closeSent, true, rest)
    ensures var p := Consume(Ws([], [], closeSent, Open), rest + data);
            Caught(fed + data, view + p.ws.ready, wire + WireFrames(p.ws.queued),
              p.ws.closeSent, p.ws.verdict == Open, p.rest)
  {
    var before := Consume(FRESH, fed);
    var local := Ws([], [], closeSent, Open);
    ConsumeChunked(FRESH, fed, data);
    ConsumeShift(before.ws.ready, before.ws.queued, local, rest + data);
    assert local.(ready := before.ws.ready + [], queued := before.ws.queued + []) == before.ws;
    WireFramesAppend(before.ws.queued, Consume(local, rest + data).ws.queued);
  }

  lemma CaughtOver(fed: Bytes, view: Bytes, wire: Bytes, closeSent: bool, rest: Bytes, data: Bytes)
    requires Caught(fed, view, wire, closeSent, false, rest)
    ensures Caught(fed + data, view, wire, closeSent, false, rest)
  {
    ConsumeChunked(FRESH, fed, data);
    ConsumeOver(Consume(FRESH, fed).ws, Consume(FRESH, fed).rest + data);
  }

  // Feeds the reads of a connection one by one, sending the queued control frames
  // after each, and stops at the first failure: decoder, wire, close flag and verdict
  // are those of a single read of everything, wherever the reads were cut.
  method FeedReads(chunks: seq<Bytes>) returns (decoded: Bytes, wire: Bytes, ok: bool)
    ensures var p := Consume(FRESH, Concat(chunks));
      decoded == p.ws.ready && wire == WireFrames(p.ws.queued) && (ok <==> p.ws.verdict == Open)
  {
    assert Consume(FRESH, []) == Progress(FRESH, []);
    hide Consume, WireFrames, Caught;
    var session := new WsSession();
    var dec := new Decoder();
    wire, ok := [], true;
    assert Caught([], [], [], false, true, []) by { CaughtStart(); }
    for k := 0 to |chunks|
      invariant session.Separate(dec) && fresh(session) && fresh(dec) && fresh(dec.buf)
      invariant fresh(session.input) && fresh(session.input.data)
      invariant fresh(session.output) && fresh(session.output.data)
      invariant session.output.Contents() == []
      invariant Caught(Concat(chunks[..k]), dec.View(), wire, session.closeSent, ok, session.input.Contents())
    {
      ghost var fed := Concat(chunks[..k]);
      ConcatSnoc(chunks[..k], chunks[k]);
      assert chunks[..k + 1] == chunks[..k] + [chunks[k]];
      if ok {
        CaughtNext(fed, dec.View(), wire, session.closeSent, session.input.Contents(), chunks[k]);
        ghost var p := Consume(Ws([], [], session.closeSent, Open), session.input.Contents() + chunks[k]);
        var sent;
        ok, sent := session.FeedAndFlush(chunks[k], dec);
        wire := wire + sent;
        CaughtRest(Concat(chunks[..k + 1]), dec.View(), wire, session.closeSent, ok, p.rest, session.input.Contents());
      } else {
        CaughtOver(fed, dec.View(), wire, session.closeSent, session.input.Contents(), chunks[k]);
      }
    }
    assert chunks[..|chunks|] == chunks;
    CaughtMeans(Concat(chunks), dec.View(), wire, session.closeSent, ok, session.input.Contents());
    decoded := dec.buf[dec.head..dec.tail];
  }

  lemma CaughtStart()
    ensures Caught([], [], [], false, true, [])
  {
    assert Consume(FRESH, []) == Progress(FRESH, []);
  }

  lemma CaughtRest(fed: Bytes, view: Bytes, wire: Bytes, closeSent: bool, ok: bool, rest: Bytes, rest': Bytes)
    requires Caught(fed, view, wire, closeSent, ok, rest) && (ok ==> rest' == rest)
    ensures Caught(fed, view, wire, closeSent, ok, rest')
  {
  }

  lemma CaughtMeans(fed: Bytes, view: Bytes, wire: Bytes, closeSent: bool, ok: bool, rest: Bytes)
    requires Caught(fed, view, wire, closeSent, ok, rest)
    ensures var p := Consume(FRESH, fed);
      view == p.ws.ready && wire == WireFrames(p.ws.queued) && (ok <==> p.ws.verdict == Open)
  {
  }

  lemma WireFramesSnoc(frames: seq<OutFrame>, f: OutFrame)
    ensures WireFrames(frames + [f]) == WireFrames(frames) + ServerFrame(f.opcode, f.payload)
  {
    WireFramesAppend(frames, [f]);
    assert WireFrames([f]) == ServerFrame(f.opcode, f.payload) + [];
  }
}
