// The asynchronous crate's WebSocket adapter: a reader that queues control frames
// and a writer that queues data frames share one partly written output buffer.
module WsStreams {
  import opened Bytes
  import opened WebSocket

  datatype PollWrite = Accepted(n: nat) | WriteBlocked | WriteFailed
  datatype PollRead = Filled(bytes: Bytes) | ReadBlocked | ReadFailed
  datatype Flush = Flushed | Blocked | Failed

  // A write of nothing is a refusal, too.
  predicate Refusal(w: PollWrite) {
    w == WriteBlocked || w == WriteFailed || w == Accepted(0)
  }

  // The inner stream: it may accept any part of a write and yield any part of what
  // is coming, block, or fail. `answers` and `accepts` are the results of its reads and writes
  // so far.
  class Transport {
    var incoming: Bytes
    var wire: Bytes
    ghost var answers: seq<PollRead>
    ghost var accepts: seq<PollWrite>

    constructor (incoming: Bytes)
      ensures this.incoming == incoming && wire == [] && answers == [] && accepts == []
    {
      this.incoming, wire, answers, accepts := incoming, [], [], [];
    }

    method Write(data: Bytes) returns (r: PollWrite)
      modifies this`wire, this`accepts
      ensures r.Accepted? ==> r.n <= |data| && wire == old(wire) + data[..r.n]
      ensures !r.Accepted? ==> wire == old(wire)
      ensures accepts == old(accepts) + [r]
    {
      var n: int := *;
      if n < 0 {
        r := WriteBlocked;
      } else if n <= |data| {
        wire := wire + data[..n];
        r := Accepted(n);
      } else {
        r := WriteFailed;
      }
      accepts := accepts + [r];
    }

    // The last write was refused: the stream is full or broken.
    ghost predicate Refused()
      reads this
    {
      accepts != [] && Refusal(accepts[|accepts| - 1])
    }

    // An empty read into a buffer with room is the end of the stream: nothing is left.
    method Read(capacity: nat) returns (r: PollRead)
      modifies this`incoming, this`answers
      ensures r.Filled? ==> |r.bytes| <= capacity && old(incoming) == r.bytes + incoming
      ensures r == Filled([]) && capacity > 0 ==> incoming == []
      ensures !r.Filled? ==> incoming == old(incoming)
      ensures answers == old(answers) + [r]
    {
      var n: int := *;
      if n < 0 {
        r := ReadBlocked;
      } else if n <= |incoming| && n <= capacity && (n > 0 || incoming == [] || capacity == 0) {
        r := Filled(incoming[..n]);
        incoming := incoming[n..];
      } else {
        r := ReadFailed;
      }
      answers := answers + [r];
    }
  }

  // The frames of one opcode, in order.
  function Only(frames: seq<OutFrame>, opcode: Opcode): seq<OutFrame> {
    if frames == [] then [] else
    Only(frames[..|frames| - 1], opcode) +
    (if frames[|frames| - 1].opcode == opcode then [frames[|frames| - 1]] else [])
  }

  lemma OnlySnoc(frames: seq<OutFrame>, f: OutFrame, opcode: Opcode)
    ensures Only(frames + [f], opcode) == Only(frames, opcode) + (if f.opcode == opcode then [f] else [])
  {
    assert (frames + [f])[..|frames|] == frames;
  }

  function BinaryFrames(writes: seq<Bytes>): seq<OutFrame> {
    seq(|writes|, i requires 0 <= i < |writes| => OutFrame(OP_BIN, writes[i]))
  }

  // Everything ever queued is one binary frame per accepted write, the pongs the
  // reader owes, and at most one close; nothing else.
  ghost predicate Traffic(frames: seq<OutFrame>, writes: seq<Bytes>, session: Ws, closeSent: bool) {
    && Only(frames, OP_BIN) == BinaryFrames(writes)
    && Only(frames, OP_PONG) == Only(session.queued, OP_PONG)
    && Closes(frames) == (if closeSent then 1 else 0)
    && (session.closeSent ==> closeSent)
    && (forall f <- frames :: f.opcode == OP_BIN || f.opcode == OP_PONG || f.opcode == OP_CLOSE)
  }

  lemma TrafficWrite(frames: seq<OutFrame>, writes: seq<Bytes>, session: Ws, closeSent: bool, data: Bytes)
    requires Traffic(frames, writes, session, closeSent)
    ensures Traffic(frames + [OutFrame(OP_BIN, data)], writes + [data], session, closeSent)
  {
    var f := OutFrame(OP_BIN, data);
    OnlySnoc(frames, f, OP_BIN);
    OnlySnoc(frames, f, OP_PONG);
    ClosesSnoc(frames, f);
    assert BinaryFrames(writes + [data]) == BinaryFrames(writes) + [f];
  }

  lemma TrafficClose(frames: seq<OutFrame>, writes: seq<Bytes>, session: Ws, payload: Bytes)
    requires Traffic(frames, writes, session, false)
    ensures Traffic(frames + [OutFrame(OP_CLOSE, payload)], writes, session, true)
  {
    var f := OutFrame(OP_CLOSE, payload);
    OnlySnoc(frames, f, OP_BIN);
    OnlySnoc(frames, f, OP_PONG);
    ClosesSnoc(frames, f);
  }

  lemma TrafficPong(frames: seq<OutFrame>, writes: seq<Bytes>, session: Ws, closeSent: bool, payload: Bytes)
    requires Traffic(frames, writes, session, closeSent)
    ensures Traffic(frames + [OutFrame(OP_PONG, payload)], writes, Handle(session, OP_PING, payload), closeSent)
  {
    var f := OutFrame(OP_PONG, payload);
    OnlySnoc(frames, f, OP_BIN);
    OnlySnoc(frames, f, OP_PONG);
    OnlySnoc(session.queued, f, OP_PONG);
    ClosesSnoc(frames, f);
  }

  lemma TrafficPayload(frames: seq<OutFrame>, writes: seq<Bytes>, session: Ws, closeSent: bool, payload: Bytes)
    requires Traffic(frames, writes, session, closeSent)
    ensures Traffic(frames, writes, session.(ready := session.ready + payload), closeSent)
  {
  }

  // The session's own close changes none of its pongs.
  lemma TrafficSessionClose(frames: seq<OutFrame>, writes: seq<Bytes>, session: Ws, code: nat, verdict: Verdict)
    requires code < 0x1_0000 && Traffic(frames, writes, session, true)
    ensures Traffic(frames, writes, QueueClose(session, code).(verdict := verdict), true)
  {
    OnlySnoc(session.queued, OutFrame(OP_CLOSE, BigEndian(code, 2)), OP_PONG);
  }

  // Nothing delivered is ever taken back.
  lemma {:induction false} ReadyGrows(ws: Ws, buf: Bytes)
    ensures ws.ready <= Consume(ws, buf).ws.ready
    decreases |buf|
  {
    if ws.verdict == Open && ParseFrame(buf).Got? {
      var p := ParseFrame(buf);
      ReadyGrows(Handle(ws, p.opcode, p.payload), buf[p.used..]);
    }
  }

  lemma ConsumeMore(seen: Bytes, ws: Ws, buf: Bytes, bytes: Bytes)
    requires Consume(FRESH, seen) == Consume(ws, buf)
    ensures Consume(FRESH, seen + bytes) == Consume(ws, buf + bytes)
  {
    ConsumeChunked(FRESH, seen, bytes);
    ConsumeChunked(ws, buf, bytes);
  }

  datatype Parsed = Need | Payload(bytes: Bytes) | Control | Eof | Error

  // What handling a frame reports to the read loop.
  function Report(opcode: Opcode, payload: Bytes): Parsed {
    if opcode == OP_BIN || opcode == OP_CONT then Payload(payload)
    else if opcode == OP_PING || opcode == OP_PONG then Control
    else if opcode == OP_CLOSE then Eof
    else Error
  }

  function Payload0(r: Parsed): Bytes {
    if r.Payload? then r.bytes else []
  }

  lemma HandleReport(ws: Ws, opcode: Opcode, payload: Bytes)
    requires ws.verdict == Open
    ensures var after, r := Handle(ws, opcode, payload), Report(opcode, payload);
            after.ready == ws.ready + Payload0(r) && (after.verdict != Open <==> r.Eof? || r.Error?)
  {
  }

  class WsStream {
    const inner: Transport
    var inBuf: Bytes
    var ready: Bytes
    var outBuf: Bytes
    var outPos: nat
    var closeSent: bool
    var eof: bool
    ghost const input: Bytes            // every byte the inner stream will ever yield
    ghost var seen: Bytes               // every byte read from it so far
    ghost var ended: bool               // it has reported its end
    ghost var session: Ws               // the frames handled so far
    ghost var delivered: Bytes          // every byte handed to the caller
    ghost var frames: seq<OutFrame>     // every frame ever queued
    ghost var writes: seq<Bytes>        // every write ever accepted

    // Bytes written and bytes waiting are whole frames, in the order they were queued.
    ghost predicate WireValid()
      reads this, inner
    {
      && outPos <= |outBuf|
      && inner.wire + outBuf[outPos..] == WireFrames(frames)
    }

    ghost predicate WriterValid()
      reads this, inner
    {
      WireValid() && Traffic(frames, writes, session, closeSent)
    }

    // The bytes read and the bytes to come are the input; what was read is what the
    // frames handled and the input buffer stand for; the adapter is at its end exactly if
    // a close or a violation ended the session or the inner stream ended, and then
    // everything before the end has been parsed.
    ghost predicate ReaderValid()
      reads this, inner
    {
      && seen + inner.incoming == input
      && Consume(FRESH, seen) == Consume(session, inBuf)
      && session.ready == delivered + ready
      && (eof <==> session.verdict != Open || ended)
      && (ended ==> inner.incoming == [] && Consume(FRESH, seen) == Progress(session, inBuf))
    }

    ghost predicate Valid()
      reads this, inner
    {
      WriterValid() && ReaderValid()
    }

    constructor (inner: Transport)
      requires inner.wire == []
      ensures Valid() && this.inner == inner && input == inner.incoming
      ensures seen == [] && delivered == [] && frames == [] && writes == []
    {
      this.inner, input, ended := inner, inner.incoming, false;
      inBuf, ready, outBuf, outPos, closeSent, eof := [], [], [], 0, false, false;
      seen, session, delivered, frames, writes := [], FRESH, [], [], [];
    }

    // Appends a whole frame behind whatever is still unwritten.
    method QueueFrame(opcode: Opcode, payload: Bytes)
      requires WireValid()
      modifies this`outBuf, this`frames
      ensures frames == old(frames) + [OutFrame(opcode, payload)]
      ensures WireValid()
    {
      QueueLemma(inner.wire, outBuf, outPos, frames, OutFrame(opcode, payload));
      outBuf := outBuf + ServerFrame(opcode, payload);
      frames := frames + [OutFrame(opcode, payload)];
    }

    static lemma QueueLemma(wire: Bytes, buf: Bytes, pos: nat, frames: seq<OutFrame>, f: OutFrame)
      requires pos <= |buf| && wire + buf[pos..] == WireFrames(frames)
      ensures wire + (buf + ServerFrame(f.opcode, f.payload))[pos..] == WireFrames(frames + [f])
    {
      var bytes := ServerFrame(f.opcode, f.payload);
      WireFramesAppend(frames, [f]);
      assert WireFrames([f]) == bytes + [];
      assert (buf + bytes)[pos..] == buf[pos..] + bytes;
      Associate(wire, buf[pos..], bytes);
    }

    // Queues a close frame unless one was queued before.
    method QueueClose(code: nat)
      requires WriterValid() && code < 0x1_0000
      modifies this`outBuf, this`frames, this`closeSent
      ensures WriterValid() && closeSent
      ensures frames == old(frames) + (if old(closeSent) then [] else [OutFrame(OP_CLOSE, BigEndian(code, 2))])
    {
      if !closeSent {
        TrafficClose(frames, writes, session, BigEndian(code, 2));
        closeSent := true;
        QueueFrame(OP_CLOSE, BigEndian(code, 2));
      }
    }

    // Writes as much of the buffer as the inner stream takes; a refusal other than being
    // full is an error. Whatever happens, written bytes and the unwritten tail together
    // stay the concatenation of the queued frames. It stops short only where the inner
    // stream refuses a write.
    method FlushOut() returns (r: Flush)
      requires WireValid()
      modifies this`outBuf, this`outPos, inner`wire, inner`accepts
      ensures WireValid() && old(inner.wire) <= inner.wire
      ensures r.Flushed? ==> inner.wire == WireFrames(frames) && outBuf == []
      ensures !r.Flushed? ==> inner.Refused() && old(inner.accepts) < inner.accepts
      ensures !r.Flushed? ==> (r.Blocked? <==> inner.accepts[|inner.accepts| - 1] == WriteBlocked)
      ensures Drained(old(outPos), old(outBuf)) ==> r.Flushed?
    {
      hide WireFrames;
      while outPos < |outBuf|
        invariant WireValid() && old(inner.wire) <= inner.wire && old(inner.accepts) <= inner.accepts
      {
        var w := WriteSome();
        if Refusal(w) {
          return if w.WriteBlocked? then Blocked else Failed;
        }
      }
      outBuf := [];
      outPos := 0;
      return Flushed;
    }

    method WriteSome() returns (w: PollWrite)
      requires WireValid() && outPos < |outBuf|
      modifies this`outPos, inner`wire, inner`accepts
      ensures WireValid() && old(inner.wire) <= inner.wire && inner.accepts == old(inner.accepts) + [w]
      ensures !Refusal(w) ==> outPos > old(outPos)
    {
      hide WireFrames;
      w := inner.Write(outBuf[outPos..]);
      if w.Accepted? {
        WrittenPart(old(inner.wire), outBuf, outPos, w.n);
        outPos := outPos + w.n;
      }
    }

    static lemma WrittenPart(wire: Bytes, buf: Bytes, pos: nat, n: nat)
      requires pos + n <= |buf|
      ensures wire + buf[pos..] == wire + buf[pos..][..n] + buf[pos + n..]
    {
      assert buf[pos..] == buf[pos..][..n] + buf[pos + n..];
      Associate(wire, buf[pos..][..n], buf[pos + n..]);
    }

    // Nothing waits to be written.
    static predicate Drained(pos: nat, buf: Bytes) {
      pos >= |buf|
    }

    method Unmask(data: Bytes, mask: Mask) returns (payload: Bytes)
      ensures payload == Masked(data, mask)
    {
      payload := [];
      for i := 0 to |data|
        invariant payload == Masked(data, mask)[..i]
      {
        payload := payload + [Xor(data[i], mask[i % 4])];
      }
    }

    // The header checks of one client frame, in the order the adapter makes them.
    method ReadFrame() returns (r: Parse)
      ensures r == ParseFrame(inBuf)
    {
      var buf := inBuf;
      if |buf| < 2 {
        return Parse.Need;
      }
      var b0, b1 := buf[0], buf[1];
      if (b0 / 16) % 8 != 0 {
        return Bad;
      }
      var opcode := b0 % 16;
      var fin := b0 >= 128;
      if b1 < 128 {
        return Bad;
      }
      var len: nat := b1 % 128;
      var off := 2;
      if len == 126 {
        if |buf| < 4 {
          return Parse.Need;
        }
        len := FromBigEndian(buf[2..4]);
        off := 4;
      } else if len == 127 {
        if |buf| < 10 {
          return Parse.Need;
        }
        if buf[2] >= 128 {
          return Bad;
        }
        len := FromBigEndian(buf[2..10]);
        off := 10;
      }
      if opcode >= 8 && (!fin || len > 125) {
        return Bad;
      }
      if |buf| < off + 4 + len {
        return Parse.Need;
      }
      var payload := Unmask(buf[off + 4..off + 4 + len], buf[off..off + 4]);
      return Got(opcode, payload, off + 4 + len);
    }

    // Handles at most one client frame of the input buffer.
    method ParseOne() returns (r: Parsed)
      requires WriterValid() && session.verdict == Open
      modifies this`inBuf, this`outBuf, this`frames, this`closeSent, this`session
      ensures WriterValid() && old(frames) <= frames
      ensures Consume(old(session), old(inBuf)) == Consume(session, inBuf)
      ensures session.ready == old(session).ready + Payload0(r)
      ensures session.verdict != Open <==> r.Eof? || r.Error?
      ensures r.Need? ==> Consume(session, inBuf) == Progress(session, inBuf) && inBuf == old(inBuf)
      ensures r.Need? ==> outBuf == old(outBuf) && frames == old(frames)
      ensures r.Payload? || r.Control? ==> |inBuf| < |old(inBuf)|
      ensures |inBuf| <= |old(inBuf)|
    {
      hide Consume, Handle, ParseFrame, Traffic, BigEndian;
      var p := ReadFrame();
      ConsumeStep(session, inBuf);
      match p
      case Need =>
        return Parsed.Need;
      case Bad =>
        Refuse(1002, Violated);
        return Error;
      case Got(opcode, payload, used) =>
        inBuf := inBuf[used..];
        HandleReport(session, opcode, payload);
        r := Dispatch(opcode, payload);
    }

    method Dispatch(opcode: Opcode, payload: Bytes) returns (r: Parsed)
      requires WriterValid() && session.verdict == Open
      modifies this`outBuf, this`frames, this`closeSent, this`session
      ensures WriterValid() && old(frames) <= frames
      ensures session == Handle(old(session), opcode, payload)
      ensures r == Report(opcode, payload)
    {
      hide Traffic, BigEndian, CloseCode;
      if opcode == OP_BIN || opcode == OP_CONT {
        TrafficPayload(frames, writes, session, closeSent, payload);
        session := session.(ready := session.ready + payload);
        return Payload(payload);
      } else if opcode == OP_PING {
        TrafficPong(frames, writes, session, closeSent, payload);
        QueueFrame(OP_PONG, payload);
        session := session.(queued := session.queued + [OutFrame(OP_PONG, payload)]);
        return Control;
      } else if opcode == OP_PONG {
        return Control;
      } else {
        var code := if opcode == OP_TEXT then 1003 else if opcode == OP_CLOSE then CloseCode(payload) else 1002;
        Refuse(code, if opcode == OP_CLOSE then Ended else Violated);
        return if opcode == OP_CLOSE then Eof else Error;
      }
    }

    method Refuse(code: nat, verdict: Verdict)
      requires WriterValid() && code < 0x1_0000
      modifies this`outBuf, this`frames, this`closeSent, this`session
      ensures WriterValid() && old(frames) <= frames
      ensures session == WebSocket.QueueClose(old(session), code).(verdict := verdict)
    {
      hide Traffic, BigEndian, WireFrames;
      QueueClose(code);
      TrafficSessionClose(frames, writes, session, code, verdict);
      session := WebSocket.QueueClose(session, code).(verdict := verdict);
    }

    // Hands out the front of the ready bytes.
    method TakeReady(capacity: nat) returns (bytes: Bytes)
      requires Valid()
      modifies this`ready, this`delivered
      ensures Valid() && delivered == old(delivered) + bytes && |bytes| <= capacity
      ensures bytes == [] ==> capacity == 0 || old(ready) == []
    {
      hide Consume, Traffic, WireFrames;
      var n := if |ready| <= capacity then |ready| else capacity;
      bytes := ready[..n];
      assert delivered + ready == delivered + ready[..n] + ready[n..];
      delivered := delivered + ready[..n];
      ready := ready[n..];
    }

    // Parses one frame and keeps what it carries.
    method Advance() returns (need: bool)
      requires Valid() && !eof
      modifies this`inBuf, this`outBuf, this`frames, this`closeSent, this`session, this`ready, this`eof
      ensures Valid() && old(frames) <= frames
      ensures need ==> outBuf == old(outBuf) && frames == old(frames)
      ensures need ==> Consume(FRESH, seen) == Progress(session, inBuf) && ready == old(ready)
      ensures need ==> !eof && |inBuf| == |old(inBuf)|
      ensures !need ==> eof || |inBuf| < |old(inBuf)|
      ensures |inBuf| <= |old(inBuf)|
    {
      hide Traffic, Consume;
      var parsed := ParseOne();
      ready := ready + Payload0(parsed);
      eof := parsed.Eof? || parsed.Error?;
      need := parsed.Need?;
    }

    // Reads once from the inner stream when everything read so far is parsed. `more` says
    // that new bytes arrived; all of them, and only they, join the input buffer.
    method Fill() returns (r: PollRead, more: bool)
      requires Valid() && !eof && Consume(FRESH, seen) == Progress(session, inBuf)
      modifies this`inBuf, this`seen, this`eof, this`ended, inner`incoming, inner`answers
      ensures Valid() && inner.answers == old(inner.answers) + [r]
      ensures more ==> |inner.incoming| < |old(inner.incoming)| && !eof
      ensures !more ==> inBuf == old(inBuf) && seen == old(seen) && inner.incoming == old(inner.incoming)
      ensures !more ==> r == Filled([]) || !r.Filled?
      ensures !more && r.Filled? ==> eof && ended
      ensures !more && !r.Filled? ==> !eof
      ensures inner.wire == old(inner.wire)
    {
      hide Consume, WireFrames, Traffic;
      r := inner.Read(8192);
      more := r.Filled? && r.bytes != [];
      if more {
        ConsumeMore(seen, session, inBuf, r.bytes);
        Associate(seen, r.bytes, inner.incoming);
        seen := seen + r.bytes;
        inBuf := inBuf + r.bytes;
      } else if r.Filled? {
        eof, ended := true, true;
      }
    }

    // Once the adapter is at its end, what it has delivered is all that the input carries.
    lemma EndDelivers()
      requires Valid() && eof
      ensures Consume(FRESH, input).ws.ready == delivered + ready
      ensures Consume(FRESH, input).ws.verdict != Open || (ended && inner.incoming == [])
    {
      ConsumeChunked(FRESH, seen, inner.incoming);
      if session.verdict != Open {
        ConsumeOver(session, inBuf);
        ConsumeOver(session, inBuf + inner.incoming);
      } else {
        assert seen + [] == seen;
      }
      hide Consume;
    }

    lemma NothingReady()
      requires Valid() && ready == []
      ensures delivered + ready == delivered == session.ready
    {
      hide Consume, WriterValid;
    }

    // The opportunistic flush of the read loop: whatever comes of it, nothing is lost.
    method FlushQuietly()
      requires Valid()
      modifies this`outBuf, this`outPos, inner`wire, inner`accepts
      ensures Valid() && old(inner.wire) <= inner.wire
      ensures Drained(outPos, outBuf) || inner.Refused()
    {
      hide Traffic, Consume, WireFrames;
      var flushed := FlushOut();
    }

    // Hands out payload bytes. It blocks or fails only when every byte read so far has
    // been parsed and delivered and the inner stream blocks or fails. It reports the end
    // only after a close, a violation or the end of the inner stream, and when all payload
    // of the whole input has been delivered. What it queues, pongs and a close, goes behind
    // everything queued before, and it is written unless the inner stream refuses.
    method PollRead(capacity: nat) returns (r: PollRead)
      requires Valid()
      modifies this`inBuf, this`ready, this`outBuf, this`outPos, this`closeSent, this`eof, this`ended
      modifies this`seen, this`session, this`delivered, this`frames, inner
      ensures Valid() && writes == old(writes) && old(inner.wire) <= inner.wire && old(frames) <= frames
      ensures Drained(outPos, outBuf) || inner.Refused()
      ensures r.Filled? ==> |r.bytes| <= capacity && delivered == old(delivered) + r.bytes
      ensures !r.Filled? ==> delivered == old(delivered)
      ensures r == Filled([]) && capacity > 0 ==> delivered == Consume(FRESH, input).ws.ready
      ensures r == Filled([]) && capacity > 0 ==>
        Consume(FRESH, input).ws.verdict != Open || (ended && inner.incoming == [])
      ensures !r.Filled? ==> Consume(FRESH, seen) == Progress(session, inBuf) && delivered == session.ready && !eof
      ensures !r.Filled? ==> |inner.answers| > |old(inner.answers)| && inner.answers[|inner.answers| - 1] == r
    {
      hide Consume, WriterValid, ReaderValid;
      while true
        invariant Valid() && writes == old(writes) && delivered == old(delivered)
        invariant old(frames) <= frames && old(inner.wire) <= inner.wire && |old(inner.answers)| <= |inner.answers|
        decreases |inner.incoming|, |inBuf|, !eof
      {
        FlushQuietly();
        if ready != [] {
          var bytes := TakeReady(capacity);
          return Filled(bytes);
        }
        if eof {
          NothingReady();
          EndDelivers();
          return Filled([]);
        }
        var need := Advance();
        if need {
          var read, more := Fill();
          if !more {
            NothingReady();
            if read.Filled? {
              EndDelivers();
            }
            return read;
          }
        }
      }
    }

    // Accepts a write whole, as one binary frame, or not at all, and that only when the inner
    // stream refuses what was queued before.
    method PollWrite(buf: Bytes) returns (r: PollWrite)
      requires Valid()
      modifies this`outBuf, this`outPos, this`frames, this`writes, inner`wire, inner`accepts
      ensures Valid() && old(inner.wire) <= inner.wire
      ensures r.Accepted? ==> r.n == |buf| && writes == old(writes) + [buf]
      ensures r.Accepted? ==> frames == old(frames) + [OutFrame(OP_BIN, buf)]
      ensures !r.Accepted? ==> writes == old(writes) && frames == old(frames)
      ensures !r.Accepted? ==> inner.Refused() && old(inner.accepts) < inner.accepts
      ensures !r.Accepted? ==> (r.WriteBlocked? <==> inner.accepts[|inner.accepts| - 1] == WriteBlocked)
      ensures Drained(old(outPos), old(outBuf)) ==> r.Accepted?
    {
      hide Traffic, Consume, WireFrames, BinaryFrames, Only, Closes;
      var first := FlushOut();
      if !first.Flushed? {
        return if first.Blocked? then WriteBlocked else WriteFailed;
      }
      QueueWrite(buf);
      var again := FlushOut();
      return Accepted(|buf|);
    }

    method QueueWrite(buf: Bytes)
      requires WriterValid()
      modifies this`outBuf, this`frames, this`writes
      ensures WriterValid() && writes == old(writes) + [buf]
      ensures frames == old(frames) + [OutFrame(OP_BIN, buf)]
    {
      TrafficWrite(frames, writes, session, closeSent, buf);
      QueueFrame(OP_BIN, buf);
      writes := writes + [buf];
    }

    method PollFlush() returns (r: Flush)
      requires Valid()
      modifies this`outBuf, this`outPos, inner`wire, inner`accepts
      ensures Valid() && old(inner.wire) <= inner.wire
      ensures r.Flushed? ==> inner.wire == WireFrames(frames)
      ensures !r.Flushed? ==> inner.Refused() && old(inner.accepts) < inner.accepts
    {
      r := FlushOut();
    }

    // Queues a close with code 1000, once over all calls, and flushes.
    method PollShutdown() returns (r: Flush)
      requires Valid()
      modifies this`outBuf, this`outPos, this`frames, this`closeSent, inner`wire, inner`accepts
      ensures Valid() && closeSent && old(inner.wire) <= inner.wire
      ensures frames == old(frames) + (if old(closeSent) then [] else [OutFrame(OP_CLOSE, BigEndian(1000, 2))])
      ensures r.Flushed? ==> inner.wire == WireFrames(frames)
      ensures !r.Flushed? ==> inner.Refused() && old(inner.accepts) < inner.accepts
    {
      hide Traffic, Consume, WireFrames;
      QueueClose(1000);
      r := FlushOut();
    }

    // At any moment the caller holds a prefix of what the whole input carries.
    lemma DeliveredIsPrefix()
      requires Valid()
      ensures delivered + ready <= Consume(FRESH, input).ws.ready
    {
      ReadyGrows(session, inBuf);
      ConsumeChunked(FRESH, seen, inner.incoming);
      var first := Consume(FRESH, seen);
      ReadyGrows(first.ws, first.rest + inner.incoming);
      hide Consume;
    }
  }
}
