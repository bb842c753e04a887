// The incremental frame reader of the synchronous crate.
module FrameDecoding {
  import opened Bytes
  import opened Protocol

  // What one read of the transport can report.
  datatype ReadResult =
    | Eof
    | Got(bytes: Bytes)
    | Retry      // would block, timed out or interrupted
    | Fault      // any other error

  datatype Read1 = Frame(frame: Bytes) | Pending | Closed | Failed

  // The frames handed out and the buffer together are the received stream, and the
  // frames are the ones a reader of the whole stream would see.
  ghost predicate Accounts(received: Bytes, popped: seq<Bytes>, buf: Bytes) {
    && received == WireOf(popped) + buf
    && Frames(received) == popped + Frames(buf)
    && Leftover(received) == Leftover(buf)
  }

  lemma AccountsExtend(received: Bytes, popped: seq<Bytes>, buf: Bytes, bytes: Bytes)
    requires Accounts(received, popped, buf)
    ensures Accounts(received + bytes, popped, buf + bytes)
  {
    FramesChunked(received, bytes);
    FramesChunked(buf, bytes);
    Associate(WireOf(popped), buf, bytes);
    Associate(popped, Frames(buf), Frames(Leftover(buf) + bytes));
  }

  lemma AccountsTake(received: Bytes, popped: seq<Bytes>, buf: Bytes)
    requires Accounts(received, popped, buf) && TakeFrame(buf).Whole?
    ensures Accounts(received, popped + [TakeFrame(buf).frame], TakeFrame(buf).rest)
  {
    var frame, rest := TakeFrame(buf).frame, TakeFrame(buf).rest;
    FramesStep(buf);
    assert WireOf([frame]) == Prefixed(frame) + [];
    hide TakeFrame, Frames, Leftover, Prefixed, WireOf;
    TakeFrameFaithful(buf);
    WireOfAppend(popped, [frame]);
    assert WireOf([frame]) == Prefixed(frame);
    Associate(WireOf(popped), Prefixed(frame), rest);
    Associate(popped, [frame], Frames(rest));
  }

  class FrameDecoder {
    var buf: Bytes
    ghost var received: Bytes      // every byte ever appended
    ghost var popped: seq<Bytes>   // every frame ever handed out

    ghost predicate Valid()
      reads this
    {
      Accounts(received, popped, buf)
    }

    constructor ()
      ensures Valid() && received == [] && popped == [] && buf == []
    {
      buf, received, popped := [], [], [];
    }

    method ExtendFrom(bytes: Bytes)
      requires Valid()
      modifies this
      ensures Valid()
      ensures received == old(received) + bytes && popped == old(popped)
      ensures buf == old(buf) + bytes
    {
      AccountsExtend(received, popped, buf, bytes);
      buf := buf + bytes;
      received := received + bytes;
    }

    // Splits the next frame off the buffer; it fails only if none is complete.
    method TakeFrame() returns (r: Option<Bytes>)
      requires Valid()
      modifies this
      ensures Valid() && received == old(received)
      ensures r.None? <==> Frames(old(buf)) == []
      ensures r.None? ==> buf == old(buf) && popped == old(popped)
      ensures r.Some? ==> popped == old(popped) + [r.value] && [r.value] + Frames(buf) == Frames(old(buf))
      ensures r.Some? ==> |buf| < |old(buf)|
    {
      if |buf| < 4 {
        return None;
      }
      var len := FromBigEndian(buf[..4]);
      if |buf| < 4 + len {
        return None;
      }
      var frame := buf[4..4 + len];
      AccountsTake(received, popped, buf);
      buf := buf[4 + len..];
      popped := popped + [frame];
      return Some(frame);
    }

    // One read at most: frames already buffered are handed out before the
    // transport is touched, and a read that yields nothing keeps the buffer.
    method ReadOnce(read: ReadResult) returns (r: Read1)
      requires Valid()
      modifies this
      ensures Valid()
      ensures Frames(old(buf)) != [] ==> r.Frame? && received == old(received)
      ensures Frames(old(buf)) == [] ==> received == old(received) + (if read.Got? then read.bytes else [])
      ensures r.Frame? ==> popped == old(popped) + [r.frame]
      ensures !r.Frame? ==> popped == old(popped) && Frames(buf) == []
      ensures r.Closed? <==> Frames(old(buf)) == [] && (read.Eof? || read == Got([]))
      ensures r.Failed? <==> Frames(old(buf)) == [] && read.Fault?
    {
      var first := TakeFrame();
      if first.Some? {
        return Frame(first.value);
      }
      match read
      case Eof => return Closed;
      case Got(bytes) =>
        ExtendFrom(bytes);
        if bytes == [] {
          assert buf == old(buf);
          return Closed;
        }
        var next := TakeFrame();
        return if next.Some? then Frame(next.value) else Pending;
      case Retry => return Pending;
      case Fault => return Failed;
    }

    // Forwards every complete frame in the buffer: data envelopes go to the broker,
    // heartbeats, handshakes and unknown types are skipped.
    method ForwardFrames() returns (forwarded: seq<Envelope>)
      requires Valid()
      modifies this
      ensures Valid() && received == old(received)
      ensures popped == old(popped) + Frames(old(buf)) && buf == Leftover(old(buf))
      ensures forwarded == Forwardable(Frames(old(buf)))
    {
      forwarded := [];
      ghost var taken: seq<Bytes> := [];
      var more := true;
      while more
        invariant Valid() && received == old(received)
        invariant popped == old(popped) + taken
        invariant taken + Frames(buf) == Frames(old(buf)) && Leftover(buf) == Leftover(old(buf))
        invariant forwarded == Forwardable(taken)
        invariant !more ==> Frames(buf) == []
        decreases |buf|, more
      {
        var next := TakeFrame();
        if next.Some? {
          var frame := next.value;
          ForwardableSnoc(taken, frame);
          Associate(taken, [frame], Frames(buf));
          Associate(old(popped), taken, [frame]);
          taken := taken + [frame];
          var e := Decode(frame);
          if e.Some? && !e.value.Heartbeat? && !e.value.Hello? {
            forwarded := forwarded + [e.value];
          }
        } else {
          more := false;
        }
      }
      assert taken + [] == taken;
    }
  }

  function Forwardable(frames: seq<Bytes>): seq<Envelope> {
    if frames == [] then [] else
    var e := Decode(frames[0]);
    (if e.Some? && !e.value.Heartbeat? && !e.value.Hello? then [e.value] else []) + Forwardable(frames[1..])
  }

  lemma {:induction false} ForwardableSnoc(frames: seq<Bytes>, frame: Bytes)
    ensures Forwardable(frames + [frame]) == Forwardable(frames) + Forwardable([frame])
  {
    if frames != [] {
      ForwardableSnoc(frames[1..], frame);
      assert (frames + [frame])[1..] == frames[1..] + [frame];
    } else {
      assert frames + [frame] == [frame];
    }
  }

  function DataEnvelopes(es: seq<Envelope>): seq<Envelope> {
    if es == [] then [] else
    (if es[0].Heartbeat? || es[0].Hello? then [] else [es[0]]) + DataEnvelopes(es[1..])
  }

  // What the broker is handed from a stream is what the peer's broker sent:
  // every data envelope, once, in order.
  lemma {:induction false} ForwardedIsSent(es: seq<Envelope>)
    requires forall e <- es :: Sendable(e)
    ensures Forwardable(Frames(Stream(es))) == DataEnvelopes(es)
    decreases |es|
  {
    if es != [] {
      var rest := Stream(es[1..]);
      assert Sendable(es[0]);
      TakeFramePrefixed(Body(es[0]), rest);
      DecodeBody(es[0]);
      ForwardedIsSent(es[1..]);
      assert TakeFrame(Stream(es)) == Whole(Body(es[0]), rest);
      assert ([Body(es[0])] + Frames(rest))[1..] == Frames(rest);
    }
  }
}
