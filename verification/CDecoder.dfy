// The decoder of the C library: one array with a read cursor and a write cursor,
// compacted and doubled in place.
module CDecoding {
  import opened Bytes
  import opened Protocol
  import opened FrameDecoding

  const INITIAL_CAPACITY := 4096

  class Decoder {
    var buf: array<byte>
    var head: nat
    var tail: nat

    ghost predicate Valid()
      reads this
    {
      head <= tail <= buf.Length
    }

    // The bytes pushed and not yet popped.
    ghost function View(): Bytes
      requires Valid()
      reads this, buf
    {
      buf[head..tail]
    }

    constructor ()
      ensures Valid() && View() == [] && fresh(buf)
    {
      buf := new byte[0];
      head, tail := 0, 0;
    }

    // Moves the unread bytes to the front of the array.
    method Compact()
      requires Valid()
      modifies this, buf
      ensures Valid() && buf == old(buf) && View() == old(View())
      ensures head == 0 && tail == old(tail) - old(head)
    {
      var used := tail - head;
      if head > 0 {
        ghost var view := View();
        forall i | 0 <= i < used {
          buf[i] := buf[head + i];
        }
        assert buf[0..used] == view;
        head := 0;
        tail := used;
      }
    }

    // Doubles the capacity until n more bytes fit behind `tail`.
    method Grow(n: nat)
      requires Valid() && head == 0
      modifies this
      ensures Valid() && View() == old(View()) && head == 0 && tail == old(tail)
      ensures fresh(buf) && buf.Length - tail >= n
      ensures buf.Length < 2 * (tail + n) || buf.Length == old(buf.Length) || buf.Length == INITIAL_CAPACITY
    {
      var cap := if buf.Length != 0 then buf.Length else INITIAL_CAPACITY;
      while cap - tail < n
        invariant cap >= 1 && cap >= buf.Length
        invariant cap < 2 * (tail + n) || cap == buf.Length || cap == INITIAL_CAPACITY
        decreases tail + n - cap
      {
        cap := cap * 2;
      }
      var grown := new byte[cap];
      forall i | 0 <= i < tail {
        grown[i] := buf[i];
      }
      assert grown[0..tail] == View();
      buf := grown;
    }

    method Push(bytes: Bytes)
      requires Valid()
      modifies this, buf
      ensures Valid() && (buf == old(buf) || fresh(buf))
      ensures View() == old(View()) + bytes
    {
      var n := |bytes|;
      if buf.Length - tail < n {
        Compact();
        if buf.Length - tail < n {
          Grow(n);
        }
      }
      CopyIn(bytes);
    }

    method CopyIn(bytes: Bytes)
      requires Valid() && buf.Length - tail >= |bytes|
      modifies this`tail, buf
      ensures Valid() && View() == old(View()) + bytes
    {
      ghost var view := View();
      forall i | 0 <= i < |bytes| {
        buf[tail + i] := bytes[i];
      }
      assert buf[tail..tail + |bytes|] == bytes;
      assert buf[head..tail] == view;
      tail := tail + |bytes|;
    }

    // Points at the next envelope and advances the read cursor; moves no bytes.
    method Pop() returns (r: Option<Bytes>)
      requires Valid()
      modifies this`head
      ensures Valid()
      ensures match TakeFrame(old(View()))
              case Incomplete => r == None && View() == old(View())
              case Whole(frame, rest) => r == Some(frame) && View() == rest
    {
      var avail := tail - head;
      ghost var view := View();
      if avail < 4 {
        return None;
      }
      FromBigEndian4(view[..4]);
      assert view[0] == buf[head] && view[1] == buf[head + 1];
      assert view[2] == buf[head + 2] && view[3] == buf[head + 3];
      var flen := Shifted4(buf[head], buf[head + 1], buf[head + 2], buf[head + 3]);
      if avail < 4 + flen {
        return None;
      }
      var env := buf[head + 4..head + 4 + flen];
      assert env == view[4..4 + flen];
      head := head + 4 + flen;
      assert View() == view[4 + flen..];
      return Some(env);
    }
  }

  // Pops every complete envelope.
  method Drain(d: Decoder) returns (envelopes: seq<Bytes>)
    requires d.Valid()
    modifies d`head
    ensures d.Valid()
    ensures envelopes == Frames(old(d.View())) && d.View() == Leftover(old(d.View()))
  {
    hide Frames, Leftover, TakeFrame;
    envelopes := [];
    FramesStep(d.View());
    var next := d.Pop();
    while next.Some?
      invariant d.Valid()
      invariant next.Some? ==> envelopes + [next.value] + Frames(d.View()) == Frames(old(d.View()))
      invariant next.Some? ==> Leftover(d.View()) == Leftover(old(d.View()))
      invariant next.None? ==> envelopes == Frames(old(d.View())) && d.View() == Leftover(old(d.View()))
      decreases next.Some?, |d.View()|
    {
      envelopes := envelopes + [next.value];
      FramesStep(d.View());
      ghost var before := d.View();
      next := d.Pop();
      if next.Some? {
        Associate(envelopes, [next.value], Frames(d.View()));
      }
    }
  }

  // Pops every complete envelope and forwards it, skipping what does not parse, heartbeats
  // and handshakes.
  method ForwardFrames(d: Decoder) returns (forwarded: seq<Envelope>)
    requires d.Valid()
    modifies d`head
    ensures d.Valid()
    ensures forwarded == Forwardable(Frames(old(d.View()))) && d.View() == Leftover(old(d.View()))
  {
    hide Frames, Leftover, TakeFrame, Forwardable;
    forwarded := [];
    ghost var taken: seq<Bytes> := [];
    assert Forwardable(taken) == [] by { NothingForwarded(); }
    FramesStep(d.View());
    var next := d.Pop();
    while next.Some?
      invariant d.Valid() && forwarded == Forwardable(taken)
      invariant next.Some? ==> taken + [next.value] + Frames(d.View()) == Frames(old(d.View()))
      invariant next.Some? ==> Leftover(d.View()) == Leftover(old(d.View()))
      invariant next.None? ==> taken == Frames(old(d.View())) && d.View() == Leftover(old(d.View()))
      decreases next.Some?, |d.View()|
    {
      ForwardableSnoc(taken, next.value);
      ForwardOne(next.value);
      taken := taken + [next.value];
      var e := Decode(next.value);
      if e.Some? && !e.value.Heartbeat? && !e.value.Hello? {
        forwarded := forwarded + [e.value];
      }
      FramesStep(d.View());
      next := d.Pop();
      if next.Some? {
        Associate(taken, [next.value], Frames(d.View()));
      }
    }
  }

  lemma NothingForwarded()
    ensures Forwardable([]) == []
  {
  }

  lemma ForwardOne(frame: Bytes)
    ensures var e := Decode(frame);
      Forwardable([frame]) == if e.Some? && !e.value.Heartbeat? && !e.value.Hello? then [e.value] else []
  {
    hide Decode;
    assert [frame][1..] == [];
  }

  // Pushes the chunks one after the other, popping every complete envelope after
  // each: however a stream is cut, exactly its frames come out.
  method Reassemble(chunks: seq<Bytes>) returns (envelopes: seq<Bytes>, rest: Bytes)
    ensures envelopes == Frames(Concat(chunks))
    ensures rest == Leftover(Concat(chunks))
  {
    assert Frames([]) == [] && Leftover([]) == [];
    hide Frames, Leftover, TakeFrame;
    var d := new Decoder();
    envelopes := [];
    for k := 0 to |chunks|
      invariant d.Valid() && fresh(d) && fresh(d.buf)
      invariant envelopes == Frames(Concat(chunks[..k])) && d.View() == Leftover(Concat(chunks[..k]))
    {
      d.Push(chunks[k]);
      FramesChunked(Concat(chunks[..k]), chunks[k]);
      ConcatSnoc(chunks[..k], chunks[k]);
      assert chunks[..k + 1] == chunks[..k] + [chunks[k]];
      var more := Drain(d);
      envelopes := envelopes + more;
    }
    assert chunks[..|chunks|] == chunks;
    rest := d.buf[d.head..d.tail];
  }
}
