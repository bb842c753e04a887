// The read half of the C library's session over WebSocket: every read is fed to the
// parser, and unless it ended the session, the decoder's frames go to the broker. The
// reads of the handshake are the first of them: HELLO is a frame like any other that is
// not forwarded, and no other frame is complete before it.
module CSession {
  import opened Bytes
  import opened Protocol
  import opened FrameDecoding
  import opened WebSocket
  import opened WsStreams
  import opened CDecoding
  import opened CWebSocket

  // What the reads carry, parsed as one.
  function Parsed(chunks: seq<Bytes>): Progress {
    Consume(FRESH, Concat(chunks))
  }

  predicate Over(chunks: seq<Bytes>) {
    Parsed(chunks).ws.verdict != Open
  }

  // How many reads leave the session open, from the k-th on.
  function Live(chunks: seq<Bytes>, k: nat): (n: nat)
    requires k <= |chunks|
    ensures k <= n <= |chunks|
    decreases |chunks| - k
  {
    if k == |chunks| || Over(chunks[..k + 1]) then k else Live(chunks, k + 1)
  }

  // The data envelopes complete in these reads.
  function Arrived(chunks: seq<Bytes>): seq<Envelope> {
    Forwardable(Frames(Parsed(chunks).ws.ready))
  }

  // What the broker is handed: the read that ends the session is parsed but not forwarded.
  function Heard(chunks: seq<Bytes>): seq<Envelope> {
    Arrived(chunks[..Live(chunks, 0)])
  }

  lemma {:induction false} ForwardableAppend(a: seq<Bytes>, b: seq<Bytes>)
    ensures Forwardable(a + b) == Forwardable(a) + Forwardable(b)
    decreases |a|
  {
    hide Decode;
    if a == [] {
      assert a + b == b;
    } else {
      assert (a + b)[1..] == a[1..] + b;
      ForwardableAppend(a[1..], b);
    }
  }

  lemma ForwardedMore(before: Bytes, more: Bytes)
    ensures Forwardable(Frames(before + more)) ==
      Forwardable(Frames(before)) + Forwardable(Frames(Leftover(before) + more))
  {
    FramesChunked(before, more);
    ForwardableAppend(Frames(before), Frames(Leftover(before) + more));
    hide Forwardable, Frames, Leftover;
  }

  lemma ReadSnoc(chunks: seq<Bytes>, k: nat)
    requires k < |chunks|
    ensures Concat(chunks[..k + 1]) == Concat(chunks[..k]) + chunks[k]
  {
    assert chunks[..k + 1] == chunks[..k] + [chunks[k]];
    ConcatSnoc(chunks[..k], chunks[k]);
  }

  lemma NothingRead()
    ensures Caught([], [], [], false, true, [])
    ensures Forwardable(Frames([])) == [] && Leftover([]) == []
  {
    CaughtStart();
  }

  // Whether the k-th read ends the session.
  lemma LiveStep(chunks: seq<Bytes>, k: nat)
    requires k < |chunks|
    ensures Live(chunks, k) ==
      if Consume(FRESH, Concat(chunks[..k + 1])).ws.verdict == Open then Live(chunks, k + 1) else k
  {
    hide Consume;
  }

  lemma LiveAll(chunks: seq<Bytes>)
    ensures Live(chunks, |chunks|) == |chunks|
  {
  }

  // Where the session stands when the bytes of `fed`, carrying `payload`, have been served.
  ghost predicate Served(session: WsSession, dec: Decoder, fed: Bytes, payload: Bytes, wire: Bytes,
    forwarded: seq<Envelope>)
    reads session, session.input, session.input.data, session.output, session.output.data, dec, dec.buf
  {
    && session.Separate(dec) && session.output.Contents() == []
    && Caught(fed, payload, wire, session.closeSent, true, session.input.Contents())
    && dec.View() == Leftover(payload) && forwarded == Forwardable(Frames(payload))
  }

  lemma ServedCarries(session: WsSession, dec: Decoder, chunks: seq<Bytes>, payload: Bytes, wire: Bytes,
    forwarded: seq<Envelope>)
    requires Served(session, dec, Concat(chunks), payload, wire, forwarded)
    ensures forwarded == Arrived(chunks)
  {
    hide Consume, Forwardable, Frames;
  }

  // One read: fed, and unless it ended the session, all complete frames forwarded.
  method ServeRead(session: WsSession, dec: Decoder, data: Bytes, ghost fed: Bytes, ghost payload: Bytes,
    ghost wire: Bytes, forwarded: seq<Envelope>)
    returns (ok: bool, more: seq<Envelope>, ghost payload': Bytes, ghost wire': Bytes)
    requires Served(session, dec, fed, payload, wire, forwarded)
    modifies session`closeSent, session.input, session.input.data, session.output, session.output.data, dec, dec.buf
    ensures dec.buf == old(dec.buf) || fresh(dec.buf)
    ensures session.input.data == old(session.input.data) || fresh(session.input.data)
    ensures session.output.data == old(session.output.data) || fresh(session.output.data)
    ensures ok <==> Consume(FRESH, fed + data).ws.verdict == Open
    ensures if ok then Served(session, dec, fed + data, payload', wire', more) else more == forwarded
  {
    hide Consume, WireFrames, Caught, Forwardable, Frames, Leftover;
    ghost var closeSent, rest := session.closeSent, session.input.Contents();
    ghost var p := Consume(Ws([], [], closeSent, Open), rest + data);
    CaughtNext(fed, payload, wire, closeSent, rest, data);
    var sent;
    ok, sent := session.FeedAndFlush(data, dec);
    payload', wire' := payload + p.ws.ready, wire + sent;
    CaughtRest(fed + data, payload', wire', session.closeSent, ok, p.rest, session.input.Contents());
    CaughtMeans(fed + data, payload', wire', session.closeSent, ok, session.input.Contents());
    ForwardedMore(payload, p.ws.ready);
    FramesChunked(payload, p.ws.ready);
    more := forwarded;
    if ok {
      var next := ForwardFrames(dec);
      more := more + next;
    }
  }

  // Read by read, until one ends the session. `k` reads are forwarded.
  method ServeReads(chunks: seq<Bytes>) returns (forwarded: seq<Envelope>, k: nat)
    ensures k == Live(chunks, 0) && forwarded == Heard(chunks)
  {
    NothingRead();
    assert chunks[..0] == [];
    var session := new WsSession();
    var dec := new Decoder();
    ghost var payload: Bytes, wire: Bytes := [], [];
    forwarded, k := [], 0;
    assert Served(session, dec, Concat(chunks[..0]), payload, wire, forwarded) by { hide Caught, Frames, Leftover; }
    hide Served, Live, Consume, Arrived, Concat;
    while k < |chunks|
      invariant k <= |chunks| && Live(chunks, 0) == Live(chunks, k)
      invariant fresh(session) && fresh(dec) && fresh(dec.buf)
      invariant fresh(session.input) && fresh(session.input.data)
      invariant fresh(session.output) && fresh(session.output.data)
      invariant Served(session, dec, Concat(chunks[..k]), payload, wire, forwarded)
    {
      ServedCarries(session, dec, chunks[..k], payload, wire, forwarded);
      ReadSnoc(chunks, k);
      LiveStep(chunks, k);
      var ok;
      ok, forwarded, payload, wire :=
        ServeRead(session, dec, chunks[k], Concat(chunks[..k]), payload, wire, forwarded);
      if !ok {
        return;
      }
      k := k + 1;
    }
    LiveAll(chunks);
    ServedCarries(session, dec, chunks[..k], payload, wire, forwarded);
  }

  // ---- What is lost ----

  // The reads forwarded leave the session open, the next one does not.
  lemma {:induction false} LiveMost(chunks: seq<Bytes>, k: nat)
    requires k <= |chunks| && !Over(chunks[..k])
    ensures var n := Live(chunks, k); !Over(chunks[..n]) && (n < |chunks| ==> Over(chunks[..n + 1]))
    decreases |chunks| - k
  {
    hide Over;
    if k < |chunks| && !Over(chunks[..k + 1]) {
      LiveMost(chunks, k + 1);
    }
  }

  // Payload only grows, and none comes after the session is over.
  lemma ParsedMore(chunks: seq<Bytes>, k: nat)
    requires k <= |chunks|
    ensures Parsed(chunks[..k]).ws.ready <= Parsed(chunks).ws.ready
    ensures Parsed(chunks[..k]).ws.verdict != Open ==> Parsed(chunks).ws == Parsed(chunks[..k]).ws
  {
    ConcatAppend(chunks[..k], chunks[k..]);
    assert chunks == chunks[..k] + chunks[k..];
    ConsumeChunked(FRESH, Concat(chunks[..k]), Concat(chunks[k..]));
    var first := Consume(FRESH, Concat(chunks[..k]));
    ReadyGrows(first.ws, first.rest + Concat(chunks[k..]));
    if first.ws.verdict != Open {
      ConsumeOver(first.ws, first.rest + Concat(chunks[k..]));
    }
    hide Consume;
  }

  // The bytes of payload the read that ends the session brings.
  function LastPayload(chunks: seq<Bytes>): Bytes {
    var k := Live(chunks, 0);
    ParsedMore(chunks, k);
    Parsed(chunks).ws.ready[|Parsed(chunks[..k]).ws.ready|..]
  }

  lemma LastPayloadIs(chunks: seq<Bytes>)
    ensures var k := Live(chunks, 0);
      && Parsed(chunks).ws.ready == Parsed(chunks[..k]).ws.ready + LastPayload(chunks)
      && (k == |chunks| ==> LastPayload(chunks) == [])
  {
    var k := Live(chunks, 0);
    ParsedMore(chunks, k);
    if k == |chunks| {
      assert chunks[..k] == chunks;
    }
    hide Parsed, Live;
    FrontAndRest(Parsed(chunks[..k]).ws.ready, Parsed(chunks).ws.ready);
  }

  lemma FrontAndRest(a: Bytes, b: Bytes)
    requires a <= b
    ensures b == a + b[|a|..]
  {
  }

  // The broker is handed the front of what the peer sent; it is everything if and only if
  // the read that ends the session, if one does, completes no data envelope.
  lemma HeardAll(chunks: seq<Bytes>)
    ensures Live(chunks, 0) == |chunks| ==> LastPayload(chunks) == []
    ensures Heard(chunks) <= Arrived(chunks)
    ensures Heard(chunks) == Arrived(chunks) <==>
      Forwardable(Frames(Leftover(Parsed(chunks[..Live(chunks, 0)]).ws.ready) + LastPayload(chunks))) == []
  {
    hide Parsed, Live, Forwardable, Frames, Leftover, LastPayload;
    LastPayloadIs(chunks);
    ForwardedMore(Parsed(chunks[..Live(chunks, 0)]).ws.ready, LastPayload(chunks));
  }

  // ---- The same bytes, cut in two ways ----

  function Closing(form: Form, mask: Mask, payload: Bytes): Bytes
    requires FormFits(form, |payload|)
  {
    ClientFrame(true, OP_CLOSE, form, mask, payload)
  }

  // A stream of envelopes in any fragmentation, and a close behind it: read apart, the
  // broker is handed every data envelope; read as one, none.
  lemma CutMatters(es: seq<Envelope>, items: seq<Item>, form: Form, mask: Mask, payload: Bytes)
    requires (forall e <- es :: Sendable(e)) && (forall i <- items :: WellFormed(i))
    requires Carried(items) == Stream(es)
    requires FormFits(form, |payload|) && |payload| <= 125
    ensures var data, close := ItemsBytes(items), Closing(form, mask, payload);
      Heard([data, close]) == DataEnvelopes(es) && Heard([data + close]) == []
  {
    var data, close := ItemsBytes(items), Closing(form, mask, payload);
    DataOpen(es, items);
    ClosesAtOnce(items, form, mask, payload);
    HeardTwo(data, close);
    HeardOne(data + close);
    ForwardedIsSent(es);
    NothingRead();
    hide Parsed, ItemsBytes, Closing, Forwardable, Frames, Heard, DataEnvelopes, Stream;
  }

  lemma DataOpen(es: seq<Envelope>, items: seq<Item>)
    requires (forall i <- items :: WellFormed(i)) && Carried(items) == Stream(es)
    ensures var p := Consume(FRESH, ItemsBytes(items)); p.ws.verdict == Open && p.ws.ready == Stream(es)
  {
    hide ItemsBytes, Carried, Stream;
    assert ItemsBytes(items) + [] == ItemsBytes(items);
    ConsumeItems(FRESH, items, []);
    NothingYet(After(FRESH, items));
    hide Consume;
  }

  lemma ClosesAtOnce(items: seq<Item>, form: Form, mask: Mask, payload: Bytes)
    requires forall i <- items :: WellFormed(i)
    requires FormFits(form, |payload|) && |payload| <= 125
    ensures Consume(FRESH, ItemsBytes(items) + Closing(form, mask, payload)).ws.verdict != Open
  {
    var close := Closing(form, mask, payload);
    ClosingHandshake(FRESH, items, form, mask, payload, []);
    assert close + [] == close;
    hide Consume, ItemsBytes, Closing;
  }

  lemma HeardOne(all: Bytes)
    requires Consume(FRESH, all).ws.verdict != Open
    ensures Heard([all]) == Forwardable(Frames([]))
  {
    hide Consume, Forwardable, Frames;
    assert [all][..1] == [all] && [all][..0] == [] && Concat([all]) == all + [] == all;
    assert Consume(FRESH, []) == Progress(FRESH, []) by { NothingYet(FRESH); }
  }

  lemma HeardTwo(data: Bytes, close: Bytes)
    requires Consume(FRESH, data).ws.verdict == Open && Consume(FRESH, data + close).ws.verdict != Open
    ensures Heard([data, close]) == Forwardable(Frames(Consume(FRESH, data).ws.ready))
  {
    hide Consume, Forwardable, Frames;
    var chunks := [data, close];
    assert chunks[..1] == [data] && chunks[..2] == chunks;
    assert Concat([data]) == data + [] == data;
    assert chunks[1..] == [close] && Concat([close]) == close + [] == close;
    assert Concat(chunks) == data + close;
    assert Live(chunks, 0) == Live(chunks, 1) == 1;
  }
}
