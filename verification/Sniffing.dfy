// How the accepting side tells a raw peer from a WebSocket upgrade, and what becomes of
// the bytes read on the way.
module Sniffing {
  import opened Bytes
  import opened WsStreams

  const MAX_REQUEST_BYTES := 8192
  const HEAD_END: Bytes := [13, 10, 13, 10]
  const LETTER_G: byte := 71

  // The first n bytes end a request head.
  predicate EndsHead(s: Bytes, n: nat) {
    4 <= n <= |s| && s[n - 4..n] == HEAD_END
  }

  // ... and no shorter prefix does.
  ghost predicate FirstHead(s: Bytes, n: nat) {
    EndsHead(s, n) && forall m: nat | m < n :: !EndsHead(s, m)
  }

  ghost predicate NoHead(s: Bytes, limit: nat) {
    forall m: nat | m <= limit :: !EndsHead(s, m)
  }

  lemma EndsHeadPrefix(s: Bytes, more: Bytes, n: nat)
    requires n <= |s|
    ensures EndsHead(s + more, n) <==> EndsHead(s, n)
  {
    if n >= 4 {
      assert (s + more)[n - 4..n] == s[n - 4..n];
    }
  }

  // ---- One byte at a time ----

  // read_exact of one byte: the end of the stream and an error look the same.
  method ReadByte(t: Transport) returns (b: Option<byte>)
    modifies t`incoming
    ensures old(t.incoming) == [] ==> b == None && t.incoming == []
    ensures old(t.incoming) != [] ==> b == Some(old(t.incoming)[0]) && t.incoming == old(t.incoming)[1..]
  {
    if t.incoming == [] {
      return None;
    }
    b := Some(t.incoming[0]);
    t.incoming := t.incoming[1..];
  }

  datatype Sniffed = Raw(prefix: Bytes) | Upgrade(request: Bytes) | TooLong | Closed

  // A raw stream keeps its first byte; an upgrade takes exactly the request head, the
  // shortest prefix that ends in an empty line, and never reaches into the first frame.
  // Heads of up to MAX_REQUEST_BYTES + 1 bytes are taken.
  method Sniff(t: Transport) returns (r: Sniffed)
    modifies t`incoming
    ensures var s := old(t.incoming); match r
      case Raw(prefix) => s != [] && s[0] == 0 && prefix + t.incoming == s
      case Upgrade(request) =>
        && s != [] && s[0] == LETTER_G && request + t.incoming == s
        && |request| <= MAX_REQUEST_BYTES + 1 && FirstHead(s, |request|)
      case TooLong => s != [] && s[0] == LETTER_G && |s| > MAX_REQUEST_BYTES && NoHead(s, MAX_REQUEST_BYTES + 1)
      case Closed => s == [] || (s[0] != 0 && (s[0] == LETTER_G ==> |s| <= MAX_REQUEST_BYTES && NoHead(s, |s|)))
  {
    ghost var s := t.incoming;
    var first := ReadByte(t);
    if first.None? {
      return Closed;
    }
    if first.value == 0 {
      return Raw([0]);
    }
    if first.value != LETTER_G {
      return Closed;
    }
    r := ReadHead(t, s);
  }

  method ReadHead(t: Transport, ghost s: Bytes) returns (r: Sniffed)
    requires s != [] && s[0] == LETTER_G && t.incoming == s[1..]
    modifies t`incoming
    ensures r.Upgrade? || r.TooLong? || r.Closed?
    ensures r.Upgrade? ==> r.request + t.incoming == s && FirstHead(s, |r.request|)
    ensures r.Upgrade? ==> |r.request| <= MAX_REQUEST_BYTES + 1
    ensures r.TooLong? ==> |s| > MAX_REQUEST_BYTES && NoHead(s, MAX_REQUEST_BYTES + 1)
    ensures r.Closed? ==> |s| <= MAX_REQUEST_BYTES && NoHead(s, |s|)
  {
    var request: Bytes := [LETTER_G];
    while true
      invariant request + t.incoming == s && 1 <= |request| <= MAX_REQUEST_BYTES && NoHead(s, |request|)
      decreases |t.incoming|
    {
      ghost var rest := t.incoming;
      var b := ReadByte(t);
      if b.None? {
        return Closed;
      }
      Associate(request, [b.value], t.incoming);
      assert rest == [b.value] + t.incoming;
      request := request + [b.value];
      EndsHeadPrefix(request, t.incoming, |request|);
      if EndsHead(request, |request|) {
        return Upgrade(request);
      }
      if |request| > MAX_REQUEST_BYTES {
        return TooLong;
      }
    }
  }

  // The sniffed byte comes back first.
  class Prefixed {
    const inner: Transport
    const prefix: Bytes
    var pos: nat
    ghost var delivered: Bytes

    // Nothing is lost, repeated or reordered.
    ghost predicate Valid(s: Bytes)
      reads this, inner
    {
      pos <= |prefix| && delivered + (prefix[pos..] + inner.incoming) == s
    }

    constructor (prefix: Bytes, inner: Transport)
      ensures this.inner == inner && this.prefix == prefix && Valid(prefix + inner.incoming) && delivered == []
    {
      this.prefix, this.inner, pos, delivered := prefix, inner, 0, [];
    }

    method PollRead(capacity: nat, ghost s: Bytes) returns (r: PollRead)
      requires Valid(s)
      modifies this`pos, this`delivered, inner`incoming, inner`answers
      ensures Valid(s)
      ensures r.Filled? ==> |r.bytes| <= capacity && delivered == old(delivered) + r.bytes
      ensures !r.Filled? ==> delivered == old(delivered) && inner.answers == old(inner.answers) + [r]
      ensures r == Filled([]) && capacity > 0 ==> delivered == s
    {
      ghost var rest := prefix[pos..] + inner.incoming;
      if pos < |prefix| {
        var left := prefix[pos..];
        var n := if |left| < capacity then |left| else capacity;
        r := Filled(left[..n]);
        pos := pos + n;
        assert rest == left[..n] + (prefix[pos..] + inner.incoming);
      } else {
        r := inner.Read(capacity);
        assert r.Filled? ==> rest == r.bytes + (prefix[pos..] + inner.incoming);
      }
      if r.Filled? {
        Associate(delivered, r.bytes, prefix[pos..] + inner.incoming);
        delivered := delivered + r.bytes;
      }
    }
  }

  // ---- The C library: a fixed buffer, read by the chunk ----

  const REQUEST_BUFFER := 8192
  const READ_SIZE := 2048

  datatype HeadRead = Head(end: nat, leftover: Bytes) | NoEnd | Dropped

  // The first place from n on where a head ends.
  function FindFrom(s: Bytes, n: nat): (r: Option<nat>)
    requires n <= |s| + 1
    ensures r.Some? ==> n <= r.value && EndsHead(s, r.value) && forall m: nat | n <= m < r.value :: !EndsHead(s, m)
    ensures r.None? ==> forall m: nat | n <= m :: !EndsHead(s, m)
    decreases |s| + 1 - n
  {
    if n > |s| then None else if EndsHead(s, n) then Some(n) else FindFrom(s, n + 1)
  }

  function HeadOf(s: Bytes): (r: Option<nat>)
    ensures r.Some? ==> FirstHead(s, r.value)
    ensures r.None? ==> NoHead(s, |s|)
  {
    FindFrom(s, 0)
  }

  lemma HeadIs(s: Bytes, n: nat)
    requires FirstHead(s, n)
    ensures HeadOf(s) == Some(n)
  {
  }

  lemma HeadIsNot(s: Bytes)
    requires NoHead(s, |s|)
    ensures HeadOf(s) == None
  {
  }

  // What the buffer holds of the bytes taken from the transport.
  function Clip(taken: Bytes): (req: Bytes)
    ensures |req| <= REQUEST_BUFFER && |req| <= |taken| && req == taken[..|req|]
  {
    if |taken| <= REQUEST_BUFFER then taken else taken[..REQUEST_BUFFER]
  }

  // The sniffed G and the first k chunks.
  function Taken(chunks: seq<Bytes>, k: nat): Bytes
    requires k <= |chunks|
  {
    [LETTER_G] + Concat(chunks[..k])
  }

  // Nothing more is read once the buffer is full or holds the end of a head.
  predicate Enough(taken: Bytes) {
    |taken| >= REQUEST_BUFFER || HeadOf(Clip(taken)).Some?
  }

  // How many chunks are read.
  function Stop(taken: Bytes, chunks: seq<Bytes>): (k: nat)
    ensures k <= |chunks|
    decreases |chunks|
  {
    if Enough(taken) || chunks == [] then 0 else 1 + Stop(taken + chunks[0], chunks[1..])
  }

  function Verdict(taken: Bytes): HeadRead {
    match HeadOf(Clip(taken))
    case Some(end) => Head(end, Clip(taken)[end..])
    case None => if |taken| >= REQUEST_BUFFER then NoEnd else Dropped
  }

  lemma TakenMore(chunks: seq<Bytes>, k: nat)
    requires k < |chunks|
    ensures Taken(chunks, k + 1) == Taken(chunks, k) + chunks[k]
  {
    ConcatSnoc(chunks[..k], chunks[k]);
    assert chunks[..k + 1] == chunks[..k] + [chunks[k]];
    Associate([LETTER_G], Concat(chunks[..k]), chunks[k]);
  }

  // Reading stops at the first chunk that makes it enough.
  lemma {:induction false} StopLeast(chunks: seq<Bytes>, i: nat)
    requires i <= |chunks|
    ensures var k := i + Stop(Taken(chunks, i), chunks[i..]);
      && k <= |chunks| && (k < |chunks| ==> Enough(Taken(chunks, k)))
      && (forall j: nat | i <= j < k :: !Enough(Taken(chunks, j)))
    decreases |chunks| - i
  {
    hide Enough, Taken;
    if i < |chunks| && !Enough(Taken(chunks, i)) {
      TakenMore(chunks, i);
      StopLeast(chunks, i + 1);
      assert chunks[i..][1..] == chunks[i + 1..];
    }
  }

  // Searches the buffer from its start for the end of the head.
  method FindHead(req: Bytes) returns (end: Option<nat>)
    ensures end == HeadOf(req)
  {
    var k := 3;
    while k < |req|
      invariant forall m: nat | m <= k :: !EndsHead(req, m)
    {
      if req[k - 3] == 13 && req[k - 2] == 10 && req[k - 1] == 13 && req[k] == 10 {
        assert req[k + 1 - 4..k + 1] == HEAD_END;
        HeadIs(req, k + 1);
        return Some(k + 1);
      }
      assert k + 1 >= 4 && req[k + 1 - 4..k + 1][0] == req[k - 3] && req[k + 1 - 4..k + 1][1] == req[k - 2];
      assert req[k + 1 - 4..k + 1][2] == req[k - 1] && req[k + 1 - 4..k + 1][3] == req[k];
      k := k + 1;
    }
    HeadIsNot(req);
    return None;
  }

  // Reads chunks behind the sniffed G until the head has ended or the buffer is full;
  // fewer chunks than that mean the peer closed or the time ran out. `k` chunks are read.
  method ReadRequest(chunks: seq<Bytes>) returns (r: HeadRead, k: nat)
    requires forall c <- chunks :: |c| <= READ_SIZE
    ensures k == Stop([LETTER_G], chunks)
    ensures r == Verdict(Taken(chunks, Stop([LETTER_G], chunks)))
  {
    var req: Bytes := [LETTER_G];
    var end: Option<nat> := None;
    k := 0;
    ghost var taken := req;
    TakenNone(chunks);
    assert chunks[0..] == chunks && Clip(req) == req;
    NoHeadYet();
    hide HeadOf, Taken, Stop, Clip, Verdict;
    while end == None && |req| < REQUEST_BUFFER
      invariant k <= |chunks| && taken == Taken(chunks, k) && req == Clip(taken) && end == HeadOf(req)
      invariant Stop([LETTER_G], chunks) == k + Stop(taken, chunks[k..])
      decreases |chunks| - k
    {
      if k == |chunks| {
        ReadEnds(chunks, k);
        return Dropped, k;
      }
      var chunk := chunks[k];
      var n := if |chunk| <= REQUEST_BUFFER - |req| then |chunk| else REQUEST_BUFFER - |req|;
      ReadOn(chunks, k, n);
      taken := taken + chunk;
      req := req + chunk[..n];
      k := k + 1;
      end := FindHead(req);
    }
    ReadEnds(chunks, k);
    r := if end == None then NoEnd else Head(end.value, req[end.value..]);
  }

  // One more chunk, as much of it as there is room for.
  lemma ReadOn(chunks: seq<Bytes>, k: nat, n: nat)
    requires k < |chunks| && !Enough(Taken(chunks, k))
    requires var room := REQUEST_BUFFER - |Clip(Taken(chunks, k))|;
      n == if |chunks[k]| <= room then |chunks[k]| else room
    ensures var taken := Taken(chunks, k);
      && Taken(chunks, k + 1) == taken + chunks[k]
      && Clip(taken + chunks[k]) == Clip(taken) + chunks[k][..n]
      && Stop(taken, chunks[k..]) == 1 + Stop(taken + chunks[k], chunks[k + 1..])
  {
    TakenMore(chunks, k);
    hide HeadOf, Taken;
    assert chunks[k..][1..] == chunks[k + 1..];
  }

  // Nothing more is read when there is nothing left or it is enough.
  lemma ReadEnds(chunks: seq<Bytes>, k: nat)
    requires k <= |chunks| && (k == |chunks| || Enough(Taken(chunks, k)))
    ensures var taken := Taken(chunks, k);
      && Stop(taken, chunks[k..]) == 0
      && Verdict(taken) == match HeadOf(Clip(taken))
          case Some(end) => Head(end, Clip(taken)[end..])
          case None => if |Clip(taken)| == REQUEST_BUFFER then NoEnd else Dropped
  {
    hide HeadOf, Taken;
  }

  lemma NoHeadYet()
    ensures HeadOf([LETTER_G]) == None
  {
  }

  // The head found is the first one of the stream, wherever the chunks were cut. The
  // bytes read behind it reach the WebSocket parser if and only if no more bytes were
  // read than the buffer holds; otherwise exactly those beyond it are lost.
  lemma LeftoverComplete(chunks: seq<Bytes>)
    requires forall c <- chunks :: |c| <= READ_SIZE
    ensures var k := Stop([LETTER_G], chunks); var s := Taken(chunks, k); var r := Verdict(s);
      && (k < |chunks| ==> Settled(s)) && (forall j: nat | j < k :: !Settled(Taken(chunks, j)))
      && |s| < 8192 + 2048
      && (r.Head? <==> exists n: nat :: n <= 8192 && FirstHead(s, n))
      && (r.NoEnd? <==> |s| >= 8192 && NoHead(s, 8192)) && (r.Dropped? <==> |s| < 8192 && NoHead(s, |s|))
      && (r.Head? ==>
            && r.end <= 8192 && FirstHead(s, r.end)
            && (|s| <= 8192 <==> r.leftover == s[r.end..])
            && (|s| > 8192 ==> s[r.end..] == r.leftover + s[8192..]))
  {
    StopsInTime(chunks);
    hide Stop, Taken;
    HeadTaken(Taken(chunks, Stop([LETTER_G], chunks)));
    SettledIsEnough(Taken(chunks, Stop([LETTER_G], chunks)));
    forall j: nat | j < Stop([LETTER_G], chunks) ensures !Settled(Taken(chunks, j)) {
      SettledIsEnough(Taken(chunks, j));
    }
    hide Verdict, FirstHead, NoHead, Enough, Settled;
  }

  // The buffer is full, or a head ends within its 8192 bytes.
  ghost predicate Settled(s: Bytes) {
    |s| >= 8192 || exists n: nat :: n <= 8192 && FirstHead(s, n)
  }

  lemma SettledIsEnough(s: Bytes)
    ensures Settled(s) <==> Enough(s)
  {
    ClipHead(s);
    HeadWithin(s);
    hide HeadOf, FirstHead, NoHead;
  }

  // The buffer's search sees what the bytes read hold in front of its end.
  lemma ClipHead(s: Bytes)
    ensures var h := HeadOf(Clip(s));
      && (h.Some? ==> h.value <= |Clip(s)| && FirstHead(s, h.value))
      && (h.None? ==> NoHead(s, |Clip(s)|))
  {
    HeadsOf(s, Clip(s));
    var h := HeadOf(Clip(s));
    assert h.Some? ==> h.value <= |Clip(s)| by { hide HeadOf; }
    hide EndsHead;
  }

  lemma HeadWithin(s: Bytes)
    ensures (exists n: nat :: n <= 8192 && FirstHead(s, n)) ==> !NoHead(s, |Clip(s)|)
  {
    if n: nat :| n <= 8192 && FirstHead(s, n) {
      assert EndsHead(s, n) && n <= |s|;
    }
  }

  lemma StopsInTime(chunks: seq<Bytes>)
    requires forall c <- chunks :: |c| <= READ_SIZE
    ensures var k := Stop([LETTER_G], chunks);
      && (k < |chunks| ==> Enough(Taken(chunks, k))) && (forall j: nat | j < k :: !Enough(Taken(chunks, j)))
      && |Taken(chunks, k)| < REQUEST_BUFFER + READ_SIZE
  {
    TakenNone(chunks);
    assert chunks[0..] == chunks;
    StopLeast(chunks, 0);
    hide Taken, HeadOf, Stop;
    var k := Stop([LETTER_G], chunks);
    if k > 0 {
      TakenMore(chunks, k - 1);
      assert chunks[k - 1] in chunks && !Enough(Taken(chunks, k - 1));
    }
  }

  lemma HeadTaken(s: Bytes)
    ensures var r := Verdict(s);
      && (r.Head? <==> exists n: nat :: n <= 8192 && FirstHead(s, n))
      && (r.NoEnd? <==> |s| >= 8192 && NoHead(s, 8192)) && (r.Dropped? <==> |s| < 8192 && NoHead(s, |s|))
      && (r.Head? ==>
        && r.end <= 8192 && FirstHead(s, r.end)
        && (|s| <= 8192 <==> r.leftover == s[r.end..])
        && (|s| > 8192 ==> s[r.end..] == r.leftover + s[8192..]))
  {
    ClipHead(s);
    HeadWithin(s);
    NoSecondHead(s);
    hide HeadOf, FirstHead, NoHead;
  }

  lemma NoSecondHead(s: Bytes)
    ensures forall n: nat | FirstHead(s, n) :: forall limit: nat | limit >= n :: !NoHead(s, limit)
  {
  }

  lemma HeadsOf(taken: Bytes, req: Bytes)
    requires |req| <= |taken| && req == taken[..|req|]
    ensures forall n: nat | n <= |req| :: EndsHead(taken, n) <==> EndsHead(req, n)
  {
    assert taken == req + taken[|req|..];
    forall n: nat | n <= |req| ensures EndsHead(taken, n) <==> EndsHead(req, n) {
      EndsHeadPrefix(req, taken[|req|..], n);
    }
  }

  // ---- A request whose first frames are lost ----

  function Filler(n: nat): (s: Bytes)
    ensures |s| == n
  {
    seq(n, _ => 120)
  }

  // A head of 8192 bytes whose last four arrive together with the first frames.
  function LongRequest(frames: Bytes): (chunks: seq<Bytes>)
    ensures |chunks| == 5
  {
    [Filler(2048), Filler(2048), Filler(2048), Filler(2043), HEAD_END + frames]
  }

  lemma TakenLong(frames: Bytes)
    ensures var chunks := LongRequest(frames);
      && Taken(chunks, 0) == [LETTER_G] + Filler(0) && Taken(chunks, 1) == [LETTER_G] + Filler(2048)
      && Taken(chunks, 2) == [LETTER_G] + Filler(4096) && Taken(chunks, 3) == [LETTER_G] + Filler(6144)
      && Taken(chunks, 4) == [LETTER_G] + Filler(8187)
      && Taken(chunks, 5) == [LETTER_G] + Filler(8187) + (HEAD_END + frames)
  {
    var chunks := LongRequest(frames);
    hide Taken;
    assert Taken(chunks, 0) == [LETTER_G] + Filler(0) by { TakenNone(chunks); }
    TakenMore(chunks, 0);
    TakenMore(chunks, 1);
    TakenMore(chunks, 2);
    TakenMore(chunks, 3);
    TakenMore(chunks, 4);
  }

  lemma TakenNone(chunks: seq<Bytes>)
    ensures Taken(chunks, 0) == [LETTER_G]
  {
  }

  lemma FillerHasNoHead(n: nat)
    requires n < REQUEST_BUFFER - 1
    ensures !Enough([LETTER_G] + Filler(n))
  {
    hide HeadOf;
    var s := [LETTER_G] + Filler(n);
    forall m: nat | m <= |s| ensures !EndsHead(s, m) {
      if m >= 4 {
        assert s[m - 4..m][0] == s[m - 4] && (s[m - 4] == LETTER_G || s[m - 4] == 120);
      }
    }
    HeadIsNot(s);
  }

  lemma LongHead()
    ensures FirstHead([LETTER_G] + Filler(8187) + HEAD_END, 8192)
  {
    var s := [LETTER_G] + Filler(8187) + HEAD_END;
    assert s[8188..8192] == HEAD_END;
    forall m: nat | m < 8192 ensures !EndsHead(s, m) {
      if m >= 4 {
        assert s[m - 4..m][0] == s[m - 4] != 13;
      }
    }
  }

  // Every one of these frame bytes is read and thrown away.
  lemma FirstFramesLost(frames: Bytes)
    requires |frames| <= READ_SIZE - 4
    ensures var chunks := LongRequest(frames);
      && (forall c <- chunks :: |c| <= READ_SIZE)
      && |Taken(chunks, Stop([LETTER_G], chunks))| == 8192 + |frames|
      && Taken(chunks, Stop([LETTER_G], chunks))[8192..] == frames
      && Verdict(Taken(chunks, Stop([LETTER_G], chunks))) == Head(8192, [])
  {
    var chunks := LongRequest(frames);
    LongStops(frames);
    TakenLong(frames);
    assert forall c <- chunks :: |c| <= READ_SIZE;
    hide Taken, Stop, LongRequest;
    var s := Taken(chunks, 5);
    LongHead();
    assert s == [LETTER_G] + Filler(8187) + HEAD_END + frames;
    assert Clip(s) == [LETTER_G] + Filler(8187) + HEAD_END;
    hide FirstHead, HeadOf;
    HeadIs(Clip(s), 8192);
  }

  lemma LongStops(frames: Bytes)
    ensures Stop([LETTER_G], LongRequest(frames)) == 5
  {
    var chunks := LongRequest(frames);
    TakenLong(frames);
    FillerHasNoHead(0);
    FillerHasNoHead(2048);
    FillerHasNoHead(4096);
    FillerHasNoHead(6144);
    FillerHasNoHead(8187);
    TakenNone(chunks);
    assert chunks[0..] == chunks;
    StopLeast(chunks, 0);
    hide Taken, Enough, Stop, LongRequest;
  }
}
