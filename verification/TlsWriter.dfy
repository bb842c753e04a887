// One TLS connection shared by threads: the outer `write_sock` lock, the inner `conn`
// lock, and extract-then-write. The TLS library is a bounded outbound queue that turns
// the k-th chunk of plaintext into a record; the socket is a write that may block.
module TlsWriter {
  import opened Bytes

  // The ciphertext of record number n over a chunk of plaintext.
  type Seal = (nat, Bytes) -> Bytes

  // How much of a write the connection takes: as much as its outbound buffer has room for.
  function Accepted(length: nat, used: nat, limit: nat): (k: nat)
    ensures k <= length
    ensures k > 0 <==> length > 0 && used < limit
  {
    var room := if used < limit then limit - used else 0;
    if length < room then length else room
  }

  // ---- One call of write_pending ----

  class Connection {
    const limit: nat
    const seal: Seal
    var outbound: Bytes
    var records: nat
    ghost var plain: Bytes

    constructor (room: nat, cipher: Seal)
      ensures limit == room && seal == cipher && outbound == [] && records == 0 && plain == []
    {
      limit, seal, outbound, records, plain := room, cipher, [], 0, [];
    }

    method Write(buf: Bytes) returns (k: nat)
      modifies this
      ensures k == Accepted(|buf|, |old(outbound)|, limit)
      ensures k == 0 ==> outbound == old(outbound) && records == old(records) && plain == old(plain)
      ensures k > 0 ==> outbound == old(outbound) + seal(old(records), buf[..k])
                        && records == old(records) + 1 && plain == old(plain) + buf[..k]
    {
      k := Accepted(|buf|, |outbound|, limit);
      if k > 0 {
        outbound := outbound + seal(records, buf[..k]);
        records := records + 1;
        plain := plain + buf[..k];
      }
    }

    // Takes some of the queue, as much as the sink likes but something.
    method WriteTls(sink: nat) returns (piece: Bytes)
      requires outbound != []
      modifies this`outbound
      ensures piece != [] && piece + outbound == old(outbound)
    {
      var n := if 0 < sink <= |outbound| then sink else |outbound|;
      piece := outbound[..n];
      outbound := outbound[n..];
    }

    method DrainInto(cipher: Bytes, sink: nat) returns (more: Bytes)
      modifies this`outbound
      ensures outbound == [] && more == cipher + old(outbound)
    {
      more := cipher;
      while outbound != []
        invariant more + outbound == cipher + old(outbound)
        decreases |outbound|
      {
        ghost var before := outbound;
        var piece := WriteTls(sink);
        Associate(more, piece, outbound);
        more := more + piece;
      }
      assert more + [] == more;
    }

    // Encrypts the frame and pulls all pending ciphertext out. It ends for any frame and
    // any positive limit, whatever was queued before; the result is everything that was
    // queued, then the records of the whole frame, in order.
    method Extract(frame: Bytes, sink: nat) returns (cipher: Bytes)
      requires limit > 0
      modifies this
      ensures outbound == [] && plain == old(plain) + frame
      ensures exists chunks: seq<Bytes> ::
        Concat(chunks) == frame && cipher == old(outbound) + SealAll(seal, old(records), chunks)
        && records == old(records) + |chunks|
    {
      cipher := [];
      var off := 0;
      ghost var chunks: seq<Bytes> := [];
      ghost var begun := records;
      assert SealAll(seal, begun, chunks) == [] && frame[..0] == [];
      assert old(outbound) == [] + outbound + [];
      assert Concat(chunks) == [];
      hide SealAll, Accepted, Concat;
      while off < |frame|
        invariant off <= |frame| && plain == old(plain) + frame[..off]
        invariant Concat(chunks) == frame[..off] && records == begun + |chunks|
        invariant cipher + outbound == old(outbound) + SealAll(seal, begun, chunks)
        decreases |frame| - off, |outbound|
      {
        ghost var queued := outbound;
        var k := Write(frame[off..]);
        if k > 0 {
          ghost var chunk := frame[off..][..k];
          assert chunk == frame[off..off + k];
          FedMore(seal, begun, chunks, frame, off, chunk);
          Associate(old(plain), frame[..off], chunk);
          Associate(cipher, queued, seal(begun + |chunks|, chunk));
          Associate(old(outbound), SealAll(seal, begun, chunks), seal(begun + |chunks|, chunk));
          chunks := chunks + [chunk];
        }
        off := off + k;
        cipher := DrainInto(cipher, sink);
        assert cipher + [] == cipher;
      }
      cipher := DrainInto(cipher, sink);
      assert frame[..off] == frame;
    }
  }

  // The records of consecutive chunks, numbered from n.
  function SealAll(seal: Seal, n: nat, chunks: seq<Bytes>): Bytes {
    if chunks == [] then [] else
    SealAll(seal, n, chunks[..|chunks| - 1]) + seal(n + |chunks| - 1, chunks[|chunks| - 1])
  }

  lemma SealAllSnoc(seal: Seal, n: nat, chunks: seq<Bytes>, chunk: Bytes)
    ensures SealAll(seal, n, chunks + [chunk]) == SealAll(seal, n, chunks) + seal(n + |chunks|, chunk)
  {
    assert (chunks + [chunk])[..|chunks|] == chunks;
  }

  lemma FedMore(seal: Seal, n: nat, chunks: seq<Bytes>, frame: Bytes, off: nat, chunk: Bytes)
    requires off + |chunk| <= |frame| && chunk == frame[off..off + |chunk|] && Concat(chunks) == frame[..off]
    ensures frame[..off] + chunk == frame[..off + |chunk|] == Concat(chunks + [chunk])
    ensures SealAll(seal, n, chunks + [chunk]) == SealAll(seal, n, chunks) + seal(n + |chunks|, chunk)
  {
    assert frame[..off] + chunk == frame[..off + |chunk|];
    ConcatSnoc(chunks, chunk);
    SealAllSnoc(seal, n, chunks, chunk);
  }

  // ---- All threads together ----

  // Where a thread stands. An absent frame is an empty one.
  datatype Pc =
    | Idle                  // blocked outside both locks: on the broker's channel or on a read
    | WantSock(frame: Bytes)
    | WantConn(frame: Bytes)
    | Feeding(frame: Bytes, off: nat, cipher: Bytes, draining: bool)
    | Writing(cipher: Bytes)
    | WantRead
    | Decrypting

  // What has been queued: a record over a chunk of plaintext, or the library's own control
  // bytes.
  datatype Piece = Record(chunk: Bytes) | Control(bytes: Bytes)

  datatype Pipe = Pipe(
    threads: seq<Pc>,
    sock: Option<nat>, // holder of write_sock
    conn: Option<nat>, // holder of conn
    outbound: Bytes,
    wire: Bytes,
    broken: bool,      // a socket write has failed
    // history
    records: nat,
    log: Bytes,        // all ciphertext ever queued
    plain: Bytes,      // all plaintext ever encrypted
    pieces: seq<Piece>,
    sent: seq<Bytes>)  // the frames encrypted whole

  datatype Event =
    | Send(t: nat, frame: Bytes)
    | LockSock(t: nat)
    | LockConn(t: nat)
    | Feed(t: nat)
    | Drain(t: nat, n: nat)
    | Release(t: nat)
    | SocketWrite(t: nat, n: nat)
    | SocketFail(t: nat)
    | Unlock(t: nat)
    | Wake(t: nat)
    | LockRead(t: nat)
    | Process(t: nat, control: Bytes)
    | ReadDone(t: nat)

  predicate Enabled(p: Pipe, e: Event) {
    e.t < |p.threads| &&
    var pc := p.threads[e.t];
    match e
    case Send(_, _) => pc.Idle?
    case LockSock(_) => pc.WantSock? && p.sock == None
    case LockConn(_) => pc.WantConn? && p.conn == None
    case Feed(_) => pc.Feeding? && !pc.draining && pc.off < |pc.frame|
    case Drain(_, n) => pc.Feeding? && pc.draining && 0 < n <= |p.outbound|
    case Release(_) => pc.Feeding? && pc.draining && p.outbound == []
    case SocketWrite(_, n) => pc.Writing? && !p.broken && 0 < n <= |pc.cipher|
    case SocketFail(_) => pc.Writing? && pc.cipher != []
    case Unlock(_) => pc.Writing? && pc.cipher == []
    case Wake(_) => pc.Idle?
    case LockRead(_) => pc.WantRead? && p.conn == None
    case Process(_, _) => pc.Decrypting?
    case ReadDone(_) => pc.Decrypting?
  }

  function At(p: Pipe, t: nat, pc: Pc): Pipe
    requires t < |p.threads|
  {
    p.(threads := p.threads[t := pc])
  }

  function Act(p: Pipe, e: Event, seal: Seal, limit: nat): Pipe {
    if !Enabled(p, e) then p else
    var pc := p.threads[e.t];
    match e
    case Send(t, frame) => At(p, t, WantSock(frame))
    case LockSock(t) => At(p, t, WantConn(pc.frame)).(sock := Some(t))
    case LockConn(t) => At(p, t, Feeding(pc.frame, 0, [], pc.frame == [])).(conn := Some(t))
    case Feed(t) => FeedOnce(p, t, seal, limit)
    case Drain(t, n) => At(p, t, pc.(cipher := pc.cipher + p.outbound[..n])).(outbound := p.outbound[n..])
    case Release(t) =>
      if pc.off < |pc.frame| then At(p, t, pc.(draining := false))
      else At(p, t, Writing(pc.cipher)).(conn := None, sent := p.sent + [pc.frame])
    case SocketWrite(t, n) => At(p, t, Writing(pc.cipher[n..])).(wire := p.wire + pc.cipher[..n])
    case SocketFail(t) => At(p, t, Idle).(sock := None, broken := true)
    case Unlock(t) => At(p, t, Idle).(sock := None)
    case Wake(t) => At(p, t, WantRead)
    case LockRead(t) => At(p, t, Decrypting).(conn := Some(t))
    case Process(t, control) =>
      p.(outbound := p.outbound + control, log := p.log + control, pieces := p.pieces + [Control(control)])
    case ReadDone(t) => At(p, t, if p.outbound == [] then Idle else WantSock([])).(conn := None)
  }

  // One writer().write of the rest of the frame; the drain follows.
  function FeedOnce(p: Pipe, t: nat, seal: Seal, limit: nat): Pipe
    requires t < |p.threads| && p.threads[t].Feeding? && p.threads[t].off < |p.threads[t].frame|
  {
    var pc := p.threads[t];
    var k := Accepted(|pc.frame| - pc.off, |p.outbound|, limit);
    var q := At(p, t, pc.(off := pc.off + k, draining := true));
    if k == 0 then q else
    var chunk := pc.frame[pc.off..pc.off + k];
    var record := seal(p.records, chunk);
    q.(outbound := p.outbound + record, log := p.log + record, records := p.records + 1,
       plain := p.plain + chunk, pieces := p.pieces + [Record(chunk)])
  }

  function ActAll(p: Pipe, events: seq<Event>, seal: Seal, limit: nat): Pipe
    decreases |events|
  {
    if events == [] then p else ActAll(Act(p, events[0], seal, limit), events[1..], seal, limit)
  }

  function Begin(threads: nat): Pipe {
    Pipe(seq(threads, _ => Idle), None, None, [], [], false, 0, [], [], [], [])
  }

  // ---- What every step keeps ----

  predicate HoldsSock(pc: Pc) {
    pc.WantConn? || pc.Feeding? || pc.Writing?
  }

  predicate HoldsConn(pc: Pc) {
    pc.Feeding? || pc.Decrypting?
  }

  // The holders are who they say they are: so a thread waiting for `write_sock`, writing
  // to the socket or reading from it never holds `conn`.
  ghost predicate Locks(p: Pipe) {
    && (p.sock.Some? ==> p.sock.value < |p.threads|) && (p.conn.Some? ==> p.conn.value < |p.threads|)
    && (forall t: nat | t < |p.threads| ::
          && (HoldsSock(p.threads[t]) <==> p.sock == Some(t))
          && (HoldsConn(p.threads[t]) <==> p.conn == Some(t))
          && (p.threads[t].Feeding? ==> p.threads[t].off <= |p.threads[t].frame|
                                        && (p.threads[t].off == |p.threads[t].frame| ==> p.threads[t].draining)))
  }

  // The ciphertext the holder of `write_sock` has extracted and not yet written.
  function Extracted(p: Pipe): Bytes {
    if p.sock.Some? && p.sock.value < |p.threads| &&
       (p.threads[p.sock.value].Feeding? || p.threads[p.sock.value].Writing?)
    then p.threads[p.sock.value].cipher else []
  }

  // The part of the frame being fed that is already encrypted.
  function Partial(p: Pipe): Bytes {
    if p.conn.Some? && p.conn.value < |p.threads| && p.threads[p.conn.value].Feeding?
       && p.threads[p.conn.value].off <= |p.threads[p.conn.value].frame|
    then p.threads[p.conn.value].frame[..p.threads[p.conn.value].off] else []
  }

  // Records never reorder: what was queued is what is on the wire, then what the holder
  // of `write_sock` has in hand, then what is still queued. After a failed write the
  // wire is a prefix of it.
  ghost predicate InOrder(p: Pipe) {
    if p.broken then p.wire <= p.log else p.log == p.wire + Extracted(p) + p.outbound
  }

  // Frames are encrypted one after another, never interleaved.
  ghost predicate Whole(p: Pipe) {
    p.plain == Concat(p.sent) + Partial(p)
  }

  function RecordsIn(pieces: seq<Piece>): nat {
    if pieces == [] then 0
    else RecordsIn(pieces[..|pieces| - 1]) + (if pieces[|pieces| - 1].Record? then 1 else 0)
  }

  // The ciphertext of the pieces: records numbered in order, control bytes between them.
  function Rendered(seal: Seal, pieces: seq<Piece>): Bytes {
    if pieces == [] then [] else
    var init, last := pieces[..|pieces| - 1], pieces[|pieces| - 1];
    Rendered(seal, init) + (if last.Record? then seal(RecordsIn(init), last.chunk) else last.bytes)
  }

  function PlainOf(pieces: seq<Piece>): Bytes {
    if pieces == [] then [] else
    PlainOf(pieces[..|pieces| - 1]) + (if pieces[|pieces| - 1].Record? then pieces[|pieces| - 1].chunk else [])
  }

  // The two histories belong together.
  ghost predicate Sealed(p: Pipe, seal: Seal) {
    p.records == RecordsIn(p.pieces) && p.log == Rendered(seal, p.pieces) && p.plain == PlainOf(p.pieces)
  }

  ghost predicate Inv(p: Pipe, seal: Seal) {
    Locks(p) && InOrder(p) && Whole(p) && Sealed(p, seal)
  }

  // Everything about the wire at once: it is, up to what the holder of `write_sock` has in
  // hand and what is still queued, the records of the frames' bytes, numbered in order,
  // with control bytes between them, and the frames follow one another whole.
  ghost predicate OnTheWire(p: Pipe, seal: Seal) {
    && PlainOf(p.pieces) == Concat(p.sent) + Partial(p)
    && p.wire <= Rendered(seal, p.pieces)
    && (!p.broken ==> p.wire + Extracted(p) + p.outbound == Rendered(seal, p.pieces))
  }

  lemma BeginInv(threads: nat, seal: Seal)
    ensures Inv(Begin(threads), seal)
  {
  }

  // Thread t moves to pc; the locks it gains or gives up change hands.
  lemma LocksMove(p: Pipe, t: nat, pc: Pc, sock: Option<nat>, conn: Option<nat>)
    requires Locks(p) && t < |p.threads|
    requires sock == (if HoldsSock(pc) then Some(t) else if HoldsSock(p.threads[t]) then None else p.sock)
    requires conn == (if HoldsConn(pc) then Some(t) else if HoldsConn(p.threads[t]) then None else p.conn)
    requires HoldsSock(pc) ==> HoldsSock(p.threads[t]) || p.sock == None
    requires HoldsConn(pc) ==> HoldsConn(p.threads[t]) || p.conn == None
    requires pc.Feeding? ==> pc.off <= |pc.frame| && (pc.off == |pc.frame| ==> pc.draining)
    ensures Locks(At(p, t, pc).(sock := sock, conn := conn))
  {
  }

  lemma LocksSame(p: Pipe, q: Pipe)
    requires Locks(p) && q.threads == p.threads && q.sock == p.sock && q.conn == p.conn
    ensures Locks(q)
  {
  }

  lemma LocksStep(p: Pipe, e: Event, seal: Seal, limit: nat)
    requires Locks(p)
    ensures Locks(Act(p, e, seal, limit))
  {
    var q := Act(p, e, seal, limit);
    if Enabled(p, e) {
      assert q.threads == p.threads[e.t := q.threads[e.t]];
      LocksMove(p, e.t, q.threads[e.t], q.sock, q.conn);
      LocksSame(At(p, e.t, q.threads[e.t]).(sock := q.sock, conn := q.conn), q);
    }
    hide Locks;
  }

  lemma Regroup(a: Bytes, b: Bytes, n: nat)
    requires n <= |b|
    ensures a + b[..n] + b[n..] == a + b
  {
    assert b[..n] + b[n..] == b;
    Associate(a, b[..n], b[n..]);
  }

  lemma NoTail(a: Bytes)
    ensures a + [] == a
  {
  }

  lemma OrderedStep(p: Pipe, e: Event, seal: Seal, limit: nat)
    requires Locks(p) && InOrder(p)
    ensures InOrder(Act(p, e, seal, limit))
  {
    var q := Act(p, e, seal, limit);
    if Enabled(p, e) {
      var pc := p.threads[e.t];
      match e
      case Feed(t) =>
        Associate(p.wire + Extracted(p), p.outbound,
          seal(p.records, pc.frame[pc.off..pc.off + Accepted(|pc.frame| - pc.off, |p.outbound|, limit)]));
      case Drain(t, n) =>
        Associate(p.wire, pc.cipher, p.outbound[..n]);
        Regroup(p.wire + pc.cipher, p.outbound, n);
      case SocketWrite(t, n) => Regroup(p.wire, pc.cipher, n);
      case Process(t, control) => Associate(p.wire + Extracted(p), p.outbound, control);
      case SocketFail(t) =>
      case Unlock(t) =>
      case Send(_, _) =>
      case LockSock(_) =>
      case LockConn(_) =>
      case Release(_) =>
      case Wake(_) =>
      case LockRead(_) =>
      case ReadDone(_) =>
    }
  }

  lemma WholeFeed(p: Pipe, t: nat, seal: Seal, limit: nat)
    requires Locks(p) && Whole(p) && Enabled(p, Feed(t))
    ensures Whole(FeedOnce(p, t, seal, limit))
  {
    hide Accepted, Locks;
    var pc := p.threads[t];
    assert p.conn == Some(t) && pc.off <= |pc.frame| by { FeedingHolds(p, t); }
    Grown(Concat(p.sent), pc.frame, pc.off, Accepted(|pc.frame| - pc.off, |p.outbound|, limit));
  }

  lemma Grown(before: Bytes, frame: Bytes, off: nat, k: nat)
    requires off + k <= |frame|
    ensures before + frame[..off + k] == before + frame[..off] + frame[off..off + k]
  {
    assert frame[..off] + frame[off..off + k] == frame[..off + k];
    Associate(before, frame[..off], frame[off..off + k]);
  }

  lemma FeedingHolds(p: Pipe, t: nat)
    requires Locks(p) && t < |p.threads| && p.threads[t].Feeding?
    ensures p.conn == Some(t) && p.sock == Some(t) && p.threads[t].off <= |p.threads[t].frame|
  {
  }

  lemma WholeRelease(p: Pipe, t: nat)
    requires Locks(p) && Whole(p) && t < |p.threads| && p.threads[t].Feeding?
      && p.threads[t].off == |p.threads[t].frame|
    ensures Whole(At(p, t, Writing(p.threads[t].cipher)).(conn := None, sent := p.sent + [p.threads[t].frame]))
  {
    var pc := p.threads[t];
    ConcatSnoc(p.sent, pc.frame);
    assert pc.frame[..|pc.frame|] == pc.frame;
    NoTail(Concat(p.sent + [pc.frame]));
  }

  // The feeding thread and how far it has fed are as before.
  lemma WholeSame(p: Pipe, q: Pipe)
    requires Whole(p) && q.plain == p.plain && q.sent == p.sent && Partial(q) == Partial(p)
    ensures Whole(q)
  {
  }

  lemma PartialSame(p: Pipe, e: Event, seal: Seal, limit: nat)
    requires Locks(p) && !e.Feed? && !(e.Release? && Enabled(p, e) && p.threads[e.t].off == |p.threads[e.t].frame|)
    ensures Partial(Act(p, e, seal, limit)) == Partial(p)
  {
  }

  lemma WholeStep(p: Pipe, e: Event, seal: Seal, limit: nat)
    requires Locks(p) && Whole(p)
    ensures Whole(Act(p, e, seal, limit))
  {
    if Enabled(p, e) {
      if e.Feed? {
        WholeFeed(p, e.t, seal, limit);
      } else if e.Release? && p.threads[e.t].off == |p.threads[e.t].frame| {
        WholeRelease(p, e.t);
      } else {
        PartialSame(p, e, seal, limit);
        WholeSame(p, Act(p, e, seal, limit));
      }
    }
    hide Whole, Partial, Locks, FeedOnce;
  }

  lemma SealedSnoc(p: Pipe, seal: Seal, piece: Piece)
    ensures var more := p.pieces + [piece];
      && RecordsIn(more) == RecordsIn(p.pieces) + (if piece.Record? then 1 else 0)
      && Rendered(seal, more) ==
           Rendered(seal, p.pieces) + (if piece.Record? then seal(RecordsIn(p.pieces), piece.chunk) else piece.bytes)
      && PlainOf(more) == PlainOf(p.pieces) + (if piece.Record? then piece.chunk else [])
  {
    assert (p.pieces + [piece])[..|p.pieces|] == p.pieces;
  }

  // The histories have grown by this piece, or not at all.
  ghost predicate Adds(p: Pipe, q: Pipe, seal: Seal, piece: Piece) {
    && q.pieces == p.pieces + [piece]
    && q.records == p.records + (if piece.Record? then 1 else 0)
    && q.log == p.log + (if piece.Record? then seal(p.records, piece.chunk) else piece.bytes)
    && q.plain == p.plain + (if piece.Record? then piece.chunk else [])
  }

  ghost predicate AddsNothing(p: Pipe, q: Pipe) {
    q.pieces == p.pieces && q.records == p.records && q.log == p.log && q.plain == p.plain
  }

  lemma SealedAdds(p: Pipe, q: Pipe, seal: Seal, piece: Piece)
    requires Sealed(p, seal) && Adds(p, q, seal, piece)
    ensures Sealed(q, seal)
  {
    SealedSnoc(p, seal, piece);
    hide Rendered, PlainOf, RecordsIn;
  }

  lemma FeedAdds(p: Pipe, t: nat, seal: Seal, limit: nat)
    requires t < |p.threads| && p.threads[t].Feeding? && p.threads[t].off < |p.threads[t].frame|
    ensures var pc := p.threads[t]; var k := Accepted(|pc.frame| - pc.off, |p.outbound|, limit);
      var q := FeedOnce(p, t, seal, limit);
      if k == 0 then AddsNothing(p, q) else Adds(p, q, seal, Record(pc.frame[pc.off..pc.off + k]))
  {
    hide Accepted;
  }

  lemma OthersAddNothing(p: Pipe, e: Event, seal: Seal, limit: nat)
    requires !Enabled(p, e) || (!e.Feed? && !e.Process?)
    ensures AddsNothing(p, Act(p, e, seal, limit))
  {
    hide FeedOnce;
  }

  lemma SealedStep(p: Pipe, e: Event, seal: Seal, limit: nat)
    requires Sealed(p, seal)
    ensures Sealed(Act(p, e, seal, limit), seal)
  {
    hide Rendered, PlainOf, RecordsIn, Accepted, FeedOnce;
    var q := Act(p, e, seal, limit);
    if Enabled(p, e) && e.Feed? {
      FeedAdds(p, e.t, seal, limit);
      var pc := p.threads[e.t];
      var k := Accepted(|pc.frame| - pc.off, |p.outbound|, limit);
      if k > 0 {
        SealedAdds(p, q, seal, Record(pc.frame[pc.off..pc.off + k]));
      }
    } else if Enabled(p, e) && e.Process? {
      NoTail(p.plain);
      SealedAdds(p, q, seal, Control(e.control));
    } else {
      OthersAddNothing(p, e, seal, limit);
    }
  }

  lemma {:induction false} ActAllInOrder(p: Pipe, events: seq<Event>, seal: Seal, limit: nat)
    requires Inv(p, seal)
    ensures Inv(ActAll(p, events, seal, limit), seal)
    decreases |events|
  {
    hide Locks, InOrder, Whole, Sealed, Act;
    if events != [] {
      LocksStep(p, events[0], seal, limit);
      OrderedStep(p, events[0], seal, limit);
      WholeStep(p, events[0], seal, limit);
      SealedStep(p, events[0], seal, limit);
      ActAllInOrder(Act(p, events[0], seal, limit), events[1..], seal, limit);
    }
  }

  // From the start, in every interleaving of any number of threads.
  lemma AlwaysInOrder(threads: nat, events: seq<Event>, seal: Seal, limit: nat)
    ensures var p := ActAll(Begin(threads), events, seal, limit); Locks(p) && OnTheWire(p, seal)
  {
    BeginInv(threads, seal);
    ActAllInOrder(Begin(threads), events, seal, limit);
    var p := ActAll(Begin(threads), events, seal, limit);
    hide ActAll, Locks, Extracted, Partial, Rendered;
    if !p.broken {
      Associate(p.wire, Extracted(p), p.outbound);
    }
  }

  // ---- Progress ----

  // The thread's next step waits for no lock.
  predicate CanMove(p: Pipe, t: nat) {
    t < |p.threads| &&
    match p.threads[t]
    case Idle => false
    case WantSock(_) => p.sock == None
    case WantConn(_) => p.conn == None
    case WantRead => p.conn == None
    case Feeding(_, _, _, _) => true
    case Decrypting => true
    case Writing(_) => true
  }

  // The locks never deadlock: if any thread is busy, some thread waits for no lock.
  lemma NoDeadlock(p: Pipe, t: nat)
    requires Locks(p) && t < |p.threads| && !p.threads[t].Idle?
    ensures exists u: nat :: CanMove(p, u)
  {
    var pc := p.threads[t];
    if CanMove(p, t) {
    } else if pc.WantSock? && !p.threads[p.sock.value].WantConn? {
      assert CanMove(p, p.sock.value);
    } else if pc.WantSock? && p.conn == None {
      assert CanMove(p, p.sock.value);
    } else {
      assert CanMove(p, p.conn.value);
    }
  }

  // What is left for the holder of `conn` to do before it lets go of it.
  function Left(p: Pipe, t: nat): (nat, nat, nat)
    requires t < |p.threads| && p.threads[t].Feeding? && p.threads[t].off <= |p.threads[t].frame|
  {
    var pc := p.threads[t];
    (|pc.frame| - pc.off, |p.outbound|, if pc.draining == (p.outbound == []) then 1 else 0)
  }

  // Without other threads' help and without the socket, the feeding thread always has a
  // step, and every step it takes brings it nearer to releasing `conn`.
  lemma FeedingFinishes(p: Pipe, e: Event, seal: Seal, limit: nat)
    requires Locks(p) && limit > 0 && e.t < |p.threads| && p.threads[e.t].Feeding?
    ensures exists own: Event :: own.t == e.t && Enabled(p, own)
    ensures var q := Act(p, e, seal, limit);
      Enabled(p, e) ==> q.conn == None || (q.threads[e.t].Feeding? && Shorter(Left(q, e.t), Left(p, e.t)))
  {
    var pc := p.threads[e.t];
    assert Enabled(p, if !pc.draining then Feed(e.t)
      else if p.outbound == [] then Release(e.t) else Drain(e.t, |p.outbound|));
  }

  predicate Shorter(a: (nat, nat, nat), b: (nat, nat, nat)) {
    a.0 < b.0 || (a.0 == b.0 && (a.1 < b.1 || (a.1 == b.1 && a.2 < b.2)))
  }
}
