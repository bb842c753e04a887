// The C broker's pending messages: a linked list, swept through a pointer to the link
// that leads to the current node while resends push new nodes onto the same list.
module CSweep {
  import opened Bytes
  import opened Protocol
  import opened Broker
  import opened Deadlines

  datatype Entry = Entry(id: MsgId, msg: Message, retries: nat, deadline: nat)

  // ---- What a sweep at `now` comes to ----

  function Expired(es: seq<Entry>, now: nat): seq<Entry> {
    if es == [] then []
    else Expired(es[..|es| - 1], now) + (if es[|es| - 1].deadline <= now then [es[|es| - 1]] else [])
  }

  function Alive(es: seq<Entry>, now: nat): seq<Entry> {
    if es == [] then []
    else Alive(es[..|es| - 1], now) + (if es[|es| - 1].deadline <= now then [] else [es[|es| - 1]])
  }

  function Retried(es: seq<Entry>): seq<Entry> {
    if es == [] then []
    else Retried(es[..|es| - 1]) + (if es[|es| - 1].retries > 0 then [es[|es| - 1]] else [])
  }

  // The messages of the entries with retries left.
  function RetriedMessages(es: seq<Entry>): seq<Message> {
    if es == [] then []
    else RetriedMessages(es[..|es| - 1]) + (if es[|es| - 1].retries > 0 then [es[|es| - 1].msg] else [])
  }

  function Reversed<T>(s: seq<T>): seq<T> {
    if s == [] then [] else Reversed(s[1..]) + [s[0]]
  }

  lemma {:induction false} ReversedSnoc<T>(s: seq<T>, x: T)
    ensures Reversed(s + [x]) == [x] + Reversed(s)
  {
    if s == [] {
      assert ([] + [x])[1..] == [];
    } else {
      assert (s + [x])[1..] == s[1..] + [x];
      ReversedSnoc(s[1..], x);
    }
  }

  // Every entry is either handled or kept, and each list keeps its order.
  lemma {:induction false} SweepSplits(es: seq<Entry>, now: nat)
    ensures multiset(es) == multiset(Expired(es, now)) + multiset(Alive(es, now))
    ensures forall e <- Expired(es, now) :: e.deadline <= now
    ensures forall e <- Alive(es, now) :: e.deadline > now
    decreases |es|
  {
    if es != [] {
      SweepSplits(es[..|es| - 1], now);
      assert es == es[..|es| - 1] + [es[|es| - 1]];
    }
  }

  lemma ExpiredSnoc(es: seq<Entry>, e: Entry, now: nat)
    ensures Expired(es + [e], now) == Expired(es, now) + (if e.deadline <= now then [e] else [])
    ensures Alive(es + [e], now) == Alive(es, now) + (if e.deadline <= now then [] else [e])
  {
    assert (es + [e])[..|es|] == es;
  }

  lemma RetriedSnoc(es: seq<Entry>, e: Entry)
    ensures Retried(es + [e]) == Retried(es) + (if e.retries > 0 then [e] else [])
    ensures RetriedMessages(es + [e]) == RetriedMessages(es) + (if e.retries > 0 then [e.msg] else [])
  {
    assert (es + [e])[..|es|] == es;
  }

  // The ids drawn and the clock, from the k-th draw and reading on.
  datatype Source = Source(ids: nat -> MsgId, clock: Clock)

  // The entries the resends create, in the order they are created.
  function Renewed(es: seq<Entry>, src: Source, drawn: nat, readings: nat): (r: seq<Entry>)
    ensures |r| == |es|
  {
    seq(|es|, i requires 0 <= i < |es| =>
      Entry(src.ids(drawn + i), es[i].msg, if es[i].retries > 0 then es[i].retries - 1 else 0,
            src.clock(readings + i) + RESEND_TIMEOUT))
  }

  lemma RenewedSnoc(es: seq<Entry>, e: Entry, src: Source, drawn: nat, readings: nat)
    ensures Renewed(es + [e], src, drawn, readings) ==
      Renewed(es, src, drawn, readings)
      + [Entry(src.ids(drawn + |es|), e.msg, if e.retries > 0 then e.retries - 1 else 0,
               src.clock(readings + |es|) + RESEND_TIMEOUT)]
  {
  }

  function Requests(es: seq<Entry>): (r: seq<Envelope>)
    ensures |r| == |es|
  {
    seq(|es|, i requires 0 <= i < |es| => DataReq(es[i].id, es[i].msg.data))
  }

  function RequestsAmong(es: seq<Envelope>): seq<Envelope> {
    if es == [] then [] else
    RequestsAmong(es[..|es| - 1]) + (if es[|es| - 1].DataReq? then [es[|es| - 1]] else [])
  }

  lemma RequestsAmongSnoc(es: seq<Envelope>, e: Envelope)
    ensures RequestsAmong(es + [e]) == RequestsAmong(es) + (if e.DataReq? then [e] else [])
  {
    assert (es + [e])[..|es|] == es;
  }

  // ---- The list ----

  class Node {
    const entry: Entry
    var next: Node?

    constructor (e: Entry, after: Node?)
      ensures entry == e && next == after
    {
      entry, next := e, after;
    }
  }

  function EntriesOf(nodes: seq<Node>): (es: seq<Entry>)
    ensures |es| == |nodes|
  {
    seq(|nodes|, i requires 0 <= i < |nodes| => nodes[i].entry)
  }

  // The node behind index i.
  function After(nodes: seq<Node>, i: int): Node? {
    if 0 <= i + 1 < |nodes| then nodes[i + 1] else null
  }

  ghost predicate Chained(head: Node?, nodes: seq<Node>)
    reads nodes
  {
    && head == (if nodes == [] then null else nodes[0])
    && (forall i, j | 0 <= i < j < |nodes| :: nodes[i] != nodes[j])
    && (forall i | 0 <= i < |nodes| :: nodes[i].next == After(nodes, i))
  }

  lemma Relinked(was: seq<Node>, i: nat)
    requires i < |was| && forall j, k | 0 <= j < k < |was| :: was[j] != was[k]
    ensures var now := was[..i] + was[i + 1..];
      && (forall k | 0 <= k < |now| :: now[k] == was[if k < i then k else k + 1])
      && (forall j, k | 0 <= j < k < |now| :: now[j] != now[k])
  {
  }

  class CBroker {
    const sendMode: SendMode
    const delivery: Delivery
    const src: Source
    var pendingHead: Node?
    var nconns: nat
    var buffer: seq<Message>
    var routed: seq<Envelope>
    var drawn: nat
    var readings: nat

    ghost var nodes: seq<Node>
    ghost var handled: seq<Entry>

    // Only tracked messages are on the list, and nothing is buffered while anyone is connected.
    ghost predicate Valid()
      reads this, nodes
    {
      && Chained(pendingHead, nodes) && (forall n <- nodes :: Tracks(n.entry.msg.target))
      && (nconns > 0 ==> buffer == [])
    }

    // Acknowledged and resent: at least once, to one peer.
    predicate Tracks(target: Option<Identity>) {
      delivery == AtLeastOnce && (target.Some? || sendMode == RoundRobin)
    }

    ghost function Entries(): seq<Entry>
      reads this
    {
      EntriesOf(nodes)
    }

    constructor (mode: SendMode, guarantee: Delivery, source: Source)
      ensures sendMode == mode && delivery == guarantee && src == source
      ensures Valid() && Entries() == [] && buffer == [] && routed == [] && handled == [] && nconns == 0
    {
      sendMode, delivery := mode, guarantee;
      src, pendingHead, nconns, buffer, routed, drawn, readings := source, null, 0, [], [], 0, 0;
      nodes, handled := [], [];
    }

    method Now() returns (now: nat)
      modifies this`readings
      ensures now == src.clock(old(readings)) && readings == old(readings) + 1
    {
      now := src.clock(readings);
      readings := readings + 1;
    }

    // Pushes at the head.
    method Push(e: Entry)
      requires Valid() && Tracks(e.msg.target)
      modifies this`pendingHead, this`nodes
      ensures Valid() && |nodes| == |old(nodes)| + 1 && nodes[1..] == old(nodes) && fresh(nodes[0])
      ensures nodes[0].entry == e
    {
      var p := new Node(e, pendingHead);
      pendingHead := p;
      nodes := [p] + nodes;
      ghost var was := old(nodes);
      assert nodes[1..] == was;
      forall i | 0 <= i < |nodes| ensures nodes[i].next == After(nodes, i) {
        if i > 0 {
          assert nodes[i] == was[i - 1];
          assert was[i - 1].next == old(was[i - 1].next) == After(was, i - 1);
        }
      }
    }

    // Takes the node behind `link` out; a null link is the head pointer itself.
    method Unlink(ghost i: nat, link: Node?, p: Node)
      requires Valid() && i < |nodes| && p == nodes[i]
      requires link == if i == 0 then null else nodes[i - 1]
      modifies this`pendingHead, this`nodes, if link == null then {} else {link}
      ensures Valid() && nodes == old(nodes)[..i] + old(nodes)[i + 1..] && BooksNow() == old(BooksNow())
    {
      if link == null {
        pendingHead := p.next;
      } else {
        link.next := p.next;
      }
      nodes := nodes[..i] + nodes[i + 1..];
      ghost var was := old(nodes);
      Relinked(was, i);
      forall k | 0 <= k < |nodes| ensures nodes[k].next == After(nodes, k) {
        ghost var k' := if k < i then k else k + 1;
        assert nodes[k] == was[k'];
        assert old(was[k'].next) == After(was, k');
      }
    }

    // A fresh id and deadline, a new entry in front, and the request routed.
    method Track(msg: Message, retries: nat)
      requires Valid() && Tracks(msg.target)
      modifies this`pendingHead, this`nodes, this`routed, this`drawn, this`readings
      ensures Valid() && Tracked(old(nodes), old(BooksNow()), msg, retries) && fresh(nodes[0])
    {
      hide Chained, EntriesOf, Tracks;
      var id := src.ids(drawn);
      drawn := drawn + 1;
      var now := Now();
      Push(Entry(id, msg, retries, now + RESEND_TIMEOUT));
      routed := routed + [DataReq(id, msg.data)];
    }

    ghost predicate Tracked(was: seq<Node>, b: Books, msg: Message, retries: nat)
      reads this
    {
      && |nodes| == |was| + 1 && nodes[1..] == was
      && nodes[0].entry == Entry(src.ids(b.drawn), msg, retries, src.clock(b.readings) + RESEND_TIMEOUT)
      && BooksNow() == b.(routed := b.routed + [DataReq(src.ids(b.drawn), msg.data)], drawn := b.drawn + 1,
                          readings := b.readings + 1)
    }

    // Plain data leaves no trace on the list; everything else is tracked.
    method Transmit(msg: Message, retries: nat)
      requires Valid()
      modifies this`pendingHead, this`nodes, this`routed, this`drawn, this`readings
      ensures Valid()
      ensures delivery == AtLeastOnce && (msg.target.Some? || sendMode == RoundRobin) ==>
        Tracked(old(nodes), old(BooksNow()), msg, retries) && fresh(nodes[0])
      ensures !(delivery == AtLeastOnce && (msg.target.Some? || sendMode == RoundRobin)) ==>
        nodes == old(nodes) && BooksNow() == old(BooksNow()).(routed := old(routed) + [Data(msg.data)])
    {
      if Tracks(msg.target) {
        Track(msg, retries);
      } else {
        routed := routed + [Data(msg.data)];
      }
    }

    // broker_send.
    method Submit(msg: Message)
      requires Valid()
      modifies this`pendingHead, this`nodes, this`routed, this`drawn, this`readings, this`buffer
      ensures Valid()
      ensures nconns == 0 ==>
        nodes == old(nodes) && BooksNow() == old(BooksNow()).(buffer := old(buffer) + [msg])
      ensures nconns > 0 && delivery == AtLeastOnce && (msg.target.Some? || sendMode == RoundRobin) ==>
        Tracked(old(nodes), old(BooksNow()), msg, 5)
      ensures nconns > 0 && !(delivery == AtLeastOnce && (msg.target.Some? || sendMode == RoundRobin)) ==>
        nodes == old(nodes) && BooksNow() == old(BooksNow()).(routed := old(routed) + [Data(msg.data)])
    {
      if nconns > 0 {
        Transmit(msg, MAX_RETRIES);
      } else {
        Buffer(msg);
      }
    }

    function TrackedOnly(msgs: seq<Message>): (r: seq<Message>)
    {
      if msgs == [] then [] else
      TrackedOnly(msgs[..|msgs| - 1]) + (if Tracks(msgs[|msgs| - 1].target) then [msgs[|msgs| - 1]] else [])
    }

    // The entries for a flushed backlog, in the order they are made.
    function Begun(msgs: seq<Message>, drawn: nat, readings: nat): (es: seq<Entry>) {
      var ms := TrackedOnly(msgs);
      seq(|ms|, i requires 0 <= i < |ms| =>
        Entry(src.ids(drawn + i), ms[i], MAX_RETRIES, src.clock(readings + i) + RESEND_TIMEOUT))
    }

    // What is routed for it.
    function Framed(msgs: seq<Message>, drawn: nat): (es: seq<Envelope>)
      ensures |es| == |msgs|
    {
      if msgs == [] then [] else
      var init, last := msgs[..|msgs| - 1], msgs[|msgs| - 1];
      Framed(init, drawn)
      + [if Tracks(last.target) then DataReq(src.ids(drawn + |TrackedOnly(init)|), last.data) else Data(last.data)]
    }

    lemma BacklogSnoc(msgs: seq<Message>, m: Message, drawn: nat, readings: nat)
      ensures TrackedOnly(msgs + [m]) == TrackedOnly(msgs) + (if Tracks(m.target) then [m] else [])
      ensures Begun(msgs + [m], drawn, readings) == Begun(msgs, drawn, readings)
        + (if Tracks(m.target)
           then [Entry(src.ids(drawn + |TrackedOnly(msgs)|), m, MAX_RETRIES,
                       src.clock(readings + |TrackedOnly(msgs)|) + RESEND_TIMEOUT)]
           else [])
      ensures Framed(msgs + [m], drawn) == Framed(msgs, drawn)
        + [if Tracks(m.target) then DataReq(src.ids(drawn + |TrackedOnly(msgs)|), m.data) else Data(m.data)]
    {
      assert (msgs + [m])[..|msgs|] == msgs;
    }

    lemma {:induction false} BacklogFrames(msgs: seq<Message>, drawn: nat, k: nat)
      requires k < |msgs|
      ensures var f := Framed(msgs, drawn)[k];
        (f.DataReq? <==> Tracks(msgs[k].target)) && (f.DataReq? || f.Data?) && f.payload == msgs[k].data
      decreases |msgs|
    {
      hide TrackedOnly, Tracks;
      if k < |msgs| - 1 {
        BacklogFrames(msgs[..|msgs| - 1], drawn, k);
      }
    }

    lemma {:induction false} BacklogRequests(msgs: seq<Message>, drawn: nat, readings: nat)
      ensures RequestsAmong(Framed(msgs, drawn)) == Requests(Begun(msgs, drawn, readings))
      decreases |msgs|
    {
      if msgs != [] {
        var init, last := msgs[..|msgs| - 1], msgs[|msgs| - 1];
        assert msgs == init + [last];
        BacklogRequests(init, drawn, readings);
        BacklogSnoc(init, last, drawn, readings);
        RequestsAmongSnoc(Framed(init, drawn), Framed(msgs, drawn)[|init|]);
        hide Framed, Begun, TrackedOnly, RequestsAmong, Tracks;
      }
    }

    lemma BegunEntries(msgs: seq<Message>, drawn: nat, readings: nat)
      ensures forall i | 0 <= i < |Begun(msgs, drawn, readings)| ::
        var e := Begun(msgs, drawn, readings)[i];
        e.retries == 5 && e.deadline == src.clock(readings + i) + 5000 && e.id == src.ids(drawn + i)
    {
    }

    // The whole backlog goes out, in order and once: every message under its own payload,
    // as a request exactly if it is sent at least once to one peer; the requests among the
    // frames are those of the entries, and every entry has its full budget and time.
    lemma BacklogSent(msgs: seq<Message>, drawn: nat, readings: nat)
      ensures forall k | 0 <= k < |msgs| ::
        var f := Framed(msgs, drawn)[k];
        && (f.DataReq? <==> delivery == AtLeastOnce && (msgs[k].target.Some? || sendMode == RoundRobin))
        && (f.DataReq? || f.Data?) && f.payload == msgs[k].data
      ensures RequestsAmong(Framed(msgs, drawn)) == Requests(Begun(msgs, drawn, readings))
      ensures forall i | 0 <= i < |Begun(msgs, drawn, readings)| ::
        var e := Begun(msgs, drawn, readings)[i];
        e.retries == 5 && e.deadline == src.clock(readings + i) + 5000 && e.id == src.ids(drawn + i)
    {
      BacklogRequests(msgs, drawn, readings);
      BegunEntries(msgs, drawn, readings);
      hide Framed, Begun, TrackedOnly, RequestsAmong, Requests;
      forall k | 0 <= k < |msgs|
        ensures var f := Framed(msgs, drawn)[k];
          (f.DataReq? <==> Tracks(msgs[k].target)) && (f.DataReq? || f.Data?) && f.payload == msgs[k].data
      {
        BacklogFrames(msgs, drawn, k);
      }
    }

    // Where a broker stands that has flushed these messages since `b` and `es`.
    ghost predicate Flushed(msgs: seq<Message>, b: Books, es: seq<Entry>)
      reads this
    {
      && Entries() == Reversed(Begun(msgs, b.drawn, b.readings)) + es
      && BooksNow() == b.(routed := b.routed + Framed(msgs, b.drawn), drawn := b.drawn + |TrackedOnly(msgs)|,
                          readings := b.readings + |TrackedOnly(msgs)|)
    }

    // broker_up: a duplicate changes nothing; for any other connection the whole backlog
    // is transmitted, newest entry in front.
    method ConnUp(duplicate: bool) returns (accepted: bool)
      requires Valid()
      modifies this
      ensures Valid() && accepted == !duplicate && nconns == old(nconns) + (if duplicate then 0 else 1)
      ensures duplicate ==> nodes == old(nodes) && BooksNow() == old(BooksNow())
      ensures !duplicate ==>
        Flushed(old(buffer), old(BooksNow()).(buffer := [], connected := true), old(Entries()))
    {
      accepted := !duplicate;
      if duplicate {
        return;
      }
      nconns := nconns + 1;
      var backlog := buffer;
      buffer := [];
      ghost var b, es := BooksNow(), Entries();
      assert backlog[..0] == [] && Flushed([], b, es);
      hide Flushed, Chained, EntriesOf, BooksNow;
      for k := 0 to |backlog|
        invariant Valid() && nconns == old(nconns) + 1 && Flushed(backlog[..k], b, es)
      {
        assert backlog[..k + 1] == backlog[..k] + [backlog[k]];
        FlushOne(backlog[..k], backlog[k], b, es);
      }
      assert backlog[..|backlog|] == backlog;
    }

    method FlushOne(ghost done: seq<Message>, m: Message, ghost b: Books, ghost es: seq<Entry>)
      requires Valid() && nconns > 0 && Flushed(done, b, es)
      modifies this`pendingHead, this`nodes, this`routed, this`drawn, this`readings, this`buffer
      ensures Valid() && Flushed(done + [m], b, es)
    {
      BacklogSnoc(done, m, b.drawn, b.readings);
      ghost var begun := Begun(done, b.drawn, b.readings);
      ghost var was := Entries();
      hide Chained, EntriesOf, Framed, Begun, TrackedOnly, Reversed;
      Submit(m);
      if Tracks(m.target) {
        assert nodes == [nodes[0]] + nodes[1..];
        EntriesCons(nodes[0], nodes[1..]);
        ReversedSnoc(begun, nodes[0].entry);
        Associate([nodes[0].entry], Reversed(begun), es);
        Associate(b.routed, Framed(done, b.drawn), [DataReq(nodes[0].entry.id, m.data)]);
      } else {
        assert begun + [] == begun;
        Associate(b.routed, Framed(done, b.drawn), [Data(m.data)]);
      }
    }

    // broker_down: a rejected duplicate's connection is not in the table.
    method ConnDown(found: bool)
      requires Valid() && (found ==> nconns > 0)
      modifies this`nconns
      ensures Valid() && nconns == old(nconns) - (if found then 1 else 0)
      ensures BooksNow() == old(BooksNow()).(connected := nconns > 0)
    {
      if found {
        nconns := nconns - 1;
      }
    }

    method Buffer(msg: Message)
      modifies this`buffer
      ensures buffer == old(buffer) + [msg]
    {
      buffer := buffer + [msg];
    }

    // An expired entry, already off the list: dropped, buffered or sent again.
    method Resend(e: Entry)
      requires Valid() && Tracks(e.msg.target)
      modifies this
      ensures Valid() && BooksNow() == Handle(old(BooksNow()), e)
      ensures Entries() == Made(old(BooksNow()), e) + old(Entries())
      ensures |nodes| >= |old(nodes)| && nodes[|nodes| - |old(nodes)|..] == old(nodes)
      ensures forall n <- nodes :: n in old(nodes) || fresh(n)
    {
      hide Chained, EntriesOf;
      handled := handled + [e];
      if e.retries > 0 && nconns > 0 {
        Transmit(e.msg, e.retries - 1);
        assert nodes == [nodes[0]] + nodes[1..];
        EntriesCons(nodes[0], nodes[1..]);
      } else if e.retries > 0 {
        Buffer(e.msg);
      }
    }

    ghost function BooksNow(): Books
      reads this
    {
      Books(buffer, routed, drawn, readings, handled, nconns > 0, src)
    }

    // The node behind `link` has expired. The link still leads to the node after it.
    method HandleExpired(ghost i: nat, link: Node?, p: Node) returns (ghost i': nat)
      requires Valid() && i < |nodes| && p == nodes[i]
      requires link == if i == 0 then null else nodes[i - 1]
      modifies this, if link == null then {} else {link}
      ensures Valid() && BooksNow() == Handle(old(BooksNow()), p.entry)
      ensures Entries() == Made(old(BooksNow()), p.entry) + old(Entries())[..i] + old(Entries())[i + 1..]
      ensures i' == (if i == 0 then 0 else i + |Made(old(BooksNow()), p.entry)|)
      ensures i' <= |nodes| && link == if i' == 0 then null else nodes[i' - 1]
      ensures forall n <- nodes :: n in old(nodes) || fresh(n)
    {
      hide Handle, EntriesOf, Chained, BooksNow, Made, Tracks;
      assert p in nodes;
      ghost var es := Entries();
      EntriesCut(nodes, i);
      Unlink(i, link, p);
      ghost var mid := nodes;
      ghost var made := Made(BooksNow(), p.entry);
      Resend(p.entry);
      Associate(made, es[..i], es[i + 1..]);
      assert |nodes| == |mid| + |made|;
      i' := if i == 0 then 0 else i + |made|;
      if i > 0 {
        assert nodes[|made|..][i - 1] == mid[i - 1];
      }
    }

    // The node `link` leads to.
    method Follow(ghost i: nat, link: Node?) returns (p: Node?)
      requires Valid() && i <= |nodes| && link == if i == 0 then null else nodes[i - 1]
      ensures p == if i < |nodes| then nodes[i] else null
    {
      p := if link == null then pendingHead else link.next;
    }

    // The first loop of broker_sweep. It ends although resends lengthen the list.
    method Expire() returns (now: nat)
      requires Valid() && Monotone(src.clock)
      modifies this, nodes
      ensures Valid() && now == src.clock(old(readings))
      ensures (BooksNow(), Entries()) == Sweep(old(BooksNow()).(readings := old(readings) + 1), old(Entries()), now)
    {
      hide Sweep, Handle, Made, NotBehind, EntriesOf, Chained, Tracks;
      ghost var es := Entries();
      now := Now();
      ghost var b := BooksNow();
      ghost var done: seq<Entry>, rest, i: nat := [], es, 0;
      var link: Node? := null;
      SweepNone(b, now);
      StartReady(b, now);
      assert [] + es == es;
      var p := Follow(0, link);
      while p != null
        invariant Swept(b, done, rest, i, link, now) && es == done + rest
        invariant p == if i < |nodes| then nodes[i] else null
        invariant forall n <- nodes :: n in old(nodes) || fresh(n)
        decreases |rest|, |Sweep(b, done, now).1| - i
      {
        assert link != null ==> link in nodes;
        done, rest, i, link := Visit(b, done, rest, i, link, p, now);
        p := Follow(i, link);
      }
      assert i == |nodes| == |Sweep(b, done, now).1| + |rest|;
      assert rest == [] && done == es;
      assert Sweep(b, es, now).1 + [] == Sweep(b, es, now).1;
    }

    // The entries of `done` are swept, and the link leads to the node at index i.
    ghost predicate Swept(b: Books, done: seq<Entry>, rest: seq<Entry>, i: nat, link: Node?, now: nat)
      reads this, nodes
    {
      && Valid() && i <= |nodes| && link == (if i == 0 then null else nodes[i - 1])
      && BooksNow() == Sweep(b, done, now).0 && Entries() == Sweep(b, done, now).1 + rest
      && i <= |Sweep(b, done, now).1| && NotBehind(src.clock, b.readings, now) && b.src == src
    }

    // One node: handled if it has expired, else passed by.
    method Visit(ghost b: Books, ghost done: seq<Entry>, ghost rest: seq<Entry>, ghost i: nat, link: Node?, p: Node,
      now: nat) returns (ghost done': seq<Entry>, ghost rest': seq<Entry>, ghost i': nat, link': Node?)
      requires Swept(b, done, rest, i, link, now) && i < |nodes| && p == nodes[i]
      modifies this, if link == null then {} else {link}
      ensures Swept(b, done', rest', i', link', now) && done' + rest' == done + rest
      ensures |rest'| < |rest| || (done' == done && rest' == rest && i' == i + 1)
      ensures forall n <- nodes :: n in old(nodes) || fresh(n)
    {
      hide Sweep, Handle, Made, NotBehind, EntriesOf, Chained, Tracks;
      done', rest', i', link' := done, rest, i, link;
      EntryAt(nodes, i);
      SweepAlive(b, done, now);
      NextIn(b, done, rest, i, now, p.entry);
      if p.entry.deadline <= now {
        i' := HandleExpired(i, link, p);
        done', rest' := done + [rest[0]], rest[1..];
      } else {
        if i == |Sweep(b, done, now).1| {
          done', rest' := done + [rest[0]], rest[1..];
        }
        link', i' := p, i + 1;
      }
    }

    // The node after index i.
    method Next(ghost i: nat, p: Node) returns (next: Node?)
      requires Valid() && i < |nodes| && p == nodes[i]
      ensures next == if i + 1 < |nodes| then nodes[i + 1] else null
    {
      next := p.next;
    }

    // The second loop of broker_sweep: how long the broker may sleep.
    method Soonest() returns (soonest: int)
      requires Valid()
      modifies this`readings
      ensures nodes == [] ==> soonest == -1
      ensures nodes != [] ==> IsSoonest(soonest, Entries(), src.clock, old(readings))
    {
      hide Chained, EntriesOf, Remaining, IsSoonest;
      soonest := -1;
      ghost var i: nat := 0;
      var p := Follow(0, null);
      while p != null
        invariant i <= |nodes| && p == (if i < |nodes| then nodes[i] else null)
        invariant readings == old(readings) + i
        invariant i == 0 ==> soonest == -1
        invariant i > 0 ==> IsSoonest(soonest, Entries()[..i], src.clock, old(readings))
        decreases |nodes| - i
      {
        EntryAt(nodes, i);
        var now := Now();
        var d := Remaining(p.entry.deadline, now);
        SoonestOne(soonest, Entries()[..i], p.entry, d, src.clock, old(readings));
        assert Entries()[..i] + [p.entry] == Entries()[..i + 1];
        if soonest < 0 || d < soonest {
          soonest := d;
        }
        p := Next(i, p);
        i := i + 1;
      }
      assert Entries()[..|nodes|] == Entries();
    }

    // The first node with this id, and the link that leads to it.
    method Find(id: MsgId) returns (ghost i: nat, link: Node?, p: Node?)
      requires Valid()
      ensures i <= |nodes| && p == if i < |nodes| then nodes[i] else null
      ensures link == if i == 0 then null else nodes[i - 1]
      ensures p != null ==> p.entry.id == id
      ensures forall k | 0 <= k < i :: Entries()[k].id != id
    {
      hide Chained, EntriesOf;
      i, link := 0, null;
      p := Follow(0, link);
      while p != null && p.entry.id != id
        invariant i <= |nodes| && p == if i < |nodes| then nodes[i] else null
        invariant link == if i == 0 then null else nodes[i - 1]
        invariant forall k | 0 <= k < i :: Entries()[k].id != id
        decreases |nodes| - i
      {
        EntryAt(nodes, i);
        link, i := p, i + 1;
        p := Follow(i, link);
      }
    }

    // An acknowledgement takes the first entry with its id off the list.
    method HandleAck(id: MsgId)
      requires Valid()
      modifies this, nodes
      ensures Valid() && Entries() == WithoutFirst(old(Entries()), id) && BooksNow() == old(BooksNow())
    {
      hide Chained, EntriesOf;
      ghost var i: nat;
      var link, p;
      i, link, p := Find(id);
      if p != null {
        EntryAt(nodes, i);
        EntriesCut(nodes, i);
        FirstAt(Entries(), id, i);
        Unlink(i, link, p);
      } else {
        FirstAbsent(Entries(), id);
      }
    }
  }

  function Remaining(deadline: nat, now: nat): nat {
    if deadline < now then 0 else deadline - now
  }

  // The least time left on any entry, each by its own clock reading.
  ghost predicate IsSoonest(soonest: int, es: seq<Entry>, clock: Clock, readings: nat) {
    && (forall k | 0 <= k < |es| :: soonest <= Remaining(es[k].deadline, clock(readings + k)))
    && (exists k :: 0 <= k < |es| && soonest == Remaining(es[k].deadline, clock(readings + k)))
  }

  lemma SoonestOne(soonest: int, es: seq<Entry>, e: Entry, d: nat, clock: Clock, readings: nat)
    requires es == [] ==> soonest == -1
    requires es != [] ==> IsSoonest(soonest, es, clock, readings)
    requires d == Remaining(e.deadline, clock(readings + |es|))
    ensures IsSoonest(if soonest < 0 || d < soonest then d else soonest, es + [e], clock, readings)
  {
    var all := es + [e];
    assert all[|es|] == e;
    if es != [] {
      var k :| 0 <= k < |es| && soonest == Remaining(es[k].deadline, clock(readings + k));
      assert all[k] == es[k];
    }
  }

  function WithoutFirst(es: seq<Entry>, id: MsgId): seq<Entry> {
    if es == [] then [] else if es[0].id == id then es[1..] else [es[0]] + WithoutFirst(es[1..], id)
  }

  lemma {:induction false} FirstAt(es: seq<Entry>, id: MsgId, i: nat)
    requires i < |es| && es[i].id == id && forall k | 0 <= k < i :: es[k].id != id
    ensures WithoutFirst(es, id) == es[..i] + es[i + 1..]
    decreases i
  {
    if i > 0 {
      FirstAt(es[1..], id, i - 1);
      assert es[..i] == [es[0]] + es[1..][..i - 1];
    }
  }

  lemma {:induction false} FirstAbsent(es: seq<Entry>, id: MsgId)
    requires forall e <- es :: e.id != id
    ensures WithoutFirst(es, id) == es
    decreases |es|
  {
    if es != [] {
      FirstAbsent(es[1..], id);
    }
  }

  lemma StartReady(b: Books, now: nat)
    requires Monotone(b.src.clock) && b.readings > 0 && now == b.src.clock(b.readings - 1)
    ensures NotBehind(b.src.clock, b.readings, now)
  {
  }

  lemma EntriesCut(nodes: seq<Node>, i: nat)
    requires i < |nodes|
    ensures EntriesOf(nodes[..i] + nodes[i + 1..]) == EntriesOf(nodes)[..i] + EntriesOf(nodes)[i + 1..]
  {
  }

  lemma EntriesCons(node: Node, nodes: seq<Node>)
    ensures EntriesOf([node] + nodes) == [node.entry] + EntriesOf(nodes)
  {
  }

  lemma EntryAt(nodes: seq<Node>, i: nat)
    requires i < |nodes|
    ensures EntriesOf(nodes)[i] == nodes[i].entry
  {
  }

  // What the broker keeps besides the list; `handled` is a history.
  datatype Books = Books(
    buffer: seq<Message>, routed: seq<Envelope>, drawn: nat, readings: nat,
      handled: seq<Entry>, connected: bool, src: Source)

  // The entry a resend makes, if it makes one.
  function Made(b: Books, e: Entry): seq<Entry> {
    if e.retries > 0 && b.connected
    then [Entry(b.src.ids(b.drawn), e.msg, e.retries - 1, b.src.clock(b.readings) + RESEND_TIMEOUT)]
    else []
  }

  function Handle(b: Books, e: Entry): Books {
    var seen := b.(handled := b.handled + [e]);
    if e.retries == 0 then seen
    else if !b.connected then seen.(buffer := b.buffer + [e.msg])
    else seen.(routed := b.routed + [DataReq(b.src.ids(b.drawn), e.msg.data)], drawn := b.drawn + 1,
      readings := b.readings + 1)
  }

  // The sweep, entry by entry: the books and the list it leaves.
  function Sweep(b: Books, es: seq<Entry>, now: nat): (Books, seq<Entry>) {
    if es == [] then (b, []) else
    var e := es[|es| - 1];
    var (books, list) := Sweep(b, es[..|es| - 1], now);
    if e.deadline <= now then (Handle(books, e), Made(books, e) + list) else (books, list + [e])
  }

  lemma SweepNone(b: Books, now: nat)
    ensures Sweep(b, [], now) == (b, [])
  {
  }

  lemma SweepOne(b: Books, done: seq<Entry>, e: Entry, now: nat)
    ensures var (books, list) := Sweep(b, done, now);
      Sweep(b, done + [e], now) ==
        if e.deadline <= now then (Handle(books, e), Made(books, e) + list) else (books, list + [e])
  {
    assert (done + [e])[..|done|] == done;
    hide Handle, Made;
  }

  // What is on the new list so far is not due: an entry made during the sweep expires
  // RESEND_TIMEOUT after a reading no earlier than `now`.
  lemma {:induction false} SweepAlive(b: Books, es: seq<Entry>, now: nat)
    requires NotBehind(b.src.clock, b.readings, now)
    ensures var (books, list) := Sweep(b, es, now);
      books.src == b.src && books.connected == b.connected && books.readings >= b.readings
        && (forall e <- list :: e.deadline > now)
    decreases |es|
  {
    if es != [] {
      SweepAlive(b, es[..|es| - 1], now);
    }
  }

  // ---- The sweep as a whole ----

  // The entries a sweep makes, in the order it makes them.
  function Fresh(es: seq<Entry>, now: nat, b: Books): seq<Entry> {
    if b.connected then Renewed(Retried(Expired(es, now)), b.src, b.drawn, b.readings) else []
  }

  ghost predicate Closed(b: Books, es: seq<Entry>, now: nat, books: Books, list: seq<Entry>) {
    var made := Fresh(es, now, b);
    && books.handled == b.handled + Expired(es, now)
    && list == Reversed(made) + Alive(es, now)
    && books.routed == b.routed + Requests(made)
    && books.buffer == b.buffer + (if b.connected then [] else RetriedMessages(Expired(es, now)))
    && books == b.(handled := books.handled, routed := books.routed, buffer := books.buffer,
                   drawn := b.drawn + |made|, readings := b.readings + |made|)
  }

  // Every expired entry is handled exactly once, in list order: those with retries left
  // are sent again under a fresh id, or buffered if no peer is there. The new list is
  // what the resends made, newest first, then the survivors in their old order.
  lemma {:induction false} SweepCloses(b: Books, es: seq<Entry>, now: nat)
    ensures Closed(b, es, now, Sweep(b, es, now).0, Sweep(b, es, now).1)
    decreases |es|
  {
    if es == [] {
      assert b.handled + [] == b.handled && b.routed + [] == b.routed && b.buffer + [] == b.buffer;
      assert Fresh(es, now, b) == [] && Requests([]) == [];
    } else {
      var done, e := es[..|es| - 1], es[|es| - 1];
      assert es == done + [e];
      hide Closed, Sweep;
      SweepCloses(b, done, now);
      if e.deadline <= now {
        CloseExpired(b, done, e, now);
      } else {
        CloseAlive(b, done, e, now);
      }
    }
  }

  lemma CloseAlive(b: Books, done: seq<Entry>, e: Entry, now: nat)
    requires e.deadline > now && Closed(b, done, now, Sweep(b, done, now).0, Sweep(b, done, now).1)
    ensures Closed(b, done + [e], now, Sweep(b, done + [e], now).0, Sweep(b, done + [e], now).1)
  {
    hide Expired, Retried, Alive, Reversed, Renewed, Sweep;
    SweepOne(b, done, e, now);
    ExpiredSnoc(done, e, now);
    Associate(Reversed(Fresh(done, now, b)), Alive(done, now), [e]);
    assert Expired(done, now) + [] == Expired(done, now);
  }

  lemma CloseExpired(b: Books, done: seq<Entry>, e: Entry, now: nat)
    requires e.deadline <= now && Closed(b, done, now, Sweep(b, done, now).0, Sweep(b, done, now).1)
    ensures Closed(b, done + [e], now, Sweep(b, done + [e], now).0, Sweep(b, done + [e], now).1)
  {
    hide Expired, Retried, RetriedMessages, Alive, Reversed, Sweep;
    SweepOne(b, done, e, now);
    ExpiredSnoc(done, e, now);
    var x := Expired(done, now);
    RetriedSnoc(x, e);
    RenewedSnoc(Retried(x), e, b.src, b.drawn, b.readings);
    if e.retries == 0 {
      assert Retried(x) + [] == Retried(x) && RetriedMessages(x) + [] == RetriedMessages(x);
    } else if b.connected {
      var made := Made(Sweep(b, done, now).0, e);
      assert Fresh(done + [e], now, b) == Fresh(done, now, b) + made;
      ReversedSnoc(Fresh(done, now, b), made[0]);
      Associate(made, Reversed(Fresh(done, now, b)), Alive(done, now));
      assert Requests(Fresh(done, now, b) + made) == Requests(Fresh(done, now, b)) + Requests(made);
    }
  }

  // Where the node at index i stands: on the part already swept, or first of the rest.
  lemma NextIn(b: Books, done: seq<Entry>, rest: seq<Entry>, i: nat, now: nat, e: Entry)
    requires var front := Sweep(b, done, now).1;
      && i <= |front| && i < |front + rest| && e == (front + rest)[i] && (forall x <- front :: x.deadline > now)
    ensures var (books, front) := Sweep(b, done, now);
      && (e.deadline <= now ==> i == |front|)
      && (i == |front| ==>
            && rest != [] && e == rest[0] && done + rest == done + [e] + rest[1..]
            && (front + rest)[..i] == front && (front + rest)[i + 1..] == rest[1..]
            && (e.deadline > now ==>
                  Sweep(b, done + [e], now) == (books, front + [e]) && front + [e] + rest[1..] == front + rest)
            && (e.deadline <= now ==> Sweep(b, done + [e], now) == (Handle(books, e), Made(books, e) + front)))
  {
    if i == |Sweep(b, done, now).1| {
      SweepOne(b, done, e, now);
    }
    hide Sweep, Handle, Made;
  }
}
