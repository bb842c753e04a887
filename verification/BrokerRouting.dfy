// Who receives what a broker routes: recipients, per-peer order, truthfulness of what
// is written, and the fairness of the round robin.
module BrokerRouting {
  import opened Bytes
  import opened Protocol
  import opened Broker
  import opened BrokerLaws

  function QueueOf(s: State, p: Identity): seq<Envelope>
    requires Connected(s) && p in s.conns
  {
    s.channels[s.conns[p]].queue
  }

  lemma ConnsApart(s: State, p: Identity, q: Identity)
    requires Connected(s) && p in s.conns && q in s.conns && p != q
    ensures s.conns[p] != s.conns[q]
  {
  }

  lemma RouteConnected(s: State, target: Option<Identity>, e: Envelope)
    requires Connected(s)
    ensures Connected(Route(s, target, e)) && Route(s, target, e).conns == s.conns
  {
    RouteOnly(s, target, e);
    hide Distinct, Route;
  }

  lemma TurnConnected(s: State)
    requires Connected(s) && s.conns != map[]
    ensures s.order != [] && Turn(s) in s.conns
  {
    var p :| p in s.conns;
    assert p in s.order;
    assert Turn(s) in s.order;
    hide Distinct;
  }

  // What one peer's channel gets.
  lemma RouteReachesPeer(s: State, target: Option<Identity>, e: Envelope, p: Identity)
    requires Connected(s) && p in s.conns
    ensures Route(s, target, e).channels[s.conns[p]].queue ==
      s.channels[s.conns[p]].queue + (if p in Recipients(s, target) then [e] else [])
  {
    var q := s.channels[s.conns[p]].queue;
    assert q + [] == q && s.conns[p] in s.conns.Values;
    TurnConnected(s);
    var other := if target.Some? then target.value else Turn(s);
    if other in s.conns && other != p {
      ConnsApart(s, p, other);
    }
    hide Distinct;
  }

  lemma RouteReachesOthers(s: State, target: Option<Identity>, e: Envelope, c: nat)
    requires Connected(s) && c < |s.channels| && c !in s.conns.Values
    ensures Route(s, target, e).channels[c] == s.channels[c]
  {
    hide Distinct;
  }

  // Every recipient's channel gets the envelope once, at its end; no other channel
  // changes, and in the round robin there is one recipient whenever anyone is connected.
  lemma RouteReaches(s: State, target: Option<Identity>, e: Envelope)
    requires Connected(s)
    ensures var t := Route(s, target, e);
      && Connected(t) && t.conns == s.conns
      && (forall p <- s.conns :: QueueOf(t, p) == QueueOf(s, p) + (if p in Recipients(s, target) then [e] else []))
      && (forall c | 0 <= c < |s.channels| && c !in s.conns.Values :: t.channels[c] == s.channels[c])
    ensures target.None? && s.mode == RoundRobin && s.conns != map[] ==> |Recipients(s, target)| == 1
  {
    if s.conns != map[] {
      TurnConnected(s);
    }
    RouteConnected(s, target, e);
    var t := Route(s, target, e);
    hide Distinct, Route;
    forall p <- s.conns
      ensures t.channels[s.conns[p]].queue ==
        s.channels[s.conns[p]].queue + (if p in Recipients(s, target) then [e] else [])
    {
      RouteReachesPeer(s, target, e, p);
    }
    forall c | 0 <= c < |s.channels| && c !in s.conns.Values ensures t.channels[c] == s.channels[c] {
      RouteReachesOthers(s, target, e, c);
    }
  }

  // ---- Per-peer order ----

  // `a` is obtained from `b` by leaving elements out.
  predicate Subsequence<T(==)>(a: seq<T>, b: seq<T>)
    decreases |b|
  {
    a == [] ||
    (b != [] && (Subsequence(a, b[..|b| - 1]) ||
      (a[|a| - 1] == b[|b| - 1] && Subsequence(a[..|a| - 1], b[..|b| - 1]))))
  }

  lemma SubsequenceSnoc<T>(a: seq<T>, b: seq<T>, x: T)
    requires Subsequence(a, b)
    ensures Subsequence(a, b + [x]) && Subsequence(a + [x], b + [x])
  {
    assert (b + [x])[..|b|] == b && (a + [x])[..|a|] == a;
  }

  // The payloads of the unacknowledged envelopes in a queue.
  function DataOf(queue: seq<Envelope>): seq<Bytes> {
    if queue == [] then [] else
    var last := queue[|queue| - 1];
    DataOf(queue[..|queue| - 1]) + (if last.Data? then [last.payload] else [])
  }

  lemma DataOfSnoc(queue: seq<Envelope>, e: Envelope)
    ensures DataOf(queue + [e]) == DataOf(queue) + (if e.Data? then [e.payload] else [])
  {
    assert (queue + [e])[..|queue|] == queue;
  }

  function Payloads(msgs: seq<Message>): (r: seq<Bytes>)
    ensures |r| == |msgs|
  {
    seq(|msgs|, i requires 0 <= i < |msgs| => msgs[i].data)
  }

  // Each connection is written the unacknowledged messages in the order they were sent,
  // and every acknowledged-mode envelope it is written carries the payload issued
  // under its id.
  ghost predicate Faithful(s: State) {
    && (forall c | 0 <= c < |s.channels| :: Subsequence(DataOf(s.channels[c].queue), Payloads(s.posted)))
    && Truthful(s)
  }

  ghost predicate Truthful(s: State) {
    forall c | 0 <= c < |s.channels| ::
      forall e <- s.channels[c].queue :: e.DataReq? ==> Genuine(s, s.channels[c].peer, e)
  }

  // This broker issued the id for this payload, and for this peer if the send named one.
  ghost predicate Genuine(s: State, peer: Identity, e: Envelope)
    requires e.DataReq?
  {
    && e.id.salt == s.salt && e.id.counter < |s.issued|
    && s.issued[e.id.counter].msg.data == e.payload
    && (s.issued[e.id.counter].msg.target.Some? ==> s.issued[e.id.counter].msg.target.value == peer)
  }

  // A queue may only grow by one envelope at a time.
  lemma RouteGrows(s: State, target: Option<Identity>, e: Envelope)
    requires Connected(s)
    ensures var t := Route(s, target, e);
      && |t.channels| == |s.channels|
      && forall c | 0 <= c < |s.channels| ::
           && t.channels[c].peer == s.channels[c].peer
           && (t.channels[c].queue == s.channels[c].queue ||
               (t.channels[c].queue == s.channels[c].queue + [e]
                && (target.Some? ==> s.channels[c].peer == target.value)))
  {
    hide Distinct;
  }

  // The queue of channel c after one more envelope keeps the send order.
  lemma OrderedRoute(s: State, target: Option<Identity>, e: Envelope, c: nat)
    requires Connected(s) && c < |s.channels|
    requires e.Data? ==> s.posted != [] && s.posted[|s.posted| - 1].data == e.payload
    requires Subsequence(DataOf(s.channels[c].queue),
      Payloads(if e.Data? then s.posted[..|s.posted| - 1] else s.posted))
    ensures Subsequence(DataOf(Route(s, target, e).channels[c].queue), Payloads(s.posted))
  {
    hide Route, Subsequence, DataOf, Connected;
    RouteGrows(s, target, e);
    var q := s.channels[c].queue;
    DataOfSnoc(q, e);
    if e.Data? {
      var before := s.posted[..|s.posted| - 1];
      assert Payloads(s.posted) == Payloads(before) + [e.payload];
      SubsequenceSnoc(DataOf(q), Payloads(before), e.payload);
    } else {
      assert DataOf(q) + [] == DataOf(q);
    }
  }

  lemma TruthfulRoute(s: State, target: Option<Identity>, e: Envelope)
    requires Connected(s) && Truthful(s)
    requires e.DataReq? ==> Known(s, e.id, Message(target, e.payload))
    ensures Truthful(Route(s, target, e))
  {
    hide Route, Connected;
    var t := Route(s, target, e);
    RouteGrows(s, target, e);
    RouteOnly(s, target, e);
    forall c | 0 <= c < |t.channels|
      ensures forall e' <- t.channels[c].queue :: e'.DataReq? ==> Genuine(t, t.channels[c].peer, e')
    {
      forall e' | e' in t.channels[c].queue && e'.DataReq? ensures Genuine(t, t.channels[c].peer, e') {
        if e' in s.channels[c].queue {
          assert Genuine(s, s.channels[c].peer, e');
        }
      }
    }
  }

  lemma FaithfulRoute(s: State, target: Option<Identity>, e: Envelope)
    requires Connected(s) && Truthful(s)
    requires e.Data? ==> s.posted != [] && s.posted[|s.posted| - 1].data == e.payload
    requires forall c | 0 <= c < |s.channels| ::
               Subsequence(DataOf(s.channels[c].queue),
                 Payloads(if e.Data? then s.posted[..|s.posted| - 1] else s.posted))
    requires e.DataReq? ==> Known(s, e.id, Message(target, e.payload))
    ensures Faithful(Route(s, target, e))
  {
    hide Route, Subsequence, DataOf, Connected, Truthful, Payloads, Known;
    var t := Route(s, target, e);
    TruthfulRoute(s, target, e);
    RouteOnly(s, target, e);
    forall c | 0 <= c < |t.channels| ensures Subsequence(DataOf(t.channels[c].queue), Payloads(t.posted)) {
      OrderedRoute(s, target, e, c);
    }
  }

  // The parts of the state the law does not look at may change.
  lemma FaithfulSame(s: State, t: State)
    requires Faithful(s) && t.channels == s.channels && t.posted == s.posted && t.issued == s.issued && t.salt == s.salt
    ensures Faithful(t)
  {
    hide Subsequence, DataOf;
    forall c | 0 <= c < |t.channels|
      ensures forall e <- t.channels[c].queue :: e.DataReq? ==> Genuine(t, t.channels[c].peer, e)
    {
      forall e | e in t.channels[c].queue && e.DataReq? ensures Genuine(t, t.channels[c].peer, e) {
        assert Genuine(s, s.channels[c].peer, e);
      }
    }
  }

  lemma TruthfulIssue(s: State, i: Issue)
    requires Truthful(s)
    ensures Truthful(s.(issued := s.issued + [i]))
  {
    var t := s.(issued := s.issued + [i]);
    forall c | 0 <= c < |t.channels|
      ensures forall e <- t.channels[c].queue :: e.DataReq? ==> Genuine(t, t.channels[c].peer, e)
    {
      forall e | e in t.channels[c].queue && e.DataReq? ensures Genuine(t, t.channels[c].peer, e) {
        assert Genuine(s, s.channels[c].peer, e);
      }
    }
  }

  lemma FaithfulTransmit(s: State, msg: Message, retries: nat, prev: Option<MsgId>)
    requires Connected(s) && |s.issued| == s.nextId && Faithful(s)
    ensures Faithful(Transmit(s, msg, retries, prev))
  {
    hide Subsequence, DataOf, Route, Distinct;
    if Reliable(s, msg.target) {
      var r := Register(s, msg, retries, prev);
      TruthfulIssue(s, Issue(msg, prev));
      FaithfulSame(s.(issued := s.issued + [Issue(msg, prev)]), r);
      FaithfulRoute(r, msg.target, DataReq(MsgId(s.salt, s.nextId), msg.data));
    } else {
      var r := s.(posted := s.posted + [msg]);
      assert r.posted[..|r.posted| - 1] == s.posted;
      assert Truthful(r) by {
        FaithfulSame(s, s);
        TruthfulPosted(s, msg);
      }
      FaithfulRoute(r, msg.target, Data(msg.data));
    }
  }

  lemma TruthfulPosted(s: State, msg: Message)
    requires Truthful(s)
    ensures Truthful(s.(posted := s.posted + [msg]))
  {
    var t := s.(posted := s.posted + [msg]);
    forall c | 0 <= c < |t.channels|
      ensures forall e <- t.channels[c].queue :: e.DataReq? ==> Genuine(t, t.channels[c].peer, e)
    {
      forall e | e in t.channels[c].queue && e.DataReq? ensures Genuine(t, t.channels[c].peer, e) {
        assert Genuine(s, s.channels[c].peer, e);
      }
    }
  }

  ghost predicate Sound(s: State) {
    Connected(s) && |s.issued| == s.nextId && Faithful(s)
  }

  lemma SoundSend(s: State, msg: Message)
    requires Sound(s)
    ensures Sound(HandleSend(s, msg))
  {
    ConnectedSend(s, msg);
    TransmitShape(s, msg, MAX_RETRIES, None);
    FaithfulTransmit(s, msg, MAX_RETRIES, None);
    hide Connected, Transmit, Faithful;
    if s.conns == map[] {
      FaithfulSame(s, HandleSend(s, msg));
    }
  }

  lemma {:induction false} SoundFlush(s: State, msgs: seq<Message>)
    requires Sound(s)
    ensures Sound(Flush(s, msgs))
    decreases |msgs|
  {
    hide Sound, HandleSend;
    if msgs != [] {
      SoundSend(s, msgs[0]);
      SoundFlush(HandleSend(s, msgs[0]), msgs[1..]);
    }
  }

  lemma FaithfulNewChannel(s: State, identity: Identity)
    requires Faithful(s)
    ensures Faithful(s.(channels := s.channels + [Channel(identity, [])]))
  {
    hide Subsequence;
    var t := s.(channels := s.channels + [Channel(identity, [])]);
    forall c | 0 <= c < |t.channels|
      ensures Subsequence(DataOf(t.channels[c].queue), Payloads(t.posted))
      ensures forall e <- t.channels[c].queue :: e.DataReq? ==> Genuine(t, t.channels[c].peer, e)
    {
      if c == |s.channels| {
        assert DataOf(t.channels[c].queue) == [];
        SubsequenceNil(Payloads(t.posted));
      } else {
        forall e | e in t.channels[c].queue && e.DataReq? ensures Genuine(t, t.channels[c].peer, e) {
          assert Genuine(s, s.channels[c].peer, e);
        }
      }
    }
  }

  lemma SubsequenceNil<T>(b: seq<T>)
    ensures Subsequence([], b)
  {
  }

  lemma SoundReceived(s: State, from: Identity, e: Envelope)
    requires Sound(s)
    ensures Sound(HandleReceived(s, from, e))
  {
    ConnectedReceived(s, from, e);
    hide Subsequence, DataOf, Payloads, Distinct, Genuine;
    match e
    case DataReq(id, payload) =>
      var r := TakeRequest(s, from, id, payload);
      FaithfulSame(s, r);
      RouteOnly(r, Some(from), Ack(id));
      FaithfulRoute(r, Some(from), Ack(id));
    case Data(_) => FaithfulSame(s, HandleReceived(s, from, e));
    case Ack(id) => FaithfulSame(s, HandleReceived(s, from, e));
    case Hello(_, _) =>
    case Heartbeat =>
  }

  lemma SoundResend(s: State, id: MsgId)
    requires Sound(s) && id in s.pending && s.pending[id].retries > 0
    ensures var p := s.pending[id];
      Faithful(Transmit(s.(pending := s.pending - {id}), p.msg, p.retries - 1, Some(id)))
  {
    var rest := s.(pending := s.pending - {id});
    assert Connected(rest) by { hide Distinct, Faithful; }
    hide Connected, Faithful, Transmit;
    FaithfulSame(s, rest);
    FaithfulTransmit(rest, s.pending[id].msg, s.pending[id].retries - 1, Some(id));
  }

  lemma ExpireFaithful(s: State, id: MsgId)
    requires Sound(s)
    ensures Faithful(HandleExpire(s, id))
  {
    if id in s.pending {
      var p := s.pending[id];
      if p.retries > 0 && s.conns != map[] {
        SoundResend(s, id);
      } else {
        FaithfulSame(s, HandleExpire(s, id));
      }
    }
    hide Connected, Transmit, Faithful;
  }

  lemma ExpireIssues(s: State, id: MsgId)
    requires |s.issued| == s.nextId
    ensures |HandleExpire(s, id).issued| == HandleExpire(s, id).nextId
  {
    if id in s.pending && s.pending[id].retries > 0 {
      TransmitShape(s.(pending := s.pending - {id}), s.pending[id].msg, s.pending[id].retries - 1, Some(id));
    }
    hide Transmit;
  }

  lemma SoundExpire(s: State, id: MsgId)
    requires Sound(s)
    ensures Sound(HandleExpire(s, id))
  {
    hide HandleExpire, Connected, Faithful;
    ConnectedExpire(s, id);
    ExpireFaithful(s, id);
    ExpireIssues(s, id);
  }

  lemma SoundStep(s: State, input: Input)
    requires Sound(s)
    ensures Sound(Step(s, input))
  {
    match input
    case Send(msg) =>
      var s' := s.(submitted := s.submitted + [msg]);
      assert Sound(s') by { hide Distinct, Faithful; FaithfulSame(s, s'); }
      SoundSend(s', msg);
      hide Sound, HandleSend;
    case Up(identity) =>
      SoundUp(s, identity);
      hide Sound, HandleUp;
    case Down(identity) =>
      ConnectedStep(s, input);
      hide Connected, Faithful;
      FaithfulSame(s, HandleDown(s, identity));
    case Received(from, e) =>
      SoundReceived(s, from, e);
      hide Sound, HandleReceived;
    case Expire(id) =>
      SoundExpire(s, id);
      hide Sound, HandleExpire;
  }

  lemma SoundUp(s: State, identity: Identity)
    requires Sound(s)
    ensures Sound(HandleUp(s, identity))
  {
    FaithfulNewChannel(s, identity);
    var grown := s.(channels := s.channels + [Channel(identity, [])]);
    if identity in s.conns {
      ConnectedStep(s, Up(identity));
      hide Connected, Faithful;
      FaithfulSame(grown, HandleUp(s, identity));
    } else {
      AdmitConnected(s, identity);
      hide Connected, Faithful;
      FaithfulSame(grown, Admit(s, identity));
      SoundFlush(Admit(s, identity), s.buffer);
    }
  }

  // Over every run, each peer is written the unacknowledged messages in send order and
  // only genuine acknowledged-mode envelopes.
  lemma {:induction false} SoundRun(s: State, inputs: seq<Input>)
    requires Sound(s)
    ensures Sound(Run(s, inputs))
    decreases |inputs|
  {
    hide Sound, Step;
    if inputs != [] {
      SoundStep(s, inputs[0]);
      SoundRun(Step(s, inputs[0]), inputs[1..]);
    }
  }

  // ---- Round-robin fairness ----

  // How often position i comes up in k turns starting at position r of n.
  function Hits(i: nat, r: nat, n: nat, k: nat): nat
    decreases k
  {
    if k == 0 then 0 else (if r == i then 1 else 0) + Hits(i, if r + 1 == n then 0 else r + 1, n, k - 1)
  }

  function Distance(i: nat, r: nat, n: nat): int {
    if i >= r then i - r else i - r + n
  }

  lemma AddOneRound(x: nat, n: nat)
    requires n > 0
    ensures (x + n) / n == x / n + 1
  {
    Distribute(x / n, n);
    DivModIs(x + n, x / n + 1, x % n, n);
  }

  lemma Distribute(q: nat, n: nat)
    ensures (q + 1) * n == q * n + n
  {
  }

  lemma {:induction false} HitsExact(i: nat, r: nat, n: nat, k: nat)
    requires i < n && r < n
    ensures Hits(i, r, n, k) == (k + n - 1 - Distance(i, r, n)) / n
    decreases k
  {
    var d := Distance(i, r, n);
    if k == 0 {
      DivModIs(n - 1 - d, 0, n - 1 - d, n);
    } else {
      var r' := if r + 1 == n then 0 else r + 1;
      HitsExact(i, r', n, k - 1);
      if r == i {
        assert Distance(i, r', n) == n - 1;
        AddOneRound(k - 1, n);
      } else {
        assert Distance(i, r', n) == d - 1;
      }
    }
  }

  lemma LessTimes(a: nat, b: nat, n: nat)
    requires a * n < b * n
    ensures a < b
  {
  }

  lemma DivMonotone(x: nat, y: nat, n: nat)
    requires n > 0 && x <= y
    ensures x / n <= y / n
  {
    Distribute(y / n, n);
    LessTimes(x / n, y / n + 1, n);
  }

  // Sends k envelopes to whoever's turn it is.
  function RouteMany(s: State, es: seq<Envelope>): State
    decreases |es|
  {
    if es == [] then s else RouteMany(Route(s, None, es[0]), es[1..])
  }

  lemma CursorStep(c: nat, n: nat)
    requires n > 0
    ensures (c + 1) % n == if c % n + 1 == n then 0 else c % n + 1
  {
    var q, r := c / n, c % n;
    Distribute(q, n);
    if r + 1 == n {
      DivModIs(c + 1, q + 1, 0, n);
    } else {
      DivModIs(c + 1, q, r + 1, n);
    }
  }

  function TurnIndex(s: State): (r: nat)
    requires s.order != []
    ensures r < |s.order|
  {
    s.cursor % |s.order|
  }

  lemma OneTurn(s: State, e: Envelope, i: nat)
    requires Connected(s) && s.mode == RoundRobin && i < |s.order|
    ensures s.order[i] in s.conns
    ensures var t := Route(s, None, e);
      && Connected(t) && t.conns == s.conns && t.order == s.order && t.mode == s.mode
      && TurnIndex(t) == (if TurnIndex(s) + 1 == |s.order| then 0 else TurnIndex(s) + 1)
      && |QueueOf(t, s.order[i])| == |QueueOf(s, s.order[i])| + (if i == TurnIndex(s) then 1 else 0)
  {
    assert s.order[i] in s.order;
    RouteReaches(s, None, e);
    RouteOnly(s, None, e);
    CursorStep(s.cursor, |s.order|);
    assert s.order[i] == Turn(s) <==> i == TurnIndex(s);
    hide QueueOf, Distinct;
  }

  lemma PlaceOf(s: State, p: Identity) returns (i: nat)
    requires Connected(s) && p in s.conns
    ensures i < |s.order| && s.order[i] == p
  {
    hide Distinct;
    assert p in s.order;
    i :| 0 <= i < |s.order| && s.order[i] == p;
  }

  lemma PlaceTaken(s: State, i: nat)
    requires Connected(s) && i < |s.order|
    ensures s.order[i] in s.conns
  {
    assert s.order[i] in s.order;
    hide Distinct;
  }

  lemma {:induction false} RouteManyCounts(s: State, es: seq<Envelope>, i: nat)
    requires Connected(s) && s.mode == RoundRobin && i < |s.order|
    ensures var t := RouteMany(s, es);
      && Connected(t) && t.conns == s.conns && t.order == s.order
      && |QueueOf(t, s.order[i])| == |QueueOf(s, s.order[i])| + Hits(i, TurnIndex(s), |s.order|, |es|)
    decreases |es|
  {
    hide Route, Connected, QueueOf, TurnIndex;
    PlaceTaken(s, i);
    if es != [] {
      OneTurn(s, es[0], i);
      RouteManyCounts(Route(s, None, es[0]), es[1..], i);
    }
  }

  // A share of k turns among n: the rounded-down or the rounded-up quotient, and
  // exactly one turn in a full round.
  ghost predicate FairShare(got: int, k: nat, n: nat) {
    n > 0 && k / n <= got <= (k + n - 1) / n && (k == n ==> got == 1)
  }

  lemma HitsFair(i: nat, r: nat, n: nat, k: nat)
    requires i < n && r < n
    ensures FairShare(Hits(i, r, n, k), k, n)
  {
    HitsExact(i, r, n, k);
    var d := Distance(i, r, n);
    DivMonotone(k, k + n - 1 - d, n);
    DivMonotone(k + n - 1 - d, k + n - 1, n);
    if k == n {
      DivModIs(n + n - 1 - d, 1, n - 1 - d, n);
    }
  }

  // Fairness: while membership is fixed at n peers, k consecutive round-robin routes
  // give every peer floor(k/n) or ceiling(k/n) of them, from any cursor; in particular
  // n consecutive routes give every peer exactly one.
  lemma Fairness(s: State, es: seq<Envelope>, p: Identity)
    requires Connected(s) && s.mode == RoundRobin && p in s.conns
    ensures var t := RouteMany(s, es);
      && Connected(t) && t.conns == s.conns
      && FairShare(|QueueOf(t, p)| - |QueueOf(s, p)|, |es|, |s.order|)
  {
    hide Connected, Hits, RouteMany, Distance, FairShare, QueueOf, TurnIndex;
    var i := PlaceOf(s, p);
    RouteManyCounts(s, es, i);
    HitsFair(i, TurnIndex(s), |s.order|, |es|);
  }
}
