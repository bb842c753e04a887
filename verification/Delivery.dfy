// Brokers talking to each other over connections that may be cut, reconnected, reordered
// or lose and repeat what was written on them.
module Delivering {
  import opened Bytes
  import opened Protocol
  import opened Broker
  import opened BrokerLaws
  import opened BrokerRouting

  type Network = map<Identity, State>

  // The acknowledgement a broker has still to write: it has handed the request to its
  // application and does nothing else before it writes.
  datatype Owed = Owed(to: Identity, id: MsgId)
  datatype World = World(net: Network, owed: map<Identity, Owed>)

  // `Deliver` hands the receiver one envelope of any connection the sender ever had to
  // it: the i-th ever written on the sender's connection number c. A request is answered
  // by a step of its own, `Acknowledge`; the other brokers may move in between.
  datatype Event =
    | Local(node: Identity, command: Input)
    | Deliver(from: Identity, node: Identity, c: nat, i: nat)
    | Acknowledge(node: Identity)

  predicate Possible(w: World, e: Event) {
    match e
    case Local(node, command) => node in w.net && node !in w.owed && !command.Received?
    case Deliver(from, node, c, i) =>
      && from in w.net && node in w.net && node !in w.owed
      && c < |w.net[from].channels| && w.net[from].channels[c].peer == node
      && i < |w.net[from].channels[c].queue|
    case Acknowledge(node) => node in w.net && node in w.owed
  }

  function Receive(w: World, from: Identity, node: Identity, e: Envelope): World
    requires node in w.net
  {
    match e
    case DataReq(id, payload) =>
      World(w.net[node := TakeRequest(w.net[node], from, id, payload)], w.owed[node := Owed(from, id)])
    case _ => w.(net := w.net[node := Step(w.net[node], Received(from, e))])
  }

  function Happen(w: World, e: Event): World {
    if !Possible(w, e) then w else
    match e
    case Local(node, command) => w.(net := w.net[node := Step(w.net[node], command)])
    case Deliver(from, node, c, i) => Receive(w, from, node, w.net[from].channels[c].queue[i])
    case Acknowledge(node) =>
      var o := w.owed[node];
      World(w.net[node := Route(w.net[node], Some(o.to), Ack(o.id))], w.owed - {node})
  }

  // Nothing but the acknowledgement can happen to a broker that owes one, so the two
  // halves come to the broker's own step on the request.
  lemma TwoHalves(s: State, from: Identity, id: MsgId, payload: Bytes)
    ensures Step(s, Received(from, DataReq(id, payload))) ==
      Route(TakeRequest(s, from, id, payload), Some(from), Ack(id))
  {
    hide Route;
  }

  lemma OwingWaits(w: World, e: Event, node: Identity)
    requires node in w.net && node in w.owed && e != Acknowledge(node)
    ensures var v := Happen(w, e);
      node in v.net && v.net[node] == w.net[node] && node in v.owed && v.owed[node] == w.owed[node]
  {
    hide Step, Route;
  }

  function HappenAll(w: World, events: seq<Event>): World
    decreases |events|
  {
    if events == [] then w else HappenAll(Happen(w, events[0]), events[1..])
  }

  // ---- What a step does to acknowledgements ----

  // History only grows, and settles nothing.
  ghost predicate Grew(s: State, t: State) {
    && t.salt == s.salt && |s.channels| <= |t.channels|
    && s.delivered <= t.delivered && s.requests <= t.requests && s.issued <= t.issued
    && (forall c | 0 <= c < |s.channels| :: t.channels[c].peer == s.channels[c].peer)
  }

  // Every acknowledgement written in t was already written in s on the same connection.
  ghost predicate NoNewAcks(s: State, t: State) {
    && |s.channels| <= |t.channels|
    && (forall c | 0 <= c < |t.channels| :: forall e <- t.channels[c].queue ::
          e.Ack? ==> c < |s.channels| && e in s.channels[c].queue)
  }

  ghost predicate Quiet(s: State, t: State) {
    && Grew(s, t) && NoNewAcks(s, t)
    && t.acked == s.acked && t.delivered == s.delivered && t.requests == s.requests
  }

  lemma QuietChain(s: State, t: State, u: State)
    requires Quiet(s, t) && Quiet(t, u)
    ensures Quiet(s, u)
  {
    forall c | 0 <= c < |u.channels|
      ensures forall e <- u.channels[c].queue :: e.Ack? ==> c < |s.channels| && e in s.channels[c].queue
    {
      forall e | e in u.channels[c].queue && e.Ack? ensures c < |s.channels| && e in s.channels[c].queue {
        assert e in t.channels[c].queue;
      }
    }
  }

  lemma RouteQuiet(s: State, target: Option<Identity>, e: Envelope)
    requires !e.Ack?
    ensures Quiet(s, Route(s, target, e))
  {
    var t := Route(s, target, e);
    RouteOnly(s, target, e);
    forall c | 0 <= c < |s.channels|
      ensures forall x <- t.channels[c].queue :: x == e || x in s.channels[c].queue
    {
    }
  }

  lemma TransmitQuiet(s: State, msg: Message, retries: nat, prev: Option<MsgId>)
    ensures Quiet(s, Transmit(s, msg, retries, prev))
  {
    hide Route;
    if Reliable(s, msg.target) {
      var r := Register(s, msg, retries, prev);
      RouteQuiet(r, msg.target, DataReq(MsgId(s.salt, s.nextId), msg.data));
      hide Quiet;
      assert Quiet(s, r) by { QuietSame(s, r); }
      QuietChain(s, r, Transmit(s, msg, retries, prev));
    } else {
      var r := s.(posted := s.posted + [msg]);
      RouteQuiet(r, msg.target, Data(msg.data));
      hide Quiet;
      assert Quiet(s, r) by { QuietSame(s, r); }
      QuietChain(s, r, Transmit(s, msg, retries, prev));
    }
  }

  lemma QuietSame(s: State, t: State)
    requires t.salt == s.salt && t.channels == s.channels && t.acked == s.acked
    requires t.delivered == s.delivered && t.requests == s.requests && s.issued <= t.issued
    ensures Quiet(s, t)
  {
  }

  lemma SendQuiet(s: State, msg: Message)
    ensures Quiet(s, HandleSend(s, msg))
  {
    hide Transmit, Quiet;
    TransmitQuiet(s, msg, MAX_RETRIES, None);
    if s.conns == map[] {
      QuietSame(s, HandleSend(s, msg));
    }
  }

  lemma {:induction false} FlushQuiet(s: State, msgs: seq<Message>)
    ensures Quiet(s, Flush(s, msgs))
    decreases |msgs|
  {
    hide HandleSend, Quiet;
    if msgs == [] {
      QuietSame(s, s);
    } else {
      var next := HandleSend(s, msgs[0]);
      SendQuiet(s, msgs[0]);
      FlushQuiet(next, msgs[1..]);
      QuietChain(s, next, Flush(next, msgs[1..]));
    }
  }

  lemma UpQuiet(s: State, identity: Identity)
    ensures Quiet(s, HandleUp(s, identity))
  {
    hide Flush;
    if identity !in s.conns {
      var t := Admit(s, identity);
      assert Quiet(s, t);
      FlushQuiet(t, s.buffer);
      hide Quiet, Admit;
      QuietChain(s, t, HandleUp(s, identity));
    }
  }

  lemma ExpireQuiet(s: State, id: MsgId)
    ensures Quiet(s, HandleExpire(s, id))
  {
    hide Transmit, Quiet;
    if id in s.pending && s.pending[id].retries > 0 && s.conns != map[] {
      var rest := s.(pending := s.pending - {id});
      QuietSame(s, rest);
      TransmitQuiet(rest, s.pending[id].msg, s.pending[id].retries - 1, Some(id));
      QuietChain(s, rest, HandleExpire(s, id));
    } else {
      QuietSame(s, HandleExpire(s, id));
    }
  }

  lemma LocalQuiet(s: State, input: Input)
    requires !input.Received?
    ensures Quiet(s, Step(s, input))
  {
    match input
    case Send(msg) =>
      var s' := s.(submitted := s.submitted + [msg]);
      SendQuiet(s', msg);
      QuietSame(s, s');
      hide HandleSend, Quiet;
      QuietChain(s, s', HandleSend(s', msg));
    case Up(identity) =>
      UpQuiet(s, identity);
      hide HandleUp, Quiet;
    case Down(identity) => QuietSame(s, HandleDown(s, identity));
    case Expire(id) =>
      ExpireQuiet(s, id);
      hide HandleExpire, Quiet;
  }

  // ---- The theorem ----

  // `b` has handed to its application the payload that `a` issued under this id, and it
  // is a peer the message may go to.
  ghost predicate Answered(a: State, aName: Identity, b: State, bName: Identity, id: MsgId) {
    && id.salt == a.salt && id.counter < |a.issued|
    && Request(aName, id, a.issued[id.counter].msg.data) in b.requests
    && (a.issued[id.counter].msg.target.Some? ==> a.issued[id.counter].msg.target.value == bName)
  }

  lemma AnsweredGrew(a: State, aName: Identity, b: State, bName: Identity, id: MsgId, a': State, b': State)
    requires Answered(a, aName, b, bName, id) && Grew(a, a') && Grew(b, b')
    ensures Answered(a', aName, b', bName, id)
  {
    assert a'.issued[id.counter] == a.issued[id.counter];
  }

  ghost predicate Backed(net: Network, aName: Identity, bName: Identity, id: MsgId)
    requires bName in net
  {
    aName in net && Answered(net[aName], aName, net[bName], bName, id)
  }

  // An acknowledgement is written only for a payload already handed over.
  ghost predicate AckTruthful(net: Network, bName: Identity)
    requires bName in net
  {
    forall c | 0 <= c < |net[bName].channels| :: forall e <- net[bName].channels[c].queue ::
      e.Ack? ==> Backed(net, net[bName].channels[c].peer, bName, e.id)
  }

  ghost predicate Handed(net: Network, aName: Identity, id: MsgId)
    requires aName in net
  {
    exists bName :: bName in net && Answered(net[aName], aName, net[bName], bName, id)
  }

  // Every acknowledged message is in its receiver's delivery queue.
  ghost predicate AckedHanded(net: Network, aName: Identity)
    requires aName in net
  {
    forall r <- net[aName].acked :: Handed(net, aName, r.id) && Known(net[aName], r.id, r.msg)
  }

  function PairsOf(requests: seq<Request>): (pairs: seq<(Identity, Bytes)>)
    ensures |pairs| == |requests|
  {
    seq(|requests|, i requires 0 <= i < |requests| => (requests[i].from, requests[i].payload))
  }

  // Every acknowledged request has a delivery of its own.
  ghost predicate HandedOver(s: State) {
    multiset(PairsOf(s.requests)) <= multiset(s.delivered)
  }

  lemma HandedOverRequest(s: State, from: Identity, id: MsgId, payload: Bytes)
    requires HandedOver(s)
    ensures HandedOver(TakeRequest(s, from, id, payload))
  {
    assert PairsOf(TakeRequest(s, from, id, payload).requests) == PairsOf(s.requests) + [(from, payload)];
    hide PairsOf;
  }

  lemma HandedOverOther(s: State, from: Identity, e: Envelope)
    requires HandedOver(s) && !e.DataReq?
    ensures HandedOver(HandleReceived(s, from, e))
  {
    hide PairsOf;
  }

  ghost predicate NodeGood(net: Network, n: Identity) {
    n in net && Inv(net[n]) && Sound(net[n]) && AckTruthful(net, n) && AckedHanded(net, n) && HandedOver(net[n])
  }

  ghost predicate Good(net: Network) {
    forall n {:trigger NodeGood(net, n)} | n in net :: NodeGood(net, n)
  }

  // One node moves on, growing; the others stay.
  lemma AckTruthfulOther(net: Network, node: Identity, t: State, bName: Identity)
    requires node in net && bName in net && bName != node && Grew(net[node], t) && AckTruthful(net, bName)
    ensures AckTruthful(net[node := t], bName)
  {
    var net' := net[node := t];
    forall c | 0 <= c < |net[bName].channels|
      ensures forall e <- net'[bName].channels[c].queue ::
        e.Ack? ==> Backed(net', net'[bName].channels[c].peer, bName, e.id)
    {
      forall e | e in net[bName].channels[c].queue && e.Ack?
        ensures net[bName].channels[c].peer in net'
          && Answered(net'[net[bName].channels[c].peer], net[bName].channels[c].peer, net[bName], bName, e.id)
      {
        var p := net[bName].channels[c].peer;
        AnsweredGrew(net[p], p, net[bName], bName, e.id, net'[p], net'[bName]);
      }
    }
  }

  lemma AckTruthfulSelf(net: Network, node: Identity, t: State)
    requires node in net && Grew(net[node], t) && NoNewAcks(net[node], t) && AckTruthful(net, node)
    ensures AckTruthful(net[node := t], node)
  {
    var net' := net[node := t];
    forall c | 0 <= c < |t.channels|
      ensures forall e <- net'[node].channels[c].queue ::
        e.Ack? ==> Backed(net', net'[node].channels[c].peer, node, e.id)
    {
      forall e | e in t.channels[c].queue && e.Ack?
        ensures Backed(net', t.channels[c].peer, node, e.id)
      {
        assert e in net[node].channels[c].queue;
        var p := net[node].channels[c].peer;
        AnsweredGrew(net[p], p, net[node], node, e.id, net'[p], t);
      }
    }
  }

  lemma HandedGrew(net: Network, node: Identity, t: State, aName: Identity, id: MsgId)
    requires node in net && aName in net && Grew(net[node], t) && Handed(net, aName, id)
    ensures Handed(net[node := t], aName, id)
  {
    var net' := net[node := t];
    var bName :| bName in net && Answered(net[aName], aName, net[bName], bName, id);
    AnsweredGrew(net[aName], aName, net[bName], bName, id, net'[aName], net'[bName]);
  }

  lemma AckedGrew(net: Network, node: Identity, t: State, aName: Identity)
    requires node in net && aName in net && Grew(net[node], t) && AckedHanded(net, aName)
    requires aName == node ==> forall r <- t.acked ::
      r in net[node].acked || (Handed(net, node, r.id) && Known(t, r.id, r.msg))
    ensures AckedHanded(net[node := t], aName)
  {
    var net' := net[node := t];
    forall r | r in net'[aName].acked ensures Handed(net', aName, r.id) && Known(net'[aName], r.id, r.msg) {
      HandedGrew(net, node, t, aName, r.id);
    }
  }

  // The node that moved wrote no acknowledgement and settled nothing unanswered.
  lemma GoodMove(net: Network, node: Identity, t: State)
    requires Good(net) && node in net && Inv(t) && Sound(t) && HandedOver(t) && Grew(net[node], t)
    requires AckTruthful(net[node := t], node)
    requires forall r <- t.acked :: r in net[node].acked || (Handed(net, node, r.id) && Known(t, r.id, r.msg))
    ensures Good(net[node := t])
  {
    hide Inv, Sound, AckTruthful, AckedHanded, Grew, Handed, Known, HandedOver;
    var net' := net[node := t];
    forall n | n in net' ensures NodeGood(net', n) {
      assert NodeGood(net, n);
      AckedGrew(net, node, t, n);
      if n != node {
        AckTruthfulOther(net, node, t, n);
      }
    }
  }

  // The invariants of a broker do not look at what it has handed over.
  ghost predicate SameButHanded(s: State, t: State) {
    t == s.(delivered := t.delivered, requests := t.requests)
  }

  lemma ConnectedSame(s: State, t: State)
    requires Connected(s) && SameButHanded(s, t)
    ensures Connected(t)
  {
    hide Distinct;
  }

  lemma BudgetedSame(s: State, t: State)
    requires Budgeted(s) && SameButHanded(s, t)
    ensures Budgeted(t)
  {
    hide Attempts, Linked;
  }

  lemma ConservedSame(s: State, t: State)
    requires Conserved(s) && SameButHanded(s, t)
    ensures Conserved(t)
  {
    hide Held, MsgsOf;
  }

  lemma FateSame(s: State, t: State)
    requires OneFate(s) && SameButHanded(s, t)
    ensures OneFate(t)
  {
    hide Superseded, IssuedIds, IdsOf;
  }

  lemma OrderSame(s: State, t: State)
    requires InOrder(s) && SameButHanded(s, t)
    ensures InOrder(t)
  {
    PlainConfig(s, t, s.buffer);
    PlainConfig(s, t, s.submitted);
    hide Plain;
  }

  lemma InvSame(s: State, t: State)
    requires Inv(s) && SameButHanded(s, t)
    ensures Inv(t)
  {
    hide Connected, Budgeted, Conserved, OneFate, InOrder, SameButHanded;
    ConnectedSame(s, t);
    BudgetedSame(s, t);
    ConservedSame(s, t);
    FateSame(s, t);
    OrderSame(s, t);
  }

  lemma SoundSame(s: State, t: State)
    requires Sound(s) && SameButHanded(s, t)
    ensures Sound(t)
  {
    hide Distinct, Subsequence, DataOf;
  }

  // Routing an acknowledgement keeps them.
  lemma RouteKeeps(s: State, to: Identity, id: MsgId)
    requires Inv(s) && Sound(s)
    ensures Inv(Route(s, Some(to), Ack(id))) && Sound(Route(s, Some(to), Ack(id)))
  {
    var input := Received(to, DataReq(id, []));
    StepInv(s, input);
    SoundStep(s, input);
    TwoHalves(s, to, id, []);
    TakenRoutes(s, to, id);
    var r := TakeRequest(s, to, id, []);
    hide Step, Route, Inv, Sound, SameButHanded;
    InvSame(Route(r, Some(to), Ack(id)), Route(s, Some(to), Ack(id)));
    SoundSame(Route(r, Some(to), Ack(id)), Route(s, Some(to), Ack(id)));
  }

  lemma TakenRoutes(s: State, to: Identity, id: MsgId)
    ensures SameButHanded(Route(TakeRequest(s, to, id, []), Some(to), Ack(id)), Route(s, Some(to), Ack(id)))
  {
  }

  // Writing an acknowledgement whose request has been handed over.
  lemma RequestAnswered(net: Network, node: Identity, to: Identity, id: MsgId)
    requires node in net && AckTruthful(net, node) && Connected(net[node]) && Backed(net, to, node, id)
    ensures var t := Route(net[node], Some(to), Ack(id));
      && Grew(net[node], t) && t.acked == net[node].acked && t.requests == net[node].requests
      && t.delivered == net[node].delivered && AckTruthful(net[node := t], node)
  {
    var s := net[node];
    var t := Route(s, Some(to), Ack(id));
    RouteOnly(s, Some(to), Ack(id));
    RouteGrows(s, Some(to), Ack(id));
    hide Route, Connected;
    var net' := net[node := t];
    assert Grew(s, t);
    AnsweredGrew(net[to], to, s, node, id, net'[to], t);
    forall c | 0 <= c < |t.channels|
      ensures forall e <- net'[node].channels[c].queue ::
        e.Ack? ==> Backed(net', net'[node].channels[c].peer, node, e.id)
    {
      forall e | e in t.channels[c].queue && e.Ack?
        ensures Backed(net', t.channels[c].peer, node, e.id)
      {
        if e in s.channels[c].queue {
          var p := s.channels[c].peer;
          AnsweredGrew(net[p], p, s, node, e.id, net'[p], t);
        }
      }
    }
  }

  lemma ReceivedOther(s: State, from: Identity, e: Envelope)
    requires !e.DataReq?
    ensures var t := HandleReceived(s, from, e);
      && Grew(s, t) && NoNewAcks(s, t)
      && (forall r <- t.acked ::
        r in s.acked || (e.Ack? && r.id == e.id && e.id in s.pending && r.msg == s.pending[e.id].msg))
  {
  }

  lemma GoodAt(net: Network, n: Identity)
    requires Good(net) && n in net
    ensures Inv(net[n]) && Sound(net[n]) && AckTruthful(net, n) && AckedHanded(net, n) && Connected(net[n])
    ensures HandedOver(net[n])
  {
    assert NodeGood(net, n);
    hide Inv, Faithful, AckTruthful, AckedHanded, Connected, HandedOver;
  }

  // The brokers are good, and what is still to be acknowledged has been handed over.
  ghost predicate AllGood(w: World) {
    Good(w.net) && forall n <- w.owed :: n in w.net && Backed(w.net, w.owed[n].to, n, w.owed[n].id)
  }

  lemma OwedGrew(w: World, node: Identity, t: State)
    requires AllGood(w) && node in w.net && Grew(w.net[node], t)
    ensures forall n <- w.owed :: n in w.net && Backed(w.net[node := t], w.owed[n].to, n, w.owed[n].id)
  {
    hide Good, Grew, Answered;
    forall n | n in w.owed ensures n in w.net && Backed(w.net[node := t], w.owed[n].to, n, w.owed[n].id) {
      var o := w.owed[n];
      var net' := w.net[node := t];
      assert forall m <- w.net :: m == node || net'[m] == w.net[m];
      GrewSelf(w.net[o.to]);
      GrewSelf(w.net[n]);
      AnsweredGrew(w.net[o.to], o.to, w.net[n], n, o.id, net'[o.to], net'[n]);
    }
  }

  lemma GrewSelf(s: State)
    ensures Grew(s, s)
  {
  }

  // What is known of an envelope on a connection from `from` to `node`.
  lemma Envelopes(net: Network, from: Identity, node: Identity, c: nat, i: nat)
    requires Good(net) && from in net && node in net
    requires c < |net[from].channels| && net[from].channels[c].peer == node && i < |net[from].channels[c].queue|
    ensures var e := net[from].channels[c].queue[i];
      && (e.DataReq? ==> Genuine(net[from], node, e))
      && (e.Ack? ==> Handed(net, node, e.id))
  {
    hide Inv, Connected, Subsequence, AckedHanded, Genuine, Answered, Good;
    GoodAt(net, from);
    var e := net[from].channels[c].queue[i];
    assert e in net[from].channels[c].queue;
    assert AckTruthful(net, from) && Truthful(net[from]);
    assert e.Ack? ==> Backed(net, node, from, e.id);
  }

  lemma ReceivedStep(s: State, from: Identity, e: Envelope)
    ensures Step(s, Received(from, e)) == HandleReceived(s, from, e)
  {
    hide HandleReceived;
  }

  lemma TakenGrew(s: State, from: Identity, id: MsgId, payload: Bytes)
    ensures var t := TakeRequest(s, from, id, payload);
      Grew(s, t) && NoNewAcks(s, t) && t.acked == s.acked && SameButHanded(s, t)
      && Request(from, id, payload) in t.requests
  {
  }

  // The first half: the payload is in the application's hands before anything is written.
  lemma DeliverRequest(w: World, from: Identity, node: Identity, id: MsgId, payload: Bytes)
    requires AllGood(w) && from in w.net && node in w.net && Genuine(w.net[from], node, DataReq(id, payload))
    ensures AllGood(Receive(w, from, node, DataReq(id, payload)))
  {
    hide TakeRequest, Good, Inv, Sound, AckTruthful, AckedHanded, HandedOver, Grew, NoNewAcks, Handed, Known;
    hide Backed, Genuine, SameButHanded;
    var s := w.net[node];
    var t := TakeRequest(s, from, id, payload);
    TakenGrew(s, from, id, payload);
    GoodAt(w.net, node);
    InvSame(s, t);
    SoundSame(s, t);
    HandedOverRequest(s, from, id, payload);
    AckTruthfulSelf(w.net, node, t);
    GoodMove(w.net, node, t);
    OwedGrew(w, node, t);
    TakenBacked(w.net, from, node, id, payload);
  }

  lemma TakenBacked(net: Network, from: Identity, node: Identity, id: MsgId, payload: Bytes)
    requires from in net && node in net && Genuine(net[from], node, DataReq(id, payload))
    ensures Backed(net[node := TakeRequest(net[node], from, id, payload)], from, node, id)
  {
  }

  // The second half.
  lemma GoodAcknowledge(w: World, node: Identity)
    requires AllGood(w) && Possible(w, Acknowledge(node))
    ensures AllGood(Happen(w, Acknowledge(node)))
  {
    var s, o := w.net[node], w.owed[node];
    var t := Route(s, Some(o.to), Ack(o.id));
    hide Route, Good, Inv, Sound, AckTruthful, AckedHanded, HandedOver, Grew, Backed;
    GoodAt(w.net, node);
    RouteKeeps(s, o.to, o.id);
    RequestAnswered(w.net, node, o.to, o.id);
    HandedOverSame(s, t);
    GoodMove(w.net, node, t);
    OwedGrew(w, node, t);
  }

  lemma HandedOverSame(s: State, t: State)
    requires HandedOver(s) && t.requests == s.requests && t.delivered == s.delivered
    ensures HandedOver(t)
  {
  }

  lemma PendingKnown(s: State, id: MsgId)
    requires Inv(s) && id in s.pending
    ensures Known(s, id, s.pending[id].msg)
  {
    hide Connected, Conserved, OneFate, InOrder, Attempts, Linked;
  }

  lemma KnownGrew(s: State, t: State, id: MsgId, msg: Message)
    requires Known(s, id, msg) && Grew(s, t)
    ensures Known(t, id, msg)
  {
    assert t.issued[id.counter] == s.issued[id.counter];
  }

  lemma DeliverOther(net: Network, from: Identity, node: Identity, e: Envelope)
    requires Good(net) && from in net && node in net && !e.DataReq?
    requires e.Ack? ==> Handed(net, node, e.id)
    ensures Good(net[node := Step(net[node], Received(from, e))])
  {
    hide *;
    var s := net[node];
    var t := HandleReceived(s, from, e);
    GoodAt(net, node);
    ReceivedStep(s, from, e);
    StepInv(s, Received(from, e));
    SoundStep(s, Received(from, e));
    ReceivedOther(s, from, e);
    HandedOverOther(s, from, e);
    AckTruthfulSelf(net, node, t);
    if e.Ack? && e.id in s.pending {
      PendingKnown(s, e.id);
      KnownGrew(s, t, e.id, s.pending[e.id].msg);
    }
    GoodMove(net, node, t);
  }

  lemma GoodDeliver(w: World, from: Identity, node: Identity, c: nat, i: nat)
    requires AllGood(w) && Possible(w, Deliver(from, node, c, i))
    ensures AllGood(Happen(w, Deliver(from, node, c, i)))
  {
    hide Good, Step, Genuine, Handed, Backed;
    Envelopes(w.net, from, node, c, i);
    var e := w.net[from].channels[c].queue[i];
    if e.DataReq? {
      DeliverRequest(w, from, node, e.id, e.payload);
    } else {
      DeliverOther(w.net, from, node, e);
      ReceivedGrew(w.net[node], from, e);
      OwedGrew(w, node, Step(w.net[node], Received(from, e)));
    }
  }

  lemma ReceivedGrew(s: State, from: Identity, e: Envelope)
    requires !e.DataReq?
    ensures Grew(s, Step(s, Received(from, e)))
  {
    ReceivedStep(s, from, e);
    ReceivedOther(s, from, e);
    hide Step, HandleReceived, Grew;
  }

  lemma GoodLocal(w: World, node: Identity, command: Input)
    requires AllGood(w) && node in w.net && !command.Received?
    ensures AllGood(w.(net := w.net[node := Step(w.net[node], command)]))
  {
    hide Step, Inv, Sound, AckTruthful, AckedHanded, Grew, NoNewAcks, Handed, Known, Good, Backed;
    GoodAt(w.net, node);
    var t := Step(w.net[node], command);
    StepInv(w.net[node], command);
    SoundStep(w.net[node], command);
    LocalQuiet(w.net[node], command);
    AckTruthfulSelf(w.net, node, t);
    GoodMove(w.net, node, t);
    OwedGrew(w, node, t);
  }

  lemma {:induction false} GoodAll(w: World, events: seq<Event>)
    requires AllGood(w)
    ensures AllGood(HappenAll(w, events)) && HappenAll(w, events).net.Keys == w.net.Keys
    decreases |events|
  {
    hide AllGood, Step, Route;
    if events != [] {
      var e := events[0];
      if Possible(w, e) {
        match e
        case Local(node, command) => GoodLocal(w, node, command);
        case Deliver(from, node, c, i) => GoodDeliver(w, from, node, c, i);
        case Acknowledge(node) => GoodAcknowledge(w, node);
      }
      GoodAll(Happen(w, e), events[1..]);
    }
  }

  // Brokers that have just started, owing nothing.
  function Start(net: Network): World {
    World(net, map[])
  }

  // Any brokers, any run from their start.
  lemma AlwaysGood(net: Network, events: seq<Event>)
    requires Fresh(net)
    ensures var end := HappenAll(Start(net), events); AllGood(end) && Good(end.net) && end.net.Keys == net.Keys
  {
    FreshGood(net);
    assert AllGood(Start(net)) by { hide Good; }
    GoodAll(Start(net), events);
    hide HappenAll, Good;
  }

  ghost predicate Fresh(net: Network) {
    forall n <- net :: exists mode, delivery, salt :: net[n] == Init(mode, delivery, salt)
  }

  lemma FreshGood(net: Network)
    requires Fresh(net)
    ensures Good(net)
  {
    forall n | n in net ensures Inv(net[n]) && Sound(net[n]) && net[n].channels == [] && net[n].acked == [] {
      var mode, delivery, salt :| net[n] == Init(mode, delivery, salt);
      InitInv(mode, delivery, salt);
    }
    hide Inv, Sound;
  }

  lemma RequestDelivered(s: State, r: Request)
    requires HandedOver(s) && r in s.requests
    ensures (r.from, r.payload) in s.delivered
  {
    var i :| 0 <= i < |s.requests| && s.requests[i] == r;
    assert PairsOf(s.requests)[i] == (r.from, r.payload);
    assert (r.from, r.payload) in multiset(PairsOf(s.requests));
  }

  // Any brokers, any run: whenever an acknowledgement has settled a message, some peer it
  // may go to has that very payload, from this sender, in its delivery queue.
  lemma AcknowledgedMeansDelivered(net: Network, events: seq<Event>, a: Identity, r: Resolved)
    requires Fresh(net) && a in net
    ensures var end := HappenAll(Start(net), events).net;
      a in end && (r in end[a].acked ==>
        exists b :: b in end && (a, r.msg.data) in end[b].delivered && (r.msg.target.Some? ==> r.msg.target.value == b))
  {
    AlwaysGood(net, events);
    var end := HappenAll(Start(net), events).net;
    hide HappenAll, Inv, Sound, AckTruthful, Good, HandedOver, AllGood;
    if r in end[a].acked {
      GoodAt(end, a);
      var b :| b in end && Answered(end[a], a, end[b], b, r.id);
      GoodAt(end, b);
      RequestDelivered(end[b], Request(a, r.id, r.msg.data));
    }
  }

  // At every moment, also between a delivery and its acknowledgement: whatever
  // acknowledgement has been written, the payload it answers is in the delivery queue.
  lemma DeliveredFirst(net: Network, events: seq<Event>, b: Identity, c: nat, e: Envelope)
    requires Fresh(net)
    requires var end := HappenAll(Start(net), events).net;
      b in end && c < |end[b].channels| && e in end[b].channels[c].queue && e.Ack?
    ensures var end := HappenAll(Start(net), events).net; var a := end[b].channels[c].peer;
      && a in end && e.id.salt == end[a].salt && e.id.counter < |end[a].issued|
      && (a, end[a].issued[e.id.counter].msg.data) in end[b].delivered
  {
    AlwaysGood(net, events);
    var end := HappenAll(Start(net), events).net;
    hide HappenAll, Inv, Sound, Good, HandedOver, AllGood;
    GoodAt(end, b);
    var a := end[b].channels[c].peer;
    assert Backed(end, a, b, e.id);
    RequestDelivered(end[b], Request(a, e.id, end[a].issued[e.id.counter].msg.data));
  }

  // ---- Counting ----

  function CountAcked(acked: seq<Resolved>, payload: Bytes): nat {
    if acked == [] then 0
    else CountAcked(acked[..|acked| - 1], payload) + (if acked[|acked| - 1].msg.data == payload then 1 else 0)
  }

  function AckedIds(acked: seq<Resolved>, payload: Bytes): set<MsgId> {
    set r | r in acked && r.msg.data == payload :: r.id
  }

  // No id is settled twice, so the ids count the messages.
  lemma {:induction false} CountIsIds(acked: seq<Resolved>, payload: Bytes)
    requires forall i, j | 0 <= i < j < |acked| :: acked[i].id != acked[j].id
    ensures |AckedIds(acked, payload)| == CountAcked(acked, payload)
    decreases |acked|
  {
    if acked != [] {
      var init, last := acked[..|acked| - 1], acked[|acked| - 1];
      CountIsIds(init, payload);
      assert acked == init + [last];
      assert AckedIds(acked, payload) == AckedIds(init, payload) + (if last.msg.data == payload then {last.id} else {});
      assert last.id !in AckedIds(init, payload);
    }
  }

  lemma TwiceCounts(ids: seq<MsgId>, i: nat, j: nat)
    requires i < j < |ids| && ids[i] == ids[j]
    ensures multiset(ids)[ids[i]] >= 2
  {
    assert ids == ids[..j] + ([ids[j]] + ids[j + 1..]);
    assert ids[..j][i] == ids[j];
    assert ids[j] in multiset(ids[..j]);
    assert multiset(ids) == multiset(ids[..j]) + (multiset{ids[j]} + multiset(ids[j + 1..]));
  }

  lemma AckedOnce(s: State)
    requires Inv(s)
    ensures forall i, j | 0 <= i < j < |s.acked| :: s.acked[i].id != s.acked[j].id
  {
    hide Connected, Budgeted, Conserved, OneFate, InOrder, Superseded;
    forall i, j | 0 <= i < j < |s.acked| ensures s.acked[i].id != s.acked[j].id {
      var ids := IdsOf(s.acked);
      if ids[i] == ids[j] {
        TwiceCounts(ids, i, j);
        ExactlyOneFate(s, ids[i]);
      }
    }
  }

  // The ids of the requests with this payload that came from this sender.
  function RequestIds(requests: seq<Request>, from: Identity, payload: Bytes): set<MsgId> {
    set r | r in requests && r.from == from && r.payload == payload :: r.id
  }

  lemma {:induction false} RequestIdsFew(requests: seq<Request>, from: Identity, payload: Bytes)
    ensures |RequestIds(requests, from, payload)| <= multiset(PairsOf(requests))[(from, payload)]
    decreases |requests|
  {
    if requests != [] {
      var init, last := requests[..|requests| - 1], requests[|requests| - 1];
      RequestIdsFew(init, from, payload);
      assert requests == init + [last];
      assert PairsOf(requests) == PairsOf(init) + [(last.from, last.payload)];
      assert RequestIds(requests, from, payload) ==
        RequestIds(init, from, payload) + (if last.from == from && last.payload == payload then {last.id} else {});
    }
  }

  lemma RequestsFew(s: State, from: Identity, payload: Bytes)
    requires HandedOver(s)
    ensures |RequestIds(s.requests, from, payload)| <= multiset(s.delivered)[(from, payload)]
  {
    RequestIdsFew(s.requests, from, payload);
    hide RequestIds, PairsOf;
  }

  // How often this payload from this sender has been handed to the applications of these
  // brokers.
  function Deliveries(net: Network, names: seq<Identity>, from: Identity, payload: Bytes): nat {
    if names == [] then 0 else
    var last := names[|names| - 1];
    Deliveries(net, names[..|names| - 1], from, payload)
    + (if last in net then multiset(net[last].delivered)[(from, payload)] else 0)
  }

  lemma FewerIn(a: set<MsgId>, b: set<MsgId>)
    requires a <= b
    ensures |a| <= |b|
  {
    assert b == a + (b - a);
  }

  lemma InTwoParts(ids: set<MsgId>, here: set<MsgId>)
    ensures |ids| <= |ids - here| + |here|
  {
    assert ids == (ids - here) + ids * here;
    FewerIn(ids * here, here);
  }

  lemma {:induction false} IdsCovered(
    net: Network, names: seq<Identity>, from: Identity, payload: Bytes, ids: set<MsgId>)
    requires forall n <- net :: HandedOver(net[n])
    requires forall id <- ids :: exists n :: n in names && n in net && id in RequestIds(net[n].requests, from, payload)
    ensures |ids| <= Deliveries(net, names, from, payload)
    decreases |names|
  {
    hide RequestIds, PairsOf, HandedOver;
    if names == [] {
      assert ids == {};
    } else {
      var init, last := names[..|names| - 1], names[|names| - 1];
      assert names == init + [last];
      var here := if last in net then RequestIds(net[last].requests, from, payload) else {};
      IdsCovered(net, init, from, payload, ids - here);
      if last in net {
        RequestsFew(net[last], from, payload);
      }
      InTwoParts(ids, here);
    }
  }

  // For each sender and payload, the messages settled by an acknowledgement are no more
  // than the deliveries: no two of them share one.
  lemma AcknowledgedAtMostDelivered(
    net: Network, events: seq<Event>, names: seq<Identity>, a: Identity, payload: Bytes)
    requires Fresh(net) && a in net
    requires Distinct(names) && forall n :: n in names <==> n in net
    ensures var end := HappenAll(Start(net), events).net;
      a in end && CountAcked(end[a].acked, payload) <= Deliveries(end, names, a, payload)
  {
    AlwaysGood(net, events);
    var end := HappenAll(Start(net), events).net;
    hide HappenAll, Inv, Sound, AckTruthful, Good, HandedOver, Deliveries, CountAcked, AllGood;
    GoodAt(end, a);
    AckedOnce(end[a]);
    CountIsIds(end[a].acked, payload);
    forall n | n in end ensures HandedOver(end[n]) {
      GoodAt(end, n);
    }
    forall id <- AckedIds(end[a].acked, payload)
      ensures exists n :: n in names && n in end && id in RequestIds(end[n].requests, a, payload)
    {
      var r :| r in end[a].acked && r.msg.data == payload && r.id == id;
      var b :| b in end && Answered(end[a], a, end[b], b, r.id);
      assert Request(a, id, payload) in end[b].requests;
      assert b in names && id in RequestIds(end[b].requests, a, payload);
    }
    IdsCovered(end, names, a, payload, AckedIds(end[a].acked, payload));
  }
}
