// What each connection has been written, exactly: the envelopes routed to its peer since
// its ConnectionUp, in order.
module BrokerTrace {
  import opened Bytes
  import opened Protocol
  import opened Broker
  import opened BrokerLaws
  import opened BrokerRouting

  // The envelopes that went to p, in order.
  function SentTo(routes: seq<Routed>, p: Identity): seq<Envelope> {
    if routes == [] then [] else
    var last := routes[|routes| - 1];
    SentTo(routes[..|routes| - 1], p) + (if p in last.to then [last.e] else [])
  }

  lemma SentToSnoc(routes: seq<Routed>, r: Routed, p: Identity)
    ensures SentTo(routes + [r], p) == SentTo(routes, p) + (if p in r.to then [r.e] else [])
  {
    assert (routes + [r])[..|routes|] == routes;
  }

  // The requests among them.
  function RequestsOf(routes: seq<Routed>): seq<Envelope> {
    if routes == [] then [] else
    var last := routes[|routes| - 1];
    RequestsOf(routes[..|routes| - 1]) + (if last.e.DataReq? then [last.e] else [])
  }

  lemma RequestsOfSnoc(routes: seq<Routed>, r: Routed)
    ensures RequestsOf(routes + [r]) == RequestsOf(routes) + (if r.e.DataReq? then [r.e] else [])
  {
    assert (routes + [r])[..|routes|] == routes;
  }

  function Issued(issued: seq<Issue>, salt: Salt): (es: seq<Envelope>)
    ensures |es| == |issued|
  {
    seq(|issued|, k requires 0 <= k < |issued| => DataReq(MsgId(salt, k), issued[k].msg.data))
  }

  // What connection c should have been written by now.
  ghost predicate Written(s: State, c: nat)
    requires c < |s.channels|
  {
    && c < |s.joined| && s.joined[c] <= |s.routes|
    && s.channels[c].queue <= SentTo(s.routes[s.joined[c]..], s.channels[c].peer)
    && (c in s.conns.Values ==> s.channels[c].queue == SentTo(s.routes[s.joined[c]..], s.channels[c].peer))
  }

  // A registered connection has been written every envelope routed to its peer since its
  // ConnectionUp and no other, in order; one that has gone, or was rejected, a prefix of
  // that. The requests routed are those issued, each once, in the order of their ids.
  ghost predicate Traced(s: State) {
    && Connected(s) && |s.issued| == s.nextId && |s.joined| == |s.channels|
    && (forall c: nat | c < |s.channels| :: Written(s, c))
    && RequestsOf(s.routes) == Issued(s.issued, s.salt)
  }

  lemma SentSince(routes: seq<Routed>, j: nat, r: Routed, p: Identity)
    requires j <= |routes|
    ensures SentTo((routes + [r])[j..], p) == SentTo(routes[j..], p) + (if p in r.to then [r.e] else [])
  {
    assert (routes + [r])[j..] == routes[j..] + [r];
    SentToSnoc(routes[j..], r, p);
  }

  // Routing writes what it logs.
  lemma WrittenLive(s: State, target: Option<Identity>, e: Envelope, p: Identity)
    requires Connected(s) && p in s.conns && Written(s, s.conns[p])
    ensures Written(Route(s, target, e), s.conns[p])
  {
    var c := s.conns[p];
    RouteOnly(s, target, e);
    SentSince(s.routes, s.joined[c], Routed(target, e, s.conns.Keys, Recipients(s, target)), p);
    assert c in s.conns.Values && s.channels[c].peer == p;
    RouteReachesPeer(s, target, e, p);
    hide Route, SentTo, Recipients, Distinct;
  }

  lemma WrittenGone(s: State, target: Option<Identity>, e: Envelope, c: nat)
    requires Connected(s) && c < |s.channels| && c !in s.conns.Values && Written(s, c)
    ensures Written(Route(s, target, e), c)
  {
    RouteOnly(s, target, e);
    SentSince(s.routes, s.joined[c], Routed(target, e, s.conns.Keys, Recipients(s, target)), s.channels[c].peer);
    RouteReachesOthers(s, target, e, c);
    hide Route, SentTo, Recipients, Distinct;
  }

  lemma WrittenRoute(s: State, target: Option<Identity>, e: Envelope, c: nat)
    requires Connected(s) && c < |s.channels| && Written(s, c)
    ensures Written(Route(s, target, e), c)
  {
    if p :| p in s.conns && s.conns[p] == c {
      WrittenLive(s, target, e, p);
    } else {
      WrittenGone(s, target, e, c);
    }
    hide Route, Written, Connected;
  }

  lemma TracedRoute(s: State, target: Option<Identity>, e: Envelope)
    requires Connected(s) && |s.joined| == |s.channels| && forall c: nat | c < |s.channels| :: Written(s, c)
    ensures var t := Route(s, target, e);
      && Connected(t) && |t.joined| == |t.channels| && (forall c: nat | c < |t.channels| :: Written(t, c))
      && RequestsOf(t.routes) == RequestsOf(s.routes) + (if e.DataReq? then [e] else [])
      && t.issued == s.issued && t.nextId == s.nextId && t.salt == s.salt
  {
    var t := Route(s, target, e);
    RouteConnected(s, target, e);
    RouteOnly(s, target, e);
    assert t.routes == s.routes + [Routed(target, e, s.conns.Keys, Recipients(s, target))];
    RequestsOfSnoc(s.routes, Routed(target, e, s.conns.Keys, Recipients(s, target)));
    hide Route, Written, Connected, RequestsOf, Recipients;
    forall c: nat | c < |t.channels| ensures Written(t, c) {
      WrittenRoute(s, target, e, c);
    }
  }

  // Connections, routes and ids unchanged; entries of the table may be gone.
  lemma TracedSame(s: State, t: State)
    requires Traced(s) && Connected(t)
    requires t.channels == s.channels && t.routes == s.routes && t.joined == s.joined
    requires t.issued == s.issued && t.nextId == s.nextId && t.salt == s.salt
    requires forall p <- t.conns :: p in s.conns && t.conns[p] == s.conns[p]
    ensures Traced(t)
  {
    hide Connected, SentTo, RequestsOf;
    forall c: nat | c < |t.channels| ensures Written(t, c) {
      assert Written(s, c);
      if p :| p in t.conns && t.conns[p] == c {
        assert s.conns[p] in s.conns.Values;
      }
    }
  }

  lemma TracedRegister(s: State, msg: Message, retries: nat, prev: Option<MsgId>)
    requires Traced(s)
    ensures var r := Register(s, msg, retries, prev);
      && Connected(r) && |r.joined| == |r.channels| && (forall c: nat | c < |r.channels| :: Written(r, c))
      && RequestsOf(r.routes) + [DataReq(MsgId(s.salt, s.nextId), msg.data)] == Issued(r.issued, r.salt)
      && |r.issued| == r.nextId
  {
    var r := Register(s, msg, retries, prev);
    assert Connected(r) by { hide Distinct, Written, RequestsOf; }
    hide Connected, SentTo, RequestsOf;
    forall c: nat | c < |r.channels| ensures Written(r, c) {
      assert Written(s, c);
    }
  }

  lemma TracedTransmit(s: State, msg: Message, retries: nat, prev: Option<MsgId>)
    requires Traced(s)
    ensures Traced(Transmit(s, msg, retries, prev))
  {
    if Reliable(s, msg.target) {
      TracedRegister(s, msg, retries, prev);
      var r := Register(s, msg, retries, prev);
      hide Route, Connected, Written, RequestsOf, Issued, Register;
      TracedRoute(r, msg.target, DataReq(MsgId(s.salt, s.nextId), msg.data));
    } else {
      var r := s.(posted := s.posted + [msg]);
      assert Connected(r) by { hide Distinct, Written, RequestsOf; }
      hide Route, Connected, RequestsOf, Issued;
      TracedSame(s, r);
      TracedRoute(r, msg.target, Data(msg.data));
      assert RequestsOf(r.routes) + [] == RequestsOf(r.routes);
    }
  }

  lemma TracedSend(s: State, msg: Message)
    requires Traced(s)
    ensures Traced(HandleSend(s, msg))
  {
    if s.conns == map[] {
      assert Connected(HandleSend(s, msg)) by { ConnectedSend(s, msg); }
      hide Connected;
      TracedSame(s, HandleSend(s, msg));
    } else {
      TracedTransmit(s, msg, MAX_RETRIES, None);
      hide Transmit, Traced;
    }
  }

  lemma {:induction false} TracedFlush(s: State, msgs: seq<Message>)
    requires Traced(s)
    ensures Traced(Flush(s, msgs))
    decreases |msgs|
  {
    hide Traced, HandleSend;
    if msgs != [] {
      TracedSend(s, msgs[0]);
      TracedFlush(HandleSend(s, msgs[0]), msgs[1..]);
    }
  }

  // A new connection starts with nothing written and nothing due.
  lemma TracedOpen(s: State, t: State, identity: Identity)
    requires Traced(s) && Connected(t)
    requires t.channels == s.channels + [Channel(identity, [])] && t.joined == s.joined + [|s.routes|]
    requires t.routes == s.routes && t.issued == s.issued && t.nextId == s.nextId && t.salt == s.salt
    requires forall p <- t.conns :: t.conns[p] == |s.channels| || (p in s.conns && t.conns[p] == s.conns[p])
    ensures Traced(t)
  {
    hide Connected, RequestsOf;
    forall c: nat | c < |t.channels| ensures Written(t, c) {
      if c < |s.channels| {
        assert Written(s, c);
        hide SentTo;
        if p :| p in t.conns && t.conns[p] == c {
          assert s.conns[p] in s.conns.Values;
        }
      } else {
        assert t.routes[|s.routes|..] == [];
      }
    }
  }

  lemma TracedUp(s: State, identity: Identity)
    requires Traced(s)
    ensures Traced(HandleUp(s, identity))
  {
    if identity in s.conns {
      assert Connected(HandleUp(s, identity)) by { ConnectedStep(s, Up(identity)); }
      hide Connected, Written, RequestsOf;
      TracedOpen(s, HandleUp(s, identity), identity);
    } else {
      AdmitConnected(s, identity);
      hide Connected, Written, RequestsOf;
      TracedOpen(s, Admit(s, identity), identity);
      hide Traced, Flush;
      TracedFlush(Admit(s, identity), s.buffer);
    }
  }

  lemma TracedReceived(s: State, from: Identity, e: Envelope)
    requires Traced(s)
    ensures Traced(HandleReceived(s, from, e))
  {
    ConnectedReceived(s, from, e);
    if e.DataReq? {
      var r := TakeRequest(s, from, e.id, e.payload);
      assert Connected(r) by { hide Distinct, Written, RequestsOf; }
      hide Connected, Route, RequestsOf;
      TracedSame(s, r);
      TracedRoute(r, Some(from), Ack(e.id));
      assert RequestsOf(r.routes) + [] == RequestsOf(r.routes);
    } else {
      hide Connected, Written, RequestsOf;
      TracedSame(s, HandleReceived(s, from, e));
    }
  }

  lemma TracedForget(s: State, id: MsgId)
    requires Traced(s)
    ensures Traced(s.(pending := s.pending - {id}))
  {
    var rest := s.(pending := s.pending - {id});
    assert Connected(rest) by { hide Distinct, Written, RequestsOf; }
    hide Connected, Written, RequestsOf;
    TracedSame(s, rest);
  }

  lemma TracedGivenUp(s: State, id: MsgId)
    requires Traced(s) && id in s.pending && (s.pending[id].retries == 0 || s.conns == map[])
    ensures Traced(HandleExpire(s, id))
  {
    ConnectedExpire(s, id);
    hide Connected, Written, RequestsOf, Transmit;
    TracedSame(s, HandleExpire(s, id));
  }

  lemma TracedExpire(s: State, id: MsgId)
    requires Traced(s)
    ensures Traced(HandleExpire(s, id))
  {
    hide Traced, Transmit;
    if id in s.pending {
      var p := s.pending[id];
      if p.retries > 0 && s.conns != map[] {
        TracedForget(s, id);
        TracedTransmit(s.(pending := s.pending - {id}), p.msg, p.retries - 1, Some(id));
      } else {
        TracedGivenUp(s, id);
      }
    }
  }

  lemma TracedStep(s: State, input: Input)
    requires Traced(s)
    ensures Traced(Step(s, input))
  {
    match input
    case Send(msg) =>
      var s' := s.(submitted := s.submitted + [msg]);
      assert Connected(s') by { hide Distinct, Written, RequestsOf; }
      hide Connected, Written, RequestsOf, HandleSend;
      TracedSame(s, s');
      TracedSend(s', msg);
    case Up(identity) =>
      TracedUp(s, identity);
      hide Traced, HandleUp;
    case Down(identity) =>
      ConnectedStep(s, input);
      hide Connected, Written, RequestsOf, RemoveFirst;
      TracedSame(s, HandleDown(s, identity));
    case Received(from, e) =>
      TracedReceived(s, from, e);
      hide Traced, HandleReceived;
    case Expire(id) =>
      TracedExpire(s, id);
      hide Traced, HandleExpire;
  }

  lemma {:induction false} TracedRun(s: State, inputs: seq<Input>)
    requires Traced(s)
    ensures Traced(Run(s, inputs))
    decreases |inputs|
  {
    hide Traced, Step;
    if inputs != [] {
      TracedStep(s, inputs[0]);
      TracedRun(Step(s, inputs[0]), inputs[1..]);
    }
  }

  // From the empty broker through any commands.
  lemma WrittenExactly(mode: SendMode, delivery: Delivery, salt: Salt, inputs: seq<Input>)
    ensures Traced(Run(Init(mode, delivery, salt), inputs))
  {
    assert Traced(Init(mode, delivery, salt)) by {
      assert Issued([], salt) == [];
    }
    hide Traced, Run;
    TracedRun(Init(mode, delivery, salt), inputs);
  }
}
