// What the log of routed envelopes says about every run: nothing is routed that was not
// asked for, nothing is transmitted to nobody, each message goes by the guarantee it was
// sent under, and messages leave in the order in which they came.
module BrokerDuties {
  import opened Bytes
  import opened Protocol
  import opened Broker
  import opened BrokerLaws
  import opened BrokerRouting
  import opened BrokerEffects

  // ---- Reading the log ----

  // The messages that went out as plain data, in order.
  function Posts(routes: seq<Routed>): seq<Message> {
    if routes == [] then [] else
    var last := routes[|routes| - 1];
    Posts(routes[..|routes| - 1]) + (if last.e.Data? then [Message(last.target, last.e.payload)] else [])
  }

  // The transmissions under an id.
  function Requested(routes: seq<Routed>): seq<Resolved> {
    if routes == [] then [] else
    var last := routes[|routes| - 1];
    Requested(routes[..|routes| - 1])
    + (if last.e.DataReq? then [Resolved(last.e.id, Message(last.target, last.e.payload))] else [])
  }

  // The acknowledgements, with the peer each is for.
  function Answers(routes: seq<Routed>): seq<(Option<Identity>, MsgId)> {
    if routes == [] then [] else
    var last := routes[|routes| - 1];
    Answers(routes[..|routes| - 1]) + (if last.e.Ack? then [(last.target, last.e.id)] else [])
  }

  // How often the round robin picked a peer.
  function Turns(mode: SendMode, routes: seq<Routed>): nat {
    if routes == [] then 0 else
    var last := routes[|routes| - 1];
    Turns(mode, routes[..|routes| - 1])
    + (if last.target.None? && mode == RoundRobin && last.among != {} then 1 else 0)
  }

  lemma LogSnoc(mode: SendMode, routes: seq<Routed>, r: Routed)
    ensures Posts(routes + [r]) == Posts(routes) + (if r.e.Data? then [Message(r.target, r.e.payload)] else [])
    ensures Requested(routes + [r]) ==
      Requested(routes) + (if r.e.DataReq? then [Resolved(r.e.id, Message(r.target, r.e.payload))] else [])
    ensures Answers(routes + [r]) == Answers(routes) + (if r.e.Ack? then [(r.target, r.e.id)] else [])
    ensures Turns(mode, routes + [r]) ==
      Turns(mode, routes) + (if r.target.None? && mode == RoundRobin && r.among != {} then 1 else 0)
  {
    assert (routes + [r])[..|routes|] == routes;
  }

  function Numbered(issued: seq<Issue>, salt: Salt): (rs: seq<Resolved>)
    ensures |rs| == |issued|
  {
    seq(|issued|, k requires 0 <= k < |issued| => Resolved(MsgId(salt, k), issued[k].msg))
  }

  function Due(requests: seq<Request>): (rs: seq<(Option<Identity>, MsgId)>)
    ensures |rs| == |requests|
  {
    seq(|requests|, k requires 0 <= k < |requests| => (Some(requests[k].from), requests[k].id))
  }

  // ---- The law ----

  // A named peer gets it if it is connected; published, everyone connected; else exactly
  // one of those connected, if there is one.
  ghost predicate Addressed(mode: SendMode, r: Routed) {
    match r.target
    case Some(p) => r.to == r.among * {p}
    case None =>
      if mode == Publish then r.to == r.among else r.to <= r.among && |r.to| == (if r.among == {} then 0 else 1)
  }

  // The log is complete and says nothing else.
  ghost predicate Complete(s: State) {
    && Posts(s.routes) == s.posted
    && Requested(s.routes) == Numbered(s.issued, s.salt) && |s.issued| == s.nextId
    && Answers(s.routes) == Due(s.requests)
    && Turns(s.mode, s.routes) == s.cursor
  }

  // Data is routed only while somebody is connected, under ids drawn before.
  ghost predicate Heeded(s: State) {
    forall r <- s.routes ::
      && Addressed(s.mode, r) && (r.e.Data? || r.e.DataReq? || r.e.Ack?)
      && (!r.e.Ack? ==> r.among != {})
      && (r.e.DataReq? ==> r.e.id.counter < |s.issued|)
  }

  // At least once holds for named peers and for the round robin, and for nothing else.
  ghost predicate Guaranteed(s: State) {
    && (forall m <- s.posted :: !(s.delivery == AtLeastOnce && (m.target.Some? || s.mode == RoundRobin)))
    && (forall i <- s.issued :: s.delivery == AtLeastOnce && (i.msg.target.Some? || s.mode == RoundRobin))
  }

  ghost predicate Dutiful(s: State) {
    Connected(s) && Complete(s) && Heeded(s) && Guaranteed(s)
  }

  // One more envelope in the log.
  lemma RouteLogs(s: State, target: Option<Identity>, e: Envelope)
    requires Connected(s)
    ensures var t := Route(s, target, e);
      && Connected(t) && OnlyRouted(s, t) && |t.routes| == |s.routes| + 1
      && t.routes == s.routes + [t.routes[|s.routes|]]
      && (var r := t.routes[|s.routes|];
          r.target == target && r.e == e && r.among == s.conns.Keys && Addressed(s.mode, r))
      && t.cursor == s.cursor + (if target.None? && s.mode == RoundRobin && s.conns != map[] then 1 else 0)
  {
    RouteConnected(s, target, e);
    RouteOnly(s, target, e);
    assert Route(s, target, e).routes == s.routes + [Routed(target, e, s.conns.Keys, Recipients(s, target))];
    if s.conns != map[] {
      TurnConnected(s);
    }
    OrderedConnected(s);
    hide Distinct, OnlyRouted;
  }

  lemma OrderedConnected(s: State)
    requires Connected(s)
    ensures s.order != [] ==> s.conns != map[]
  {
    if s.order != [] {
      assert s.order[0] in s.order;
    }
    hide Distinct;
  }

  // A route of e on r, which differs from the dutiful s in the history e stands for.
  lemma DutifulRoute(s: State, r: State, target: Option<Identity>, e: Envelope)
    requires Dutiful(s) && Connected(r) && Guaranteed(r)
    requires r.routes == s.routes && r.cursor == s.cursor && r.mode == s.mode && r.salt == s.salt
    requires s.issued <= r.issued && |r.issued| == r.nextId
    requires e.Data? || e.DataReq? || e.Ack?
    requires !e.Ack? ==> r.conns != map[]
    requires r.posted == s.posted + (if e.Data? then [Message(target, e.payload)] else [])
    requires Numbered(r.issued, r.salt) ==
      Numbered(s.issued, s.salt) + (if e.DataReq? then [Resolved(e.id, Message(target, e.payload))] else [])
    requires Due(r.requests) == Due(s.requests) + (if e.Ack? then [(target, e.id)] else [])
    requires e.DataReq? ==> e.id.counter < |r.issued|
    ensures Dutiful(Route(r, target, e))
  {
    var t := Route(r, target, e);
    RouteLogs(r, target, e);
    LogSnoc(s.mode, s.routes, t.routes[|s.routes|]);
    NoKeys(r.conns);
    hide Posts, Requested, Answers, Turns, Numbered, Due, Addressed, Connected, Route, Guaranteed;
    assert Guaranteed(t) by { GuaranteedSame(r, t); }
    assert Heeded(t) by { HeededMore(s, r, t); }
    hide Heeded;
  }

  lemma GuaranteedSame(s: State, t: State)
    requires Guaranteed(s) && OnlyRouted(s, t)
    ensures Guaranteed(t)
  {
  }

  lemma HeededMore(s: State, r: State, t: State)
    requires Heeded(s) && OnlyRouted(r, t) && r.mode == s.mode && s.issued <= r.issued
    requires |t.routes| == |s.routes| + 1 && t.routes == s.routes + [t.routes[|s.routes|]]
    requires var x := t.routes[|s.routes|];
      && Addressed(s.mode, x) && (x.e.Data? || x.e.DataReq? || x.e.Ack?)
      && (!x.e.Ack? ==> x.among != {}) && (x.e.DataReq? ==> x.e.id.counter < |r.issued|)
    ensures Heeded(t)
  {
    hide Addressed;
  }

  lemma NoKeys(conns: map<Identity, nat>)
    ensures conns.Keys == {} <==> conns == map[]
  {
    if conns != map[] {
      var p :| p in conns;
      assert p in conns.Keys;
    }
  }

  lemma DutifulTransmit(s: State, m: Message, retries: nat, prev: Option<MsgId>)
    requires Dutiful(s) && s.conns != map[]
    ensures Dutiful(Transmit(s, m, retries, prev))
  {
    hide Posts, Requested, Answers, Turns, Heeded, Route;
    if Reliable(s, m.target) {
      var r := Register(s, m, retries, prev);
      assert Connected(r) by { hide Distinct; }
      hide Connected;
      assert m == Message(m.target, m.data);
      assert Numbered(r.issued, r.salt) == Numbered(s.issued, s.salt) + [Resolved(MsgId(s.salt, s.nextId), m)];
      assert Due(r.requests) == Due(s.requests) + [];
      assert r.posted == s.posted + [];
      DutifulRoute(s, r, m.target, DataReq(MsgId(s.salt, s.nextId), m.data));
    } else {
      var r := s.(posted := s.posted + [m]);
      assert Connected(r) by { hide Distinct; }
      hide Connected;
      assert m == Message(m.target, m.data);
      assert Numbered(r.issued, r.salt) == Numbered(s.issued, s.salt) + [];
      assert Due(r.requests) == Due(s.requests) + [];
      DutifulRoute(s, r, m.target, Data(m.data));
    }
  }

  // The parts of the state the law does not look at may change.
  lemma DutifulSame(s: State, t: State)
    requires Dutiful(s) && Connected(t)
    requires t.mode == s.mode && t.delivery == s.delivery && t.salt == s.salt && t.nextId == s.nextId
    requires t.routes == s.routes && t.cursor == s.cursor && t.posted == s.posted && t.issued == s.issued
    requires t.requests == s.requests
    ensures Dutiful(t)
  {
    hide Connected, Posts, Requested, Answers, Turns, Numbered, Due, Addressed;
  }

  lemma DutifulSend(s: State, m: Message)
    requires Dutiful(s)
    ensures Dutiful(HandleSend(s, m))
  {
    if s.conns == map[] {
      ConnectedSend(s, m);
      hide Connected, Complete, Heeded, Guaranteed;
      DutifulSame(s, HandleSend(s, m));
    } else {
      DutifulTransmit(s, m, MAX_RETRIES, None);
      hide Transmit, Dutiful;
    }
  }

  lemma {:induction false} DutifulFlush(s: State, msgs: seq<Message>)
    requires Dutiful(s)
    ensures Dutiful(Flush(s, msgs))
    decreases |msgs|
  {
    hide Dutiful, HandleSend;
    if msgs != [] {
      DutifulSend(s, msgs[0]);
      DutifulFlush(HandleSend(s, msgs[0]), msgs[1..]);
    }
  }

  lemma DutifulUp(s: State, identity: Identity)
    requires Dutiful(s)
    ensures Dutiful(HandleUp(s, identity))
  {
    if identity in s.conns {
      assert Connected(HandleUp(s, identity)) by { ConnectedStep(s, Up(identity)); }
      hide Connected, Complete, Heeded, Guaranteed;
      DutifulSame(s, HandleUp(s, identity));
    } else {
      AdmitConnected(s, identity);
      hide Connected, Complete, Heeded, Guaranteed, Flush;
      DutifulSame(s, Admit(s, identity));
      DutifulFlush(Admit(s, identity), s.buffer);
      hide Dutiful;
    }
  }

  lemma DutifulRequest(s: State, from: Identity, id: MsgId, payload: Bytes)
    requires Dutiful(s)
    ensures Dutiful(HandleReceived(s, from, DataReq(id, payload)))
  {
    var r := TakeRequest(s, from, id, payload);
    assert Connected(r) by { hide Distinct; }
    hide Connected, Posts, Requested, Answers, Turns, Heeded, Route;
    assert r.posted == s.posted + [];
    assert Numbered(r.issued, r.salt) == Numbered(s.issued, s.salt) + [];
    assert Due(r.requests) == Due(s.requests) + [(Some(from), id)];
    DutifulRoute(s, r, Some(from), Ack(id));
  }

  lemma DutifulReceived(s: State, from: Identity, e: Envelope)
    requires Dutiful(s)
    ensures Dutiful(HandleReceived(s, from, e))
  {
    if e.DataReq? {
      DutifulRequest(s, from, e.id, e.payload);
      hide Dutiful, HandleReceived;
    } else {
      ConnectedReceived(s, from, e);
      hide Connected, Complete, Heeded, Guaranteed;
      DutifulSame(s, HandleReceived(s, from, e));
    }
  }

  lemma DutifulExpire(s: State, id: MsgId)
    requires Dutiful(s)
    ensures Dutiful(HandleExpire(s, id))
  {
    hide Transmit, Complete, Heeded, Guaranteed;
    if id in s.pending && s.pending[id].retries > 0 && s.conns != map[] {
      var rest := s.(pending := s.pending - {id});
      assert Connected(rest) by { hide Distinct; }
      hide Connected;
      DutifulSame(s, rest);
      hide Dutiful;
      DutifulTransmit(rest, s.pending[id].msg, s.pending[id].retries - 1, Some(id));
    } else if id in s.pending {
      ConnectedExpire(s, id);
      hide Connected;
      DutifulSame(s, HandleExpire(s, id));
    }
  }

  lemma DutifulStep(s: State, input: Input)
    requires Dutiful(s)
    ensures Dutiful(Step(s, input))
  {
    match input
    case Send(msg) =>
      var asked := s.(submitted := s.submitted + [msg]);
      assert Connected(asked) by { hide Distinct; }
      hide Connected, Complete, Heeded, Guaranteed, HandleSend;
      DutifulSame(s, asked);
      DutifulSend(asked, msg);
    case Up(identity) =>
      DutifulUp(s, identity);
      hide Dutiful, HandleUp;
    case Down(identity) =>
      ConnectedStep(s, input);
      hide Connected, Complete, Heeded, Guaranteed, RemoveFirst;
      DutifulSame(s, HandleDown(s, identity));
    case Received(from, e) =>
      DutifulReceived(s, from, e);
      hide Dutiful, HandleReceived;
    case Expire(id) =>
      DutifulExpire(s, id);
      hide Dutiful, HandleExpire;
  }

  lemma {:induction false} DutifulRun(s: State, inputs: seq<Input>)
    requires Dutiful(s)
    ensures Dutiful(Run(s, inputs))
    decreases |inputs|
  {
    hide Dutiful, Step;
    if inputs != [] {
      DutifulStep(s, inputs[0]);
      DutifulRun(Step(s, inputs[0]), inputs[1..]);
    }
  }

  lemma AlwaysDutiful(mode: SendMode, delivery: Delivery, salt: Salt, inputs: seq<Input>)
    ensures Dutiful(Run(Init(mode, delivery, salt), inputs))
  {
    assert Dutiful(Init(mode, delivery, salt));
    hide Dutiful, Run;
    DutifulRun(Init(mode, delivery, salt), inputs);
  }

  // ---- What follows for every run ----

  // Round robin and at least once: nothing goes out without an id. At most once: nothing
  // ever has one.
  lemma GuaranteeKept(mode: SendMode, delivery: Delivery, salt: Salt, inputs: seq<Input>)
    ensures var s := Run(Init(mode, delivery, salt), inputs);
      && (delivery == AtLeastOnce && mode == RoundRobin ==> s.posted == [])
      && (delivery == AtMostOnce ==> s.issued == [] && s.pending == map[] && s.dropped == [])
      && (delivery == AtLeastOnce ==> forall m <- s.posted :: m.target.None? && mode == Publish)
  {
    AlwaysDutiful(mode, delivery, salt, inputs);
    InitInv(mode, delivery, salt);
    RunInv(Init(mode, delivery, salt), inputs);
    RunConfig(Init(mode, delivery, salt), inputs);
    var s := Run(Init(mode, delivery, salt), inputs);
    hide Run, Connected, Complete, Heeded, Conserved, OneFate, InOrder, Attempts, Linked;
    if s.posted != [] {
      assert s.posted[0] in s.posted;
    }
    if s.issued != [] {
      assert s.issued[0] in s.issued;
    }
    if s.dropped != [] {
      assert s.dropped[0] in s.dropped;
    }
  }

  // Every transmission counted against a message's budget was routed, for that message,
  // while somebody was connected; in the round robin, to exactly one peer.
  ghost predicate WentOut(s: State, id: MsgId, m: Message) {
    exists r <- s.routes :: r.e == DataReq(id, m.data) && r.target == m.target && r.among != {} && Addressed(s.mode, r)
  }

  lemma TransmissionsWentOut(s: State, k: nat)
    requires Dutiful(s) && k < |s.issued|
    ensures WentOut(s, MsgId(s.salt, k), s.issued[k].msg)
  {
    var m := s.issued[k].msg;
    assert Requested(s.routes)[k] == Resolved(MsgId(s.salt, k), m);
    var r := FindRequest(s.routes, Resolved(MsgId(s.salt, k), m));
    hide Connected, Addressed, Guaranteed, Requested, Posts, Answers, Turns;
  }

  lemma {:induction false} FindRequest(routes: seq<Routed>, x: Resolved) returns (r: Routed)
    requires x in Requested(routes)
    ensures r in routes && r.e == DataReq(x.id, x.msg.data) && r.target == x.msg.target
    decreases |routes|
  {
    r := routes[|routes| - 1];
    if r.e.DataReq? && Resolved(r.e.id, Message(r.target, r.e.payload)) == x {
      return;
    }
    r := FindRequest(routes[..|routes| - 1], x);
  }

  // No budget is spent on nobody: every id ever drawn, and so each of the transmissions of
  // a pending or dropped message, went out while somebody was connected.
  lemma NoIdleTransmission(mode: SendMode, delivery: Delivery, salt: Salt, inputs: seq<Input>)
    ensures var s := Run(Init(mode, delivery, salt), inputs);
      forall k: nat | k < |s.issued| :: WentOut(s, MsgId(s.salt, k), s.issued[k].msg)
  {
    AlwaysDutiful(mode, delivery, salt, inputs);
    var s := Run(Init(mode, delivery, salt), inputs);
    hide Run, Dutiful, WentOut;
    forall k: nat | k < |s.issued| ensures WentOut(s, MsgId(s.salt, k), s.issued[k].msg) {
      TransmissionsWentOut(s, k);
    }
  }

  // A message is dropped only after six transmissions of it, under six ids, each of which
  // went out while somebody was connected.
  lemma SixWentOut(mode: SendMode, delivery: Delivery, salt: Salt, inputs: seq<Input>, r: Resolved)
    requires r in Run(Init(mode, delivery, salt), inputs).dropped
    ensures var s := Run(Init(mode, delivery, salt), inputs);
      var ns := Transmissions(s.issued, r.id.counter);
      && |ns| == 6 && (forall i, j | 0 <= i < j < 6 :: ns[i] < ns[j])
      && (forall i | 0 <= i < 6 :: WentOut(s, MsgId(s.salt, ns[i]), r.msg))
  {
    NoSilentLoss(mode, delivery, salt, inputs);
    NoIdleTransmission(mode, delivery, salt, inputs);
    hide Run, WentOut, Transmissions, Held, MsgsOf;
  }

  // ---- First in, first out ----

  // The messages that went out for the first time since they came, in order: plain data,
  // and requests that repeat no other.
  function Firsts(routes: seq<Routed>, issued: seq<Issue>): seq<Message> {
    if routes == [] then [] else
    var last := routes[|routes| - 1];
    Firsts(routes[..|routes| - 1], issued) + First(last, issued)
  }

  function First(r: Routed, issued: seq<Issue>): seq<Message> {
    match r.e
    case Data(payload) => [Message(r.target, payload)]
    case DataReq(id, payload) =>
      if id.counter < |issued| && issued[id.counter].prev == None then [Message(r.target, payload)] else []
    case _ => []
  }

  lemma FirstsSnoc(routes: seq<Routed>, r: Routed, issued: seq<Issue>)
    ensures Firsts(routes + [r], issued) == Firsts(routes, issued) + First(r, issued)
  {
    assert (routes + [r])[..|routes|] == routes;
  }

  // Later ids do not change which transmissions were first ones.
  lemma {:induction false} FirstsStable(routes: seq<Routed>, issued: seq<Issue>, more: seq<Issue>)
    requires forall r <- routes :: r.e.DataReq? ==> r.e.id.counter < |issued|
    ensures Firsts(routes, issued + more) == Firsts(routes, issued)
    decreases |routes|
  {
    if routes != [] {
      assert routes[|routes| - 1] in routes;
      FirstsStable(routes[..|routes| - 1], issued, more);
    }
  }

  // What has come: the messages sent, and those an expiry returns to the buffer.
  function Came(s: State, input: Input): seq<Message> {
    match input
    case Send(m) => [m]
    case Expire(id) =>
      if id in s.pending && s.pending[id].retries > 0 && s.conns == map[] then [s.pending[id].msg] else []
    case _ => []
  }

  function CameIn(s: State, inputs: seq<Input>): seq<Message>
    decreases |inputs|
  {
    if inputs == [] then [] else Came(s, inputs[0]) + CameIn(Step(s, inputs[0]), inputs[1..])
  }

  function Gone(s: State): seq<Message> {
    Firsts(s.routes, s.issued)
  }

  lemma GoneRoute(s: State, r: State, target: Option<Identity>, e: Envelope, more: seq<Issue>)
    requires Dutiful(s) && Connected(r) && r.routes == s.routes && r.issued == s.issued + more
    ensures Gone(Route(r, target, e)) == Gone(s) + First(Routed(target, e, {}, {}), r.issued)
  {
    var t := Route(r, target, e);
    RouteLogs(r, target, e);
    FirstsStable(s.routes, s.issued, more);
    FirstsSnoc(s.routes, t.routes[|s.routes|], r.issued);
    hide Route, Firsts, Connected, Complete, Guaranteed, Addressed;
  }

  lemma GoneTransmit(s: State, m: Message, retries: nat, prev: Option<MsgId>)
    requires Dutiful(s) && (prev.Some? ==> Reliable(s, m.target))
    ensures var t := Transmit(s, m, retries, prev);
      && Gone(t) == Gone(s) + (if prev == None then [m] else [])
      && t.buffer == s.buffer && t.conns == s.conns
  {
    TransmitShape(s, m, retries, prev);
    hide Route, Heeded, Guaranteed, Gone;
    assert m == Message(m.target, m.data);
    if Reliable(s, m.target) {
      var r := Register(s, m, retries, prev);
      assert Connected(r) by { hide Distinct; }
      assert |s.issued| == s.nextId;
      assert r.issued[s.nextId] == Issue(m, prev);
      GoneRoute(s, r, m.target, DataReq(MsgId(s.salt, s.nextId), m.data), [Issue(m, prev)]);
    } else {
      var r := s.(posted := s.posted + [m]);
      assert Connected(r) by { hide Distinct; }
      assert r.issued == s.issued + [];
      GoneRoute(s, r, m.target, Data(m.data), []);
    }
    hide Connected, Complete;
  }

  lemma {:induction false} GoneFlush(s: State, msgs: seq<Message>)
    requires Dutiful(s) && s.conns != map[]
    ensures var t := Flush(s, msgs); Gone(t) == Gone(s) + msgs && t.buffer == s.buffer
    decreases |msgs|
  {
    hide Dutiful, Transmit, Gone;
    if msgs == [] {
      assert Gone(s) + [] == Gone(s);
    } else {
      DutifulSend(s, msgs[0]);
      GoneTransmit(s, msgs[0], MAX_RETRIES, None);
      GoneFlush(HandleSend(s, msgs[0]), msgs[1..]);
      Associate(Gone(s), [msgs[0]], msgs[1..]);
      assert [msgs[0]] + msgs[1..] == msgs;
    }
  }

  // Whatever has come is gone or still buffered, in the order in which it came.
  ghost predicate Queued(s: State, t: State, came: seq<Message>) {
    Gone(t) + t.buffer == Gone(s) + s.buffer + came
  }

  lemma QueuedSame(s: State, t: State)
    requires t.routes == s.routes && t.issued == s.issued && t.buffer == s.buffer
    ensures Queued(s, t, [])
  {
    assert Gone(s) + s.buffer + [] == Gone(s) + s.buffer;
    hide Firsts;
  }

  lemma QueuedSend(s: State, m: Message)
    requires Dutiful(s)
    ensures Queued(s, Step(s, Send(m)), [m])
  {
    var asked := s.(submitted := s.submitted + [m]);
    assert Connected(asked) by { hide Distinct; }
    assert Dutiful(asked) by { hide Connected, Complete, Heeded, Guaranteed; DutifulSame(s, asked); }
    assert Gone(asked) == Gone(s) by { hide Firsts; }
    if s.conns == map[] {
      hide Dutiful, Firsts;
      Associate(Gone(s), s.buffer, [m]);
    } else {
      GoneTransmit(asked, m, MAX_RETRIES, None);
      assert s.buffer == [] by { hide Distinct; }
      hide Dutiful, Transmit, Gone;
      assert Gone(s) + [m] + [] == Gone(s) + [] + [m];
    }
  }

  lemma QueuedUp(s: State, identity: Identity)
    requires Dutiful(s)
    ensures Queued(s, Step(s, Up(identity)), [])
  {
    if identity in s.conns {
      QueuedSame(s, Step(s, Up(identity)));
      hide Dutiful, Queued;
    } else {
      var a := Admit(s, identity);
      AdmitConnected(s, identity);
      assert Dutiful(a) by { hide Connected, Complete, Heeded, Guaranteed; DutifulSame(s, a); }
      hide Dutiful, Flush;
      GoneFlush(a, s.buffer);
      assert Gone(a) == Gone(s) by { hide Firsts; }
      hide Gone;
      assert Gone(s) + s.buffer + [] == Gone(s) + s.buffer;
    }
  }

  lemma QueuedRequest(s: State, from: Identity, id: MsgId, payload: Bytes)
    requires Dutiful(s)
    ensures Queued(s, Step(s, Received(from, DataReq(id, payload))), [])
  {
    var r := TakeRequest(s, from, id, payload);
    assert Connected(r) by { hide Distinct; }
    RouteOnly(r, Some(from), Ack(id));
    assert r.issued == s.issued + [];
    GoneRoute(s, r, Some(from), Ack(id), []);
    hide Dutiful, Route, Gone;
    assert Gone(s) + [] == Gone(s) && Gone(s) + s.buffer + [] == Gone(s) + s.buffer;
  }

  lemma QueuedResend(s: State, id: MsgId)
    requires Dutiful(s) && Budgeted(s) && id in s.pending && s.pending[id].retries > 0 && s.conns != map[]
    ensures Queued(s, Step(s, Expire(id)), [])
  {
    var p := s.pending[id];
    var rest := s.(pending := s.pending - {id});
    ForgotDutiful(s, id);
    ResendIs(s, id);
    assert Reliable(rest, p.msg.target) by { hide Attempts, Linked; }
    hide Dutiful, Transmit, Step, Gone, Budgeted;
    GoneTransmit(rest, p.msg, p.retries - 1, Some(id));
    assert Gone(s) + [] == Gone(s) && Gone(s) + s.buffer + [] == Gone(s) + s.buffer;
  }

  lemma ForgotDutiful(s: State, id: MsgId)
    requires Dutiful(s)
    ensures var rest := s.(pending := s.pending - {id}); Dutiful(rest) && Gone(rest) == Gone(s)
  {
    var rest := s.(pending := s.pending - {id});
    ForgotConnected(s, id);
    hide Connected, Complete, Heeded, Guaranteed, Firsts;
    DutifulSame(s, rest);
  }

  lemma QueuedExpire(s: State, id: MsgId)
    requires Dutiful(s) && Budgeted(s)
    ensures Queued(s, Step(s, Expire(id)), Came(s, Expire(id)))
  {
    hide Dutiful, Budgeted, Transmit;
    if id in s.pending && s.pending[id].retries > 0 && s.conns != map[] {
      QueuedResend(s, id);
    } else if id in s.pending && s.pending[id].retries > 0 {
      var m := s.pending[id].msg;
      assert Gone(Step(s, Expire(id))) == Gone(s) by { hide Firsts; }
      hide Gone;
      Associate(Gone(s), s.buffer, [m]);
    } else {
      QueuedSame(s, Step(s, Expire(id)));
    }
    hide Queued;
  }

  lemma QueuedStep(s: State, input: Input)
    requires Dutiful(s) && Budgeted(s)
    ensures Queued(s, Step(s, input), Came(s, input))
  {
    hide Dutiful, Budgeted;
    match input
    case Send(m) =>
      QueuedSend(s, m);
      hide Queued, Step;
    case Up(identity) =>
      QueuedUp(s, identity);
      hide Queued, Step;
    case Down(identity) => QueuedSame(s, Step(s, input));
    case Received(from, e) =>
      if e.DataReq? {
        QueuedRequest(s, from, e.id, e.payload);
        hide Queued, Step;
      } else {
        QueuedSame(s, Step(s, input));
      }
    case Expire(id) =>
      QueuedExpire(s, id);
      hide Queued, Step;
  }

  lemma {:induction false} QueuedRun(s: State, inputs: seq<Input>)
    requires Dutiful(s) && Inv(s)
    ensures Queued(s, Run(s, inputs), CameIn(s, inputs))
    decreases |inputs|
  {
    hide Dutiful, Budgeted, Step, Gone, Came, Connected, Conserved, OneFate, InOrder;
    if inputs == [] {
      assert Gone(s) + s.buffer + [] == Gone(s) + s.buffer;
    } else {
      var t := Step(s, inputs[0]);
      QueuedStep(s, inputs[0]);
      DutifulStep(s, inputs[0]);
      StepInv(s, inputs[0]);
      QueuedRun(t, inputs[1..]);
      Associate(Gone(s) + s.buffer, Came(s, inputs[0]), CameIn(t, inputs[1..]));
    }
  }

  // From the empty broker: the messages gone out for the first time, then the buffer, are
  // the messages that came, whatever their guarantee.
  lemma FirstInFirstOut(mode: SendMode, delivery: Delivery, salt: Salt, inputs: seq<Input>)
    ensures var start := Init(mode, delivery, salt); var s := Run(start, inputs);
      Gone(s) + s.buffer == CameIn(start, inputs)
  {
    var start := Init(mode, delivery, salt);
    assert Dutiful(start);
    InitInv(mode, delivery, salt);
    assert Gone(start) + start.buffer == [];
    hide Dutiful, Inv, Run, CameIn, Gone;
    QueuedRun(start, inputs);
    assert [] + CameIn(start, inputs) == CameIn(start, inputs);
  }

  // ---- What is handed over ----

  function HandedBy(input: Input): seq<(Identity, Bytes)> {
    match input
    case Received(from, Data(payload)) => [(from, payload)]
    case Received(from, DataReq(_, payload)) => [(from, payload)]
    case _ => []
  }

  function Handed(inputs: seq<Input>): seq<(Identity, Bytes)> {
    if inputs == [] then [] else HandedBy(inputs[0]) + Handed(inputs[1..])
  }

  lemma {:induction false} FlushDelivers(s: State, msgs: seq<Message>)
    ensures Flush(s, msgs).delivered == s.delivered
    decreases |msgs|
  {
    if msgs != [] {
      TransmitShape(s, msgs[0], MAX_RETRIES, None);
      hide Transmit;
      FlushDelivers(HandleSend(s, msgs[0]), msgs[1..]);
    }
  }

  // Data of either kind is handed over, and nothing else is.
  lemma StepDelivers(s: State, input: Input)
    ensures Step(s, input).delivered == s.delivered + HandedBy(input)
  {
    match input
    case Send(m) =>
      TransmitShape(s.(submitted := s.submitted + [m]), m, MAX_RETRIES, None);
      hide Transmit;
    case Up(identity) =>
      if identity !in s.conns {
        FlushDelivers(Admit(s, identity), s.buffer);
      }
      hide Flush;
    case Down(_) =>
    case Received(from, e) =>
      if e.DataReq? {
        RouteOnly(TakeRequest(s, from, e.id, e.payload), Some(from), Ack(e.id));
      }
      hide Route;
    case Expire(id) =>
      if id in s.pending && s.pending[id].retries > 0 {
        var p := s.pending[id];
        TransmitShape(s.(pending := s.pending - {id}), p.msg, p.retries - 1, Some(id));
      }
      hide Transmit;
  }

  // Over a run the application receives the payloads of all data that came, in order, each
  // with its sender, as often as it came.
  lemma {:induction false} RunDelivers(s: State, inputs: seq<Input>)
    ensures Run(s, inputs).delivered == s.delivered + Handed(inputs)
    decreases |inputs|
  {
    hide Step, HandedBy;
    if inputs == [] {
      assert s.delivered + [] == s.delivered;
    } else {
      StepDelivers(s, inputs[0]);
      RunDelivers(Step(s, inputs[0]), inputs[1..]);
      Associate(s.delivered, HandedBy(inputs[0]), Handed(inputs[1..]));
    }
  }
}
