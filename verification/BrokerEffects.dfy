// What every command does to the broker, told without the functions that do it: what the
// whole new state is, who is written what, and under which condition.
module BrokerEffects {
  import opened Bytes
  import opened Protocol
  import opened Broker
  import opened BrokerLaws
  import opened BrokerRouting

  // An envelope goes to its target if that is connected, under Publish to everyone, in
  // the round robin to the peer at the cursor.
  ghost predicate Chosen(s: State, target: Option<Identity>, to: set<Identity>) {
    && (target.Some? ==> forall p :: p in to <==> p == target.value && p in s.conns)
    && (target.None? && s.mode == Publish ==> forall p :: p in to <==> p in s.conns)
    && (target.None? && s.mode == RoundRobin ==>
          forall p :: p in to <==> s.order != [] && p == s.order[s.cursor % |s.order|])
  }

  // One envelope has been routed: each chosen peer's channel has one more envelope at its
  // end, all other channels are as before, and only the log and the cursor changed else.
  ghost predicate Sent(s: State, t: State, target: Option<Identity>, e: Envelope) {
    && |t.routes| == |s.routes| + 1
    && (var r := t.routes[|s.routes|];
        && r.target == target && r.e == e && r.among == s.conns.Keys && Chosen(s, target, r.to)
        && t == s.(routes := s.routes + [r], channels := t.channels, cursor := t.cursor)
        && |t.channels| == |s.channels|
        && (forall c | 0 <= c < |s.channels| :: t.channels[c].peer == s.channels[c].peer)
        && (forall p <- s.conns :: QueueGets(s, t, s.conns[p], if p in r.to then [e] else []))
        && (forall c | 0 <= c < |s.channels| && c !in s.conns.Values :: t.channels[c] == s.channels[c]))
    && t.cursor == s.cursor + (if target.None? && s.mode == RoundRobin && s.order != [] then 1 else 0)
  }

  ghost predicate QueueGets(s: State, t: State, c: nat, es: seq<Envelope>) {
    c < |s.channels| && c < |t.channels| && t.channels[c].queue == s.channels[c].queue + es
  }

  lemma RecipientsChosen(s: State, target: Option<Identity>)
    ensures Chosen(s, target, Recipients(s, target))
  {
  }

  lemma RouteLogged(s: State, target: Option<Identity>, e: Envelope)
    ensures Route(s, target, e).routes == s.routes + [Routed(target, e, s.conns.Keys, Recipients(s, target))]
  {
  }

  lemma RouteSends(s: State, target: Option<Identity>, e: Envelope)
    requires Connected(s)
    ensures Sent(s, Route(s, target, e), target, e)
  {
    hide Route, Recipients, Connected, Chosen;
    RouteLogged(s, target, e);
    RecipientsChosen(s, target);
    RouteOnly(s, target, e);
    RouteReaches(s, target, e);
    CursorMoves(s, target, e);
    HasChannels(s);
  }

  lemma HasChannels(s: State)
    requires Connected(s)
    ensures forall p <- s.conns :: s.conns[p] < |s.channels|
  {
    hide Distinct;
  }

  lemma CursorMoves(s: State, target: Option<Identity>, e: Envelope)
    ensures Route(s, target, e).cursor ==
      s.cursor + (if target.None? && s.mode == RoundRobin && s.order != [] then 1 else 0)
  {
  }

  // Publishing reaches every connected peer.
  lemma PublishReachesAll(s: State, e: Envelope, p: Identity)
    requires Connected(s) && s.mode == Publish && p in s.conns
    ensures QueueOf(Route(s, None, e), p) == QueueOf(s, p) + [e]
  {
    RouteSends(s, None, e);
    RouteConnected(s, None, e);
    hide Route, Distinct;
  }

  // One transmission. At least once, to one peer: the next id, with a timer, a pending
  // entry with this budget and one request under it. Otherwise plain data and no trace.
  ghost predicate Transmitted(s: State, t: State, m: Message, retries: nat, prev: Option<MsgId>) {
    var id := MsgId(s.salt, s.nextId);
    if s.delivery == AtLeastOnce && (m.target.Some? || s.mode == RoundRobin) then
      Sent(s.(nextId := s.nextId + 1, timer := s.timer + [Arm(id)], pending := s.pending[id := Pending(m, retries)],
              issued := s.issued + [Issue(m, prev)]), t, m.target, DataReq(id, m.data))
    else
      Sent(s.(posted := s.posted + [m]), t, m.target, Data(m.data))
  }

  lemma TransmitSends(s: State, m: Message, retries: nat, prev: Option<MsgId>)
    requires Connected(s)
    ensures Transmitted(s, Transmit(s, m, retries, prev), m, retries, prev)
  {
    var r := if Reliable(s, m.target) then Register(s, m, retries, prev) else s.(posted := s.posted + [m]);
    assert Connected(r) by { hide Distinct; }
    RouteSends(r, m.target, if Reliable(s, m.target) then DataReq(MsgId(s.salt, s.nextId), m.data) else Data(m.data));
    hide Route, Sent, Connected;
  }

  // A message is kept while nobody is connected and transmitted at once otherwise.
  lemma SendEffect(s: State, m: Message)
    requires Connected(s)
    ensures var t := Step(s, Send(m)); var asked := s.(submitted := s.submitted + [m]);
      if s.conns == map[] then t == asked.(buffer := s.buffer + [m]) else Transmitted(asked, t, m, 5, None)
  {
    var asked := s.(submitted := s.submitted + [m]);
    assert Connected(asked) by { hide Distinct; }
    TransmitSends(asked, m, 5, None);
    hide Transmit, Transmitted, Connected;
  }

  // Stale; exhausted; back to the buffer untouched by ids, timers and routes; or sent
  // again with one retry less, naming the transmission it repeats.
  lemma ExpireEffect(s: State, id: MsgId)
    requires Connected(s)
    ensures var t := Step(s, Expire(id));
      if id !in s.pending then t == s else
      var p := s.pending[id];
      var rest := s.(pending := s.pending - {id});
      if p.retries == 0 then t == rest.(dropped := s.dropped + [Resolved(id, p.msg)])
      else if s.conns == map[] then
        t == rest.(buffer := s.buffer + [p.msg], rebuffered := s.rebuffered + [Resolved(id, p.msg)])
      else Transmitted(rest, t, p.msg, p.retries - 1, Some(id))
  {
    hide Transmit, Transmitted, Connected;
    if id in s.pending && s.pending[id].retries > 0 && s.conns != map[] {
      ResendEffect(s, id);
    }
  }

  lemma ResendEffect(s: State, id: MsgId)
    requires Connected(s) && id in s.pending && s.pending[id].retries > 0 && s.conns != map[]
    ensures Transmitted(s.(pending := s.pending - {id}), Step(s, Expire(id)),
                        s.pending[id].msg, s.pending[id].retries - 1, Some(id))
  {
    hide *;
    var rest := s.(pending := s.pending - {id});
    ForgotConnected(s, id);
    ResendIs(s, id);
    TransmitSends(rest, s.pending[id].msg, s.pending[id].retries - 1, Some(id));
  }

  lemma ResendIs(s: State, id: MsgId)
    requires id in s.pending && s.pending[id].retries > 0 && s.conns != map[]
    ensures Step(s, Expire(id)) ==
      Transmit(s.(pending := s.pending - {id}), s.pending[id].msg, s.pending[id].retries - 1, Some(id))
  {
    hide Transmit;
  }

  lemma ForgotConnected(s: State, id: MsgId)
    requires Connected(s)
    ensures Connected(s.(pending := s.pending - {id}))
  {
    hide Distinct;
  }

  // Both kinds of data are handed to the application, a request is answered to its sender
  // under its own id, an acknowledgement settles its own message, and the rest is ignored.
  lemma ReceivedEffect(s: State, from: Identity, e: Envelope)
    requires Connected(s)
    ensures var t := Step(s, Received(from, e));
      match e
      case Data(payload) => t == s.(delivered := s.delivered + [(from, payload)])
      case DataReq(id, payload) =>
        Sent(s.(delivered := s.delivered + [(from, payload)], requests := s.requests + [Request(from, id, payload)]),
             t, Some(from), Ack(id))
      case Ack(id) =>
        if id !in s.pending then t == s else
        t == s.(pending := s.pending - {id}, timer := s.timer + [Cancel(id)],
                acked := s.acked + [Resolved(id, s.pending[id].msg)])
      case Hello(_, _) => t == s
      case Heartbeat => t == s
  {
    if e.DataReq? {
      var r := TakeRequest(s, from, e.id, e.payload);
      assert Connected(r) by { hide Distinct; }
      RouteSends(r, Some(from), Ack(e.id));
    }
    hide Route, Sent, Connected;
  }

  // The peer's entry goes, and its place in the order; the cursor stays where it is.
  lemma DownEffect(s: State, identity: Identity)
    requires Connected(s)
    ensures var t := Step(s, Down(identity));
      && t == s.(conns := s.conns - {identity}, order := t.order)
      && (identity !in s.order ==> t.order == s.order)
      && (forall i | 0 <= i < |s.order| && s.order[i] == identity :: t.order == s.order[..i] + s.order[i + 1..])
  {
    DownIs(s, identity);
    assert Distinct(s.order);
    ForgetsPlace(s.order, identity);
    hide *;
  }

  lemma DownIs(s: State, identity: Identity)
    ensures Step(s, Down(identity)) == s.(conns := s.conns - {identity}, order := RemoveFirst(s.order, identity))
  {
    hide RemoveFirst;
  }

  lemma ForgetsPlace(order: seq<Identity>, identity: Identity)
    requires Distinct(order)
    ensures identity !in order ==> RemoveFirst(order, identity) == order
    ensures forall i | 0 <= i < |order| && order[i] == identity ::
      RemoveFirst(order, identity) == order[..i] + order[i + 1..]
  {
    forall i | 0 <= i < |order| && order[i] == identity
      ensures RemoveFirst(order, identity) == order[..i] + order[i + 1..]
    {
      RemovedAt(order, identity, i);
    }
    if identity !in order {
      NotRemoved(order, identity);
    }
    hide Distinct, RemoveFirst;
  }

  lemma {:induction false} RemovedAt(order: seq<Identity>, identity: Identity, i: nat)
    requires Distinct(order) && i < |order| && order[i] == identity
    ensures RemoveFirst(order, identity) == order[..i] + order[i + 1..]
    decreases |order|
  {
    if i == 0 {
      assert order[..0] + order[1..] == order[1..];
    } else {
      assert order[0] != order[i];
      RemovedAt(order[1..], identity, i - 1);
      assert order[..i] == [order[0]] + order[1..][..i - 1];
      assert order[i + 1..] == order[1..][i..];
      Associate([order[0]], order[1..][..i - 1], order[i + 1..]);
    }
  }

  lemma {:induction false} NotRemoved(order: seq<Identity>, identity: Identity)
    requires identity !in order
    ensures RemoveFirst(order, identity) == order
    decreases |order|
  {
    if order != [] {
      NotRemoved(order[1..], identity);
      assert order == [order[0]] + order[1..];
    }
  }

  // A second connection of a peer is answered no and gets nothing else.
  lemma DuplicateEffect(s: State, identity: Identity)
    requires identity in s.conns
    ensures Step(s, Up(identity)) ==
      s.(channels := s.channels + [Channel(identity, [])], answers := s.answers + [false],
         joined := s.joined + [|s.routes|])
  {
  }

  // What flushing leaves alone.
  ghost predicate OnlySent(s: State, t: State) {
    && t.mode == s.mode && t.delivery == s.delivery && t.salt == s.salt
    && t.conns == s.conns && t.order == s.order && t.buffer == s.buffer
    && t.answers == s.answers && t.joined == s.joined
    && t.delivered == s.delivered && t.requests == s.requests && t.submitted == s.submitted
    && t.acked == s.acked && t.dropped == s.dropped && t.rebuffered == s.rebuffered
    && s.routes <= t.routes && |t.channels| == |s.channels|
    && (forall c | 0 <= c < |s.channels| :: t.channels[c].peer == s.channels[c].peer)
  }

  lemma {:induction false} FlushOnlySends(s: State, msgs: seq<Message>)
    requires s.conns != map[]
    ensures OnlySent(s, Flush(s, msgs))
    decreases |msgs|
  {
    hide Transmit;
    if msgs != [] {
      TransmitShape(s, msgs[0], MAX_RETRIES, None);
      FlushOnlySends(HandleSend(s, msgs[0]), msgs[1..]);
    }
  }

  // A new peer joins at the end of the order with a channel of its own, and the whole
  // backlog leaves the buffer.
  lemma UpEffect(s: State, identity: Identity)
    requires identity !in s.conns
    ensures OnlySent(
      s.(conns := s.conns[identity := |s.channels|], order := s.order + [identity], buffer := [],
         channels := s.channels + [Channel(identity, [])], answers := s.answers + [true],
         joined := s.joined + [|s.routes|]),
      Step(s, Up(identity)))
  {
    var a := Admit(s, identity);
    assert identity in a.conns;
    FlushOnlySends(a, s.buffer);
    hide Flush, OnlySent;
  }
}
