// The broker's state machine, shared by the asynchronous and the synchronous crate:
// connections, round-robin order, offline buffer, pending acknowledgements. The crates
// differ only in who keeps the resend deadlines, so a command's effect on them is a
// list of timer operations here.
module Broker {
  import opened Bytes
  import opened Protocol

  const MAX_RETRIES := 5

  datatype SendMode = Publish | RoundRobin
  datatype Delivery = AtMostOnce | AtLeastOnce

  // A message as the application submits it: to one named peer or to whomever the mode picks.
  datatype Message = Message(target: Option<Identity>, data: Bytes)

  datatype Pending = Pending(msg: Message, retries: nat)

  // The channel into one connection's writer, named by the number of its ConnectionUp.
  datatype Channel = Channel(peer: Identity, queue: seq<Envelope>)

  datatype TimerOp = Arm(id: MsgId) | Cancel(id: MsgId)

  // History: one entry per message id, in the order the ids were drawn. `prev` names
  // the transmission this one repeats.
  datatype Issue = Issue(msg: Message, prev: Option<MsgId>)
  datatype Resolved = Resolved(id: MsgId, msg: Message)

  // An envelope handed to the routing, the peers connected then, and those it went to.
  datatype Routed = Routed(target: Option<Identity>, e: Envelope, among: set<Identity>, to: set<Identity>)

  // A request handed to the application and acknowledged.
  datatype Request = Request(from: Identity, id: MsgId, payload: Bytes)

  datatype State = State(
    mode: SendMode,
    delivery: Delivery,
    salt: Salt,
    conns: map<Identity, nat>,
    order: seq<Identity>,
    cursor: nat,
    buffer: seq<Message>,
    pending: map<MsgId, Pending>,
    nextId: nat,
    // what left the broker
    channels: seq<Channel>,
    answers: seq<bool>,
    timer: seq<TimerOp>,
    delivered: seq<(Identity, Bytes)>,
    // history
    submitted: seq<Message>,
    posted: seq<Message>,
    issued: seq<Issue>,
    acked: seq<Resolved>,
    dropped: seq<Resolved>,
    rebuffered: seq<Resolved>,
    routes: seq<Routed>,
    joined: seq<nat>, // per connection, the length of `routes` at its ConnectionUp
    requests: seq<Request>)

  function Init(mode: SendMode, delivery: Delivery, salt: Salt): State {
    State(mode, delivery, salt, map[], [], 0, [], map[], 0, [], [], [], [], [], [], [], [], [], [], [], [], [])
  }

  datatype Input =
    | Send(msg: Message)
    | Up(identity: Identity)
    | Down(identity: Identity)
    | Received(from: Identity, envelope: Envelope)
    | Expire(id: MsgId)

  // What arrives from the sessions and the application; a resend timeout does not.
  type Command = input: Input | !input.Expire? witness Down(seq(16, _ => 0))

  // Acknowledged and resent: targeted sends, and round-robin sends.
  predicate Reliable(s: State, target: Option<Identity>) {
    s.delivery == AtLeastOnce && (target.Some? || s.mode == RoundRobin)
  }

  function Put(channels: seq<Channel>, conn: nat, e: Envelope): (r: seq<Channel>)
    ensures |r| == |channels|
  {
    if conn < |channels| then channels[conn := channels[conn].(queue := channels[conn].queue + [e])] else channels
  }

  // A copy to every connection.
  function PutAll(channels: seq<Channel>, conns: set<nat>, e: Envelope): (r: seq<Channel>)
    ensures |r| == |channels|
  {
    seq(|channels|, c requires 0 <= c < |channels| =>
      if c in conns then channels[c].(queue := channels[c].queue + [e]) else channels[c])
  }

  function WriteTo(s: State, peer: Identity, e: Envelope): State {
    if peer in s.conns then s.(channels := Put(s.channels, s.conns[peer], e)) else s
  }

  // The peer whose turn it is.
  function Turn(s: State): Identity
    requires s.order != []
  {
    s.order[s.cursor % |s.order|]
  }

  // The peers one routed envelope goes to.
  function Recipients(s: State, target: Option<Identity>): set<Identity> {
    match target
    case Some(p) => if p in s.conns then {p} else {}
    case None =>
      if s.mode == Publish then s.conns.Keys
      else if s.order == [] then {} else {Turn(s)}
  }

  function Logged(s: State, target: Option<Identity>, e: Envelope): State {
    s.(routes := s.routes + [Routed(target, e, s.conns.Keys, Recipients(s, target))])
  }

  function Spread(s: State, target: Option<Identity>, e: Envelope): State {
    if target.Some? then WriteTo(s, target.value, e)
    else if s.mode == Publish then s.(channels := PutAll(s.channels, s.conns.Values, e))
    else if s.order == [] then s
    else WriteTo(s.(cursor := s.cursor + 1), Turn(s), e)
  }

  function Route(s: State, target: Option<Identity>, e: Envelope): State {
    Spread(Logged(s, target, e), target, e)
  }

  // A reliable message gets the next id, a timer and a pending entry before it is routed.
  function Register(s: State, msg: Message, retries: nat, prev: Option<MsgId>): State {
    var id := MsgId(s.salt, s.nextId);
    s.(nextId := s.nextId + 1,
       timer := s.timer + [Arm(id)],
       pending := s.pending[id := Pending(msg, retries)],
       issued := s.issued + [Issue(msg, prev)])
  }

  function Transmit(s: State, msg: Message, retries: nat, prev: Option<MsgId>): State {
    if Reliable(s, msg.target) then
      Route(Register(s, msg, retries, prev), msg.target, DataReq(MsgId(s.salt, s.nextId), msg.data))
    else
      Route(s.(posted := s.posted + [msg]), msg.target, Data(msg.data))
  }

  function HandleSend(s: State, msg: Message): State {
    if s.conns == map[] then s.(buffer := s.buffer + [msg]) else Transmit(s, msg, MAX_RETRIES, None)
  }

  function Flush(s: State, msgs: seq<Message>): State
    decreases |msgs|
  {
    if msgs == [] then s else Flush(HandleSend(s, msgs[0]), msgs[1..])
  }

  // The new connection is in the table; the backlog is still to be flushed.
  function Admit(s: State, identity: Identity): State {
    s.(channels := s.channels + [Channel(identity, [])],
       answers := s.answers + [true],
       joined := s.joined + [|s.routes|],
       conns := s.conns[identity := |s.channels|],
       order := s.order + [identity],
       buffer := [])
  }

  function HandleUp(s: State, identity: Identity): State {
    if identity in s.conns then
      s.(channels := s.channels + [Channel(identity, [])], answers := s.answers + [false],
        joined := s.joined + [|s.routes|])
    else
      Flush(Admit(s, identity), s.buffer)
  }

  function RemoveFirst(order: seq<Identity>, identity: Identity): seq<Identity> {
    if order == [] then [] else
    if order[0] == identity then order[1..] else [order[0]] + RemoveFirst(order[1..], identity)
  }

  function HandleDown(s: State, identity: Identity): State {
    s.(conns := s.conns - {identity}, order := RemoveFirst(s.order, identity))
  }

  function HandleAck(s: State, id: MsgId): State {
    if id !in s.pending then s else
    s.(pending := s.pending - {id},
       timer := s.timer + [Cancel(id)],
       acked := s.acked + [Resolved(id, s.pending[id].msg)])
  }

  function TakeRequest(s: State, from: Identity, id: MsgId, payload: Bytes): State {
    s.(delivered := s.delivered + [(from, payload)], requests := s.requests + [Request(from, id, payload)])
  }

  // Delivery to the application comes before the acknowledgement.
  function HandleReceived(s: State, from: Identity, e: Envelope): State {
    match e
    case Data(payload) => s.(delivered := s.delivered + [(from, payload)])
    case DataReq(id, payload) => Route(TakeRequest(s, from, id, payload), Some(from), Ack(id))
    case Ack(id) => HandleAck(s, id)
    case Hello(_, _) => s
    case Heartbeat => s
  }

  // A resend timer fired.
  function HandleExpire(s: State, id: MsgId): State {
    if id !in s.pending then s else
    var p := s.pending[id];
    var rest := s.(pending := s.pending - {id});
    if p.retries == 0 then rest.(dropped := s.dropped + [Resolved(id, p.msg)])
    else if s.conns == map[] then
      rest.(buffer := s.buffer + [p.msg], rebuffered := s.rebuffered + [Resolved(id, p.msg)])
    else Transmit(rest, p.msg, p.retries - 1, Some(id))
  }

  function Step(s: State, input: Input): State {
    match input
    case Send(msg) => HandleSend(s.(submitted := s.submitted + [msg]), msg)
    case Up(identity) => HandleUp(s, identity)
    case Down(identity) => HandleDown(s, identity)
    case Received(from, envelope) => HandleReceived(s, from, envelope)
    case Expire(id) => HandleExpire(s, id)
  }

  function Run(s: State, inputs: seq<Input>): State
    decreases |inputs|
  {
    if inputs == [] then s else Run(Step(s, inputs[0]), inputs[1..])
  }
}
