// Sessions registering with the broker: each names itself to the broker only by its
// peer's identity, over one shared first-in-first-out command channel.
module Registration {
  import opened Bytes
  import opened Protocol
  import opened Broker
  import opened BrokerLaws

  datatype Phase = Waiting | Open | Closed | Rejected

  // A session from its ConnectionUp on. `number` says which ConnectionUp was its own,
  // once the broker has seen it.
  datatype Session = Session(peer: Identity, phase: Phase, number: Option<nat>)

  // A command and the session that sent it, which the broker is not told.
  datatype Tagged = Arrives(sid: nat) | Hands(sid: nat, envelope: Envelope) | Leaves(sid: nat) | App(input: Input)

  datatype World = World(broker: State, sessions: seq<Session>, commands: seq<Tagged>)

  datatype Move =
    | Connect(peer: Identity) // HELLO exchanged, ConnectionUp sent
    | Learn(sid: nat)         // the broker's answer read
    | Forward(sid: nat, envelope: Envelope)
    | Close(sid: nat)         // the reader loop ended, ConnectionDown sent
    | Ask(input: Input)       // an application send or a resend timeout
    | Turn                    // the broker takes one command

  function Begin(mode: SendMode, delivery: Delivery, salt: Salt): World {
    World(Init(mode, delivery, salt), [], [])
  }

  predicate Answerable(w: World, sid: nat) {
    && sid < |w.sessions| && w.sessions[sid].phase == Waiting
    && w.sessions[sid].number.Some? && w.sessions[sid].number.value < |w.broker.answers|
  }

  predicate IsOpen(w: World, sid: nat) {
    sid < |w.sessions| && w.sessions[sid].phase == Open
  }

  // What the broker is told.
  function Untagged(w: World, c: Tagged): Input {
    match c
    case Arrives(sid) => Up(if sid < |w.sessions| then w.sessions[sid].peer else seq(16, _ => 0))
    case Hands(sid, e) => Broker.Received(if sid < |w.sessions| then w.sessions[sid].peer else seq(16, _ => 0), e)
    case Leaves(sid) => Down(if sid < |w.sessions| then w.sessions[sid].peer else seq(16, _ => 0))
    case App(input) => input
  }

  function TakeTurn(w: World): World
    requires w.commands != []
  {
    var c := w.commands[0];
    var w' := w.(broker := Step(w.broker, Untagged(w, c)), commands := w.commands[1..]);
    if c.Arrives? && c.sid < |w.sessions|
    then w'.(sessions := w.sessions[c.sid := w.sessions[c.sid].(number := Some(|w.broker.channels|))])
    else w'
  }

  function Act(w: World, m: Move): World {
    match m
    case Connect(peer) =>
      w.(sessions := w.sessions + [Session(peer, Waiting, None)], commands := w.commands + [Arrives(|w.sessions|)])
    case Learn(sid) =>
      if !Answerable(w, sid) then w else
      var s := w.sessions[sid];
      w.(sessions := w.sessions[sid := s.(phase := if w.broker.answers[s.number.value] then Open else Rejected)])
    case Forward(sid, e) => if IsOpen(w, sid) then w.(commands := w.commands + [Hands(sid, e)]) else w
    case Close(sid) =>
      if !IsOpen(w, sid) then w else
      w.(sessions := w.sessions[sid := w.sessions[sid].(phase := Closed)], commands := w.commands + [Leaves(sid)])
    case Ask(input) => if input.Send? || input.Expire? then w.(commands := w.commands + [App(input)]) else w
    case Turn => if w.commands == [] then w else TakeTurn(w)
  }

  function ActAll(w: World, moves: seq<Move>): World
    decreases |moves|
  {
    if moves == [] then w else ActAll(Act(w, moves[0]), moves[1..])
  }

  // ---- The connection table ----

  // The table after a command.
  ghost predicate Table(s: State, t: State, input: Input) {
    match input
    case Up(p) =>
      && |t.channels| == |s.channels| + 1 && t.answers == s.answers + [p !in s.conns]
      && t.conns == (if p in s.conns then s.conns else s.conns[p := |s.channels|])
    case Down(p) => |t.channels| == |s.channels| && t.answers == s.answers && t.conns == s.conns - {p}
    case _ => |t.channels| == |s.channels| && t.answers == s.answers && t.conns == s.conns
  }

  lemma {:induction false} FlushTable(s: State, msgs: seq<Message>)
    ensures var t := Flush(s, msgs); |t.channels| == |s.channels| && t.answers == s.answers && t.conns == s.conns
    decreases |msgs|
  {
    if msgs != [] {
      TransmitShape(s, msgs[0], MAX_RETRIES, None);
      hide Transmit;
      FlushTable(HandleSend(s, msgs[0]), msgs[1..]);
    }
  }

  lemma TransmitTable(s: State, msg: Message, retries: nat, prev: Option<MsgId>)
    ensures var t := Transmit(s, msg, retries, prev);
      |t.channels| == |s.channels| && t.answers == s.answers && t.conns == s.conns
  {
    TransmitShape(s, msg, retries, prev);
    hide Transmit;
  }

  lemma StepTable(s: State, input: Input)
    ensures Table(s, Step(s, input), input)
  {
    match input
    case Send(msg) =>
      TransmitTable(s.(submitted := s.submitted + [msg]), msg, MAX_RETRIES, None);
      hide Transmit;
    case Up(p) =>
      FlushTable(Admit(s, p), s.buffer);
      hide Flush;
    case Down(_) =>
      hide RemoveFirst;
    case Received(from, e) =>
      if e.DataReq? {
        RouteOnly(TakeRequest(s, from, e.id, e.payload), Some(from), Ack(e.id));
      }
      hide Route;
    case Expire(id) =>
      ExpireTable(s, id);
      hide HandleExpire;
  }

  lemma ExpireTable(s: State, id: MsgId)
    ensures var t := HandleExpire(s, id);
      |t.channels| == |s.channels| && t.answers == s.answers && t.conns == s.conns
  {
    hide Transmit;
    if id in s.pending && s.pending[id].retries > 0 {
      TransmitTable(s.(pending := s.pending - {id}), s.pending[id].msg, s.pending[id].retries - 1, Some(id));
    }
  }

  // ---- The protocol's invariant ----

  // The table entry of this session's peer is this session's.
  ghost predicate Registered(w: World, sid: nat) {
    && sid < |w.sessions| && w.sessions[sid].number.Some?
    && w.sessions[sid].peer in w.broker.conns
    && w.broker.conns[w.sessions[sid].peer] == w.sessions[sid].number.value
  }

  // What a session's phase says about it.
  ghost predicate Phased(w: World, sid: nat)
    requires sid < |w.sessions|
  {
    var s := w.sessions[sid];
    && (s.number.None? ==> s.phase == Waiting)
    && (s.number.Some? ==>
          && s.number.value < |w.broker.answers|
          && (s.phase == Rejected ==> !w.broker.answers[s.number.value])
          && (s.phase == Open || s.phase == Closed ==> w.broker.answers[s.number.value])
          && (s.phase == Open || (s.phase == Waiting && w.broker.answers[s.number.value]) ==> Registered(w, sid)))
    && (s.phase == Closed && Registered(w, sid) ==> Leaves(sid) in w.commands)
  }

  // What a command on its way says about its sender.
  ghost predicate Meant(w: World, c: Tagged) {
    match c
    case Arrives(sid) => sid < |w.sessions| && w.sessions[sid].number == None
    case Hands(sid, _) => Registered(w, sid)
    case Leaves(sid) => Registered(w, sid) && w.sessions[sid].phase == Closed
    case App(input) => input.Send? || input.Expire?
  }

  // A second command of the same sender that must not follow the first.
  predicate Clash(c: Tagged, d: Tagged) {
    && !c.App? && !d.App? && c.sid == d.sid
    && (c.Leaves? || (c.Arrives? && d.Arrives?))
  }

  ghost predicate ClashFree(commands: seq<Tagged>) {
    forall i, j | 0 <= i < j < |commands| :: !Clash(commands[i], commands[j])
  }

  lemma ClashFreeTail(commands: seq<Tagged>)
    requires commands != [] && ClashFree(commands)
    ensures ClashFree(commands[1..]) && forall c <- commands[1..] :: !Clash(commands[0], c) && c in commands
  {
    var tail := commands[1..];
    forall i, j | 0 <= i < j < |tail| ensures !Clash(tail[i], tail[j]) {
      assert !Clash(commands[i + 1], commands[j + 1]);
    }
    forall c | c in tail ensures !Clash(commands[0], c) && c in commands {
      var k :| 0 <= k < |tail| && tail[k] == c;
      assert commands[k + 1] == c;
    }
  }

  lemma ClashFreeSnoc(commands: seq<Tagged>, c: Tagged)
    requires ClashFree(commands) && forall b <- commands :: !Clash(b, c)
    ensures ClashFree(commands + [c])
  {
    var all := commands + [c];
    forall i, j | 0 <= i < j < |all| ensures !Clash(all[i], all[j]) {
      assert all[i] in commands;
    }
  }

  ghost predicate Kept(w: World) {
    && |w.broker.answers| == |w.broker.channels|
    && (forall p <- w.broker.conns :: w.broker.conns[p] < |w.broker.channels|)
    && (forall sid | 0 <= sid < |w.sessions| :: Phased(w, sid))
    && (forall i, j | 0 <= i < j < |w.sessions| ::
          w.sessions[i].number.Some? ==> w.sessions[i].number != w.sessions[j].number)
    && (forall c <- w.commands :: Meant(w, c))
    && ClashFree(w.commands)
  }

  // No connection without a session behind it.
  ghost predicate Owned(w: World) {
    forall p <- w.broker.conns :: exists sid: nat :: Registered(w, sid) && w.sessions[sid].peer == p
  }

  ghost predicate Agreed(w: World) {
    Kept(w) && Owned(w)
  }

  lemma BeginAgreed(mode: SendMode, delivery: Delivery, salt: Salt)
    ensures Agreed(Begin(mode, delivery, salt))
  {
  }

  lemma OwnedSame(w: World, w': World)
    requires Owned(w) && w'.broker.conns == w.broker.conns && |w.sessions| <= |w'.sessions|
    requires forall i | 0 <= i < |w.sessions| ::
               w'.sessions[i].peer == w.sessions[i].peer
                 && (w.sessions[i].number.Some? ==> w'.sessions[i].number == w.sessions[i].number)
    ensures Owned(w')
  {
    forall p <- w'.broker.conns ensures exists sid: nat :: Registered(w', sid) && w'.sessions[sid].peer == p {
      var sid: nat :| Registered(w, sid) && w.sessions[sid].peer == p;
      assert Registered(w', sid);
    }
  }

  lemma ConnectAgreed(w: World, peer: Identity)
    requires Agreed(w)
    ensures Agreed(Act(w, Connect(peer)))
  {
    var w' := Act(w, Connect(peer));
    OwnedSame(w, w');
    hide Owned;
    forall sid | 0 <= sid < |w'.sessions| ensures Phased(w', sid) {
      if sid < |w.sessions| {
        assert Phased(w, sid);
      }
    }
    forall c <- w'.commands ensures Meant(w', c) {
      if c in w.commands {
        assert Meant(w, c);
      }
    }
    forall c <- w.commands ensures !Clash(c, Arrives(|w.sessions|)) {
      assert Meant(w, c);
    }
    ClashFreeSnoc(w.commands, Arrives(|w.sessions|));
  }

  lemma LearnAgreed(w: World, sid: nat)
    requires Agreed(w)
    ensures Agreed(Act(w, Learn(sid)))
  {
    var w' := Act(w, Learn(sid));
    OwnedSame(w, w');
    hide Owned;
    forall i | 0 <= i < |w'.sessions| ensures Phased(w', i) {
      assert Phased(w, i);
    }
    forall c <- w'.commands ensures Meant(w', c) {
      assert Meant(w, c);
    }
  }

  lemma ForwardAgreed(w: World, sid: nat, e: Envelope)
    requires Agreed(w)
    ensures Agreed(Act(w, Forward(sid, e)))
  {
    var w' := Act(w, Forward(sid, e));
    OwnedSame(w, w');
    hide Owned, ClashFree;
    if IsOpen(w, sid) {
      assert Phased(w, sid);
      forall i | 0 <= i < |w'.sessions| ensures Phased(w', i) {
        assert Phased(w, i);
      }
      forall c <- w'.commands ensures Meant(w', c) {
        if c in w.commands {
          assert Meant(w, c);
        }
      }
      forall c <- w.commands ensures !Clash(c, Hands(sid, e)) {
        assert Meant(w, c);
      }
      ClashFreeSnoc(w.commands, Hands(sid, e));
    }
  }

  lemma ClosePhased(w: World, sid: nat, i: nat)
    requires Agreed(w) && IsOpen(w, sid) && i < |w.sessions|
    ensures Phased(Act(w, Close(sid)), i)
  {
    hide Owned, ClashFree, Meant;
    assert Phased(w, i);
  }

  lemma CloseMeant(w: World, sid: nat, c: Tagged)
    requires Agreed(w) && IsOpen(w, sid) && c in w.commands + [Leaves(sid)]
    ensures Meant(Act(w, Close(sid)), c)
    ensures c in w.commands ==> !Clash(c, Leaves(sid))
  {
    hide Owned, ClashFree;
    assert Phased(w, sid);
    if c in w.commands {
      assert Meant(w, c);
    }
  }

  lemma CloseAgreed(w: World, sid: nat)
    requires Agreed(w)
    ensures Agreed(Act(w, Close(sid)))
  {
    var w' := Act(w, Close(sid));
    OwnedSame(w, w');
    hide Owned, ClashFree, Phased, Meant, Clash;
    if IsOpen(w, sid) {
      forall i | 0 <= i < |w'.sessions| ensures Phased(w', i) {
        ClosePhased(w, sid, i);
      }
      forall c <- w'.commands ensures Meant(w', c) {
        CloseMeant(w, sid, c);
      }
      forall c <- w.commands ensures !Clash(c, Leaves(sid)) {
        CloseMeant(w, sid, c);
      }
      ClashFreeSnoc(w.commands, Leaves(sid));
    }
  }

  lemma AskAgreed(w: World, input: Input)
    requires Agreed(w)
    ensures Agreed(Act(w, Ask(input)))
  {
    var w' := Act(w, Ask(input));
    OwnedSame(w, w');
    hide Owned;
    forall i | 0 <= i < |w'.sessions| ensures Phased(w', i) {
      assert Phased(w, i);
    }
    forall c <- w'.commands ensures Meant(w', c) {
      if c in w.commands {
        assert Meant(w, c);
      }
    }
  }

  // A command that leaves the table alone.
  lemma TurnPlain(w: World, t: State)
    requires Agreed(w) && w.commands != [] && !w.commands[0].Arrives? && !w.commands[0].Leaves?
    requires t.conns == w.broker.conns && t.answers == w.broker.answers && |t.channels| == |w.broker.channels|
    ensures Agreed(w.(broker := t, commands := w.commands[1..]))
  {
    var w' := w.(broker := t, commands := w.commands[1..]);
    OwnedSame(w, w');
    hide Owned;
    forall i | 0 <= i < |w'.sessions| ensures Phased(w', i) {
      assert Phased(w, i);
    }
    forall c <- w'.commands ensures Meant(w', c) {
      assert Meant(w, c);
    }
  }

  // Two registered sessions have different peers.
  lemma OneEach(w: World, i: nat, j: nat)
    requires Kept(w) && Registered(w, i) && Registered(w, j) && w.sessions[i].peer == w.sessions[j].peer
    ensures i == j
  {
    hide Phased, Meant, Clash;
  }

  // A ConnectionDown finds its own session's entry.
  lemma TurnLeaves(w: World, sid: nat, t: State)
    requires Agreed(w) && w.commands != [] && w.commands[0] == Leaves(sid) && sid < |w.sessions|
    requires t.conns == w.broker.conns - {w.sessions[sid].peer}
    requires t.answers == w.broker.answers && |t.channels| == |w.broker.channels|
    ensures Agreed(w.(broker := t, commands := w.commands[1..]))
  {
    var w' := w.(broker := t, commands := w.commands[1..]);
    assert w.commands[0] in w.commands && Meant(w, Leaves(sid));
    ClashFreeTail(w.commands);
    hide ClashFree;
    forall i: nat | i != sid && Registered(w, i) ensures Registered(w', i) {
      if w.sessions[i].peer == w.sessions[sid].peer {
        OneEach(w, i, sid);
      }
    }
    forall i | 0 <= i < |w'.sessions| ensures Phased(w', i) {
      assert Phased(w, i);
    }
    forall c <- w'.commands ensures Meant(w', c) {
      assert Meant(w, c);
    }
    forall p <- w'.broker.conns ensures exists i: nat :: Registered(w', i) && w'.sessions[i].peer == p {
      var i: nat :| Registered(w, i) && w.sessions[i].peer == p;
      assert Registered(w', i);
    }
  }

  // The session's own ConnectionUp has been counted.
  function Counted(w: World, sid: nat, t: State): World
    requires sid < |w.sessions| && w.commands != []
  {
    World(t, w.sessions[sid := w.sessions[sid].(number := Some(|w.broker.channels|))], w.commands[1..])
  }

  ghost predicate Arriving(w: World, sid: nat, t: State) {
    && Agreed(w) && w.commands != [] && w.commands[0] == Arrives(sid) && sid < |w.sessions|
    && Table(w.broker, t, Up(w.sessions[sid].peer))
  }

  lemma ArrivesPhased(w: World, sid: nat, t: State, i: nat)
    requires Arriving(w, sid, t) && i < |w.sessions|
    ensures Phased(Counted(w, sid, t), i)
    ensures i != sid ==> w.sessions[i].number != Some(|w.broker.channels|)
    ensures w.sessions[sid].number == None
    ensures i != sid && Registered(w, i) ==> Registered(Counted(w, sid, t), i)
  {
    hide Owned, ClashFree;
    assert w.commands[0] in w.commands && Meant(w, Arrives(sid));
    assert Phased(w, sid) && Phased(w, i);
    if i != sid && w.sessions[i].number.Some? {
      assert t.answers[w.sessions[i].number.value] == w.broker.answers[w.sessions[i].number.value];
    }
  }

  lemma ArrivesMeant(w: World, sid: nat, t: State, c: Tagged)
    requires Arriving(w, sid, t) && c in w.commands[1..]
    ensures Meant(Counted(w, sid, t), c)
  {
    ClashFreeTail(w.commands);
    hide Owned, ClashFree, Phased;
    assert w.commands[0] in w.commands && Meant(w, Arrives(sid));
    assert Meant(w, c);
  }

  lemma ArrivesOwned(w: World, sid: nat, t: State, p: Identity)
    requires Arriving(w, sid, t) && p in t.conns
    ensures exists i: nat :: Registered(Counted(w, sid, t), i) && w.sessions[i].peer == p
  {
    var w' := Counted(w, sid, t);
    assert w.commands[0] in w.commands && Meant(w, Arrives(sid));
    hide ClashFree, Phased;
    if p in w.broker.conns {
      var i: nat :| Registered(w, i) && w.sessions[i].peer == p;
      ArrivesPhased(w, sid, t, i);
      assert Registered(w', i);
    } else {
      assert Registered(w', sid);
    }
  }

  // A ConnectionUp is accepted exactly if the identity is free.
  lemma TurnArrives(w: World, sid: nat, t: State)
    requires Arriving(w, sid, t)
    ensures Agreed(Counted(w, sid, t))
    ensures t.answers == w.broker.answers + [w.sessions[sid].peer !in w.broker.conns]
  {
    var w' := Counted(w, sid, t);
    ClashFreeTail(w.commands);
    hide ClashFree, Phased, Meant;
    forall i: nat | i < |w.sessions|
      ensures Phased(w', i) && (i != sid ==> w'.sessions[i].number != w'.sessions[sid].number)
    {
      ArrivesPhased(w, sid, t, i);
    }
    forall c <- w'.commands ensures Meant(w', c) {
      ArrivesMeant(w, sid, t, c);
    }
    forall p <- t.conns ensures exists i: nat :: Registered(w', i) && w'.sessions[i].peer == p {
      ArrivesOwned(w, sid, t, p);
    }
  }

  lemma TurnAgreed(w: World)
    requires Agreed(w) && w.commands != []
    ensures Agreed(TakeTurn(w))
  {
    var c := w.commands[0];
    assert c in w.commands && Meant(w, c);
    StepTable(w.broker, Untagged(w, c));
    hide Step, Agreed, Kept, Owned;
    match c
    case Arrives(sid) => TurnArrives(w, sid, TakeTurn(w).broker);
    case Leaves(sid) => TurnLeaves(w, sid, TakeTurn(w).broker);
    case Hands(sid, e) => TurnPlain(w, TakeTurn(w).broker);
    case App(input) => TurnPlain(w, TakeTurn(w).broker);
  }

  lemma ActAgreed(w: World, m: Move)
    requires Agreed(w)
    ensures Agreed(Act(w, m))
  {
    match m
    case Connect(peer) => ConnectAgreed(w, peer);
      hide *;
    case Learn(sid) => LearnAgreed(w, sid);
      hide *;
    case Forward(sid, e) => ForwardAgreed(w, sid, e);
      hide *;
    case Close(sid) => CloseAgreed(w, sid);
      hide *;
    case Ask(input) => AskAgreed(w, input);
      hide *;
    case Turn =>
      if w.commands != [] {
        TurnAgreed(w);
      }
      hide Agreed, TakeTurn;
  }

  lemma {:induction false} ActAllAgreed(w: World, moves: seq<Move>)
    requires Agreed(w) && Connected(w.broker)
    ensures Agreed(ActAll(w, moves)) && Connected(ActAll(w, moves).broker)
    decreases |moves|
  {
    hide Agreed, Connected, Step;
    if moves != [] {
      ActAgreed(w, moves[0]);
      if w.commands != [] {
        ConnectedStep(w.broker, Untagged(w, w.commands[0]));
      }
      ActAllAgreed(Act(w, moves[0]), moves[1..]);
    }
  }

  // From the start: any number of sessions, any repeated identities, any interleaving.
  lemma AlwaysAgreed(mode: SendMode, delivery: Delivery, salt: Salt, moves: seq<Move>)
    ensures var w := ActAll(Begin(mode, delivery, salt), moves); Agreed(w) && Connected(w.broker)
  {
    BeginAgreed(mode, delivery, salt);
    ActAllAgreed(Begin(mode, delivery, salt), moves);
    hide ActAll, Agreed;
  }

  // A ConnectionDown, though it names only an identity, removes the entry of the session
  // that sent it and no other.
  lemma DownRemovesItsOwn(w: World, sid: nat)
    requires Agreed(w) && Connected(w.broker) && w.commands != [] && w.commands[0] == Leaves(sid)
    ensures Registered(w, sid) && !Registered(Act(w, Turn), sid)
    ensures forall other: nat | other != sid && Registered(w, other) :: Registered(Act(w, Turn), other)
    ensures var p := w.sessions[sid].peer; var t := Act(w, Turn).broker;
      && t.conns == w.broker.conns - {p}
      && Connected(t)
  {
    assert w.commands[0] in w.commands && Meant(w, Leaves(sid));
    var input := Untagged(w, w.commands[0]);
    StepTable(w.broker, input);
    ConnectedStep(w.broker, input);
    forall other: nat | other != sid && Registered(w, other) ensures w.sessions[other].peer != w.sessions[sid].peer {
      if w.sessions[other].peer == w.sessions[sid].peer {
        OneEach(w, other, sid);
      }
    }
    hide Step, Connected, Phased, Meant, Clash, Owned;
  }

  // An acknowledgement goes out on the very connection its request came in on.
  lemma AckOnItsConnection(w: World, sid: nat, id: MsgId, payload: Bytes)
    requires Agreed(w) && Connected(w.broker) && w.commands != [] && w.commands[0] == Hands(sid, DataReq(id, payload))
    ensures Registered(w, sid)
    ensures var c := w.sessions[sid].number.value; var t := Act(w, Turn).broker;
      && |t.channels| == |w.broker.channels| && c < |t.channels|
      && t.channels[c].queue == w.broker.channels[c].queue + [Ack(id)]
      && (forall k | 0 <= k < |t.channels| && k != c :: t.channels[k] == w.broker.channels[k])
  {
    assert w.commands[0] in w.commands && Meant(w, w.commands[0]);
    hide Connected, Phased, Meant, Clash, Owned;
  }

  // At most one session of an identity is open.
  lemma OneOpen(w: World, i: nat, j: nat)
    requires Agreed(w) && IsOpen(w, i) && IsOpen(w, j) && w.sessions[i].peer == w.sessions[j].peer
    ensures i == j
  {
    assert Phased(w, i) && Phased(w, j);
    OneEach(w, i, j);
  }
}
