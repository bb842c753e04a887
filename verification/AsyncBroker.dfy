// The asynchronous crate's broker object: every handler updates the fields in place and
// is proved to move the broker exactly as the specification's step does.
module AsyncBrokers {
  import opened Bytes
  import opened Protocol
  import opened Broker
  import opened BrokerLaws
  import opened BrokerParts
  import opened BrokerTimers
  import opened Deadlines
  import opened AsyncSpec

  // ---- The specification seen from inside a handler ----

  lemma ExtendsArms(s: State, t: State)
    requires ArmsNew(s, t)
    ensures Extends(s, t)
  {
  }

  lemma FlushExtends(s: State, msgs: seq<Message>)
    ensures Extends(s, Flush(s, msgs))
  {
    ArmsFlush(s, msgs);
    hide Flush;
    ExtendsArms(s, Flush(s, msgs));
  }

  lemma SendExtends(s: State, msg: Message)
    ensures Extends(s, HandleSend(s, msg))
  {
    ArmsSend(s, msg);
    hide HandleSend;
    ExtendsArms(s, HandleSend(s, msg));
  }

  // One more message of the backlog is sent.
  lemma FlushOne(a: Async, b: Async, msgs: seq<Message>, clock: Clock)
    requires msgs != [] && b == Lift(a, HandleSend(a.core, msgs[0]), clock)
    ensures Lift(b, Flush(b.core, msgs[1..]), clock) == Lift(a, Flush(a.core, msgs), clock)
  {
    SendExtends(a.core, msgs[0]);
    FlushExtends(b.core, msgs[1..]);
    hide HandleSend, Extends, Lift;
    assert b.core == HandleSend(a.core, msgs[0]) by { LiftCore(a, HandleSend(a.core, msgs[0]), clock); }
    LiftCompose(a, b.core, Flush(b.core, msgs[1..]), clock);
  }

  lemma LiftCore(a: Async, t: State, clock: Clock)
    ensures Lift(a, t, clock).core == t
  {
  }

  lemma ArmExtends(s: State, t: State, id: MsgId)
    requires t.timer == s.timer + [Arm(id)]
    ensures Extends(s, t)
  {
  }

  lemma PostedExtends(a: Async, r: State, clock: Clock)
    requires r.timer == a.core.timer
    ensures Extends(a.core, r) && Lift(a, r, clock) == a.(core := r)
  {
    LiftSame(a, r, clock);
  }

  class AsyncBroker {
    const sendMode: SendMode
    const delivery: Delivery
    const msgIdSalt: Salt
    const clock: Clock

    var conns: map<Identity, nat>
    var order: seq<Identity>
    var rrCursor: nat
    var buffer: seq<Message>
    var pending: map<MsgId, Pending>
    var deadlines: seq<Deadline>
    var msgIdCounter: nat

    // what the broker has handed out
    var channels: seq<Channel>
    var answers: seq<bool>
    var received: seq<(Identity, Bytes)>
    var readings: nat

    ghost var timer: seq<TimerOp>
    ghost var submitted: seq<Message>
    ghost var posted: seq<Message>
    ghost var issued: seq<Issue>
    ghost var acked: seq<Resolved>
    ghost var dropped: seq<Resolved>
    ghost var rebuffered: seq<Resolved>
    ghost var routes: seq<Routed>
    ghost var joined: seq<nat>
    ghost var requests: seq<Request>

    ghost function Core(): State
      reads this
    {
      State(sendMode, delivery, msgIdSalt, conns, order, rrCursor, buffer, pending, msgIdCounter,
            channels, answers, timer, received, submitted, posted, issued, acked, dropped, rebuffered,
            routes, joined, requests)
    }

    ghost function Model(): Async
      reads this
    {
      Async(Core(), deadlines, readings)
    }

    constructor (mode: SendMode, guarantee: Delivery, salt: Salt, time: Clock)
      ensures clock == time && Model() == Start(mode, guarantee, salt)
    {
      sendMode, delivery, msgIdSalt, clock := mode, guarantee, salt, time;
      conns, order, rrCursor, buffer, pending, deadlines, msgIdCounter := map[], [], 0, [], map[], [], 0;
      channels, answers, received, readings := [], [], [], 0;
      timer, submitted, posted, issued, acked, dropped, rebuffered := [], [], [], [], [], [], [];
      routes, joined, requests := [], [], [];
    }

    method Now() returns (now: nat)
      modifies this`readings
      ensures now == clock(old(readings)) && readings == old(readings) + 1
    {
      now := clock(readings);
      readings := readings + 1;
    }

    method NextMsgId() returns (id: MsgId)
      modifies this`msgIdCounter
      ensures id == MsgId(old(Core()).salt, old(Core()).nextId)
      ensures Core() == old(Core()).(nextId := old(Core()).nextId + 1)
    {
      id := MsgId(msgIdSalt, msgIdCounter);
      msgIdCounter := msgIdCounter + 1;
    }

    method NextRoundRobin() returns (peer: Option<Identity>)
      modifies this`rrCursor
      ensures order == [] ==> peer == None && rrCursor == old(rrCursor)
      ensures order != [] ==> peer == Some(order[old(rrCursor) % |order|]) && rrCursor == old(rrCursor) + 1
    {
      if order == [] {
        return None;
      }
      peer := Some(order[rrCursor % |order|]);
      rrCursor := rrCursor + 1;
    }

    method Write(peer: Identity, e: Envelope)
      modifies this`channels
      ensures Core() == WriteTo(old(Core()), peer, e)
    {
      if peer in conns {
        channels := Put(channels, conns[peer], e);
      }
    }

    method Route(target: Option<Identity>, e: Envelope)
      modifies this`channels, this`rrCursor, this`routes
      ensures Core() == Broker.Route(old(Core()), target, e)
    {
      routes := routes + [Routed(target, e, conns.Keys, Recipients(Core(), target))];
      Dispatch(target, e);
    }

    method Dispatch(target: Option<Identity>, e: Envelope)
      modifies this`channels, this`rrCursor
      ensures Core() == Spread(old(Core()), target, e)
    {
      match target
      case Some(peer) => Write(peer, e);
      case None =>
        match sendMode {
          case Publish => channels := CopyToAll(channels, conns.Values, e);
          case RoundRobin =>
            var peer := NextRoundRobin();
            if peer.Some? {
              Write(peer.value, e);
            }
        }
    }

    method Schedule(id: MsgId)
      modifies this`readings, this`deadlines, this`timer
      ensures deadlines == old(deadlines) + [Deadline(clock(old(readings)) + RESEND_TIMEOUT, id)]
      ensures readings == old(readings) + 1
      ensures Core() == old(Core()).(timer := old(Core()).timer + [Arm(id)])
    {
      var now := Now();
      deadlines := deadlines + [Deadline(now + RESEND_TIMEOUT, id)];
      timer := timer + [Arm(id)];
    }

    method Remember(id: MsgId, msg: Message, retries: nat, ghost prev: Option<MsgId>)
      modifies this`pending, this`issued
      ensures Core() == old(Core()).(pending := old(Core()).pending[id := Pending(msg, retries)],
                                     issued := old(Core()).issued + [Issue(msg, prev)])
    {
      pending := pending[id := Pending(msg, retries)];
      issued := issued + [Issue(msg, prev)];
    }

    // Draws the id, schedules the resend and remembers the message.
    method Enrol(msg: Message, retries: nat, ghost prev: Option<MsgId>) returns (id: MsgId)
      modifies this
      ensures id == MsgId(old(Core()).salt, old(Core()).nextId)
      ensures Model() == Lift(old(Model()), Register(old(Core()), msg, retries, prev), clock)
      ensures Core() == Register(old(Core()), msg, retries, prev) && Extends(old(Core()), Core())
    {
      hide Lift, Core, Extends;
      ghost var a := Model();
      id := NextMsgId();
      Schedule(id);
      Remember(id, msg, retries, prev);
      LiftArm(a, Core(), id, clock);
      ArmExtends(a.core, Core(), id);
    }

    method Transmit(msg: Message, retries: nat, ghost prev: Option<MsgId>)
      modifies this
      ensures Model() == Lift(old(Model()), Broker.Transmit(old(Core()), msg, retries, prev), clock)
      ensures Core() == Broker.Transmit(old(Core()), msg, retries, prev)
      ensures Extends(old(Core()), Core())
    {
      hide Lift, Broker.Route, Register, Extends, OnlyRouted;
      ghost var a := Model();
      if delivery == AtLeastOnce && (msg.target.Some? || sendMode == RoundRobin) {
        var id := Enrol(msg, retries, prev);
        ghost var r := Core();
        Route(msg.target, DataReq(id, msg.data));
        RouteOnly(r, msg.target, DataReq(id, msg.data));
        LiftRouted(a, r, Core(), clock);
      } else {
        posted := posted + [msg];
        ghost var r := Core();
        Route(msg.target, Data(msg.data));
        RouteOnly(r, msg.target, Data(msg.data));
        PostedExtends(a, r, clock);
        LiftRouted(a, r, Core(), clock);
      }
    }

    method HandleSend(msg: Message)
      modifies this
      ensures Model() == Lift(old(Model()), Broker.HandleSend(old(Core()), msg), clock)
      ensures Extends(old(Core()), Core())
    {
      if conns == map[] {
        ghost var a := Model();
        buffer := buffer + [msg];
        LiftSame(a, Core(), clock);
      } else {
        Transmit(msg, MAX_RETRIES, None);
      }
    }

    // The writer's channel, with the number of its ConnectionUp.
    method OpenChannel(identity: Identity) returns (conn: nat)
      modifies this`channels, this`joined
      ensures conn == |old(Core()).channels|
      ensures Core() == old(Core()).(channels := old(Core()).channels + [Channel(identity, [])],
                                     joined := old(Core()).joined + [|old(Core()).routes|])
    {
      conn := |channels|;
      channels := channels + [Channel(identity, [])];
      joined := joined + [|routes|];
    }

    // Registers the channel under the identity.
    method Insert(identity: Identity, conn: nat)
      modifies this`conns, this`order
      ensures Core() == old(Core()).(conns := old(Core()).conns[identity := conn],
                                     order := old(Core()).order + [identity])
    {
      conns := conns[identity := conn];
      order := order + [identity];
    }

    method Answer(accept: bool)
      modifies this`answers
      ensures Core() == old(Core()).(answers := old(Core()).answers + [accept])
    {
      answers := answers + [accept];
    }

    method TakeBuffer() returns (buffered: seq<Message>)
      modifies this`buffer
      ensures buffered == old(Core()).buffer && Core() == old(Core()).(buffer := [])
    {
      buffered := buffer;
      buffer := [];
    }

    method HandleUp(identity: Identity)
      modifies this
      ensures Model() == Lift(old(Model()), Broker.HandleUp(old(Core()), identity), clock)
    {
      hide Lift, Flush, Core;
      ghost var a := Model();
      var taken := Holds(identity);
      var conn := OpenChannel(identity);
      if taken {
        Answer(false); // the channel stays out of the table
        LiftSame(a, Core(), clock);
        return;
      }
      Insert(identity, conn);
      Answer(true);
      var buffered := TakeBuffer();
      ghost var b := Model();
      FlushBuffered(buffered);
      Admitted(a, b, identity, clock);
    }

    method Holds(identity: Identity) returns (taken: bool)
      ensures taken == (identity in Core().conns)
    {
      taken := identity in conns;
    }

    method FlushBuffered(buffered: seq<Message>)
      modifies this
      ensures Model() == Lift(old(Model()), Flush(old(Core()), buffered), clock)
    {
      ghost var a := Model();
      var i := 0;
      while i < |buffered|
        invariant i <= |buffered|
        invariant Lift(Model(), Flush(Core(), buffered[i..]), clock) == Lift(a, Flush(a.core, buffered), clock)
      {
        ghost var b := Model();
        HandleSend(buffered[i]);
        FlushOne(b, Model(), buffered[i..], clock);
        assert buffered[i..][1..] == buffered[i + 1..];
        i := i + 1;
      }
      LiftSame(Model(), Core(), clock);
    }

    method HandleDown(identity: Identity)
      modifies this`conns, this`order
      ensures Core() == Broker.HandleDown(old(Core()), identity)
    {
      conns := conns - {identity};
      order := Without(order, identity);
    }

    method Deliver(identity: Identity, payload: Bytes)
      modifies this`received
      ensures Core() == old(Core()).(delivered := old(Core()).delivered + [(identity, payload)])
    {
      received := received + [(identity, payload)];
    }

    ghost method NoteRequest(identity: Identity, id: MsgId, payload: Bytes)
      modifies this`requests
      ensures Core() == old(Core()).(requests := old(Core()).requests + [Request(identity, id, payload)])
    {
      requests := requests + [Request(identity, id, payload)];
    }

    method HandleAck(id: MsgId)
      modifies this`pending, this`timer, this`acked
      ensures Model() == Lift(old(Model()), Broker.HandleAck(old(Core()), id), clock)
    {
      hide Lift;
      ghost var a := Model();
      if id in pending {
        timer, acked := timer + [Cancel(id)], acked + [Resolved(id, pending[id].msg)];
        pending := pending - {id};
        LiftCancel(a, Core(), id, clock);
      } else {
        pending := pending - {id};
        assert pending == a.core.pending;
        LiftSame(a, Core(), clock);
      }
    }

    method HandleReceived(identity: Identity, e: Envelope)
      modifies this
      ensures Model() == Lift(old(Model()), Broker.HandleReceived(old(Core()), identity, e), clock)
    {
      hide Lift, Broker.Route, Broker.HandleAck, Core;
      ghost var a := Model();
      match e {
        case Data(payload) =>
          Deliver(identity, payload);
          LiftSame(a, Core(), clock);
        case DataReq(id, payload) =>
          Deliver(identity, payload);
          NoteRequest(identity, id, payload);
          ghost var r := Core();
          Route(Some(identity), Ack(id));
          RouteOnly(r, Some(identity), Ack(id));
          LiftSame(a, Core(), clock);
        case Ack(id) => HandleAck(id);
        case Hello(_, _) => LiftSame(a, Core(), clock);
        case Heartbeat => LiftSame(a, Core(), clock);
      }
    }

    method Forget(id: MsgId)
      modifies this`pending
      ensures Core() == old(Core()).(pending := old(Core()).pending - {id})
    {
      pending := pending - {id};
    }

    method Rebuffer(id: MsgId, msg: Message)
      modifies this`buffer, this`rebuffered
      ensures Core() == old(Core()).(buffer := old(Core()).buffer + [msg],
                                     rebuffered := old(Core()).rebuffered + [Resolved(id, msg)])
    {
      buffer := buffer + [msg];
      rebuffered := rebuffered + [Resolved(id, msg)];
    }

    ghost method GiveUp(id: MsgId, msg: Message)
      modifies this`dropped
      ensures Core() == old(Core()).(dropped := old(Core()).dropped + [Resolved(id, msg)])
    {
      dropped := dropped + [Resolved(id, msg)];
    }

    method Lookup(id: MsgId) returns (p: Option<Pending>)
      ensures p == if id in Core().pending then Some(Core().pending[id]) else None
    {
      p := if id in pending then Some(pending[id]) else None;
    }

    method Alone() returns (alone: bool)
      ensures alone == (Core().conns == map[])
    {
      alone := conns == map[];
    }

    method FireResend(id: MsgId)
      modifies this
      ensures Model() == Apply(old(Model()), Expire(id), clock)
    {
      hide Lift, Broker.Transmit, Extends, Core;
      ghost var a := Model();
      var found := Lookup(id);
      if found == None {
        LiftSame(a, Core(), clock);
        return;
      }
      var p := found.value;
      Forget(id);
      if p.retries == 0 {
        GiveUp(id, p.msg);
        LiftSame(a, Core(), clock);
        return;
      }
      var alone := Alone();
      if alone {
        Rebuffer(id, p.msg);
        LiftSame(a, Core(), clock);
        return;
      }
      ghost var rest := Model();
      Transmit(p.msg, p.retries - 1, Some(id));
      PostedExtends(a, rest.core, clock);
      LiftCompose(a, rest.core, Core(), clock);
    }

    method FireDueResends()
      requires Monotone(clock)
      modifies this
      ensures Model() == Wake(old(Model()), clock)
    {
      hide Apply, FireDue, NotBehind, Due;
      ghost var a := Model();
      var now := Now();
      AfterNow(a, clock);
      while deadlines != [] && deadlines[0].at <= now
        invariant NotBehind(clock, readings, now) && FireDue(Model(), now, clock) == Wake(a, clock)
        decreases Due(deadlines, now)
      {
        ghost var b := Model();
        var id := deadlines[0].id;
        deadlines := deadlines[1..];
        ghost var popped := Model();
        FireResend(id);
        DueCons(b.deadlines, now);
        ApplyDue(popped, Expire(id), now, clock);
        FireDueOnce(b, now, clock);
      }
      FireDueDone(Model(), now, clock);
    }

    // One command or one timer expiry.
    method Serve(event: Event)
      requires Monotone(clock)
      modifies this
      ensures Model() == React(old(Model()), event, clock)
    {
      match event
      case WakeUp => FireDueResends();
      case Handle(command) => Obey(command);
    }

    method Obey(command: Command)
      modifies this
      ensures Model() == Apply(old(Model()), command, clock)
    {
      ghost var a := Model();
      match command {
        case Send(msg) =>
          submitted := submitted + [msg];
          ghost var b := Model();
          HandleSend(msg);
          PostedExtends(a, b.core, clock);
          LiftCompose(a, b.core, Core(), clock);
        case Up(identity) => HandleUp(identity);
        case Down(identity) =>
          HandleDown(identity);
          LiftSame(a, Core(), clock);
        case Received(from, e) => HandleReceived(from, e);
      }
    }
  }

  lemma Admitted(a: Async, b: Async, identity: Identity, clock: Clock)
    requires identity !in a.core.conns
    requires b == a.(core := Admit(a.core, identity))
    ensures Lift(b, Flush(b.core, a.core.buffer), clock) == Lift(a, HandleUp(a.core, identity), clock)
  {
    FlushExtends(b.core, a.core.buffer);
    LiftSame(a, b.core, clock);
    LiftCompose(a, b.core, Flush(b.core, a.core.buffer), clock);
    hide Flush, Lift;
  }

  lemma AfterNow(a: Async, clock: Clock)
    requires Monotone(clock)
    ensures NotBehind(clock, a.readings + 1, clock(a.readings))
    ensures FireDue(a.(readings := a.readings + 1), clock(a.readings), clock) == Wake(a, clock)
  {
  }

  lemma FireDueOnce(a: Async, now: nat, clock: Clock)
    requires NotBehind(clock, a.readings, now) && a.deadlines != [] && a.deadlines[0].at <= now
    ensures var popped := a.(deadlines := a.deadlines[1..]);
      var next := Apply(popped, Expire(a.deadlines[0].id), clock);
      NotBehind(clock, next.readings, now) && FireDue(next, now, clock) == FireDue(a, now, clock)
  {
    ApplyDue(a.(deadlines := a.deadlines[1..]), Expire(a.deadlines[0].id), now, clock);
    hide Apply;
  }

  lemma FireDueDone(a: Async, now: nat, clock: Clock)
    requires NotBehind(clock, a.readings, now) && (a.deadlines == [] || a.deadlines[0].at > now)
    ensures FireDue(a, now, clock) == a
  {
  }
}
