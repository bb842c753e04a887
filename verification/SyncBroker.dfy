// The synchronous crate's broker object: the handlers update the fields in place and send
// the timer thread a message where the asynchronous one keeps a deadline.
module SyncBrokers {
  import opened Bytes
  import opened Protocol
  import opened Broker
  import opened BrokerParts

  lemma FlushOne(s: State, msgs: seq<Message>)
    requires msgs != []
    ensures Flush(s, msgs) == Flush(HandleSend(s, msgs[0]), msgs[1..])
  {
    hide HandleSend;
  }

  lemma FlushNone(s: State)
    ensures Flush(s, []) == s
  {
  }

  class SyncBroker {
    const sendMode: SendMode
    const delivery: Delivery
    const salt: Salt

    var conns: map<Identity, nat>
    var order: seq<Identity>
    var rrCursor: nat
    var buffer: seq<Message>
    var pending: map<MsgId, Pending>
    var nextId: nat

    // what the broker has sent
    var timer: seq<TimerOp>
    var channels: seq<Channel>
    var answers: seq<bool>
    var received: seq<(Identity, Bytes)>

    ghost var submitted: seq<Message>
    ghost var posted: seq<Message>
    ghost var issued: seq<Issue>
    ghost var acked: seq<Resolved>
    ghost var dropped: seq<Resolved>
    ghost var rebuffered: seq<Resolved>
    ghost var routes: seq<Routed>
    ghost var joined: seq<nat>
    ghost var requests: seq<Request>

    ghost function Core(): State
      reads this
    {
      State(sendMode, delivery, salt, conns, order, rrCursor, buffer, pending, nextId,
            channels, answers, timer, received, submitted, posted, issued, acked, dropped, rebuffered,
            routes, joined, requests)
    }

    constructor (mode: SendMode, guarantee: Delivery, drawn: Salt)
      ensures Core() == Init(mode, guarantee, drawn)
    {
      sendMode, delivery, salt := mode, guarantee, drawn;
      conns, order, rrCursor, buffer, pending, nextId := map[], [], 0, [], map[], 0;
      timer, channels, answers, received := [], [], [], [];
      submitted, posted, issued, acked, dropped, rebuffered := [], [], [], [], [], [];
      routes, joined, requests := [], [], [];
    }

    method NextMsgId() returns (id: MsgId)
      modifies this`nextId
      ensures id == MsgId(old(Core()).salt, old(Core()).nextId)
      ensures Core() == old(Core()).(nextId := old(Core()).nextId + 1)
    {
      id := MsgId(salt, nextId);
      nextId := nextId + 1;
    }

    method NextRoundRobin() returns (peer: Option<Identity>)
      modifies this`rrCursor
      ensures order == [] ==> peer == None && rrCursor == old(rrCursor)
      ensures order != [] ==> peer == Some(order[old(rrCursor) % |order|]) && rrCursor == old(rrCursor) + 1
    {
      if order == [] {
        return None;
      }
      peer := Some(order[rrCursor % |order|]);
      rrCursor := rrCursor + 1;
    }

    method Write(peer: Identity, e: Envelope)
      modifies this`channels
      ensures Core() == WriteTo(old(Core()), peer, e)
    {
      if peer in conns {
        channels := Put(channels, conns[peer], e);
      }
    }

    method Route(target: Option<Identity>, e: Envelope)
      modifies this`channels, this`rrCursor, this`routes
      ensures Core() == Broker.Route(old(Core()), target, e)
    {
      routes := routes + [Routed(target, e, conns.Keys, Recipients(Core(), target))];
      Dispatch(target, e);
    }

    method Dispatch(target: Option<Identity>, e: Envelope)
      modifies this`channels, this`rrCursor
      ensures Core() == Spread(old(Core()), target, e)
    {
      match target
      case Some(peer) => Write(peer, e);
      case None =>
        match sendMode {
          case Publish => channels := CopyToAll(channels, conns.Values, e);
          case RoundRobin =>
            var peer := NextRoundRobin();
            if peer.Some? {
              Write(peer.value, e);
            }
        }
    }

    method Track(id: MsgId, msg: Message, retries: nat, ghost prev: Option<MsgId>)
      modifies this`timer, this`pending, this`issued
      ensures Core() == old(Core()).(timer := old(Core()).timer + [Arm(id)],
                                     pending := old(Core()).pending[id := Pending(msg, retries)],
                                     issued := old(Core()).issued + [Issue(msg, prev)])
    {
      timer := timer + [Arm(id)];
      pending := pending[id := Pending(msg, retries)];
      issued := issued + [Issue(msg, prev)];
    }

    method Transmit(msg: Message, retries: nat, ghost prev: Option<MsgId>)
      modifies this
      ensures Core() == Broker.Transmit(old(Core()), msg, retries, prev)
    {
      hide Broker.Route;
      if delivery == AtLeastOnce && (msg.target.Some? || sendMode == RoundRobin) {
        Remember(msg, retries, prev);
      } else {
        posted := posted + [msg];
        Route(msg.target, Data(msg.data));
      }
    }

    method Remember(msg: Message, retries: nat, ghost prev: Option<MsgId>)
      modifies this
      ensures Core() == Broker.Route(Register(old(Core()), msg, retries, prev), msg.target,
                                     DataReq(MsgId(old(Core()).salt, old(Core()).nextId), msg.data))
    {
      hide Broker.Route, Core;
      var id := NextMsgId();
      Track(id, msg, retries, prev);
      Route(msg.target, DataReq(id, msg.data));
    }

    method HandleSend(msg: Message)
      modifies this
      ensures Core() == Broker.HandleSend(old(Core()), msg)
    {
      hide Broker.Transmit;
      if conns == map[] {
        buffer := buffer + [msg];
      } else {
        Transmit(msg, MAX_RETRIES, None);
      }
    }

    // The writer's channel, with the number of its ConnectionUp.
    method OpenChannel(identity: Identity) returns (conn: nat)
      modifies this`channels, this`joined
      ensures conn == |old(Core()).channels|
      ensures Core() == old(Core()).(channels := old(Core()).channels + [Channel(identity, [])],
                                     joined := old(Core()).joined + [|old(Core()).routes|])
    {
      conn := |channels|;
      channels := channels + [Channel(identity, [])];
      joined := joined + [|routes|];
    }

    // Registers the channel under the identity.
    method Insert(identity: Identity, conn: nat)
      modifies this`conns, this`order
      ensures Core() == old(Core()).(conns := old(Core()).conns[identity := conn],
                                     order := old(Core()).order + [identity])
    {
      conns := conns[identity := conn];
      order := order + [identity];
    }

    method Answer(accept: bool)
      modifies this`answers
      ensures Core() == old(Core()).(answers := old(Core()).answers + [accept])
    {
      answers := answers + [accept];
    }

    method TakeBuffer() returns (buffered: seq<Message>)
      modifies this`buffer
      ensures buffered == old(Core()).buffer && Core() == old(Core()).(buffer := [])
    {
      buffered := buffer;
      buffer := [];
    }

    method Holds(identity: Identity) returns (taken: bool)
      ensures taken == (identity in Core().conns)
    {
      taken := identity in conns;
    }

    method HandleUp(identity: Identity)
      modifies this
      ensures Core() == Broker.HandleUp(old(Core()), identity)
    {
      hide Flush, Core;
      var taken := Holds(identity);
      var conn := OpenChannel(identity);
      if taken {
        Answer(false); // the channel stays out of the table
        return;
      }
      Insert(identity, conn);
      Answer(true);
      var buffered := TakeBuffer();
      FlushBuffered(buffered);
    }

    method FlushBuffered(buffered: seq<Message>)
      modifies this
      ensures Core() == Flush(old(Core()), buffered)
    {
      hide Flush, Core;
      var i := 0;
      ghost var s := Core();
      while i < |buffered|
        invariant i <= |buffered| && Flush(Core(), buffered[i..]) == Flush(s, buffered)
      {
        FlushOne(Core(), buffered[i..]);
        HandleSend(buffered[i]);
        assert buffered[i..][1..] == buffered[i + 1..];
        i := i + 1;
      }
      assert buffered[i..] == [];
      FlushNone(Core());
    }

    method HandleDown(identity: Identity)
      modifies this`conns, this`order
      ensures Core() == Broker.HandleDown(old(Core()), identity)
    {
      conns := conns - {identity};
      order := Without(order, identity);
    }

    method HandleAck(id: MsgId)
      modifies this`pending, this`timer, this`acked
      ensures Core() == Broker.HandleAck(old(Core()), id)
    {
      if id in pending {
        acked := acked + [Resolved(id, pending[id].msg)];
        pending := pending - {id};
        timer := timer + [Cancel(id)];
      }
    }

    method Deliver(identity: Identity, payload: Bytes)
      modifies this`received
      ensures Core() == old(Core()).(delivered := old(Core()).delivered + [(identity, payload)])
    {
      received := received + [(identity, payload)];
    }

    ghost method NoteRequest(identity: Identity, id: MsgId, payload: Bytes)
      modifies this`requests
      ensures Core() == old(Core()).(requests := old(Core()).requests + [Request(identity, id, payload)])
    {
      requests := requests + [Request(identity, id, payload)];
    }

    method HandleReceived(identity: Identity, e: Envelope)
      modifies this
      ensures Core() == Broker.HandleReceived(old(Core()), identity, e)
    {
      hide Broker.Route, Broker.HandleAck, Core;
      match e {
        case Data(payload) => Deliver(identity, payload);
        case DataReq(id, payload) =>
          Deliver(identity, payload);
          NoteRequest(identity, id, payload);
          Route(Some(identity), Ack(id));
        case Ack(id) => HandleAck(id);
        case Hello(_, _) =>
        case Heartbeat =>
      }
    }

    method Forget(id: MsgId)
      modifies this`pending
      ensures Core() == old(Core()).(pending := old(Core()).pending - {id})
    {
      pending := pending - {id};
    }

    method Rebuffer(id: MsgId, msg: Message)
      modifies this`buffer, this`rebuffered
      ensures Core() == old(Core()).(buffer := old(Core()).buffer + [msg],
                                     rebuffered := old(Core()).rebuffered + [Resolved(id, msg)])
    {
      buffer := buffer + [msg];
      rebuffered := rebuffered + [Resolved(id, msg)];
    }

    ghost method GiveUp(id: MsgId, msg: Message)
      modifies this`dropped
      ensures Core() == old(Core()).(dropped := old(Core()).dropped + [Resolved(id, msg)])
    {
      dropped := dropped + [Resolved(id, msg)];
    }

    method Lookup(id: MsgId) returns (p: Option<Pending>)
      ensures p == if id in Core().pending then Some(Core().pending[id]) else None
    {
      p := if id in pending then Some(pending[id]) else None;
    }

    method Alone() returns (alone: bool)
      ensures alone == (Core().conns == map[])
    {
      alone := conns == map[];
    }

    method HandleResend(id: MsgId)
      modifies this
      ensures Core() == HandleExpire(old(Core()), id)
    {
      hide Broker.Transmit, Core;
      var found := Lookup(id);
      if found.Some? {
        var p := found.value;
        Forget(id);
        var alone := Alone();
        if p.retries == 0 {
          GiveUp(id, p.msg);
        } else if alone {
          Rebuffer(id, p.msg);
        } else {
          Transmit(p.msg, p.retries - 1, Some(id));
        }
      }
    }

    // One command from the channel.
    method Serve(input: Input)
      modifies this
      ensures Core() == Step(old(Core()), input)
    {
      hide Broker.HandleSend, Broker.HandleUp, Broker.HandleReceived, HandleExpire;
      match input {
        case Send(msg) =>
          submitted := submitted + [msg];
          HandleSend(msg);
        case Up(identity) => HandleUp(identity);
        case Down(identity) => HandleDown(identity);
        case Received(from, e) => HandleReceived(from, e);
        case Expire(id) => HandleResend(id);
      }
    }
  }
}
