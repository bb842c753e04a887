// What a command asks of the resend timers.
module BrokerTimers {
  import opened Bytes
  import opened Protocol
  import opened Broker
  import opened BrokerLaws

  // The arm operations for the ids numbered from `from` up to `to`.
  function Arms(salt: Salt, from: nat, to: nat): (ops: seq<TimerOp>)
    requires from <= to
    ensures |ops| == to - from
  {
    seq(to - from, i requires 0 <= i < to - from => Arm(MsgId(salt, from + i)))
  }

  lemma ArmsSplit(salt: Salt, a: nat, b: nat, c: nat)
    requires a <= b <= c
    ensures Arms(salt, a, c) == Arms(salt, a, b) + Arms(salt, b, c)
  {
  }

  // Every id drawn is armed, once and in order, and only drawn ids become pending.
  ghost predicate ArmsNew(s: State, t: State) {
    && s.nextId <= t.nextId && t.salt == s.salt
    && t.timer == s.timer + Arms(s.salt, s.nextId, t.nextId)
    && (forall id <- t.pending ::
          (id in s.pending && t.pending[id] == s.pending[id])
          || (id.salt == s.salt && s.nextId <= id.counter < t.nextId))
  }

  // ... and every other pending message stays pending, as does every id drawn.
  ghost predicate KeepsPending(s: State, t: State, except: set<MsgId>) {
    && t.salt == s.salt
    && (forall id <- s.pending ::
          id !in except && id.counter < s.nextId ==> id in t.pending && t.pending[id] == s.pending[id])
    && (forall k | s.nextId <= k < t.nextId :: MsgId(s.salt, k) in t.pending)
  }

  lemma ArmsTransmit(s: State, msg: Message, retries: nat, prev: Option<MsgId>)
    ensures ArmsNew(s, Transmit(s, msg, retries, prev)) && KeepsPending(s, Transmit(s, msg, retries, prev), {})
    ensures Transmit(s, msg, retries, prev).nextId <= s.nextId + 1
  {
    TransmitShape(s, msg, retries, prev);
    hide Transmit;
    assert Arms(s.salt, s.nextId, s.nextId + 1) == [Arm(MsgId(s.salt, s.nextId))];
    assert s.timer + Arms(s.salt, s.nextId, s.nextId) == s.timer;
  }

  lemma ArmsSend(s: State, msg: Message)
    ensures ArmsNew(s, HandleSend(s, msg)) && KeepsPending(s, HandleSend(s, msg), {})
  {
    ArmsTransmit(s, msg, MAX_RETRIES, None);
    hide Transmit;
    assert s.timer + Arms(s.salt, s.nextId, s.nextId) == s.timer;
  }

  lemma ArmsChain(s: State, t: State, u: State)
    requires ArmsNew(s, t) && ArmsNew(t, u)
    ensures ArmsNew(s, u)
  {
    ArmsSplit(s.salt, s.nextId, t.nextId, u.nextId);
    Associate(s.timer, Arms(s.salt, s.nextId, t.nextId), Arms(s.salt, t.nextId, u.nextId));
  }

  lemma {:induction false} ArmsFlush(s: State, msgs: seq<Message>)
    ensures ArmsNew(s, Flush(s, msgs)) && KeepsPending(s, Flush(s, msgs), {})
    decreases |msgs|
  {
    if msgs == [] {
      assert s.timer + Arms(s.salt, s.nextId, s.nextId) == s.timer;
    } else {
      var next := HandleSend(s, msgs[0]);
      ArmsSend(s, msgs[0]);
      ArmsFlush(next, msgs[1..]);
      ArmsChain(s, next, Flush(next, msgs[1..]));
      hide HandleSend, ArmsNew;
    }
  }

  lemma ArmsUp(s: State, identity: Identity)
    ensures ArmsNew(s, HandleUp(s, identity)) && KeepsPending(s, HandleUp(s, identity), {})
  {
    assert s.timer + Arms(s.salt, s.nextId, s.nextId) == s.timer;
    ArmsFlush(Admit(s, identity), s.buffer);
    hide Flush;
  }

  ghost predicate ArmsExcept(s: State, t: State, id: MsgId) {
    && ArmsNew(s, t) && KeepsPending(s, t, {id}) && (id.counter < s.nextId ==> id !in t.pending)
  }

  lemma ArmsWider(s: State, id: MsgId, t: State)
    requires var rest := s.(pending := s.pending - {id}); ArmsNew(rest, t) && KeepsPending(rest, t, {})
    ensures ArmsExcept(s, t, id)
  {
  }

  lemma ArmsDrop(s: State, id: MsgId, t: State)
    requires t.pending == s.pending - {id} && t.timer == s.timer && t.nextId == s.nextId && t.salt == s.salt
    ensures ArmsExcept(s, t, id)
  {
    assert s.timer + Arms(s.salt, s.nextId, s.nextId) == s.timer;
  }

  lemma ArmsRetry(s: State, id: MsgId)
    requires id in s.pending && s.pending[id].retries > 0
    ensures var rest := s.(pending := s.pending - {id});
      var t := Transmit(rest, s.pending[id].msg, s.pending[id].retries - 1, Some(id));
      ArmsExcept(s, t, id) && t.nextId <= s.nextId + 1
  {
    hide *;
    var rest := s.(pending := s.pending - {id});
    ArmsTransmit(rest, s.pending[id].msg, s.pending[id].retries - 1, Some(id));
    ArmsWider(s, id, Transmit(rest, s.pending[id].msg, s.pending[id].retries - 1, Some(id)));
  }

  lemma ArmsExpire(s: State, id: MsgId)
    ensures ArmsExcept(s, HandleExpire(s, id), id)
    ensures HandleExpire(s, id).nextId <= s.nextId + 1
  {
    hide Transmit, ArmsNew, KeepsPending, ArmsExcept;
    if id !in s.pending {
      assert s.pending - {id} == s.pending;
      ArmsDrop(s, id, s);
    } else if s.pending[id].retries > 0 && s.conns != map[] {
      ArmsRetry(s, id);
    } else {
      ArmsDrop(s, id, HandleExpire(s, id));
    }
  }

  // An acknowledgement cancels the timer of the message it settles and arms nothing.
  ghost predicate Acknowledges(s: State, t: State, id: MsgId) {
    && t.nextId == s.nextId && t.salt == s.salt
    && t.pending == s.pending - {id}
    && t.timer == s.timer + (if id in s.pending then [Cancel(id)] else [])
  }

  // The three things a command can do to the timers.
  lemma StepTimers(s: State, input: Input)
    ensures var t := Step(s, input);
      match input
      case Received(_, Ack(id)) => Acknowledges(s, t, id)
      case Expire(id) => ArmsExcept(s, t, id)
      case _ => ArmsNew(s, t) && KeepsPending(s, t, {})
  {
    assert s.timer + Arms(s.salt, s.nextId, s.nextId) == s.timer;
    match input
    case Send(msg) =>
      ArmsSend(s.(submitted := s.submitted + [msg]), msg);
      hide HandleSend;
    case Up(identity) =>
      ArmsUp(s, identity);
      hide HandleUp;
    case Down(identity) =>
    case Received(from, e) =>
      if e.DataReq? {
        RouteOnly(TakeRequest(s, from, e.id, e.payload), Some(from), Ack(e.id));
      } else if e.Ack? {
        assert s.timer + [] == s.timer;
        if e.id !in s.pending {
          assert s.pending - {e.id} == s.pending;
        }
      }
      hide Route;
    case Expire(id) =>
      ArmsExpire(s, id);
      hide HandleExpire;
  }
}
