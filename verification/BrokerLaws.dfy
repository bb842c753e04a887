// What every command keeps, and so what holds at every point of every run.
module BrokerLaws {
  import opened Bytes
  import opened Protocol
  import opened Broker

  // ---- Connections ----

  predicate Distinct<T(==)>(s: seq<T>) {
    forall i, j | 0 <= i < j < |s| :: s[i] != s[j]
  }

  // `order` enumerates the connected peers without repetition, each with a channel of
  // its own; messages are held back only while nobody is connected.
  ghost predicate Connected(s: State) {
    && Distinct(s.order)
    && (forall p :: p in s.order <==> p in s.conns)
    && (forall p <- s.conns :: s.conns[p] < |s.channels| && s.channels[s.conns[p]].peer == p)
    && (s.conns != map[] ==> s.buffer == [])
  }

  // The parts of the state a route may touch.
  ghost predicate OnlyRouted(s: State, t: State) {
    && t == s.(channels := t.channels, cursor := t.cursor, routes := t.routes) && s.routes <= t.routes
    && |t.channels| == |s.channels|
    && (forall c | 0 <= c < |s.channels| :: t.channels[c].peer == s.channels[c].peer)
  }

  lemma RouteOnly(s: State, target: Option<Identity>, e: Envelope)
    ensures OnlyRouted(s, Route(s, target, e))
  {
  }

  lemma TransmitShape(s: State, msg: Message, retries: nat, prev: Option<MsgId>)
    ensures Reliable(s, msg.target) ==> OnlyRouted(Register(s, msg, retries, prev), Transmit(s, msg, retries, prev))
    ensures !Reliable(s, msg.target) ==>
      OnlyRouted(s.(posted := s.posted + [msg]), Transmit(s, msg, retries, prev))
  {
    hide Route;
    RouteOnly(Register(s, msg, retries, prev), msg.target, DataReq(MsgId(s.salt, s.nextId), msg.data));
    RouteOnly(s.(posted := s.posted + [msg]), msg.target, Data(msg.data));
  }

  // Induction over a flush: a property every transmission keeps survives the backlog.
  lemma {:induction false} FlushConnected(s: State, msgs: seq<Message>)
    requires Connected(s) && s.conns != map[]
    ensures var t := Flush(s, msgs); Connected(t) && t.conns == s.conns && t.order == s.order
    decreases |msgs|
  {
    if msgs != [] {
      TransmitShape(s, msgs[0], MAX_RETRIES, None);
      hide Transmit;
      FlushConnected(HandleSend(s, msgs[0]), msgs[1..]);
    }
  }

  lemma {:induction false} RemoveFirstDistinct(order: seq<Identity>, identity: Identity)
    requires Distinct(order)
    ensures var r := RemoveFirst(order, identity);
      Distinct(r) && forall p :: p in r <==> p in order && p != identity
  {
    if order != [] {
      var tail := order[1..];
      assert Distinct(tail);
      RemoveFirstDistinct(tail, identity);
      assert order == [order[0]] + tail;
      assert order[0] !in tail;
    }
  }

  lemma ConnectedSend(s: State, msg: Message)
    requires Connected(s)
    ensures Connected(HandleSend(s, msg))
  {
    TransmitShape(s, msg, MAX_RETRIES, None);
    hide Transmit, Distinct;
  }

  lemma ConnectedReceived(s: State, from: Identity, e: Envelope)
    requires Connected(s)
    ensures Connected(HandleReceived(s, from, e))
  {
    if e.DataReq? {
      RouteOnly(TakeRequest(s, from, e.id, e.payload), Some(from), Ack(e.id));
    }
    hide Route, Distinct;
  }

  lemma ConnectedRouted(s: State, t: State)
    requires Connected(s) && t.conns == s.conns && t.order == s.order && t.buffer == s.buffer
    requires |t.channels| == |s.channels|
    requires forall c | 0 <= c < |s.channels| :: t.channels[c].peer == s.channels[c].peer
    ensures Connected(t)
  {
    hide Distinct;
  }

  lemma ConnectedTransmit(s: State, msg: Message, retries: nat, prev: Option<MsgId>)
    requires Connected(s)
    ensures Connected(Transmit(s, msg, retries, prev))
  {
    TransmitShape(s, msg, retries, prev);
    hide Transmit, Connected;
    ConnectedRouted(s, Transmit(s, msg, retries, prev));
  }

  lemma ConnectedExpire(s: State, id: MsgId)
    requires Connected(s)
    ensures Connected(HandleExpire(s, id))
  {
    hide Transmit, Distinct;
    if id in s.pending {
      var p := s.pending[id];
      var rest := s.(pending := s.pending - {id});
      assert Connected(rest);
      if p.retries > 0 && s.conns != map[] {
        hide Connected;
        ConnectedTransmit(rest, p.msg, p.retries - 1, Some(id));
      }
    }
  }

  lemma ConnectedStep(s: State, input: Input)
    requires Connected(s)
    ensures Connected(Step(s, input))
  {
    hide Distinct, HandleSend, Flush, Admit, HandleReceived, HandleExpire;
    match input
    case Send(msg) => ConnectedSend(s.(submitted := s.submitted + [msg]), msg);
    case Up(identity) =>
      if identity !in s.conns {
        AdmitConnected(s, identity);
        FlushConnected(Admit(s, identity), s.buffer);
      }
    case Down(identity) => RemoveFirstDistinct(s.order, identity);
    case Received(from, e) => ConnectedReceived(s, from, e);
    case Expire(id) => ConnectedExpire(s, id);
  }

  lemma AdmitConnected(s: State, identity: Identity)
    requires Connected(s) && identity !in s.conns
    ensures Connected(Admit(s, identity)) && Admit(s, identity).conns != map[]
  {
    var t := Admit(s, identity);
    assert identity in t.conns;
    forall p ensures p in t.order <==> p in t.conns {
      assert p in t.order <==> p in s.order || p == identity;
    }
  }

  // ---- Ids and retries ----

  // How many times the message behind id number k has been transmitted since it last
  // left the buffer.
  function Attempts(issued: seq<Issue>, k: nat): (n: nat)
    ensures n >= 1
    decreases k
  {
    if k < |issued| && issued[k].prev.Some? && issued[k].prev.value.counter < k
    then 1 + Attempts(issued, issued[k].prev.value.counter)
    else 1
  }

  lemma {:induction false} AttemptsStable(issued: seq<Issue>, more: seq<Issue>, k: nat)
    requires k < |issued|
    ensures Attempts(issued + more, k) == Attempts(issued, k)
    decreases k
  {
    var prev := issued[k].prev;
    assert (issued + more)[k] == issued[k];
    if prev.Some? && prev.value.counter < k {
      AttemptsStable(issued, more, prev.value.counter);
    }
  }

  // A transmission that repeats an earlier one carries the same message.
  ghost predicate Linked(issued: seq<Issue>, salt: Salt) {
    forall k | 0 <= k < |issued| :: issued[k].prev.Some? ==> Repeats(issued, salt, k, issued[k].prev.value)
  }

  ghost predicate Repeats(issued: seq<Issue>, salt: Salt, k: nat, prev: MsgId)
    requires k < |issued|
  {
    prev.salt == salt && prev.counter < k && issued[prev.counter].msg == issued[k].msg
  }

  lemma LinkedSnoc(issued: seq<Issue>, salt: Salt, i: Issue)
    requires Linked(issued, salt)
    requires i.prev.Some? ==>
      i.prev.value.salt == salt && i.prev.value.counter < |issued| && issued[i.prev.value.counter].msg == i.msg
    ensures Linked(issued + [i], salt)
  {
    var more := issued + [i];
    forall k | 0 <= k < |more| && more[k].prev.Some? ensures Repeats(more, salt, k, more[k].prev.value) {
      if k < |issued| {
        assert issued[k] == more[k] && Repeats(issued, salt, k, issued[k].prev.value);
      }
    }
  }

  ghost predicate Known(s: State, id: MsgId, msg: Message) {
    id.salt == s.salt && id.counter < |s.issued| && s.issued[id.counter].msg == msg
  }

  // Budget and transmissions add up to six for every pending message, and a message is
  // given up only after its sixth transmission.
  ghost predicate Budgeted(s: State) {
    && |s.issued| == s.nextId && Linked(s.issued, s.salt)
    && (forall id <- s.pending ::
          && Known(s, id, s.pending[id].msg)
          && Reliable(s, s.pending[id].msg.target)
          && s.pending[id].retries + Attempts(s.issued, id.counter) == MAX_RETRIES + 1)
    && (forall r <- s.dropped :: Known(s, r.id, r.msg) && Attempts(s.issued, r.id.counter) == MAX_RETRIES + 1)
    && (forall r <- s.acked :: Known(s, r.id, r.msg))
  }

  // A resend with this budget follows on the transmission of the message under `prev`.
  ghost predicate Continues(s: State, msg: Message, retries: nat, prev: MsgId) {
    Known(s, prev, msg) && retries + Attempts(s.issued, prev.counter) == MAX_RETRIES
  }

  lemma BudgetedRegister(s: State, msg: Message, retries: nat, prev: Option<MsgId>)
    requires Budgeted(s) && Reliable(s, msg.target)
    requires prev.None? ==> retries == MAX_RETRIES
    requires prev.Some? ==> Continues(s, msg, retries, prev.value)
    ensures Budgeted(Register(s, msg, retries, prev))
  {
    var t := Register(s, msg, retries, prev);
    var add := [Issue(msg, prev)];
    LinkedSnoc(s.issued, s.salt, Issue(msg, prev));
    hide Linked;
    forall k: nat | k < |s.issued|
      ensures Attempts(t.issued, k) == Attempts(s.issued, k) && t.issued[k] == s.issued[k]
    {
      AttemptsStable(s.issued, add, k);
    }
    forall id <- t.pending
      ensures Known(t, id, t.pending[id].msg) && Reliable(t, t.pending[id].msg.target)
      ensures t.pending[id].retries + Attempts(t.issued, id.counter) == MAX_RETRIES + 1
    {
      if id != MsgId(s.salt, s.nextId) {
        assert id in s.pending;
      }
    }
  }

  lemma BudgetedTransmit(s: State, msg: Message, retries: nat, prev: Option<MsgId>)
    requires Budgeted(s)
    requires prev.None? ==> retries == MAX_RETRIES
    requires prev.Some? ==> Reliable(s, msg.target) && Continues(s, msg, retries, prev.value)
    ensures Budgeted(Transmit(s, msg, retries, prev))
  {
    TransmitShape(s, msg, retries, prev);
    hide Transmit, Register, Budgeted, OnlyRouted;
    if Reliable(s, msg.target) {
      BudgetedRegister(s, msg, retries, prev);
      BudgetedRouted(Register(s, msg, retries, prev), Transmit(s, msg, retries, prev));
    } else {
      BudgetedPosted(s, msg);
      BudgetedRouted(s.(posted := s.posted + [msg]), Transmit(s, msg, retries, prev));
    }
  }

  lemma BudgetedPosted(s: State, msg: Message)
    requires Budgeted(s)
    ensures Budgeted(s.(posted := s.posted + [msg]))
  {
    hide Attempts, Linked;
  }

  lemma BudgetedRouted(s: State, t: State)
    requires Budgeted(s) && OnlyRouted(s, t)
    ensures Budgeted(t)
  {
    hide Attempts, Linked;
  }

  lemma BudgetedSend(s: State, msg: Message)
    requires Budgeted(s)
    ensures Budgeted(HandleSend(s, msg))
  {
    BudgetedTransmit(s, msg, MAX_RETRIES, None);
    hide Transmit, Attempts, Linked;
  }

  lemma {:induction false} BudgetedFlush(s: State, msgs: seq<Message>)
    requires Budgeted(s)
    ensures Budgeted(Flush(s, msgs))
    decreases |msgs|
  {
    hide Budgeted, HandleSend;
    if msgs != [] {
      BudgetedSend(s, msgs[0]);
      BudgetedFlush(HandleSend(s, msgs[0]), msgs[1..]);
    }
  }

  lemma BudgetedReceived(s: State, from: Identity, e: Envelope)
    requires Budgeted(s)
    ensures Budgeted(HandleReceived(s, from, e))
  {
    if e.DataReq? {
      RouteOnly(TakeRequest(s, from, e.id, e.payload), Some(from), Ack(e.id));
    }
    hide Route, Attempts, Linked;
  }

  lemma BudgetedExpire(s: State, id: MsgId)
    requires Budgeted(s)
    ensures Budgeted(HandleExpire(s, id))
  {
    hide Attempts, Transmit, Linked;
    if id in s.pending {
      var p := s.pending[id];
      var rest := s.(pending := s.pending - {id});
      assert Budgeted(rest);
      if p.retries > 0 {
        BudgetedTransmit(rest, p.msg, p.retries - 1, Some(id));
      }
    }
  }

  lemma BudgetedStep(s: State, input: Input)
    requires Budgeted(s)
    ensures Budgeted(Step(s, input))
  {
    hide Attempts, Linked, HandleSend, Flush, HandleReceived, HandleExpire;
    match input
    case Send(msg) => BudgetedSend(s.(submitted := s.submitted + [msg]), msg);
    case Up(identity) => BudgetedFlush(Admit(s, identity), s.buffer);
    case Down(identity) =>
    case Received(from, e) => BudgetedReceived(s, from, e);
    case Expire(id) => BudgetedExpire(s, id);
  }

  // ---- Conservation of messages ----

  // The messages waiting for an acknowledgement, by id number below k.
  ghost function Held(pending: map<MsgId, Pending>, salt: Salt, k: nat): multiset<Message> {
    if k == 0 then multiset{} else
    Held(pending, salt, k - 1) + HeldOnce(pending, MsgId(salt, k - 1))
  }

  ghost function HeldOnce(pending: map<MsgId, Pending>, id: MsgId): multiset<Message> {
    if id in pending then multiset{pending[id].msg} else multiset{}
  }

  lemma {:induction false} HeldAbove(pending: map<MsgId, Pending>, salt: Salt, k: nat, id: MsgId, p: Pending)
    requires id.counter >= k
    ensures Held(pending[id := p], salt, k) == Held(pending, salt, k)
  {
    if k > 0 {
      HeldAbove(pending, salt, k - 1, id, p);
    }
  }

  lemma Exchange(a: multiset<Message>, b: multiset<Message>, c: multiset<Message>)
    ensures a + b + c == a + c + b
  {
  }

  lemma HeldOnceWithout(pending: map<MsgId, Pending>, id: MsgId, other: MsgId)
    ensures HeldOnce(pending - {id}, other) == if other == id then multiset{} else HeldOnce(pending, other)
  {
  }

  lemma {:induction false} HeldWithout(pending: map<MsgId, Pending>, salt: Salt, k: nat, id: MsgId)
    requires id in pending && id.salt == salt
    ensures Held(pending, salt, k) ==
      Held(pending - {id}, salt, k) + (if id.counter < k then HeldOnce(pending, id) else multiset{})
  {
    hide HeldOnce;
    if k > 0 {
      var last := MsgId(salt, k - 1);
      HeldWithout(pending, salt, k - 1, id);
      HeldOnceWithout(pending, id, last);
      if last != id {
        Exchange(Held(pending - {id}, salt, k - 1), HeldOnce(pending, id), HeldOnce(pending, last));
      }
    }
  }

  function MsgsOf(rs: seq<Resolved>): (ms: seq<Message>)
    ensures |ms| == |rs|
  {
    seq(|rs|, i requires 0 <= i < |rs| => rs[i].msg)
  }

  // Where the submitted messages are now.
  ghost function Accounted(s: State): multiset<Message> {
    multiset(s.posted) + multiset(s.buffer) + Held(s.pending, s.salt, s.nextId)
    + multiset(MsgsOf(s.acked)) + multiset(MsgsOf(s.dropped))
  }

  lemma MsgsOfSnoc(rs: seq<Resolved>, r: Resolved)
    ensures multiset(MsgsOf(rs + [r])) == multiset(MsgsOf(rs)) + multiset{r.msg}
  {
    assert MsgsOf(rs + [r]) == MsgsOf(rs) + [r.msg];
  }

  lemma AccountedTransmit(s: State, msg: Message, retries: nat, prev: Option<MsgId>)
    ensures Accounted(Transmit(s, msg, retries, prev)) == Accounted(s) + multiset{msg}
  {
    TransmitShape(s, msg, retries, prev);
    hide Transmit, Held, MsgsOf;
    if Reliable(s, msg.target) {
      var id := MsgId(s.salt, s.nextId);
      HeldNew(s.pending, s.salt, s.nextId, Pending(msg, retries));
    }
  }

  lemma HeldNew(pending: map<MsgId, Pending>, salt: Salt, k: nat, p: Pending)
    ensures Held(pending[MsgId(salt, k) := p], salt, k + 1) == Held(pending, salt, k) + multiset{p.msg}
  {
    HeldAbove(pending, salt, k, MsgId(salt, k), p);
  }

  lemma AccountedSend(s: State, msg: Message)
    ensures Accounted(HandleSend(s, msg)) == Accounted(s) + multiset{msg}
  {
    AccountedTransmit(s, msg, MAX_RETRIES, None);
    hide Transmit, Held, MsgsOf;
  }

  lemma {:induction false} AccountedFlush(s: State, msgs: seq<Message>)
    ensures Accounted(Flush(s, msgs)) == Accounted(s) + multiset(msgs)
    ensures Flush(s, msgs).submitted == s.submitted
    decreases |msgs|
  {
    hide Accounted, HandleSend;
    if msgs != [] {
      AccountedSend(s, msgs[0]);
      SendKeepsSubmitted(s, msgs[0]);
      AccountedFlush(HandleSend(s, msgs[0]), msgs[1..]);
      assert msgs == [msgs[0]] + msgs[1..];
    }
  }

  lemma SendKeepsSubmitted(s: State, msg: Message)
    ensures HandleSend(s, msg).submitted == s.submitted
  {
    TransmitShape(s, msg, MAX_RETRIES, None);
    hide Transmit;
  }

  // Nothing is lost silently: the submitted messages are, as multisets, exactly the
  // posted, buffered, pending, acknowledged and dropped ones.
  ghost predicate Conserved(s: State) {
    multiset(s.submitted) == Accounted(s)
  }

  lemma AccountedAdmit(s: State, identity: Identity)
    ensures Accounted(s) == Accounted(Admit(s, identity)) + multiset(s.buffer)
  {
    hide Held, MsgsOf;
  }

  lemma AccountedRemove(s: State, id: MsgId)
    requires Budgeted(s) && id in s.pending
    ensures Accounted(s) == Accounted(s.(pending := s.pending - {id})) + multiset{s.pending[id].msg}
  {
    HeldWithout(s.pending, s.salt, s.nextId, id);
    hide Held, MsgsOf, Attempts, Linked;
  }

  lemma AccountedSettle(s: State, r: Resolved)
    ensures Accounted(s.(acked := s.acked + [r])) == Accounted(s) + multiset{r.msg}
  {
    hide Held, MsgsOf;
    MsgsOfSnoc(s.acked, r);
  }

  // The account looks at none of what changes.
  lemma AccountedSame(s: State, t: State)
    requires t == s.(channels := t.channels, cursor := t.cursor, routes := t.routes,
                     delivered := t.delivered, requests := t.requests, timer := t.timer)
    ensures Accounted(t) == Accounted(s)
  {
    hide Held, MsgsOf;
  }

  lemma AccountedAck(s: State, id: MsgId)
    requires Budgeted(s)
    ensures Accounted(HandleAck(s, id)) == Accounted(s)
    ensures HandleAck(s, id).submitted == s.submitted
  {
    hide Accounted, Budgeted;
    if id in s.pending {
      var rest := s.(pending := s.pending - {id});
      var settled := rest.(acked := s.acked + [Resolved(id, s.pending[id].msg)]);
      AccountedRemove(s, id);
      AccountedSettle(rest, Resolved(id, s.pending[id].msg));
      AccountedSame(settled, HandleAck(s, id));
    }
  }

  lemma AccountedReceived(s: State, from: Identity, e: Envelope)
    requires Budgeted(s)
    ensures Accounted(HandleReceived(s, from, e)) == Accounted(s)
    ensures HandleReceived(s, from, e).submitted == s.submitted
  {
    hide Accounted, Budgeted, Route, HandleAck;
    if e.Ack? {
      AccountedAck(s, e.id);
    } else {
      if e.DataReq? {
        RouteOnly(TakeRequest(s, from, e.id, e.payload), Some(from), Ack(e.id));
      }
      AccountedSame(s, HandleReceived(s, from, e));
    }
  }

  lemma AccountedDrop(s: State, r: Resolved)
    ensures Accounted(s.(dropped := s.dropped + [r])) == Accounted(s) + multiset{r.msg}
  {
    hide Held, MsgsOf;
    MsgsOfSnoc(s.dropped, r);
  }

  lemma AccountedRebuffer(s: State, r: Resolved)
    ensures Accounted(s.(buffer := s.buffer + [r.msg], rebuffered := s.rebuffered + [r])) ==
      Accounted(s) + multiset{r.msg}
  {
    hide Held, MsgsOf;
  }

  lemma AccountedExpire(s: State, id: MsgId)
    requires Budgeted(s)
    ensures Accounted(HandleExpire(s, id)) == Accounted(s)
    ensures HandleExpire(s, id).submitted == s.submitted
  {
    hide Accounted, Transmit, Budgeted;
    if id in s.pending {
      var p := s.pending[id];
      var rest := s.(pending := s.pending - {id});
      AccountedRemove(s, id);
      if p.retries == 0 {
        AccountedDrop(rest, Resolved(id, p.msg));
      } else if s.conns == map[] {
        AccountedRebuffer(rest, Resolved(id, p.msg));
      } else {
        AccountedTransmit(rest, p.msg, p.retries - 1, Some(id));
        TransmitShape(rest, p.msg, p.retries - 1, Some(id));
      }
    }
  }

  lemma ConservedStep(s: State, input: Input)
    requires Budgeted(s) && Conserved(s)
    ensures Conserved(Step(s, input))
  {
    hide Held, MsgsOf, Budgeted, HandleSend, Flush, HandleReceived, HandleExpire;
    match input
    case Send(msg) =>
      var s' := s.(submitted := s.submitted + [msg]);
      AccountedSend(s', msg);
      SendKeepsSubmitted(s', msg);
    case Up(identity) =>
      AccountedAdmit(s, identity);
      AccountedFlush(Admit(s, identity), s.buffer);
    case Down(identity) =>
    case Received(from, e) => AccountedReceived(s, from, e);
    case Expire(id) => AccountedExpire(s, id);
  }

  // ---- The fate of an id ----

  ghost function IssuedIds(salt: Salt, k: nat): multiset<MsgId> {
    if k == 0 then multiset{} else IssuedIds(salt, k - 1) + multiset{MsgId(salt, k - 1)}
  }

  function IdsOf(rs: seq<Resolved>): (ids: seq<MsgId>)
    ensures |ids| == |rs|
  {
    seq(|rs|, i requires 0 <= i < |rs| => rs[i].id)
  }

  // The ids whose message was transmitted again under another id.
  ghost function Superseded(issued: seq<Issue>): multiset<MsgId> {
    if issued == [] then multiset{} else
    var last := issued[|issued| - 1];
    Superseded(issued[..|issued| - 1]) + (if last.prev.Some? then multiset{last.prev.value} else multiset{})
  }

  // Every id ever drawn has exactly one fate: still pending, acknowledged, dropped,
  // returned to the buffer, or superseded by a resend; no id has two.
  ghost predicate OneFate(s: State) {
    IssuedIds(s.salt, s.nextId) ==
      multiset(s.pending.Keys) + multiset(IdsOf(s.acked)) + multiset(IdsOf(s.dropped))
      + multiset(IdsOf(s.rebuffered)) + Superseded(s.issued)
  }

  lemma IdsOfSnoc(rs: seq<Resolved>, r: Resolved)
    ensures multiset(IdsOf(rs + [r])) == multiset(IdsOf(rs)) + multiset{r.id}
  {
    assert IdsOf(rs + [r]) == IdsOf(rs) + [r.id];
  }

  lemma SupersededSnoc(issued: seq<Issue>, i: Issue)
    ensures Superseded(issued + [i]) ==
      Superseded(issued) + (if i.prev.Some? then multiset{i.prev.value} else multiset{})
  {
    assert (issued + [i])[..|issued|] == issued;
  }

  lemma KeysWith(pending: map<MsgId, Pending>, id: MsgId, p: Pending)
    ensures id !in pending ==> multiset(pending[id := p].Keys) == multiset(pending.Keys) + multiset{id}
    ensures id in pending ==> multiset(pending.Keys) == multiset((pending - {id}).Keys) + multiset{id}
  {
    assert pending[id := p].Keys == pending.Keys + {id};
    assert (pending - {id}).Keys == pending.Keys - {id};
  }

  // A transmission gives its new id a fate and, as a resend, settles the old one.
  ghost predicate Owing(s: State, extra: multiset<MsgId>) {
    IssuedIds(s.salt, s.nextId) ==
      multiset(s.pending.Keys) + multiset(IdsOf(s.acked)) + multiset(IdsOf(s.dropped))
      + multiset(IdsOf(s.rebuffered)) + Superseded(s.issued) + extra
  }

  lemma FateTransmit(s: State, msg: Message, retries: nat, prev: Option<MsgId>)
    requires Budgeted(s) && (prev.Some? ==> Reliable(s, msg.target))
    requires Owing(s, if prev.Some? then multiset{prev.value} else multiset{})
    ensures OneFate(Transmit(s, msg, retries, prev))
  {
    TransmitShape(s, msg, retries, prev);
    hide Transmit, IdsOf, Attempts, Linked;
    if Reliable(s, msg.target) {
      var id := MsgId(s.salt, s.nextId);
      assert id !in s.pending;
      KeysWith(s.pending, id, Pending(msg, retries));
      SupersededSnoc(s.issued, Issue(msg, prev));
      hide Superseded;
    }
  }

  lemma FateSend(s: State, msg: Message)
    requires Budgeted(s) && OneFate(s)
    ensures OneFate(HandleSend(s, msg))
  {
    hide IdsOf, Superseded, IssuedIds, Budgeted, Transmit;
    if s.conns != map[] {
      FateTransmit(s, msg, MAX_RETRIES, None);
    }
  }

  lemma {:induction false} FateFlush(s: State, msgs: seq<Message>)
    requires Budgeted(s) && OneFate(s)
    ensures OneFate(Flush(s, msgs))
    decreases |msgs|
  {
    hide OneFate, Budgeted, HandleSend;
    if msgs != [] {
      FateSend(s, msgs[0]);
      BudgetedSend(s, msgs[0]);
      FateFlush(HandleSend(s, msgs[0]), msgs[1..]);
    }
  }

  lemma FateReceived(s: State, from: Identity, e: Envelope)
    requires OneFate(s)
    ensures OneFate(HandleReceived(s, from, e))
  {
    hide IdsOf, Superseded, IssuedIds, Route;
    if e.DataReq? {
      RouteOnly(TakeRequest(s, from, e.id, e.payload), Some(from), Ack(e.id));
    } else if e.Ack? && e.id in s.pending {
      KeysWith(s.pending, e.id, s.pending[e.id]);
      IdsOfSnoc(s.acked, Resolved(e.id, s.pending[e.id].msg));
    }
  }

  lemma FateRemove(s: State, id: MsgId)
    requires OneFate(s) && id in s.pending
    ensures Owing(s.(pending := s.pending - {id}), multiset{id})
  {
    hide IdsOf, Superseded, IssuedIds;
    KeysWith(s.pending, id, s.pending[id]);
  }

  lemma FateDrop(s: State, r: Resolved)
    requires Owing(s, multiset{r.id})
    ensures OneFate(s.(dropped := s.dropped + [r]))
  {
    hide IdsOf, Superseded, IssuedIds;
    IdsOfSnoc(s.dropped, r);
  }

  lemma FateRebuffer(s: State, r: Resolved)
    requires Owing(s, multiset{r.id})
    ensures OneFate(s.(buffer := s.buffer + [r.msg], rebuffered := s.rebuffered + [r]))
  {
    hide IdsOf, Superseded, IssuedIds;
    IdsOfSnoc(s.rebuffered, r);
  }

  lemma FateExpire(s: State, id: MsgId)
    requires Budgeted(s) && OneFate(s)
    ensures OneFate(HandleExpire(s, id))
  {
    if id in s.pending {
      var p := s.pending[id];
      var rest := s.(pending := s.pending - {id});
      FateRemove(s, id);
      assert Budgeted(rest) && Reliable(s, p.msg.target) by { hide Attempts, Linked, OneFate; }
      hide OneFate, Owing, Transmit, Budgeted;
      if p.retries == 0 {
        FateDrop(rest, Resolved(id, p.msg));
      } else if s.conns == map[] {
        FateRebuffer(rest, Resolved(id, p.msg));
      } else {
        FateTransmit(rest, p.msg, p.retries - 1, Some(id));
      }
    }
  }

  lemma FateStep(s: State, input: Input)
    requires Budgeted(s) && OneFate(s)
    ensures OneFate(Step(s, input))
  {
    hide IdsOf, Superseded, IssuedIds, HandleSend, Flush, HandleReceived, HandleExpire;
    match input
    case Send(msg) =>
      var s' := s.(submitted := s.submitted + [msg]);
      assert Budgeted(s') by { hide Attempts, Linked; }
      FateSend(s', msg);
    case Up(identity) =>
      var a := Admit(s, identity);
      assert Budgeted(a) by { hide Attempts, Linked; }
      FateFlush(a, s.buffer);
    case Down(identity) =>
    case Received(from, e) => FateReceived(s, from, e);
    case Expire(id) => FateExpire(s, id);
  }

  // ---- Order of unacknowledged sends ----

  // The messages sent without acknowledgement, in order.
  function Plain(s: State, msgs: seq<Message>): seq<Message> {
    if msgs == [] then [] else
    Plain(s, msgs[..|msgs| - 1]) + (if Reliable(s, msgs[|msgs| - 1].target) then [] else [msgs[|msgs| - 1]])
  }

  lemma PlainSnoc(s: State, msgs: seq<Message>, m: Message)
    ensures Plain(s, msgs + [m]) == Plain(s, msgs) + (if Reliable(s, m.target) then [] else [m])
  {
    assert (msgs + [m])[..|msgs|] == msgs;
  }

  lemma {:induction false} PlainAppend(s: State, a: seq<Message>, b: seq<Message>)
    ensures Plain(s, a + b) == Plain(s, a) + Plain(s, b)
    decreases |b|
  {
    if b == [] {
      assert a + b == a;
    } else {
      var last := |b| - 1;
      assert a + b == (a + b[..last]) + [b[last]];
      PlainSnoc(s, a + b[..last], b[last]);
      PlainAppend(s, a, b[..last]);
    }
  }

  lemma {:induction false} PlainConfig(s: State, t: State, msgs: seq<Message>)
    requires t.mode == s.mode && t.delivery == s.delivery
    ensures Plain(t, msgs) == Plain(s, msgs)
    decreases |msgs|
  {
    if msgs != [] {
      PlainConfig(s, t, msgs[..|msgs| - 1]);
    }
  }

  // What was routed followed by what is buffered is what was sent, in order.
  ghost predicate InOrder(s: State) {
    s.posted + Plain(s, s.buffer) == Plain(s, s.submitted)
  }

  lemma PostedOne(s: State, msg: Message)
    requires s.conns != map[]
    ensures var t := HandleSend(s, msg);
      && t.posted == s.posted + Plain(s, [msg])
      && t.conns == s.conns && t.buffer == s.buffer && t.submitted == s.submitted
      && t.mode == s.mode && t.delivery == s.delivery
  {
    TransmitShape(s, msg, MAX_RETRIES, None);
    PlainSnoc(s, [], msg);
    assert [] + [msg] == [msg];
    hide Transmit, Plain;
  }

  lemma {:induction false} PostedFlush(s: State, msgs: seq<Message>)
    requires s.conns != map[]
    ensures var t := Flush(s, msgs);
      && t.posted == s.posted + Plain(s, msgs)
      && t.buffer == s.buffer && t.submitted == s.submitted && t.mode == s.mode && t.delivery == s.delivery
    decreases |msgs|
  {
    if msgs != [] {
      var next := HandleSend(s, msgs[0]);
      PostedOne(s, msgs[0]);
      hide HandleSend, Plain;
      PostedFlush(next, msgs[1..]);
      PlainConfig(s, next, msgs[1..]);
      assert msgs == [msgs[0]] + msgs[1..];
      PlainAppend(s, [msgs[0]], msgs[1..]);
      Associate(s.posted, Plain(s, [msgs[0]]), Plain(s, msgs[1..]));
    }
  }

  lemma OrderSend(s: State, msg: Message)
    requires Connected(s) && InOrder(s)
    ensures InOrder(HandleSend(s.(submitted := s.submitted + [msg]), msg))
  {
    hide Plain, Distinct;
    var s' := s.(submitted := s.submitted + [msg]);
    var t := HandleSend(s', msg);
    TransmitShape(s', msg, MAX_RETRIES, None);
    hide Transmit;
    PlainConfig(s, t, s.buffer + [msg]);
    PlainConfig(s, t, s.buffer);
    PlainConfig(s, t, s.submitted + [msg]);
    PlainSnoc(s, s.buffer, msg);
    PlainSnoc(s, s.submitted, msg);
    if s.conns == map[] {
      Associate(s.posted, Plain(s, s.buffer), if Reliable(s, msg.target) then [] else [msg]);
    } else {
      NoPlain(s);
    }
  }

  lemma OrderUp(s: State, identity: Identity)
    requires Connected(s) && InOrder(s)
    ensures InOrder(HandleUp(s, identity))
  {
    hide Plain, Distinct;
    var t := HandleUp(s, identity);
    if identity !in s.conns {
      var a := Admit(s, identity);
      assert identity in a.conns;
      hide Flush;
      PostedFlush(a, s.buffer);
      PlainConfig(s, a, s.buffer);
      NoPlain(t);
      PlainConfig(s, t, s.submitted);
    } else {
      PlainConfig(s, t, s.submitted);
      PlainConfig(s, t, s.buffer);
    }
  }

  lemma OrderReceived(s: State, from: Identity, e: Envelope)
    requires InOrder(s)
    ensures InOrder(HandleReceived(s, from, e))
  {
    hide Plain;
    var t := HandleReceived(s, from, e);
    if e.DataReq? {
      RouteOnly(TakeRequest(s, from, e.id, e.payload), Some(from), Ack(e.id));
      hide Route;
    }
    PlainConfig(s, t, s.submitted);
    PlainConfig(s, t, s.buffer);
  }

  lemma OrderExpire(s: State, id: MsgId)
    requires Budgeted(s) && InOrder(s)
    ensures InOrder(HandleExpire(s, id))
  {
    hide Plain, Attempts, Linked;
    var t := HandleExpire(s, id);
    if id in s.pending {
      var p := s.pending[id];
      var rest := s.(pending := s.pending - {id});
      TransmitShape(rest, p.msg, if p.retries > 0 then p.retries - 1 else 0, Some(id));
      hide Transmit;
      PlainSnoc(s, s.buffer, p.msg);
      PlainConfig(s, t, s.buffer + [p.msg]);
    }
    PlainConfig(s, t, s.submitted);
    PlainConfig(s, t, s.buffer);
  }

  lemma OrderStep(s: State, input: Input)
    requires Connected(s) && Budgeted(s) && InOrder(s)
    ensures InOrder(Step(s, input))
  {
    hide Plain, Budgeted, Connected, HandleSend, HandleUp, HandleReceived, HandleExpire;
    match input
    case Send(msg) => OrderSend(s, msg);
    case Up(identity) => OrderUp(s, identity);
    case Down(identity) =>
      PlainConfig(s, HandleDown(s, identity), s.submitted);
      PlainConfig(s, HandleDown(s, identity), s.buffer);
    case Received(from, e) => OrderReceived(s, from, e);
    case Expire(id) => OrderExpire(s, id);
  }

  lemma NoPlain(s: State)
    ensures Plain(s, []) == []
  {
  }

  // ---- Every run ----

  ghost predicate Inv(s: State) {
    Connected(s) && Budgeted(s) && Conserved(s) && OneFate(s) && InOrder(s)
  }

  lemma InitInv(mode: SendMode, delivery: Delivery, salt: Salt)
    ensures Inv(Init(mode, delivery, salt))
  {
    var s := Init(mode, delivery, salt);
    assert multiset(s.submitted) == multiset{};
    assert MsgsOf([]) == [] && IdsOf([]) == [];
    assert multiset(s.pending.Keys) == multiset{};
  }

  lemma StepInv(s: State, input: Input)
    requires Inv(s)
    ensures Inv(Step(s, input))
  {
    hide Connected, Budgeted, Conserved, OneFate, InOrder, Step;
    ConnectedStep(s, input);
    BudgetedStep(s, input);
    ConservedStep(s, input);
    FateStep(s, input);
    OrderStep(s, input);
  }

  lemma {:induction false} RunInv(s: State, inputs: seq<Input>)
    requires Inv(s)
    ensures Inv(Run(s, inputs))
    decreases |inputs|
  {
    hide Inv, Step;
    if inputs != [] {
      StepInv(s, inputs[0]);
      RunInv(Step(s, inputs[0]), inputs[1..]);
    }
  }

  // The numbers of the ids under which the message behind id number k has been transmitted
  // since it last left the buffer, first to last.
  function Transmissions(issued: seq<Issue>, k: nat): (ns: seq<nat>)
    ensures |ns| == Attempts(issued, k) && ns[|ns| - 1] == k
    decreases k
  {
    if k < |issued| && issued[k].prev.Some? && issued[k].prev.value.counter < k
    then Transmissions(issued, issued[k].prev.value.counter) + [k]
    else [k]
  }

  // Exactly n transmissions, under n different ids, all of this message: the first was no
  // resend, and each of the others repeats the one before it.
  ghost predicate SentTimes(s: State, id: MsgId, msg: Message, n: int) {
    var ns := Transmissions(s.issued, id.counter);
    && Known(s, id, msg) && |ns| == n
    && (forall i | 0 <= i < |ns| :: ns[i] < |s.issued| && s.issued[ns[i]].msg == msg)
    && (forall i, j | 0 <= i < j < |ns| :: ns[i] < ns[j])
    && s.issued[ns[0]].prev == None
    && (forall i | 0 < i < |ns| :: s.issued[ns[i]].prev == Some(MsgId(s.salt, ns[i - 1])))
  }

  lemma {:induction false} SentUnder(s: State, id: MsgId, msg: Message)
    requires Linked(s.issued, s.salt) && Known(s, id, msg)
    ensures SentTimes(s, id, msg, Attempts(s.issued, id.counter))
    decreases id.counter
  {
    var k := id.counter;
    if s.issued[k].prev.Some? {
      var prev := s.issued[k].prev.value;
      assert Repeats(s.issued, s.salt, k, prev);
      SentUnder(s, prev, msg);
      hide Linked;
      assert Transmissions(s.issued, k) == Transmissions(s.issued, prev.counter) + [k];
    }
  }

  // No silent loss, from the empty broker through any commands: the account of the sent
  // messages, and for each that is pending or dropped its transmissions, at most six and
  // exactly six.
  lemma NoSilentLoss(mode: SendMode, delivery: Delivery, salt: Salt, inputs: seq<Input>)
    ensures var s := Run(Init(mode, delivery, salt), inputs);
      && multiset(s.submitted) ==
           multiset(s.posted) + multiset(s.buffer) + Held(s.pending, s.salt, s.nextId)
           + multiset(MsgsOf(s.acked)) + multiset(MsgsOf(s.dropped))
      && (forall r <- s.dropped :: SentTimes(s, r.id, r.msg, 6))
      && (forall id <- s.pending :: s.pending[id].retries <= 5
           && SentTimes(s, id, s.pending[id].msg, 6 - s.pending[id].retries))
      && (s.buffer != [] ==> s.conns == map[])
  {
    InitInv(mode, delivery, salt);
    RunInv(Init(mode, delivery, salt), inputs);
    var s := Run(Init(mode, delivery, salt), inputs);
    hide Run, Held, MsgsOf, Attempts, Linked, SentTimes, OneFate, InOrder;
    forall r | r in s.dropped ensures SentTimes(s, r.id, r.msg, 6) {
      SentUnder(s, r.id, r.msg);
    }
    forall id | id in s.pending
      ensures s.pending[id].retries <= 5 && SentTimes(s, id, s.pending[id].msg, 6 - s.pending[id].retries)
    {
      SentUnder(s, id, s.pending[id].msg);
    }
  }

  // At most once: what was routed, followed by the buffer, is what was sent.
  lemma SendOrder(mode: SendMode, salt: Salt, inputs: seq<Input>)
    ensures var s := Run(Init(mode, AtMostOnce, salt), inputs); s.posted + s.buffer == s.submitted
  {
    InitInv(mode, AtMostOnce, salt);
    RunInv(Init(mode, AtMostOnce, salt), inputs);
    RunConfig(Init(mode, AtMostOnce, salt), inputs);
    var s := Run(Init(mode, AtMostOnce, salt), inputs);
    AllPlain(s, s.buffer);
    AllPlain(s, s.submitted);
  }

  lemma {:induction false} AllPlain(s: State, msgs: seq<Message>)
    requires s.delivery == AtMostOnce
    ensures Plain(s, msgs) == msgs
    decreases |msgs|
  {
    if msgs != [] {
      var init, last := msgs[..|msgs| - 1], msgs[|msgs| - 1];
      assert msgs == init + [last] && !Reliable(s, last.target);
      PlainSnoc(s, init, last);
      hide Plain;
      AllPlain(s, init);
    }
  }

  lemma {:induction false} FlushConfig(s: State, msgs: seq<Message>)
    ensures var t := Flush(s, msgs); t.mode == s.mode && t.delivery == s.delivery && t.salt == s.salt
    decreases |msgs|
  {
    if msgs != [] {
      TransmitShape(s, msgs[0], MAX_RETRIES, None);
      hide Transmit;
      FlushConfig(HandleSend(s, msgs[0]), msgs[1..]);
    }
  }

  // Mode, guarantee and salt never change.
  lemma StepConfig(s: State, input: Input)
    ensures var t := Step(s, input); t.mode == s.mode && t.delivery == s.delivery && t.salt == s.salt
  {
    match input
    case Send(msg) =>
      TransmitShape(s.(submitted := s.submitted + [msg]), msg, MAX_RETRIES, None);
      hide Transmit;
    case Up(identity) =>
      FlushConfig(Admit(s, identity), s.buffer);
      hide Flush;
    case Down(identity) =>
    case Received(from, e) =>
    case Expire(id) =>
      if id in s.pending && s.pending[id].retries > 0 {
        TransmitShape(s.(pending := s.pending - {id}), s.pending[id].msg, s.pending[id].retries - 1, Some(id));
      }
      hide Transmit;
  }

  lemma {:induction false} RunConfig(s: State, inputs: seq<Input>)
    ensures var t := Run(s, inputs); t.mode == s.mode && t.delivery == s.delivery && t.salt == s.salt
    decreases |inputs|
  {
    hide Step;
    if inputs != [] {
      StepConfig(s, inputs[0]);
      RunConfig(Step(s, inputs[0]), inputs[1..]);
    }
  }

  lemma {:induction false} IssuedOnce(salt: Salt, k: nat, id: MsgId)
    ensures IssuedIds(salt, k)[id] == if id.salt == salt && id.counter < k then 1 else 0
  {
    if k > 0 {
      IssuedOnce(salt, k - 1, id);
      assert id == MsgId(salt, k - 1) <==> id.salt == salt && id.counter == k - 1;
    }
  }

  // An id drawn by this broker is counted exactly once among the five fates.
  lemma ExactlyOneFate(s: State, id: MsgId)
    requires OneFate(s)
    ensures (if id in s.pending then 1 else 0) + multiset(IdsOf(s.acked))[id] + multiset(IdsOf(s.dropped))[id]
            + multiset(IdsOf(s.rebuffered))[id] + Superseded(s.issued)[id]
            == if id.salt == s.salt && id.counter < s.nextId then 1 else 0
  {
    IssuedOnce(s.salt, s.nextId, id);
    hide IdsOf, Superseded, IssuedIds;
    assert multiset(s.pending.Keys)[id] == if id in s.pending then 1 else 0;
  }
}
