// The synchronous crate's broker and timer threads as one system: two threads, the
// broker's command channel and the timer's message channel, interleaved in any order.
module SyncSystem {
  import opened Bytes
  import opened Protocol
  import opened Broker
  import opened BrokerLaws
  import opened BrokerRouting
  import opened BrokerTimers
  import opened Deadlines
  import opened ResendTimer

  // `core.timer` is everything the broker ever sent to the timer thread; the thread has
  // received the first `taken` of it.
  datatype System = System(
    core: State,
    taken: nat,
    timer: Timer,
    commands: seq<Input>,
    // history: the plain timer, and what has fired
    due: map<MsgId, nat>,
    fired: seq<MsgId>)

  datatype Move = Post(command: Command) | BrokerTurn | TimerTake | TimerTimeout | TimerPop | TimerRest

  function Boot(mode: SendMode, delivery: Delivery, salt: Salt): System {
    System(Init(mode, delivery, salt), 0, Idle(), [], map[], [])
  }

  function PlainTake(due: map<MsgId, nat>, op: TimerOp, now: nat): map<MsgId, nat> {
    match op
    case Arm(id) => due[id := now + RESEND_TIMEOUT]
    case Cancel(id) => due - {id}
  }

  function Received(y: System, clock: Clock): System
    requires y.taken < |y.core.timer|
  {
    var op := y.core.timer[y.taken];
    y.(taken := y.taken + 1,
       timer := Sample(Take(y.timer, Some(op), clock), clock),
       due := PlainTake(y.due, op, clock(y.timer.readings)))
  }

  function Popped(y: System): System
    requires FrontDue(y.timer)
  {
    var id := y.timer.deadlines[0].id;
    var (next, fired) := Pop(y.timer);
    y.(timer := next,
       commands := if fired == [] then y.commands else y.commands + [Expire(id)],
       due := y.due - {id},
       fired := y.fired + fired)
  }

  // A move that is not enabled changes nothing.
  function Act(y: System, m: Move, clock: Clock): System {
    match m
    case Post(command) => y.(commands := y.commands + [command])
    case BrokerTurn =>
      if y.commands == [] then y else y.(core := Step(y.core, y.commands[0]), commands := y.commands[1..])
    case TimerTake => if y.timer.firing.Some? || y.taken >= |y.core.timer| then y else Received(y, clock)
    case TimerTimeout => if y.timer.firing.Some? then y else y.(timer := Sample(y.timer, clock))
    case TimerPop => if FrontDue(y.timer) then Popped(y) else y
    case TimerRest => if FrontDue(y.timer) then y else y.(timer := y.timer.(firing := None))
  }

  function ActAll(y: System, moves: seq<Move>, clock: Clock): System
    decreases |moves|
  {
    if moves == [] then y else ActAll(Act(y, moves[0], clock), moves[1..], clock)
  }

  // ---- What the broker sends to the timer ----

  ghost predicate Ops(s: State) {
    && (forall op <- s.timer :: op.id.salt == s.salt && op.id.counter < s.nextId)
    && ArmsApart(s.timer)
    && (forall id <- s.pending :: Arm(id) in s.timer && id.salt == s.salt && id.counter < s.nextId)
    && CancelsSettled(s)
  }

  // No id is armed twice.
  ghost predicate ArmsApart(ops: seq<TimerOp>) {
    forall i, j | 0 <= i < j < |ops| :: ops[i].Arm? && ops[j].Arm? ==> ops[i].id != ops[j].id
  }

  // Cancellations follow their Arm and settle the id.
  ghost predicate CancelsSettled(s: State) {
    forall j | 0 <= j < |s.timer| ::
      s.timer[j].Cancel? ==> s.timer[j].id !in s.pending && Arm(s.timer[j].id) in s.timer[..j]
  }

  // The operations of t, one by one.
  lemma ArmsAt(s: State, t: State, j: nat)
    requires ArmsNew(s, t) && j < |t.timer|
    ensures j < |s.timer| ==> t.timer[j] == s.timer[j] && t.timer[..j] == s.timer[..j] && s.timer[j] in s.timer
    ensures j >= |s.timer| ==> t.timer[j] == Arm(MsgId(s.salt, s.nextId + (j - |s.timer|)))
    ensures j >= |s.timer| ==> s.nextId + (j - |s.timer|) < t.nextId
  {
  }

  lemma ApartArms(s: State, t: State)
    requires Ops(s) && ArmsNew(s, t)
    ensures ArmsApart(t.timer)
  {
    hide ArmsNew, CancelsSettled;
    forall i, j | 0 <= i < j < |t.timer| && t.timer[i].Arm? && t.timer[j].Arm? ensures t.timer[i].id != t.timer[j].id {
      ArmsAt(s, t, i);
      ArmsAt(s, t, j);
    }
  }

  lemma CancelsArms(s: State, t: State)
    requires Ops(s) && ArmsNew(s, t)
    ensures CancelsSettled(t)
  {
    hide ArmsApart;
    forall j | 0 <= j < |t.timer| && t.timer[j].Cancel?
      ensures t.timer[j].id !in t.pending && Arm(t.timer[j].id) in t.timer[..j]
    {
      ArmsAt(s, t, j);
    }
  }

  lemma PendingArmed(s: State, t: State, id: MsgId)
    requires Ops(s) && ArmsNew(s, t) && id in t.pending
    ensures Arm(id) in t.timer && id.salt == t.salt && id.counter < t.nextId
  {
    hide ArmsApart, CancelsSettled;
    var arms := Arms(s.salt, s.nextId, t.nextId);
    InConcat(s.timer, arms, Arm(id));
    if id !in s.pending {
      assert arms[id.counter - s.nextId] == Arm(id);
    }
  }

  lemma OpsArms(s: State, t: State)
    requires Ops(s) && ArmsNew(s, t)
    ensures Ops(t)
  {
    ApartArms(s, t);
    CancelsArms(s, t);
    assert s.nextId <= t.nextId && s.salt == t.salt;
    hide ArmsNew, ArmsApart, CancelsSettled;
    forall id <- t.pending ensures Arm(id) in t.timer && id.salt == t.salt && id.counter < t.nextId {
      PendingArmed(s, t, id);
    }
    forall op | op in t.timer ensures op.id.salt == t.salt && op.id.counter < t.nextId {
      var j :| 0 <= j < |t.timer| && t.timer[j] == op;
      ArmsAt(s, t, j);
    }
  }

  lemma ApartSnoc(ops: seq<TimerOp>, id: MsgId)
    requires ArmsApart(ops)
    ensures ArmsApart(ops + [Cancel(id)])
  {
  }

  lemma CancelsSnoc(s: State, t: State, id: MsgId)
    requires CancelsSettled(s) && Arm(id) in s.timer
    requires t.timer == s.timer + [Cancel(id)] && t.pending == s.pending - {id}
    ensures CancelsSettled(t)
  {
    var n := |s.timer|;
    assert t.timer[..n] == s.timer;
    forall j | 0 <= j < n ensures t.timer[j] == s.timer[j] && t.timer[..j] == s.timer[..j] {
    }
  }

  lemma OpsCancel(s: State, t: State, id: MsgId)
    requires Ops(s) && Acknowledges(s, t, id) && id in s.pending
    ensures Ops(t)
  {
    ApartSnoc(s.timer, id);
    CancelsSnoc(s, t, id);
    hide ArmsApart, CancelsSettled;
    forall op | op in t.timer ensures op.id.salt == t.salt && op.id.counter < t.nextId {
      InConcat(s.timer, [Cancel(id)], op);
    }
    forall p | p in t.pending ensures Arm(p) in t.timer && p.salt == t.salt && p.counter < t.nextId {
      InConcat(s.timer, [Cancel(id)], Arm(p));
    }
  }

  lemma OpsSame(s: State, t: State)
    requires Ops(s) && t.timer == s.timer && t.pending == s.pending && t.salt == s.salt && t.nextId == s.nextId
    ensures Ops(t)
  {
  }

  lemma OpsAck(s: State, t: State, id: MsgId)
    requires Ops(s) && Acknowledges(s, t, id)
    ensures Ops(t)
  {
    hide Ops;
    if id in s.pending {
      OpsCancel(s, t, id);
    } else {
      assert s.timer + [] == s.timer;
      OpsSame(s, t);
    }
  }

  lemma OpsStep(s: State, input: Input)
    requires Ops(s)
    ensures Ops(Step(s, input))
  {
    StepTimers(s, input);
    hide Ops, Step, KeepsPending;
    if input.Received? && input.envelope.Ack? {
      hide ArmsNew;
      OpsAck(s, Step(s, input), input.envelope.id);
    } else {
      OpsArms(s, Step(s, input));
    }
  }

  // ---- The system's invariants ----

  function Channel(y: System): seq<TimerOp>
    requires y.taken <= |y.core.timer|
  {
    y.core.timer[y.taken..]
  }

  // The timer thread does what the plain timer would, with ids it has been told to arm.
  ghost predicate Ticks(t: Timer, due: map<MsgId, nat>, told: seq<TimerOp>, clock: Clock) {
    Sorted(t.deadlines) && Stands(t, due) && Entries(t.deadlines, t.readings, told, clock)
  }

  ghost predicate Entries(deadlines: seq<Deadline>, readings: nat, told: seq<TimerOp>, clock: Clock) {
    forall d <- deadlines :: d.at <= clock(readings) + RESEND_TIMEOUT && Arm(d.id) in told
  }

  ghost predicate Ticking(y: System, clock: Clock) {
    y.taken <= |y.core.timer| && Ticks(y.timer, y.due, y.core.timer[..y.taken], clock)
  }

  // What has fired was armed, is armed no longer, and fires once.
  ghost predicate FiredOnce(y: System) {
    && y.taken <= |y.core.timer|
    && (forall id <- y.fired :: Arm(id) in y.core.timer[..y.taken] && id !in y.timer.armed)
    && Distinct(y.fired)
    && (forall c <- y.commands :: c.Expire? ==> c.id in y.fired)
    && (forall i, j | 0 <= i < j < |y.commands| :: y.commands[i].Expire? ==> y.commands[i] != y.commands[j])
  }

  // No pending message is orphaned.
  ghost predicate Watched(y: System) {
    y.taken <= |y.core.timer| &&
    forall id <- y.core.pending :: Arm(id) in Channel(y) || id in y.timer.armed || Expire(id) in y.commands
  }

  // No countdown runs for a settled message unless its cancellation is on the way.
  ghost predicate Tidy(y: System) {
    y.taken <= |y.core.timer| &&
    forall id | id !in y.core.pending ::
      Arm(id) in Channel(y) || id in y.timer.armed ==> Cancel(id) in Channel(y)
  }

  ghost predicate Joint(y: System, clock: Clock) {
    Ops(y.core) && Ticking(y, clock) && FiredOnce(y) && Watched(y) && Tidy(y)
  }

  lemma NotBefore(ops: seq<TimerOp>, n: nat, id: MsgId)
    requires n <= |ops| && ArmsApart(ops) && Arm(id) in ops[n..]
    ensures Arm(id) !in ops[..n]
  {
    var j :| 0 <= j < |ops[n..]| && ops[n..][j] == Arm(id);
    assert ops[n + j] == Arm(id);
    assert forall i | 0 <= i < n :: ops[i] != Arm(id);
  }

  // An id the timer has not been told of is in its queue nowhere.
  lemma NotQueued(t: Timer, due: map<MsgId, nat>, told: seq<TimerOp>, clock: Clock, id: MsgId)
    requires Ticks(t, due, told, clock) && Arm(id) !in told
    ensures First(t.deadlines, id) == None && id !in t.armed
  {
    FirstQueued(t.deadlines, id);
    hide First, Sorted;
    assert id in t.armed ==> First(t.deadlines, id).Some?;
  }

  // An id still to be armed has no other token.
  lemma NotYetArmed(y: System, clock: Clock, id: MsgId)
    requires Joint(y, clock) && Arm(id) in Channel(y)
    ensures Arm(id) !in y.core.timer[..y.taken]
    ensures id !in y.timer.armed && id !in y.fired && Expire(id) !in y.commands
    ensures First(y.timer.deadlines, id) == None
  {
    hide ArmsApart, CancelsSettled, Watched, Tidy, Ticks, First;
    NotBefore(y.core.timer, y.taken, id);
    NotQueued(y.timer, y.due, y.core.timer[..y.taken], clock, id);
  }

  function Token(b: bool): nat {
    if b then 1 else 0
  }

  // Every pending message has exactly one live token: an Arm on its way to the timer,
  // a countdown, or a timeout on its way to the broker.
  lemma ExactlyOneToken(y: System, clock: Clock, id: MsgId)
    requires Joint(y, clock) && id in y.core.pending
    ensures Token(Arm(id) in Channel(y)) + Token(id in y.timer.armed) + Token(Expire(id) in y.commands) == 1
  {
    if Arm(id) in Channel(y) {
      NotYetArmed(y, clock, id);
    }
  }

  // With both channels empty, the armed ids are the pending ones.
  lemma Quiescent(y: System, clock: Clock)
    requires Joint(y, clock) && y.commands == [] && y.taken == |y.core.timer|
    ensures y.timer.armed == y.core.pending.Keys
  {
    assert Channel(y) == [];
  }

  lemma BootJoint(mode: SendMode, delivery: Delivery, salt: Salt, clock: Clock)
    ensures Joint(Boot(mode, delivery, salt), clock)
  {
  }

  lemma PostJoint(y: System, command: Command, clock: Clock)
    requires Joint(y, clock)
    ensures Joint(y.(commands := y.commands + [command]), clock)
  {
    hide Ops, Distinct, First;
    var z := y.(commands := y.commands + [command]);
    assert Channel(z) == Channel(y);
    assert Ticking(z, clock);
    assert FiredOnce(z);
  }

  // ---- The broker's turn ----

  // The channel to the timer grows at its end.
  lemma ChannelGrows(y: System, z: System, more: seq<TimerOp>)
    requires y.taken <= |y.core.timer| && z.taken == y.taken && z.core.timer == y.core.timer + more
    ensures Channel(z) == Channel(y) + more && z.core.timer[..z.taken] == y.core.timer[..y.taken]
  {
  }

  lemma InConcat<T>(a: seq<T>, b: seq<T>, x: T)
    ensures x in a + b <==> x in a || x in b
  {
  }

  // The broker handled the head command and armed the ids it drew.
  ghost predicate Armed(y: System, z: System, clock: Clock) {
    && Joint(y, clock) && y.commands != []
    && z == y.(core := z.core, commands := y.commands[1..])
    && ArmsNew(y.core, z.core)
    && KeepsPending(y.core, z.core, if y.commands[0].Expire? then {y.commands[0].id} else {})
    && (y.commands[0].Expire? ==> ArmsExcept(y.core, z.core, y.commands[0].id))
  }

  function NewArms(y: System, z: System): seq<TimerOp> {
    if y.core.nextId <= z.core.nextId then Arms(y.core.salt, y.core.nextId, z.core.nextId) else []
  }

  lemma ArmedFacts(y: System, z: System, clock: Clock)
    requires Armed(y, z, clock)
    ensures Watched(y) && Tidy(y) && z.taken == y.taken <= |z.core.timer| && z.timer == y.timer
    ensures Channel(z) == Channel(y) + NewArms(y, z)
    ensures forall op <- NewArms(y, z) :: op.Arm? && op.id in z.core.pending
  {
    ChannelGrows(y, z, NewArms(y, z));
    forall k | 0 <= k < |NewArms(y, z)| ensures NewArms(y, z)[k].Arm? && NewArms(y, z)[k].id in z.core.pending {
      assert MsgId(y.core.salt, y.core.nextId + k) in z.core.pending;
    }
    hide Ops, Ticking, FiredOnce, Watched, Tidy;
  }

  // A pending id keeps its token, or has just been armed.
  lemma ArmedWatched(y: System, z: System, clock: Clock, id: MsgId)
    requires Armed(y, z, clock) && id in z.core.pending
    ensures z.taken <= |z.core.timer|
    ensures Arm(id) in Channel(z) || id in z.timer.armed || Expire(id) in z.commands
  {
    ArmedFacts(y, z, clock);
    hide Ops, Ticking, FiredOnce, Tidy, Channel, Joint;
    InConcat(Channel(y), NewArms(y, z), Arm(id));
    if id in y.core.pending {
      HeadGone(y.commands, Expire(id));
    } else {
      assert NewArms(y, z)[id.counter - y.core.nextId] == Arm(id);
    }
  }

  // An id that is no longer pending is the one whose timeout was handled.
  lemma ArmedSettles(y: System, z: System, clock: Clock, id: MsgId)
    requires Armed(y, z, clock) && id in y.core.pending && id !in z.core.pending
    ensures y.commands[0] == Expire(id)
  {
    hide Ticking, FiredOnce, Watched, Tidy, ArmsNew, ArmsExcept, ArmsApart, CancelsSettled;
  }

  lemma ArmedTidy(y: System, z: System, clock: Clock, id: MsgId)
    requires Armed(y, z, clock) && id !in z.core.pending
    ensures z.taken <= |z.core.timer|
    ensures Arm(id) in Channel(z) || id in z.timer.armed ==> Cancel(id) in Channel(z)
  {
    ArmedFacts(y, z, clock);
    InConcat(Channel(y), NewArms(y, z), Arm(id));
    InConcat(Channel(y), NewArms(y, z), Cancel(id));
    hide Ops, Ticking, FiredOnce, Watched, Channel, NewArms, Joint, ArmsNew, KeepsPending, ArmsExcept;
    if id in y.core.pending {
      ArmedSettles(y, z, clock, id);
      assert Expire(id) in y.commands;
      NotInFlight(y, clock, id);
    }
  }

  lemma TokensArms(y: System, z: System, clock: Clock)
    requires Armed(y, z, clock)
    ensures Watched(z) && Tidy(z)
  {
    ArmedFacts(y, z, clock);
    hide Armed, Channel;
    forall id <- z.core.pending ensures Arm(id) in Channel(z) || id in z.timer.armed || Expire(id) in z.commands {
      ArmedWatched(y, z, clock, id);
    }
    forall id | id !in z.core.pending && (Arm(id) in Channel(z) || id in z.timer.armed)
      ensures Cancel(id) in Channel(z)
    {
      ArmedTidy(y, z, clock, id);
    }
  }

  lemma HeadGone(commands: seq<Input>, c: Input)
    requires commands != []
    ensures c in commands ==> c == commands[0] || c in commands[1..]
  {
  }

  // A timeout on its way to the broker leaves no countdown behind.
  lemma NotInFlight(y: System, clock: Clock, id: MsgId)
    requires Joint(y, clock) && Expire(id) in y.commands
    ensures Arm(id) !in Channel(y) && id !in y.timer.armed
  {
    if Arm(id) in Channel(y) {
      NotYetArmed(y, clock, id);
    }
  }

  lemma TokensAck(y: System, z: System, clock: Clock, id: MsgId)
    requires Joint(y, clock) && y.commands != [] && !y.commands[0].Expire?
    requires z == y.(core := z.core, commands := y.commands[1..])
    requires Acknowledges(y.core, z.core, id)
    ensures Watched(z) && Tidy(z)
  {
    var more := if id in y.core.pending then [Cancel(id)] else [];
    ChannelGrows(y, z, more);
    forall p <- z.core.pending ensures Arm(p) in Channel(z) || p in z.timer.armed || Expire(p) in z.commands {
      InConcat(Channel(y), more, Arm(p));
      HeadGone(y.commands, Expire(p));
    }
    forall p | p !in z.core.pending && (Arm(p) in Channel(z) || p in z.timer.armed) ensures Cancel(p) in Channel(z) {
      InConcat(Channel(y), more, Arm(p));
      InConcat(Channel(y), more, Cancel(p));
    }
  }

  lemma FiredBroker(y: System, z: System, more: seq<TimerOp>, clock: Clock)
    requires Ticking(y, clock) && FiredOnce(y) && y.commands != []
    requires z == y.(core := z.core, commands := y.commands[1..]) && z.core.timer == y.core.timer + more
    ensures Ticking(z, clock) && FiredOnce(z)
  {
    ChannelGrows(y, z, more);
    hide Sorted, Stands, Distinct;
    forall c <- z.commands ensures c in y.commands {
    }
  }

  lemma BrokerJoint(y: System, clock: Clock)
    requires Joint(y, clock) && y.commands != []
    ensures Joint(y.(core := Step(y.core, y.commands[0]), commands := y.commands[1..]), clock)
  {
    var input := y.commands[0];
    var z := y.(core := Step(y.core, input), commands := y.commands[1..]);
    OpsStep(y.core, input);
    StepTimers(y.core, input);
    hide Ops, Ticking, FiredOnce, Watched, Tidy, KeepsPending, Step;
    if input.Received? && input.envelope.Ack? {
      var id := input.envelope.id;
      TokensAck(y, z, clock, id);
      FiredBroker(y, z, if id in y.core.pending then [Cancel(id)] else [], clock);
    } else {
      TokensArms(y, z, clock);
      FiredBroker(y, z, Arms(y.core.salt, y.core.nextId, z.core.nextId), clock);
    }
  }

  // ---- The timer's turns ----

  lemma ChannelHead(y: System)
    requires y.taken < |y.core.timer|
    ensures Channel(y) == [y.core.timer[y.taken]] + y.core.timer[y.taken + 1..]
    ensures y.core.timer[..y.taken + 1] == y.core.timer[..y.taken] + [y.core.timer[y.taken]]
  {
  }

  lemma EntriesArm(deadlines: seq<Deadline>, r: nat, told: seq<TimerOp>, id: MsgId, clock: Clock)
    requires Entries(deadlines, r, told, clock) && Monotone(clock)
    ensures Entries(deadlines + [Deadline(clock(r) + RESEND_TIMEOUT, id)], r + 2, told + [Arm(id)], clock)
  {
    assert clock(r) <= clock(r + 2);
    forall d <- deadlines ensures Arm(d.id) in told + [Arm(id)] {
      InConcat(told, [Arm(id)], Arm(d.id));
    }
  }

  lemma EntriesLater(deadlines: seq<Deadline>, r: nat, told: seq<TimerOp>, op: TimerOp, clock: Clock)
    requires Entries(deadlines, r, told, clock) && Monotone(clock)
    ensures Entries(deadlines, r + 1, told + [op], clock) && Entries(deadlines, r + 1, told, clock)
  {
    assert clock(r) <= clock(r + 1);
  }

  lemma TicksArm(t: Timer, due: map<MsgId, nat>, told: seq<TimerOp>, id: MsgId, clock: Clock)
    requires Ticks(t, due, told, clock) && Monotone(clock) && First(t.deadlines, id) == None
    ensures Ticks(Sample(Take(t, Some(Arm(id)), clock), clock), due[id := clock(t.readings) + RESEND_TIMEOUT],
                  told + [Arm(id)], clock)
  {
    var at := clock(t.readings) + RESEND_TIMEOUT;
    ArmStands(t, due, id, clock);
    StandsSampled(Take(t, Some(Arm(id)), clock), due[id := at], clock);
    SortedArm(t.deadlines, id, at) by { hide First, Stands; }
    EntriesArm(t.deadlines, t.readings, told, id, clock);
    hide First, Stands, Sorted, Entries, Monotone;
  }

  lemma TicksCancel(t: Timer, due: map<MsgId, nat>, told: seq<TimerOp>, id: MsgId, clock: Clock)
    requires Ticks(t, due, told, clock) && Monotone(clock)
    ensures Ticks(Sample(Take(t, Some(Cancel(id)), clock), clock), due - {id}, told + [Cancel(id)], clock)
  {
    CancelStands(t, due, id, clock);
    StandsSampled(Take(t, Some(Cancel(id)), clock), due - {id}, clock);
    EntriesLater(t.deadlines, t.readings, told, Cancel(id), clock);
    hide First, Stands, Sorted, Entries, Monotone;
  }

  lemma StandsSampled(t: Timer, due: map<MsgId, nat>, clock: Clock)
    requires Stands(t, due)
    ensures Stands(Sample(t, clock), due)
  {
  }

  lemma SortedArm(deadlines: seq<Deadline>, id: MsgId, at: nat)
    requires Sorted(deadlines) && forall d <- deadlines :: d.at <= at
    ensures Sorted(deadlines + [Deadline(at, id)])
  {
    assert forall i | 0 <= i < |deadlines| :: deadlines[i] in deadlines;
  }

  lemma TakeTicking(y: System, clock: Clock)
    requires Joint(y, clock) && Monotone(clock) && y.taken < |y.core.timer|
    ensures Ticking(Received(y, clock), clock)
  {
    hide Ops, FiredOnce, Watched, Tidy, Ticks, Monotone, First, Take, Sample;
    var op := y.core.timer[y.taken];
    var told := y.core.timer[..y.taken];
    ChannelHead(y);
    assert Channel(y)[0] == op;
    if op.Arm? {
      NotYetArmed(y, clock, op.id);
      TicksArm(y.timer, y.due, told, op.id, clock);
    } else {
      TicksCancel(y.timer, y.due, told, op.id, clock);
    }
  }

  lemma TakeFired(y: System, clock: Clock)
    requires FiredOnce(y) && y.taken < |y.core.timer|
    requires y.core.timer[y.taken].Arm? ==> y.core.timer[y.taken].id !in y.fired
    ensures FiredOnce(Received(y, clock))
  {
    hide Distinct;
    ChannelHead(y);
    var op := y.core.timer[y.taken];
    forall id <- y.fired ensures Arm(id) in y.core.timer[..y.taken + 1] {
      InConcat(y.core.timer[..y.taken], [op], Arm(id));
    }
  }

  lemma TakeWatched(y: System, clock: Clock)
    requires Watched(y) && y.taken < |y.core.timer|
    requires y.core.timer[y.taken].Cancel? ==> y.core.timer[y.taken].id !in y.core.pending
    ensures Watched(Received(y, clock))
  {
    ChannelHead(y);
  }

  lemma TakeTidy(y: System, clock: Clock)
    requires Tidy(y) && y.taken < |y.core.timer|
    requires y.core.timer[y.taken].Cancel? ==> Arm(y.core.timer[y.taken].id) !in Channel(y)
    ensures Tidy(Received(y, clock))
  {
    ChannelHead(y);
  }

  lemma TakeTokens(y: System, clock: Clock)
    requires Joint(y, clock) && y.taken < |y.core.timer|
    ensures var z := Received(y, clock); FiredOnce(z) && Watched(z) && Tidy(z)
  {
    hide Ops, FiredOnce, Watched, Tidy, Ticking, Received;
    var op := y.core.timer[y.taken];
    ChannelHead(y);
    assert op == Channel(y)[0];
    if op.Arm? {
      NotYetArmed(y, clock, op.id);
    } else {
      CancelledOnce(y, clock, op.id);
    }
    TakeFired(y, clock);
    TakeWatched(y, clock);
    TakeTidy(y, clock);
  }

  // When a cancellation reaches the timer, its Arm is behind it.
  lemma CancelledOnce(y: System, clock: Clock, id: MsgId)
    requires Joint(y, clock) && y.taken < |y.core.timer| && y.core.timer[y.taken] == Cancel(id)
    ensures id !in y.core.pending && Arm(id) !in Channel(y)
  {
    if Arm(id) in Channel(y) {
      NotYetArmed(y, clock, id);
    }
  }

  lemma TakeJoint(y: System, clock: Clock)
    requires Joint(y, clock) && Monotone(clock) && y.taken < |y.core.timer|
    ensures Joint(Received(y, clock), clock)
  {
    TakeTokens(y, clock);
    TakeTicking(y, clock);
    hide Ops, Ticking, FiredOnce, Watched, Tidy;
  }

  lemma PopTicking(y: System, clock: Clock)
    requires Ticking(y, clock) && FrontDue(y.timer)
    ensures Ticking(Popped(y), clock)
  {
    PopStands(y.timer, y.due);
    hide Stands;
    forall d <- y.timer.deadlines[1..] ensures d in y.timer.deadlines {
    }
  }

  lemma PopFired(y: System)
    requires FiredOnce(y) && FrontDue(y.timer) && Arm(y.timer.deadlines[0].id) in y.core.timer[..y.taken]
    ensures FiredOnce(Popped(y))
  {
    var id := y.timer.deadlines[0].id;
    if id in y.timer.armed {
      assert id !in y.fired;
    }
  }

  lemma PopWatched(y: System)
    requires Watched(y) && FrontDue(y.timer)
    ensures Watched(Popped(y))
  {
    var z := Popped(y);
    var id := y.timer.deadlines[0].id;
    assert Channel(z) == Channel(y);
    forall p | p in y.core.pending ensures Arm(p) in Channel(z) || p in z.timer.armed || Expire(p) in z.commands {
      InConcat(y.commands, [Expire(id)], Expire(p));
    }
  }

  lemma PopTidy(y: System)
    requires Tidy(y) && FrontDue(y.timer)
    ensures Tidy(Popped(y))
  {
    assert Channel(Popped(y)) == Channel(y);
  }

  lemma PopJoint(y: System, clock: Clock)
    requires Joint(y, clock) && FrontDue(y.timer)
    ensures Joint(Popped(y), clock)
  {
    assert Arm(y.timer.deadlines[0].id) in y.core.timer[..y.taken] by {
      hide First, Stands;
      assert y.timer.deadlines[0] in y.timer.deadlines;
    }
    hide Ops, Ticking, FiredOnce, Watched, Tidy;
    PopTicking(y, clock);
    PopFired(y);
    PopWatched(y);
    PopTidy(y);
  }

  lemma ActJoint(y: System, m: Move, clock: Clock)
    requires Joint(y, clock) && Monotone(clock)
    ensures Joint(Act(y, m, clock), clock)
  {
    match m
    case Post(command) => PostJoint(y, command, clock);
      hide Joint;
    case BrokerTurn => if y.commands != [] { BrokerJoint(y, clock); }
      hide Joint, Step;
    case TimerTake => if y.taken < |y.core.timer| { TakeJoint(y, clock); }
      hide Joint, Received;
    case TimerTimeout => SampleJoint(y, clock);
      hide Joint;
    case TimerPop =>
      if FrontDue(y.timer) {
        PopJoint(y, clock);
      }
      hide Joint, Popped;
    case TimerRest => SampleJoint(y, clock);
      hide Joint;
  }

  lemma SampleJoint(y: System, clock: Clock)
    requires Joint(y, clock) && Monotone(clock)
    ensures Joint(y.(timer := Sample(y.timer, clock)), clock)
    ensures Joint(y.(timer := y.timer.(firing := None)), clock)
  {
    hide Ops, Sorted, Distinct, First;
    assert clock(y.timer.readings) <= clock(y.timer.readings + 1);
  }

  lemma {:induction false} ActAllKeeps(y: System, moves: seq<Move>, clock: Clock)
    requires Joint(y, clock) && Inv(y.core) && Sound(y.core) && Monotone(clock)
    ensures var z := ActAll(y, moves, clock); Joint(z, clock) && Inv(z.core) && Sound(z.core)
    decreases |moves|
  {
    hide Joint, Inv, Sound, Step, Popped, Received;
    if moves != [] {
      ActJoint(y, moves[0], clock);
      if moves[0].BrokerTurn? && y.commands != [] {
        StepInv(y.core, y.commands[0]);
        SoundStep(y.core, y.commands[0]);
      }
      CoreOnlyBroker(y, moves[0], clock);
      ActAllKeeps(Act(y, moves[0], clock), moves[1..], clock);
    }
  }

  lemma CoreOnlyBroker(y: System, m: Move, clock: Clock)
    ensures m.BrokerTurn? || Act(y, m, clock).core == y.core
  {
    hide Step;
  }

  // Every reachable state of broker, timer and both channels: no pending message is
  // unwatched, nothing fires twice or unarmed, and the broker's own laws hold.
  lemma AlwaysJoint(mode: SendMode, delivery: Delivery, salt: Salt, moves: seq<Move>, clock: Clock)
    requires Monotone(clock)
    ensures var y := ActAll(Boot(mode, delivery, salt), moves, clock);
      Joint(y, clock) && Inv(y.core) && Sound(y.core)
  {
    BootJoint(mode, delivery, salt, clock);
    InitInv(mode, delivery, salt);
    ActAllKeeps(Boot(mode, delivery, salt), moves, clock);
    hide ActAll, Joint, Inv;
  }

  lemma NoOrphan(mode: SendMode, delivery: Delivery, salt: Salt, moves: seq<Move>, clock: Clock, id: MsgId)
    requires Monotone(clock)
    ensures var y := ActAll(Boot(mode, delivery, salt), moves, clock);
      id in y.core.pending ==>
        y.taken <= |y.core.timer| &&
        Token(Arm(id) in Channel(y)) + Token(id in y.timer.armed) + Token(Expire(id) in y.commands) == 1
  {
    AlwaysJoint(mode, delivery, salt, moves, clock);
    var y := ActAll(Boot(mode, delivery, salt), moves, clock);
    hide ActAll, Inv, Sound, Ops, FiredOnce, Stands;
    if id in y.core.pending {
      ExactlyOneToken(y, clock, id);
    }
  }

  // A settled id never becomes pending again, so a timeout that lost the race against
  // the acknowledgement can never strike another message.
  lemma {:induction false} SettledForGood(s: State, inputs: seq<Input>, id: MsgId)
    requires id.salt == s.salt && id.counter < s.nextId && id !in s.pending
    ensures id !in Run(s, inputs).pending
    decreases |inputs|
  {
    if inputs != [] {
      StepTimers(s, inputs[0]);
      hide Step;
      SettledForGood(Step(s, inputs[0]), inputs[1..], id);
    }
  }

  lemma FiredCounted(y: System, clock: Clock, id: MsgId)
    requires Joint(y, clock) && Expire(id) in y.commands
    ensures id.salt == y.core.salt && id.counter < y.core.nextId
  {
    assert id in y.fired;
    assert Arm(id) in y.core.timer;
  }

  lemma LateAt(y: System, clock: Clock, id: MsgId, others: seq<Input>)
    requires Joint(y, clock) && y.commands != [] && y.commands[0] == Expire(id) && id !in y.core.pending
    ensures Act(y, BrokerTurn, clock).core == y.core && id !in Run(y.core, others).pending
  {
    hide Joint, Run;
    assert y.commands[0] in y.commands;
    FiredCounted(y, clock, id);
    SettledForGood(y.core, others, id);
  }

  // ... it changes nothing, whatever the broker is told afterwards.
  lemma LateTimeout(
    mode: SendMode, delivery: Delivery, salt: Salt, moves: seq<Move>, clock: Clock, id: MsgId, others: seq<Input>)
    requires Monotone(clock)
    ensures var y := ActAll(Boot(mode, delivery, salt), moves, clock);
      y.commands != [] && y.commands[0] == Expire(id) && id !in y.core.pending ==>
        Act(y, BrokerTurn, clock).core == y.core && id !in Run(y.core, others).pending
  {
    hide *;
    AlwaysJoint(mode, delivery, salt, moves, clock);
    var y := ActAll(Boot(mode, delivery, salt), moves, clock);
    if y.commands != [] && y.commands[0] == Expire(id) && id !in y.core.pending {
      LateAt(y, clock, id, others);
    }
  }
}
