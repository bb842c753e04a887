// The asynchronous crate's broker: the deadlines are a queue inside the broker, in
// arming order, with stale entries skipped when they reach the front.
module AsyncSpec {
  import opened Protocol
  import opened Broker
  import opened BrokerLaws
  import opened BrokerRouting
  import opened BrokerTimers
  import opened Deadlines

  datatype Async = Async(core: State, deadlines: seq<Deadline>, readings: nat)

  // Each arm operation reads the clock and appends; a cancel leaves its entry stale.
  function Settle(deadlines: seq<Deadline>, readings: nat, ops: seq<TimerOp>, clock: Clock): (seq<Deadline>, nat)
    decreases |ops|
  {
    if ops == [] then (deadlines, readings)
    else if ops[0].Cancel? then Settle(deadlines, readings, ops[1..], clock)
    else Settle(deadlines + [Deadline(clock(readings) + RESEND_TIMEOUT, ops[0].id)], readings + 1, ops[1..], clock)
  }

  // The broker after its core moved to t.
  function Lift(a: Async, t: State, clock: Clock): Async
  {
    var ops := if |a.core.timer| <= |t.timer| then t.timer[|a.core.timer|..] else [];
    var settled := Settle(a.deadlines, a.readings, ops, clock);
    Async(t, settled.0, settled.1)
  }

  function Apply(a: Async, input: Input, clock: Clock): Async {
    Lift(a, Step(a.core, input), clock)
  }

  // Fresh entries lie beyond `now`, so they are not due: the loop that drains the
  // queue it appends to comes to an end.
  lemma {:induction false} SettleNotDue(
    deadlines: seq<Deadline>, readings: nat, ops: seq<TimerOp>, clock: Clock, now: nat)
    requires NotBehind(clock, readings, now)
    ensures var r := Settle(deadlines, readings, ops, clock);
      Due(r.0, now) == Due(deadlines, now) && r.1 >= readings
    decreases |ops|
  {
    if ops != [] {
      if ops[0].Cancel? {
        SettleNotDue(deadlines, readings, ops[1..], clock, now);
      } else {
        var d := Deadline(clock(readings) + RESEND_TIMEOUT, ops[0].id);
        DueSnoc(deadlines, d, now);
        SettleNotDue(deadlines + [d], readings + 1, ops[1..], clock, now);
      }
    }
  }

  // Handles every deadline at or before `now`, front first.
  function FireDue(a: Async, now: nat, clock: Clock): Async
    requires NotBehind(clock, a.readings, now)
    decreases Due(a.deadlines, now)
  {
    if a.deadlines == [] || a.deadlines[0].at > now then a else
    var popped := a.(deadlines := a.deadlines[1..]);
    var next := Apply(popped, Expire(a.deadlines[0].id), clock);
    DueCons(a.deadlines, now);
    ApplyDue(popped, Expire(a.deadlines[0].id), now, clock);
    FireDue(next, now, clock)
  }

  // A wake-up samples the clock once and fires.
  function Wake(a: Async, clock: Clock): Async
    requires Monotone(clock)
  {
    FireDue(a.(readings := a.readings + 1), clock(a.readings), clock)
  }

  // ---- The deadline queue ----

  ghost predicate Queued(deadlines: seq<Deadline>, id: MsgId) {
    exists i :: 0 <= i < |deadlines| && deadlines[i].id == id
  }

  // The queue is in deadline order and holds no id twice and every pending id; its last
  // entry is no later than one armed at the next clock reading would be.
  ghost predicate Timed(a: Async, clock: Clock) {
    && Sorted(a.deadlines) && DistinctIds(a.deadlines)
    && (forall i | 0 <= i < |a.deadlines| ::
          && a.deadlines[i].at <= clock(a.readings) + RESEND_TIMEOUT
          && a.deadlines[i].id.salt == a.core.salt && a.deadlines[i].id.counter < a.core.nextId)
    && (forall id <- a.core.pending :: Queued(a.deadlines, id))
  }

  // Arming fresh ids keeps the queue sorted and free of repetition.
  ghost predicate QueueOk(deadlines: seq<Deadline>, readings: nat, salt: Salt, next: nat, clock: Clock) {
    && Sorted(deadlines) && DistinctIds(deadlines)
    && (forall i | 0 <= i < |deadlines| ::
          && deadlines[i].at <= clock(readings) + RESEND_TIMEOUT
          && deadlines[i].id.salt == salt && deadlines[i].id.counter < next)
  }

  lemma QueueArm(deadlines: seq<Deadline>, readings: nat, salt: Salt, next: nat, clock: Clock)
    requires Monotone(clock) && QueueOk(deadlines, readings, salt, next, clock)
    ensures QueueOk(deadlines + [Deadline(clock(readings) + RESEND_TIMEOUT, MsgId(salt, next))],
      readings + 1, salt, next + 1, clock)
  {
    assert clock(readings) <= clock(readings + 1);
  }

  // The queue after arming the ids numbered from `lo` up to `hi`: the old entries,
  // then one for each id, RESEND_TIMEOUT after the clock reading taken for it.
  ghost predicate Extended(
    deadlines: seq<Deadline>, readings: nat, ds: seq<Deadline>, rs: nat, salt: Salt, lo: nat, hi: nat, clock: Clock)
  {
    && lo <= hi && rs == readings + (hi - lo)
    && |ds| == |deadlines| + (hi - lo) && ds[..|deadlines|] == deadlines
    && (forall j | |deadlines| <= j < |ds| ::
          ds[j] == Deadline(clock(readings + (j - |deadlines|)) + RESEND_TIMEOUT, MsgId(salt, lo + (j - |deadlines|))))
  }

  lemma ExtendedCons(
    deadlines: seq<Deadline>, readings: nat, ds: seq<Deadline>, rs: nat, salt: Salt, lo: nat, hi: nat, clock: Clock)
    requires var d := Deadline(clock(readings) + RESEND_TIMEOUT, MsgId(salt, lo));
      Extended(deadlines + [d], readings + 1, ds, rs, salt, lo + 1, hi, clock)
    ensures Extended(deadlines, readings, ds, rs, salt, lo, hi, clock)
  {
    var d := Deadline(clock(readings) + RESEND_TIMEOUT, MsgId(salt, lo));
    assert ds[..|deadlines|] == ds[..|deadlines| + 1][..|deadlines|];
    assert ds[|deadlines|] == ds[..|deadlines| + 1][|deadlines|] == d;
  }

  lemma {:induction false} SettleArms(
    deadlines: seq<Deadline>, readings: nat, salt: Salt, lo: nat, hi: nat, clock: Clock)
    requires Monotone(clock) && lo <= hi && QueueOk(deadlines, readings, salt, lo, clock)
    ensures var r := Settle(deadlines, readings, Arms(salt, lo, hi), clock);
      QueueOk(r.0, r.1, salt, hi, clock) && Extended(deadlines, readings, r.0, r.1, salt, lo, hi, clock)
    decreases hi - lo
  {
    hide QueueOk;
    if lo < hi {
      var d := Deadline(clock(readings) + RESEND_TIMEOUT, MsgId(salt, lo));
      var ops := Arms(salt, lo, hi);
      assert ops[1..] == Arms(salt, lo + 1, hi);
      QueueArm(deadlines, readings, salt, lo, clock);
      SettleArms(deadlines + [d], readings + 1, salt, lo + 1, hi, clock);
      var r := Settle(deadlines, readings, ops, clock);
      ExtendedCons(deadlines, readings, r.0, r.1, salt, lo, hi, clock);
    }
  }

  // The queue after a command: one new entry for each id it drew, nothing else.
  ghost predicate QueueGrew(a: Async, b: Async, clock: Clock) {
    Extended(a.deadlines, a.readings, b.deadlines, b.readings, a.core.salt, a.core.nextId, b.core.nextId, clock)
  }

  lemma TimedArms(a: Async, t: State, clock: Clock, settled: set<MsgId>)
    requires Monotone(clock) && ArmsNew(a.core, t)
    requires QueueOk(a.deadlines, a.readings, a.core.salt, a.core.nextId, clock)
    requires forall id <- a.core.pending :: id in settled || Queued(a.deadlines, id)
    requires forall id <- settled :: id !in t.pending
    ensures Timed(Lift(a, t, clock), clock) && QueueGrew(a, Lift(a, t, clock), clock)
  {
    var arms := Arms(a.core.salt, a.core.nextId, t.nextId);
    assert t.timer[|a.core.timer|..] == arms;
    SettleArms(a.deadlines, a.readings, a.core.salt, a.core.nextId, t.nextId, clock);
    var b := Lift(a, t, clock);
    forall id <- t.pending ensures Queued(b.deadlines, id) {
      if id in a.core.pending {
        assert id !in settled;
        var i :| 0 <= i < |a.deadlines| && a.deadlines[i].id == id;
        assert b.deadlines[i] == b.deadlines[..|a.deadlines|][i];
      } else {
        assert b.deadlines[|a.deadlines| + (id.counter - a.core.nextId)].id == id;
      }
    }
  }

  lemma TimedAck(a: Async, t: State, id: MsgId, clock: Clock)
    requires Timed(a, clock) && Acknowledges(a.core, t, id)
    ensures Timed(Lift(a, t, clock), clock) && QueueGrew(a, Lift(a, t, clock), clock)
  {
    var ops := t.timer[|a.core.timer|..];
    assert ops == if id in a.core.pending then [Cancel(id)] else [];
    assert Settle(a.deadlines, a.readings, ops, clock) == (a.deadlines, a.readings) by {
      if ops != [] {
        assert ops[1..] == [];
      }
    }
  }

  // Any command but a wake-up.
  lemma TimedApply(a: Async, input: Input, clock: Clock)
    requires Monotone(clock) && Timed(a, clock) && !input.Expire?
    ensures Timed(Apply(a, input, clock), clock) && QueueGrew(a, Apply(a, input, clock), clock)
  {
    StepTimers(a.core, input);
    hide Step;
    if input.Received? && input.envelope.Ack? {
      TimedAck(a, Step(a.core, input), input.envelope.id, clock);
    } else {
      TimedArms(a, Step(a.core, input), clock, {});
    }
  }

  // The queue and the pending table while the front entry is being handled.
  lemma TimedFire(a: Async, clock: Clock)
    requires Monotone(clock) && Timed(a, clock) && a.deadlines != []
    ensures var popped := a.(deadlines := a.deadlines[1..]);
      var next := Apply(popped, Expire(a.deadlines[0].id), clock);
      && Timed(next, clock) && QueueGrew(popped, next, clock)
      && a.deadlines[0].id !in next.core.pending
      && KeepsPending(a.core, next.core, {a.deadlines[0].id})
      && a.core.nextId <= next.core.nextId
      && (forall id <- next.core.pending ::
        id in a.core.pending || (id.salt == a.core.salt && id.counter >= a.core.nextId))
  {
    var id := a.deadlines[0].id;
    var popped := a.(deadlines := a.deadlines[1..]);
    StepTimers(a.core, Expire(id));
    hide Step, KeepsPending;
    forall p <- a.core.pending ensures p in {id} || Queued(popped.deadlines, p) {
      if p != id {
        var i :| 0 <= i < |a.deadlines| && a.deadlines[i].id == p;
        assert popped.deadlines[i - 1].id == p;
      }
    }
    TimedArms(popped, Step(a.core, Expire(id)), clock, {id});
  }

  // The entries from `from` on that were there before, and their pending messages.
  ghost predicate Untouched(a: Async, b: Async, now: nat) {
    && (forall i | 0 <= i < |a.deadlines| && a.deadlines[i].at > now ::
          && Queued(b.deadlines, a.deadlines[i].id)
          && (a.deadlines[i].id in a.core.pending ==>
                a.deadlines[i].id in b.core.pending
                && b.core.pending[a.deadlines[i].id] == a.core.pending[a.deadlines[i].id]))
    && (forall i | 0 <= i < |a.deadlines| && a.deadlines[i].at <= now :: a.deadlines[i].id !in b.core.pending)
    && (forall id <- b.core.pending :: id in a.core.pending || (id.salt == a.core.salt && id.counter >= a.core.nextId))
  }

  ghost predicate Ready(a: Async, now: nat, clock: Clock) {
    Monotone(clock) && Timed(a, clock) && NotBehind(clock, a.readings, now)
  }

  // A wake-up handles exactly the deadlines that are due: afterwards every deadline
  // lies beyond the sampled time, every due id is settled, and no later deadline and no
  // message behind one has been touched.
  lemma {:induction false} FireDueExact(a: Async, now: nat, clock: Clock)
    requires Ready(a, now, clock)
    ensures var b := FireDue(a, now, clock);
      && Timed(b, clock) && b.readings >= a.readings
      && a.core.nextId <= b.core.nextId && b.core.salt == a.core.salt
      && (forall i | 0 <= i < |b.deadlines| :: b.deadlines[i].at > now)
      && Untouched(a, b, now)
    decreases Due(a.deadlines, now)
  {
    if a.deadlines == [] || a.deadlines[0].at > now {
      UntouchedSame(a, now);
    } else {
      var popped := a.(deadlines := a.deadlines[1..]);
      var next := Apply(popped, Expire(a.deadlines[0].id), clock);
      TimedFire(a, clock);
      ApplyDue(popped, Expire(a.deadlines[0].id), now, clock);
      DueCons(a.deadlines, now);
      hide Step, KeepsPending, Apply, Timed, QueueGrew, Untouched, Due;
      FireDueExact(next, now, clock);
      UntouchedStep(a, next, FireDue(next, now, clock), now, clock);
    }
  }

  lemma ApplyDue(a: Async, input: Input, now: nat, clock: Clock)
    requires NotBehind(clock, a.readings, now)
    ensures var b := Apply(a, input, clock);
      Due(b.deadlines, now) == Due(a.deadlines, now) && b.readings >= a.readings && NotBehind(clock, b.readings, now)
      && b.core.salt == a.core.salt
  {
    StepConfig(a.core, input);
    hide Step;
    var t := Step(a.core, input);
    SettleNotDue(a.deadlines, a.readings, if |a.core.timer| <= |t.timer| then t.timer[|a.core.timer|..] else [],
      clock, now);
  }

  lemma UntouchedSame(a: Async, now: nat)
    requires a.deadlines == [] || a.deadlines[0].at > now
    requires Sorted(a.deadlines)
    ensures Untouched(a, a, now)
  {
    forall i | 0 <= i < |a.deadlines| ensures a.deadlines[i].at > now && Queued(a.deadlines, a.deadlines[i].id) {
    }
  }

  lemma UntouchedStep(a: Async, next: Async, b: Async, now: nat, clock: Clock)
    requires Timed(a, clock) && a.deadlines != [] && a.deadlines[0].at <= now
    requires QueueGrew(a.(deadlines := a.deadlines[1..]), next, clock)
    requires a.deadlines[0].id !in next.core.pending && next.core.salt == a.core.salt
    requires KeepsPending(a.core, next.core, {a.deadlines[0].id})
    requires forall id <- next.core.pending ::
      id in a.core.pending || (id.salt == a.core.salt && id.counter >= a.core.nextId)
    requires Untouched(next, b, now)
    ensures Untouched(a, b, now)
  {
    forall i | 1 <= i < |a.deadlines|
      ensures next.deadlines[i - 1] == a.deadlines[i] && a.deadlines[i].id != a.deadlines[0].id
    {
      assert next.deadlines[..|a.deadlines| - 1][i - 1] == a.deadlines[1..][i - 1];
    }
    forall i | 0 <= i < |a.deadlines| && a.deadlines[i].at <= now ensures a.deadlines[i].id !in b.core.pending {
      var id := a.deadlines[i].id;
      if i == 0 {
        assert id.counter < a.core.nextId <= next.core.nextId;
      } else {
        assert next.deadlines[i - 1] == a.deadlines[i];
      }
    }
    forall i | 0 <= i < |a.deadlines| && a.deadlines[i].at > now
      ensures Queued(b.deadlines, a.deadlines[i].id)
      ensures a.deadlines[i].id in a.core.pending ==>
        a.deadlines[i].id in b.core.pending && b.core.pending[a.deadlines[i].id] == a.core.pending[a.deadlines[i].id]
    {
      assert next.deadlines[i - 1] == a.deadlines[i];
    }
  }

  // ---- Whole runs ----

  // A command from the channel, or the sleep until the front deadline ran out.
  datatype Event = Handle(command: Command) | WakeUp

  function React(a: Async, e: Event, clock: Clock): Async
    requires Monotone(clock)
  {
    match e
    case Handle(command) => Apply(a, command, clock)
    case WakeUp => Wake(a, clock)
  }

  function Serve(a: Async, events: seq<Event>, clock: Clock): Async
    requires Monotone(clock)
    decreases |events|
  {
    if events == [] then a else Serve(React(a, events[0], clock), events[1..], clock)
  }

  function Start(mode: SendMode, delivery: Delivery, salt: Salt): Async {
    Async(Init(mode, delivery, salt), [], 0)
  }

  ghost predicate Lawful(a: Async, clock: Clock) {
    Inv(a.core) && Sound(a.core) && Timed(a, clock)
  }

  lemma FireOnceLawful(a: Async, now: nat, clock: Clock)
    requires Ready(a, now, clock) && Inv(a.core) && Sound(a.core)
    requires a.deadlines != [] && a.deadlines[0].at <= now
    ensures var next := Apply(a.(deadlines := a.deadlines[1..]), Expire(a.deadlines[0].id), clock);
      && Ready(next, now, clock) && Inv(next.core) && Sound(next.core)
      && Due(next.deadlines, now) < Due(a.deadlines, now)
  {
    var popped := a.(deadlines := a.deadlines[1..]);
    TimedFire(a, clock);
    ApplyDue(popped, Expire(a.deadlines[0].id), now, clock);
    DueCons(a.deadlines, now);
    StepInv(a.core, Expire(a.deadlines[0].id));
    SoundStep(a.core, Expire(a.deadlines[0].id));
    hide Step, KeepsPending, Timed, QueueGrew, Due, Inv, Sound, Monotone, NotBehind, Settle;
  }

  lemma {:induction false} FireDueLawful(a: Async, now: nat, clock: Clock)
    requires Ready(a, now, clock) && Inv(a.core) && Sound(a.core)
    ensures Lawful(FireDue(a, now, clock), clock)
    decreases Due(a.deadlines, now)
  {
    hide Timed, Due, Inv, Sound, Apply;
    if a.deadlines != [] && a.deadlines[0].at <= now {
      FireOnceLawful(a, now, clock);
      FireDueLawful(Apply(a.(deadlines := a.deadlines[1..]), Expire(a.deadlines[0].id), clock), now, clock);
    }
  }

  lemma SampleReady(a: Async, clock: Clock)
    requires Monotone(clock) && Timed(a, clock)
    ensures Ready(a.(readings := a.readings + 1), clock(a.readings), clock)
  {
    assert clock(a.readings) <= clock(a.readings + 1);
  }

  lemma ReactLawful(a: Async, e: Event, clock: Clock)
    requires Monotone(clock) && Lawful(a, clock)
    ensures Lawful(React(a, e, clock), clock)
  {
    hide Step, Timed, Inv, Sound, QueueGrew;
    match e
    case Handle(command) =>
      TimedApply(a, command, clock);
      StepInv(a.core, command);
      SoundStep(a.core, command);
    case WakeUp =>
      SampleReady(a, clock);
      FireDueLawful(a.(readings := a.readings + 1), clock(a.readings), clock);
  }

  // Every law of the broker holds at every point of every run, under any mixture of
  // commands and wake-ups and any monotone clock.
  lemma {:induction false} ServeLawful(a: Async, events: seq<Event>, clock: Clock)
    requires Monotone(clock) && Lawful(a, clock)
    ensures Lawful(Serve(a, events, clock), clock)
    decreases |events|
  {
    hide Lawful, React;
    if events != [] {
      ReactLawful(a, events[0], clock);
      ServeLawful(React(a, events[0], clock), events[1..], clock);
    }
  }

  lemma StartLawful(mode: SendMode, delivery: Delivery, salt: Salt, clock: Clock)
    ensures Lawful(Start(mode, delivery, salt), clock)
  {
    InitInv(mode, delivery, salt);
  }

  // What a wake-up at `now` makes of a: no deadline is left at or before `now`, the
  // queue still holds each pending id once and in order, and only due ids were touched.
  ghost predicate Woken(a: Async, b: Async, now: nat, clock: Clock) {
    && (forall i | 0 <= i < |b.deadlines| :: b.deadlines[i].at > now)
    && Timed(b, clock) && Untouched(a, b, now)
  }

  lemma WokenFrom(a: Async, b: Async, now: nat, clock: Clock, readings: nat)
    requires Woken(a.(readings := readings), b, now, clock)
    ensures Woken(a, b, now, clock)
  {
    hide Timed, Queued;
  }

  lemma FireDueWoken(a: Async, now: nat, clock: Clock)
    requires Ready(a, now, clock)
    ensures Woken(a, FireDue(a, now, clock), now, clock)
  {
    FireDueExact(a, now, clock);
    hide Timed, Queued, FireDue, Untouched, Ready;
  }

  lemma WakeExact(a: Async, clock: Clock)
    requires Monotone(clock) && Timed(a, clock)
    ensures Woken(a, Wake(a, clock), clock(a.readings), clock)
  {
    hide Timed, FireDue, Woken, Ready, Monotone, NotBehind;
    SampleReady(a, clock);
    var now := clock(a.readings);
    FireDueWoken(a.(readings := a.readings + 1), now, clock);
    WokenFrom(a, Wake(a, clock), now, clock, a.readings + 1);
  }

  // After any run from the empty broker.
  lemma NothingOverdue(mode: SendMode, delivery: Delivery, salt: Salt, events: seq<Event>, clock: Clock)
    requires Monotone(clock)
    ensures var a := Serve(Start(mode, delivery, salt), events, clock);
      Woken(a, Wake(a, clock), clock(a.readings), clock)
  {
    hide *;
    StartLawful(mode, delivery, salt, clock);
    ServeLawful(Start(mode, delivery, salt), events, clock);
    var a := Serve(Start(mode, delivery, salt), events, clock);
    assert Timed(a, clock) by { LawfulTimed(a, clock); }
    WakeExact(a, clock);
  }

  lemma LawfulTimed(a: Async, clock: Clock)
    requires Lawful(a, clock)
    ensures Timed(a, clock)
  {
    hide Inv, Sound, Timed;
  }

  // ---- Settling step by step ----

  // The core moved on, adding to its timer operations.
  ghost predicate Extends(s: State, t: State) {
    |s.timer| <= |t.timer| && t.timer[..|s.timer|] == s.timer
  }

  lemma {:induction false} SettleConcat(
    deadlines: seq<Deadline>, readings: nat, x: seq<TimerOp>, y: seq<TimerOp>, clock: Clock)
    ensures var mid := Settle(deadlines, readings, x, clock);
      Settle(deadlines, readings, x + y, clock) == Settle(mid.0, mid.1, y, clock)
    decreases |x|
  {
    if x == [] {
      assert x + y == y;
    } else {
      assert (x + y)[1..] == x[1..] + y;
      if x[0].Cancel? {
        SettleConcat(deadlines, readings, x[1..], y, clock);
      } else {
        SettleConcat(deadlines + [Deadline(clock(readings) + RESEND_TIMEOUT, x[0].id)], readings + 1, x[1..], y, clock);
      }
    }
  }

  // Moving in two steps is moving at once.
  lemma LiftCompose(a: Async, t: State, u: State, clock: Clock)
    requires Extends(a.core, t) && Extends(t, u)
    ensures Lift(Lift(a, t, clock), u, clock) == Lift(a, u, clock)
    ensures Extends(a.core, u)
  {
    var n, m := |a.core.timer|, |t.timer|;
    assert u.timer[..n] == u.timer[..m][..n] == a.core.timer;
    assert u.timer[n..] == t.timer[n..] + u.timer[m..] by {
      assert u.timer[n..m] == u.timer[..m][n..] == t.timer[n..];
      assert u.timer[n..] == u.timer[n..m] + u.timer[m..];
    }
    SettleConcat(a.deadlines, a.readings, t.timer[n..], u.timer[m..], clock);
  }

  lemma LiftSame(a: Async, t: State, clock: Clock)
    requires t.timer == a.core.timer
    ensures Lift(a, t, clock) == a.(core := t)
  {
  }

  lemma SettleOne(deadlines: seq<Deadline>, readings: nat, op: TimerOp, clock: Clock)
    ensures Settle(deadlines, readings, [op], clock) ==
      if op.Cancel? then (deadlines, readings)
      else (deadlines + [Deadline(clock(readings) + RESEND_TIMEOUT, op.id)], readings + 1)
  {
    assert [op][1..] == [];
  }

  lemma LiftArm(a: Async, t: State, id: MsgId, clock: Clock)
    requires t.timer == a.core.timer + [Arm(id)]
    ensures Lift(a, t, clock) ==
      Async(t, a.deadlines + [Deadline(clock(a.readings) + RESEND_TIMEOUT, id)], a.readings + 1)
  {
    assert t.timer[|a.core.timer|..] == [Arm(id)];
    SettleOne(a.deadlines, a.readings, Arm(id), clock);
    hide Settle;
  }

  lemma LiftCancel(a: Async, t: State, id: MsgId, clock: Clock)
    requires t.timer == a.core.timer + [Cancel(id)]
    ensures Lift(a, t, clock) == a.(core := t)
  {
    assert t.timer[|a.core.timer|..] == [Cancel(id)];
    SettleOne(a.deadlines, a.readings, Cancel(id), clock);
    hide Settle;
  }

  // Routing touches no timer.
  lemma LiftRouted(a: Async, r: State, t: State, clock: Clock)
    requires OnlyRouted(r, t)
    ensures Lift(a, t, clock) == Lift(a, r, clock).(core := t)
    ensures Extends(a.core, r) ==> Extends(a.core, t)
  {
  }
}
