// The synchronous crate's timer thread: a queue of deadlines in arming order and the
// set of ids still armed. A cancelled id leaves its queue entry behind as a tombstone.
module ResendTimer {
  import opened Bytes
  import opened Protocol
  import opened Broker
  import opened Deadlines

  // `firing` is the time sampled for the firing loop the thread is in, if it is in one.
  datatype Timer = Timer(deadlines: seq<Deadline>, armed: set<MsgId>, readings: nat, firing: Option<nat>)

  function Idle(): Timer {
    Timer([], {}, 0, None)
  }

  function Sample(t: Timer, clock: Clock): Timer {
    t.(firing := Some(clock(t.readings)), readings := t.readings + 1)
  }

  // One message, or none if the wait for one timed out.
  function Take(t: Timer, msg: Option<TimerOp>, clock: Clock): Timer {
    match msg
    case Some(Arm(id)) =>
      t.(deadlines := t.deadlines + [Deadline(clock(t.readings) + RESEND_TIMEOUT, id)],
         armed := t.armed + {id}, readings := t.readings + 1)
    case Some(Cancel(id)) => t.(armed := t.armed - {id})
    case None => t
  }

  predicate FrontDue(t: Timer) {
    t.firing.Some? && t.deadlines != [] && t.deadlines[0].at <= t.firing.value
  }

  // Pops the front entry; it fires if its id is still armed.
  function Pop(t: Timer): (Timer, seq<MsgId>)
    requires FrontDue(t)
  {
    var id := t.deadlines[0].id;
    (t.(deadlines := t.deadlines[1..], armed := t.armed - {id}), if id in t.armed then [id] else [])
  }

  // The whole firing loop.
  function FireAll(t: Timer): (Timer, seq<MsgId>)
    decreases |t.deadlines|
  {
    if !FrontDue(t) then (t.(firing := None), [])
    else
      var (next, fired) := Pop(t);
      var (last, more) := FireAll(next);
      (last, fired + more)
  }

  // ---- The plain timer: a map from armed ids to their deadlines ----

  // When the queue first mentions the id.
  function First(deadlines: seq<Deadline>, id: MsgId): Option<nat> {
    if deadlines == [] then None
    else if deadlines[0].id == id then Some(deadlines[0].at)
    else First(deadlines[1..], id)
  }

  lemma {:induction false} FirstSnoc(deadlines: seq<Deadline>, d: Deadline, id: MsgId)
    ensures First(deadlines + [d], id) ==
      if First(deadlines, id).Some? then First(deadlines, id) else if d.id == id then Some(d.at) else None
  {
    if deadlines == [] {
      assert ([] + [d])[1..] == [];
    } else {
      assert (deadlines + [d])[1..] == deadlines[1..] + [d];
      FirstSnoc(deadlines[1..], d, id);
    }
  }

  lemma {:induction false} FirstQueued(deadlines: seq<Deadline>, id: MsgId)
    ensures First(deadlines, id).Some? <==> exists i :: 0 <= i < |deadlines| && deadlines[i].id == id
  {
    if deadlines != [] && deadlines[0].id != id {
      FirstQueued(deadlines[1..], id);
      if i :| 0 <= i < |deadlines| && deadlines[i].id == id {
        assert deadlines[1..][i - 1].id == id;
      }
      if i :| 0 <= i < |deadlines[1..]| && deadlines[1..][i].id == id {
        assert deadlines[i + 1].id == id;
      }
    }
  }

  // The queue stands for the map `due`: the armed ids are its keys, and each fires when
  // its map entry says.
  ghost predicate Stands(t: Timer, due: map<MsgId, nat>) {
    && t.armed == due.Keys
    && (forall id <- due :: First(t.deadlines, id) == Some(due[id]))
  }

  // Arming does what the plain timer does exactly if the queue holds no earlier entry
  // for the id: an entry left behind by a cancelled countdown would fire the new one
  // ahead of time.
  lemma ArmStands(t: Timer, due: map<MsgId, nat>, id: MsgId, clock: Clock)
    requires Stands(t, due)
    ensures var at := clock(t.readings) + RESEND_TIMEOUT;
      Stands(Take(t, Some(Arm(id)), clock), due[id := at]) <==>
        First(t.deadlines, id) == None || First(t.deadlines, id) == Some(at)
  {
    var at := clock(t.readings) + RESEND_TIMEOUT;
    var due' := due[id := at];
    var d := Deadline(at, id);
    assert t.armed + {id} == due'.Keys;
    forall other <- due' ensures First(t.deadlines + [d], other) ==
      if First(t.deadlines, other).Some? then First(t.deadlines, other) else if id == other then Some(at) else None
    {
      FirstSnoc(t.deadlines, d, other);
    }
    assert id in due';
    hide First;
  }

  // One turn of the thread's loop: a message, the clock sampled, the firing loop.
  function TurnOf(t: Timer, msg: Option<TimerOp>, clock: Clock): (Timer, seq<MsgId>) {
    FireAll(Sample(Take(t, msg, clock), clock))
  }

  lemma NothingFires(t: Timer)
    requires t.firing.Some? && !FrontDue(t)
    ensures FireAll(t) == (t.(firing := None), [])
  {
  }

  // The thread's state after each of three turns on one id.
  function ArmedOnce(id: MsgId): Timer {
    Timer([Deadline(RESEND_TIMEOUT, id)], {id}, 2, None)
  }

  function Cancelled(id: MsgId): Timer {
    Timer([Deadline(RESEND_TIMEOUT, id)], {}, 3, None)
  }

  function ArmedTwice(id: MsgId): Timer {
    Timer([Deadline(RESEND_TIMEOUT, id), Deadline(RESEND_TIMEOUT + 1, id)], {id}, 5, None)
  }

  lemma FirstTurn(id: MsgId, clock: Clock)
    requires clock(0) == clock(1) == 0
    ensures TurnOf(Idle(), Some(Arm(id)), clock) == (ArmedOnce(id), [])
  {
    var t := Take(Idle(), Some(Arm(id)), clock);
    assert t == ArmedOnce(id).(readings := 1);
    NothingFires(Sample(t, clock));
    hide FireAll;
  }

  lemma SecondTurn(id: MsgId, clock: Clock)
    requires clock(2) == 0
    ensures TurnOf(ArmedOnce(id), Some(Cancel(id)), clock) == (Cancelled(id), [])
  {
    var t := Take(ArmedOnce(id), Some(Cancel(id)), clock);
    assert t.armed == {} && t == Cancelled(id).(readings := 2);
    NothingFires(Sample(t, clock));
    hide FireAll;
  }

  lemma ThirdTurn(id: MsgId, clock: Clock)
    requires clock(3) == clock(4) == 1
    ensures TurnOf(Cancelled(id), Some(Arm(id)), clock) == (ArmedTwice(id), [])
  {
    var t := Take(Cancelled(id), Some(Arm(id)), clock);
    assert t.armed == {id} && t.deadlines == ArmedTwice(id).deadlines && t == ArmedTwice(id).(readings := 4);
    NothingFires(Sample(t, clock));
    hide FireAll;
  }

  lemma LastTurn(id: MsgId, clock: Clock)
    requires clock(5) == RESEND_TIMEOUT
    ensures TurnOf(ArmedTwice(id), None, clock).1 == [id]
  {
    var late := Sample(ArmedTwice(id), clock);
    var popped := Pop(late);
    assert popped.0.deadlines == [Deadline(RESEND_TIMEOUT + 1, id)] && popped.1 == [id];
    NothingFires(popped.0);
    assert FireAll(late).1 == [id] + [];
  }

  // The failing family is not empty: armed, cancelled and armed again one tick later, an
  // id fires at its first deadline, ahead of the second.
  lemma RearmedTooSoon(id: MsgId, clock: Clock)
    requires clock(0) == clock(1) == clock(2) == 0 && clock(3) == clock(4) == 1 && clock(5) == RESEND_TIMEOUT
    ensures var armed := TurnOf(Idle(), Some(Arm(id)), clock);
      var cancelled := TurnOf(armed.0, Some(Cancel(id)), clock);
      var rearmed := TurnOf(cancelled.0, Some(Arm(id)), clock);
      && armed.1 == cancelled.1 == rearmed.1 == []
      && TurnOf(rearmed.0, None, clock).1 == [id] && clock(5) < clock(3) + RESEND_TIMEOUT
  {
    hide *;
    FirstTurn(id, clock);
    SecondTurn(id, clock);
    ThirdTurn(id, clock);
    LastTurn(id, clock);
  }

  // Cancelling always does.
  lemma CancelStands(t: Timer, due: map<MsgId, nat>, id: MsgId, clock: Clock)
    requires Stands(t, due)
    ensures Stands(Take(t, Some(Cancel(id)), clock), due - {id})
  {
    assert t.armed - {id} == (due - {id}).Keys;
  }

  // One turn of the firing loop: whatever fires is due, and the rest keeps its time.
  lemma PopStands(t: Timer, due: map<MsgId, nat>)
    requires FrontDue(t) && Stands(t, due)
    ensures var (next, fired) := Pop(t);
      && Stands(next, due - {t.deadlines[0].id})
      && (forall id <- fired :: id in due && due[id] == t.deadlines[0].at <= t.firing.value)
  {
    var id := t.deadlines[0].id;
    assert t.armed - {id} == (due - {id}).Keys;
    forall other <- due - {id} ensures First(t.deadlines[1..], other) == First(t.deadlines, other) {
    }
  }

  function Later(due: map<MsgId, nat>, now: nat): map<MsgId, nat> {
    map id | id in due && due[id] > now :: due[id]
  }

  // The ids due at `now`, each once and the earliest first.
  ghost predicate DueInOrder(fired: seq<MsgId>, due: map<MsgId, nat>, now: nat) {
    && (forall id :: id in fired <==> id in due && due[id] <= now)
    && (forall i, j | 0 <= i < j < |fired| :: fired[i] != fired[j])
    && (forall i, j | 0 <= i < j < |fired| :: due[fired[i]] <= due[fired[j]])
  }

  lemma {:induction false} FirstAtLeast(deadlines: seq<Deadline>, id: MsgId, bound: nat)
    requires forall i | 0 <= i < |deadlines| :: deadlines[i].at >= bound
    ensures First(deadlines, id).Some? ==> First(deadlines, id).value >= bound
  {
    if deadlines != [] && deadlines[0].id != id {
      FirstAtLeast(deadlines[1..], id, bound);
    }
  }

  // Nothing due at the front: nothing is due at all.
  lemma NoneDue(t: Timer, due: map<MsgId, nat>)
    requires t.firing.Some? && !FrontDue(t) && Sorted(t.deadlines) && Stands(t, due)
    ensures Later(due, t.firing.value) == due && DueInOrder([], due, t.firing.value)
  {
    forall id <- due ensures due[id] > t.firing.value {
      FirstAtLeast(t.deadlines, id, t.firing.value + 1);
    }
  }

  lemma DueInOrderCons(first: seq<MsgId>, more: seq<MsgId>, due: map<MsgId, nat>, id: MsgId, now: nat)
    requires first == (if id in due then [id] else [])
    requires id in due ==> due[id] <= now && forall other <- due :: due[id] <= due[other]
    requires DueInOrder(more, due - {id}, now)
    ensures DueInOrder(first + more, due, now)
  {
    var all := first + more;
    forall i, j | 0 <= i < j < |all|
      ensures all[i] != all[j] && all[i] in due && all[j] in due && due[all[i]] <= due[all[j]]
    {
      if first != [] {
        assert all[j] == more[j - 1] && all[j] in more;
        if i > 0 {
          assert all[i] == more[i - 1] && all[i] in more;
        }
      } else {
        assert all[i] == more[i] && all[j] == more[j] && all[i] in more && all[j] in more;
      }
    }
    forall other ensures other in all <==> other in due && due[other] <= now {
      assert other in all <==> other in first || other in more;
    }
  }

  // A whole firing loop fires exactly the ids that are due, each once, earliest first;
  // the others stay armed with their deadlines.
  lemma {:induction false} FireAllRefines(t: Timer, due: map<MsgId, nat>)
    requires t.firing.Some? && Sorted(t.deadlines) && Stands(t, due)
    ensures var (u, fired) := FireAll(t);
      && Sorted(u.deadlines) && u.firing == None && u.readings == t.readings
      && Stands(u, Later(due, t.firing.value))
      && DueInOrder(fired, due, t.firing.value)
    decreases |t.deadlines|
  {
    var now := t.firing.value;
    if !FrontDue(t) {
      NoneDue(t, due);
    } else {
      var id := t.deadlines[0].id;
      var (next, first) := Pop(t);
      PopStands(t, due);
      FireAllRefines(next, due - {id});
      var more := FireAll(next).1;
      forall other <- due ensures id in due ==> due[id] <= due[other] {
        FirstAtLeast(t.deadlines, other, t.deadlines[0].at);
      }
      DueInOrderCons(first, more, due, id, now);
      assert Later(due - {id}, now) == Later(due, now) by {
        assert id in due ==> due[id] <= now;
        if id in t.armed {
        } else {
          assert id !in due;
        }
      }
    }
  }

  class TimerThread {
    const clock: Clock
    var deadlines: seq<Deadline>
    var armed: set<MsgId>
    var readings: nat
    // the ResendTimeout commands sent to the broker
    var sent: seq<MsgId>

    ghost function Model(): Timer
      reads this
    {
      Timer(deadlines, armed, readings, None)
    }

    constructor (time: Clock)
      ensures clock == time && Model() == Idle() && sent == []
    {
      clock, deadlines, armed, readings, sent := time, [], {}, 0, [];
    }

    method Now() returns (now: nat)
      modifies this`readings
      ensures now == clock(old(readings)) && readings == old(readings) + 1
    {
      now := clock(readings);
      readings := readings + 1;
    }

    method Process(msg: Option<TimerOp>)
      modifies this`deadlines, this`armed, this`readings
      ensures Model() == Take(old(Model()), msg, clock)
    {
      match msg {
        case Some(Arm(id)) =>
          var now := Now();
          deadlines := deadlines + [Deadline(now + RESEND_TIMEOUT, id)];
          armed := armed + {id};
        case Some(Cancel(id)) =>
          armed := armed - {id};
        case None =>
      }
    }

    // One turn of the thread's loop.
    method Turn(msg: Option<TimerOp>)
      modifies this
      ensures var (t, fired) := TurnOf(old(Model()), msg, clock);
        Model() == t && sent == old(sent) + fired
    {
      Process(msg);
      ghost var start := Sample(Model(), clock);
      var now := Now();
      ghost var done: seq<MsgId> := [];
      assert done + FireAll(start).1 == FireAll(start).1;
      while deadlines != [] && deadlines[0].at <= now
        invariant sent == old(sent) + done
        invariant FireAll(start).0 == FireAll(Timer(deadlines, armed, readings, Some(now))).0
        invariant FireAll(start).1 == done + FireAll(Timer(deadlines, armed, readings, Some(now))).1
        decreases |deadlines|
      {
        ghost var t := Timer(deadlines, armed, readings, Some(now));
        var id := deadlines[0].id;
        deadlines := deadlines[1..];
        Associate(done, Pop(t).1, FireAll(Pop(t).0).1);
        done := done + Pop(t).1;
        if id in armed {
          sent := sent + [id];
        }
        armed := armed - {id};
      }
    }
  }
}
