// The C library's connection objects: a session thread makes one, hands it to the broker
// with CONN_UP, and must not touch it after CONN_DOWN, upon which the broker frees it.
module ConnOwnership {
  import opened Bytes
  import opened Protocol

  datatype Phase =
    | Setup    // before registration; the session owns the object
    | Waiting  // CONN_UP sent, waiting for the answer or for shutdown
    | Steady   // accepted
    | Teardown // about to send CONN_DOWN
    | Done     // CONN_DOWN sent
    | Failed   // gave up before registration and freed the object

  datatype Conn = Conn(peer: Identity, phase: Phase, accDone: bool, accOk: bool, freed: bool)

  datatype Cmd = ConnUp(c: nat) | ConnDown(c: nat) | Received(from: Identity) | Send | Close

  // `batch` is the list the broker took from the shared queue and is working through.
  datatype World = World(
    conns: seq<Conn>,
    table: seq<nat>,
    queue: seq<Cmd>,
    batch: seq<Cmd>,
    shutdown: bool,
    closing: bool,
    exited: bool)

  datatype Event =
    | Open
    | Fail(c: nat)
    | Register(c: nat, peer: Identity)
    | SeeAnswer(c: nat)
    | Work(c: nat)    // writes what the broker queued for it, reads, forwards a frame
    | End(c: nat)
    | Leave(c: nat)   // closes the transport, sends CONN_DOWN
    | AppSend
    | Shutdown
    | SendClose
    | Grab            // the broker takes the whole queue
    | Turn            // the broker handles one command
    | Resend          // the broker sweeps its pending messages
    | Exit            // nothing queued, closing, no connections
    | Discard         // the exiting broker frees what commands are left

  function Begin(): World {
    World([], [], [], [], false, false, false)
  }

  predicate InPhase(w: World, c: nat, phase: Phase) {
    c < |w.conns| && w.conns[c].phase == phase
  }

  predicate Enabled(w: World, e: Event) {
    match e
    case Open => true
    case Fail(c) => InPhase(w, c, Setup)
    case Register(c, _) => InPhase(w, c, Setup)
    case SeeAnswer(c) => InPhase(w, c, Waiting) && (w.conns[c].accDone || w.shutdown)
    case Work(c) => InPhase(w, c, Steady)
    case End(c) => InPhase(w, c, Steady)
    case Leave(c) => InPhase(w, c, Teardown)
    case AppSend => true
    case Shutdown => true
    case SendClose => w.shutdown
    case Grab => !w.exited && w.batch == [] && w.queue != []
    case Turn => !w.exited && w.batch != []
    case Resend => !w.exited
    case Exit => !w.exited && w.batch == [] && w.queue == [] && w.closing && w.table == []
    case Discard => w.exited
  }

  function Set(w: World, c: nat, conn: Conn): World
    requires c < |w.conns|
  {
    w.(conns := w.conns[c := conn])
  }

  function Push(w: World, cmd: Cmd): World {
    w.(queue := w.queue + [cmd])
  }

  // The last entry moves into the place of the one taken out.
  function SwapOut(table: seq<nat>, c: nat): (r: seq<nat>)
    ensures c in table ==> |r| == |table| - 1
    ensures c !in table ==> r == table
  {
    if c !in table then table else
    var i := IndexOf(table, c);
    table[i := table[|table| - 1]][..|table| - 1]
  }

  function IndexOf(table: seq<nat>, c: nat): (i: nat)
    requires c in table
    ensures i < |table| && table[i] == c && c !in table[..i]
  {
    if table[0] == c then 0 else
    assert forall k | 0 <= k < |table| && table[k] == c :: k > 0 && table[1..][k - 1] == c;
    1 + IndexOf(table[1..], c)
  }

  predicate Duplicate(w: World, c: nat)
    requires c < |w.conns|
  {
    exists d :: d in w.table && d < |w.conns| && w.conns[d].peer == w.conns[c].peer
  }

  // The broker handles one command.
  function Obey(w: World, cmd: Cmd): World {
    match cmd
    case ConnUp(c) =>
      if c >= |w.conns| then w else
      var ok := !Duplicate(w, c);
      Set(w, c, w.conns[c].(accDone := true, accOk := ok)).(table := if ok then w.table + [c] else w.table)
    case ConnDown(c) =>
      if c >= |w.conns| then w else
      Set(w, c, w.conns[c].(freed := true)).(table := SwapOut(w.table, c))
    case Received(_) => w
    case Send => w
    case Close => w.(closing := true)
  }

  function Act(w: World, e: Event): World {
    if !Enabled(w, e) then w else
    match e
    case Open => w.(conns := w.conns + [Conn(seq(16, _ => 0), Setup, false, false, false)])
    case Fail(c) => Set(w, c, w.conns[c].(phase := Failed, freed := true))
    case Register(c, peer) => Push(Set(w, c, w.conns[c].(phase := Waiting, peer := peer)), ConnUp(c))
    case SeeAnswer(c) =>
      Set(w, c, w.conns[c].(phase := if w.conns[c].accDone && w.conns[c].accOk then Steady else Teardown))
    case Work(c) => Push(w, Received(w.conns[c].peer))
    case End(c) => Set(w, c, w.conns[c].(phase := Teardown))
    case Leave(c) => Push(Set(w, c, w.conns[c].(phase := Done)), ConnDown(c))
    case AppSend => Push(w, Send)
    case Shutdown => w.(shutdown := true)
    case SendClose => Push(w, Close)
    case Grab => w.(batch := w.queue, queue := [])
    case Turn => Obey(w.(batch := w.batch[1..]), w.batch[0])
    case Resend => w
    case Exit => w.(exited := true)
    case Discard => w.(queue := [])
  }

  function ActAll(w: World, events: seq<Event>): World
    decreases |events|
  {
    if events == [] then w else ActAll(Act(w, events[0]), events[1..])
  }

  // The objects an event dereferences or frees.
  function Touched(w: World, e: Event): set<nat> {
    if !Enabled(w, e) then {} else
    match e
    case Fail(c) => {c}
    case Register(c, _) => {c}
    case SeeAnswer(c) => {c}
    case Work(c) => {c}
    case End(c) => {c}
    case Leave(c) => {c}
    case Turn =>
      (match w.batch[0]
       case ConnUp(c) => Entries(w) + {c}
       case ConnDown(c) => {c}
       case Received(_) => Entries(w)
       case Send => Entries(w)
       case Close => {})
    case Resend => Entries(w)
    case _ => {}
  }

  function Entries(w: World): set<nat> {
    set c | c in w.table
  }

  // ---- The hand-off ----

  function Line(w: World): seq<Cmd> {
    w.batch + w.queue
  }

  // At most one CONN_UP and one CONN_DOWN per object are on the way, in this order.
  predicate Clash(a: Cmd, b: Cmd) {
    (a.ConnUp? || a.ConnDown?) && (b.ConnUp? || b.ConnDown?) && a.c == b.c && !(a.ConnUp? && b.ConnDown?)
  }

  ghost predicate Ordered(line: seq<Cmd>) {
    forall i, j | 0 <= i < j < |line| :: !Clash(line[i], line[j])
  }

  ghost predicate Owned(w: World, c: nat)
    requires c < |w.conns|
  {
    var k := w.conns[c];
    var up, down := ConnUp(c) in Line(w), ConnDown(c) in Line(w);
    && (c in w.table ==> k.accDone && k.accOk && !k.freed && !up)
    && (up ==> !k.accDone)
    && (k.phase == Setup ==> !k.freed && !k.accDone && !up && !down && c !in w.table)
    && (k.phase == Failed ==> k.freed && !up && !down && c !in w.table)
    && (k.phase == Waiting || k.phase == Steady || k.phase == Teardown ==>
          && !k.freed && !down
          && (!w.exited ==> up || (k.accDone && (k.accOk ==> c in w.table))))
    && (k.phase == Steady ==> k.accDone && k.accOk)
    && (k.phase == Done ==>
          && (down ==> !k.freed)
          && (k.freed ==> !up && c !in w.table)
          && (!down && !w.exited ==> k.freed)
          && (c in w.table ==> down))
  }

  ghost predicate Handed(w: World) {
    && Ordered(Line(w))
    && (forall cmd <- Line(w) :: cmd.ConnUp? || cmd.ConnDown? ==> cmd.c < |w.conns|)
    && (forall i, j | 0 <= i < j < |w.table| :: w.table[i] != w.table[j])
    && (forall c <- w.table :: c < |w.conns|)
    && (forall c: nat | c < |w.conns| :: Owned(w, c))
    && (forall c, d | c in w.table && d in w.table && c != d :: w.conns[c].peer != w.conns[d].peer)
    && (w.exited ==> w.table == [] && w.batch == [])
  }

  lemma BeginHanded()
    ensures Handed(Begin())
  {
  }

  lemma SwapOutIs(table: seq<nat>, c: nat)
    requires forall i, j | 0 <= i < j < |table| :: table[i] != table[j]
    ensures var r := SwapOut(table, c);
      && (forall i, j | 0 <= i < j < |r| :: r[i] != r[j])
      && (forall d: nat :: d in r <==> d in table && d != c)
  {
    var r := SwapOut(table, c);
    if c in table {
      var i := IndexOf(table, c);
      forall d: nat ensures d in r <==> d in table && d != c {
        if d in table && d != c {
          var k :| 0 <= k < |table| && table[k] == d;
          assert r[if k == |table| - 1 then i else k] == d;
        }
      }
    } else {
      assert forall d: nat :: d in r ==> d != c;
    }
  }

  // A command joins the queue.
  lemma LinePush(w: World, cmd: Cmd)
    ensures Line(Push(w, cmd)) == Line(w) + [cmd]
  {
    Associate(w.batch, w.queue, [cmd]);
  }

  lemma OrderedPush(line: seq<Cmd>, cmd: Cmd)
    requires Ordered(line)
    requires cmd.ConnUp? ==> ConnUp(cmd.c) !in line && ConnDown(cmd.c) !in line
    requires cmd.ConnDown? ==> ConnDown(cmd.c) !in line
    ensures Ordered(line + [cmd])
  {
    var all := line + [cmd];
    forall i, j | 0 <= i < j < |all| ensures !Clash(all[i], all[j]) {
      assert all[i] in line;
    }
  }

  lemma SessionStep(w: World, e: Event)
    requires Handed(w) && Enabled(w, e) && (e.Fail? || e.SeeAnswer? || e.End?)
    ensures Handed(Act(w, e))
  {
    var w' := Act(w, e);
    assert Owned(w, e.c);
    assert Line(w') == Line(w);
    hide Ordered;
    forall c: nat | c < |w'.conns| ensures Owned(w', c) {
      assert Owned(w, c);
    }
  }

  // A session sends a command, moving itself on.
  lemma PushStep(w: World, w': World, cmd: Cmd)
    requires Handed(w) && w' == Push(w.(conns := w'.conns), cmd) && |w'.conns| == |w.conns|
    requires cmd.ConnUp? || cmd.ConnDown? ==> cmd.c < |w.conns| && w'.conns == w.conns[cmd.c := w'.conns[cmd.c]]
    requires !cmd.ConnUp? && !cmd.ConnDown? ==> w'.conns == w.conns
    requires cmd.ConnUp? ==>
      w.conns[cmd.c].phase == Setup
        && w'.conns[cmd.c] == w.conns[cmd.c].(phase := Waiting, peer := w'.conns[cmd.c].peer)
    requires cmd.ConnDown? ==> w.conns[cmd.c].phase == Teardown && w'.conns[cmd.c] == w.conns[cmd.c].(phase := Done)
    ensures Handed(w')
  {
    LinePush(w.(conns := w'.conns), cmd);
    var line := Line(w);
    assert Line(w') == line + [cmd];
    if cmd.ConnUp? || cmd.ConnDown? {
      assert Owned(w, cmd.c);
    }
    OrderedPush(line, cmd);
    hide Ordered, Line;
    forall c: nat | c < |w'.conns| ensures Owned(w', c) {
      assert Owned(w, c);
    }
    forall c, d | c in w'.table && d in w'.table && c != d ensures w'.conns[c].peer != w'.conns[d].peer {
      assert Owned(w, c) && Owned(w, d);
    }
  }

  // The first command of the line leaves it.
  lemma LineHead(w: World)
    requires w.batch != []
    ensures Line(w) == [w.batch[0]] + Line(w.(batch := w.batch[1..]))
  {
  }

  lemma OrderedTail(head: Cmd, line: seq<Cmd>)
    requires Ordered([head] + line)
    ensures Ordered(line)
    ensures head.ConnUp? ==> ConnUp(head.c) !in line
    ensures head.ConnDown? ==> ConnUp(head.c) !in line && ConnDown(head.c) !in line
  {
    var all := [head] + line;
    assert forall i | 0 <= i < |line| :: all[i + 1] == line[i];
    forall i, j | 0 <= i < j < |line| ensures !Clash(line[i], line[j]) {
      assert !Clash(all[i + 1], all[j + 1]);
    }
    forall i | 0 <= i < |line| ensures !Clash(head, line[i]) {
      assert !Clash(all[0], all[i + 1]);
    }
  }

  lemma UpStep(w: World, c: nat)
    requires Handed(w) && !w.exited && w.batch != [] && w.batch[0] == ConnUp(c)
    ensures Handed(Act(w, Turn))
  {
    var w' := Act(w, Turn);
    var rest := w.(batch := w.batch[1..]);
    LineHead(w);
    OrderedTail(ConnUp(c), Line(rest));
    assert Line(w') == Line(rest);
    assert ConnUp(c) in Line(w) && Owned(w, c);
    hide Ordered, Line;
    forall d: nat | d < |w'.conns| ensures Owned(w', d) {
      assert Owned(w, d);
    }
    forall a, b | a in w'.table && b in w'.table && a != b ensures w'.conns[a].peer != w'.conns[b].peer {
      if a in w.table && b in w.table {
      } else if a == c {
        assert b in w.table && !Duplicate(rest, c);
      } else {
        assert a in w.table && !Duplicate(rest, c);
      }
    }
  }

  lemma DownStep(w: World, c: nat)
    requires Handed(w) && !w.exited && w.batch != [] && w.batch[0] == ConnDown(c)
    ensures Handed(Act(w, Turn))
  {
    var w' := Act(w, Turn);
    var rest := w.(batch := w.batch[1..]);
    LineHead(w);
    OrderedTail(ConnDown(c), Line(rest));
    assert Line(w') == Line(rest);
    assert ConnDown(c) in Line(w) && Owned(w, c);
    SwapOutIs(w.table, c);
    hide Ordered, Line, SwapOut;
    forall d: nat | d < |w'.conns| ensures Owned(w', d) {
      assert Owned(w, d);
    }
  }

  lemma OtherStep(w: World)
    requires Handed(w) && !w.exited && w.batch != [] && !w.batch[0].ConnUp? && !w.batch[0].ConnDown?
    ensures Handed(Act(w, Turn))
  {
    var w' := Act(w, Turn);
    LineHead(w);
    OrderedTail(w.batch[0], Line(w.(batch := w.batch[1..])));
    assert Line(w') == Line(w.(batch := w.batch[1..]));
    hide Ordered, Line;
    forall d: nat | d < |w'.conns| ensures Owned(w', d) {
      assert Owned(w, d);
    }
  }

  lemma BrokerStep(w: World, e: Event)
    requires Handed(w) && Enabled(w, e) && (e.Open? || e.Shutdown? || e.Grab? || e.Exit? || e.Discard?)
    ensures Handed(Act(w, e))
  {
    var w' := Act(w, e);
    if e.Discard? {
      assert Line(w') == [];
    } else {
      assert Line(w') == Line(w);
    }
    hide Ordered;
    forall d: nat | d < |w'.conns| ensures Owned(w', d) {
      if d < |w.conns| {
        assert Owned(w, d);
      }
    }
    assert Ordered([]) by { EmptyOrdered(); }
  }

  lemma EmptyOrdered()
    ensures Ordered([])
  {
  }

  lemma ActHanded(w: World, e: Event)
    requires Handed(w)
    ensures Handed(Act(w, e))
  {
    hide Handed, Obey;
    if Enabled(w, e) {
      match e
      case Fail(c) => SessionStep(w, e);
      case SeeAnswer(c) => SessionStep(w, e);
      case End(c) => SessionStep(w, e);
      case Register(c, peer) => PushStep(w, Act(w, e), ConnUp(c));
      case Leave(c) => PushStep(w, Act(w, e), ConnDown(c));
      case Work(c) => PushStep(w, Act(w, e), Received(w.conns[c].peer));
      case AppSend => PushStep(w, Act(w, e), Send);
      case SendClose => PushStep(w, Act(w, e), Close);
      case Turn =>
        match w.batch[0] {
          case ConnUp(c) => UpStep(w, c);
          case ConnDown(c) => DownStep(w, c);
          case _ => OtherStep(w);
        }
      case Resend =>
      case _ => BrokerStep(w, e);
    }
  }

  lemma {:induction false} ActAllHanded(w: World, events: seq<Event>)
    requires Handed(w)
    ensures Handed(ActAll(w, events))
    decreases |events|
  {
    hide Handed, Act;
    if events != [] {
      ActHanded(w, events[0]);
      ActAllHanded(Act(w, events[0]), events[1..]);
    }
  }

  // From the start: any interleaving of sessions, application and broker, with shutdown
  // at any time.
  lemma AlwaysHanded(events: seq<Event>)
    ensures Handed(ActAll(Begin(), events))
  {
    BeginHanded();
    ActAllHanded(Begin(), events);
    hide Handed, ActAll;
  }

  // No event dereferences a freed object, none frees one twice, a session that has sent
  // CONN_DOWN does nothing more, and the broker's table never leads to a freed object.
  lemma NeverTouchedAfterFree(w: World, e: Event, c: nat)
    requires Handed(w) && c in Touched(w, e)
    ensures c < |w.conns| && !w.conns[c].freed
    ensures w.conns[c].phase == Done ==> e.Turn? || e.Resend?
  {
    if e.Turn? {
      LineHead(w);
      assert w.batch[0] in Line(w);
    }
    if c < |w.conns| {
      assert Owned(w, c);
    }
    hide Ordered;
  }

  // Freed objects are not in the table, and stay freed.
  lemma FreedForGood(w: World, e: Event, c: nat)
    requires Handed(w) && c < |w.conns| && w.conns[c].freed
    ensures c !in w.table && c < |Act(w, e).conns| && Act(w, e).conns[c].freed
  {
    assert Owned(w, c);
    hide Handed;
  }

  // A CONN_DOWN takes out its own entry and no other; that of a rejected duplicate takes
  // out none.
  lemma DownEvictsOnlyItself(w: World, c: nat)
    requires Handed(w) && !w.exited && w.batch != [] && w.batch[0] == ConnDown(c)
    ensures var w' := Act(w, Turn);
      && c < |w.conns| && !w.conns[c].freed && w'.conns[c].freed
      && (forall d: nat :: d in w'.table <==> d in w.table && d != c)
      && (!w.conns[c].accOk ==> w'.table == w.table)
  {
    LineHead(w);
    assert ConnDown(c) in Line(w) && Owned(w, c);
    SwapOutIs(w.table, c);
    hide Ordered, SwapOut;
  }

  // When the broker exits, it has freed exactly the objects whose sessions are done.
  lemma ExitFreesTheDone(w: World, c: nat)
    requires Handed(w) && Enabled(w, Exit) && c < |w.conns|
    ensures w.conns[c].freed <==> w.conns[c].phase == Done || w.conns[c].phase == Failed
    ensures w.conns[c].freed || w.conns[c].phase == Setup
      || (w.conns[c].accDone && !w.conns[c].accOk && (w.conns[c].phase == Waiting || w.conns[c].phase == Teardown))
  {
    assert Line(w) == [];
    assert Owned(w, c);
    hide Ordered;
  }

  // The broker is gone: freed are the objects of the sessions that were done when it
  // exited, and those that fail before registration.
  ghost predicate Frozen(w: World, done: set<nat>) {
    && w.exited && (forall c <- done :: c < |w.conns|)
    && (forall c: nat | c < |w.conns| ::
          && (w.conns[c].freed <==> c in done || w.conns[c].phase == Failed)
          && (c in done ==> w.conns[c].phase == Done))
  }

  lemma FrozenStep(w: World, e: Event, done: set<nat>)
    requires Frozen(w, done)
    ensures Frozen(Act(w, e), done)
  {
  }

  lemma {:induction false} StaysFrozen(w: World, events: seq<Event>, done: set<nat>)
    requires Frozen(w, done)
    ensures Frozen(ActAll(w, events), done)
    decreases |events|
  {
    hide Frozen, Act;
    if events != [] {
      FrozenStep(w, events[0], done);
      StaysFrozen(Act(w, events[0]), events[1..], done);
    }
  }

  function DoneIn(w: World): set<nat> {
    set c | 0 <= c < |w.conns| && w.conns[c].phase == Done
  }

  // Whatever happened before the broker exits and whatever happens after: an object is
  // freed in the end if and only if its session had sent CONN_DOWN by the exit, or gives
  // up before registration. All others leak.
  lemma LeakedIff(before: seq<Event>, after: seq<Event>)
    requires Enabled(ActAll(Begin(), before), Exit)
    ensures var w := ActAll(Begin(), before); var end := ActAll(Act(w, Exit), after);
      forall c: nat | c < |end.conns| :: end.conns[c].freed <==>
        (c < |w.conns| && w.conns[c].phase == Done) || end.conns[c].phase == Failed
  {
    AlwaysHanded(before);
    var w := ActAll(Begin(), before);
    forall c: nat | c < |w.conns| ensures w.conns[c].freed <==> w.conns[c].phase == Done || w.conns[c].phase == Failed {
      ExitFreesTheDone(w, c);
    }
    hide ActAll, Handed;
    assert Frozen(Act(w, Exit), DoneIn(w));
    StaysFrozen(Act(w, Exit), after, DoneIn(w));
  }

  // ---- Objects that are never freed ----

  ghost predicate Reachable(w: World) {
    exists events: seq<Event> :: ActAll(Begin(), events) == w
  }

  lemma {:induction false} ActAllSnoc(w: World, events: seq<Event>, e: Event)
    ensures ActAll(w, events + [e]) == Act(ActAll(w, events), e)
    decreases |events|
  {
    hide Act;
    if events == [] {
      assert ([] + [e])[1..] == [];
    } else {
      assert (events + [e])[1..] == events[1..] + [e];
      ActAllSnoc(Act(w, events[0]), events[1..], e);
    }
  }

  lemma Reach(w: World, e: Event, next: World)
    requires Reachable(w) && Act(w, e) == next
    ensures Reachable(next)
  {
    var events: seq<Event> :| ActAll(Begin(), events) == w;
    ActAllSnoc(Begin(), events, e);
    assert ActAll(Begin(), events + [e]) == next;
  }

  // Two sessions of one peer; the second has been rejected and has yet to notice.
  function TwoOfOne(p: Identity): World {
    World([Conn(p, Steady, true, true, false), Conn(p, Waiting, true, false, false)], [0], [], [], false, false, false)
  }

  function OneSteady(p: Identity): World {
    World([Conn(p, Steady, true, true, false)], [0], [], [], false, false, false)
  }

  lemma OneSteadyReachable(p: Identity)
    ensures Reachable(OneSteady(p))
  {
    var zero := Conn(seq(16, _ => 0), Setup, false, false, false);
    var a, yes := Conn(p, Waiting, false, false, false), Conn(p, Waiting, true, true, false);
    assert ActAll(Begin(), []) == Begin();
    var w1 := Begin().(conns := [zero]);
    Reach(Begin(), Open, w1);
    var w2 := w1.(conns := [a], queue := [ConnUp(0)]);
    Reach(w1, Register(0, p), w2);
    var w3 := w2.(queue := [], batch := [ConnUp(0)]);
    Reach(w2, Grab, w3);
    var w4 := w3.(conns := [yes], table := [0], batch := []);
    Reach(w3, Turn, w4);
    Reach(w4, SeeAnswer(0), OneSteady(p));
  }

  lemma TwoOfOneReachable(p: Identity)
    ensures Reachable(TwoOfOne(p))
  {
    OneSteadyReachable(p);
    var zero, a := Conn(seq(16, _ => 0), Setup, false, false, false), Conn(p, Waiting, false, false, false);
    var w0, s := OneSteady(p), Conn(p, Steady, true, true, false);
    var w1 := w0.(conns := [s, zero]);
    Reach(w0, Open, w1);
    var w2 := w1.(conns := [s, a], queue := [ConnUp(1)]);
    Reach(w1, Register(1, p), w2);
    var w3 := w2.(queue := [], batch := [ConnUp(1)]);
    Reach(w2, Grab, w3);
    assert Duplicate(w3.(batch := w3.batch[1..]), 1) by {
      assert 0 in w3.table;
    }
    Reach(w3, Turn, TwoOfOne(p));
  }

  // The program is closed, the first session ends, the broker frees its object and,
  // having no connection left, exits; then the second session, rejected for its peer's
  // identity, sends its CONN_DOWN. Every session is done and the broker is gone, but the
  // second object is not freed.
  lemma RejectedDuplicateLeaks(p: Identity)
    ensures exists w :: Reachable(w) && w.exited && w.queue == [] && TwoOfOneLeft(w, p)
  {
    BrokerGone(p);
    var r := Conn(p, Waiting, true, false, false);
    var gone := Conn(p, Done, true, true, true);
    var w8 := World([gone, r], [], [], [], true, true, true);
    var w9 := w8.(conns := [gone, r.(phase := Teardown)]);
    Reach(w8, SeeAnswer(1), w9);
    var w10 := w9.(conns := [gone, r.(phase := Done)], queue := [ConnDown(1)]);
    Reach(w9, Leave(1), w10);
    var w11 := w10.(queue := []);
    Reach(w10, Discard, w11);
    assert TwoOfOneLeft(w11, p);
  }

  // Two objects of peer p: one was accepted and freed, one was rejected and is not freed.
  predicate TwoOfOneLeft(w: World, p: Identity) {
    && |w.conns| == 2
    && w.conns[0] == Conn(p, Done, true, true, true)
    && (var c := w.conns[1]; c.peer == p && c.phase == Done && c.accDone && !c.accOk && !c.freed)
  }

  lemma BrokerGone(p: Identity)
    ensures Reachable(World([Conn(p, Done, true, true, true), Conn(p, Waiting, true, false, false)],
      [], [], [], true, true, true))
  {
    TwoOfOneReachable(p);
    var s, r := Conn(p, Done, true, true, false), Conn(p, Waiting, true, false, false);
    var w0 := TwoOfOne(p);
    var w1 := w0.(shutdown := true);
    Reach(w0, Shutdown, w1);
    var w2 := w1.(queue := [Close]);
    Reach(w1, SendClose, w2);
    var w3 := w2.(conns := [Conn(p, Teardown, true, true, false), r]);
    Reach(w2, End(0), w3);
    var w4 := w3.(conns := [s, r], queue := [Close, ConnDown(0)]);
    Reach(w3, Leave(0), w4);
    var w5 := w4.(queue := [], batch := [Close, ConnDown(0)]);
    Reach(w4, Grab, w5);
    var w6 := w5.(batch := [ConnDown(0)], closing := true);
    Reach(w5, Turn, w6);
    var w7 := w6.(batch := [], table := [], conns := [s.(freed := true), r]);
    Reach(w6, Turn, w7);
    var w8 := w7.(exited := true);
    Reach(w7, Exit, w8);
  }

  function ExitedInSetup(): World {
    World([Conn(seq(16, _ => 0), Setup, false, false, false)], [], [], [], true, true, true)
  }

  lemma ExitedInSetupReachable()
    ensures Reachable(ExitedInSetup())
  {
    var w0 := Begin().(conns := ExitedInSetup().conns, shutdown := true);
    ClosingInSetupReachable();
    var w1 := w0.(batch := [Close]);
    Reach(w0.(queue := [Close]), Grab, w1);
    var w2 := w0.(closing := true);
    Reach(w1, Turn, w2);
    Reach(w2, Exit, ExitedInSetup());
  }

  lemma ClosingInSetupReachable()
    ensures Reachable(Begin().(conns := ExitedInSetup().conns, shutdown := true, queue := [Close]))
  {
    assert ActAll(Begin(), []) == Begin();
    var w0 := Begin().(conns := ExitedInSetup().conns);
    Reach(Begin(), Open, w0);
    var w1 := w0.(shutdown := true);
    Reach(w0, Shutdown, w1);
    Reach(w1, SendClose, w1.(queue := [Close]));
  }

  // A session whose handshake ends after the broker has exited registers with nobody: no
  // duplicate is needed for a leak.
  lemma LateRegistrationLeaks(p: Identity)
    ensures exists w :: Reachable(w) && w.exited && w.queue == [] && w.conns == [Conn(p, Done, false, false, false)]
  {
    ExitedInSetupReachable();
    var w4, c := ExitedInSetup(), Conn(p, Waiting, false, false, false);
    var w5 := w4.(conns := [c], queue := [ConnUp(0)]);
    Reach(w4, Register(0, p), w5);
    var w6 := w5.(conns := [c.(phase := Teardown)]);
    Reach(w5, SeeAnswer(0), w6);
    var w7 := w4.(conns := [c.(phase := Done)], queue := [ConnUp(0), ConnDown(0)]);
    Reach(w6, Leave(0), w7);
    Reach(w7, Discard, w7.(queue := []));
  }
}
