/** Runs of the threads in which the code fails, or loses a node, from the first accept on. They show
    that the conditions of WorkerRuns and Lost cannot be dropped, and that what Lost is about happens.
    All of them need one node, one timer and two groups. */
module Failures {
  import opened Prelude
  import opened RoundRobin
  import opened Sessions
  import opened Workers
  import opened Lost
  import T = TimerSpec
  import S = Server
  import SR = ServerRuns

  // ----- from one state to another -----

  ghost predicate Path(b: seq<State>, steps: seq<Step>) {
    && |b| == |steps| + 1
    && forall i {:trigger steps[i]} | 0 <= i < |steps| :: Goes(b[i], steps[i], b[i + 1])
  }

  ghost predicate FromTo(b: seq<State>, s: State, t: State) {
    b != [] && b[0] == s && b[|b| - 1] == t
  }

  /** A run leads from s to t; with `clean`, one that accepts only nodes nothing refers to. */
  ghost predicate Leads(s: State, t: State, clean: bool) {
    exists b, steps :: |b| == |steps| + 1 && Path(b, steps) && FromTo(b, s, t) && (clean ==> CleanAccepts(b, steps))
  }

  lemma LeadsNowhere(s: State)
    ensures Leads(s, s, true)
  {
    assert Path([s], []) && FromTo([s], s, s) && CleanAccepts([s], []);
  }

  lemma PathOn(b: seq<State>, steps: seq<Step>, step: Step, u: State)
    requires Path(b, steps) && Goes(b[|steps|], step, u)
    ensures Path(b + [u], steps + [step])
  {
    hide Goes;
    var b', steps' := b + [u], steps + [step];
    forall i {:trigger steps'[i]} | 0 <= i < |steps'|
      ensures Goes(b'[i], steps'[i], b'[i + 1])
    {
      if i < |steps| {
        assert steps'[i] == steps[i];
      }
    }
  }

  lemma CleanOn(b: seq<State>, steps: seq<Step>, step: Step, u: State)
    requires |b| == |steps| + 1 && CleanAccepts(b, steps)
    requires step.Accept? && b[|steps|].base.pool != [] ==> Unreferenced(b[|steps|], b[|steps|].base.pool[0])
    ensures CleanAccepts(b + [u], steps + [step])
  {
    hide Unreferenced;
  }

  lemma LeadsOn(s: State, t: State, step: Step, u: State, clean: bool)
    requires Leads(s, t, clean) && Goes(t, step, u)
    requires clean && step.Accept? && t.base.pool != [] ==> Unreferenced(t, t.base.pool[0])
    ensures Leads(s, u, clean)
  {
    hide Goes, Path, Unreferenced, CleanAccepts;
    var b, steps :|
      |b| == |steps| + 1 && Path(b, steps) && FromTo(b, s, t) && (clean ==> CleanAccepts(b, steps));
    PathOn(b, steps, step, u);
    if clean {
      CleanOn(b, steps, step, u);
    }
    assert FromTo(b + [u], s, u);
  }

  lemma NotClean(s: State, t: State)
    requires Leads(s, t, true)
    ensures Leads(s, t, false)
  {
  }

  // ----- snapshots of a small server -----

  const Z: T.Clock := T.Clock(0, 0)

  /** One node, one timer, two groups. */
  function Snap(timers: T.State, registry: map<string, nat>, t: Session, home: Option<nat>,
                list0: seq<nat>, list1: seq<nat>, pool: seq<nat>, recycleQueue: seq<nat>, nextGroup: nat,
                q0: seq<Envelope>, q1: seq<Envelope>, w0: Thread, w1: Thread, accepting: Thread): State
  {
    State(
      S.State(World(timers, registry, 0), [t], [home], [Ring(list0, None), Ring(list1, None)], pool,
              recycleQueue, nextGroup),
      [q0, q1], [w0, w1], accepting)
  }

  function Slot(tag: nat, times: nat, status: T.Status, gen: nat): T.Slot {
    T.Slot(0, 0, tag, times, Z, status, gen)
  }

  function Timers(slot: T.Slot, free: seq<nat>, setting: set<nat>, pending: set<T.Ticket>, addQueue: seq<nat>): T.State {
    T.State([slot], free, setting, pending, addQueue, [], [], None, T.BeforeDrain, [])
  }

  function For0(msg: Msg): Envelope {
    Envelope(0, msg)
  }

  const UNUSED: T.State := Timers(Slot(0, 0, T.Nothing, 0), [0], {}, {}, [])

  const START: State := Snap(UNUSED, map[], FRESH, None, [], [], [0], [], 0, [], [], Rest, Rest, Rest)

  const CONNECTED: Session := FRESH.(status := Connected)
  const WAITING: Session := CONNECTED.(keepLive := Some(0))
  const ENDED: Session := FRESH.(status := Over)

  lemma StartInitial()
    ensures Initial(START)
  {
  }

  // ----- the node is accepted -----

  /** Being attached to group g. */
  function InAttach(timers: T.State, t: Session, g: nat, q0: seq<Envelope>, pc: Pc): State {
    Snap(timers, map[], t, Some(g), [], [], [], [], g + 1, q0, [], Rest, Rest, Running(0, pc))
  }

  /** Attached to group 0 and waiting for a handshake. */
  function Expecting(timers: T.State, q0: seq<Envelope>): State {
    Snap(timers, map[], WAITING, Some(0), [0], [], [], [], 1, q0, [], Rest, Rest, Rest)
  }

  /** Its timer is waiting to be added. */
  const ASKED: T.State := Timers(Slot(1, 1, T.ToBeAdd, 1), [], {}, {}, [0])

  const ALLOCATED: T.State := Timers(Slot(0, 0, T.Nothing, 0), [], {0}, {}, [])

  const FILLED: T.State := Timers(Slot(1, 1, T.ToBeAdd, 1), [], {}, {T.Ticket(0, 1)}, [])

  lemma AcceptsNode()
    ensures Goes(START, Accept, InAttach(UNUSED, CONNECTED, 0, [], Arming(Handshake, Allocating)))
  {
    Advances(START, Accept, InAttach(UNUSED, CONNECTED, 0, [], Arming(Handshake, Allocating)));
  }

  lemma AllocatesTimer()
    ensures Goes(InAttach(UNUSED, CONNECTED, 0, [], Arming(Handshake, Allocating)), Attach(Z),
                 InAttach(ALLOCATED, CONNECTED, 0, [], Arming(Handshake, Filling(0))))
  {
    Advances(InAttach(UNUSED, CONNECTED, 0, [], Arming(Handshake, Allocating)), Attach(Z),
             InAttach(ALLOCATED, CONNECTED, 0, [], Arming(Handshake, Filling(0))));
  }

  lemma FillsTimer()
    ensures Goes(InAttach(ALLOCATED, CONNECTED, 0, [], Arming(Handshake, Filling(0))), Attach(Z),
                 InAttach(FILLED, CONNECTED, 0, [], Arming(Handshake, Enqueueing(T.Ticket(0, 1)))))
  {
    Advances(InAttach(ALLOCATED, CONNECTED, 0, [], Arming(Handshake, Filling(0))), Attach(Z),
             InAttach(FILLED, CONNECTED, 0, [], Arming(Handshake, Enqueueing(T.Ticket(0, 1)))));
  }

  lemma EnqueuesTimer()
    ensures Goes(InAttach(FILLED, CONNECTED, 0, [], Arming(Handshake, Enqueueing(T.Ticket(0, 1)))), Attach(Z),
                 InAttach(ASKED, CONNECTED, 0, [], Arming(Handshake, Recording(0))))
  {
    Advances(InAttach(FILLED, CONNECTED, 0, [], Arming(Handshake, Enqueueing(T.Ticket(0, 1)))), Attach(Z),
             InAttach(ASKED, CONNECTED, 0, [], Arming(Handshake, Recording(0))));
  }

  lemma RecordsTimer()
    ensures Goes(InAttach(ASKED, CONNECTED, 0, [], Arming(Handshake, Recording(0))), Attach(Z),
                 InAttach(ASKED, WAITING, 0, [], Joining))
  {
    Advances(InAttach(ASKED, CONNECTED, 0, [], Arming(Handshake, Recording(0))), Attach(Z),
             InAttach(ASKED, WAITING, 0, [], Joining));
  }

  lemma EndsAttach()
    ensures Goes(InAttach(ASKED, WAITING, 0, [], Joining), Attach(Z), Expecting(ASKED, []))
  {
    var s := InAttach(ASKED, WAITING, 0, [], Joining);
    JoinsGroup(s, 0);
    var none: seq<nat> := [];
    assert none + [0] == [0];
    assert s.base.groups[0 := Ring(none + [0], None)] == [Ring([0], None), Ring([], None)];
  }

  /** The last step of attach. */
  lemma JoinsGroup(s: State, g: nat)
    requires s.accepting == Running(0, Joining) && |s.base.sessions| == 1 == |s.base.home|
    requires s.base.home[0] == Some(g) && g < |s.base.groups| && !Busy(s.base.sessions[0].pc)
    requires s.base.sessions[0].pc == Idle
    ensures Goes(s, Attach(Z),
      s.(accepting := Rest,
         base := s.base.(groups := s.base.groups[g := s.base.groups[g].(list := s.base.groups[g].list + [0])])))
  {
    var f := InFront(s, 0, Joining);
    assert S.Called(f, 0, Z).sessions == s.base.sessions;
  }

  lemma StartUnreferenced()
    ensures START.base.pool == [0] && Unreferenced(START, 0)
  {
  }

  lemma Joins()
    ensures Leads(START, Expecting(ASKED, []), true)
  {
    hide *;
    StartUnreferenced();
    var s1 := InAttach(UNUSED, CONNECTED, 0, [], Arming(Handshake, Allocating));
    var s2 := InAttach(ALLOCATED, CONNECTED, 0, [], Arming(Handshake, Filling(0)));
    var s3 := InAttach(FILLED, CONNECTED, 0, [], Arming(Handshake, Enqueueing(T.Ticket(0, 1))));
    var s4 := InAttach(ASKED, CONNECTED, 0, [], Arming(Handshake, Recording(0)));
    var s5 := InAttach(ASKED, WAITING, 0, [], Joining);
    LeadsNowhere(START);
    AcceptsNode();
    LeadsOn(START, START, Accept, s1, true);
    AllocatesTimer();
    LeadsOn(START, s1, Attach(Z), s2, true);
    FillsTimer();
    LeadsOn(START, s2, Attach(Z), s3, true);
    EnqueuesTimer();
    LeadsOn(START, s3, Attach(Z), s4, true);
    RecordsTimer();
    LeadsOn(START, s4, Attach(Z), s5, true);
    EndsAttach();
    LeadsOn(START, s5, Attach(Z), Expecting(ASKED, []), true);
  }

  // ----- its connection is ended by a message -----

  /** Its timer is in the list; killed there; killed before it got there. */
  const LISTED: T.State := Timers(Slot(1, 1, T.Added, 1), [], {}, {}, []).(list := [0], phase := T.BeforeVisit)
  const DOOMED: T.State :=
    LISTED.(slots := [Slot(1, 1, T.ToBeDel, 1)], delQueue := [T.Ticket(0, 1)])
  const SPARED: T.State := Timers(Slot(1, 1, T.Deleted, 1), [0], {}, {}, [0])

  lemma Drains()
    ensures Goes(Expecting(ASKED, []), TimerDrain, Expecting(LISTED, []))
  {
    var a := T.AddFront(ASKED);
    assert a == ASKED.(slots := [Slot(1, 1, T.Added, 1)], addQueue := [], list := [0]);
    assert T.AddAll(ASKED) == T.AddAll(a) == a;
    assert T.DelAll(a) == a;
  }

  lemma KilledListed()
    ensures T.Killed(LISTED, 0) == DOOMED && T.Killed(ASKED, 0) == SPARED
  {
    var none: seq<nat> := [];
    assert none + [0] == [0];
  }

  lemma Receives(timers: T.State, q0: seq<Envelope>, msg: Msg)
    requires !msg.OnTimer? && (msg.PushAck? ==> msg.number != 0)
    ensures Goes(Expecting(timers, q0), Receive(0, msg, true), Expecting(timers, q0 + [For0(msg)]))
  {
    Advances(Expecting(timers, q0), Receive(0, msg, true), Expecting(timers, q0 + [For0(msg)]));
  }

  /** In the hand of worker 0. */
  function InHand(timers: T.State, q0: seq<Envelope>, msg: Msg): State {
    Expecting(timers, q0).(workers := [Holding(0, msg), Rest])
  }

  lemma Takes(timers: T.State, q0: seq<Envelope>, msg: Msg)
    ensures Goes(Expecting(timers, [For0(msg)] + q0), Take(0), InHand(timers, q0, msg))
  {
    assert ([For0(msg)] + q0)[1..] == q0;
    Advances(Expecting(timers, [For0(msg)] + q0), Take(0), InHand(timers, q0, msg));
  }

  /** Ended, with worker 0 in __onStop. */
  function Closing(timers: T.State, q0: seq<Envelope>, pc: Pc): State {
    Snap(timers, map[], ENDED, Some(0), [0], [], [], [], 1, q0, [], Running(0, pc), Rest, Rest)
  }

  lemma EndsSession(timers: T.State, q0: seq<Envelope>)
    ensures Goes(InHand(timers, q0, Unknown), Dispatch(0), Closing(timers, q0, Stopping([0], true)))
  {
    var none: map<nat, nat> := map[];
    assert MapIds(none) == [];
    assert Handled(WAITING, Unknown).pc == Stopping([0], true);
    Advances(InHand(timers, q0, Unknown), Dispatch(0), Closing(timers, q0, Stopping([0], true)));
  }

  lemma Kills(timers: T.State, q0: seq<Envelope>)
    requires T.Enabled(timers, T.Kill(0))
    ensures Goes(Closing(timers, q0, Stopping([0], true)), Call(0, Z),
                 Closing(T.Killed(timers, 0), q0, Stopping([], true)))
  {
    var ids: seq<nat> := [0];
    assert ids[1..] == [];
    Advances(Closing(timers, q0, Stopping([0], true)), Call(0, Z),
             Closing(T.Killed(timers, 0), q0, Stopping([], true)));
  }

  /** A call of worker 0 after which its handler goes on, or is done. */
  lemma Calls(s: State, pc: Pc, u: Session, world: World)
    requires |s.workers| > 0 && s.workers[0] == Running(0, pc) && |s.base.sessions| == 1 && Busy(pc)
    requires S.Asserted(InFront(s, 0, pc), S.Call(0, Z))
    requires Micro(0, s.base.sessions[0].(pc := pc), s.base.world, Z) == Outcome(u, world, Quiet)
    ensures Goes(s, Call(0, Z),
      s.(workers := s.workers[0 := if Busy(u.pc) then Running(0, u.pc)
                                   else if pc.Arming? && pc.use.Ack? && u.pc == Idle then Checking(0) else Rest],
         base := s.base.(sessions := [if Busy(u.pc) then u.(pc := s.base.sessions[0].pc) else u], world := world)))
  {
    hide Micro;
    assert S.Called(InFront(s, 0, pc), 0, Z).sessions == [u];
    Advances(s, Call(0, Z),
      s.(workers := s.workers[0 := if Busy(u.pc) then Running(0, u.pc)
                               else if pc.Arming? && pc.use.Ack? && u.pc == Idle then Checking(0) else Rest],
      base := s.base.(sessions := [if Busy(u.pc) then u.(pc := s.base.sessions[0].pc) else u], world := world)));
  }

  lemma Leaves(timers: T.State, q0: seq<Envelope>)
    ensures Goes(Closing(timers, q0, Stopping([], true)), Call(0, Z), Closing(timers, q0, Leaving(true)))
  {
    Calls(Closing(timers, q0, Stopping([], true)), Stopping([], true), ENDED.(pc := Leaving(true)), World(timers, map[], 0));
    Advances(Closing(timers, q0, Stopping([], true)), Call(0, Z), Closing(timers, q0, Leaving(true)));
  }

  lemma Clears(timers: T.State, q0: seq<Envelope>)
    ensures Goes(Closing(timers, q0, Leaving(true)), Call(0, Z), Closing(timers, q0, Recycling))
  {
    Calls(Closing(timers, q0, Leaving(true)), Leaving(true), ENDED.(pc := Recycling), World(timers, map[], 0));
    Advances(Closing(timers, q0, Leaving(true)), Call(0, Z), Closing(timers, q0, Recycling));
  }

  /** On the recycle queue. */
  function Closed(timers: T.State, q0: seq<Envelope>): State {
    Snap(timers, map[], ENDED, Some(0), [0], [], [], [0], 1, q0, [], Rest, Rest, Rest)
  }

  lemma Queues(timers: T.State, q0: seq<Envelope>)
    ensures Goes(Closing(timers, q0, Recycling), Call(0, Z), Closed(timers, q0))
  {
    QueuesUp(Closing(timers, q0, Recycling));
    var none: seq<nat> := [];
    assert none + [0] == [0];
    assert Closing(timers, q0, Recycling).workers[0 := Rest] == [Rest, Rest];
  }

  /** The recycleNode call of worker 0. */
  lemma QueuesUp(s: State)
    requires |s.workers| > 0 && s.workers[0] == Running(0, Recycling)
    requires |s.base.sessions| == 1 && s.base.sessions[0].status == Over
    ensures Goes(s, Call(0, Z),
      s.(workers := s.workers[0 := Rest],
         base := s.base.(sessions := [s.base.sessions[0].(pc := Idle)], recycleQueue := s.base.recycleQueue + [0])))
  {
    assert S.Called(InFront(s, 0, Recycling), 0, Z).sessions == [s.base.sessions[0].(pc := Idle)];
  }

  /** In the pool again. */
  function Freed(timers: T.State, q0: seq<Envelope>): State {
    Snap(timers, map[], FRESH, None, [], [], [0], [], 1, q0, [], Rest, Rest, Rest)
  }

  lemma WithoutOnly()
    ensures Apply(Ring([0], None), Remove(0)) == Ring([], None)
  {
    var one: seq<nat> := [0];
    assert Without(one, 0) == [];
  }

  /** The recycle loop takes node 0. */
  lemma RecyclesNode(s: State, g: nat, ring: Ring<nat>)
    requires s.accepting == Rest && s.base.recycleQueue == [0] && s.base.pool == []
    requires |s.base.sessions| == 1 && s.base.sessions[0] == ENDED && s.base.home == [Some(g)]
    requires g < |s.base.groups| && ValidRing(s.base.groups[g]) && Apply(s.base.groups[g], Remove(0)) == ring
    ensures Goes(s, Recycle,
      s.(base := s.base.(sessions := [FRESH], home := [None], groups := s.base.groups[g := ring],
                         recycleQueue := [], pool := [0])))
  {
    var none: seq<nat>, one: seq<nat> := [], [0];
    assert none + [0] == [0] && one[1..] == none;
    assert S.Recycled(s.base).sessions == [FRESH] && S.Recycled(s.base).home == [None];
  }

  lemma Frees(timers: T.State, q0: seq<Envelope>)
    ensures Goes(Closed(timers, q0), Recycle, Freed(timers, q0))
  {
    var s := Closed(timers, q0);
    WithoutOnly();
    RecyclesNode(s, 0, Ring([], None));
    assert s.base.groups[0 := Ring([], None)] == [Ring([], None), Ring([], None)];
  }

  lemma Closes(timers: T.State, q0: seq<Envelope>)
    requires Leads(START, Expecting(timers, [For0(Unknown)] + q0), true)
    requires 0 < |timers.slots| && T.Enabled(timers, T.Kill(0))
    ensures Leads(START, Freed(T.Killed(timers, 0), q0), true)
  {
    hide *;
    var killed := T.Killed(timers, 0);
    Takes(timers, q0, Unknown);
    LeadsOn(START, Expecting(timers, [For0(Unknown)] + q0), Take(0), InHand(timers, q0, Unknown), true);
    EndsSession(timers, q0);
    LeadsOn(START, InHand(timers, q0, Unknown), Dispatch(0), Closing(timers, q0, Stopping([0], true)), true);
    Kills(timers, q0);
    LeadsOn(START, Closing(timers, q0, Stopping([0], true)), Call(0, Z), Closing(killed, q0, Stopping([], true)), true);
    Leaves(killed, q0);
    LeadsOn(START, Closing(killed, q0, Stopping([], true)), Call(0, Z), Closing(killed, q0, Leaving(true)), true);
    Clears(killed, q0);
    LeadsOn(START, Closing(killed, q0, Leaving(true)), Call(0, Z), Closing(killed, q0, Recycling), true);
    Queues(killed, q0);
    LeadsOn(START, Closing(killed, q0, Recycling), Call(0, Z), Closed(killed, q0), true);
    Frees(killed, q0);
    LeadsOn(START, Closed(killed, q0), Recycle, Freed(killed, q0), true);
  }

  /** One message that ends the session, and another one behind it or none. */
  lemma ReceivesTwo(timers: T.State, msg: Option<Msg>)
    requires Leads(START, Expecting(timers, []), true)
    requires msg.Some? ==> !msg.value.OnTimer? && (msg.value.PushAck? ==> msg.value.number != 0)
    ensures Leads(START, Expecting(timers, [For0(Unknown)] + Behind(msg)), true)
  {
    hide Leads, Goes;
    var none: seq<Envelope> := [];
    Receives(timers, none, Unknown);
    assert none + [For0(Unknown)] == [For0(Unknown)] == [For0(Unknown)] + none;
    LeadsOn(START, Expecting(timers, none), Receive(0, Unknown, true), Expecting(timers, [For0(Unknown)]), true);
    if msg.Some? {
      Receives(timers, [For0(Unknown)], msg.value);
      LeadsOn(START, Expecting(timers, [For0(Unknown)]), Receive(0, msg.value, true),
              Expecting(timers, [For0(Unknown)] + [For0(msg.value)]), true);
    }
  }

  function Behind(msg: Option<Msg>): seq<Envelope> {
    if msg.Some? then [For0(msg.value)] else []
  }

  /** The node is back in the pool, its killed timer still in the list. */
  lemma FreedDoomed(msg: Option<Msg>)
    requires msg.Some? ==> !msg.value.OnTimer? && (msg.value.PushAck? ==> msg.value.number != 0)
    ensures Leads(START, Freed(DOOMED, Behind(msg)), true)
  {
    hide Leads, Goes;
    Joins();
    Drains();
    LeadsOn(START, Expecting(ASKED, []), TimerDrain, Expecting(LISTED, []), true);
    ReceivesTwo(LISTED, msg);
    KilledListed();
    Closes(LISTED, Behind(msg));
  }

  // ----- a timer fires for a session that has no group any more -----

  /** Even with clean accepts, the group of a killed timer's session can be missing when the timer
      fires: the node has been recycled between the drain and the visit. */
  lemma GroupMissing()
    ensures Initial(START) && Leads(START, Freed(DOOMED, []), true)
    ensures var s := Freed(DOOMED, []);
      && Possible(s, TimerVisit(Z, true)) && !Asserted(s, TimerVisit(Z, true))
  {
    hide Leads, Initial;
    StartInitial();
    FreedDoomed(None);
    assert Freed(DOOMED, []).base.world.timers.slots[0].status == T.ToBeDel;
  }

  // ----- a node whose attach fails -----

  /** Its attach to group 1 has failed. */
  function Stuck(q0: seq<Envelope>): State {
    Snap(DOOMED, map[], CONNECTED.(pc := Stranded), Some(1), [], [], [], [], 2, q0, [], Rest, Rest, Rest)
  }

  lemma AcceptsAgain(timers: T.State, q0: seq<Envelope>)
    ensures Goes(Freed(timers, q0), Accept, InAttach(timers, CONNECTED, 1, q0, Arming(Handshake, Allocating)))
  {
    var one: seq<nat> := [0];
    assert one[1..] == [];
    Advances(Freed(timers, q0), Accept, InAttach(timers, CONNECTED, 1, q0, Arming(Handshake, Allocating)));
  }

  lemma NoTimerLeft(q0: seq<Envelope>)
    ensures Goes(InAttach(DOOMED, CONNECTED, 1, q0, Arming(Handshake, Allocating)), Attach(Z), Stuck(q0))
  {
    Advances(InAttach(DOOMED, CONNECTED, 1, q0, Arming(Handshake, Allocating)), Attach(Z), Stuck(q0));
  }

  lemma Sticks(msg: Option<Msg>, clean: bool)
    requires msg.Some? ==> !msg.value.OnTimer? && (msg.value.PushAck? ==> msg.value.number != 0)
    requires clean ==> msg == None
    ensures Leads(START, Stuck(Behind(msg)), clean)
  {
    hide Leads, Goes;
    var q0 := Behind(msg);
    FreedDoomed(msg);
    if !clean {
      NotClean(START, Freed(DOOMED, q0));
    }
    AcceptsAgain(DOOMED, q0);
    LeadsOn(START, Freed(DOOMED, q0), Accept, InAttach(DOOMED, CONNECTED, 1, q0, Arming(Handshake, Allocating)), clean);
    NoTimerLeft(q0);
    LeadsOn(START, InAttach(DOOMED, CONNECTED, 1, q0, Arming(Handshake, Allocating)), Attach(Z), Stuck(q0), clean);
  }

  /** An attach can fail in a run with clean accepts; then the node is lost (Lost.CleanlyLost). */
  lemma LosesNode()
    ensures Initial(START) && Leads(START, Stuck([]), true)
    ensures Waiting(Stuck([]), 0) && Dropped(Stuck([]), 0) && !Revivable(Stuck([]), 0)
  {
    hide Leads, Initial;
    StartInitial();
    Sticks(None, true);
    assert Line(Stuck([]), 0) == [] && Line(Stuck([]), 1) == [];
  }

  /** Stuck, and ended by worker 0. */
  function Unsticking(pc: Pc): State {
    Snap(DOOMED, map[], ENDED.(pc := Stranded), Some(1), [], [], [], [], 2, [], [], Running(0, pc), Rest, Rest)
  }

  function Unstuck(): State {
    Snap(DOOMED, map[], ENDED, Some(1), [], [], [], [0], 2, [], [], Rest, Rest, Rest)
  }

  function Again(): State {
    Snap(DOOMED, map[], FRESH, None, [], [], [0], [], 2, [], [], Rest, Rest, Rest)
  }

  lemma TakesStale(msg: Msg)
    ensures Goes(Stuck([For0(msg)]), Take(0), Stuck([]).(workers := [Holding(0, msg), Rest]))
  {
    var one: seq<Envelope>, none: seq<Envelope> := [For0(msg)], [];
    assert one[1..] == none;
    assert Stuck(one).queues[0 := none] == [none, none];
    Advances(Stuck([For0(msg)]), Take(0), Stuck([]).(workers := [Holding(0, msg), Rest]));
  }

  lemma EndsStuck()
    ensures Goes(Stuck([]).(workers := [Holding(0, Unknown), Rest]), Dispatch(0), Unsticking(Stopping([], true)))
  {
    var none: map<nat, nat> := map[];
    assert MapIds(none) == [];
    assert Handled(CONNECTED.(pc := Stranded), Unknown).pc == Stopping([], true);
    Advances(Stuck([]).(workers := [Holding(0, Unknown), Rest]), Dispatch(0), Unsticking(Stopping([], true)));
  }

  lemma StopsStuck()
    ensures Goes(Unsticking(Stopping([], true)), Call(0, Z), Unsticking(Leaving(true)))
  {
    Calls(Unsticking(Stopping([], true)), Stopping([], true), ENDED.(pc := Leaving(true)), World(DOOMED, map[], 0));
    Advances(Unsticking(Stopping([], true)), Call(0, Z), Unsticking(Leaving(true)));
  }

  lemma ClearsStuck()
    ensures Goes(Unsticking(Leaving(true)), Call(0, Z), Unsticking(Recycling))
  {
    Calls(Unsticking(Leaving(true)), Leaving(true), ENDED.(pc := Recycling), World(DOOMED, map[], 0));
    Advances(Unsticking(Leaving(true)), Call(0, Z), Unsticking(Recycling));
  }

  lemma QueuesStuck()
    ensures Goes(Unsticking(Recycling), Call(0, Z), Unstuck())
  {
    QueuesUp(Unsticking(Recycling));
    var none: seq<nat> := [];
    assert none + [0] == [0];
    assert Unsticking(Recycling).workers[0 := Rest] == [Rest, Rest];
  }

  lemma RecyclesStuck()
    ensures Goes(Unstuck(), Recycle, Again())
  {
    var s := Unstuck();
    RecyclesNode(s, 1, Ring([], None));
    assert s.base.groups[1 := Ring([], None)] == [Ring([], None), Ring([], None)];
  }

  /** The rest of __onStop, and the recycle loop. */
  lemma UnsticksFrom(s: State)
    requires Leads(s, Unsticking(Stopping([], true)), false)
    ensures Leads(s, Again(), false)
  {
    hide *;
    StopsStuck();
    LeadsOn(s, Unsticking(Stopping([], true)), Call(0, Z), Unsticking(Leaving(true)), false);
    ClearsStuck();
    LeadsOn(s, Unsticking(Leaving(true)), Call(0, Z), Unsticking(Recycling), false);
    QueuesStuck();
    LeadsOn(s, Unsticking(Recycling), Call(0, Z), Unstuck(), false);
    RecyclesStuck();
    LeadsOn(s, Unstuck(), Recycle, Again(), false);
  }

  /** A message from the last connection gets a stuck node back into the pool. */
  lemma StuckNodeReturns()
    ensures Initial(START) && Leads(START, Stuck([For0(Unknown)]), false)
    ensures Waiting(Stuck([For0(Unknown)]), 0) && Opens(Stuck([For0(Unknown)]), 0, 0)
    ensures Leads(Stuck([For0(Unknown)]), Again(), false) && 0 in Again().base.pool
  {
    hide Leads, Goes, Initial;
    StartInitial();
    var s := Stuck([For0(Unknown)]);
    Sticks(Some(Unknown), false);
    assert FirstWake(Line(s, 0), 0, 0);
    LeadsNowhere(s);
    NotClean(s, s);
    TakesStale(Unknown);
    LeadsOn(s, s, Take(0), Stuck([]).(workers := [Holding(0, Unknown), Rest]), false);
    EndsStuck();
    LeadsOn(s, Stuck([]).(workers := [Holding(0, Unknown), Rest]), Dispatch(0), Unsticking(Stopping([], true)), false);
    UnsticksFrom(s);
  }

  const HELLO: Hello := Hello("s", false, 1, 0, false)

  /** Stuck, with worker 0 in __onStart. */
  function Greeted(): State {
    Snap(DOOMED, map[], CONNECTED.(pc := Stranded), Some(1), [], [], [], [], 2, [], [],
         Running(0, Greeting(HELLO)), Rest, Rest)
  }

  lemma GreetsStuck()
    ensures Goes(Stuck([]).(workers := [Holding(0, HandShake(HELLO)), Rest]), Dispatch(0), Greeted())
  {
    Advances(Stuck([]).(workers := [Holding(0, HandShake(HELLO)), Rest]), Dispatch(0), Greeted());
  }

  /** A handshake from the last connection meets a session without a timer: __onStart's assert fails, and
      the node is lost. */
  lemma StuckHandshakeFails()
    ensures Initial(START) && Leads(START, Greeted(), false)
    ensures Waiting(Stuck([For0(HandShake(HELLO))]), 0) && !Revivable(Stuck([For0(HandShake(HELLO))]), 0)
    ensures Possible(Greeted(), Call(0, Z)) && !Asserted(Greeted(), Call(0, Z))
  {
    hide Leads, Goes, Initial;
    StartInitial();
    HandshakeShuts();
    Sticks(Some(HandShake(HELLO)), false);
    TakesStale(HandShake(HELLO));
    LeadsOn(START, Stuck([For0(HandShake(HELLO))]), Take(0), Stuck([]).(workers := [Holding(0, HandShake(HELLO)), Rest]), false);
    GreetsStuck();
    LeadsOn(START, Stuck([]).(workers := [Holding(0, HandShake(HELLO)), Rest]), Dispatch(0), Greeted(), false);
  }

  lemma HandshakeShuts()
    ensures Waiting(Stuck([For0(HandShake(HELLO))]), 0) && !Revivable(Stuck([For0(HandShake(HELLO))]), 0)
  {
    var s := Stuck([For0(HandShake(HELLO))]);
    assert Line(s, 0) == [For0(HandShake(HELLO))] && Line(s, 1) == [];
  }

  /** In the pool, with a message from the last connection in worker 0's hand. */
  function Spent(w0: Thread): State {
    Snap(DOOMED, map[], FRESH, None, [], [], [0], [], 1, [], [], w0, Rest, Rest)
  }

  /** Inside setTimer of onAttach, with what worker 0 is at. */
  function Trying(t: Session, w0: Thread): State {
    Snap(DOOMED, map[], t, Some(1), [], [], [], [], 2, [], [], w0, Rest, Running(0, Arming(Handshake, Allocating)))
  }

  lemma TakesLast()
    ensures Goes(Freed(DOOMED, [For0(Unknown)]), Take(0), Spent(Holding(0, Unknown)))
  {
    var one: seq<Envelope>, none: seq<Envelope> := [For0(Unknown)], [];
    assert one[1..] == none;
    assert [one, none][0 := none] == [none, none];
    Advances(Freed(DOOMED, [For0(Unknown)]), Take(0), Spent(Holding(0, Unknown)));
  }

  lemma AcceptsSpent(w0: Thread)
    ensures Goes(Spent(w0), Accept, Trying(CONNECTED, w0))
  {
    var one: seq<nat> := [0];
    assert one[1..] == [];
    Advances(Spent(w0), Accept, Trying(CONNECTED, w0));
  }

  lemma EndsDuringAttach()
    ensures Goes(Trying(CONNECTED, Holding(0, Unknown)), Dispatch(0), Trying(ENDED, Running(0, Stopping([], true))))
  {
    var none: map<nat, nat> := map[];
    assert MapIds(none) == [];
    assert Handled(CONNECTED, Unknown).pc == Stopping([], true);
    Advances(Trying(CONNECTED, Holding(0, Unknown)), Dispatch(0), Trying(ENDED, Running(0, Stopping([], true))));
  }

  lemma FailsWhileEnding()
    ensures Goes(Trying(ENDED, Running(0, Stopping([], true))), Attach(Z), Unsticking(Stopping([], true)))
  {
    Advances(Trying(ENDED, Running(0, Stopping([], true))), Attach(Z), Unsticking(Stopping([], true)));
  }

  /** Nothing is on the way when the attach fails, but a worker is ending the session already: the node
      comes back. */
  lemma EndedNodeReturns()
    ensures Initial(START) && Leads(START, Unsticking(Stopping([], true)), false)
    ensures var s := Unsticking(Stopping([], true)); Line(s, 0) == [] == Line(s, 1) && EndedBy(s, 0, 0) && Dropped(s, 0)
    ensures Leads(Unsticking(Stopping([], true)), Again(), false) && 0 in Again().base.pool
  {
    hide Leads, Goes, Initial;
    StartInitial();
    FreedDoomed(Some(Unknown));
    NotClean(START, Freed(DOOMED, [For0(Unknown)]));
    TakesLast();
    LeadsOn(START, Freed(DOOMED, [For0(Unknown)]), Take(0), Spent(Holding(0, Unknown)), false);
    AcceptsSpent(Holding(0, Unknown));
    LeadsOn(START, Spent(Holding(0, Unknown)), Accept, Trying(CONNECTED, Holding(0, Unknown)), false);
    EndsDuringAttach();
    LeadsOn(START, Trying(CONNECTED, Holding(0, Unknown)), Dispatch(0), Trying(ENDED, Running(0, Stopping([], true))), false);
    FailsWhileEnding();
    LeadsOn(START, Trying(ENDED, Running(0, Stopping([], true))), Attach(Z), Unsticking(Stopping([], true)), false);
    LeadsNowhere(Unsticking(Stopping([], true)));
    NotClean(Unsticking(Stopping([], true)), Unsticking(Stopping([], true)));
    UnsticksFrom(Unsticking(Stopping([], true)));
  }

  // ----- two workers in one session -----

  const ALLOCATED2: T.State := Timers(Slot(1, 1, T.Deleted, 1), [], {0}, {}, [0])
  const FILLED2: T.State := Timers(Slot(1, 1, T.ToBeAdd, 2), [], {}, {T.Ticket(0, 2)}, [0])
  const ASKED2: T.State := Timers(Slot(1, 1, T.ToBeAdd, 2), [], {}, {}, [0, 0])
  const SPARED2: T.State := Timers(Slot(1, 1, T.Deleted, 2), [0], {}, {}, [0, 0])

  lemma AllocatesAgain(q0: seq<Envelope>)
    ensures Goes(InAttach(SPARED, CONNECTED, 1, q0, Arming(Handshake, Allocating)), Attach(Z),
                 InAttach(ALLOCATED2, CONNECTED, 1, q0, Arming(Handshake, Filling(0))))
  {
    var one: seq<nat> := [0];
    assert one[1..] == [];
    Advances(InAttach(SPARED, CONNECTED, 1, q0, Arming(Handshake, Allocating)), Attach(Z),
             InAttach(ALLOCATED2, CONNECTED, 1, q0, Arming(Handshake, Filling(0))));
  }

  lemma FillsAgain(q0: seq<Envelope>)
    ensures Goes(InAttach(ALLOCATED2, CONNECTED, 1, q0, Arming(Handshake, Filling(0))), Attach(Z),
                 InAttach(FILLED2, CONNECTED, 1, q0, Arming(Handshake, Enqueueing(T.Ticket(0, 2)))))
  {
    Advances(InAttach(ALLOCATED2, CONNECTED, 1, q0, Arming(Handshake, Filling(0))), Attach(Z),
             InAttach(FILLED2, CONNECTED, 1, q0, Arming(Handshake, Enqueueing(T.Ticket(0, 2)))));
  }

  lemma EnqueuesAgain(q0: seq<Envelope>)
    ensures Goes(InAttach(FILLED2, CONNECTED, 1, q0, Arming(Handshake, Enqueueing(T.Ticket(0, 2)))), Attach(Z),
                 InAttach(ASKED2, CONNECTED, 1, q0, Arming(Handshake, Recording(0))))
  {
    Advances(InAttach(FILLED2, CONNECTED, 1, q0, Arming(Handshake, Enqueueing(T.Ticket(0, 2)))), Attach(Z),
             InAttach(ASKED2, CONNECTED, 1, q0, Arming(Handshake, Recording(0))));
  }

  lemma RecordsAgain(q0: seq<Envelope>)
    ensures Goes(InAttach(ASKED2, CONNECTED, 1, q0, Arming(Handshake, Recording(0))), Attach(Z),
                 InAttach(ASKED2, WAITING, 1, q0, Joining))
  {
    Advances(InAttach(ASKED2, CONNECTED, 1, q0, Arming(Handshake, Recording(0))), Attach(Z),
             InAttach(ASKED2, WAITING, 1, q0, Joining));
  }

  /** Attached to group 1, with what the workers are at. */
  function Second(timers: T.State, t: Session, q0: seq<Envelope>, q1: seq<Envelope>, w0: Thread, w1: Thread): State {
    Snap(timers, map[], t, Some(1), [], [0], [], [], 2, q0, q1, w0, w1, Rest)
  }

  lemma JoinsSecond(q0: seq<Envelope>)
    ensures Goes(InAttach(ASKED2, WAITING, 1, q0, Joining), Attach(Z), Second(ASKED2, WAITING, q0, [], Rest, Rest))
  {
    var s := InAttach(ASKED2, WAITING, 1, q0, Joining);
    JoinsGroup(s, 1);
    var none: seq<nat> := [];
    assert none + [0] == [0];
    assert s.base.groups[1 := Ring(none + [0], None)] == [Ring([], None), Ring([0], None)];
  }

  const STALE: seq<Envelope> := [For0(HandShake(HELLO))]

  lemma JoinsAgain()
    ensures Leads(START, Second(ASKED2, WAITING, STALE, [], Rest, Rest), false)
  {
    hide Leads, Goes;
    Joins();
    ReceivesTwo(ASKED, Some(HandShake(HELLO)));
    KilledListed();
    Closes(ASKED, STALE);
    NotClean(START, Freed(SPARED, STALE));
    var s1 := InAttach(SPARED, CONNECTED, 1, STALE, Arming(Handshake, Allocating));
    var s2 := InAttach(ALLOCATED2, CONNECTED, 1, STALE, Arming(Handshake, Filling(0)));
    var s3 := InAttach(FILLED2, CONNECTED, 1, STALE, Arming(Handshake, Enqueueing(T.Ticket(0, 2))));
    var s4 := InAttach(ASKED2, CONNECTED, 1, STALE, Arming(Handshake, Recording(0)));
    var s5 := InAttach(ASKED2, WAITING, 1, STALE, Joining);
    AcceptsAgain(SPARED, STALE);
    LeadsOn(START, Freed(SPARED, STALE), Accept, s1, false);
    AllocatesAgain(STALE);
    LeadsOn(START, s1, Attach(Z), s2, false);
    FillsAgain(STALE);
    LeadsOn(START, s2, Attach(Z), s3, false);
    EnqueuesAgain(STALE);
    LeadsOn(START, s3, Attach(Z), s4, false);
    RecordsAgain(STALE);
    LeadsOn(START, s4, Attach(Z), s5, false);
    JoinsSecond(STALE);
    LeadsOn(START, s5, Attach(Z), Second(ASKED2, WAITING, STALE, [], Rest, Rest), false);
  }

  const REGISTERING: Session := CONNECTED.(sid := "s", account := 1)

  lemma ReceivesUnknown()
    ensures Goes(Second(ASKED2, WAITING, STALE, [], Rest, Rest), Receive(0, Unknown, true),
                 Second(ASKED2, WAITING, STALE, [For0(Unknown)], Rest, Rest))
  {
    var none: seq<Envelope> := [];
    assert none + [For0(Unknown)] == [For0(Unknown)];
    assert [STALE, none][1 := [For0(Unknown)]] == [STALE, [For0(Unknown)]];
  }

  lemma TakesHandshake(q1: seq<Envelope>)
    ensures Goes(Second(ASKED2, WAITING, STALE, q1, Rest, Rest), Take(0),
                 Second(ASKED2, WAITING, [], q1, Holding(0, HandShake(HELLO)), Rest))
  {
    assert STALE[1..] == [];
    assert [STALE, q1][0 := []] == [[], q1];
    Advances(Second(ASKED2, WAITING, STALE, q1, Rest, Rest), Take(0),
             Second(ASKED2, WAITING, [], q1, Holding(0, HandShake(HELLO)), Rest));
  }

  lemma GreetsBeside(q1: seq<Envelope>)
    ensures Goes(Second(ASKED2, WAITING, [], q1, Holding(0, HandShake(HELLO)), Rest), Dispatch(0),
                 Second(ASKED2, WAITING, [], q1, Running(0, Greeting(HELLO)), Rest))
  {
    Advances(Second(ASKED2, WAITING, [], q1, Holding(0, HandShake(HELLO)), Rest), Dispatch(0),
             Second(ASKED2, WAITING, [], q1, Running(0, Greeting(HELLO)), Rest));
  }

  lemma KilledAgain()
    ensures T.Killed(ASKED2, 0) == SPARED2 && T.Enabled(ASKED2, T.Kill(0)) && 0 < |ASKED2.slots|
  {
    var none: seq<nat> := [];
    assert none + [0] == [0];
  }

  lemma KillsBeside(timers: T.State, q1: seq<Envelope>)
    requires 0 < |timers.slots| && T.Enabled(timers, T.Kill(0))
    ensures Goes(Second(timers, WAITING, [], q1, Running(0, Greeting(HELLO)), Rest), Call(0, Z),
                 Second(T.Killed(timers, 0), REGISTERING, [], q1, Running(0, Registering(HELLO)), Rest))
  {
    hide T.Killed;
    Advances(Second(timers, WAITING, [], q1, Running(0, Greeting(HELLO)), Rest), Call(0, Z),
             Second(T.Killed(timers, 0), REGISTERING, [], q1, Running(0, Registering(HELLO)), Rest));
  }

  lemma TakesUnknown()
    ensures Goes(Second(SPARED2, REGISTERING, [], [For0(Unknown)], Running(0, Registering(HELLO)), Rest), Take(1),
                 Second(SPARED2, REGISTERING, [], [], Running(0, Registering(HELLO)), Holding(0, Unknown)))
  {
    var one: seq<Envelope>, none: seq<Envelope> := [For0(Unknown)], [];
    assert one[1..] == none;
    assert [none, one][1 := none] == [none, none];
    Advances(Second(SPARED2, REGISTERING, [], [For0(Unknown)], Running(0, Registering(HELLO)), Rest), Take(1),
             Second(SPARED2, REGISTERING, [], [], Running(0, Registering(HELLO)), Holding(0, Unknown)));
  }

  /** Worker 1 has ended the session while worker 0 is about to register it. */
  const BOTH: State :=
    Second(SPARED2, REGISTERING.(status := Over), [], [], Running(0, Registering(HELLO)), Running(0, Stopping([], true)))

  lemma EndsBeside()
    ensures Goes(Second(SPARED2, REGISTERING, [], [], Running(0, Registering(HELLO)), Holding(0, Unknown)), Dispatch(1),
                 BOTH)
  {
    var none: map<nat, nat> := map[];
    assert MapIds(none) == [];
    assert Handled(REGISTERING, Unknown).pc == Stopping([], true);
    Advances(Second(SPARED2, REGISTERING, [], [], Running(0, Registering(HELLO)), Holding(0, Unknown)), Dispatch(1),
             BOTH);
  }

  const RISEN: State :=
    Snap(SPARED2, map["s" := 0], REGISTERING.(status := Ready), Some(1), [], [0], [], [], 2, [], [],
         Rest, Running(0, Stopping([], true)), Rest)

  lemma RegistersBeside()
    ensures Goes(BOTH, Call(0, Z), RISEN)
  {
    var none: map<string, nat> := map[];
    assert none["s" := 0] == map["s" := 0];
    Calls(BOTH, Registering(HELLO), REGISTERING.(status := Ready), World(SPARED2, map["s" := 0], 0));
    Advances(BOTH, Call(0, Z), RISEN);
  }

  /** A handshake from the last connection, left in group 0's queue, runs beside a message of the new
      one in group 1: a session that is over becomes ready. */
  lemma HandlersOverlap()
    ensures Initial(START) && Leads(START, BOTH, false)
    ensures BOTH.workers[0].Running? && BOTH.workers[1].Running? && BOTH.workers[0].n == BOTH.workers[1].n == 0
    ensures Goes(BOTH, Call(0, Z), RISEN)
    ensures !SR.Lives(BOTH.base.sessions[0].status, RISEN.base.sessions[0].status)
  {
    hide Leads, Goes, Initial;
    StartInitial();
    var q1 := [For0(Unknown)];
    JoinsAgain();
    ReceivesUnknown();
    LeadsOn(START, Second(ASKED2, WAITING, STALE, [], Rest, Rest), Receive(0, Unknown, true),
            Second(ASKED2, WAITING, STALE, q1, Rest, Rest), false);
    TakesHandshake(q1);
    LeadsOn(START, Second(ASKED2, WAITING, STALE, q1, Rest, Rest), Take(0),
            Second(ASKED2, WAITING, [], q1, Holding(0, HandShake(HELLO)), Rest), false);
    GreetsBeside(q1);
    LeadsOn(START, Second(ASKED2, WAITING, [], q1, Holding(0, HandShake(HELLO)), Rest), Dispatch(0),
            Second(ASKED2, WAITING, [], q1, Running(0, Greeting(HELLO)), Rest), false);
    KilledAgain();
    KillsBeside(ASKED2, q1);
    LeadsOn(START, Second(ASKED2, WAITING, [], q1, Running(0, Greeting(HELLO)), Rest), Call(0, Z),
            Second(SPARED2, REGISTERING, [], q1, Running(0, Registering(HELLO)), Rest), false);
    TakesUnknown();
    LeadsOn(START, Second(SPARED2, REGISTERING, [], q1, Running(0, Registering(HELLO)), Rest), Take(1),
            Second(SPARED2, REGISTERING, [], [], Running(0, Registering(HELLO)), Holding(0, Unknown)), false);
    EndsBeside();
    LeadsOn(START, Second(SPARED2, REGISTERING, [], [], Running(0, Registering(HELLO)), Holding(0, Unknown)), Dispatch(1),
            BOTH, false);
    RegistersBeside();
  }

  /** In the pool, in worker 0's hand a handshake from its last connection. */
  function Held(w0: Thread): State {
    Snap(SPARED, map[], FRESH, None, [], [], [0], [], 1, [], [], w0, Rest, Rest)
  }

  /** Inside setTimer of onAttach, with what worker 0 is at. */
  function Attaching(w0: Thread): State {
    Snap(SPARED, map[], CONNECTED, Some(1), [], [], [], [], 2, [], [], w0, Rest, Running(0, Arming(Handshake, Allocating)))
  }

  lemma TakesBeforeAccept()
    ensures Goes(Freed(SPARED, STALE), Take(0), Held(Holding(0, HandShake(HELLO))))
  {
    assert STALE[1..] == [];
    var none: seq<Envelope> := [];
    assert [STALE, none][0 := none] == [none, none];
    Advances(Freed(SPARED, STALE), Take(0), Held(Holding(0, HandShake(HELLO))));
  }

  lemma AcceptsWhileHeld(w0: Thread)
    ensures Goes(Held(w0), Accept, Attaching(w0))
  {
    var one: seq<nat> := [0];
    assert one[1..] == [];
    Advances(Held(w0), Accept, Attaching(w0));
  }

  lemma GreetsDuringAttach()
    ensures Goes(Attaching(Holding(0, HandShake(HELLO))), Dispatch(0), Attaching(Running(0, Greeting(HELLO))))
  {
    Advances(Attaching(Holding(0, HandShake(HELLO))), Dispatch(0), Attaching(Running(0, Greeting(HELLO))));
  }

  /** A message in a worker's hand is dispatched while the traffic thread is still inside onAttach:
      __onStart's assert fails. */
  lemma HandlerDuringAttach()
    ensures Initial(START) && Leads(START, Attaching(Running(0, Greeting(HELLO))), false)
    ensures var s := Attaching(Running(0, Greeting(HELLO)));
      s.accepting.Running? && s.accepting.n == 0 && Possible(s, Call(0, Z)) && !Asserted(s, Call(0, Z))
  {
    hide Leads, Goes, Initial;
    StartInitial();
    Joins();
    ReceivesTwo(ASKED, Some(HandShake(HELLO)));
    KilledListed();
    Closes(ASKED, STALE);
    NotClean(START, Freed(SPARED, STALE));
    TakesBeforeAccept();
    LeadsOn(START, Freed(SPARED, STALE), Take(0), Held(Holding(0, HandShake(HELLO))), false);
    AcceptsWhileHeld(Holding(0, HandShake(HELLO)));
    LeadsOn(START, Held(Holding(0, HandShake(HELLO))), Accept, Attaching(Holding(0, HandShake(HELLO))), false);
    GreetsDuringAttach();
    LeadsOn(START, Attaching(Holding(0, HandShake(HELLO))), Dispatch(0), Attaching(Running(0, Greeting(HELLO))), false);
  }

  // ----- a ready session -----

  const READY: Session := FRESH.(status := Ready, sid := "s", account := 1)

  /** Ready in group 0. */
  function Serving(timers: T.State, t: Session, q0: seq<Envelope>, w0: Thread): State {
    Snap(timers, map["s" := 0], t, Some(0), [0], [], [], [], 1, q0, [], w0, Rest, Rest)
  }

  function Greets(timers: T.State, t: Session, pc: Pc): State {
    Snap(timers, map[], t, Some(0), [0], [], [], [], 1, [], [], Running(0, pc), Rest, Rest)
  }

  lemma GreetsNew(timers: T.State)
    ensures Goes(InHand(timers, [], HandShake(HELLO)), Dispatch(0), Greets(timers, WAITING, Greeting(HELLO)))
  {
    Advances(InHand(timers, [], HandShake(HELLO)), Dispatch(0), Greets(timers, WAITING, Greeting(HELLO)));
  }

  lemma KillsWaiting(timers: T.State)
    requires T.Enabled(timers, T.Kill(0))
    ensures Goes(Greets(timers, WAITING, Greeting(HELLO)), Call(0, Z),
                 Greets(T.Killed(timers, 0), REGISTERING, Registering(HELLO)))
  {
    hide T.Killed;
    Advances(Greets(timers, WAITING, Greeting(HELLO)), Call(0, Z),
             Greets(T.Killed(timers, 0), REGISTERING, Registering(HELLO)));
  }

  lemma RegistersNew(timers: T.State)
    ensures Goes(Greets(timers, REGISTERING, Registering(HELLO)), Call(0, Z), Serving(timers, READY, [], Rest))
  {
    var none: map<string, nat> := map[];
    assert none["s" := 0] == map["s" := 0];
    Advances(Greets(timers, REGISTERING, Registering(HELLO)), Call(0, Z), Serving(timers, READY, [], Rest));
  }

  lemma PicksReady(timers: T.State)
    ensures Goes(Serving(timers, READY, [], Rest), Pick(0), Serving(timers, READY, [], Looking(0)))
  {
    var s := Serving(timers, READY, [], Rest);
    assert Apply(s.base.groups[0], Visit) == s.base.groups[0];
    assert s.base.groups[0 := s.base.groups[0]] == s.base.groups;
    Advances(Serving(timers, READY, [], Rest), Pick(0), Serving(timers, READY, [], Looking(0)));
  }

  lemma LooksReady(timers: T.State)
    ensures Goes(Serving(timers, READY, [], Looking(0)), Look(0), Serving(timers, READY, [], Checking(0)))
  {
    Advances(Serving(timers, READY, [], Looking(0)), Look(0), Serving(timers, READY, [], Checking(0)));
  }

  const PUSHING: Session := READY.(seqCounter := 1)

  lemma PushesStored(timers: T.State)
    ensures Goes(Serving(timers, READY, [], Checking(0)), Push(0, 5, true),
                 Serving(timers, PUSHING, [], Running(0, Arming(Ack(1, 5), Allocating))))
  {
    Advances(Serving(timers, READY, [], Checking(0)), Push(0, 5, true),
             Serving(timers, PUSHING, [], Running(0, Arming(Ack(1, 5), Allocating))));
  }

  /** A stored message has been sent, and the timer for its ack is to be set. */
  lemma Pushes(timers: T.State)
    requires Leads(START, Expecting(timers, []), true) && 0 < |timers.slots| && T.Enabled(timers, T.Kill(0))
    ensures Leads(START, Serving(T.Killed(timers, 0), PUSHING, [], Running(0, Arming(Ack(1, 5), Allocating))), true)
  {
    hide Leads, Goes, T.Killed, T.Enabled;
    var killed, none: seq<Envelope> := T.Killed(timers, 0), [];
    var hello := HandShake(HELLO);
    Receives(timers, none, hello);
    assert none + [For0(hello)] == [For0(hello)] == [For0(hello)] + none;
    LeadsOn(START, Expecting(timers, none), Receive(0, hello, true), Expecting(timers, [For0(hello)]), true);
    Takes(timers, none, hello);
    LeadsOn(START, Expecting(timers, [For0(hello)]), Take(0), InHand(timers, none, hello), true);
    GreetsNew(timers);
    LeadsOn(START, InHand(timers, none, hello), Dispatch(0), Greets(timers, WAITING, Greeting(HELLO)), true);
    KillsWaiting(timers);
    LeadsOn(START, Greets(timers, WAITING, Greeting(HELLO)), Call(0, Z),
            Greets(killed, REGISTERING, Registering(HELLO)), true);
    RegistersNew(killed);
    LeadsOn(START, Greets(killed, REGISTERING, Registering(HELLO)), Call(0, Z), Serving(killed, READY, [], Rest), true);
    PicksReady(killed);
    LeadsOn(START, Serving(killed, READY, [], Rest), Pick(0), Serving(killed, READY, [], Looking(0)), true);
    LooksReady(killed);
    LeadsOn(START, Serving(killed, READY, [], Looking(0)), Look(0), Serving(killed, READY, [], Checking(0)), true);
    PushesStored(killed);
    LeadsOn(START, Serving(killed, READY, [], Checking(0)), Push(0, 5, true),
            Serving(killed, PUSHING, [], Running(0, Arming(Ack(1, 5), Allocating))), true);
  }

  // ----- a session ended inside onCheck -----

  function Dropping(pc: Pc): State {
    Serving(DOOMED, PUSHING.(status := Over), [], Running(0, pc))
  }

  const DROPPED: State :=
    Snap(DOOMED, map[], ENDED.(pc := Abandoned), Some(0), [0], [], [], [], 1, [], [], Rest, Rest, Rest)

  lemma Stops()
    ensures Stopped(PUSHING.(pc := Arming(Ack(1, 5), Allocating)), false)
      == PUSHING.(status := Over, pc := Stopping([], false))
  {
    var t := PUSHING.(pc := Arming(Ack(1, 5), Allocating));
    var none: map<nat, nat> := map[];
    assert MapIds(none) == [] && t.keepLive == None && t.seqTimers == none;
    assert Stopped(t, false).pc == Stopping([], false);
  }

  lemma FindsNoTimer()
    ensures Goes(Serving(DOOMED, PUSHING, [], Running(0, Arming(Ack(1, 5), Allocating))), Call(0, Z),
                 Dropping(Stopping([], false)))
  {
    hide Stopped, MapIds;
    Stops();
    Advances(Serving(DOOMED, PUSHING, [], Running(0, Arming(Ack(1, 5), Allocating))), Call(0, Z),
             Dropping(Stopping([], false)));
  }

  lemma LeavesCheck()
    ensures Goes(Dropping(Stopping([], false)), Call(0, Z), Dropping(Leaving(false)))
  {
    Calls(Dropping(Stopping([], false)), Stopping([], false), PUSHING.(status := Over, pc := Leaving(false)),
          World(DOOMED, map["s" := 0], 0));
    Advances(Dropping(Stopping([], false)), Call(0, Z), Dropping(Leaving(false)));
  }

  lemma ClearsCheck()
    ensures Goes(Dropping(Leaving(false)), Call(0, Z), DROPPED)
  {
    var one: map<string, nat>, none: map<string, nat> := map["s" := 0], map[];
    assert one - {"s"} == none;
    Calls(Dropping(Leaving(false)), Leaving(false), ENDED.(pc := Abandoned), World(DOOMED, none, 0));
    Advances(Dropping(Leaving(false)), Call(0, Z), DROPPED);
  }

  /** Without a timer for the ack of a pushed message the session ends inside onCheck; then its node is
      lost (Lost.AbandonedForever). */
  lemma DropsNode()
    ensures Initial(START) && Leads(START, DROPPED, true) && AbandonedAt(DROPPED, 0)
  {
    hide Leads, Goes, Initial;
    StartInitial();
    Joins();
    Drains();
    LeadsOn(START, Expecting(ASKED, []), TimerDrain, Expecting(LISTED, []), true);
    KilledListed();
    Pushes(LISTED);
    FindsNoTimer();
    LeadsOn(START, Serving(DOOMED, PUSHING, [], Running(0, Arming(Ack(1, 5), Allocating))), Call(0, Z),
            Dropping(Stopping([], false)), true);
    LeavesCheck();
    LeadsOn(START, Dropping(Stopping([], false)), Call(0, Z), Dropping(Leaving(false)), true);
    ClearsCheck();
    LeadsOn(START, Dropping(Leaving(false)), Call(0, Z), DROPPED, true);
  }

  // ----- an ack timer's message that comes after its ack -----

  const PUSHED: Session := PUSHING.(seqTimers := map[1 := 0], lastUpdate := 5)
  const LISTED2: T.State := Timers(Slot(1, 1, T.Added, 2), [], {}, {}, []).(list := [0], phase := T.BeforeVisit)
  const FIRED2: T.State :=
    Timers(Slot(1, 0, T.Deleted, 2), [0], {}, {}, []).(fires := [T.Fire(T.Ticket(0, 2), Z)])

  lemma AllocatesForAck()
    ensures Goes(Serving(SPARED, PUSHING, [], Running(0, Arming(Ack(1, 5), Allocating))), Call(0, Z),
                 Serving(ALLOCATED2, PUSHING, [], Running(0, Arming(Ack(1, 5), Filling(0)))))
  {
    var pc := Arming(Ack(1, 5), Allocating);
    var one: seq<nat> := [0];
    assert one[1..] == [];
    Calls(Serving(SPARED, PUSHING, [], Running(0, pc)), pc, PUSHING.(pc := Arming(Ack(1, 5), Filling(0))),
          World(ALLOCATED2, map["s" := 0], 0));
    Advances(Serving(SPARED, PUSHING, [], Running(0, Arming(Ack(1, 5), Allocating))), Call(0, Z),
             Serving(ALLOCATED2, PUSHING, [], Running(0, Arming(Ack(1, 5), Filling(0)))));
  }

  lemma FillsForAck()
    ensures Goes(Serving(ALLOCATED2, PUSHING, [], Running(0, Arming(Ack(1, 5), Filling(0)))), Call(0, Z),
                 Serving(FILLED2, PUSHING, [], Running(0, Arming(Ack(1, 5), Enqueueing(T.Ticket(0, 2))))))
  {
    var pc := Arming(Ack(1, 5), Filling(0));
    Calls(Serving(ALLOCATED2, PUSHING, [], Running(0, pc)), pc,
          PUSHING.(pc := Arming(Ack(1, 5), Enqueueing(T.Ticket(0, 2)))), World(FILLED2, map["s" := 0], 0));
    Advances(Serving(ALLOCATED2, PUSHING, [], Running(0, Arming(Ack(1, 5), Filling(0)))), Call(0, Z),
             Serving(FILLED2, PUSHING, [], Running(0, Arming(Ack(1, 5), Enqueueing(T.Ticket(0, 2))))));
  }

  lemma EnqueuesForAck()
    ensures Goes(Serving(FILLED2, PUSHING, [], Running(0, Arming(Ack(1, 5), Enqueueing(T.Ticket(0, 2))))), Call(0, Z),
                 Serving(ASKED2, PUSHING, [], Running(0, Arming(Ack(1, 5), Recording(0)))))
  {
    var pc := Arming(Ack(1, 5), Enqueueing(T.Ticket(0, 2)));
    Calls(Serving(FILLED2, PUSHING, [], Running(0, pc)), pc, PUSHING.(pc := Arming(Ack(1, 5), Recording(0))),
          World(ASKED2, map["s" := 0], 0));
    Advances(Serving(FILLED2, PUSHING, [], Running(0, Arming(Ack(1, 5), Enqueueing(T.Ticket(0, 2))))), Call(0, Z),
             Serving(ASKED2, PUSHING, [], Running(0, Arming(Ack(1, 5), Recording(0)))));
  }

  lemma RecordsForAck()
    ensures Goes(Serving(ASKED2, PUSHING, [], Running(0, Arming(Ack(1, 5), Recording(0)))), Call(0, Z),
                 Serving(ASKED2, PUSHED, [], Checking(0)))
  {
    var pc := Arming(Ack(1, 5), Recording(0));
    var none: map<nat, nat> := map[];
    assert none[1 := 0] == map[1 := 0];
    Calls(Serving(ASKED2, PUSHING, [], Running(0, pc)), pc, PUSHED, World(ASKED2, map["s" := 0], 0));
    Advances(Serving(ASKED2, PUSHING, [], Running(0, Arming(Ack(1, 5), Recording(0)))), Call(0, Z),
             Serving(ASKED2, PUSHED, [], Checking(0)));
  }

  lemma EndsCheck()
    ensures Goes(Serving(ASKED2, PUSHED, [], Checking(0)), EndCheck(0), Serving(ASKED2, PUSHED, [], Rest))
  {
    Advances(Serving(ASKED2, PUSHED, [], Checking(0)), EndCheck(0), Serving(ASKED2, PUSHED, [], Rest));
  }

  const ACK: Envelope := Envelope(0, PushAck(1))
  const LATE: Envelope := Envelope(0, OnTimer(0, 1))

  lemma ReceivesAck()
    ensures Goes(Serving(ASKED2, PUSHED, [], Rest), Receive(0, PushAck(1), true), Serving(ASKED2, PUSHED, [ACK], Rest))
  {
    var none: seq<Envelope> := [];
    assert none + [ACK] == [ACK];
    assert [none, none][0 := [ACK]] == [[ACK], none];
  }

  lemma DrainsForAck()
    ensures Goes(Serving(ASKED2, PUSHED, [ACK], Rest), TimerDrain, Serving(LISTED2, PUSHED, [ACK], Rest))
  {
    hide T.Drained;
    DrainsTwice();
  }

  /** The slot is in the add queue twice, once from its last use, and is added once. */
  lemma DrainsTwice()
    ensures T.Below(ASKED2.addQueue, |ASKED2.slots|) && T.DelReady(ASKED2) && T.Drained(ASKED2) == LISTED2
  {
    var a := T.AddFront(ASKED2);
    assert a == ASKED2.(slots := [Slot(1, 1, T.Added, 2)], addQueue := [0], list := [0]);
    var c := T.AddFront(a);
    assert c == a.(addQueue := []);
    assert T.AddAll(ASKED2) == T.AddAll(a) == T.AddAll(c) == c;
    assert T.DelAll(c) == c;
  }

  lemma FiresForAck()
    ensures Goes(Serving(LISTED2, PUSHED, [ACK], Rest), TimerVisit(Z, true), Serving(FIRED2, PUSHED, [ACK, LATE], Rest))
  {
    hide T.Visited, T.VisitReady, Fired, Due;
    FiresLast();
    assert [ACK] + [LATE] == [ACK, LATE];
    var none: seq<Envelope> := [];
    assert [[ACK], none][0 := [ACK, LATE]] == [[ACK, LATE], none];
  }

  lemma FiresLast()
    ensures T.VisitReady(LISTED2) && T.Visited(LISTED2, Z, true) == FIRED2
    ensures LISTED2.list != [] && Due(LISTED2.list, LISTED2.cur) == 0
    ensures Fired(LISTED2, Z) == Some(Slot(1, 1, T.Added, 2))
  {
    var one: seq<nat>, none: seq<nat> := [0], [];
    assert Without(one, 0) == none && none + [0] == one;
  }

  lemma TakesAck()
    ensures Goes(Serving(FIRED2, PUSHED, [ACK, LATE], Rest), Take(0), Serving(FIRED2, PUSHED, [LATE], Holding(0, PushAck(1))))
  {
    assert [ACK, LATE][1..] == [LATE];
    Advances(Serving(FIRED2, PUSHED, [ACK, LATE], Rest), Take(0), Serving(FIRED2, PUSHED, [LATE], Holding(0, PushAck(1))));
  }

  lemma DispatchesAck()
    ensures Goes(Serving(FIRED2, PUSHED, [LATE], Holding(0, PushAck(1))), Dispatch(0),
                 Serving(FIRED2, PUSHED, [LATE], Running(0, Forgetting(1))))
  {
    Advances(Serving(FIRED2, PUSHED, [LATE], Holding(0, PushAck(1))), Dispatch(0),
             Serving(FIRED2, PUSHED, [LATE], Running(0, Forgetting(1))));
  }

  const ACKED: Session := PUSHED.(seqTimers := map[])

  lemma ForgetsAck()
    ensures Goes(Serving(FIRED2, PUSHED, [LATE], Running(0, Forgetting(1))), Call(0, Z), Serving(FIRED2, ACKED, [LATE], Rest))
  {
    var one: map<nat, nat>, none: map<nat, nat> := map[1 := 0], map[];
    assert one - {1} == none;
    Calls(Serving(FIRED2, PUSHED, [LATE], Running(0, Forgetting(1))), Forgetting(1), ACKED,
          World(FIRED2, map["s" := 0], 0));
    Advances(Serving(FIRED2, PUSHED, [LATE], Running(0, Forgetting(1))), Call(0, Z), Serving(FIRED2, ACKED, [LATE], Rest));
  }

  /** The message of the ack timer is in worker 0's hand, and the ack has been handled. */
  const OVERTAKEN: State := Serving(FIRED2, ACKED, [], Holding(0, OnTimer(0, 1)))

  lemma TakesLate()
    ensures Goes(Serving(FIRED2, ACKED, [LATE], Rest), Take(0), OVERTAKEN)
  {
    assert [LATE][1..] == [];
    Advances(Serving(FIRED2, ACKED, [LATE], Rest), Take(0), OVERTAKEN);
  }

  lemma AckChecked()
    ensures Leads(START, Serving(ASKED2, PUSHED, [], Checking(0)), true)
  {
    hide *;
    PushesFromStart();
    AllocatesForAck();
    LeadsOn(START, Serving(SPARED, PUSHING, [], Running(0, Arming(Ack(1, 5), Allocating))), Call(0, Z),
            Serving(ALLOCATED2, PUSHING, [], Running(0, Arming(Ack(1, 5), Filling(0)))), true);
    FillsForAck();
    LeadsOn(START, Serving(ALLOCATED2, PUSHING, [], Running(0, Arming(Ack(1, 5), Filling(0)))), Call(0, Z),
            Serving(FILLED2, PUSHING, [], Running(0, Arming(Ack(1, 5), Enqueueing(T.Ticket(0, 2))))), true);
    EnqueuesForAck();
    LeadsOn(START, Serving(FILLED2, PUSHING, [], Running(0, Arming(Ack(1, 5), Enqueueing(T.Ticket(0, 2))))), Call(0, Z),
            Serving(ASKED2, PUSHING, [], Running(0, Arming(Ack(1, 5), Recording(0)))), true);
    RecordsForAck();
    LeadsOn(START, Serving(ASKED2, PUSHING, [], Running(0, Arming(Ack(1, 5), Recording(0)))), Call(0, Z),
            Serving(ASKED2, PUSHED, [], Checking(0)), true);
  }

  lemma AckAwaited()
    ensures Leads(START, Serving(ASKED2, PUSHED, [], Rest), true)
  {
    hide *;
    AckChecked();
    EndsCheck();
    LeadsOn(START, Serving(ASKED2, PUSHED, [], Checking(0)), EndCheck(0), Serving(ASKED2, PUSHED, [], Rest), true);
  }

  lemma PushesFromStart()
    ensures Leads(START, Serving(SPARED, PUSHING, [], Running(0, Arming(Ack(1, 5), Allocating))), true)
  {
    hide Leads;
    Joins();
    KilledListed();
    Pushes(ASKED);
  }

  /** A stored message is pushed; its ack is queued, then the timer's message; the ack is handled; and
      the timer's message reaches the assert(false_v) of __onTimer. */
  lemma TimerComesLate()
    ensures Initial(START) && Leads(START, OVERTAKEN, true) && Possible(OVERTAKEN, Dispatch(0))
    ensures TimerBranch(OVERTAKEN.base.sessions[0], 0, 1) == NoAck
  {
    hide Leads, Goes, Initial;
    StartInitial();
    AckAwaited();
    Overtakes();
  }

  lemma Overtakes()
    requires Leads(START, Serving(ASKED2, PUSHED, [], Rest), true)
    ensures Leads(START, OVERTAKEN, true)
  {
    hide Leads, Goes;
    ReceivesAck();
    LeadsOn(START, Serving(ASKED2, PUSHED, [], Rest), Receive(0, PushAck(1), true), Serving(ASKED2, PUSHED, [ACK], Rest), true);
    DrainsForAck();
    LeadsOn(START, Serving(ASKED2, PUSHED, [ACK], Rest), TimerDrain, Serving(LISTED2, PUSHED, [ACK], Rest), true);
    FiresForAck();
    LeadsOn(START, Serving(LISTED2, PUSHED, [ACK], Rest), TimerVisit(Z, true), Serving(FIRED2, PUSHED, [ACK, LATE], Rest), true);
    TakesAck();
    LeadsOn(START, Serving(FIRED2, PUSHED, [ACK, LATE], Rest), Take(0),
            Serving(FIRED2, PUSHED, [LATE], Holding(0, PushAck(1))), true);
    DispatchesAck();
    LeadsOn(START, Serving(FIRED2, PUSHED, [LATE], Holding(0, PushAck(1))), Dispatch(0),
            Serving(FIRED2, PUSHED, [LATE], Running(0, Forgetting(1))), true);
    ForgetsAck();
    LeadsOn(START, Serving(FIRED2, PUSHED, [LATE], Running(0, Forgetting(1))), Call(0, Z),
            Serving(FIRED2, ACKED, [LATE], Rest), true);
    TakesLate();
    LeadsOn(START, Serving(FIRED2, ACKED, [LATE], Rest), Take(0), OVERTAKEN, true);
  }

  // ----- a slot that two pushed messages share -----

  const PUSHING2: Session := PUSHED.(seqCounter := 2)
  const PUSHED2: Session := PUSHING2.(seqTimers := map[1 := 0, 2 := 0], lastUpdate := 6)
  const ALLOCATED3: T.State := FIRED2.(free := [], setting := {0})
  const FILLED3: T.State := FIRED2.(free := [], slots := [Slot(2, 1, T.ToBeAdd, 3)], pending := {T.Ticket(0, 3)})
  const ASKED3: T.State := FIRED2.(free := [], slots := [Slot(2, 1, T.ToBeAdd, 3)], addQueue := [0])

  lemma DrainsWhileChecking()
    ensures Goes(Serving(ASKED2, PUSHED, [], Checking(0)), TimerDrain, Serving(LISTED2, PUSHED, [], Checking(0)))
  {
    hide T.Drained;
    DrainsTwice();
  }

  lemma FiresWhileChecking()
    ensures Goes(Serving(LISTED2, PUSHED, [], Checking(0)), TimerVisit(Z, true), Serving(FIRED2, PUSHED, [LATE], Checking(0)))
  {
    hide T.Visited, T.VisitReady, Fired, Due;
    FiresLast();
    var none: seq<Envelope> := [];
    assert none + [LATE] == [LATE];
    assert [none, none][0 := [LATE]] == [[LATE], none];
  }

  lemma PushesNext()
    ensures Goes(Serving(FIRED2, PUSHED, [LATE], Checking(0)), Push(0, 6, true),
                 Serving(FIRED2, PUSHING2, [LATE], Running(0, Arming(Ack(2, 6), Allocating))))
  {
    Advances(Serving(FIRED2, PUSHED, [LATE], Checking(0)), Push(0, 6, true),
             Serving(FIRED2, PUSHING2, [LATE], Running(0, Arming(Ack(2, 6), Allocating))));
  }

  lemma AllocatesForNext()
    ensures Goes(Serving(FIRED2, PUSHING2, [LATE], Running(0, Arming(Ack(2, 6), Allocating))), Call(0, Z),
                 Serving(ALLOCATED3, PUSHING2, [LATE], Running(0, Arming(Ack(2, 6), Filling(0)))))
  {
    var pc := Arming(Ack(2, 6), Allocating);
    var one: seq<nat> := [0];
    assert one[1..] == [];
    Calls(Serving(FIRED2, PUSHING2, [LATE], Running(0, pc)), pc, PUSHING2.(pc := Arming(Ack(2, 6), Filling(0))),
          World(ALLOCATED3, map["s" := 0], 0));
    Advances(Serving(FIRED2, PUSHING2, [LATE], Running(0, Arming(Ack(2, 6), Allocating))), Call(0, Z),
             Serving(ALLOCATED3, PUSHING2, [LATE], Running(0, Arming(Ack(2, 6), Filling(0)))));
  }

  lemma FillsForNext()
    ensures Goes(Serving(ALLOCATED3, PUSHING2, [LATE], Running(0, Arming(Ack(2, 6), Filling(0)))), Call(0, Z),
                 Serving(FILLED3, PUSHING2, [LATE], Running(0, Arming(Ack(2, 6), Enqueueing(T.Ticket(0, 3))))))
  {
    var pc := Arming(Ack(2, 6), Filling(0));
    Calls(Serving(ALLOCATED3, PUSHING2, [LATE], Running(0, pc)), pc,
          PUSHING2.(pc := Arming(Ack(2, 6), Enqueueing(T.Ticket(0, 3)))), World(FILLED3, map["s" := 0], 0));
    Advances(Serving(ALLOCATED3, PUSHING2, [LATE], Running(0, Arming(Ack(2, 6), Filling(0)))), Call(0, Z),
             Serving(FILLED3, PUSHING2, [LATE], Running(0, Arming(Ack(2, 6), Enqueueing(T.Ticket(0, 3))))));
  }

  lemma EnqueuesForNext()
    ensures Goes(Serving(FILLED3, PUSHING2, [LATE], Running(0, Arming(Ack(2, 6), Enqueueing(T.Ticket(0, 3))))), Call(0, Z),
                 Serving(ASKED3, PUSHING2, [LATE], Running(0, Arming(Ack(2, 6), Recording(0)))))
  {
    var pc := Arming(Ack(2, 6), Enqueueing(T.Ticket(0, 3)));
    var none: seq<nat> := [];
    assert none + [0] == [0];
    Calls(Serving(FILLED3, PUSHING2, [LATE], Running(0, pc)), pc, PUSHING2.(pc := Arming(Ack(2, 6), Recording(0))),
          World(ASKED3, map["s" := 0], 0));
    Advances(Serving(FILLED3, PUSHING2, [LATE], Running(0, Arming(Ack(2, 6), Enqueueing(T.Ticket(0, 3))))), Call(0, Z),
             Serving(ASKED3, PUSHING2, [LATE], Running(0, Arming(Ack(2, 6), Recording(0)))));
  }

  /** Message 2 has the slot that message 1 had, and the session has it in its records for both. */
  const SHARED: State := Serving(ASKED3, PUSHED2, [LATE], Checking(0))

  lemma RecordsForNext()
    ensures Goes(Serving(ASKED3, PUSHING2, [LATE], Running(0, Arming(Ack(2, 6), Recording(0)))), Call(0, Z), SHARED)
  {
    var pc := Arming(Ack(2, 6), Recording(0));
    var one: map<nat, nat> := map[1 := 0];
    assert one[2 := 0] == map[1 := 0, 2 := 0];
    Calls(Serving(ASKED3, PUSHING2, [LATE], Running(0, pc)), pc, PUSHED2, World(ASKED3, map["s" := 0], 0));
    Advances(Serving(ASKED3, PUSHING2, [LATE], Running(0, Arming(Ack(2, 6), Recording(0)))), Call(0, Z), SHARED);
  }

  /** The ack timer of message 1 fires while its message waits in the queue; message 2 gets the slot. The
      slot recorded for 1 carries 2 then, and the ack of 1 would kill the timer of 2. */
  lemma SlotIsShared()
    ensures Initial(START) && Leads(START, SHARED, true)
    ensures var t, timers := SHARED.base.sessions[0], SHARED.base.world.timers;
      && 1 in t.seqTimers && t.seqTimers[1] == 0 && S.Armed(timers.slots[0])
      && timers.slots[0].owner == 0 && timers.slots[0].tag == 2
      && Handled(t, PushAck(1)).pc == Forgetting(1) && !S.Armed(T.Killed(timers, t.seqTimers[1]).slots[0])
  {
    hide Leads, Goes, Initial;
    StartInitial();
    AckChecked();
    Shares();
  }

  lemma Shares()
    requires Leads(START, Serving(ASKED2, PUSHED, [], Checking(0)), true)
    ensures Leads(START, SHARED, true)
  {
    hide Leads, Goes;
    DrainsWhileChecking();
    LeadsOn(START, Serving(ASKED2, PUSHED, [], Checking(0)), TimerDrain, Serving(LISTED2, PUSHED, [], Checking(0)), true);
    FiresWhileChecking();
    LeadsOn(START, Serving(LISTED2, PUSHED, [], Checking(0)), TimerVisit(Z, true),
            Serving(FIRED2, PUSHED, [LATE], Checking(0)), true);
    PushesNext();
    LeadsOn(START, Serving(FIRED2, PUSHED, [LATE], Checking(0)), Push(0, 6, true),
            Serving(FIRED2, PUSHING2, [LATE], Running(0, Arming(Ack(2, 6), Allocating))), true);
    AllocatesForNext();
    LeadsOn(START, Serving(FIRED2, PUSHING2, [LATE], Running(0, Arming(Ack(2, 6), Allocating))), Call(0, Z),
            Serving(ALLOCATED3, PUSHING2, [LATE], Running(0, Arming(Ack(2, 6), Filling(0)))), true);
    FillsForNext();
    LeadsOn(START, Serving(ALLOCATED3, PUSHING2, [LATE], Running(0, Arming(Ack(2, 6), Filling(0)))), Call(0, Z),
            Serving(FILLED3, PUSHING2, [LATE], Running(0, Arming(Ack(2, 6), Enqueueing(T.Ticket(0, 3))))), true);
    EnqueuesForNext();
    LeadsOn(START, Serving(FILLED3, PUSHING2, [LATE], Running(0, Arming(Ack(2, 6), Enqueueing(T.Ticket(0, 3))))),
            Call(0, Z), Serving(ASKED3, PUSHING2, [LATE], Running(0, Arming(Ack(2, 6), Recording(0)))), true);
    RecordsForNext();
    LeadsOn(START, Serving(ASKED3, PUSHING2, [LATE], Running(0, Arming(Ack(2, 6), Recording(0)))), Call(0, Z), SHARED, true);
  }
}
