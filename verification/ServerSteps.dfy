/** Every step of the server keeps the invariant, and the invariant implies everything the step takes
    for granted. */
module ServerSteps {
  import opened Prelude
  import opened RoundRobin
  import opened Sessions
  import opened Server
  import opened ServerTimers
  import T = TimerSpec

  // ----- timers -----

  lemma StopKeepsRecords(t: Session, recycle: bool)
    requires PcIds(t.pc) == {}
    ensures Recorded(Stopped(t, recycle)) == Recorded(t)
  {
    StoppedRecorded(t, recycle);
  }

  lemma ArmingTimers(s: State, n: nat, now: T.Clock)
    requires Inv(s) && n < |s.sessions| && s.sessions[n].pc.Arming? && Armable(s.sessions[n], s.world)
    ensures var o := ArmingStep(n, s.sessions[n], s.world, now);
      TimersOk(s.sessions[n := o.session], o.world.timers)
  {
    var t, timers := s.sessions[n], s.world.timers;
    var o := ArmingStep(n, t, s.world, now);
    assert Shape(t);
    match t.pc.stage
    case Allocating =>
      if timers.free != [] {
        AllocateStep(s.sessions, timers, n, o.session);
      } else {
        StopKeepsRecords(t, t.pc.use.KeepLive?);
        PrivateStep(s.sessions, timers, n, o.session);
      }
    case Filling(id) => FillStep(s.sessions, timers, n, o.session, s.world.interval, now);
    case Enqueueing(timer) => EnqueueStep(s.sessions, timers, n, o.session);
    case Recording(id) =>
      RecordingKeeps(t, o.session, id);
      PrivateStep(s.sessions, timers, n, o.session);
  }

  lemma RecordingKeeps(t: Session, t': Session, id: nat)
    requires Shape(t) && t.pc.Arming? && t.pc.stage == Recording(id)
    requires match t.pc.use
      case Handshake => t' == t.(keepLive := Some(id), pc := Joining)
      case KeepLive => t' == t.(keepLive := Some(id), pc := Idle)
      case Ack(k, stamp) => t' == t.(seqTimers := t.seqTimers[k := id], lastUpdate := stamp, pc := Idle)
    ensures Recorded(t') == Recorded(t)
  {
    if t.pc.use.Ack? {
      var k := t.pc.use.number;
      assert k !in t.seqTimers && t'.seqTimers[k] == id;
      forall v | v in t.seqTimers.Values
        ensures v in t'.seqTimers.Values
      {
        var j :| j in t.seqTimers && t.seqTimers[j] == v;
        assert t'.seqTimers[j] == v;
      }
    }
  }

  lemma ForgettingKeeps(m: map<nat, nat>, k: nat)
    requires k in m
    ensures (m - {k}).Values <= m.Values <= (m - {k}).Values + {m[k]}
  {
    forall v | v in m.Values && v != m[k]
      ensures v in (m - {k}).Values
    {
      var j :| j in m && m[j] == v;
      assert (m - {k})[j] == v;
    }
  }

  lemma KillingTimers(s: State, n: nat, now: T.Clock)
    requires Inv(s) && Possible(s, Call(n, now)) && Armable(s.sessions[n], s.world)
    requires s.sessions[n].pc.Greeting? || s.sessions[n].pc.Forgetting? || s.sessions[n].pc.Stopping?
    ensures var o := Micro(n, s.sessions[n], s.world, now);
      TimersOk(s.sessions[n := o.session], o.world.timers)
  {
    hide PlacesOk, RegistryOk, TimersOk;
    var t, timers := s.sessions[n], s.world.timers;
    var o := Micro(n, t, s.world, now);
    assert Shape(t);
    match t.pc
    case Greeting(_) =>
      StopKeepsRecords(t.(keepLive := None), true);
      KillStep(s.sessions, timers, n, o.session, t.keepLive.value);
    case Forgetting(k) =>
      ForgettingKeeps(t.seqTimers, k);
      KillStep(s.sessions, timers, n, o.session, t.seqTimers[k]);
    case Stopping(ids, recycle) =>
      if ids == [] {
        PrivateStep(s.sessions, timers, n, o.session);
      } else {
        assert ids == [ids[0]] + ids[1..];
        KillStep(s.sessions, timers, n, o.session, ids[0]);
      }
  }

  lemma CallTimers(s: State, n: nat, now: T.Clock)
    requires Inv(s) && Possible(s, Call(n, now)) && Armable(s.sessions[n], s.world)
    ensures var o := Micro(n, s.sessions[n], s.world, now);
      TimersOk(s.sessions[n := o.session], o.world.timers)
  {
    var t := s.sessions[n];
    if t.pc.Arming? {
      ArmingTimers(s, n, now);
    } else if t.pc.Greeting? || t.pc.Forgetting? || t.pc.Stopping? {
      KillingTimers(s, n, now);
    } else {
      StopKeepsRecords(t.(sid := "", account := 0), true);
      PrivateStep(s.sessions, s.world.timers, n, Micro(n, t, s.world, now).session);
    }
  }

  /** What the session is about to kill or fill may be killed or filled. */
  lemma CallArmable(s: State, n: nat)
    requires Inv(s) && n < |s.sessions|
    ensures Armable(s.sessions[n], s.world)
  {
    var t := s.sessions[n];
    assert Shape(t) && Holds(t, s.world.timers);
    match t.pc
    case Arming(_, Allocating) =>
      if s.world.timers.free != [] { assert s.world.timers.free[0] in s.world.timers.free; }
    case Greeting(_) => assert t.keepLive.value in Recorded(t);
    case Forgetting(k) => assert t.seqTimers[k] in Recorded(t);
    case Stopping(ids, _) => if ids != [] { assert ids[0] in Recorded(t); }
    case _ =>
  }

  // ----- the registry -----

  lemma RegistrySame(sessions: seq<Session>, registry: map<string, nat>, n: nat, t: Session)
    requires RegistryOk(sessions, registry) && n < |sessions|
    requires Registered(t) == Registered(sessions[n])
    requires Registered(t) ==> t.sid == sessions[n].sid
    ensures RegistryOk(sessions[n := t], registry)
  {
  }

  lemma CallRegistry(s: State, n: nat, now: T.Clock)
    requires Shapes(s.sessions) && RegistryOk(s.sessions, s.world.registry) && Enabled(s, Call(n, now))
    ensures var o := Micro(n, s.sessions[n], s.world, now);
      RegistryOk(s.sessions[n := o.session], o.world.registry)
  {
    var t := s.sessions[n];
    var o := Micro(n, t, s.world, now);
    assert Shape(t);
    if (t.pc.Registering? && t.sid !in s.world.registry) || t.pc.Leaving? {
    } else {
      RegistrySame(s.sessions, s.world.registry, n, o.session);
    }
  }

  // ----- where the nodes are -----

  lemma PlacesSame(s: State, n: nat, t: Session, s': State)
    requires PlacesOk(s) && n < |s.sessions|
    requires s' == WithSession(s, n, t).(world := s'.world)
    requires (t.status == Free) == (s.sessions[n].status == Free) && Outside(t) == Outside(s.sessions[n])
    requires (t.status == Over && t.pc == Idle) == (s.sessions[n].status == Over && s.sessions[n].pc == Idle)
    ensures PlacesOk(s')
  {
    forall m | 0 <= m < |s'.sessions|
      ensures NodePlaced(s', m)
    {
      assert NodePlaced(s, m);
    }
  }

  lemma CallQuietPlaces(s: State, n: nat, now: T.Clock)
    requires Inv(s) && Enabled(s, Call(n, now)) && Micro(n, s.sessions[n], s.world, now).effect == Quiet
    ensures PlacesOk(Called(s, n, now))
  {
    assert Shape(s.sessions[n]);
    PlacesSame(s, n, Micro(n, s.sessions[n], s.world, now).session, Called(s, n, now));
  }

  lemma JoinPlaces(s: State, n: nat, now: T.Clock)
    requires Inv(s) && Enabled(s, Call(n, now)) && s.sessions[n].pc.Joining?
    ensures PlacesOk(Called(s, n, now))
  {
    var r, g := Called(s, n, now), s.home[n].value;
    assert Shape(s.sessions[n]) && NodePlaced(s, n);
    NoDupAppend(s.groups[g].list, n);
    assert ValidRing(r.groups[g]);
    forall m | 0 <= m < |r.sessions|
      ensures NodePlaced(r, m)
    {
      assert NodePlaced(s, m);
    }
  }

  lemma RecyclingPlaces(s: State, n: nat, now: T.Clock)
    requires Inv(s) && Enabled(s, Call(n, now)) && s.sessions[n].pc.Recycling?
    ensures PlacesOk(Called(s, n, now))
  {
    var r := Called(s, n, now);
    assert Shape(s.sessions[n]) && NodePlaced(s, n);
    NoDupAppend(s.recycleQueue, n);
    forall m | 0 <= m < |r.sessions|
      ensures NodePlaced(r, m)
    {
      assert NodePlaced(s, m);
    }
  }

  lemma AcceptPlaces(s: State)
    requires Inv(s) && Enabled(s, Accept)
    ensures PlacesOk(Accepted(s))
  {
    var r, n := Accepted(s), s.pool[0];
    assert s.pool == [n] + r.pool;
    assert forall m :: m in s.pool <==> m == n || m in r.pool;
    assert n !in r.pool;
    forall m | 0 <= m < |r.sessions|
      ensures NodePlaced(r, m)
    {
      assert NodePlaced(s, m);
    }
  }

  lemma RecyclePlaces(s: State)
    requires Inv(s) && Enabled(s, Recycle)
    ensures PlacesOk(Recycled(s))
  {
    var r, n := Recycled(s), s.recycleQueue[0];
    var g := s.home[n].value;
    assert NodePlaced(s, n);
    assert s.recycleQueue == [n] + r.recycleQueue;
    assert forall m :: m in s.recycleQueue <==> m == n || m in r.recycleQueue;
    assert n !in r.recycleQueue;
    NoDupAppend(s.pool, n);
    ApplyValid(s.groups[g], Remove(n));
    WithoutElements(s.groups[g].list, n);
    forall m | 0 <= m < |r.sessions|
      ensures NodePlaced(r, m)
    {
      assert NodePlaced(s, m);
    }
  }

  lemma RollPlaces(s: State, g: nat)
    requires Inv(s) && Enabled(s, Roll(g))
    ensures PlacesOk(Next(s, Roll(g)))
  {
    var r := Next(s, Roll(g));
    ApplyValid(s.groups[g], Visit);
    forall m | 0 <= m < |r.sessions|
      ensures NodePlaced(r, m)
    {
      assert NodePlaced(s, m);
    }
  }

  // ----- all parts together -----

  /** In a state that satisfies the invariant no assert of the code can fail. */
  lemma AssertsHold(s: State, step: Step)
    requires Inv(s) && Possible(s, step)
    ensures Asserted(s, step)
  {
    hide Shape, NodePlaced, RegistryOk;
    match step
    case Accept =>
      assert s.pool[0] in s.pool;
      PlacedAsserts(s, s.pool[0]);
    case Call(n, _) =>
      CallArmable(s, n);
      PlacedAsserts(s, n);
    case TimerDrain => T.DrainInv(s.world.timers);
    case TimerVisit(now) => T.VisitInv(s.world.timers, now, true);
    case Recycle =>
      var n := s.recycleQueue[0];
      assert n in s.recycleQueue;
      PlacedAsserts(s, n);
    case _ =>
  }

  /** What the asserts ask of one node. */
  lemma PlacedAsserts(s: State, n: nat)
    requires Inv(s) && n < |s.sessions|
    ensures var t := s.sessions[n];
      && n < |s.home| && (t.status != Free ==> s.home[n].Some? && s.home[n].value < |s.groups|)
      && (n in s.pool ==> t.status == Free)
      && (n in s.recycleQueue ==> t.status == Over && t.pc == Idle)
      && (t.status == Free || (t.status == Over && t.pc == Idle) ==> Cleared(t))
      && (t.pc.Joining? ==> t.status != Free) && (t.pc.Recycling? ==> t.status == Over)
      && (t.pc.Leaving? && t.sid != "" ==> t.sid in s.world.registry && s.world.registry[t.sid] == n)
  {
    hide TimersOk;
    assert Shape(s.sessions[n]) && NodePlaced(s, n);
  }

  lemma AcceptInv(s: State)
    requires Inv(s) && Enabled(s, Accept)
    ensures Inv(Accepted(s))
  {
    var n := s.pool[0];
    var t := Attached(s.sessions[n]);
    AcceptPlaces(s);
    assert Recorded(t) == Recorded(s.sessions[n]);
    PrivateStep(s.sessions, s.world.timers, n, t);
    RegistrySame(s.sessions, s.world.registry, n, t);
  }

  lemma DeliverTimers(s: State, n: nat, msg: Msg)
    requires TimersOk(s.sessions, s.world.timers) && Possible(s, Deliver(n, msg))
    ensures TimersOk(s.sessions[n := Handled(s.sessions[n], msg)], s.world.timers)
  {
    var t := Handled(s.sessions[n], msg);
    StopKeepsRecords(s.sessions[n], true);
    assert Recorded(t) == Recorded(s.sessions[n]);
    PrivateStep(s.sessions, s.world.timers, n, t);
  }

  lemma DeliverOthers(s: State, n: nat, msg: Msg)
    requires Shapes(s.sessions) && RegistryOk(s.sessions, s.world.registry) && PlacesOk(s)
    requires Possible(s, Deliver(n, msg))
    ensures var t := Handled(s.sessions[n], msg);
      && Shapes(s.sessions[n := t])
      && RegistryOk(s.sessions[n := t], s.world.registry) && PlacesOk(WithSession(s, n, t))
  {
    var t := Handled(s.sessions[n], msg);
    assert Shape(s.sessions[n]);
    HandledShape(s.sessions[n], msg);
    RegistrySame(s.sessions, s.world.registry, n, t);
    PlacesSame(s, n, t, WithSession(s, n, t));
  }

  lemma DeliverInv(s: State, n: nat, msg: Msg)
    requires Inv(s) && Enabled(s, Deliver(n, msg))
    ensures Inv(Next(s, Deliver(n, msg)))
  {
    DeliverTimers(s, n, msg);
    DeliverOthers(s, n, msg);
  }

  lemma PushInv(s: State, n: nat, stamp: nat, sent: bool)
    requires Inv(s) && Enabled(s, Push(n, stamp, sent))
    ensures Inv(Next(s, Push(n, stamp, sent)))
  {
    var t := Pushed(s.sessions[n], stamp, sent);
    PushedShape(s.sessions[n], stamp, sent);
    assert Recorded(t) == Recorded(s.sessions[n]);
    PrivateStep(s.sessions, s.world.timers, n, t);
    RegistrySame(s.sessions, s.world.registry, n, t);
    PlacesSame(s, n, t, Next(s, Push(n, stamp, sent)));
  }

  lemma CallInv(s: State, n: nat, now: T.Clock)
    requires Inv(s) && Enabled(s, Call(n, now))
    ensures Inv(Next(s, Call(n, now)))
  {
    hide TimersOk, RegistryOk, PlacesOk;
    MicroShape(n, s.sessions[n], s.world, now);
    CallTimers(s, n, now);
    CallRegistry(s, n, now);
    if s.sessions[n].pc.Joining? {
      JoinPlaces(s, n, now);
    } else if s.sessions[n].pc.Recycling? {
      RecyclingPlaces(s, n, now);
    } else {
      CallQuietPlaces(s, n, now);
    }
  }

  lemma RecycleInv(s: State)
    requires Inv(s) && Enabled(s, Recycle)
    ensures Inv(Next(s, Recycle))
  {
    var n := s.recycleQueue[0];
    var t := s.sessions[n].(status := Free);
    assert NodePlaced(s, n) && n in s.recycleQueue;
    RecyclePlaces(s);
    assert Recorded(t) == Recorded(s.sessions[n]);
    PrivateStep(s.sessions, s.world.timers, n, t);
    RegistrySame(s.sessions, s.world.registry, n, t);
  }

  lemma PlacesSameWorld(s: State, s': State)
    requires PlacesOk(s) && s' == s.(world := s'.world)
    ensures PlacesOk(s')
  {
    forall m | 0 <= m < |s'.sessions|
      ensures NodePlaced(s', m)
    {
      assert NodePlaced(s, m);
    }
  }

  lemma NextInv(s: State, step: Step)
    requires Inv(s) && Enabled(s, step)
    ensures Inv(Next(s, step))
  {
    match step
    case Accept => AcceptInv(s);
    case Deliver(n, msg) => DeliverInv(s, n, msg);
    case Roll(g) => RollPlaces(s, g);
    case Push(n, stamp, sent) => PushInv(s, n, stamp, sent);
    case Call(n, now) => CallInv(s, n, now);
    case TimerDrain =>
      DrainStep(s.sessions, s.world.timers);
      PlacesSameWorld(s, Next(s, step));
    case TimerVisit(now) =>
      VisitStep(s.sessions, s.world.timers, now);
      PlacesSameWorld(s, Next(s, step));
    case Recycle => RecycleInv(s);
    case Elsewhere =>
  }
}
