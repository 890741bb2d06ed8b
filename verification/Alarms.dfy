/** What the timers of a session are for, over every run: whose parameter, period and number of times
    a waiting timer carries, and that the message it causes means to the session what setTimer was
    called for. A session knows its timers by slot, and slots are reused: which of its records a slot
    still belongs to is part of the answer. */
module Alarms {
  import opened Prelude
  import opened RoundRobin
  import opened Sessions
  import opened Server
  import opened ServerSteps
  import opened ServerTimers
  import T = TimerSpec
  import R = TimerRuns
  import SR = ServerRuns

  // ----- the serial view -----

  /** The session is inside setTimer, which has filled slot id for this use. */
  ghost predicate Sets(pc: Pc, use: Use, id: nat) {
    pc.Arming? && pc.use == use && (pc.stage == Recording(id) || (pc.stage.Enqueueing? && pc.stage.timer.id == id))
  }

  ghost predicate SetsAck(pc: Pc, number: nat, id: nat) {
    pc.Arming? && pc.use.Ack? && pc.use.number == number && Sets(pc, pc.use, id)
  }

  /** The handshake time-out: parameter CONNECTED, once. */
  ghost predicate IsHandshake(t: Session, slot: T.Slot, id: nat) {
    && t.status == Connected && slot.tag == Code(Connected) && slot.times == 1
    && (t.keepLive == Some(id) || Sets(t.pc, Handshake, id))
  }

  /** The keepalive: parameter READY, without end; no pushed message waits with this slot. */
  ghost predicate IsKeepalive(t: Session, slot: T.Slot, id: nat) {
    && t.status == Ready && slot.tag == Code(Ready) && slot.times == 0
    && (t.keepLive == Some(id) || Sets(t.pc, KeepLive, id))
    && id !in t.seqTimers.Values && !(t.pc.Arming? && t.pc.use.Ack? && Sets(t.pc, t.pc.use, id))
  }

  /** The ack time-out of a pushed message: its number as the parameter, once. */
  ghost predicate IsAck(t: Session, slot: T.Slot, id: nat) {
    && t.status == Ready && slot.times == 1
    && ((slot.tag in t.seqTimers && t.seqTimers[slot.tag] == id) || SetsAck(t.pc, slot.tag, id))
  }

  /** __onStop is going to kill it. */
  ghost predicate IsDoomed(t: Session, slot: T.Slot, id: nat) {
    t.status == Over && slot.times <= 1 && t.pc.Stopping? && id in t.pc.ids
  }

  /** What an armed timer of session t is. */
  ghost predicate Fits(t: Session, slot: T.Slot, id: nat) {
    IsHandshake(t, slot, id) || IsKeepalive(t, slot, id) || IsAck(t, slot, id) || IsDoomed(t, slot, id)
  }

  ghost predicate Fitting(sessions: seq<Session>, world: World) {
    forall id | 0 <= id < |world.timers.slots| && Armed(world.timers.slots[id]) ::
      && world.timers.slots[id].owner < |sessions| && world.timers.slots[id].period == world.interval
      && Fits(sessions[world.timers.slots[id].owner], world.timers.slots[id], id)
  }

  /** An armed timer has come from an armed timer, and is for the same. */
  ghost predicate Inherits(slot: T.Slot, was: T.Slot) {
    && Armed(was) && slot.owner == was.owner && slot.tag == was.tag
    && slot.times == was.times && slot.period == was.period
  }

  /** Session n becomes t and the timers change: what has to be shown. */
  lemma FittingStep(sessions: seq<Session>, w: World, n: nat, t: Session, w': World)
    requires Fitting(sessions, w) && n < |sessions| && w'.interval == w.interval
    requires |w'.timers.slots| == |w.timers.slots|
    requires forall id | 0 <= id < |w'.timers.slots| && Armed(w'.timers.slots[id]) ::
      var slot := w'.timers.slots[id];
      if slot.owner == n then Fits(t, slot, id) && slot.period == w.interval else Inherits(slot, w.timers.slots[id])
    ensures Fitting(sessions[n := t], w')
  {
  }

  /** Timer id of session t, if it is armed still, fits t' as it fitted t. */
  ghost predicate PassesOn(t: Session, t': Session, slot: T.Slot, slot': T.Slot, id: nat, n: nat) {
    Armed(slot') ==> Inherits(slot', slot) && (slot.owner == n && Fits(t, slot, id) ==> Fits(t', slot', id))
  }

  ghost predicate Passes(t: Session, t': Session, timers: T.State, timers': T.State, n: nat) {
    && |timers'.slots| == |timers.slots|
    && forall id | 0 <= id < |timers.slots| :: PassesOn(t, t', timers.slots[id], timers'.slots[id], id, n)
  }

  lemma PassingStep(sessions: seq<Session>, w: World, n: nat, t: Session, w': World)
    requires Fitting(sessions, w) && n < |sessions| && w'.interval == w.interval
    requires Passes(sessions[n], t, w.timers, w'.timers, n)
    ensures Fitting(sessions[n := t], w')
  {
    hide Fits;
    forall id | 0 <= id < |w.timers.slots|
      ensures PassesOn(sessions[n], t, w.timers.slots[id], w'.timers.slots[id], id, n)
    {
    }
    FittingStep(sessions, w, n, t, w');
  }

  lemma HandledPasses(t: Session, msg: Msg, timers: T.State, n: nat)
    requires Shape(t) && t.pc == Idle && (t.status == Connected || t.status == Ready)
    ensures Passes(t, Handled(t, msg), timers, timers, n)
  {
  }

  lemma PushedPasses(t: Session, stamp: nat, sent: bool, timers: T.State, n: nat)
    requires Shape(t) && t.pc == Idle && t.status == Ready
    ensures Passes(t, Pushed(t, stamp, sent), timers, timers, n)
  {
  }

  /** killTimer: only the killed timer is not armed any more. */
  lemma KilledInherits(timers: T.State, id: nat, j: nat)
    requires id < |timers.slots| && j < |timers.slots|
    ensures |T.Killed(timers, id).slots| == |timers.slots|
    ensures Armed(T.Killed(timers, id).slots[j]) ==>
      j != id && T.Killed(timers, id).slots[j] == timers.slots[j] && Inherits(timers.slots[j], timers.slots[j])
  {
  }

  lemma GreetingPasses(self: nat, t: Session, w: World, now: T.Clock, n: nat)
    requires Shape(t) && t.pc.Greeting? && Armable(t, w)
    ensures var o := Micro(self, t, w, now); Passes(t, o.session, w.timers, o.world.timers, n)
  {
    var o := Micro(self, t, w, now);
    forall j | 0 <= j < |w.timers.slots|
      ensures PassesOn(t, o.session, w.timers.slots[j], o.world.timers.slots[j], j, n)
    {
      KilledInherits(w.timers, t.keepLive.value, j);
    }
  }

  lemma ForgettingPasses(self: nat, t: Session, w: World, now: T.Clock, n: nat)
    requires Shape(t) && t.pc.Forgetting? && Armable(t, w)
    ensures var o := Micro(self, t, w, now); Passes(t, o.session, w.timers, o.world.timers, n)
  {
    var o, k := Micro(self, t, w, now), t.pc.number;
    ForgettingKeeps(t.seqTimers, k);
    forall j | 0 <= j < |w.timers.slots|
      ensures PassesOn(t, o.session, w.timers.slots[j], o.world.timers.slots[j], j, n)
    {
      KilledInherits(w.timers, t.seqTimers[k], j);
    }
  }

  lemma StoppingPasses(self: nat, t: Session, w: World, now: T.Clock, n: nat)
    requires Shape(t) && t.pc.Stopping? && Armable(t, w)
    ensures var o := Micro(self, t, w, now); Passes(t, o.session, w.timers, o.world.timers, n)
  {
    var o, ids := Micro(self, t, w, now), t.pc.ids;
    if ids != [] {
      assert ids == [ids[0]] + ids[1..];
      forall j | 0 <= j < |w.timers.slots|
        ensures PassesOn(t, o.session, w.timers.slots[j], o.world.timers.slots[j], j, n)
      {
        KilledInherits(w.timers, ids[0], j);
      }
    }
  }

  lemma QuietPasses(self: nat, t: Session, w: World, now: T.Clock, n: nat)
    requires Shape(t) && Armable(t, w)
    requires t.pc.Joining? || t.pc.Registering? || t.pc.Leaving? || t.pc.Recycling?
    ensures var o := Micro(self, t, w, now); Passes(t, o.session, w.timers, o.world.timers, n)
  {
  }

  lemma ArmingPasses(self: nat, t: Session, w: World, now: T.Clock, n: nat)
    requires Shape(t) && t.pc.Arming? && !t.pc.stage.Filling? && Armable(t, w)
    ensures var o := ArmingStep(self, t, w, now); Passes(t, o.session, w.timers, o.world.timers, n)
  {
    hide Passes, PassesOn;
    var o := ArmingStep(self, t, w, now);
    if t.pc.stage.Recording? {
      forall id, slot
        ensures PassesOn(t, o.session, slot, slot, id, n)
      {
        RecordingPasses(t, o.session, slot, id, n);
      }
    } else {
      forall id, slot
        ensures PassesOn(t, o.session, slot, slot, id, n)
      {
        SettingPasses(t, o.session, slot, id, n);
      }
    }
    SameSlots(t, o.session, w.timers, o.world.timers, n);
  }

  lemma SameSlots(t: Session, t': Session, timers: T.State, timers': T.State, n: nat)
    requires timers'.slots == timers.slots && forall id: nat, slot :: PassesOn(t, t', slot, slot, id, n)
    ensures Passes(t, t', timers, timers', n)
  {
  }

  /** The id that setTimer has returned is recorded. */
  lemma RecordingPasses(t: Session, t': Session, slot: T.Slot, id: nat, n: nat)
    requires Shape(t) && t.pc.Arming? && t.pc.stage.Recording?
    requires match t.pc.use
      case Handshake => t' == t.(keepLive := Some(t.pc.stage.id), pc := Joining)
      case KeepLive => t' == t.(keepLive := Some(t.pc.stage.id), pc := Idle)
      case Ack(k, stamp) => t' == t.(seqTimers := t.seqTimers[k := t.pc.stage.id], lastUpdate := stamp, pc := Idle)
    ensures PassesOn(t, t', slot, slot, id, n)
  {
    if t.pc.use.Ack? {
      assert t'.seqTimers.Values <= t.seqTimers.Values + {t.pc.stage.id};
    }
  }

  lemma SettingPasses(t: Session, t': Session, slot: T.Slot, id: nat, n: nat)
    requires Shape(t) && t.pc.Arming? && (t.pc.stage.Allocating? || t.pc.stage.Enqueueing?)
    requires
      || t' == t.(pc := Stranded) || t' == Stopped(t, t.pc.use.KeepLive?)
      || (t.pc.stage.Allocating? && t'.pc.Arming? && t'.pc.stage.Filling? && t' == t.(pc := Arming(t.pc.use, t'.pc.stage)))
      || (t.pc.stage.Enqueueing? && t' == t.(pc := Arming(t.pc.use, Recording(t.pc.stage.timer.id))))
    requires t'.pc == Stranded ==> t.pc.stage.Allocating? && t.pc.use.Handshake?
    requires t'.pc.Stopping? ==> t.pc.stage.Allocating? && !t.pc.use.Handshake?
    ensures PassesOn(t, t', slot, slot, id, n)
  {
  }

  /** setTimer fills the slot with what it is for. */
  lemma FillingFits(s: State, n: nat, now: T.Clock)
    requires Inv(s) && Fitting(s.sessions, s.world) && n < |s.sessions|
    requires s.sessions[n].pc.Arming? && s.sessions[n].pc.stage.Filling? && Armable(s.sessions[n], s.world)
    ensures var o := ArmingStep(n, s.sessions[n], s.world, now);
      Fitting(s.sessions[n := o.session], o.world)
  {
    hide Fits, PlacesOk, RegistryOk;
    var t, w := s.sessions[n], s.world;
    var o, filled := ArmingStep(n, t, w, now), t.pc.stage.id;
    assert Shape(t);
    forall id | 0 <= id < |w.timers.slots| && Armed(o.world.timers.slots[id])
      ensures var slot := o.world.timers.slots[id];
        if slot.owner == n then Fits(o.session, slot, id) && slot.period == w.interval
        else Inherits(slot, w.timers.slots[id])
    {
      if id == filled {
        NewFits(t, o.session, o.world.timers.slots[id]);
      } else if w.timers.slots[id].owner == n {
        OldFits(t, o.session, w.timers.slots[id], id);
      }
    }
    FittingStep(s.sessions, w, n, o.session, o.world);
  }

  lemma NewFits(t: Session, t': Session, slot: T.Slot)
    requires Shape(t) && t.pc.Arming? && t.pc.stage.Filling?
    requires t'.pc.Arming? && t'.pc.stage.Enqueueing? && t'.pc.stage.timer.id == t.pc.stage.id
    requires t' == t.(pc := Arming(t.pc.use, t'.pc.stage))
    requires slot.tag == Tag(t.pc.use) && slot.times == Times(t.pc.use)
    ensures Fits(t', slot, t.pc.stage.id)
  {
  }

  lemma OldFits(t: Session, t': Session, slot: T.Slot, id: nat)
    requires Fits(t, slot, id) && t.pc.Arming? && t.pc.stage.Filling? && id != t.pc.stage.id
    requires t'.pc.Arming? && t'.pc.stage.Enqueueing? && t'.pc.stage.timer.id == t.pc.stage.id
    requires t' == t.(pc := Arming(t.pc.use, t'.pc.stage))
    ensures Fits(t', slot, id)
  {
  }

  /** Another session, or none, has moved and no timer is armed anew. */
  lemma CallFits(s: State, n: nat, now: T.Clock)
    requires Inv(s) && Fitting(s.sessions, s.world) && Enabled(s, Call(n, now))
    ensures Fitting(Next(s, Call(n, now)).sessions, Next(s, Call(n, now)).world)
  {
    hide Inv, Fitting, Passes, Micro, Armable;
    var t, o := s.sessions[n], Micro(n, s.sessions[n], s.world, now);
    SR.CalledShape(s, n, now);
    CalledState(s, n, now);
    if t.pc.Arming? && t.pc.stage.Filling? {
      ArmingIsMicro(n, t, s.world, now);
      FillingFits(s, n, now);
    } else {
      MicroPasses(n, t, s.world, now, n);
      PassingStep(s.sessions, s.world, n, o.session, o.world);
    }
  }

  lemma CalledState(s: State, n: nat, now: T.Clock)
    requires Enabled(s, Call(n, now))
    ensures var o := Micro(n, s.sessions[n], s.world, now);
      && Next(s, Call(n, now)).sessions == s.sessions[n := o.session] && Next(s, Call(n, now)).world == o.world
      && o.world.interval == s.world.interval
  {
  }

  lemma ArmingIsMicro(self: nat, t: Session, w: World, now: T.Clock)
    requires t.pc.Arming? && Armable(t, w)
    ensures Micro(self, t, w, now) == ArmingStep(self, t, w, now)
  {
  }

  lemma MicroPasses(self: nat, t: Session, w: World, now: T.Clock, n: nat)
    requires Shape(t) && Busy(t.pc) && Armable(t, w) && !(t.pc.Arming? && t.pc.stage.Filling?)
    ensures var o := Micro(self, t, w, now); Passes(t, o.session, w.timers, o.world.timers, n)
  {
    hide Shape, Armable, Micro, Passes;
    match t.pc
    case Arming(_, _) =>
      ArmingIsMicro(self, t, w, now);
      ArmingPasses(self, t, w, now, n);
    case Greeting(_) => GreetingPasses(self, t, w, now, n);
    case Forgetting(_) => ForgettingPasses(self, t, w, now, n);
    case Stopping(_, _) => StoppingPasses(self, t, w, now, n);
    case _ => QuietPasses(self, t, w, now, n);
  }

  /** The worker adds and fires timers; those that go on are as they were. */
  lemma WorkerFits(s: State, step: Step)
    requires Inv(s) && Fitting(s.sessions, s.world) && Enabled(s, step) && (step.TimerDrain? || step.TimerVisit?)
    ensures Fitting(Next(s, step).sessions, Next(s, step).world)
  {
    hide Fits, PlacesOk, RegistryOk, Shapes;
    var timers, r := s.world.timers, Next(s, step).world.timers;
    if step.TimerDrain? {
      R.DrainEffect(timers);
      DrainedSize(timers);
    } else {
      VisitedSlots(s, step.now);
    }
    forall id | 0 <= id < |r.slots| && Armed(r.slots[id])
      ensures Inherits(r.slots[id], timers.slots[id])
    {
    }
    forall id | 0 <= id < |r.slots| && Armed(r.slots[id])
      ensures Fits(s.sessions[r.slots[id].owner], r.slots[id], id)
    {
      SameFit(s.sessions[r.slots[id].owner], timers.slots[id], r.slots[id], id);
    }
  }

  lemma DrainedSize(timers: T.State)
    requires T.Below(timers.addQueue, |timers.slots|) && T.DelReady(timers)
    ensures |T.Drained(timers).slots| == |timers.slots|
  {
  }

  lemma FewTimes(t: Session, slot: T.Slot, id: nat)
    requires Fits(t, slot, id)
    ensures slot.times <= 1
  {
  }

  lemma VisitedSlots(s: State, now: T.Clock)
    requires Inv(s) && Fitting(s.sessions, s.world) && Enabled(s, TimerVisit(now))
    ensures var timers, r := s.world.timers, Next(s, TimerVisit(now)).world.timers;
      && |r.slots| == |timers.slots|
      && forall id | 0 <= id < |r.slots| && Armed(r.slots[id]) :: Inherits(r.slots[id], timers.slots[id])
  {
    hide Fits, PlacesOk, RegistryOk, Shapes;
    var timers := s.world.timers;
    if timers.list != [] {
      hide T.Visited, T.Inv;
      R.VisitFires(timers, now, true);
      StayListed(timers, now);
      var id := Due(timers.list, timers.cur);
      if Armed(timers.slots[id]) {
        FewTimes(s.sessions[timers.slots[id].owner], timers.slots[id], id);
      }
    }
  }

  lemma StayListed(timers: T.State, now: T.Clock)
    requires T.Inv(timers) && T.Enabled(timers, T.Visit(now, true))
    ensures forall id | id in timers.list :: id < |timers.slots| && T.Listed(timers.slots[id].status)
  {
  }

  lemma SameFit(t: Session, slot: T.Slot, slot': T.Slot, id: nat)
    requires Fits(t, slot, id) && slot'.tag == slot.tag && slot'.times == slot.times
    ensures Fits(t, slot', id)
  {
  }

  /** Accepting and recycling: nothing is armed for the session. */
  lemma RestingPasses(t: Session, t': Session, timers: T.State, n: nat)
    requires Shape(t) && (t.status == Free || (t.status == Over && t.pc == Idle))
    ensures Passes(t, t', timers, timers, n)
  {
  }

  lemma SessionState(s: State, step: Step)
    requires Enabled(s, step) && (step.Accept? || step.Deliver? || step.Push? || step.Recycle?)
    ensures Next(s, step).world == s.world
    ensures Next(s, step).sessions == match step
      case Accept => s.sessions[s.pool[0] := Attached(s.sessions[s.pool[0]])]
      case Deliver(n, msg) => s.sessions[n := Handled(s.sessions[n], msg)]
      case Push(n, stamp, sent) => s.sessions[n := Pushed(s.sessions[n], stamp, sent)]
      case Recycle => s.sessions[s.recycleQueue[0] := s.sessions[s.recycleQueue[0]].(status := Free)]
      case _ => s.sessions
  {
  }

  lemma SessionFits(s: State, step: Step)
    requires Inv(s) && Fitting(s.sessions, s.world) && Enabled(s, step)
    requires step.Accept? || step.Deliver? || step.Push? || step.Recycle?
    ensures Fitting(Next(s, step).sessions, Next(s, step).world)
  {
    hide Fitting, Passes, Next, Handled, Pushed, TimersOk, RegistryOk, NodePlaced, Attached;
    SessionState(s, step);
    match step
    case Accept =>
      var n := s.pool[0];
      RestingPasses(s.sessions[n], Attached(s.sessions[n]), s.world.timers, n);
      PassingStep(s.sessions, s.world, n, Attached(s.sessions[n]), s.world);
    case Deliver(n, msg) =>
      HandledPasses(s.sessions[n], msg, s.world.timers, n);
      PassingStep(s.sessions, s.world, n, Handled(s.sessions[n], msg), s.world);
    case Push(n, stamp, sent) =>
      PushedPasses(s.sessions[n], stamp, sent, s.world.timers, n);
      PassingStep(s.sessions, s.world, n, Pushed(s.sessions[n], stamp, sent), s.world);
    case Recycle =>
      var n := s.recycleQueue[0];
      RecycledAtRest(s);
      RestingPasses(s.sessions[n], s.sessions[n].(status := Free), s.world.timers, n);
      PassingStep(s.sessions, s.world, n, s.sessions[n].(status := Free), s.world);
  }

  lemma RecycledAtRest(s: State)
    requires Inv(s) && Enabled(s, Recycle)
    ensures s.sessions[s.recycleQueue[0]].status == Over && s.sessions[s.recycleQueue[0]].pc == Idle
  {
    PlacedAsserts(s, s.recycleQueue[0]);
    assert s.recycleQueue[0] in s.recycleQueue;
  }

  lemma NextFits(s: State, step: Step)
    requires Inv(s) && Fitting(s.sessions, s.world) && Enabled(s, step)
    ensures Fitting(Next(s, step).sessions, Next(s, step).world)
  {
    hide Inv, Fitting;
    match step
    case Call(n, now) => CallFits(s, n, now);
    case TimerDrain => WorkerFits(s, step);
    case TimerVisit(_) => WorkerFits(s, step);
    case Roll(_) =>
    case Elsewhere =>
    case _ => SessionFits(s, step);
  }

  lemma InitialFits(s: State)
    requires Initial(s)
    ensures Fitting(s.sessions, s.world)
  {
  }

  lemma {:induction false} RunFits(b: seq<State>, steps: seq<Step>, i: nat)
    requires SR.Behavior(b, steps) && i < |b|
    ensures Fitting(b[i].sessions, b[i].world)
  {
    hide Inv, Initial, Enabled, Next, Fitting;
    if i == 0 {
      InitialFits(b[0]);
    } else {
      RunFits(b, steps, i - 1);
      SR.BehaviorStep(b, steps, i - 1);
      NextFits(b[i - 1], steps[i - 1]);
    }
  }

  // ----- how long a keepalive timer lasts -----

  /** n is ready, and slot id is what its keepalive setTimer has returned, or is about to. */
  ghost predicate Keeps(t: Session, id: nat) {
    t.status == Ready && (t.keepLive == Some(id) || Sets(t.pc, KeepLive, id))
  }

  /** Slot id is armed for n without end. */
  ghost predicate Endless(timers: T.State, n: nat, id: nat) {
    id < |timers.slots| && Armed(timers.slots[id]) && timers.slots[id].owner == n && timers.slots[id].times == 0
  }

  /** The call in front of which the session is, is killTimer(id). */
  ghost predicate Kills(t: Session, id: nat) {
    match t.pc
    case Greeting(_) => t.keepLive == Some(id)
    case Forgetting(k) => k in t.seqTimers && t.seqTimers[k] == id
    case Stopping(ids, _) => ids != [] && ids[0] == id
    case _ => false
  }

  ghost predicate KillsNow(s: State, step: Step, id: nat) {
    step.Call? && step.n < |s.sessions| && Kills(s.sessions[step.n], id)
  }

  /** A call of session m, for a timer that is endless for n: only killTimer ends that, and only n's
      keepalive setTimer begins it. */
  lemma MicroEndless(m: nat, t: Session, w: World, now: T.Clock, n: nat, id: nat)
    requires Busy(t.pc) && Armable(t, w) && Shape(t) && T.Inv(w.timers)
    requires m == n ==> Keeps(t, id)
    ensures var w' := Micro(m, t, w, now).world;
      Endless(w'.timers, n, id) <==> Endless(w.timers, n, id) && !Kills(t, id)
  {
    hide T.Inv;
    if t.pc.Arming? && t.pc.stage.Filling? {
      SettingUnused(w.timers, t.pc.stage.id);
    }
  }

  lemma SettingUnused(timers: T.State, id: nat)
    requires T.Inv(timers) && id in timers.setting
    ensures id < |timers.slots| && T.Unused(timers.slots[id].status)
  {
  }

  lemma MicroKeeps(m: nat, t: Session, w: World, now: T.Clock, id: nat)
    requires Busy(t.pc) && Armable(t, w) && Shape(t) && Keeps(t, id)
    ensures var u := Micro(m, t, w, now).session; u.status == Ready ==> Keeps(u, id)
  {
  }

  lemma HandledKeeps(t: Session, msg: Msg, id: nat)
    requires t.pc == Idle && Keeps(t, id)
    ensures Handled(t, msg).status == Ready ==> Keeps(Handled(t, msg), id)
  {
  }

  lemma WorkerEndless(timers: T.State, step: T.Step, n: nat, id: nat)
    requires T.Inv(timers) && T.Enabled(timers, step) && (step.Drain? || (step.Visit? && step.again))
    ensures Endless(T.Next(timers, step), n, id) <==> Endless(timers, n, id)
  {
    if step.Drain? {
      R.DrainEffect(timers);
      DrainedSize(timers);
    } else if timers.list != [] {
      hide T.Visited, T.Inv;
      R.VisitFires(timers, step.now, true);
      StayListed(timers, step.now);
    }
  }

  lemma EndlessStep(s: State, step: Step, s': State, n: nat, id: nat)
    requires Inv(s) && Enabled(s, step) && s' == Next(s, step)
    requires n < |s.sessions| && Keeps(s.sessions[n], id) && s.sessions[n].status == Ready
    requires n < |s'.sessions| && s'.sessions[n].status == Ready
    ensures Keeps(s'.sessions[n], id)
    ensures Endless(s'.world.timers, n, id) <==> Endless(s.world.timers, n, id) && !KillsNow(s, step, id)
  {
    hide Inv, T.Inv, Keeps, Endless, Kills, Handled, Pushed, Micro, Shape, Armable, Attached, T.Drained, T.Visited;
    SR.ReadyAfter(s, step, s', n);
    TimersInv(s);
    match step
    case Call(m, now) =>
      CallEndless(s, m, now, n, id);
      if m == n {
        SR.CalledShape(s, n, now);
        MicroKeeps(n, s.sessions[n], s.world, now, id);
      }
    case Deliver(m, msg) => if m == n { HandledKeeps(s.sessions[n], msg, id); }
    case Push(m, stamp, sent) => if m == n { PushedKeeps(s.sessions[n], stamp, sent, id); }
    case TimerDrain => WorkerEndless(s.world.timers, T.Drain, n, id);
    case TimerVisit(now) => WorkerEndless(s.world.timers, T.Visit(now, true), n, id);
    case _ =>
  }

  lemma TimersInv(s: State)
    requires Inv(s)
    ensures T.Inv(s.world.timers)
  {
  }

  lemma PushedKeeps(t: Session, stamp: nat, sent: bool, id: nat)
    requires t.pc == Idle && t.seqCounter < WRAP && Keeps(t, id)
    ensures Keeps(Pushed(t, stamp, sent), id)
  {
  }

  lemma CallEndless(s: State, m: nat, now: T.Clock, n: nat, id: nat)
    requires Inv(s) && Enabled(s, Call(m, now)) && n < |s.sessions| && Keeps(s.sessions[n], id)
    ensures Endless(Next(s, Call(m, now)).world.timers, n, id)
      <==> Endless(s.world.timers, n, id) && !Kills(s.sessions[m], id)
  {
    hide PlacesOk, RegistryOk, Keeps, Endless, Kills, Micro, Shape, Tracked, Armable;
    SR.CalledShape(s, m, now);
    CalledState(s, m, now);
    MicroEndless(m, s.sessions[m], s.world, now, n, id);
  }

  /** From the setTimer of __onStart on, for as long as the session is ready, its keepalive timer stays
      armed, exactly until somebody calls killTimer with its id; the session itself does so only for a
      pushed message whose timer had this slot before. */
  lemma {:induction false} KeepaliveLasts(b: seq<State>, steps: seq<Step>, n: nat, id: nat, i: nat, j: nat)
    requires SR.Behavior(b, steps) && i <= j < |b| == |steps| + 1 && SR.ReadyDuring(b, n, i, j)
    requires Keeps(b[i].sessions[n], id)
    ensures Keeps(b[j].sessions[n], id)
    ensures Endless(b[j].world.timers, n, id)
      <==> Endless(b[i].world.timers, n, id) && forall k | i <= k < j :: !KillsNow(b[k], steps[k], id)
    decreases j
  {
    hide Inv, Initial, Enabled, Next, Keeps, Endless, KillsNow;
    if i < j {
      assert SR.ReadyDuring(b, n, i, j - 1);
      KeepaliveLasts(b, steps, n, id, i, j - 1);
      SR.BehaviorStep(b, steps, j - 1);
      EndlessStep(b[j - 1], steps[j - 1], b[j], n, id);
    }
  }
}
