/** What holds in every run of the serial view; WorkerRuns has it for the threads. */
module ServerRuns {
  import opened Prelude
  import opened RoundRobin
  import opened Sessions
  import opened Server
  import opened ServerSteps
  import T = TimerSpec
  import R = TimerRuns

  /** A run: its states and the steps between them. */
  ghost predicate Behavior(b: seq<State>, steps: seq<Step>) {
    && |b| == |steps| + 1 && Initial(b[0])
    && forall i {:trigger steps[i]} | 0 <= i < |steps| ::
         Enabled(b[i], steps[i]) && b[i + 1] == Next(b[i], steps[i])
  }

  lemma BehaviorLength(b: seq<State>, steps: seq<Step>)
    requires Behavior(b, steps)
    ensures |b| == |steps| + 1
  {
  }

  lemma InitialInv(s: State)
    requires Initial(s)
    ensures Inv(s)
  {
    T.InitialInv(s.world.timers);
    forall n | 0 <= n < |s.sessions|
      ensures NodePlaced(s, n) && Shape(s.sessions[n])
    {
      assert s.pool[n] == n;
    }
    assert forall t: Session :: t == FRESH ==> Recorded(t) == {};
  }

  lemma {:induction false} BehaviorInv(b: seq<State>, steps: seq<Step>, i: nat)
    requires Behavior(b, steps) && i < |b|
    ensures Inv(b[i])
  {
    if i == 0 {
      InitialInv(b[0]);
    } else {
      BehaviorInv(b, steps, i - 1);
      assert Enabled(b[i - 1], steps[i - 1]) && b[i - 1 + 1] == Next(b[i - 1], steps[i - 1]);
      NextInv(b[i - 1], steps[i - 1]);
    }
  }

  lemma BehaviorStep(b: seq<State>, steps: seq<Step>, i: nat)
    requires Behavior(b, steps) && i < |steps|
    ensures Inv(b[i]) && Enabled(b[i], steps[i]) && b[i + 1] == Next(b[i], steps[i])
  {
    BehaviorInv(b, steps, i);
  }

  /** No assert of onAttach, onDetach, killTimer, setTimer, unregisterTransaction or the timer list can
      fail in any run, and no node, group or list element that is followed is missing. */
  lemma NoAssertFails(b: seq<State>, steps: seq<Step>, i: nat, step: Step)
    requires Behavior(b, steps) && i < |b| && Possible(b[i], step)
    ensures Asserted(b[i], step)
  {
    BehaviorInv(b, steps, i);
    AssertsHold(b[i], step);
  }

  // ----- the life of a session -----

  /** Free, Connected, Ready, Over, Free again, or from Connected straight to Over. */
  ghost predicate Lives(was: Status, now: Status) {
    Moves(was, now) || (was == Free && now == Connected) || (was == Over && now == Free)
  }

  lemma StepNodes(s: State, step: Step, s': State)
    requires Enabled(s, step) && s' == Next(s, step)
    ensures |s'.sessions| == |s.sessions|
  {
  }

  lemma StepLives(s: State, step: Step, s': State, n: nat)
    requires Inv(s) && Enabled(s, step) && s' == Next(s, step) && n < |s.sessions|
    ensures n < |s'.sessions| == |s.sessions|
    ensures Lives(s.sessions[n].status, s'.sessions[n].status)
  {
    hide PlacesOk, TimersOk, RegistryOk, Handled, Micro, Shape, Cleared;
    assert Shape(s.sessions[n]);
    match step
    case Deliver(m, msg) => if m == n { HandledShape(s.sessions[n], msg); }
    case Call(m, now) => if m == n { MicroShape(n, s.sessions[n], s.world, now); }
    case _ =>
  }

  lemma {:induction false} SameNodes(b: seq<State>, steps: seq<Step>, i: nat)
    requires Behavior(b, steps) && i < |b|
    ensures |b[i].sessions| == |b[0].sessions|
  {
    hide *;
    BehaviorLength(b, steps);
    if i > 0 {
      SameNodes(b, steps, i - 1);
      BehaviorStep(b, steps, i - 1);
      StepNodes(b[i - 1], steps[i - 1], b[i]);
    }
  }

  /** In every run the status of each session goes round this cycle only, and whenever the session is
      in the pool, or is over and no handler of it is running, all its fields are cleared. */
  lemma Lifecycle(b: seq<State>, steps: seq<Step>, i: nat, n: nat)
    requires Behavior(b, steps) && i < |steps| && n < |b[0].sessions|
    ensures n < |b[i].sessions| == |b[i + 1].sessions|
    ensures Lives(b[i].sessions[n].status, b[i + 1].sessions[n].status)
    ensures var t := b[i].sessions[n];
      t.status == Free || (t.status == Over && !t.pc.Stopping? && !t.pc.Leaving?) ==> Cleared(t)
  {
    SameNodes(b, steps, i);
    BehaviorInv(b, steps, i);
    BehaviorStep(b, steps, i);
    StepLives(b[i], steps[i], b[i + 1], n);
    assert Shape(b[i].sessions[n]);
  }

  // ----- timers -----

  /** Once __onStop has made its killTimer calls, no timer of the session is waiting to be added or in
      the list unkilled, until the node is attached again. */
  lemma NoTimerAfterStop(b: seq<State>, steps: seq<Step>, i: nat, n: nat, id: nat)
    requires Behavior(b, steps) && i < |b| && n < |b[i].sessions| && id < |b[i].world.timers.slots|
    requires var t := b[i].sessions[n];
      t.status == Free || (t.status == Over && !t.pc.Stopping?) || (t.pc.Stopping? && t.pc.ids == [])
    ensures var slot := b[i].world.timers.slots[id]; !(Armed(slot) && slot.owner == n)
  {
    BehaviorInv(b, steps, i);
    assert Shape(b[i].sessions[n]);
    assert Recorded(b[i].sessions[n]) == {};
  }

  ghost predicate Homed(s: State, n: nat) {
    n < |s.home| && s.home[n].Some? && s.home[n].value < |s.groups|
  }

  /** The session of a timer that nobody has killed is attached. */
  lemma ArmedHomed(s: State, id: nat)
    requires Inv(s) && id < |s.world.timers.slots| && Armed(s.world.timers.slots[id])
    ensures Homed(s, s.world.timers.slots[id].owner)
    ensures s.sessions[s.world.timers.slots[id].owner].status != Free
  {
    var n := s.world.timers.slots[id].owner;
    assert id in Recorded(s.sessions[n]);
    assert Shape(s.sessions[n]) && NodePlaced(s, n);
  }

  /** Between drain and visit the list and the cursor stay, and so do the owners of the listed timers. */
  lemma ListKept(s: State, step: Step, s': State, id: nat)
    requires Inv(s) && Enabled(s, step) && s' == Next(s, step) && !step.TimerDrain? && !step.TimerVisit?
    ensures var timers, timers' := s.world.timers, s'.world.timers;
      && timers'.list == timers.list && timers'.cur == timers.cur && timers'.phase == timers.phase
      && (id in timers.list ==>
            id < |timers.slots| == |timers'.slots| && timers'.slots[id].owner == timers.slots[id].owner)
  {
    hide Shapes, RegistryOk, PlacesOk, Micro;
    if step.Call? {
      CallKeepsList(step.n, s.sessions[step.n], s.world, step.now, id);
    }
  }

  lemma CallKeepsList(self: nat, t: Session, w: World, now: T.Clock, id: nat)
    requires T.Inv(w.timers) && Busy(t.pc) && Armable(t, w)
    ensures var timers' := Micro(self, t, w, now).world.timers;
      && timers'.list == w.timers.list && timers'.cur == w.timers.cur && timers'.phase == w.timers.phase
      && (id in w.timers.list ==>
            id < |w.timers.slots| == |timers'.slots| && timers'.slots[id].owner == w.timers.slots[id].owner)
  {
  }

  /** After a drain every listed timer is one that nobody has killed. */
  lemma DrainedArmed(s: State, s': State, id: nat)
    requires Inv(s) && Enabled(s, TimerDrain) && s' == Next(s, TimerDrain) && id in s'.world.timers.list
    ensures id < |s'.world.timers.slots| && Armed(s'.world.timers.slots[id])
  {
    hide Shapes, RegistryOk, PlacesOk;
    R.DrainEffect(s.world.timers);
    T.DrainInv(s.world.timers);
  }

  // ----- the registry -----

  /** At most one session is ready under a session id, and every ready one is found under its own id,
      whatever logins have been rejected meanwhile. */
  lemma OneReadySession(b: seq<State>, steps: seq<Step>, i: nat, n: nat, m: nat)
    requires Behavior(b, steps) && i < |b| && n < |b[i].sessions| && m < |b[i].sessions|
    requires b[i].sessions[n].status == Ready
    ensures var s := b[i];
      && s.sessions[n].sid in s.world.registry && s.world.registry[s.sessions[n].sid] == n
      && (s.sessions[m].status == Ready && s.sessions[m].sid == s.sessions[n].sid ==> m == n)
  {
    BehaviorInv(b, steps, i);
  }

  /** The registry's keys point into the sessions' own buffers: the text behind a key never changes. */
  lemma KeysKeepTheirText(b: seq<State>, steps: seq<Step>, i: nat, k: string)
    requires Behavior(b, steps) && i < |b| && k in b[i].world.registry
    ensures var s := b[i]; var o := s.world.registry[k];
      o < |s.sessions| && s.sessions[o].sid == k && k != ""
  {
    BehaviorInv(b, steps, i);
    assert Shape(b[i].sessions[b[i].world.registry[k]]);
  }

  // ----- the nodes -----

  ghost predicate InGroup(s: State, n: nat, g: nat) {
    g < |s.groups| && n in s.groups[g].list
  }

  /** Each node is in exactly one place: the pool, just when it is free; one group's container; or it
      is being attached, or its attach has failed. */
  lemma NodesConserved(b: seq<State>, steps: seq<Step>, i: nat, n: nat)
    requires Behavior(b, steps) && i < |b| && n < |b[i].sessions|
    ensures var s := b[i]; var t := s.sessions[n];
      && (n in s.pool <==> t.status == Free)
      && multiset(s.pool)[n] <= 1
      && (n in s.pool ==> !Outside(t) && forall g: nat :: !InGroup(s, n, g))
      && (Outside(t) ==> forall g: nat :: !InGroup(s, n, g))
      && (n !in s.pool && !Outside(t) ==>
            exists g: nat :: InGroup(s, n, g) && multiset(s.groups[g].list)[n] == 1
              && forall h: nat :: InGroup(s, n, h) ==> h == g)
  {
    BehaviorInv(b, steps, i);
    var s := b[i];
    assert NodePlaced(s, n);
    R.Once(s.pool, n);
    if n !in s.pool && !Outside(s.sessions[n]) {
      var g := s.home[n].value;
      assert InGroup(s, n, g) && ValidRing(s.groups[g]);
      R.Once(s.groups[g].list, n);
    }
  }

  /** The recycle queue holds sessions that are over, each once; what is over and at rest is there,
      unless it was ended inside onCheck. */
  lemma RecycleQueueExact(b: seq<State>, steps: seq<Step>, i: nat, n: nat)
    requires Behavior(b, steps) && i < |b| && n < |b[i].sessions|
    ensures var s := b[i]; var t := s.sessions[n];
      && multiset(s.recycleQueue)[n] <= 1
      && (n in s.recycleQueue <==> t.status == Over && t.pc == Idle)
      && (t.status == Over && !Busy(t.pc) ==> n in s.recycleQueue || t.pc == Abandoned)
  {
    BehaviorInv(b, steps, i);
    assert NodePlaced(b[i], n) && Shape(b[i].sessions[n]);
    R.Once(b[i].recycleQueue, n);
  }

  // ----- keepalive -----

  /** The keepalive timer of node n is handled. */
  ghost predicate Tick(s: State, step: Step, n: nat) {
    && n < |s.sessions| && step.Deliver? && step.n == n && step.msg.OnTimer?
    && s.sessions[n].keepLive == Some(step.msg.timerId) && step.msg.parameter == Code(Ready)
  }

  ghost predicate ReadyDuring(b: seq<State>, n: nat, i: nat, j: nat)
    requires i <= j < |b|
  {
    forall k | i <= k <= j :: n < |b[k].sessions| && b[k].sessions[n].status == Ready
  }

  /** Since the last tick, or since state i, a heartbeat ack has been handled; before that, what the
      session had noted at state i. */
  ghost predicate Acked(b: seq<State>, steps: seq<Step>, n: nat, i: nat, j: nat)
    requires i <= j < |b| == |steps| + 1 && n < |b[i].sessions|
  {
    if j == i then b[i].sessions[n].heartbeat
    else if steps[j - 1] == Deliver(n, HeartBeatAck) then true
    else !Tick(b[j - 1], steps[j - 1], n) && Acked(b, steps, n, i, j - 1)
  }

  lemma MicroHeartbeat(self: nat, t: Session, w: World, now: T.Clock)
    requires Busy(t.pc) && Armable(t, w) && Shape(t) && t.status == Ready
    ensures var r := Micro(self, t, w, now).session; r.status == Ready ==> r.heartbeat == t.heartbeat
  {
  }

  /** Only its own steps change a ready session. */
  lemma ReadyAfter(s: State, step: Step, s': State, n: nat)
    requires Enabled(s, step) && s' == Next(s, step) && n < |s.sessions| && s.sessions[n].status == Ready
    ensures n < |s'.sessions|
    ensures s'.sessions[n] == match step
      case Deliver(m, msg) => if m == n then Handled(s.sessions[n], msg) else s.sessions[n]
      case Push(m, stamp, sent) => if m == n then Pushed(s.sessions[n], stamp, sent) else s.sessions[n]
      case Call(m, now) => if m == n then Micro(n, s.sessions[n], s.world, now).session else s.sessions[n]
      case _ => s.sessions[n]
  {
  }

  lemma CalledShape(s: State, n: nat, now: T.Clock)
    requires Inv(s) && Enabled(s, Call(n, now))
    ensures Busy(s.sessions[n].pc) && Armable(s.sessions[n], s.world) && Shape(s.sessions[n])
  {
  }

  lemma HeartbeatStep(s: State, step: Step, s': State, n: nat)
    requires Inv(s) && Enabled(s, step) && s' == Next(s, step)
    requires n < |s.sessions| && s.sessions[n].status == Ready
    requires n < |s'.sessions| && s'.sessions[n].status == Ready
    ensures s'.sessions[n].heartbeat
      == (step == Deliver(n, HeartBeatAck) || (!Tick(s, step, n) && s.sessions[n].heartbeat))
  {
    hide Inv, Enabled, Next, Micro;
    ReadyAfter(s, step, s', n);
    if step.Call? && step.n == n {
      CalledShape(s, n, step.now);
      MicroHeartbeat(n, s.sessions[n], s.world, step.now);
    }
  }

  lemma AckedStart(b: seq<State>, steps: seq<Step>, n: nat, i: nat)
    requires i < |b| == |steps| + 1 && ReadyDuring(b, n, i, i)
    ensures n < |b[i].sessions| && Acked(b, steps, n, i, i) == b[i].sessions[n].heartbeat
  {
  }

  lemma AckedStep(b: seq<State>, steps: seq<Step>, n: nat, i: nat, j: nat)
    requires i < j < |b| == |steps| + 1 && ReadyDuring(b, n, i, j)
    ensures ReadyDuring(b, n, i, j - 1)
    ensures n < |b[i].sessions| && n < |b[j - 1].sessions| && n < |b[j].sessions|
    ensures b[j - 1].sessions[n].status == Ready && b[j].sessions[n].status == Ready
    ensures Acked(b, steps, n, i, j)
      == (steps[j - 1] == Deliver(n, HeartBeatAck)
          || (!Tick(b[j - 1], steps[j - 1], n) && Acked(b, steps, n, i, j - 1)))
  {
  }

  lemma {:induction false} HeartbeatMeansAcked(b: seq<State>, steps: seq<Step>, n: nat, i: nat, j: nat)
    requires Behavior(b, steps) && i <= j < |b| == |steps| + 1 && ReadyDuring(b, n, i, j)
    ensures b[j].sessions[n].heartbeat == Acked(b, steps, n, i, j)
  {
    hide *;
    if i == j {
      AckedStart(b, steps, n, i);
    } else {
      AckedStep(b, steps, n, i, j);
      HeartbeatMeansAcked(b, steps, n, i, j - 1);
      BehaviorStep(b, steps, j - 1);
      HeartbeatStep(b[j - 1], steps[j - 1], b[j], n);
    }
  }

  /** A keepalive tick ends the session if and only if no heartbeat ack was handled since the tick
      before; so two ticks without an ack end it, and acks between every two ticks keep it. */
  lemma KeepaliveExact(b: seq<State>, steps: seq<Step>, n: nat, i: nat, j: nat)
    requires Behavior(b, steps) && i <= j < |steps| && ReadyDuring(b, n, i, j) && Tick(b[j], steps[j], n)
    ensures n < |b[j + 1].sessions|
    ensures b[j + 1].sessions[n].status == Over <==> !Acked(b, steps, n, i, j)
    ensures b[j + 1].sessions[n].status == Ready <==> Acked(b, steps, n, i, j)
  {
    HeartbeatMeansAcked(b, steps, n, i, j);
    assert Enabled(b[j], steps[j]) && b[j + 1] == Next(b[j], steps[j]);
  }

  // ----- how a ready session ends -----

  /** A message that ends session n is handled, or n asks for a timer and the pool is empty. */
  ghost predicate EndsNow(s: State, step: Step, n: nat) {
    && n < |s.sessions|
    && ((step.Deliver? && step.n == n && Fatal(s.sessions[n], step.msg))
        || (step.Call? && step.n == n && s.sessions[n].pc.Arming? && s.sessions[n].pc.stage.Allocating?
            && s.world.timers.free == []))
  }

  lemma HandledEnds(t: Session, msg: Msg)
    requires t.status == Ready
    ensures Handled(t, msg).status == if Fatal(t, msg) then Over else Ready
  {
  }

  lemma MicroEnds(self: nat, t: Session, w: World, now: T.Clock)
    requires Busy(t.pc) && Armable(t, w) && Shape(t) && t.status == Ready
    ensures Micro(self, t, w, now).session.status
      == if t.pc.Arming? && t.pc.stage.Allocating? && w.timers.free == [] then Over else Ready
  {
  }

  /** A ready session ends exactly so. */
  lemma ReadyEnds(b: seq<State>, steps: seq<Step>, i: nat, n: nat)
    requires Behavior(b, steps) && i < |steps| && n < |b[i].sessions| && b[i].sessions[n].status == Ready
    ensures n < |b[i + 1].sessions|
    ensures b[i + 1].sessions[n].status == if EndsNow(b[i], steps[i], n) then Over else Ready
  {
    hide Inv, Enabled, Next, Micro, Handled, Fatal, Initial;
    BehaviorStep(b, steps, i);
    ReadyAfter(b[i], steps[i], b[i + 1], n);
    match steps[i]
    case Deliver(m, msg) => HandledEnds(b[i].sessions[n], msg);
    case Call(m, now) =>
      if m == n {
        CalledShape(b[i], n, now);
        MicroEnds(n, b[i].sessions[n], b[i].world, now);
      }
    case _ =>
  }
}
