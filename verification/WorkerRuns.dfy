/** What holds in every run of all threads in which nodes are accepted only when nothing refers to
    them any more (CleanAccepts). Failures shows that it does not hold without. */
module WorkerRuns {
  import opened Prelude
  import opened RoundRobin
  import opened Sessions
  import opened Workers
  import opened WorkersSerial
  import T = TimerSpec
  import S = Server
  import SS = ServerSteps
  import SR = ServerRuns

  lemma InitialInv(s: State)
    requires Initial(s)
    ensures Inv(s) && Abs(s) == s.base
  {
    SR.InitialInv(s.base);
    assert Abs(s).sessions == s.base.sessions;
  }

  lemma {:induction false} BehaviorInv(b: seq<State>, steps: seq<Step>, i: nat)
    requires Behavior(b, steps) && CleanAccepts(b, steps) && i < |b|
    ensures Inv(b[i])
  {
    hide Inv, Initial, Enabled, Next, Unreferenced;
    if i == 0 {
      InitialInv(b[0]);
    } else {
      BehaviorInv(b, steps, i - 1);
      StepRefines(b, steps, i - 1);
    }
  }

  lemma StepRefines(b: seq<State>, steps: seq<Step>, i: nat)
    requires Behavior(b, steps) && CleanAccepts(b, steps) && i < |steps| && Inv(b[i])
    ensures Enabled(b[i], steps[i]) && b[i + 1] == Next(b[i], steps[i]) && Refines(b[i], steps[i])
    ensures Inv(b[i + 1])
  {
    hide Inv, Initial, Next, Unreferenced;
    assert Enabled(b[i], steps[i]) && b[i + 1] == Next(b[i], steps[i]);
    assert steps[i].Accept? ==> b[i].base.pool != [];
    NextRefines(b[i], steps[i]);
  }

  // ----- handlers do not overlap -----

  ghost predicate RunsAt(thread: Thread, n: nat) {
    (thread.Running? || thread.Checking?) && thread.n == n
  }

  /** At most one thread is in a handler of a session. */
  lemma HandlersNeverOverlap(b: seq<State>, steps: seq<Step>, i: nat, g: nat, h: nat, n: nat)
    requires Behavior(b, steps) && CleanAccepts(b, steps) && i < |b|
    requires g < |b[i].workers| && h < |b[i].workers| && RunsAt(b[i].workers[g], n)
    ensures RunsAt(b[i].workers[h], n) ==> g == h
    ensures !RunsAt(b[i].accepting, n)
  {
    BehaviorInv(b, steps, i);
    WorkerAlways(b[i], g);
    WorkerAlways(b[i], h);
  }

  /** A message of its last connection that a worker has in its hand when a node is accepted is enough:
      its handler can run beside onAttach at once, unless it is a timer's. */
  lemma HeldMessageOverlaps(s: State, g: nat)
    requires Inv(s) && Enabled(s, Accept) && g < |s.workers|
    requires s.workers[g].Holding? && s.workers[g].n == s.base.pool[0]
    ensures var n, t := s.base.pool[0], Next(s, Accept);
      && Enabled(t, Dispatch(g))
      && var u := Next(t, Dispatch(g));
         RunsAt(u.accepting, n) && (RunsAt(u.workers[g], n) <==> !s.workers[g].msg.OnTimer?)
  {
    hide S.Inv, Threads;
    assert s.base.pool[0] in s.base.pool;
    FreeNode(s, s.base.pool[0]);
    NewlyHandled(Attached(s.base.sessions[s.base.pool[0]]).(pc := Idle), s.workers[g].msg);
  }

  lemma NewlyHandled(t: Session, msg: Msg)
    requires t.status == Connected && t.pc == Idle && t.keepLive == None
    ensures Busy(Handled(t, msg).pc) <==> !msg.OnTimer?
  {
  }

  // ----- the serial view of a run -----

  ghost function AbsRun(b: seq<State>): (a: seq<S.State>)
    requires forall i | 0 <= i < |b| :: |b[i].base.sessions| == |b[i].base.home|
    ensures |a| == |b| && forall i | 0 <= i < |b| :: a[i] == Abs(b[i])
  {
    seq(|b|, i requires 0 <= i < |b| => Abs(b[i]))
  }

  ghost function AbsSteps(b: seq<State>, steps: seq<Step>): (a: seq<S.Step>)
    requires |b| == |steps| + 1 && forall i | 0 <= i < |steps| :: Possible(b[i], steps[i])
    ensures |a| == |steps| && forall i | 0 <= i < |steps| :: a[i] == AbsStep(b[i], steps[i])
  {
    seq(|steps|, i requires 0 <= i < |steps| => AbsStep(b[i], steps[i]))
  }

  lemma Sized(b: seq<State>, steps: seq<Step>)
    requires Behavior(b, steps) && CleanAccepts(b, steps)
    ensures forall i | 0 <= i < |b| :: |b[i].base.sessions| == |b[i].base.home|
    ensures |b| == |steps| + 1 && forall i | 0 <= i < |steps| :: Possible(b[i], steps[i])
  {
    hide *;
    forall i: nat | i < |b|
      ensures |b[i].base.sessions| == |b[i].base.home|
    {
      BehaviorInv(b, steps, i);
      InvSized(b[i]);
    }
    BehaviorPossible(b, steps);
  }

  lemma InvSized(s: State)
    requires Inv(s)
    ensures |s.base.sessions| == |s.base.home|
  {
  }

  lemma BehaviorPossible(b: seq<State>, steps: seq<Step>)
    requires Behavior(b, steps)
    ensures |b| == |steps| + 1 && forall i | 0 <= i < |steps| :: Possible(b[i], steps[i])
  {
    hide Initial, Next, Possible, Asserted;
    forall i | 0 <= i < |steps|
      ensures Possible(b[i], steps[i])
    {
      assert Enabled(b[i], steps[i]);
    }
  }

  /** The threads together make a run of the serial view. */
  lemma RunsAreSerial(b: seq<State>, steps: seq<Step>)
    requires Behavior(b, steps) && CleanAccepts(b, steps)
    ensures forall i | 0 <= i < |b| :: |b[i].base.sessions| == |b[i].base.home|
    ensures |b| == |steps| + 1 && forall i | 0 <= i < |steps| :: Possible(b[i], steps[i])
    ensures SR.Behavior(AbsRun(b), AbsSteps(b, steps))
  {
    Sized(b, steps);
    var a, asteps := AbsRun(b), AbsSteps(b, steps);
    assert S.Initial(a[0]) by { StartsSerial(b, steps); }
    forall i {:trigger asteps[i]} | 0 <= i < |asteps|
      ensures S.Enabled(a[i], asteps[i]) && a[i + 1] == S.Next(a[i], asteps[i])
    {
      BehaviorInv(b, steps, i);
      StepRefines(b, steps, i);
    }
  }

  lemma StartsSerial(b: seq<State>, steps: seq<Step>)
    requires Behavior(b, steps) && |b[0].base.sessions| == |b[0].base.home|
    ensures S.Initial(Abs(b[0]))
  {
    InitialInv(b[0]);
  }

  // ----- asserts -----

  /** A timer is due in a visit at `now`. */
  ghost predicate Fires(s: State, now: T.Clock) {
    var timers := s.base.world.timers;
    timers.phase == T.BeforeVisit && T.VisitReady(timers) && Fired(timers, now).Some?
  }

  ghost function Owner(s: State, now: T.Clock): nat
    requires Fires(s, now)
  {
    Fired(s.base.world.timers, now).value.owner
  }

  /** getGroup() of its session is there. */
  ghost predicate FindsIt(s: State, now: T.Clock)
    requires Fires(s, now)
  {
    OwnerHasGroup(s, Fired(s.base.world.timers, now).value)
  }

  /** Node n has been recycled at step i with the timer thread in front of a timer of n, and since then
      the timer thread has not gone on and the node has not been accepted again. */
  ghost predicate RecycledAt(b: seq<State>, steps: seq<Step>, i: nat, j: nat, n: nat)
    requires j < |b| == |steps| + 1
  {
    && i < j && steps[i].Recycle? && b[i].base.recycleQueue != [] && b[i].base.recycleQueue[0] == n
    && Exposed(b[i], n)
    && forall k | i < k < j :: !steps[k].TimerDrain? && !steps[k].TimerVisit? && !Accepts(b[k], steps[k], n)
  }

  ghost predicate Accepts(s: State, step: Step, n: nat) {
    step.Accept? && s.base.pool != [] && s.base.pool[0] == n
  }

  ghost predicate RecycledUnder(b: seq<State>, steps: seq<Step>, j: nat, n: nat)
    requires j < |b| == |steps| + 1
  {
    exists i: nat :: RecycledAt(b, steps, i, j, n)
  }

  /** No assert of onAttach, onDetach, setTimer, killTimer, unregisterTransaction, _rollingQueue or the
      timer list can fail in such a run, and no node, group or element that is followed is missing, with
      one exception: the group of a timer that fires is missing if and only if the timer's node has been
      recycled while the timer thread was between drain and visit in front of this timer. */
  lemma NoAssertFails(b: seq<State>, steps: seq<Step>, j: nat, step: Step)
    requires Behavior(b, steps) && CleanAccepts(b, steps) && j < |b| == |steps| + 1 && Possible(b[j], step)
    ensures Asserted(b[j], step) <==>
      !(step.TimerVisit? && Fires(b[j], step.now) && RecycledUnder(b, steps, j, Owner(b[j], step.now)))
  {
    hide Asserted, Behavior, CleanAccepts, RecycledUnder;
    BehaviorInv(b, steps, j);
    AssertsHold(b[j], step);
    if step.TimerVisit? && Fires(b[j], step.now) {
      FindsGroup(b, steps, j, step.now);
    }
  }

  ghost predicate FiresHomed(s: State, step: Step) {
    step.TimerVisit? && Fires(s, step.now) ==> FindsIt(s, step.now)
  }

  lemma AssertsHold(s: State, step: Step)
    requires Inv(s) && Possible(s, step)
    ensures Asserted(s, step) <==> FiresHomed(s, step)
  {
    hide S.Inv, Threads, S.NodePlaced;
    match step
    case Accept =>
      SS.AssertsHold(Abs(s), S.Accept);
      AcceptAsserted(s);
    case Attach(now) =>
      AcceptingPc(s);
      CallAsserted(s, s.accepting.n, s.accepting.pc, now);
    case Call(g, now) =>
      WorkerAt(s, g);
      CallAsserted(s, s.workers[g].n, s.workers[g].pc, now);
    case Recycle =>
      SS.AssertsHold(Abs(s), S.Recycle);
      OverNode(s, s.base.recycleQueue[0]);
      RecycleAsserted(s);
    case Pick(g) => PickAsserted(s, g);
    case TimerDrain => SS.AssertsHold(Abs(s), S.TimerDrain);
    case TimerVisit(now, _) => SS.AssertsHold(Abs(s), S.TimerVisit(now));
    case _ =>
  }

  lemma AcceptingPc(s: State)
    requires Inv(s) && s.accepting.Running?
    ensures s.accepting.n < |s.base.sessions| && PcOf(s, s.accepting.n) == s.accepting.pc
  {
  }

  lemma AcceptAsserted(s: State)
    requires Inv(s) && S.Possible(s.base, S.Accept) && S.Possible(Abs(s), S.Accept)
    requires S.Asserted(Abs(s), S.Accept)
    ensures S.Asserted(s.base, S.Accept)
  {
    assert s.base.pool[0] in s.base.pool;
    FreeNode(s, s.base.pool[0]);
  }

  lemma RecycleAsserted(s: State)
    requires Inv(s) && S.Possible(s.base, S.Recycle) && S.Possible(Abs(s), S.Recycle)
    requires S.Asserted(Abs(s), S.Recycle)
    requires var n := s.base.recycleQueue[0]; n < |s.base.sessions| && SessionOf(s, n) == s.base.sessions[n]
    ensures S.Asserted(s.base, S.Recycle)
  {
  }

  lemma PickAsserted(s: State, g: nat)
    requires Inv(s) && g < |s.base.groups|
    ensures ValidRing(s.base.groups[g])
  {
    assert ValidRing(Abs(s).groups[g]);
  }

  // ----- the life of a session -----

  /** No worker is inside __onStop for n. */
  ghost predicate NotStopping(s: State, n: nat) {
    forall g | 0 <= g < |s.workers| && s.workers[g].Running? && s.workers[g].n == n ::
      !s.workers[g].pc.Stopping? && !s.workers[g].pc.Leaving?
  }

  /** The pc of the serial view is the pc of one of the threads. */
  lemma PcFrom(s: State, n: nat)
    requires Inv(s) && n < |s.base.sessions|
    ensures Busy(PcOf(s, n)) ==>
      || s.accepting == Running(n, PcOf(s, n))
      || (s.base.home[n].Some? && s.base.home[n].value < |s.workers|
          && s.workers[s.base.home[n].value] == Running(n, PcOf(s, n)))
    ensures s.accepting.Running? && s.accepting.n == n ==> PcOf(s, n) == s.accepting.pc && Busy(PcOf(s, n))
    ensures forall g | 0 <= g < |s.workers| && s.workers[g].Running? && s.workers[g].n == n ::
      PcOf(s, n) == s.workers[g].pc && Busy(s.workers[g].pc)
    ensures !Busy(PcOf(s, n)) ==> PcOf(s, n) == s.base.sessions[n].pc
  {
    hide S.Inv;
    forall g | 0 <= g < |s.workers| && s.workers[g].Running? && s.workers[g].n == n
      ensures PcOf(s, n) == s.workers[g].pc && Busy(s.workers[g].pc)
    {
      WorkerAlways(s, g);
      WorkerAt(s, g);
    }
  }

  /** In every such run the status of each session goes round Free, Connected, Ready, Over only, or from
      Connected to Over, and whenever the session is in the pool, or is over and not just being
      stopped, all its fields are cleared. */
  lemma Lifecycle(b: seq<State>, steps: seq<Step>, i: nat, n: nat)
    requires Behavior(b, steps) && CleanAccepts(b, steps) && i < |steps| && n < |b[0].base.sessions|
    ensures n < |b[i].base.sessions| == |b[i + 1].base.sessions|
    ensures SR.Lives(b[i].base.sessions[n].status, b[i + 1].base.sessions[n].status)
    ensures var t := b[i].base.sessions[n];
      t.status == Free || (t.status == Over && NotStopping(b[i], n)) ==> Cleared(t)
  {
    hide *;
    RunsAreSerial(b, steps);
    BehaviorInv(b, steps, i);
    var a := AbsRun(b);
    assert a[0] == Abs(b[0]) && a[i] == Abs(b[i]) && a[i + 1] == Abs(b[i + 1]);
    SR.Lifecycle(a, AbsSteps(b, steps), i, n);
    assert a[i].sessions[n] == SessionOf(b[i], n) && a[i + 1].sessions[n] == SessionOf(b[i + 1], n);
    SessionFields(b[i], n);
    SessionFields(b[i + 1], n);
    StoppingView(b[i], n);
  }

  lemma SessionFields(s: State, n: nat)
    requires n < |s.base.sessions| == |s.base.home|
    ensures SessionOf(s, n) == s.base.sessions[n].(pc := PcOf(s, n))
    ensures Cleared(SessionOf(s, n)) == Cleared(s.base.sessions[n])
  {
  }

  lemma StoppingView(s: State, n: nat)
    requires Inv(s) && n < |s.base.sessions|
    ensures |s.base.sessions| == |s.base.home|
    ensures NotStopping(s, n) ==> !PcOf(s, n).Stopping? && !PcOf(s, n).Leaving?
    ensures DoneKilling(s, n) && PcOf(s, n).Stopping? ==> PcOf(s, n).ids == []
  {
    hide S.Inv, Threads;
    PcFrom(s, n);
    if s.accepting.Running? && s.accepting.n == n {
      OutsidePc(s, n);
    }
  }

  lemma AbsWorld(s: State)
    requires |s.base.sessions| == |s.base.home|
    ensures Abs(s).world == s.base.world
  {
  }

  // ----- timers -----

  /** No worker is in front of a killTimer of __onStop for n. */
  ghost predicate DoneKilling(s: State, n: nat) {
    forall g | 0 <= g < |s.workers| && s.workers[g].Running? && s.workers[g].n == n ::
      s.workers[g].pc.Stopping? ==> s.workers[g].pc.ids == []
  }

  /** Once __onStop has made its killTimer calls, no timer of the session is waiting to be added or in
      the list unkilled, until the node is accepted again. */
  lemma NoTimerAfterStop(b: seq<State>, steps: seq<Step>, i: nat, n: nat, id: nat)
    requires Behavior(b, steps) && CleanAccepts(b, steps) && i < |b|
    requires n < |b[i].base.sessions| && id < |b[i].base.world.timers.slots|
    requires b[i].base.sessions[n].status == Free || b[i].base.sessions[n].status == Over
    requires DoneKilling(b[i], n)
    ensures var slot := b[i].base.world.timers.slots[id]; !(S.Armed(slot) && slot.owner == n)
  {
    hide *;
    RunsAreSerial(b, steps);
    BehaviorInv(b, steps, i);
    assert AbsRun(b)[i] == Abs(b[i]);
    AbsWorld(b[i]);
    SessionFields(b[i], n);
    StoppingView(b[i], n);
    SR.NoTimerAfterStop(AbsRun(b), AbsSteps(b, steps), i, n, id);
  }

  /** n is attached to a group. */
  ghost predicate HasGroup(s: State, n: nat) {
    n < |s.base.home| && s.base.home[n].Some?
  }

  /** What one step that is not the timer thread's means for a node in front of whose timer that stands. */
  lemma ExposedBefore(b: seq<State>, steps: seq<Step>, j: nat, n: nat)
    requires |b| == |steps| + 1 && Behavior(b, steps) && CleanAccepts(b, steps) && 0 < j < |b|
    requires !steps[j - 1].TimerDrain? && !steps[j - 1].TimerVisit?
    ensures Exposed(b[j], n) <==> Exposed(b[j - 1], n)
  {
    hide Behavior, CleanAccepts, Inv, Next, Enabled, Goes, S.Inv;
    BehaviorInv(b, steps, j - 1);
    StepRefines(b, steps, j - 1);
    ExposedKept(b[j - 1], steps[j - 1], b[j], n);
  }

  lemma ExposedKept(s: State, step: Step, t: State, n: nat)
    requires Inv(s) && Enabled(s, step) && t == Next(s, step) && Refines(s, step) && Inv(t)
    requires !step.TimerDrain? && !step.TimerVisit?
    ensures Exposed(t, n) <==> Exposed(s, n)
  {
    hide Next, Possible, Asserted, S.Next, S.Enabled, S.Inv, Threads, T.Inv, AbsStep, Abs;
    TimersReady(s);
    TimersReady(t);
    var timers := s.base.world.timers;
    QuietAbs(s, step);
    SR.ListKept(Abs(s), AbsStep(s, step), Abs(t), if timers.list != [] then Due(timers.list, timers.cur) else 0);
  }

  lemma TimersReady(s: State)
    requires Inv(s)
    ensures T.Inv(s.base.world.timers) && T.VisitReady(s.base.world.timers)
    ensures Abs(s).world == s.base.world && S.Inv(Abs(s))
  {
    hide Threads;
    assert S.TimersOk(Abs(s).sessions, s.base.world.timers);
    T.VisitInv(s.base.world.timers, T.Clock(0, 0), true);
  }

  lemma QuietAbs(s: State, step: Step)
    requires Enabled(s, step) && !step.TimerDrain? && !step.TimerVisit?
    ensures !AbsStep(s, step).TimerDrain? && !AbsStep(s, step).TimerVisit?
  {
  }

  /** When n loses its group, it is recycled; when it gets one, it is accepted. */
  lemma GroupChanges(s: State, step: Step, n: nat)
    requires Enabled(s, step)
    ensures HasGroup(s, n) && !HasGroup(Next(s, step), n) ==>
      step.Recycle? && s.base.recycleQueue != [] && s.base.recycleQueue[0] == n
    ensures !HasGroup(s, n) && HasGroup(Next(s, step), n) ==> Accepts(s, step, n)
  {
  }

  lemma GroupLost(s: State)
    requires Inv(s) && Enabled(s, Recycle)
    ensures !HasGroup(Next(s, Recycle), s.base.recycleQueue[0])
  {
    hide S.Inv, Threads;
    OverNode(s, s.base.recycleQueue[0]);
  }

  /** After a drain the timer thread is in front of no timer whose session has no group. */
  lemma DrainedHasGroup(s: State, t: State, n: nat)
    requires Inv(s) && Enabled(s, TimerDrain) && t == Next(s, TimerDrain) && Refines(s, TimerDrain) && Inv(t)
    ensures Exposed(t, n) ==> HasGroup(t, n)
  {
    hide S.Inv, Threads, T.Drained;
    if Exposed(t, n) {
      var id := Due(t.base.world.timers.list, t.base.world.timers.cur);
      SR.DrainedArmed(Abs(s), Abs(t), id);
      SR.ArmedHomed(Abs(t), id);
    }
  }

  lemma VisitEndsPhase(s: State, step: Step, n: nat)
    requires Enabled(s, step) && step.TimerVisit?
    ensures !Exposed(Next(s, step), n)
  {
  }

  lemma NoneExposed(s: State, n: nat)
    requires Initial(s)
    ensures !Exposed(s, n)
  {
  }

  /** Where the timer thread stands in front of a timer of n, which has no group, n has been recycled
      under it. */
  lemma {:induction false} FindsRecycle(b: seq<State>, steps: seq<Step>, j: nat, n: nat) returns (i: nat)
    requires Behavior(b, steps) && CleanAccepts(b, steps) && j < |b| == |steps| + 1
    requires Exposed(b[j], n) && !HasGroup(b[j], n)
    ensures RecycledAt(b, steps, i, j, n)
    decreases j
  {
    hide Initial, Inv, Enabled, Next, Exposed, HasGroup, Refines, CleanAccepts, Unreferenced;
    if j == 0 {
      NoneExposed(b[0], n);
      assert false;
    } else {
      BehaviorInv(b, steps, j - 1);
      StepRefines(b, steps, j - 1);
      var s, step := b[j - 1], steps[j - 1];
      GroupChanges(s, step, n);
      if step.TimerDrain? {
        DrainedHasGroup(s, b[j], n);
        assert false;
      } else if step.TimerVisit? {
        VisitEndsPhase(s, step, n);
        assert false;
      } else {
        ExposedBefore(b, steps, j, n);
        if HasGroup(s, n) {
          i := j - 1;
        } else {
          i := FindsRecycle(b, steps, j - 1, n);
          StaysWithout(s, step, n);
        }
      }
    }
  }

  /** Accepting n gives it a group. */
  lemma StaysWithout(s: State, step: Step, n: nat)
    requires Enabled(s, step)
    ensures Accepts(s, step, n) ==> HasGroup(Next(s, step), n)
  {
  }

  /** And the other way round. */
  lemma {:induction false} StaysExposed(b: seq<State>, steps: seq<Step>, i: nat, j: nat, n: nat)
    requires Behavior(b, steps) && CleanAccepts(b, steps) && j < |b| == |steps| + 1
    requires RecycledAt(b, steps, i, j, n)
    ensures Exposed(b[j], n) && !HasGroup(b[j], n)
    decreases j
  {
    hide Initial, Inv, Enabled, Next, Exposed, HasGroup, Refines, CleanAccepts, Unreferenced;
    BehaviorInv(b, steps, j - 1);
    StepRefines(b, steps, j - 1);
    ExposedBefore(b, steps, j, n);
    if i == j - 1 {
      GroupLost(b[i]);
    } else {
      StaysExposed(b, steps, i, j - 1, n);
      GroupChanges(b[j - 1], steps[j - 1], n);
    }
  }

  lemma FiresExposed(s: State, now: T.Clock)
    requires Inv(s) && Fires(s, now)
    ensures Exposed(s, Owner(s, now))
    ensures FindsIt(s, now) <==> HasGroup(s, Owner(s, now))
  {
    hide S.Inv;
    if HasGroup(s, Owner(s, now)) {
      NodeFacts(s, Owner(s, now));
    }
  }

  /** A timer that fires finds the group of its session unless the node has been recycled under it. */
  lemma FindsGroup(b: seq<State>, steps: seq<Step>, j: nat, now: T.Clock)
    requires Behavior(b, steps) && CleanAccepts(b, steps) && j < |b| == |steps| + 1 && Fires(b[j], now)
    ensures FindsIt(b[j], now)
      <==> !RecycledUnder(b, steps, j, Owner(b[j], now))
  {
    hide Behavior, CleanAccepts, Inv, Exposed, HasGroup, FindsIt, RecycledAt, Fires, Owner;
    var n := Owner(b[j], now);
    BehaviorInv(b, steps, j);
    FiresExposed(b[j], now);
    if !HasGroup(b[j], n) {
      var i := FindsRecycle(b, steps, j, n);
    }
    if RecycledUnder(b, steps, j, n) {
      var i: nat :| RecycledAt(b, steps, i, j, n);
      StaysExposed(b, steps, i, j, n);
    }
  }

  /** A visit late enough fires the timer the timer thread is in front of. */
  lemma FiresLate(s: State, n: nat) returns (now: T.Clock)
    requires Exposed(s, n)
    ensures Fires(s, now) && Owner(s, now) == n
  {
    var slot := s.base.world.timers.slots[Due(s.base.world.timers.list, s.base.world.timers.cur)];
    now := T.Clock(slot.period + slot.base.s + 1, 0);
  }

  /** Exactly when every timer that may fire at any state of a run, killed or not, finds its session
      attached to a group, so that CTransactionManager::__onTimer has a queue to put the message on: when
      no node is recycled while the timer thread is between drain and visit in front of a timer of it. */
  lemma FiredTimerHasGroup(b: seq<State>, steps: seq<Step>)
    requires Behavior(b, steps) && CleanAccepts(b, steps) && |b| == |steps| + 1
    ensures CleanRecycles(b, steps) <==>
      forall j: nat, now | j < |b| && Fires(b[j], now) :: FindsIt(b[j], now)
  {
    hide Behavior, CleanAccepts, Inv, Exposed, Fires, FindsIt, Owner;
    if CleanRecycles(b, steps) {
      forall j: nat, now | j < |b| && Fires(b[j], now)
        ensures FindsIt(b[j], now)
      {
        FindsGroup(b, steps, j, now);
      }
    } else {
      var i: nat :| i < |steps| && steps[i].Recycle? && b[i].base.recycleQueue != []
        && Exposed(b[i], b[i].base.recycleQueue[0]);
      var n := b[i].base.recycleQueue[0];
      assert RecycledAt(b, steps, i, i + 1, n);
      StaysExposed(b, steps, i, i + 1, n);
      var now := FiresLate(b[i + 1], n);
      FindsGroup(b, steps, i + 1, now);
    }
  }

  /** An unkilled timer that fires needs no such condition. */
  lemma UnkilledTimerHasGroup(b: seq<State>, steps: seq<Step>, i: nat, now: T.Clock)
    requires Behavior(b, steps) && CleanAccepts(b, steps) && i < |b|
    requires T.VisitReady(b[i].base.world.timers) && Fired(b[i].base.world.timers, now).Some?
    requires Fired(b[i].base.world.timers, now).value.status == T.Added
    ensures OwnerHasGroup(b[i], Fired(b[i].base.world.timers, now).value)
  {
    BehaviorInv(b, steps, i);
    SR.ArmedHomed(Abs(b[i]), Due(b[i].base.world.timers.list, b[i].base.world.timers.cur));
  }

  // ----- the registry -----

  /** At most one session is ready under a session id, and every ready one is found under its own id,
      whatever logins have been rejected meanwhile. */
  lemma OneReadySession(b: seq<State>, steps: seq<Step>, i: nat, n: nat, m: nat)
    requires Behavior(b, steps) && CleanAccepts(b, steps) && i < |b|
    requires n < |b[i].base.sessions| && m < |b[i].base.sessions|
    requires b[i].base.sessions[n].status == Ready
    ensures var s := b[i].base;
      && s.sessions[n].sid in s.world.registry && s.world.registry[s.sessions[n].sid] == n
      && (s.sessions[m].status == Ready && s.sessions[m].sid == s.sessions[n].sid ==> m == n)
  {
    hide Inv, Next, Enabled, Initial;
    RunsAreSerial(b, steps);
    assert AbsRun(b)[i] == Abs(b[i]);
    SR.OneReadySession(AbsRun(b), AbsSteps(b, steps), i, n, m);
  }

  /** The registry's keys point into the sessions' own buffers: the text behind a key never changes. */
  lemma KeysKeepTheirText(b: seq<State>, steps: seq<Step>, i: nat, k: string)
    requires Behavior(b, steps) && CleanAccepts(b, steps) && i < |b| && k in b[i].base.world.registry
    ensures var s := b[i].base; var o := s.world.registry[k];
      o < |s.sessions| && s.sessions[o].sid == k && k != ""
  {
    hide Inv, Next, Enabled, Initial;
    RunsAreSerial(b, steps);
    assert AbsRun(b)[i] == Abs(b[i]);
    SR.KeysKeepTheirText(AbsRun(b), AbsSteps(b, steps), i, k);
  }

  /** findTransaction finds a session id if and only if a session holds it that is ready, or is over and
      has not been unregistered yet; what it finds is that session. */
  lemma FindsHolder(b: seq<State>, steps: seq<Step>, i: nat, sid: string)
    requires Behavior(b, steps) && CleanAccepts(b, steps) && i < |b| && sid != ""
    ensures var s := b[i].base;
      && (sid in s.world.registry <==> exists n: nat :: n < |s.sessions| && Holds(s.sessions[n], sid))
      && forall n: nat | n < |s.sessions| && Holds(s.sessions[n], sid) ::
           sid in s.world.registry && s.world.registry[sid] == n
  {
    hide Inv, Next, Enabled, Initial, Behavior;
    BehaviorInv(b, steps, i);
    RegistryHolds(b[i], sid);
  }

  ghost predicate Holds(t: Session, sid: string) {
    t.sid == sid && (t.status == Ready || t.status == Over)
  }

  lemma RegistryHolds(s: State, sid: string)
    requires Inv(s) && sid != ""
    ensures (sid in s.base.world.registry <==> exists n: nat :: n < |s.base.sessions| && Holds(s.base.sessions[n], sid))
    ensures forall n: nat | n < |s.base.sessions| && Holds(s.base.sessions[n], sid) ::
      sid in s.base.world.registry && s.base.world.registry[sid] == n
  {
    var a := Abs(s);
    assert S.RegistryOk(a.sessions, a.world.registry);
    forall n: nat | n < |s.base.sessions| && Holds(s.base.sessions[n], sid)
      ensures sid in s.base.world.registry && s.base.world.registry[sid] == n
    {
      assert a.sessions[n] == SessionOf(s, n) && S.Registered(a.sessions[n]);
    }
    if sid in s.base.world.registry {
      var n := s.base.world.registry[sid];
      assert S.Registered(a.sessions[n]) && a.sessions[n] == SessionOf(s, n);
      assert Holds(s.base.sessions[n], sid);
    }
  }

  // ----- the nodes -----

  /** n is being attached, or its attach has failed. */
  ghost predicate Outside(s: State, n: nat)
    requires n < |s.base.sessions|
  {
    (s.accepting.Running? && s.accepting.n == n) || s.base.sessions[n].pc == Stranded
  }

  ghost predicate InGroup(s: State, n: nat, g: nat) {
    g < |s.base.groups| && n in s.base.groups[g].list
  }

  lemma OutsideView(s: State, n: nat)
    requires Inv(s) && n < |s.base.sessions|
    ensures Outside(s, n) <==> S.Outside(SessionOf(s, n))
  {
    hide S.Inv, Threads;
    NodeFacts(s, n);
    PcFrom(s, n);
    OutsidePc(s, n);
  }

  lemma OutsidePc(s: State, n: nat)
    requires Inv(s) && n < |s.base.sessions|
    ensures s.accepting.Running? && s.accepting.n == n ==>
      s.accepting.pc.Joining? || (s.accepting.pc.Arming? && s.accepting.pc.use.Handshake?)
    ensures forall g | 0 <= g < |s.workers| && s.workers[g].Running? && s.workers[g].n == n ::
      && !s.workers[g].pc.Joining? && !(s.workers[g].pc.Arming? && s.workers[g].pc.use.Handshake?)
      && s.base.sessions[n].pc == Idle
  {
    hide S.Inv;
    forall g | 0 <= g < |s.workers| && s.workers[g].Running? && s.workers[g].n == n
      ensures !s.workers[g].pc.Joining? && !(s.workers[g].pc.Arming? && s.workers[g].pc.use.Handshake?)
      ensures s.base.sessions[n].pc == Idle
    {
      WorkerAlways(s, g);
    }
  }

  /** Each node is in exactly one place: the pool, just when it is free; one group's container; or it
      is being attached, or its attach has failed. */
  lemma NodesConserved(b: seq<State>, steps: seq<Step>, i: nat, n: nat)
    requires Behavior(b, steps) && CleanAccepts(b, steps) && i < |b| && n < |b[i].base.sessions|
    ensures var s := b[i]; var t := s.base.sessions[n];
      && (n in s.base.pool <==> t.status == Free)
      && multiset(s.base.pool)[n] <= 1
      && (n in s.base.pool ==> !Outside(s, n) && forall g: nat :: !InGroup(s, n, g))
      && (Outside(s, n) ==> forall g: nat :: !InGroup(s, n, g))
      && (n !in s.base.pool && !Outside(s, n) ==>
            exists g: nat :: InGroup(s, n, g) && multiset(s.base.groups[g].list)[n] == 1
              && forall h: nat :: InGroup(s, n, h) ==> h == g)
  {
    hide Inv, Next, Enabled, Initial, S.Outside;
    RunsAreSerial(b, steps);
    BehaviorInv(b, steps, i);
    var a := Abs(b[i]);
    assert AbsRun(b)[i] == a;
    SR.NodesConserved(AbsRun(b), AbsSteps(b, steps), i, n);
    OutsideView(b[i], n);
    if n in b[i].base.pool {
      forall g: nat ensures !InGroup(b[i], n, g) { assert !SR.InGroup(a, n, g); }
    } else if Outside(b[i], n) {
      forall g: nat ensures !InGroup(b[i], n, g) { assert !SR.InGroup(a, n, g); }
    } else {
      var g: nat :| SR.InGroup(a, n, g) && multiset(a.groups[g].list)[n] == 1
        && forall h: nat :: SR.InGroup(a, n, h) ==> h == g;
      assert InGroup(b[i], n, g);
      forall h: nat | InGroup(b[i], n, h) ensures h == g { assert SR.InGroup(a, n, h); }
    }
  }

  // ----- groups in turn -----

  ghost function AcceptsIn(steps: seq<Step>): nat {
    if steps == [] then 0 else AcceptsIn(steps[..|steps| - 1]) + if steps[|steps| - 1].Accept? then 1 else 0
  }

  lemma AcceptTurns(s: State)
    requires Enabled(s, Accept)
    ensures var t := Next(s, Accept);
      && s.base.groups != [] && s.base.pool != [] && s.base.pool[0] < |t.base.home|
      && t.base.nextGroup == (if s.base.nextGroup == |s.base.groups| then 1 else s.base.nextGroup + 1)
      && t.base.home[s.base.pool[0]] == Some(t.base.nextGroup - 1) && |t.base.groups| == |s.base.groups|
  {
  }

  lemma CallKeepsTurn(s: State, n: nat, pc: Pc, now: T.Clock)
    requires n < |s.base.sessions| && Busy(pc) && S.Asserted(InFront(s, n, pc), S.Call(n, now))
    ensures var base := Called(s, n, pc, now).0;
      base.nextGroup == s.base.nextGroup && |base.groups| == |s.base.groups|
  {
    hide Micro;
    JoinsAt(n, InFront(s, n, pc).sessions[n], s.base.world, now);
  }

  lemma OthersKeepTurn(s: State, step: Step)
    requires Enabled(s, step) && !step.Accept?
    ensures var t := Next(s, step); t.base.nextGroup == s.base.nextGroup && |t.base.groups| == |s.base.groups|
  {
    hide T.Drained, T.Visited, Handled, Pushed, Called;
    match step
    case Attach(now) => CallKeepsTurn(s, s.accepting.n, s.accepting.pc, now);
    case Call(g, now) => CallKeepsTurn(s, s.workers[g].n, s.workers[g].pc, now);
    case _ =>
  }

  lemma NextInTurn(c: nat, g: nat)
    requires g > 0
    ensures c % g < g && (c + 1) % g == if c % g + 1 == g then 0 else c % g + 1
  {
    hide *;
    var q, r := c / g, c % g;
    assert c == q * g + r && r < g;
    if r + 1 == g {
      assert (q + 1) * g == q * g + g;
      Divides(q + 1, 0, g);
    } else {
      Divides(q, r + 1, g);
    }
  }

  lemma Divides(q: nat, r: nat, g: nat)
    requires r < g
    ensures (q * g + r) % g == r
  {
    hide *;
    var x := q * g + r;
    var p, s := x / g, x % g;
    assert x == p * g + s && 0 <= s < g;
    if p > q {
      Multiples(p, q, g);
    } else if q > p {
      Multiples(q, p, g);
    }
  }

  lemma Multiples(p: int, q: int, g: nat)
    requires p > q
    ensures p * g >= q * g + g
  {
    hide *;
    assert (p - q - 1) * g >= 0;
    assert p * g == (p - q - 1) * g + q * g + g;
  }

  /** Whose turn it is. */
  ghost predicate Turn(s: State, g: nat, accepts: nat) {
    |s.base.groups| == g && s.base.nextGroup == if accepts == 0 || g == 0 then 0 else (accepts - 1) % g + 1
  }

  lemma TurnStep(s: State, step: Step, t: State, g: nat, c: nat)
    requires Goes(s, step, t) && Turn(s, g, c)
    ensures Turn(t, g, if step.Accept? then c + 1 else c)
    ensures step.Accept? ==>
      && g > 0 && s.base.pool != [] && s.base.pool[0] < |t.base.home|
      && t.base.home[s.base.pool[0]] == Some(c % g)
  {
    hide Enabled, Next;
    if step.Accept? {
      AcceptTurns(s);
      if c > 0 {
        NextInTurn(c - 1, g);
      }
    } else {
      OthersKeepTurn(s, step);
    }
  }

  lemma InitialTurn(s: State)
    requires Initial(s)
    ensures Turn(s, |s.base.groups|, 0)
  {
  }

  lemma {:induction false} TurnSoFar(b: seq<State>, steps: seq<Step>, i: nat)
    requires Behavior(b, steps) && i < |b| == |steps| + 1
    ensures Turn(b[i], |b[0].base.groups|, AcceptsIn(steps[..i]))
  {
    hide Goes, Initial, Turn;
    if i == 0 {
      InitialTurn(b[0]);
    } else {
      TurnSoFar(b, steps, i - 1);
      assert Goes(b[i - 1], steps[i - 1], b[i - 1 + 1]);
      TurnStep(b[i - 1], steps[i - 1], b[i], |b[0].base.groups|, AcceptsIn(steps[..i - 1]));
      assert steps[..i][..i - 1] == steps[..i - 1];
    }
  }

  /** In any run, whatever is accepted and recycled, the accepted nodes go to the groups in turn. */
  lemma GroupsInTurn(b: seq<State>, steps: seq<Step>, i: nat)
    requires Behavior(b, steps) && i < |steps| && |b| == |steps| + 1 && steps[i].Accept?
    ensures |b[0].base.groups| > 0 && b[i].base.pool != [] && b[i].base.pool[0] < |b[i + 1].base.home|
    ensures b[i + 1].base.home[b[i].base.pool[0]] == Some(AcceptsIn(steps[..i]) % |b[0].base.groups|)
  {
    hide Goes, Initial, Turn;
    TurnSoFar(b, steps, i);
    TurnStep(b[i], steps[i], b[i + 1], |b[0].base.groups|, AcceptsIn(steps[..i]));
  }

  /** Accepting takes the first node of the pool; every other step gives nodes back at its end. */
  lemma PoolStep(s: State, step: Step) returns (added: seq<nat>)
    requires Enabled(s, step)
    ensures var t := Next(s, step);
      if step.Accept? then s.base.pool != [] && t.base.pool == s.base.pool[1..] && added == []
      else t.base.pool == s.base.pool + added
  {
    hide T.Drained, T.Visited, Handled, Pushed, Called;
    added := [];
    match step
    case Recycle => if !S.PassedOver(s.base, s.base.recycleQueue[0]) { added := [s.base.recycleQueue[0]]; }
    case Attach(now) => CallKeepsPool(s, s.accepting.n, s.accepting.pc, now);
    case Call(g, now) => CallKeepsPool(s, s.workers[g].n, s.workers[g].pc, now);
    case _ =>
  }

  lemma CallKeepsPool(s: State, n: nat, pc: Pc, now: T.Clock)
    requires n < |s.base.sessions| && Busy(pc) && S.Asserted(InFront(s, n, pc), S.Call(n, now))
    ensures Called(s, n, pc, now).0.pool == s.base.pool
  {
    hide Micro;
  }

  /** So the pool is a queue: nodes are accepted in the order in which they came back. Here `all` are the
      nodes of the first state's pool, and those that have come back since, in that order. */
  lemma {:induction false} PoolInTurn(b: seq<State>, steps: seq<Step>, i: nat) returns (all: seq<nat>)
    requires Behavior(b, steps) && i < |b| == |steps| + 1
    ensures b[0].base.pool <= all && AcceptsIn(steps[..i]) <= |all| && b[i].base.pool == all[AcceptsIn(steps[..i])..]
  {
    hide Enabled, Next, Initial;
    if i == 0 {
      all := b[0].base.pool;
    } else {
      all := PoolInTurn(b, steps, i - 1);
      assert Goes(b[i - 1], steps[i - 1], b[i - 1 + 1]);
      var more := PoolStep(b[i - 1], steps[i - 1]);
      all := all + more;
      assert steps[..i][..i - 1] == steps[..i - 1];
    }
  }

  /** No thread is in a handler of n. */
  ghost predicate AtRest(s: State, n: nat) {
    && !(s.accepting.Running? && s.accepting.n == n)
    && forall g | 0 <= g < |s.workers| && s.workers[g].Running? :: s.workers[g].n != n
  }

  lemma RestView(s: State, n: nat)
    requires Inv(s) && n < |s.base.sessions|
    ensures AtRest(s, n) <==> !Busy(PcOf(s, n))
  {
    hide S.Inv;
    PcFrom(s, n);
  }

  /** The recycle queue holds sessions that are over, each once; what is over and at rest is there,
      unless it was ended inside onCheck. */
  lemma RecycleQueueExact(b: seq<State>, steps: seq<Step>, i: nat, n: nat)
    requires Behavior(b, steps) && CleanAccepts(b, steps) && i < |b| && n < |b[i].base.sessions|
    ensures var s := b[i]; var t := s.base.sessions[n];
      && multiset(s.base.recycleQueue)[n] <= 1
      && (n in s.base.recycleQueue <==> t.status == Over && AtRest(s, n) && t.pc == Idle)
      && (t.status == Over && AtRest(s, n) ==> n in s.base.recycleQueue || t.pc == Abandoned)
  {
    hide Inv, Next, Enabled, Initial;
    RunsAreSerial(b, steps);
    BehaviorInv(b, steps, i);
    assert AbsRun(b)[i] == Abs(b[i]);
    SR.RecycleQueueExact(AbsRun(b), AbsSteps(b, steps), i, n);
    RestView(b[i], n);
    PcFrom(b[i], n);
    IdleRests(b[i], n);
  }

  lemma IdleRests(s: State, n: nat)
    requires Inv(s) && n < |s.base.sessions|
    ensures !Busy(PcOf(s, n)) ==> PcOf(s, n) == s.base.sessions[n].pc
    ensures PcOf(s, n) == Idle ==> !Busy(PcOf(s, n))
  {
    PcFrom(s, n);
  }

  // ----- how a ready session ends -----

  /** A worker dispatches a message to n that ends its session, or a handler of n asks for a timer and
      the pool is empty. */
  ghost predicate EndsNow(s: State, step: Step, n: nat) {
    && n < |s.base.sessions| && (step.Dispatch? || step.Call?) && step.g < |s.workers|
    && match s.workers[step.g]
       case Holding(m, msg) => step.Dispatch? && m == n && Fatal(s.base.sessions[n], msg)
       case Running(m, pc) =>
         step.Call? && m == n && pc.Arming? && pc.stage.Allocating? && s.base.world.timers.free == []
       case _ => false
  }

  /** For a ready session that is what it is in the serial view. */
  lemma EndsView(s: State, step: Step, n: nat)
    requires Inv(s) && Enabled(s, step) && n < |s.base.sessions| && s.base.sessions[n].status == Ready
    ensures EndsNow(s, step, n) <==> SR.EndsNow(Abs(s), AbsStep(s, step), n)
  {
    hide S.Inv, Fatal, Shape;
    assert Abs(s).sessions[n] == SessionOf(s, n);
    if step.Dispatch? && s.workers[step.g].n == n {
      DispatchPc(s, step.g);
    } else if step.Call? {
      WorkerAt(s, step.g);
    } else if step.Attach? {
      AcceptingConnected(s);
    }
  }

  lemma AcceptingConnected(s: State)
    requires Inv(s) && s.accepting.Running?
    ensures s.accepting.n < |s.base.sessions| && s.base.sessions[s.accepting.n].status != Ready
  {
    hide S.Inv, S.NodePlaced;
    AcceptingPc(s);
    NodeFacts(s, s.accepting.n);
  }

  /** A ready session ends with this step, and is over then, if and only if the step is one of these. */
  lemma ReadyEnds(b: seq<State>, steps: seq<Step>, i: nat, n: nat)
    requires Behavior(b, steps) && CleanAccepts(b, steps) && i < |steps|
    requires n < |b[i].base.sessions| && b[i].base.sessions[n].status == Ready
    ensures n < |b[i + 1].base.sessions|
    ensures b[i + 1].base.sessions[n].status == if EndsNow(b[i], steps[i], n) then Over else Ready
  {
    hide Inv, Next, Enabled, Initial, EndsNow, SR.EndsNow;
    RunsAreSerial(b, steps);
    BehaviorInv(b, steps, i);
    StepRefines(b, steps, i);
    EndsView(b[i], steps[i], n);
    var a := AbsRun(b);
    assert a[i] == Abs(b[i]) && a[i + 1] == Abs(b[i + 1]);
    assert AbsSteps(b, steps)[i] == AbsStep(b[i], steps[i]);
    SessionFields(b[i], n);
    SR.ReadyEnds(a, AbsSteps(b, steps), i, n);
    SessionFields(b[i + 1], n);
  }

  /** So over any stretch of a run a session stays ready exactly as long as nothing of that happens,
      whatever other messages it is sent. */
  lemma {:induction false} StaysReady(b: seq<State>, steps: seq<Step>, i: nat, j: nat, n: nat)
    requires Behavior(b, steps) && CleanAccepts(b, steps) && i <= j < |b| == |steps| + 1
    requires n < |b[i].base.sessions| && b[i].base.sessions[n].status == Ready
    ensures ReadyDuring(b, n, i, j) <==> forall k | i <= k < j :: !EndsNow(b[k], steps[k], n)
    decreases j
  {
    hide Behavior, CleanAccepts, EndsNow;
    if i < j {
      StaysReady(b, steps, i, j - 1, n);
      if ReadyDuring(b, n, i, j - 1) {
        ReadyEnds(b, steps, j - 1, n);
      }
    }
  }

  // ----- keepalive -----

  /** A worker handles the keepalive timer of node n, which is ready. */
  ghost predicate Tick(s: State, step: Step, n: nat) {
    && n < |s.base.sessions| && s.base.sessions[n].status == Ready
    && step.Dispatch? && step.g < |s.workers|
    && s.base.sessions[n].keepLive.Some?
    && s.workers[step.g] == Holding(n, OnTimer(s.base.sessions[n].keepLive.value, Code(Ready)))
  }

  /** A worker handles a heartbeat ack of n. */
  ghost predicate AckOf(s: State, step: Step, n: nat) {
    step.Dispatch? && step.g < |s.workers| && s.workers[step.g] == Holding(n, HeartBeatAck)
  }

  ghost predicate ReadyDuring(b: seq<State>, n: nat, i: nat, j: nat)
    requires i <= j < |b|
  {
    forall k | i <= k <= j :: n < |b[k].base.sessions| && b[k].base.sessions[n].status == Ready
  }

  /** Since the last tick, or since state i, a heartbeat ack has been handled; before that, what the
      session had noted at state i. */
  ghost predicate Acked(b: seq<State>, steps: seq<Step>, n: nat, i: nat, j: nat)
    requires i <= j < |b| == |steps| + 1 && n < |b[i].base.sessions|
  {
    if j == i then b[i].base.sessions[n].heartbeat
    else if AckOf(b[j - 1], steps[j - 1], n) then true
    else !Tick(b[j - 1], steps[j - 1], n) && Acked(b, steps, n, i, j - 1)
  }

  /** For a ready session, ticks and acks are those of the serial view. */
  lemma TickView(s: State, step: Step, n: nat)
    requires Inv(s) && Enabled(s, step) && n < |s.base.sessions| && s.base.sessions[n].status == Ready
    ensures Tick(s, step, n) <==> SR.Tick(Abs(s), AbsStep(s, step), n)
    ensures AckOf(s, step, n) <==> AbsStep(s, step) == S.Deliver(n, HeartBeatAck)
  {
    hide S.Inv;
    if step.Dispatch? && s.workers[step.g].n == n {
      DispatchPc(s, step.g);
    }
  }

  lemma {:induction false} AckedView(b: seq<State>, steps: seq<Step>, n: nat, i: nat, j: nat)
    requires Behavior(b, steps) && CleanAccepts(b, steps) && i <= j < |b| == |steps| + 1
    requires ReadyDuring(b, n, i, j)
    requires forall k | 0 <= k < |b| :: |b[k].base.sessions| == |b[k].base.home|
    requires forall k | 0 <= k < |steps| :: Possible(b[k], steps[k])
    ensures Acked(b, steps, n, i, j) == SR.Acked(AbsRun(b), AbsSteps(b, steps), n, i, j)
  {
    hide Inv, Next, Initial, Possible, Asserted, Unreferenced, Tick, SR.Tick, AckOf;
    var a, asteps := AbsRun(b), AbsSteps(b, steps);
    assert a[i] == Abs(b[i]);
    if i < j {
      assert ReadyDuring(b, n, i, j - 1);
      AckedView(b, steps, n, i, j - 1);
      assert Enabled(b[j - 1], steps[j - 1]);
      BehaviorInv(b, steps, j - 1);
      TickView(b[j - 1], steps[j - 1], n);
      assert a[j - 1] == Abs(b[j - 1]) && asteps[j - 1] == AbsStep(b[j - 1], steps[j - 1]);
    }
  }

  /** A keepalive tick ends the session if and only if no heartbeat ack was handled since the tick
      before; so two ticks without an ack end it, and acks between every two ticks keep it. */
  lemma KeepaliveExact(b: seq<State>, steps: seq<Step>, n: nat, i: nat, j: nat)
    requires Behavior(b, steps) && CleanAccepts(b, steps) && i <= j < |steps|
    requires ReadyDuring(b, n, i, j) && Tick(b[j], steps[j], n)
    ensures n < |b[j + 1].base.sessions|
    ensures b[j + 1].base.sessions[n].status == Over <==> !Acked(b, steps, n, i, j)
    ensures b[j + 1].base.sessions[n].status == Ready <==> Acked(b, steps, n, i, j)
  {
    hide Inv, Next, Initial, Possible, Asserted, Unreferenced, Acked, SR.Acked, SR.Behavior;
    RunsAreSerial(b, steps);
    AckedView(b, steps, n, i, j);
    BehaviorInv(b, steps, j);
    assert Enabled(b[j], steps[j]);
    TickView(b[j], steps[j], n);
    ReadyView(b, n, i, j);
    var a, asteps := AbsRun(b), AbsSteps(b, steps);
    assert a[j] == Abs(b[j]) && a[j + 1] == Abs(b[j + 1]) && asteps[j] == AbsStep(b[j], steps[j]);
    SR.KeepaliveExact(a, asteps, n, i, j);
  }

  lemma ReadyView(b: seq<State>, n: nat, i: nat, j: nat)
    requires forall k | 0 <= k < |b| :: |b[k].base.sessions| == |b[k].base.home|
    requires i <= j < |b| && ReadyDuring(b, n, i, j)
    ensures SR.ReadyDuring(AbsRun(b), n, i, j)
  {
    var a := AbsRun(b);
    forall k | i <= k <= j
      ensures n < |a[k].sessions| && a[k].sessions[n].status == Ready
    {
      assert a[k] == Abs(b[k]);
    }
  }
}
