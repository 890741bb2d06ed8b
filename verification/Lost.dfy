/** Nodes that nobody gives back. When an attach fails, CTrafficManager::_addNodes drops the node; it
    comes back into the pool only if a message from its last connection ends its session: exactly if
    such a handler is running already, or some worker is going to dispatch one to it before any
    handshake. A session that is ended inside onCheck never comes back. This is about all runs,
    whatever nodes are accepted. */
module Lost {
  import opened Prelude
  import opened Sessions
  import opened Workers
  import WS = WorkersSerial
  import WR = WorkerRuns
  import T = TimerSpec
  import R = TimerRuns
  import S = Server

  /** What the worker of group g is going to dispatch, as far as it is queued: the message in its hand
      and its queue. */
  ghost function Line(s: State, g: nat): seq<Envelope>
    requires g < |s.workers| == |s.queues|
  {
    (if s.workers[g].Holding? then [Envelope(s.workers[g].n, s.workers[g].msg)] else []) + s.queues[g]
  }

  /** A message for n that the timer thread has not put there. */
  ghost predicate Wakes(e: Envelope, n: nat) {
    e.n == n && !e.msg.OnTimer?
  }

  /** p is the place of the first such message. */
  ghost predicate FirstWake(line: seq<Envelope>, n: nat, p: nat) {
    p < |line| && Wakes(line[p], n) && forall q | 0 <= q < p :: !Wakes(line[q], n)
  }

  // ----- where a node is whose attach has failed -----

  ghost predicate InHandler(thread: Thread, n: nat) {
    (thread.Running? || thread.Checking?) && thread.n == n
  }

  /** In __onStart of n, in front of an assert that fails as long as n has no timer. */
  ghost predicate Blocked(thread: Thread, n: nat) {
    thread.Running? && thread.n == n && thread.pc.Greeting?
  }

  /** In __onStop of n, on the way to recycleNode. */
  ghost predicate Ends(thread: Thread, n: nat) {
    && thread.Running? && thread.n == n
    && ((thread.pc.Stopping? && thread.pc.recycle) || (thread.pc.Leaving? && thread.pc.recycle) || thread.pc.Recycling?)
  }

  /** n has a group but is in no container, and not in the pool; it has no timer. */
  ghost predicate Placeless(s: State, n: nat) {
    && n < |s.base.sessions| == |s.base.home| && s.base.home[n].Some?
    && s.base.sessions[n].keepLive == None && !Busy(s.base.sessions[n].pc) && n !in s.base.pool
    && (forall g | 0 <= g < |s.base.groups| :: n !in s.base.groups[g].list)
  }

  /** Nothing is going to happen to n before a message is dispatched to it. */
  ghost predicate Waiting(s: State, n: nat) {
    && Placeless(s, n) && s.base.sessions[n].status == Connected && n !in s.base.recycleQueue
    && forall g | 0 <= g < |s.workers| && InHandler(s.workers[g], n) :: Blocked(s.workers[g], n)
  }

  /** Worker e is ending the session of n. */
  ghost predicate EndedBy(s: State, n: nat, e: nat) {
    && Placeless(s, n) && s.base.sessions[n].status == Over && n !in s.base.recycleQueue
    && e < |s.workers| && Ends(s.workers[e], n)
    && forall g | 0 <= g < |s.workers| && g != e && InHandler(s.workers[g], n) :: Blocked(s.workers[g], n)
  }

  ghost predicate Ending(s: State, n: nat) {
    exists e: nat :: EndedBy(s, n, e)
  }

  /** n waits to be recycled. */
  ghost predicate Queued(s: State, n: nat) {
    && Placeless(s, n) && s.base.sessions[n].status == Over && n in s.base.recycleQueue
    && forall g | 0 <= g < |s.workers| && InHandler(s.workers[g], n) :: Blocked(s.workers[g], n)
  }

  ghost predicate Staged(s: State, n: nat) {
    Waiting(s, n) || Ending(s, n) || Queued(s, n)
  }

  /** The traffic thread is not inside attach for n. */
  ghost predicate Dropped(s: State, n: nat) {
    !(s.accepting.Running? && s.accepting.n == n)
  }

  /** Worker g is going to end the session of n: the first message it has for n is no handshake. */
  ghost predicate Opens(s: State, g: nat, n: nat)
    requires g < |s.workers| == |s.queues|
  {
    && !Blocked(s.workers[g], n)
    && exists p: nat :: FirstWake(Line(s, g), n, p) && !Line(s, g)[p].msg.HandShake?
  }

  /** The exact condition for n to come back: its session is ended already, or some worker will end it. */
  ghost predicate Revivable(s: State, n: nat)
    requires |s.workers| == |s.queues|
  {
    Ending(s, n) || Queued(s, n) || exists g: nat :: g < |s.workers| && Opens(s, g, n)
  }

  // ----- steps that concern another node -----

  /** The node a step acts on. */
  ghost function Actor(s: State, step: Step): Option<nat>
    requires Enabled(s, step)
  {
    match step
    case Accept => Some(s.base.pool[0])
    case Attach(_) => Some(s.accepting.n)
    case Recycle => Some(s.base.recycleQueue[0])
    case Dispatch(g) => Some(s.workers[g].n)
    case Look(g) => Some(s.workers[g].n)
    case Push(g, _, _) => Some(s.workers[g].n)
    case EndCheck(g) => Some(s.workers[g].n)
    case Call(g, _) => Some(s.workers[g].n)
    case _ => None
  }

  /** n is where it was. */
  ghost predicate Apart(s: S.State, t: S.State, n: nat)
    requires n < |s.sessions| == |s.home|
  {
    && |t.sessions| == |s.sessions| && t.sessions[n] == s.sessions[n]
    && |t.home| == |s.home| && t.home[n] == s.home[n]
    && (n in t.pool <==> n in s.pool) && (n in t.recycleQueue <==> n in s.recycleQueue)
    && |t.groups| == |s.groups|
    && (forall g | 0 <= g < |s.groups| :: n in t.groups[g].list <==> n in s.groups[g].list)
  }

  /** The handlers of n are where they were. */
  ghost predicate ThreadsApart(s: State, t: State, n: nat) {
    && |t.workers| == |s.workers|
    && (forall g | 0 <= g < |s.workers| && (InHandler(s.workers[g], n) || InHandler(t.workers[g], n)) ::
          t.workers[g] == s.workers[g])
    && (t.accepting == s.accepting || (Dropped(s, n) && Dropped(t, n)))
  }

  lemma CalledApart(s: State, m: nat, pc: Pc, now: T.Clock, n: nat)
    requires m < |s.base.sessions| == |s.base.home| && Busy(pc) && S.Asserted(InFront(s, m, pc), S.Call(m, now))
    requires n < |s.base.sessions| && n != m
    ensures var (base, thread) := Called(s, m, pc, now);
      Apart(s.base, base, n) && (thread.Rest? || thread.n == m) && !thread.Holding?
  {
    hide Micro;
    JoinsAt(m, InFront(s, m, pc).sessions[m], s.base.world, now);
    var f := S.Called(InFront(s, m, pc), m, now);
    var (base, thread) := Called(s, m, pc, now);
    assert f.sessions[n] == s.base.sessions[n];
    assert Apart(s.base, f, n);
    assert base.sessions[n] == f.sessions[n];
  }

  lemma AcceptApart(s: State, n: nat)
    requires Enabled(s, Accept) && n < |s.base.sessions| == |s.base.home| && n != s.base.pool[0]
    ensures var t := Next(s, Accept); Apart(s.base, t.base, n) && ThreadsApart(s, t, n)
  {
    assert s.base.pool == [s.base.pool[0]] + s.base.pool[1..];
  }

  lemma RecycleApart(s: State, n: nat)
    requires Enabled(s, Recycle) && n < |s.base.sessions| == |s.base.home| && n != s.base.recycleQueue[0]
    ensures Apart(s.base, Next(s, Recycle).base, n)
  {
    assert s.base.recycleQueue == [s.base.recycleQueue[0]] + s.base.recycleQueue[1..];
    if !S.PassedOver(s.base, s.base.recycleQueue[0]) {
      var m := s.base.recycleQueue[0];
      var g := s.base.home[m].value;
      if m in s.base.groups[g].list {
        WithoutElements(s.base.groups[g].list, m);
      }
    }
  }

  lemma DispatchApart(s: State, g: nat, n: nat)
    requires Enabled(s, Dispatch(g)) && n < |s.base.sessions| == |s.base.home| && n != s.workers[g].n
    ensures var t := Next(s, Dispatch(g)); Apart(s.base, t.base, n) && ThreadsApart(s, t, n)
  {
    hide Handled;
  }

  lemma PushApart(s: State, g: nat, stamp: nat, sent: bool, n: nat)
    requires Enabled(s, Push(g, stamp, sent)) && n < |s.base.sessions| == |s.base.home| && n != s.workers[g].n
    ensures var t := Next(s, Push(g, stamp, sent)); Apart(s.base, t.base, n) && ThreadsApart(s, t, n)
  {
  }

  /** A step that acts on another node, or none, leaves n and its handlers alone. */
  lemma ElsewhereApart(s: State, step: Step, n: nat)
    requires Enabled(s, step) && n < |s.base.sessions| == |s.base.home| && Actor(s, step) != Some(n)
    ensures Apart(s.base, Next(s, step).base, n) && ThreadsApart(s, Next(s, step), n)
  {
    hide T.Drained, T.Visited, Handled, Pushed, Called, S.Asserted, S.Accepted, S.Recycled, Settled, Apart;
    match step
    case Accept => AcceptApart(s, n);
    case Attach(now) => CalledApart(s, s.accepting.n, s.accepting.pc, now, n);
    case Recycle => RecycleApart(s, n);
    case Dispatch(g) => DispatchApart(s, g, n);
    case Push(g, stamp, sent) => PushApart(s, g, stamp, sent, n);
    case Call(g, now) => CalledApart(s, s.workers[g].n, s.workers[g].pc, now, n);
    case _ => QuickApart(s, step, n);
  }

  /** A step of the timer thread, or of a worker that takes something up. */
  lemma QuickApart(s: State, step: Step, n: nat)
    requires Enabled(s, step) && n < |s.base.sessions| == |s.base.home|
    requires step.Receive? || step.Take? || step.Pick? || step.TimerDrain? || step.TimerVisit?
             || (step.Look? && s.workers[step.g].n != n) || (step.EndCheck? && s.workers[step.g].n != n)
    ensures Apart(s.base, Next(s, step).base, n) && ThreadsApart(s, Next(s, step), n)
  {
    hide T.Drained, T.Visited, Apart;
    ApartSelf(s.base, n);
    match step
    case Pick(g) => PickApart(s, g, n);
    case TimerDrain => WorldApart(s.base, Next(s, step).base, n);
    case TimerVisit(_, _) => WorldApart(s.base, Next(s, step).base, n);
    case _ =>
  }

  lemma ApartSelf(s: S.State, n: nat)
    requires n < |s.sessions| == |s.home|
    ensures Apart(s, s, n)
  {
  }

  lemma WorldApart(s: S.State, t: S.State, n: nat)
    requires n < |s.sessions| == |s.home| && t == s.(world := t.world)
    ensures Apart(s, t, n)
  {
  }

  lemma PickApart(s: State, g: nat, n: nat)
    requires Enabled(s, Pick(g)) && n < |s.base.sessions| == |s.base.home|
    ensures Apart(s.base, Next(s, Pick(g)).base, n)
  {
  }

  // ----- what moves a node from stage to stage -----

  lemma ElsewhereStays(s: State, step: Step, n: nat)
    requires Enabled(s, step) && n < |s.base.sessions| == |s.base.home| && Actor(s, step) != Some(n)
    ensures var t := Next(s, step);
      && (Waiting(s, n) ==> Waiting(t, n) && t.base.sessions[n] == s.base.sessions[n])
      && (Ending(s, n) ==> Ending(t, n))
      && (Queued(s, n) ==> Queued(t, n))
      && (Dropped(s, n) ==> Dropped(t, n)) && (t.accepting == s.accepting || Dropped(s, n))
  {
    hide Enabled, Next, Actor;
    ElsewhereApart(s, step, n);
    var t := Next(s, step);
    if Ending(s, n) {
      var e: nat :| EndedBy(s, n, e);
      assert EndedBy(t, n, e);
    }
  }

  /** A message for n is dispatched: while n is waiting, a timer's changes nothing, a handshake blocks the
      worker, any other ends the session; afterwards it is dropped. */
  lemma DispatchMoves(s: State, g: nat, n: nat)
    requires Enabled(s, Dispatch(g)) && s.workers[g].n == n
    ensures var t, msg := Next(s, Dispatch(g)), s.workers[g].msg;
      && t.accepting == s.accepting
      && (Waiting(s, n) ==>
            if msg.OnTimer? then Waiting(t, n) && t.base.sessions[n] == s.base.sessions[n]
            else if msg.HandShake? then
              Waiting(t, n) && t.base.sessions[n] == s.base.sessions[n] && Blocked(t.workers[g], n)
            else Ending(t, n))
      && (Ending(s, n) ==> Ending(t, n))
      && (Queued(s, n) ==> Queued(t, n))
  {
    var t, msg := Next(s, Dispatch(g)), s.workers[g].msg;
    if Waiting(s, n) {
      DispatchWaiting(s, g, n);
    } else if Ending(s, n) {
      var e: nat :| EndedBy(s, n, e);
      assert EndedBy(t, n, e);
    }
  }

  lemma DispatchWaiting(s: State, g: nat, n: nat)
    requires Enabled(s, Dispatch(g)) && s.workers[g].n == n && Waiting(s, n)
    ensures var t, msg := Next(s, Dispatch(g)), s.workers[g].msg;
      if msg.OnTimer? then Waiting(t, n) && t.base.sessions[n] == s.base.sessions[n]
      else if msg.HandShake? then
        Waiting(t, n) && t.base.sessions[n] == s.base.sessions[n] && Blocked(t.workers[g], n)
      else EndedBy(t, n, g)
  {
    var u, msg := s.base.sessions[n], s.workers[g].msg;
    if msg.OnTimer? {
      assert Handled(u, msg) == u;
      assert s.base.sessions[n := u] == s.base.sessions;
    } else if msg.HandShake? {
      assert Handled(u, msg) == u.(pc := Greeting(msg.hello));
      assert s.base.sessions[n := u] == s.base.sessions;
    } else {
      assert Handled(u, msg) == Stopped(u, true);
    }
  }

  /** A call of a handler of n: what is blocked stays blocked, and __onStop goes on to the recycle queue. */
  lemma CallMoves(s: State, g: nat, now: T.Clock, n: nat)
    requires Enabled(s, Call(g, now)) && s.workers[g].n == n
    ensures var t := Next(s, Call(g, now));
      && t.accepting == s.accepting
      && !Waiting(s, n) && !Queued(s, n)
      && (Ending(s, n) ==> Ending(t, n) || Queued(t, n))
  {
    if Ending(s, n) {
      var e: nat :| EndedBy(s, n, e);
      OneEnds(s, g, now, n, e);
      EndsMove(s, g, now, n);
    }
  }

  /** A blocked worker makes no call. */
  lemma OneEnds(s: State, g: nat, now: T.Clock, n: nat, e: nat)
    requires Enabled(s, Call(g, now)) && s.workers[g].n == n && EndedBy(s, n, e)
    ensures g == e
  {
  }

  lemma EndsMove(s: State, g: nat, now: T.Clock, n: nat)
    requires Enabled(s, Call(g, now)) && s.workers[g].n == n && EndedBy(s, n, g)
    ensures var t := Next(s, Call(g, now)); EndedBy(t, n, g) || Queued(t, n)
  {
  }

  lemma RecycleMoves(s: State, n: nat)
    requires Enabled(s, Recycle) && s.base.recycleQueue[0] == n && Queued(s, n)
    ensures n in Next(s, Recycle).base.pool
  {
  }

  /** From waiting to ending to the recycle queue to the pool, and no other way; waiting ends with the
      dispatch of a message that is neither a timer's nor a handshake. */
  lemma StageMoves(s: State, step: Step, n: nat)
    requires Enabled(s, step) && Staged(s, n) && (step.Attach? ==> s.accepting.n != n)
    ensures var t := Next(s, step);
      && (Waiting(s, n) ==>
            if step.Dispatch? && Wakes(Envelope(s.workers[step.g].n, s.workers[step.g].msg), n)
                 && !s.workers[step.g].msg.HandShake?
            then Ending(t, n)
            else Waiting(t, n) && t.base.sessions[n] == s.base.sessions[n])
      && (Ending(s, n) ==> Ending(t, n) || Queued(t, n))
      && (Queued(s, n) ==> Queued(t, n) || n in t.base.pool)
      && (Dropped(s, n) ==> Dropped(t, n)) && (t.accepting == s.accepting || Dropped(s, n))
  {
    hide Next, Placeless, Waiting, Ending, Queued, Actor, Possible, Asserted;
    StagedSize(s, n);
    if Actor(s, step) != Some(n) {
      DispatchActor(s, step);
      ElsewhereStays(s, step, n);
    } else {
      ActsOn(s, step, n);
      match step
      case Recycle => RecycleStage(s, n);
      case Dispatch(g) => DispatchMoves(s, g, n);
      case Look(g) => LookMoves(s, g, n);
      case Call(g, now) => CallMoves(s, g, now, n);
      case _ =>
    }
  }

  lemma StagedSize(s: State, n: nat)
    requires Staged(s, n)
    ensures n < |s.base.sessions| == |s.base.home|
    ensures !(Waiting(s, n) && Ending(s, n)) && !(Waiting(s, n) && Queued(s, n)) && !(Ending(s, n) && Queued(s, n))
  {
  }

  lemma DispatchActor(s: State, step: Step)
    requires Enabled(s, step)
    ensures step.Dispatch? ==> step.g < |s.workers| && s.workers[step.g].Holding?
                               && Actor(s, step) == Some(s.workers[step.g].n)
  {
  }

  /** Only these steps act on a staged node. */
  lemma ActsOn(s: State, step: Step, n: nat)
    requires Enabled(s, step) && Staged(s, n) && Actor(s, step) == Some(n) && (step.Attach? ==> s.accepting.n != n)
    ensures match step
      case Recycle => s.base.recycleQueue[0] == n
      case Dispatch(g) => s.workers[g].n == n
      case Look(g) => s.workers[g].n == n
      case Call(g, _) => s.workers[g].n == n
      case _ => false
  {
    FrontInPool(s);
  }

  lemma FrontInPool(s: State)
    ensures s.base.pool != [] ==> s.base.pool[0] in s.base.pool
  {
  }

  lemma RecycleStage(s: State, n: nat)
    requires Enabled(s, Recycle) && s.base.recycleQueue[0] == n && Staged(s, n)
    ensures Queued(s, n) && n in Next(s, Recycle).base.pool && Next(s, Recycle).accepting == s.accepting
  {
    assert n in s.base.recycleQueue;
    RecycleMoves(s, n);
  }

  lemma LookMoves(s: State, g: nat, n: nat)
    requires Enabled(s, Look(g)) && s.workers[g].n == n && Staged(s, n)
    ensures var t := Next(s, Look(g));
      && t.accepting == s.accepting
      && (Waiting(s, n) ==> Waiting(t, n) && t.base.sessions[n] == s.base.sessions[n])
      && (Ending(s, n) ==> Ending(t, n))
      && (Queued(s, n) ==> Queued(t, n))
  {
    var t := Next(s, Look(g));
    if Ending(s, n) {
      var e: nat :| EndedBy(s, n, e);
      assert EndedBy(t, n, e);
    }
  }

  // ----- the line of a worker is first in, first out -----

  lemma LineStep(s: State, step: Step, g: nat)
    requires Enabled(s, step) && g < |s.workers| == |s.queues|
    ensures var t := Next(s, step);
      && |t.workers| == |t.queues| == |s.queues|
      && (if step == Dispatch(g) then Line(s, g) != [] && Line(s, g)[0] == Envelope(s.workers[g].n, s.workers[g].msg)
                                      && Line(s, g)[1..] <= Line(t, g)
          else Line(s, g) <= Line(t, g))
  {
    hide S.Asserted, S.Accepted, S.Recycled, Handled, Pushed, S.Called, T.Drained, T.Visited, T.Expired;
    if step.Take? && step.g == g {
      assert s.queues[g] == [s.queues[g][0]] + s.queues[g][1..];
    }
  }

  /** How many messages the worker of group g dispatches between the states i and j. */
  ghost function Dispatches(steps: seq<Step>, g: nat, i: nat, j: nat): nat
    requires i <= j <= |steps|
  {
    if i == j then 0 else Dispatches(steps, g, i, j - 1) + if steps[j - 1] == Dispatch(g) then 1 else 0
  }

  lemma StepOf(b: seq<State>, steps: seq<Step>, i: nat)
    requires Behavior(b, steps) && i < |steps|
    ensures Enabled(b[i], steps[i]) && b[i + 1] == Next(b[i], steps[i])
  {
  }

  lemma {:induction false} QueueForEach(b: seq<State>, steps: seq<Step>, i: nat)
    requires Behavior(b, steps) && i < |b|
    ensures |b[i].workers| == |b[i].queues| == |b[0].queues|
  {
    hide Enabled, Next;
    if i > 0 {
      QueueForEach(b, steps, i - 1);
      StepOf(b, steps, i - 1);
      SizesKept(b[i - 1], steps[i - 1]);
    }
  }

  lemma SizesKept(s: State, step: Step)
    requires Enabled(s, step) && |s.workers| == |s.queues|
    ensures |Next(s, step).workers| == |Next(s, step).queues| == |s.queues|
  {
    if |s.queues| > 0 {
      LineStep(s, step, 0);
    }
  }

  lemma {:induction false} FirstInFirstOut(b: seq<State>, steps: seq<Step>, g: nat, i: nat, j: nat)
    requires Behavior(b, steps) && i <= j < |b| && g < |b[0].queues|
    ensures |b| == |steps| + 1 && |b[i].workers| == |b[i].queues| == |b[0].queues|
    ensures |b[j].workers| == |b[j].queues| == |b[0].queues|
    ensures var d := Dispatches(steps, g, i, j); d <= |Line(b[i], g)| ==> Line(b[i], g)[d..] <= Line(b[j], g)
    decreases j
  {
    hide Enabled, Next, Line, Initial;
    QueueForEach(b, steps, i);
    QueueForEach(b, steps, j);
    if i == j {
      assert Line(b[i], g)[0..] == Line(b[i], g);
    } else {
      QueueForEach(b, steps, j - 1);
      FirstInFirstOut(b, steps, g, i, j - 1);
      StepOf(b, steps, j - 1);
      LineStep(b[j - 1], steps[j - 1], g);
      var d := Dispatches(steps, g, i, j);
      if steps[j - 1] == Dispatch(g) && d <= |Line(b[i], g)| {
        assert Line(b[i], g)[d - 1..][1..] == Line(b[i], g)[d..];
      }
    }
  }

  // ----- what is on the way -----

  /** What a step adds to a line. */
  lemma LineGrows(s: State, step: Step, g: nat)
    requires Enabled(s, step) && g < |s.workers| == |s.queues|
    ensures var t := Next(s, step);
      && |t.workers| == |t.queues| == |s.queues|
      && var l := if step == Dispatch(g) && Line(s, g) != [] then Line(s, g)[1..] else Line(s, g);
         forall k | |l| <= k < |Line(t, g)| ::
           || Line(t, g)[k].msg.OnTimer?
           || (Line(t, g)[k].n < |s.base.sessions| && Joined(s, Line(t, g)[k].n))
  {
    hide S.Asserted, S.Accepted, S.Recycled, Handled, Pushed, S.Called;
  }

  /** Nobody but the timer thread sends to a node that is in no container. */
  lemma NotJoined(s: State, n: nat)
    requires Placeless(s, n)
    ensures !Joined(s, n)
  {
  }

  /** While n is waiting, the first message for it stays the first until it is dispatched. */
  lemma FirstStays(s: State, step: Step, g: nat, n: nat, p: nat)
    requires Enabled(s, step) && Waiting(s, n) && g < |s.workers| == |s.queues|
    requires |Next(s, step).workers| == |Next(s, step).queues| == |s.queues|
    requires FirstWake(Line(Next(s, step), g), n, p)
    requires !(step == Dispatch(g) && Wakes(Envelope(s.workers[g].n, s.workers[g].msg), n))
    ensures var q := if step == Dispatch(g) then p + 1 else p;
      FirstWake(Line(s, g), n, q) && Line(s, g)[q] == Line(Next(s, step), g)[p]
  {
    hide Enabled, Next, Line, Waiting, Joined;
    LineStep(s, step, g);
    LineGrows(s, step, g);
    NotJoinedWaiting(s, n);
    var l, m := Line(s, g), Line(Next(s, step), g);
    var rest := if step == Dispatch(g) then l[1..] else l;
    assert p < |rest|;
    assert forall k | 0 <= k < |rest| :: m[k] == rest[k];
    if step == Dispatch(g) {
      forall k | 0 <= k < p + 1 ensures !Wakes(l[k], n) {
        if k > 0 {
          assert l[k] == rest[k - 1] == m[k - 1];
        }
      }
    }
  }

  lemma NotJoinedWaiting(s: State, n: nat)
    requires Waiting(s, n)
    ensures !Joined(s, n)
  {
    NotJoined(s, n);
  }

  /** A node that no worker is going to end the session of is left where it is by every step. */
  lemma NeverOpens(s: State, step: Step, n: nat)
    requires Enabled(s, step) && Waiting(s, n) && Dropped(s, n) && |s.workers| == |s.queues| && !Revivable(s, n)
    ensures var t := Next(s, step);
      && Waiting(t, n) && t.base.sessions[n] == s.base.sessions[n] && Dropped(t, n)
      && |t.workers| == |t.queues| && !Revivable(t, n)
  {
    hide Enabled, Next, Line, Waiting, Ending, Queued, Opens;
    var t := Next(s, step);
    SizesKept(s, step);
    NotAttaching(s, step, n);
    StageMoves(s, step, n);
    if step.Dispatch? {
      DispatchOpens(s, step.g, n);
    }
    StagedSize(t, n);
    forall g: nat | g < |t.workers|
      ensures !Opens(t, g, n)
    {
      assert !Opens(s, g, n);
      StaysShut(s, step, g, n);
    }
  }

  lemma NotAttaching(s: State, step: Step, n: nat)
    requires Enabled(s, step) && Dropped(s, n)
    ensures step.Attach? ==> s.accepting.n != n
  {
  }

  /** What is dispatched now is the first of its line. */
  lemma DispatchOpens(s: State, g: nat, n: nat)
    requires Enabled(s, Dispatch(g)) && |s.workers| == |s.queues|
    ensures g < |s.workers|
    ensures Wakes(Envelope(s.workers[g].n, s.workers[g].msg), n) && !s.workers[g].msg.HandShake? ==> Opens(s, g, n)
  {
    assert Line(s, g)[0] == Envelope(s.workers[g].n, s.workers[g].msg);
    if Wakes(Envelope(s.workers[g].n, s.workers[g].msg), n) {
      assert FirstWake(Line(s, g), n, 0);
    }
  }

  lemma StaysShut(s: State, step: Step, g: nat, n: nat)
    requires Enabled(s, step) && Waiting(s, n) && Dropped(s, n) && g < |s.workers| == |s.queues| && !Opens(s, g, n)
    ensures |Next(s, step).workers| == |Next(s, step).queues| == |s.queues| && !Opens(Next(s, step), g, n)
  {
    hide Next, Possible, Asserted, Line, Waiting, Actor, Blocked, Wakes;
    DispatchActor(s, step);
    LineStep(s, step, g);
    var t := Next(s, step);
    if Blocked(s.workers[g], n) {
      StaysBlocked(s, step, g, n);
    } else if step == Dispatch(g) && Wakes(Envelope(s.workers[g].n, s.workers[g].msg), n) {
      WakesHandler(s, g, n);
    } else if p: nat :| FirstWake(Line(t, g), n, p) && !Blocked(t.workers[g], n) {
      FirstStays(s, step, g, n, p);
      forall p': nat | FirstWake(Line(t, g), n, p')
        ensures Line(t, g)[p'].msg.HandShake?
      {
        FirstStays(s, step, g, n, p');
      }
    }
  }

  lemma StaysBlocked(s: State, step: Step, g: nat, n: nat)
    requires Enabled(s, step) && Waiting(s, n) && Dropped(s, n) && g < |s.workers| && Blocked(s.workers[g], n)
    ensures g < |Next(s, step).workers| && Blocked(Next(s, step).workers[g], n)
  {
    hide S.Asserted, S.Accepted, S.Recycled, S.Called, Handled, Pushed, Settled;
    BlockedCalls(s, step, g, n);
  }

  lemma BlockedCalls(s: State, step: Step, g: nat, n: nat)
    requires Enabled(s, step) && Waiting(s, n) && g < |s.workers| && Blocked(s.workers[g], n)
    ensures !(step.Call? && step.g == g)
  {
  }

  /** A handshake blocks the worker that dispatches it. */
  lemma WakesHandler(s: State, g: nat, n: nat)
    requires Enabled(s, Dispatch(g)) && Waiting(s, n) && |s.workers| == |s.queues| && !Opens(s, g, n)
    requires Wakes(Envelope(s.workers[g].n, s.workers[g].msg), n)
    ensures g < |Next(s, Dispatch(g)).workers| && Blocked(Next(s, Dispatch(g)).workers[g], n)
  {
    hide Next, Line, Waiting, Opens;
    DispatchOpens(s, g, n);
    DispatchMoves(s, g, n);
    SizesKept(s, Dispatch(g));
  }

  // ----- lost or not -----

  /** Without a worker that will end its session, a node whose attach has failed is lost for ever. */
  lemma {:induction false} LostForever(b: seq<State>, steps: seq<Step>, i: nat, j: nat, n: nat)
    requires Behavior(b, steps) && i <= j < |b| && |b[i].workers| == |b[i].queues|
    requires Waiting(b[i], n) && Dropped(b[i], n) && !Revivable(b[i], n)
    ensures Waiting(b[j], n) && Dropped(b[j], n) && b[j].base.sessions[n] == b[i].base.sessions[n]
    ensures |b[j].workers| == |b[j].queues| && !Revivable(b[j], n)
  {
    hide Enabled, Next, Initial, Waiting, Revivable;
    if i < j {
      LostForever(b, steps, i, j - 1, n);
      StepOf(b, steps, j - 1);
      NeverOpens(b[j - 1], steps[j - 1], n);
    }
  }

  /** n has been in the pool. */
  ghost predicate Returned(b: seq<State>, i: nat, j: nat, n: nat)
    requires j < |b|
  {
    exists k | i <= k <= j :: n in b[k].base.pool
  }

  ghost predicate WaitingDuring(b: seq<State>, i: nat, j: nat, n: nat)
    requires j < |b|
  {
    forall k | i <= k <= j :: Waiting(b[k], n)
  }

  /** Until it is in the pool, n goes through its stages; if it is still waiting, it has been all along. */
  lemma {:induction false} GoesThrough(b: seq<State>, steps: seq<Step>, i: nat, j: nat, n: nat)
    requires Behavior(b, steps) && i <= j < |b| && Staged(b[i], n) && Dropped(b[i], n) && !Returned(b, i, j, n)
    ensures Staged(b[j], n) && Dropped(b[j], n)
    ensures Waiting(b[j], n) ==> WaitingDuring(b, i, j, n)
    decreases j
  {
    hide Enabled, Next, Initial, Waiting, Ending, Queued, Dropped;
    if i < j {
      assert !Returned(b, i, j - 1, n);
      GoesThrough(b, steps, i, j - 1, n);
      StepOf(b, steps, j - 1);
      NotAttaching(b[j - 1], steps[j - 1], n);
      StageMoves(b[j - 1], steps[j - 1], n);
      StagedSize(b[j - 1], n);
      assert n !in b[j].base.pool;
      StagedSize(b[j], n);
    }
  }

  /** While n is waiting, its first message has not been dispatched, unless it is a handshake. */
  lemma {:induction false} NotDispatched(b: seq<State>, steps: seq<Step>, g: nat, i: nat, j: nat, n: nat, p: nat)
    requires Behavior(b, steps) && i <= j < |b| == |steps| + 1 && g < |b[0].queues|
    requires |b[i].workers| == |b[i].queues| == |b[0].queues| && WaitingDuring(b, i, j, n)
    requires p < |Line(b[i], g)| && Wakes(Line(b[i], g)[p], n) && !Line(b[i], g)[p].msg.HandShake?
    ensures Dispatches(steps, g, i, j) <= p
    decreases j
  {
    hide Enabled, Next, Line, Initial, Waiting, Ending, Queued;
    if i < j {
      NotDispatched(b, steps, g, i, j - 1, n, p);
      if steps[j - 1] == Dispatch(g) && Dispatches(steps, g, i, j - 1) == p {
        FirstInFirstOut(b, steps, g, i, j - 1);
        StepOf(b, steps, j - 1);
        LineStep(b[j - 1], steps[j - 1], g);
        assert Line(b[i], g)[p..][0] == Line(b[j - 1], g)[0];
        assert Waiting(b[j - 1], n) && Waiting(b[j], n);
        StageMoves(b[j - 1], steps[j - 1], n);
        StagedSize(b[j], n);
        assert false;
      }
    }
  }

  /** Between i and j every worker that is not blocked has dispatched its first message for n. */
  ghost predicate FirstDispatched(b: seq<State>, steps: seq<Step>, i: nat, j: nat, n: nat)
    requires i <= j < |b| == |steps| + 1 && |b[i].workers| == |b[i].queues|
  {
    forall g: nat, p: nat | g < |b[i].workers| && !Blocked(b[i].workers[g], n) && FirstWake(Line(b[i], g), n, p) ::
      p < Dispatches(steps, g, i, j)
  }

  /** A node whose attach has failed comes back into the pool if and only if its session is ended already
      or some worker will end it, the first message it has for the node being no handshake: by the time
      those messages have been dispatched, the calls of __onStop made and the recycle queue worked off. */
  lemma LostExactly(b: seq<State>, steps: seq<Step>, i: nat, j: nat, n: nat)
    requires Behavior(b, steps) && i <= j < |b| == |steps| + 1
    requires |b[i].workers| == |b[i].queues| == |b[0].queues| && Staged(b[i], n) && Dropped(b[i], n)
    requires FirstDispatched(b, steps, i, j, n) && !Ending(b[j], n) && n !in b[j].base.recycleQueue
    ensures Returned(b, i, j, n) <==> Revivable(b[i], n)
  {
    hide Enabled, Next, Initial, Waiting, Ending, Line, Behavior, Dropped;
    if Returned(b, i, j, n) && !Revivable(b[i], n) {
      var k :| i <= k <= j && n in b[k].base.pool;
      LostForever(b, steps, i, k, n);
      WaitingOut(b[k], n);
      assert false;
    }
    if !Returned(b, i, j, n) {
      GoesThrough(b, steps, i, j, n);
      StagedSize(b[i], n);
      assert WaitingDuring(b, i, j, n);
      assert Waiting(b[i], n);
      if g: nat :| g < |b[i].workers| && Opens(b[i], g, n) {
        var p: nat :| FirstWake(Line(b[i], g), n, p) && !Line(b[i], g)[p].msg.HandShake?;
        NotDispatched(b, steps, g, i, j, n, p);
        assert false;
      }
    }
  }

  lemma WaitingOut(s: State, n: nat)
    requires Waiting(s, n)
    ensures n !in s.base.pool && n !in s.base.recycleQueue
    ensures forall g | 0 <= g < |s.base.groups| :: n !in s.base.groups[g].list
  {
  }

  // ----- an attach that fails -----

  /** Nothing is left of the last connection of a node in the pool but messages and picked pointers. */
  ghost predicate Unused(s: State, n: nat) {
    && n < |s.base.sessions| == |s.base.home| && !Busy(s.base.sessions[n].pc)
    && n !in s.base.recycleQueue && multiset(s.base.pool)[n] == 1
    && (forall g | 0 <= g < |s.base.groups| :: n !in s.base.groups[g].list)
    && forall g | 0 <= g < |s.workers| :: !InHandler(s.workers[g], n)
  }

  /** n is inside the setTimer call of onAttach. */
  ghost predicate Opening(s: State, n: nat) {
    s.accepting == Running(n, Arming(Handshake, Allocating))
  }

  lemma AcceptOpens(s: State, n: nat)
    requires Enabled(s, Accept) && s.base.pool[0] == n && Unused(s, n)
    ensures Opening(Next(s, Accept), n) && Waiting(Next(s, Accept), n)
  {
    assert s.base.pool == [n] + s.base.pool[1..];
  }

  lemma {:induction false} OpensUntil(b: seq<State>, steps: seq<Step>, a: nat, i: nat, n: nat)
    requires Behavior(b, steps) && a < i < |b| == |steps| + 1
    requires steps[a].Accept? && b[a].base.pool != [] && b[a].base.pool[0] == n && Unused(b[a], n)
    requires forall k | a < k < i :: !steps[k].Attach?
    ensures Opening(b[i], n) && Staged(b[i], n)
    decreases i
  {
    hide Enabled, Next, Initial, Waiting, Ending, Queued, Unused;
    if i == a + 1 {
      StepOf(b, steps, a);
      AcceptOpens(b[a], n);
    } else {
      OpensUntil(b, steps, a, i - 1, n);
      StepOf(b, steps, i - 1);
      OpensOn(b[i - 1], steps[i - 1], n);
    }
  }

  /** Meanwhile the traffic thread recycles nothing. */
  lemma OpensOn(s: State, step: Step, n: nat)
    requires Enabled(s, step) && Opening(s, n) && Staged(s, n) && !step.Attach?
    ensures Opening(Next(s, step), n) && Staged(Next(s, step), n)
  {
    hide Next, Waiting, Ending, Queued;
    StageMoves(s, step, n);
    PoolKept(s, step, n);
  }

  lemma PoolKept(s: State, step: Step, n: nat)
    requires Enabled(s, step) && s.accepting.Running? && !step.Attach? && Staged(s, n)
    ensures n !in Next(s, step).base.pool && Next(s, step).accepting == s.accepting
  {
    hide S.Asserted, S.Accepted, S.Recycled, Handled, Pushed, S.Called, Called, T.Drained, T.Visited;
    StagedOut(s, n);
    if step.Call? {
      PoolCalled(s, s.workers[step.g].n, s.workers[step.g].pc, step.now);
    }
  }

  lemma StagedOut(s: State, n: nat)
    requires Staged(s, n)
    ensures n !in s.base.pool
  {
  }

  lemma PoolCalled(s: State, m: nat, pc: Pc, now: T.Clock)
    requires m < |s.base.sessions| && Busy(pc) && S.Asserted(InFront(s, m, pc), S.Call(m, now))
    ensures Called(s, m, pc, now).0.pool == s.base.pool
  {
    hide Micro;
  }

  lemma NoTimerStays(s: State, now: T.Clock, n: nat)
    requires Enabled(s, Attach(now)) && Opening(s, n) && s.base.world.timers.free == [] && Staged(s, n)
    ensures var t := Next(s, Attach(now)); Staged(t, n) && Dropped(t, n) && t.base.sessions[n].pc == Stranded
  {
    var t := Next(s, Attach(now));
    if Ending(s, n) {
      var e: nat :| EndedBy(s, n, e);
      assert EndedBy(t, n, e);
    }
  }

  /** In any run: a node that is accepted with nothing left of its last connection but messages on the
      way, and whose attach then finds no timer, is at one of the stages LostExactly is about. */
  lemma FailedAttach(b: seq<State>, steps: seq<Step>, a: nat, i: nat, n: nat)
    requires Behavior(b, steps) && a < i < |steps| && |b| == |steps| + 1
    requires steps[a].Accept? && b[a].base.pool != [] && b[a].base.pool[0] == n && Unused(b[a], n)
    requires (forall k | a < k < i :: !steps[k].Attach?) && steps[i].Attach? && b[i].base.world.timers.free == []
    ensures Staged(b[i + 1], n) && Dropped(b[i + 1], n) && b[i + 1].base.sessions[n].pc == Stranded
  {
    hide Enabled, Next, Initial, Waiting, Ending, Queued, Unused, Dropped;
    OpensUntil(b, steps, a, i, n);
    StepOf(b, steps, i);
    NoTimerStays(b[i], steps[i].now, n);
  }

  /** As long as all accepts before have been clean, that is all that can be left. */
  lemma UnusedWhenClean(b: seq<State>, steps: seq<Step>, a: nat, n: nat)
    requires Behavior(b, steps) && a <= |steps| < |b| && CleanAccepts(b[..a + 1], steps[..a]) && n in b[a].base.pool
    ensures Unused(b[a], n)
  {
    hide Goes, Unreferenced, CleanAccepts, Initial, WS.Inv, Unused;
    assert Behavior(b[..a + 1], steps[..a]);
    WR.BehaviorInv(b[..a + 1], steps[..a], a);
    PoolUnused(b[a], n);
  }

  lemma PoolOnce(s: State, n: nat)
    requires WS.Inv(s) && n in s.base.pool
    ensures multiset(s.base.pool)[n] == 1
  {
    hide WS.Threads;
    R.Once(WS.Abs(s).pool, n);
  }

  lemma PoolUnused(s: State, n: nat)
    requires WS.Inv(s) && n in s.base.pool
    ensures Unused(s, n)
  {
    hide S.Inv, WS.Threads;
    WS.FreeNode(s, n);
    WS.NodeFacts(s, n);
    PoolOnce(s, n);
    assert S.NodePlaced(WS.Abs(s), n);
    forall g | 0 <= g < |s.workers|
      ensures !InHandler(s.workers[g], n)
    {
      WS.WorkerAlways(s, g);
    }
  }

  // ----- ended inside onCheck -----

  ghost predicate AbandonedAt(s: State, n: nat) {
    && n < |s.base.sessions| == |s.base.home|
    && s.base.sessions[n].status == Over && s.base.sessions[n].pc == Abandoned
    && n !in s.base.pool && n !in s.base.recycleQueue && Dropped(s, n)
    && forall g | 0 <= g < |s.workers| :: !InHandler(s.workers[g], n)
  }

  lemma AbandonedStays(s: State, step: Step, n: nat)
    requires Enabled(s, step) && AbandonedAt(s, n)
    ensures AbandonedAt(Next(s, step), n) && Next(s, step).base.sessions[n] == s.base.sessions[n]
  {
    hide Actor, Possible, Asserted, Next;
    if Actor(s, step) != Some(n) {
      ElsewhereApart(s, step, n);
    } else {
      AbandonedActor(s, step, n);
    }
  }

  /** The worker looks at the status, or drops a message. */
  lemma AbandonedActor(s: State, step: Step, n: nat)
    requires Enabled(s, step) && AbandonedAt(s, n) && Actor(s, step) == Some(n)
    ensures AbandonedAt(Next(s, step), n) && Next(s, step).base.sessions[n] == s.base.sessions[n]
  {
    FrontInPool(s);
    FrontInQueue(s);
  }

  lemma FrontInQueue(s: State)
    ensures s.base.recycleQueue != [] ==> s.base.recycleQueue[0] in s.base.recycleQueue
  {
  }

  /** A session ended inside onCheck is lost, whatever is queued for it. */
  lemma {:induction false} AbandonedForever(b: seq<State>, steps: seq<Step>, i: nat, j: nat, n: nat)
    requires Behavior(b, steps) && i <= j < |b| && AbandonedAt(b[i], n)
    ensures AbandonedAt(b[j], n) && b[j].base.sessions[n] == b[i].base.sessions[n]
  {
    hide Enabled, Next, Initial, AbandonedAt;
    if i < j {
      AbandonedForever(b, steps, i, j - 1, n);
      StepOf(b, steps, j - 1);
      AbandonedStays(b[j - 1], steps[j - 1], n);
    }
  }

  // ----- with clean accepts -----

  /** If nodes are accepted only when nothing refers to them, both kinds are lost. */
  lemma CleanlyLost(b: seq<State>, steps: seq<Step>, i: nat, n: nat)
    requires Behavior(b, steps) && CleanAccepts(b, steps) && i < |b| && n < |b[i].base.sessions|
    ensures b[i].base.sessions[n].pc == Stranded ==>
      |b[i].workers| == |b[i].queues| && Waiting(b[i], n) && Dropped(b[i], n) && !Revivable(b[i], n)
    ensures b[i].base.sessions[n].pc == Abandoned ==> AbandonedAt(b[i], n)
  {
    WR.BehaviorInv(b, steps, i);
    LostPlaces(b[i], n);
    if b[i].base.sessions[n].pc == Stranded {
      NothingOpens(b[i], n);
    }
  }

  lemma LostPlaces(s: State, n: nat)
    requires WS.Inv(s) && n < |s.base.sessions|
    ensures s.base.sessions[n].pc == Stranded ==> Waiting(s, n) && Dropped(s, n)
    ensures s.base.sessions[n].pc == Abandoned ==> AbandonedAt(s, n)
  {
    hide S.Inv, WS.Threads;
    if s.base.sessions[n].pc == Stranded || s.base.sessions[n].pc == Abandoned {
      NobodyThere(s, n);
      WS.NodeFacts(s, n);
      assert WS.Abs(s).sessions[n] == s.base.sessions[n];
      assert S.NodePlaced(WS.Abs(s), n);
    }
  }

  lemma NobodyThere(s: State, n: nat)
    requires WS.Inv(s) && n < |s.base.sessions|
    requires s.base.sessions[n].pc == Stranded || s.base.sessions[n].pc == Abandoned
    ensures Dropped(s, n) && WS.PcOf(s, n) == s.base.sessions[n].pc
    ensures forall g | 0 <= g < |s.workers| :: !InHandler(s.workers[g], n)
  {
    hide S.Inv;
    forall g | 0 <= g < |s.workers|
      ensures !InHandler(s.workers[g], n)
    {
      WS.WorkerAlways(s, g);
    }
  }

  lemma NothingOpens(s: State, n: nat)
    requires WS.Inv(s) && n < |s.base.sessions| && s.base.sessions[n].pc == Stranded && Waiting(s, n)
    ensures |s.workers| == |s.queues| && !Revivable(s, n)
  {
    hide S.Inv, Waiting, Ending, Queued;
    StagedSize(s, n);
    forall g: nat | g < |s.workers|
      ensures !Opens(s, g, n)
    {
      WS.WorkerAlways(s, g);
      forall k | 0 <= k < |Line(s, g)|
        ensures !Wakes(Line(s, g)[k], n)
      {
        if !(k == 0 && s.workers[g].Holding?) {
          var j := if s.workers[g].Holding? then k - 1 else k;
          assert WS.Belongs(s, g, s.queues[g][j].n, s.queues[g][j].msg);
        }
      }
    }
  }
}
