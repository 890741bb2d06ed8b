/** As long as nodes are accepted only when nothing refers to them any more, the handlers of one session never overlap,
    and the threads together do what the serial view of the server does, step by step. */
module WorkersSerial {
  import opened Prelude
  import opened RoundRobin
  import opened Sessions
  import opened Workers
  import T = TimerSpec
  import S = Server
  import SS = ServerSteps

  // ----- the serial view -----

  /** The call that a thread is in front of for n, or the pc of the session at rest. */
  ghost function PcOf(s: State, n: nat): Pc
    requires n < |s.base.sessions| == |s.base.home|
  {
    if s.accepting.Running? && s.accepting.n == n then s.accepting.pc
    else if s.base.home[n].Some? && s.base.home[n].value < |s.workers|
         && s.workers[s.base.home[n].value].Running? && s.workers[s.base.home[n].value].n == n
      then s.workers[s.base.home[n].value].pc
    else s.base.sessions[n].pc
  }

  ghost function SessionOf(s: State, n: nat): Session
    requires n < |s.base.sessions| == |s.base.home|
  {
    s.base.sessions[n].(pc := PcOf(s, n))
  }

  ghost function Abs(s: State): (a: S.State)
    requires |s.base.sessions| == |s.base.home|
    ensures |a.sessions| == |s.base.sessions|
    ensures forall n | 0 <= n < |a.sessions| :: a.sessions[n] == SessionOf(s, n)
  {
    s.base.(sessions := seq(|s.base.sessions|, n requires 0 <= n < |s.base.sessions| => SessionOf(s, n)))
  }

  // ----- the invariant -----

  /** A message for n may be in the queue of group g: n is attached there, or free. What is queued for
      a stranded session are timer messages. */
  ghost predicate Belongs(s: State, g: nat, n: nat, msg: Msg)
    requires |s.base.sessions| == |s.base.home|
  {
    && n < |s.base.sessions| && Here(s, g, n)
    && (s.base.sessions[n].pc == Stranded ==> msg.OnTimer?)
    && (msg.PushAck? ==> msg.number != 0)
  }

  ghost predicate Here(s: State, g: nat, n: nat)
    requires n < |s.base.home|
  {
    s.base.home[n] == None || s.base.home[n] == Some(g)
  }

  ghost predicate WorkerOk(s: State, g: nat)
    requires g < |s.workers| && |s.base.sessions| == |s.base.home|
  {
    match s.workers[g]
    case Rest => true
    case Holding(n, msg) => Belongs(s, g, n, msg)
    case Looking(n) => n < |s.base.sessions| && Here(s, g, n)
    case Checking(n) =>
      && n < |s.base.sessions| && s.base.home[n] == Some(g)
      && s.base.sessions[n].status == Ready && s.base.sessions[n].pc == Idle
    case Running(n, pc) =>
      && n < |s.base.sessions| && s.base.home[n] == Some(g)
      && s.base.sessions[n].pc == Idle && Busy(pc)
      && !pc.Joining? && !(pc.Arming? && pc.use.Handshake?)
      && (pc.Arming? && pc.use.Ack? ==> s.base.sessions[n].status == Ready)
  }

  ghost predicate AcceptingOk(s: State)
    requires |s.base.sessions| == |s.base.home|
  {
    match s.accepting
    case Rest => true
    case Running(n, pc) =>
      && n < |s.base.sessions| && s.base.home[n].Some? && Unreferenced(s, n)
      && s.base.sessions[n].pc == Idle && (pc.Joining? || (pc.Arming? && pc.use.Handshake?))
    case _ => false
  }

  ghost predicate Threads(s: State)
    requires |s.base.sessions| == |s.base.home|
  {
    && |s.queues| == |s.workers| == |s.base.groups|
    && (forall n | 0 <= n < |s.base.sessions| :: !Busy(s.base.sessions[n].pc))
    && (forall g, k | 0 <= g < |s.queues| && 0 <= k < |s.queues[g]| ::
          Belongs(s, g, s.queues[g][k].n, s.queues[g][k].msg))
    && (forall g | 0 <= g < |s.workers| :: WorkerOk(s, g))
    && AcceptingOk(s)
  }

  ghost predicate Inv(s: State) {
    |s.base.sessions| == |s.base.home| && Threads(s) && S.Inv(Abs(s))
  }

  /** The step of the serial view. */
  ghost function AbsStep(s: State, step: Step): S.Step
    requires Possible(s, step)
  {
    match step
    case Accept => S.Accept
    case Attach(now) => S.Call(s.accepting.n, now)
    case Recycle => S.Recycle
    case Dispatch(g) =>
      var n := s.workers[g].n;
      if Dispatched(s.base.sessions[n]) && s.base.sessions[n].pc == Idle then S.Deliver(n, s.workers[g].msg)
      else S.Elsewhere
    case Pick(g) => S.Roll(g)
    case Push(g, stamp, sent) => S.Push(s.workers[g].n, stamp, sent)
    case Call(g, now) => S.Call(s.workers[g].n, now)
    case TimerDrain => S.TimerDrain
    case TimerVisit(now, _) => S.TimerVisit(now)
    case _ => S.Elsewhere
  }

  ghost predicate Refines(s: State, step: Step)
    requires Inv(s) && Enabled(s, step)
  {
    var t := Next(s, step);
    && Inv(t)
    && S.Enabled(Abs(s), AbsStep(s, step)) && Abs(t) == S.Next(Abs(s), AbsStep(s, step))
  }

  /** What the serial view's invariant says about one node. */
  lemma NodeFacts(s: State, n: nat)
    requires Inv(s) && n < |s.base.sessions|
    ensures Shape(SessionOf(s, n)) && S.NodePlaced(Abs(s), n)
    ensures s.base.home[n] == None <==> s.base.sessions[n].status == Free
    ensures s.base.home[n].Some? ==> s.base.home[n].value < |s.base.groups|
  {
    assert Abs(s).sessions[n] == SessionOf(s, n);
  }

  /** Two states whose sessions, homes and running threads agree have the same view of a node. */
  lemma ViewSame(s: State, t: State)
    requires |s.base.sessions| == |s.base.home|
    requires t.base.sessions == s.base.sessions && t.base.home == s.base.home && t.accepting == s.accepting
    requires |t.workers| == |s.workers|
    requires forall g | 0 <= g < |s.workers| ::
      t.workers[g] == s.workers[g] || (!s.workers[g].Running? && !t.workers[g].Running?)
    ensures Abs(t).sessions == Abs(s).sessions
  {
  }

  /** The thread of n has moved on, and no other one. */
  lemma ViewMoves(s: State, t: State, n: nat, u: Session)
    requires |s.base.sessions| == |s.base.home| && n < |s.base.sessions|
    requires t.base.home == s.base.home
    requires |t.base.sessions| == |s.base.sessions| && t.base.sessions == s.base.sessions[n := u.(pc := t.base.sessions[n].pc)]
    requires PcOf(t, n) == u.pc
    requires forall m | 0 <= m < |s.base.sessions| && m != n :: PcOf(t, m) == PcOf(s, m)
    ensures Abs(t).sessions == Abs(s).sessions[n := u]
  {
  }

  /** A worker goes on with its node, or comes to rest. */
  lemma WorkerThreads(s: State, t: State, g: nat, n: nat)
    requires |s.base.sessions| == |s.base.home| && Threads(s)
    requires g < |s.workers| && !s.workers[g].Rest? && s.workers[g].n == n < |s.base.sessions|
    requires t.base.home == s.base.home && |t.base.groups| == |s.base.groups|
    requires |t.base.sessions| == |s.base.sessions|
    requires forall m | 0 <= m < |s.base.sessions| && m != n :: t.base.sessions[m] == s.base.sessions[m]
    requires t.queues == s.queues && t.accepting == s.accepting
    requires |t.workers| == |s.workers| && t.workers == s.workers[g := t.workers[g]]
    requires s.base.home[n] == Some(g) || t.base.sessions[n] == s.base.sessions[n]
    requires !Busy(t.base.sessions[n].pc)
    requires t.base.sessions[n].pc == Stranded ==> s.base.sessions[n].pc == Stranded
    requires t.workers[g].Rest? || t.workers[g].n == n
    requires WorkerOk(t, g)
    ensures Threads(t)
  {
    forall h | 0 <= h < |t.workers|
      ensures WorkerOk(t, h)
    {
      assert WorkerOk(s, h);
    }
    forall h, k | 0 <= h < |t.queues| && 0 <= k < |t.queues[h]|
      ensures Belongs(t, h, t.queues[h][k].n, t.queues[h][k].msg)
    {
      assert Belongs(s, h, s.queues[h][k].n, s.queues[h][k].msg);
    }
  }

  // ----- calls -----

  lemma CallAsserted(s: State, n: nat, pc: Pc, now: T.Clock)
    requires Inv(s) && n < |s.base.sessions| && PcOf(s, n) == pc && Busy(pc)
    ensures S.Possible(Abs(s), S.Call(n, now)) && S.Asserted(Abs(s), S.Call(n, now))
    ensures S.Asserted(InFront(s, n, pc), S.Call(n, now))
  {
    SS.AssertsHold(Abs(s), S.Call(n, now));
    assert InFront(s, n, pc).sessions[n] == Abs(s).sessions[n];
  }

  /** One call comes to the same in both views. */
  lemma CallSame(s: State, n: nat, pc: Pc, now: T.Clock)
    requires Inv(s) && n < |s.base.sessions| && PcOf(s, n) == pc && Busy(pc)
    ensures S.Enabled(Abs(s), S.Call(n, now)) && S.Enabled(InFront(s, n, pc), S.Call(n, now))
    ensures var f, a := S.Called(InFront(s, n, pc), n, now), S.Called(Abs(s), n, now);
      && a == f.(sessions := Abs(s).sessions[n := f.sessions[n]])
      && f.sessions == s.base.sessions[n := f.sessions[n]] && f.home == s.base.home
      && |f.groups| == |s.base.groups|
      && f.sessions[n] == Micro(n, SessionOf(s, n), s.base.world, now).session
  {
    hide S.Inv, Threads, PcOf;
    CallAsserted(s, n, pc, now);
    assert InFront(s, n, pc).sessions[n] == Abs(s).sessions[n] == SessionOf(s, n);
  }

  lemma WorkerAt(s: State, g: nat)
    requires Inv(s) && g < |s.workers| && (s.workers[g].Running? || s.workers[g].Checking?)
    ensures var n := s.workers[g].n;
      && n < |s.base.sessions| && s.base.home[n] == Some(g)
      && PcOf(s, n) == (if s.workers[g].Running? then s.workers[g].pc else Idle)
  {
    assert WorkerOk(s, g);
  }

  /** Nobody else is at a worker's node. */
  lemma OthersKeepPc(s: State, t: State, g: nat, n: nat)
    requires |s.base.sessions| == |s.base.home| && Threads(s)
    requires g < |s.workers| && !s.workers[g].Rest? && s.workers[g].n == n < |s.base.sessions|
    requires s.base.home[n] == Some(g)
    requires t.base.home == s.base.home && |t.base.sessions| == |s.base.sessions|
    requires forall m | 0 <= m < |s.base.sessions| && m != n :: t.base.sessions[m] == s.base.sessions[m]
    requires t.accepting == s.accepting && |t.workers| == |s.workers| && t.workers == s.workers[g := t.workers[g]]
    requires t.workers[g].Rest? || t.workers[g].n == n
    ensures forall m | 0 <= m < |s.base.sessions| && m != n :: PcOf(t, m) == PcOf(s, m)
    ensures PcOf(t, n) == if t.workers[g].Running? then t.workers[g].pc else t.base.sessions[n].pc
  {
  }

  lemma CallThreads(s: State, g: nat, now: T.Clock)
    requires Inv(s) && Enabled(s, Call(g, now))
    ensures Threads(Next(s, Call(g, now)))
    ensures S.Enabled(Abs(s), S.Call(s.workers[g].n, now))
    ensures |Next(s, Call(g, now)).base.sessions| == |Next(s, Call(g, now)).base.home|
    ensures Abs(Next(s, Call(g, now))) == S.Called(Abs(s), s.workers[g].n, now)
  {
    hide S.Inv, S.Called, S.Enabled, S.Asserted, Micro, WorkerOk, Threads, PcOf;
    var n, pc, t := s.workers[g].n, s.workers[g].pc, Next(s, Call(g, now));
    WorkerAt(s, g);
    CallSame(s, n, pc, now);
    var u := S.Called(InFront(s, n, pc), n, now).sessions[n];
    CallOk(s, g, now);
    OthersKeepPc(s, t, g, n);
    ViewMoves(s, t, n, u);
    WorkerThreads(s, t, g, n);
  }

  lemma CallOk(s: State, g: nat, now: T.Clock)
    requires Inv(s) && Enabled(s, Call(g, now))
    ensures |Next(s, Call(g, now)).base.sessions| == |Next(s, Call(g, now)).base.home|
    ensures g < |Next(s, Call(g, now)).workers| && WorkerOk(Next(s, Call(g, now)), g)
    ensures var n, t := s.workers[g].n, Next(s, Call(g, now));
      n < |t.base.sessions| && t.base.sessions[n].pc != Stranded && !Busy(t.base.sessions[n].pc)
  {
    hide S.Inv, S.Called, S.Enabled, S.NodePlaced, Micro, Shape, Armable, Threads;
    var n, pc := s.workers[g].n, s.workers[g].pc;
    WorkerAt(s, g);
    NodeFacts(s, n);
    CallSame(s, n, pc, now);
    CallShape(s, g, n, pc, now);
    WorkerAlways(s, g);
  }

  lemma CallRefines(s: State, g: nat, now: T.Clock)
    requires Inv(s) && Enabled(s, Call(g, now))
    ensures Refines(s, Call(g, now))
  {
    hide S.Inv, S.Called, S.Enabled, Threads;
    CallThreads(s, g, now);
    SS.NextInv(Abs(s), S.Call(s.workers[g].n, now));
  }

  /** Where a worker's handler is after the call. */
  lemma CallShape(s: State, g: nat, n: nat, pc: Pc, now: T.Clock)
    requires Inv(s) && g < |s.workers| && s.workers[g] == Running(n, pc)
    requires n < |s.base.sessions| && PcOf(s, n) == pc && Busy(pc) && Armable(SessionOf(s, n), s.base.world)
    requires Shape(SessionOf(s, n))
    ensures var u := Micro(n, SessionOf(s, n), s.base.world, now).session;
      && u.pc != Stranded && !u.pc.Joining? && !(u.pc.Arming? && u.pc.use.Handshake?)
      && (u.pc.Arming? && u.pc.use.Ack? ==> u.status == Ready)
      && (pc.Arming? && pc.use.Ack? && u.pc == Idle ==> u.status == Ready)
  {
    assert WorkerOk(s, g);
  }

  // ----- messages and pushes -----

  lemma StartThreads(s: State, t: State, g: nat, n: nat, u: Session)
    requires Inv(s)
    requires g < |s.workers| && !s.workers[g].Rest? && !s.workers[g].Running? && s.workers[g].n == n
    requires n < |s.base.sessions| && s.base.home[n] == Some(g) && s.base.sessions[n].pc == Idle
    requires var (base, thread) := Settled(S.WithSession(s.base, n, u), n, Idle, Idle);
      t == s.(base := base, workers := s.workers[g := thread])
    requires u.pc != Stranded && !u.pc.Joining? && !(u.pc.Arming? && u.pc.use.Handshake?)
    requires u.pc.Arming? && u.pc.use.Ack? ==> u.status == Ready
    ensures |t.base.sessions| == |t.base.home| && Threads(t) && Abs(t) == S.WithSession(Abs(s), n, u)
  {
    hide S.Inv, Threads;
    OthersKeepPc(s, t, g, n);
    ViewMoves(s, t, n, u);
    assert WorkerOk(t, g);
    WorkerThreads(s, t, g, n);
  }

  /** A handler starts, and its first piece is done. */
  lemma StartRefines(s: State, step: Step, g: nat, n: nat, u: Session, abs: S.Step)
    requires Inv(s) && Enabled(s, step) && abs == AbsStep(s, step)
    requires g < |s.workers| && !s.workers[g].Rest? && !s.workers[g].Running? && s.workers[g].n == n
    requires n < |s.base.sessions| && s.base.home[n] == Some(g) && s.base.sessions[n].pc == Idle
    requires S.Enabled(Abs(s), abs) && S.Next(Abs(s), abs) == S.WithSession(Abs(s), n, u)
    requires var (base, thread) := Settled(S.WithSession(s.base, n, u), n, Idle, Idle);
      Next(s, step) == s.(base := base, workers := s.workers[g := thread])
    requires u.pc != Stranded && !u.pc.Joining? && !(u.pc.Arming? && u.pc.use.Handshake?)
    requires u.pc.Arming? && u.pc.use.Ack? ==> u.status == Ready
    ensures Refines(s, step)
  {
    hide S.Inv, S.Enabled, S.Next, AbsStep, Enabled, Next, Threads, Settled;
    StartThreads(s, Next(s, step), g, n, u);
    SS.NextInv(Abs(s), abs);
  }

  /** A worker comes to rest, or finds a ready session, and nothing else happens. */
  lemma StillRefines(s: State, step: Step, g: nat)
    requires Inv(s) && Enabled(s, step) && AbsStep(s, step) == S.Elsewhere
    requires g < |s.workers| && !s.workers[g].Rest? && !s.workers[g].Running? && s.workers[g].n < |s.base.sessions|
    requires var t := Next(s, step);
      && t == s.(workers := s.workers[g := t.workers[g]]) && WorkerOk(t, g) && !t.workers[g].Running?
      && (t.workers[g].Rest? || t.workers[g].n == s.workers[g].n)
    ensures Refines(s, step)
  {
    hide S.Inv, AbsStep, Threads, Enabled;
    var t := Next(s, step);
    ViewSame(s, t);
    Resting(s, s.workers[g].n);
    WorkerThreads(s, t, g, s.workers[g].n);
    assert Abs(t) == Abs(s);
  }

  lemma Resting(s: State, n: nat)
    requires Inv(s) && n < |s.base.sessions|
    ensures !Busy(s.base.sessions[n].pc)
  {
  }

  /** A session whose message is dispatched is at rest. */
  lemma DispatchPc(s: State, g: nat)
    requires Inv(s) && Enabled(s, Dispatch(g)) && Dispatched(s.base.sessions[s.workers[g].n])
    ensures var n := s.workers[g].n; var t := s.base.sessions[n];
      && s.base.home[n] == Some(g) && SessionOf(s, n) == t && Shape(t)
      && (t.pc == Idle || (t.pc == Stranded && t.status == Connected && s.workers[g].msg.OnTimer?))
  {
    assert WorkerOk(s, g);
    NodeFacts(s, s.workers[g].n);
  }

  lemma HandledPc(t: Session, msg: Msg)
    ensures t.pc == Idle ==>
      Handled(t, msg).pc == Idle || Handled(t, msg).pc.Greeting? || Handled(t, msg).pc.Forgetting?
      || Handled(t, msg).pc.Stopping?
    ensures t.pc == Stranded && t.status == Connected && t.keepLive == None && msg.OnTimer? ==> Handled(t, msg) == t
  {
  }

  lemma DispatchRefines(s: State, g: nat)
    requires Inv(s) && Enabled(s, Dispatch(g))
    ensures Refines(s, Dispatch(g))
  {
    hide S.Inv, Handled, S.NodePlaced, Threads;
    var Holding(n, msg) := s.workers[g];
    var t := s.base.sessions[n];
    assert WorkerOk(s, g) by { WorkerAlways(s, g); }
    if !Dispatched(t) {
      StillRefines(s, Dispatch(g), g);
    } else {
      DispatchPc(s, g);
      HandledPc(t, msg);
      if t.pc == Stranded {
        assert s.base.sessions[n := t] == s.base.sessions;
        StillRefines(s, Dispatch(g), g);
      } else {
        assert Abs(s).sessions[n] == t;
        StartRefines(s, Dispatch(g), g, n, Handled(t, msg), S.Deliver(n, msg));
      }
    }
  }

  lemma WorkerAlways(s: State, g: nat)
    requires Inv(s) && g < |s.workers|
    ensures WorkerOk(s, g)
  {
  }

  lemma PushRefines(s: State, g: nat, stamp: nat, sent: bool)
    requires Inv(s) && Enabled(s, Push(g, stamp, sent))
    ensures Refines(s, Push(g, stamp, sent))
  {
    hide S.Inv, S.NodePlaced, Threads;
    var n := s.workers[g].n;
    WorkerAlways(s, g);
    WorkerAt(s, g);
    assert Abs(s).sessions[n] == s.base.sessions[n];
    StartRefines(s, Push(g, stamp, sent), g, n, Pushed(s.base.sessions[n], stamp, sent), S.Push(n, stamp, sent));
  }

  lemma LookRefines(s: State, g: nat)
    requires Inv(s) && Enabled(s, Look(g))
    ensures Refines(s, Look(g))
  {
    hide S.Inv, Threads;
    var n := s.workers[g].n;
    WorkerAlways(s, g);
    NodeFacts(s, n);
    if s.base.sessions[n].status == Ready {
      ReadyPc(s, g);
    }
    StillRefines(s, Look(g), g);
  }

  /** The session of a picked node that is ready is at rest. */
  lemma ReadyPc(s: State, g: nat)
    requires Inv(s) && g < |s.workers| && s.workers[g].Looking? && s.workers[g].n < |s.base.sessions|
    requires s.base.sessions[s.workers[g].n].status == Ready
    ensures s.base.home[s.workers[g].n] == Some(g) && s.base.sessions[s.workers[g].n].pc == Idle
  {
    WorkerAlways(s, g);
    NodeFacts(s, s.workers[g].n);
  }

  lemma EndCheckRefines(s: State, g: nat)
    requires Inv(s) && Enabled(s, EndCheck(g))
    ensures Refines(s, EndCheck(g))
  {
    hide S.Inv;
    WorkerAlways(s, g);
    StillRefines(s, EndCheck(g), g);
  }

  // ----- queues and cursors -----

  /** A worker takes up a message or a node. */
  lemma TakenThreads(s: State, t: State, g: nat)
    requires |s.base.sessions| == |s.base.home| && Threads(s)
    requires g < |s.workers| && s.workers[g] == Rest && !Locked(s, g)
    requires t.base.home == s.base.home && t.base.sessions == s.base.sessions && |t.base.groups| == |s.base.groups|
    requires t.accepting == s.accepting && |t.workers| == |s.workers| && t.workers == s.workers[g := t.workers[g]]
    requires |t.queues| == |s.queues|
    requires forall h | 0 <= h < |t.queues| && h != g :: t.queues[h] == s.queues[h]
    requires t.queues[g] == s.queues[g] || (s.queues[g] != [] && t.queues[g] == s.queues[g][1..])
    requires !t.workers[g].Running? && WorkerOk(t, g)
    requires s.accepting.Running? && !t.workers[g].Rest? ==> t.workers[g].n != s.accepting.n
    ensures Threads(t)
  {
    forall h | 0 <= h < |t.workers|
      ensures WorkerOk(t, h)
    {
      assert WorkerOk(s, h);
    }
    forall h, k | 0 <= h < |t.queues| && 0 <= k < |t.queues[h]|
      ensures Belongs(t, h, t.queues[h][k].n, t.queues[h][k].msg)
    {
      var j := if t.queues[h] == s.queues[h] then k else k + 1;
      assert Belongs(s, h, s.queues[h][j].n, s.queues[h][j].msg);
    }
    if s.accepting.Running? {
      forall h, k | 0 <= h < |t.queues| && 0 <= k < |t.queues[h]|
        ensures t.queues[h][k].n != s.accepting.n
      {
        var j := if t.queues[h] == s.queues[h] then k else k + 1;
        assert s.queues[h][j].n != s.accepting.n;
      }
    }
  }

  lemma TakeRefines(s: State, g: nat)
    requires Inv(s) && Enabled(s, Take(g))
    ensures Refines(s, Take(g))
  {
    hide S.Inv;
    var t := Next(s, Take(g));
    assert Belongs(s, g, s.queues[g][0].n, s.queues[g][0].msg);
    ViewSame(s, t);
    TakenThreads(s, t, g);
    assert Abs(t) == Abs(s);
  }

  lemma PickRefines(s: State, g: nat)
    requires Inv(s) && Enabled(s, Pick(g))
    ensures Refines(s, Pick(g))
  {
    hide S.Inv;
    var t, ring := Next(s, Pick(g)), s.base.groups[g];
    var n := Due(ring.list, ring.cur);
    PickedHome(s, g, n);
    ViewSame(s, t);
    TakenThreads(s, t, g);
    SS.NextInv(Abs(s), S.Roll(g));
    assert Abs(t) == S.Next(Abs(s), S.Roll(g));
  }

  lemma PickedHome(s: State, g: nat, n: nat)
    requires Inv(s) && g < |s.base.groups| && n in s.base.groups[g].list
    ensures n < |s.base.sessions| && s.base.home[n] == Some(g)
    ensures s.accepting.Running? ==> n != s.accepting.n
  {
    assert n < |Abs(s).sessions|;
    NodeFacts(s, n);
    assert !S.Outside(SessionOf(s, n));
    assert s.accepting.Running? ==> Busy(s.accepting.pc);
  }

  /** A message is put on the queue of the group its node is in. */
  lemma PutThreads(s: State, g: nat, e: Envelope)
    requires |s.base.sessions| == |s.base.home| && Threads(s) && g < |s.queues|
    requires Belongs(s, g, e.n, e.msg)
    requires s.accepting.Running? ==> e.n != s.accepting.n
    ensures Threads(Put(s, g, e))
  {
    var t := Put(s, g, e);
    forall h | 0 <= h < |t.workers|
      ensures WorkerOk(t, h)
    {
      assert WorkerOk(s, h);
    }
    forall h, k | 0 <= h < |t.queues| && 0 <= k < |t.queues[h]|
      ensures Belongs(t, h, t.queues[h][k].n, t.queues[h][k].msg)
    {
      if k < |s.queues[h]| {
        assert Belongs(s, h, s.queues[h][k].n, s.queues[h][k].msg);
      }
    }
  }

  lemma ReceiveRefines(s: State, n: nat, msg: Msg, room: bool)
    requires Inv(s) && Enabled(s, Receive(n, msg, room))
    ensures Refines(s, Receive(n, msg, room))
  {
    hide S.Inv;
    var t := Next(s, Receive(n, msg, room));
    JoinedPc(s, n);
    ViewSame(s, t);
    if room {
      PutThreads(s, s.base.home[n].value, Envelope(n, msg));
    }
    assert Abs(t) == Abs(s);
  }

  lemma JoinedPc(s: State, n: nat)
    requires Inv(s) && s.accepting == Rest && Joined(s, n)
    ensures s.base.sessions[n].pc != Stranded
  {
    hide S.Inv, Threads;
    NodeFacts(s, n);
    assert !S.Outside(SessionOf(s, n));
    if s.base.sessions[n].pc == Stranded {
      StrandedView(s, n);
    }
  }

  lemma StrandedView(s: State, n: nat)
    requires Inv(s) && s.accepting == Rest && n < |s.base.sessions| && s.base.sessions[n].pc == Stranded
    ensures SessionOf(s, n) == s.base.sessions[n]
  {
    hide S.Inv;
    if s.base.home[n].Some? && s.base.home[n].value < |s.workers| {
      WorkerAlways(s, s.base.home[n].value);
    }
  }

  // ----- timers -----

  lemma DrainRefines(s: State)
    requires Inv(s) && Enabled(s, TimerDrain)
    ensures Refines(s, TimerDrain)
  {
    hide S.Inv;
    var t := Next(s, TimerDrain);
    WorldThreads(s, t);
    SS.NextInv(Abs(s), S.TimerDrain);
    assert Abs(t) == S.Next(Abs(s), S.TimerDrain);
  }

  lemma WorldThreads(s: State, t: State)
    requires Inv(s) && t == s.(base := s.base.(world := t.base.world))
    ensures Threads(t) && Abs(t) == Abs(s).(world := t.base.world)
  {
    ViewSame(s, t);
    forall h | 0 <= h < |t.workers|
      ensures WorkerOk(t, h)
    {
      assert WorkerOk(s, h);
    }
    forall h, k | 0 <= h < |t.queues| && 0 <= k < |t.queues[h]|
      ensures Belongs(t, h, t.queues[h][k].n, t.queues[h][k].msg)
    {
      assert Belongs(s, h, s.queues[h][k].n, s.queues[h][k].msg);
    }
  }

  lemma VisitRefines(s: State, now: T.Clock, room: bool)
    requires Inv(s) && Enabled(s, TimerVisit(now, room))
    ensures Refines(s, TimerVisit(now, room))
  {
    hide S.Inv, S.NodePlaced;
    var step := TimerVisit(now, room);
    var t, fired := Next(s, step), Fired(s.base.world.timers, now);
    var visited := s.(base := S.Next(s.base, S.TimerVisit(now)));
    WorldThreads(s, visited);
    if fired.Some? && room {
      var n := fired.value.owner;
      var g := s.base.home[n].value;
      assert !Locked(s, g);
      var id := Due(s.base.world.timers.list, s.base.world.timers.cur);
      PutThreads(visited, g, Envelope(n, OnTimer(id, fired.value.tag)));
      ViewSame(visited, t);
    }
    SS.NextInv(Abs(s), S.TimerVisit(now));
    assert Abs(t) == S.Next(Abs(s), S.TimerVisit(now));
  }

  // ----- the traffic thread -----

  lemma AcceptRefines(s: State)
    requires Inv(s) && Enabled(s, Accept) && Unreferenced(s, s.base.pool[0])
    ensures Refines(s, Accept)
  {
    hide S.Inv;
    var n, t := s.base.pool[0], Next(s, Accept);
    FreeNode(s, n);
    AcceptThreads(s, t, n);
    SS.AssertsHold(Abs(s), S.Accept);
    SS.NextInv(Abs(s), S.Accept);
    AcceptView(s, t, n);
  }

  lemma FreeNode(s: State, n: nat)
    requires Inv(s) && n in s.base.pool
    ensures n < |s.base.sessions| && s.base.home[n] == None && s.base.sessions[n].pc == Idle
    ensures SessionOf(s, n) == s.base.sessions[n]
    ensures s.accepting.Running? ==> s.accepting.n != n
  {
    assert n in Abs(s).pool;
    NodeFacts(s, n);
  }

  lemma AcceptThreads(s: State, t: State, n: nat)
    requires Inv(s) && Enabled(s, Accept) && n == s.base.pool[0] && Unreferenced(s, n)
    requires n < |s.base.sessions| && s.base.home[n] == None && s.base.sessions[n].pc == Idle
    requires t == Next(s, Accept)
    ensures |t.base.sessions| == |t.base.home| && Threads(t)
  {
    hide S.Inv;
    forall h | 0 <= h < |t.workers|
      ensures WorkerOk(t, h)
    {
      assert WorkerOk(s, h);
    }
    forall h, k | 0 <= h < |t.queues| && 0 <= k < |t.queues[h]|
      ensures Belongs(t, h, t.queues[h][k].n, t.queues[h][k].msg)
    {
      assert Belongs(s, h, s.queues[h][k].n, s.queues[h][k].msg);
    }
  }

  lemma AcceptView(s: State, t: State, n: nat)
    requires Inv(s) && Enabled(s, Accept) && n == s.base.pool[0]
    requires n < |s.base.sessions| && s.base.home[n] == None && s.base.sessions[n].pc == Idle
    requires SessionOf(s, n) == s.base.sessions[n]
    requires t == Next(s, Accept) && S.Enabled(Abs(s), S.Accept)
    ensures |t.base.sessions| == |t.base.home| && Abs(t) == S.Next(Abs(s), S.Accept)
  {
    hide S.Inv;
    var a := S.Next(Abs(s), S.Accept);
    forall m | 0 <= m < |s.base.sessions|
      ensures Abs(t).sessions[m] == a.sessions[m]
    {
      if m != n {
        assert PcOf(t, m) == PcOf(s, m);
      }
    }
    assert Abs(t).sessions == a.sessions;
  }

  lemma AttachRefines(s: State, now: T.Clock)
    requires Inv(s) && Enabled(s, Attach(now))
    ensures Refines(s, Attach(now))
  {
    hide S.Inv, S.Called, S.Enabled, Threads;
    AttachThreads(s, now);
    SS.NextInv(Abs(s), S.Call(s.accepting.n, now));
  }

  lemma AttachThreads(s: State, now: T.Clock)
    requires Inv(s) && Enabled(s, Attach(now))
    ensures |Next(s, Attach(now)).base.sessions| == |Next(s, Attach(now)).base.home|
    ensures Threads(Next(s, Attach(now))) && S.Enabled(Abs(s), S.Call(s.accepting.n, now))
    ensures Abs(Next(s, Attach(now))) == S.Called(Abs(s), s.accepting.n, now)
  {
    hide S.Inv, S.Called, S.Enabled, S.NodePlaced, Micro, Shape, Armable;
    var n, pc, t := s.accepting.n, s.accepting.pc, Next(s, Attach(now));
    assert PcOf(s, n) == pc && n < |s.base.sessions|;
    NodeFacts(s, n);
    CallSame(s, n, pc, now);
    var u := S.Called(InFront(s, n, pc), n, now).sessions[n];
    AttachShape(s, n, pc, now);
    AttachPc(s, t, n);
    ViewMoves(s, t, n, u);
    AttachKeeps(s, t, n);
  }

  lemma AttachShape(s: State, n: nat, pc: Pc, now: T.Clock)
    requires Inv(s) && s.accepting == Running(n, pc) && n < |s.base.sessions| && PcOf(s, n) == pc
    requires Busy(pc) && Armable(SessionOf(s, n), s.base.world) && Shape(SessionOf(s, n))
    ensures var u := Micro(n, SessionOf(s, n), s.base.world, now).session;
      u.pc == Idle || u.pc == Stranded || u.pc.Joining? || (u.pc.Arming? && u.pc.use.Handshake?)
  {
  }

  /** The node that is being attached, and no other one, changes its thread. */
  lemma AttachPc(s: State, t: State, n: nat)
    requires |s.base.sessions| == |s.base.home| && Threads(s) && s.accepting.Running? && s.accepting.n == n
    requires n < |s.base.sessions| == |t.base.sessions|
    requires t.base.home == s.base.home && t.workers == s.workers
    requires t.accepting == Rest || (t.accepting.Running? && t.accepting.n == n)
    requires forall m | 0 <= m < |s.base.sessions| && m != n :: t.base.sessions[m] == s.base.sessions[m]
    ensures forall m | 0 <= m < |s.base.sessions| && m != n :: PcOf(t, m) == PcOf(s, m)
    ensures PcOf(t, n) == if t.accepting.Running? then t.accepting.pc else t.base.sessions[n].pc
  {
  }

  lemma AttachKeeps(s: State, t: State, n: nat)
    requires |s.base.sessions| == |s.base.home| && Threads(s) && s.accepting.Running? && s.accepting.n == n
    requires n < |s.base.sessions| == |t.base.sessions| && |t.base.groups| == |s.base.groups|
    requires t.base.home == s.base.home && t.workers == s.workers && t.queues == s.queues
    requires t.accepting == Rest || (t.accepting.Running? && t.accepting.n == n)
    requires forall m | 0 <= m < |s.base.sessions| && m != n :: t.base.sessions[m] == s.base.sessions[m]
    requires !Busy(t.base.sessions[n].pc)
    requires t.accepting.Running? ==>
      && t.base.sessions[n].pc == Idle
      && (t.accepting.pc.Joining? || (t.accepting.pc.Arming? && t.accepting.pc.use.Handshake?))
    ensures Threads(t)
  {
    forall h | 0 <= h < |t.workers|
      ensures WorkerOk(t, h)
    {
      assert WorkerOk(s, h);
    }
    forall h, k | 0 <= h < |t.queues| && 0 <= k < |t.queues[h]|
      ensures Belongs(t, h, t.queues[h][k].n, t.queues[h][k].msg)
    {
      assert Belongs(s, h, s.queues[h][k].n, s.queues[h][k].msg);
    }
  }

  lemma RecycleRefines(s: State)
    requires Inv(s) && Enabled(s, Recycle)
    ensures Refines(s, Recycle)
  {
    hide S.Inv;
    var n, t := s.base.recycleQueue[0], Next(s, Recycle);
    OverNode(s, n);
    RecycleThreads(s, t, n);
    SS.AssertsHold(Abs(s), S.Recycle);
    SS.NextInv(Abs(s), S.Recycle);
    RecycleView(s, t, n);
  }

  /** What waits to be recycled is over and nobody runs it. */
  lemma OverNode(s: State, n: nat)
    requires Inv(s) && n in s.base.recycleQueue && s.accepting == Rest
    ensures n < |s.base.sessions| && s.base.home[n].Some? && s.base.home[n].value < |s.base.groups|
    ensures s.base.sessions[n].status == Over && s.base.sessions[n].pc == Idle
    ensures SessionOf(s, n) == s.base.sessions[n]
    ensures forall g | 0 <= g < |s.workers| && (s.workers[g].Running? || s.workers[g].Checking?) :: s.workers[g].n != n
  {
    assert n in Abs(s).recycleQueue;
    NodeFacts(s, n);
    forall g | 0 <= g < |s.workers| && (s.workers[g].Running? || s.workers[g].Checking?)
      ensures s.workers[g].n != n
    {
      WorkerAlways(s, g);
      WorkerAt(s, g);
    }
  }

  lemma RecycleThreads(s: State, t: State, n: nat)
    requires Inv(s) && Enabled(s, Recycle) && n == s.base.recycleQueue[0] && t == Next(s, Recycle)
    requires n < |s.base.sessions| && s.base.home[n].Some?
    requires s.base.sessions[n].status == Over && s.base.sessions[n].pc == Idle
    requires forall g | 0 <= g < |s.workers| && (s.workers[g].Running? || s.workers[g].Checking?) :: s.workers[g].n != n
    ensures |t.base.sessions| == |t.base.home| && Threads(t)
  {
    hide S.Inv;
    forall h | 0 <= h < |t.workers|
      ensures WorkerOk(t, h)
    {
      assert WorkerOk(s, h);
    }
    forall h, k | 0 <= h < |t.queues| && 0 <= k < |t.queues[h]|
      ensures Belongs(t, h, t.queues[h][k].n, t.queues[h][k].msg)
    {
      assert Belongs(s, h, s.queues[h][k].n, s.queues[h][k].msg);
    }
  }

  lemma RecycleView(s: State, t: State, n: nat)
    requires Inv(s) && Enabled(s, Recycle) && n == s.base.recycleQueue[0] && t == Next(s, Recycle)
    requires n < |s.base.sessions| && s.base.home[n].Some? && s.base.sessions[n].status == Over
    requires SessionOf(s, n) == s.base.sessions[n] && s.base.sessions[n].pc == Idle
    requires S.Enabled(Abs(s), S.Recycle)
    ensures |t.base.sessions| == |t.base.home| && Abs(t) == S.Next(Abs(s), S.Recycle)
  {
    hide S.Inv;
    var a := S.Next(Abs(s), S.Recycle);
    forall m | 0 <= m < |s.base.sessions|
      ensures Abs(t).sessions[m] == a.sessions[m]
    {
      if m != n {
        assert PcOf(t, m) == PcOf(s, m);
      }
    }
    assert Abs(t).sessions == a.sessions;
  }

  // ----- all steps -----

  /** Every step is a step of the serial view. */
  lemma NextRefines(s: State, step: Step)
    requires Inv(s) && Enabled(s, step) && (step.Accept? ==> Unreferenced(s, s.base.pool[0]))
    ensures Refines(s, step)
  {
    hide *;
    match step
    case Accept => AcceptRefines(s);
    case Attach(now) => AttachRefines(s, now);
    case Receive(n, msg, room) => ReceiveRefines(s, n, msg, room);
    case Recycle => RecycleRefines(s);
    case Take(g) => TakeRefines(s, g);
    case Dispatch(g) => DispatchRefines(s, g);
    case Pick(g) => PickRefines(s, g);
    case Look(g) => LookRefines(s, g);
    case Push(g, stamp, sent) => PushRefines(s, g, stamp, sent);
    case EndCheck(g) => EndCheckRefines(s, g);
    case Call(g, now) => CallRefines(s, g, now);
    case TimerDrain => DrainRefines(s);
    case TimerVisit(now, room) => VisitRefines(s, now, room);
  }
}
