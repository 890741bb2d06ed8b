/** The threads of the server over its state: the traffic thread, which accepts, receives and recycles;
    one worker for each group, which takes messages from the group's queue and looks at its nodes in
    turn; the timer thread. What a worker holds, it holds without a lock: nothing stops the traffic
    thread from recycling the node behind a queued message, or from accepting it again. */
module Workers {
  import opened Prelude
  import opened RoundRobin
  import opened Sessions
  import T = TimerSpec
  import S = Server

  /** A queued message; n is the node behind its ext field. */
  datatype Envelope = Envelope(n: nat, msg: Msg)

  datatype Thread =
    | Rest
    | Holding(n: nat, msg: Msg)       // _rollingQueue has read a message
    | Looking(n: nat)                 // _rollingNode has picked a node
    | Checking(n: nat)                // checkMessages, between two pushes
    | Running(n: nat, pc: Pc)         // a handler, in front of its next call

  /** In `base` the pc of a session is only its pc at rest: Idle, Stranded or Abandoned. */
  datatype State = State(
    base: S.State,
    queues: seq<seq<Envelope>>,       // _queue of each group
    workers: seq<Thread>,             // one for each group
    accepting: Thread)                // the traffic thread, while it is inside attach

  datatype Step =
    | Accept
    | Attach(now: T.Clock)                            // the next call of onAttach
    | Receive(n: nat, msg: Msg, room: bool)           // recv, or over() by way of the queue
    | Recycle
    | Take(g: nat)                                    // _rollingQueue reads a message
    | Dispatch(g: nat)                                // and dispatches it if the status allows
    | Pick(g: nat)                                    // _rollingNode, under the lock
    | Look(g: nat)                                    // its look at the status
    | Push(g: nat, stamp: nat, sent: bool)
    | EndCheck(g: nat)
    | Call(g: nat, now: T.Clock)                      // the next call of the worker's handler
    | TimerDrain
    | TimerVisit(now: T.Clock, room: bool)

  /** attach holds the group's mutex, which its queue and its cursor need. */
  ghost predicate Locked(s: State, g: nat) {
    s.accepting.Running? && s.accepting.n < |s.base.home| && s.base.home[s.accepting.n] == Some(g)
  }

  /** The worker of group g exists and is not blocked. */
  ghost predicate Unblocked(s: State, g: nat) {
    g < |s.workers| && g < |s.queues| && g < |s.base.groups| && !Locked(s, g)
  }

  /** n is in epoll: its attach has succeeded and it has not been recycled since. */
  ghost predicate Joined(s: State, n: nat) {
    && n < |s.base.sessions| && n < |s.base.home| && s.base.home[n].Some?
    && s.base.home[n].value < |s.base.groups| && s.base.home[n].value < |s.queues|
    && n in s.base.groups[s.base.home[n].value].list
  }

  /** The state with the session of n in front of the call pc. */
  ghost function InFront(s: State, n: nat, pc: Pc): S.State
    requires n < |s.base.sessions|
  {
    S.WithSession(s.base, n, s.base.sessions[n].(pc := pc))
  }

  /** The slot a visit fires, if it is due. */
  ghost function Fired(timers: T.State, now: T.Clock): Option<T.Slot>
    requires T.VisitReady(timers)
  {
    if timers.list != [] && T.Expired(timers.slots[Due(timers.list, timers.cur)], now)
    then Some(timers.slots[Due(timers.list, timers.cur)]) else None
  }

  ghost predicate Possible(s: State, step: Step) {
    match step
    case Accept => s.accepting == Rest && S.Possible(s.base, S.Accept)
    case Attach(_) =>
      s.accepting.Running? && s.accepting.n < |s.base.sessions| && Busy(s.accepting.pc)
    case Receive(n, msg, _) =>
      s.accepting == Rest && Joined(s, n) && !msg.OnTimer? && (msg.PushAck? ==> msg.number != 0)
    case Recycle => s.accepting == Rest && s.base.recycleQueue != []
    case Take(g) => Unblocked(s, g) && s.workers[g] == Rest && s.queues[g] != []
    case Dispatch(g) => g < |s.workers| && s.workers[g].Holding? && s.workers[g].n < |s.base.sessions|
    case Pick(g) => Unblocked(s, g) && s.workers[g] == Rest && s.base.groups[g].list != []
    case Look(g) => g < |s.workers| && s.workers[g].Looking? && s.workers[g].n < |s.base.sessions|
    case Push(g, _, _) =>
      && g < |s.workers| && s.workers[g].Checking? && s.workers[g].n < |s.base.sessions|
      && var t := s.base.sessions[s.workers[g].n];
         t.seqCounter < WRAP && NextSeq(t.seqCounter) !in t.seqTimers
    case EndCheck(g) => g < |s.workers| && s.workers[g].Checking?
    case Call(g, _) =>
      && g < |s.workers| && s.workers[g].Running? && s.workers[g].n < |s.base.sessions|
      && Busy(s.workers[g].pc)
    case TimerDrain => S.Possible(s.base, S.TimerDrain)
    case TimerVisit(now, _) =>
      && S.Possible(s.base, S.TimerVisit(now))
      && (T.VisitReady(s.base.world.timers) && Fired(s.base.world.timers, now).Some? ==>
            var n := Fired(s.base.world.timers, now).value.owner;
            n < |s.base.home| && s.base.home[n].Some? ==> !Locked(s, s.base.home[n].value))
  }

  /** What the code takes for granted. */
  ghost predicate Asserted(s: State, step: Step)
    requires Possible(s, step)
  {
    match step
    case Accept => S.Asserted(s.base, S.Accept)
    case Attach(now) => S.Asserted(InFront(s, s.accepting.n, s.accepting.pc), S.Call(s.accepting.n, now))
    case Recycle =>
      s.base.recycleQueue[0] < |s.base.sessions| && s.base.recycleQueue[0] < |s.base.home|
      && (!S.PassedOver(s.base, s.base.recycleQueue[0]) ==> S.Asserted(s.base, S.Recycle))
    case Pick(g) => ValidRing(s.base.groups[g])
    case Call(g, now) => S.Asserted(InFront(s, s.workers[g].n, s.workers[g].pc), S.Call(s.workers[g].n, now))
    case TimerDrain => S.Asserted(s.base, S.TimerDrain)
    case TimerVisit(now, _) =>
      && S.Asserted(s.base, S.TimerVisit(now))
      && (Fired(s.base.world.timers, now).Some? ==> OwnerHasGroup(s, Fired(s.base.world.timers, now).value))
    case _ => true
  }

  /** getGroup() of the session a timer is for. */
  ghost predicate OwnerHasGroup(s: State, slot: T.Slot) {
    slot.owner < |s.base.home| && s.base.home[slot.owner].Some? && s.base.home[slot.owner].value < |s.queues|
  }

  ghost predicate Enabled(s: State, step: Step) {
    Possible(s, step) && Asserted(s, step)
  }

  /** A handler of n has come to `after`: it is in front of the next call, or its thread is done. */
  ghost function Settled(s: S.State, n: nat, rest: Pc, before: Pc): (S.State, Thread)
    requires n < |s.sessions|
  {
    var pc := s.sessions[n].pc;
    if Busy(pc) then (S.WithSession(s, n, s.sessions[n].(pc := rest)), Running(n, pc))
    else (s, if before.Arming? && before.use.Ack? && pc == Idle then Checking(n) else Rest)
  }

  /** The call a thread is in front of. */
  ghost function Called(s: State, n: nat, pc: Pc, now: T.Clock): (S.State, Thread)
    requires n < |s.base.sessions| && Busy(pc)
    requires S.Asserted(InFront(s, n, pc), S.Call(n, now))
  {
    Settled(S.Called(InFront(s, n, pc), n, now), n, s.base.sessions[n].pc, pc)
  }

  /** _rollingQueue dispatches on the status alone. */
  ghost predicate Dispatched(t: Session) {
    t.status == Connected || t.status == Ready
  }

  ghost function Next(s: State, step: Step): State
    requires Enabled(s, step)
  {
    match step
    case Accept =>
      var n := s.base.pool[0];
      var (base, thread) := Settled(S.Accepted(s.base), n, s.base.sessions[n].pc, Idle);
      s.(base := base, accepting := thread)
    case Attach(now) =>
      var (base, thread) := Called(s, s.accepting.n, s.accepting.pc, now);
      s.(base := base, accepting := thread)
    case Receive(n, msg, room) =>
      if room then Put(s, s.base.home[n].value, Envelope(n, msg)) else s
    case Recycle =>
      if S.PassedOver(s.base, s.base.recycleQueue[0]) then s.(base := s.base.(recycleQueue := s.base.recycleQueue[1..]))
      else s.(base := S.Recycled(s.base))
    case Take(g) =>
      s.(workers := s.workers[g := Holding(s.queues[g][0].n, s.queues[g][0].msg)],
         queues := s.queues[g := s.queues[g][1..]])
    case Dispatch(g) =>
      var Holding(n, msg) := s.workers[g];
      var t := s.base.sessions[n];
      if !Dispatched(t) then s.(workers := s.workers[g := Rest])
      else
        var (base, thread) := Settled(S.WithSession(s.base, n, Handled(t, msg)), n, t.pc, Idle);
        s.(base := base, workers := s.workers[g := thread])
    case Pick(g) =>
      var ring := s.base.groups[g];
      s.(base := s.base.(groups := s.base.groups[g := Apply(ring, Visit)]),
         workers := s.workers[g := Looking(Due(ring.list, ring.cur))])
    case Look(g) =>
      var n := s.workers[g].n;
      s.(workers := s.workers[g := if s.base.sessions[n].status == Ready then Checking(n) else Rest])
    case Push(g, stamp, sent) =>
      var n := s.workers[g].n;
      var t := s.base.sessions[n];
      var (base, thread) := Settled(S.WithSession(s.base, n, Pushed(t, stamp, sent)), n, t.pc, Idle);
      s.(base := base, workers := s.workers[g := thread])
    case EndCheck(g) => s.(workers := s.workers[g := Rest])
    case Call(g, now) =>
      var (base, thread) := Called(s, s.workers[g].n, s.workers[g].pc, now);
      s.(base := base, workers := s.workers[g := thread])
    case TimerDrain => s.(base := S.Next(s.base, S.TimerDrain))
    case TimerVisit(now, room) =>
      var fired := Fired(s.base.world.timers, now);
      var visited := s.(base := S.Next(s.base, S.TimerVisit(now)));
      if fired.Some? && room then
        var slot := fired.value;
        var id := Due(s.base.world.timers.list, s.base.world.timers.cur);
        Put(visited, s.base.home[slot.owner].value, Envelope(slot.owner, OnTimer(id, slot.tag)))
      else visited
  }

  ghost function Put(s: State, g: nat, e: Envelope): State
    requires g < |s.queues|
  {
    s.(queues := s.queues[g := s.queues[g] + [e]])
  }

  ghost predicate Initial(s: State) {
    && S.Initial(s.base) && s.accepting == Rest
    && |s.queues| == |s.workers| == |s.base.groups|
    && (forall g | 0 <= g < |s.queues| :: s.queues[g] == [])
    && (forall g | 0 <= g < |s.workers| :: s.workers[g] == Rest)
  }

  // ----- runs -----

  /** The state behind a step that is enabled. */
  ghost function Successor(s: State, step: Step): Option<State> {
    if Enabled(s, step) then Some(Next(s, step)) else None
  }

  /** s goes to t by this step. */
  ghost predicate Goes(s: State, step: Step, t: State) {
    Successor(s, step) == Some(t)
  }

  lemma Advances(s: State, step: Step, t: State)
    requires Enabled(s, step) && Next(s, step) == t
    ensures Goes(s, step, t)
  {
  }

  ghost predicate Behavior(b: seq<State>, steps: seq<Step>) {
    && |b| == |steps| + 1 && Initial(b[0])
    && forall i {:trigger steps[i]} | 0 <= i < |steps| :: Goes(b[i], steps[i], b[i + 1])
  }

  /** No message for n is queued, and no worker has one in hand or has picked n. */
  ghost predicate Unreferenced(s: State, n: nat) {
    && (forall g, k | 0 <= g < |s.queues| && 0 <= k < |s.queues[g]| :: s.queues[g][k].n != n)
    && (forall g | 0 <= g < |s.workers| :: s.workers[g].Rest? || s.workers[g].n != n)
  }

  /** What _addNodes could test: nothing refers to the node it takes from the pool. */
  ghost predicate CleanAccepts(b: seq<State>, steps: seq<Step>)
    requires |b| == |steps| + 1
  {
    forall i | 0 <= i < |steps| && steps[i].Accept? && b[i].base.pool != [] :: Unreferenced(b[i], b[i].base.pool[0])
  }

  /** The timer thread stands between drain and visit, in front of a timer of n. */
  ghost predicate Exposed(s: State, n: nat) {
    var timers := s.base.world.timers;
    && timers.phase == T.BeforeVisit && timers.list != [] && T.VisitReady(timers)
    && timers.slots[Due(timers.list, timers.cur)].owner == n
  }

  /** What _delNode could test: the timer thread is not in front of a timer of the node. */
  ghost predicate CleanRecycles(b: seq<State>, steps: seq<Step>)
    requires |b| == |steps| + 1
  {
    forall i | 0 <= i < |steps| && steps[i].Recycle? && b[i].base.recycleQueue != [] ::
      !Exposed(b[i], b[i].base.recycleQueue[0])
  }
}
