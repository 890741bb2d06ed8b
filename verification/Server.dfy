/** The serial view of the server: the sessions of all nodes, the timer manager and its worker, the
    registry, the node groups with their round-robin cursors, and the node pool and recycle queue of
    src/traffic/CTrafficManager.cpp, with one pc for each session. Messages are not constrained: any
    message may reach any attached session at rest, which covers every order the queues can produce.
    The code does not see to it that the handlers of a session run one after the other: WorkersSerial
    shows when they do, and then the threads of Workers make the steps of this view. */
module Server {
  import opened Prelude
  import opened RoundRobin
  import opened Sessions
  import T = TimerSpec

  datatype State = State(
    world: World,
    sessions: seq<Session>,        // one for each node; its index is the node
    home: seq<Option<nat>>,        // _group of each node
    groups: seq<Ring<nat>>,        // _container and _pos of each group
    pool: seq<nat>,                // _res
    recycleQueue: seq<nat>,        // _nodeQueue
    nextGroup: nat)                // _curGroupIndex

  datatype Step =
    | Accept                                       // one round of _addNodes up to onAttach's setTimer
    | Deliver(n: nat, msg: Msg)                    // _rollingQueue dispatches a message
    | Roll(g: nat)                                 // _rollingNode moves on
    | Push(n: nat, stamp: nat, sent: bool)         // onCheck hands one stored message over
    | Call(n: nat, now: T.Clock)                   // the next call of a handler
    | TimerDrain
    | TimerVisit(now: T.Clock)
    | Recycle                                      // one round of the recycle loop of working()
    | Elsewhere                                    // something that concerns none of this

  /** What has to be given for the step to happen at all. */
  ghost predicate Possible(s: State, step: Step) {
    match step
    case Accept => s.pool != [] && s.groups != []
    case Deliver(n, msg) =>
      && n < |s.sessions| && s.sessions[n].pc == Idle
      && (s.sessions[n].status == Connected || s.sessions[n].status == Ready)
      && (msg.PushAck? ==> msg.number != 0)
    case Roll(g) => g < |s.groups| && s.groups[g].list != []
    case Push(n, _, _) =>
      && n < |s.sessions| && s.sessions[n].pc == Idle && s.sessions[n].status == Ready
      && s.sessions[n].seqCounter < WRAP && NextSeq(s.sessions[n].seqCounter) !in s.sessions[n].seqTimers
    case Call(n, _) => n < |s.sessions| && Busy(s.sessions[n].pc)
    case TimerDrain => s.world.timers.phase == T.BeforeDrain
    case TimerVisit(_) => s.world.timers.phase == T.BeforeVisit
    case Recycle => s.recycleQueue != []
    case Elsewhere => true
  }

  /** What the code takes for granted when it makes the step: its asserts, and that the nodes, groups
      and list elements it follows exist. */
  ghost predicate Asserted(s: State, step: Step)
    requires Possible(s, step)
  {
    match step
    case Accept =>
      && s.pool[0] < |s.sessions| && s.sessions[s.pool[0]].status == Free && Cleared(s.sessions[s.pool[0]])
      && s.pool[0] < |s.home|
      && s.nextGroup <= |s.groups|
    case Roll(g) => ValidRing(s.groups[g])
    case Call(n, _) =>
      && Armable(s.sessions[n], s.world)
      && (s.sessions[n].pc.Joining? ==>
            n < |s.home| && s.home[n].Some? && s.home[n].value < |s.groups|)
      && (s.sessions[n].pc.Leaving? && s.sessions[n].sid in s.world.registry ==>
            s.sessions[n].sid == "" || s.world.registry[s.sessions[n].sid] == n)
      && (s.sessions[n].pc.Recycling? ==> s.sessions[n].status == Over)
    case TimerDrain => T.Enabled(s.world.timers, T.Drain)
    case TimerVisit(now) => T.Enabled(s.world.timers, T.Visit(now, true))
    case Recycle =>
      var n := s.recycleQueue[0];
      && n < |s.sessions| && n < |s.home| && s.home[n].Some? && s.home[n].value < |s.groups|
      && s.sessions[n].status == Over && Cleared(s.sessions[n])
      && ValidRing(s.groups[s.home[n].value])
    case _ => true
  }

  ghost predicate Enabled(s: State, step: Step) {
    Possible(s, step) && Asserted(s, step)
  }

  ghost function WithSession(s: State, n: nat, t: Session): State
    requires n < |s.sessions|
  {
    s.(sessions := s.sessions[n := t])
  }

  /** _allocateGroup. */
  ghost function GroupIndex(s: State): nat
    requires s.groups != [] && s.nextGroup <= |s.groups|
  {
    if s.nextGroup == |s.groups| then 0 else s.nextGroup
  }

  ghost function Accepted(s: State): State
    requires Enabled(s, Accept)
  {
    var n := s.pool[0];
    WithSession(s, n, Attached(s.sessions[n])).(
      pool := s.pool[1..],
      home := s.home[n := Some(GroupIndex(s))],
      nextGroup := GroupIndex(s) + 1)
  }

  ghost function Called(s: State, n: nat, now: T.Clock): State
    requires Enabled(s, Call(n, now))
  {
    var o := Micro(n, s.sessions[n], s.world, now);
    var called := WithSession(s, n, o.session).(world := o.world);
    match o.effect
    case Quiet => called
    case Joins =>
      var g := s.home[n].value;
      called.(groups := s.groups[g := s.groups[g].(list := s.groups[g].list + [n])])
    case Recycles => called.(recycleQueue := s.recycleQueue + [n])
  }

  /** _delNode passes over the node: it is free already, or it has no socket. */
  ghost predicate PassedOver(s: State, n: nat) {
    && n < |s.sessions| && n < |s.home|
    && (s.sessions[n].status == Free || s.home[n] == None)
  }

  /** _delNode: the node leaves its group, is detached, and goes back to the pool. */
  ghost function Recycled(s: State): State
    requires Enabled(s, Recycle)
  {
    var n := s.recycleQueue[0];
    var g := s.home[n].value;
    WithSession(s, n, s.sessions[n].(status := Free)).(
      recycleQueue := s.recycleQueue[1..],
      groups := s.groups[g := Apply(s.groups[g], Remove(n))],
      home := s.home[n := None],
      pool := s.pool + [n])
  }

  ghost function Next(s: State, step: Step): State
    requires Enabled(s, step)
  {
    match step
    case Accept => Accepted(s)
    case Deliver(n, msg) => WithSession(s, n, Handled(s.sessions[n], msg))
    case Roll(g) => s.(groups := s.groups[g := Apply(s.groups[g], Visit)])
    case Push(n, stamp, sent) => WithSession(s, n, Pushed(s.sessions[n], stamp, sent))
    case Call(n, now) => Called(s, n, now)
    case TimerDrain => s.(world := s.world.(timers := T.Drained(s.world.timers)))
    case TimerVisit(now) => s.(world := s.world.(timers := T.Visited(s.world.timers, now, true)))
    case Recycle => Recycled(s)
    case Elsewhere => s
  }

  ghost predicate Initial(s: State) {
    && T.Initial(s.world.timers) && s.world.registry == map[]
    && (forall n | 0 <= n < |s.sessions| :: s.sessions[n] == FRESH)
    && |s.home| == |s.sessions| && (forall n | 0 <= n < |s.home| :: s.home[n] == None)
    && (forall g | 0 <= g < |s.groups| :: s.groups[g] == Ring([], None))
    && |s.pool| == |s.sessions| && (forall n | 0 <= n < |s.pool| :: s.pool[n] == n)
    && s.recycleQueue == [] && s.nextGroup == 0
  }

  // ----- the invariant, part by part -----

  ghost predicate Shapes(sessions: seq<Session>) {
    forall n | 0 <= n < |sessions| :: Shape(sessions[n])
  }

  /** Every id a session is about to fill, push or kill belongs to it and may be used. */
  ghost predicate Holds(t: Session, timers: T.State) {
    && (forall id | id in Recorded(t) :: id < |timers.slots| && timers.slots[id].status != T.Nothing)
    && (t.pc.Arming? && t.pc.stage.Filling? ==> t.pc.stage.id in timers.setting)
    && (t.pc.Arming? && t.pc.stage.Enqueueing? ==> t.pc.stage.timer in timers.pending)
  }

  ghost predicate Armed(slot: T.Slot) {
    slot.status == T.ToBeAdd || slot.status == T.Added
  }

  /** Every armed timer is known to the session it is for. */
  ghost predicate Tracked(sessions: seq<Session>, timers: T.State) {
    forall id | 0 <= id < |timers.slots| && Armed(timers.slots[id]) ::
      timers.slots[id].owner < |sessions| && id in Recorded(sessions[timers.slots[id].owner])
  }

  /** No two sessions are in setTimer with the same slot. */
  ghost predicate Separate(sessions: seq<Session>) {
    forall n, m | 0 <= n < |sessions| && 0 <= m < |sessions| && n != m :: Disjoint(sessions[n], sessions[m])
  }

  ghost predicate Disjoint(t: Session, u: Session) {
    t.pc.Arming? && u.pc.Arming? ==>
      && (t.pc.stage.Filling? && u.pc.stage.Filling? ==> t.pc.stage.id != u.pc.stage.id)
      && (t.pc.stage.Enqueueing? && u.pc.stage.Enqueueing? ==> t.pc.stage.timer != u.pc.stage.timer)
  }

  ghost predicate TimersOk(sessions: seq<Session>, timers: T.State) {
    && T.Inv(timers)
    && Tracked(sessions, timers)
    && (forall n | 0 <= n < |sessions| :: Holds(sessions[n], timers))
    && Separate(sessions)
  }

  /** The session is in the registry. */
  ghost predicate Registered(t: Session) {
    t.status == Ready || (t.status == Over && t.sid != "")
  }

  /** The registry holds exactly the registered sessions, each under the text its buffer has now. */
  ghost predicate RegistryOk(sessions: seq<Session>, registry: map<string, nat>) {
    && (forall n | 0 <= n < |sessions| && Registered(sessions[n]) ::
          sessions[n].sid in registry && registry[sessions[n].sid] == n)
    && (forall k | k in registry ::
          registry[k] < |sessions| && Registered(sessions[registry[k]]) && sessions[registry[k]].sid == k)
  }

  /** The node is being attached and is not in a container yet, or never will be. */
  ghost predicate Outside(t: Session) {
    t.status == Connected
    && (t.pc.Joining? || t.pc.Stranded? || (t.pc.Arming? && t.pc.use.Handshake?))
  }

  /** Where one node is: free in the pool, or in its group's container, or outside. */
  ghost predicate NodePlaced(s: State, n: nat)
    requires n < |s.sessions| == |s.home|
  {
    var t := s.sessions[n];
    && (t.status == Free <==> n in s.pool)
    && (t.status == Free <==> s.home[n] == None)
    && (s.home[n].Some? ==> s.home[n].value < |s.groups|)
    && (forall g | 0 <= g < |s.groups| ::
          n in s.groups[g].list <==> s.home[n] == Some(g) && !Outside(t))
    && (n in s.recycleQueue <==> t.status == Over && t.pc == Idle)
  }

  ghost predicate PlacesOk(s: State) {
    && |s.home| == |s.sessions|
    && NoDup(s.pool) && NoDup(s.recycleQueue)
    && s.nextGroup <= |s.groups|
    && (forall g | 0 <= g < |s.groups| :: ValidRing(s.groups[g]))
    && (forall n | n in s.pool :: n < |s.sessions|)
    && (forall n | n in s.recycleQueue :: n < |s.sessions|)
    && (forall g, n | 0 <= g < |s.groups| && n in s.groups[g].list :: n < |s.sessions|)
    && (forall n | 0 <= n < |s.sessions| :: NodePlaced(s, n))
  }

  ghost predicate Inv(s: State) {
    && Shapes(s.sessions)
    && TimersOk(s.sessions, s.world.timers)
    && RegistryOk(s.sessions, s.world.registry)
    && PlacesOk(s)
  }
}
