/** The session of one connection, src/transaction/CTransaction.cpp, with the calls it makes on the
    timer manager and on the registry of src/transaction/CTransactionManager.cpp. A handler is a
    program of micro-steps, one for each call that takes a lock, so that other threads run between
    them. Whose handlers run beside whose is not settled here: Workers has one pc for each thread. */
module Sessions {
  import opened Prelude
  import T = TimerSpec

  datatype Status = Free | Connected | Ready | Over

  function Code(status: Status): nat {
    match status
    case Free => 0
    case Connected => 1
    case Ready => 2
    case Over => 3
  }

  /** What a setTimer call is for: the handshake timeout of onAttach, the keepalive of __onStart, or
      the ack timeout of a pushed message. */
  datatype Use = Handshake | KeepLive | Ack(number: nat, stamp: nat)

  /** parameterII of the timer. */
  function Tag(use: Use): nat {
    match use
    case Handshake => Code(Connected)
    case KeepLive => Code(Ready)
    case Ack(n, _) => n
  }

  function Times(use: Use): nat {
    if use.KeepLive? then 0 else 1
  }

  /** How far the setTimer call is. */
  datatype Stage = Allocating | Filling(id: nat) | Enqueueing(timer: T.Ticket) | Recording(id: nat)

  /** A handshake message with what the outside answers while it is handled: whether the client's
      build is too old, the account the store finds (0 for none), whether the ack could be sent. */
  datatype Hello = Hello(sid: string, tooOld: bool, account: nat, lastUpdate: nat, sent: bool)

  /** Where the session's thread is: between messages (Idle), or in front of the next call. */
  datatype Pc =
    | Idle
    | Arming(use: Use, stage: Stage)               // inside setTimer
    | Joining                                      // attach: _container.push_back
    | Greeting(hello: Hello)                       // __onStart: killTimer(_keepLiveTimerId)
    | Registering(hello: Hello)                    // __onStart: registerTransaction
    | Forgetting(number: nat)                         // __onPushMsg: killTimer(pos->second)
    | Stopping(ids: seq<nat>, recycle: bool)       // __onStop: the killTimer calls
    | Leaving(recycle: bool)                       // __onStop: unregisterTransaction
    | Recycling                                    // _rollingQueue: recycleNode
    | Stranded                                     // attach failed: nobody refers to the node any more
    | Abandoned                                    // ended inside onCheck: not recycled

  datatype Session = Session(
    status: Status,
    build: nat,
    lastUpdate: nat,
    sid: string,
    account: nat,                  // _id
    keepLive: Option<nat>,         // _keepLiveTimerId
    heartbeat: bool,
    seqCounter: nat,
    seqTimers: map<nat, nat>,      // _mapSeq2Timer
    pc: Pc)

  const FRESH: Session := Session(Free, 0, 0, "", 0, None, false, 0, map[], Idle)

  datatype Msg =
    | HandShake(hello: Hello)
    | HeartBeatAck
    | SendMsg
    | PushAck(number: nat)
    | OnTimer(timerId: nat, parameter: nat)
    | OnOver
    | Unknown

  ghost predicate Busy(pc: Pc) {
    pc != Idle && pc != Stranded && pc != Abandoned
  }

  /** The timer manager, the registry (session text to transaction), and the configured interval. */
  datatype World = World(timers: T.State, registry: map<string, nat>, interval: nat)

  /** What a micro-step asks of the traffic layer. */
  datatype Effect = Quiet | Joins | Recycles

  datatype Outcome = Outcome(session: Session, world: World, effect: Effect)

  // ----- handlers -----

  /** The timer ids of the map in ascending order of seq, as the loop of __onStop meets them. */
  ghost function MapIds(m: map<nat, nat>): (ids: seq<nat>)
    ensures forall id :: id in ids <==> id in m.Values
    decreases |m|
  {
    if m == map[] then []
    else
      var k := MinKey(m.Keys);
      var rest := m - {k};
      assert m == rest[k := m[k]];
      [m[k]] + MapIds(rest)
  }

  ghost function MinKey(keys: set<nat>): (k: nat)
    requires keys != {}
    ensures k in keys && forall j | j in keys :: k <= j
  {
    var k :| k in keys;
    if keys == {k} then k
    else
      var j := MinKey(keys - {k});
      assert keys == (keys - {k}) + {k};
      if k <= j then k else j
  }

  lemma MapIdsFirst(m: map<nat, nat>, k: nat)
    requires k in m && forall j | j in m :: k <= j
    ensures MapIds(m) == [m[k]] + MapIds(m - {k})
  {
    assert MinKey(m.Keys) == k;
  }

  /** __onStop up to its first killTimer: the recorded timers are to be killed. */
  ghost function Stopped(t: Session, recycle: bool): Session {
    t.(status := Over,
       keepLive := None,
       seqTimers := map[],
       pc := Stopping((if t.keepLive.Some? then [t.keepLive.value] else []) + MapIds(t.seqTimers), recycle))
  }

  /** onAttach up to its setTimer. */
  ghost function Attached(t: Session): Session {
    t.(status := Connected, pc := Arming(Handshake, Allocating))
  }

  /** The asserts of onAttach. */
  ghost predicate Cleared(t: Session) {
    && t.build == 0 && t.lastUpdate == 0 && t.sid == "" && t.account == 0
    && t.keepLive == None && !t.heartbeat && t.seqCounter == 0 && t.seqTimers == map[]
  }

  /** onMessage up to its first call. */
  ghost function Handled(t: Session, msg: Msg): Session {
    match msg
    case HandShake(hello) =>
      if t.status != Connected then Stopped(t, true) else t.(pc := Greeting(hello))
    case HeartBeatAck =>
      if t.status != Ready then Stopped(t, true) else t.(heartbeat := true)
    case SendMsg =>
      if t.status != Ready then Stopped(t, true) else t
    case PushAck(n) =>
      if t.status != Ready then Stopped(t, true)
      else if n in t.seqTimers then t.(pc := Forgetting(n))
      else t
    case OnTimer(id, parameter) =>
      if t.keepLive == Some(id) then
        if Code(t.status) != parameter then t
        else if t.status == Ready && t.heartbeat then t.(heartbeat := false)
        else Stopped(t, true)
      else if t.status == Ready && parameter in t.seqTimers then Stopped(t, true)
      else t
    case OnOver => Stopped(t, true)
    case Unknown => Stopped(t, true)
  }

  // ----- the branches of __onTimer -----

  datatype Branch = OtherStatus | HandshakeTimeout | HeartbeatTimeout | Beat | NoStatus | TooEarly | AckTimeout | NoAck

  function TimerBranch(t: Session, timerId: nat, parameter: nat): Branch {
    if t.keepLive == Some(timerId) then
      if Code(t.status) != parameter then OtherStatus
      else if t.status == Connected then HandshakeTimeout
      else if t.status == Ready then (if !t.heartbeat then HeartbeatTimeout else Beat)
      else NoStatus                          // assert(false_v)
    else if t.status != Ready then TooEarly
    else if parameter in t.seqTimers then AckTimeout
    else NoAck                               // assert(false_v)
  }

  /** For a message that _rollingQueue dispatches, an assert(false_v) of __onTimer is reached if and only
      if the session is ready, the timer is not its keepalive timer, and no ack of that number is
      outstanding; the session ends exactly on the three time-outs. */
  lemma UnexpectedTimer(t: Session, timerId: nat, parameter: nat)
    requires t.status == Connected || t.status == Ready
    ensures var branch := TimerBranch(t, timerId, parameter);
      && (branch.NoStatus? || branch.NoAck? <==>
            t.status == Ready && t.keepLive != Some(timerId) && parameter !in t.seqTimers)
      && (branch.HandshakeTimeout? || branch.HeartbeatTimeout? || branch.AckTimeout? <==>
            Handled(t, OnTimer(timerId, parameter)) == Stopped(t, true))
      && (branch.NoAck? ==> Handled(t, OnTimer(timerId, parameter)) == t)
  {
    assert Stopped(t, true).status == Over;
  }

  const WRAP: nat := 0x1_0000_0000

  /** ++_seqCounter, once more when it has wrapped to 0. */
  function NextSeq(n: nat): (m: nat)
    requires n < WRAP
    ensures 0 < m < WRAP && m != n
  {
    if n + 1 == WRAP then 1 else n + 1
  }

  /** handlePushMessage: the message is numbered and sent; if that worked, its ack timer is set. */
  ghost function Pushed(t: Session, stamp: nat, sent: bool): Session
    requires t.seqCounter < WRAP
  {
    var n := NextSeq(t.seqCounter);
    t.(seqCounter := n, pc := if sent then Arming(Ack(n, stamp), Allocating) else t.pc)
  }

  // ----- micro-steps -----

  /** The asserts in front of the next call hold. */
  ghost predicate Armable(t: Session, w: World) {
    match t.pc
    case Arming(_, Allocating) =>
      w.timers.free != [] ==>
        w.timers.free[0] < |w.timers.slots| && T.Unused(w.timers.slots[w.timers.free[0]].status)
    case Arming(_, Filling(id)) => id in w.timers.setting && id < |w.timers.slots|
    case Arming(_, Enqueueing(timer)) => timer in w.timers.pending
    case Greeting(_) => t.keepLive.Some? && T.Enabled(w.timers, T.Kill(t.keepLive.value))
    case Forgetting(n) => n in t.seqTimers && T.Enabled(w.timers, T.Kill(t.seqTimers[n]))
    case Stopping(ids, _) => ids != [] ==> T.Enabled(w.timers, T.Kill(ids[0]))
    case _ => true
  }

  ghost function ArmingStep(self: nat, t: Session, w: World, now: T.Clock): Outcome
    requires t.pc.Arming? && Armable(t, w)
  {
    var use, s := t.pc.use, w.timers;
    match t.pc.stage
    case Allocating =>
      if s.free != [] then
        Outcome(t.(pc := Arming(use, Filling(s.free[0]))), w.(timers := T.Allocated(s)), Quiet)
      else if use.Handshake? then
        Outcome(t.(pc := Stranded), w, Quiet)
      else
        Outcome(Stopped(t, use.KeepLive?), w, Quiet)
    case Filling(id) =>
      var timers := T.Filled(s, id, w.interval, self, Tag(use), Times(use), now);
      Outcome(t.(pc := Arming(use, Enqueueing(timers.Now(id)))), w.(timers := timers), Quiet)
    case Enqueueing(timer) =>
      Outcome(t.(pc := Arming(use, Recording(timer.id))), w.(timers := T.Enqueued(s, timer)), Quiet)
    case Recording(id) =>
      match use
      case Handshake => Outcome(t.(keepLive := Some(id), pc := Joining), w, Quiet)
      case KeepLive => Outcome(t.(keepLive := Some(id), pc := Idle), w, Quiet)
      case Ack(n, stamp) =>
        Outcome(t.(seqTimers := t.seqTimers[n := id], lastUpdate := stamp, pc := Idle), w, Quiet)
  }

  /** __onStart behind its killTimer, up to registerTransaction. */
  ghost function Welcomed(t: Session, hello: Hello): Session {
    if hello.tooOld || hello.sid == "" || hello.account == 0 then Stopped(t, true)
    else t.(sid := hello.sid, account := hello.account, pc := Registering(hello))
  }

  /** The call the session's thread is in front of, and what the handler does up to the next one. */
  ghost function Micro(self: nat, t: Session, w: World, now: T.Clock): Outcome
    requires Busy(t.pc) && Armable(t, w)
  {
    match t.pc
    case Arming(_, _) => ArmingStep(self, t, w, now)
    case Joining => Outcome(t.(pc := Idle), w, Joins)
    case Greeting(hello) =>
      var killed := w.(timers := T.Killed(w.timers, t.keepLive.value));
      Outcome(Welcomed(t.(keepLive := None), hello), killed, Quiet)
    case Registering(hello) =>
      if t.sid in w.registry then
        Outcome(Stopped(t.(sid := "", account := 0), true), w, Quiet)
      else
        var ready := t.(status := Ready, lastUpdate := hello.lastUpdate, heartbeat := hello.sent,
                        pc := if hello.sent then Arming(KeepLive, Allocating) else Idle);
        Outcome(ready, w.(registry := w.registry[t.sid := self]), Quiet)
    case Forgetting(n) =>
      Outcome(t.(seqTimers := t.seqTimers - {n}, pc := Idle),
              w.(timers := T.Killed(w.timers, t.seqTimers[n])), Quiet)
    case Stopping(ids, recycle) =>
      if ids == [] then
        Outcome(t.(pc := Leaving(recycle)), w, Quiet)
      else
        Outcome(t.(pc := Stopping(ids[1..], recycle)), w.(timers := T.Killed(w.timers, ids[0])), Quiet)
    case Leaving(recycle) =>
      var w' := if t.sid != "" then w.(registry := w.registry - {t.sid}) else w;
      Outcome(t.(build := 0, lastUpdate := 0, sid := "", account := 0, heartbeat := false, seqCounter := 0,
                 pc := if recycle then Recycling else Abandoned), w', Quiet)
    case Recycling => Outcome(t.(pc := Idle), w, Recycles)
  }

  // ----- the shape of a session -----

  /** In every state of the server a session looks like this. */
  ghost predicate Shape(t: Session) {
    && t.build == 0 && t.seqCounter < WRAP
    && match t.status
       case Free => t.pc == Idle && Cleared(t)
       case Connected =>
         && t.lastUpdate == 0 && !t.heartbeat && t.seqCounter == 0 && t.seqTimers == map[]
         && (t.pc.Registering? || (t.sid == "" && t.account == 0))
         && (match t.pc
             case Arming(use, _) => use.Handshake? && t.keepLive == None
             case Stranded => t.keepLive == None
             case Registering(hello) => t.keepLive == None && t.sid == hello.sid != "" && t.account != 0
             case _ => (t.pc.Idle? || t.pc.Joining? || t.pc.Greeting?) && t.keepLive.Some?)
       case Ready =>
         && t.sid != "" && t.account != 0
         && (match t.pc
             case Arming(use, _) =>
               (use.KeepLive? && t.keepLive == None && t.seqTimers == map[]) || (use.Ack? && use.number !in t.seqTimers)
             case Forgetting(n) => n in t.seqTimers
             case _ => t.pc.Idle?)
       case Over =>
         && t.keepLive == None && t.seqTimers == map[]
         && (match t.pc
             case Stopping(_, _) => true
             case Leaving(_) => true
             case _ => (t.pc.Idle? || t.pc.Recycling? || t.pc.Abandoned?) && Cleared(t))
  }

  /** The status only moves along Free, Connected, Ready, Over, or from Connected straight to Over. */
  ghost predicate Moves(was: Status, now: Status) {
    || now == was
    || (was == Connected && (now == Ready || now == Over))
    || (was == Ready && now == Over)
  }

  lemma HandledShape(t: Session, msg: Msg)
    requires Shape(t) && t.pc == Idle && (t.status == Connected || t.status == Ready)
    ensures Shape(Handled(t, msg)) && Moves(t.status, Handled(t, msg).status)
  {
  }

  lemma PushedShape(t: Session, stamp: nat, sent: bool)
    requires Shape(t) && t.status == Ready && t.pc == Idle && NextSeq(t.seqCounter) !in t.seqTimers
    ensures Shape(Pushed(t, stamp, sent))
  {
  }

  lemma MicroShape(self: nat, t: Session, w: World, now: T.Clock)
    requires Busy(t.pc) && Armable(t, w)
    requires Shape(t)
    ensures var r := Micro(self, t, w, now).session; Shape(r) && Moves(t.status, r.status)
  {
  }

  lemma JoinsAt(self: nat, t: Session, w: World, now: T.Clock)
    requires Busy(t.pc) && Armable(t, w)
    ensures Micro(self, t, w, now).effect == Joins <==> t.pc.Joining?
  {
  }

  // ----- the timers a session knows -----

  ghost function PcIds(pc: Pc): set<nat> {
    match pc
    case Arming(_, Enqueueing(timer)) => {timer.id}
    case Arming(_, Recording(id)) => {id}
    case Stopping(ids, _) => set id | id in ids
    case _ => {}
  }

  /** Every timer the session has set and not killed is among these. */
  ghost function Recorded(t: Session): set<nat> {
    (if t.keepLive.Some? then {t.keepLive.value} else {}) + t.seqTimers.Values + PcIds(t.pc)
  }

  lemma StoppedRecorded(t: Session, recycle: bool)
    ensures Recorded(Stopped(t, recycle)) == (if t.keepLive.Some? then {t.keepLive.value} else {}) + t.seqTimers.Values
  {
    var r := Stopped(t, recycle);
    assert r.seqTimers.Values == {};
  }

  // ----- a handler that runs without interruption -----

  ghost function Rank(pc: Pc): nat {
    match pc
    case Greeting(_) => 9
    case Registering(_) => 8
    case Arming(_, Allocating) => 7
    case Arming(_, Filling(_)) => 6
    case Arming(_, Enqueueing(_)) => 5
    case Arming(_, Recording(_)) => 4
    case Forgetting(_) => 4
    case Stopping(_, _) => 3
    case Leaving(_) => 2
    case _ => 1
  }

  /** All micro-steps of a handler, one after the other. */
  ghost function Settle(self: nat, t: Session, w: World, now: T.Clock): (Session, World)
    decreases Rank(t.pc), if t.pc.Stopping? then |t.pc.ids| else 0
  {
    if !Busy(t.pc) || t.pc == Recycling || !Armable(t, w) then (t, w)
    else
      var o := Micro(self, t, w, now);
      if t.pc == Joining then (o.session, o.world) else Settle(self, o.session, o.world, now)
  }

  ghost function KillAll(timers: T.State, ids: seq<nat>): (r: T.State)
    ensures |r.slots| == |timers.slots|
    decreases |ids|
  {
    if ids == [] || |timers.slots| <= ids[0] then timers else KillAll(T.Killed(timers, ids[0]), ids[1..])
  }

  /** killTimer may be called with each of these. */
  ghost predicate Killable(ids: seq<nat>, timers: T.State) {
    && T.Below(ids, |timers.slots|)
    && forall k | 0 <= k < |ids| :: timers.slots[ids[k]].status != T.Nothing
  }

  lemma {:induction false} SettleStopping(self: nat, t: Session, w: World, now: T.Clock)
    requires t.pc.Stopping?
    requires Killable(t.pc.ids, w.timers)
    ensures Settle(self, t, w, now)
      == Settle(self, t.(pc := Leaving(t.pc.recycle)), w.(timers := KillAll(w.timers, t.pc.ids)), now)
    decreases |t.pc.ids|
  {
    if t.pc.ids != [] {
      var o := Micro(self, t, w, now);
      SettleStopping(self, o.session, o.world, now);
    }
  }

  lemma SettleLeaving(self: nat, t: Session, w: World, now: T.Clock)
    requires t.pc.Leaving?
    ensures Settle(self, t, w, now)
      == (t.(build := 0, lastUpdate := 0, sid := "", account := 0, heartbeat := false, seqCounter := 0,
             pc := if t.pc.recycle then Recycling else Abandoned),
          if t.sid != "" then w.(registry := w.registry - {t.sid}) else w)
  {
  }

  /** setTimer without interruption, and what is done with its result. */
  lemma SettleArming(self: nat, t: Session, w: World, now: T.Clock)
    requires t.pc.Arming? && t.pc.stage.Allocating?
    requires Armable(t, w)
    ensures var use := t.pc.use; var s := w.timers;
      Settle(self, t, w, now) ==
        if s.free == [] then
          if use.Handshake? then (t.(pc := Stranded), w)
          else Settle(self, Stopped(t, use.KeepLive?), w, now)
        else
          var id := s.free[0];
          var filled := T.Filled(T.Allocated(s), id, w.interval, self, Tag(use), Times(use), now);
          var w' := w.(timers := T.Enqueued(filled, filled.Now(id)));
          (match use
           case Handshake => (t.(keepLive := Some(id), pc := Idle), w')
           case KeepLive => (t.(keepLive := Some(id), pc := Idle), w')
           case Ack(n, stamp) => (t.(seqTimers := t.seqTimers[n := id], lastUpdate := stamp, pc := Idle), w'))
  {
    if w.timers.free != [] {
      var a := Micro(self, t, w, now);
      var f := Micro(self, a.session, a.world, now);
      var e := Micro(self, f.session, f.world, now);
      var r := Micro(self, e.session, e.world, now);
      assert Settle(self, t, w, now) == Settle(self, a.session, a.world, now);
      assert Settle(self, a.session, a.world, now) == Settle(self, f.session, f.world, now);
      assert Settle(self, f.session, f.world, now) == Settle(self, e.session, e.world, now);
      assert Settle(self, e.session, e.world, now) == Settle(self, r.session, r.world, now);
    }
  }

  lemma SettleGreeting(self: nat, t: Session, w: World, now: T.Clock)
    requires t.pc.Greeting? && Armable(t, w)
    ensures Settle(self, t, w, now)
      == Settle(self, Welcomed(t.(keepLive := None), t.pc.hello), w.(timers := T.Killed(w.timers, t.keepLive.value)), now)
  {
  }

  lemma SettleRegistering(self: nat, t: Session, w: World, now: T.Clock)
    requires t.pc.Registering?
    ensures var hello := t.pc.hello;
      Settle(self, t, w, now) ==
        if t.sid in w.registry then
          Settle(self, Stopped(t.(sid := "", account := 0), true), w, now)
        else
          Settle(self, t.(status := Ready, lastUpdate := hello.lastUpdate, heartbeat := hello.sent,
                          pc := if hello.sent then Arming(KeepLive, Allocating) else Idle),
                 w.(registry := w.registry[t.sid := self]), now)
  {
  }

  lemma SettleForgetting(self: nat, t: Session, w: World, now: T.Clock)
    requires t.pc.Forgetting? && Armable(t, w)
    ensures Settle(self, t, w, now)
      == (t.(seqTimers := t.seqTimers - {t.pc.number}, pc := Idle),
          w.(timers := T.Killed(w.timers, t.seqTimers[t.pc.number])))
  {
  }

  lemma SettleIdle(self: nat, t: Session, w: World, now: T.Clock)
    ensures t.pc == Idle ==> Settle(self, t, w, now) == (t, w)
  {
  }

  /** Where __onStop starts from does not matter. */
  lemma StoppedAnywhere(t: Session, status: Status, pc: Pc, recycle: bool)
    ensures Stopped(t.(status := status, pc := pc), recycle) == Stopped(t, recycle)
  {
  }

  lemma KillableSubset(some: seq<nat>, all: seq<nat>, timers: T.State)
    requires Killable(all, timers) && forall id | id in some :: id in all
    ensures Killable(some, timers)
  {
    forall k | 0 <= k < |some|
      ensures some[k] < |timers.slots| && timers.slots[some[k]].status != T.Nothing
    {
      assert some[k] in some;
    }
  }

  /** killTimer and setTimer never make an id unusable. */
  lemma KillableAfterKill(ids: seq<nat>, timers: T.State, id: nat)
    requires Killable(ids, timers) && id < |timers.slots|
    ensures Killable(ids, T.Killed(timers, id))
  {
  }

  // ----- what a message comes to -----

  /** The message itself ends the session, whatever happens next. A ready session ends on a handshake,
      on over, on what is unknown, on a keepalive tick without a heartbeat ack since the last, and when
      the timer of an outstanding ack runs out. One that waits for its handshake ends on everything but
      that handshake and timers other than its own. */
  ghost predicate Fatal(t: Session, msg: Msg) {
    if t.status == Ready then
      || msg.HandShake? || msg.OnOver? || msg.Unknown?
      || (msg.OnTimer? && t.keepLive == Some(msg.timerId) && msg.parameter == Code(Ready) && !t.heartbeat)
      || (msg.OnTimer? && t.keepLive != Some(msg.timerId) && msg.parameter in t.seqTimers)
    else
      || msg.HeartBeatAck? || msg.SendMsg? || msg.PushAck? || msg.OnOver? || msg.Unknown?
      || (msg.OnTimer? && t.keepLive == Some(msg.timerId) && msg.parameter == Code(Connected))
  }

  /** A handshake is turned down: for its build, for its session id, which nobody knows or somebody has,
      or for want of a timer; that of the handshake is free again if it was still to be added. */
  ghost predicate Rejected(t: Session, w: World, hello: Hello)
    requires t.keepLive.Some?
  {
    || hello.tooOld || hello.sid == "" || hello.account == 0 || hello.sid in w.registry
    || (hello.sent && w.timers.free == [] && !w.timers.Is(t.keepLive.value, T.ToBeAdd))
  }

  /** The ids of all timers the session may kill. */
  ghost function KnownIds(t: Session): seq<nat> {
    (if t.keepLive.Some? then [t.keepLive.value] else []) + MapIds(t.seqTimers)
  }

  /** onMessage may be called. */
  ghost predicate Receptive(t: Session, w: World, msg: Msg) {
    && t.pc == Idle && (t.status == Connected || t.status == Ready)
    && Killable(KnownIds(t), w.timers)
    && (w.timers.free != [] ==>
          w.timers.free[0] < |w.timers.slots| && T.Unused(w.timers.slots[w.timers.free[0]].status))
    && (msg.HandShake? && t.status == Connected ==> t.keepLive.Some?)
  }

  lemma FirstKillable(t: Session, timers: T.State)
    requires Killable(KnownIds(t), timers)
    ensures t.keepLive.Some? ==> T.Enabled(timers, T.Kill(t.keepLive.value))
    ensures forall n | n in t.seqTimers :: T.Enabled(timers, T.Kill(t.seqTimers[n]))
  {
    assert t.keepLive.Some? ==> KnownIds(t)[0] == t.keepLive.value;
    forall n | n in t.seqTimers
      ensures T.Enabled(timers, T.Kill(t.seqTimers[n]))
    {
      assert t.seqTimers[n] in KnownIds(t);
    }
  }

  const ENDED: Session := FRESH.(status := Over, pc := Recycling)

  /** A session that ends has nothing left, and is unregistered. */
  lemma SettleStopped(self: nat, t: Session, w: World, now: T.Clock)
    requires Killable(KnownIds(t), w.timers)
    ensures var (u, v) := Settle(self, Stopped(t, true), w, now);
      u == ENDED && v.registry == if t.sid == "" then w.registry else w.registry - {t.sid}
  {
    hide Killable, MapIds;
    var u := Stopped(t, true);
    SettleStopping(self, u, w, now);
    SettleLeaving(self, u.(pc := Leaving(true)), w.(timers := KillAll(w.timers, u.pc.ids)), now);
  }

  /** A dispatched message, with its whole handler: when it ends the session, and what it changes
      otherwise. */
  lemma MessageOutcome(self: nat, t: Session, w: World, msg: Msg, now: T.Clock)
    requires Receptive(t, w, msg)
    ensures var (u, v) := Settle(self, Handled(t, msg), w, now);
      if Fatal(t, msg) then
        u == ENDED && v.registry == if t.sid == "" then w.registry else w.registry - {t.sid}
      else if msg.HandShake? then
        if Rejected(t, w, msg.hello) then u == ENDED && (t.sid == "" ==> v.registry == w.registry)
        else
          && u == t.(status := Ready, sid := msg.hello.sid, account := msg.hello.account,
                     lastUpdate := msg.hello.lastUpdate, heartbeat := msg.hello.sent, keepLive := u.keepLive)
          && (u.keepLive.Some? <==> msg.hello.sent) && v.registry == w.registry[msg.hello.sid := self]
      else if msg.PushAck? then
        && u == t.(seqTimers := t.seqTimers - {msg.number}) && v.registry == w.registry
        && (if msg.number !in t.seqTimers then v.timers == w.timers
            else t.seqTimers[msg.number] < |w.timers.slots| && v.timers == T.Killed(w.timers, t.seqTimers[msg.number]))
      else
        && v == w
        && u == t.(heartbeat :=
             msg.HeartBeatAck?
             || (t.heartbeat && !(msg.OnTimer? && t.keepLive == Some(msg.timerId) && msg.parameter == Code(t.status))))
  {
    hide Killable, Settle, MapIds, T.Killed;
    FirstKillable(t, w.timers);
    if Fatal(t, msg) {
      assert Handled(t, msg) == Stopped(t, true);
      SettleStopped(self, t, w, now);
    } else if msg.HandShake? {
      HandshakeOutcome(self, t, w, msg.hello, now);
    } else if msg.PushAck? && msg.number in t.seqTimers {
      SettleForgetting(self, t.(pc := Forgetting(msg.number)), w, now);
    } else {
      SettleIdle(self, Handled(t, msg), w, now);
      if msg.PushAck? {
        assert t.seqTimers - {msg.number} == t.seqTimers;
      }
    }
  }

  lemma HandshakeOutcome(self: nat, t: Session, w: World, hello: Hello, now: T.Clock)
    requires Receptive(t, w, HandShake(hello)) && t.status == Connected
    ensures var (u, v) := Settle(self, t.(pc := Greeting(hello)), w, now);
      if Rejected(t, w, hello) then u == ENDED && (t.sid == "" ==> v.registry == w.registry)
      else
        && u == t.(status := Ready, sid := hello.sid, account := hello.account,
                   lastUpdate := hello.lastUpdate, heartbeat := hello.sent, keepLive := u.keepLive)
        && (u.keepLive.Some? <==> hello.sent) && v.registry == w.registry[hello.sid := self]
  {
    hide Settle, MapIds;
    FirstKillable(t, w.timers);
    var killed := w.(timers := T.Killed(w.timers, t.keepLive.value));
    var u := t.(keepLive := None);
    SettleGreeting(self, t.(pc := Greeting(hello)), w, now);
    KillableSubset(KnownIds(u), KnownIds(t), w.timers);
    KillableAfterKill(KnownIds(u), w.timers, t.keepLive.value);
    StoppedAnywhere(u, u.status, Greeting(hello), true);
    SettleStopped(self, u, killed, now);
    if !(hello.tooOld || hello.sid == "" || hello.account == 0) {
      RegisterOutcome(self, u, killed, hello, now);
    }
  }

  lemma RegisterOutcome(self: nat, t: Session, w: World, hello: Hello, now: T.Clock)
    requires t.status == Connected && t.keepLive == None && hello.sid != ""
    requires Killable(KnownIds(t), w.timers) && t.pc == Idle
    requires Armable(t.(pc := Arming(KeepLive, Allocating)), w)
    ensures var (u, v) := Settle(self, t.(sid := hello.sid, account := hello.account, pc := Registering(hello)), w, now);
      if hello.sid in w.registry || (hello.sent && w.timers.free == []) then u == ENDED && v.registry == w.registry
      else
        && u == t.(status := Ready, sid := hello.sid, account := hello.account,
                   lastUpdate := hello.lastUpdate, heartbeat := hello.sent, keepLive := u.keepLive)
        && (u.keepLive.Some? <==> hello.sent) && v.registry == w.registry[hello.sid := self]
  {
    hide Settle, Killable, MapIds, Stopped;
    var r := t.(sid := hello.sid, account := hello.account, pc := Registering(hello));
    SettleRegistering(self, r, w, now);
    if hello.sid in w.registry {
      StoppedAnywhere(t.(sid := "", account := 0), Connected, Registering(hello), true);
      SettleStopped(self, t.(sid := "", account := 0), w, now);
    } else {
      var ready := t.(status := Ready, sid := hello.sid, account := hello.account, lastUpdate := hello.lastUpdate,
                      heartbeat := hello.sent);
      var entered := w.(registry := w.registry[hello.sid := self]);
      SettleIdle(self, ready, entered, now);
      if hello.sent {
        SettleArming(self, ready.(pc := Arming(KeepLive, Allocating)), entered, now);
        StoppedAnywhere(ready, Ready, Arming(KeepLive, Allocating), true);
        SettleStopped(self, ready, entered, now);
        assert entered.registry - {hello.sid} == w.registry;
      }
    }
  }

  /** handlePushMessage: the next number is used up in any case. If the message has been sent, a timer with
      that number is armed and recorded, and the time of the message becomes the session's; without a
      timer the session ends, and nobody recycles it. */
  lemma PushOutcome(self: nat, t: Session, w: World, stamp: nat, sent: bool, now: T.Clock)
    requires t.pc == Idle && t.seqCounter < 0x1_0000_0000
    requires Killable(KnownIds(t), w.timers) && Armable(t.(pc := Arming(KeepLive, Allocating)), w)
    ensures var n := if t.seqCounter == 0xFFFF_FFFF then 1 else t.seqCounter + 1;
      var (u, v) := Settle(self, Pushed(t, stamp, sent), w, now);
      if !sent then u == t.(seqCounter := n) && v == w
      else if w.timers.free == [] then u == ENDED.(pc := Abandoned)
      else
        var id := w.timers.free[0];
        && u == t.(seqCounter := n, seqTimers := t.seqTimers[n := id], lastUpdate := stamp)
        && v.registry == w.registry && id < |w.timers.slots| == |v.timers.slots|
        && v.timers.slots[id]
           == T.Slot(w.interval, self, n, 1, now, T.ToBeAdd, w.timers.slots[id].gen + 1)
        && v.timers.addQueue == w.timers.addQueue + [id]
  {
    hide Settle, MapIds, KillAll;
    var n := NextSeq(t.seqCounter);
    var pushed := t.(seqCounter := n);
    SettleIdle(self, pushed, w, now);
    if sent {
      var pc := Arming(Ack(n, stamp), Allocating);
      SettleArming(self, pushed.(pc := pc), w, now);
      if w.timers.free == [] {
        var u := Stopped(pushed.(pc := pc), false);
        SettleStopping(self, u, w, now);
        SettleLeaving(self, u.(pc := Leaving(false)), w.(timers := KillAll(w.timers, u.pc.ids)), now);
      }
    }
  }
}
