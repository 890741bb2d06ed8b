/** src/transaction/CTransaction.cpp in place, with the registry of CTransactionManager.cpp: each
    handler, run without interruption, does what the micro-steps of Session do. */
module Transactions {
  import opened Prelude
  import opened Sessions
  import opened TimerManagers
  import T = TimerSpec

  /** _transactionMap, seen by the text behind its keys. */
  class TransactionMap {
    var entries: map<string, nat>

    constructor ()
      ensures entries == map[]
    {
      entries := map[];
    }

    method RegisterTransaction(transaction: nat, sessionId: string) returns (ok: bool)
      modifies this
      ensures ok <==> sessionId !in old(entries)
      ensures entries == if ok then old(entries)[sessionId := transaction] else old(entries)
    {
      ok := sessionId !in entries;
      if ok {
        entries := entries[sessionId := transaction];
      }
    }

    method UnregisterTransaction(transaction: nat, sessionId: string) returns (ok: bool)
      requires sessionId != "" && sessionId in entries ==> entries[sessionId] == transaction
      modifies this
      ensures ok <==> sessionId != "" && sessionId in old(entries)
      ensures entries == if sessionId == "" then old(entries) else old(entries) - {sessionId}
    {
      ok := sessionId != "" && sessionId in entries;
      if ok {
        entries := entries - {sessionId};
      }
    }
  }

  class Transaction {
    const self: nat                // its address
    const timers: TimerManager
    const registry: TransactionMap
    const interval: nat            // HEARTBEAT_INTERVAL
    var status: Status
    var build: nat
    var lastUpdate: nat
    var sessionId: string
    var id: nat
    var keepLiveTimerId: Option<nat>
    var heartbeat: bool
    var seqCounter: nat
    var mapSeq2Timer: map<nat, nat>

    constructor (self: nat, timers: TimerManager, registry: TransactionMap, interval: nat)
      ensures View(Idle) == FRESH
      ensures this.self == self && this.timers == timers && this.registry == registry && this.interval == interval
    {
      this.self, this.timers, this.registry, this.interval := self, timers, registry, interval;
      status, build, lastUpdate, sessionId, id := Free, 0, 0, "", 0;
      keepLiveTimerId, heartbeat, seqCounter, mapSeq2Timer := None, false, 0, map[];
    }

    /** The session this object stands for, when its thread is at pc. */
    ghost function View(pc: Pc): Session
      reads this
    {
      Session(status, build, lastUpdate, sessionId, id, keepLiveTimerId, heartbeat, seqCounter,
                      mapSeq2Timer, pc)
    }

    ghost function Around(): World
      reads timers, registry
    {
      World(timers.View(), registry.entries, interval)
    }

    /** The timers it knows were given out by setTimer. */
    ghost predicate Valid()
      reads `keepLiveTimerId, `mapSeq2Timer, timers, timers.group
    {
      timers.Valid() && T.Inv(timers.View()) && Killable(RecordedIds(), timers.View())
    }

    /** The timer manager is in order. */
    ghost predicate InOrder()
      reads timers, timers.group
    {
      timers.Valid() && T.Inv(timers.View())
    }

    ghost function RecordedIds(): seq<nat>
      reads `keepLiveTimerId, `mapSeq2Timer
    {
      (if keepLiveTimerId.Some? then [keepLiveTimerId.value] else []) + MapIds(mapSeq2Timer)
    }

    // ----- __onStop -----

    /** One killTimer call of the loop; `more` are still to come. */
    method KillOne(timerId: nat, ghost more: seq<nat>)
      requires InOrder() && Killable([timerId] + more, timers.View())
      modifies timers`freeDeque, timers`queueForDel, timers`killed, timers`slots, timers.group`status
      ensures InOrder() && Killable(more, timers.View())
      ensures timerId < |old(timers.View()).slots|
      ensures timers.View() == T.Killed(old(timers.View()), timerId)
    {
      hide T.Killed;
      ghost var was := timers.View();
      assert ([timerId] + more)[0] == timerId;
      KillableSubset(more, [timerId] + more, was);
      KillableAfterKill(more, was, timerId);
      timers.SlotsMatch();
      T.KillInv(was, timerId);
      timers.KillTimer(timerId);
    }

    method KillAllTimers()
      requires Valid()
      modifies this`keepLiveTimerId, this`mapSeq2Timer
      modifies timers`freeDeque, timers`queueForDel, timers`killed, timers`slots, timers.group`status
      ensures InOrder()
      ensures Killable(old(RecordedIds()), old(timers.View()))
      ensures timers.View() == KillAll(old(timers.View()), old(RecordedIds()))
      ensures keepLiveTimerId == None && mapSeq2Timer == map[]
    {
      hide *;
      KillKeepLive();
      KillMapped();
      mapSeq2Timer := map[];
    }

    lemma NoTimersKnown()
      requires InOrder() && keepLiveTimerId == None && mapSeq2Timer == map[]
      ensures Valid()
    {
      assert RecordedIds() == [];
    }

    method KillKeepLive()
      requires Valid()
      modifies this`keepLiveTimerId
      modifies timers`freeDeque, timers`queueForDel, timers`killed, timers`slots, timers.group`status
      ensures InOrder() && Killable(MapIds(mapSeq2Timer), timers.View())
      ensures Killable(old(RecordedIds()), old(timers.View())) && keepLiveTimerId == None
      ensures KillAll(timers.View(), MapIds(mapSeq2Timer)) == KillAll(old(timers.View()), old(RecordedIds()))
    {
      ghost var mapped := MapIds(mapSeq2Timer);
      if keepLiveTimerId.Some? {
        assert RecordedIds()[1..] == mapped;
        KillOne(keepLiveTimerId.value, mapped);
        keepLiveTimerId := None;
      } else {
        assert RecordedIds() == mapped;
      }
    }

    /** The loop over _mapSeq2Timer. */
    method KillMapped()
      requires InOrder() && Killable(MapIds(mapSeq2Timer), timers.View())
      modifies timers`freeDeque, timers`queueForDel, timers`killed, timers`slots, timers.group`status
      ensures InOrder()
      ensures timers.View() == KillAll(old(timers.View()), MapIds(mapSeq2Timer))
    {
      var rest := mapSeq2Timer;
      while rest != map[]
        invariant InOrder()
        invariant Killable(MapIds(rest), timers.View())
        invariant KillAll(timers.View(), MapIds(rest)) == KillAll(old(timers.View()), MapIds(mapSeq2Timer))
        decreases |rest|
      {
        ghost var least := MinKey(rest.Keys);
        var k :| k in rest && forall j | j in rest :: k <= j;
        MapIdsFirst(rest, k);
        KillOne(rest[k], MapIds(rest - {k}));
        rest := rest - {k};
      }
    }

    /** What the handler comes to from here on. */
    ghost function Fate(pc: Pc, now: T.Clock): (Session, World)
      reads this, timers, registry
    {
      Settle(self, View(pc), Around(), now)
    }

    /** __onStop, from its first statement. */
    method Stop(recycle: bool, ghost now: T.Clock)
      requires Valid() && OwnEntry()
      modifies this, registry
      modifies timers`freeDeque, timers`queueForDel, timers`killed, timers`slots, timers.group`status
      ensures Valid() && status == Over && lastUpdate == 0
      ensures Settle(self, Stopped(old(View(Idle)), recycle), old(Around()), now)
        == (View(if recycle then Recycling else Abandoned), Around())
    {
      hide Settle, Stopped, Valid;
      StopTimers(recycle, now);
      Leave(recycle, now);
    }

    /** The registry has no other session under this one's text. */
    ghost predicate OwnEntry()
      reads `sessionId, registry
    {
      sessionId != "" && sessionId in registry.entries ==> registry.entries[sessionId] == self
    }

    method StopTimers(recycle: bool, ghost now: T.Clock)
      requires Valid()
      modifies this`status, this`keepLiveTimerId, this`mapSeq2Timer
      modifies timers`freeDeque, timers`queueForDel, timers`killed, timers`slots, timers.group`status
      ensures Valid() && status == Over && keepLiveTimerId == None && mapSeq2Timer == map[]
      ensures Settle(self, Stopped(old(View(Idle)), recycle), old(Around()), now) == Fate(Leaving(recycle), now)
    {
      hide Settle, KillAll, Killable, MapIds, T.Inv, InOrder, Valid;
      ghost var t, w := Stopped(View(Idle), recycle), Around();
      assert t.pc == Stopping(RecordedIds(), recycle);
      SettleKilled(t, w, now);
      status := Over;
      KillAllTimers();
      NoTimersKnown();
    }

    lemma SettleKilled(t: Session, w: World, now: T.Clock)
      requires t.pc.Stopping?
      ensures Killable(t.pc.ids, w.timers) ==>
        Settle(self, t, w, now)
        == Settle(self, t.(pc := Leaving(t.pc.recycle)), w.(timers := KillAll(w.timers, t.pc.ids)), now)
    {
      if Killable(t.pc.ids, w.timers) {
        SettleStopping(self, t, w, now);
      }
    }

    method Leave(recycle: bool, ghost now: T.Clock)
      requires Valid() && OwnEntry() && status == Over && keepLiveTimerId == None && mapSeq2Timer == map[]
      modifies this`build, this`lastUpdate, this`sessionId, this`id, this`heartbeat, this`seqCounter, registry
      ensures Valid() && lastUpdate == 0
      ensures old(Fate(Leaving(recycle), now)) == (View(if recycle then Recycling else Abandoned), Around())
    {
      hide Settle, Valid, Killable, MapIds, KillAll;
      SettleLeaving(self, View(Leaving(recycle)), Around(), now);
      if sessionId != "" {
        var _ := registry.UnregisterTransaction(self, sessionId);
      }
      ClearFields();
    }

    method ClearFields()
      requires Valid()
      modifies this`build, this`lastUpdate, this`sessionId, this`id, this`heartbeat, this`seqCounter
      ensures Valid() && lastUpdate == 0
      ensures forall pc :: View(pc) == old(View(pc)).(build := 0, lastUpdate := 0, sid := "", account := 0,
                                                       heartbeat := false, seqCounter := 0)
    {
      hide Valid;
      build, lastUpdate, sessionId, id, heartbeat, seqCounter := 0, 0, "", 0, false, 0;
    }

    // ----- setTimer and what is done with its result -----

    /** setTimer for `use`: the world changes as the micro-steps say, and no known id becomes unknown. */
    method Arm(use: Use, now: T.Clock) returns (timerId: Option<nat>)
      requires Valid()
      modifies timers`freeDeque, timers`setting, timers`pending, timers`slots, timers`queueForAdd, timers.group
      ensures InOrder()
      ensures var s := old(timers.View());
        if s.free == [] then timerId == None && timers.View() == s else
          timerId == Some(s.free[0]) && s.free[0] < |s.slots|
          && var f := T.Filled(T.Allocated(s), s.free[0], interval, self, Tag(use), Times(use), now);
             timers.View() == T.Enqueued(f, f.Now(s.free[0]))
      ensures Killable(RecordedIds(), timers.View())
      ensures timerId.Some? ==> Killable([timerId.value], timers.View())
    {
      timerId := timers.SetTimer(interval, self, Tag(use), Times(use), now);
    }

    /** What setTimer allocates is not in use. */
    lemma FreeUnused(use: Use)
      requires Valid()
      ensures Armable(View(Arming(use, Allocating)), Around())
    {
      var s := timers.View();
      assert s.free != [] ==> s.free[0] in s.free;
    }

    method OnAttach(now: T.Clock) returns (ok: bool)
      requires Valid() && status == Free && Cleared(View(Idle))
      modifies this`status, this`keepLiveTimerId
      modifies timers`freeDeque, timers`setting, timers`pending, timers`slots, timers`queueForAdd, timers.group
      ensures Valid() && ok == (keepLiveTimerId != None)
      ensures Settle(self, Attached(old(View(Idle))), old(Around()), now)
        == (View(if ok then Idle else Stranded), Around())
    {
      hide Settle, T.Inv, InOrder, Killable;
      FreeUnused(Handshake);
      SettleArming(self, Attached(View(Idle)), Around(), now);
      status := Connected;
      keepLiveTimerId := Arm(Handshake, now);
      OneKnown();
      ok := keepLiveTimerId.Some?;
    }

    lemma OneKnown()
      requires InOrder() && mapSeq2Timer == map[]
      requires keepLiveTimerId.Some? ==> Killable([keepLiveTimerId.value], timers.View())
      ensures Valid()
    {
      assert RecordedIds() == if keepLiveTimerId.Some? then [keepLiveTimerId.value] else [];
    }

    method OnDetach()
      requires status == Over && Cleared(View(Idle))
      modifies this`status
      ensures View(Idle) == old(View(Idle)).(status := Free)
    {
      status := Free;
    }

    // ----- onMessage -----

    /** __onStart, in the state it expects. */
    method Greet(hello: Hello, now: T.Clock) returns (alive: bool)
      requires Valid() && OwnEntry() && status == Connected && keepLiveTimerId.Some?
      modifies this, registry
      modifies timers`freeDeque, timers`queueForDel, timers`killed, timers`setting, timers`pending
      modifies timers`slots, timers`queueForAdd, timers.group
      ensures Valid()
      ensures old(Fate(Greeting(hello), now)) == (View(if alive then Idle else Recycling), Around())
    {
      hide Settle, Valid, Welcomed, T.Killed;
      KnownArmable(hello);
      SettleGreeting(self, View(Greeting(hello)), Around(), now);
      ForgetKeepLive();
      alive := Welcome(hello, now);
    }

    /** __onStart behind its killTimer. */
    method Welcome(hello: Hello, now: T.Clock) returns (alive: bool)
      requires Valid() && OwnEntry() && status == Connected && keepLiveTimerId == None
      modifies this, registry
      modifies timers`freeDeque, timers`queueForDel, timers`killed, timers`setting, timers`pending
      modifies timers`slots, timers`queueForAdd, timers.group
      ensures Valid()
      ensures Settle(self, Welcomed(old(View(Greeting(hello))), hello), old(Around()), now)
        == (View(if alive then Idle else Recycling), Around())
    {
      hide Settle, Valid, Stopped;
      StoppedAnywhere(View(Idle), status, Greeting(hello), true);
      if hello.tooOld || hello.sid == "" || hello.account == 0 {
        Stop(true, now);
        alive := false;
      } else {
        sessionId := hello.sid;
        id := hello.account;
        alive := Register(hello, now);
      }
    }

    /** killTimer(_keepLiveTimerId); _keepLiveTimerId = 0. */
    method ForgetKeepLive()
      requires Valid() && keepLiveTimerId.Some?
      modifies this`keepLiveTimerId
      modifies timers`freeDeque, timers`queueForDel, timers`killed, timers`slots, timers.group`status
      ensures Valid() && keepLiveTimerId == None
      ensures old(keepLiveTimerId.value) < |old(timers.View()).slots|
      ensures timers.View() == T.Killed(old(timers.View()), old(keepLiveTimerId.value))
    {
      ghost var mapped := MapIds(mapSeq2Timer);
      assert RecordedIds() == [keepLiveTimerId.value] + mapped;
      KillOne(keepLiveTimerId.value, mapped);
      keepLiveTimerId := None;
      assert RecordedIds() == mapped;
    }

    lemma KnownArmable(hello: Hello)
      requires Valid() && keepLiveTimerId.Some?
      ensures Armable(View(Greeting(hello)), Around())
    {
      assert RecordedIds()[0] == keepLiveTimerId.value;
    }

    /** __onStart from registerTransaction on. */
    method Register(hello: Hello, now: T.Clock) returns (alive: bool)
      requires Valid() && status == Connected && keepLiveTimerId == None && sessionId != ""
      modifies this, registry
      modifies timers`freeDeque, timers`queueForDel, timers`killed, timers`setting, timers`pending
      modifies timers`slots, timers`queueForAdd, timers.group
      ensures Valid()
      ensures old(Fate(Registering(hello), now)) == (View(if alive then Idle else Recycling), Around())
    {
      hide Settle, Valid, Stopped;
      SettleRegistering(self, View(Registering(hello)), Around(), now);
      var ok := registry.RegisterTransaction(self, sessionId);
      if !ok {
        sessionId := "";
        id := 0;
        StoppedAnywhere(View(Idle), status, Registering(hello), true);
        Stop(true, now);
        return false;
      }
      status := Ready;
      lastUpdate := hello.lastUpdate;
      heartbeat := hello.sent;
      if hello.sent {
        alive := KeepAlive(now);
      } else {
        SettleIdle(self, View(Idle), Around(), now);
        alive := true;
      }
    }

    /** The keepalive timer of __onStart. */
    method KeepAlive(now: T.Clock) returns (alive: bool)
      requires Valid() && OwnEntry() && keepLiveTimerId == None
      modifies this, registry
      modifies timers`freeDeque, timers`queueForDel, timers`killed, timers`setting, timers`pending
      modifies timers`slots, timers`queueForAdd, timers.group
      ensures Valid()
      ensures old(Fate(Arming(KeepLive, Allocating), now)) == (View(if alive then Idle else Recycling), Around())
    {
      hide Settle, Stopped, T.Inv, InOrder, Killable;
      FreeUnused(KeepLive);
      SettleArming(self, View(Arming(KeepLive, Allocating)), Around(), now);
      var timerId := Arm(KeepLive, now);
      if timerId == None {
        StoppedAnywhere(View(Idle), status, Arming(KeepLive, Allocating), true);
        StillKnown();
        Stop(true, now);
        return false;
      }
      MoreKnown(timerId.value);
      keepLiveTimerId := timerId;
      alive := true;
    }

    lemma StillKnown()
      requires InOrder() && Killable(RecordedIds(), timers.View())
      ensures Valid()
    {
    }

    lemma MoreKnown(timerId: nat)
      requires keepLiveTimerId == None
      requires Killable([timerId], timers.View()) && Killable(RecordedIds(), timers.View())
      ensures Killable([timerId] + MapIds(mapSeq2Timer), timers.View())
    {
      assert [timerId][0] == timerId;
      assert RecordedIds() == MapIds(mapSeq2Timer);
    }

    /** __onPushMsg for a message that is waited for. */
    method Acknowledge(number: nat, ghost now: T.Clock)
      requires Valid() && number in mapSeq2Timer
      modifies this`mapSeq2Timer
      modifies timers`freeDeque, timers`queueForDel, timers`killed, timers`slots, timers.group`status
      ensures Valid()
      ensures old(Fate(Forgetting(number), now)) == (View(Idle), Around())
    {
      hide T.Inv, Killable, T.Killed, MapIds;
      ghost var before, was := RecordedIds(), timers.View();
      var timerId := mapSeq2Timer[number];
      assert timerId in mapSeq2Timer.Values;
      KnownKillable(timerId);
      SettleForgetting(self, View(Forgetting(number)), Around(), now);
      KillOne(timerId, []);
      mapSeq2Timer := mapSeq2Timer - {number};
      StillKillable(before, was, timerId);
    }

    lemma StillKillable(before: seq<nat>, was: T.State, timerId: nat)
      requires InOrder() && Killable(before, was) && timerId < |was.slots|
      requires timers.View() == T.Killed(was, timerId) && forall id | id in RecordedIds() :: id in before
      ensures Valid()
    {
      KillableAfterKill(before, was, timerId);
      KillableSubset(RecordedIds(), before, timers.View());
    }

    lemma KnownKillable(timerId: nat)
      requires Valid() && (keepLiveTimerId == Some(timerId) || timerId in mapSeq2Timer.Values)
      ensures Killable([timerId] + [], timers.View()) && T.Enabled(timers.View(), T.Kill(timerId))
    {
      assert timerId in RecordedIds();
      KillableSubset([timerId] + [], RecordedIds(), timers.View());
      assert ([timerId] + [])[0] == timerId;
    }

    lemma ReceptiveNow(msg: Msg)
      requires Valid() && (status == Connected || status == Ready)
      requires msg.HandShake? && status == Connected ==> keepLiveTimerId.Some?
      ensures Receptive(View(Idle), Around(), msg)
    {
      var s := timers.View();
      assert s.free != [] ==> s.free[0] in s.free;
      assert KnownIds(View(Idle)) == RecordedIds();
    }

    /** onMessage; false means that the session is over and its node is to be recycled. */
    method OnMessage(msg: Msg, now: T.Clock) returns (alive: bool)
      requires Valid() && OwnEntry() && (status == Connected || status == Ready)
      requires msg.HandShake? && status == Connected ==> keepLiveTimerId.Some?
      requires msg.PushAck? ==> msg.number != 0
      modifies this, registry
      modifies timers`freeDeque, timers`queueForDel, timers`killed, timers`setting, timers`pending
      modifies timers`slots, timers`queueForAdd, timers.group
      ensures Valid()
      ensures Settle(self, Handled(old(View(Idle)), msg), old(Around()), now)
        == (View(if alive then Idle else Recycling), Around())
      ensures !alive <==>
        old(Fatal(View(Idle), msg)
            || (msg.HandShake? && status == Connected && Rejected(View(Idle), Around(), msg.hello)))
    {
      hide Settle, Stopped, Valid;
      ReceptiveNow(msg);
      MessageOutcome(self, View(Idle), Around(), msg, now);
      SettleIdle(self, Handled(View(Idle), msg), Around(), now);
      alive := true;
      match msg {
        case HandShake(hello) =>
          if status != Connected {
            Stop(true, now);
            return false;
          }
          alive := Greet(hello, now);
        case HeartBeatAck =>
          if status != Ready {
            Stop(true, now);
            return false;
          }
          heartbeat := true;
        case SendMsg =>
          if status != Ready {
            Stop(true, now);
            return false;
          }
        case PushAck(number) =>
          if status != Ready {
            Stop(true, now);
            return false;
          }
          if number in mapSeq2Timer {
            Acknowledge(number, now);
          }
        case OnTimer(timerId, parameter) =>
          alive := HandleTimer(timerId, parameter, now);
        case OnOver =>
          Stop(true, now);
          return false;
        case Unknown =>
          Stop(true, now);
          return false;
      }
    }

    /** __onTimer. */
    method HandleTimer(timerId: nat, parameter: nat, ghost now: T.Clock) returns (alive: bool)
      requires Valid() && OwnEntry() && (status == Connected || status == Ready)
      modifies this, registry
      modifies timers`freeDeque, timers`queueForDel, timers`killed, timers`slots, timers.group`status
      ensures Valid()
      ensures Settle(self, Handled(old(View(Idle)), OnTimer(timerId, parameter)), old(Around()), now)
        == (View(if alive then Idle else Recycling), Around())
    {
      hide Settle, Stopped, Valid;
      SettleIdle(self, Handled(View(Idle), OnTimer(timerId, parameter)), Around(), now);
      alive := true;
      if keepLiveTimerId == Some(timerId) {
        if Code(status) != parameter {
          return true;
        }
        if status == Connected || !heartbeat {
          Stop(true, now);
          return false;
        }
        heartbeat := false;
        SettleIdle(self, View(Idle), Around(), now);
      } else {
        if status != Ready {
          return true;
        }
        if parameter in mapSeq2Timer {
          Stop(true, now);
          return false;
        }
      }
    }

    /** handlePushMessage. */
    method HandlePushMessage(timestamp: nat, sent: bool, now: T.Clock) returns (ok: bool)
      requires Valid() && OwnEntry() && status == Ready
      requires seqCounter < WRAP
      modifies this, registry
      modifies timers`freeDeque, timers`queueForDel, timers`killed, timers`setting, timers`pending
      modifies timers`slots, timers`queueForAdd, timers.group
      ensures Valid()
      ensures Settle(self, Pushed(old(View(Idle)), timestamp, sent), old(Around()), now)
        == (View(if sent && !ok then Abandoned else Idle), Around())
      ensures ok <==> sent && old(timers.View()).free != []
      ensures ok || !sent ==> status == Ready && OwnEntry() && seqCounter < WRAP
      ensures lastUpdate == if ok then timestamp else if sent then 0 else old(lastUpdate)
      ensures sent && !ok ==> status == Over
    {
      hide Settle, Stopped, T.Inv, InOrder, Killable, Valid;
      SettleIdle(self, Pushed(View(Idle), timestamp, sent), Around(), now);
      seqCounter := NextSeq(seqCounter);
      if !sent {
        return false;
      }
      ok := AwaitAck(seqCounter, timestamp, now);
    }

    /** The ack timer of __send, and what handlePushMessage does after it. */
    method AwaitAck(number: nat, timestamp: nat, now: T.Clock) returns (ok: bool)
      requires Valid() && OwnEntry()
      modifies this, registry
      modifies timers`freeDeque, timers`queueForDel, timers`killed, timers`setting, timers`pending
      modifies timers`slots, timers`queueForAdd, timers.group
      ensures Valid()
      ensures old(Fate(Arming(Ack(number, timestamp), Allocating), now))
        == (View(if ok then Idle else Abandoned), Around())
      ensures ok <==> old(timers.View()).free != []
      ensures ok ==>
        && status == old(status) && sessionId == old(sessionId) && seqCounter == old(seqCounter)
        && registry.entries == old(registry.entries) && lastUpdate == timestamp
      ensures !ok ==> status == Over && lastUpdate == 0
    {
      hide Settle, Stopped, T.Inv, InOrder, Killable;
      ghost var pc := Arming(Ack(number, timestamp), Allocating);
      FreeUnused(Ack(number, timestamp));
      SettleArming(self, View(pc), Around(), now);
      var timerId := Arm(Ack(number, timestamp), now);
      if timerId == None {
        StoppedAnywhere(View(Idle), status, pc, false);
        StillKnown();
        Stop(false, now);
        return false;
      }
      RecordAck(number, timestamp, timerId.value);
      ok := true;
    }

    method RecordAck(number: nat, timestamp: nat, timerId: nat)
      requires InOrder() && Killable([timerId], timers.View()) && Killable(RecordedIds(), timers.View())
      modifies this`mapSeq2Timer, this`lastUpdate
      ensures Valid() && mapSeq2Timer == old(mapSeq2Timer)[number := timerId] && lastUpdate == timestamp
    {
      ghost var before := RecordedIds();
      mapSeq2Timer := mapSeq2Timer[number := timerId];
      lastUpdate := timestamp;
      AckKnown(timerId, before);
    }

    lemma AckKnown(timerId: nat, before: seq<nat>)
      requires InOrder() && Killable([timerId], timers.View()) && Killable(before, timers.View())
      requires forall id | id in RecordedIds() :: id == timerId || id in before
      ensures Valid()
    {
      assert Killable([timerId] + before, timers.View());
      KillableSubset(RecordedIds(), [timerId] + before, timers.View());
    }
  }
}
