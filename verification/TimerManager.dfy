/** src/common/CTimerManager.cpp in place: timer objects linked by previous/next pointers, refined to
    the machine of TimerSpec. Each method is one lock-protected piece of the code (or, for FillTimer,
    the unlocked piece between two of them) and equals one step of the machine. */
module TimerManagers {
  import opened Prelude
  import opened RoundRobin
  import opened TimerSpec

  class Timer {
    const id: nat
    var period: nat
    var parameterI: nat
    var parameterII: nat
    var times: nat
    var base: Clock
    var previous: Timer?
    var next: Timer?
    var status: Status

    constructor (id: nat)
      ensures this.id == id && previous == null && next == null
      ensures Holds(Slot(0, 0, 0, 0, Clock(0, 0), Nothing, 0))
    {
      this.id := id;
      period, parameterI, parameterII, times, base := 0, 0, 0, 0, Clock(0, 0);
      previous, next, status := null, null, Nothing;
    }

    ghost predicate Holds(slot: Slot)
      reads `period, `parameterI, `parameterII, `times, `base, `status
    {
      slot == Slot(period, parameterI, parameterII, times, base, status, slot.gen)
    }
  }

  ghost function Ids(timers: seq<Timer>): (ids: seq<nat>) {
    seq(|timers|, k requires 0 <= k < |timers| => timers[k].id)
  }

  class TimerManager {
    const unitGroup: seq<Timer>     // all timers of the pool
    ghost const group: set<Timer>   // the same, as a set
    var freeDeque: seq<Timer>
    var timerList: Timer?
    var lastTimer: Timer?
    var curTimer: Timer?
    var queueForAdd: seq<Timer>
    var queueForDel: seq<Timer>

    ghost var slots: seq<Slot>      // the timers' fields, with the incarnation of each
    ghost var list: seq<nat>
    ghost var setting: set<nat>
    ghost var pending: set<Ticket>
    ghost var killed: seq<Ticket>   // queueForDel, with the incarnation that was killed
    ghost var phase: Phase
    ghost var fires: seq<Fire>

    ghost predicate Ours(timers: seq<Timer>) {
      forall k | 0 <= k < |timers| :: OursOne(timers[k])
    }

    ghost predicate OursOne(t: Timer) {
      t.id < |unitGroup| && unitGroup[t.id] == t
    }

    ghost function At(list: seq<nat>, k: int): Timer? {
      if 0 <= k < |list| && list[k] < |unitGroup| then unitGroup[list[k]] else null
    }

    /** Timers are where their ids say; so all of them are different objects. */
    ghost predicate Pooled() {
      forall id | 0 <= id < |unitGroup| :: unitGroup[id].id == id && unitGroup[id] in group
    }

    /** The k-th timer of the list points to its neighbours. */
    ghost predicate LinkedAt(list: seq<nat>, k: nat)
      requires k < |list|
      reads group`previous, group`next
    {
      && list[k] < |unitGroup|
      && var t := unitGroup[list[k]];
         t in group && t.previous == At(list, k - 1) && t.next == At(list, k + 1)
    }

    /** The pointers agree with the ghost list. */
    ghost predicate Linked()
      reads `timerList, `lastTimer, `list, group`previous, group`next
    {
      && timerList == At(list, 0) && lastTimer == At(list, |list| - 1)
      && (forall k: nat | k < |list| :: LinkedAt(list, k))
      && NoDup(list)
    }

    ghost predicate Tagged()
      reads `killed, `queueForDel
    {
      |killed| == |queueForDel| && forall k | 0 <= k < |killed| :: killed[k].id == queueForDel[k].id
    }

    ghost predicate Mirrored()
      requires Pooled()
      reads `slots, group`period, group`parameterI, group`parameterII, group`times,
            group`base, group`status
    {
      |slots| == |unitGroup| && forall id | 0 <= id < |slots| :: unitGroup[id].Holds(slots[id])
    }

    /** The timers of the list are not waiting to be added. */
    ghost predicate ListedOnly()
      reads `slots, `list
    {
      forall k | 0 <= k < |list| :: list[k] < |slots| && slots[list[k]].status != ToBeAdd
    }

    /** _addTimer relies on this: what setTimer has filled is not linked to anything. */
    ghost predicate Detached()
      requires Pooled()
      reads `slots, group`previous, group`next
    {
      |slots| == |unitGroup| && forall id | 0 <= id < |slots| && slots[id].status == ToBeAdd ::
        unitGroup[id].previous == null && unitGroup[id].next == null
    }

    ghost predicate Queued()
      reads `freeDeque, `queueForAdd, `queueForDel, `curTimer, `killed
    {
      && Ours(freeDeque) && Ours(queueForAdd) && Ours(queueForDel)
      && (curTimer != null ==> OursOne(curTimer))
      && Tagged()
    }

    ghost predicate Valid()
      reads `freeDeque, `timerList, `lastTimer, `curTimer, `queueForAdd, `queueForDel, `slots, `list, `killed,
            group
    {
      Pooled() && Queued() && Linked() && Mirrored() && Detached()
    }

    /** The state of the machine this object stands for. */
    ghost function View(): State
      reads this
    {
      State(slots, Ids(freeDeque), setting, pending, Ids(queueForAdd), killed, list,
            if curTimer == null then None else Some(curTimer.id), phase, fires)
    }

    constructor (maxTimerNum: nat)
      requires 1 < maxTimerNum
      ensures Valid() && Initial(View()) && |unitGroup| == maxTimerNum
      ensures fresh(group)
    {
      var units: seq<Timer> := [];
      while |units| < maxTimerNum
        invariant |units| <= maxTimerNum
        invariant forall k | 0 <= k < |units| :: fresh(units[k]) && units[k].id == k
        invariant forall k | 0 <= k < |units| :: units[k].Holds(Slot(0, 0, 0, 0, Clock(0, 0), Nothing, 0))
      {
        var unit := new Timer(|units|);
        units := units + [unit];
      }
      unitGroup, group := units, set t | t in units;
      freeDeque, queueForAdd, queueForDel := units, [], [];
      timerList, lastTimer, curTimer := null, null, null;
      slots := seq(|units|, _ => Slot(0, 0, 0, 0, Clock(0, 0), Nothing, 0));
      list, setting, pending, killed, phase, fires := [], {}, {}, [], BeforeDrain, [];
    }

    lemma SlotsMatch()
      requires Valid()
      ensures |slots| == |unitGroup|
    {
    }

    // ----- setTimer -----

    /** _timerRes.allocate(). */
    method AllocateTimer() returns (timer: Timer?)
      requires Valid() && Sound(View())
      modifies this`freeDeque, this`setting
      ensures Valid()
      ensures timer == null <==> old(freeDeque) == []
      ensures timer == null ==> View() == old(View())
      ensures timer != null ==> OursOne(timer) && timer.id == old(View()).free[0]
      ensures timer != null ==> View() == Allocated(old(View()))
    {
      if freeDeque == [] {
        return null;
      }
      timer := PopFree();
      setting := setting + {timer.id};
    }

    method PopFree() returns (timer: Timer)
      requires Valid() && Sound(View()) && freeDeque != []
      modifies this`freeDeque
      ensures Valid() && freeDeque == old(freeDeque)[1..] && Ids(freeDeque) == old(Ids(freeDeque))[1..]
      ensures OursOne(timer) && timer.id == old(Ids(freeDeque))[0]
    {
      timer := freeDeque[0];
      assert timer.Holds(slots[timer.id]);
      assert Unused(timer.status) by {
        assert View().free[0] == timer.id;
        assert Unused(slots[timer.id].status);
      }
      freeDeque := freeDeque[1..];
    }

    /** The assignments between the two critical sections. */
    method FillTimer(timer: Timer, period: nat, parameterI: nat, parameterII: nat, times: nat, now: Clock)
      requires Valid() && OursOne(timer) && timer.id !in list
      modifies this`setting, this`pending, this`slots, timer
      ensures Valid()
      ensures View() == Filled(old(View()), timer.id, period, parameterI, parameterII, times, now)
    {
      hide Linked, Detached;
      ResetLinks(timer);
      ghost var gen := slots[timer.id].gen + 1;
      SetFields(timer, period, parameterI, parameterII, times, now, gen);
      setting := setting - {timer.id};
      pending := pending + {Ticket(timer.id, gen)};
    }

    method ResetLinks(timer: Timer)
      requires Pooled() && Linked() && Detached() && OursOne(timer) && timer.id !in list
      modifies timer`previous, timer`next
      ensures Linked() && Detached() && timer.previous == null && timer.next == null
    {
      timer.previous := null;
      timer.next := null;
      forall j: nat | j < |list|
        ensures LinkedAt(list, j)
      {
        assert old(LinkedAt(list, j));
      }
    }

    method SetFields(timer: Timer, period: nat, parameterI: nat, parameterII: nat, times: nat, now: Clock,
                     ghost gen: nat)
      requires Pooled() && Mirrored() && Detached() && OursOne(timer)
      requires timer.previous == null && timer.next == null
      modifies this`slots, timer`period, timer`parameterI, timer`parameterII, timer`times, timer`base, timer`status
      ensures Mirrored() && Detached()
      ensures slots == old(slots)[timer.id := Slot(period, parameterI, parameterII, times, now, ToBeAdd, gen)]
    {
      timer.period := period;
      timer.parameterI := parameterI;
      timer.parameterII := parameterII;
      timer.times := times;
      timer.base := now;
      timer.status := ToBeAdd;
      slots := slots[timer.id := Slot(period, parameterI, parameterII, times, now, ToBeAdd, gen)];
    }

    /** _queueForAdd.push(timer). */
    method EnqueueTimer(timer: Timer, ghost gen: nat)
      requires Valid() && OursOne(timer)
      modifies this`queueForAdd, this`pending
      ensures Valid()
      ensures View() == Enqueued(old(View()), Ticket(timer.id, gen))
    {
      queueForAdd := queueForAdd + [timer];
      pending := pending - {Ticket(timer.id, gen)};
      assert Ids(queueForAdd) == old(Ids(queueForAdd)) + [timer.id];
    }

    /** setTimer, when no other thread comes between its parts: the id, None for the code's 0. */
    method SetTimer(period: nat, parameterI: nat, parameterII: nat, times: nat, now: Clock) returns (id: Option<nat>)
      requires Valid() && Inv(View())
      modifies this`freeDeque, this`setting, this`pending, this`slots, this`queueForAdd, group
      ensures Valid() && Inv(View())
      ensures var s := old(View()); if s.free == [] then id == None && View() == s else
        var a := Allocated(s);
        && id == Some(s.free[0]) && s.free[0] < |s.slots|
        && var f := Filled(a, s.free[0], period, parameterI, parameterII, times, now);
           View() == Enqueued(f, f.Now(s.free[0]))
    {
      assert Sound(View());
      var timer := AllocateTimer();
      if timer == null {
        return None;
      }
      ghost var a := View();
      AllocateInv(old(View()));
      assert timer.id in setting && timer.id !in list;
      FillTimer(timer, period, parameterI, parameterII, times, now);
      FillInv(a, timer.id, period, parameterI, parameterII, times, now);
      ghost var t := View().Now(timer.id);
      EnqueueInv(View(), t);
      EnqueueTimer(timer, t.gen);
      id := Some(timer.id);
    }

    // ----- killTimer -----

    /** CResource::reclaim: look the unit up in the group, then push it to the pool. */
    method Reclaim(timer: Timer) returns (ok: bool)
      modifies this`freeDeque
      ensures ok <==> timer in unitGroup
      ensures OursOne(timer) ==> ok
      ensures freeDeque == if ok then old(freeDeque) + [timer] else old(freeDeque)
      ensures ok ==> Ids(freeDeque) == old(Ids(freeDeque)) + [timer.id]
    {
      var ui := 0;
      while ui < |unitGroup| && timer != unitGroup[ui]
        invariant 0 <= ui <= |unitGroup|
        invariant forall k | 0 <= k < ui :: unitGroup[k] != timer
      {
        ui := ui + 1;
      }
      ok := ui != |unitGroup|;
      if ok {
        freeDeque := freeDeque + [timer];
      }
    }

    /** timer->status = status. */
    method SetStatus(timer: Timer, status: Status)
      requires Pooled() && Mirrored() && Detached() && OursOne(timer) && status != ToBeAdd
      modifies this`slots, timer`status
      ensures Mirrored() && Detached()
      ensures slots == old(slots)[timer.id := old(slots)[timer.id].(status := status)]
    {
      timer.status := status;
      slots := slots[timer.id := slots[timer.id].(status := status)];
    }

    /** The timer is deleted and goes back to the pool. */
    method Retire(timer: Timer)
      requires Valid() && OursOne(timer)
      modifies this`freeDeque, this`slots, timer`status
      ensures Valid()
      ensures View() == WithStatus(old(View()), timer.id, Deleted).(free := old(View()).free + [timer.id])
    {
      hide Linked;
      SetStatus(timer, Deleted);
      var ok := Reclaim(timer);
    }

    method PutOnDelQueue(timer: Timer)
      requires Valid() && OursOne(timer)
      modifies this`queueForDel, this`killed, this`slots, timer`status
      ensures Valid()
      ensures View() == WithStatus(old(View()), timer.id, ToBeDel).(
        delQueue := old(killed) + [Ticket(timer.id, old(slots)[timer.id].gen)])
    {
      hide Linked;
      SetStatus(timer, ToBeDel);
      queueForDel := queueForDel + [timer];
      killed := killed + [Ticket(timer.id, slots[timer.id].gen)];
    }

    method KillTimer(timerId: nat)
      requires Valid() && timerId < |unitGroup|
      modifies this`freeDeque, this`queueForDel, this`killed, this`slots, group`status
      ensures Valid()
      ensures View() == Killed(old(View()), timerId)
    {
      var timer := unitGroup[timerId];
      if timer.status == ToBeAdd {
        Retire(timer);
      } else if timer.status == Added {
        PutOnDelQueue(timer);
      }
    }

    // ----- the worker -----

    /** _addTimer: link the timer behind the last one. */
    method AddTimer(timer: Timer)
      requires Valid() && OursOne(timer) && timer.id !in list && timer.status == ToBeAdd
      requires ListedOnly()
      modifies this`timerList, this`lastTimer, this`list, this`slots
      modifies group`previous, group`next, group`status
      ensures Valid()
      ensures View() == WithStatus(old(View()), timer.id, Added).(list := old(list) + [timer.id])
    {
      SetStatus(timer, Added);
      assert ListedOnly();
      if timerList == null {
        AppendFirst(timer);
      } else {
        AppendLast(timer);
      }
    }

    method AppendFirst(timer: Timer)
      requires Pooled() && Linked() && OursOne(timer) && timerList == null
      requires timer.previous == null && timer.next == null
      modifies this`timerList, this`lastTimer, this`list
      ensures Linked() && list == old(list) + [timer.id]
    {
      assert list != [] ==> LinkedAt(list, 0);
      assert list == [];
      assert lastTimer == null;
      lastTimer, timerList := timer, timer;
      list := list + [timer.id];
    }

    method AppendLast(timer: Timer)
      requires Pooled() && Linked() && Detached() && OursOne(timer) && timer.id !in list && timerList != null
      requires ListedOnly()
      requires timer.previous == null && timer.next == null && slots[timer.id].status != ToBeAdd
      modifies this`lastTimer, this`list, group`previous, group`next
      ensures Linked() && Detached() && list == old(list) + [timer.id]
    {
      ghost var n := |list|;
      assert LinkedAt(list, n - 1);
      timer.previous := lastTimer;
      lastTimer.next := timer;
      lastTimer := timer;
      list := list + [timer.id];
      forall j: nat | j < |list|
        ensures LinkedAt(list, j)
      {
        assert j < n ==> old(LinkedAt(list, j));
      }
    }

    /** _delTimer: unlink the timer and give it back to the pool. */
    method DelTimer(timer: Timer)
      requires Valid() && OursOne(timer) && timer.id in list
      requires ListedOnly()
      modifies this`timerList, this`lastTimer, this`list, this`freeDeque, this`slots
      modifies group`previous, group`next, group`status
      ensures Valid()
      ensures View() == Unlinked(old(View()), timer.id)
    {
      Unlink(timer);
      Retire(timer);
    }

    method Unlink(timer: Timer)
      requires Valid() && OursOne(timer) && timer.id in list && ListedOnly()
      modifies this`timerList, this`lastTimer, this`list, group`previous, group`next
      ensures Valid() && list == Without(old(list), timer.id)
    {
      ghost var k := IndexOf(list, timer.id);
      assert LinkedAt(list, k);
      assert k > 0 ==> LinkedAt(list, k - 1);
      assert k + 1 < |list| ==> LinkedAt(list, k + 1);
      if timer.previous == null {
        UnlinkFirst(timer);
      } else if timer.next == null {
        UnlinkLast(timer, k);
      } else {
        UnlinkMiddle(timer, k);
      }
    }

    method UnlinkFirst(timer: Timer)
      requires Pooled() && Linked() && Detached() && OursOne(timer) && list != [] && list[0] == timer.id
      requires ListedOnly()
      modifies this`timerList, this`lastTimer, this`list, group`previous
      ensures Linked() && Detached() && list == Without(old(list), timer.id)
    {
      assert LinkedAt(list, 0);
      assert timer == timerList;
      if timer.next == null {
        assert timer == lastTimer;
        lastTimer, timerList := null, null;
      } else {
        assert LinkedAt(list, 1);
        timerList := timer.next;
        timerList.previous := null;
      }
      list := list[1..];
      forall j: nat | j < |list|
        ensures LinkedAt(list, j)
      {
        assert old(LinkedAt(list, j + 1));
      }
    }

    method UnlinkLast(timer: Timer, ghost k: nat)
      requires Pooled() && Linked() && Detached() && ListedOnly() && OursOne(timer)
      requires 0 < k == |list| - 1 && list[k] == timer.id
      modifies this`lastTimer, this`list, group`next
      ensures Linked() && Detached() && list == old(list)[..k]
    {
      assert LinkedAt(list, k) && LinkedAt(list, k - 1);
      assert timer == lastTimer;
      lastTimer := timer.previous;
      lastTimer.next := null;
      list := list[..k];
      forall j: nat | j < |list|
        ensures LinkedAt(list, j)
      {
        assert old(LinkedAt(list, j));
      }
    }

    method UnlinkMiddle(timer: Timer, ghost k: nat)
      requires Pooled() && Linked() && Detached() && ListedOnly() && OursOne(timer)
      requires 0 < k < |list| - 1 && list[k] == timer.id
      modifies this`list, group`previous, group`next
      ensures Linked() && Detached() && list == old(list)[..k] + old(list)[k + 1..]
    {
      ghost var was := list;
      assert LinkedAt(was, k) && LinkedAt(was, k - 1) && LinkedAt(was, k + 1);
      timer.previous.next := timer.next;
      timer.next.previous := timer.previous;
      list := list[..k] + list[k + 1..];
      forall j: nat | j < |list|
        ensures LinkedAt(list, j)
      {
        var i := if j < k then j else j + 1;
        assert list[j] == was[i];
        assert old(LinkedAt(was, i));
      }
    }

    // ----- working() -----

    /** The first loop of the drain phase. */
    method AddQueued()
      requires Valid() && Sound(View())
      modifies this`queueForAdd, this`timerList, this`lastTimer, this`list, this`slots
      modifies group`previous, group`next, group`status
      ensures Valid()
      ensures View() == AddAll(old(View()))
    {
      while queueForAdd != []
        invariant Valid() && Sound(View())
        invariant AddAll(View()) == AddAll(old(View()))
        decreases |queueForAdd|
      {
        AddFrontSound(View());
        AddOne();
      }
    }

    method AddOne()
      requires Valid() && Sound(View()) && queueForAdd != []
      modifies this`queueForAdd, this`timerList, this`lastTimer, this`list, this`slots
      modifies group`previous, group`next, group`status
      ensures Valid()
      ensures |queueForAdd| < |old(queueForAdd)|
      ensures View() == AddFront(old(View()))
    {
      var timer := queueForAdd[0];
      ListedAreListed();
      PopAdd();
      if timer.status == ToBeAdd {
        AddTimer(timer);
      }
    }

    method PopAdd()
      requires Valid() && queueForAdd != []
      modifies this`queueForAdd
      ensures Valid() && queueForAdd == old(queueForAdd)[1..] && Ids(queueForAdd) == old(Ids(queueForAdd))[1..]
      ensures var timer := old(queueForAdd)[0];
        OursOne(timer) && timer.id == old(Ids(queueForAdd))[0] && timer.Holds(slots[timer.id])
    {
      var timer := queueForAdd[0];
      assert timer.Holds(slots[timer.id]);
      queueForAdd := queueForAdd[1..];
    }

    lemma ListedAreListed()
      requires Sound(View())
      ensures ListedOnly()
      ensures forall id | id in list :: id < |slots| && Listed(slots[id].status)
      ensures curTimer != null ==> curTimer.id in list
    {
      forall k | 0 <= k < |list|
        ensures list[k] < |slots| && slots[list[k]].status != ToBeAdd
      {
        assert list[k] in list;
      }
    }

    /** The second loop of the drain phase. */
    method DelQueued()
      requires Valid() && Sound(View())
      modifies this`queueForDel, this`killed, this`curTimer, this`timerList, this`lastTimer, this`list
      modifies this`slots, this`freeDeque, group`previous, group`next, group`status
      ensures Valid() && DelAllReady(old(View()))
      ensures View() == DelAll(old(View()))
    {
      DelAllSound(View());
      while queueForDel != []
        invariant Valid() && Sound(View())
        invariant DelAllReady(View()) && DelAll(View()) == DelAll(old(View()))
        decreases |queueForDel|
      {
        DelFrontSound(View());
        DelOne();
      }
    }

    method DelOne()
      requires Valid() && Sound(View()) && queueForDel != [] && DelFrontReady(View())
      modifies this`queueForDel, this`killed, this`curTimer, this`timerList, this`lastTimer, this`list
      modifies this`slots, this`freeDeque, group`previous, group`next, group`status
      ensures Valid()
      ensures |queueForDel| < |old(queueForDel)|
      ensures View() == DelFront(old(View()))
    {
      var timer := queueForDel[0];
      ListedAreListed();
      PopDel();
      if timer.status == ToBeDel {
        if timer == curTimer {
          StepOver();
        }
        DelTimer(timer);
      }
    }

    method PopDel()
      requires Valid() && queueForDel != []
      modifies this`queueForDel, this`killed
      ensures Valid() && queueForDel == old(queueForDel)[1..] && killed == old(killed)[1..]
      ensures var timer := old(queueForDel)[0];
        OursOne(timer) && timer.id == old(killed)[0].id && timer.Holds(slots[timer.id])
    {
      var timer := queueForDel[0];
      assert timer.id == killed[0].id && timer.Holds(slots[timer.id]);
      queueForDel := queueForDel[1..];
      killed := killed[1..];
    }

    /** _curTimer = _curTimer->next. */
    method StepOver()
      requires Valid() && curTimer != null && curTimer.id in list
      modifies this`curTimer
      ensures Valid()
      ensures View() == old(View()).(cur := NextOf(list, old(curTimer.id)))
    {
      ghost var k := IndexOf(list, curTimer.id);
      assert LinkedAt(list, k);
      assert k + 1 < |list| ==> LinkedAt(list, k + 1);
      curTimer := curTimer.next;
    }

    /** The drain phase of working(), one critical section. */
    method DrainQueues()
      requires Valid() && Sound(View())
      modifies this`queueForAdd, this`queueForDel, this`killed, this`curTimer, this`timerList, this`lastTimer
      modifies this`list, this`slots, this`freeDeque, this`phase, group`previous, group`next, group`status
      ensures Valid() && DelReady(old(View()))
      ensures View() == Drained(old(View()))
    {
      hide Valid, Sound, AddAll, DelAll, DelAllReady;
      AddAllSound(View());
      AddQueued();
      DelQueued();
      phase := BeforeVisit;
    }

    /** The due timer's callback has returned `again`: `last` says that the timer is to be deleted. */
    method FireCurrent(now: Clock, again: bool) returns (last: bool)
      requires Valid() && curTimer != null && slots[curTimer.id].status != ToBeAdd
      modifies this`slots, this`fires, curTimer`base, curTimer`times
      ensures Valid()
      ensures var id := curTimer.id; var t := old(slots)[id];
        && last == LastFire(t, again)
        && fires == old(fires) + [Fire(Ticket(id, t.gen), now)]
        && slots == if again then old(slots)[id := Ticked(t, now)] else old(slots)
    {
      hide Linked;
      ghost var slot := slots[curTimer.id];
      assert curTimer.Holds(slot);
      fires := fires + [Fire(Ticket(curTimer.id, slot.gen), now)];
      last := !again;
      if again {
        curTimer.base := now;
        if 0 != curTimer.times {
          curTimer.times := curTimer.times - 1;
          last := 0 == curTimer.times;
        }
        slots := slots[curTimer.id := Ticked(slot, now)];
      }
    }

    /** The visit phase of working(): `again` is what the callback returns if it is called. */
    method VisitCurrent(now: Clock, again: bool)
      requires Valid() && Sound(View()) && phase == BeforeVisit
      modifies this`curTimer, this`timerList, this`lastTimer, this`list, this`slots, this`freeDeque
      modifies this`phase, this`fires, group`previous, group`next, group`status, group`base, group`times
      ensures Valid() && VisitReady(old(View()))
      ensures View() == Visited(old(View()), now, again)
    {
      hide Linked, Mirrored, Detached, Placed, AddsKnown, DelsKnown;
      ListedAreListed();
      phase := BeforeDrain;
      if curTimer == null {
        StartLap();
      }
      if curTimer != null {
        VisitListed(now, again);
      }
    }

    /** _curTimer = _timerList. */
    method StartLap()
      requires Valid() && curTimer == null
      modifies this`curTimer
      ensures Valid() && (curTimer == null <==> list == [])
      ensures curTimer != null ==> curTimer.id == list[0]
    {
      assert list != [] ==> LinkedAt(list, 0);
      curTimer := timerList;
    }

    method VisitListed(now: Clock, again: bool)
      requires Valid() && ListedOnly() && curTimer != null && curTimer.id in list && phase == BeforeDrain
      modifies this`curTimer, this`timerList, this`lastTimer, this`list, this`slots, this`freeDeque
      modifies this`fires, group`previous, group`next, group`status, group`base, group`times
      ensures Valid() && VisitReady(old(View())) && old(list) != []
      ensures View() == Visited(old(View()), now, again)
    {
      assert curTimer.Holds(slots[curTimer.id]);
      if IsDue(now) {
        VisitDue(now, again);
      } else {
        StepOver();
      }
    }

    method VisitDue(now: Clock, again: bool)
      requires Valid() && ListedOnly() && curTimer != null && curTimer.id in list && phase == BeforeDrain
      requires Expired(slots[curTimer.id], now)
      modifies this`curTimer, this`timerList, this`lastTimer, this`list, this`slots, this`freeDeque
      modifies this`fires, group`previous, group`next, group`status, group`base, group`times
      ensures Valid() && VisitReady(old(View()))
      ensures View() == if LastFire(old(slots)[old(curTimer.id)], again)
                        then Unlinked(AfterFire(old(View()), now, again), old(curTimer.id))
                        else AfterFire(old(View()), now, again)
    {
      var timer := curTimer;
      var last := FireCurrent(now, again);
      StepOver();
      assert View() == AfterFire(old(View()), now, again);
      if last {
        DelTimer(timer);
      }
    }

    predicate IsDue(now: Clock)
      requires curTimer != null
      reads `curTimer, curTimer
    {
      curTimer.period + curTimer.base.s < now.s
      || (curTimer.period + curTimer.base.s == now.s && curTimer.base.us <= now.us)
    }
  }
}
