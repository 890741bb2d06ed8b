/** The timer manager of src/common/CTimerManager.cpp and its slot pool of src/common/CResource.h, as
    a state machine over values. Every lock-protected piece of the code is one step, so that the
    unlocked middle of setTimer interleaves with the steps of every other thread.

    A timer id is the index of its slot in the pool (the slot's address in the code). Slots are
    reused: `gen` counts the incarnations of a slot and a Ticket names one incarnation. */
module TimerSpec {
  import opened Prelude
  import opened RoundRobin

  datatype Status = Nothing | ToBeAdd | Added | ToBeDel | Deleted

  /** Seconds and microseconds of gettimeofday. */
  datatype Clock = Clock(s: int, us: int)

  /** `owner` and `tag` are parameterI and parameterII; times == 0 means without end. */
  datatype Slot = Slot(period: nat, owner: nat, tag: nat, times: nat, base: Clock, status: Status, gen: nat)

  datatype Ticket = Ticket(id: nat, gen: nat)

  /** One call of __onTimer. */
  datatype Fire = Fire(timer: Ticket, at: Clock)

  /** Where the worker thread is: before the drain phase or before the visit phase of working(). */
  datatype Phase = BeforeDrain | BeforeVisit

  datatype State = State(
    slots: seq<Slot>,
    free: seq<nat>,           // _freeDeque
    setting: set<nat>,        // allocated by a setTimer that has not filled the slot yet
    pending: set<Ticket>,     // filled by a setTimer that has not pushed the slot yet
    addQueue: seq<nat>,       // _queueForAdd
    delQueue: seq<Ticket>,    // _queueForDel, with the incarnation that was killed
    list: seq<nat>,           // the linked list from _timerList to _lastTimer
    cur: Option<nat>,         // _curTimer
    phase: Phase,
    fires: seq<Fire>)         // all calls of __onTimer so far
  {
    /** The incarnation that uses slot `id` now. */
    ghost function Now(id: nat): Ticket
      requires id < |slots|
    {
      Ticket(id, slots[id].gen)
    }

    ghost predicate Is(id: nat, status: Status)
    {
      id < |slots| && slots[id].status == status
    }
  }

  ghost predicate Below(q: seq<nat>, n: nat) {
    forall k | 0 <= k < |q| :: q[k] < n
  }

  ghost predicate Listed(status: Status) {
    status == Added || status == ToBeDel
  }

  ghost predicate Unused(status: Status) {
    status == Nothing || status == Deleted
  }

  // ----- the steps -----

  datatype Step =
    | Allocate
    | Fill(id: nat, period: nat, owner: nat, tag: nat, times: nat, now: Clock)
    | Enqueue(timer: Ticket)
    | Kill(id: nat)
    | Drain
    | Visit(now: Clock, again: bool)

  ghost predicate Enabled(s: State, step: Step) {
    match step
    case Allocate => s.free != []
    case Fill(id, _, _, _, _, _) => id in s.setting && id < |s.slots|
    case Enqueue(t) => t in s.pending
    case Kill(id) => id < |s.slots| && s.slots[id].status != Nothing
    case Drain => s.phase == BeforeDrain && Below(s.addQueue, |s.slots|) && DelReady(s)
    case Visit(_, _) => s.phase == BeforeVisit && VisitReady(s)
  }

  ghost function Allocated(s: State): State
    requires s.free != []
  {
    s.(free := s.free[1..], setting := s.setting + {s.free[0]})
  }

  ghost function Filled(s: State, id: nat, period: nat, owner: nat, tag: nat, times: nat, now: Clock): State
    requires id < |s.slots|
  {
    var gen := s.slots[id].gen + 1;
    s.(slots := s.slots[id := Slot(period, owner, tag, times, now, ToBeAdd, gen)],
       setting := s.setting - {id},
       pending := s.pending + {Ticket(id, gen)})
  }

  ghost function Enqueued(s: State, t: Ticket): State {
    s.(addQueue := s.addQueue + [t.id], pending := s.pending - {t})
  }

  ghost function WithStatus(s: State, id: nat, status: Status): State
    requires id < |s.slots|
  {
    s.(slots := s.slots[id := s.slots[id].(status := status)])
  }

  ghost function Killed(s: State, id: nat): State
    requires id < |s.slots|
  {
    match s.slots[id].status
    case ToBeAdd => WithStatus(s, id, Deleted).(free := s.free + [id])
    case Added => WithStatus(s, id, ToBeDel).(delQueue := s.delQueue + [s.Now(id)])
    case _ => s
  }

  /** One round of the first loop of working(). */
  ghost function AddFront(s: State): State
    requires s.addQueue != [] && s.addQueue[0] < |s.slots|
  {
    var id := s.addQueue[0];
    var popped := s.(addQueue := s.addQueue[1..]);
    if s.slots[id].status == ToBeAdd then
      WithStatus(popped, id, Added).(list := s.list + [id])
    else
      popped
  }

  ghost function AddAll(s: State): (r: State)
    requires Below(s.addQueue, |s.slots|)
    ensures |r.slots| == |s.slots| && r.addQueue == []
    ensures r.delQueue == s.delQueue && r.cur == s.cur
    decreases |s.addQueue|
  {
    if s.addQueue == [] then s else AddAll(AddFront(s))
  }

  /** _delTimer: unlink the slot and give it back to the pool. */
  ghost function Unlinked(s: State, id: nat): State
    requires id < |s.slots| && id in s.list
  {
    WithStatus(s, id, Deleted).(list := Without(s.list, id), free := s.free + [id])
  }

  /** One round of the second loop of working(). */
  ghost function DelFront(s: State): State
    requires s.delQueue != [] && DelFrontReady(s)
  {
    var id := s.delQueue[0].id;
    var popped := s.(delQueue := s.delQueue[1..]);
    if s.slots[id].status == ToBeDel then
      Unlinked(popped, id).(cur := CursorWithout(s.list, s.cur, id))
    else
      popped
  }

  ghost predicate DelFrontReady(s: State)
    requires s.delQueue != []
  {
    var id := s.delQueue[0].id;
    && id < |s.slots|
    && (s.slots[id].status == ToBeDel ==> id in s.list && CursorIn(s.list, s.cur))
  }

  /** The whole second loop runs without touching anything outside the list. */
  ghost predicate DelAllReady(s: State)
    decreases |s.delQueue|
  {
    s.delQueue != [] ==> DelFrontReady(s) && DelAllReady(DelFront(s))
  }

  ghost function DelAll(s: State): (r: State)
    requires DelAllReady(s)
    ensures |r.slots| == |s.slots| && r.addQueue == s.addQueue && r.delQueue == []
    decreases |s.delQueue|
  {
    if s.delQueue == [] then s else DelAll(DelFront(s))
  }

  ghost predicate DelReady(s: State)
    requires Below(s.addQueue, |s.slots|)
  {
    DelAllReady(AddAll(s))
  }

  ghost function Drained(s: State): State
    requires Below(s.addQueue, |s.slots|) && DelReady(s)
  {
    DelAll(AddAll(s)).(phase := BeforeVisit)
  }

  ghost predicate VisitReady(s: State) {
    && CursorIn(s.list, s.cur)
    && (s.list != [] ==> Due(s.list, s.cur) < |s.slots|)
  }

  /** The due test of working(): base + period is not after now. */
  ghost predicate Expired(t: Slot, now: Clock) {
    t.period + t.base.s < now.s || (t.period + t.base.s == now.s && t.base.us <= now.us)
  }

  /** The visited slot is behind the cursor, and __onTimer has been called for it when it was due. */
  ghost function Passed(s: State, now: Clock): State
    requires VisitReady(s) && s.list != []
  {
    var id := Due(s.list, s.cur);
    s.(phase := BeforeDrain,
       cur := NextOf(s.list, id),
       fires := if Expired(s.slots[id], now) then s.fires + [Fire(s.Now(id), now)] else s.fires)
  }

  /** A new base and one time less. */
  ghost function Ticked(t: Slot, now: Clock): Slot {
    t.(base := now, times := if t.times > 0 then t.times - 1 else 0)
  }

  /** The callback asked for no more calls, or this was the last of a limited number. */
  ghost predicate LastFire(t: Slot, again: bool) {
    !again || t.times == 1
  }

  ghost function AfterFire(s: State, now: Clock, again: bool): (r: State)
    requires VisitReady(s) && s.list != []
    ensures |r.slots| == |s.slots| && r.list == s.list
  {
    var id := Due(s.list, s.cur);
    var passed := Passed(s, now);
    if again then passed.(slots := s.slots[id := Ticked(s.slots[id], now)]) else passed
  }

  /** The visit of the slot under the cursor; `again` is what __onTimer returns. */
  ghost function Visited(s: State, now: Clock, again: bool): State
    requires VisitReady(s)
  {
    if s.list == [] then
      s.(phase := BeforeDrain)
    else
      var id := Due(s.list, s.cur);
      if !Expired(s.slots[id], now) then
        Passed(s, now)
      else if LastFire(s.slots[id], again) then
        Unlinked(AfterFire(s, now, again), id)
      else
        AfterFire(s, now, again)
  }

  ghost function Next(s: State, step: Step): State
    requires Enabled(s, step)
  {
    match step
    case Allocate => Allocated(s)
    case Fill(id, period, owner, tag, times, now) => Filled(s, id, period, owner, tag, times, now)
    case Enqueue(t) => Enqueued(s, t)
    case Kill(id) => Killed(s, id)
    case Drain => Drained(s)
    case Visit(now, again) => Visited(s, now, again)
  }

  ghost predicate Initial(s: State) {
    && (forall id | 0 <= id < |s.slots| :: s.slots[id].status == Nothing && s.slots[id].gen == 0)
    && |s.free| == |s.slots| && (forall id | 0 <= id < |s.slots| :: s.free[id] == id)
    && s.setting == {} && s.pending == {} && s.addQueue == [] && s.delQueue == []
    && s.list == [] && s.cur == None && s.phase == BeforeDrain && s.fires == []
  }

  // ----- the invariant -----

  /** Each slot is in exactly one place, the one its status says. */
  ghost predicate Placed(s: State) {
    && Below(s.free, |s.slots|) && Below(s.addQueue, |s.slots|) && Below(s.list, |s.slots|)
    && (forall id | id in s.setting :: id < |s.slots|)
    && NoDup(s.free) && NoDup(s.list)
    && (forall id | 0 <= id < |s.slots| ::
          && (Unused(s.slots[id].status) <==> id in s.free || id in s.setting)
          && !(id in s.free && id in s.setting)
          && (Listed(s.slots[id].status) <==> id in s.list)
          && (s.slots[id].status == Nothing <==> s.slots[id].gen == 0))
    && CursorIn(s.list, s.cur)
  }

  /** A slot to be added will be: it is in the queue, or its setTimer has still to push it. */
  ghost predicate AddsKnown(s: State)
    requires Placed(s)
  {
    && (forall t | t in s.pending :: t.id < |s.slots| && 0 < t.gen <= s.slots[t.id].gen)
    && (forall id | 0 <= id < |s.slots| && s.slots[id].status == ToBeAdd ::
          id in s.addQueue || s.Now(id) in s.pending)
  }

  /** Stale entries may sit in the delete queue, but an entry whose slot is to be deleted names the
      incarnation that is there now, and there is such an entry for every slot to be deleted. */
  ghost predicate DelsKnown(s: State)
    requires Placed(s)
  {
    && NoDup(s.delQueue)
    && (forall t | t in s.delQueue :: t.id < |s.slots| && t.gen <= s.slots[t.id].gen)
    && (forall t | t in s.delQueue && s.Is(t.id, ToBeDel) :: t == s.Now(t.id))
    && (forall id | 0 <= id < |s.slots| && s.slots[id].status == ToBeDel :: s.Now(id) in s.delQueue)
  }

  ghost predicate Inv(s: State) {
    && Placed(s) && AddsKnown(s) && DelsKnown(s)
    && (forall t | t in s.delQueue :: !s.Is(t.id, Added))
  }

  /** What holds also between the rounds of a drain, as one fact. */
  ghost predicate Sound(s: State) {
    Placed(s) && AddsKnown(s) && DelsKnown(s)
  }

  lemma InitialInv(s: State)
    requires Initial(s)
    ensures Inv(s)
  {
    forall id | 0 <= id < |s.slots|
      ensures id in s.free
    {
      assert s.free[id] == id;
    }
  }

  lemma AllocateInv(s: State)
    requires Inv(s) && s.free != []
    ensures Inv(Allocated(s))
  {
    var r := Allocated(s);
    assert s.free == [s.free[0]] + r.free;
    assert forall id :: id in s.free <==> id == s.free[0] || id in r.free;
    assert s.free[0] in s.free && s.free[0] !in r.free;
    assert Placed(r);
  }

  lemma FillInv(s: State, id: nat, period: nat, owner: nat, tag: nat, times: nat, now: Clock)
    requires Inv(s) && id in s.setting
    ensures Inv(Filled(s, id, period, owner, tag, times, now))
  {
  }

  lemma EnqueueInv(s: State, t: Ticket)
    requires Inv(s) && t in s.pending
    ensures Inv(Enqueued(s, t))
  {
    assert t.id in s.addQueue + [t.id];
    assert forall id :: id in s.addQueue ==> id in s.addQueue + [t.id];
  }

  lemma KillPendingInv(s: State, id: nat)
    requires Inv(s) && s.Is(id, ToBeAdd)
    ensures Inv(Killed(s, id))
  {
    NoDupAppend(s.free, id);
  }

  lemma KillListedInv(s: State, id: nat)
    requires Inv(s) && s.Is(id, Added)
    ensures Inv(Killed(s, id))
  {
    NoDupAppend(s.delQueue, s.Now(id));
  }

  lemma KillInv(s: State, id: nat)
    requires Inv(s) && id < |s.slots|
    ensures Inv(Killed(s, id))
  {
    if s.Is(id, ToBeAdd) {
      KillPendingInv(s, id);
    } else if s.Is(id, Added) {
      KillListedInv(s, id);
    }
  }

  lemma AddFrontInv(s: State)
    requires Placed(s) && AddsKnown(s) && DelsKnown(s) && s.addQueue != []
    ensures Placed(AddFront(s)) && AddsKnown(AddFront(s)) && DelsKnown(AddFront(s))
  {
    var id := s.addQueue[0];
    assert forall j :: j in s.addQueue <==> j == id || j in s.addQueue[1..];
    if s.slots[id].status == ToBeAdd {
      NoDupAppend(s.list, id);
    }
  }

  lemma AddAllInv(s: State)
    requires Placed(s) && AddsKnown(s) && DelsKnown(s)
    ensures var r := AddAll(s); Placed(r) && AddsKnown(r) && DelsKnown(r)
    decreases |s.addQueue|
  {
    if s.addQueue != [] {
      AddFrontInv(s);
      AddAllInv(AddFront(s));
    }
  }

  lemma UnlinkInv(s: State, id: nat)
    requires Placed(s) && AddsKnown(s) && id in s.list
    ensures s.cur != Some(id) ==> Placed(Unlinked(s, id)) && AddsKnown(Unlinked(s, id))
    ensures var r := Unlinked(s, id).(cur := CursorWithout(s.list, s.cur, id)); Placed(r) && AddsKnown(r)
  {
    WithoutElements(s.list, id);
    CursorStays(s.list, s.cur, id);
    NoDupAppend(s.free, id);
  }

  lemma DelFrontInv(s: State)
    requires Placed(s) && AddsKnown(s) && DelsKnown(s) && s.delQueue != []
    ensures DelFrontReady(s)
    ensures Placed(DelFront(s)) && AddsKnown(DelFront(s)) && DelsKnown(DelFront(s))
  {
    var t := s.delQueue[0];
    assert t in s.delQueue;
    var popped := s.(delQueue := s.delQueue[1..]);
    assert Placed(popped) && AddsKnown(popped);
    if s.slots[t.id].status == ToBeDel {
      UnlinkInv(popped, t.id);
    }
    DelFrontKnown(s);
  }

  lemma DelFrontKnown(s: State)
    requires Placed(s) && DelsKnown(s) && s.delQueue != []
    requires DelFrontReady(s) && Placed(DelFront(s))
    ensures DelsKnown(DelFront(s))
  {
    var t, rest, r := s.delQueue[0], s.delQueue[1..], DelFront(s);
    assert s.delQueue == [t] + rest;
    assert r.delQueue == rest && NoDup(rest);
    forall u | u in rest
      ensures u.id < |r.slots| && u.gen <= r.slots[u.id].gen && (r.Is(u.id, ToBeDel) ==> u == r.Now(u.id))
    {
      assert u in s.delQueue;
    }
    forall id | 0 <= id < |r.slots| && r.slots[id].status == ToBeDel
      ensures r.Now(id) in rest
    {
      assert s.Now(id) in s.delQueue && id != t.id;
    }
  }

  lemma DelAllInv(s: State)
    requires Placed(s) && AddsKnown(s) && DelsKnown(s)
    ensures DelAllReady(s)
    ensures var r := DelAll(s); Placed(r) && AddsKnown(r) && DelsKnown(r)
    decreases |s.delQueue|
  {
    if s.delQueue != [] {
      DelFrontInv(s);
      DelAllInv(DelFront(s));
    }
  }

  lemma AddFrontSound(s: State)
    requires Sound(s) && s.addQueue != []
    ensures Sound(AddFront(s))
  {
    AddFrontInv(s);
  }

  lemma AddAllSound(s: State)
    requires Sound(s)
    ensures Sound(AddAll(s))
  {
    AddAllInv(s);
  }

  lemma DelFrontSound(s: State)
    requires Sound(s) && s.delQueue != []
    ensures DelFrontReady(s) && Sound(DelFront(s))
  {
    DelFrontInv(s);
  }

  lemma DelAllSound(s: State)
    requires Sound(s)
    ensures DelAllReady(s) && Sound(DelAll(s))
  {
    DelAllInv(s);
  }

  lemma DrainInv(s: State)
    requires Inv(s)
    ensures DelReady(s) && Inv(Drained(s))
  {
    AddAllInv(s);
    DelAllInv(AddAll(s));
  }

  /** Unlinking the visited slot keeps the whole invariant: what is left of it in the delete queue is
      stale from now on. */
  lemma UnlinkVisitedInv(s: State, id: nat)
    requires Inv(s) && id in s.list && s.cur != Some(id)
    ensures Inv(Unlinked(s, id))
  {
    UnlinkInv(s, id);
  }

  lemma PassedInv(s: State, now: Clock)
    requires Inv(s) && s.list != []
    ensures VisitReady(s) && Inv(Passed(s, now)) && Passed(s, now).cur != Some(Due(s.list, s.cur))
  {
  }

  lemma AfterFireInv(s: State, now: Clock, again: bool)
    requires Inv(s) && s.list != []
    ensures VisitReady(s)
    ensures var r := AfterFire(s, now, again); Inv(r) && r.cur != Some(Due(s.list, s.cur))
  {
    PassedInv(s, now);
  }

  lemma VisitInv(s: State, now: Clock, again: bool)
    requires Inv(s)
    ensures VisitReady(s) && Inv(Visited(s, now, again))
  {
    if s.list != [] {
      PassedInv(s, now);
      AfterFireInv(s, now, again);
      UnlinkVisitedInv(AfterFire(s, now, again), Due(s.list, s.cur));
    }
  }

  /** Every step keeps the invariant. */
  lemma NextInv(s: State, step: Step)
    requires Inv(s) && Enabled(s, step)
    ensures Inv(Next(s, step))
  {
    match step
    case Allocate => AllocateInv(s);
    case Fill(id, period, owner, tag, times, now) => FillInv(s, id, period, owner, tag, times, now);
    case Enqueue(t) => EnqueueInv(s, t);
    case Kill(id) => KillInv(s, id);
    case Drain => DrainInv(s);
    case Visit(now, again) => VisitInv(s, now, again);
  }
}
