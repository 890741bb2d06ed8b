/** What holds over every run of the timer manager, whatever the interleaving of setTimer's parts,
    killTimer and the worker's two phases. */
module TimerRuns {
  import opened Prelude
  import opened RoundRobin
  import opened TimerSpec

  // ----- runs -----

  ghost predicate Runnable(s: State, steps: seq<Step>)
    decreases |steps|, 0
  {
    steps != [] ==>
      Runnable(s, steps[..|steps| - 1]) && Enabled(Run(s, steps[..|steps| - 1]), steps[|steps| - 1])
  }

  ghost function Run(s: State, steps: seq<Step>): State
    requires Runnable(s, steps)
    decreases |steps|, 1
  {
    if steps == [] then s else Next(Run(s, steps[..|steps| - 1]), steps[|steps| - 1])
  }

  lemma {:induction false} RunInv(s: State, steps: seq<Step>)
    requires Inv(s) && Runnable(s, steps)
    ensures Inv(Run(s, steps))
  {
    if steps != [] {
      RunInv(s, steps[..|steps| - 1]);
      NextInv(Run(s, steps[..|steps| - 1]), steps[|steps| - 1]);
    }
  }

  // ----- where the slots are -----

  ghost function ToBeAddSlots(s: State): set<nat> {
    set id | 0 <= id < |s.slots| && s.slots[id].status == ToBeAdd
  }

  /** In every reachable state each slot is exactly once in the pool, in the hands of a setTimer,
      waiting to be added, or in the list; so no slot is ever given back twice. */
  lemma SlotsConserved(s: State, steps: seq<Step>)
    requires Initial(s) && Runnable(s, steps)
    ensures var r := Run(s, steps);
      var m := multiset(r.free) + multiset(r.setting) + multiset(ToBeAddSlots(r)) + multiset(r.list);
      forall id: nat :: m[id] == if id < |r.slots| then 1 else 0
  {
    InitialInv(s);
    RunInv(s, steps);
    var r := Run(s, steps);
    var m := multiset(r.free) + multiset(r.setting) + multiset(ToBeAddSlots(r)) + multiset(r.list);
    forall id: nat
      ensures m[id] == if id < |r.slots| then 1 else 0
    {
      Once(r.free, id);
      Once(r.list, id);
      if id < |r.slots| {
        assert Unused(r.slots[id].status) || Listed(r.slots[id].status) || r.slots[id].status == ToBeAdd;
      }
    }
  }

  lemma {:induction false} Once(s: seq<nat>, x: nat)
    requires NoDup(s)
    ensures multiset(s)[x] == if x in s then 1 else 0
  {
    if s != [] {
      var init, last := s[..|s| - 1], s[|s| - 1];
      assert s == init + [last];
      assert last !in init;
      Once(init, x);
    }
  }

  // ----- the pool -----

  ghost function Allocs(steps: seq<Step>): nat {
    if steps == [] then 0 else Allocs(steps[..|steps| - 1]) + if steps[|steps| - 1].Allocate? then 1 else 0
  }

  /** setTimer gets the slot that is first in the pool; every other step gives slots back at its end. */
  lemma PoolStep(s: State, step: Step) returns (added: seq<nat>)
    requires Inv(s) && Enabled(s, step)
    ensures var r := Next(s, step);
      if step.Allocate? then s.free == [s.free[0]] + r.free && r.setting == s.setting + {s.free[0]} && added == []
      else r.free == s.free + added && r.setting <= s.setting
  {
    added := [];
    match step
    case Drain => added := DrainGives(s);
    case Kill(id) => if s.slots[id].status == ToBeAdd { added := [id]; }
    case Visit(now, again) =>
      VisitInv(s, now, again);
      if s.list != [] && Visited(s, now, again).free != s.free {
        added := [Due(s.list, s.cur)];
      }
    case _ =>
  }

  lemma DrainGives(s: State) returns (added: seq<nat>)
    requires Inv(s) && DelReady(s)
    ensures Drained(s).free == s.free + added && Drained(s).setting == s.setting
  {
    AddAllEffect(s);
    AddAllInv(s);
    DelAllEffect(AddAll(s));
    added := DelAllGives(AddAll(s));
  }

  lemma {:induction false} DelAllGives(s: State) returns (added: seq<nat>)
    requires DelAllReady(s)
    ensures DelAll(s).free == s.free + added
    decreases |s.delQueue|
  {
    if s.delQueue == [] {
      added := [];
    } else {
      var rest := DelAllGives(DelFront(s));
      added := (if s.slots[s.delQueue[0].id].status == ToBeDel then [s.delQueue[0].id] else []) + rest;
    }
  }

  /** So over any run the pool is a queue: slots are given out in the order in which they came back. Here
      `all` are those that were in the pool, and those that have come back since, in that order. */
  lemma {:induction false} PoolInTurn(s: State, steps: seq<Step>) returns (all: seq<nat>)
    requires Inv(s) && Runnable(s, steps)
    ensures s.free <= all && Allocs(steps) <= |all| && Run(s, steps).free == all[Allocs(steps)..]
  {
    if steps == [] {
      all := s.free;
    } else {
      var before := steps[..|steps| - 1];
      all := PoolInTurn(s, before);
      RunInv(s, before);
      hide Inv, Enabled, Next, Runnable;
      var more := PoolOn(Run(s, before), steps[|steps| - 1], all, Allocs(before));
      all := all + more;
    }
  }

  lemma PoolOn(b: State, step: Step, all: seq<nat>, c: nat) returns (more: seq<nat>)
    requires Inv(b) && Enabled(b, step) && c <= |all| && b.free == all[c..]
    ensures var c' := if step.Allocate? then c + 1 else c;
      c' <= |all + more| && Next(b, step).free == (all + more)[c'..]
  {
    hide Inv, Next;
    more := PoolStep(b, step);
    QueueOn(all, c, b.free, Next(b, step).free, more);
  }

  lemma QueueOn(all: seq<nat>, c: nat, free: seq<nat>, free': seq<nat>, more: seq<nat>)
    requires c <= |all| && free == all[c..]
    ensures free' == free + more ==> free' == (all + more)[c..]
    ensures free != [] && free == [free[0]] + free' && more == [] ==> c < |all| && free' == (all + more)[c + 1..]
  {
    assert all + [] == all;
    assert c < |all| ==> free[1..] == all[c + 1..];
  }

  // ----- what a drain does -----

  ghost predicate NewlyAdded(s: State, added: seq<nat>) {
    forall id | id in added :: id in s.addQueue && s.Is(id, ToBeAdd)
  }

  lemma {:induction false} AddAllSlots(s: State)
    requires Below(s.addQueue, |s.slots|)
    ensures var r := AddAll(s);
      && r.free == s.free && r.phase == s.phase && r.fires == s.fires
      && r.setting == s.setting && r.pending == s.pending
      && forall id | 0 <= id < |s.slots| ::
           r.slots[id] == if s.slots[id].status == ToBeAdd && id in s.addQueue
                          then s.slots[id].(status := Added) else s.slots[id]
    decreases |s.addQueue|
  {
    if s.addQueue != [] {
      AddAllSlots(AddFront(s));
      assert s.addQueue == [s.addQueue[0]] + AddFront(s).addQueue;
    }
  }

  lemma {:induction false} AddAllList(s: State)
    requires Below(s.addQueue, |s.slots|)
    ensures exists added :: AddAll(s).list == s.list + added && NewlyAdded(s, added)
    decreases |s.addQueue|
  {
    if s.addQueue == [] {
      assert s.list == s.list + [] && NewlyAdded(s, []);
    } else {
      var next := AddFront(s);
      AddAllList(next);
      var added :| AddAll(s).list == next.list + added && NewlyAdded(next, added);
      var added' := if s.slots[s.addQueue[0]].status == ToBeAdd then [s.addQueue[0]] + added else added;
      assert AddAll(s).list == s.list + added';
      assert NewlyAdded(s, added');
    }
  }

  lemma AddAllEffect(s: State)
    requires Below(s.addQueue, |s.slots|)
    ensures var r := AddAll(s);
      && r.free == s.free && r.phase == s.phase && r.fires == s.fires
      && r.setting == s.setting && r.pending == s.pending
      && (exists added :: r.list == s.list + added && NewlyAdded(s, added))
      && forall id | 0 <= id < |s.slots| ::
           r.slots[id] == if s.slots[id].status == ToBeAdd && id in s.addQueue
                          then s.slots[id].(status := Added) else s.slots[id]
  {
    AddAllSlots(s);
    AddAllList(s);
  }

  lemma {:induction false} DelAllEffect(s: State)
    requires Placed(s) && AddsKnown(s) && DelsKnown(s)
    ensures DelAllReady(s)
    ensures var r := DelAll(s);
      && r.phase == s.phase && r.fires == s.fires && r.setting == s.setting && r.pending == s.pending
      && (forall id :: id in r.list <==> id in s.list && !s.Is(id, ToBeDel))
      && forall id | 0 <= id < |s.slots| ::
           r.slots[id] == if s.slots[id].status == ToBeDel then s.slots[id].(status := Deleted) else s.slots[id]
    decreases |s.delQueue|
  {
    if s.delQueue != [] {
      DelFrontInv(s);
      var next, id := DelFront(s), s.delQueue[0].id;
      DelAllEffect(next);
      if s.slots[id].status == ToBeDel {
        WithoutElements(s.list, id);
      }
    }
  }

  /** A drain adds exactly the queued slots still to be added and deletes exactly the slots to be
      deleted; every other slot, whatever stale entries name it, stays as it is. */
  lemma DrainEffect(s: State)
    requires Inv(s)
    ensures DelReady(s)
    ensures var r := Drained(s);
      && r.addQueue == [] && r.delQueue == [] && r.fires == s.fires && r.phase == BeforeVisit
      && (forall id | 0 <= id < |s.slots| :: r.slots[id] ==
            s.slots[id].(status :=
              if s.slots[id].status == ToBeAdd && id in s.addQueue then Added
              else if s.slots[id].status == ToBeDel then Deleted
              else s.slots[id].status))
      && (forall id :: id in r.list <==>
            (id in s.list && !s.Is(id, ToBeDel)) || (id in s.addQueue && s.Is(id, ToBeAdd)))
  {
    AddAllInv(s);
    AddAllEffect(s);
    DelAllEffect(AddAll(s));
    var a, r := AddAll(s), Drained(s);
    forall id
      ensures id in r.list <==>
        (id in s.list && !s.Is(id, ToBeDel)) || (id in s.addQueue && s.Is(id, ToBeAdd))
    {
      if id in r.list || id in s.list || id in s.addQueue {
        assert id < |s.slots|;
      }
    }
  }

  /** An entry of the delete queue that takes effect names the incarnation that was killed, never a
      later one of a reused slot. */
  lemma {:induction false} StaleEntryIsHarmless(s: State, steps: seq<Step>, t: Ticket)
    requires Initial(s) && Runnable(s, steps)
    requires t in Run(s, steps).delQueue && t.id < |Run(s, steps).slots|
    ensures var r := Run(s, steps);
      t.gen < r.slots[t.id].gen ==> !Listed(r.slots[t.id].status)
  {
    InitialInv(s);
    RunInv(s, steps);
    var r := Run(s, steps);
    assert !r.Is(t.id, Added);
    assert r.Is(t.id, ToBeDel) ==> t == r.Now(t.id);
  }

  // ----- how often a timer fires -----

  ghost predicate Live(s: State, t: Ticket) {
    && t.id < |s.slots| && s.slots[t.id].gen == t.gen
    && !Unused(s.slots[t.id].status)
  }

  /** t has been given out. */
  ghost predicate Known(s: State, t: Ticket) {
    t.id < |s.slots| && t.gen <= s.slots[t.id].gen
  }

  ghost function Count(fires: seq<Fire>, t: Ticket): nat {
    if fires == [] then 0
    else Count(fires[..|fires| - 1], t) + if fires[|fires| - 1].timer == t then 1 else 0
  }

  /** The incarnation the step calls __onTimer for, if any. */
  ghost function FiredBy(s: State, step: Step): Option<Ticket>
    requires Enabled(s, step)
  {
    if step.Visit? && s.list != [] && Expired(s.slots[Due(s.list, s.cur)], step.now)
    then Some(s.Now(Due(s.list, s.cur))) else None
  }

  /** What one step does to one incarnation: only its own fires change it, and once dead it stays so. */
  ghost predicate Affects(s: State, r: State, t: Ticket, fired: Option<Ticket>, now: Clock)
    requires Known(s, t)
  {
    && Known(r, t)
    && (Live(r, t) ==> Live(s, t))
    && Count(r.fires, t) == Count(s.fires, t) + (if fired == Some(t) then 1 else 0)
    && (fired == Some(t) ==> Live(s, t) && Listed(s.slots[t.id].status))
    && (Live(r, t) ==>
          && (fired == Some(t) ==> s.slots[t.id].times != 1)
          && r.slots[t.id].(status := s.slots[t.id].status)
             == if fired == Some(t) then Ticked(s.slots[t.id], now) else s.slots[t.id])
  }

  lemma QuietStepOn(s: State, step: Step, t: Ticket)
    requires Inv(s) && Enabled(s, step) && Known(s, t) && !step.Drain? && !step.Visit?
    ensures Affects(s, Next(s, step), t, None, Clock(0, 0))
    ensures Next(s, step).list == s.list && Next(s, step).cur == s.cur && Next(s, step).phase == s.phase
  {
  }

  lemma DrainOn(s: State, t: Ticket)
    requires Inv(s) && Known(s, t)
    ensures DelReady(s) && Affects(s, Drained(s), t, None, Clock(0, 0))
  {
    DrainEffect(s);
  }

  lemma VisitOn(s: State, step: Step, t: Ticket)
    requires Inv(s) && Enabled(s, step) && Known(s, t) && step.Visit?
    ensures Affects(s, Next(s, step), t, FiredBy(s, step), step.now)
  {
    hide AddsKnown, DelsKnown, NextOf, Without;
    var r := Next(s, step);
    if FiredBy(s, step).Some? {
      assert r.fires[..|r.fires| - 1] == s.fires;
    }
  }

  lemma StepOn(s: State, step: Step, t: Ticket)
    requires Inv(s) && Enabled(s, step) && Known(s, t)
    ensures Affects(s, Next(s, step), t, FiredBy(s, step), if step.Visit? then step.now else Clock(0, 0))
  {
    if step.Drain? {
      DrainOn(s, t);
    } else if step.Visit? {
      VisitOn(s, step, t);
    } else {
      QuietStepOn(s, step, t);
    }
  }

  /** A timer set with times > 0 keeps a positive rest while it lives. */
  ghost predicate Limited(s: State, t: Ticket) {
    Known(s, t) && (Live(s, t) ==> s.slots[t.id].times > 0)
  }

  ghost function Rest(s: State, t: Ticket): nat {
    if Live(s, t) then s.slots[t.id].times else 0
  }

  /** A timer with k > 0 times left fires at most k times more, in any run; when it has, it is out of
      the list for good, and it never turns into one without end. */
  lemma {:induction false} FiresAtMostTimes(s: State, steps: seq<Step>, t: Ticket)
    requires Inv(s) && Runnable(s, steps) && Limited(s, t)
    ensures var r := Run(s, steps);
      && Limited(r, t)
      && Count(r.fires, t) + Rest(r, t) <= Count(s.fires, t) + Rest(s, t)
      && (Count(r.fires, t) == Count(s.fires, t) + Rest(s, t) ==> !Live(r, t))
  {
    if steps != [] {
      var before := steps[..|steps| - 1];
      FiresAtMostTimes(s, before, t);
      RunInv(s, before);
      StepOn(Run(s, before), steps[|steps| - 1], t);
    }
  }

  ghost predicate Doomed(s: State, t: Ticket) {
    Known(s, t) && (Live(s, t) ==> s.slots[t.id].status == ToBeDel)
  }

  /** How often a killed timer may still fire: once, if the worker is between drain and visit. */
  ghost function Grace(s: State, t: Ticket): nat {
    if Live(s, t) && s.phase == BeforeVisit then 1 else 0
  }

  lemma DoomedStep(s: State, step: Step, t: Ticket)
    requires Inv(s) && Enabled(s, step) && Doomed(s, t)
    ensures var r := Next(s, step);
      Doomed(r, t) && Count(r.fires, t) + Grace(r, t) <= Count(s.fires, t) + Grace(s, t)
  {
    hide AddsKnown, NextOf, Without, Count;
    StepOn(s, step, t);
    if step.Drain? {
      DrainEffect(s);
    } else if !step.Visit? {
      QuietStepOn(s, step, t);
    }
  }

  lemma {:induction false} DoomedFires(s: State, steps: seq<Step>, t: Ticket)
    requires Inv(s) && Runnable(s, steps) && Doomed(s, t)
    ensures var r := Run(s, steps);
      Doomed(r, t) && Count(r.fires, t) + Grace(r, t) <= Count(s.fires, t) + Grace(s, t)
  {
    if steps != [] {
      var before := steps[..|steps| - 1];
      DoomedFires(s, before, t);
      RunInv(s, before);
      DoomedStep(Run(s, before), steps[|steps| - 1], t);
    }
  }

  /** After killTimer the killed incarnation fires at most once more, and only when the worker was
      between its two phases and the timer already in the list. */
  lemma KilledTimerFires(s: State, id: nat, steps: seq<Step>)
    requires Inv(s) && Enabled(s, Kill(id)) && Runnable(Next(s, Kill(id)), steps)
    ensures var t, r := s.Now(id), Run(Next(s, Kill(id)), steps);
      Count(r.fires, t) <= Count(s.fires, t)
        + (if Listed(s.slots[id].status) && s.phase == BeforeVisit then 1 else 0)
  {
    NextInv(s, Kill(id));
    DoomedFires(Next(s, Kill(id)), steps, s.Now(id));
  }

  // ----- when a timer fires -----

  /** The base a fire of t after these fires counts from. */
  ghost function LastBase(fires: seq<Fire>, t: Ticket, first: Clock): Clock {
    if fires == [] then first
    else if fires[|fires| - 1].timer == t then fires[|fires| - 1].at
    else LastBase(fires[..|fires| - 1], t, first)
  }

  ghost predicate NotBefore(base: Clock, period: nat, at: Clock) {
    base.s + period < at.s || (base.s + period == at.s && base.us <= at.us)
  }

  /** Each fire of t comes at least `period` seconds after the one before it, the first after `first`. */
  ghost predicate Spaced(fires: seq<Fire>, t: Ticket, period: nat, first: Clock) {
    forall k | 0 <= k < |fires| && fires[k].timer == t ::
      NotBefore(LastBase(fires[..k], t, first), period, fires[k].at)
  }

  /** The fires since s of a timer that was live in s are spaced, and its slot records the last. */
  ghost predicate OnTime(s: State, r: State, t: Ticket)
    requires Live(s, t)
  {
    var was := s.slots[t.id];
    && s.fires <= r.fires && Known(r, t)
    && Spaced(r.fires[|s.fires|..], t, was.period, was.base)
    && (Live(r, t) ==> r.slots[t.id].period == was.period
                       && r.slots[t.id].base == LastBase(r.fires[|s.fires|..], t, was.base))
  }

  lemma OnTimeStep(s: State, b: State, step: Step, t: Ticket)
    requires Inv(b) && Enabled(b, step) && Live(s, t) && OnTime(s, b, t)
    ensures OnTime(s, Next(b, step), t)
  {
    hide Next, Enabled, Inv, Count;
    StepOn(b, step, t);
    FiresGrow(b, step);
    var r, was := Next(b, step), s.slots[t.id];
    if FiredBy(b, step).Some? {
      var sofar, fire := b.fires[|s.fires|..], Fire(FiredBy(b, step).value, step.now);
      assert r.fires[|s.fires|..] == sofar + [fire];
      SpacedMore(sofar, fire, t, was.period, was.base);
    }
  }

  lemma SpacedMore(fires: seq<Fire>, fire: Fire, t: Ticket, period: nat, first: Clock)
    requires Spaced(fires, t, period, first)
    requires fire.timer == t ==> NotBefore(LastBase(fires, t, first), period, fire.at)
    ensures Spaced(fires + [fire], t, period, first)
    ensures LastBase(fires + [fire], t, first) == if fire.timer == t then fire.at else LastBase(fires, t, first)
  {
    var more := fires + [fire];
    assert more[..|fires|] == fires;
    forall k | 0 <= k < |more| && more[k].timer == t
      ensures NotBefore(LastBase(more[..k], t, first), period, more[k].at)
    {
      assert more[..k] == fires[..k];
    }
  }

  /** Over any run after its setTimer has filled the slot, the fires of a timer are spaced by its
      period, counted from the time recorded last. */
  lemma {:induction false} FiresSpaced(s: State, steps: seq<Step>, t: Ticket)
    requires Inv(s) && Runnable(s, steps) && Live(s, t)
    ensures OnTime(s, Run(s, steps), t)
  {
    if steps != [] {
      var before := steps[..|steps| - 1];
      FiresSpaced(s, before, t);
      RunInv(s, before);
      OnTimeStep(s, Run(s, before), steps[|steps| - 1], t);
    }
  }

  lemma FiresGrow(s: State, step: Step)
    requires Inv(s) && Enabled(s, step)
    ensures var r := Next(s, step);
      r.fires == match FiredBy(s, step) case None => s.fires case Some(t) => s.fires + [Fire(t, step.now)]
  {
    if step.Drain? {
      DrainEffect(s);
    }
  }

  /** In front of a visit with a timer in the list: __onTimer is called, once, for the timer under the
      cursor exactly if `period` seconds have passed since its base. If it asks for more and the timer is
      not at its last time, the timer stays in the list with a new base and one time less, or without end;
      otherwise it leaves the list for good. A timer that is not due, and every other timer, stays as it is. */
  lemma VisitFires(s: State, now: Clock, again: bool)
    requires Inv(s) && s.phase == BeforeVisit && s.list != []
    ensures Enabled(s, Step.Visit(now, again))
    ensures var id, r := if s.cur.Some? then s.cur.value else s.list[0], Next(s, Step.Visit(now, again));
      && id in s.list && id < |s.slots| == |r.slots|
      && (forall j | 0 <= j < |s.slots| && j != id :: r.slots[j] == s.slots[j] && (j in r.list <==> j in s.list))
      && var t := s.slots[id];
         if NotBefore(t.base, t.period, now) then
           && r.fires == s.fires + [Fire(Ticket(id, t.gen), now)]
           && (id in r.list <==> again && t.times != 1)
           && (id in r.list ==> r.slots[id] == t.(base := now, times := if t.times == 0 then 0 else t.times - 1))
           && (id !in r.list ==> r.slots[id].status == Deleted && r.slots[id].gen == t.gen)
         else
           r.fires == s.fires && r.slots == s.slots && r.list == s.list
  {
    hide AddsKnown, DelsKnown, NextOf, Without;
    WithoutElements(s.list, Due(s.list, s.cur));
  }

  /** What a setTimer has asked for: this incarnation of the slot is for `owner` with parameter `tag`,
      and fires every `period` seconds from `now` on. */
  lemma SetTimerHolds(s: State, fill: Step, steps: seq<Step>)
    requires Inv(s) && fill.Fill? && Enabled(s, fill) && Runnable(Next(s, fill), steps)
    ensures var r, t := Run(Next(s, fill), steps), Ticket(fill.id, s.slots[fill.id].gen + 1);
      && s.fires <= r.fires && Spaced(r.fires[|s.fires|..], t, fill.period, fill.now)
      && (fill.times > 0 ==> Count(r.fires, t) <= Count(s.fires, t) + fill.times)
      && (Live(r, t) ==>
            var slot := r.slots[t.id];
            && slot.owner == fill.owner && slot.tag == fill.tag && slot.period == fill.period
            && (if fill.times == 0 then slot.times == 0
                else slot.times + Count(r.fires, t) == fill.times + Count(s.fires, t)))
  {
    hide Next, Inv, Spaced;
    var b, t := Next(s, fill), Ticket(fill.id, s.slots[fill.id].gen + 1);
    NextInv(s, fill);
    FilledLive(s, fill);
    FiresSpaced(b, steps, t);
    StaysSet(b, steps, t);
    if fill.times > 0 {
      FiresAtMostTimes(b, steps, t);
    }
  }

  lemma FilledLive(s: State, fill: Step)
    requires Inv(s) && fill.Fill? && Enabled(s, fill)
    ensures var b, t := Next(s, fill), Ticket(fill.id, s.slots[fill.id].gen + 1);
      && Live(b, t) && b.fires == s.fires
      && b.slots[t.id] == Slot(fill.period, fill.owner, fill.tag, fill.times, fill.now, ToBeAdd, t.gen)
  {
  }

  /** r has the incarnation as it was, but for its fires since. */
  ghost predicate SameTimer(s: State, r: State, t: Ticket)
    requires Live(s, t)
  {
    && Known(r, t)
    && (Live(r, t) ==>
          var was, slot := s.slots[t.id], r.slots[t.id];
          && slot.owner == was.owner && slot.tag == was.tag && slot.period == was.period
          && (if was.times == 0 then slot.times == 0
              else slot.times > 0 && slot.times + Count(r.fires, t) == was.times + Count(s.fires, t)))
  }

  lemma SameTimerStep(s: State, b: State, step: Step, t: Ticket)
    requires Inv(b) && Enabled(b, step) && Live(s, t) && SameTimer(s, b, t)
    ensures SameTimer(s, Next(b, step), t)
  {
    hide Next, Enabled, Inv;
    StepOn(b, step, t);
  }

  lemma {:induction false} StaysSet(s: State, steps: seq<Step>, t: Ticket)
    requires Inv(s) && Runnable(s, steps) && Live(s, t)
    ensures SameTimer(s, Run(s, steps), t)
  {
    hide Next, Enabled, Inv, SameTimer;
    if steps == [] {
      SameTimerSelf(s, t);
    } else {
      var before := steps[..|steps| - 1];
      StaysSet(s, before, t);
      RunInv(s, before);
      SameTimerStep(s, Run(s, before), steps[|steps| - 1], t);
    }
  }

  lemma SameTimerSelf(s: State, t: Ticket)
    requires Live(s, t)
    ensures SameTimer(s, s, t)
  {
  }

  // ----- round-robin fairness -----

  /** The timers the visits of a run have looked at. */
  ghost function VisitsOf(s: State, steps: seq<Step>): (v: seq<nat>)
    requires Runnable(s, steps)
  {
    if steps == [] then [] else
    var b, step := Run(s, steps[..|steps| - 1]), steps[|steps| - 1];
    VisitsOf(s, steps[..|steps| - 1])
      + if step.Visit? && b.list != [] && CursorIn(b.list, b.cur) then [Due(b.list, b.cur)] else []
  }

  ghost predicate NoAdditions(s: State, steps: seq<Step>)
    requires Runnable(s, steps)
  {
    steps != [] ==>
      && NoAdditions(s, steps[..|steps| - 1])
      && forall id | id in Run(s, steps).list :: id in Run(s, steps[..|steps| - 1]).list
  }

  lemma {:induction false} DelAllNotFarther(s: State, x: nat)
    requires Placed(s) && AddsKnown(s) && DelsKnown(s) && x in s.list && !s.Is(x, ToBeDel)
    ensures DelAllReady(s)
    ensures var r := DelAll(s);
      x in r.list && CursorIn(r.list, r.cur) && Distance(r.list, r.cur, x) <= Distance(s.list, s.cur, x)
    decreases |s.delQueue|
  {
    if s.delQueue != [] {
      DelFrontInv(s);
      var id := s.delQueue[0].id;
      if s.slots[id].status == ToBeDel {
        RemovalNotFarther(s.list, s.cur, id, x);
      }
      DelAllNotFarther(DelFront(s), x);
    }
  }

  lemma NothingAdded(s: State)
    requires Inv(s) && DelReady(s)
    requires forall id | id in Drained(s).list :: id in s.list
    ensures AddAll(s).list == s.list
  {
    AddAllEffect(s);
    var added :| AddAll(s).list == s.list + added && NewlyAdded(s, added);
    if added != [] {
      AddedRemains(s, added[0]);
      assert false;
    }
  }

  lemma AddedRemains(s: State, id: nat)
    requires Inv(s) && DelReady(s) && id in s.addQueue && s.Is(id, ToBeAdd)
    ensures id in Drained(s).list && id !in s.list
  {
    DrainEffect(s);
  }

  lemma DrainNotFarther(s: State, x: nat)
    requires Inv(s) && DelReady(s)
    requires x in s.list && x in Drained(s).list
    requires forall id | id in Drained(s).list :: id in s.list
    ensures CursorIn(Drained(s).list, Drained(s).cur)
    ensures Distance(Drained(s).list, Drained(s).cur, x) <= Distance(s.list, s.cur, x)
  {
    NothingAdded(s);
    AddAllInv(s);
    AddAllEffect(s);
    DelAllEffect(AddAll(s));
    DelAllNotFarther(AddAll(s), x);
  }

  lemma VisitOtherNearer(s: State, step: Step, x: nat)
    requires Inv(s) && Enabled(s, step) && step.Visit? && x in s.list && Due(s.list, s.cur) != x
    ensures var r := Next(s, step);
      x in r.list && CursorIn(r.list, r.cur) && Distance(r.list, r.cur, x) < Distance(s.list, s.cur, x)
  {
    hide Inv, Distance, Visited, NextOf, IndexOf, Without;
    var id := Due(s.list, s.cur);
    VisitMoves(s, step);
    VisitNearer(s.list, s.cur, x);
    NextOfOther(s.list, id);
    RemovalNotFarther(s.list, NextOf(s.list, id), id, x);
  }

  /** A visit moves the cursor on, and the visited timer may leave the list. */
  lemma VisitMoves(s: State, step: Step)
    requires Inv(s) && Enabled(s, step) && step.Visit? && s.list != []
    ensures NoDup(s.list) && CursorIn(s.list, s.cur)
    ensures var id, r := Due(s.list, s.cur), Next(s, step);
      r.cur == NextOf(s.list, id) && (r.list == s.list || r.list == Without(s.list, id))
  {
  }

  lemma NextOfOther(list: seq<nat>, id: nat)
    requires NoDup(list) && id in list
    ensures NextOf(list, id) != Some(id)
  {
  }

  lemma StepNotFarther(s: State, step: Step, x: nat)
    requires Inv(s) && Enabled(s, step)
    requires x in s.list && x in Next(s, step).list
    requires forall id | id in Next(s, step).list :: id in s.list
    requires step.Visit? ==> Due(s.list, s.cur) != x
    ensures CursorIn(Next(s, step).list, Next(s, step).cur)
    ensures var r := Next(s, step);
      Distance(r.list, r.cur, x) + (if step.Visit? then 1 else 0) <= Distance(s.list, s.cur, x)
  {
    if step.Drain? {
      DrainNotFarther(s, x);
    } else if step.Visit? {
      VisitOtherNearer(s, step, x);
    } else {
      QuietStepOn(s, step, Ticket(x, 0));
    }
  }

  /** Without additions, every timer that stays in the list is visited within as many visits as the
      list was long, whatever is killed or set in between. */
  lemma {:induction false} LapVisitsAll(s: State, steps: seq<Step>, x: nat)
    requires Inv(s) && Runnable(s, steps) && NoAdditions(s, steps)
    requires x in Run(s, steps).list
    ensures x in s.list
    ensures |s.list| <= |VisitsOf(s, steps)| ==> x in VisitsOf(s, steps)
  {
    LapDistance(s, steps, x);
  }

  lemma {:induction false} LapDistance(s: State, steps: seq<Step>, x: nat)
    requires Inv(s) && Runnable(s, steps) && NoAdditions(s, steps)
    requires x in Run(s, steps).list
    ensures x in s.list
    ensures var r := Run(s, steps);
      && CursorIn(s.list, s.cur) && CursorIn(r.list, r.cur)
      && (x !in VisitsOf(s, steps) ==>
            |VisitsOf(s, steps)| + Distance(r.list, r.cur, x) <= Distance(s.list, s.cur, x))
  {
    if steps != [] {
      var before := steps[..|steps| - 1];
      LapDistance(s, before, x);
      RunInv(s, before);
      RunInv(s, steps);
      var b, step := Run(s, before), steps[|steps| - 1];
      if step.Visit? ==> Due(b.list, b.cur) != x {
        StepNotFarther(b, step, x);
      }
    }
  }

  // ----- a due timer fires -----

  /** Nobody calls killTimer(x), and the clock is past x's period whenever the worker looks at it. */
  ghost predicate PastDue(steps: seq<Step>, x: nat, base: Clock, period: nat) {
    forall k | 0 <= k < |steps| ::
      steps[k] != Kill(x) && (steps[k].Visit? ==> NotBefore(base, period, steps[k].now))
  }

  /** t is in the list and has not fired since it was `slot`. */
  ghost predicate Waiting(s: State, t: Ticket, slot: Slot) {
    t.id in s.list && t.id < |s.slots| && s.slots[t.id] == slot && slot.gen == t.gen && slot.status == Added
  }

  /** Only its own visit, which fires it, or killTimer changes a waiting timer. */
  lemma WaitingStep(s: State, step: Step, t: Ticket, slot: Slot)
    requires Inv(s) && Enabled(s, step) && Waiting(s, t, slot) && step != Kill(t.id)
    requires step.Visit? ==> NotBefore(slot.base, slot.period, step.now)
    ensures var r := Next(s, step);
      if step.Visit? && Due(s.list, s.cur) == t.id
      then Count(r.fires, t) == Count(s.fires, t) + 1
      else Waiting(r, t, slot) && Count(r.fires, t) == Count(s.fires, t)
  {
    hide Count;
    if step.Drain? {
      DrainEffect(s);
    } else if step.Visit? {
      hide Next, Inv, Enabled;
      VisitFires(s, step.now, step.again);
      var fired := Ticket(Due(s.list, s.cur), s.slots[Due(s.list, s.cur)].gen);
      CountMore(s.fires, Fire(fired, step.now), t);
    }
  }

  lemma CountMore(fires: seq<Fire>, fire: Fire, t: Ticket)
    ensures Count(fires + [fire], t) == Count(fires, t) + if fire.timer == t then 1 else 0
  {
    assert (fires + [fire])[..|fires|] == fires;
  }

  lemma {:induction false} UnvisitedWaits(s: State, steps: seq<Step>, t: Ticket)
    requires Inv(s) && Runnable(s, steps) && t.id < |s.slots| && Waiting(s, t, s.slots[t.id])
    requires PastDue(steps, t.id, s.slots[t.id].base, s.slots[t.id].period)
    ensures var r := Run(s, steps);
      && Count(s.fires, t) <= Count(r.fires, t) && Known(r, t)
      && (t.id in VisitsOf(s, steps) ==> Count(s.fires, t) < Count(r.fires, t))
      && (Count(r.fires, t) == Count(s.fires, t) ==> Waiting(r, t, s.slots[t.id]))
  {
    if steps != [] {
      var before, step := steps[..|steps| - 1], steps[|steps| - 1];
      assert PastDue(before, t.id, s.slots[t.id].base, s.slots[t.id].period);
      UnvisitedWaits(s, before, t);
      RunInv(s, before);
      var b := Run(s, before);
      hide Next, Enabled, Inv;
      StepOn(b, step, t);
      if Count(b.fires, t) == Count(s.fires, t) {
        assert steps[|steps| - 1] == step;
        WaitingStep(b, step, t, s.slots[t.id]);
      }
    }
  }

  /** A timer in the list that nobody kills fires within as many visits as the list is long, if these
      come after its period and nothing is added meanwhile. */
  lemma DueFiresWithinLap(s: State, steps: seq<Step>, t: Ticket)
    requires Inv(s) && Runnable(s, steps) && NoAdditions(s, steps)
    requires t.id in s.list && Live(s, t) && s.slots[t.id].status == Added
    requires PastDue(steps, t.id, s.slots[t.id].base, s.slots[t.id].period)
    requires |s.list| <= |VisitsOf(s, steps)|
    ensures Count(s.fires, t) < Count(Run(s, steps).fires, t)
  {
    hide Enabled, Inv, Runnable, Run, NoAdditions, VisitsOf, PastDue;
    UnvisitedWaits(s, steps, t);
    if Count(Run(s, steps).fires, t) == Count(s.fires, t) {
      LapVisitsAll(s, steps, t.id);
    }
  }
}
