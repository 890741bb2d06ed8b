/** Alarms for the threads: what the waiting timers of a session are, in every run in which nodes are
    accepted only when nothing refers to them any more, and what their messages mean. */
module AlarmRuns {
  import opened Prelude
  import opened RoundRobin
  import opened Sessions
  import opened Workers
  import opened WorkersSerial
  import opened WorkerRuns
  import opened Lost
  import A = Alarms
  import T = TimerSpec
  import S = Server
  import SR = ServerRuns
  import R = TimerRuns

  /** The timer that is armed in slot id. */
  ghost function SlotAt(s: State, id: nat): T.Slot
    requires id < |s.base.world.timers.slots|
  {
    s.base.world.timers.slots[id]
  }

  ghost predicate ArmedFor(s: State, id: nat, n: nat) {
    id < |s.base.world.timers.slots| && S.Armed(SlotAt(s, id)) && SlotAt(s, id).owner == n
  }

  /** The thread that handles n is inside setTimer, which has filled slot id: for the handshake time-out,
      for the keepalive, or for the ack of the message with this number. */
  ghost predicate SetsHandshake(s: State, n: nat, id: nat)
    requires n < |s.base.sessions| == |s.base.home|
  {
    A.Sets(PcOf(s, n), Handshake, id)
  }

  ghost predicate SetsKeepalive(s: State, n: nat, id: nat)
    requires n < |s.base.sessions| == |s.base.home|
  {
    A.Sets(PcOf(s, n), KeepLive, id)
  }

  ghost predicate SetsAck(s: State, n: nat, number: nat, id: nat)
    requires n < |s.base.sessions| == |s.base.home|
  {
    A.SetsAck(PcOf(s, n), number, id)
  }

  /** The slot is recorded, or about to be, for the pushed message with this number. */
  ghost predicate AckSlot(s: State, n: nat, number: nat, id: nat)
    requires n < |s.base.sessions| == |s.base.home|
  {
    var t := s.base.sessions[n];
    (number in t.seqTimers && t.seqTimers[number] == id) || SetsAck(s, n, number, id)
  }

  lemma FitsNow(b: seq<State>, steps: seq<Step>, i: nat, n: nat, id: nat)
    requires Behavior(b, steps) && CleanAccepts(b, steps) && i < |b| && ArmedFor(b[i], id, n)
    ensures n < |b[i].base.sessions| == |b[i].base.home| && SlotAt(b[i], id).period == b[i].base.world.interval
    ensures A.Fits(SessionOf(b[i], n), SlotAt(b[i], id), id)
  {
    hide Inv, Next, Enabled, Initial, A.Fits;
    RunsAreSerial(b, steps);
    assert AbsRun(b)[i] == Abs(b[i]);
    AbsWorld(b[i]);
    A.RunFits(AbsRun(b), AbsSteps(b, steps), i);
  }

  /** Every timer that waits or is in the list unkilled has the configured period and is for a session
      that has asked for it: for one that waits for its handshake it carries CONNECTED and fires once; for
      a ready one it is the keepalive, carries READY and has no end, or it carries the number of a pushed
      message whose ack is outstanding, and fires once; a session that is over is about to kill it. */
  lemma TimersAreFor(b: seq<State>, steps: seq<Step>, i: nat, n: nat, id: nat)
    requires Behavior(b, steps) && CleanAccepts(b, steps) && i < |b| && ArmedFor(b[i], id, n)
    ensures n < |b[i].base.sessions| == |b[i].base.home|
    ensures var t, slot := b[i].base.sessions[n], SlotAt(b[i], id);
      && slot.period == b[i].base.world.interval && t.status != Free
      && (t.status == Connected ==>
            slot.tag == Code(Connected) && slot.times == 1 && (t.keepLive == Some(id) || SetsHandshake(b[i], n, id)))
      && (t.status == Ready ==>
            || (slot.tag == Code(Ready) && slot.times == 0 && (t.keepLive == Some(id) || SetsKeepalive(b[i], n, id)))
            || (slot.times == 1 && AckSlot(b[i], n, slot.tag, id)))
      && (t.status == Over ==> PcOf(b[i], n).Stopping? && id in PcOf(b[i], n).ids)
  {
    hide Behavior, CleanAccepts;
    FitsNow(b, steps, i, n, id);
  }

  /** The other way round: what a session records as its keepalive timer carries READY and has no end
      exactly if no pushed message has got the slot meanwhile; and what it records for a pushed message
      carries the message's number unless a later one has got the slot. */
  lemma RecordsAreFor(b: seq<State>, steps: seq<Step>, i: nat, n: nat, id: nat)
    requires Behavior(b, steps) && CleanAccepts(b, steps) && i < |b| && ArmedFor(b[i], id, n)
    ensures n < |b[i].base.sessions| == |b[i].base.home|
    ensures var t, slot := b[i].base.sessions[n], SlotAt(b[i], id);
      && (t.status == Ready && t.keepLive == Some(id) ==>
            (slot.tag == Code(Ready) && slot.times == 0 <==> forall k: nat :: !AckSlot(b[i], n, k, id)))
      && (forall k: nat | t.status == Ready && AckSlot(b[i], n, k, id) ::
            slot.times == 1 && AckSlot(b[i], n, slot.tag, id))
  {
    hide Behavior, CleanAccepts;
    FitsNow(b, steps, i, n, id);
    var t, slot, pc := b[i].base.sessions[n], SlotAt(b[i], id), PcOf(b[i], n);
    assert slot.times == 1 ==> A.IsKeepalive(SessionOf(b[i], n), slot, id) == false;
    if t.status == Ready && slot.times == 1 {
      assert AckSlot(b[i], n, slot.tag, id);
    }
  }

  // ----- what setTimer writes -----

  /** A thread that handles n is in the middle of a setTimer, which has got slot id. */
  ghost predicate Fills(s: State, step: Step, n: nat, use: Use, id: nat) {
    || (step.Call? && step.g < |s.workers| && s.workers[step.g] == Running(n, Arming(use, Filling(id))))
    || (step.Attach? && s.accepting == Running(n, Arming(use, Filling(id))))
  }

  /** Then the slot waits to be added, for n, with the configured period, counted from now. */
  lemma SetTimerFills(s: State, step: Step, n: nat, use: Use, id: nat)
    requires Inv(s) && Enabled(s, step) && Fills(s, step, n, use, id)
    ensures id < |s.base.world.timers.slots| == |Next(s, step).base.world.timers.slots|
    ensures SlotAt(Next(s, step), id)
      == T.Slot(s.base.world.interval, n,
                match use case Handshake => Code(Connected) case KeepLive => Code(Ready) case Ack(number, _) => number,
                match use case Handshake => 1 case KeepLive => 0 case Ack(_, _) => 1,
                step.now, T.ToBeAdd, SlotAt(s, id).gen + 1)
  {
    hide Inv;
  }

  // ----- the keepalive -----

  /** Slot id is armed for n without end. */
  ghost predicate Endless(s: State, n: nat, id: nat) {
    ArmedFor(s, id, n) && SlotAt(s, id).times == 0
  }

  /** A worker calls killTimer(id). */
  ghost predicate KillsTimer(s: State, step: Step, id: nat) {
    && step.Call? && step.g < |s.workers| && s.workers[step.g].Running? && s.workers[step.g].n < |s.base.sessions|
    && var t := s.base.sessions[s.workers[step.g].n];
       match s.workers[step.g].pc
       case Greeting(_) => t.keepLive == Some(id)
       case Forgetting(k) => k in t.seqTimers && t.seqTimers[k] == id
       case Stopping(ids, _) => ids != [] && ids[0] == id
       case _ => false
  }

  lemma KillsView(s: State, step: Step, id: nat)
    requires Inv(s) && Enabled(s, step)
    ensures KillsTimer(s, step, id) <==> A.KillsNow(Abs(s), AbsStep(s, step), id)
  {
    hide S.Inv;
    if step.Call? {
      WorkerAt(s, step.g);
    } else if step.Attach? {
      AcceptingPc(s);
    }
  }

  /** While n is ready, its keepalive timer stays armed exactly until somebody calls killTimer with its
      id. */
  lemma KeepaliveLasts(b: seq<State>, steps: seq<Step>, n: nat, id: nat, i: nat, j: nat)
    requires Behavior(b, steps) && CleanAccepts(b, steps) && i <= j < |b| == |steps| + 1 && ReadyDuring(b, n, i, j)
    requires |b[i].base.sessions| == |b[i].base.home|
    requires b[i].base.sessions[n].keepLive == Some(id) || SetsKeepalive(b[i], n, id)
    requires Endless(b[i], n, id)
    ensures Endless(b[j], n, id) <==> forall k | i <= k < j :: !KillsTimer(b[k], steps[k], id)
    ensures |b[j].base.sessions| == |b[j].base.home|
    ensures b[j].base.sessions[n].keepLive == Some(id) || SetsKeepalive(b[j], n, id)
  {
    hide Inv, Next, Initial, Enabled, KillsTimer, A.KillsNow, SR.Behavior, Behavior, CleanAccepts, ReadyDuring, SR.ReadyDuring;
    RunsAreSerial(b, steps);
    var a, asteps := AbsRun(b), AbsSteps(b, steps);
    ReadyView(b, n, i, j);
    ReadyAt(b, n, i, j);
    assert a[i] == Abs(b[i]) && a[j] == Abs(b[j]);
    EndlessView(b[i], n, id);
    EndlessView(b[j], n, id);
    A.KeepaliveLasts(a, asteps, n, id, i, j);
    forall k: nat | i <= k < j
      ensures KillsTimer(b[k], steps[k], id) <==> A.KillsNow(a[k], asteps[k], id)
    {
      BehaviorInv(b, steps, k);
      StepRefines(b, steps, k);
      KillsView(b[k], steps[k], id);
      assert a[k] == Abs(b[k]) && asteps[k] == AbsStep(b[k], steps[k]);
    }
  }

  lemma ReadyAt(b: seq<State>, n: nat, i: nat, j: nat)
    requires i <= j < |b| && ReadyDuring(b, n, i, j)
    ensures n < |b[i].base.sessions| && b[i].base.sessions[n].status == Ready
    ensures n < |b[j].base.sessions| && b[j].base.sessions[n].status == Ready
  {
  }

  lemma EndlessView(s: State, n: nat, id: nat)
    requires n < |s.base.sessions| == |s.base.home| && s.base.sessions[n].status == Ready
    ensures Endless(s, n, id) <==> A.Endless(Abs(s).world.timers, n, id)
    ensures s.base.sessions[n].keepLive == Some(id) || SetsKeepalive(s, n, id) <==> A.Keeps(Abs(s).sessions[n], id)
  {
  }

  /** The timer thread is in front of slot id, and its period is over at `now`. */
  ghost predicate DueAt(s: State, id: nat, now: T.Clock) {
    && T.VisitReady(s.base.world.timers) && s.base.world.timers.list != []
    && Due(s.base.world.timers.list, s.base.world.timers.cur) == id
    && R.NotBefore(SlotAt(s, id).base, SlotAt(s, id).period, now)
  }

  /** The session's own keepalive timer: it is armed, and no pushed message has got the slot. */
  ghost predicate Keepalive(s: State, n: nat, id: nat)
    requires |s.base.sessions| == |s.base.home|
  {
    && ArmedFor(s, id, n) && n < |s.base.sessions| && s.base.sessions[n].status == Ready
    && s.base.sessions[n].keepLive == Some(id) && forall k: nat :: !AckSlot(s, n, k, id)
  }

  /** When a session's own keepalive timer is due at a visit, a message goes to the end of the queue of the
      session's group, with READY as its parameter. */
  lemma KeepaliveMessage(b: seq<State>, steps: seq<Step>, i: nat, n: nat, id: nat)
    requires Behavior(b, steps) && CleanAccepts(b, steps) && i < |steps| && |b| == |steps| + 1
    requires steps[i].TimerVisit? && steps[i].room && DueAt(b[i], id, steps[i].now)
    requires |b[i].base.sessions| == |b[i].base.home| && Keepalive(b[i], n, id)
    ensures b[i].base.home[n].Some? && b[i].base.home[n].value < |b[i].queues| == |b[i].workers|
    ensures var g := b[i].base.home[n].value;
      && b[i + 1].workers == b[i].workers
      && b[i + 1].queues == b[i].queues[g := b[i].queues[g] + [Envelope(n, OnTimer(id, Code(Ready)))]]
  {
    hide Behavior, CleanAccepts, Inv, Initial, Keepalive;
    RecordsAre(b, steps, i, n, id);
    BehaviorInv(b, steps, i);
    StepRefines(b, steps, i);
    VisitPuts(b[i], steps[i], n, id);
    QueuePerWorker(b[i]);
  }

  lemma QueuePerWorker(s: State)
    requires Inv(s)
    ensures |s.queues| == |s.workers|
  {
  }

  lemma RecordsAre(b: seq<State>, steps: seq<Step>, i: nat, n: nat, id: nat)
    requires Behavior(b, steps) && CleanAccepts(b, steps) && i < |b|
    requires |b[i].base.sessions| == |b[i].base.home| && Keepalive(b[i], n, id)
    ensures ArmedFor(b[i], id, n) && SlotAt(b[i], id).tag == Code(Ready) && SlotAt(b[i], id).times == 0
  {
    hide Behavior, CleanAccepts;
    RecordsAreFor(b, steps, i, n, id);
  }

  lemma VisitPuts(s: State, step: Step, n: nat, id: nat)
    requires Enabled(s, step) && step.TimerVisit? && step.room && DueAt(s, id, step.now)
    requires ArmedFor(s, id, n)
    ensures n < |s.base.home| && s.base.home[n].Some? && s.base.home[n].value < |s.queues|
    ensures var g := s.base.home[n].value;
      && Next(s, step).workers == s.workers
      && Next(s, step).queues == s.queues[g := s.queues[g] + [Envelope(n, OnTimer(id, SlotAt(s, id).tag))]]
  {
  }

  /** And when its turn comes, as the queue is first in first out, that message is a keepalive tick in the
      sense of KeepaliveExact, if the session is still ready and has kept the timer. */
  lemma KeepaliveTicks(b: seq<State>, steps: seq<Step>, i: nat, j: nat, n: nat, id: nat, g: nat)
    requires Behavior(b, steps) && CleanAccepts(b, steps) && i < j < |steps| && |b| == |steps| + 1
    requires steps[i].TimerVisit? && steps[i].room && DueAt(b[i], id, steps[i].now)
    requires |b[i].base.sessions| == |b[i].base.home| && Keepalive(b[i], n, id) && b[i].base.home[n] == Some(g)
    requires |b[i].workers| == |b[i].queues| && g < |b[i].workers|
    requires Dispatches(steps, g, i + 1, j) == |Line(b[i], g)| && steps[j] == Dispatch(g)
    requires n < |b[j].base.sessions| && b[j].base.sessions[n].status == Ready && b[j].base.sessions[n].keepLive == Some(id)
    ensures Tick(b[j], steps[j], n)
  {
    hide Behavior, CleanAccepts, Inv, Initial, Keepalive, Next, DueAt;
    KeepaliveMessage(b, steps, i, n, id);
    QueueForEach(b, steps, i);
    FirstInFirstOut(b, steps, g, i + 1, j);
    var line, msg := Line(b[i], g), Envelope(n, OnTimer(id, Code(Ready)));
    assert Line(b[i + 1], g) == line + [msg];
    assert (line + [msg])[|line|..] == [msg];
    assert Line(b[j], g)[0] == msg;
    BehaviorInv(b, steps, j);
    StepRefines(b, steps, j);
  }
}
