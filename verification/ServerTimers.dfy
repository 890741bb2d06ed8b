/** The part of the server's invariant about timers: every armed timer is known to its session, and
    what the sessions hold in the middle of setTimer is theirs alone. */
module ServerTimers {
  import opened Sessions
  import opened Server
  import T = TimerSpec
  import R = TimerRuns

  /** Session n becomes t and the timers change: what has to be shown. */
  lemma SessionStep(sessions: seq<Session>, timers: T.State, n: nat, t: Session, timers': T.State)
    requires TimersOk(sessions, timers) && n < |sessions| && T.Inv(timers')
    requires |timers'.slots| == |timers.slots|
    requires forall id | 0 <= id < |timers'.slots| && Armed(timers'.slots[id]) ::
      || (timers'.slots[id].owner == n && id in Recorded(t))
      || (Armed(timers.slots[id]) && timers.slots[id].owner == timers'.slots[id].owner != n)
    requires Holds(t, timers')
    requires forall m | 0 <= m < |sessions| && m != n :: Holds(sessions[m], timers') && Disjoint(sessions[m], t)
    ensures TimersOk(sessions[n := t], timers')
  {
    var after := sessions[n := t];
    forall a, b | 0 <= a < |after| && 0 <= b < |after| && a != b
      ensures Disjoint(after[a], after[b])
    {
      if a == n {
        assert Disjoint(sessions[b], t);
      } else if b != n {
        assert Disjoint(sessions[a], sessions[b]);
      }
    }
  }

  /** The session changes without touching the timers, and forgets none of them. */
  lemma PrivateStep(sessions: seq<Session>, timers: T.State, n: nat, t: Session)
    requires TimersOk(sessions, timers) && n < |sessions|
    requires Recorded(t) == Recorded(sessions[n])
    requires t.pc.Arming? ==> !t.pc.stage.Filling? && !t.pc.stage.Enqueueing?
    ensures TimersOk(sessions[n := t], timers)
  {
    assert Holds(sessions[n], timers);
    SessionStep(sessions, timers, n, t, timers);
  }

  lemma KillOther(u: Session, timers: T.State, id: nat)
    requires Holds(u, timers) && T.Enabled(timers, T.Kill(id))
    ensures Holds(u, T.Killed(timers, id))
  {
  }

  lemma KilledSize(timers: T.State, id: nat)
    requires id < |timers.slots|
    ensures |T.Killed(timers, id).slots| == |timers.slots|
    ensures forall j | 0 <= j < |timers.slots| && timers.slots[j].status != T.Nothing ::
      T.Killed(timers, id).slots[j].status != T.Nothing
  {
  }

  /** What is armed after a killTimer call was armed before, and is another timer. */
  lemma KilledArmed(timers: T.State, id: nat, j: nat)
    requires id < |timers.slots| && j < |timers.slots| && Armed(T.Killed(timers, id).slots[j])
    ensures Armed(timers.slots[j]) && timers.slots[j].owner == T.Killed(timers, id).slots[j].owner && j != id
  {
  }

  /** A killTimer call: the killed timer is not armed any more. */
  lemma KillStep(sessions: seq<Session>, timers: T.State, n: nat, t: Session, id: nat)
    requires TimersOk(sessions, timers) && n < |sessions| && T.Enabled(timers, T.Kill(id))
    requires Recorded(t) <= Recorded(sessions[n]) <= Recorded(t) + {id}
    requires !t.pc.Arming?
    ensures TimersOk(sessions[n := t], T.Killed(timers, id))
  {
    hide T.Inv, T.Killed, Separate;
    var timers' := T.Killed(timers, id);
    T.KillInv(timers, id);
    KilledSize(timers, id);
    forall m | 0 <= m < |sessions|
      ensures Holds(sessions[m], timers')
    {
      assert Holds(sessions[m], timers);
      KillOther(sessions[m], timers, id);
    }
    assert Holds(t, timers');
    forall j: nat | j < |timers'.slots| && Armed(timers'.slots[j])
      ensures || (timers'.slots[j].owner == n && j in Recorded(t))
              || (Armed(timers.slots[j]) && timers.slots[j].owner == timers'.slots[j].owner != n)
    {
      KilledArmed(timers, id, j);
    }
    SessionStep(sessions, timers, n, t, timers');
  }

  lemma AllocateStep(sessions: seq<Session>, timers: T.State, n: nat, t: Session)
    requires TimersOk(sessions, timers) && n < |sessions| && timers.free != []
    requires sessions[n].pc.Arming? && sessions[n].pc.stage.Allocating?
    requires t == sessions[n].(pc := Arming(sessions[n].pc.use, Filling(timers.free[0])))
    ensures TimersOk(sessions[n := t], T.Allocated(timers))
  {
    T.AllocateInv(timers);
    var timers', id := T.Allocated(timers), timers.free[0];
    assert Holds(sessions[n], timers);
    assert Recorded(t) == Recorded(sessions[n]);
    assert id in timers.free && id !in timers.setting;
    forall m | 0 <= m < |sessions| && m != n
      ensures Holds(sessions[m], timers') && Disjoint(sessions[m], t)
    {
      assert Holds(sessions[m], timers);
    }
    SessionStep(sessions, timers, n, t, timers');
  }

  /** Another session does not notice that slot `id` is filled. */
  lemma FillOther(t: Session, u: Session, timers: T.State, period: nat, owner: nat, tag: nat, times: nat, now: T.Clock)
    requires T.Inv(timers) && Holds(t, timers) && Holds(u, timers) && Disjoint(u, t)
    requires t.pc.Arming? && t.pc.stage.Filling? && t.pc.stage.id < |timers.slots|
    ensures var id := t.pc.stage.id;
      && Holds(u, T.Filled(timers, id, period, owner, tag, times, now))
      && Disjoint(u, t.(pc := Arming(t.pc.use, Enqueueing(T.Ticket(id, timers.slots[id].gen + 1)))))
  {
  }

  lemma FillStep(sessions: seq<Session>, timers: T.State, n: nat, t: Session, period: nat, now: T.Clock)
    requires TimersOk(sessions, timers) && n < |sessions|
    requires sessions[n].pc.Arming? && sessions[n].pc.stage.Filling? && sessions[n].pc.stage.id < |timers.slots|
    requires var use, id := sessions[n].pc.use, sessions[n].pc.stage.id;
      t == sessions[n].(pc := Arming(use, Enqueueing(T.Ticket(id, timers.slots[id].gen + 1))))
    ensures var use, id := sessions[n].pc.use, sessions[n].pc.stage.id;
      TimersOk(sessions[n := t], T.Filled(timers, id, period, n, Tag(use), Times(use), now))
  {
    var use, id := sessions[n].pc.use, sessions[n].pc.stage.id;
    var timers' := T.Filled(timers, id, period, n, Tag(use), Times(use), now);
    assert Holds(sessions[n], timers);
    assert Recorded(t) == Recorded(sessions[n]) + {id};
    forall m | 0 <= m < |sessions| && m != n
      ensures Holds(sessions[m], timers') && Disjoint(sessions[m], t)
    {
      assert Holds(sessions[m], timers) && Disjoint(sessions[m], sessions[n]);
      FillOther(sessions[n], sessions[m], timers, period, n, Tag(use), Times(use), now);
    }
    assert T.Inv(timers') by {
      T.FillInv(timers, id, period, n, Tag(use), Times(use), now);
    }
    SessionStep(sessions, timers, n, t, timers');
  }

  lemma EnqueueStep(sessions: seq<Session>, timers: T.State, n: nat, t: Session)
    requires TimersOk(sessions, timers) && n < |sessions|
    requires sessions[n].pc.Arming? && sessions[n].pc.stage.Enqueueing?
    requires t == sessions[n].(pc := Arming(sessions[n].pc.use, Recording(sessions[n].pc.stage.timer.id)))
    ensures TimersOk(sessions[n := t], T.Enqueued(timers, sessions[n].pc.stage.timer))
  {
    var timer := sessions[n].pc.stage.timer;
    assert Holds(sessions[n], timers);
    T.EnqueueInv(timers, timer);
    var timers' := T.Enqueued(timers, timer);
    assert Recorded(t) == Recorded(sessions[n]);
    forall m | 0 <= m < |sessions| && m != n
      ensures Holds(sessions[m], timers') && Disjoint(sessions[m], t)
    {
      assert Holds(sessions[m], timers);
      assert Disjoint(sessions[m], sessions[n]);
    }
    SessionStep(sessions, timers, n, t, timers');
  }

  /** The worker's phases arm no timer and change no owner. */
  lemma WorkerStep(sessions: seq<Session>, timers: T.State, timers': T.State)
    requires TimersOk(sessions, timers) && T.Inv(timers')
    requires |timers'.slots| == |timers.slots|
    requires timers'.setting == timers.setting && timers'.pending == timers.pending
    requires forall id | 0 <= id < |timers.slots| ::
      && (Armed(timers'.slots[id]) ==> Armed(timers.slots[id]) && timers'.slots[id].owner == timers.slots[id].owner)
      && (timers.slots[id].status != T.Nothing ==> timers'.slots[id].status != T.Nothing)
    ensures TimersOk(sessions, timers')
  {
    forall m | 0 <= m < |sessions|
      ensures Holds(sessions[m], timers')
    {
      assert Holds(sessions[m], timers);
    }
  }

  lemma DrainStep(sessions: seq<Session>, timers: T.State)
    requires TimersOk(sessions, timers)
    ensures T.DelReady(timers) && TimersOk(sessions, T.Drained(timers))
  {
    T.DrainInv(timers);
    R.DrainEffect(timers);
    T.AddAllInv(timers);
    R.AddAllEffect(timers);
    R.DelAllEffect(T.AddAll(timers));
    WorkerStep(sessions, timers, T.Drained(timers));
  }

  lemma VisitStep(sessions: seq<Session>, timers: T.State, now: T.Clock)
    requires TimersOk(sessions, timers)
    ensures T.VisitReady(timers) && TimersOk(sessions, T.Visited(timers, now, true))
  {
    T.VisitInv(timers, now, true);
    WorkerStep(sessions, timers, T.Visited(timers, now, true));
  }
}
