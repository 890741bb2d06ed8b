/** The locks of the server and the order in which every code path takes them: the traffic manager's
    mutex, then one group's mutex, then the timer manager's mutex; the registry's mutex alone. Any
    number of threads run any of these paths; no state is reachable in which they wait in a circle. */
module Locks {

  datatype Lock = TrafficMutex | GroupMutex(g: nat) | TimerMutex | RegistryMutex

  datatype Event = Acquire(l: Lock) | Release(l: Lock)

  /** The paths that take locks, each started with none held. */
  datatype Path =
    | SetTimer                          // allocate, then push
    | KillTimer(reclaims: bool)         // reclaim locks the same recursive mutex again
    | TimerDrain(deleted: nat)
    | TimerFire(g: nat, last: bool)     // __onTimer puts a message; then maybe _delTimer
    | Attach(g: nat)                    // onAttach sets a timer
    | RecycleNodes(groups: seq<nat>)    // detach, one node after the other
    | RecycleNode
    | UseQueue(g: nat)                  // putMessage, or a read of _rollingQueue
    | RollNode(g: nat)
    | Registry                          // register, unregister or find

  ghost function Script(p: Path): seq<Event> {
    match p
    case SetTimer => Once(TimerMutex) + Once(TimerMutex)
    case KillTimer(reclaims) =>
      [Acquire(TimerMutex)] + (if reclaims then Once(TimerMutex) else []) + [Release(TimerMutex)]
    case TimerDrain(deleted) => [Acquire(TimerMutex)] + Reclaims(deleted)
    case TimerFire(g, last) => Once(GroupMutex(g)) + (if last then Once(TimerMutex) else [])
    case Attach(g) => [Acquire(GroupMutex(g))] + Once(TimerMutex) + Once(TimerMutex) + [Release(GroupMutex(g))]
    case RecycleNodes(groups) => [Acquire(TrafficMutex)] + Detaches(groups)
    case RecycleNode => Once(TrafficMutex)
    case UseQueue(g) => Once(GroupMutex(g))
    case RollNode(g) => Once(GroupMutex(g))
    case Registry => Once(RegistryMutex)
  }

  ghost function Once(l: Lock): seq<Event> {
    [Acquire(l), Release(l)]
  }

  ghost function Reclaims(deleted: nat): seq<Event> {
    if deleted == 0 then [Release(TimerMutex)] else Once(TimerMutex) + Reclaims(deleted - 1)
  }

  ghost function Detaches(groups: seq<nat>): seq<Event> {
    if groups == [] then [Release(TrafficMutex)] else Once(GroupMutex(groups[0])) + Detaches(groups[1..])
  }

  // ----- the system -----

  /** The locks a thread holds, the innermost last, and what is left of its path. */
  datatype Thread = Thread(held: seq<Lock>, todo: seq<Event>)

  type State = seq<Thread>

  /** Only the timer manager's mutex is recursive. */
  ghost predicate Free(s: State, i: nat, l: Lock)
    requires i < |s|
  {
    && (l in s[i].held ==> l == TimerMutex)
    && forall j | 0 <= j < |s| && j != i :: l !in s[j].held
  }

  datatype Step = Start(i: nat, p: Path) | Go(i: nat)

  ghost predicate Enabled(s: State, step: Step) {
    match step
    case Start(i, _) => i < |s| && s[i].todo == []
    case Go(i) => i < |s| && s[i].todo != [] && (s[i].todo[0].Acquire? ==> Free(s, i, s[i].todo[0].l))
  }

  ghost function Next(s: State, step: Step): State
    requires Enabled(s, step)
  {
    match step
    case Start(i, p) => s[i := s[i].(todo := Script(p))]
    case Go(i) =>
      var t := s[i];
      match t.todo[0]
      case Acquire(l) => s[i := Thread(t.held + [l], t.todo[1..])]
      case Release(l) => s[i := Thread(if t.held == [] then [] else t.held[..|t.held| - 1], t.todo[1..])]
  }

  // ----- the order -----

  ghost function Rank(l: Lock): nat {
    match l
    case TrafficMutex => 0
    case GroupMutex(_) => 1
    case TimerMutex => 2
    case RegistryMutex => 3
  }

  /** l may be taken while these are held. */
  ghost predicate Orderly(held: seq<Lock>, l: Lock) {
    (l == TimerMutex && l in held && forall h | h in held :: Rank(h) <= Rank(l))
    || forall h | h in held :: Rank(h) < Rank(l)
  }

  /** The rest of a path takes locks in order, releases the innermost, and ends with none. */
  ghost predicate Disciplined(held: seq<Lock>, todo: seq<Event>)
    decreases |todo|
  {
    if todo == [] then held == []
    else match todo[0]
      case Acquire(l) => Orderly(held, l) && Disciplined(held + [l], todo[1..])
      case Release(l) => held != [] && held[|held| - 1] == l && Disciplined(held[..|held| - 1], todo[1..])
  }

  lemma OnceDisciplined(held: seq<Lock>, l: Lock, rest: seq<Event>)
    requires Orderly(held, l) && Disciplined(held, rest)
    ensures Disciplined(held, Once(l) + rest)
  {
    var todo := Once(l) + rest;
    assert todo[1..] == [Release(l)] + rest && ([Release(l)] + rest)[1..] == rest;
    assert (held + [l])[..|held|] == held;
  }

  lemma {:induction false} ReclaimsDisciplined(deleted: nat)
    ensures Disciplined([TimerMutex], Reclaims(deleted))
  {
    if deleted == 0 {
      assert [TimerMutex][..0] == [] && [Release(TimerMutex)][1..] == [];
    } else {
      ReclaimsDisciplined(deleted - 1);
      OnceDisciplined([TimerMutex], TimerMutex, Reclaims(deleted - 1));
    }
  }

  lemma {:induction false} DetachesDisciplined(groups: seq<nat>)
    ensures Disciplined([TrafficMutex], Detaches(groups))
  {
    if groups == [] {
      assert [TrafficMutex][..0] == [] && [Release(TrafficMutex)][1..] == [];
    } else {
      DetachesDisciplined(groups[1..]);
      OnceDisciplined([TrafficMutex], GroupMutex(groups[0]), Detaches(groups[1..]));
    }
  }

  lemma Inside(l: Lock, rest: seq<Event>)
    requires Disciplined([l], rest)
    ensures Disciplined([], [Acquire(l)] + rest)
  {
    assert ([Acquire(l)] + rest)[1..] == rest && [] + [l] == [l];
  }

  lemma LastRelease(l: Lock)
    ensures Disciplined([l], [Release(l)])
  {
    assert [l][..0] == [] && [Release(l)][1..] == [];
  }

  /** Every path of the code takes its locks in order. */
  lemma PathDisciplined(p: Path)
    ensures Disciplined([], Script(p))
  {
    match p
    case SetTimer =>
      OnceDisciplined([], TimerMutex, []);
      assert Once(TimerMutex) + [] == Once(TimerMutex);
      OnceDisciplined([], TimerMutex, Once(TimerMutex));
    case KillTimer(reclaims) =>
      LastRelease(TimerMutex);
      OnceDisciplined([TimerMutex], TimerMutex, [Release(TimerMutex)]);
      var rest := (if reclaims then Once(TimerMutex) else []) + [Release(TimerMutex)];
      Inside(TimerMutex, rest);
      assert Script(p) == [Acquire(TimerMutex)] + rest;
    case TimerDrain(deleted) =>
      ReclaimsDisciplined(deleted);
      Inside(TimerMutex, Reclaims(deleted));
    case TimerFire(g, last) =>
      OnceDisciplined([], TimerMutex, []);
      assert Once(TimerMutex) + [] == Once(TimerMutex);
      OnceDisciplined([], GroupMutex(g), if last then Once(TimerMutex) else []);
    case Attach(g) =>
      LastRelease(GroupMutex(g));
      OnceDisciplined([GroupMutex(g)], TimerMutex, [Release(GroupMutex(g))]);
      var rest := Once(TimerMutex) + [Release(GroupMutex(g))];
      OnceDisciplined([GroupMutex(g)], TimerMutex, rest);
      Inside(GroupMutex(g), Once(TimerMutex) + rest);
      assert Script(p) == [Acquire(GroupMutex(g))] + (Once(TimerMutex) + rest);
    case RecycleNodes(groups) =>
      DetachesDisciplined(groups);
      Inside(TrafficMutex, Detaches(groups));
    case RecycleNode => Single(TrafficMutex);
    case UseQueue(g) => Single(GroupMutex(g));
    case RollNode(g) => Single(GroupMutex(g));
    case Registry => Single(RegistryMutex);
  }

  lemma Single(l: Lock)
    ensures Disciplined([], Once(l))
  {
    OnceDisciplined([], l, []);
    assert Once(l) + [] == Once(l);
  }

  // ----- every reachable state -----

  ghost predicate Inv(s: State) {
    && (forall i | 0 <= i < |s| :: Disciplined(s[i].held, s[i].todo))
    && (forall i, j, l | 0 <= i < |s| && 0 <= j < |s| && l in s[i].held && l in s[j].held :: i == j)
  }

  lemma NextInv(s: State, step: Step)
    requires Inv(s) && Enabled(s, step)
    ensures Inv(Next(s, step))
  {
    match step
    case Start(i, p) => PathDisciplined(p);
    case Go(i) => assert Disciplined(s[i].held, s[i].todo);
  }

  ghost predicate Behavior(b: seq<State>, steps: seq<Step>) {
    && |b| == |steps| + 1
    && (forall i | 0 <= i < |b[0]| :: b[0][i] == Thread([], []))
    && forall i {:trigger steps[i]} | 0 <= i < |steps| :: Enabled(b[i], steps[i]) && b[i + 1] == Next(b[i], steps[i])
  }

  lemma {:induction false} BehaviorInv(b: seq<State>, steps: seq<Step>, k: nat)
    requires Behavior(b, steps) && k < |b|
    ensures Inv(b[k])
  {
    if k > 0 {
      BehaviorInv(b, steps, k - 1);
      assert Enabled(b[k - 1], steps[k - 1]) && b[k] == Next(b[k - 1], steps[k - 1]);
      NextInv(b[k - 1], steps[k - 1]);
    }
  }

  /** Thread i wants a lock that thread j holds. */
  ghost predicate WaitsFor(s: State, i: nat, j: nat) {
    && i < |s| && j < |s| && i != j
    && s[i].todo != [] && s[i].todo[0].Acquire? && s[i].todo[0].l in s[j].held
  }

  /** A thread never waits for itself, and the lock a waiting thread wants ranks above all it holds. */
  lemma Blocked(s: State, i: nat)
    requires Inv(s) && i < |s| && s[i].todo != [] && !Enabled(s, Go(i))
    ensures s[i].todo[0].Acquire?
    ensures forall h | h in s[i].held :: Rank(h) < Rank(s[i].todo[0].l)
    ensures exists j :: WaitsFor(s, i, j)
  {
    var l := s[i].todo[0].l;
    assert Disciplined(s[i].held, s[i].todo);
    var j :| 0 <= j < |s| && j != i && l in s[j].held;
    assert WaitsFor(s, i, j);
  }

  /** Whoever is waited for is in the middle of a path. */
  lemma HolderIsBusy(s: State, i: nat, j: nat)
    requires Inv(s) && WaitsFor(s, i, j)
    ensures s[j].todo != []
  {
    assert Disciplined(s[j].held, s[j].todo);
  }

  /** A circle of waiting threads: each one waits for the next. */
  ghost predicate Chain(s: State, p: seq<nat>) {
    forall k {:trigger p[k]} | 0 <= k < |p| - 1 :: WaitsFor(s, p[k], p[k + 1]) && !Enabled(s, Go(p[k]))
  }

  lemma {:induction false} ChainRises(s: State, p: seq<nat>, k: nat)
    requires Inv(s) && Chain(s, p) && 0 < k < |p| - 1
    ensures WaitsFor(s, p[0], p[1]) && WaitsFor(s, p[k], p[k + 1])
    ensures Rank(s[p[0]].todo[0].l) < Rank(s[p[k]].todo[0].l)
  {
    assert WaitsFor(s, p[0], p[0 + 1]) && WaitsFor(s, p[k], p[k + 1]);
    assert WaitsFor(s, p[k - 1], p[k - 1 + 1]);
    Blocked(s, p[k]);
    if k > 1 {
      ChainRises(s, p, k - 1);
    }
  }

  /** No cyclic wait is reachable, for any number of threads and groups. */
  lemma NoCyclicWait(b: seq<State>, steps: seq<Step>, k: nat, p: seq<nat>)
    requires Behavior(b, steps) && k < |b| && 2 <= |p| && Chain(b[k], p)
    ensures p[0] != p[|p| - 1]
  {
    BehaviorInv(b, steps, k);
    var s, n := b[k], |p| - 1;
    assert WaitsFor(s, p[0], p[0 + 1]) && WaitsFor(s, p[n - 1], p[n - 1 + 1]);
    Blocked(s, p[0]);
    if n > 1 {
      ChainRises(s, p, n - 1);
    }
  }

  /** While any thread is in the middle of a path, some thread can go on. */
  lemma NoDeadlock(b: seq<State>, steps: seq<Step>, k: nat, i: nat)
    requires Behavior(b, steps) && k < |b| && i < |b[k]| && b[k][i].todo != []
    ensures exists j :: Enabled(b[k], Go(j))
  {
    BehaviorInv(b, steps, k);
    SomeoneGoes(b[k], i);
  }

  lemma {:induction false} SomeoneGoes(s: State, i: nat)
    requires Inv(s) && i < |s| && s[i].todo != []
    ensures exists j :: Enabled(s, Go(j))
    decreases if s[i].todo[0].Acquire? then 4 - Rank(s[i].todo[0].l) else 0
  {
    if !Enabled(s, Go(i)) {
      Blocked(s, i);
      var j :| WaitsFor(s, i, j);
      HolderIsBusy(s, i, j);
      if !Enabled(s, Go(j)) {
        Blocked(s, j);
        SomeoneGoes(s, j);
      }
    }
  }
}
