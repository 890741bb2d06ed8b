/** CRedisOperator::sendMessage over an abstract store: hashes are maps, sorted sets map a member to
    its score. Every command is one atomic step, any number of senders interleave between their
    commands, and any command may go unanswered, with or without having taken effect. */
module Store {
  import opened Prelude

  datatype Record = Record(ornType: nat, ornId: nat, ornExtId: nat, json: string)

  datatype Data = Data(
    nextId: nat,                          // gml:message:key:generator
    records: map<nat, Record>,            // gml:message:<id>
    users: map<nat, map<nat, nat>>,       // gml:message:queue:user:<user>
    groups: map<nat, map<nat, nat>>,      // gml:message:queue:group:<group>
    members: map<nat, seq<nat>>)          // gml:group:members:<group>, those with score 1

  /** TPDUSendMsg and its sender: dstType is 1 for a user, 2 for a group. */
  datatype Request = Request(from: nat, dstType: nat, dst: nat, json: string)

  datatype Answer = Answered | Lost(applied: bool)

  /** The command a sendMessage is in front of. `complete`: every zadd so far has taken effect. */
  datatype Pc =
    | Numbering
    | Storing(id: nat)
    | Queueing(id: nat)
    | Listing(id: nat, score: nat)
    | FanOut(id: nat, score: nat, listed: seq<nat>, done: nat, complete: bool)
    | Refused                             // returned false
    | Sent(id: nat)                       // returned true after a user's or no queue
    | Spread(id: nat, score: nat, listed: seq<nat>, complete: bool)   // returned true after a group's

  function Zadd(queues: map<nat, map<nat, nat>>, key: nat, score: nat, id: nat): map<nat, map<nat, nat>> {
    queues[key := (if key in queues then queues[key] else map[])[id := score]]
  }

  function Score(queues: map<nat, map<nat, nat>>, key: nat, id: nat): Option<nat> {
    if key in queues && id in queues[key] then Some(queues[key][id]) else None
  }

  function MembersOf(d: Data, group: nat): seq<nat> {
    if group in d.members then d.members[group] else []
  }

  /** One command. */
  function Command(d: Data, r: Request, pc: Pc, now: nat, a: Answer): (Data, Pc) {
    var applied := a.Answered? || a.applied;
    match pc
    case Numbering =>
      (if applied then d.(nextId := d.nextId + 1) else d,
       if a.Answered? then Storing(d.nextId + 1) else Refused)
    case Storing(id) =>
      (if applied then d.(records := d.records[id := RecordOf(r)]) else d,
       if !a.Answered? then Refused else if r.dstType == 1 || r.dstType == 2 then Queueing(id) else Sent(id))
    case Queueing(id) =>
      if r.dstType == 1 then
        (if applied then d.(users := Zadd(d.users, r.dst, now, id)) else d,
         if a.Answered? then Sent(id) else Refused)
      else
        (if applied then d.(groups := Zadd(d.groups, r.dst, now, id)) else d,
         if a.Answered? then Listing(id, now) else Refused)
    case Listing(id, score) =>
      (d, if a.Answered? then FanOut(id, score, MembersOf(d, r.dst), 0, true) else Refused)
    case FanOut(id, score, listed, done, complete) =>
      if |listed| <= done then (d, Spread(id, score, listed, complete))
      else
        (if applied then d.(users := Zadd(d.users, listed[done], score, id)) else d,
         FanOut(id, score, listed, done + 1, complete && applied))
    case _ => (d, pc)
  }

  // ----- many senders -----

  datatype State = State(data: Data, sends: seq<(Request, Pc)>)

  datatype Step =
    | Begin(request: Request)
    | Go(k: nat, now: nat, answer: Answer)
    | Regroup(group: nat, members: seq<nat>)      // somebody else edits a group

  ghost predicate Enabled(s: State, step: Step) {
    step.Go? ==> step.k < |s.sends|
  }

  ghost function Next(s: State, step: Step): State
    requires Enabled(s, step)
  {
    match step
    case Begin(request) => s.(sends := s.sends + [(request, Numbering)])
    case Go(k, now, answer) =>
      var (d, pc) := Command(s.data, s.sends[k].0, s.sends[k].1, now, answer);
      State(d, s.sends[k := (s.sends[k].0, pc)])
    case Regroup(group, members) => s.(data := s.data.(members := s.data.members[group := members]))
  }

  ghost predicate Initial(s: State) {
    s.data.nextId == 0 && s.data.records == map[] && s.data.users == map[] && s.data.groups == map[]
    && s.sends == []
  }

  /** The message id a send has been given. */
  ghost function IdOf(pc: Pc): Option<nat> {
    match pc
    case Numbering => None
    case Storing(id) => Some(id)
    case Queueing(id) => Some(id)
    case Listing(id, _) => Some(id)
    case FanOut(id, _, _, _, _) => Some(id)
    case Refused => None
    case Sent(id) => Some(id)
    case Spread(id, _, _, _) => Some(id)
  }

  ghost predicate Unqueued(queues: map<nat, map<nat, nat>>, id: nat) {
    forall key :: Score(queues, key, id) == None
  }

  function RecordOf(r: Request): Record {
    Record(r.dstType, r.from, r.dst, r.json)
  }

  /** The message is in this queue alone. */
  ghost predicate OnlyIn(queues: map<nat, map<nat, nat>>, id: nat, key: nat, score: nat) {
    forall k :: Score(queues, k, id) == if k == key then Some(score) else None
  }

  /** Wherever the message is, the queue is one of these, and it has this score. */
  ghost predicate Among(queues: map<nat, map<nat, nat>>, id: nat, keys: seq<nat>, score: nat) {
    forall k {:trigger Score(queues, k, id)} | Score(queues, k, id).Some? :: k in keys && Score(queues, k, id) == Some(score)
  }

  /** What a send has done to the store so far, as far as it can rely on it; nobody else has queued its
      message. */
  ghost predicate Progress(d: Data, r: Request, pc: Pc) {
    && (IdOf(pc).Some? ==> 0 < IdOf(pc).value <= d.nextId)
    && (IdOf(pc).Some? && !pc.Storing? ==>
          IdOf(pc).value in d.records && d.records[IdOf(pc).value] == RecordOf(r))
    && (pc.Storing? || pc.Queueing? ==>
          Unqueued(d.users, IdOf(pc).value) && Unqueued(d.groups, IdOf(pc).value))
    && match pc
       case Storing(id) => id !in d.records
       case Queueing(_) => r.dstType == 1 || r.dstType == 2
       case Listing(id, score) => r.dstType == 2 && OnlyIn(d.groups, id, r.dst, score) && Unqueued(d.users, id)
       case FanOut(id, score, listed, done, complete) =>
         && r.dstType == 2 && done <= |listed| && OnlyIn(d.groups, id, r.dst, score)
         && Among(d.users, id, listed[..done], score)
         && (complete ==> forall i | 0 <= i < done :: Score(d.users, listed[i], id) == Some(score))
       case Sent(id) =>
         && r.dstType != 2 && Unqueued(d.groups, id)
         && if r.dstType == 1 then Score(d.users, r.dst, id).Some? && OnlyIn(d.users, id, r.dst, Score(d.users, r.dst, id).value)
            else Unqueued(d.users, id)
       case Spread(id, score, listed, complete) =>
         && r.dstType == 2 && OnlyIn(d.groups, id, r.dst, score)
         && Among(d.users, id, listed, score)
         && (complete ==> forall i | 0 <= i < |listed| :: Score(d.users, listed[i], id) == Some(score))
       case _ => true
  }

  /** A user's queue holds what was sent to the user, or to a group whose queue has it under the same score. */
  ghost predicate UserEntry(d: Data, user: nat, id: nat) {
    && id in d.records
    && var sent := d.records[id];
       if sent.ornType == 1 then sent.ornExtId == user
       else sent.ornType == 2 && Score(d.groups, sent.ornExtId, id) == Score(d.users, user, id)
  }

  ghost predicate GroupEntry(d: Data, group: nat, id: nat) {
    id in d.records && d.records[id].ornType == 2 && d.records[id].ornExtId == group
  }

  ghost predicate Stored(d: Data) {
    && (forall id | id in d.records :: id <= d.nextId)
    && (forall user, id {:trigger Score(d.users, user, id)} | Score(d.users, user, id).Some? :: UserEntry(d, user, id))
    && (forall group, id {:trigger Score(d.groups, group, id)} | Score(d.groups, group, id).Some? :: GroupEntry(d, group, id))
  }

  ghost predicate Inv(s: State) {
    && Stored(s.data)
    && (forall k | 0 <= k < |s.sends| :: Progress(s.data, s.sends[k].0, s.sends[k].1))
    && (forall j, k | 0 <= j < k < |s.sends| && IdOf(s.sends[j].1).Some? ::
          IdOf(s.sends[j].1) != IdOf(s.sends[k].1))
  }

  lemma ScoreAfterZadd(queues: map<nat, map<nat, nat>>, key: nat, score: nat, id: nat, k: nat, i: nat)
    ensures Score(Zadd(queues, key, score, id), k, i)
      == if k == key && i == id then Some(score) else Score(queues, k, i)
  {
  }

  /** Two stores agree on message id. */
  ghost predicate SameFor(d: Data, d': Data, id: nat) {
    && (forall key :: Score(d'.users, key, id) == Score(d.users, key, id))
    && (forall key :: Score(d'.groups, key, id) == Score(d.groups, key, id))
    && (id in d'.records <==> id in d.records) && (id in d.records ==> d'.records[id] == d.records[id])
  }

  /** A command of one send does not touch the message of another. */
  lemma CommandElsewhere(d: Data, r: Request, pc: Pc, now: nat, a: Answer, id: nat)
    requires IdOf(pc) != Some(id)
    ensures SameFor(d, Command(d, r, pc, now, a).0, id)
  {
  }

  lemma CommandNumbers(d: Data, r: Request, pc: Pc, now: nat, a: Answer)
    ensures d.nextId <= Command(d, r, pc, now, a).0.nextId
  {
  }

  lemma ProgressKept(d: Data, d': Data, r: Request, pc: Pc)
    requires Progress(d, r, pc) && d.nextId <= d'.nextId && (IdOf(pc).Some? ==> SameFor(d, d', IdOf(pc).value))
    ensures Progress(d', r, pc)
  {
    hide Score;
  }

  /** What one send relies on is not disturbed by a command of another one. */
  lemma OtherUndisturbed(d: Data, r: Request, pc: Pc, now: nat, a: Answer, r': Request, pc': Pc)
    requires Progress(d, r, pc) && Progress(d, r', pc')
    requires IdOf(pc').Some? ==> IdOf(pc) != IdOf(pc')
    ensures Progress(Command(d, r, pc, now, a).0, r', pc')
  {
    hide Progress, Command, SameFor;
    CommandNumbers(d, r, pc, now, a);
    if IdOf(pc').Some? {
      CommandElsewhere(d, r, pc, now, a, IdOf(pc').value);
    }
    ProgressKept(d, Command(d, r, pc, now, a).0, r', pc');
  }

  /** A number not given out yet is in no queue. */
  lemma UnusedUnqueued(d: Data)
    requires Stored(d)
    ensures Unqueued(d.users, d.nextId + 1) && Unqueued(d.groups, d.nextId + 1)
  {
    var id := d.nextId + 1;
    forall key ensures Score(d.users, key, id) == None {
      assert Score(d.users, key, id).Some? ==> UserEntry(d, key, id);
    }
    forall key ensures Score(d.groups, key, id) == None {
      assert Score(d.groups, key, id).Some? ==> GroupEntry(d, key, id);
    }
  }

  lemma OwnProgress(d: Data, r: Request, pc: Pc, now: nat, a: Answer)
    requires Progress(d, r, pc) && Stored(d)
    ensures var (d', pc') := Command(d, r, pc, now, a); Progress(d', r, pc')
  {
    hide Progress, Command, Stored;
    if pc.FanOut? && pc.done < |pc.listed| {
      FanOutProgress(d, r, pc, now, a);
    } else if pc.Queueing? {
      QueueingProgress(d, r, pc, now, a);
    } else {
      QuietProgress(d, r, pc, now, a);
    }
  }

  lemma QuietProgress(d: Data, r: Request, pc: Pc, now: nat, a: Answer)
    requires Progress(d, r, pc) && Stored(d) && !pc.Queueing? && (pc.FanOut? ==> |pc.listed| <= pc.done)
    ensures var (d', pc') := Command(d, r, pc, now, a); Progress(d', r, pc')
  {
    hide Score, Zadd;
    UnusedUnqueued(d);
    if pc.FanOut? {
      assert pc.listed[..pc.done] == pc.listed;
    }
  }

  lemma QueueingProgress(d: Data, r: Request, pc: Pc, now: nat, a: Answer)
    requires Progress(d, r, pc) && pc.Queueing?
    ensures var (d', pc') := Command(d, r, pc, now, a); Progress(d', r, pc')
  {
    hide Score, Zadd;
    FirstQueued(d.users, pc.id, r.dst, now);
    FirstQueued(d.groups, pc.id, r.dst, now);
  }

  lemma FirstQueued(queues: map<nat, map<nat, nat>>, id: nat, key: nat, score: nat)
    requires Unqueued(queues, id)
    ensures OnlyIn(Zadd(queues, key, score, id), id, key, score)
    ensures Score(Zadd(queues, key, score, id), key, id) == Some(score)
  {
    forall k
      ensures Score(Zadd(queues, key, score, id), k, id) == if k == key then Some(score) else None
    {
      ScoreAfterZadd(queues, key, score, id, k, id);
      assert Score(queues, k, id) == None;
    }
  }

  lemma FanOutProgress(d: Data, r: Request, pc: Pc, now: nat, a: Answer)
    requires Progress(d, r, pc) && pc.FanOut? && pc.done < |pc.listed|
    ensures var (d', pc') := Command(d, r, pc, now, a); Progress(d', r, pc')
  {
    hide Score, Zadd;
    var m := pc.listed[pc.done];
    assert pc.listed[..pc.done + 1] == pc.listed[..pc.done] + [m];
    forall key
      ensures Score(Zadd(d.users, m, pc.score, pc.id), key, pc.id)
        == if key == m then Some(pc.score) else Score(d.users, key, pc.id)
    {
      ScoreAfterZadd(d.users, m, pc.score, pc.id, key, pc.id);
    }
  }

  lemma StoreKept(d: Data, r: Request, pc: Pc, now: nat, a: Answer)
    requires Progress(d, r, pc) && Stored(d)
    ensures Stored(Command(d, r, pc, now, a).0)
  {
    var d' := Command(d, r, pc, now, a).0;
    forall user, id | Score(d'.users, user, id).Some?
      ensures UserEntry(d', user, id)
    {
      assert Score(d.users, user, id).Some? ==> UserEntry(d, user, id);
    }
    forall group, id | Score(d'.groups, group, id).Some?
      ensures GroupEntry(d', group, id)
    {
      assert Score(d.groups, group, id).Some? ==> GroupEntry(d, group, id);
    }
  }

  /** A command numbers its own send only, with a number nobody has. */
  lemma FreshNumber(d: Data, r: Request, pc: Pc, now: nat, a: Answer)
    requires Progress(d, r, pc)
    ensures var (d', pc') := Command(d, r, pc, now, a);
      IdOf(pc') == None || IdOf(pc') == IdOf(pc) || IdOf(pc') == Some(d.nextId + 1)
  {
  }

  lemma GoInv(s: State, k: nat, now: nat, a: Answer)
    requires Inv(s) && k < |s.sends|
    ensures Inv(Next(s, Go(k, now, a)))
  {
    var t := Next(s, Go(k, now, a));
    var (r, pc) := s.sends[k];
    assert Progress(s.data, r, pc);
    StoreKept(s.data, r, pc, now, a);
    OwnProgress(s.data, r, pc, now, a);
    FreshNumber(s.data, r, pc, now, a);
    forall j | 0 <= j < |t.sends|
      ensures Progress(t.data, t.sends[j].0, t.sends[j].1)
    {
      if j != k {
        assert Progress(s.data, s.sends[j].0, s.sends[j].1);
        OtherUndisturbed(s.data, r, pc, now, a, s.sends[j].0, s.sends[j].1);
      }
    }
    forall i, j | 0 <= i < j < |t.sends| && IdOf(t.sends[i].1).Some?
      ensures IdOf(t.sends[i].1) != IdOf(t.sends[j].1)
    {
      assert Progress(s.data, s.sends[i].0, s.sends[i].1);
      assert Progress(s.data, s.sends[j].0, s.sends[j].1);
    }
  }

  lemma NextInv(s: State, step: Step)
    requires Inv(s) && Enabled(s, step)
    ensures Inv(Next(s, step))
  {
    match step
    case Begin(_) =>
    case Go(k, now, a) => GoInv(s, k, now, a);
    case Regroup(_, _) =>
      var t := Next(s, step);
      forall k | 0 <= k < |t.sends|
        ensures Progress(t.data, t.sends[k].0, t.sends[k].1)
      {
        assert Progress(s.data, s.sends[k].0, s.sends[k].1);
      }
  }

  ghost predicate Behavior(b: seq<State>, steps: seq<Step>) {
    && |b| == |steps| + 1 && Initial(b[0])
    && forall i {:trigger steps[i]} | 0 <= i < |steps| :: Enabled(b[i], steps[i]) && b[i + 1] == Next(b[i], steps[i])
  }

  lemma {:induction false} BehaviorInv(b: seq<State>, steps: seq<Step>, i: nat)
    requires Behavior(b, steps) && i < |b|
    ensures Inv(b[i])
  {
    if i > 0 {
      BehaviorInv(b, steps, i - 1);
      assert Enabled(b[i - 1], steps[i - 1]) && b[i] == Next(b[i - 1], steps[i - 1]);
      NextInv(b[i - 1], steps[i - 1]);
    }
  }

  /** An id that has been given to a send is given to no other one from then on. */
  lemma {:induction false} GivenOnce(b: seq<State>, steps: seq<Step>, i: nat, i': nat, j: nat, k: nat)
    requires Behavior(b, steps) && i <= i' < |b| && j < |b[i].sends| && j != k
    requires IdOf(b[i].sends[j].1).Some?
    ensures IdOf(b[i].sends[j].1).value <= b[i'].data.nextId
    ensures k < |b[i'].sends| ==> IdOf(b[i'].sends[k].1) != IdOf(b[i].sends[j].1)
    decreases i'
  {
    hide Next, Enabled, Initial;
    if i == i' {
      BehaviorInv(b, steps, i);
      IdsDiffer(b[i], j, k);
    } else {
      GivenOnce(b, steps, i, i' - 1, j, k);
      BehaviorInv(b, steps, i' - 1);
      assert Enabled(b[i' - 1], steps[i' - 1]) && b[i' - 1 + 1] == Next(b[i' - 1], steps[i' - 1]);
      NumbersRise(b[i' - 1], steps[i' - 1], k);
    }
  }

  lemma IdsDiffer(s: State, j: nat, k: nat)
    requires Inv(s) && j < |s.sends| && j != k && IdOf(s.sends[j].1).Some?
    ensures IdOf(s.sends[j].1).value <= s.data.nextId
    ensures k < |s.sends| ==> IdOf(s.sends[k].1) != IdOf(s.sends[j].1)
  {
    assert Progress(s.data, s.sends[j].0, s.sends[j].1);
    if k < j {
      assert IdOf(s.sends[k].1).Some? ==> IdOf(s.sends[k].1) != IdOf(s.sends[j].1);
    }
  }

  /** A step gives send k no id, or one that is higher than all before. */
  lemma NumbersRise(s: State, step: Step, k: nat)
    requires Inv(s) && Enabled(s, step)
    ensures s.data.nextId <= Next(s, step).data.nextId
    ensures var t := Next(s, step);
      k < |t.sends| && IdOf(t.sends[k].1).Some? ==>
        || IdOf(t.sends[k].1).value > s.data.nextId
        || (k < |s.sends| && IdOf(s.sends[k].1) == IdOf(t.sends[k].1))
  {
    hide Inv;
    if step.Go? {
      InvProgress(s, step.k);
      FreshNumber(s.data, s.sends[step.k].0, s.sends[step.k].1, step.now, step.answer);
    }
  }

  lemma InvProgress(s: State, k: nat)
    requires Inv(s) && k < |s.sends|
    ensures Progress(s.data, s.sends[k].0, s.sends[k].1)
  {
  }

  /** Message ids are unique over a whole run, whatever the interleaving: what two sends have been given
      at any two times differs, also if one of them has been refused meanwhile. */
  lemma IdsUnique(b: seq<State>, steps: seq<Step>, i: nat, i': nat, j: nat, k: nat)
    requires Behavior(b, steps) && i < |b| && i' < |b| && j < |b[i].sends| && k < |b[i'].sends| && j != k
    requires IdOf(b[i].sends[j].1).Some?
    ensures IdOf(b[i].sends[j].1) != IdOf(b[i'].sends[k].1)
  {
    if i <= i' {
      GivenOnce(b, steps, i, i', j, k);
    } else if IdOf(b[i'].sends[k].1).Some? {
      GivenOnce(b, steps, i', i, k, j);
    }
  }

  /** Every id in any queue has a stored record, even in the middle of a send and after lost answers;
      and a queue never holds what was not sent to it. */
  lemma QueuedHaveRecords(b: seq<State>, steps: seq<Step>, i: nat, key: nat, id: nat)
    requires Behavior(b, steps) && i < |b|
    ensures Score(b[i].data.users, key, id).Some? ==> UserEntry(b[i].data, key, id)
    ensures Score(b[i].data.groups, key, id).Some? ==> GroupEntry(b[i].data, key, id)
  {
    BehaviorInv(b, steps, i);
  }

  // ----- where a message is put -----

  /** A step moves one send, or none. */
  lemma SendStep(s: State, step: Step, k: nat)
    requires Enabled(s, step) && k < |Next(s, step).sends|
    ensures var t := Next(s, step);
      if k == |s.sends| then t.sends[k].1.Numbering?
      else
        && k < |s.sends| && t.sends[k].0 == s.sends[k].0
        && t.sends[k].1 == if step.Go? && step.k == k
                           then Command(s.data, s.sends[k].0, s.sends[k].1, step.now, step.answer).1 else s.sends[k].1
  {
  }

  lemma StepOf(b: seq<State>, steps: seq<Step>, i: nat)
    requires Behavior(b, steps) && i < |steps|
    ensures Inv(b[i]) && Enabled(b[i], steps[i]) && b[i + 1] == Next(b[i], steps[i])
  {
    BehaviorInv(b, steps, i);
  }

  /** At step j send k is in front of its zrangebyscore, or of the zadd that comes first. */
  ghost predicate At(b: seq<State>, steps: seq<Step>, j: nat, k: nat, pc: Pc)
    requires |b| == |steps| + 1
  {
    j < |steps| && k < |b[j].sends| && b[j].sends[k].1 == pc && steps[j].Go? && steps[j].k == k
  }

  /** When a group send has listed the members. */
  lemma {:induction false} WhenListed(b: seq<State>, steps: seq<Step>, i: nat, k: nat) returns (j: nat)
    requires Behavior(b, steps) && |b| == |steps| + 1 && i < |b| && k < |b[i].sends|
    requires b[i].sends[k].1.FanOut? || b[i].sends[k].1.Spread?
    ensures var (r, pc) := b[i].sends[k];
      && j < i && At(b, steps, j, k, Listing(pc.id, pc.score)) && b[j].sends[k].0 == r
      && pc.listed == if r.dst in b[j].data.members then b[j].data.members[r.dst] else []
  {
    hide Inv, Enabled, Next, Initial;
    if i == 0 {
      NoSends(b, steps);
      assert false;
    } else {
      StepOf(b, steps, i - 1);
      SendStep(b[i - 1], steps[i - 1], k);
      if b[i - 1].sends[k].1.Listing? {
        j := i - 1;
      } else {
        j := WhenListed(b, steps, i - 1, k);
      }
    }
  }

  lemma NoSends(b: seq<State>, steps: seq<Step>)
    requires Behavior(b, steps)
    ensures b[0].sends == []
  {
  }

  ghost function ScoreOf(d: Data, r: Request, pc: Pc): Option<nat> {
    if pc.Sent? then Score(d.users, r.dst, pc.id)
    else if pc.Listing? || pc.FanOut? || pc.Spread? then Some(pc.score) else None
  }

  /** Nobody else moves a message that is queued. */
  lemma ScoreKept(s: State, step: Step, k: nat)
    requires Inv(s) && Enabled(s, step) && k < |s.sends| && s.sends[k].1.Sent?
    ensures ScoreOf(Next(s, step).data, s.sends[k].0, s.sends[k].1) == ScoreOf(s.data, s.sends[k].0, s.sends[k].1)
  {
    hide Progress, Stored;
    if step.Go? && step.k != k {
      IdsDiffer(s, k, step.k);
      InvProgress(s, step.k);
      QueueingId(s.sends[step.k].0, s.data, s.sends[step.k].1);
    }
  }

  lemma QueueingId(r: Request, d: Data, pc: Pc)
    requires Progress(d, r, pc)
    ensures pc.Queueing? || pc.FanOut? ==> IdOf(pc) == Some(pc.id)
  {
  }

  /** When the message was put in its first queue: that is its score. */
  lemma {:induction false} WhenQueued(b: seq<State>, steps: seq<Step>, i: nat, k: nat) returns (q: nat)
    requires Behavior(b, steps) && |b| == |steps| + 1 && i < |b| && k < |b[i].sends|
    requires var (r, pc) := b[i].sends[k];
      pc.Listing? || pc.FanOut? || pc.Spread? || (pc.Sent? && r.dstType == 1)
    ensures var (r, pc) := b[i].sends[k];
      && q < i && At(b, steps, q, k, Queueing(pc.id)) && b[q].sends[k].0 == r
      && ScoreOf(b[i].data, r, pc) == Some(steps[q].now)
  {
    hide Inv, Enabled, Next, Initial;
    if i == 0 {
      NoSends(b, steps);
      assert false;
    } else {
      StepOf(b, steps, i - 1);
      SendStep(b[i - 1], steps[i - 1], k);
      if b[i - 1].sends[k].1.Queueing? {
        q := i - 1;
        QueuedNow(b[i - 1], steps[i - 1], k);
      } else {
        q := WhenQueued(b, steps, i - 1, k);
        if b[i - 1].sends[k].1.Sent? {
          ScoreKept(b[i - 1], steps[i - 1], k);
        }
      }
    }
  }

  lemma QueuedNow(s: State, step: Step, k: nat)
    requires Enabled(s, step) && step.Go? && step.k == k < |s.sends| && s.sends[k].1.Queueing?
    ensures var t := Next(s, step);
      t.sends[k].1.Sent? || t.sends[k].1.Listing? ==>
        ScoreOf(t.data, t.sends[k].0, t.sends[k].1) == Some(step.now)
  {
  }

  /** A group send has put its message into the queue of the group, under the time of that zadd, and
      into the queues of those who were members when it listed them, under the same score: of all of
      them if its commands have all taken effect, and of nobody else. The record says who sent what. */
  lemma GroupSendReachesAll(b: seq<State>, steps: seq<Step>, i: nat, k: nat) returns (q: nat, j: nat)
    requires Behavior(b, steps) && |b| == |steps| + 1 && i < |b| && k < |b[i].sends| && b[i].sends[k].1.Spread?
    ensures var (r, pc) := b[i].sends[k]; var id, d := pc.id, b[i].data;
      && q < i && At(b, steps, q, k, Queueing(id)) && j < i && At(b, steps, j, k, Listing(id, steps[q].now))
      && r.dstType == 2 && id in d.records && d.records[id] == Record(2, r.from, r.dst, r.json)
      && (forall group :: Score(d.groups, group, id) == if group == r.dst then Some(steps[q].now) else None)
      && forall user ::
           if r.dst in b[j].data.members && user in b[j].data.members[r.dst]
           then Score(d.users, user, id) == Some(steps[q].now) || (!pc.complete && Score(d.users, user, id) == None)
           else Score(d.users, user, id) == None
  {
    hide Inv, Behavior;
    q := WhenQueued(b, steps, i, k);
    j := WhenListed(b, steps, i, k);
    BehaviorInv(b, steps, i);
    InvProgress(b[i], k);
  }

  /** A message to a user is in that user's queue alone, under the time of its zadd; one to neither a user
      nor a group is in no queue. */
  lemma UserSendReaches(b: seq<State>, steps: seq<Step>, i: nat, k: nat) returns (q: nat)
    requires Behavior(b, steps) && |b| == |steps| + 1 && i < |b| && k < |b[i].sends| && b[i].sends[k].1.Sent?
    ensures var (r, pc) := b[i].sends[k]; var id, d := pc.id, b[i].data;
      && id in d.records && d.records[id] == Record(r.dstType, r.from, r.dst, r.json)
      && (forall group :: Score(d.groups, group, id) == None)
      && if r.dstType == 1 then
           && q < i && At(b, steps, q, k, Queueing(id))
           && forall user :: Score(d.users, user, id) == if user == r.dst then Some(steps[q].now) else None
         else forall user :: Score(d.users, user, id) == None
  {
    hide Inv, Behavior;
    q := 0;
    if b[i].sends[k].0.dstType == 1 {
      q := WhenQueued(b, steps, i, k);
    }
    BehaviorInv(b, steps, i);
    InvProgress(b[i], k);
  }

  // ----- sendMessage in place -----

  predicate Returned(pc: Pc) {
    pc.Refused? || pc.Sent? || pc.Spread?
  }

  function AnswerAt(answers: seq<Answer>, i: nat): Answer {
    if i < |answers| then answers[i] else Lost(false)
  }

  function Rank(pc: Pc): nat {
    match pc
    case Numbering => 5
    case Storing(_) => 4
    case Queueing(_) => 3
    case Listing(_, _) => 2
    case FanOut(_, _, _, _, _) => 1
    case _ => 0
  }

  /** A sendMessage that nobody interrupts: the i-th command from here on gets the i-th answer. */
  function Drive(d: Data, r: Request, pc: Pc, now: nat, answers: seq<Answer>, i: nat): (Data, Pc)
    decreases Rank(pc), if pc.FanOut? then |pc.listed| - pc.done else 0
  {
    if Returned(pc) then (d, pc)
    else
      var (d', pc') := Command(d, r, pc, now, AnswerAt(answers, i));
      Drive(d', r, pc', now, answers, i + 1)
  }

  /** A whole send keeps the store's promises, and keeps its own when it returns. */
  lemma {:induction false} DriveKeeps(d: Data, r: Request, pc: Pc, now: nat, answers: seq<Answer>, i: nat)
    requires Stored(d) && Progress(d, r, pc)
    ensures var (d', pc') := Drive(d, r, pc, now, answers, i);
      Stored(d') && Progress(d', r, pc') && Returned(pc')
    decreases Rank(pc), if pc.FanOut? then |pc.listed| - pc.done else 0
  {
    hide Stored, Progress;
    if !Returned(pc) {
      var a := AnswerAt(answers, i);
      var (d', pc') := Command(d, r, pc, now, a);
      StoreKept(d, r, pc, now, a);
      OwnProgress(d, r, pc, now, a);
      DriveKeeps(d', r, pc', now, answers, i + 1);
    }
  }

  /** The m-th zadd of a fan-out has taken effect. */
  predicate Took(answers: seq<Answer>, first: nat, m: nat) {
    AnswerAt(answers, first + m).Answered? || AnswerAt(answers, first + m).applied
  }

  /** u is one of the members from `done` on whose zadd takes effect; member m gets answer first + m. */
  ghost predicate Reached(listed: seq<nat>, answers: seq<Answer>, first: nat, done: nat, u: nat) {
    exists m | done <= m < |listed| :: listed[m] == u && Took(answers, first, m)
  }

  ghost predicate AllTook(listed: seq<nat>, answers: seq<Answer>, first: nat, done: nat) {
    forall m | done <= m < |listed| :: Took(answers, first, m)
  }

  lemma {:induction false} FanOutEnds(d: Data, r: Request, pc: Pc, now: nat, answers: seq<Answer>, first: nat)
    requires pc.FanOut? && pc.done <= |pc.listed|
    ensures var (d', end) := Drive(d, r, pc, now, answers, first + pc.done);
      && d' == d.(users := d'.users)
      && end == Spread(pc.id, pc.score, pc.listed, pc.complete && AllTook(pc.listed, answers, first, pc.done))
      && forall u, x {:trigger Score(d'.users, u, x)} ::
           Score(d'.users, u, x)
           == if x == pc.id && Reached(pc.listed, answers, first, pc.done, u) then Some(pc.score) else Score(d.users, u, x)
    decreases |pc.listed| - pc.done
  {
    hide Score, Zadd, Reached;
    var (d', end) := Drive(d, r, pc, now, answers, first + pc.done);
    if pc.done < |pc.listed| {
      var m := pc.listed[pc.done];
      var (d1, pc1) := Command(d, r, pc, now, AnswerAt(answers, first + pc.done));
      FanOutEnds(d1, r, pc1, now, answers, first);
      AllTookFrom(pc.listed, answers, first, pc.done);
      forall u, x
        ensures Score(d'.users, u, x)
          == if x == pc.id && Reached(pc.listed, answers, first, pc.done, u) then Some(pc.score) else Score(d.users, u, x)
      {
        ScoreAfterZadd(d.users, m, pc.score, pc.id, u, x);
        ReachedFrom(pc.listed, answers, first, pc.done, u);
      }
    } else {
      forall u
        ensures !Reached(pc.listed, answers, first, pc.done, u)
      {
        NoneReached(pc.listed, answers, first, u);
      }
    }
  }

  lemma NoneReached(listed: seq<nat>, answers: seq<Answer>, first: nat, u: nat)
    ensures !Reached(listed, answers, first, |listed|, u)
  {
  }

  lemma AllTookFrom(listed: seq<nat>, answers: seq<Answer>, first: nat, done: nat)
    requires done < |listed|
    ensures AllTook(listed, answers, first, done)
      <==> Took(answers, first, done) && AllTook(listed, answers, first, done + 1)
  {
  }

  lemma ReachedFrom(listed: seq<nat>, answers: seq<Answer>, first: nat, done: nat, u: nat)
    requires done < |listed|
    ensures Reached(listed, answers, first, done, u)
      <==> (listed[done] == u && Took(answers, first, done)) || Reached(listed, answers, first, done + 1, u)
  {
  }

  /** A sendMessage that nobody interrupts returns true exactly if its commands up to the fan-out are
      answered. Then it has stored the request under the next number, and put that under the time `now`
      into the queue of the user, or of the group and of each of its members whose zadd took effect, and
      has changed nothing else. */
  lemma SendExact(d: Data, r: Request, now: nat, answers: seq<Answer>)
    ensures var (d', end) := Drive(d, r, Numbering, now, answers, 0); var id := d.nextId + 1;
      var members := if r.dst in d.members then d.members[r.dst] else [];
      && (!end.Refused? <==>
            && AnswerAt(answers, 0).Answered? && AnswerAt(answers, 1).Answered?
            && (r.dstType == 1 || r.dstType == 2 ==> AnswerAt(answers, 2).Answered?)
            && (r.dstType == 2 ==> AnswerAt(answers, 3).Answered?))
      && (!end.Refused? ==>
            && IdOf(end) == Some(id) && d'.nextId == id && d'.members == d.members
            && d'.records == d.records[id := Record(r.dstType, r.from, r.dst, r.json)]
            && (forall g, x {:trigger Score(d'.groups, g, x)} :: Score(d'.groups, g, x)
                  == if r.dstType == 2 && g == r.dst && x == id then Some(now) else Score(d.groups, g, x))
            && forall u, x {:trigger Score(d'.users, u, x)} :: Score(d'.users, u, x)
                 == if x == id && ((r.dstType == 1 && u == r.dst) || (r.dstType == 2 && Reached(members, answers, 4, 0, u)))
                    then Some(now) else Score(d.users, u, x))
  {
    hide Score, Zadd, Reached;
    var id := d.nextId + 1;
    var d1 := d.(nextId := id);
    var d2 := d1.(records := d.records[id := Record(r.dstType, r.from, r.dst, r.json)]);
    if AnswerAt(answers, 0).Answered? {
      assert Drive(d, r, Numbering, now, answers, 0) == Drive(d1, r, Storing(id), now, answers, 1);
      if AnswerAt(answers, 1).Answered? {
        assert Drive(d1, r, Storing(id), now, answers, 1)
          == Drive(d2, r, if r.dstType == 1 || r.dstType == 2 then Queueing(id) else Sent(id), now, answers, 2);
        if r.dstType == 1 || r.dstType == 2 {
          QueueingEnds(d2, r, id, now, answers);
        }
      }
    }
  }

  lemma QueueingEnds(d: Data, r: Request, id: nat, now: nat, answers: seq<Answer>)
    requires r.dstType == 1 || r.dstType == 2
    ensures var (d', end) := Drive(d, r, Queueing(id), now, answers, 2);
      var members := if r.dst in d.members then d.members[r.dst] else [];
      && (!end.Refused? <==> AnswerAt(answers, 2).Answered? && (r.dstType == 2 ==> AnswerAt(answers, 3).Answered?))
      && (!end.Refused? ==>
            && IdOf(end) == Some(id) && d' == d.(users := d'.users, groups := d'.groups)
            && (forall g, x {:trigger Score(d'.groups, g, x)} :: Score(d'.groups, g, x)
                  == if r.dstType == 2 && g == r.dst && x == id then Some(now) else Score(d.groups, g, x))
            && forall u, x {:trigger Score(d'.users, u, x)} :: Score(d'.users, u, x)
                 == if x == id && ((r.dstType == 1 && u == r.dst) || (r.dstType == 2 && Reached(members, answers, 4, 0, u)))
                    then Some(now) else Score(d.users, u, x))
  {
    hide Score, Zadd, Reached;
    if AnswerAt(answers, 2).Answered? {
      var (d3, pc3) := Command(d, r, Queueing(id), now, Answered);
      assert Drive(d, r, Queueing(id), now, answers, 2) == Drive(d3, r, pc3, now, answers, 3);
      forall k, x
        ensures Score(Zadd(d.users, r.dst, now, id), k, x) == if k == r.dst && x == id then Some(now) else Score(d.users, k, x)
        ensures Score(Zadd(d.groups, r.dst, now, id), k, x) == if k == r.dst && x == id then Some(now) else Score(d.groups, k, x)
      {
        ScoreAfterZadd(d.users, r.dst, now, id, k, x);
        ScoreAfterZadd(d.groups, r.dst, now, id, k, x);
      }
      if r.dstType == 2 && AnswerAt(answers, 3).Answered? {
        var (d4, pc4) := Command(d3, r, pc3, now, Answered);
        assert Drive(d3, r, pc3, now, answers, 3) == Drive(d4, r, pc4, now, answers, 4);
        FanOutEnds(d4, r, pc4, now, answers, 4);
      } else if r.dstType == 1 {
        assert Drive(d3, r, pc3, now, answers, 3) == (d3, Sent(id));
      } else {
        assert Drive(d3, r, pc3, now, answers, 3).1 == Refused;
      }
    } else {
      assert Drive(d, r, Queueing(id), now, answers, 2).1 == Refused;
    }
  }

  class RedisOperator {
    var store: Data

    /** One zadd to a user's queue. */
    method ZaddUser(user: nat, score: nat, id: nat, a: Answer) returns (ok: bool)
      modifies this
      ensures ok == a.Answered?
      ensures store == if a.Answered? || a.applied
        then old(store).(users := Zadd(old(store).users, user, score, id)) else old(store)
    {
      if a.Answered? || a.applied {
        store := store.(users := Zadd(store.users, user, score, id));
      }
      ok := a.Answered?;
    }

    method ZaddGroup(group: nat, score: nat, id: nat, a: Answer) returns (ok: bool)
      modifies this
      ensures ok == a.Answered?
      ensures store == if a.Answered? || a.applied
        then old(store).(groups := Zadd(old(store).groups, group, score, id)) else old(store)
    {
      if a.Answered? || a.applied {
        store := store.(groups := Zadd(store.groups, group, score, id));
      }
      ok := a.Answered?;
    }

    method Hincrby(a: Answer) returns (value: Option<nat>)
      modifies this
      ensures value == if a.Answered? then Some(old(store).nextId + 1) else None
      ensures store == if a.Answered? || a.applied
        then old(store).(nextId := old(store).nextId + 1) else old(store)
    {
      value := None;
      if a.Answered? || a.applied {
        store := store.(nextId := store.nextId + 1);
      }
      if a.Answered? {
        value := Some(store.nextId);
      }
    }

    method Hmset(id: nat, record: Record, a: Answer) returns (ok: bool)
      modifies this
      ensures ok == a.Answered?
      ensures store == if a.Answered? || a.applied
        then old(store).(records := old(store).records[id := record]) else old(store)
    {
      if a.Answered? || a.applied {
        store := store.(records := store.records[id := record]);
      }
      ok := a.Answered?;
    }

    /** The loop over the members of a group; a failed zadd is ignored. */
    method FanOutTo(r: Request, id: nat, score: nat, listed: seq<nat>, answers: seq<Answer>, next: nat)
      returns (ghost complete: bool)
      modifies this
      ensures (store, Spread(id, score, listed, complete))
        == Drive(old(store), r, FanOut(id, score, listed, 0, true), score, answers, next)
    {
      complete := true;
      var i := 0;
      while i < |listed|
        invariant 0 <= i <= |listed|
        invariant Drive(old(store), r, FanOut(id, score, listed, 0, true), score, answers, next)
          == Drive(store, r, FanOut(id, score, listed, i, complete), score, answers, next + i)
      {
        var a := AnswerAt(answers, next + i);
        var ignored := ZaddUser(listed[i], score, id, a);
        complete := complete && (a.Answered? || a.applied);
        i := i + 1;
      }
    }

    /** messageId is set as soon as the message is numbered, also when the send fails later. */
    method SendMessage(r: Request, now: nat, answers: seq<Answer>) returns (ok: bool, messageId: nat, ghost end: Pc)
      modifies this
      ensures (store, end) == Drive(old(store), r, Numbering, now, answers, 0)
      ensures ok == !end.Refused? && (ok ==> IdOf(end) == Some(messageId))
    {
      hide Zadd, MembersOf, RecordOf;
      ok, messageId, end := false, 0, Refused;
      var value := Hincrby(AnswerAt(answers, 0));
      if value.None? { return; }
      messageId := value.value;
      ghost var whole := Drive(old(store), r, Numbering, now, answers, 0);
      assert whole == Drive(store, r, Storing(messageId), now, answers, 1);

      var stored := Hmset(messageId, RecordOf(r), AnswerAt(answers, 1));
      if !stored { return; }
      if r.dstType == 1 {
        assert whole == Drive(store, r, Queueing(messageId), now, answers, 2);
        var queued := ZaddUser(r.dst, now, messageId, AnswerAt(answers, 2));
        assert whole == Drive(store, r, if queued then Sent(messageId) else Refused, now, answers, 3);
        if !queued { return; }
        end := Sent(messageId);
      } else if r.dstType == 2 {
        assert whole == Drive(store, r, Queueing(messageId), now, answers, 2);
        var queued := ZaddGroup(r.dst, now, messageId, AnswerAt(answers, 2));
        assert whole == Drive(store, r, if queued then Listing(messageId, now) else Refused, now, answers, 3);
        if !queued { return; }
        if AnswerAt(answers, 3) != Answered {
          assert whole == Drive(store, r, Refused, now, answers, 4);
          return;
        }
        var listed := MembersOf(store, r.dst);
        assert whole == Drive(store, r, FanOut(messageId, now, listed, 0, true), now, answers, 4);
        ghost var complete := FanOutTo(r, messageId, now, listed, answers, 4);
        end := Spread(messageId, now, listed, complete);
      } else {
        end := Sent(messageId);
      }
      ok := true;
    }
  }
}
