/** CRedisOperator::checkMessages with CTransaction::handlePushMessage: which entries of a user's
    queue a session is handed, over any run of checks, sends and failures. */
module Delivery {
  import opened Prelude
  import Store

  datatype Entry = Entry(id: nat, score: nat)

  /** VALID_DURATION, VALID_NUMBER, and the limit of the second zrangebyscore as the command line
      carries it. */
  datatype Limits = Limits(duration: nat, number: nat, batch: nat)

  /** What one entry of a batch meets: its record cannot be read, is missing, or is there and the push
      then succeeds or fails. */
  datatype Reply = Unread | Gone | Push(sent: bool)

  // ----- a sorted set, lowest score first -----

  ghost predicate Sorted(q: seq<Entry>) {
    forall i, j | 0 <= i < j < |q| :: q[i].score <= q[j].score
  }

  ghost predicate Ascending(q: seq<Entry>) {
    forall i, j | 0 <= i < j < |q| :: q[i].score < q[j].score
  }

  /** Lowest score first, and no entry twice. */
  ghost predicate InOrder(q: seq<Entry>) {
    Sorted(q) && NoDup(q)
  }

  /** q is what `zrangebyscore -inf +inf` answers for a set, entries of one score in any order. */
  ghost predicate Lists(q: seq<Entry>, queues: map<nat, map<nat, nat>>, user: nat) {
    && Sorted(q)
    && (forall i, j | 0 <= i < j < |q| :: q[i].id != q[j].id)
    && (forall e | e in q :: Store.Score(queues, user, e.id) == Some(e.score))
    && (forall id | Store.Score(queues, user, id).Some? :: Entry(id, Store.Score(queues, user, id).value) in q)
  }

  /** A message stored under a later time than all others is appended. */
  lemma ZaddAppends(q: seq<Entry>, queues: map<nat, map<nat, nat>>, user: nat, e: Entry)
    requires Lists(q, queues, user) && Store.Score(queues, user, e.id) == None
    requires forall x | x in q :: x.score <= e.score
    ensures Lists(q + [e], Store.Zadd(queues, user, e.score, e.id), user)
  {
    var queues' := Store.Zadd(queues, user, e.score, e.id);
    forall id ensures Store.Score(queues', user, id) == if id == e.id then Some(e.score) else Store.Score(queues, user, id) {
      Store.ScoreAfterZadd(queues, user, e.score, e.id, user, id);
    }
    forall i | 0 <= i < |q| ensures q[i].id != e.id {
      assert q[i] in q;
    }
  }

  function Take<T>(s: seq<T>, n: nat): seq<T> {
    if |s| <= n then s else s[..n]
  }

  function Drop<T>(s: seq<T>, n: nat): seq<T> {
    if |s| <= n then [] else s[n..]
  }

  /** `zrangebyscore (last +inf`. */
  function Above(q: seq<Entry>, last: nat): seq<Entry> {
    if q == [] then []
    else if q[0].score <= last then Above(q[1..], last)
    else [q[0]] + Above(q[1..], last)
  }

  /** How many entries have a score up to `last`. */
  function UpTo(q: seq<Entry>, last: nat): (n: nat)
    ensures n <= |q|
  {
    if q == [] then 0 else (if q[0].score <= last then 1 else 0) + UpTo(q[1..], last)
  }

  lemma {:induction false} UpToSplits(q: seq<Entry>, last: nat)
    requires Sorted(q)
    ensures Above(q, last) == q[UpTo(q, last)..]
    ensures forall i | 0 <= i < |q| :: i < UpTo(q, last) <==> q[i].score <= last
  {
    if q != [] {
      UpToSplits(q[1..], last);
      forall i | 0 <= i < |q| ensures i < UpTo(q, last) <==> q[i].score <= last {
        if i > 0 {
          assert q[i] == q[1..][i - 1];
          assert q[0].score <= q[i].score;
        }
      }
      if q[0].score > last {
        assert UpTo(q, last) == 0;
        assert UpTo(q[1..], last) == 0;
      }
    }
  }

  // ----- one check -----

  predicate Expired(limits: Limits, last: nat, now: nat) {
    last == 0 || limits.duration < now - last
  }

  /** Where the catch-up after a login or a long silence starts, with `counted` entries in the queue. */
  function CatchUp(limits: Limits, counted: nat): nat {
    if limits.number <= counted then counted - limits.number else 0
  }

  /** The entries a check goes through: `counted` is the answer of its zcount, q the queue when it is
      read, which is later. None: it gives up. */
  function Batch(limits: Limits, last: nat, now: nat, counted: nat, q: seq<Entry>): Option<seq<Entry>> {
    if Expired(limits, last, now) then
      if counted == 0 then None
      else Some(Take(Drop(q, CatchUp(limits, counted)), limits.number))
    else Some(Take(Above(q, last), limits.batch))
  }

  function ReplyAt(replies: seq<Reply>, i: nat): Reply {
    if i < |replies| then replies[i] else Unread
  }

  /** The check stops at an entry it cannot read or cannot push. */
  predicate Stops(reply: Reply) {
    reply == Unread || reply == Push(false)
  }

  /** The entries from the i-th on whose push succeeds. */
  function Handed(batch: seq<Entry>, replies: seq<Reply>, i: nat): seq<Entry>
    decreases |batch| - i
  {
    if |batch| <= i || Stops(ReplyAt(replies, i)) then []
    else (if ReplyAt(replies, i) == Push(true) then [batch[i]] else []) + Handed(batch, replies, i + 1)
  }

  /** How many entries in a row are pushed. */
  function Pushes(replies: seq<Reply>, i: nat): nat
    decreases |replies| - i
  {
    if ReplyAt(replies, i) == Push(true) then 1 + Pushes(replies, i + 1) else 0
  }

  function LastScore(last: nat, accepted: seq<Entry>): nat {
    if accepted == [] then last else accepted[|accepted| - 1].score
  }

  /** Without missing records, a beginning of the batch is accepted. */
  lemma {:induction false} HandedIsPrefix(batch: seq<Entry>, replies: seq<Reply>, i: nat)
    requires i <= |batch| && Gone !in replies
    ensures Handed(batch, replies, i) == Take(batch[i..], Pushes(replies, i))
    decreases |batch| - i
  {
    if i < |batch| && ReplyAt(replies, i) == Push(true) {
      HandedIsPrefix(batch, replies, i + 1);
      assert batch[i..] == [batch[i]] + batch[i + 1..];
    } else if i < |batch| {
      assert ReplyAt(replies, i) != Gone;
    }
  }

  /** With missing records, what is accepted still comes in the order of the batch, each entry once. */
  lemma {:induction false} HandedInOrder(batch: seq<Entry>, replies: seq<Reply>, i: nat)
    requires i <= |batch| && InOrder(batch)
    ensures InOrder(Handed(batch, replies, i))
    ensures forall e | e in Handed(batch, replies, i) :: e in batch[i..]
    decreases |batch| - i
  {
    if i < |batch| && !Stops(ReplyAt(replies, i)) {
      HandedInOrder(batch, replies, i + 1);
      assert batch[i..] == [batch[i]] + batch[i + 1..];
      var rest := Handed(batch, replies, i + 1);
      forall k | 0 <= k < |rest| ensures batch[i].score <= rest[k].score && batch[i] != rest[k] {
        assert rest[k] in batch[i + 1..];
      }
    }
  }

  /** No reply from the i-th to the one before the k-th stops the check. */
  ghost predicate GoesTo(replies: seq<Reply>, i: nat, k: nat) {
    forall j: nat | i <= j < k :: ReplyAt(replies, j) == Push(true) || ReplyAt(replies, j) == Gone
  }

  /** An entry is accepted exactly if its push succeeds, and every entry before it has been pushed too or
      its record is missing. */
  lemma {:induction false} HandedExactly(batch: seq<Entry>, replies: seq<Reply>, i: nat, k: nat)
    requires InOrder(batch) && i <= k < |batch|
    ensures batch[k] in Handed(batch, replies, i) <==> ReplyAt(replies, k) == Push(true) && GoesTo(replies, i, k)
    decreases |batch| - i
  {
    hide Handed, InOrder, GoesTo;
    HandedFirst(batch, replies, i, batch[k]);
    if i < k {
      HandedExactly(batch, replies, i + 1, k);
      DifferentEntries(batch, i, k);
    } else {
      HandedInOrder(batch, replies, k + 1);
      NotLater(batch, k);
    }
    GoesOneOn(replies, i, k);
  }

  lemma HandedFirst(batch: seq<Entry>, replies: seq<Reply>, i: nat, e: Entry)
    requires i < |batch|
    ensures e in Handed(batch, replies, i) <==>
      !Stops(ReplyAt(replies, i))
      && ((ReplyAt(replies, i) == Push(true) && e == batch[i]) || e in Handed(batch, replies, i + 1))
  {
  }

  lemma GoesOneOn(replies: seq<Reply>, i: nat, k: nat)
    requires i <= k
    ensures GoesTo(replies, i, k) <==> i == k || (!Stops(ReplyAt(replies, i)) && GoesTo(replies, i + 1, k))
  {
    var reply := ReplyAt(replies, i);
    assert Stops(reply) <==> reply != Push(true) && reply != Gone;
  }

  lemma DifferentEntries(batch: seq<Entry>, i: nat, k: nat)
    requires InOrder(batch) && i < k < |batch|
    ensures batch[i] != batch[k]
  {
  }

  lemma NotLater(batch: seq<Entry>, k: nat)
    requires InOrder(batch) && k < |batch|
    ensures batch[k] !in batch[k + 1..]
  {
  }

  /** The entries among the first i whose push succeeds. */
  function HandedBefore(batch: seq<Entry>, replies: seq<Reply>, i: nat): seq<Entry>
    requires i <= |batch|
  {
    if i == 0 then []
    else HandedBefore(batch, replies, i - 1) + if ReplyAt(replies, i - 1) == Push(true) then [batch[i - 1]] else []
  }

  /** The loop of checkMessages before its i-th entry: nothing has stopped it. */
  lemma {:induction false} HandedSoFar(batch: seq<Entry>, replies: seq<Reply>, i: nat)
    requires i <= |batch| && forall j | 0 <= j < i :: !Stops(ReplyAt(replies, j))
    ensures Handed(batch, replies, 0) == HandedBefore(batch, replies, i) + Handed(batch, replies, i)
  {
    if i > 0 {
      HandedSoFar(batch, replies, i - 1);
    }
  }

  /** Only the replies so far count. */
  lemma {:induction false} HandedBeforeAgrees(batch: seq<Entry>, replies: seq<Reply>, met: seq<Reply>, i: nat)
    requires i <= |batch| && forall j | 0 <= j < i :: ReplyAt(met, j) == ReplyAt(replies, j)
    ensures HandedBefore(batch, met, i) == HandedBefore(batch, replies, i)
  {
    if i > 0 {
      HandedBeforeAgrees(batch, replies, met, i - 1);
    }
  }

  lemma AllHanded(batch: seq<Entry>, replies: seq<Reply>)
    requires forall j | 0 <= j < |batch| :: !Stops(ReplyAt(replies, j))
    ensures Handed(batch, replies, 0) == HandedBefore(batch, replies, |batch|)
  {
    HandedSoFar(batch, replies, |batch|);
  }

  /** The check ends at its i-th entry, or in front of it, with what it has handed over. */
  lemma StopsHere(batch: seq<Entry>, replies: seq<Reply>, i: nat)
    requires i < |batch| && forall j | 0 <= j < i :: !Stops(ReplyAt(replies, j))
    ensures Stops(ReplyAt(replies, i)) ==> Handed(batch, replies, 0) == HandedBefore(batch, replies, i)
  {
    HandedSoFar(batch, replies, i);
  }

  /** A push that fails after all, for want of a timer. */
  lemma StoppedAt(batch: seq<Entry>, replies: seq<Reply>, met: seq<Reply>, i: nat)
    requires i < |batch| && i < |replies| && met == replies[i := Push(false)]
    requires forall j | 0 <= j < i :: !Stops(ReplyAt(replies, j))
    ensures Handed(batch, met, 0) == HandedBefore(batch, replies, i) && Stops(ReplyAt(met, i))
  {
    hide Handed, HandedBefore;
    forall j | 0 <= j < i
      ensures ReplyAt(met, j) == ReplyAt(replies, j)
    {
      assert met[j] == replies[j];
    }
    StopsHere(batch, met, i);
    HandedBeforeAgrees(batch, replies, met, i);
  }

  // ----- runs -----

  datatype State = State(queue: seq<Entry>, last: nat, log: seq<Entry>)

  datatype Step =
    | Append(e: Entry, at: nat)                                   // somebody's zadd
    | Check(now: nat, counted: nat, replies: seq<Reply>)

  /** The time of a message is not before the others in the queue; among those of one time the set
      decides where it stands. */
  ghost predicate Enabled(s: State, step: Step) {
    match step
    case Append(e, at) =>
      && at <= |s.queue| && e !in s.queue
      && (forall x | x in s.queue :: x.score <= e.score)
      && forall k | at <= k < |s.queue| :: s.queue[k].score == e.score
    case Check(now, counted, _) => s.last < now && counted <= |s.queue|
  }

  ghost function AcceptedBy(limits: Limits, s: State, step: Step): seq<Entry>
    requires step.Check?
  {
    var batch := Batch(limits, s.last, step.now, step.counted, s.queue);
    if batch.None? then [] else Handed(batch.value, step.replies, 0)
  }

  ghost function Next(limits: Limits, s: State, step: Step): State
    requires Enabled(s, step)
  {
    match step
    case Append(e, at) => s.(queue := Inserted(s.queue, e, at))
    case Check(_, _, _) =>
      var accepted := AcceptedBy(limits, s, step);
      s.(log := s.log + accepted, last := LastScore(s.last, accepted))
  }

  /** A session that has just logged in with any lastUpdate. */
  ghost predicate Initial(s: State) {
    InOrder(s.queue) && s.log == []
  }

  ghost predicate Goes(limits: Limits, s: State, step: Step, t: State) {
    Enabled(s, step) && t == Next(limits, s, step)
  }

  ghost predicate Behavior(limits: Limits, b: seq<State>, steps: seq<Step>) {
    && |b| == |steps| + 1 && Initial(b[0])
    && forall i {:trigger steps[i]} | 0 <= i < |steps| :: Goes(limits, b[i], steps[i], b[i + 1])
  }

  lemma StepOf(limits: Limits, b: seq<State>, steps: seq<Step>, i: nat)
    requires Behavior(limits, b, steps) && i < |steps|
    ensures Enabled(b[i], steps[i]) && b[i + 1] == Next(limits, b[i], steps[i])
  {
  }

  /** Every record the checks look up is stored. */
  ghost predicate AllStored(steps: seq<Step>) {
    forall k | 0 <= k < |steps| && steps[k].Check? :: Gone !in steps[k].replies
  }

  /** The step is no check after an expiry, once something has been accepted. */
  ghost predicate Steady(limits: Limits, s: State, step: Step) {
    step.Check? && s.log != [] ==> !Expired(limits, s.last, step.now)
  }

  ghost predicate NoExpiry(limits: Limits, b: seq<State>, steps: seq<Step>)
    requires |b| == |steps| + 1
  {
    forall k | 0 <= k < |steps| :: Steady(limits, b[k], steps[k])
  }

  /** No two messages of one time. */
  ghost predicate Growing(b: seq<State>, steps: seq<Step>)
    requires |b| == |steps| + 1
  {
    && Ascending(b[0].queue)
    && forall k | 0 <= k < |steps| && steps[k].Append? :: forall x | x in b[k].queue :: x.score < steps[k].e.score
  }

  /** The index of the first entry a check goes through. */
  ghost function StartOf(limits: Limits, s: State, step: Step): nat
    requires step.Check?
  {
    if Expired(limits, s.last, step.now) then CatchUp(limits, step.counted) else UpTo(s.queue, s.last)
  }

  ghost function MaxEntries(limits: Limits, s: State, step: Step): nat
    requires step.Check?
  {
    if Expired(limits, s.last, step.now) then if step.counted == 0 then 0 else limits.number else limits.batch
  }

  /** Exactly what a check accepts. */
  lemma CheckDelivers(limits: Limits, s: State, step: Step)
    requires Sorted(s.queue) && step.Check? && Gone !in step.replies
    ensures AcceptedBy(limits, s, step)
      == Take(Take(Drop(s.queue, StartOf(limits, s, step)), MaxEntries(limits, s, step)), Pushes(step.replies, 0))
  {
    UpToSplits(s.queue, s.last);
    var batch := Batch(limits, s.last, step.now, step.counted, s.queue);
    if batch.Some? {
      HandedIsPrefix(batch.value, step.replies, 0);
      assert batch.value[0..] == batch.value;
    }
  }

  /** Every push that the check can come to succeeds. */
  ghost predicate AllPushed(s: State, step: Step)
    requires step.Check?
  {
    forall k | 0 <= k < |s.queue| :: ReplyAt(step.replies, k) == Push(true)
  }

  lemma {:induction false} HandedAll(batch: seq<Entry>, replies: seq<Reply>, i: nat)
    requires i <= |batch| && forall k | i <= k < |batch| :: ReplyAt(replies, k) == Push(true)
    ensures Handed(batch, replies, i) == batch[i..]
    decreases |batch| - i
  {
    if i < |batch| {
      HandedAll(batch, replies, i + 1);
    }
  }

  /** A check after a login without a time, or after more than VALID_DURATION, hands over the last
      VALID_NUMBER entries of the queue, or all if there are fewer; the cursor is at the end then. */
  lemma LoginCheck(limits: Limits, s: State, step: Step)
    requires Enabled(s, step) && step.Check? && step.counted == |s.queue| && AllPushed(s, step)
    requires s.last == 0 || limits.duration < step.now - s.last
    ensures var q, t := s.queue, Next(limits, s, step);
      var from := if limits.number <= |q| then |q| - limits.number else 0;
      && t.queue == q && t.log == s.log + q[from..]
      && t.last == if from < |q| then q[|q| - 1].score else s.last
  {
    hide Handed, AllPushed;
    var from := if limits.number <= |s.queue| then |s.queue| - limits.number else 0;
    if s.queue != [] {
      LastOf(s.queue, from, limits.number);
      BatchAccepted(limits, s, step, s.queue[from..]);
    }
  }

  lemma LastOf(q: seq<Entry>, from: nat, n: nat)
    requires from <= |q| && |q| - from <= n
    ensures Take(Drop(q, from), n) == q[from..]
  {
  }

  lemma BatchAccepted(limits: Limits, s: State, step: Step, batch: seq<Entry>)
    requires step.Check? && AllPushed(s, step) && |batch| <= |s.queue|
    requires Batch(limits, s.last, step.now, step.counted, s.queue) == Some(batch)
    ensures AcceptedBy(limits, s, step) == batch
  {
    HandedAll(batch, step.replies, 0);
    assert batch[0..] == batch;
  }

  /** Any other check hands over the entries later than the cursor, up to the limit of the command; u is
      the index of the first. */
  lemma RecentCheck(limits: Limits, s: State, step: Step) returns (u: nat)
    requires Sorted(s.queue) && Enabled(s, step) && step.Check? && AllPushed(s, step)
    requires s.last != 0 && step.now - s.last <= limits.duration
    ensures u <= |s.queue| && forall k | 0 <= k < |s.queue| :: k < u <==> s.queue[k].score <= s.last
    ensures var q, t := s.queue, Next(limits, s, step);
      var to := if u + limits.batch <= |q| then u + limits.batch else |q|;
      && t.queue == q && t.log == s.log + q[u..to]
      && t.last == if u < to then q[to - 1].score else s.last
  {
    u := UpTo(s.queue, s.last);
    UpToSplits(s.queue, s.last);
    hide Handed, AllPushed, UpTo, Above;
    var q := s.queue;
    var to := if u + limits.batch <= |q| then u + limits.batch else |q|;
    assert Take(q[u..], limits.batch) == q[u..to];
    BatchAccepted(limits, s, step, q[u..to]);
  }

  // ----- the queue -----

  ghost function Inserted(q: seq<Entry>, e: Entry, at: nat): (r: seq<Entry>)
    requires at <= |q|
  {
    q[..at] + [e] + q[at..]
  }

  /** r is q with e at `at`. */
  ghost predicate HasAt(r: seq<Entry>, q: seq<Entry>, e: Entry, at: nat) {
    && at <= |q| && |r| == |q| + 1
    && r[at] == e
    && (forall k | 0 <= k < at :: r[k] == q[k])
    && (forall k {:trigger r[k]} | at < k < |r| :: r[k] == q[k - 1])
  }

  lemma InsertedAt(q: seq<Entry>, e: Entry, at: nat)
    requires at <= |q|
    ensures HasAt(Inserted(q, e, at), q, e, at)
  {
  }

  lemma AppendInOrder(q: seq<Entry>, e: Entry, at: nat, r: seq<Entry>)
    requires InOrder(q) && e !in q && HasAt(r, q, e, at)
    requires (forall x | x in q :: x.score <= e.score) && forall k | at <= k < |q| :: q[k].score == e.score
    ensures InOrder(r)
  {
    forall i, j | 0 <= i < j < |r|
      ensures r[i].score <= r[j].score && r[i] != r[j]
    {
      assert i < |q| ==> q[i] in q;
      assert q[j - 1] in q;
    }
  }

  /** A message that is later than all others is put at the end. */
  lemma AtEnd(q: seq<Entry>, e: Entry, at: nat)
    requires at <= |q| && (forall x | x in q :: x.score < e.score) && forall k | at <= k < |q| :: q[k].score == e.score
    ensures at == |q| && (forall k | 0 <= k < |q| :: q[k].score < e.score) && Inserted(q, e, at) == q + [e]
  {
    assert forall k | 0 <= k < |q| :: q[k] in q;
    assert at < |q| ==> q[at].score < e.score;
  }

  lemma {:induction false} QueueInOrder(limits: Limits, b: seq<State>, steps: seq<Step>, j: nat)
    requires Behavior(limits, b, steps) && j < |b|
    ensures InOrder(b[j].queue)
  {
    hide InOrder, AcceptedBy;
    if j > 0 {
      QueueInOrder(limits, b, steps, j - 1);
      StepOf(limits, b, steps, j - 1);
      if steps[j - 1].Append? {
        var q, e, at := b[j - 1].queue, steps[j - 1].e, steps[j - 1].at;
        InsertedAt(q, e, at);
        AppendInOrder(q, e, at, Inserted(q, e, at));
      }
    }
  }

  lemma {:induction false} QueueAscending(limits: Limits, b: seq<State>, steps: seq<Step>, j: nat)
    requires Behavior(limits, b, steps) && Growing(b, steps) && j < |b|
    ensures Ascending(b[j].queue)
  {
    hide AcceptedBy, InOrder, Inserted;
    if j > 0 {
      QueueAscending(limits, b, steps, j - 1);
      StepOf(limits, b, steps, j - 1);
      if steps[j - 1].Append? {
        AtEnd(b[j - 1].queue, steps[j - 1].e, steps[j - 1].at);
      }
    }
  }

  // ----- one contiguous stretch -----

  /** The log is the stretch of the queue from `start`, and the cursor stands at its end. */
  ghost predicate Stretch(s: State, start: nat) {
    && start + |s.log| <= |s.queue|
    && s.log == s.queue[start..start + |s.log|]
    && (s.log != [] ==> s.last == s.queue[start + |s.log| - 1].score)
  }

  /** The check has something to accept: its limit is not 0, there is an entry where it starts, and the
      push of that one succeeds. */
  ghost predicate AcceptsSome(limits: Limits, s: State, step: Step)
    requires step.Check?
  {
    0 < MaxEntries(limits, s, step) && StartOf(limits, s, step) < |s.queue| && ReplyAt(step.replies, 0) == Push(true)
  }

  lemma AcceptsSomething(limits: Limits, s: State, step: Step)
    requires Sorted(s.queue) && step.Check? && Gone !in step.replies
    ensures AcceptsSome(limits, s, step) <==> AcceptedBy(limits, s, step) != []
  {
    hide AcceptedBy, StartOf, MaxEntries;
    CheckDelivers(limits, s, step);
  }

  /** The condition for a step to keep the stretch, told from the queue, the limits and the first reply:
      with c the index behind the last accepted entry, a message does not come in front of c; a check
      has nothing to accept, or goes on at c: after an expiry VALID_NUMBER entries before the end are
      there, otherwise the entry at c has a higher score than the last accepted one. */
  ghost predicate Continues(limits: Limits, s: State, step: Step, start: nat) {
    var c := start + |s.log|;
    match step
    case Append(_, at) => c <= at
    case Check(now, counted, _) =>
      AcceptsSome(limits, s, step) ==>
        if Expired(limits, s.last, now) then c == (if limits.number <= counted then counted - limits.number else 0)
        else c < |s.queue| && s.last < s.queue[c].score
  }

  lemma TakenFrom(q: seq<Entry>, c: nat, m: nat, p: nat)
    ensures var taken := Take(Take(Drop(q, c), m), p);
      taken != [] ==> c + |taken| <= |q| && taken == q[c..c + |taken|]
  {
  }

  lemma StretchGrows(s: State, accepted: seq<Entry>, start: nat, u: nat)
    requires InOrder(s.queue) && Stretch(s, start) && accepted != []
    requires u + |accepted| <= |s.queue| && accepted == s.queue[u..u + |accepted|]
    ensures Stretch(s.(log := s.log + accepted, last := LastScore(s.last, accepted)), start)
      <==> u == start + |s.log|
  {
    var c, n := start + |s.log|, |accepted|;
    if u == c {
      assert s.queue[start..c] + s.queue[c..c + n] == s.queue[start..c + n];
    }
    if c + n <= |s.queue| && s.log + accepted == s.queue[start..c + n] {
      assert (s.log + accepted)[|s.log|] == s.queue[c];
      assert accepted[0] == s.queue[u];
      SamePlace(s.queue, u, c);
    }
  }

  /** Where an unexpired check goes on. */
  lemma GoesOn(s: State, start: nat)
    requires Sorted(s.queue) && Stretch(s, start) && s.log != []
    ensures var c := start + |s.log|;
      && c <= UpTo(s.queue, s.last)
      && (UpTo(s.queue, s.last) == c <==> c == |s.queue| || s.last < s.queue[c].score)
  {
    UpToSplits(s.queue, s.last);
    var c, n := start + |s.log|, UpTo(s.queue, s.last);
    assert s.queue[c - 1].score <= s.last;
    assert c - 1 < n;
    assert c < |s.queue| ==> (c < n <==> s.queue[c].score <= s.last);
  }

  lemma CheckContinues(limits: Limits, s: State, step: Step, start: nat)
    requires InOrder(s.queue) && step.Check? && Gone !in step.replies && Enabled(s, step)
    requires Stretch(s, start) && s.log != []
    ensures Stretch(Next(limits, s, step), start) <==> Continues(limits, s, step, start)
  {
    hide AcceptedBy, AcceptsSome, MaxEntries, Take, Drop, Pushes, InOrder, Stretch, Expired, UpTo;
    var u, accepted := StartOf(limits, s, step), AcceptedBy(limits, s, step);
    InOrderSorted(s.queue);
    CheckDelivers(limits, s, step);
    AcceptsSomething(limits, s, step);
    GoesOn(s, start);
    if accepted == [] {
      assert s.log + accepted == s.log;
    } else {
      TakenFrom(s.queue, u, MaxEntries(limits, s, step), Pushes(step.replies, 0));
      StretchGrows(s, accepted, start, u);
    }
  }

  /** After VALID_DURATION without an accepted message the next one accepted continues the stretch if
      and only if the last VALID_NUMBER entries begin where the cursor stands: otherwise entries are
      skipped or sent again. */
  lemma ExpiryContinues(limits: Limits, s: State, step: Step, start: nat)
    requires InOrder(s.queue) && step.Check? && Gone !in step.replies && Enabled(s, step)
    requires Stretch(s, start) && s.log != [] && (s.last == 0 || limits.duration < step.now - s.last)
    requires AcceptedBy(limits, s, step) != []
    ensures Stretch(Next(limits, s, step), start)
      <==> start + |s.log| == if limits.number <= step.counted then step.counted - limits.number else 0
  {
    hide InOrder, Stretch, AcceptedBy;
    InOrderSorted(s.queue);
    AcceptsSomething(limits, s, step);
    CheckContinues(limits, s, step, start);
  }

  lemma InOrderSorted(q: seq<Entry>)
    requires InOrder(q)
    ensures Sorted(q)
  {
  }

  lemma AppendContinues(s: State, e: Entry, at: nat, start: nat, r: seq<Entry>)
    requires InOrder(s.queue) && e !in s.queue && HasAt(r, s.queue, e, at) && Stretch(s, start) && s.log != []
    ensures Stretch(s.(queue := r), start) <==> start + |s.log| <= at
  {
    var q, c := s.queue, start + |s.log|;
    if c <= at {
      assert r[start..c] == q[start..c];
    } else {
      var k := if at < start then start else at;
      assert s.log[k - start] == q[k];
      assert r[start..c][k - start] == r[k];
      assert r[k] == (if k == at then e else q[k - 1]);
      assert k == at ==> q[k] in q;
      assert k != at ==> q[k - 1] != q[k];
    }
  }

  lemma StepContinues(limits: Limits, s: State, step: Step, start: nat)
    requires InOrder(s.queue) && Enabled(s, step) && (step.Check? ==> Gone !in step.replies)
    requires Stretch(s, start) && s.log != []
    ensures Stretch(Next(limits, s, step), start) <==> Continues(limits, s, step, start)
    ensures Next(limits, s, step).log != []
  {
    hide InOrder, Stretch;
    if step.Check? {
      CheckContinues(limits, s, step, start);
    } else {
      var r := Inserted(s.queue, step.e, step.at);
      InsertedAt(s.queue, step.e, step.at);
      AppendContinues(s, step.e, step.at, start, r);
    }
  }

  ghost predicate StretchFrom(b: seq<State>, start: nat, i: nat, j: nat)
    requires i <= j < |b|
  {
    forall k | i <= k <= j :: Stretch(b[k], start)
  }

  ghost predicate ContinuesFrom(limits: Limits, b: seq<State>, steps: seq<Step>, start: nat, i: nat, j: nat)
    requires i <= j < |b| == |steps| + 1
  {
    forall k | i <= k < j :: Continues(limits, b[k], steps[k], start)
  }

  /** Exactly when what is accepted stays one contiguous stretch over a run: whatever expires and however
      scores are tied, as long as every step continues it, and no longer. */
  lemma {:induction false} StretchExactly(limits: Limits, b: seq<State>, steps: seq<Step>, start: nat, i: nat, j: nat)
    requires Behavior(limits, b, steps) && AllStored(steps) && i <= j < |b| == |steps| + 1
    requires Stretch(b[i], start) && b[i].log != []
    ensures StretchFrom(b, start, i, j) <==> ContinuesFrom(limits, b, steps, start, i, j)
    ensures b[j].log != []
    decreases j
  {
    hide Initial, Enabled, Next, Stretch, Continues, InOrder;
    if i < j {
      StretchExactly(limits, b, steps, start, i, j - 1);
      StepOf(limits, b, steps, j - 1);
      QueueInOrder(limits, b, steps, j - 1);
      if StretchFrom(b, start, i, j - 1) {
        StepContinues(limits, b[j - 1], steps[j - 1], start);
      } else {
        LogKept(limits, b[j - 1], steps[j - 1]);
      }
    }
  }

  lemma LogKept(limits: Limits, s: State, step: Step)
    requires Enabled(s, step)
    ensures s.log <= Next(limits, s, step).log
  {
  }

  // ----- without ties and expiry -----

  lemma StretchStarts(s: State, accepted: seq<Entry>, u: nat)
    requires accepted != [] && u + |accepted| <= |s.queue| && accepted == s.queue[u..u + |accepted|]
    ensures Stretch(s.(log := accepted, last := LastScore(s.last, accepted)), u)
  {
  }

  lemma FirstAccepted(limits: Limits, s: State, step: Step)
    requires InOrder(s.queue) && Enabled(s, step) && s.log == [] && Next(limits, s, step).log != []
    requires step.Check? ==> Gone !in step.replies
    ensures step.Check? && Stretch(Next(limits, s, step), StartOf(limits, s, step))
  {
    hide StartOf, MaxEntries, Pushes, AcceptedBy, Take, Drop, InOrder, Stretch, LastScore;
    if step.Check? {
      InOrderSorted(s.queue);
      CheckDelivers(limits, s, step);
      var u, accepted := StartOf(limits, s, step), AcceptedBy(limits, s, step);
      assert s.log + accepted == accepted;
      TakenFrom(s.queue, u, MaxEntries(limits, s, step), Pushes(step.replies, 0));
      StretchStarts(s, accepted, u);
    }
  }

  lemma GrowingContinues(limits: Limits, s: State, step: Step, start: nat)
    requires Ascending(s.queue) && Enabled(s, step) && Steady(limits, s, step) && s.log != [] && Stretch(s, start)
    requires step.Append? ==> forall x | x in s.queue :: x.score < step.e.score
    requires step.Check? ==> Gone !in step.replies
    ensures Continues(limits, s, step, start)
  {
    hide Batch, Handed;
    var q, c := s.queue, start + |s.log|;
    match step
    case Append(e, at) => AtEnd(q, e, at);
    case Check(_, _, _) =>
      assert Sorted(q);
      GoesOn(s, start);
  }

  /** With scores that grow, and no expiry once something has been accepted, the messages accepted over
      any run are one contiguous ascending stretch of the queue, without a gap or a repeat, from where
      the first check that had something accepted started. */
  lemma {:induction false} DeliveredStretch(limits: Limits, b: seq<State>, steps: seq<Step>, i: nat, j: nat)
    requires Behavior(limits, b, steps) && AllStored(steps) && |b| == |steps| + 1
    requires Growing(b, steps) && NoExpiry(limits, b, steps)
    requires i < j < |b| && b[i].log == [] && b[i + 1].log != []
    ensures steps[i].Check?
    ensures Stretch(b[j], StartOf(limits, b[i], steps[i])) && b[j].log != []
  {
    hide Ascending, InOrder, Initial, Enabled, Next, Stretch, StartOf, Continues, Steady;
    QueueInOrder(limits, b, steps, i);
    StepOf(limits, b, steps, i);
    FirstAccepted(limits, b[i], steps[i]);
    StaysStretched(limits, b, steps, StartOf(limits, b[i], steps[i]), i + 1, j);
  }

  lemma {:induction false} StaysStretched(limits: Limits, b: seq<State>, steps: seq<Step>, start: nat, i: nat, j: nat)
    requires Behavior(limits, b, steps) && AllStored(steps) && |b| == |steps| + 1
    requires Growing(b, steps) && NoExpiry(limits, b, steps)
    requires i <= j < |b| && Stretch(b[i], start) && b[i].log != []
    ensures Stretch(b[j], start) && b[j].log != []
    decreases j
  {
    hide Ascending, InOrder, Initial, Enabled, Next, Stretch, Continues, Steady;
    if i < j {
      StaysStretched(limits, b, steps, start, i, j - 1);
      QueueAscending(limits, b, steps, j - 1);
      QueueInOrder(limits, b, steps, j - 1);
      StepOf(limits, b, steps, j - 1);
      assert Steady(limits, b[j - 1], steps[j - 1]);
      GrowingContinues(limits, b[j - 1], steps[j - 1], start);
      StepContinues(limits, b[j - 1], steps[j - 1], start);
    }
  }

  /** Until then the cursor is where the login put it; so with a recent one the stretch starts right
      after it, and otherwise VALID_NUMBER entries before the end. */
  lemma {:induction false} FirstStart(limits: Limits, b: seq<State>, steps: seq<Step>, i: nat)
    requires Behavior(limits, b, steps) && i < |steps| && b[i].log == [] && steps[i].Check?
    ensures b[i].last == b[0].last
    ensures var start := StartOf(limits, b[i], steps[i]);
      if b[0].last == 0 || limits.duration < steps[i].now - b[0].last
      then start == if limits.number <= steps[i].counted then steps[i].counted - limits.number else 0
      else forall k | 0 <= k < |b[i].queue| :: k < start <==> b[i].queue[k].score <= b[0].last
  {
    hide InOrder, Initial, Enabled, Next;
    StillEmpty(limits, b, steps, i);
    QueueInOrder(limits, b, steps, i);
    InOrderSorted(b[i].queue);
    UpToSplits(b[i].queue, b[i].last);
  }

  lemma {:induction false} StillEmpty(limits: Limits, b: seq<State>, steps: seq<Step>, i: nat)
    requires Behavior(limits, b, steps) && i < |b| && b[i].log == []
    ensures b[i].last == b[0].last
  {
    hide Initial, Enabled, Next;
    if i > 0 {
      StepOf(limits, b, steps, i - 1);
      EmptyBefore(limits, b[i - 1], steps[i - 1]);
      StillEmpty(limits, b, steps, i - 1);
    }
  }

  lemma EmptyBefore(limits: Limits, s: State, step: Step)
    requires Enabled(s, step) && Next(limits, s, step).log == []
    ensures s.log == [] && Next(limits, s, step).last == s.last
  {
  }

  // ----- nothing twice -----

  /** The log is in order and comes from the queue, and the cursor stands at its last entry. */
  ghost predicate LogOk(s: State) {
    InOrder(s.log) && (s.log != [] ==> s.last == s.log[|s.log| - 1].score)
  }

  lemma BatchInOrder(limits: Limits, last: nat, now: nat, counted: nat, q: seq<Entry>)
    requires InOrder(q)
    ensures var batch := Batch(limits, last, now, counted, q);
      batch.Some? ==>
        && InOrder(batch.value)
        && (!Expired(limits, last, now) ==> forall e | e in batch.value :: last < e.score)
  {
    hide InOrder;
    InOrderSorted(q);
    UpToSplits(q, last);
    var batch := Batch(limits, last, now, counted, q);
    if batch.Some? {
      var from := if Expired(limits, last, now) then CatchUp(limits, counted) else UpTo(q, last);
      assert forall k | 0 <= k < |batch.value| :: batch.value[k] == q[from + k];
      if batch.value == [] {
        EmptyInOrder();
      } else {
        PieceInOrder(q, batch.value, from);
      }
    }
  }

  lemma PieceInOrder(q: seq<Entry>, piece: seq<Entry>, from: nat)
    requires InOrder(q) && from + |piece| <= |q| && forall k | 0 <= k < |piece| :: piece[k] == q[from + k]
    ensures InOrder(piece)
  {
  }

  lemma LaterInOrder(a: seq<Entry>, b: seq<Entry>)
    requires InOrder(a) && InOrder(b)
    requires a != [] ==> forall e | e in b :: a[|a| - 1].score < e.score
    ensures InOrder(a + b)
  {
    forall i, j | 0 <= i < j < |a + b|
      ensures (a + b)[i].score <= (a + b)[j].score && (a + b)[i] != (a + b)[j]
    {
      if i < |a| <= j {
        assert (a + b)[j] in b && a[i].score <= a[|a| - 1].score;
      }
    }
  }

  /** An unexpired check accepts only what has a higher score than the cursor, in order. */
  lemma AcceptedLater(limits: Limits, s: State, step: Step)
    requires InOrder(s.queue) && step.Check?
    ensures InOrder(AcceptedBy(limits, s, step))
    ensures !Expired(limits, s.last, step.now) ==> forall e | e in AcceptedBy(limits, s, step) :: s.last < e.score
  {
    hide Handed, Above, Expired, InOrder, Batch;
    var batch := Batch(limits, s.last, step.now, step.counted, s.queue);
    if batch.Some? {
      BatchInOrder(limits, s.last, step.now, step.counted, s.queue);
      HandedInOrder(batch.value, step.replies, 0);
      assert batch.value[0..] == batch.value;
    } else {
      EmptyInOrder();
    }
  }

  lemma EmptyInOrder()
    ensures InOrder([])
  {
  }

  lemma LogOkStep(limits: Limits, s: State, step: Step)
    requires InOrder(s.queue) && Enabled(s, step) && LogOk(s) && Steady(limits, s, step)
    ensures LogOk(Next(limits, s, step))
  {
    hide InOrder, AcceptedBy, Expired;
    if step.Check? {
      AcceptedLater(limits, s, step);
      LaterInOrder(s.log, AcceptedBy(limits, s, step));
    }
  }

  /** Even with records missing and scores tied, nothing is accepted twice or out of order, as long as
      nothing expires. */
  lemma {:induction false} NeverRepeats(limits: Limits, b: seq<State>, steps: seq<Step>, j: nat)
    requires Behavior(limits, b, steps) && |b| == |steps| + 1 && NoExpiry(limits, b, steps) && j < |b|
    ensures LogOk(b[j])
  {
    hide Initial, Enabled, Next, Steady, InOrder, LogOk;
    if j > 0 {
      NeverRepeats(limits, b, steps, j - 1);
      QueueInOrder(limits, b, steps, j - 1);
      StepOf(limits, b, steps, j - 1);
      assert Steady(limits, b[j - 1], steps[j - 1]);
      LogOkStep(limits, b[j - 1], steps[j - 1]);
    } else {
      NothingYet(b[0]);
    }
  }

  lemma NothingYet(s: State)
    requires Initial(s)
    ensures LogOk(s)
  {
  }

  // ----- ties -----

  lemma CursorRises(limits: Limits, s: State, step: Step)
    requires InOrder(s.queue) && Enabled(s, step) && Steady(limits, s, step) && s.log != []
    ensures var t := Next(limits, s, step);
      s.last <= t.last && forall e | e in t.log && e !in s.log :: s.last < e.score
  {
    hide InOrder, AcceptedBy, Expired;
    if step.Check? {
      AcceptedLater(limits, s, step);
      var accepted := AcceptedBy(limits, s, step);
      if accepted != [] {
        assert accepted[|accepted| - 1] in accepted;
      }
    }
  }

  /** As long as nothing expires, what is tied with the last accepted entry, or before it, and has not
      been accepted with it never will be, whether it was in the queue then or has come since. */
  lemma {:induction false} TiesAreLost(limits: Limits, b: seq<State>, steps: seq<Step>, i: nat, j: nat, e: Entry)
    requires Behavior(limits, b, steps) && |b| == |steps| + 1 && NoExpiry(limits, b, steps)
    requires i <= j < |b| && b[i].log != [] && e.score <= b[i].last && e !in b[i].log
    ensures e !in b[j].log && b[i].last <= b[j].last && b[j].log != []
    decreases j
  {
    hide Initial, Enabled, Next, Steady, InOrder;
    if i < j {
      TiesAreLost(limits, b, steps, i, j - 1, e);
      QueueInOrder(limits, b, steps, j - 1);
      StepOf(limits, b, steps, j - 1);
      assert Steady(limits, b[j - 1], steps[j - 1]);
      CursorRises(limits, b[j - 1], steps[j - 1]);
      LogKept(limits, b[j - 1], steps[j - 1]);
    }
  }

  /** A check after an expiry goes by position alone, not by score: it accepts the entries from
      VALID_NUMBER before the counted end on, at most VALID_NUMBER of them, up to the first that is not
      pushed; tied ones and accepted ones among them. */
  lemma ExpiryGoesByPosition(limits: Limits, s: State, step: Step, k: nat)
    requires InOrder(s.queue) && step.Check? && Gone !in step.replies && k < |s.queue| && 0 < step.counted
    requires s.last == 0 || limits.duration < step.now - s.last
    ensures var from := if limits.number <= step.counted then step.counted - limits.number else 0;
      s.queue[k] in AcceptedBy(limits, s, step) <==>
        from <= k < from + limits.number && k < from + Pushes(step.replies, 0)
  {
    hide InOrder, AcceptedBy, Batch, Take, Drop, Pushes;
    InOrderSorted(s.queue);
    CheckDelivers(limits, s, step);
    TakenAt(s.queue, CatchUp(limits, step.counted), limits.number, Pushes(step.replies, 0), k);
  }

  lemma TakenAt(q: seq<Entry>, from: nat, m: nat, p: nat, k: nat)
    requires InOrder(q) && k < |q|
    ensures q[k] in Take(Take(Drop(q, from), m), p) <==> from <= k < from + m && k < from + p
  {
    hide InOrder;
    var taken := Take(Take(Drop(q, from), m), p);
    assert forall j | 0 <= j < |taken| :: taken[j] == q[from + j];
    if from <= k < from + |taken| {
      assert taken[k - from] == q[k];
    }
    if q[k] in taken {
      var j :| 0 <= j < |taken| && taken[j] == q[k];
      SamePlace(q, from + j, k);
    }
  }

  lemma SamePlace(q: seq<Entry>, i: nat, j: nat)
    requires InOrder(q) && i < |q| && j < |q| && q[i] == q[j]
    ensures i == j
  {
  }

  /** With a second limit of 0, nothing is accepted any more once something has been. */
  lemma {:induction false} ZeroLimitStalls(limits: Limits, b: seq<State>, steps: seq<Step>, i: nat, j: nat)
    requires Behavior(limits, b, steps) && |b| == |steps| + 1 && NoExpiry(limits, b, steps)
    requires limits.batch == 0 && i <= j < |b| && b[i].log != []
    ensures b[j].log == b[i].log
    decreases j
  {
    hide Initial, Enabled, Next, Steady;
    if i < j {
      ZeroLimitStalls(limits, b, steps, i, j - 1);
      StepOf(limits, b, steps, j - 1);
      assert Steady(limits, b[j - 1], steps[j - 1]);
      Stalls(limits, b[j - 1], steps[j - 1]);
    }
  }

  lemma Stalls(limits: Limits, s: State, step: Step)
    requires limits.batch == 0 && Enabled(s, step) && Steady(limits, s, step) && s.log != []
    ensures Next(limits, s, step).log == s.log
  {
  }

  // ----- four inputs -----

  const TIED: seq<Entry> := [Entry(1, 10), Entry(2, 10)]

  /** One of two messages of one time is accepted, the push of the other fails: the next check, which
      could push it, passes it over. */
  lemma TieIsPassedOver()
    ensures var limits := Limits(100, 8, 8);
      var first, second := Check(20, 2, [Push(true), Push(false)]), Check(30, 2, [Push(true), Push(true)]);
      var s := State(TIED, 5, []);
      && Initial(s) && Enabled(s, first)
      && var t := Next(limits, s, first);
         && t == State(TIED, 10, [Entry(1, 10)]) && Enabled(t, second) && Next(limits, t, second) == t
  {
    var limits := Limits(100, 8, 8);
    assert TIED[1..][1..] == [] && Above(TIED[1..], 5) == [Entry(2, 10)] && Above(TIED, 5) == TIED;
    assert Above(TIED[1..], 10) == [] && Above(TIED, 10) == [];
    assert Handed(TIED, [Push(true), Push(false)], 1) == [];
    assert Handed(TIED, [Push(true), Push(false)], 0) == [Entry(1, 10)];
  }

  /** After an expiry it is delivered all the same. */
  lemma TieAfterExpiry()
    ensures var limits := Limits(5, 1, 8);
      var s, late := State(TIED, 10, [Entry(1, 10)]), Check(100, 2, [Push(true)]);
      Enabled(s, late) && Next(limits, s, late).log == [Entry(1, 10), Entry(2, 10)]
  {
    var limits := Limits(5, 1, 8);
    assert Handed([Entry(2, 10)], [Push(true)], 1) == [];
    assert Handed([Entry(2, 10)], [Push(true)], 0) == [Entry(2, 10)];
    assert Take(Drop(TIED, 1), 1) == [Entry(2, 10)];
  }

  const THREE: seq<Entry> := [Entry(1, 10), Entry(2, 20), Entry(3, 30)]

  /** An expiry with a small VALID_NUMBER skips the second of three messages. */
  lemma ExpirySkips()
    ensures var limits := Limits(5, 1, 8);
      var s, late := State(THREE, 10, [Entry(1, 10)]), Check(100, 3, [Push(true)]);
      && Stretch(s, 0) && Enabled(s, late) && !Continues(limits, s, late, 0)
      && Next(limits, s, late).log == [Entry(1, 10), Entry(3, 30)]
  {
    var limits := Limits(5, 1, 8);
    assert Handed([Entry(3, 30)], [Push(true)], 1) == [];
    assert Handed([Entry(3, 30)], [Push(true)], 0) == [Entry(3, 30)];
    assert Take(Drop(THREE, 2), 1) == [Entry(3, 30)];
  }

  /** With a large one it sends the first again. */
  lemma ExpiryRepeats()
    ensures var limits := Limits(5, 8, 8);
      var s, late := State(THREE, 10, [Entry(1, 10)]), Check(100, 3, [Push(true)]);
      && Stretch(s, 0) && Enabled(s, late) && !Continues(limits, s, late, 0)
      && Next(limits, s, late).log == [Entry(1, 10), Entry(1, 10)]
  {
    var limits := Limits(5, 8, 8);
    assert Handed(THREE, [Push(true)], 1) == [];
    assert Handed(THREE, [Push(true)], 0) == [Entry(1, 10)];
    assert Take(Drop(THREE, 0), 8) == THREE;
  }
}
