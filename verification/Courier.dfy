/** CRedisOperator::checkMessages in place, over a CTransaction: which entries of a user's queue the
    session is handed, where its lastUpdate ends, and what becomes of the session. */
module Couriers {
  import opened Prelude
  import opened Delivery
  import opened Transactions
  import Sn = Sessions
  import T = TimerSpec

  /** What a push meets: it can fail for want of a timer although it has been sent. */
  ghost predicate Meets(met: seq<Reply>, replies: seq<Reply>) {
    |met| == |replies| && forall k | 0 <= k < |met| :: met[k] == replies[k] || (replies[k].Push? && met[k] == Push(false))
  }

  class Courier {
    const transaction: Transaction
    ghost var log: seq<Entry>        // every entry whose push has succeeded

    constructor (transaction: Transaction)
      ensures this.transaction == transaction && log == []
    {
      this.transaction := transaction;
      log := [];
    }

    /** The session is ready and in order. */
    ghost predicate Serving()
      reads transaction, transaction.registry, transaction.timers, transaction.timers.group
    {
      && transaction.Valid() && transaction.OwnEntry()
      && transaction.status == Sn.Ready && transaction.seqCounter < Sn.WRAP
    }

    /** handlePushMessage for one entry. */
    method PushEntry(e: Entry, sent: bool, clock: T.Clock) returns (ok: bool)
      requires Serving()
      modifies this, transaction, transaction.registry
      modifies transaction.timers`freeDeque, transaction.timers`queueForDel, transaction.timers`killed
      modifies transaction.timers`setting, transaction.timers`pending, transaction.timers`slots
      modifies transaction.timers`queueForAdd, transaction.timers.group
      ensures transaction.Valid() && (ok ==> sent)
      ensures log == if ok then old(log) + [e] else old(log)
      ensures ok || !sent ==> Serving()
      ensures sent && !ok ==> transaction.status == Sn.Over
      ensures transaction.lastUpdate == if ok then e.score else if sent then 0 else old(transaction.lastUpdate)
    {
      ok := transaction.HandlePushMessage(e.score, sent, clock);
      if ok {
        log := log + [e];
      }
    }

    /** The loop over the entries of a reply. `met` is what the pushes met. */
    method PushBatch(batch: seq<Entry>, replies: seq<Reply>, clock: T.Clock) returns (ok: bool, ghost met: seq<Reply>)
      requires Serving()
      modifies this, transaction, transaction.registry
      modifies transaction.timers`freeDeque, transaction.timers`queueForDel, transaction.timers`killed
      modifies transaction.timers`setting, transaction.timers`pending, transaction.timers`slots
      modifies transaction.timers`queueForAdd, transaction.timers.group
      ensures transaction.Valid() && Meets(met, replies)
      ensures log == old(log) + Handed(batch, met, 0)
      ensures ok <==> forall i | 0 <= i < |batch| :: !Stops(ReplyAt(met, i))
      ensures met == replies ==>
        Serving() && transaction.lastUpdate == LastScore(old(transaction.lastUpdate), Handed(batch, met, 0))
      ensures met != replies ==> !ok && transaction.status == Sn.Over && transaction.lastUpdate == 0
    {
      hide Transaction.Valid, Transaction.OwnEntry, Handed;
      ok, met := false, replies;
      var i := 0;
      while i < |batch|
        invariant 0 <= i <= |batch| && met == replies && Serving()
        invariant forall j | 0 <= j < i :: !Stops(ReplyAt(replies, j))
        invariant log == old(log) + HandedBefore(batch, replies, i)
        invariant transaction.lastUpdate == LastScore(old(transaction.lastUpdate), HandedBefore(batch, replies, i))
      {
        StopsHere(batch, replies, i);
        match ReplyAt(replies, i) {
          case Unread => return;
          case Gone =>
          case Push(sent) =>
            var pushed := PushEntry(batch[i], sent, clock);
            if !pushed {
              if sent {
                met := replies[i := Push(false)];
                StoppedAt(batch, replies, met, i);
              }
              return;
            }
        }
        i := i + 1;
      }
      AllHanded(batch, replies);
      ok := true;
    }

    /** zcount and zrangebyscore answer `counted` and `q`, or fail. */
    method CheckMessages(limits: Limits, now: nat, counted: Option<nat>, q: Option<seq<Entry>>, replies: seq<Reply>,
                         clock: T.Clock) returns (ok: bool, ghost met: seq<Reply>)
      requires Serving() && transaction.lastUpdate < now
      modifies this, transaction, transaction.registry
      modifies transaction.timers`freeDeque, transaction.timers`queueForDel, transaction.timers`killed
      modifies transaction.timers`setting, transaction.timers`pending, transaction.timers`slots
      modifies transaction.timers`queueForAdd, transaction.timers.group
      ensures transaction.Valid() && Meets(met, replies)
      ensures var last := old(transaction.lastUpdate);
        var batch :=
          if q.None? || (Expired(limits, last, now) && counted.None?) then None
          else Batch(limits, last, now, if counted.Some? then counted.value else 0, q.value);
        var accepted := if batch.None? then [] else Handed(batch.value, met, 0);
        && log == old(log) + accepted
        && (ok <==> batch.Some? && forall i | 0 <= i < |batch.value| :: !Stops(ReplyAt(met, i)))
        && (met == replies ==> Serving() && transaction.lastUpdate == LastScore(last, accepted))
        && (met != replies ==> transaction.status == Sn.Over && transaction.lastUpdate == 0)
    {
      hide Handed, Take, Drop, Above, Stops, Transaction.Valid;
      ok, met := false, replies;
      var batch := [];
      var last := transaction.lastUpdate;
      if last == 0 || limits.duration < now - last {
        if counted.None? { return; }
        var num := counted.value;
        if num <= 0 {
          return;
        } else if limits.number <= num {
          num := num - limits.number;
        } else {
          num := 0;
        }
        if q.None? { return; }
        batch := Take(Drop(q.value, num), limits.number);
      } else {
        if q.None? { return; }
        batch := Take(Above(q.value, last), limits.batch);
      }

      ok, met := PushBatch(batch, replies, clock);
    }
  }
}
