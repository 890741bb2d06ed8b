/** A list visited in turn by a roving cursor, as CTimerManager::working visits the timers and
    CNodeGroup::_rollingNode the nodes: a cursor past the end (None) restarts at the first element,
    and removing the element under the cursor moves the cursor to the next one. */
module RoundRobin {
  import opened Prelude

  ghost predicate CursorIn<T(!new)>(list: seq<T>, cur: Option<T>) {
    cur.Some? ==> cur.value in list
  }

  /** The element behind x, None at the end. */
  function NextOf<T(==)>(list: seq<T>, x: T): (n: Option<T>)
    requires x in list
    ensures n.Some? ==> n.value in list
  {
    var i := IndexOf(list, x);
    if i + 1 < |list| then Some(list[i + 1]) else None
  }

  /** The element the next visit looks at. */
  ghost function Due<T(!new)>(list: seq<T>, cur: Option<T>): (x: T)
    requires list != [] && CursorIn(list, cur)
    ensures x in list
  {
    if cur.Some? then cur.value else list[0]
  }

  /** The cursor when y leaves the list. */
  ghost function CursorWithout<T(!new)>(list: seq<T>, cur: Option<T>, y: T): (c: Option<T>)
    requires y in list && CursorIn(list, cur)
  {
    if cur == Some(y) then NextOf(list, y) else cur
  }

  /** How many elements are visited before x. */
  ghost function Distance<T(!new)>(list: seq<T>, cur: Option<T>, x: T): (d: nat)
    requires x in list && CursorIn(list, cur)
    ensures d < |list|
    ensures d == 0 <==> Due(list, cur) == x
  {
    var i, c := IndexOf(list, x), IndexOf(list, Due(list, cur));
    if c <= i then i - c else |list| - c + i
  }

  /** Visiting some other element brings x nearer by one. */
  lemma VisitNearer<T(!new)>(list: seq<T>, cur: Option<T>, x: T)
    requires NoDup(list) && x in list && CursorIn(list, cur) && Due(list, cur) != x
    ensures Distance(list, NextOf(list, Due(list, cur)), x) == Distance(list, cur, x) - 1
  {
    var c := IndexOf(list, Due(list, cur));
    if c + 1 < |list| {
      IndexUnique(list, c + 1);
    } else {
      IndexUnique(list, 0);
    }
  }

  lemma IndexWithout<T>(list: seq<T>, y: T, z: T)
    requires NoDup(list) && y in list && z in list && y != z
    ensures z in Without(list, y)
    ensures IndexOf(Without(list, y), z)
         == IndexOf(list, z) - (if IndexOf(list, y) < IndexOf(list, z) then 1 else 0)
  {
    WithoutElements(list, y);
    var i, j := IndexOf(list, y), IndexOf(list, z);
    IndexUnique(Without(list, y), if i < j then j - 1 else j);
  }

  lemma CursorStays<T(!new)>(list: seq<T>, cur: Option<T>, y: T)
    requires NoDup(list) && y in list && CursorIn(list, cur)
    ensures CursorIn(Without(list, y), CursorWithout(list, cur, y))
  {
    WithoutElements(list, y);
  }

  /** Removing some other element never puts x further away. */
  lemma RemovalNotFarther<T(!new)>(list: seq<T>, cur: Option<T>, y: T, x: T)
    requires NoDup(list) && x in list && y in list && y != x && CursorIn(list, cur)
    ensures x in Without(list, y) && CursorIn(Without(list, y), CursorWithout(list, cur, y))
    ensures Distance(Without(list, y), CursorWithout(list, cur, y), x) <= Distance(list, cur, x)
  {
    CursorStays(list, cur, y);
    IndexWithout(list, y, x);
    DueWithout(list, cur, y);
  }

  /** Where the next visit is after a removal: the removed element's successor takes its index. */
  lemma DueWithout<T(!new)>(list: seq<T>, cur: Option<T>, y: T)
    requires NoDup(list) && y in list && CursorIn(list, cur) && Without(list, y) != []
    requires CursorIn(Without(list, y), CursorWithout(list, cur, y))
    ensures var rest := Without(list, y);
      var c, i := IndexOf(list, Due(list, cur)), IndexOf(list, y);
      IndexOf(rest, Due(rest, CursorWithout(list, cur, y)))
      == if c == |rest| == i then 0 else if i < c then c - 1 else c
  {
    var rest, i := Without(list, y), IndexOf(list, y);
    WithoutElements(list, y);
    IndexUnique(rest, 0);
    if cur == Some(y) {
      if i + 1 < |list| {
        IndexUnique(list, i + 1);
        IndexWithout(list, y, list[i + 1]);
      }
    } else if cur.Some? {
      IndexWithout(list, y, cur.value);
    } else {
      IndexUnique(list, 0);
    }
  }

  // ----- a list that only loses elements is visited completely -----

  datatype Ring<T> = Ring(list: seq<T>, cur: Option<T>)

  datatype Op<T> = Remove(x: T) | Visit

  ghost predicate ValidRing<T(!new)>(r: Ring<T>) {
    NoDup(r.list) && CursorIn(r.list, r.cur)
  }

  /** One operation; removing what is not there and visiting an empty list change nothing. */
  ghost function Apply<T(!new)>(r: Ring<T>, op: Op<T>): Ring<T>
    requires ValidRing(r)
  {
    match op
    case Remove(y) => if y in r.list then Ring(Without(r.list, y), CursorWithout(r.list, r.cur, y)) else r
    case Visit => if r.list == [] then r else r.(cur := NextOf(r.list, Due(r.list, r.cur)))
  }

  lemma ApplyValid<T(!new)>(r: Ring<T>, op: Op<T>)
    requires ValidRing(r)
    ensures ValidRing(Apply(r, op))
  {
    if op.Remove? && op.x in r.list {
      WithoutElements(r.list, op.x);
      CursorStays(r.list, r.cur, op.x);
    }
  }

  /** The elements visited while the operations run, and the ring they leave. */
  ghost function VisitOrder<T(!new)>(r: Ring<T>, ops: seq<Op<T>>): (v: seq<T>)
    requires ValidRing(r)
    decreases |ops|
  {
    if ops == [] then [] else
      ApplyValid(r, ops[0]);
      (if ops[0].Visit? && r.list != [] then [Due(r.list, r.cur)] else []) + VisitOrder(Apply(r, ops[0]), ops[1..])
  }

  ghost function After<T(!new)>(r: Ring<T>, ops: seq<Op<T>>): (a: Ring<T>)
    requires ValidRing(r)
    ensures ValidRing(a)
    decreases |ops|
  {
    if ops == [] then r else
      ApplyValid(r, ops[0]);
      After(Apply(r, ops[0]), ops[1..])
  }

  /** One operation that does not visit x brings x nearer by what it visits. */
  lemma ApplyNotFarther<T(!new)>(r: Ring<T>, op: Op<T>, x: T)
    requires ValidRing(r) && x in Apply(r, op).list
    ensures x in r.list && ValidRing(Apply(r, op))
    ensures (op.Visit? && Due(r.list, r.cur) == x)
      || Distance(Apply(r, op).list, Apply(r, op).cur, x) + (if op.Visit? then 1 else 0)
         <= Distance(r.list, r.cur, x)
  {
    ApplyValid(r, op);
    if op.Remove? && op.x in r.list {
      WithoutElements(r.list, op.x);
      RemovalNotFarther(r.list, r.cur, op.x, x);
    } else if op.Visit? && Due(r.list, r.cur) != x {
      VisitNearer(r.list, r.cur, x);
    }
  }

  /** Every element that survives is among the next |list| visits, whatever is removed in between. */
  lemma {:induction false} LapVisitsAll<T(!new)>(r: Ring<T>, ops: seq<Op<T>>, x: T)
    requires ValidRing(r) && x in After(r, ops).list
    ensures x in r.list
    ensures |r.list| <= |VisitOrder(r, ops)| ==> x in VisitOrder(r, ops)
  {
    LapDistance(r, ops, x);
  }

  lemma {:induction false} LapDistance<T(!new)>(r: Ring<T>, ops: seq<Op<T>>, x: T)
    requires ValidRing(r) && x in After(r, ops).list
    ensures x in r.list
    ensures x in VisitOrder(r, ops) || |VisitOrder(r, ops)| <= Distance(r.list, r.cur, x)
    decreases |ops|
  {
    if ops != [] {
      ApplyValid(r, ops[0]);
      LapDistance(Apply(r, ops[0]), ops[1..], x);
      ApplyNotFarther(r, ops[0], x);
    }
  }
}
