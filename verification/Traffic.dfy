/** src/traffic/CNodeGroup.cpp and the node bookkeeping of src/traffic/CTrafficManager.cpp in place:
    the group's message queue and round-robin container, the node pool, the recycle queue. */
module Traffic {
  import opened Prelude
  import opened RoundRobin
  import opened Framing
  import opened LoopBuffers
  import opened Sessions
  import opened Transactions
  import opened TimerManagers
  import T = TimerSpec
  import S = Server

  class NodeGroup {
    const queue: LoopBuffer
    const buffer: array<byte>
    var container: seq<nat>
    var pos: Option<nat>           // the iterator: the element it points to, None for end()

    constructor (messages: nat)
      requires 0 < messages
      ensures Valid() && container == [] && pos == None && queue.Contents() == []
      ensures queue.totalSize == messages * MSG_MAX_LENGTH
      ensures fresh(queue) && fresh(queue.data) && fresh(buffer)
    {
      queue := new LoopBuffer(messages * MSG_MAX_LENGTH, false);
      buffer := new byte[MSG_MAX_LENGTH](_ => 0);
      container, pos := [], None;
    }

    ghost predicate Valid()
      reads this, queue, queue.data
    {
      && queue.Valid() && !queue.isPadding
      && buffer.Length == MSG_MAX_LENGTH && buffer != queue.data
      && ValidRing(Ring())
    }

    ghost function Ring(): Ring<nat>
      reads `container, `pos
    {
      RoundRobin.Ring(container, pos)
    }

    // ----- the container -----

    /** t is the transaction of the node. */
    method Attach(node: nat, t: Transaction, now: T.Clock) returns (ok: bool)
      requires ValidRing(Ring()) && node !in container
      requires t.Valid() && t.status == Free && Cleared(t.View(Idle))
      modifies this`container, t`status, t`keepLiveTimerId
      modifies t.timers`freeDeque, t.timers`setting, t.timers`pending, t.timers`slots, t.timers`queueForAdd
      modifies t.timers.group
      ensures ValidRing(Ring()) && t.Valid()
      ensures Settle(t.self, Attached(old(t.View(Idle))), old(t.Around()), now)
        == (t.View(if ok then Idle else Stranded), t.Around())
      ensures container == if ok then old(container) + [node] else old(container)
    {
      hide Settle, Attached;
      ok := t.OnAttach(now);
      if !ok {
        return false;
      }
      NoDupAppend(container, node);
      container := container + [node];
    }

    /** The asserts of onDetach are what is required of t. */
    method Detach(node: nat, t: Transaction)
      requires ValidRing(Ring()) && t.status == Over && Cleared(t.View(Idle))
      modifies this`container, this`pos, t`status
      ensures ValidRing(Ring()) && Ring() == Apply(old(Ring()), Remove(node))
      ensures forall n :: n in container <==> n in old(container) && n != node
      ensures t.View(Idle) == old(t.View(Idle)).(status := Free)
    {
      ApplyValid(Ring(), Remove(node));
      if node in container {
        WithoutElements(container, node);
      }
      if pos == Some(node) {
        pos := NextOf(container, node);
      }
      if node in container {
        container := Without(container, node);
      }
      t.OnDetach();
    }

    /** The node to check next, and the cursor behind it. */
    method RollingNode() returns (node: Option<nat>)
      requires ValidRing(Ring())
      modifies this`pos
      ensures ValidRing(Ring())
      ensures Ring() == Apply(old(Ring()), Visit)
      ensures node == if container == [] then None else Some(Due(old(container), old(pos)))
    {
      if container == [] {
        return None;
      }
      ApplyValid(Ring(), Visit);
      if pos == None {
        pos := Some(container[0]);
      }
      node := pos;
      pos := NextOf(container, pos.value);
    }

    // ----- the message queue -----

    /** The queue holds whole messages. */
    ghost predicate Holds(messages: seq<Frame>)
      requires queue.Shape()
      reads queue, queue.data
    {
      queue.Contents() == Flatten(messages) && forall f | f in messages :: WellFormed(f)
    }

    method PutMessage(msg: Frame, ghost messages: seq<Frame>) returns (ok: bool)
      requires Valid() && Holds(messages) && WellFormed(msg)
      modifies queue, queue.data
      ensures Valid()
      ensures ok <==> |Flatten(messages)| + |msg| <= queue.totalSize
      ensures Holds(if ok then messages + [msg] else messages)
    {
      ok := queue.Write(msg);
      FlattenAppend(messages, [msg]);
      assert Flatten([msg]) == msg + Flatten([]) == msg;
    }

    /** The first read of _rollingQueue: the size of the message in front. */
    method ReadSize(ghost messages: seq<Frame>) returns (size: nat)
      requires Valid() && Holds(messages) && messages != []
      modifies queue, buffer
      ensures Valid() && WellFormed(messages[0])
      ensures size == |messages[0]| && buffer[..2] == messages[0][..2]
      ensures queue.Contents() == messages[0][2..] + Flatten(messages[1..])
    {
      ghost var f, tail := messages[0], Flatten(messages[1..]);
      assert queue.Contents() == f + tail && WellFormed(f);
      var bytes := queue.Read(2);
      assert |bytes| == 2;
      assert bytes == (f + tail)[..2] == f[..2];
      assert queue.Contents() == (f + tail)[2..] == f[2..] + tail;
      buffer[0], buffer[1] := bytes[0], bytes[1];
      assert buffer[..2] == bytes;
      size := buffer[0] as nat + 256 * buffer[1] as nat;
    }

    /** The second read: the rest of that message, whatever has been queued behind it meanwhile. */
    method ReadBody(size: nat, ghost f: Frame, ghost later: seq<byte>) returns (msg: Option<Frame>)
      requires Valid() && WellFormed(f) && size == |f| && buffer[..2] == f[..2]
      requires queue.Contents() == f[2..] + later
      modifies queue, buffer
      ensures Valid()
      ensures msg == Some(f) && queue.Contents() == later
    {
      var bytes := queue.Read(size - 2);
      assert |bytes| == size - 2;
      assert bytes == (f[2..] + later)[..size - 2] == f[2..];
      assert queue.Contents() == (f[2..] + later)[size - 2..] == later;
      if |bytes| + 2 != size {
        return None;
      }
      forall i | 0 <= i < |bytes| {
        buffer[2 + i] := bytes[i];
      }
      assert buffer[..size] == f[..2] + f[2..] == f;
      return Some(buffer[..size]);
    }
  }

  // ----- the recycle loop as steps -----

  ghost function Popped(s: S.State): S.State
    requires s.recycleQueue != []
  {
    s.(recycleQueue := s.recycleQueue[1..])
  }

  /** Every node in the queue can be recycled when its turn comes: no assert of onDetach fails. */
  ghost predicate Recyclable(s: S.State)
    decreases |s.recycleQueue|
  {
    s.recycleQueue != [] ==>
      if S.PassedOver(s, s.recycleQueue[0]) then Recyclable(Popped(s))
      else S.Enabled(s, S.Recycle) && Recyclable(S.Recycled(s))
  }

  /** The loop of working() over the recycle queue. */
  ghost function AllRecycled(s: S.State): S.State
    requires Recyclable(s)
    decreases |s.recycleQueue|
  {
    if s.recycleQueue == [] then s
    else if S.PassedOver(s, s.recycleQueue[0]) then AllRecycled(Popped(s))
    else AllRecycled(S.Recycled(s))
  }

  ghost predicate Out(s: S.State, n: nat) {
    n < |s.sessions| && n < |s.home| && !S.PassedOver(s, n)
  }

  /** What one round does to pool, queue and nodes. */
  lemma OneRecycled(s: S.State)
    requires s.recycleQueue != []
    requires !S.PassedOver(s, s.recycleQueue[0]) ==> S.Enabled(s, S.Recycle)
    ensures var n := s.recycleQueue[0];
      var t := if S.PassedOver(s, n) then Popped(s) else S.Recycled(s);
      && t.recycleQueue == s.recycleQueue[1..]
      && t.pool == (if S.PassedOver(s, n) then s.pool else s.pool + [n])
      && !Out(t, n) && (!S.PassedOver(s, n) ==> Out(s, n)) && (S.PassedOver(s, n) ==> !Out(s, n))
      && forall m: nat | m != n :: Out(t, m) == Out(s, m)
  {
  }

  /** Whatever the recycle queue holds, stale and repeated entries included, a pass gives back exactly
      the nodes in it that are out, each once, behind what was in the pool. */
  lemma {:induction false} ReleasedOnce(s: S.State)
    requires Recyclable(s)
    ensures var r := AllRecycled(s);
      && r.recycleQueue == [] && s.pool <= r.pool
      && NoDup(r.pool[|s.pool|..])
      && (forall n: nat :: n in r.pool[|s.pool|..] <==> n in s.recycleQueue && Out(s, n))
      && (forall n: nat | Out(r, n) :: Out(s, n) && n !in s.recycleQueue)
    decreases |s.recycleQueue|
  {
    if s.recycleQueue != [] {
      hide S.Recycled, S.Enabled, S.PassedOver, Out;
      var n := s.recycleQueue[0];
      var t := if S.PassedOver(s, n) then Popped(s) else S.Recycled(s);
      OneRecycled(s);
      ReleasedOnce(t);
      assert s.recycleQueue == [n] + t.recycleQueue;
      assert forall m :: m in s.recycleQueue <==> m == n || m in t.recycleQueue;
      var r := AllRecycled(s);
      assert r == AllRecycled(t);
      if !S.PassedOver(s, n) {
        assert r.pool[|s.pool|..] == [n] + r.pool[|t.pool|..];
      }
    }
  }

  /** A container holds only nodes of its group. */
  ghost predicate Agree(rings: seq<Ring<nat>>, home: seq<Option<nat>>) {
    && (forall n | 0 <= n < |home| && home[n].Some? :: home[n].value < |rings|)
    && (forall g | 0 <= g < |rings| :: ValidRing(rings[g]))
    && (forall g, n {:trigger n in rings[g].list} | 0 <= g < |rings| && n in rings[g].list ::
          n < |home| && home[n] == Some(g))
  }

  lemma AgreeWithout(rings: seq<Ring<nat>>, home: seq<Option<nat>>, g: nat, n: nat)
    requires Agree(rings, home) && n < |home| && home[n] == Some(g)
    ensures g < |rings| && Agree(rings[g := Apply(rings[g], Remove(n))], home[n := None])
  {
    ApplyValid(rings[g], Remove(n));
    if n in rings[g].list {
      WithoutElements(rings[g].list, n);
    }
  }

  lemma AgreeWith(rings: seq<Ring<nat>>, home: seq<Option<nat>>, g: nat, n: nat)
    requires Agree(rings, home) && n < |home| && home[n] == Some(g) && g < |rings| && n !in rings[g].list
    ensures Agree(rings[g := rings[g].(list := rings[g].list + [n])], home)
  {
    NoDupAppend(rings[g].list, n);
  }

  class TrafficManager {
    const groups: seq<NodeGroup>
    const nodes: seq<Transaction>         // the transactions of the nodes
    const timers: TimerManager            // what all of them use
    ghost const all: set<NodeGroup>       // the same as groups, and as nodes
    ghost const every: set<Transaction>
    var freeDeque: seq<nat>               // _res
    var nodeQueue: seq<nat>               // the nodes to be recycled
    var curGroupIndex: nat
    var home: seq<Option<nat>>            // _group of each node; a node has a socket as long as it has a group

    /** All groups and transactions are different objects. */
    ghost predicate Fixed() {
      && groups != []
      && (forall g | 0 <= g < |groups| :: groups[g] in all)
      && (forall g, h | 0 <= g < h < |groups| :: groups[g] != groups[h])
      && (forall n | 0 <= n < |nodes| :: nodes[n] in every && nodes[n].self == n && nodes[n].timers == timers)
      && (forall n, m | 0 <= n < m < |nodes| :: nodes[n] != nodes[m])
    }

    ghost predicate Valid()
      reads `curGroupIndex, `home, all
    {
      Fixed() && curGroupIndex <= |groups| && |home| == |nodes| && Agree(Rings(), home)
    }

    ghost function Rings(): (rings: seq<Ring<nat>>)
      requires Fixed()
      reads all
      ensures |rings| == |groups| && forall g | 0 <= g < |groups| :: rings[g] == groups[g].Ring()
    {
      seq(|groups|, g requires 0 <= g < |groups| reads all => groups[g].Ring())
    }

    ghost function Sessions(): (sessions: seq<Session>)
      requires Fixed()
      reads every
      ensures |sessions| == |nodes| && forall n | 0 <= n < |nodes| :: sessions[n] == nodes[n].View(Idle)
    {
      seq(|nodes|, n requires 0 <= n < |nodes| reads every => nodes[n].View(Idle))
    }

    /** The state of the server this object is part of; `world` are the timers and the registry. */
    ghost function View(world: World): S.State
      requires Fixed()
      reads this, all, every
    {
      S.State(world, Sessions(), home, Rings(), freeDeque, nodeQueue, curGroupIndex)
    }

    constructor (groups: seq<NodeGroup>, nodes: seq<Transaction>, timers: TimerManager)
      requires groups != [] && (forall g, h | 0 <= g < h < |groups| :: groups[g] != groups[h])
      requires forall g | 0 <= g < |groups| :: groups[g].container == [] && groups[g].pos == None
      requires (forall n | 0 <= n < |nodes| :: nodes[n].self == n && nodes[n].timers == timers)
      requires (forall n, m | 0 <= n < m < |nodes| :: nodes[n] != nodes[m])
      ensures Valid() && this.groups == groups && this.nodes == nodes && nodeQueue == [] && curGroupIndex == 0
      ensures |freeDeque| == |nodes| && forall n | 0 <= n < |nodes| :: freeDeque[n] == n && home[n] == None
    {
      this.groups, this.nodes, this.timers := groups, nodes, timers;
      this.all, this.every := (set g | g in groups), (set t | t in nodes);
      freeDeque := seq(|nodes|, n => n);
      home := seq(|nodes|, n => None);
      nodeQueue, curGroupIndex := [], 0;
    }

    method AllocateGroup() returns (g: nat)
      requires Valid()
      modifies this`curGroupIndex
      ensures Valid() && g < |groups| && curGroupIndex == g + 1
      ensures g == if old(curGroupIndex) == |groups| then 0 else old(curGroupIndex)
    {
      if curGroupIndex == |groups| {
        curGroupIndex := 0;
      }
      g := curGroupIndex;
      curGroupIndex := curGroupIndex + 1;
    }

    /** As the Recycling call of a handler. */
    method RecycleNode(node: nat, ghost world: World)
      requires Valid() && node < |nodes| && nodes[node].status == Over
      modifies this`nodeQueue
      ensures Valid()
      ensures var s := old(View(world)); var r := S.WithSession(s, node, s.sessions[node].(pc := Recycling));
        && S.Enabled(r, S.Call(node, T.Clock(0, 0)))
        && View(world) == S.Called(r, node, T.Clock(0, 0))
    {
      nodeQueue := nodeQueue + [node];
    }

    /** _delNode. */
    method DelNode(node: nat, ghost world: World)
      requires Valid() && node < |nodes|
      requires !S.PassedOver(View(world), node) ==> nodes[node].status == Over && Cleared(nodes[node].View(Idle))
      modifies this`freeDeque, this`home, all`container, all`pos, every`status
      ensures Valid() && nodeQueue == old(nodeQueue)
      ensures var s := old(View(world));
        if S.PassedOver(s, node) then View(world) == s
        else
          var q := s.(recycleQueue := [node] + s.recycleQueue);
          S.Enabled(q, S.Recycle) && View(world) == S.Recycled(q)
    {
      if nodes[node].status == Free || home[node] == None {
        return;
      }
      ghost var s := View(world);
      var g := home[node].value;
      DetachFrom(g, node);
      freeDeque := freeDeque + [node];
      DetachedView(s, node, g, world);
    }

    method DetachFrom(g: nat, node: nat)
      requires Valid() && node < |nodes| && home[node] == Some(g)
      requires nodes[node].status == Over && Cleared(nodes[node].View(Idle))
      modifies this`home, all`container, all`pos, every`status
      ensures Valid() && home == old(home)[node := None]
      ensures Rings() == old(Rings())[g := Apply(old(Rings())[g], Remove(node))]
      ensures Sessions() == old(Sessions())[node := old(Sessions())[node].(status := Free)]
    {
      AgreeWithout(Rings(), home, g, node);
      groups[g].Detach(node, nodes[node]);
      home := home[node := None];
      assert Rings() == old(Rings())[g := Apply(old(Rings())[g], Remove(node))];
      assert Sessions() == old(Sessions())[node := old(Sessions())[node].(status := Free)];
    }

    lemma DetachedView(s: S.State, node: nat, g: nat, world: World)
      requires Fixed() && node < |nodes| && g < |groups|
      requires s.world == world && |s.sessions| == |nodes| && |s.groups| == |groups| && |s.home| == |nodes|
      requires s.sessions[node].status == Over && Cleared(s.sessions[node]) && s.home[node] == Some(g)
      requires ValidRing(s.groups[g])
      requires View(world).sessions == s.sessions[node := s.sessions[node].(status := Free)]
      requires View(world).groups == s.groups[g := Apply(s.groups[g], Remove(node))]
      requires home == s.home[node := None] && freeDeque == s.pool + [node]
      requires nodeQueue == s.recycleQueue && curGroupIndex == s.nextGroup
      ensures var q := s.(recycleQueue := [node] + s.recycleQueue);
        S.Enabled(q, S.Recycle) && View(world) == S.Recycled(q)
    {
      var q := s.(recycleQueue := [node] + s.recycleQueue);
      assert q.recycleQueue[1..] == s.recycleQueue;
    }

    /** The recycle loop of working(). */
    method RecycleNodes(ghost world: World)
      requires Valid() && (forall k | 0 <= k < |nodeQueue| :: nodeQueue[k] < |nodes|) && Recyclable(View(world))
      modifies this`freeDeque, this`home, this`nodeQueue, all`container, all`pos, every`status
      ensures Valid() && nodeQueue == []
      ensures View(world) == AllRecycled(old(View(world)))
    {
      hide Recyclable, AllRecycled, S.Recycled, S.Enabled, S.PassedOver, Cleared;
      NothingLeft(View(world));
      ghost var start := View(world);
      while nodeQueue != []
        invariant Valid() && (forall k | 0 <= k < |nodeQueue| :: nodeQueue[k] < |nodes|)
        invariant Recyclable(View(world)) && AllRecycled(View(world)) == AllRecycled(start)
        decreases |nodeQueue|
      {
        NextRecycled(View(world));
        RecycleFront(world);
      }
      NothingLeft(View(world));
    }

    lemma NothingLeft(s: S.State)
      ensures s.recycleQueue == [] ==> Recyclable(s) && AllRecycled(s) == s
    {
    }

    method RecycleFront(ghost world: World)
      requires Valid() && nodeQueue != [] && nodeQueue[0] < |nodes|
      requires var s := View(world); !S.PassedOver(s, nodeQueue[0]) ==> S.Enabled(s, S.Recycle)
      modifies this`freeDeque, this`home, this`nodeQueue, all`container, all`pos, every`status
      ensures Valid() && nodeQueue == old(nodeQueue)[1..]
      ensures var s := old(View(world));
        View(world) == if S.PassedOver(s, s.recycleQueue[0]) then Popped(s) else S.Recycled(s)
    {
      hide S.Recycled;
      ghost var s := View(world);
      var node := nodeQueue[0];
      RecycledTwice(s);
      DelNode(node, world);
      ghost var deleted := View(world);
      nodeQueue := nodeQueue[1..];
      assert View(world) == deleted.(recycleQueue := nodeQueue);
    }

    /** _delNode in front of the pop. */
    lemma RecycledTwice(s: S.State)
      requires s.recycleQueue != []
      ensures var n := s.recycleQueue[0];
        var q := s.(recycleQueue := [n] + s.recycleQueue);
        S.Enabled(q, S.Recycle) && S.Enabled(s, S.Recycle) ==>
          S.Recycled(q).(recycleQueue := s.recycleQueue[1..]) == S.Recycled(s)
          && S.Recycled(q).recycleQueue == s.recycleQueue
    {
      assert ([s.recycleQueue[0]] + s.recycleQueue)[1..] == s.recycleQueue;
    }

    /** What the loop needs of the node in front. */
    lemma NextRecycled(s: S.State)
      requires Recyclable(s) && s.recycleQueue != []
      ensures var n := s.recycleQueue[0];
        if S.PassedOver(s, n) then Recyclable(Popped(s)) && AllRecycled(s) == AllRecycled(Popped(s))
        else
          S.Enabled(s, S.Recycle) && Recyclable(S.Recycled(s)) && AllRecycled(s) == AllRecycled(S.Recycled(s))
    {
    }

    /** One accepted connection in _addNodes: Accept and the calls of onAttach in one go. A node whose
        attach fails stays behind, in no container and not in the pool. */
    method AddNode(now: T.Clock, ghost world: World) returns (node: Option<nat>, ok: bool)
      requires Valid() && S.Possible(View(world), S.Accept) ==> S.Asserted(View(world), S.Accept)
      requires Valid()
      requires freeDeque != [] ==>
        freeDeque[0] < |nodes| && home[freeDeque[0]] == None && nodes[freeDeque[0]].Valid()
      modifies this`freeDeque, this`curGroupIndex, this`home, all`container
      modifies every`status, every`keepLiveTimerId
      modifies timers`freeDeque, timers`setting, timers`pending, timers`slots, timers`queueForAdd, timers.group
      ensures Valid()
      ensures old(freeDeque) == [] ==> node == None && !ok && View(world) == old(View(world))
      ensures old(freeDeque) != [] ==>
        var s := old(View(world)); var n := s.pool[0];
        && node == Some(n) && S.Enabled(s, S.Accept)
        && View(world) == AddedTo(S.Accepted(s), n, S.GroupIndex(s), ok).(sessions := View(world).sessions)
        && View(world).sessions == s.sessions[n := nodes[n].View(Idle)]
        && Settle(n, Attached(s.sessions[n]), old(nodes[n].Around()), now)
           == (nodes[n].View(if ok then Idle else Stranded), nodes[n].Around())
    {
      hide Settle, Attached, Cleared, Transaction.Valid;
      if freeDeque == [] {
        return None, false;
      }
      var n, g := TakeNode(world);
      node := Some(n);
      ok := JoinGroup(n, g, now, world);
    }

    ghost function AddedTo(s: S.State, n: nat, g: nat, ok: bool): S.State {
      if ok && g < |s.groups| then s.(groups := s.groups[g := s.groups[g].(list := s.groups[g].list + [n])]) else s
    }

    method JoinGroup(n: nat, g: nat, now: T.Clock, ghost world: World) returns (ok: bool)
      requires Valid() && n < |nodes| && g < |groups| && home[n] == Some(g) && n !in groups[g].container
      requires nodes[n].Valid() && nodes[n].status == Free && Cleared(nodes[n].View(Idle))
      modifies all`container, every`status, every`keepLiveTimerId
      modifies timers`freeDeque, timers`setting, timers`pending, timers`slots, timers`queueForAdd, timers.group
      ensures Valid()
      ensures View(world) == AddedTo(old(View(world)), n, g, ok).(sessions := View(world).sessions)
      ensures View(world).sessions == old(View(world)).sessions[n := nodes[n].View(Idle)]
      ensures Settle(n, Attached(old(nodes[n].View(Idle))), old(nodes[n].Around()), now)
        == (nodes[n].View(if ok then Idle else Stranded), nodes[n].Around())
    {
      hide Settle, Attached, Cleared, Transaction.Valid;
      ghost var s := View(world);
      ok := AttachTo(n, g, now);
    }

    method AttachTo(n: nat, g: nat, now: T.Clock) returns (ok: bool)
      requires Valid() && n < |nodes| && g < |groups| && home[n] == Some(g) && n !in groups[g].container
      requires nodes[n].Valid() && nodes[n].status == Free && Cleared(nodes[n].View(Idle))
      modifies all`container, every`status, every`keepLiveTimerId
      modifies timers`freeDeque, timers`setting, timers`pending, timers`slots, timers`queueForAdd, timers.group
      ensures Valid()
      ensures var was := old(Rings());
        Rings() == if ok then was[g := was[g].(list := was[g].list + [n])] else was
      ensures Sessions() == old(Sessions())[n := nodes[n].View(Idle)]
      ensures Settle(n, Attached(old(nodes[n].View(Idle))), old(nodes[n].Around()), now)
        == (nodes[n].View(if ok then Idle else Stranded), nodes[n].Around())
    {
      hide Settle, Attached, Cleared, Transaction.Valid;
      ghost var was := Rings();
      AgreeWith(was, home, g, n);
      ok := groups[g].Attach(n, nodes[n], now);
      assert Rings() == if ok then was[g := was[g].(list := was[g].list + [n])] else was;
      assert Sessions() == old(Sessions())[n := nodes[n].View(Idle)];
    }

    /** A node and the group it is going to be in. */
    method TakeNode(ghost world: World) returns (n: nat, g: nat)
      requires Valid() && S.Possible(View(world), S.Accept) && S.Asserted(View(world), S.Accept)
      requires freeDeque[0] < |nodes| && home[freeDeque[0]] == None
      modifies this`freeDeque, this`curGroupIndex, this`home
      ensures Valid() && n == old(freeDeque)[0] < |nodes| && g < |groups| && n !in groups[g].container
      ensures var s := old(View(world));
        && nodes[n].status == Free && Cleared(nodes[n].View(Idle))
        && g == S.GroupIndex(s) && View(world) == S.Accepted(s).(sessions := s.sessions)
    {
      ghost var s := View(world);
      n := freeDeque[0];
      freeDeque := freeDeque[1..];
      g := AllocateGroup();
      home := home[n := Some(g)];
      assert Sessions() == s.sessions && Rings() == s.groups;
    }
  }
}
