/** The signalling server's pool of RTP nodes: session affinity in both directions, drain
    states and round-robin selection. */
module MediaPool {
  import opened CallStates

  type NodeId = string
  type Address = string

  datatype DrainState = Active | Draining | Disabled

  datatype Member = Member(address: Address, healthy: bool, connected: bool, drain: DrainState)

  /** `nodeOf` is the affinity of each session, `on` the reverse index. */
  datatype Affinity = Affinity(nodeOf: map<SessionId, NodeId>, on: map<NodeId, set<SessionId>>)

  /** `order` is the fixed order of the members; `next` the round-robin counter. */
  datatype PoolState = PoolState(order: seq<NodeId>, members: map<NodeId, Member>, affinity: Affinity, next: nat)

  const NO_AFFINITY: Affinity := Affinity(map[], map[])

  // ----- The two-way index -----

  function SessionsOn(a: Affinity, n: NodeId): set<SessionId> {
    if n in a.on then a.on[n] else {}
  }

  function Track(a: Affinity, s: SessionId, n: NodeId): Affinity {
    Affinity(a.nodeOf[s := n], a.on[n := SessionsOn(a, n) + {s}])
  }

  function Untrack(a: Affinity, s: SessionId): Affinity {
    if s !in a.nodeOf then a
    else
      var n := a.nodeOf[s];
      Affinity(a.nodeOf - {s},
               if n !in a.on then a.on
               else if a.on[n] - {s} == {} then a.on - {n}
               else a.on[n := a.on[n] - {s}])
  }

  /** The indexes are inverse to each other and keep no empty set. */
  ghost predicate Mirror(a: Affinity) {
    && (forall s :: s in a.nodeOf ==> s in SessionsOn(a, a.nodeOf[s]))
    && (forall n, s :: n in a.on && s in a.on[n] ==> s in a.nodeOf && a.nodeOf[s] == n)
    && (forall n :: n in a.on ==> a.on[n] != {})
  }

  /** Tracking keeps the mirror exactly when the session is new or stays where it is: the code
      does not take a session off another node's set. */
  lemma TrackKeepsMirrorIff(a: Affinity, s: SessionId, n: NodeId)
    requires Mirror(a)
    ensures Mirror(Track(a, s, n)) <==> (s !in a.nodeOf || a.nodeOf[s] == n)
  {
    var b := Track(a, s, n);
    if s in a.nodeOf && a.nodeOf[s] != n {
      assert s in b.on[a.nodeOf[s]] && b.nodeOf[s] != a.nodeOf[s];
    } else {
      assert forall m, t :: m in b.on && t in b.on[m] ==> t in b.nodeOf && b.nodeOf[t] == m;
    }
  }

  lemma UntrackKeepsMirror(a: Affinity, s: SessionId)
    requires Mirror(a)
    ensures Mirror(Untrack(a, s))
    ensures forall n :: SessionsOn(Untrack(a, s), n) == SessionsOn(a, n) - {s}
  {
    if s in a.nodeOf {
      var b := Untrack(a, s);
      var n := a.nodeOf[s];
      assert n in a.on && s in a.on[n];
      forall m ensures SessionsOn(b, m) == SessionsOn(a, m) - {s} {
      }
    } else {
      assert forall n :: s !in SessionsOn(a, n);
    }
  }

  /** Undoing a track gives back both maps, node keys included, exactly when the session was new. */
  lemma UntrackUndoesTrackIff(a: Affinity, s: SessionId, n: NodeId)
    requires Mirror(a)
    ensures Untrack(Track(a, s, n), s) == a <==> s !in a.nodeOf
  {
    var b := Untrack(Track(a, s, n), s);
    if s !in a.nodeOf {
      assert s !in SessionsOn(a, n);
      assert SessionsOn(a, n) + {s} - {s} == SessionsOn(a, n);
      assert b.nodeOf == a.nodeOf;
      if n in a.on {
        assert b.on == a.on;
      } else {
        assert b.on == a.on[n := {s}] - {n} == a.on;
      }
    } else {
      assert s !in b.nodeOf;
    }
  }

  /** With the mirror, the forward index determines the reverse one. */
  lemma SameNodesSameSets(a: Affinity, b: Affinity)
    requires Mirror(a) && Mirror(b) && a.nodeOf == b.nodeOf
    ensures a == b
  {
    forall n ensures SessionsOn(a, n) == SessionsOn(b, n) {
      forall s ensures s in SessionsOn(a, n) <==> s in SessionsOn(b, n) {
        if s in SessionsOn(a, n) {
          assert s in b.nodeOf && b.nodeOf[s] == n;
        }
        if s in SessionsOn(b, n) {
          assert s in a.nodeOf && a.nodeOf[s] == n;
        }
      }
    }
    forall n ensures n in a.on <==> n in b.on {
      if n in a.on {
        assert SessionsOn(a, n) != {};
      }
      if n in b.on {
        assert SessionsOn(b, n) != {};
      }
    }
    assert forall n :: n in a.on ==> a.on[n] == SessionsOn(a, n) && b.on[n] == SessionsOn(b, n);
    assert a.on == b.on;
  }

  // ----- Counting -----

  function SumCounts(order: seq<NodeId>, a: Affinity): nat {
    if order == [] then 0 else |SessionsOn(a, order[0])| + SumCounts(order[1..], a)
  }

  /** The sessions whose node is one of `ids`. */
  function Within(nodeOf: map<SessionId, NodeId>, ids: seq<NodeId>): set<SessionId> {
    set s | s in nodeOf && nodeOf[s] in ids
  }

  lemma WithinCons(a: Affinity, n: NodeId, rest: seq<NodeId>)
    requires Mirror(a) && n !in rest
    ensures Within(a.nodeOf, [n] + rest) == SessionsOn(a, n) + Within(a.nodeOf, rest)
    ensures SessionsOn(a, n) !! Within(a.nodeOf, rest)
  {
    forall s ensures s in SessionsOn(a, n) <==> s in a.nodeOf && a.nodeOf[s] == n {
    }
  }

  lemma {:induction false} CountsAddUp(order: seq<NodeId>, a: Affinity)
    requires Mirror(a) && forall i, j :: 0 <= i < j < |order| ==> order[i] != order[j]
    ensures SumCounts(order, a) == |Within(a.nodeOf, order)|
  {
    if order == [] {
      assert Within(a.nodeOf, order) == {};
    } else {
      CountsAddUp(order[1..], a);
      WithinCons(a, order[0], order[1..]);
      assert order == [order[0]] + order[1..];
    }
  }

  /** The per-node session counts sum to the number of active sessions. */
  lemma SessionCountsSum(order: seq<NodeId>, a: Affinity)
    requires Mirror(a) && forall i, j :: 0 <= i < j < |order| ==> order[i] != order[j]
    requires forall n :: n in a.on ==> n in order
    ensures SumCounts(order, a) == |a.nodeOf|
  {
    CountsAddUp(order, a);
    assert Within(a.nodeOf, order) == a.nodeOf.Keys by {
      forall s | s in a.nodeOf ensures a.nodeOf[s] in order {
        assert s in SessionsOn(a, a.nodeOf[s]);
      }
    }
  }

  // ----- Selection -----

  predicate Selectable(m: Member) {
    m.healthy && m.connected && m.drain.Active?
  }

  function Available(order: seq<NodeId>, members: map<NodeId, Member>): (ids: seq<NodeId>)
    ensures forall n :: n in ids <==> n in order && n in members && Selectable(members[n])
  {
    if order == [] then []
    else
      var rest := Available(order[1..], members);
      if order[0] in members && Selectable(members[order[0]]) then [order[0]] + rest else rest
  }

  predicate IsAvailable(members: map<NodeId, Member>, n: NodeId) {
    n in members && Selectable(members[n])
  }

  /** One more member looked at. */
  lemma AvailableFrom(ids: seq<NodeId>, order: seq<NodeId>, members: map<NodeId, Member>, i: nat)
    requires i < |order|
    ensures ids + Available(order[i..], members)
            == (if IsAvailable(members, order[i]) then ids + [order[i]] else ids) + Available(order[i + 1..], members)
  {
    var rest := Available(order[i + 1..], members);
    assert order[i..][0] == order[i] && order[i..][1..] == order[i + 1..];
    assert ids + ([order[i]] + rest) == ids + [order[i]] + rest;
  }

  /** The counter is a 64-bit unsigned integer. */
  const TWO64: nat := 0x1_0000_0000_0000_0000

  function Select(p: PoolState): (PoolState, Option<NodeId>) {
    var ids := Available(p.order, p.members);
    if ids == [] then (p, None)
    else
      var k := (p.next + 1) % TWO64;
      (p.(next := k), Some(ids[k % |ids|]))
  }

  // ----- Drain states -----

  function SetDrain(p: PoolState, n: NodeId, d: DrainState): PoolState
    requires n in p.members
  {
    p.(members := p.members[n := p.members[n].(drain := d)])
  }

  function StartDrain(p: PoolState, n: NodeId): (PoolState, bool) {
    if n in p.members && p.members[n].drain.Active? then (SetDrain(p, n, Draining), true) else (p, false)
  }

  function CompleteDrain(p: PoolState, n: NodeId): (PoolState, bool) {
    if n in p.members && p.members[n].drain.Draining? then (SetDrain(p, n, Disabled), true) else (p, false)
  }

  function CancelDrain(p: PoolState, n: NodeId): (PoolState, bool) {
    if n in p.members && !p.members[n].drain.Active? then (SetDrain(p, n, Active), true) else (p, false)
  }

  // ----- Sessions -----

  /** The member that owns a session. */
  function MemberFor(p: PoolState, s: SessionId): Option<NodeId> {
    if s in p.affinity.nodeOf && p.affinity.nodeOf[s] in p.members then Some(p.affinity.nodeOf[s]) else None
  }

  predicate Usable(p: PoolState, n: NodeId) {
    n in p.members && p.members[n].healthy && p.members[n].connected && !p.members[n].drain.Disabled?
  }

  /** `rpc` is the session identifier that the node's reply carries, if a good reply came. */
  function CreateOnNode(p: PoolState, n: NodeId, rpc: Option<SessionId>): (PoolState, Option<SessionId>) {
    if !Usable(p, n) || rpc.None? then (p, None)
    else (p.(affinity := Track(p.affinity, rpc.value, n)), rpc)
  }

  function CreateAnywhere(p: PoolState, rpc: Option<SessionId>): (PoolState, Option<SessionId>) {
    var (p', n) := Select(p);
    if n.None? || rpc.None? then (p', None)
    else (p'.(affinity := Track(p'.affinity, rpc.value, n.value)), rpc)
  }

  function CreateNearPeer(p: PoolState, peer: SessionId, rpc: Option<SessionId>): (PoolState, Option<SessionId>) {
    var n := MemberFor(p, peer);
    if n.None? then CreateAnywhere(p, rpc)
    else if rpc.None? then (p, None)
    else (p.(affinity := Track(p.affinity, rpc.value, n.value)), rpc)
  }

  /** A session is forgotten whether or not the node acknowledged its destruction. */
  function DestroySession(p: PoolState, s: SessionId, acked: bool): (PoolState, bool) {
    if MemberFor(p, s).None? then (p, false)
    else (p.(affinity := Untrack(p.affinity, s)), acked)
  }

  /** The node to ask for a media bridge: the sessions must be on one machine. */
  function BridgeTarget(p: PoolState, a: SessionId, b: SessionId): Option<NodeId> {
    var m, n := MemberFor(p, a), MemberFor(p, b);
    if m.None? || n.None? || p.members[m.value].address != p.members[n.value].address then None else m
  }

  // ----- Where a new session goes -----

  /** The member is healthy, connected and Active. */
  predicate TakesNewCalls(p: PoolState, n: NodeId) {
    n in p.order && n in p.members && p.members[n].healthy && p.members[n].connected && p.members[n].drain == Active
  }

  /** The session is mapped to the node, and nothing else is mapped anew. */
  predicate IsPlaced(p: PoolState, p': PoolState, s: SessionId, n: NodeId) {
    && p'.affinity.nodeOf == p.affinity.nodeOf[s := n] && s in SessionsOn(p'.affinity, n)
    && p'.members == p.members && p'.order == p.order
  }

  /** Selection finds a member that takes new calls if there is one, and none otherwise. */
  lemma SelectionIsExact(p: PoolState)
    ensures var (p', n) := Select(p);
            && (n.Some? ==> TakesNewCalls(p, n.value))
            && (n.None? <==> forall m :: !TakesNewCalls(p, m))
            && p' == p.(next := p'.next)
  {
    var ids := Available(p.order, p.members);
    if ids != [] {
      assert ids[((p.next + 1) % TWO64) % |ids|] in ids;
      assert TakesNewCalls(p, ids[0]) by {
        assert ids[0] in ids;
      }
    } else {
      assert forall m :: TakesNewCalls(p, m) ==> m in ids;
    }
  }

  /** A session created anywhere is mapped to a member that takes new calls; it is created exactly if there
      is such a member and it replies. */
  lemma CreatedAnywhere(p: PoolState, rpc: Option<SessionId>)
    ensures var (p', r) := CreateAnywhere(p, rpc);
            && (r.Some? <==> rpc.Some? && exists m :: TakesNewCalls(p, m))
            && (r.Some? ==> r == rpc && exists n :: TakesNewCalls(p, n) && IsPlaced(p, p', rpc.value, n))
            && (r.None? ==> p' == p.(next := p'.next))
  {
    SelectionIsExact(p);
    if Select(p).1.Some? {
      assert TakesNewCalls(p, Select(p).1.value);
    }
  }

  /** A session created near a tracked peer is mapped to the peer's node without moving the turn, and a
      request to bridge the two goes out; without a tracked peer it is created anywhere. */
  lemma CreatedNearPeer(p: PoolState, peer: SessionId, rpc: Option<SessionId>)
    ensures var (p', r) := CreateNearPeer(p, peer, rpc);
            && (peer in p.affinity.nodeOf && p.affinity.nodeOf[peer] in p.members ==>
                  && r == rpc && p'.next == p.next
                  && (rpc.None? ==> p' == p)
                  && (rpc.Some? ==> && IsPlaced(p, p', rpc.value, p.affinity.nodeOf[peer])
                                    && BridgeTarget(p', peer, rpc.value) == Some(p.affinity.nodeOf[peer])))
            && (!(peer in p.affinity.nodeOf && p.affinity.nodeOf[peer] in p.members) ==>
                  && (r.Some? <==> rpc.Some? && exists m :: TakesNewCalls(p, m))
                  && (r.Some? ==> r == rpc && exists n :: TakesNewCalls(p, n) && IsPlaced(p, p', rpc.value, n))
                  && (r.None? ==> p' == p.(next := p'.next)))
  {
    CreatedAnywhere(p, rpc);
  }

  // ----- The pool -----

  class Pool {
    const order: seq<NodeId>
    var members: map<NodeId, Member>
    var sessionToNode: map<SessionId, NodeId>
    var nodeToSessions: map<NodeId, set<SessionId>>
    var nextIndex: nat

    ghost function View(): PoolState
      reads this
    {
      PoolState(order, members, Affinity(sessionToNode, nodeToSessions), nextIndex)
    }

    constructor (order: seq<NodeId>, members: map<NodeId, Member>)
      ensures View() == PoolState(order, members, NO_AFFINITY, 0)
    {
      this.order, this.members := order, members;
      sessionToNode, nodeToSessions, nextIndex := map[], map[], 0;
    }

    /** The members that can be chosen, in order. */
    method AvailableMembers() returns (ids: seq<NodeId>)
      ensures ids == Available(order, members)
    {
      ids := [];
      var i := 0;
      ghost var all := Available(order, members);
      assert order[0..] == order;
      while i < |order|
        invariant 0 <= i <= |order|
        invariant ids + Available(order[i..], members) == all
      {
        AvailableFrom(ids, order, members, i);
        if IsAvailable(members, order[i]) {
          ids := ids + [order[i]];
        }
        i := i + 1;
      }
    }

    method SelectMember() returns (n: Option<NodeId>)
      modifies this`nextIndex
      ensures (View(), n) == Select(old(View()))
      ensures n.Some? ==> TakesNewCalls(old(View()), n.value)
      ensures n.None? <==> forall m :: !TakesNewCalls(old(View()), m)
    {
      SelectionIsExact(View());
      var available := AvailableMembers();
      if |available| == 0 {
        return None;
      }
      nextIndex := (nextIndex + 1) % TWO64;
      n := Some(available[nextIndex % |available|]);
    }

    method TrackSession(s: SessionId, n: NodeId)
      modifies this`sessionToNode, this`nodeToSessions
      ensures View() == old(View()).(affinity := Track(old(View().affinity), s, n))
    {
      sessionToNode := sessionToNode[s := n];
      if n !in nodeToSessions {
        nodeToSessions := nodeToSessions[n := {}];
      }
      nodeToSessions := nodeToSessions[n := nodeToSessions[n] + {s}];
    }

    method UntrackSession(s: SessionId)
      modifies this`sessionToNode, this`nodeToSessions
      ensures View() == old(View()).(affinity := Untrack(old(View().affinity), s))
    {
      if s in sessionToNode {
        var n := sessionToNode[s];
        sessionToNode := sessionToNode - {s};
        if n in nodeToSessions {
          nodeToSessions := nodeToSessions[n := nodeToSessions[n] - {s}];
          if nodeToSessions[n] == {} {
            nodeToSessions := nodeToSessions - {n};
          }
        }
      }
    }

    /** Every session of the node, once each. */
    method SessionsOnNode(n: NodeId) returns (r: seq<SessionId>)
      ensures forall s :: s in r <==> s in SessionsOn(View().affinity, n)
      ensures |r| == |SessionsOn(View().affinity, n)|
      ensures Mirror(View().affinity) ==> forall s :: s in r <==> s in sessionToNode && sessionToNode[s] == n
    {
      r := [];
      if n !in nodeToSessions {
        return;
      }
      var todo := nodeToSessions[n];
      while todo != {}
        invariant forall s :: s in nodeToSessions[n] <==> s in r || s in todo
        invariant |r| + |todo| == |nodeToSessions[n]|
        decreases |todo|
      {
        var s :| s in todo;
        todo := todo - {s};
        r := r + [s];
      }
    }

    method BeginDrain(n: NodeId) returns (ok: bool)
      modifies this`members
      ensures ok <==> n in old(members) && old(members)[n].drain.Active?
      ensures members == if ok then old(members)[n := old(members)[n].(drain := Draining)] else old(members)
      ensures (View(), ok) == StartDrain(old(View()), n)
    {
      if n !in members || !members[n].drain.Active? {
        return false;
      }
      members := members[n := members[n].(drain := Draining)];
      ok := true;
    }

    method FinishDrain(n: NodeId) returns (ok: bool)
      modifies this`members
      ensures ok <==> n in old(members) && old(members)[n].drain.Draining?
      ensures members == if ok then old(members)[n := old(members)[n].(drain := Disabled)] else old(members)
      ensures (View(), ok) == CompleteDrain(old(View()), n)
    {
      if n !in members || !members[n].drain.Draining? {
        return false;
      }
      members := members[n := members[n].(drain := Disabled)];
      ok := true;
    }

    method Reactivate(n: NodeId) returns (ok: bool)
      modifies this`members
      ensures ok <==> n in old(members) && !old(members)[n].drain.Active?
      ensures members == if ok then old(members)[n := old(members)[n].(drain := Active)] else old(members)
      ensures (View(), ok) == CancelDrain(old(View()), n)
    {
      if n !in members || members[n].drain.Active? {
        return false;
      }
      members := members[n := members[n].(drain := Active)];
      ok := true;
    }

    method CreateSessionOnNode(n: NodeId, rpc: Option<SessionId>) returns (r: Option<SessionId>)
      modifies this
      ensures (View(), r) == CreateOnNode(old(View()), n, rpc)
      ensures r.Some? <==> && rpc.Some? && n in members && members[n].healthy && members[n].connected
                           && members[n].drain != Disabled
      ensures r.Some? ==> r == rpc && IsPlaced(old(View()), View(), rpc.value, n) && nextIndex == old(nextIndex)
      ensures r.None? ==> View() == old(View())
    {
      if n !in members || !members[n].healthy || !members[n].connected || members[n].drain.Disabled? {
        return None;
      }
      if rpc.None? {
        return None;
      }
      TrackSession(rpc.value, n);
      r := rpc;
    }

    method CreateSession(rpc: Option<SessionId>) returns (r: Option<SessionId>)
      modifies this
      ensures (View(), r) == CreateAnywhere(old(View()), rpc)
      ensures r.Some? <==> rpc.Some? && exists m :: TakesNewCalls(old(View()), m)
      ensures var p := old(View());
              r.Some? ==> r == rpc && exists n :: TakesNewCalls(p, n) && IsPlaced(p, View(), rpc.value, n)
      ensures r.None? ==> View() == old(View()).(next := nextIndex)
    {
      CreatedAnywhere(View(), rpc);
      var n := SelectMember();
      if n.None? || rpc.None? {
        return None;
      }
      TrackSession(rpc.value, n.value);
      r := rpc;
    }

    method CreateSessionNearPeer(peer: SessionId, rpc: Option<SessionId>) returns (r: Option<SessionId>)
      modifies this
      ensures (View(), r) == CreateNearPeer(old(View()), peer, rpc)
      ensures var p := old(View());
              peer in p.affinity.nodeOf && p.affinity.nodeOf[peer] in p.members ==>
                && r == rpc && nextIndex == old(nextIndex)
                && (rpc.None? ==> View() == p)
                && (rpc.Some? ==> && IsPlaced(p, View(), rpc.value, p.affinity.nodeOf[peer])
                                  && BridgeTarget(View(), peer, rpc.value).Some?)
      ensures var p := old(View());
              !(peer in p.affinity.nodeOf && p.affinity.nodeOf[peer] in p.members) && r.Some? ==>
                r == rpc && exists n :: TakesNewCalls(p, n) && IsPlaced(p, View(), rpc.value, n)
    {
      CreatedNearPeer(View(), peer, rpc);
      if peer !in sessionToNode || sessionToNode[peer] !in members {
        r := CreateSession(rpc);
        return;
      }
      if rpc.None? {
        return None;
      }
      TrackSession(rpc.value, sessionToNode[peer]);
      r := rpc;
    }

    method Destroy(s: SessionId, acked: bool) returns (ok: bool)
      modifies this
      ensures (View(), ok) == DestroySession(old(View()), s, acked)
      ensures ok <==> acked && s in old(sessionToNode) && old(sessionToNode)[s] in members
      ensures sessionToNode == if s in old(sessionToNode) && old(sessionToNode)[s] in members
                               then old(sessionToNode) - {s} else old(sessionToNode)
    {
      if s !in sessionToNode || sessionToNode[s] !in members {
        return false;
      }
      UntrackSession(s);
      ok := acked;
    }

    /** Whether a request to bridge the two sessions goes out to a node. */
    method CanBridge(a: SessionId, b: SessionId) returns (ok: bool)
      ensures ok <==> BridgeTarget(View(), a, b).Some?
      ensures ok <==> && a in sessionToNode && sessionToNode[a] in members
                      && b in sessionToNode && sessionToNode[b] in members
                      && members[sessionToNode[a]].address == members[sessionToNode[b]].address
    {
      if a !in sessionToNode || sessionToNode[a] !in members {
        return false;
      }
      if b !in sessionToNode || sessionToNode[b] !in members {
        return false;
      }
      ok := members[sessionToNode[a]].address == members[sessionToNode[b]].address;
    }

    /** The total that `Stats` reports over the members. */
    method TotalSessionCount() returns (total: nat)
      ensures total == SumCounts(order, View().affinity)
    {
      total := 0;
      var i := 0;
      while i < |order|
        invariant 0 <= i <= |order|
        invariant total + SumCounts(order[i..], View().affinity) == SumCounts(order, View().affinity)
      {
        var count := 0;
        if order[i] in nodeToSessions {
          count := |nodeToSessions[order[i]]|;
        }
        total := total + count;
        assert order[i..][1..] == order[i + 1..];
        i := i + 1;
      }
    }
  }
}
