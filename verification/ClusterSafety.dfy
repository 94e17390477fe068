/** What every interleaving of remote calls keeps. */
module ClusterSafety {
  import opened CallStates
  import NodeSessions
  import opened MediaPool
  import opened Cluster

  // ----- The invariant -----

  /** Different members are different machines. */
  predicate OneMemberPerMachine(p: PoolState) {
    forall m, n :: m in p.members && n in p.members && p.members[m].address == p.members[n].address ==> m == n
  }

  predicate MadeAt(c: System, s: SessionId, x: Address) {
    s in c.past.made && c.past.made[s].at == x
  }

  predicate MadeOn(c: System, s: SessionId, n: NodeId) {
    n in c.pool.members && MadeAt(c, s, AddressOf(c.pool, n))
  }

  predicate EndpointOK(c: System, x: Address, e: Endpoint) {
    MadeAt(c, e.session, x) && e.localPort == c.past.made[e.session].port
  }

  predicate CallOK(c: System, k: Call) {
    match k
    case Creating(n, _, _, _) => n in c.pool.members
    case Replied(n, s) => MadeOn(c, s, n)
    case Destroying(n, s, _) => MadeOn(c, s, n) && s in c.past.known
    case Untracking(s) => s in c.past.known
    case FindsB(n, a, _) => MadeOn(c, a, n)
    case ReadsA(x, a, b) => MadeAt(c, a, x) && MadeAt(c, b, x)
    case ReadsB(x, ea, b) => EndpointOK(c, x, ea) && MadeAt(c, b, x)
    case Joins(x, ea, eb) => EndpointOK(c, x, ea) && EndpointOK(c, x, eb)
    case Marks(_, _) => true
  }

  ghost predicate CallsOK(c: System) {
    forall t :: t in c.calls ==> CallOK(c, c.calls[t])
  }

  /** A node holds exactly the sessions made there and not destroyed, on the ports they were given. */
  ghost predicate NodesOK(c: System) {
    && (forall x, s :: Live(c, s, x) <==> MadeAt(c, s, x) && s !in c.past.gone)
    && (forall x, s :: Live(c, s, x) ==> c.machines[x].node.sessions[s].localPort == c.past.made[s].port)
  }

  ghost predicate PoolSound(c: System) {
    && OneMemberPerMachine(c.pool) && Mirror(c.pool.affinity)
    && (forall s :: s in c.pool.affinity.nodeOf ==> MadeOn(c, s, c.pool.affinity.nodeOf[s]) && s in c.past.known)
  }

  ghost predicate BeingUntracked(c: System, s: SessionId) {
    exists t :: t in c.calls && c.calls[t] == Untracking(s)
  }

  ghost predicate PastOK(c: System) {
    && c.past.gone <= c.past.known <= c.past.made.Keys
    && c.past.dangling <= c.past.gone
    && (forall s :: s in c.past.dangling ==> s in c.pool.affinity.nodeOf)
    && (forall s :: s in c.pool.affinity.nodeOf && s in c.past.gone ==> s in c.past.dangling || BeingUntracked(c, s))
  }

  ghost predicate Sound(c: System) {
    PoolSound(c) && NodesOK(c) && CallsOK(c) && PastOK(c)
  }

  // ----- Each step keeps it -----

  /** Members keep their addresses, and the past only grows. */
  ghost predicate Extends(c: System, c': System) {
    && c'.pool.members.Keys == c.pool.members.Keys
    && (forall n :: n in c.pool.members ==> c'.pool.members[n].address == c.pool.members[n].address)
    && (forall s :: s in c.past.made ==> s in c'.past.made && c'.past.made[s] == c.past.made[s])
    && c.past.known <= c'.past.known
  }

  lemma CallStaysOK(c: System, c': System, k: Call)
    requires Extends(c, c') && CallOK(c, k)
    ensures CallOK(c', k)
  {
  }

  /** The nodes hold the same sessions on the same ports. */
  ghost predicate SameSessions(c: System, c': System) {
    && c'.machines.Keys == c.machines.Keys
    && (forall x :: x in c.machines ==> c'.machines[x].node.sessions.Keys == c.machines[x].node.sessions.Keys)
    && (forall x, s :: Live(c, s, x) ==>
          c'.machines[x].node.sessions[s].localPort == c.machines[x].node.sessions[s].localPort)
  }

  /** A step that moves at most one call, and neither begins nor finishes an untracking. */
  ghost predicate Quiet(c: System, c': System) {
    && Extends(c, c') && SameSessions(c, c') && c'.past == c.past && c'.pool.affinity == c.pool.affinity
    && (forall t :: t in c'.calls ==> (t in c.calls && c'.calls[t] == c.calls[t]) || CallOK(c', c'.calls[t]))
    && (forall t :: t in c.calls && c.calls[t].Untracking? ==> t in c'.calls && c'.calls[t] == c.calls[t])
  }

  lemma QuietKeepsSound(c: System, c': System)
    requires Sound(c) && Quiet(c, c')
    ensures Sound(c')
  {
    assert forall x, s :: Live(c', s, x) <==> Live(c, s, x);
    assert forall x, s :: MadeAt(c', s, x) <==> MadeAt(c, s, x);
    forall t | t in c'.calls ensures CallOK(c', c'.calls[t]) {
      if t in c.calls && c'.calls[t] == c.calls[t] {
        CallStaysOK(c, c', c.calls[t]);
      }
    }
    forall s | s in c'.pool.affinity.nodeOf && s in c'.past.gone && s !in c'.past.dangling
      ensures BeingUntracked(c', s)
    {
      assert BeingUntracked(c, s);
    }
  }

  /** Moving one call on. */
  lemma CallMoveIsQuiet(c: System, t: nat, k: Call, p: PoolState)
    requires p.members == c.pool.members && p.affinity == c.pool.affinity
    requires (t in c.calls ==> !c.calls[t].Untracking?) && CallOK(c, k)
    ensures Quiet(c, At(c, t, k).(pool := p))
  {
    CallStaysOK(c, At(c, t, k).(pool := p), k);
  }

  lemma LossIsQuiet(c: System, t: nat)
    requires t in c.calls ==> !c.calls[t].Untracking?
    ensures Quiet(c, Done(c, t))
  {
  }

  /** Changing one machine but not which sessions it holds on which ports, and moving or ending a call. */
  lemma MachineTouchIsQuiet(c: System, x: Address, m: Machine, c': System)
    requires x in c.machines && m.node.sessions.Keys == c.machines[x].node.sessions.Keys
    requires forall s :: s in m.node.sessions ==>
               m.node.sessions[s].localPort == c.machines[x].node.sessions[s].localPort
    requires c' == c.(machines := c.machines[x := m])
    ensures Quiet(c, c')
  {
  }

  lemma QuietTwice(c: System, d: System, e: System)
    requires Sound(c) && Quiet(c, d) && (Sound(d) ==> Quiet(d, e))
    ensures Sound(e)
  {
    QuietKeepsSound(c, d);
    QuietKeepsSound(d, e);
  }

  lemma SameKeys(n: NodeSessions.Node, s: SessionId, far: NodeSessions.Remote)
    ensures NodeSessions.MarkBridged(n, s).0.sessions.Keys == n.sessions.Keys
    ensures NodeSessions.SetRemote(n, s, far).0.sessions.Keys == n.sessions.Keys
    ensures forall r :: r in n.sessions ==>
              && NodeSessions.MarkBridged(n, s).0.sessions[r].localPort == n.sessions[r].localPort
              && NodeSessions.SetRemote(n, s, far).0.sessions[r].localPort == n.sessions[r].localPort
  {
  }

  lemma BeginKeepsSound(c: System, e: Event)
    requires Sound(c) && Enabled(c, e) && (e.BeginCreate? || e.BeginDestroy? || e.BeginBridge?)
    ensures Sound(Apply(c, e))
  {
    match e {
      case BeginCreate(t, w, call, remote, codecs) =>
        CallMoveIsQuiet(c, t, Creating(Chosen(c.pool, w).value, call, remote, codecs), AfterChoice(c.pool, w));
      case BeginDestroy(t, s) => CallMoveIsQuiet(c, t, Destroying(MemberFor(c.pool, s).value, s, true), c.pool);
      case BeginBridge(t, a, b) => CallMoveIsQuiet(c, t, FindsB(MemberFor(c.pool, a).value, a, b), c.pool);
    }
    QuietKeepsSound(c, Apply(c, e));
  }

  lemma ReadKeepsSound(c: System, e: Event)
    requires Sound(c) && Enabled(c, e) && (e.FindB? || e.ReadA? || e.ReadB?)
    ensures Sound(Apply(c, e))
  {
    var k := c.calls[e.t];
    assert CallOK(c, k);
    match e {
      case FindB(t) =>
        assert MadeOn(c, k.b, MemberFor(c.pool, k.b).value);
        CallMoveIsQuiet(c, t, ReadsA(AddressOf(c.pool, k.node), k.a, k.b), c.pool);
      case ReadA(t, ip) => CallMoveIsQuiet(c, t, ReadsB(k.at, EndpointOf(c, k.at, k.a, ip), k.b), c.pool);
      case ReadB(t, ip) => CallMoveIsQuiet(c, t, Joins(k.at, k.endA, EndpointOf(c, k.at, k.b, ip)), c.pool);
    }
    QuietKeepsSound(c, Apply(c, e));
  }

  lemma JoinKeepsSound(c: System, e: Event)
    requires Sound(c) && Enabled(c, e) && e.Join?
    ensures Sound(Apply(c, e))
  {
    var k := c.calls[e.t];
    var (table, r) := JoinOutcome(c, e);
    if r.Rejected? {
      LossIsQuiet(c, e.t);
      QuietKeepsSound(c, Apply(c, e));
    } else {
      var d := c.(machines := c.machines[k.at := c.machines[k.at].(table := table)]);
      MachineTouchIsQuiet(c, k.at, c.machines[k.at].(table := table), d);
      CallMoveIsQuiet(d, e.t, Marks(k.at, [k.endA.session, k.endB.session]), d.pool);
      QuietTwice(c, d, Apply(c, e));
    }
  }

  lemma MarkKeepsSound(c: System, e: Event)
    requires Sound(c) && Enabled(c, e) && e.Mark?
    ensures Sound(Apply(c, e))
  {
    var k := c.calls[e.t];
    var node := NodeSessions.MarkBridged(c.machines[k.at].node, k.todo[0]).0;
    var d := WithNode(c, k.at, node);
    SameKeys(c.machines[k.at].node, k.todo[0], NodeSessions.NO_REMOTE);
    MachineTouchIsQuiet(c, k.at, c.machines[k.at].(node := node), d);
    CallMoveIsQuiet(d, e.t, Marks(k.at, k.todo[1..]), d.pool);
    QuietTwice(c, d, Apply(c, e));
  }

  lemma NodeTouchKeepsSound(c: System, e: Event)
    requires Sound(c) && Enabled(c, e) && (e.SetFarEnd? || e.UnbridgeMedia?)
    ensures Sound(Apply(c, e))
  {
    var m := Apply(c, e).machines[e.at];
    if e.SetFarEnd? {
      SameKeys(c.machines[e.at].node, e.session, e.far);
    }
    MachineTouchIsQuiet(c, e.at, m, Apply(c, e));
    QuietKeepsSound(c, Apply(c, e));
  }

  lemma PoolStateKeepsSound(c: System, e: Event)
    requires Sound(c) && Enabled(c, e) && (e.BeginDrain? || e.FinishDrain? || e.StopDrain? || e.HealthChange?)
    ensures Sound(Apply(c, e))
  {
    MemberStateIsQuiet(c, Apply(c, e).pool);
    QuietKeepsSound(c, Apply(c, e));
  }

  lemma MemberStateIsQuiet(c: System, p: PoolState)
    requires p.affinity == c.pool.affinity && p.members.Keys == c.pool.members.Keys
    requires forall n :: n in p.members ==> p.members[n].address == c.pool.members[n].address
    ensures Quiet(c, c.(pool := p))
  {
  }

  lemma CreateKeepsSound(c: System, e: Event)
    requires Sound(c) && Enabled(c, e) && e.NodeCreates?
    ensures Sound(Apply(c, e))
  {
    var k := c.calls[e.t];
    var x := AddressOf(c.pool, k.node);
    var (node, reply) := NodeSessions.Create(c.machines[x].node, k.call, k.remote, k.codecs, e.port, e.id);
    if reply.Fresh? {
      FreshKeepsSound(c, e.t, k.node, node, e.id, e.port);
    } else {
      var d := WithNode(c, x, node);
      MachineTouchIsQuiet(c, x, c.machines[x].(node := node), d);
      if reply.Existing? {
        assert Live(c, reply.id, x);
        CallMoveIsQuiet(d, e.t, Replied(k.node, reply.id), d.pool);
      } else {
        LossIsQuiet(d, e.t);
      }
      QuietTwice(c, d, Apply(c, e));
    }
  }

  lemma FreshKeepsSound(c: System, t: nat, n: NodeId, node: NodeSessions.Node, id: SessionId, port: int)
    requires Sound(c) && t in c.calls && !c.calls[t].Untracking? && id !in c.past.made && Reachable(c, n)
    requires id in node.sessions && node.sessions[id].localPort == port
    requires node.sessions == c.machines[AddressOf(c.pool, n)].node.sessions[id := node.sessions[id]]
    ensures Sound(At(WithNode(c, AddressOf(c.pool, n), node), t, Replied(n, id))
                  .(past := c.past.(made := c.past.made[id := Birth(AddressOf(c.pool, n), port)])))
  {
    var x := AddressOf(c.pool, n);
    var c' := At(WithNode(c, x, node), t, Replied(n, id)).(past := c.past.(made := c.past.made[id := Birth(x, port)]));
    assert forall y :: !Live(c, id, y) by {
      assert forall y :: !MadeAt(c, id, y);
    }
    assert forall y, s :: Live(c', s, y) <==> Live(c, s, y) || (s == id && y == x);
    assert forall y, s :: MadeAt(c', s, y) <==> MadeAt(c, s, y) || (s == id && y == x);
    assert NodesOK(c');
    StepKeepsCalls(c, c', t);
    StepKeepsUntracking(c, c', t);
    assert PoolSound(c');
  }

  /** The other calls stay as they were. */
  lemma StepKeepsCalls(c: System, c': System, t: nat)
    requires CallsOK(c) && Extends(c, c')
    requires forall u :: u in c'.calls && u != t ==> u in c.calls && c'.calls[u] == c.calls[u]
    requires t in c'.calls ==> CallOK(c', c'.calls[t])
    ensures CallsOK(c')
  {
    forall u | u in c'.calls ensures CallOK(c', c'.calls[u]) {
      if u != t {
        CallStaysOK(c, c', c.calls[u]);
      }
    }
  }

  /** Only the call `t` may have stopped being about to untrack its session. */
  lemma StepKeepsUntracking(c: System, c': System, t: nat)
    requires forall u :: u in c.calls && u != t ==> u in c'.calls && c'.calls[u] == c.calls[u]
    ensures forall s :: BeingUntracked(c, s) && (t in c.calls ==> c.calls[t] != Untracking(s)) ==> BeingUntracked(c', s)
  {
    forall s | BeingUntracked(c, s) && (t in c.calls ==> c.calls[t] != Untracking(s)) ensures BeingUntracked(c', s) {
      var u :| u in c.calls && c.calls[u] == Untracking(s);
      assert u in c'.calls && c'.calls[u] == Untracking(s);
    }
  }

  /** A step of the pool's index leaves the nodes as they are. */
  lemma SameNodesOK(c: System, c': System)
    requires NodesOK(c) && c'.machines == c.machines && c'.past.made == c.past.made && c'.past.gone == c.past.gone
    ensures NodesOK(c')
  {
    assert forall x, s :: Live(c', s, x) <==> Live(c, s, x);
    assert forall x, s :: MadeAt(c', s, x) <==> MadeAt(c, s, x);
  }

  lemma TrackKeepsSound(c: System, t: nat)
    requires Sound(c) && Enabled(c, TrackReply(t))
    ensures Sound(TrackAtPool(c, t))
  {
    var c' := TrackAtPool(c, t);
    var k := c.calls[t];
    assert CallOK(c, k);
    TrackKeepsPoolSound(c, t);
    SameNodesOK(c, c');
    StepKeepsCalls(c, c', t);
    StepKeepsUntracking(c, c', t);
  }

  lemma TrackKeepsPoolSound(c: System, t: nat)
    requires PoolSound(c) && Enabled(c, TrackReply(t)) && CallOK(c, c.calls[t])
    ensures PoolSound(TrackAtPool(c, t)) && Extends(c, TrackAtPool(c, t))
  {
    var k := c.calls[t];
    TrackKeepsMirrorIff(c.pool.affinity, k.session, k.node);
    assert forall s, n :: MadeOn(c, s, n) ==> MadeOn(TrackAtPool(c, t), s, n);
  }

  /** `d` is `c` with the call `t` moved on or ended. */
  lemma UntrackKeepsSound(c: System, d: System, t: nat, r: SessionId)
    requires Sound(c) && Extends(c, d) && d == c.(calls := d.calls)
    requires t in c.calls && (c.calls[t].Untracking? || c.calls[t].Destroying?) && c.calls[t].session == r
    requires forall u :: u in d.calls && u != t ==> u in c.calls && d.calls[u] == c.calls[u]
    requires forall u :: u in c.calls && u != t ==> u in d.calls && d.calls[u] == c.calls[u]
    requires t in d.calls ==> CallOK(d, d.calls[t])
    ensures Sound(Untracked(d, r))
  {
    var c' := Untracked(d, r);
    UntrackKeepsMirror(c.pool.affinity, r);
    SameNodesOK(c, c');
    assert t in d.calls ==> CallOK(c', d.calls[t]);
    StepKeepsCalls(c, c', t);
    StepKeepsUntracking(c, c', t);
    assert PoolSound(c');
  }

  lemma LetGoKeepsSound(c: System, e: Event)
    requires Sound(c) && Enabled(c, e) && (e.GiveUp? || e.UntrackNow?)
    ensures Sound(Apply(c, e))
  {
    var k := c.calls[e.t];
    assert CallOK(c, k);
    if e.GiveUp? {
      UntrackKeepsSound(c, At(c, e.t, k.(awaited := false)), e.t, k.session);
    } else {
      UntrackKeepsSound(c, Done(c, e.t), e.t, k.session);
    }
  }

  lemma DestroyKeepsSound(c: System, t: nat)
    requires Sound(c) && Enabled(c, NodeDestroys(t))
    ensures Sound(DestroyAtNode(c, t))
  {
    var c' := DestroyAtNode(c, t);
    var k := c.calls[t];
    assert CallOK(c, k);
    DestroyKeepsNodesOK(c, t);
    StepKeepsCalls(c, c', t);
    StepKeepsUntracking(c, c', t);
    if k.awaited {
      assert c'.calls[t] == Untracking(k.session);
      assert BeingUntracked(c', k.session);
    }
    assert PoolSound(c');
  }

  lemma DestroyKeepsNodesOK(c: System, t: nat)
    requires Sound(c) && Enabled(c, NodeDestroys(t))
    ensures NodesOK(DestroyAtNode(c, t))
  {
    var c' := DestroyAtNode(c, t);
    var k := c.calls[t];
    var x := AddressOf(c.pool, k.node);
    assert CallOK(c, k);
    assert forall y, s :: Live(c', s, y) <==> Live(c, s, y) && !(s == k.session && y == x);
    assert forall y, s :: MadeAt(c', s, y) <==> MadeAt(c, s, y);
  }

  lemma EventKeepsSound(c: System, e: Event)
    requires Sound(c) && Enabled(c, e)
    ensures Sound(Apply(c, e))
  {
    if e.NodeCreates? {
      CreateKeepsSound(c, e);
    } else if e.TrackReply? {
      TrackKeepsSound(c, e.t);
    } else if e.NodeDestroys? {
      DestroyKeepsSound(c, e.t);
    } else if e.GiveUp? || e.UntrackNow? {
      LetGoKeepsSound(c, e);
    } else if e.BeginCreate? || e.BeginDestroy? || e.BeginBridge? {
      BeginKeepsSound(c, e);
    } else if e.FindB? || e.ReadA? || e.ReadB? {
      ReadKeepsSound(c, e);
    } else if e.Join? {
      JoinKeepsSound(c, e);
    } else if e.Mark? {
      MarkKeepsSound(c, e);
    } else if e.SetFarEnd? || e.UnbridgeMedia? {
      NodeTouchKeepsSound(c, e);
    } else if e.Lose? {
      LossIsQuiet(c, e.t);
      QuietKeepsSound(c, Done(c, e.t));
    } else {
      PoolStateKeepsSound(c, e);
    }
  }

  lemma {:induction false} RunKeepsSound(c: System, es: seq<Event>)
    requires Sound(c) && Feasible(c, es)
    ensures Sound(After(c, es))
    decreases |es|
  {
    if es != [] {
      EventKeepsSound(c, es[0]);
      RunKeepsSound(Apply(c, es[0]), es[1..]);
    }
  }
}
