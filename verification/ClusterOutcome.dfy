/** Affinity over whole runs: what the pool's index is worth while calls are under way, and exactly
    when it is wrong. */
module ClusterOutcome {
  import opened CallStates
  import opened MediaPool
  import opened Cluster
  import opened ClusterSafety
  import NodeSessions
  import NodeBridges

  // ----- What holds in every reachable state -----

  /** A pool that tracks nothing, over nodes that hold nothing, and no call under way. */
  predicate Initial(c: System) {
    && OneMemberPerMachine(c.pool) && c.pool.affinity == NO_AFFINITY
    && (forall x :: x in c.machines ==> c.machines[x].node.sessions == map[])
    && c.calls == map[] && c.past == History(map[], {}, {}, {})
  }

  lemma InitialIsSound(c: System)
    requires Initial(c)
    ensures Sound(c)
  {
    assert forall x, s :: !Live(c, s, x);
  }

  // ----- When a session dangles -----

  predicate Destroys(c: System, e: Event, s: SessionId) {
    e.NodeDestroys? && Enabled(c, e) && c.calls[e.t].session == s
  }

  /** The session's node is told to destroy it during the run. */
  predicate DestroyedIn(c: System, es: seq<Event>, s: SessionId)
    requires Feasible(c, es)
    decreases |es|
  {
    es != [] && (Destroys(c, es[0], s) || DestroyedIn(Apply(c, es[0]), es[1..], s))
  }

  lemma GoneAfterStep(c: System, e: Event, s: SessionId)
    requires Sound(c) && Enabled(c, e) && s !in c.past.gone
    ensures s in Apply(c, e).past.gone <==> Destroys(c, e, s)
  {
    if e.NodeDestroys? {
      assert CallOK(c, c.calls[e.t]);
      var x := AddressOf(c.pool, c.calls[e.t].node);
      assert c.calls[e.t].session == s ==> MadeAt(c, s, x);
    }
  }

  lemma {:induction false} GoneForGood(c: System, es: seq<Event>)
    requires Feasible(c, es)
    ensures c.past.gone <= After(c, es).past.gone
    decreases |es|
  {
    if es != [] {
      assert c.past.gone <= Apply(c, es[0]).past.gone;
      GoneForGood(Apply(c, es[0]), es[1..]);
    }
  }

  /** A session is gone exactly if its node was told to destroy it. */
  lemma {:induction false} GoneIffDestroyed(c: System, es: seq<Event>, s: SessionId)
    requires Sound(c) && Feasible(c, es) && s !in c.past.gone
    ensures s in After(c, es).past.gone <==> DestroyedIn(c, es, s)
    decreases |es|
  {
    if es != [] {
      EventKeepsSound(c, es[0]);
      GoneAfterStep(c, es[0], s);
      if Destroys(c, es[0], s) {
        GoneForGood(Apply(c, es[0]), es[1..]);
      } else {
        GoneIffDestroyed(Apply(c, es[0]), es[1..], s);
      }
    }
  }

  /** In every interleaving of calls that may be lost anywhere on their way, the two indexes agree, and
      a session the pool maps to a node is in that node's table if and only if the node was never told to
      destroy it.  If it was, the call that did so is about to untrack the session, or it dangles. */
  lemma AffinityIsSound(c: System, es: seq<Event>, s: SessionId)
    requires Initial(c) && Feasible(c, es) && s in After(c, es).pool.affinity.nodeOf
    ensures var d := After(c, es);
            var n := d.pool.affinity.nodeOf[s];
            && Mirror(d.pool.affinity) && n in d.pool.members
            && (Live(d, s, AddressOf(d.pool, n)) <==> !DestroyedIn(c, es, s))
            && (DestroyedIn(c, es, s) ==> BeingUntracked(d, s) || s in d.past.dangling)
            && (s in d.past.dangling ==> DestroyedIn(c, es, s))
  {
    InitialIsSound(c);
    RunKeepsSound(c, es);
    GoneIffDestroyed(c, es, s);
    assert MadeOn(After(c, es), s, After(c, es).pool.affinity.nodeOf[s]);
  }

  lemma {:induction false} StillMadeAt(c: System, es: seq<Event>, s: SessionId, x: Address)
    requires Sound(c) && Feasible(c, es) && MadeAt(c, s, x)
    ensures MadeAt(After(c, es), s, x)
    decreases |es|
  {
    if es != [] {
      EventKeepsSound(c, es[0]);
      assert MadeAt(Apply(c, es[0]), s, x);
      StillMadeAt(Apply(c, es[0]), es[1..], s, x);
    }
  }

  /** The node has answered a create with session `s`, and the reply is tracked after the events `es`.
      The pool then maps `s` to a node that does not have it if and only if the node was told to
      destroy `s` in between. */
  lemma LateReplyDanglesIff(c: System, es: seq<Event>, t: nat, n: NodeId, s: SessionId)
    requires Sound(c) && Feasible(c, es) && n in c.pool.members && Live(c, s, AddressOf(c.pool, n))
    requires Enabled(After(c, es), TrackReply(t)) && After(c, es).calls[t] == Replied(n, s)
    ensures var d := Apply(After(c, es), TrackReply(t));
            && s in d.pool.affinity.nodeOf && d.pool.affinity.nodeOf[s] == n
            && (s in d.past.dangling <==> DestroyedIn(c, es, s))
            && (Live(d, s, AddressOf(c.pool, n)) <==> !DestroyedIn(c, es, s))
  {
    var x := AddressOf(c.pool, n);
    assert MadeAt(c, s, x) && s !in c.past.gone;
    GoneIffDestroyed(c, es, s);
    StillMadeAt(c, es, s, x);
    RunKeepsSound(c, es);
    TrackKeepsSound(After(c, es), t);
  }

  /** No reply names a session that the pool has tracked before. */
  predicate NoRepeats(c: System, es: seq<Event>)
    requires Feasible(c, es)
    decreases |es|
  {
    es == [] ||
    ((es[0].TrackReply? ==> c.calls[es[0].t].session !in c.past.known) && NoRepeats(Apply(c, es[0]), es[1..]))
  }

  /** Nothing dangles, and a destroy request whose caller has given up is for a session untracked since. */
  ghost predicate Tight(c: System) {
    && c.past.dangling == {}
    && forall t :: t in c.calls && IsStray(c.calls[t]) ==> c.calls[t].session !in c.pool.affinity.nodeOf
  }

  lemma StepStaysTight(c: System, e: Event)
    requires Sound(c) && Tight(c) && Enabled(c, e) && (e.TrackReply? ==> c.calls[e.t].session !in c.past.known)
    ensures Tight(Apply(c, e))
  {
    if e.TrackReply? {
      FirstReplyStaysTight(c, e.t);
    } else if e.NodeDestroys? {
      DestroyStaysTight(c, e.t);
    } else if e.GiveUp? || e.UntrackNow? {
      LetGoStaysTight(c, e);
    } else {
      NoNewStrays(c, e);
    }
  }

  predicate IsStray(k: Call) {
    k.Destroying? && !k.awaited
  }

  lemma NoNewStrays(c: System, e: Event)
    requires Enabled(c, e) && !e.TrackReply? && !e.NodeDestroys? && !e.GiveUp? && !e.UntrackNow?
    ensures Apply(c, e).pool.affinity == c.pool.affinity && Apply(c, e).past.dangling == c.past.dangling
    ensures forall t :: t in Apply(c, e).calls && IsStray(Apply(c, e).calls[t]) ==>
              t in c.calls && Apply(c, e).calls[t] == c.calls[t]
  {
  }

  lemma DestroyStaysTight(c: System, t: nat)
    requires Tight(c) && Enabled(c, NodeDestroys(t))
    ensures Tight(DestroyAtNode(c, t))
  {
  }

  lemma LetGoStaysTight(c: System, e: Event)
    requires Tight(c) && Enabled(c, e) && (e.GiveUp? || e.UntrackNow?)
    ensures Tight(Apply(c, e))
  {
    var c' := Apply(c, e);
    assert forall s :: s in c'.pool.affinity.nodeOf ==> s in c.pool.affinity.nodeOf && s != c.calls[e.t].session;
  }

  lemma FirstReplyStaysTight(c: System, t: nat)
    requires CallsOK(c) && PastOK(c) && Tight(c) && Enabled(c, TrackReply(t)) && c.calls[t].session !in c.past.known
    ensures Tight(TrackAtPool(c, t))
  {
    assert forall u :: u in c.calls ==> CallOK(c, c.calls[u]);
  }

  /** Only a second reply for a session can dangle: a run in which no session is tracked twice is
      sound but for sessions about to be untracked. */
  lemma {:induction false} WithoutRepeatsNothingDangles(c: System, es: seq<Event>)
    requires Sound(c) && Tight(c) && Feasible(c, es) && NoRepeats(c, es)
    ensures After(c, es).past.dangling == {}
    ensures var d := After(c, es);
            forall s :: s in d.pool.affinity.nodeOf && !BeingUntracked(d, s) ==>
              && d.pool.affinity.nodeOf[s] in d.pool.members
              && Live(d, s, AddressOf(d.pool, d.pool.affinity.nodeOf[s]))
    decreases |es|
  {
    if es == [] {
      forall s | s in c.pool.affinity.nodeOf && !BeingUntracked(c, s)
        ensures Live(c, s, AddressOf(c.pool, c.pool.affinity.nodeOf[s]))
      {
        assert MadeOn(c, s, c.pool.affinity.nodeOf[s]);
      }
    } else {
      StepStaysTight(c, es[0]);
      EventKeepsSound(c, es[0]);
      WithoutRepeatsNothingDangles(Apply(c, es[0]), es[1..]);
    }
  }

  // ----- Media bridges -----

  /** An accepted `BridgeMedia` joins two different sessions, made on that machine and each on its own
      port; each of them is in the table unless it was destroyed since it was read. */
  lemma AcceptedBridgeJoins(c: System, es: seq<Event>, e: Event)
    requires Initial(c) && Feasible(c, es) && e.Join? && Enabled(After(c, es), e)
    requires JoinOutcome(After(c, es), e).1.Joined?
    ensures var d := After(c, es);
            var x := d.calls[e.t].at;
            && e.bridge in Apply(d, e).machines[x].table.bridges
            && var br := Apply(d, e).machines[x].table.bridges[e.bridge];
               && br.a.session != br.b.session && EndpointOK(d, x, br.a) && EndpointOK(d, x, br.b)
               && (forall s :: s in {br.a.session, br.b.session} && s !in d.past.gone ==> Live(Apply(d, e), s, x))
               && (forall s :: s in {br.a.session, br.b.session} && s in d.past.gone ==> !Live(Apply(d, e), s, x))
  {
    InitialIsSound(c);
    RunKeepsSound(c, es);
    var d := After(c, es);
    assert CallOK(d, d.calls[e.t]);
    EventKeepsSound(d, e);
  }

  /** The sessions that an accepted `BridgeMedia` joins are both in the table if and only if the node was
      never told to destroy either. */
  lemma BridgeJoinsLiveSessionsIff(c: System, es: seq<Event>, e: Event)
    requires Initial(c) && Feasible(c, es) && e.Join? && Enabled(After(c, es), e)
    requires JoinOutcome(After(c, es), e).1.Joined?
    ensures var d := After(c, es);
            var k := d.calls[e.t];
            Live(Apply(d, e), k.endA.session, k.at) && Live(Apply(d, e), k.endB.session, k.at)
            <==> !DestroyedIn(c, es, k.endA.session) && !DestroyedIn(c, es, k.endB.session)
  {
    InitialIsSound(c);
    RunKeepsSound(c, es);
    var d := After(c, es);
    var k := d.calls[e.t];
    assert CallOK(d, k);
    GoneIffDestroyed(c, es, k.endA.session);
    GoneIffDestroyed(c, es, k.endB.session);
    EventKeepsSound(d, e);
    assert MadeAt(Apply(d, e), k.endA.session, k.at) && MadeAt(Apply(d, e), k.endB.session, k.at);
  }

  // ----- The two halves of a creation are the pool's -----

  /** Choosing the node and tracking the reply is what the pool's creating operations do, and where they
      refuse or find no node, no call goes out. */
  lemma CreationIsThePools(p: PoolState, w: Placement, s: SessionId)
    ensures var created := match w
                           case Anywhere => CreateAnywhere(p, Some(s))
                           case OnNode(n) => CreateOnNode(p, n, Some(s))
                           case NearPeer(peer) => CreateNearPeer(p, peer, Some(s));
            if Chosen(p, w).Some?
            then created == (AfterChoice(p, w).(affinity := Track(p.affinity, s, Chosen(p, w).value)), Some(s))
            else created == (AfterChoice(p, w), None)
  {
  }

  /** A create that the node refuses ends there, and one it grants is answered with the node's session; a
      call that is lost leaves no other trace; drains and health are the pool's. */
  lemma OtherStepsAreExact(c: System, e: Event)
    requires Enabled(c, e)
    ensures e.NodeCreates? ==>
              var k := c.calls[e.t];
              var node := c.machines[AddressOf(c.pool, k.node)].node;
              var reply := NodeSessions.Create(node, k.call, k.remote, k.codecs, e.port, e.id).1;
              if reply.Existing? || reply.Fresh? then Apply(c, e).calls == c.calls[e.t := Replied(k.node, reply.id)]
              else Apply(c, e).calls == c.calls - {e.t}
    ensures e.Lose? ==> Apply(c, e) == c.(calls := c.calls - {e.t})
    ensures e.BeginDrain? ==> Apply(c, e) == c.(pool := StartDrain(c.pool, e.node).0)
    ensures e.FinishDrain? ==> Apply(c, e) == c.(pool := CompleteDrain(c.pool, e.node).0)
    ensures e.StopDrain? ==> Apply(c, e) == c.(pool := CancelDrain(c.pool, e.node).0)
    ensures e.HealthChange? ==>
              Apply(c, e).pool.members == c.pool.members[e.node := c.pool.members[e.node].(healthy := e.healthy)]
  {
  }

  /** What reaches a node is done by the node: far ends set, sessions marked, bridges taken apart. */
  lemma NodeEffectsAreTheNodes(c: System, e: Event)
    requires Enabled(c, e) && (e.SetFarEnd? || e.UnbridgeMedia? || e.Mark?)
    ensures var x := if e.Mark? then c.calls[e.t].at else e.at;
            var m, m' := c.machines[x], Apply(c, e).machines[x];
            && Apply(c, e).machines == c.machines[x := m']
            && m'.node == (match e
                           case SetFarEnd(_, s, far) => NodeSessions.SetRemote(m.node, s, far).0
                           case Mark(t) => NodeSessions.MarkBridged(m.node, c.calls[t].todo[0]).0
                           case _ => m.node)
            && (if e.UnbridgeMedia? then m'.table == NodeBridges.DestroyBridge(m.table, e.bridge).0
                else m'.table == m.table)
  {
  }

  // ----- The counts that Stats reports -----

  lemma RosterStays(c: System, e: Event)
    requires Enabled(c, e)
    ensures Apply(c, e).pool.order == c.pool.order && Apply(c, e).pool.members.Keys == c.pool.members.Keys
  {
  }

  lemma {:induction false} RosterStaysOverRun(c: System, es: seq<Event>)
    requires Feasible(c, es)
    ensures After(c, es).pool.order == c.pool.order && After(c, es).pool.members.Keys == c.pool.members.Keys
    decreases |es|
  {
    if es != [] {
      RosterStays(c, es[0]);
      RosterStaysOverRun(Apply(c, es[0]), es[1..]);
    }
  }

  /** In every reachable state the members' session counts add up to the number of active sessions. */
  lemma StatsAddUp(c: System, es: seq<Event>)
    requires Initial(c) && Feasible(c, es)
    requires forall i, j :: 0 <= i < j < |c.pool.order| ==> c.pool.order[i] != c.pool.order[j]
    requires forall n :: n in c.pool.members ==> n in c.pool.order
    ensures var p := After(c, es).pool; SumCounts(p.order, p.affinity) == |p.affinity.nodeOf|
  {
    InitialIsSound(c);
    RunKeepsSound(c, es);
    RosterStaysOverRun(c, es);
    SoundStatsAddUp(After(c, es));
  }

  lemma SoundStatsAddUp(d: System)
    requires PoolSound(d) && forall n :: n in d.pool.members ==> n in d.pool.order
    requires forall i, j :: 0 <= i < j < |d.pool.order| ==> d.pool.order[i] != d.pool.order[j]
    ensures SumCounts(d.pool.order, d.pool.affinity) == |d.pool.affinity.nodeOf|
  {
    forall n | n in d.pool.affinity.on ensures n in d.pool.order {
      SomeElement(d.pool.affinity.on[n]);
      var s :| s in d.pool.affinity.on[n];
      assert MadeOn(d, s, d.pool.affinity.nodeOf[s]);
    }
    SessionCountsSum(d.pool.order, d.pool.affinity);
  }
}
