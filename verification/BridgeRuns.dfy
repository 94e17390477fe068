/** A run in which a media bridge is accepted over a session that is gone. */
module BridgeRuns {
  import opened CallStates
  import opened MediaPool
  import opened Cluster
  import opened ClusterSafety
  import opened ClusterOutcome
  import opened ClusterRuns
  import NodeSessions
  import NodeBridges

  /** The session is on the node, on its port and with its far end, and the pool knows. */
  predicate InPlace(c: System, n: NodeId, s: SessionId, port: int, far: NodeSessions.Remote) {
    && Reachable(c, n) && s in NodeAt(c, n).sessions
    && NodeAt(c, n).sessions[s].localPort == port && NodeAt(c, n).sessions[s].remote == far
    && s in c.pool.affinity.nodeOf && c.pool.affinity.nodeOf[s] == n
  }

  predicate CanMakeOn(c: System, n: NodeId, call: CallId, port: int) {
    CanMake(c, n, call) && port in NodeAt(c, n).ports.free
  }

  /** `d'` is `d` with one more session created on the node and tracked. */
  predicate PlacedTo(d: System, d': System, n: NodeId, call: CallId, far: NodeSessions.Remote, port: int,
                     s: SessionId) {
    && Reachable(d, n) && InPlace(d', n, s, port, far)
    && d'.calls == d.calls && d'.past.made.Keys == d.past.made.Keys + {s}
    && d'.pool == d.pool.(affinity := Track(d.pool.affinity, s, n))
    && d'.machines[AddressOf(d.pool, n)].table == d.machines[AddressOf(d.pool, n)].table
    && NodeAt(d', n) == NodeSessions.Node(NodeSessions.Allocated(NodeAt(d, n).ports, port),
                                          NodeAt(d, n).sessions[s := NodeAt(d', n).sessions[s]],
                                          NodeAt(d, n).calls[call := s])
  }

  lemma PlacedBeside(d: System, d': System, n: NodeId, call: CallId, far: NodeSessions.Remote, port: int, s: SessionId,
                     a: SessionId, p: int, next: CallId, q: int)
    requires PlacedTo(d, d', n, call, far, port, s)
    ensures InPlace(d, n, a, p, far) && a != s ==> InPlace(d', n, a, p, far)
    ensures CanMakeOn(d, n, next, q) && next != call && q != port ==> CanMakeOn(d', n, next, q)
    ensures Usable(d.pool, n) ==> Usable(d'.pool, n)
  {
    assert CanMakeOn(d, n, next, q) && q != port ==> q in NodeAt(d', n).ports.free;
  }

  /** A session is created on a node and tracked. */
  lemma Place(c: System, es: seq<Event>, t: nat, n: NodeId, call: CallId, far: NodeSessions.Remote, port: int,
              s: SessionId)
    returns (longer: seq<Event>)
    requires Feasible(c, es) && t !in After(c, es).calls && s !in After(c, es).past.made
    requires Usable(After(c, es).pool, n) && CanMakeOn(After(c, es), n, call, port)
    ensures Feasible(c, longer)
    ensures PlacedTo(After(c, es), After(c, longer), n, call, far, port, s)
  {
    var d := After(c, es);
    longer := Then(c, es, BeginCreate(t, OnNode(n), call, Some(far), [NodeSessions.PCMU]));
    var d1 := After(c, longer);
    assert d1 == At(d, t, Creating(n, call, Some(far), [NodeSessions.PCMU]));
    longer := Then(c, longer, NodeCreates(t, port, s));
    NodeMakes(d1, t, n, call, far, port, s);
    longer := Settle(c, longer, t);
    assert d1.calls[t := Replied(n, s)] - {t} == d.calls;
  }

  lemma NodeMakes(d: System, t: nat, n: NodeId, call: CallId, far: NodeSessions.Remote, port: int, s: SessionId)
    requires t in d.calls && d.calls[t] == Creating(n, call, Some(far), [NodeSessions.PCMU]) && s !in d.past.made
    requires CanMakeOn(d, n, call, port)
    ensures Enabled(d, NodeCreates(t, port, s))
    ensures var d', x := CreateAtNode(d, t, port, s), AddressOf(d.pool, n);
            && d'.pool == d.pool && d'.calls == d.calls[t := Replied(n, s)]
            && d'.past.made.Keys == d.past.made.Keys + {s}
            && x in d'.machines && d'.machines[x].table == d.machines[x].table
            && d'.machines[x].node == NodeSessions.Node(NodeSessions.Allocated(NodeAt(d, n).ports, port),
                                                        NodeAt(d, n).sessions[s := NodeSessions.NewSession(call,
                                                            Some(far), port)],
                                                        NodeAt(d, n).calls[call := s])
  {
  }

  function End(s: SessionId, port: int, far: NodeSessions.Remote): NodeBridges.Endpoint {
    NodeBridges.Endpoint(s, port, far, true)
  }

  /** A request to join the two sessions goes out. */
  lemma Request(c: System, es: seq<Event>, n: NodeId, a: SessionId, b: SessionId) returns (longer: seq<Event>)
    requires Feasible(c, es) && After(c, es).calls == map[] && n in After(c, es).pool.members
    requires a in After(c, es).pool.affinity.nodeOf && After(c, es).pool.affinity.nodeOf[a] == n
    requires b in After(c, es).pool.affinity.nodeOf && After(c, es).pool.affinity.nodeOf[b] == n
    ensures Feasible(c, longer)
    ensures var d := After(c, es);
            After(c, longer) == d.(calls := map[0 := ReadsA(AddressOf(d.pool, n), a, b)])
  {
    longer := Then(c, es, BeginBridge(0, a, b));
    assert After(c, longer).calls == map[0 := FindsB(n, a, b)];
    longer := Then(c, longer, FindB(0));
  }

  /** The node reads both. */
  lemma ReadBoth(c: System, es: seq<Event>, n: NodeId, a: SessionId, b: SessionId, p: int, q: int,
                 far: NodeSessions.Remote)
    returns (longer: seq<Event>)
    requires Feasible(c, es) && After(c, es).calls == map[]
    requires InPlace(After(c, es), n, a, p, far) && InPlace(After(c, es), n, b, q, far)
    ensures Feasible(c, longer)
    ensures var d := After(c, es);
            After(c, longer) == d.(calls := map[0 := Joins(AddressOf(d.pool, n), End(a, p, far), End(b, q, far))])
  {
    longer := Request(c, es, n, a, b);
    longer := Then(c, longer, ReadA(0, true));
    assert After(c, longer).calls == map[0 := ReadsB(AddressOf(After(c, es).pool, n), End(a, p, far), b)];
    longer := Then(c, longer, ReadB(0, true));
  }

  /** The first session is destroyed on its node meanwhile. */
  lemma Strike(c: System, es: seq<Event>, n: NodeId, a: SessionId, p: int, far: NodeSessions.Remote, k: Call)
    returns (longer: seq<Event>)
    requires Feasible(c, es) && After(c, es).calls == map[0 := k] && InPlace(After(c, es), n, a, p, far)
    ensures Feasible(c, longer)
    ensures var d, d' := After(c, es), After(c, longer);
            && d'.calls == map[0 := k, 1 := Untracking(a)] && a in d'.past.gone && d'.pool == d.pool
            && AddressOf(d.pool, n) in d'.machines
            && d'.machines[AddressOf(d.pool, n)].table == d.machines[AddressOf(d.pool, n)].table
  {
    longer := Then(c, es, BeginDestroy(1, a));
    assert After(c, longer).calls == map[0 := k, 1 := Destroying(n, a, true)];
    longer := Then(c, longer, NodeDestroys(1));
    assert After(c, longer).calls == map[0 := k, 1 := Untracking(a)];
  }

  predicate Distinct(a: SessionId, b: SessionId, p: int, q: int) {
    a != b && p != q
  }

  lemma BothPlaced(c: System, n: NodeId, calls: (CallId, CallId), far: NodeSessions.Remote,
                   a: SessionId, b: SessionId, p: int, q: int) returns (es: seq<Event>)
    requires Initial(c) && Usable(c.pool, n) && calls.0 != calls.1 && Distinct(a, b, p, q)
    requires CanMakeOn(c, n, calls.0, p) && CanMakeOn(c, n, calls.1, q)
    ensures Feasible(c, es)
    ensures var d := After(c, es);
            && d.calls == map[] && InPlace(d, n, a, p, far) && InPlace(d, n, b, q, far)
            && AddressOf(d.pool, n) == AddressOf(c.pool, n)
            && d.machines[AddressOf(c.pool, n)].table == c.machines[AddressOf(c.pool, n)].table
  {
    var start: seq<Event> := [];
    es := Place(c, start, 0, n, calls.0, far, p, a);
    var d := After(c, es);
    PlacedBeside(c, d, n, calls.0, far, p, a, b, q, calls.1, q);
    es := Place(c, es, 0, n, calls.1, far, q, b);
    PlacedBeside(d, After(c, es), n, calls.1, far, q, b, a, p, calls.1, q);
  }

  /** Two sessions of one node, read for a bridge, one of them destroyed before they are joined. */
  lemma ReadThenDestroyed(c: System, n: NodeId, calls: (CallId, CallId), far: NodeSessions.Remote,
                          a: SessionId, b: SessionId, p: int, q: int) returns (es: seq<Event>)
    requires Initial(c) && Usable(c.pool, n) && calls.0 != calls.1 && Distinct(a, b, p, q)
    requires CanMakeOn(c, n, calls.0, p) && CanMakeOn(c, n, calls.1, q)
    ensures Feasible(c, es)
    ensures var d := After(c, es);
            && d.calls == map[0 := Joins(AddressOf(c.pool, n), End(a, p, far), End(b, q, far)), 1 := Untracking(a)]
            && a in d.past.gone && AddressOf(c.pool, n) in d.machines
            && d.machines[AddressOf(c.pool, n)].table == c.machines[AddressOf(c.pool, n)].table
  {
    es := BothPlaced(c, n, calls, far, a, b, p, q);
    es := ReadBoth(c, es, n, a, b, p, q, far);
    es := Strike(c, es, n, a, p, far, Joins(AddressOf(c.pool, n), End(a, p, far), End(b, q, far)));
  }

  /** The bridge is accepted all the same. */
  lemma BridgeOverDestroyedSession(c: System, n: NodeId, calls: (CallId, CallId), far: NodeSessions.Remote,
                                   a: SessionId, b: SessionId, p: int, q: int, bridge: BridgeId)
    returns (es: seq<Event>)
    requires Initial(c) && Usable(c.pool, n) && calls.0 != calls.1 && Distinct(a, b, p, q)
    requires CanMakeOn(c, n, calls.0, p) && CanMakeOn(c, n, calls.1, q)
    requires far.addr != "" && far.port != 0 && c.machines[AddressOf(c.pool, n)].table == NodeBridges.EMPTY
    ensures Feasible(c, es)
    ensures var d, e := After(c, es), Join(0, bridge, true, true);
            && Enabled(d, e) && JoinOutcome(d, e).1 == NodeBridges.Joined(bridge)
            && d.calls[0].endA.session == a && !Live(Apply(d, e), a, AddressOf(c.pool, n))
  {
    es := ReadThenDestroyed(c, n, calls, far, a, b, p, q);
    InitialIsSound(c);
    RunKeepsSound(c, es);
    var d, e := After(c, es), Join(0, bridge, true, true);
    assert Enabled(d, e);
    EventKeepsSound(d, e);
    assert a in Apply(d, e).past.gone;
  }
}
