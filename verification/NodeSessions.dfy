/** The port pool and the session table of one RTP node. */
module NodeSessions {
  import opened CallStates

  // ----- Values -----

  /** RTP ports; each stands for itself and the RTCP port above it. */
  datatype Ports = Ports(free: set<int>, used: set<int>)

  datatype Phase = JustMade | PendingRemote | InUse | Bridged

  datatype Remote = Remote(addr: string, port: int)

  datatype Session = Session(call: CallId, localPort: int, rtcpPort: int, remote: Remote, codec: string, phase: Phase)

  datatype Node = Node(ports: Ports, sessions: map<SessionId, Session>, calls: map<CallId, SessionId>)

  const PCMU: string := "0"

  const NO_REMOTE: Remote := Remote("", 0)

  // ----- Ports -----

  function EvenFrom(lo: int): int {
    if lo % 2 != 0 then lo + 1 else lo
  }

  /** The RTP ports of the range: even, and below `hi` so that the RTCP port is at most `hi`. */
  function RtpPorts(lo: int, hi: int): set<int> {
    set p: int | EvenFrom(lo) <= p < hi && p % 2 == 0
  }

  function Allocated(p: Ports, port: int): Ports {
    Ports(p.free - {port}, p.used + {port})
  }

  function Released(p: Ports, port: int): Ports {
    if port in p.used then Ports(p.free + {port}, p.used - {port}) else p
  }

  lemma {:induction false} RtpPortCount(lo: int, hi: int)
    ensures |RtpPorts(lo, hi)| == if EvenFrom(lo) < hi then (hi - EvenFrom(lo) + 1) / 2 else 0
    decreases hi - EvenFrom(lo)
  {
    var first := EvenFrom(lo);
    if first < hi {
      assert RtpPorts(lo, hi) == RtpPorts(first + 2, hi) + {first};
      RtpPortCount(first + 2, hi);
    } else {
      assert RtpPorts(lo, hi) == {};
    }
  }

  lemma SomePort(s: set<int>)
    ensures s == {} || exists p :: p in s
  {
    if forall p :: p !in s {
      assert s == {};
    }
  }

  /** A fixed pool of ports, handed out one at a time. */
  class PortPool {
    const minPort: int
    const maxPort: int
    var available: set<int>
    var inUse: set<int>

    ghost function View(): Ports
      reads this
    {
      Ports(available, inUse)
    }

    constructor (lo: int, hi: int)
      ensures View() == Ports(RtpPorts(lo, hi), {})
    {
      minPort, maxPort := EvenFrom(lo), hi;
      available, inUse := {}, {};
      new;
      var port := minPort;
      while port < maxPort
        invariant port % 2 == 0 && EvenFrom(lo) <= port
        invariant available == RtpPorts(lo, if port < hi then port else hi) && inUse == {}
        decreases maxPort - port
      {
        available := available + {port};
        port := port + 2;
      }
    }

    method Allocate() returns (r: Option<(int, int)>)
      modifies this
      ensures old(available) == {} ==> r.None? && View() == old(View())
      ensures old(available) != {} ==>
                && r.Some?
                && r.value.0 in old(available)
                && r.value.1 == r.value.0 + 1
                && View() == Allocated(old(View()), r.value.0)
    {
      if available == {} {
        return None;
      }
      SomePort(available);
      var port :| port in available;
      available := available - {port};
      inUse := inUse + {port};
      r := Some((port, port + 1));
    }

    method Release(rtpPort: int)
      modifies this
      ensures View() == Released(old(View()), rtpPort)
    {
      if rtpPort in inUse {
        inUse := inUse - {rtpPort};
        available := available + {rtpPort};
      }
    }
  }

  // ----- Sessions -----

  datatype Reply = Existing(id: SessionId) | Fresh(id: SessionId) | NoPorts | NoCodec

  function NewSession(call: CallId, remote: Option<Remote>, port: int): Session {
    if remote.Some? then Session(call, port, port + 1, remote.value, PCMU, JustMade)
    else Session(call, port, port + 1, NO_REMOTE, PCMU, PendingRemote)
  }

  /** `port` is the port the pool hands out and `id` the identifier the node generates, if it
      comes to that; no `remote` makes a session whose far end is supplied later. */
  function Create(n: Node, call: CallId, remote: Option<Remote>, codecs: seq<string>, port: int, id: SessionId)
    : (Node, Reply)
  {
    if call in n.calls && n.calls[call] in n.sessions then (n, Existing(n.calls[call]))
    else if n.ports.free == {} then (n, NoPorts)
    else
      var taken := Allocated(n.ports, port);
      if PCMU !in codecs then (n.(ports := Released(taken, port)), NoCodec)
      else (Node(taken, n.sessions[id := NewSession(call, remote, port)], n.calls[call := id]), Fresh(id))
  }

  function Destroy(n: Node, id: SessionId): (Node, bool) {
    if id !in n.sessions then (n, false)
    else (Node(Released(n.ports, n.sessions[id].localPort), n.sessions - {id}, n.calls - {n.sessions[id].call}), true)
  }

  function SetRemote(n: Node, id: SessionId, remote: Remote): (Node, bool) {
    if id !in n.sessions then (n, false)
    else
      var s := n.sessions[id];
      var phase := if s.phase.PendingRemote? then InUse else s.phase;
      (n.(sessions := n.sessions[id := s.(remote := remote, phase := phase)]), true)
  }

  function MarkBridged(n: Node, id: SessionId): (Node, bool) {
    if id !in n.sessions then (n, false)
    else (n.(sessions := n.sessions[id := n.sessions[id].(phase := Bridged)]), true)
  }

  function LocalPorts(m: map<SessionId, Session>): set<int> {
    set id | id in m :: m[id].localPort
  }

  function CloseAll(n: Node): Node {
    Node(Ports(n.ports.free + LocalPorts(n.sessions) * n.ports.used, n.ports.used - LocalPorts(n.sessions)), map[],
        map[])
  }

  // ----- The invariant -----

  /** The ports in use are exactly the live sessions' ports, one each; the call index is
      the inverse of the sessions' call field; no port of the range is lost. */
  ghost predicate NodeOK(n: Node, range: set<int>) {
    && n.ports.free !! n.ports.used
    && n.ports.free + n.ports.used == range
    && n.ports.used == LocalPorts(n.sessions)
    && (forall s, t :: s in n.sessions && t in n.sessions && n.sessions[s].localPort == n.sessions[t].localPort ==>
       s == t)
    && (forall s :: s in n.sessions ==> n.sessions[s].rtcpPort == n.sessions[s].localPort + 1)
    && (forall s :: s in n.sessions ==> n.sessions[s].call in n.calls && n.calls[n.sessions[s].call] == s)
    && (forall c :: c in n.calls ==> n.calls[c] in n.sessions && n.sessions[n.calls[c]].call == c)
  }

  lemma ReleaseUndoesAllocate(p: Ports, port: int)
    requires p.free !! p.used && port in p.free
    ensures Released(Allocated(p, port), port) == p
  {
    assert p.free - {port} + {port} == p.free && p.used + {port} - {port} == p.used;
  }

  lemma AddPort(m: map<SessionId, Session>, id: SessionId, s: Session)
    requires id !in m
    ensures LocalPorts(m[id := s]) == LocalPorts(m) + {s.localPort}
  {
    var m' := m[id := s];
    forall p ensures p in LocalPorts(m') <==> p in LocalPorts(m) + {s.localPort} {
      if p == s.localPort {
        assert m'[id].localPort == p;
      } else if p in LocalPorts(m) {
        var t :| t in m && m[t].localPort == p;
        assert m'[t].localPort == p;
      }
    }
  }

  lemma AddSession(n: Node, range: set<int>, call: CallId, s: Session, id: SessionId)
    requires NodeOK(n, range) && id !in n.sessions && call !in n.calls
    requires s.localPort in n.ports.free && s.rtcpPort == s.localPort + 1 && s.call == call
    ensures NodeOK(Node(Allocated(n.ports, s.localPort), n.sessions[id := s], n.calls[call := id]), range)
  {
    AddPort(n.sessions, id, s);
    assert forall t :: t in n.sessions ==> n.sessions[t].localPort in LocalPorts(n.sessions);
  }

  lemma CreateKeepsNodeOK(n: Node, range: set<int>, call: CallId, remote: Option<Remote>, codecs: seq<string>,
                          port: int, id: SessionId)
    requires NodeOK(n, range) && id !in n.sessions && (n.ports.free != {} ==> port in n.ports.free)
    ensures NodeOK(Create(n, call, remote, codecs, port, id).0, range)
    ensures var (n', r) := Create(n, call, remote, codecs, port, id);
            if r.Fresh? then |n'.sessions| == |n.sessions| + 1 else n' == n
  {
    var (n', r) := Create(n, call, remote, codecs, port, id);
    if r.NoCodec? {
      ReleaseUndoesAllocate(n.ports, port);
    } else if r.Fresh? {
      AddSession(n, range, call, n'.sessions[id], id);
    }
  }

  lemma DestroyKeepsNodeOK(n: Node, range: set<int>, id: SessionId)
    requires NodeOK(n, range)
    ensures NodeOK(Destroy(n, id).0, range)
  {
    if id in n.sessions {
      var n' := Destroy(n, id).0;
      var port := n.sessions[id].localPort;
      assert port in LocalPorts(n.sessions);
      assert LocalPorts(n'.sessions) == LocalPorts(n.sessions) - {port} by {
        forall p ensures p in LocalPorts(n'.sessions) <==> p in LocalPorts(n.sessions) - {port} {
          if p in LocalPorts(n.sessions) && p != port {
            var s :| s in n.sessions && n.sessions[s].localPort == p;
            assert s in n'.sessions && n'.sessions[s].localPort == p;
          }
        }
      }
    }
  }

  lemma TouchKeepsNodeOK(n: Node, range: set<int>, id: SessionId, s: Session)
    requires NodeOK(n, range) && id in n.sessions
    requires s.call == n.sessions[id].call && s.localPort == n.sessions[id].localPort
             && s.rtcpPort == n.sessions[id].rtcpPort
    ensures NodeOK(n.(sessions := n.sessions[id := s]), range)
  {
    var m := n.sessions[id := s];
    assert LocalPorts(m) == LocalPorts(n.sessions) by {
      forall p ensures p in LocalPorts(m) <==> p in LocalPorts(n.sessions) {
        if p in LocalPorts(n.sessions) {
          var t :| t in n.sessions && n.sessions[t].localPort == p;
          assert t in m && m[t].localPort == p;
        }
        if p in LocalPorts(m) {
          var t :| t in m && m[t].localPort == p;
          assert t in n.sessions && n.sessions[t].localPort == p;
        }
      }
    }
  }

  lemma CloseAllKeepsNodeOK(n: Node, range: set<int>)
    requires NodeOK(n, range)
    ensures NodeOK(CloseAll(n), range) && CloseAll(n).ports == Ports(range, {})
  {
  }

  // ----- Conservation over runs -----

  datatype Op =
    | OpCreate(call: CallId, remote: Option<Remote>, codecs: seq<string>, port: int, id: SessionId)
    | OpDestroy(id: SessionId)
    | OpSetRemote(id: SessionId, far: Remote)
    | OpMarkBridged(id: SessionId)
    | OpCloseAll

  /** Identifiers are generated fresh, and the pool hands out a free port if it has one. */
  predicate Possible(n: Node, op: Op) {
    op.OpCreate? ==> op.id !in n.sessions && (n.ports.free != {} ==> op.port in n.ports.free)
  }

  function Perform(n: Node, op: Op): Node {
    match op
    case OpCreate(call, remote, codecs, port, id) => Create(n, call, remote, codecs, port, id).0
    case OpDestroy(id) => Destroy(n, id).0
    case OpSetRemote(id, far) => SetRemote(n, id, far).0
    case OpMarkBridged(id) => MarkBridged(n, id).0
    case OpCloseAll => CloseAll(n)
  }

  predicate Feasible(n: Node, ops: seq<Op>)
    decreases |ops|
  {
    ops == [] || (Possible(n, ops[0]) && Feasible(Perform(n, ops[0]), ops[1..]))
  }

  function After(n: Node, ops: seq<Op>): Node
    decreases |ops|
  {
    if ops == [] then n else After(Perform(n, ops[0]), ops[1..])
  }

  function EmptyNode(lo: int, hi: int): Node {
    Node(Ports(RtpPorts(lo, hi), {}), map[], map[])
  }

  lemma OpKeepsNodeOK(n: Node, range: set<int>, op: Op)
    requires NodeOK(n, range) && Possible(n, op)
    ensures NodeOK(Perform(n, op), range)
  {
    match op
    case OpCreate(call, remote, codecs, port, id) => CreateKeepsNodeOK(n, range, call, remote, codecs, port, id);
    case OpDestroy(id) => DestroyKeepsNodeOK(n, range, id);
    case OpSetRemote(id, far) =>
      if id in n.sessions {
        TouchKeepsNodeOK(n, range, id, SetRemote(n, id, far).0.sessions[id]);
      }
    case OpMarkBridged(id) =>
      if id in n.sessions {
        TouchKeepsNodeOK(n, range, id, MarkBridged(n, id).0.sessions[id]);
      }
    case OpCloseAll => CloseAllKeepsNodeOK(n, range);
  }

  lemma {:induction false} RunKeepsNodeOK(n: Node, range: set<int>, ops: seq<Op>)
    requires NodeOK(n, range) && Feasible(n, ops)
    ensures NodeOK(After(n, ops), range)
    decreases |ops|
  {
    if ops != [] {
      OpKeepsNodeOK(n, range, ops[0]);
      RunKeepsNodeOK(Perform(n, ops[0]), range, ops[1..]);
    }
  }

  lemma {:induction false} DistinctPortsCount(m: map<SessionId, Session>)
    requires forall s, t :: s in m && t in m && m[s].localPort == m[t].localPort ==> s == t
    ensures |LocalPorts(m)| == |m|
    decreases |m|
  {
    if m == map[] {
      assert LocalPorts(m) == {};
    } else {
      var id :| id in m;
      var rest := m - {id};
      assert m.Keys == rest.Keys + {id};
      assert m == rest[id := m[id]];
      AddPort(rest, id, m[id]);
      DistinctPortsCount(rest);
    }
  }

  lemma PairsAreDisjoint(n: Node, lo: int, hi: int)
    requires NodeOK(n, RtpPorts(lo, hi))
    ensures forall s, t :: s in n.sessions && t in n.sessions && s != t ==>
              {n.sessions[s].localPort, n.sessions[s].rtcpPort} !! {n.sessions[t].localPort, n.sessions[t].rtcpPort}
  {
    forall s | s in n.sessions ensures n.sessions[s].localPort % 2 == 0 {
      assert n.sessions[s].localPort in LocalPorts(n.sessions);
      assert n.sessions[s].localPort in RtpPorts(lo, hi);
    }
    forall s, t | s in n.sessions && t in n.sessions && s != t
      ensures {n.sessions[s].localPort, n.sessions[s].rtcpPort} !! {n.sessions[t].localPort, n.sessions[t].rtcpPort}
    {
      var p, q := n.sessions[s].localPort, n.sessions[t].localPort;
      assert p != q && p + 1 != q && q + 1 != p;
    }
  }

  /** In every reachable state the used ports are the live sessions' ports, sessions and free
      ports together make up the pool's size, and all RTP and RTCP ports in use are different. */
  lemma NodeConservesPorts(lo: int, hi: int, ops: seq<Op>)
    requires Feasible(EmptyNode(lo, hi), ops)
    ensures var n := After(EmptyNode(lo, hi), ops);
            && NodeOK(n, RtpPorts(lo, hi))
            && |n.sessions| + |n.ports.free| == (if EvenFrom(lo) < hi then (hi - EvenFrom(lo) + 1) / 2 else 0)
            && |n.calls| == |n.sessions|
            && forall s, t :: s in n.sessions && t in n.sessions && s != t ==>
                 {n.sessions[s].localPort, n.sessions[s].rtcpPort} !! {n.sessions[t].localPort, n.sessions[t].rtcpPort}
  {
    var range := RtpPorts(lo, hi);
    RunKeepsNodeOK(EmptyNode(lo, hi), range, ops);
    var n := After(EmptyNode(lo, hi), ops);
    DistinctPortsCount(n.sessions);
    assert |n.ports.free| + |n.ports.used| == |range| by {
      assert |n.ports.free + n.ports.used| == |n.ports.free| + |n.ports.used|;
    }
    RtpPortCount(lo, hi);
    CallsMatchSessions(n);
    PairsAreDisjoint(n, lo, hi);
  }

  lemma {:induction false} InverseMapsSameSize<K, L>(f: map<K, L>, g: map<L, K>)
    requires forall k :: k in f ==> f[k] in g && g[f[k]] == k
    requires forall l :: l in g ==> g[l] in f && f[g[l]] == l
    ensures |f| == |g|
    decreases |f|
  {
    if f == map[] {
      assert g.Keys == {};
    } else {
      var k :| k in f;
      var f', g' := f - {k}, g - {f[k]};
      assert f.Keys == f'.Keys + {k} && g.Keys == g'.Keys + {f[k]};
      InverseMapsSameSize(f', g');
    }
  }

  lemma CallsMatchSessions(n: Node)
    requires forall s :: s in n.sessions ==> n.sessions[s].call in n.calls && n.calls[n.sessions[s].call] == s
    requires forall c :: c in n.calls ==> n.calls[c] in n.sessions && n.sessions[n.calls[c]].call == c
    ensures |n.calls| == |n.sessions|
  {
    var byId := map s | s in n.sessions :: n.sessions[s].call;
    assert byId.Keys == n.sessions.Keys;
    InverseMapsSameSize(byId, n.calls);
  }

  // ----- The session manager -----

  class Manager {
    var sessions: map<SessionId, Session>
    var callToSession: map<CallId, SessionId>
    const portPool: PortPool

    ghost function View(): Node
      reads this, portPool
    {
      Node(portPool.View(), sessions, callToSession)
    }

    constructor (pool: PortPool)
      ensures portPool == pool && View() == Node(pool.View(), map[], map[])
    {
      sessions, callToSession, portPool := map[], map[], pool;
    }

    /** Both `CreateSession` and, without a remote, `CreateSessionPendingRemote`; `id` is the
        identifier a generated session will get. */
    method CreateSession(callID: CallId, remote: Option<Remote>, offered: seq<string>, id: SessionId)
      returns (reply: Reply, ghost port: int)
      requires id !in sessions
      modifies this, portPool
      ensures (View(), reply) == Create(old(View()), callID, remote, offered, port, id)
      ensures reply.Fresh? || reply.NoCodec? ==> port in old(portPool.available)
      ensures var known := callID in old(callToSession) && old(callToSession)[callID] in old(sessions);
              && (known ==> reply == Existing(old(callToSession)[callID]))
              && (!known ==> reply == if old(portPool.available) == {} then NoPorts
                                      else if "0" !in offered then NoCodec
                                      else Fresh(id))
      ensures reply.Fresh? ==>
                && callToSession == old(callToSession)[callID := id] && sessions == old(sessions)[id := sessions[id]]
                && sessions[id].call == callID && sessions[id].localPort in old(portPool.available)
                && sessions[id].rtcpPort == sessions[id].localPort + 1 && sessions[id].codec == "0"
                && sessions[id].remote == (if remote.Some? then remote.value else Remote("", 0))
                && sessions[id].phase == (if remote.Some? then JustMade else PendingRemote)
      ensures !reply.Fresh? ==> sessions == old(sessions) && callToSession == old(callToSession)
    {
      port := 0;
      if callID in callToSession && callToSession[callID] in sessions {
        return Existing(callToSession[callID]), port;
      }
      var pair := portPool.Allocate();
      if pair.None? {
        return NoPorts, port;
      }
      port := pair.value.0;
      var selected := "";
      var i := 0;
      while i < |offered| && selected == ""
        invariant 0 <= i <= |offered|
        invariant selected == "" || selected == PCMU
        invariant selected == "" <==> PCMU !in offered[..i]
      {
        if offered[i] == PCMU {
          selected := PCMU;
        }
        i := i + 1;
      }
      assert selected != "" ==> PCMU in offered;
      if selected == "" {
        assert offered[..i] == offered;
        portPool.Release(pair.value.0);
        return NoCodec, port;
      }
      var far := if remote.Some? then remote.value else NO_REMOTE;
      var phase := if remote.Some? then JustMade else PendingRemote;
      sessions := sessions[id := Session(callID, pair.value.0, pair.value.1, far, selected, phase)];
      callToSession := callToSession[callID := id];
      reply := Fresh(id);
    }

    method DestroySession(id: SessionId) returns (ok: bool)
      modifies this, portPool
      ensures (View(), ok) == Destroy(old(View()), id)
      ensures ok <==> id in old(sessions)
      ensures sessions == old(sessions) - {id}
      ensures ok ==> callToSession == old(callToSession) - {old(sessions)[id].call}
      ensures ok && old(sessions)[id].localPort in old(portPool.inUse) ==>
                old(sessions)[id].localPort in portPool.available
    {
      if id !in sessions {
        assert sessions - {id} == sessions;
        return false;
      }
      var sess := sessions[id];
      portPool.Release(sess.localPort);
      sessions := sessions - {id};
      callToSession := callToSession - {sess.call};
      ok := true;
    }

    method UpdateRemoteEndpoint(id: SessionId, far: Remote) returns (ok: bool)
      modifies this
      ensures (View(), ok) == SetRemote(old(View()), id, far)
      ensures ok <==> id in old(sessions)
      ensures sessions.Keys == old(sessions).Keys && callToSession == old(callToSession)
      ensures forall t :: t in sessions && t != id ==> sessions[t] == old(sessions)[t]
      ensures ok ==> && sessions[id].remote == far
                     && sessions[id].phase == (if old(sessions)[id].phase == PendingRemote then InUse
                                               else old(sessions)[id].phase)
                     && sessions[id].call == old(sessions)[id].call
                     && sessions[id].localPort == old(sessions)[id].localPort
    {
      if id !in sessions {
        return false;
      }
      var sess := sessions[id];
      sess := sess.(remote := far);
      if sess.phase.PendingRemote? {
        sess := sess.(phase := InUse);
      }
      sessions := sessions[id := sess];
      ok := true;
    }

    method SetSessionBridged(id: SessionId) returns (ok: bool)
      modifies this
      ensures (View(), ok) == MarkBridged(old(View()), id)
      ensures ok <==> id in old(sessions)
      ensures sessions == if ok then old(sessions)[id := old(sessions)[id].(phase := Bridged)] else old(sessions)
    {
      if id !in sessions {
        return false;
      }
      sessions := sessions[id := sessions[id].(phase := Bridged)];
      ok := true;
    }

    method DestroyAll()
      modifies this, portPool
      ensures sessions == map[] && callToSession == map[]
      ensures forall id :: id in old(sessions) && old(sessions)[id].localPort in old(portPool.inUse) ==>
                old(sessions)[id].localPort in portPool.available
      ensures View() == CloseAll(old(View()))
    {
      var todo := sessions.Keys;
      ghost var before := portPool.View();
      ghost var gone: set<int> := {};
      while todo != {}
        invariant todo <= sessions.Keys && sessions == old(sessions)
        invariant gone == set id | id in sessions && id !in todo :: sessions[id].localPort
        invariant portPool.View() == Ports(before.free + gone * before.used, before.used - gone)
        decreases |todo|
      {
        var id :| id in todo;
        portPool.Release(sessions[id].localPort);
        todo := todo - {id};
        gone := gone + {sessions[id].localPort};
      }
      assert gone == LocalPorts(sessions);
      sessions, callToSession := map[], map[];
    }
  }
}
