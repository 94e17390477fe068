/** The media-bridge table of one RTP node and the sockets it holds. */
module NodeBridges {
  import opened CallStates
  import opened NodeSessions

  type BridgeId = string

  /** `ipOk` says whether the remote address parses as an IP address. */
  datatype Endpoint = Endpoint(session: SessionId, localPort: int, remote: Remote, ipOk: bool)

  datatype Bridge = Bridge(a: Endpoint, b: Endpoint)

  /** `bound` maps each UDP port on which one of the table's sockets listens to the bridge that
      owns the socket. */
  datatype Table = Table(bridges: map<BridgeId, Bridge>, bySession: map<SessionId, BridgeId>, bound: map<int, BridgeId>)

  datatype Outcome = Joined(id: BridgeId) | Rejected

  predicate HasRemote(e: Endpoint) {
    e.remote.addr != "" && e.remote.port != 0
  }

  /** Listening on a port succeeds only if no socket of this table listens there already; `os`
      is the operating system's word on everything else. */
  predicate CanBind(port: int, bound: map<int, BridgeId>, os: bool) {
    os && port !in bound
  }

  function CreateBridge(t: Table, a: Endpoint, b: Endpoint, id: BridgeId, osA: bool, osB: bool): (Table, Outcome) {
    if a.session in t.bySession || b.session in t.bySession then (t, Rejected)
    else if !HasRemote(a) || !HasRemote(b) then (t, Rejected)
    else if !a.ipOk || !b.ipOk then (t, Rejected)
    else if !CanBind(a.localPort, t.bound, osA) then (t, Rejected)
    else if !CanBind(b.localPort, t.bound[a.localPort := id], osB) then (t, Rejected)
    else
      (Table(t.bridges[id := Bridge(a, b)], t.bySession[a.session := id][b.session := id],
             t.bound[a.localPort := id][b.localPort := id]), Joined(id))
  }

  function Removed(t: Table, id: BridgeId): Table
    requires id in t.bridges
  {
    var br := t.bridges[id];
    Table(t.bridges - {id}, t.bySession - {br.a.session, br.b.session}, t.bound - {br.a.localPort, br.b.localPort})
  }

  function DestroyBridge(t: Table, id: BridgeId): (Table, bool) {
    if id !in t.bridges then (t, false) else (Removed(t, id), true)
  }

  function DestroyBySession(t: Table, s: SessionId): (Table, Option<BridgeId>) {
    if s !in t.bySession then (t, None)
    else if t.bySession[s] !in t.bridges then (t, Some(t.bySession[s]))
    else (Removed(t, t.bySession[s]), Some(t.bySession[s]))
  }

  /** Neither session is in a bridge and neither port is bound. */
  predicate NoTraceOf(br: Bridge, t: Table) {
    && br.a.session !in t.bySession && br.b.session !in t.bySession
    && br.a.localPort !in t.bound && br.b.localPort !in t.bound
  }

  /** Unbridging by session takes the session's bridge apart and no other. */
  lemma UnbridgedBySession(t: Table, s: SessionId)
    requires TableOK(t)
    ensures var (t', id) := DestroyBySession(t, s);
            && s !in t'.bySession && TableOK(t')
            && (id.None? <==> s !in t.bySession)
            && (id.None? ==> t' == t)
            && (id.Some? ==>
                  && id.value in t.bridges && EndsOf(t.bridges[id.value], s)
                  && t'.bridges == t.bridges - {id.value} && NoTraceOf(t.bridges[id.value], t'))
  {
    if s in t.bySession {
      RemoveKeepsTableOK(t, t.bySession[s]);
    }
  }

  const EMPTY: Table := Table(map[], map[], map[])

  // ----- The invariant -----

  predicate EndsOf(br: Bridge, s: SessionId) {
    s == br.a.session || s == br.b.session
  }

  predicate PortOf(br: Bridge, p: int) {
    p == br.a.localPort || p == br.b.localPort
  }

  /** The bridge joins two different sessions on two different ports, both indexed to it. */
  predicate BridgeOK(t: Table, i: BridgeId)
    requires i in t.bridges
  {
    var br := t.bridges[i];
    && br.a.session != br.b.session
    && br.a.session in t.bySession && t.bySession[br.a.session] == i
    && br.b.session in t.bySession && t.bySession[br.b.session] == i
    && br.a.localPort != br.b.localPort
    && br.a.localPort in t.bound && t.bound[br.a.localPort] == i
    && br.b.localPort in t.bound && t.bound[br.b.localPort] == i
  }

  /** Sessions and bound ports are indexed to exactly the bridges they are the ends of. */
  ghost predicate TableOK(t: Table) {
    && (forall i :: i in t.bridges ==> BridgeOK(t, i))
    && (forall s :: s in t.bySession ==> t.bySession[s] in t.bridges && EndsOf(t.bridges[t.bySession[s]], s))
    && (forall p :: p in t.bound ==> t.bound[p] in t.bridges && PortOf(t.bridges[t.bound[p]], p))
  }

  lemma InsertKeepsTableOK(t: Table, a: Endpoint, b: Endpoint, id: BridgeId)
    requires TableOK(t) && id !in t.bridges
    requires a.session != b.session && a.session !in t.bySession && b.session !in t.bySession
    requires a.localPort != b.localPort && a.localPort !in t.bound && b.localPort !in t.bound
    ensures TableOK(Table(t.bridges[id := Bridge(a, b)], t.bySession[a.session := id][b.session := id],
                          t.bound[a.localPort := id][b.localPort := id]))
  {
    var t' := Table(t.bridges[id := Bridge(a, b)], t.bySession[a.session := id][b.session := id],
                    t.bound[a.localPort := id][b.localPort := id]);
    forall i | i in t'.bridges ensures BridgeOK(t', i) {
      assert i != id ==> BridgeOK(t, i);
    }
  }

  /** A rejected bridge leaves maps and sockets as they were; an accepted one joins two
      different sessions that were in no bridge. */
  lemma CreateKeepsTableOK(t: Table, a: Endpoint, b: Endpoint, id: BridgeId, osA: bool, osB: bool)
    requires TableOK(t) && id !in t.bridges
    requires a.session == b.session ==> a.localPort == b.localPort
    ensures var (t', r) := CreateBridge(t, a, b, id, osA, osB);
            && TableOK(t')
            && (r.Rejected? ==> t' == t)
            && (r.Joined? ==> && a.session != b.session
                              && |t'.bridges| == |t.bridges| + 1
                              && t'.bySession.Keys == t.bySession.Keys + {a.session, b.session})
  {
    if CreateBridge(t, a, b, id, osA, osB).1.Joined? {
      InsertKeepsTableOK(t, a, b, id);
    }
  }

  lemma RemoveKeepsTableOK(t: Table, id: BridgeId)
    requires TableOK(t) && id in t.bridges
    ensures TableOK(Removed(t, id))
  {
    var t' := Removed(t, id);
    assert BridgeOK(t, id);
    forall i | i in t'.bridges ensures BridgeOK(t', i) {
      assert BridgeOK(t, i);
    }
    assert forall s :: s in t'.bySession ==> t.bySession[s] != id;
    assert forall p :: p in t'.bound ==> t.bound[p] != id;
  }

  lemma PairCount<K, V>(m: map<K, V>, x: K, y: K)
    requires x in m && y in m && x != y
    ensures |m - {x, y}| + 2 == |m|
  {
    assert m.Keys == (m - {x, y}).Keys + {x, y};
    assert |{x, y}| == 2;
  }

  lemma RemoveCounts(t: Table, id: BridgeId)
    requires id in t.bridges && BridgeOK(t, id)
    ensures var t' := Removed(t, id);
            |t.bridges| == |t'.bridges| + 1 && |t.bySession| == |t'.bySession| + 2 && |t.bound| == |t'.bound| + 2
  {
    var br := t.bridges[id];
    assert t.bridges.Keys == (t.bridges - {id}).Keys + {id};
    PairCount(t.bySession, br.a.session, br.b.session);
    PairCount(t.bound, br.a.localPort, br.b.localPort);
  }

  /** The session index and the socket table hold two entries for every bridge. */
  lemma {:induction false} TwoSessionsPerBridge(t: Table)
    requires TableOK(t)
    ensures |t.bySession| == 2 * |t.bridges| == |t.bound|
    decreases |t.bridges|
  {
    if t.bridges.Keys == {} {
      assert forall s :: s !in t.bySession;
      assert forall p :: p !in t.bound;
      assert t.bySession == map[] && t.bound == map[];
    } else {
      var id :| id in t.bridges.Keys;
      RemoveCounts(t, id);
      RemoveKeepsTableOK(t, id);
      TwoSessionsPerBridge(Removed(t, id));
    }
  }

  /** A session can be bridged with itself by no choice of ports or outcomes. */
  lemma SelfBridgeIsRejected(t: Table, e: Endpoint, id: BridgeId, osA: bool, osB: bool)
    ensures CreateBridge(t, e, e, id, osA, osB) == (t, Rejected)
  {
  }

  // ----- Runs -----

  datatype Op =
    | OpCreate(a: Endpoint, b: Endpoint, id: BridgeId, osA: bool, osB: bool)
    | OpDestroy(bridge: BridgeId)
    | OpDestroyBySession(session: SessionId)

  /** Bridge identifiers are generated fresh, and a session has one local port. */
  predicate Possible(t: Table, op: Op) {
    op.OpCreate? ==> op.id !in t.bridges && (op.a.session == op.b.session ==> op.a.localPort == op.b.localPort)
  }

  function Perform(t: Table, op: Op): Table {
    match op
    case OpCreate(a, b, id, osA, osB) => CreateBridge(t, a, b, id, osA, osB).0
    case OpDestroy(id) => DestroyBridge(t, id).0
    case OpDestroyBySession(s) => DestroyBySession(t, s).0
  }

  predicate Feasible(t: Table, ops: seq<Op>)
    decreases |ops|
  {
    ops == [] || (Possible(t, ops[0]) && Feasible(Perform(t, ops[0]), ops[1..]))
  }

  function After(t: Table, ops: seq<Op>): Table
    decreases |ops|
  {
    if ops == [] then t else After(Perform(t, ops[0]), ops[1..])
  }

  lemma {:induction false} RunKeepsTableOK(t: Table, ops: seq<Op>)
    requires TableOK(t) && Feasible(t, ops)
    ensures TableOK(After(t, ops))
    decreases |ops|
  {
    if ops != [] {
      match ops[0] {
        case OpCreate(a, b, id, osA, osB) => CreateKeepsTableOK(t, a, b, id, osA, osB);
        case OpDestroy(id) =>
          if id in t.bridges {
            RemoveKeepsTableOK(t, id);
          }
        case OpDestroyBySession(s) =>
          if s in t.bySession {
            RemoveKeepsTableOK(t, t.bySession[s]);
          }
      }
      RunKeepsTableOK(Perform(t, ops[0]), ops[1..]);
    }
  }

  /** In every reachable table each session is in at most one bridge, and sessions, bridges and
      bound sockets match two to one. */
  lemma TableConservesSockets(ops: seq<Op>)
    requires Feasible(EMPTY, ops)
    ensures var t := After(EMPTY, ops);
            && TableOK(t)
            && |t.bySession| == 2 * |t.bridges| == |t.bound|
            && (forall i, j, s :: i in t.bridges && j in t.bridges && EndsOf(t.bridges[i], s) && EndsOf(t.bridges[j], s)
                  ==> i == j)
  {
    RunKeepsTableOK(EMPTY, ops);
    var t := After(EMPTY, ops);
    TwoSessionsPerBridge(t);
    assert forall i :: i in t.bridges ==> BridgeOK(t, i);
  }

  // ----- The bridge manager -----

  class Manager {
    var bridges: map<BridgeId, Bridge>
    var sessionMap: map<SessionId, BridgeId>
    var bound: map<int, BridgeId>

    ghost function View(): Table
      reads this
    {
      Table(bridges, sessionMap, bound)
    }

    constructor ()
      ensures View() == EMPTY
    {
      bridges, sessionMap, bound := map[], map[], map[];
    }

    /** Binds both sockets or neither. */
    method BindSockets(a: Endpoint, b: Endpoint, id: BridgeId, osA: bool, osB: bool) returns (ok: bool)
      modifies this`bound
      ensures ok <==> && a.ipOk && b.ipOk
                      && CanBind(a.localPort, old(bound), osA)
                      && CanBind(b.localPort, old(bound)[a.localPort := id], osB)
      ensures bound == if ok then old(bound)[a.localPort := id][b.localPort := id] else old(bound)
    {
      if !a.ipOk || !b.ipOk {
        return false;
      }
      if !CanBind(a.localPort, bound, osA) {
        return false;
      }
      bound := bound[a.localPort := id];
      if !CanBind(b.localPort, bound, osB) {
        bound := bound - {a.localPort};
        assert bound == old(bound);
        return false;
      }
      bound := bound[b.localPort := id];
      ok := true;
    }

    method Create(a: Endpoint, b: Endpoint, id: BridgeId, osA: bool, osB: bool) returns (r: Outcome)
      modifies this
      ensures (View(), r) == CreateBridge(old(View()), a, b, id, osA, osB)
      ensures r == if && a.session !in old(sessionMap) && b.session !in old(sessionMap)
                      && a.remote.addr != "" && a.remote.port != 0 && b.remote.addr != "" && b.remote.port != 0
                      && a.ipOk && b.ipOk && osA && osB
                      && a.localPort !in old(bound) && b.localPort !in old(bound) && a.localPort != b.localPort
                   then Joined(id) else Rejected
      ensures r.Joined? ==> && id in bridges && bridges[id].a == a && bridges[id].b == b
                            && a.session in sessionMap && b.session in sessionMap && sessionMap[b.session] == id
                            && a.localPort in bound && b.localPort in bound
      ensures r.Rejected? ==> View() == old(View())
    {
      if a.session in sessionMap || b.session in sessionMap {
        return Rejected;
      }
      if !HasRemote(a) || !HasRemote(b) {
        return Rejected;
      }
      var ok := BindSockets(a, b, id, osA, osB);
      if !ok {
        return Rejected;
      }
      bridges := bridges[id := Bridge(a, b)];
      sessionMap := sessionMap[a.session := id];
      sessionMap := sessionMap[b.session := id];
      r := Joined(id);
    }

    method DestroyLocked(id: BridgeId)
      requires id in bridges
      modifies this
      ensures View() == Removed(old(View()), id)
    {
      var br := bridges[id];
      bound := bound - {br.a.localPort};
      bound := bound - {br.b.localPort};
      sessionMap := sessionMap - {br.a.session};
      sessionMap := sessionMap - {br.b.session};
      bridges := bridges - {id};
    }

    method Destroy(id: BridgeId) returns (ok: bool)
      modifies this
      ensures (View(), ok) == DestroyBridge(old(View()), id)
      ensures ok <==> id in old(bridges)
      ensures id !in bridges
      ensures ok ==> NoTraceOf(old(bridges)[id], View())
    {
      if id !in bridges {
        return false;
      }
      DestroyLocked(id);
      ok := true;
    }

    method DestroyForSession(s: SessionId) returns (id: Option<BridgeId>)
      modifies this
      ensures (View(), id) == DestroyBySession(old(View()), s)
      ensures id == if s in old(sessionMap) then Some(old(sessionMap)[s]) else None
      ensures TableOK(old(View())) ==> s !in sessionMap
      ensures id.Some? && id.value in old(bridges) ==> id.value !in bridges && NoTraceOf(old(bridges)[id.value], View())
    {
      if s !in sessionMap {
        return None;
      }
      id := Some(sessionMap[s]);
      if sessionMap[s] in bridges {
        DestroyLocked(sessionMap[s]);
      }
    }

    method CloseAll()
      requires TableOK(View())
      modifies this
      ensures View() == EMPTY
    {
      while bridges != map[]
        invariant TableOK(View())
        decreases |bridges|
      {
        var id :| id in bridges;
        RemoveKeepsTableOK(View(), id);
        RemoveCounts(View(), id);
        DestroyLocked(id);
      }
      TwoSessionsPerBridge(View());
    }
  }
}
