/** The pool and its RTP nodes together.  A remote call is a sequence of steps, with anything else
    in between: the pool's guard, the node's lock regions, and what the pool does with the reply.
    Requests and replies may be lost, and a request may arrive after its caller has given up. */
module Cluster {
  import opened CallStates
  import opened NodeSessions
  import opened MediaPool
  import NodeBridges

  type Endpoint = NodeBridges.Endpoint
  type BridgeId = NodeBridges.BridgeId

  datatype Machine = Machine(node: Node, table: NodeBridges.Table)

  datatype Placement = Anywhere | OnNode(node: NodeId) | NearPeer(peer: SessionId)

  /** A remote call under way, by what happens next. */
  datatype Call =
    | Creating(node: NodeId, call: CallId, remote: Option<Remote>, codecs: seq<string>)
    | Replied(node: NodeId, session: SessionId)
    | Destroying(node: NodeId, session: SessionId, awaited: bool)
    | Untracking(session: SessionId)
    | FindsB(node: NodeId, a: SessionId, b: SessionId)
    | ReadsA(at: Address, a: SessionId, b: SessionId)
    | ReadsB(at: Address, endA: Endpoint, b: SessionId)
    | Joins(at: Address, endA: Endpoint, endB: Endpoint)
    | Marks(at: Address, todo: seq<SessionId>)

  datatype Birth = Birth(at: Address, port: int)

  /** What has happened: where each session was made, which were destroyed there, which the pool has
      ever tracked, and which it tracks although they were gone by then or went unnoticed. */
  datatype History = History(made: map<SessionId, Birth>, gone: set<SessionId>, known: set<SessionId>,
                             dangling: set<SessionId>)

  datatype System = System(pool: PoolState, machines: map<Address, Machine>, calls: map<nat, Call>, past: History)

  datatype Event =
    | BeginCreate(t: nat, where: Placement, call: CallId, remote: Option<Remote>, codecs: seq<string>)
    | NodeCreates(t: nat, port: int, id: SessionId)
    | TrackReply(t: nat)
    | BeginDestroy(t: nat, session: SessionId)
    | NodeDestroys(t: nat)
    | GiveUp(t: nat)
    | UntrackNow(t: nat)
    | BeginBridge(t: nat, a: SessionId, b: SessionId)
    | FindB(t: nat)
    | ReadA(t: nat, ipOk: bool)
    | ReadB(t: nat, ipOk: bool)
    | Join(t: nat, bridge: BridgeId, osA: bool, osB: bool)
    | Mark(t: nat)
    | Lose(t: nat)
    | SetFarEnd(at: Address, session: SessionId, far: Remote)
    | UnbridgeMedia(at: Address, bridge: BridgeId)
    | BeginDrain(node: NodeId)
    | FinishDrain(node: NodeId)
    | StopDrain(node: NodeId)
    | HealthChange(node: NodeId, healthy: bool)

  // ----- Access and update -----

  function AddressOf(p: PoolState, n: NodeId): Address
    requires n in p.members
  {
    p.members[n].address
  }

  /** The machine behind a member, if the member and the machine exist. */
  predicate Reachable(c: System, n: NodeId) {
    n in c.pool.members && AddressOf(c.pool, n) in c.machines
  }

  predicate Live(c: System, s: SessionId, x: Address) {
    x in c.machines && s in c.machines[x].node.sessions
  }

  function WithNode(c: System, x: Address, n: Node): System
    requires x in c.machines
  {
    c.(machines := c.machines[x := c.machines[x].(node := n)])
  }

  function At(c: System, t: nat, k: Call): System {
    c.(calls := c.calls[t := k])
  }

  function Done(c: System, t: nat): System {
    c.(calls := c.calls - {t})
  }

  function Chosen(p: PoolState, w: Placement): Option<NodeId> {
    match w
    case Anywhere => Select(p).1
    case OnNode(n) => if Usable(p, n) then Some(n) else None
    case NearPeer(s) => if MemberFor(p, s).Some? then MemberFor(p, s) else Select(p).1
  }

  /** Selection moves the round-robin counter, whatever becomes of the call. */
  function AfterChoice(p: PoolState, w: Placement): PoolState {
    if w.Anywhere? || (w.NearPeer? && MemberFor(p, w.peer).None?) then Select(p).0 else p
  }

  function EndpointOf(c: System, x: Address, s: SessionId, ipOk: bool): Endpoint
    requires Live(c, s, x)
  {
    var sess := c.machines[x].node.sessions[s];
    NodeBridges.Endpoint(s, sess.localPort, sess.remote, ipOk)
  }

  // ----- Steps -----

  predicate Enabled(c: System, e: Event) {
    match e
    case BeginCreate(t, w, _, _, _) => t !in c.calls && Chosen(c.pool, w).Some?
        && Chosen(c.pool, w).value in c.pool.members
    case NodeCreates(t, _, id) =>
      t in c.calls && c.calls[t].Creating? && Reachable(c, c.calls[t].node) && id !in c.past.made
    case TrackReply(t) => t in c.calls && c.calls[t].Replied?
    case BeginDestroy(t, s) => t !in c.calls && MemberFor(c.pool, s).Some?
    case NodeDestroys(t) => t in c.calls && c.calls[t].Destroying? && Reachable(c, c.calls[t].node)
    case GiveUp(t) => t in c.calls && c.calls[t].Destroying? && c.calls[t].awaited
    case UntrackNow(t) => t in c.calls && c.calls[t].Untracking?
    case BeginBridge(t, a, _) => t !in c.calls && MemberFor(c.pool, a).Some?
    case FindB(t) =>
      && t in c.calls && c.calls[t].FindsB? && c.calls[t].node in c.pool.members
      && var n := MemberFor(c.pool, c.calls[t].b);
         n.Some? && AddressOf(c.pool, n.value) == AddressOf(c.pool, c.calls[t].node)
    case ReadA(t, _) => t in c.calls && c.calls[t].ReadsA? && Live(c, c.calls[t].a, c.calls[t].at)
    case ReadB(t, _) => t in c.calls && c.calls[t].ReadsB? && Live(c, c.calls[t].b, c.calls[t].at)
    case Join(t, _, _, _) => t in c.calls && c.calls[t].Joins? && c.calls[t].at in c.machines
    case Mark(t) => t in c.calls && c.calls[t].Marks? && c.calls[t].todo != [] && c.calls[t].at in c.machines
    case Lose(t) => t in c.calls && !c.calls[t].Untracking? && (c.calls[t].Destroying? ==> !c.calls[t].awaited)
    case SetFarEnd(x, _, _) => x in c.machines
    case UnbridgeMedia(x, _) => x in c.machines
    case BeginDrain(_) => true
    case FinishDrain(_) => true
    case StopDrain(_) => true
    case HealthChange(n, _) => n in c.pool.members
  }

  function CreateAtNode(c: System, t: nat, port: int, id: SessionId): System
    requires Enabled(c, NodeCreates(t, port, id))
  {
    var k := c.calls[t];
    var x := AddressOf(c.pool, k.node);
    var (node, reply) := Create(c.machines[x].node, k.call, k.remote, k.codecs, port, id);
    var c' := WithNode(c, x, node);
    match reply
    case Existing(s) => At(c', t, Replied(k.node, s))
    case Fresh(s) => At(c', t, Replied(k.node, s)).(past := c.past.(made := c.past.made[s := Birth(x, port)]))
    case NoPorts => Done(c', t)
    case NoCodec => Done(c', t)
  }

  function TrackAtPool(c: System, t: nat): System
    requires Enabled(c, TrackReply(t))
  {
    var k := c.calls[t];
    var late := if k.session in c.past.gone then {k.session} else {};
    Done(c, t).(pool := c.pool.(affinity := Track(c.pool.affinity, k.session, k.node)),
                past := c.past.(known := c.past.known + {k.session}, dangling := c.past.dangling + late))
  }

  /** The node forgets the session if it has it; a caller that still waits goes on to untrack it. */
  function DestroyAtNode(c: System, t: nat): System
    requires Enabled(c, NodeDestroys(t))
  {
    var k := c.calls[t];
    var x := AddressOf(c.pool, k.node);
    var c' := WithNode(c, x, Destroy(c.machines[x].node, k.session).0);
    var gone := c.past.gone + if Live(c, k.session, x) then {k.session} else {};
    if k.awaited then At(c', t, Untracking(k.session)).(past := c.past.(gone := gone))
    else
      var unnoticed := if k.session in gone && k.session in c.pool.affinity.nodeOf then {k.session} else {};
      Done(c', t).(past := c.past.(gone := gone, dangling := c.past.dangling + unnoticed))
  }

  function Untracked(c: System, s: SessionId): System {
    c.(pool := c.pool.(affinity := Untrack(c.pool.affinity, s)),
       past := c.past.(dangling := c.past.dangling - {s}))
  }

  function JoinOutcome(c: System, e: Event): (NodeBridges.Table, NodeBridges.Outcome)
    requires e.Join? && Enabled(c, e)
  {
    var k := c.calls[e.t];
    NodeBridges.CreateBridge(c.machines[k.at].table, k.endA, k.endB, e.bridge, e.osA, e.osB)
  }

  function JoinAtNode(c: System, e: Event): System
    requires e.Join? && Enabled(c, e)
  {
    var k := c.calls[e.t];
    var (table, r) := JoinOutcome(c, e);
    if r.Rejected? then Done(c, e.t)
    else At(c.(machines := c.machines[k.at := c.machines[k.at].(table := table)]), e.t,
            Marks(k.at, [k.endA.session, k.endB.session]))
  }

  function Apply(c: System, e: Event): System
    requires Enabled(c, e)
  {
    match e
    case BeginCreate(t, w, call, remote, codecs) =>
      At(c, t, Creating(Chosen(c.pool, w).value, call, remote, codecs)).(pool := AfterChoice(c.pool, w))
    case NodeCreates(t, port, id) => CreateAtNode(c, t, port, id)
    case TrackReply(t) => TrackAtPool(c, t)
    case BeginDestroy(t, s) => At(c, t, Destroying(MemberFor(c.pool, s).value, s, true))
    case NodeDestroys(t) => DestroyAtNode(c, t)
    case GiveUp(t) => Untracked(At(c, t, c.calls[t].(awaited := false)), c.calls[t].session)
    case UntrackNow(t) => Untracked(Done(c, t), c.calls[t].session)
    case BeginBridge(t, a, b) => At(c, t, FindsB(MemberFor(c.pool, a).value, a, b))
    case FindB(t) => At(c, t, ReadsA(AddressOf(c.pool, c.calls[t].node), c.calls[t].a, c.calls[t].b))
    case ReadA(t, ip) =>
      At(c, t, ReadsB(c.calls[t].at, EndpointOf(c, c.calls[t].at, c.calls[t].a, ip), c.calls[t].b))
    case ReadB(t, ip) =>
      At(c, t, Joins(c.calls[t].at, c.calls[t].endA, EndpointOf(c, c.calls[t].at, c.calls[t].b, ip)))
    case Join(_, _, _, _) => JoinAtNode(c, e)
    case Mark(t) =>
      var k := c.calls[t];
      At(WithNode(c, k.at, MarkBridged(c.machines[k.at].node, k.todo[0]).0), t, Marks(k.at, k.todo[1..]))
    case Lose(t) => Done(c, t)
    case SetFarEnd(x, s, far) => WithNode(c, x, SetRemote(c.machines[x].node, s, far).0)
    case UnbridgeMedia(x, b) =>
      c.(machines := c.machines[x := c.machines[x].(table := NodeBridges.DestroyBridge(c.machines[x].table, b).0)])
    case BeginDrain(n) => c.(pool := StartDrain(c.pool, n).0)
    case FinishDrain(n) => c.(pool := CompleteDrain(c.pool, n).0)
    case StopDrain(n) => c.(pool := CancelDrain(c.pool, n).0)
    case HealthChange(n, h) => c.(pool := c.pool.(members := c.pool.members[n := c.pool.members[n].(healthy := h)]))
  }

  predicate Feasible(c: System, es: seq<Event>)
    decreases |es|
  {
    es == [] || (Enabled(c, es[0]) && Feasible(Apply(c, es[0]), es[1..]))
  }

  /** Where the run leads, as far as it can go. */
  function After(c: System, es: seq<Event>): System
    decreases |es|
  {
    if es == [] || !Enabled(c, es[0]) then c else After(Apply(c, es[0]), es[1..])
  }
}
