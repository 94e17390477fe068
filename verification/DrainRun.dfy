/** A drain of one node: the coordinator's run, its migration jobs, and all the pool traffic
    that goes on meanwhile.

    A session is created in two steps: a guard picks the node and the remote call goes out, and
    later the reply is tracked.  Between the two the creation is in flight. */
module DrainRun {
  import opened CallStates
  import opened MediaPool

  const MAX_CONCURRENT_MIGRATIONS: nat := 5

  datatype Result = Migrated | Skipped | Errored

  datatype Stage =
    | Waiting
    | Running
    | Returned(result: Result)
    | Counted(result: Result)
    | Done(result: Result)
    | Unacquired

  datatype Job = Job(session: SessionId, stage: Stage)

  /** The session of an error that concerns the whole run. */
  const NO_SESSION: SessionId := ""

  datatype Status = Status(total: nat, migrated: nat, failed: nat, errors: seq<SessionId>)

  /** `clean` records whether no creation was in flight on the node when it was found empty, and
      `untargeted` whether the run was given up because no other node could take the sessions. */
  datatype Run =
    | NoRun
    | Started(node: NodeId)
    | Migrating(node: NodeId, target: NodeId)
    | FoundEmpty(node: NodeId, clean: bool)
    | Over(node: NodeId, untargeted: bool)

  /** `slots` counts the semaphore's holders.  `dirty` is history: the nodes that were disabled
      although a creation was in flight on them when they were found empty. */
  datatype System = System(pool: PoolState, inFlight: map<nat, NodeId>, run: Run, jobs: seq<Job>, slots: nat,
                           status: Status, dirty: set<NodeId>)

  datatype Place = Anywhere | OnTarget | NearPeer(peer: SessionId)

  datatype Event =
    | Begin(ticket: nat, place: Place)
    | Commit(ticket: nat, session: SessionId)
    | Abort(ticket: nat)
    | Destroy(session: SessionId)
    | HealthChange(node: NodeId, healthy: bool)
    | StartRun(node: NodeId, sessions: seq<SessionId>)
    | PickTarget(target: NodeId)
    | NoTarget
    | Acquire(job: nat)
    | AcquireFails(job: nat)
    | Return(job: nat, result: Result)
    | Count(job: nat)
    | Release(job: nat)
    | Check
    | Complete
    | Cancel(node: NodeId)

  // ----- Steps -----

  predicate Empty(c: System, n: NodeId) {
    SessionsOn(c.pool.affinity, n) == {} && forall t :: t in c.inFlight ==> c.inFlight[t] != n
  }

  function NodeFor(c: System, p: Place): Option<NodeId> {
    match p
    case Anywhere => Select(c.pool).1
    case OnTarget => if c.run.Migrating? && Usable(c.pool, c.run.target) then Some(c.run.target) else None
    case NearPeer(s) => if MemberFor(c.pool, s).Some? then MemberFor(c.pool, s) else Select(c.pool).1
  }

  function PoolAfter(c: System, p: Place): PoolState {
    if p.Anywhere? || (p.NearPeer? && MemberFor(c.pool, p.peer).None?) then Select(c.pool).0 else c.pool
  }

  predicate Settled(j: Job) {
    j.stage.Done? || j.stage.Unacquired?
  }

  predicate Healthy(c: System, n: NodeId) {
    n in c.pool.members && c.pool.members[n].healthy && c.pool.members[n].drain.Active?
  }

  predicate JobAt(c: System, i: nat) {
    c.run.Migrating? && i < |c.jobs|
  }

  predicate Enabled(c: System, e: Event) {
    match e
    case Begin(t, p) => t !in c.inFlight && NodeFor(c, p).Some?
    case Commit(t, s) =>
      t in c.inFlight && (s in c.pool.affinity.nodeOf ==> c.pool.affinity.nodeOf[s] == c.inFlight[t])
    case Abort(t) => t in c.inFlight
    case Destroy(_) => true
    case HealthChange(n, _) => n in c.pool.members
    case StartRun(n, ss) =>
      && (c.run.NoRun? || c.run.Over?)
      && n in c.pool.members && c.pool.members[n].drain.Active?
      && (set s | s in ss) == SessionsOn(c.pool.affinity, n)
      && |ss| == |SessionsOn(c.pool.affinity, n)|
    case PickTarget(t) => c.run.Started? && t != c.run.node && Healthy(c, t)
    case NoTarget => c.run.Started? && forall t :: t in c.pool.members && t != c.run.node ==> !Healthy(c, t)
    case Acquire(i) => JobAt(c, i) && c.jobs[i].stage.Waiting? && c.slots < MAX_CONCURRENT_MIGRATIONS
    case AcquireFails(i) => JobAt(c, i) && c.jobs[i].stage.Waiting?
    case Return(i, r) =>   // a migration that succeeds has destroyed the session it was asked to move
      && JobAt(c, i) && c.jobs[i].stage.Running?
      && (r.Migrated? ==> c.jobs[i].session !in c.pool.affinity.nodeOf)
    case Count(i) => JobAt(c, i) && c.jobs[i].stage.Returned?
    case Release(i) => JobAt(c, i) && c.jobs[i].stage.Counted? && c.slots > 0
    case Check => c.run.Migrating? && forall i :: 0 <= i < |c.jobs| ==> Settled(c.jobs[i])
    case Complete => c.run.FoundEmpty?
    case Cancel(n) => n in c.pool.members && !c.pool.members[n].drain.Active?
  }

  function WithStage(c: System, i: nat, s: Stage): System
    requires i < |c.jobs|
  {
    c.(jobs := c.jobs[i := c.jobs[i].(stage := s)])
  }

  function Counting(st: Status, j: Job, r: Result): Status {
    match r
    case Migrated => st.(migrated := st.migrated + 1)
    case Skipped => st
    case Errored => st.(failed := st.failed + 1, errors := st.errors + [j.session])
  }

  function FreshJobs(ss: seq<SessionId>): seq<Job> {
    seq(|ss|, i requires 0 <= i < |ss| => Job(ss[i], Waiting))
  }

  function Apply(c: System, e: Event): System
    requires Enabled(c, e)
  {
    match e
    case Begin(t, p) => c.(pool := PoolAfter(c, p), inFlight := c.inFlight[t := NodeFor(c, p).value])
    case Commit(t, s) =>
      c.(pool := c.pool.(affinity := Track(c.pool.affinity, s, c.inFlight[t])), inFlight := c.inFlight - {t})
    case Abort(t) => c.(inFlight := c.inFlight - {t})
    case Destroy(s) => c.(pool := DestroySession(c.pool, s, true).0)
    case HealthChange(n, h) =>
      c.(pool := c.pool.(members := c.pool.members[n := c.pool.members[n].(healthy := h)]))
    case StartRun(n, ss) =>
      c.(pool := StartDrain(c.pool, n).0, jobs := FreshJobs(ss), slots := 0, status := Status(|ss|, 0, 0, []),
         run := if ss == [] then FoundEmpty(n, Empty(c, n)) else Started(n))
    case PickTarget(t) => c.(run := Migrating(c.run.node, t))
    case NoTarget => c.(pool := CancelDrain(c.pool, c.run.node).0, run := Over(c.run.node, true),
                        status := c.status.(errors := c.status.errors + [NO_SESSION]),
                        dirty := c.dirty - {c.run.node})
    case Acquire(i) => WithStage(c, i, Running).(slots := c.slots + 1)
    case AcquireFails(i) => WithStage(c, i, Unacquired)
    case Return(i, r) => WithStage(c, i, Returned(r))
    case Count(i) =>
      var r := c.jobs[i].stage.result;
      WithStage(c, i, Counted(r)).(status := Counting(c.status, c.jobs[i], r))
    case Release(i) => WithStage(c, i, Done(c.jobs[i].stage.result)).(slots := c.slots - 1)
    case Check =>
      var n := c.run.node;
      c.(run := if SessionsOn(c.pool.affinity, n) == {} then FoundEmpty(n, Empty(c, n)) else Over(n, false))
    case Complete =>
      var n := c.run.node;
      var (p, ok) := CompleteDrain(c.pool, n);
      c.(pool := p, run := Over(n, false), dirty := if ok && !c.run.clean then c.dirty + {n} else c.dirty)
    case Cancel(n) => c.(pool := CancelDrain(c.pool, n).0, dirty := c.dirty - {n})
  }

  predicate Feasible(c: System, es: seq<Event>)
    decreases |es|
  {
    es == [] || (Enabled(c, es[0]) && Feasible(Apply(c, es[0]), es[1..]))
  }

  function After(c: System, es: seq<Event>): System
    requires Feasible(c, es)
    decreases |es|
  {
    if es == [] then c else After(Apply(c, es[0]), es[1..])
  }

  predicate Initial(c: System) {
    && c.pool.affinity == NO_AFFINITY
    && (forall n :: n in c.pool.members ==> c.pool.members[n].drain.Active?)
    && c == System(c.pool, map[], NoRun, [], 0, Status(0, 0, 0, []), {})
  }

  // ----- The guards are the pool's -----

  /** Picking a node and tracking the reply is what the pool's creating operations do. */
  lemma CreationIsThePools(c: System, p: Place, s: SessionId)
    requires p.OnTarget? ==> c.run.Migrating?
    ensures var created := match p
                           case Anywhere => CreateAnywhere(c.pool, Some(s))
                           case OnTarget => CreateOnNode(c.pool, c.run.target, Some(s))
                           case NearPeer(peer) => CreateNearPeer(c.pool, peer, Some(s));
            if NodeFor(c, p).Some?
            then created == (PoolAfter(c, p).(affinity := Track(c.pool.affinity, s, NodeFor(c, p).value)), Some(s))
            else created == (PoolAfter(c, p), None)
  {
  }

  predicate IsFirstTarget(order: seq<NodeId>, members: map<NodeId, Member>, exclude: NodeId, t: NodeId, i: nat) {
    && i < |order| && order[i] == t
    && forall k :: 0 <= k < i && order[k] in members ==>
         order[k] == exclude || !members[order[k]].healthy || members[order[k]].drain != Active
  }

  /** The target of a drain: the first member, in order, that is another node, healthy and Active. */
  method FindTargetNode(order: seq<NodeId>, members: map<NodeId, Member>, exclude: NodeId) returns (t: Option<NodeId>)
    requires forall n :: n in order ==> n in members
    ensures t.Some? ==> && t.value in order && t.value != exclude
                        && members[t.value].healthy && members[t.value].drain == Active
    ensures t.None? ==> forall n :: n in order && n != exclude ==> !(members[n].healthy && members[n].drain == Active)
    ensures t.Some? ==> exists i: nat :: IsFirstTarget(order, members, exclude, t.value, i)
  {
    var i := 0;
    while i < |order|
      invariant 0 <= i <= |order|
      invariant forall k :: 0 <= k < i ==>
                  order[k] == exclude || !members[order[k]].healthy || members[order[k]].drain != Active
    {
      if order[i] != exclude && members[order[i]].healthy && members[order[i]].drain.Active? {
        assert IsFirstTarget(order, members, exclude, order[i], i);
        return Some(order[i]);
      }
      i := i + 1;
    }
    t := None;
  }

  /** The run goes on exactly with such a node, and is given up exactly if there is none. */
  lemma TargetIsAnotherActiveNode(c: System, t: NodeId)
    requires c.run.Started?
    ensures Enabled(c, PickTarget(t)) <==>
              t in c.pool.members && t != c.run.node && c.pool.members[t].healthy && c.pool.members[t].drain == Active
    ensures Enabled(c, NoTarget) <==> forall n :: !Enabled(c, PickTarget(n))
  {
    if forall n :: !Enabled(c, PickTarget(n)) {
      forall n | n in c.pool.members && n != c.run.node ensures !Healthy(c, n) {
        assert !Enabled(c, PickTarget(n));
      }
    }
  }

  /** What the other steps do to the pool and to the run. */
  lemma StepsAreTheRuns(c: System, e: Event)
    requires Enabled(c, e) && Mirror(c.pool.affinity)
    ensures e.Destroy? ==>
              Apply(c, e).pool.affinity.nodeOf
              == if MemberFor(c.pool, e.session).Some? then c.pool.affinity.nodeOf - {e.session}
                 else c.pool.affinity.nodeOf
    ensures e.HealthChange? ==>
              Apply(c, e).pool.members == c.pool.members[e.node := c.pool.members[e.node].(healthy := e.healthy)]
    ensures e.Cancel? ==> DrainOf(Apply(c, e), e.node, Active)
    ensures e.StartRun? ==> DrainOf(Apply(c, e), e.node, Draining) && Apply(c, e).status.total == |e.sessions|
    ensures e.Check? ==> Apply(c, e).run == if forall s :: s in c.pool.affinity.nodeOf ==>
                                                 c.pool.affinity.nodeOf[s] != c.run.node
                                            then FoundEmpty(c.run.node, Empty(c, c.run.node))
                                            else Over(c.run.node, false)
    ensures e.Complete? && DrainOf(c, c.run.node, Draining) ==> DrainOf(Apply(c, e), c.run.node, Disabled)
    ensures e.PickTarget? ==> Apply(c, e).run == Migrating(c.run.node, e.target)
  {
    if e.Check? {
      var n := c.run.node;
      if SessionsOn(c.pool.affinity, n) != {} {
        var s :| s in SessionsOn(c.pool.affinity, n);
        assert s in c.pool.affinity.nodeOf && c.pool.affinity.nodeOf[s] == n;
      }
    }
  }

  // ----- A drain that moves everything finds the node empty -----

  predicate IsMigrated(j: Job) {
    (j.stage.Returned? || j.stage.Counted? || j.stage.Done?) && j.stage.result.Migrated?
  }

  /** The sessions still to be moved. */
  function Remaining(jobs: seq<Job>): set<SessionId> {
    set j | j in jobs && !IsMigrated(j) :: j.session
  }

  /** The event tracks a session on the node, or starts another run. */
  predicate Disturbs(c: System, e: Event, n: NodeId) {
    (e.Commit? && e.ticket in c.inFlight && c.inFlight[e.ticket] == n) || e.StartRun?
  }

  predicate Undisturbed(c: System, es: seq<Event>, n: NodeId)
    requires Feasible(c, es)
    decreases |es|
  {
    es == [] || (!Disturbs(c, es[0], n) && Undisturbed(Apply(c, es[0]), es[1..], n))
  }

  lemma JobsStepKeepsRemaining(jobs: seq<Job>, i: nat, j: Job)
    requires i < |jobs| && j.session == jobs[i].session
    ensures forall s :: s in Remaining(jobs) && (IsMigrated(j) && !IsMigrated(jobs[i]) ==> s != j.session) ==>
              s in Remaining(jobs[i := j])
  {
    forall s | s in Remaining(jobs) && (IsMigrated(j) && !IsMigrated(jobs[i]) ==> s != j.session)
      ensures s in Remaining(jobs[i := j])
    {
      var k :| 0 <= k < |jobs| && jobs[k].session == s && !IsMigrated(jobs[k]);
      var jobs' := jobs[i := j];
      assert jobs'[k] in jobs' && jobs'[k].session == s;
      if k == i {
        assert jobs'[i] == j && !IsMigrated(j);
      }
    }
  }

  lemma UndisturbedStep(c: System, e: Event, n: NodeId)
    requires Mirror(c.pool.affinity) && Enabled(c, e) && !Disturbs(c, e, n)
    requires SessionsOn(c.pool.affinity, n) <= Remaining(c.jobs)
    ensures SessionsOn(Apply(c, e).pool.affinity, n) <= Remaining(Apply(c, e).jobs)
  {
    var c' := Apply(c, e);
    if e.Acquire? || e.AcquireFails? || e.Return? || e.Count? || e.Release? {
      JobsStepKeepsRemaining(c.jobs, e.job, c'.jobs[e.job]);
      assert forall s :: s in SessionsOn(c.pool.affinity, n) ==> s in c.pool.affinity.nodeOf;
    } else if e.Destroy? {
      UntrackKeepsMirror(c.pool.affinity, e.session);
    } else {
      assert SessionsOn(c'.pool.affinity, n) == SessionsOn(c.pool.affinity, n) by {
        if e.Begin? {
          SelectedIsActive(c.pool);
        }
      }
    }
  }

  lemma {:induction false} UndisturbedRun(c: System, es: seq<Event>, n: NodeId)
    requires DrainInv(c) && Feasible(c, es) && Undisturbed(c, es, n)
    requires SessionsOn(c.pool.affinity, n) <= Remaining(c.jobs)
    ensures SessionsOn(After(c, es).pool.affinity, n) <= Remaining(After(c, es).jobs)
    decreases |es|
  {
    if es != [] {
      UndisturbedStep(c, es[0], n);
      EventKeepsDrainInv(c, es[0]);
      UndisturbedRun(Apply(c, es[0]), es[1..], n);
    }
  }

  /** A drain is started on a node, and until it comes to its final look nothing else is tracked there.
      If every session that was there has been migrated, the node is found empty; if not, the sessions
      left are among those that were not. */
  lemma FullDrainFindsNodeEmpty(c: System, n: NodeId, ss: seq<SessionId>, es: seq<Event>)
    requires DrainInv(c) && Enabled(c, StartRun(n, ss)) && Feasible(Apply(c, StartRun(n, ss)), es)
    requires Undisturbed(Apply(c, StartRun(n, ss)), es, n)
    requires Enabled(After(Apply(c, StartRun(n, ss)), es), Check) && After(Apply(c, StartRun(n, ss)), es).run.node == n
    ensures var d := After(Apply(c, StartRun(n, ss)), es);
            && SessionsOn(d.pool.affinity, n) <= Remaining(d.jobs)
            && ((forall j :: j in d.jobs ==> IsMigrated(j)) ==> Apply(d, Check).run.FoundEmpty?)
  {
    var b := Apply(c, StartRun(n, ss));
    EventKeepsDrainInv(c, StartRun(n, ss));
    assert SessionsOn(b.pool.affinity, n) <= Remaining(b.jobs) by {
      forall s | s in SessionsOn(b.pool.affinity, n) ensures s in Remaining(b.jobs) {
        assert s in (set x | x in ss);
        var k :| 0 <= k < |ss| && ss[k] == s;
        assert b.jobs[k] == Job(s, Waiting) && b.jobs[k] in b.jobs;
      }
    }
    UndisturbedRun(b, es, n);
  }

  // ----- A disabled node is empty -----

  predicate DrainOf(c: System, n: NodeId, d: DrainState) {
    n in c.pool.members && c.pool.members[n].drain == d
  }

  /** Nodes that no creation can reach any more. */
  predicate Sealed(c: System, n: NodeId) {
    || (DrainOf(c, n, Disabled) && n !in c.dirty)
    || (c.run == FoundEmpty(n, true) && DrainOf(c, n, Draining))
  }

  ghost predicate DrainInv(c: System) {
    && Mirror(c.pool.affinity)
    && (forall n :: Sealed(c, n) ==> Empty(c, n))
    && (c.run.Migrating? ==> c.run.target != c.run.node)
    && (forall n :: n in c.dirty ==> DrainOf(c, n, Disabled))
  }

  lemma SelectedIsActive(p: PoolState)
    ensures Select(p).1.Some? ==> Select(p).1.value in p.members && p.members[Select(p).1.value].drain.Active?
    ensures Select(p).0.members == p.members && Select(p).0.affinity == p.affinity
  {
    var ids := Available(p.order, p.members);
    if ids != [] {
      var k := (p.next + 1) % TWO64;
      assert ids[k % |ids|] in ids;
    }
  }

  /** A creation never begins on a sealed node: it is neither active nor a target, and has no
      session for a peer to follow. */
  lemma BeginAvoidsSealed(c: System, p: Place)
    requires DrainInv(c) && NodeFor(c, p).Some?
    ensures !Sealed(c, NodeFor(c, p).value)
    ensures PoolAfter(c, p).members == c.pool.members && PoolAfter(c, p).affinity == c.pool.affinity
  {
    SelectedIsActive(c.pool);
    if p.NearPeer? && MemberFor(c.pool, p.peer).Some? {
      assert p.peer in SessionsOn(c.pool.affinity, c.pool.affinity.nodeOf[p.peer]);
    }
  }

  lemma PoolEventKeepsDrainInv(c: System, e: Event)
    requires DrainInv(c) && Enabled(c, e)
    requires e.Begin? || e.Commit? || e.Abort? || e.Destroy? || e.HealthChange?
    ensures DrainInv(Apply(c, e))
  {
    var c' := Apply(c, e);
    match e {
      case Begin(t, p) =>
        BeginAvoidsSealed(c, p);
      case Commit(t, s) =>
        TrackKeepsMirrorIff(c.pool.affinity, s, c.inFlight[t]);
      case Abort(t) =>
      case Destroy(s) =>
        UntrackKeepsMirror(c.pool.affinity, s);
      case HealthChange(n, h) =>
    }
    forall n | Sealed(c', n) ensures Empty(c', n) {
      assert Sealed(c, n);
      assert Empty(c, n);
    }
  }

  lemma RunEventKeepsDrainInv(c: System, e: Event)
    requires DrainInv(c) && Enabled(c, e)
    requires !e.Begin? && !e.Commit? && !e.Abort? && !e.Destroy? && !e.HealthChange?
    ensures DrainInv(Apply(c, e))
  {
    var c' := Apply(c, e);
    assert forall n :: Empty(c', n) <==> Empty(c, n);
    forall n | Sealed(c', n) ensures Empty(c', n) {
      if !Sealed(c, n) {
        assert e.StartRun? || e.Check? || e.Complete?;
      }
    }
  }

  lemma EventKeepsDrainInv(c: System, e: Event)
    requires DrainInv(c) && Enabled(c, e)
    ensures DrainInv(Apply(c, e))
  {
    if e.Begin? || e.Commit? || e.Abort? || e.Destroy? || e.HealthChange? {
      PoolEventKeepsDrainInv(c, e);
    } else {
      RunEventKeepsDrainInv(c, e);
    }
  }

  lemma {:induction false} RunKeepsDrainInv(c: System, es: seq<Event>)
    requires DrainInv(c) && Feasible(c, es)
    ensures DrainInv(After(c, es))
    decreases |es|
  {
    if es != [] {
      EventKeepsDrainInv(c, es[0]);
      RunKeepsDrainInv(Apply(c, es[0]), es[1..]);
    }
  }

  /** In every interleaving, a disabled node tracks no session and has no creation in flight,
      unless one was in flight on it when the run found it empty. */
  lemma DisabledNodeIsEmpty(c: System, es: seq<Event>, n: NodeId)
    requires Initial(c) && Feasible(c, es)
    requires DrainOf(After(c, es), n, Disabled) && n !in After(c, es).dirty
    ensures Empty(After(c, es), n) && n !in After(c, es).pool.affinity.on
  {
    RunKeepsDrainInv(c, es);
    assert Sealed(After(c, es), n);
  }

  /** A schedule in which every creation runs to its end before anything else happens. */
  predicate Atomic(es: seq<Event>) {
    forall i :: 0 <= i < |es| && es[i].Begin? ==>
      i + 1 < |es| && (es[i + 1].Commit? || es[i + 1].Abort?) && es[i + 1].ticket == es[i].ticket
  }

  lemma {:induction false} AtomicRunsStayClean(c: System, es: seq<Event>)
    requires Feasible(c, es) && Atomic(es) && c.dirty == {}
    requires c.inFlight == map[] && (c.run.FoundEmpty? ==> c.run.clean)
    ensures After(c, es).dirty == {} && After(c, es).inFlight == map[]
    decreases |es|
  {
    if es != [] {
      var e, d := es[0], Apply(c, es[0]);
      var rest := es[1..];
      assert forall i :: 0 <= i < |rest| ==> rest[i] == es[i + 1];
      if e.Begin? {
        var d2 := Apply(d, rest[0]);
        assert d2.inFlight == map[];
        assert forall i :: 0 <= i < |rest[1..]| ==> rest[1..][i] == es[i + 2];
        AtomicRunsStayClean(d2, rest[1..]);
      } else {
        AtomicRunsStayClean(d, rest);
      }
    }
  }

  /** With atomic pool operations, a disabled node tracks no session, in every reachable state. */
  lemma DisabledNodeIsEmptyWhenAtomic(c: System, es: seq<Event>, n: NodeId)
    requires Initial(c) && Feasible(c, es) && Atomic(es) && DrainOf(After(c, es), n, Disabled)
    ensures SessionsOn(After(c, es).pool.affinity, n) == {}
  {
    AtomicRunsStayClean(c, es);
    DisabledNodeIsEmpty(c, es, n);
  }

  /** From any state in which the run has found a draining node empty while a creation is in flight
      on it, the run can disable the node and the creation then lands on it. */
  lemma LateCreationLandsOnDisabledNode(c: System, n: NodeId, t: nat, s: SessionId)
    requires c.run.FoundEmpty? && c.run.node == n && DrainOf(c, n, Draining)
    requires t in c.inFlight && c.inFlight[t] == n && s !in c.pool.affinity.nodeOf
    ensures Feasible(c, [Complete, Commit(t, s)])
    ensures var d := After(c, [Complete, Commit(t, s)]);
            DrainOf(d, n, Disabled) && s in SessionsOn(d.pool.affinity, n)
  {
    var es := [Complete, Commit(t, s)];
    var d1 := Apply(c, Complete);
    var d2 := Apply(d1, Commit(t, s));
    assert es[1..] == [Commit(t, s)] && es[1..][1..] == [];
    assert Feasible(d2, []) && After(d2, []) == d2;
    assert Feasible(d1, es[1..]) && After(d1, es[1..]) == d2;
  }

  /** Such a state is reached: a creation goes out, the node is drained while it tracks nothing, is
      disabled, and then the reply is tracked. */
  lemma DisabledNodeReceivesSession(pool: PoolState, n: NodeId, t: nat, s: SessionId) returns (es: seq<Event>)
    requires pool.affinity == NO_AFFINITY && forall m :: m in pool.members ==> pool.members[m].drain.Active?
    requires Select(pool).1 == Some(n)
    ensures var c := System(pool, map[], NoRun, [], 0, Status(0, 0, 0, []), {});
            && Initial(c) && Feasible(c, es)
            && DrainOf(After(c, es), n, Disabled) && s in SessionsOn(After(c, es).pool.affinity, n)
  {
    var c := System(pool, map[], NoRun, [], 0, Status(0, 0, 0, []), {});
    var begin, start := Begin(t, Anywhere), StartRun(n, []);
    SelectedIsActive(pool);
    assert Enabled(c, begin);
    var c1 := Apply(c, begin);
    assert (set x | x in []) == SessionsOn(c1.pool.affinity, n);
    assert Enabled(c1, start);
    var c2 := Apply(c1, start);
    var tail := [Complete, Commit(t, s)];
    LateCreationLandsOnDisabledNode(c2, n, t, s);
    es := [begin, start] + tail;
    assert es[1..] == [start] + tail && es[1..][1..] == tail;
    assert Feasible(c1, es[1..]) && After(c1, es[1..]) == After(c2, tail);
  }
}
