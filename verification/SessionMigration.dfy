/** Moving the media of one call to another RTP node: create, re-INVITE, and commit or roll back. */
module SessionMigration {
  import opened CallStates
  import opened MediaPool

  /** `live` falls when the dialog is terminated. */
  datatype Dialog = Dialog(session: SessionId, outbound: bool, confirmed: bool, hasMedia: bool, live: bool)

  datatype State = State(pool: PoolState, dialogs: map<CallId, Dialog>)

  datatype Invite = Accepts | Rejects | Fails

  /** Everything the outside world decides in one migration: the sessions the target creates, the
      answers to the re-INVITEs, and whether the target joins the new sessions. */
  datatype World = World(newA: Option<SessionId>, newB: Option<SessionId>, inviteA: Invite, inviteB: Invite,
                         bridges: bool)

  datatype Outcome =
    | Migrated
    | SkippedBLeg
    | NoDialog
    | NotConfirmed
    | NoMedia
    | CreateFailed
    | InviteFailed
    | RebridgeFailed

  // ----- What the migrator computes -----

  function Answer(d: Dialog, i: Invite): Invite {
    if d.confirmed && d.live then i else Fails
  }

  function Forget(p: PoolState, s: SessionId): PoolState {
    DestroySession(p, s, true).0
  }

  /** A live dialog ends, and its termination callback destroys the session it carries. */
  function Terminate(st: State, call: CallId): State {
    if call in st.dialogs && st.dialogs[call].live then
      State(Forget(st.pool, st.dialogs[call].session), st.dialogs[call := st.dialogs[call].(live := false)])
    else st
  }

  function TerminateBoth(st: State, a: CallId, b: CallId): State {
    Terminate(Terminate(st, a), b)
  }

  function MigrateIvr(st: State, a: CallId, target: NodeId, aggressive: bool, o: World): (State, Outcome)
    requires a in st.dialogs
  {
    var d := st.dialogs[a];
    if !d.hasMedia then (st, NoMedia)
    else
      var (p1, made) := CreateOnNode(st.pool, target, o.newA);
      if made.None? then (st.(pool := p1), CreateFailed)
      else
        match Answer(d, o.inviteA)
        case Fails => (st.(pool := Forget(p1, made.value)), InviteFailed)
        case Rejects =>
          var rolled := st.(pool := Forget(p1, made.value));
          (if aggressive then Terminate(rolled, a) else rolled, InviteFailed)
        case Accepts =>
          (State(Forget(p1, d.session), st.dialogs[a := d.(session := made.value)]), Migrated)
  }

  function MigrateBridged(st: State, a: CallId, b: CallId, target: NodeId, aggressive: bool, o: World): (State, Outcome)
    requires a in st.dialogs && b in st.dialogs
  {
    var da, db := st.dialogs[a], st.dialogs[b];
    if !da.hasMedia || !db.hasMedia then (st, NoMedia)
    else
      var (p1, madeA) := CreateOnNode(st.pool, target, o.newA);
      if madeA.None? then (st.(pool := p1), CreateFailed)
      else
        var (p2, madeB) := CreateOnNode(p1, target, o.newB);
        if madeB.None? then (st.(pool := Forget(p2, madeA.value)), CreateFailed)
        else if !Answer(da, o.inviteA).Accepts? || !Answer(db, o.inviteB).Accepts? then
          var rolled := st.(pool := Forget(Forget(p2, madeA.value), madeB.value));
          (if aggressive then TerminateBoth(rolled, a, b) else rolled, InviteFailed)
        else
          var p3 := Forget(Forget(p2, da.session), db.session);
          var ds1 := st.dialogs[a := st.dialogs[a].(session := madeA.value)];
          var ds2 := ds1[b := ds1[b].(session := madeB.value)];
          if BridgeTarget(p3, madeA.value, madeB.value).Some? && o.bridges then (State(p3, ds2), Migrated)
          else (if aggressive then TerminateBoth(State(p3, ds2), a, b) else State(p3, ds2), RebridgeFailed)
  }

  /** `found` is the dialog that carries the session, if there is one. */
  function Migrate(st: State, bLegs: map<CallId, CallId>, found: Option<CallId>, target: NodeId, aggressive: bool,
                   o: World)
    : (State, Outcome)
  {
    if found.None? || found.value !in st.dialogs then (st, NoDialog)
    else
      var a := found.value;
      if st.dialogs[a].outbound then (st, SkippedBLeg)
      else if !st.dialogs[a].confirmed then (st, NotConfirmed)
      else if a in bLegs && bLegs[a] in st.dialogs then MigrateBridged(st, a, bLegs[a], target, aggressive, o)
      else MigrateIvr(st, a, target, aggressive, o)
  }

  // ----- Assumptions about the pool and the identifiers -----

  /** The indexes mirror each other and name only members. */
  ghost predicate PoolOK(p: PoolState) {
    Mirror(p.affinity) && forall s :: s in p.affinity.nodeOf ==> p.affinity.nodeOf[s] in p.members
  }

  predicate Unseen(st: State, s: SessionId) {
    s !in st.pool.affinity.nodeOf && forall c :: c in st.dialogs ==> st.dialogs[c].session != s
  }

  /** The target generates identifiers that were never in use. */
  predicate FreshIds(st: State, o: World) {
    && (o.newA.Some? ==> Unseen(st, o.newA.value))
    && (o.newB.Some? ==> Unseen(st, o.newB.value))
    && (o.newA.Some? && o.newB.Some? ==> o.newA != o.newB)
  }

  predicate TrackedOn(p: PoolState, s: SessionId, n: NodeId) {
    s in p.affinity.nodeOf && p.affinity.nodeOf[s] == n
  }

  /** Both dialogs' sessions are tracked, on one node. */
  predicate Together(st: State, a: CallId, b: CallId)
    requires a in st.dialogs && b in st.dialogs
  {
    var s := st.dialogs[a].session;
    s in st.pool.affinity.nodeOf && TrackedOn(st.pool, st.dialogs[b].session, st.pool.affinity.nodeOf[s])
  }

  // ----- Small facts -----

  lemma CreateEffect(p: PoolState, n: NodeId, id: Option<SessionId>)
    requires PoolOK(p) && (id.Some? ==> id.value !in p.affinity.nodeOf)
    ensures var (p', made) := CreateOnNode(p, n, id);
            && PoolOK(p')
            && (made.None? ==> p' == p)
            && (made.Some? ==> && made == id && n in p.members
                               && p' == p.(affinity := Track(p.affinity, id.value, n)))
  {
    if id.Some? {
      TrackKeepsMirrorIff(p.affinity, id.value, n);
    }
  }

  lemma ForgetEffect(p: PoolState, s: SessionId)
    requires PoolOK(p)
    ensures PoolOK(Forget(p, s)) && Forget(p, s) == p.(affinity := Untrack(p.affinity, s))
    ensures Forget(p, s).affinity.nodeOf == p.affinity.nodeOf - {s}
  {
    UntrackKeepsMirror(p.affinity, s);
    if s !in p.affinity.nodeOf {
      assert p.affinity.nodeOf - {s} == p.affinity.nodeOf;
    }
  }

  /** Two pools that differ at most in their affinity are equal when the forward indexes are. */
  lemma SamePool(p: PoolState, q: PoolState)
    requires PoolOK(p) && PoolOK(q) && p.affinity.nodeOf == q.affinity.nodeOf && q == p.(affinity := q.affinity)
    ensures p == q
  {
    SameNodesSameSets(p.affinity, q.affinity);
  }

  lemma TerminateEffect(st: State, call: CallId)
    requires PoolOK(st.pool)
    ensures PoolOK(Terminate(st, call).pool)
    ensures Terminate(st, call).pool.affinity.nodeOf
            == st.pool.affinity.nodeOf - (if call in st.dialogs
                && st.dialogs[call].live then {st.dialogs[call].session} else {})
  {
    if call in st.dialogs && st.dialogs[call].live {
      ForgetEffect(st.pool, st.dialogs[call].session);
    } else {
      assert st.pool.affinity.nodeOf - {} == st.pool.affinity.nodeOf;
    }
  }

  // ----- One leg -----

  /** The member takes sessions of calls that migrate to it. */
  predicate TakesSessions(p: PoolState, n: NodeId) {
    n in p.members && p.members[n].healthy && p.members[n].connected && p.members[n].drain != Disabled
  }

  /** The party hears the re-INVITE and accepts it. */
  predicate Accepted(d: Dialog, i: Invite) {
    d.confirmed && d.live && i == Accepts
  }

  /** What a one-leg migration reports. */
  function IvrReport(st: State, a: CallId, target: NodeId, o: World): Outcome
    requires a in st.dialogs
  {
    if !st.dialogs[a].hasMedia then NoMedia
    else if !TakesSessions(st.pool, target) || o.newA.None? then CreateFailed
    else if Accepted(st.dialogs[a], o.inviteA) then Migrated
    else InviteFailed
  }

  /** What a two-leg migration reports. */
  function BridgedReport(st: State, a: CallId, b: CallId, target: NodeId, o: World): Outcome
    requires a in st.dialogs && b in st.dialogs
  {
    if !st.dialogs[a].hasMedia || !st.dialogs[b].hasMedia then NoMedia
    else if !TakesSessions(st.pool, target) || o.newA.None? || o.newB.None? then CreateFailed
    else if !Accepted(st.dialogs[a], o.inviteA) || !Accepted(st.dialogs[b], o.inviteB) then InviteFailed
    else if o.bridges then Migrated
    else RebridgeFailed
  }

  /** The new session can be created and the caller turns the re-INVITE down. */
  predicate IvrRejected(st: State, a: CallId, target: NodeId, o: World)
    requires a in st.dialogs
  {
    st.dialogs[a].hasMedia && Usable(st.pool, target) && o.newA.Some? && Answer(st.dialogs[a], o.inviteA).Rejects?
  }

  lemma IvrMigration(st: State, a: CallId, target: NodeId, aggressive: bool, o: World)
    requires PoolOK(st.pool) && FreshIds(st, o) && a in st.dialogs
    ensures var (st', r) := MigrateIvr(st, a, target, aggressive, o);
            && PoolOK(st'.pool)
            && r == IvrReport(st, a, target, o)
            && (!r.Migrated? ==> st' == if aggressive && IvrRejected(st, a, target, o) then Terminate(st, a) else st)
            && (r.Migrated? ==>
                  && o.newA.Some?
                  && st'.dialogs == st.dialogs[a := st.dialogs[a].(session := o.newA.value)]
                  && TrackedOn(st'.pool, o.newA.value, target)
                  && st'.pool.affinity.nodeOf
                     == st.pool.affinity.nodeOf[o.newA.value := target] - {st.dialogs[a].session})
  {
    var d := st.dialogs[a];
    var (p1, made) := CreateOnNode(st.pool, target, o.newA);
    CreateEffect(st.pool, target, o.newA);
    if d.hasMedia && made.Some? {
      ForgetEffect(p1, made.value);
      ForgetEffect(p1, d.session);
      assert st.pool.affinity.nodeOf[made.value := target] - {made.value} == st.pool.affinity.nodeOf;
      SamePool(Forget(p1, made.value), st.pool);
      assert st.(pool := Forget(p1, made.value)) == st;
    }
    TerminateEffect(st, a);
  }

  // ----- Two legs -----

  /** The pool with both new sessions created. */
  lemma BothCreated(p: PoolState, target: NodeId, a: SessionId, b: SessionId)
    requires PoolOK(p) && a !in p.affinity.nodeOf && b !in p.affinity.nodeOf && a != b && Usable(p, target)
    ensures var p1 := CreateOnNode(p, target, Some(a)).0;
            var p2 := CreateOnNode(p1, target, Some(b)).0;
            && PoolOK(p1) && PoolOK(p2)
            && p2 == p.(affinity := p2.affinity)
            && p2.affinity.nodeOf == p.affinity.nodeOf[a := target][b := target]
  {
    CreateEffect(p, target, Some(a));
    CreateEffect(CreateOnNode(p, target, Some(a)).0, target, Some(b));
  }

  lemma ForgetBoth(p: PoolState, a: SessionId, b: SessionId)
    requires PoolOK(p)
    ensures var q := Forget(Forget(p, a), b);
            && PoolOK(q)
            && q == p.(affinity := q.affinity)
            && q.affinity.nodeOf == p.affinity.nodeOf - {a, b}
  {
    ForgetEffect(p, a);
    ForgetEffect(Forget(p, a), b);
    assert p.affinity.nodeOf - {a} - {b} == p.affinity.nodeOf - {a, b};
  }

  /** The affinity that a completed two-leg migration leaves. */
  function MovedBoth(m: map<SessionId, NodeId>, oldA: SessionId, oldB: SessionId, newA: SessionId, newB: SessionId,
                     target: NodeId): map<SessionId, NodeId> {
    m[newA := target][newB := target] - {oldA, oldB}
  }

  /** Both sessions can be created and both re-INVITEs are accepted. */
  predicate Commits(st: State, a: CallId, b: CallId, target: NodeId, o: World)
    requires a in st.dialogs && b in st.dialogs
  {
    && st.dialogs[a].hasMedia && st.dialogs[b].hasMedia
    && Usable(st.pool, target) && o.newA.Some? && o.newB.Some?
    && Answer(st.dialogs[a], o.inviteA).Accepts? && Answer(st.dialogs[b], o.inviteB).Accepts?
  }

  lemma ForgetUndoes(p: PoolState, q: PoolState, target: NodeId, a: SessionId, b: SessionId)
    requires PoolOK(p) && PoolOK(q) && q == p.(affinity := q.affinity)
    requires a !in p.affinity.nodeOf && b !in p.affinity.nodeOf
    requires q.affinity.nodeOf == p.affinity.nodeOf[a := target][b := target]
    ensures Forget(Forget(q, a), b) == p
  {
    ForgetBoth(q, a, b);
    assert p.affinity.nodeOf[a := target][b := target] - {a, b} == p.affinity.nodeOf;
    SamePool(p, Forget(Forget(q, a), b));
  }

  lemma ForgetKeepsPair(p: PoolState, n: NodeId, a: SessionId, b: SessionId, x: SessionId, y: SessionId)
    requires PoolOK(p) && TrackedOn(p, a, n) && TrackedOn(p, b, n)
    requires x != a && x != b && y != a && y != b
    ensures BridgeTarget(Forget(Forget(p, x), y), a, b).Some?
  {
    ForgetBoth(p, x, y);
    var q := Forget(Forget(p, x), y);
    assert TrackedOn(q, a, n) && TrackedOn(q, b, n) && n in q.members;
  }

  /** Creating both sessions and then forgetting them changes nothing. */
  lemma UndoneCreations(p: PoolState, target: NodeId, a: SessionId, b: SessionId)
    requires PoolOK(p) && a !in p.affinity.nodeOf && b !in p.affinity.nodeOf && a != b && Usable(p, target)
    ensures var p2 := CreateOnNode(CreateOnNode(p, target, Some(a)).0, target, Some(b)).0;
            Forget(Forget(p2, a), b) == p
  {
    BothCreated(p, target, a, b);
    ForgetUndoes(p, CreateOnNode(CreateOnNode(p, target, Some(a)).0, target, Some(b)).0, target, a, b);
  }

  /** Creating both sessions and forgetting the old ones moves the call, and the target can be
      asked to join the new ones. */
  lemma CommittedPool(p: PoolState, target: NodeId, a: SessionId, b: SessionId, oldA: SessionId, oldB: SessionId)
    requires PoolOK(p) && a !in p.affinity.nodeOf && b !in p.affinity.nodeOf && a != b && Usable(p, target)
    requires oldA != a && oldA != b && oldB != a && oldB != b
    ensures var p2 := CreateOnNode(CreateOnNode(p, target, Some(a)).0, target, Some(b)).0;
            var p3 := Forget(Forget(p2, oldA), oldB);
            && PoolOK(p3)
            && p3.affinity.nodeOf == MovedBoth(p.affinity.nodeOf, oldA, oldB, a, b, target)
            && BridgeTarget(p3, a, b).Some?
  {
    BothCreated(p, target, a, b);
    var p2 := CreateOnNode(CreateOnNode(p, target, Some(a)).0, target, Some(b)).0;
    ForgetBoth(p2, oldA, oldB);
    ForgetKeepsPair(p2, target, a, b, oldA, oldB);
  }

  lemma BridgedRollsBack(st: State, a: CallId, b: CallId, target: NodeId, aggressive: bool, o: World)
    requires PoolOK(st.pool) && FreshIds(st, o) && a in st.dialogs && b in st.dialogs
    requires !Commits(st, a, b, target, o)
    ensures var (st', r) := MigrateBridged(st, a, b, target, aggressive, o);
            && !r.Migrated? && !r.RebridgeFailed? && r == BridgedReport(st, a, b, target, o)
            && st' == if aggressive && r.InviteFailed? then TerminateBoth(st, a, b) else st
  {
    if Usable(st.pool, target) && o.newA.Some? {
      if o.newB.Some? {
        UndoneCreations(st.pool, target, o.newA.value, o.newB.value);
      } else {
        CreateEffect(st.pool, target, o.newA);
        UntrackUndoesTrackIff(st.pool.affinity, o.newA.value, target);
      }
    }
  }

  /** The state in which a two-leg migration has committed, but for the index of sessions by node. */
  predicate IsMoved(st: State, a: CallId, b: CallId, target: NodeId, o: World, moved: State)
    requires a in st.dialogs && b in st.dialogs && o.newA.Some? && o.newB.Some?
  {
    && moved.pool.affinity.nodeOf == MovedBoth(st.pool.affinity.nodeOf, st.dialogs[a].session,
                                               st.dialogs[b].session, o.newA.value, o.newB.value, target)
    && moved.dialogs == st.dialogs[a := st.dialogs[a].(session := o.newA.value)]
                                  [b := st.dialogs[b].(session := o.newB.value)]
  }

  lemma BridgedCommits(st: State, a: CallId, b: CallId, target: NodeId, aggressive: bool, o: World)
      returns (moved: State)
    requires PoolOK(st.pool) && FreshIds(st, o) && a in st.dialogs && b in st.dialogs && a != b
    requires Commits(st, a, b, target, o)
    ensures PoolOK(moved.pool) && IsMoved(st, a, b, target, o, moved)
    ensures var (st', r) := MigrateBridged(st, a, b, target, aggressive, o);
            && r == (if o.bridges then Migrated else RebridgeFailed) && r == BridgedReport(st, a, b, target, o)
            && st' == if aggressive && !o.bridges then TerminateBoth(moved, a, b) else moved
  {
    CommittedPool(st.pool, target, o.newA.value, o.newB.value, st.dialogs[a].session, st.dialogs[b].session);
    moved := MigrateBridged(st, a, b, target, false, o).0;
  }

  // ----- Results -----

  /** What a migration that is refused or fails does to the call in aggressive mode. */
  function Ended(st: State, bLegs: map<CallId, CallId>, a: CallId): State {
    if a in bLegs && bLegs[a] in st.dialogs then TerminateBoth(st, a, bLegs[a]) else Terminate(st, a)
  }

  /** Every outcome but success and a failed re-bridge leaves dialogs and both indexes of the pool
      exactly as they were, in graceful mode; in aggressive mode it does the same, or leaves exactly
      what hanging up the call without any migration would have left, the latter only after a
      re-INVITE that was not accepted. */
  lemma RollbackIsExact(st: State, bLegs: map<CallId, CallId>, found: Option<CallId>, target: NodeId,
                        aggressive: bool, o: World)
    requires PoolOK(st.pool) && FreshIds(st, o) && (forall c :: c in bLegs ==> bLegs[c] != c)
    ensures var (st', r) := Migrate(st, bLegs, found, target, aggressive, o);
            !r.Migrated? && !r.RebridgeFailed? ==>
              st' == st || (aggressive && r.InviteFailed? && found.Some? && st' == Ended(st, bLegs, found.value))
  {
    if found.Some? && found.value in st.dialogs {
      var a := found.value;
      if a in bLegs && bLegs[a] in st.dialogs {
        if Commits(st, a, bLegs[a], target, o) {
          var _ := BridgedCommits(st, a, bLegs[a], target, aggressive, o);
        } else {
          BridgedRollsBack(st, a, bLegs[a], target, aggressive, o);
        }
      } else {
        IvrMigration(st, a, target, aggressive, o);
      }
    }
  }

  /** In aggressive mode, a call with a dialog alive is ended by the migration exactly if the new
      sessions could be made and a re-INVITE was not accepted (one leg: was turned down), or the new
      sessions could not be joined. */
  lemma AggressiveMigrationEndsCallIff(st: State, a: CallId, b: CallId, target: NodeId, o: World)
    requires PoolOK(st.pool) && FreshIds(st, o) && a in st.dialogs && b in st.dialogs && a != b && st.dialogs[a].live
    ensures var st' := MigrateIvr(st, a, target, true, o).0;
            a in st'.dialogs && (!st'.dialogs[a].live <==> IvrRejected(st, a, target, o))
    ensures var st' := MigrateBridged(st, a, b, target, true, o).0;
            && a in st'.dialogs
            && (!st'.dialogs[a].live <==>
                  && st.dialogs[a].hasMedia && st.dialogs[b].hasMedia
                  && Usable(st.pool, target) && o.newA.Some? && o.newB.Some?
                  && !(Commits(st, a, b, target, o) && o.bridges))
  {
    IvrMigration(st, a, target, true, o);
    if Commits(st, a, b, target, o) {
      var _ := BridgedCommits(st, a, b, target, true, o);
    } else {
      BridgedRollsBack(st, a, b, target, true, o);
    }
  }

  /** A bridged call that starts on one node is on one node after every outcome.  If both sessions
      can be created and both re-INVITEs are accepted, it is on the target, its old sessions are
      forgotten, and success is reported exactly when the target joined the new sessions; otherwise
      nothing has changed. */
  lemma LegsStayTogether(st: State, a: CallId, b: CallId, target: NodeId, o: World)
    requires PoolOK(st.pool) && FreshIds(st, o) && a in st.dialogs && b in st.dialogs && a != b
    requires Together(st, a, b)
    ensures var (st', r) := MigrateBridged(st, a, b, target, false, o);
            && a in st'.dialogs && b in st'.dialogs
            && Together(st', a, b)
            && (Commits(st, a, b, target, o) ==>
                  && TrackedOn(st'.pool, st'.dialogs[a].session, target)
                  && st.dialogs[a].session !in st'.pool.affinity.nodeOf
                  && st.dialogs[b].session !in st'.pool.affinity.nodeOf
                  && r == if o.bridges then Migrated else RebridgeFailed)
            && (!Commits(st, a, b, target, o) ==> st' == st && !r.Migrated? && !r.RebridgeFailed?)
  {
    if Commits(st, a, b, target, o) {
      var _ := BridgedCommits(st, a, b, target, false, o);
    } else {
      BridgedRollsBack(st, a, b, target, false, o);
    }
  }

  // ----- Which migration a session gets -----

  /** Dialog `a` is a confirmed A-leg. */
  predicate Migratable(st: State, a: CallId) {
    a in st.dialogs && !st.dialogs[a].outbound && st.dialogs[a].confirmed
  }

  /** Dialog `a` has a B-leg with a dialog of its own. */
  predicate HasBLeg(st: State, bLegs: map<CallId, CallId>, a: CallId) {
    a in bLegs && bLegs[a] in st.dialogs && bLegs[a] != a
  }

  /** Call `x` has exchanged its session for one on the target. */
  predicate HasMoved(st: State, st': State, x: CallId, target: NodeId) {
    && x in st.dialogs && x in st'.dialogs
    && TrackedOn(st'.pool, st'.dialogs[x].session, target)
    && st.dialogs[x].session !in st'.pool.affinity.nodeOf
  }

  /** A session without a dialog, that of a B-leg, and that of an unconfirmed dialog are each refused in
      their own way and change nothing, and no other session is refused so. */
  lemma RefusalIsExact(st: State, bLegs: map<CallId, CallId>, found: Option<CallId>, target: NodeId,
                       aggressive: bool, o: World)
    requires found.Some? ==> found.value in st.dialogs
    ensures var (st', r) := Migrate(st, bLegs, found, target, aggressive, o);
            && (r.NoDialog? <==> found.None?)
            && (r.SkippedBLeg? <==> found.Some? && st.dialogs[found.value].outbound)
            && (r.NotConfirmed? <==>
                  found.Some? && !st.dialogs[found.value].outbound && !st.dialogs[found.value].confirmed)
            && (r.NoDialog? || r.SkippedBLeg? || r.NotConfirmed? ==> st' == st)
  {
  }

  /** A bridged call on one node is moved whole or not at all: it is on one node afterwards, and success
      means that both sessions are on the target and both old ones forgotten. */
  lemma BridgedCallMovesWhole(st: State, bLegs: map<CallId, CallId>, a: CallId, target: NodeId, o: World)
    requires PoolOK(st.pool) && FreshIds(st, o) && Migratable(st, a) && HasBLeg(st, bLegs, a)
    requires Together(st, a, bLegs[a])
    ensures var (st', r) := Migrate(st, bLegs, Some(a), target, false, o);
            && r == BridgedReport(st, a, bLegs[a], target, o)
            && a in st'.dialogs && bLegs[a] in st'.dialogs && Together(st', a, bLegs[a])
            && (r.Migrated? ==> HasMoved(st, st', a, target) && HasMoved(st, st', bLegs[a], target))
  {
    LegsStayTogether(st, a, bLegs[a], target, o);
    if Commits(st, a, bLegs[a], target, o) {
      var moved := BridgedCommits(st, a, bLegs[a], target, false, o);
    } else {
      BridgedRollsBack(st, a, bLegs[a], target, false, o);
    }
  }

  /** A call without a B-leg dialog is moved exactly if its session can be made and the party accepts. */
  lemma LoneCallMoves(st: State, bLegs: map<CallId, CallId>, a: CallId, target: NodeId, aggressive: bool, o: World)
    requires PoolOK(st.pool) && FreshIds(st, o) && Migratable(st, a) && !(a in bLegs && bLegs[a] in st.dialogs)
    ensures var (st', r) := Migrate(st, bLegs, Some(a), target, aggressive, o);
            && r == IvrReport(st, a, target, o)
            && (r.Migrated? ==> HasMoved(st, st', a, target))
  {
    IvrMigration(st, a, target, aggressive, o);
  }

  /** Rolling back the one-leg migration is exact if and only if the target's session was new to
      the pool; otherwise it forgets a session that was there before. */
  lemma IvrRollbackIsExactIff(st: State, a: CallId, target: NodeId, o: World)
    requires PoolOK(st.pool) && a in st.dialogs && st.dialogs[a].hasMedia
    requires Usable(st.pool, target) && o.newA.Some? && !Answer(st.dialogs[a], o.inviteA).Accepts?
    ensures MigrateIvr(st, a, target, false, o).0 == st <==> o.newA.value !in st.pool.affinity.nodeOf
  {
    var p1 := CreateOnNode(st.pool, target, o.newA).0;
    UntrackUndoesTrackIff(st.pool.affinity, o.newA.value, target);
    assert Forget(p1, o.newA.value) == p1.(affinity := Untrack(p1.affinity, o.newA.value));
  }

  lemma MapMoveCount(m: map<SessionId, NodeId>, from: SessionId, to: SessionId, n: NodeId)
    requires from in m && to !in m
    ensures |m[to := n] - {from}| == |m|
  {
    assert (m[to := n] - {from}).Keys == m.Keys + {to} - {from};
    assert |m.Keys + {to}| == |m| + 1;
  }

  /** The dialogs among `a` and `b` that `st'` has ended. */
  function EndedOf(st: State, st': State, a: CallId, b: CallId): set<CallId> {
    set c | c in {a, b} && c in st.dialogs && c in st'.dialogs && st.dialogs[c].live && !st'.dialogs[c].live
  }

  lemma TerminateBothCount(st: State, a: CallId, b: CallId)
    requires PoolOK(st.pool) && a in st.dialogs && b in st.dialogs && a != b
    requires st.dialogs[a].session in st.pool.affinity.nodeOf && st.dialogs[b].session in st.pool.affinity.nodeOf
    requires st.dialogs[a].session != st.dialogs[b].session
    ensures |TerminateBoth(st, a, b).pool.affinity.nodeOf|
            + (if st.dialogs[a].live then 1 else 0) + (if st.dialogs[b].live then 1 else 0) == |st.pool.affinity.nodeOf|
  {
    TerminateEffect(st, a);
    TerminateEffect(Terminate(st, a), b);
  }

  lemma EndedCount(st: State, st': State, a: CallId, b: CallId)
    requires a in st.dialogs && b in st.dialogs && a in st'.dialogs && b in st'.dialogs && a != b
    ensures |EndedOf(st, st', a, b)| == (if st.dialogs[a].live && !st'.dialogs[a].live then 1 else 0)
                                        + (if st.dialogs[b].live && !st'.dialogs[b].live then 1 else 0)
  {
    var one := if st.dialogs[a].live && !st'.dialogs[a].live then {a} else {};
    var two := if st.dialogs[b].live && !st'.dialogs[b].live then {b} else {};
    assert EndedOf(st, st', a, b) == one + two;
  }

  /** A migration changes the number of sessions the pool tracks by exactly the dialogs it ends: in
      graceful mode, and in aggressive mode unless a call is hung up, not at all. */
  lemma MigrationConservesSessions(st: State, a: CallId, b: CallId, target: NodeId, aggressive: bool, o: World)
    requires PoolOK(st.pool) && FreshIds(st, o) && a in st.dialogs && b in st.dialogs && a != b
    requires st.dialogs[a].session in st.pool.affinity.nodeOf && st.dialogs[b].session in st.pool.affinity.nodeOf
    requires st.dialogs[a].session != st.dialogs[b].session
    ensures var st' := MigrateIvr(st, a, target, aggressive, o).0;
            && |st'.pool.affinity.nodeOf| + |EndedOf(st, st', a, b)| == |st.pool.affinity.nodeOf|
            && (!aggressive ==> EndedOf(st, st', a, b) == {})
    ensures var st' := MigrateBridged(st, a, b, target, aggressive, o).0;
            && |st'.pool.affinity.nodeOf| + |EndedOf(st, st', a, b)| == |st.pool.affinity.nodeOf|
            && (!aggressive ==> EndedOf(st, st', a, b) == {})
  {
    IvrConserves(st, a, b, target, aggressive, o);
    BridgedConserves(st, a, b, target, aggressive, o);
  }

  lemma IvrConserves(st: State, a: CallId, b: CallId, target: NodeId, aggressive: bool, o: World)
    requires PoolOK(st.pool) && FreshIds(st, o) && a in st.dialogs && b in st.dialogs && a != b
    requires st.dialogs[a].session in st.pool.affinity.nodeOf
    ensures var st' := MigrateIvr(st, a, target, aggressive, o).0;
            && |st'.pool.affinity.nodeOf| + |EndedOf(st, st', a, b)| == |st.pool.affinity.nodeOf|
            && (!aggressive ==> EndedOf(st, st', a, b) == {})
  {
    var st' := MigrateIvr(st, a, target, aggressive, o).0;
    IvrMigration(st, a, target, aggressive, o);
    TerminateEffect(st, a);
    EndedCount(st, st', a, b);
    if o.newA.Some? {
      MapMoveCount(st.pool.affinity.nodeOf, st.dialogs[a].session, o.newA.value, target);
    }
  }

  lemma BridgedConserves(st: State, a: CallId, b: CallId, target: NodeId, aggressive: bool, o: World)
    requires PoolOK(st.pool) && FreshIds(st, o) && a in st.dialogs && b in st.dialogs && a != b
    requires st.dialogs[a].session in st.pool.affinity.nodeOf && st.dialogs[b].session in st.pool.affinity.nodeOf
    requires st.dialogs[a].session != st.dialogs[b].session
    ensures var st' := MigrateBridged(st, a, b, target, aggressive, o).0;
            && |st'.pool.affinity.nodeOf| + |EndedOf(st, st', a, b)| == |st.pool.affinity.nodeOf|
            && (!aggressive ==> EndedOf(st, st', a, b) == {})
  {
    var st' := MigrateBridged(st, a, b, target, aggressive, o).0;
    if Commits(st, a, b, target, o) {
      var moved := BridgedCommits(st, a, b, target, aggressive, o);
      MovedCount(st, a, b, target, o, moved);
      TerminateBothCount(moved, a, b);
    } else {
      BridgedRollsBack(st, a, b, target, aggressive, o);
      TerminateBothCount(st, a, b);
    }
    EndedCount(st, st', a, b);
  }

  lemma MovedCount(st: State, a: CallId, b: CallId, target: NodeId, o: World, moved: State)
    requires FreshIds(st, o) && a in st.dialogs && b in st.dialogs && a != b && o.newA.Some? && o.newB.Some?
    requires st.dialogs[a].session in st.pool.affinity.nodeOf && st.dialogs[b].session in st.pool.affinity.nodeOf
    requires st.dialogs[a].session != st.dialogs[b].session && IsMoved(st, a, b, target, o, moved)
    ensures |moved.pool.affinity.nodeOf| == |st.pool.affinity.nodeOf|
    ensures moved.dialogs[a].session in moved.pool.affinity.nodeOf
             && moved.dialogs[b].session in moved.pool.affinity.nodeOf
    ensures moved.dialogs[a].session != moved.dialogs[b].session
  {
    var m := st.pool.affinity.nodeOf;
    var oldA, oldB, newA, newB := st.dialogs[a].session, st.dialogs[b].session, o.newA.value, o.newB.value;
    var m1 := m[newA := target] - {oldA};
    MapMoveCount(m, oldA, newA, target);
    MapMoveCount(m1, oldB, newB, target);
    assert m1[newB := target] - {oldB} == MovedBoth(m, oldA, oldB, newA, newB, target);
  }

  // ----- The migrator -----

  /** The results about `Migrate`, together. */
  lemma MigrationReports(st: State, bLegs: map<CallId, CallId>, found: Option<CallId>, target: NodeId,
                         aggressive: bool, o: World)
    requires found.Some? ==> found.value in st.dialogs
    ensures var (st', r) := Migrate(st, bLegs, found, target, aggressive, o);
            && (r.NoDialog? <==> found.None?)
            && (r.SkippedBLeg? <==> found.Some? && st.dialogs[found.value].outbound)
            && (r.NotConfirmed? <==>
                  found.Some? && !st.dialogs[found.value].outbound && !st.dialogs[found.value].confirmed)
            && (r.NoDialog? || r.SkippedBLeg? || r.NotConfirmed? ==> st' == st)
            && (found.Some? && !aggressive && PoolOK(st.pool) && FreshIds(st, o)
                && Migratable(st, found.value) && HasBLeg(st, bLegs, found.value)
                && Together(st, found.value, bLegs[found.value]) ==>
                  && r == BridgedReport(st, found.value, bLegs[found.value], target, o)
                  && found.value in st'.dialogs && bLegs[found.value] in st'.dialogs
                  && Together(st', found.value, bLegs[found.value])
                  && (r.Migrated? ==> && HasMoved(st, st', found.value, target)
                                      && HasMoved(st, st', bLegs[found.value], target)))
            && (found.Some? && PoolOK(st.pool) && FreshIds(st, o) && Migratable(st, found.value)
                && !(found.value in bLegs && bLegs[found.value] in st.dialogs) ==>
                  && r == IvrReport(st, found.value, target, o)
                  && (r.Migrated? ==> HasMoved(st, st', found.value, target)))
  {
    RefusalIsExact(st, bLegs, found, target, aggressive, o);
    if found.Some? && PoolOK(st.pool) && FreshIds(st, o) && Migratable(st, found.value) {
      if HasBLeg(st, bLegs, found.value) && Together(st, found.value, bLegs[found.value]) && !aggressive {
        BridgedCallMovesWhole(st, bLegs, found.value, target, o);
      }
      if !(found.value in bLegs && bLegs[found.value] in st.dialogs) {
        LoneCallMoves(st, bLegs, found.value, target, aggressive, o);
      }
    }
  }

  class Migrator {
    const pool: Pool
    var dialogs: map<CallId, Dialog>
    const bLegs: map<CallId, CallId>
    const aggressive: bool

    constructor (pool: Pool, dialogs: map<CallId, Dialog>, bLegs: map<CallId, CallId>, aggressive: bool)
      ensures this.pool == pool && this.dialogs == dialogs && this.bLegs == bLegs && this.aggressive == aggressive
    {
      this.pool, this.dialogs, this.bLegs, this.aggressive := pool, dialogs, bLegs, aggressive;
    }

    ghost function View(): State
      reads this, pool
    {
      State(pool.View(), dialogs)
    }

    method FindBySessionID(s: SessionId) returns (found: Option<CallId>)
      ensures found.Some? ==> found.value in dialogs && dialogs[found.value].session == s
      ensures found.None? ==> forall c :: c in dialogs ==> dialogs[c].session != s
    {
      var todo := dialogs.Keys;
      while todo != {}
        invariant todo <= dialogs.Keys
        invariant forall c :: c in dialogs && c !in todo ==> dialogs[c].session != s
        decreases |todo|
      {
        var c :| c in todo;
        if dialogs[c].session == s {
          return Some(c);
        }
        todo := todo - {c};
      }
      found := None;
    }

    method MigrateSession(s: SessionId, target: NodeId, o: World) returns (r: Outcome, ghost found: Option<CallId>)
      modifies this, pool
      ensures (View(), r) == Migrate(old(View()), bLegs, found, target, aggressive, o)
      ensures found.Some? ==> found.value in old(dialogs) && old(dialogs)[found.value].session == s
      ensures found.None? ==> forall c :: c in old(dialogs) ==> old(dialogs)[c].session != s
      ensures r.NoDialog? <==> found.None?
      ensures r.SkippedBLeg? <==> found.Some? && old(dialogs)[found.value].outbound
      ensures r.NotConfirmed? <==>
                found.Some? && !old(dialogs)[found.value].outbound && !old(dialogs)[found.value].confirmed
      ensures r.NoDialog? || r.SkippedBLeg? || r.NotConfirmed? ==> View() == old(View())
      ensures var st := old(View());
              found.Some? && !aggressive && PoolOK(st.pool) && FreshIds(st, o)
              && Migratable(st, found.value) && HasBLeg(st, bLegs, found.value)
              && Together(st, found.value, bLegs[found.value]) ==>
                && r == BridgedReport(st, found.value, bLegs[found.value], target, o)
                && found.value in dialogs && bLegs[found.value] in dialogs
                && Together(View(), found.value, bLegs[found.value])
                && (r.Migrated? ==> && HasMoved(st, View(), found.value, target)
                                    && HasMoved(st, View(), bLegs[found.value], target))
      ensures var st := old(View());
              found.Some? && PoolOK(st.pool) && FreshIds(st, o) && Migratable(st, found.value)
              && !(found.value in bLegs && bLegs[found.value] in st.dialogs) ==>
                && r == IvrReport(st, found.value, target, o)
                && (r.Migrated? ==> HasMoved(st, View(), found.value, target))
    {
      var hit := FindBySessionID(s);
      found := hit;
      MigrationReports(View(), bLegs, found, target, aggressive, o);
      if hit.None? {
        return NoDialog, found;
      }
      var a := hit.value;
      if dialogs[a].outbound {
        return SkippedBLeg, found;
      }
      if !dialogs[a].confirmed {
        return NotConfirmed, found;
      }
      if a in bLegs && bLegs[a] in dialogs {
        r := MigrateBridgedCall(a, bLegs[a], target, o);
      } else {
        r := MigrateIvrCall(a, target, o);
      }
    }

    /** Terminates a dialog, the termination callback included. */
    method HangUp(call: CallId)
      modifies this, pool
      ensures View() == Terminate(old(View()), call)
    {
      if call in dialogs && dialogs[call].live {
        var _ := pool.Destroy(dialogs[call].session, true);
        dialogs := dialogs[call := dialogs[call].(live := false)];
      }
    }

    method MigrateIvrCall(a: CallId, target: NodeId, o: World) returns (r: Outcome)
      requires a in dialogs
      modifies this, pool
      ensures (View(), r) == MigrateIvr(old(View()), a, target, aggressive, o)
    {
      if !dialogs[a].hasMedia {
        return NoMedia;
      }
      var made := pool.CreateSessionOnNode(target, o.newA);
      if made.None? {
        return CreateFailed;
      }
      var answer := Answer(dialogs[a], o.inviteA);
      if answer.Fails? {
        var _ := pool.Destroy(made.value, true);
        return InviteFailed;
      }
      if answer.Rejects? {
        var _ := pool.Destroy(made.value, true);
        if aggressive {
          HangUp(a);
        }
        return InviteFailed;
      }
      var _ := pool.Destroy(dialogs[a].session, true);
      dialogs := dialogs[a := dialogs[a].(session := made.value)];
      r := Migrated;
    }

    method MigrateBridgedCall(a: CallId, b: CallId, target: NodeId, o: World) returns (r: Outcome)
      requires a in dialogs && b in dialogs
      modifies this, pool
      ensures (View(), r) == MigrateBridged(old(View()), a, b, target, aggressive, o)
    {
      var oldA, oldB := dialogs[a].session, dialogs[b].session;
      if !dialogs[a].hasMedia || !dialogs[b].hasMedia {
        return NoMedia;
      }
      var madeA := pool.CreateSessionOnNode(target, o.newA);
      if madeA.None? {
        return CreateFailed;
      }
      var madeB := pool.CreateSessionOnNode(target, o.newB);
      if madeB.None? {
        var _ := pool.Destroy(madeA.value, true);
        return CreateFailed;
      }
      var answerA := Answer(dialogs[a], o.inviteA);
      var answerB := Answer(dialogs[b], o.inviteB);
      if !answerA.Accepts? || !answerB.Accepts? {
        var _ := pool.Destroy(madeA.value, true);
        var _ := pool.Destroy(madeB.value, true);
        if aggressive {
          HangUp(a);
          HangUp(b);
        }
        return InviteFailed;
      }
      var _ := pool.Destroy(oldA, true);
      var _ := pool.Destroy(oldB, true);
      dialogs := dialogs[a := dialogs[a].(session := madeA.value)];
      dialogs := dialogs[b := dialogs[b].(session := madeB.value)];
      var joined := pool.CanBridge(madeA.value, madeB.value);
      if !joined || !o.bridges {
        if aggressive {
          HangUp(a);
          HangUp(b);
        }
        return RebridgeFailed;
      }
      r := Migrated;
    }
  }
}
