/** What every interleaving of migrations and hang-ups keeps. */
module MigrationSafety {
  import opened CallStates
  import opened MediaPool
  import opened ConcurrentMigrations

  // ----- The invariant -----

  /** What a migration has done to one of its calls: nothing that lasts; made the new session; dropped
      the old one as well; renamed the dialog. */
  datatype Phase = Untouched | Doubled | Dropped | Renamed

  function PhaseA(pc: Pc): Phase {
    match pc
    case CreatesA => Untouched
    case UndoesB => Untouched
    case RolledBack => Untouched
    case DropsB => Dropped
    case RenamesA => Dropped
    case RenamesB => Renamed
    case Rebridges => Renamed
    case Moved => Renamed
    case MovedUnbridged => Renamed
    case _ => Doubled
  }

  function PhaseB(pc: Pc): Phase {
    match pc
    case CreatesA => Untouched
    case CreatesB => Untouched
    case UndoesOnlyA => Untouched
    case RolledBack => Untouched
    case RenamesA => Dropped
    case RenamesB => Dropped
    case Rebridges => Renamed
    case Moved => Renamed
    case MovedUnbridged => Renamed
    case _ => Doubled
  }

  function PhaseOf(j: Job, x: CallId): Phase {
    if x == j.a then PhaseA(j.pc) else PhaseB(j.pc)
  }

  /** The session is tracked unless a callback of the call has destroyed it. */
  ghost predicate Kept(c: System, x: CallId, s: SessionId) {
    Tracked(c, s) <==> !Gone(c, x, s)
  }

  /** Whatever else the call has been given is forgotten. */
  ghost predicate NoOther(c: System, x: CallId, s: SessionId, t: SessionId) {
    forall r :: Tracked(c, r) && r in c.owner && c.owner[r] == x ==> r == s || r == t
  }

  ghost predicate LegOK(c: System, j: Job, x: CallId)
    requires x in c.dialogs
  {
    var d, was, next := c.dialogs[x], Old(j, x), New(j, x);
    && was in c.owner && c.owner[was] == x && next in c.owner && c.owner[next] == x && was != next
    && (PhaseOf(j, x).Renamed? ==>
          && d.session == next && !Tracked(c, was)
          && Kept(c, x, next) && (Tracked(c, next) ==> OnNode(c, next, j.target)))
    && (!PhaseOf(j, x).Renamed? ==> d.session == was && d.first != next && !Taken(c, x, next))
    && (PhaseOf(j, x).Untouched? ==> !Tracked(c, next))
    && (PhaseOf(j, x).Doubled? || PhaseOf(j, x).Dropped? ==> OnNode(c, next, j.target))
    && (PhaseOf(j, x).Dropped? ==> !Tracked(c, was))
    && (PhaseOf(j, x).Untouched? || PhaseOf(j, x).Doubled? ==>
          Kept(c, x, was) && (Tracked(c, was) ==> OnNode(c, was, j.home)))
    && NoOther(c, x, was, next)
  }

  /** The callback of a leg, before it has ended the dialog. */
  predicate BeforeEnd(b: Callback) {
    b.LegDestroys? || b.EndsDialog?
  }

  /** A dialog that has not ended has such callbacks at most, and all have hold of their own sessions. */
  ghost predicate DialogOK(c: System, x: CallId)
    requires x in c.dialogs
  {
    var d := c.dialogs[x];
    && d.session in c.owner && c.owner[d.session] == x && d.first in c.owner && c.owner[d.first] == x
    && (d.live ==> forall b :: b in c.callbacks && b.call == x ==> BeforeEnd(b))
    && (forall s :: Taken(c, x, s) ==> s in c.owner && c.owner[s] == x)
  }

  ghost predicate CallOK(c: System, x: CallId)
    requires x in c.dialogs
  {
    && DialogOK(c, x)
    && (x !in c.latest ==> Kept(c, x, c.dialogs[x].session) && NoOther(c, x, c.dialogs[x].session,
        c.dialogs[x].session))
    && (x in c.latest ==> c.latest[x] < |c.jobs| && InJob(c.jobs[c.latest[x]], x) && LegOK(c, c.jobs[c.latest[x]], x))
  }

  /** A job that has not returned is the latest of both its calls; every job is at most the latest. */
  ghost predicate JobsOK(c: System) {
    && (forall i :: 0 <= i < |c.jobs| ==>
          c.jobs[i].a != c.jobs[i].b && c.jobs[i].a in c.dialogs && c.jobs[i].b in c.dialogs)
    && (forall i, x :: 0 <= i < |c.jobs| && InJob(c.jobs[i], x) ==>
          x in c.latest && i <= c.latest[x] && (!Returned(c.jobs[i].pc) ==> i == c.latest[x]))
  }

  ghost predicate BooksOK(c: System) {
    && Mirror(c.affinity)
    && (forall s :: Tracked(c, s) ==> s in c.owner)
    && (forall s :: s in c.owner ==> c.owner[s] in c.dialogs)
    && (forall x :: x in c.latest ==> x in c.dialogs)
    && (forall b :: b in c.callbacks ==> b.call in c.dialogs)
    && JobsOK(c)
  }

  ghost predicate Inv(c: System) {
    BooksOK(c) && forall x {:trigger CallOK(c, x)} :: x in c.dialogs ==> CallOK(c, x)
  }

  // ----- What does not concern a call leaves it alone -----

  ghost predicate Owned(c: System, s: SessionId, x: CallId) {
    s in c.owner && c.owner[s] == x
  }

  ghost predicate SamePlace(c: System, c': System, s: SessionId) {
    && (Tracked(c', s) <==> Tracked(c, s))
    && (Tracked(c, s) ==> c'.affinity.nodeOf[s] == c.affinity.nodeOf[s])
  }

  ghost predicate SameFor(c: System, c': System, y: CallId) {
    && y in c.dialogs && y in c'.dialogs && c'.dialogs[y] == c.dialogs[y]
    && (y in c'.latest <==> y in c.latest)
    && (y in c.latest ==> c'.latest[y] == c.latest[y])
    && (y in c.latest && c.latest[y] < |c.jobs| ==>
          c.latest[y] < |c'.jobs| && c'.jobs[c.latest[y]] == c.jobs[c.latest[y]])
    && (forall b :: b in c.callbacks && b.call == y ==> b in c'.callbacks)
    && (forall b :: b in c'.callbacks && b.call == y ==> b in c.callbacks)
    && (forall s :: Owned(c', s, y) <==> Owned(c, s, y))
    && (forall s :: Owned(c, s, y) ==> SamePlace(c, c', s))
  }

  lemma SameTaken(c: System, c': System, y: CallId)
    requires SameFor(c, c', y)
    ensures forall s :: Gone(c', y, s) <==> Gone(c, y, s)
    ensures forall s :: Taken(c', y, s) <==> Taken(c, y, s)
  {
    forall s ensures (Gone(c', y, s) <==> Gone(c, y, s)) && (Taken(c', y, s) <==> Taken(c, y, s)) {
      assert Destroys(y, s).call == y && LegDestroys(y, s).call == y;
      assert EndsDialog(y, s).call == y && Finished(y, s).call == y;
    }
  }

  lemma FrameLeg(c: System, c': System, j: Job, y: CallId)
    requires SameFor(c, c', y) && LegOK(c, j, y)
    ensures LegOK(c', j, y)
  {
    var was, next := Old(j, y), New(j, y);
    assert Owned(c, was, y) && Owned(c, next, y);
    SameTaken(c, c', y);
    forall r | Tracked(c', r) && r in c'.owner && c'.owner[r] == y ensures r == was || r == next {
      assert Owned(c', r, y);
    }
  }

  lemma FrameCall(c: System, c': System, y: CallId)
    requires SameFor(c, c', y) && CallOK(c, y)
    ensures CallOK(c', y)
  {
    var d := c.dialogs[y];
    assert Owned(c, d.session, y) && Owned(c, d.first, y);
    SameTaken(c, c', y);
    forall s | Taken(c', y, s) ensures s in c'.owner && c'.owner[s] == y {
      assert Taken(c, y, s);
      assert Owned(c, s, y);
    }
    if y in c.latest {
      FrameLeg(c, c', c.jobs[c.latest[y]], y);
    } else {
      forall r | Tracked(c', r) && r in c'.owner && c'.owner[r] == y ensures r == d.session {
        assert Owned(c', r, y);
      }
    }
  }

  // ----- One effect of a migration, on one of its calls -----

  /** `c'` differs from `c` in the index and the dialogs only. */
  predicate StepTo(c: System, c': System) {
    c'.callbacks == c.callbacks && c'.owner == c.owner && c'.latest == c.latest
  }

  predicate SameJob(j: Job, j': Job) {
    j' == j.(pc := j'.pc)
  }

  lemma LegStays(c: System, c': System, j: Job, j': Job, x: CallId)
    requires StepTo(c, c') && SameJob(j, j') && x in c.dialogs && x in c'.dialogs && c'.dialogs[x] == c.dialogs[x]
    requires LegOK(c, j, x) && PhaseOf(j', x) == PhaseOf(j, x)
    requires forall s :: Owned(c, s, x) ==> SamePlace(c, c', s)
    ensures LegOK(c', j', x)
  {
    assert Owned(c, Old(j, x), x) && Owned(c, New(j, x), x);
    forall r | Tracked(c', r) && r in c'.owner && c'.owner[r] == x ensures r == Old(j, x) || r == New(j, x) {
      assert Owned(c, r, x);
    }
  }

  lemma LegDoubles(c: System, c': System, j: Job, j': Job, x: CallId)
    requires StepTo(c, c') && SameJob(j, j') && x in c.dialogs && c'.dialogs == c.dialogs
    requires LegOK(c, j, x) && PhaseOf(j, x).Untouched? && PhaseOf(j', x).Doubled?
    requires c'.affinity == Track(c.affinity, New(j, x), j.target)
    ensures LegOK(c', j', x)
  {
  }

  lemma LegUndoubles(c: System, c': System, j: Job, j': Job, x: CallId)
    requires StepTo(c, c') && SameJob(j, j') && x in c.dialogs && c'.dialogs == c.dialogs
    requires LegOK(c, j, x) && PhaseOf(j, x).Doubled? && PhaseOf(j', x).Untouched?
    requires c'.affinity == Untrack(c.affinity, New(j, x))
    ensures LegOK(c', j', x)
  {
  }

  lemma LegDrops(c: System, c': System, j: Job, j': Job, x: CallId)
    requires StepTo(c, c') && SameJob(j, j') && x in c.dialogs && c'.dialogs == c.dialogs
    requires LegOK(c, j, x) && PhaseOf(j, x).Doubled? && PhaseOf(j', x).Dropped?
    requires c'.affinity == Untrack(c.affinity, Old(j, x))
    ensures LegOK(c', j', x)
  {
  }

  lemma LegRenames(c: System, c': System, j: Job, j': Job, x: CallId)
    requires StepTo(c, c') && SameJob(j, j') && x in c.dialogs && c'.affinity == c.affinity
    requires LegOK(c, j, x) && PhaseOf(j, x).Dropped? && PhaseOf(j', x).Renamed?
    requires x in c'.dialogs && c'.dialogs[x] == c.dialogs[x].(session := New(j, x))
    ensures LegOK(c', j', x)
  {
  }

  /** The session that a step tracks or untracks, if it does. */
  function Touched(j: Job): Option<SessionId> {
    match j.pc
    case CreatesA => Some(j.newA)
    case UndoesOnlyA => Some(j.newA)
    case UndoesA => Some(j.newA)
    case CreatesB => Some(j.newB)
    case UndoesB => Some(j.newB)
    case DropsA => Some(j.oldA)
    case DropsB => Some(j.oldB)
    case _ => None
  }

  lemma AdvanceTouches(c: System, j: Job, ok: bool)
    requires j.a in c.dialogs && j.b in c.dialogs
    ensures var (aff, dialogs, pc) := Advance(c, j, ok);
            && (forall s :: Some(s) != Touched(j) ==>
                  && (s in aff.nodeOf <==> s in c.affinity.nodeOf)
                  && (s in aff.nodeOf ==> aff.nodeOf[s] == c.affinity.nodeOf[s]))
            && dialogs.Keys == c.dialogs.Keys
            && (forall x :: x in c.dialogs && !InJob(j, x) ==> dialogs[x] == c.dialogs[x])
  {
  }

  lemma AdvanceKeepsMirror(c: System, j: Job, ok: bool)
    requires Mirror(c.affinity) && j.a in c.dialogs && j.b in c.dialogs
    requires j.pc.CreatesA? ==> !Tracked(c, j.newA)
    requires j.pc.CreatesB? ==> !Tracked(c, j.newB)
    ensures Mirror(Advance(c, j, ok).0)
  {
    match j.pc {
      case CreatesA => TrackKeepsMirrorIff(c.affinity, j.newA, j.target);
      case CreatesB => TrackKeepsMirrorIff(c.affinity, j.newB, j.target);
      case UndoesOnlyA => UntrackKeepsMirror(c.affinity, j.newA);
      case UndoesA => UntrackKeepsMirror(c.affinity, j.newA);
      case UndoesB => UntrackKeepsMirror(c.affinity, j.newB);
      case DropsA => UntrackKeepsMirror(c.affinity, j.oldA);
      case DropsB => UntrackKeepsMirror(c.affinity, j.oldB);
      case _ =>
    }
  }

  /** `c'` and `j'` are what one effect of `j` makes of `c` and `j`. */
  predicate Advanced(c: System, c': System, j: Job, j': Job, ok: bool) {
    && j.a in c.dialogs && j.b in c.dialogs && j.a != j.b && StepTo(c, c')
    && c'.affinity == Advance(c, j, ok).0 && c'.dialogs == Advance(c, j, ok).1 && j' == j.(pc := Advance(c, j, ok).2)
  }

  /** The step changes what it has done to the first call, to the second. */
  predicate MovesA(j: Job, ok: bool) {
    (j.pc.CreatesA? && ok) || j.pc.UndoesOnlyA? || j.pc.UndoesA? || j.pc.DropsA? || j.pc.RenamesA?
  }

  predicate MovesB(j: Job, ok: bool) {
    (j.pc.CreatesB? && ok) || j.pc.UndoesB? || j.pc.DropsB? || j.pc.RenamesB?
  }

  lemma OtherwiseUnmoved(c: System, c': System, j: Job, j': Job, ok: bool)
    requires Advanced(c, c', j, j', ok)
    ensures !MovesA(j, ok) ==>
              && PhaseOf(j', j.a) == PhaseOf(j, j.a) && c'.dialogs[j.a] == c.dialogs[j.a]
              && forall s :: s != j.newB && s != j.oldB ==> SamePlace(c, c', s)
    ensures !MovesB(j, ok) ==>
              && PhaseOf(j', j.b) == PhaseOf(j, j.b) && c'.dialogs[j.b] == c.dialogs[j.b]
              && forall s :: s != j.newA && s != j.oldA ==> SamePlace(c, c', s)
  {
  }

  lemma StepKeepsLegA(c: System, c': System, j: Job, j': Job, ok: bool)
    requires Advanced(c, c', j, j', ok) && LegOK(c, j, j.a) && LegOK(c, j, j.b)
    ensures LegOK(c', j', j.a)
  {
    if !MovesA(j, ok) {
      OtherwiseUnmoved(c, c', j, j', ok);
      StaysBeside(c, c', j, j', j.a, j.newB, j.oldB);
    } else if j.pc.CreatesA? {
      LegDoubles(c, c', j, j', j.a);
    } else if j.pc.UndoesOnlyA? || j.pc.UndoesA? {
      LegUndoubles(c, c', j, j', j.a);
    } else if j.pc.DropsA? {
      LegDrops(c, c', j, j', j.a);
    } else {
      LegRenames(c, c', j, j', j.a);
    }
  }

  lemma StepKeepsLegB(c: System, c': System, j: Job, j': Job, ok: bool)
    requires Advanced(c, c', j, j', ok) && LegOK(c, j, j.a) && LegOK(c, j, j.b)
    ensures LegOK(c', j', j.b)
  {
    if !MovesB(j, ok) {
      OtherwiseUnmoved(c, c', j, j', ok);
      StaysBeside(c, c', j, j', j.b, j.newA, j.oldA);
    } else if j.pc.CreatesB? {
      LegDoubles(c, c', j, j', j.b);
    } else if j.pc.UndoesB? {
      LegUndoubles(c, c', j, j', j.b);
    } else if j.pc.DropsB? {
      LegDrops(c, c', j, j', j.b);
    } else {
      LegRenames(c, c', j, j', j.b);
    }
  }

  lemma StaysBeside(c: System, c': System, j: Job, j': Job, x: CallId, p: SessionId, q: SessionId)
    requires StepTo(c, c') && SameJob(j, j') && x in c.dialogs && x in c'.dialogs && c'.dialogs[x] == c.dialogs[x]
    requires LegOK(c, j, x) && PhaseOf(j', x) == PhaseOf(j, x)
    requires forall s :: s != p && s != q ==> SamePlace(c, c', s)
    requires !Owned(c, p, x) && !Owned(c, q, x)
    ensures LegOK(c', j', x)
  {
    LegStays(c, c', j, j', x);
  }

  lemma SameCallbacksSameDialog(c: System, c': System, x: CallId)
    requires StepTo(c, c') && x in c.dialogs && x in c'.dialogs && DialogOK(c, x)
    requires c'.dialogs[x] == c.dialogs[x].(session := c'.dialogs[x].session)
    requires c'.dialogs[x].session in c.owner && c.owner[c'.dialogs[x].session] == x
    ensures DialogOK(c', x)
  {
    assert forall s :: Taken(c', x, s) ==> Taken(c, x, s);
  }

  /** The calls of the job that takes a step. */
  lemma StepKeepsOwnCalls(c: System, c': System, i: nat, ok: bool)
    requires i < |c.jobs| && i < |c'.jobs| && Advanced(c, c', c.jobs[i], c'.jobs[i], ok)
    requires c.jobs[i].a in c.latest && c.latest[c.jobs[i].a] == i && CallOK(c, c.jobs[i].a)
    requires c.jobs[i].b in c.latest && c.latest[c.jobs[i].b] == i && CallOK(c, c.jobs[i].b)
    ensures c.jobs[i].a in c'.dialogs && CallOK(c', c.jobs[i].a)
    ensures c.jobs[i].b in c'.dialogs && CallOK(c', c.jobs[i].b)
  {
    var j, j' := c.jobs[i], c'.jobs[i];
    StepKeepsLegA(c, c', j, j', ok);
    StepKeepsLegB(c, c', j, j', ok);
    AdvancedDialogs(c, c', j, j', ok);
    SameCallbacksSameDialog(c, c', j.a);
    SameCallbacksSameDialog(c, c', j.b);
  }

  lemma AdvancedDialogs(c: System, c': System, j: Job, j': Job, ok: bool)
    requires Advanced(c, c', j, j', ok)
    ensures c'.dialogs.Keys == c.dialogs.Keys
    ensures forall x :: x in c.dialogs && !InJob(j, x) ==> c'.dialogs[x] == c.dialogs[x]
    ensures forall x :: x in c.dialogs ==> c'.dialogs[x] == c.dialogs[x].(session := c'.dialogs[x].session)
    ensures c'.dialogs[j.a].session in {c.dialogs[j.a].session, j.newA}
    ensures c'.dialogs[j.b].session in {c.dialogs[j.b].session, j.newB}
  {
  }

  /** A call that has nothing to do with the job. */
  lemma StepKeepsOtherCall(c: System, c': System, i: nat, y: CallId, touched: Option<SessionId>)
    requires i < |c.jobs| && |c'.jobs| == |c.jobs| && c'.jobs == c.jobs[i := c'.jobs[i]] && StepTo(c, c')
    requires y in c.dialogs && y in c'.dialogs && c'.dialogs[y] == c.dialogs[y] && CallOK(c, y)
    requires y in c.latest ==> c.latest[y] != i
    requires forall s :: Some(s) != touched ==> SamePlace(c, c', s)
    requires touched.Some? ==> !Owned(c, touched.value, y)
    ensures CallOK(c', y)
  {
    FrameCall(c, c', y);
  }

  /** What the invariant says about a job that is under way. */
  lemma RunningJob(c: System, i: nat)
    requires Inv(c) && i < |c.jobs| && !Returned(c.jobs[i].pc)
    ensures var j := c.jobs[i];
            && j.a != j.b && j.a in c.dialogs && j.b in c.dialogs
            && j.a in c.latest && c.latest[j.a] == i && j.b in c.latest && c.latest[j.b] == i
            && CallOK(c, j.a) && CallOK(c, j.b)
  {
    var j := c.jobs[i];
    assert InJob(j, j.a) && InJob(j, j.b);
  }

  lemma TouchedIsOwned(c: System, j: Job, y: CallId)
    requires j.a in c.dialogs && j.b in c.dialogs && j.a != j.b && LegOK(c, j, j.a) && LegOK(c, j, j.b) && !InJob(j, y)
    ensures Touched(j).Some? ==> Touched(j).value in c.owner && !Owned(c, Touched(j).value, y)
  {
  }

  lemma StepKeepsCalls(c: System, i: nat, ok: bool, x: CallId)
    requires Inv(c) && Enabled(c, Step(i, ok)) && x in c.dialogs
    ensures x in Apply(c, Step(i, ok)).dialogs && CallOK(Apply(c, Step(i, ok)), x)
  {
    RunningJob(c, i);
    if InJob(c.jobs[i], x) {
      StepKeepsOwnCalls(c, Apply(c, Step(i, ok)), i, ok);
    } else {
      assert CallOK(c, x);
      StepKeepsUnrelatedCall(c, i, ok, x);
    }
  }

  lemma StepKeepsUnrelatedCall(c: System, i: nat, ok: bool, y: CallId)
    requires Enabled(c, Step(i, ok)) && c.jobs[i].a != c.jobs[i].b && !InJob(c.jobs[i], y)
    requires LegOK(c, c.jobs[i], c.jobs[i].a) && LegOK(c, c.jobs[i], c.jobs[i].b) && y in c.dialogs && CallOK(c, y)
    ensures y in Apply(c, Step(i, ok)).dialogs && CallOK(Apply(c, Step(i, ok)), y)
  {
    var j, c' := c.jobs[i], Apply(c, Step(i, ok));
    AdvanceTouches(c, j, ok);
    TouchedIsOwned(c, j, y);
    StepKeepsOtherCall(c, c', i, y, Touched(j));
  }

  lemma StepKeepsBooks(c: System, i: nat, ok: bool)
    requires Inv(c) && Enabled(c, Step(i, ok))
    ensures BooksOK(Apply(c, Step(i, ok)))
  {
    var c' := Apply(c, Step(i, ok));
    var j := c.jobs[i];
    RunningJob(c, i);
    AdvanceTouches(c, j, ok);
    AdvanceKeepsMirror(c, j, ok);
    assert Touched(j).Some? ==> Touched(j).value in c.owner;
    forall s | Tracked(c', s) ensures s in c'.owner {
      assert Some(s) == Touched(j) || Tracked(c, s);
    }
    JobStepKeepsJobs(c, c', i);
  }

  lemma JobStepKeepsJobs(c: System, c': System, i: nat)
    requires JobsOK(c) && i < |c.jobs| && |c'.jobs| == |c.jobs| && c'.jobs == c.jobs[i := c'.jobs[i]]
    requires SameJob(c.jobs[i], c'.jobs[i]) && !Returned(c.jobs[i].pc)
    requires c'.latest == c.latest && c'.dialogs.Keys == c.dialogs.Keys
    ensures JobsOK(c')
  {
    forall k, x | 0 <= k < |c'.jobs| && InJob(c'.jobs[k], x)
      ensures x in c'.latest && k <= c'.latest[x] && (!Returned(c'.jobs[k].pc) ==> k == c'.latest[x])
    {
      assert InJob(c.jobs[k], x);
    }
  }

  lemma StepKeepsInv(c: System, i: nat, ok: bool)
    requires Inv(c) && Enabled(c, Step(i, ok))
    ensures Inv(Apply(c, Step(i, ok)))
  {
    StepKeepsBooks(c, i, ok);
    RunningJob(c, i);
    var c' := Apply(c, Step(i, ok));
    AdvanceTouches(c, c.jobs[i], ok);
    forall x | x in c'.dialogs ensures CallOK(c', x) {
      StepKeepsCalls(c, i, ok, x);
    }
  }

  // ----- Hang-ups and their callbacks -----

  /** Callback `k` of call `x` is new or has moved on; the others are as they were. */
  ghost predicate CallbacksMoved(c: System, c': System, x: CallId) {
    && (forall b :: b in c.callbacks && b.call != x ==> b in c'.callbacks)
    && (forall b :: b in c'.callbacks && b.call != x ==> b in c.callbacks)
  }

  lemma UnrelatedCallKept(c: System, c': System, x: CallId, y: CallId)
    requires c'.owner == c.owner && c'.latest == c.latest && c'.jobs == c.jobs && CallbacksMoved(c, c', x)
    requires y in c.dialogs && y in c'.dialogs && c'.dialogs[y] == c.dialogs[y] && y != x && CallOK(c, y)
    requires forall s :: SamePlace(c, c', s) || Owned(c, s, x)
    ensures CallOK(c', y)
  {
    FrameCall(c, c', y);
  }

  /** A callback of the call is added or changed and the dialog may end; no session is destroyed, and at
      most one more is taken. */
  lemma OwnCallKept(c: System, c': System, x: CallId, s: SessionId)
    requires c'.owner == c.owner && c'.latest == c.latest && c'.jobs == c.jobs && c'.affinity == c.affinity
    requires x in c.dialogs && x in c'.dialogs && CallOK(c, x)
    requires c'.dialogs[x] == c.dialogs[x].(live := c'.dialogs[x].live)
    requires c'.dialogs[x].live ==> forall b :: b in c'.callbacks && b.call == x ==> BeforeEnd(b)
    requires s == c.dialogs[x].session || s == c.dialogs[x].first
    requires forall r :: Gone(c', x, r) <==> Gone(c, x, r)
    requires forall r :: Taken(c', x, r) ==> Taken(c, x, r) || r == s
    ensures CallOK(c', x)
  {
  }

  /** One callback is added. */
  lemma AddedKeepsCall(c: System, c': System, next: Callback, y: CallId)
    requires next.call in c.dialogs && c'.callbacks == c.callbacks + [next]
    requires next == Reads(next.call) || next == LegDestroys(next.call, c.dialogs[next.call].first)
    requires c'.owner == c.owner && c'.latest == c.latest && c'.jobs == c.jobs && c'.affinity == c.affinity
    requires c'.dialogs == c.dialogs[next.call := c.dialogs[next.call].(live := c.dialogs[next.call].live
             && !next.Reads?)]
    requires y in c.dialogs && CallOK(c, y)
    ensures CallOK(c', y)
  {
    var x := next.call;
    if y == x {
      assert forall b :: b in c'.callbacks ==> b in c.callbacks || b == next;
      OwnCallKept(c, c', x, c.dialogs[x].first);
    } else {
      UnrelatedCallKept(c, c', x, y);
    }
  }

  lemma AddedKeepsInv(c: System, c': System, next: Callback)
    requires Inv(c) && next.call in c.dialogs && c'.callbacks == c.callbacks + [next]
    requires next == Reads(next.call) || next == LegDestroys(next.call, c.dialogs[next.call].first)
    requires c'.owner == c.owner && c'.latest == c.latest && c'.jobs == c.jobs && c'.affinity == c.affinity
    requires c'.dialogs == c.dialogs[next.call := c.dialogs[next.call].(live := c.dialogs[next.call].live
             && !next.Reads?)]
    ensures Inv(c')
  {
    AddedKeepsBooks(c, c', next);
    forall y | y in c'.dialogs ensures CallOK(c', y) {
      assert CallOK(c, y);
      AddedKeepsCall(c, c', next, y);
    }
  }

  lemma AddedKeepsBooks(c: System, c': System, next: Callback)
    requires BooksOK(c) && next.call in c.dialogs && c'.callbacks == c.callbacks + [next]
    requires c'.owner == c.owner && c'.latest == c.latest && c'.jobs == c.jobs && c'.affinity == c.affinity
    requires c'.dialogs.Keys == c.dialogs.Keys
    ensures BooksOK(c')
  {
  }

  /** Replacing one callback by a later stage of itself. */
  lemma CallbackMoves(c: System, c': System, k: nat)
    requires k < |c.callbacks| == |c'.callbacks| && c'.callbacks == c.callbacks[k := c'.callbacks[k]]
    requires c'.callbacks[k].call == c.callbacks[k].call
    ensures CallbacksMoved(c, c', c.callbacks[k].call)
    ensures forall b :: b in c.callbacks && b != c.callbacks[k] ==> b in c'.callbacks
    ensures forall b :: b in c'.callbacks ==> b in c.callbacks || b == c'.callbacks[k]
    ensures c'.callbacks[k] in c'.callbacks && c.callbacks[k] in c.callbacks
  {
    forall b | b in c.callbacks && b != c.callbacks[k] ensures b in c'.callbacks {
      var i :| 0 <= i < |c.callbacks| && c.callbacks[i] == b;
      assert c'.callbacks[i] == b;
    }
  }

  /** A callback goes on without destroying anything: it reads the dialog, or has ended it. */
  predicate Advances(c: System, k: nat, next: Callback) {
    && k < |c.callbacks| && c.callbacks[k].call in c.dialogs && next.call == c.callbacks[k].call
    && (|| (c.callbacks[k].Reads? && next == Destroys(next.call, c.dialogs[next.call].session))
        || (c.callbacks[k].EndsDialog? && next == Finished(next.call, c.callbacks[k].session)))
  }

  lemma AdvanceKeepsCallback(c: System, k: nat, next: Callback, y: CallId)
    requires Advances(c, k, next) && !c.dialogs[next.call].live && y in c.dialogs && CallOK(c, y)
    ensures CallOK(CallbackAt(c, k, next), y)
  {
    var c', x := CallbackAt(c, k, next), next.call;
    CallbackMoves(c, c', k);
    if y == x {
      OwnCallKept(c, c', x, c.dialogs[x].session);
    } else {
      UnrelatedCallKept(c, c', x, y);
    }
  }

  lemma ReadKeepsInv(c: System, k: nat, next: Callback)
    requires Inv(c) && Advances(c, k, next) && !c.dialogs[next.call].live
    ensures Inv(CallbackAt(c, k, next))
  {
    ReadKeepsBooks(c, k, next);
    forall y | y in c.dialogs ensures CallOK(CallbackAt(c, k, next), y) {
      assert CallOK(c, y);
      AdvanceKeepsCallback(c, k, next, y);
    }
  }

  lemma ReadKeepsBooks(c: System, k: nat, next: Callback)
    requires BooksOK(c) && Advances(c, k, next)
    ensures BooksOK(CallbackAt(c, k, next))
  {
    CallbackMoves(c, CallbackAt(c, k, next), k);
  }

  /** The leg's callback ends the dialog. */
  lemma LegEndKeepsInv(c: System, k: nat)
    requires Inv(c) && Enabled(c, Proceed(k)) && c.callbacks[k].EndsDialog?
    ensures Inv(Apply(c, Proceed(k)))
  {
    var x, s := c.callbacks[k].call, c.callbacks[k].session;
    AddedKeepsInv(c, Ended(c, x), Reads(x));
    var d := Ended(c, x);
    assert d.callbacks[k] == c.callbacks[k];
    ReadKeepsInv(d, k, Finished(x, s));
    assert Apply(c, Proceed(k)) == CallbackAt(d, k, Finished(x, s)) by {
      assert c.callbacks[k := Finished(x, s)] + [Reads(x)] == (c.callbacks + [Reads(x)])[k := Finished(x, s)];
    }
  }

  /** A callback of the call destroys a session it has hold of. */
  lemma DestroyKeepsOwnCall(c: System, c': System, x: CallId, s: SessionId)
    requires c'.owner == c.owner && c'.latest == c.latest && c'.jobs == c.jobs && c'.dialogs == c.dialogs
    requires x in c.dialogs && CallOK(c, x) && Taken(c, x, s)
    requires c.dialogs[x].live ==> forall b :: b in c'.callbacks && b.call == x ==> BeforeEnd(b)
    requires c'.affinity == Untrack(c.affinity, s) && Gone(c', x, s)
    requires forall r :: r != s ==> (Gone(c', x, r) <==> Gone(c, x, r))
    requires forall r :: Taken(c', x, r) ==> Taken(c, x, r)
    ensures CallOK(c', x)
  {
    assert forall r :: Tracked(c', r) <==> Tracked(c, r) && r != s;
    assert forall r :: r != s ==> SamePlace(c, c', r);
    if x in c.latest {
      DestroyKeepsLeg(c, c', c.jobs[c.latest[x]], x, s);
    }
  }

  lemma DestroyKeepsLeg(c: System, c': System, j: Job, x: CallId, s: SessionId)
    requires c'.owner == c.owner && c'.dialogs == c.dialogs && x in c.dialogs && LegOK(c, j, x) && Taken(c, x, s)
    requires forall r :: r != s ==> SamePlace(c, c', r)
    requires !Tracked(c', s) && Gone(c', x, s)
    requires forall r :: r != s ==> (Gone(c', x, r) <==> Gone(c, x, r))
    requires forall r :: Taken(c', x, r) ==> Taken(c, x, r)
    ensures LegOK(c', j, x)
  {
    var was, next := Old(j, x), New(j, x);
    assert SamePlace(c, c', was) || s == was;
    assert SamePlace(c, c', next) || s == next;
    forall r | Tracked(c', r) && r in c'.owner && c'.owner[r] == x ensures r == was || r == next {
      assert SamePlace(c, c', r);
    }
  }

  /** A callback destroys the session it has hold of. */
  predicate Strikes(c: System, k: nat, next: Callback) {
    && k < |c.callbacks| && c.callbacks[k].call in c.dialogs
    && (|| (c.callbacks[k].Destroys? && next == Finished(c.callbacks[k].call, c.callbacks[k].session))
        || (c.callbacks[k].LegDestroys? && next == EndsDialog(c.callbacks[k].call, c.callbacks[k].session)))
  }

  function Struck(c: System, k: nat, next: Callback): System
    requires Strikes(c, k, next)
  {
    CallbackAt(c, k, next).(affinity := Untrack(c.affinity, c.callbacks[k].session))
  }

  lemma DestroyKeepsCall(c: System, k: nat, next: Callback, y: CallId)
    requires Strikes(c, k, next) && CallOK(c, c.callbacks[k].call) && y in c.dialogs && CallOK(c, y)
    ensures CallOK(Struck(c, k, next), y)
  {
    var c', x, s := Struck(c, k, next), c.callbacks[k].call, c.callbacks[k].session;
    StruckTakes(c, k, next);
    if y == x {
      DestroyKeepsOwnCall(c, c', x, s);
    } else {
      assert CallOK(c, x) && Owned(c, s, x);
      assert forall r :: r != s ==> SamePlace(c, c', r);
      UnrelatedCallKept(c, c', x, y);
    }
  }

  lemma StruckTakes(c: System, k: nat, next: Callback)
    requires Strikes(c, k, next) && DialogOK(c, c.callbacks[k].call)
    ensures var c', x, s := Struck(c, k, next), c.callbacks[k].call, c.callbacks[k].session;
            && CallbacksMoved(c, c', x) && Taken(c, x, s) && Gone(c', x, s)
            && (forall r :: r != s ==> (Gone(c', x, r) <==> Gone(c, x, r)))
            && (forall r :: Taken(c', x, r) ==> Taken(c, x, r))
            && (c.dialogs[x].live ==> forall b :: b in c'.callbacks && b.call == x ==> BeforeEnd(b))
  {
    CallbackMoves(c, Struck(c, k, next), k);
    assert c.callbacks[k] in c.callbacks;
  }

  lemma DestroyKeepsBooks(c: System, k: nat, next: Callback)
    requires BooksOK(c) && Strikes(c, k, next)
    ensures BooksOK(Struck(c, k, next))
  {
    CallbackMoves(c, Struck(c, k, next), k);
    UntrackKeepsMirror(c.affinity, c.callbacks[k].session);
  }

  lemma DestroyKeepsInv(c: System, k: nat, next: Callback)
    requires Inv(c) && Strikes(c, k, next)
    ensures Inv(Struck(c, k, next))
  {
    DestroyKeepsBooks(c, k, next);
    assert CallOK(c, c.callbacks[k].call);
    forall y | y in c.dialogs ensures CallOK(Struck(c, k, next), y) {
      assert CallOK(c, y);
      DestroyKeepsCall(c, k, next, y);
    }
  }

  // ----- New calls and new migrations -----

  lemma SetupKeepsInv(c: System, x: CallId, s: SessionId, n: NodeId)
    requires Inv(c) && Enabled(c, Setup(x, s, n))
    ensures Inv(Apply(c, Setup(x, s, n)))
  {
    SetupKeepsBooks(c, x, s, n);
    NewCallIsOK(c, x, s, n);
    forall y | y in Apply(c, Setup(x, s, n)).dialogs ensures CallOK(Apply(c, Setup(x, s, n)), y) {
      if y != x {
        assert CallOK(c, y);
        SetupKeepsCall(c, x, s, n, y);
      }
    }
  }

  lemma SetupKeepsBooks(c: System, x: CallId, s: SessionId, n: NodeId)
    requires BooksOK(c) && Enabled(c, Setup(x, s, n))
    ensures BooksOK(Apply(c, Setup(x, s, n)))
  {
    TrackKeepsMirrorIff(c.affinity, s, n);
  }

  lemma SetupKeepsCall(c: System, x: CallId, s: SessionId, n: NodeId, y: CallId)
    requires Enabled(c, Setup(x, s, n)) && y in c.dialogs && CallOK(c, y)
    ensures CallOK(Apply(c, Setup(x, s, n)), y)
  {
    FrameCall(c, Apply(c, Setup(x, s, n)), y);
  }

  lemma NewCallIsOK(c: System, x: CallId, s: SessionId, n: NodeId)
    requires BooksOK(c) && Enabled(c, Setup(x, s, n))
    requires forall b :: b in c.callbacks ==> b.call in c.dialogs
    ensures CallOK(Apply(c, Setup(x, s, n)), x)
  {
  }

  /** The calls that a new migration takes on. */
  lemma SpawnKeepsOwnCall(c: System, j: Job, x: CallId)
    requires Enabled(c, Spawn(j)) && InJob(j, x) && CallOK(c, x)
    requires forall s :: Tracked(c, s) ==> s in c.owner
    requires x in c.latest ==> c.latest[x] < |c.jobs| && Returned(c.jobs[c.latest[x]].pc)
    ensures CallOK(Apply(c, Spawn(j)), x)
  {
    var c', d := Apply(c, Spawn(j)), c.dialogs[x];
    assert c'.jobs[c'.latest[x]] == j;
    assert Kept(c, x, d.session) && NoOther(c, x, d.session, d.session) by {
      if x in c.latest {
        ReturnedLegIsIdle(c, c.jobs[c.latest[x]], x);
      }
    }
    SpawnedLegIsOK(c, j, x);
  }

  /** When a migration has returned, its calls have one session each, tracked unless destroyed. */
  lemma ReturnedLegIsIdle(c: System, j: Job, x: CallId)
    requires x in c.dialogs && LegOK(c, j, x) && Returned(j.pc)
    ensures Kept(c, x, c.dialogs[x].session) && NoOther(c, x, c.dialogs[x].session, c.dialogs[x].session)
  {
  }

  lemma SpawnedLegIsOK(c: System, j: Job, x: CallId)
    requires Enabled(c, Spawn(j)) && InJob(j, x) && DialogOK(c, x)
    requires forall s :: Tracked(c, s) ==> s in c.owner
    requires Kept(c, x, c.dialogs[x].session) && NoOther(c, x, c.dialogs[x].session, c.dialogs[x].session)
    ensures LegOK(Apply(c, Spawn(j)), j, x) && DialogOK(Apply(c, Spawn(j)), x)
  {
    var c' := Apply(c, Spawn(j));
    assert forall s :: Taken(c', x, s) <==> Taken(c, x, s);
    assert !Taken(c, x, New(j, x));
  }

  lemma SpawnKeepsOtherCall(c: System, j: Job, y: CallId)
    requires Enabled(c, Spawn(j)) && !InJob(j, y) && y in c.dialogs && CallOK(c, y)
    ensures CallOK(Apply(c, Spawn(j)), y)
  {
    FrameCall(c, Apply(c, Spawn(j)), y);
  }

  lemma SpawnKeepsJobs(c: System, j: Job)
    requires JobsOK(c) && Enabled(c, Spawn(j))
    ensures JobsOK(Apply(c, Spawn(j)))
  {
    var c' := Apply(c, Spawn(j));
    forall i, x | 0 <= i < |c'.jobs| && InJob(c'.jobs[i], x)
      ensures x in c'.latest && i <= c'.latest[x] && (!Returned(c'.jobs[i].pc) ==> i == c'.latest[x])
    {
      if i < |c.jobs| {
        assert InJob(c.jobs[i], x);
      }
    }
  }

  lemma SpawnKeepsInv(c: System, j: Job)
    requires Inv(c) && Enabled(c, Spawn(j))
    ensures Inv(Apply(c, Spawn(j)))
  {
    var c' := Apply(c, Spawn(j));
    SpawnKeepsBooks(c, j);
    forall y | y in c'.dialogs ensures CallOK(c', y) {
      assert CallOK(c, y);
      SpawnKeepsCall(c, j, y);
    }
  }

  lemma SpawnKeepsCall(c: System, j: Job, y: CallId)
    requires BooksOK(c) && Enabled(c, Spawn(j)) && y in c.dialogs && CallOK(c, y)
    ensures CallOK(Apply(c, Spawn(j)), y)
  {
    if InJob(j, y) {
      SpawnKeepsOwnCall(c, j, y);
    } else {
      SpawnKeepsOtherCall(c, j, y);
    }
  }

  lemma SpawnKeepsBooks(c: System, j: Job)
    requires BooksOK(c) && Enabled(c, Spawn(j))
    ensures BooksOK(Apply(c, Spawn(j)))
  {
    SpawnKeepsJobs(c, j);
  }

  // ----- Runs -----

  lemma EventKeepsInv(c: System, e: Event)
    requires Inv(c) && Enabled(c, e)
    ensures Inv(Apply(c, e))
  {
    match e {
      case Setup(x, s, n) => SetupKeepsInv(c, x, s, n);
      case Spawn(j) => SpawnKeepsInv(c, j);
      case Step(i, ok) => StepKeepsInv(c, i, ok);
      case HangUp(x) => AddedKeepsInv(c, Ended(c, x), Reads(x));
      case LegEnds(x) =>
        var next := LegDestroys(x, c.dialogs[x].first);
        assert c.dialogs == c.dialogs[x := c.dialogs[x]];
        AddedKeepsInv(c, Called(c, next), next);
      case Proceed(k) => ProceedKeepsInv(c, k);
    }
  }

  lemma ProceedKeepsInv(c: System, k: nat)
    requires Inv(c) && Enabled(c, Proceed(k))
    ensures Inv(Apply(c, Proceed(k)))
  {
    var b := c.callbacks[k];
    match b {
      case Reads(x) =>
        assert CallOK(c, x) && b in c.callbacks && !BeforeEnd(b);
        ReadKeepsInv(c, k, Destroys(x, c.dialogs[x].session));
      case Destroys(x, s) => DestroyKeepsInv(c, k, Finished(x, s));
      case LegDestroys(x, s) => DestroyKeepsInv(c, k, EndsDialog(x, s));
      case EndsDialog(_, _) => LegEndKeepsInv(c, k);
    }
  }

  lemma {:induction false} RunKeepsInv(c: System, es: seq<Event>)
    requires Inv(c) && Feasible(c, es)
    ensures Inv(After(c, es))
    decreases |es|
  {
    if es != [] {
      EventKeepsInv(c, es[0]);
      RunKeepsInv(Apply(c, es[0]), es[1..]);
    }
  }

  lemma EmptyInv()
    ensures Inv(EMPTY)
  {
  }
}
