/** Any number of two-leg migrations at once, interleaved effect by effect with each other, with calls
    being set up, and with calls being hung up at any point.

    When a dialog ends, a callback in its own goroutine reads the dialog's session and, later, destroys
    it in the pool.  When a leg ends, its own callback destroys the session the leg was set up with, and
    then ends the dialog. */
module ConcurrentMigrations {
  import opened CallStates
  import opened MediaPool

  /** Where a graceful two-leg migration stands: before each of its effects on the pool and on the
      dialogs, or at one of its three ends. */
  datatype Pc =
    | CreatesA | CreatesB | InvitesA | InvitesB(accepted: bool)   // making the new sessions
    | UndoesA | UndoesB | UndoesOnlyA                            // rolling back
    | DropsA | DropsB | RenamesA | RenamesB                      // committing
    | Rebridges
    | RolledBack | Moved | MovedUnbridged                        // returned

  /** The calls, their sessions when the migration began, the identifiers the target will give the
      new ones, and the nodes the call leaves and goes to. */
  datatype Job = Job(a: CallId, b: CallId, oldA: SessionId, oldB: SessionId, newA: SessionId, newB: SessionId,
                     home: NodeId, target: NodeId, pc: Pc)

  /** `first` is the session the leg was set up with. */
  datatype Dialog = Dialog(session: SessionId, first: SessionId, live: bool)

  /** What follows the end of a dialog, or of a leg (which destroys and then ends the dialog). */
  datatype Callback =
    | Reads(call: CallId)
    | Destroys(call: CallId, session: SessionId)
    | LegDestroys(call: CallId, session: SessionId)
    | EndsDialog(call: CallId, session: SessionId)
    | Finished(call: CallId, session: SessionId)

  /** `owner` and `latest` are history: the call each identifier was generated for, and the last
      migration of each call. */
  datatype System = System(affinity: Affinity, dialogs: map<CallId, Dialog>, jobs: seq<Job>, callbacks: seq<Callback>,
                           owner: map<SessionId, CallId>, latest: map<CallId, nat>)

  datatype Event =
    | Setup(call: CallId, session: SessionId, node: NodeId)
    | Spawn(job: Job)
    | Step(i: nat, ok: bool)
    | HangUp(call: CallId)
    | LegEnds(call: CallId)
    | Proceed(k: nat)

  predicate Returned(pc: Pc) {
    pc.RolledBack? || pc.Moved? || pc.MovedUnbridged?
  }

  predicate InJob(j: Job, x: CallId) {
    x == j.a || x == j.b
  }

  function Old(j: Job, x: CallId): SessionId {
    if x == j.a then j.oldA else j.oldB
  }

  function New(j: Job, x: CallId): SessionId {
    if x == j.a then j.newA else j.newB
  }

  predicate Tracked(c: System, s: SessionId) {
    s in c.affinity.nodeOf
  }

  predicate OnNode(c: System, s: SessionId, n: NodeId) {
    s in c.affinity.nodeOf && c.affinity.nodeOf[s] == n
  }

  predicate Names(c: System, x: CallId, s: SessionId) {
    x in c.dialogs && c.dialogs[x].session == s
  }

  /** A callback of the call has destroyed the session. */
  predicate Gone(c: System, x: CallId, s: SessionId) {
    EndsDialog(x, s) in c.callbacks || Finished(x, s) in c.callbacks
  }

  /** Some callback of the call has hold of the session, or has destroyed it. */
  predicate Taken(c: System, x: CallId, s: SessionId) {
    Destroys(x, s) in c.callbacks || LegDestroys(x, s) in c.callbacks || Gone(c, x, s)
  }

  /** The identifier of the session that the target answers with: a new one, or one that the call was
      given before, which the pool has forgotten and the target still has because it was never told. */
  predicate CanAnswer(c: System, x: CallId, s: SessionId)
    requires x in c.dialogs
  {
    || s !in c.owner
    || (c.owner[s] == x && !Tracked(c, s) && s != c.dialogs[x].session && s != c.dialogs[x].first && !Taken(c, x, s))
  }

  // ----- Steps -----

  /** Identifiers are generated for one call only, and a call is in one migration at a time. */
  predicate Enabled(c: System, e: Event) {
    match e
    case Setup(x, s, _) => x !in c.dialogs && s !in c.owner
    case Spawn(j) =>
      && j.pc.CreatesA? && j.a != j.b
      && Names(c, j.a, j.oldA) && Names(c, j.b, j.oldB) && c.dialogs[j.a].live
      && (Tracked(c, j.oldA) ==> OnNode(c, j.oldA, j.home)) && (Tracked(c, j.oldB) ==> OnNode(c, j.oldB, j.home))
      && CanAnswer(c, j.a, j.newA) && CanAnswer(c, j.b, j.newB) && j.newA != j.newB
      && (forall i :: 0 <= i < |c.jobs| && (InJob(c.jobs[i], j.a) || InJob(c.jobs[i], j.b)) ==> Returned(c.jobs[i].pc))
    case Step(i, _) => i < |c.jobs| && !Returned(c.jobs[i].pc) && c.jobs[i].a in c.dialogs && c.jobs[i].b in c.dialogs
    case HangUp(x) => x in c.dialogs
    case LegEnds(x) => x in c.dialogs
    case Proceed(k) => k < |c.callbacks| && !c.callbacks[k].Finished? && c.callbacks[k].call in c.dialogs
  }

  /** One effect of a migration; `ok` is the outcome of the remote call or of the re-INVITE, which a
      dialog that has ended refuses. */
  function Advance(c: System, j: Job, ok: bool): (Affinity, map<CallId, Dialog>, Pc)
    requires j.a in c.dialogs && j.b in c.dialogs
  {
    match j.pc
    case CreatesA =>
      if ok then (Track(c.affinity, j.newA, j.target), c.dialogs, CreatesB) else (c.affinity, c.dialogs, RolledBack)
    case CreatesB =>
      if ok then (Track(c.affinity, j.newB, j.target), c.dialogs, InvitesA) else (c.affinity, c.dialogs, UndoesOnlyA)
    case InvitesA => (c.affinity, c.dialogs, InvitesB(ok && c.dialogs[j.a].live))
    case InvitesB(accepted) =>
      (c.affinity, c.dialogs, if accepted && ok && c.dialogs[j.b].live then DropsA else UndoesA)
    case UndoesOnlyA => (Untrack(c.affinity, j.newA), c.dialogs, RolledBack)
    case UndoesA => (Untrack(c.affinity, j.newA), c.dialogs, UndoesB)
    case UndoesB => (Untrack(c.affinity, j.newB), c.dialogs, RolledBack)
    case DropsA => (Untrack(c.affinity, j.oldA), c.dialogs, DropsB)
    case DropsB => (Untrack(c.affinity, j.oldB), c.dialogs, RenamesA)
    case RenamesA => (c.affinity, c.dialogs[j.a := c.dialogs[j.a].(session := j.newA)], RenamesB)
    case RenamesB => (c.affinity, c.dialogs[j.b := c.dialogs[j.b].(session := j.newB)], Rebridges)
    case Rebridges => (c.affinity, c.dialogs, if ok then Moved else MovedUnbridged)
    case RolledBack => (c.affinity, c.dialogs, RolledBack)
    case Moved => (c.affinity, c.dialogs, Moved)
    case MovedUnbridged => (c.affinity, c.dialogs, MovedUnbridged)
  }

  function Called(c: System, next: Callback): System {
    c.(callbacks := c.callbacks + [next])
  }

  /** The dialog ends, and its callback is started. */
  function Ended(c: System, x: CallId): System
    requires x in c.dialogs
  {
    Called(c.(dialogs := c.dialogs[x := c.dialogs[x].(live := false)]), Reads(x))
  }

  function CallbackAt(c: System, k: nat, next: Callback): System
    requires k < |c.callbacks|
  {
    c.(callbacks := c.callbacks[k := next])
  }

  function Apply(c: System, e: Event): System
    requires Enabled(c, e)
  {
    match e
    case Setup(x, s, n) =>
      c.(affinity := Track(c.affinity, s, n), dialogs := c.dialogs[x := Dialog(s, s, true)], owner := c.owner[s := x])
    case Spawn(j) =>
      c.(jobs := c.jobs + [j], owner := c.owner[j.newA := j.a][j.newB := j.b],
         latest := c.latest[j.a := |c.jobs|][j.b := |c.jobs|])
    case Step(i, ok) =>
      var (aff, dialogs, pc) := Advance(c, c.jobs[i], ok);
      c.(affinity := aff, dialogs := dialogs, jobs := c.jobs[i := c.jobs[i].(pc := pc)])
    case HangUp(x) => Ended(c, x)
    case LegEnds(x) => Called(c, LegDestroys(x, c.dialogs[x].first))
    case Proceed(k) =>
      match c.callbacks[k]
      case Reads(x) => CallbackAt(c, k, Destroys(x, c.dialogs[x].session))
      case Destroys(x, s) => CallbackAt(c, k, Finished(x, s)).(affinity := Untrack(c.affinity, s))
      case LegDestroys(x, s) => CallbackAt(c, k, EndsDialog(x, s)).(affinity := Untrack(c.affinity, s))
      case EndsDialog(x, s) => Ended(CallbackAt(c, k, Finished(x, s)), x)
      case Finished(_, _) => c
  }

  predicate Feasible(c: System, es: seq<Event>)
    decreases |es|
  {
    es == [] || (Enabled(c, es[0]) && Feasible(Apply(c, es[0]), es[1..]))
  }

  function After(c: System, es: seq<Event>): System
    requires Feasible(c, es)
    decreases |es|
  {
    if es == [] then c else After(Apply(c, es[0]), es[1..])
  }

  const EMPTY: System := System(NO_AFFINITY, map[], [], [], map[], map[])
}
