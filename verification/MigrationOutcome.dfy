/** What migrations leave behind, whatever is hung up while they are under way. */
module MigrationOutcome {
  import opened CallStates
  import opened MediaPool
  import opened ConcurrentMigrations
  import opened MigrationSafety

  /** No later migration has taken on a call of the `i`-th. */
  predicate IsLatest(c: System, i: nat)
    requires i < |c.jobs|
  {
    forall k :: i < k < |c.jobs| ==> !InJob(c.jobs[k], c.jobs[i].a) && !InJob(c.jobs[k], c.jobs[i].b)
  }

  /** The call carries session `s`, which is on `n` unless a callback of the call has destroyed it; if the
      dialog has not ended, that can only be its leg's callback, which is about to end it. */
  ghost predicate Carries(c: System, x: CallId, s: SessionId, n: NodeId) {
    && Names(c, x, s)
    && (Gone(c, x, s) ==> !Tracked(c, s) && (c.dialogs[x].live ==> EndsDialog(x, s) in c.callbacks))
    && (!Gone(c, x, s) ==> OnNode(c, s, n))
  }

  lemma LatestJob(c: System, i: nat, x: CallId)
    requires Inv(c) && i < |c.jobs| && IsLatest(c, i) && InJob(c.jobs[i], x)
    ensures x in c.dialogs && x in c.latest && c.latest[x] == i && CallOK(c, x)
  {
    assert x in c.latest && i <= c.latest[x];
    assert CallOK(c, x);
  }

  lemma ReturnedLeg(c: System, j: Job, x: CallId)
    requires x in c.dialogs && InJob(j, x) && LegOK(c, j, x) && DialogOK(c, x) && Returned(j.pc)
    ensures j.pc.RolledBack? ==> Carries(c, x, Old(j, x), j.home) && !Tracked(c, New(j, x))
    ensures !j.pc.RolledBack? ==> Carries(c, x, New(j, x), j.target) && !Tracked(c, Old(j, x))
  {
    assert Finished(x, Old(j, x)).call == x && Finished(x, New(j, x)).call == x;
  }

  /** In every interleaving of any number of migrations, set-ups and hang-ups, a migration that has
      returned, and whose calls no later one has taken on, has moved both legs or neither: the dialogs
      carry both new sessions on the target or both old ones at home, except those that the callbacks of
      calls hung up meanwhile have destroyed, and the other pair is forgotten. */
  lemma FinishedMigrationIsWhole(es: seq<Event>, i: nat)
    requires Feasible(EMPTY, es) && i < |After(EMPTY, es).jobs|
    requires Returned(After(EMPTY, es).jobs[i].pc) && IsLatest(After(EMPTY, es), i)
    ensures var d := After(EMPTY, es);
            var j := d.jobs[i];
            && Mirror(d.affinity)
            && (j.pc.RolledBack? ==>
                  && Carries(d, j.a, j.oldA, j.home) && Carries(d, j.b, j.oldB, j.home)
                  && !Tracked(d, j.newA) && !Tracked(d, j.newB))
            && (!j.pc.RolledBack? ==>
                  && Carries(d, j.a, j.newA, j.target) && Carries(d, j.b, j.newB, j.target)
                  && !Tracked(d, j.oldA) && !Tracked(d, j.oldB))
  {
    EmptyInv();
    RunKeepsInv(EMPTY, es);
    var d := After(EMPTY, es);
    var j := d.jobs[i];
    LatestJob(d, i, j.a);
    LatestJob(d, i, j.b);
    assert j.a != j.b;
    ReturnedLeg(d, j, j.a);
    ReturnedLeg(d, j, j.b);
  }

  // ----- A call that is over is not moved -----

  /** The migration has yet to hear from a call that is over, or has been refused. */
  predicate Doomed(c: System, i: nat) {
    && i < |c.jobs| && c.jobs[i].a in c.dialogs && c.jobs[i].b in c.dialogs
    && var j := c.jobs[i];
       || j.pc == InvitesB(false) || j.pc.UndoesA? || j.pc.UndoesB? || j.pc.UndoesOnlyA? || j.pc.RolledBack?
       || ((j.pc.CreatesA? || j.pc.CreatesB? || j.pc.InvitesA?) && (!c.dialogs[j.a].live || !c.dialogs[j.b].live))
       || (j.pc.InvitesB? && !c.dialogs[j.b].live)
  }

  lemma StaysDoomed(c: System, e: Event, i: nat)
    requires Doomed(c, i) && Enabled(c, e)
    ensures Doomed(Apply(c, e), i)
  {
  }

  /** If a party has ended the call before its re-INVITE, the migration can only roll back. */
  lemma {:induction false} EndedCallIsNotMoved(c: System, es: seq<Event>, i: nat)
    requires Doomed(c, i) && Feasible(c, es)
    ensures Doomed(After(c, es), i) && (Returned(After(c, es).jobs[i].pc) ==> After(c, es).jobs[i].pc.RolledBack?)
    decreases |es|
  {
    if es != [] {
      StaysDoomed(c, es[0], i);
      EndedCallIsNotMoved(Apply(c, es[0]), es[1..], i);
    }
  }

  /** A migration whose dialogs are renamed reports success exactly if the target joins the sessions. */
  lemma ReportIsExact(c: System, i: nat, ok: bool)
    requires Enabled(c, Step(i, ok)) && c.jobs[i].pc.Rebridges?
    ensures Apply(c, Step(i, ok)).jobs[i].pc == if ok then Moved else MovedUnbridged
  {
  }

  // ----- What is left when everything has come to rest -----

  predicate AtRest(c: System) {
    && (forall j :: j in c.jobs ==> Returned(j.pc))
    && (forall b :: b in c.callbacks ==> b.Finished?)
  }

  /** The sessions of a call that the pool still tracks. */
  function SessionsOf(c: System, x: CallId): set<SessionId> {
    set s | s in c.affinity.nodeOf && s in c.owner && c.owner[s] == x
  }

  lemma RestingCall(c: System, x: CallId)
    requires Inv(c) && AtRest(c) && x in c.dialogs
    ensures SessionsOf(c, x) == if Gone(c, x, c.dialogs[x].session) then {} else {c.dialogs[x].session}
    ensures Gone(c, x, c.dialogs[x].session) <==> Taken(c, x, c.dialogs[x].session)
    ensures c.dialogs[x].live ==> !Gone(c, x, c.dialogs[x].session)
  {
    assert CallOK(c, x);
    var s := c.dialogs[x].session;
    if x in c.latest {
      ReturnedLegIsIdle(c, c.jobs[c.latest[x]], x);
    }
    assert Finished(x, s).call == x;
    forall r | r in SessionsOf(c, x) ensures r == s {
      assert Tracked(c, r);
    }
  }

  /** At rest, a call has exactly the session its dialog carries, and not even that if a callback of the
      call got hold of it: a call that was hung up leaves a session behind if and only if none of its
      callbacks read the dialog after it was given its last session. */
  lemma HungUpCallLeavesSessionIff(es: seq<Event>, x: CallId)
    requires Feasible(EMPTY, es) && AtRest(After(EMPTY, es)) && x in After(EMPTY, es).dialogs
    ensures var d := After(EMPTY, es);
            var s := d.dialogs[x].session;
            && (d.dialogs[x].live ==> SessionsOf(d, x) == {s})
            && (SessionsOf(d, x) != {} <==> !Taken(d, x, s))
            && SessionsOf(d, x) <= {s}
  {
    EmptyInv();
    RunKeepsInv(EMPTY, es);
    var d := After(EMPTY, es);
    RestingCall(d, x);
  }

  // ----- When a callback comes too early -----

  /** The step gives the call's dialog its new session. */
  predicate Renames(c: System, e: Event, x: CallId) {
    && e.Step? && Enabled(c, e)
    && ((c.jobs[e.i].pc.RenamesA? && c.jobs[e.i].a == x) || (c.jobs[e.i].pc.RenamesB? && c.jobs[e.i].b == x))
  }

  predicate RenamedIn(c: System, es: seq<Event>, x: CallId)
    requires Feasible(c, es)
    decreases |es|
  {
    es != [] && (Renames(c, es[0], x) || RenamedIn(Apply(c, es[0]), es[1..], x))
  }

  lemma TakenStays(c: System, e: Event, x: CallId, s: SessionId)
    requires Enabled(c, e) && Taken(c, x, s)
    ensures Taken(Apply(c, e), x, s)
  {
    if e.Proceed? {
      ProceedKeepsTaken(c, e.k, x, s);
    }
  }

  lemma ProceedKeepsTaken(c: System, k: nat, x: CallId, s: SessionId)
    requires Enabled(c, Proceed(k)) && Taken(c, x, s)
    ensures Taken(Apply(c, Proceed(k)), x, s)
  {
    var c' := Apply(c, Proceed(k));
    var b := c'.callbacks[k];
    CallbackMoves(c, CallbackAt(c, k, b), k);
    assert forall q :: q in CallbackAt(c, k, b).callbacks ==> q in c'.callbacks;
    assert b in c'.callbacks;
  }

  lemma OnlyRenamesMoveOn(c: System, e: Event, x: CallId)
    requires Enabled(c, e) && x in c.dialogs
    ensures x in Apply(c, e).dialogs
    ensures !Renames(c, e, x) ==> Apply(c, e).dialogs[x].session == c.dialogs[x].session
  {
  }

  /** The new session is one that no callback has hold of. */
  lemma RenamedToUntaken(c: System, e: Event, x: CallId)
    requires Inv(c) && Renames(c, e, x)
    ensures x in c.dialogs && !Taken(c, x, Apply(c, e).dialogs[x].session)
  {
    RunningJob(c, e.i);
    RenamedToNew(c, e, x);
  }

  lemma RenamedToNew(c: System, e: Event, x: CallId)
    requires Renames(c, e, x) && c.jobs[e.i].a != c.jobs[e.i].b
    ensures InJob(c.jobs[e.i], x) && PhaseOf(c.jobs[e.i], x).Dropped?
    ensures x in Apply(c, e).dialogs && Apply(c, e).dialogs[x].session == New(c.jobs[e.i], x)
  {
  }

  lemma {:induction false} TakenForGood(c: System, es: seq<Event>, x: CallId, s: SessionId)
    requires Feasible(c, es) && Taken(c, x, s)
    ensures Taken(After(c, es), x, s)
    decreases |es|
  {
    if es != [] {
      TakenStays(c, es[0], x, s);
      TakenForGood(Apply(c, es[0]), es[1..], x, s);
    }
  }

  /** A callback that has its session keeps to it. */
  lemma {:induction false} CallbackKeepsSession(c: System, es: seq<Event>, k: nat)
    requires Feasible(c, es) && k < |c.callbacks| && !c.callbacks[k].Reads?
    ensures k < |After(c, es).callbacks| && !After(c, es).callbacks[k].Reads?
    ensures After(c, es).callbacks[k].call == c.callbacks[k].call
    ensures After(c, es).callbacks[k].session == c.callbacks[k].session
    decreases |es|
  {
    if es != [] {
      var d := Apply(c, es[0]);
      assert k < |d.callbacks| && !d.callbacks[k].Reads?;
      CallbackKeepsSession(d, es[1..], k);
    }
  }

  /** A dialog that is renamed ends up with a session that no callback had hold of before. */
  lemma {:induction false} RenamedEndsUntaken(c: System, es: seq<Event>, x: CallId)
    requires Inv(c) && Feasible(c, es) && x in c.dialogs && RenamedIn(c, es, x)
    ensures x in After(c, es).dialogs && !Taken(c, x, After(c, es).dialogs[x].session)
    decreases |es|
  {
    var e, d, rest := es[0], Apply(c, es[0]), es[1..];
    EventKeepsInv(c, e);
    OnlyRenamesMoveOn(c, e, x);
    if RenamedIn(d, rest, x) {
      RenamedEndsUntaken(d, rest, x);
      var s := After(d, rest).dialogs[x].session;
      if Taken(c, x, s) {
        TakenStays(c, e, x, s);
      }
    } else {
      RenamedToUntaken(c, e, x);
      UnrenamedKeepsSession(d, rest, x);
    }
  }

  lemma {:induction false} UnrenamedKeepsSession(c: System, es: seq<Event>, x: CallId)
    requires Feasible(c, es) && x in c.dialogs && !RenamedIn(c, es, x)
    ensures x in After(c, es).dialogs && After(c, es).dialogs[x].session == c.dialogs[x].session
    decreases |es|
  {
    if es != [] {
      OnlyRenamesMoveOn(c, es[0], x);
      UnrenamedKeepsSession(Apply(c, es[0]), es[1..], x);
    }
  }

  /** Every callback that the call ever has already has its session, and one of them the session the
      dialog carries now. */
  predicate AllHaveRead(c: System, d: System, x: CallId)
    requires x in c.dialogs
  {
    && Taken(c, x, c.dialogs[x].session)
    && forall m :: 0 <= m < |d.callbacks| && d.callbacks[m].call == x ==> m < |c.callbacks| && !c.callbacks[m].Reads?
  }

  lemma NothingMoreTaken(c: System, es: seq<Event>, x: CallId, s: SessionId)
    requires Feasible(c, es) && x in c.dialogs && AllHaveRead(c, After(c, es), x) && Taken(After(c, es), x, s)
    ensures Taken(c, x, s)
  {
    var d := After(c, es);
    var m :| 0 <= m < |d.callbacks| && d.callbacks[m].call == x && !d.callbacks[m].Reads?
        && d.callbacks[m].session == s;
    CallbackKeepsSession(c, es, m);
    assert c.callbacks[m] in c.callbacks;
  }

  /** All callbacks of a call, of its dialog and of its leg, have read what they will destroy.  When all
      has come to rest, the call has left a session behind if and only if a migration has renamed the
      dialog since. */
  lemma EarlyCallbacksLeaveSessionIff(c: System, es: seq<Event>, x: CallId)
    requires Inv(c) && Feasible(c, es) && x in c.dialogs
    requires AtRest(After(c, es)) && AllHaveRead(c, After(c, es), x)
    ensures SessionsOf(After(c, es), x) != {} <==> RenamedIn(c, es, x)
  {
    var d := After(c, es);
    RunKeepsInv(c, es);
    if RenamedIn(c, es, x) {
      RenamedEndsUntaken(c, es, x);
      if Taken(d, x, d.dialogs[x].session) {
        NothingMoreTaken(c, es, x, d.dialogs[x].session);
      }
    } else {
      UnrenamedKeepsSession(c, es, x);
      TakenForGood(c, es, x, c.dialogs[x].session);
    }
    RestingCall(d, x);
  }

  // ----- Such a run -----

  lemma {:induction false} Then(c: System, es: seq<Event>, e: Event) returns (longer: seq<Event>)
    requires Feasible(c, es) && Enabled(After(c, es), e)
    ensures Feasible(c, longer) && After(c, longer) == Apply(After(c, es), e)
    decreases |es|
  {
    if es == [] {
      longer := [e];
      assert longer[1..] == [];
    } else {
      var rest := Then(Apply(c, es[0]), es[1..], e);
      longer := [es[0]] + rest;
      assert longer[1..] == rest;
    }
  }

  predicate FourSessions(j: Job) {
    && j.oldA != j.oldB && j.oldA != j.newA && j.oldA != j.newB
    && j.oldB != j.newA && j.oldB != j.newB && j.newA != j.newB
  }

  /** The state of a run with one migration, but for the index. */
  predicate Stands(c: System, j: Job, pc: Pc, callbacks: seq<Callback>, a: SessionId, b: SessionId, live: bool) {
    && c.jobs == [j.(pc := pc)] && c.callbacks == callbacks
    && c.dialogs == map[j.a := Dialog(a, j.oldA, live), j.b := Dialog(b, j.oldB, live)]
  }

  /** The only migration takes a step that goes well. */
  lemma StepOn(es: seq<Event>, j: Job, pc: Pc, callbacks: seq<Callback>, a: SessionId, b: SessionId, live: bool,
               pc': Pc, a': SessionId, b': SessionId) returns (longer: seq<Event>)
    requires Feasible(EMPTY, es) && Stands(After(EMPTY, es), j, pc, callbacks, a, b, live) && !Returned(pc)
             && j.a != j.b
    requires var (_, dialogs, next) := Advance(After(EMPTY, es), j.(pc := pc), true);
             next == pc' && dialogs == map[j.a := Dialog(a', j.oldA, live), j.b := Dialog(b', j.oldB, live)]
    ensures Feasible(EMPTY, longer) && Stands(After(EMPTY, longer), j, pc', callbacks, a', b', live)
  {
    longer := Then(EMPTY, es, Step(0, true));
  }

  /** A call is set up and its migration begins. */
  lemma Begins(j: Job) returns (es: seq<Event>)
    requires j.pc.CreatesA? && j.a != j.b && FourSessions(j)
    ensures Feasible(EMPTY, es) && Stands(After(EMPTY, es), j, CreatesA, [], j.oldA, j.oldB, true)
  {
    var start: seq<Event> := [];
    es := Then(EMPTY, start, Setup(j.a, j.oldA, j.home));
    es := Then(EMPTY, es, Setup(j.b, j.oldB, j.home));
    var c := After(EMPTY, es);
    assert c.owner == map[j.oldA := j.a, j.oldB := j.b] && c.jobs == [];
    assert OnNode(c, j.oldA, j.home) && OnNode(c, j.oldB, j.home);
    es := Then(EMPTY, es, Spawn(j));
  }

  /** The callback of a dialog, started last, runs to its end. */
  lemma DialogCallbackRuns(es: seq<Event>, x: CallId, others: seq<Callback>) returns (longer: seq<Event>)
    requires Feasible(EMPTY, es) && x in After(EMPTY, es).dialogs && After(EMPTY, es).callbacks == others + [Reads(x)]
    ensures Feasible(EMPTY, longer)
    ensures var c, d := After(EMPTY, es), After(EMPTY, longer);
            && d.jobs == c.jobs && d.dialogs == c.dialogs
            && d.callbacks == others + [Finished(x, c.dialogs[x].session)]
  {
    var s := After(EMPTY, es).dialogs[x].session;
    longer := Then(EMPTY, es, Proceed(|others|));
    assert After(EMPTY, longer).callbacks == others + [Destroys(x, s)];
    longer := Then(EMPTY, longer, Proceed(|others|));
  }

  /** A call is hung up and its callback runs to its end. */
  lemma HangUpNow(es: seq<Event>, x: CallId) returns (longer: seq<Event>)
    requires Feasible(EMPTY, es) && x in After(EMPTY, es).dialogs
    ensures Feasible(EMPTY, longer)
    ensures var c, d := After(EMPTY, es), After(EMPTY, longer);
            && d.jobs == c.jobs && d.callbacks == c.callbacks + [Finished(x, c.dialogs[x].session)]
            && d.dialogs == c.dialogs[x := c.dialogs[x].(live := false)]
  {
    longer := Then(EMPTY, es, HangUp(x));
    longer := DialogCallbackRuns(longer, x, After(EMPTY, es).callbacks);
  }

  lemma LegCallbackStarts(es: seq<Event>, x: CallId) returns (longer: seq<Event>)
    requires Feasible(EMPTY, es) && x in After(EMPTY, es).dialogs
    ensures Feasible(EMPTY, longer)
    ensures var c, d := After(EMPTY, es), After(EMPTY, longer);
            && d.jobs == c.jobs && d.callbacks == c.callbacks + [EndsDialog(x, c.dialogs[x].first)]
               && d.dialogs == c.dialogs
  {
    var c := After(EMPTY, es);
    longer := Then(EMPTY, es, LegEnds(x));
    assert After(EMPTY, longer).callbacks == c.callbacks + [LegDestroys(x, c.dialogs[x].first)];
    longer := Then(EMPTY, longer, Proceed(|c.callbacks|));
  }

  lemma LegCallbackEnds(es: seq<Event>, x: CallId) returns (longer: seq<Event>)
    requires Feasible(EMPTY, es) && x in After(EMPTY, es).dialogs
    ensures Feasible(EMPTY, longer)
    ensures var c, d := After(EMPTY, es), After(EMPTY, longer);
            && d.jobs == c.jobs && d.dialogs == c.dialogs[x := c.dialogs[x].(live := false)]
            && d.callbacks == c.callbacks + [Finished(x, c.dialogs[x].first)] + [Reads(x)]
  {
    longer := LegCallbackStarts(es, x);
    EndsDialogNow(After(EMPTY, longer), After(EMPTY, es).callbacks, x, After(EMPTY, es).dialogs[x].first);
    longer := Then(EMPTY, longer, Proceed(|After(EMPTY, es).callbacks|));
  }

  lemma EndsDialogNow(c: System, others: seq<Callback>, x: CallId, s: SessionId)
    requires c.callbacks == others + [EndsDialog(x, s)] && x in c.dialogs
    ensures Enabled(c, Proceed(|others|))
    ensures Apply(c, Proceed(|others|)) == c.(dialogs := c.dialogs[x := c.dialogs[x].(live := false)],
                                              callbacks := others + [Finished(x, s)] + [Reads(x)])
  {
    assert c.callbacks[|others| := Finished(x, s)] == others + [Finished(x, s)];
  }

  /** A leg ends, its callback ends the dialog, and the dialog's callback runs to its end. */
  lemma LegEndsNow(es: seq<Event>, x: CallId) returns (longer: seq<Event>)
    requires Feasible(EMPTY, es) && x in After(EMPTY, es).dialogs
    ensures Feasible(EMPTY, longer)
    ensures var c, d := After(EMPTY, es), After(EMPTY, longer);
            && d.jobs == c.jobs
            && d.callbacks == c.callbacks + [Finished(x, c.dialogs[x].first), Finished(x, c.dialogs[x].session)]
            && d.dialogs == c.dialogs[x := c.dialogs[x].(live := false)]
  {
    var c := After(EMPTY, es);
    var others := c.callbacks + [Finished(x, c.dialogs[x].first)];
    longer := LegCallbackEnds(es, x);
    longer := DialogCallbackRuns(longer, x, others);
    assert others + [Finished(x, c.dialogs[x].session)]
        == c.callbacks + [Finished(x, c.dialogs[x].first), Finished(x, c.dialogs[x].session)];
  }

  lemma BothCreated(j: Job) returns (es: seq<Event>)
    requires j.pc.CreatesA? && j.a != j.b && FourSessions(j)
    ensures Feasible(EMPTY, es) && Stands(After(EMPTY, es), j, InvitesA, [], j.oldA, j.oldB, true)
  {
    es := Begins(j);
    es := StepOn(es, j, CreatesA, [], j.oldA, j.oldB, true, CreatesB, j.oldA, j.oldB);
    es := StepOn(es, j, CreatesB, [], j.oldA, j.oldB, true, InvitesA, j.oldA, j.oldB);
  }

  lemma BothAccept(j: Job) returns (es: seq<Event>)
    requires j.pc.CreatesA? && j.a != j.b && FourSessions(j)
    ensures Feasible(EMPTY, es) && Stands(After(EMPTY, es), j, DropsA, [], j.oldA, j.oldB, true)
  {
    es := BothCreated(j);
    es := StepOn(es, j, InvitesA, [], j.oldA, j.oldB, true, InvitesB(true), j.oldA, j.oldB);
    es := StepOn(es, j, InvitesB(true), [], j.oldA, j.oldB, true, DropsA, j.oldA, j.oldB);
  }

  /** The callbacks of the run: the first call is hung up, the second call's leg ends. */
  function AllDone(j: Job): seq<Callback> {
    [Finished(j.a, j.oldA), Finished(j.b, j.oldB), Finished(j.b, j.oldB)]
  }

  lemma BothHangUp(j: Job) returns (es: seq<Event>)
    requires j.pc.CreatesA? && j.a != j.b && FourSessions(j)
    ensures Feasible(EMPTY, es)
    ensures Stands(After(EMPTY, es), j, DropsA, AllDone(j), j.oldA, j.oldB, false)
  {
    es := OneHangsUp(j);
    es := LegEndsNow(es, j.b);
    var d := After(EMPTY, es);
    assert d.callbacks == AllDone(j);
  }

  lemma OneHangsUp(j: Job) returns (es: seq<Event>)
    requires j.pc.CreatesA? && j.a != j.b && FourSessions(j)
    ensures Feasible(EMPTY, es)
    ensures var d := After(EMPTY, es);
            && d.jobs == [j.(pc := DropsA)] && d.callbacks == [Finished(j.a, j.oldA)]
            && d.dialogs == map[j.a := Dialog(j.oldA, j.oldA, false), j.b := Dialog(j.oldB, j.oldB, true)]
  {
    es := BothAccept(j);
    es := HangUpNow(es, j.a);
  }

  lemma OneDropped(j: Job) returns (es: seq<Event>)
    requires j.pc.CreatesA? && j.a != j.b && FourSessions(j)
    ensures Feasible(EMPTY, es)
    ensures Stands(After(EMPTY, es), j, DropsB, AllDone(j), j.oldA, j.oldB, false)
  {
    es := BothHangUp(j);
    es := StepOn(es, j, DropsA, AllDone(j), j.oldA, j.oldB, false, DropsB, j.oldA, j.oldB);
  }

  lemma BothDropped(j: Job) returns (es: seq<Event>)
    requires j.pc.CreatesA? && j.a != j.b && FourSessions(j)
    ensures Feasible(EMPTY, es)
    ensures Stands(After(EMPTY, es), j, RenamesA, AllDone(j), j.oldA, j.oldB, false)
  {
    es := OneDropped(j);
    es := StepOn(es, j, DropsB, AllDone(j), j.oldA, j.oldB, false, RenamesA, j.oldA, j.oldB);
  }

  lemma OneRenamed(j: Job) returns (es: seq<Event>)
    requires j.pc.CreatesA? && j.a != j.b && FourSessions(j)
    ensures Feasible(EMPTY, es)
    ensures Stands(After(EMPTY, es), j, RenamesB, AllDone(j), j.newA, j.oldB, false)
  {
    es := BothDropped(j);
    es := StepOn(es, j, RenamesA, AllDone(j), j.oldA, j.oldB, false, RenamesB, j.newA, j.oldB);
  }

  lemma BothRenamed(j: Job) returns (es: seq<Event>)
    requires j.pc.CreatesA? && j.a != j.b && FourSessions(j)
    ensures Feasible(EMPTY, es)
    ensures Stands(After(EMPTY, es), j, Rebridges, AllDone(j), j.newA, j.newB, false)
  {
    es := OneRenamed(j);
    es := StepOn(es, j, RenamesB, AllDone(j), j.newA, j.oldB, false, Rebridges, j.newA, j.newB);
  }

  /** Between accepting their re-INVITEs and the renaming of their dialogs, the first party hangs up and
      the second one's leg ends, with the callbacks of leg and dialog.  The migration goes on and reports
      success; both calls are over, and both new sessions stay. */
  lemma LateHangUpLeavesBoth(j: Job) returns (es: seq<Event>)
    requires j.pc.CreatesA? && j.a != j.b && FourSessions(j)
    ensures Feasible(EMPTY, es) && AtRest(After(EMPTY, es))
    ensures var d := After(EMPTY, es);
            && d.jobs == [j.(pc := Moved)]
            && j.a in d.dialogs && !d.dialogs[j.a].live && SessionsOf(d, j.a) == {j.newA}
            && j.b in d.dialogs && !d.dialogs[j.b].live && SessionsOf(d, j.b) == {j.newB}
  {
    es := BothRenamed(j);
    es := StepOn(es, j, Rebridges, AllDone(j), j.newA, j.newB, false, Moved, j.newA, j.newB);
    BothLeftBehind(es, j);
  }

  lemma BothLeftBehind(es: seq<Event>, j: Job)
    requires Feasible(EMPTY, es) && j.a != j.b && FourSessions(j)
    requires Stands(After(EMPTY, es), j, Moved, AllDone(j), j.newA, j.newB, false)
    ensures var d := After(EMPTY, es);
            && AtRest(d) && d.jobs == [j.(pc := Moved)]
            && j.a in d.dialogs && !d.dialogs[j.a].live && SessionsOf(d, j.a) == {j.newA}
            && j.b in d.dialogs && !d.dialogs[j.b].live && SessionsOf(d, j.b) == {j.newB}
  {
    HungUpCallLeavesSessionIff(es, j.a);
    HungUpCallLeavesSessionIff(es, j.b);
  }
}
