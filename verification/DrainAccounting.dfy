/** The books of a drain run, over all interleavings of its migration jobs. */
module DrainAccounting {
  import opened CallStates
  import opened MediaPool
  import opened DrainRun

  // ----- Counting jobs -----

  function Tally(jobs: seq<Job>, f: Job -> bool): nat {
    if jobs == [] then 0 else Tally(jobs[..|jobs| - 1], f) + if f(jobs[|jobs| - 1]) then 1 else 0
  }

  lemma {:induction false} TallyUpdate(jobs: seq<Job>, i: nat, j: Job, f: Job -> bool)
    requires i < |jobs|
    ensures Tally(jobs[i := j], f) + (if f(jobs[i]) then 1 else 0) == Tally(jobs, f) + if f(j) then 1 else 0
  {
    var n := |jobs| - 1;
    if i == n {
      assert jobs[i := j][..n] == jobs[..n];
    } else {
      assert jobs[i := j][..n] == jobs[..n][i := j];
      TallyUpdate(jobs[..n], i, j, f);
    }
  }

  lemma {:induction false} TallyNone(jobs: seq<Job>, f: Job -> bool)
    requires forall j :: j in jobs ==> !f(j)
    ensures Tally(jobs, f) == 0
  {
    if jobs != [] {
      TallyNone(jobs[..|jobs| - 1], f);
    }
  }

  // ----- The classes of jobs -----

  /** The job's result has been entered in the books. */
  predicate Booked(j: Job, r: Result) {
    (j.stage.Counted? || j.stage.Done?) && j.stage.result == r
  }

  predicate Pending(j: Job) {
    j.stage.Waiting? || j.stage.Running? || j.stage.Returned?
  }

  predicate HoldsSlot(j: Job) {
    j.stage.Running? || j.stage.Returned? || j.stage.Counted?
  }

  const MIGRATED_JOB: Job -> bool := j => Booked(j, Migrated)
  const SKIPPED_JOB: Job -> bool := j => Booked(j, Skipped)
  const FAILED_JOB: Job -> bool := j => Booked(j, Errored)
  const UNACQUIRED_JOB: Job -> bool := (j: Job) => j.stage.Unacquired?
  const PENDING_JOB: Job -> bool := j => Pending(j)
  const HOLDING_JOB: Job -> bool := j => HoldsSlot(j)

  /** The five classes partition the jobs. */
  lemma {:induction false} ClassesPartition(jobs: seq<Job>)
    ensures Tally(jobs, MIGRATED_JOB) + Tally(jobs, FAILED_JOB) + Tally(jobs, SKIPPED_JOB)
            + Tally(jobs, UNACQUIRED_JOB) + Tally(jobs, PENDING_JOB) == |jobs|
  {
    if jobs != [] {
      ClassesPartition(jobs[..|jobs| - 1]);
    }
  }

  /** The sessions of the failed jobs, as often as they occur. */
  function FailedSessions(jobs: seq<Job>): multiset<SessionId> {
    if jobs == [] then multiset{}
    else FailedSessions(jobs[..|jobs| - 1])
         + if FAILED_JOB(jobs[|jobs| - 1]) then multiset{jobs[|jobs| - 1].session} else multiset{}
  }

  lemma {:induction false} FailedSessionsUpdate(jobs: seq<Job>, i: nat, j: Job)
    requires i < |jobs| && j.session == jobs[i].session && !FAILED_JOB(jobs[i])
    ensures FailedSessions(jobs[i := j]) == FailedSessions(jobs) + if FAILED_JOB(j) then multiset{j.session}
             else multiset{}
  {
    var n := |jobs| - 1;
    if i == n {
      assert jobs[i := j][..n] == jobs[..n];
    } else {
      assert jobs[i := j][..n] == jobs[..n][i := j];
      FailedSessionsUpdate(jobs[..n], i, j);
    }
  }

  lemma {:induction false} FailedSessionsSame(jobs: seq<Job>, i: nat, j: Job)
    requires i < |jobs| && j.session == jobs[i].session && FAILED_JOB(j) == FAILED_JOB(jobs[i])
    ensures FailedSessions(jobs[i := j]) == FailedSessions(jobs)
  {
    var n := |jobs| - 1;
    if i == n {
      assert jobs[i := j][..n] == jobs[..n];
    } else {
      assert jobs[i := j][..n] == jobs[..n][i := j];
      FailedSessionsSame(jobs[..n], i, j);
    }
  }

  lemma {:induction false} NoFailedSessions(jobs: seq<Job>)
    requires forall j :: j in jobs ==> !FAILED_JOB(j)
    ensures FailedSessions(jobs) == multiset{}
  {
    if jobs != [] {
      NoFailedSessions(jobs[..|jobs| - 1]);
    }
  }

  // ----- The books -----

  /** The run was given up for want of a target. */
  predicate GivenUp(c: System) {
    c.run.Over? && c.run.untargeted
  }

  /** A run that is given up never starts a job, and records one error that belongs to no session. */
  ghost predicate Balanced(c: System) {
    && c.status.total == |c.jobs|
    && c.status.migrated == Tally(c.jobs, MIGRATED_JOB)
    && c.status.failed == Tally(c.jobs, FAILED_JOB)
    && |c.status.errors| == c.status.failed + (if GivenUp(c) then 1 else 0)
    && multiset(c.status.errors) == FailedSessions(c.jobs) + (if GivenUp(c) then multiset{NO_SESSION} else multiset{})
    && (c.run.Started? || GivenUp(c) ==> |c.jobs| > 0 && c.jobs[0].stage.Waiting?)
    && c.slots == Tally(c.jobs, HOLDING_JOB) <= MAX_CONCURRENT_MIGRATIONS
  }

  lemma StageChange(jobs: seq<Job>, i: nat, j: Job)
    requires i < |jobs| && j.session == jobs[i].session
    ensures Tally(jobs[i := j], MIGRATED_JOB) + (if MIGRATED_JOB(jobs[i]) then 1 else 0)
            == Tally(jobs, MIGRATED_JOB) + if MIGRATED_JOB(j) then 1 else 0
    ensures Tally(jobs[i := j], FAILED_JOB) + (if FAILED_JOB(jobs[i]) then 1 else 0)
            == Tally(jobs, FAILED_JOB) + if FAILED_JOB(j) then 1 else 0
    ensures Tally(jobs[i := j], HOLDING_JOB) + (if HOLDING_JOB(jobs[i]) then 1 else 0)
            == Tally(jobs, HOLDING_JOB) + if HOLDING_JOB(j) then 1 else 0
    ensures FAILED_JOB(j) == FAILED_JOB(jobs[i]) ==> FailedSessions(jobs[i := j]) == FailedSessions(jobs)
    ensures FAILED_JOB(j) && !FAILED_JOB(jobs[i]) ==>
              FailedSessions(jobs[i := j]) == FailedSessions(jobs) + multiset{j.session}
  {
    TallyUpdate(jobs, i, j, MIGRATED_JOB);
    TallyUpdate(jobs, i, j, FAILED_JOB);
    TallyUpdate(jobs, i, j, HOLDING_JOB);
    if FAILED_JOB(j) == FAILED_JOB(jobs[i]) {
      FailedSessionsSame(jobs, i, j);
    } else if FAILED_JOB(j) {
      FailedSessionsUpdate(jobs, i, j);
    }
  }

  lemma StartIsBalanced(c: System, n: NodeId, ss: seq<SessionId>)
    requires Enabled(c, StartRun(n, ss))
    ensures Balanced(Apply(c, StartRun(n, ss)))
  {
    var jobs := FreshJobs(ss);
    assert forall j :: j in jobs ==> j.stage.Waiting?;
    TallyNone(jobs, MIGRATED_JOB);
    TallyNone(jobs, FAILED_JOB);
    TallyNone(jobs, HOLDING_JOB);
    NoFailedSessions(jobs);
  }

  lemma CountKeepsBalance(c: System, i: nat)
    requires Balanced(c) && Enabled(c, Count(i))
    ensures Balanced(Apply(c, Count(i)))
  {
    var j := c.jobs[i];
    StageChange(c.jobs, i, j.(stage := Counted(j.stage.result)));
    assert !GivenUp(c) && !GivenUp(Apply(c, Count(i)));
    assert multiset(c.status.errors + [j.session]) == multiset(c.status.errors) + multiset{j.session};
  }

  lemma SlotKeepsBalance(c: System, e: Event)
    requires Balanced(c) && Enabled(c, e) && (e.Acquire? || e.Release?)
    ensures Balanced(Apply(c, e))
  {
    var s := if e.Acquire? then Running else Done(c.jobs[e.job].stage.result);
    StageChange(c.jobs, e.job, c.jobs[e.job].(stage := s));
  }

  lemma StageKeepsBalance(c: System, e: Event)
    requires Balanced(c) && Enabled(c, e) && (e.AcquireFails? || e.Return?)
    ensures Balanced(Apply(c, e))
  {
    var s := if e.Return? then Returned(e.result) else Unacquired;
    StageChange(c.jobs, e.job, c.jobs[e.job].(stage := s));
  }

  lemma EventKeepsBalance(c: System, e: Event)
    requires Balanced(c) && Enabled(c, e)
    ensures Balanced(Apply(c, e))
  {
    if e.StartRun? {
      StartIsBalanced(c, e.node, e.sessions);
    } else if e.Count? {
      CountKeepsBalance(c, e.job);
    } else if e.Acquire? || e.Release? {
      SlotKeepsBalance(c, e);
    } else if e.AcquireFails? || e.Return? {
      StageKeepsBalance(c, e);
    } else if e.NoTarget? {
      assert !GivenUp(c);
    } else {
      BooksUntouched(c, e);
    }
  }

  lemma BooksUntouched(c: System, e: Event)
    requires Enabled(c, e)
    requires !e.StartRun? && !e.Count? && !e.Acquire? && !e.Release? && !e.AcquireFails? && !e.Return? && !e.NoTarget?
    ensures Apply(c, e).jobs == c.jobs && Apply(c, e).status == c.status && Apply(c, e).slots == c.slots
    ensures GivenUp(Apply(c, e)) == GivenUp(c) && (Apply(c, e).run.Started? ==> c.run.Started?)
  {
  }

  lemma {:induction false} RunKeepsBalance(c: System, es: seq<Event>)
    requires Balanced(c) && Feasible(c, es)
    ensures Balanced(After(c, es))
    decreases |es|
  {
    if es != [] {
      EventKeepsBalance(c, es[0]);
      RunKeepsBalance(Apply(c, es[0]), es[1..]);
    }
  }

  /** At every moment of every interleaving: migrated, failed, skipped, unacquired and pending
      jobs add up to the total; the recorded errors are the failed sessions, each as often as it
      failed, and one more without a session if the run was given up for want of a target, so that
      their number is the failure count exactly if it was not; and no more than the allowed number
      of migrations run at once. */
  lemma DrainBooksBalance(c: System, es: seq<Event>)
    requires Initial(c) && Feasible(c, es)
    ensures var d := After(c, es);
            && d.status.total == d.status.migrated + d.status.failed + Tally(d.jobs, SKIPPED_JOB)
                                 + Tally(d.jobs, UNACQUIRED_JOB) + Tally(d.jobs, PENDING_JOB)
            && (d.status.failed == |d.status.errors| <==> !GivenUp(d))
            && multiset(d.status.errors) == FailedSessions(d.jobs)
                                            + (if GivenUp(d) then multiset{NO_SESSION} else multiset{})
            && Tally(d.jobs, HOLDING_JOB) <= MAX_CONCURRENT_MIGRATIONS
  {
    assert Balanced(c);
    RunKeepsBalance(c, es);
    ClassesPartition(After(c, es).jobs);
  }

  /** When every job has settled the run was not given up, nothing is pending, every slot is free
      again, and each failure has its error. */
  lemma SettledRunIsAccounted(c: System, es: seq<Event>)
    requires Initial(c) && Feasible(c, es)
    requires forall i :: 0 <= i < |After(c, es).jobs| ==> Settled(After(c, es).jobs[i])
    ensures var d := After(c, es);
            && !GivenUp(d) && d.slots == 0
            && d.status.total == d.status.migrated + |d.status.errors| + Tally(d.jobs, SKIPPED_JOB)
                                 + Tally(d.jobs, UNACQUIRED_JOB)
  {
    assert Balanced(c);
    RunKeepsBalance(c, es);
    var jobs := After(c, es).jobs;
    ClassesPartition(jobs);
    TallyNone(jobs, PENDING_JOB);
    TallyNone(jobs, HOLDING_JOB);
  }

  /** A run that is given up leaves every session it was to move pending, and its books show one
      error against no failure. */
  lemma GivenUpRunMovesNothing(c: System, n: NodeId, ss: seq<SessionId>)
    requires Balanced(c) && Enabled(c, StartRun(n, ss)) && ss != []
    requires Enabled(Apply(c, StartRun(n, ss)), NoTarget)
    ensures var d := Apply(Apply(c, StartRun(n, ss)), NoTarget);
            && GivenUp(d) && d.status == Status(|ss|, 0, 0, [NO_SESSION])
            && Tally(d.jobs, PENDING_JOB) == |ss|
            && d.pool.affinity == c.pool.affinity && DrainOf(d, n, Active)
  {
    var d1 := Apply(c, StartRun(n, ss));
    StartIsBalanced(c, n, ss);
    ClassesPartition(d1.jobs);
    TallyNone(d1.jobs, SKIPPED_JOB);
    TallyNone(d1.jobs, UNACQUIRED_JOB);
  }
}
