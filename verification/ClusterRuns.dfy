/** Runs in which the pool's index, or a media bridge, ends up with a session that is gone. */
module ClusterRuns {
  import opened CallStates
  import opened MediaPool
  import opened Cluster
  import opened ClusterSafety
  import opened ClusterOutcome
  import NodeSessions
  import SessionMigration

  lemma {:induction false} Then(c: System, es: seq<Event>, e: Event) returns (longer: seq<Event>)
    requires Feasible(c, es) && Enabled(After(c, es), e)
    ensures Feasible(c, longer) && After(c, longer) == Apply(After(c, es), e)
    decreases |es|
  {
    if es == [] {
      longer := [e];
      assert longer[1..] == [];
    } else {
      var rest := Then(Apply(c, es[0]), es[1..], e);
      longer := [es[0]] + rest;
      assert longer[1..] == rest;
    }
  }

  function NodeAt(c: System, n: NodeId): NodeSessions.Node
    requires Reachable(c, n)
  {
    c.machines[AddressOf(c.pool, n)].node
  }

  /** Node `n` has session `s` for the call. */
  predicate Holds(c: System, n: NodeId, call: CallId, s: SessionId) {
    Reachable(c, n) && call in NodeAt(c, n).calls && NodeAt(c, n).calls[call] == s && s in NodeAt(c, n).sessions
  }

  /** Node `n` can make a session for the call. */
  predicate CanMake(c: System, n: NodeId, call: CallId) {
    Reachable(c, n) && call !in NodeAt(c, n).calls && NodeAt(c, n).ports.free != {}
  }

  /** A create request goes out to a node and is answered with the session the node has for the call,
      or with a new one. */
  lemma Ask(c: System, es: seq<Event>, t: nat, n: NodeId, call: CallId, port: int, id: SessionId, s: SessionId)
    returns (longer: seq<Event>)
    requires Feasible(c, es) && t !in After(c, es).calls && id !in After(c, es).past.made
    requires Usable(After(c, es).pool, n)
    requires Holds(After(c, es), n, call, s) || (CanMake(After(c, es), n, call) && s == id)
    ensures Feasible(c, longer)
    ensures var d, d' := After(c, es), After(c, longer);
            && d'.pool == d.pool && d'.calls == d.calls[t := Replied(n, s)]
            && d'.past == d.past.(made := d'.past.made) && d'.past.made.Keys <= d.past.made.Keys + {id}
            && Holds(d', n, call, s)
            && d'.machines == d.machines[AddressOf(d.pool, n) := d'.machines[AddressOf(d.pool, n)]]
  {
    longer := Then(c, es, BeginCreate(t, OnNode(n), call, None, [NodeSessions.PCMU]));
    var d1 := After(c, longer);
    assert d1 == At(After(c, es), t, Creating(n, call, None, [NodeSessions.PCMU]));
    longer := Then(c, longer, NodeCreates(t, port, id));
    NodeAnswers(d1, t, n, call, port, id, s);
    assert After(c, es).calls[t := d1.calls[t]][t := Replied(n, s)] == After(c, es).calls[t := Replied(n, s)];
  }

  lemma NodeAnswers(d: System, t: nat, n: NodeId, call: CallId, port: int, id: SessionId, s: SessionId)
    requires t in d.calls && d.calls[t] == Creating(n, call, None, [NodeSessions.PCMU]) && id !in d.past.made
    requires Holds(d, n, call, s) || (CanMake(d, n, call) && s == id)
    ensures Enabled(d, NodeCreates(t, port, id))
    ensures var d' := CreateAtNode(d, t, port, id);
            && d'.pool == d.pool && d'.calls == d.calls[t := Replied(n, s)]
            && d'.past == d.past.(made := d'.past.made) && d'.past.made.Keys <= d.past.made.Keys + {id}
            && Holds(d', n, call, s)
            && d'.machines == d.machines[AddressOf(d.pool, n) := d'.machines[AddressOf(d.pool, n)]]
  {
  }

  /** A reply is tracked. */
  lemma Settle(c: System, es: seq<Event>, t: nat) returns (longer: seq<Event>)
    requires Feasible(c, es) && Enabled(After(c, es), TrackReply(t))
    ensures Feasible(c, longer)
    ensures var d, d' := After(c, es), After(c, longer);
            var k := d.calls[t];
            && d'.pool == d.pool.(affinity := Track(d.pool.affinity, k.session, k.node))
            && d'.calls == d.calls - {t} && d'.machines == d.machines
            && d'.past.made == d.past.made && d'.past.gone == d.past.gone
            && (k.session in d.past.gone ==> k.session in d'.past.dangling)
  {
    longer := Then(c, es, TrackReply(t));
  }

  /** A tracked session is destroyed, on its node and then in the pool. */
  lemma Retire(c: System, es: seq<Event>, t: nat, n: NodeId, s: SessionId) returns (longer: seq<Event>)
    requires Feasible(c, es) && t !in After(c, es).calls && Reachable(After(c, es), n)
    requires s in After(c, es).pool.affinity.nodeOf && After(c, es).pool.affinity.nodeOf[s] == n
    requires Live(After(c, es), s, AddressOf(After(c, es).pool, n))
    ensures Feasible(c, longer)
    ensures var d, d' := After(c, es), After(c, longer);
            d'.calls == d.calls && s in d'.past.gone && d'.pool == d.pool.(affinity := Untrack(d.pool.affinity, s))
  {
    var d := After(c, es);
    longer := Then(c, es, BeginDestroy(t, s));
    assert After(c, longer).calls[t] == Destroying(n, s, true);
    longer := Then(c, longer, NodeDestroys(t));
    assert After(c, longer).calls[t] == Untracking(s);
    longer := Then(c, longer, UntrackNow(t));
    assert After(c, longer).calls == d.calls;
  }

  /** Two creates for one call are answered with the same session, and one reply is tracked. */
  lemma OneOfTwoTracked(c: System, n: NodeId, call: CallId, port: int, s: SessionId, other: SessionId)
    returns (es: seq<Event>)
    requires Initial(c) && Usable(c.pool, n) && CanMake(c, n, call) && s != other
    ensures Feasible(c, es)
    ensures var d := After(c, es);
            && d.calls == map[1 := Replied(n, s)] && Holds(d, n, call, s)
            && s in d.pool.affinity.nodeOf && d.pool.affinity.nodeOf[s] == n
  {
    var start: seq<Event> := [];
    es := Ask(c, start, 0, n, call, port, s, s);
    es := Ask(c, es, 1, n, call, port, other, s);
    assert After(c, es).calls == map[0 := Replied(n, s), 1 := Replied(n, s)];
    es := Settle(c, es, 0);
    assert After(c, es).calls == map[1 := Replied(n, s)];
  }

  /** Two creates for one call are answered with the same session; one reply is tracked and the session
      destroyed before the other is.  The pool then maps the session to a node that does not have it,
      with no call under way. */
  lemma SecondReplyDangles(c: System, n: NodeId, call: CallId, port: int, s: SessionId, other: SessionId)
    returns (es: seq<Event>)
    requires Initial(c) && Usable(c.pool, n) && CanMake(c, n, call) && s != other
    ensures Feasible(c, es)
    ensures var d := After(c, es);
            && d.calls == map[] && s in d.pool.affinity.nodeOf && s in d.past.dangling
            && forall x :: !Live(d, s, x)
  {
    es := OneOfTwoTracked(c, n, call, port, s, other);
    es := Retire(c, es, 2, n, s);
    es := Settle(c, es, 1);
    assert After(c, es).calls == map[];
    DanglingIsNowhere(c, es, s);
  }

  lemma DanglingIsNowhere(c: System, es: seq<Event>, s: SessionId)
    requires Initial(c) && Feasible(c, es) && s in After(c, es).past.dangling
    ensures forall x :: !Live(After(c, es), s, x)
  {
    InitialIsSound(c);
    RunKeepsSound(c, es);
  }

  /** Two creates for one call are answered with the same session, and one reply is tracked.  A destroy
      request is given up by its caller, the other reply is tracked while the session is still there, and
      then the request arrives after all.  The session dangles again, with no call under way. */
  lemma StrayDestroyDangles(c: System, n: NodeId, call: CallId, port: int, s: SessionId, other: SessionId)
    returns (es: seq<Event>)
    requires Initial(c) && Usable(c.pool, n) && CanMake(c, n, call) && s != other
    ensures Feasible(c, es)
    ensures var d := After(c, es);
            && d.calls == map[] && s in d.pool.affinity.nodeOf && s in d.past.dangling
            && forall x :: !Live(d, s, x)
  {
    es := OneOfTwoTracked(c, n, call, port, s, other);
    es := Abandon(c, es, 2, n, s);
    es := Settle(c, es, 1);
    assert After(c, es).calls == map[2 := Destroying(n, s, false)];
    StrayStrikes(After(c, es), 2, n, s);
    es := Then(c, es, NodeDestroys(2));
    assert After(c, es).calls == map[];
    DanglingIsNowhere(c, es, s);
  }

  /** A destroy request goes out and is given up. */
  lemma Abandon(c: System, es: seq<Event>, t: nat, n: NodeId, s: SessionId) returns (longer: seq<Event>)
    requires Feasible(c, es) && t !in After(c, es).calls && n in After(c, es).pool.members
    requires s in After(c, es).pool.affinity.nodeOf && After(c, es).pool.affinity.nodeOf[s] == n
    ensures Feasible(c, longer)
    ensures var d, d' := After(c, es), After(c, longer);
            && d'.calls == d.calls[t := Destroying(n, s, false)] && d'.machines == d.machines
            && d'.pool == d.pool.(affinity := Untrack(d.pool.affinity, s))
  {
    var d := After(c, es);
    longer := Then(c, es, BeginDestroy(t, s));
    assert After(c, longer).calls[t] == Destroying(n, s, true);
    longer := Then(c, longer, GiveUp(t));
    assert d.calls[t := Destroying(n, s, true)][t := Destroying(n, s, false)] == d.calls[t := Destroying(n, s, false)];
  }

  /** It arrives when the session is tracked again. */
  lemma StrayStrikes(d: System, t: nat, n: NodeId, s: SessionId)
    requires t in d.calls && d.calls[t] == Destroying(n, s, false) && Reachable(d, n)
    requires s in NodeAt(d, n).sessions && s in d.pool.affinity.nodeOf
    ensures Enabled(d, NodeDestroys(t))
    ensures var d' := Apply(d, NodeDestroys(t));
            d'.calls == d.calls - {t} && d'.pool == d.pool && s in d'.past.dangling
  {
  }

  /** The call has a session on `home`, a newer one on `target`, both tracked, and a further create on
      `target` has been answered with the newer one. */
  lemma AnsweredWithTracked(c: System, home: NodeId, target: NodeId, call: CallId, port: int,
                            s1: SessionId, s2: SessionId, other: SessionId) returns (es: seq<Event>)
    requires Initial(c) && Usable(c.pool, home) && Usable(c.pool, target) && home != target
    requires CanMake(c, home, call) && CanMake(c, target, call) && s1 != s2 && s1 != other && s2 != other
    ensures Feasible(c, es)
    ensures var d := After(c, es);
            && 2 in d.calls && d.calls[2] == Replied(target, s2)
            && d.pool == c.pool.(affinity := Track(Track(NO_AFFINITY, s1, home), s2, target))
  {
    var start: seq<Event> := [];
    es := Ask(c, start, 0, home, call, port, s1, s1);
    es := Settle(c, es, 0);
    assert CanMake(After(c, es), target, call);
    es := Ask(c, es, 1, target, call, port, s2, s2);
    es := Settle(c, es, 1);
    es := Ask(c, es, 2, target, call, port, other, s2);
  }

  /** A call is on `home` and is being migrated to `target`, which has made its new session.  A second
      migration of the same call is answered with that session; when its re-INVITE fails, as it must
      while the first is in progress, its rollback takes the session away from the first. */
  lemma SecondMigrationUndoesFirst(c: System, home: NodeId, target: NodeId, call: CallId, port: int,
                                   s1: SessionId, s2: SessionId, other: SessionId) returns (es: seq<Event>)
    requires Initial(c) && Usable(c.pool, home) && Usable(c.pool, target) && home != target
    requires CanMake(c, home, call) && CanMake(c, target, call) && s1 != s2 && s1 != other && s2 != other
    ensures Feasible(c, es)
    ensures var d := After(c, es);
            var st := SessionMigration.State(d.pool, map[call := SessionMigration.Dialog(s1, false, true, true, true)]);
            var o := SessionMigration.World(Some(s2), None, SessionMigration.Fails, SessionMigration.Fails, false);
            && (exists t :: t in d.calls && d.calls[t] == Replied(target, s2))
            && SessionMigration.TrackedOn(d.pool, s1, home) && SessionMigration.TrackedOn(d.pool, s2, target)
            && s2 !in SessionMigration.MigrateIvr(st, call, target, false, o).0.pool.affinity.nodeOf
  {
    es := AnsweredWithTracked(c, home, target, call, port, s1, s2, other);
    UndoneByRollback(After(c, es).pool, target, call, s1, s2);
  }

  lemma UndoneByRollback(p: PoolState, target: NodeId, call: CallId, s1: SessionId, s2: SessionId)
    requires Usable(p, target) && s2 in p.affinity.nodeOf && p.affinity.nodeOf[s2] == target
    ensures var st := SessionMigration.State(p, map[call := SessionMigration.Dialog(s1, false, true, true, true)]);
            var o := SessionMigration.World(Some(s2), None, SessionMigration.Fails, SessionMigration.Fails, false);
            s2 !in SessionMigration.MigrateIvr(st, call, target, false, o).0.pool.affinity.nodeOf
  {
  }
}
