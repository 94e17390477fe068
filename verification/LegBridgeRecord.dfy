/** What a bridge's state says about the calls that made it so: when `Start` makes it Active, and whom
    and what the record of its end, and of a leg's, names. */
module LegBridgeRecord {
  import opened CallStates
  import opened LegBridge
  import opened LegBridgeSafety
  import opened LegBridgeOutcome
  import opened LegBridgeProgress

  // ----- When a bridge becomes Active -----

  /** The activation of `Start` on top of thread `t` finds what it needs at this step. */
  predicate Finds(w: World, t: nat, ok: bool)
    requires Running(w, t)
  {
    Top(w, t).Start? ==>
      match Top(w, t).tpc
      case TLock => w.bridge.state.Fresh?
      case TReadA => w.legA.state.Answered?
      case TReadB => w.legB.state.Answered?
      case TMedia => ok
      case TActivate => true
  }

  predicate IsStepOf(w: World, e: Event, t: nat) {
    e.Run? && e.thread == t && Enabled(w, e)
  }

  /** So does it at each of its steps. */
  predicate FindsAll(w: World, es: seq<Event>, t: nat)
    requires Feasible(w, es)
    decreases |es|
  {
    es == [] ||
    ((IsStepOf(w, es[0], t) ==> Finds(w, t, es[0].rpcOk)) && FindsAll(Apply(w, es[0]), es[1..], t))
  }

  /** A step of thread `t` makes the bridge Active. */
  predicate ActivatedBy(w: World, es: seq<Event>, t: nat)
    requires Feasible(w, es)
    decreases |es|
  {
    && es != []
    && (|| (IsStepOf(w, es[0], t) && !w.bridge.state.Active? && Apply(w, es[0]).bridge.state.Active?)
        || ActivatedBy(Apply(w, es[0]), es[1..], t))
  }

  lemma OthersLeaveThread(w: World, e: Event, t: nat)
    requires Enabled(w, e) && t < |w.threads| && !IsStepOf(w, e, t)
    ensures t < |Apply(w, e).threads| && Apply(w, e).threads[t] == w.threads[t]
  {
  }

  lemma {:induction false} ReturnedStays(w: World, es: seq<Event>, t: nat)
    requires Feasible(w, es) && t < |w.threads| && w.threads[t] == []
    ensures t < |After(w, es).threads| && After(w, es).threads[t] == []
    ensures FindsAll(w, es, t) && !ActivatedBy(w, es, t)
    decreases |es|
  {
    if es != [] {
      OthersLeaveThread(w, es[0], t);
      ReturnedStays(Apply(w, es[0]), es[1..], t);
    }
  }

  /** One step of `Start`: it goes on, or finishes with an Active bridge, if it finds what it needs, and
      otherwise returns and changes nothing. */
  lemma StartSteps(w: World, t: nat, ok: bool)
    requires Inv(w) && CanStep(w, t) && |w.threads[t]| == 1 && w.threads[t][0].Start?
    ensures var pc, w' := w.threads[t][0].tpc, Step(w, t, ok);
            && t < |w'.threads|
            && (!Finds(w, t, ok) ==> w'.threads[t] == [] && w'.bridge == w.bridge)
            && (pc.TActivate? ==> w'.threads[t] == [] && w'.bridge.state.Active? && !w.bridge.state.Active?)
            && (Finds(w, t, ok) && !pc.TActivate? ==>
                  && |w'.threads[t]| == 1 && w'.threads[t][0].Start? && w'.bridge == w.bridge)
  {
    assert At(w, Here(w, t)) && FrameOK(w, Here(w, t));
    assert FrameAt(w, Here(w, t)) == Top(w, t);
  }

  lemma {:induction false} StartRuns(w: World, es: seq<Event>, t: nat)
    requires Inv(w) && Feasible(w, es) && t < |w.threads| && |w.threads[t]| == 1 && w.threads[t][0].Start?
    requires t < |After(w, es).threads| && After(w, es).threads[t] == []
    ensures ActivatedBy(w, es, t) <==> FindsAll(w, es, t)
    decreases |es|
  {
    var e, v, rest := es[0], Apply(w, es[0]), es[1..];
    EventKeepsInv(w, e);
    if IsStepOf(w, e, t) {
      assert w.threads[t] == [w.threads[t][0]];
      StartSteps(w, t, e.rpcOk);
      if v.threads[t] == [] {
        ReturnedStays(v, rest, t);
      } else {
        StartRuns(v, rest, t);
      }
    } else {
      OthersLeaveThread(w, e, t);
      StartRuns(v, rest, t);
    }
  }

  /** In every interleaving, a call of `Start` that has returned made the bridge Active if and only if it
      found it Fresh, read both legs Answered, and the media was joined. */
  lemma StartActivatesIff(w: World, before: seq<Event>, es: seq<Event>)
    requires Initial(w) && Feasible(w, before)
    requires Enabled(After(w, before), Spawn(Start(TLock)))
    requires var u := Apply(After(w, before), Spawn(Start(TLock)));
             Feasible(u, es) && |u.threads| <= |After(u, es).threads| && After(u, es).threads[|u.threads| - 1] == []
    ensures var u := Apply(After(w, before), Spawn(Start(TLock)));
            ActivatedBy(u, es, |u.threads| - 1) <==> FindsAll(u, es, |u.threads| - 1)
  {
    InitialInv(w);
    ScheduleKeepsInv(w, before);
    EventKeepsInv(After(w, before), Spawn(Start(TLock)));
    var u := Apply(After(w, before), Spawn(Start(TLock)));
    StartRuns(u, es, |u.threads| - 1);
  }

  // ----- Who ended the bridge -----

  /** The activation whose step first moves the bridge to Terminating. */
  function FirstEnder(w: World, es: seq<Event>): Option<Frame>
    requires Feasible(w, es)
    decreases |es|
  {
    if es == [] then None
    else if es[0].Run? && Rank(w.bridge.state) < 2 && Rank(Apply(w, es[0]).bridge.state) >= 2
    then Some(Top(w, es[0].thread))
    else FirstEnder(Apply(w, es[0]), es[1..])
  }

  predicate EndedLocally(b: Bridge) {
    (b.endedBy.NoOne? && b.cause.NoCause?) || (b.endedBy.Local? && b.cause.Normal?)
  }

  lemma {:induction false} StaysLocal(w: World, es: seq<Event>)
    requires Feasible(w, es) && Rank(w.bridge.state) >= 2 && EndedLocally(w.bridge)
    requires Inv(w)
    ensures EndedLocally(After(w, es).bridge)
    decreases |es|
  {
    if es != [] {
      EventMovesForward(w, es[0]);
      EventKeepsInv(w, es[0]);
      LocalStep(w, es[0]);
      StaysLocal(Apply(w, es[0]), es[1..]);
    }
  }

  lemma LocalStep(w: World, e: Event)
    requires Inv(w) && Enabled(w, e) && Rank(w.bridge.state) >= 2 && EndedLocally(w.bridge)
    ensures EndedLocally(Apply(w, e).bridge)
  {
    if e.Run? {
      assert At(w, Here(w, e.thread)) && FrameOK(w, Here(w, e.thread));
      assert FrameAt(w, Here(w, e.thread)) == Top(w, e.thread);
    }
  }

  /** The step that ends the bridge is the start of a leg's handler, which records itself, or of `Stop`,
      which records nobody yet. */
  lemma EndingStep(w: World, e: Event)
    requires Inv(w) && Enabled(w, e) && Rank(w.bridge.state) < 2 && Rank(Apply(w, e).bridge.state) >= 2
    ensures e.Run?
    ensures var f, b := Top(w, e.thread), Apply(w, e).bridge;
            || (f.Handle? && b.endedBy == ByLeg(f.who) && b.cause.BridgePeer?)
            || (f.Stop? && b.endedBy.NoOne? && b.cause.NoCause?)
  {
    if e.Run? {
      assert At(w, Here(w, e.thread)) && FrameOK(w, Here(w, e.thread));
      assert FrameAt(w, Here(w, e.thread)) == Top(w, e.thread);
    }
  }

  /** In every interleaving, a bridge names as its ender, and as the cause, the leg whose handler got
      there first; if a `Stop` was first, it is ended locally and normally. */
  lemma {:induction false} EnderIsFirst(w: World, es: seq<Event>)
    requires Inv(w) && Feasible(w, es) && Rank(w.bridge.state) < 2
    ensures var v, f := After(w, es), FirstEnder(w, es);
            && (f.None? <==> Rank(v.bridge.state) < 2)
            && (f.Some? ==> f.value.Handle? || f.value.Stop?)
            && (f.Some? && f.value.Handle? ==> v.bridge.endedBy == ByLeg(f.value.who) && v.bridge.cause.BridgePeer?)
            && (f.Some? && f.value.Stop? && v.bridge.state.Terminated? ==>
                  v.bridge.endedBy.Local? && v.bridge.cause.Normal?)
    decreases |es|
  {
    if es != [] {
      var u, rest := Apply(w, es[0]), es[1..];
      EventKeepsInv(w, es[0]);
      if Rank(u.bridge.state) < 2 {
        EnderIsFirst(u, rest);
      } else {
        EndingStep(w, es[0]);
        RunMovesForward(u, rest);
        ScheduleKeepsInv(u, rest);
        if Top(w, es[0].thread).Stop? {
          StaysLocal(u, rest);
        }
      }
    }
  }

  // ----- The ender is dead, and so is whoever's handler runs -----

  ghost predicate EndersDead(w: World) {
    && (forall p: Pos :: At(w, p) && FrameAt(w, p).Handle? ==> Dead(w, FrameAt(w, p).who))
    && (w.bridge.endedBy.ByLeg? ==> Dead(w, w.bridge.endedBy.side))
  }

  lemma EventKeepsEndersDead(w: World, e: Event)
    requires Inv(w) && EndersDead(w) && Enabled(w, e)
    ensures EndersDead(Apply(w, e))
  {
    EventMovesForward(w, e);
    if e.Run? {
      StepKeepsHandlersDead(w, e.thread, e.rpcOk);
    } else {
      var w' := Apply(w, e);
      forall p: Pos | At(w', p) && FrameAt(w', p).Handle? ensures Dead(w', FrameAt(w', p).who) {
        assert At(w, p);
      }
    }
  }

  lemma StepKeepsHandlersDead(w: World, t: nat, ok: bool)
    requires Inv(w) && EndersDead(w) && CanStep(w, t) && NoEarlier(w, Step(w, t, ok))
    ensures EndersDead(Step(w, t, ok))
  {
    var w' := Step(w, t, ok);
    var rest := StepIsMove(w, t, ok);
    var here := Here(w, t);
    assert At(w, here) && FrameOK(w, here) && FrameAt(w, here) == Top(w, t);
    assert LegOK(w, SideA) && LegOK(w, SideB);
    NewHandlersDead(w, w', t, rest, ok);
    forall p: Pos | At(w', p) && FrameAt(w', p).Handle? ensures Dead(w', FrameAt(w', p).who) {
      if p == here {
        assert FrameAt(w', p) == rest[0];
      } else if p == Above(w, t) {
        assert FrameAt(w', p) == rest[1];
      } else {
        assert At(w, p);
      }
    }
  }

  /** A handler is called by a hangup of its own leg; the ender is a handler that was called. */
  lemma NewHandlersDead(w: World, w': World, t: nat, rest: Stack, ok: bool)
    requires Running(w, t) && NoEarlier(w, w') && LegOK(w, SideA) && LegOK(w, SideB)
    requires At(w, Here(w, t)) && FrameAt(w, Here(w, t)) == Top(w, t) && FrameOK(w, Here(w, t))
    requires HangupMove(w, w', t, rest) || TeardownMove(w, w', t, rest) || StartMove(w, w', t, ok, rest)
             || NewMove(w, w', t, rest)
    requires Top(w, t).Handle? ==> Dead(w, Top(w, t).who)
    requires w.bridge.endedBy.ByLeg? ==> Dead(w, w.bridge.endedBy.side)
    ensures forall f :: f in rest && f.Handle? ==> Dead(w', f.who)
    ensures w'.bridge.endedBy.ByLeg? ==> Dead(w', w'.bridge.endedBy.side)
  {
  }

  lemma {:induction false} RunKeepsEndersDead(w: World, es: seq<Event>)
    requires Inv(w) && EndersDead(w) && Feasible(w, es)
    ensures EndersDead(After(w, es))
    decreases |es|
  {
    if es != [] {
      EventKeepsEndersDead(w, es[0]);
      EventKeepsInv(w, es[0]);
      RunKeepsEndersDead(Apply(w, es[0]), es[1..]);
    }
  }

  /** A bridge that names a leg as its ender has that leg destroyed. */
  lemma EnderIsDead(w: World, es: seq<Event>)
    requires Initial(w) && Feasible(w, es) && After(w, es).bridge.endedBy.ByLeg?
    ensures Dead(After(w, es), After(w, es).bridge.endedBy.side)
  {
    InitialInv(w);
    assert forall p: Pos :: !At(w, p);
    RunKeepsEndersDead(w, es);
  }

  // ----- What killed a leg -----

  /** A leg is destroyed by nothing but a `Hangup` on it, and records that call's cause. */
  lemma KillerIsRecorded(w: World, e: Event, s: Side)
    requires Enabled(w, e) && !Dead(w, s) && Dead(Apply(w, e), s)
    ensures e.Run? && Top(w, e.thread).Hangup? && Top(w, e.thread).side == s && !LegOf(w, s).state.Failed?
    ensures LegOf(Apply(w, e), s).cause == Top(w, e.thread).cause
    ensures LegOf(Apply(w, e), s).winner == Some(Here(w, e.thread))
  {
  }

  /** A `Hangup` that begins destroys its leg, unless the leg has failed or is destroyed already, when it
      returns at once and leaves the leg as it is. */
  lemma HangupKillsIff(w: World, t: nat, ok: bool)
    requires CanStep(w, t) && Top(w, t).Hangup? && Top(w, t).hpc.HEnter?
    ensures var w', s := Step(w, t, ok), Top(w, t).side;
            && (LegOf(w, s).state.Failed? || Dead(w, s) ==>
                  LegOf(w', s) == LegOf(w, s) && w'.threads[t] == w.threads[t][..|w.threads[t]| - 1])
            && (!LegOf(w, s).state.Failed? ==> Dead(w', s))
  {
  }

  // ----- A bridge told to leave its legs up does -----

  /** The frame, and what it may call while the bridge does not hang up by itself, spares leg `s`. */
  predicate Spares(f: Frame, s: Side) {
    && (f.Hangup? ==> f.side != s)
    && (f.Stop? ==> && !f.hangup
                    && (f.spc.SEnter? || f.spc.SUnbridge? || f.spc.SFinish? || f.spc.SClose? || f.spc.SNotify?))
  }

  ghost predicate AllSpare(w: World, s: Side) {
    !w.bridge.autoHangup && forall p: Pos :: At(w, p) ==> Spares(FrameAt(w, p), s)
  }

  lemma SparingStep(w: World, t: nat, ok: bool, s: Side)
    requires CanStep(w, t) && AllSpare(w, s)
    requires At(w, Here(w, t)) && FrameAt(w, Here(w, t)) == Top(w, t)
    ensures AllSpare(Step(w, t, ok), s) && (Dead(Step(w, t, ok), s) ==> Dead(w, s))
  {
    var rest := StepIsMove(w, t, ok);
    var w' := Step(w, t, ok);
    assert Spares(Top(w, t), s) && forall f :: f in rest ==> Spares(f, s);
    forall p: Pos | At(w', p) ensures Spares(FrameAt(w', p), s) {
      if p == Here(w, t) {
        assert FrameAt(w', p) == rest[0];
      } else if p == Above(w, t) {
        assert FrameAt(w', p) == rest[1];
      } else {
        assert At(w, p);
      }
    }
  }

  /** If the bridge does not hang up by itself, nobody asks `Stop` to, and nobody hangs up leg `s`, then
      that leg is never destroyed, whatever becomes of the bridge and the other leg. */
  lemma {:induction false} LegIsLeftUp(w: World, es: seq<Event>, s: Side)
    requires AllSpare(w, s) && Feasible(w, es) && forall e :: e in es && e.Spawn? ==> Spares(e.call, s)
    ensures Dead(After(w, es), s) ==> Dead(w, s)
    decreases |es|
  {
    if es != [] {
      var e, u := es[0], Apply(w, es[0]);
      if e.Run? {
        assert At(w, Here(w, e.thread));
        SparingStep(w, e.thread, e.rpcOk, s);
      } else {
        forall p: Pos | At(u, p) ensures Spares(FrameAt(u, p), s) {
          assert At(w, p) || (e.Spawn? && FrameAt(u, p) == e.call);
        }
      }
      LegIsLeftUp(u, es[1..], s);
    }
  }
}
