/** What the leg/bridge protocol guarantees over whole runs: no Active bridge keeps a
    dead leg, nothing is undone, and when hanging up is asked for, the end of one leg
    ends the bridge and the other leg. */
module LegBridgeOutcome {
  import opened CallStates
  import opened LegBridge
  import opened LegBridgeSafety

  // ----- No Active bridge over a dead leg -----

  /** In every interleaving, each leg of an Active bridge is answered or has a termination
      callback on its way to the bridge. */
  lemma ActiveBridgeIsWatched(w: World, es: seq<Event>)
    requires Initial(w) && Feasible(w, es)
    ensures var v := After(w, es);
            v.bridge.state.Active? ==> forall s :: LegOf(v, s).state.Answered? || Undelivered(v, s)
  {
    InitialInv(w);
    ScheduleKeepsInv(w, es);
    var v := After(w, es);
    assert v.bridge.state.Active? ==> Covered(v, SideA) && Covered(v, SideB);
  }

  lemma QuietMeansDelivered(w: World, s: Side)
    requires Quiescent(w)
    ensures Winning(w, s).None? && !DriverAlive(w)
  {
    assert forall p: Pos :: !At(w, p);
  }

  /** When all threads have returned, an Active bridge has two answered legs, no bridge is
      left half torn down, and every destroyed leg ran its handler exactly once. */
  lemma QuietBridgeIsSettled(w: World, es: seq<Event>)
    requires Initial(w) && Feasible(w, es) && Quiescent(After(w, es))
    ensures var v := After(w, es);
            && (v.bridge.state.Active? ==> v.legA.state.Answered? && v.legB.state.Answered?)
            && !v.bridge.state.Terminating?
            && v.lock.None?
            && forall s :: LegOf(v, s).state.Destroyed? ==>
                 LegOf(v, s).doneClosed && LegOf(v, s).teardowns == if LegOf(v, s).handler then 1 else 0
  {
    InitialInv(w);
    ScheduleKeepsInv(w, es);
    var v := After(w, es);
    QuietMeansDelivered(v, SideA);
    QuietMeansDelivered(v, SideB);
    assert LegOK(v, SideA) && LegOK(v, SideB);
    assert LegOf(v, SideA) == v.legA && LegOf(v, SideB) == v.legB;
  }

  // ----- Nothing is undone -----

  /** `v` can only be later than `u`: the bridge has not moved back, its first recorded
      ender and cause stand, and so does the first cause of each leg's destruction. */
  ghost predicate NoEarlier(u: World, v: World) {
    && Rank(u.bridge.state) <= Rank(v.bridge.state)
    && (!u.bridge.endedBy.NoOne? ==> v.bridge.endedBy == u.bridge.endedBy && v.bridge.cause == u.bridge.cause)
    && (u.bridge.started ==> v.bridge.started)
    && forall s :: LegOf(u, s).state.Destroyed? ==>
         && LegOf(v, s).state.Destroyed?
         && LegOf(v, s).cause == LegOf(u, s).cause
         && LegOf(v, s).winner == LegOf(u, s).winner
  }

  lemma HangupMovesForward(w: World, t: nat, ok: bool)
    requires Inv(w) && CanStep(w, t) && Top(w, t).Hangup?
    ensures NoEarlier(w, Step(w, t, ok))
  {
    assert At(w, Here(w, t)) && FrameOK(w, Here(w, t));
    assert FrameAt(w, Here(w, t)) == Top(w, t);
  }

  lemma OtherMovesForward(w: World, t: nat, ok: bool)
    requires Inv(w) && CanStep(w, t) && !Top(w, t).Hangup?
    ensures NoEarlier(w, Step(w, t, ok))
  {
    assert At(w, Here(w, t)) && FrameOK(w, Here(w, t));
    assert FrameAt(w, Here(w, t)) == Top(w, t);
  }

  lemma EventMovesForward(w: World, e: Event)
    requires Inv(w) && Enabled(w, e)
    ensures NoEarlier(w, Apply(w, e))
  {
    if e.Run? {
      if Top(w, e.thread).Hangup? {
        HangupMovesForward(w, e.thread, e.rpcOk);
      } else {
        OtherMovesForward(w, e.thread, e.rpcOk);
      }
    }
  }

  lemma {:induction false} RunMovesForward(w: World, es: seq<Event>)
    requires Inv(w) && Feasible(w, es)
    ensures NoEarlier(w, After(w, es))
    decreases |es|
  {
    if es != [] {
      EventMovesForward(w, es[0]);
      EventKeepsInv(w, es[0]);
      RunMovesForward(Apply(w, es[0]), es[1..]);
    }
  }

  lemma {:induction false} SplitRun(w: World, xs: seq<Event>, ys: seq<Event>)
    requires Feasible(w, xs + ys)
    ensures Feasible(w, xs) && Feasible(After(w, xs), ys)
    ensures After(w, xs + ys) == After(After(w, xs), ys)
    decreases |xs|
  {
    if xs == [] {
      assert xs + ys == ys;
    } else {
      assert (xs + ys)[1..] == xs[1..] + ys;
      SplitRun(Apply(w, xs[0]), xs[1..], ys);
    }
  }

  /** Between any two moments of any run the bridge moves forward only, and who ended it
      and why are fixed by the first activation to say so. */
  lemma BridgeNeverRegresses(w: World, xs: seq<Event>, ys: seq<Event>)
    requires Initial(w) && Feasible(w, xs + ys)
    ensures Feasible(w, xs) && NoEarlier(After(w, xs), After(w, xs + ys))
  {
    SplitRun(w, xs, ys);
    InitialInv(w);
    ScheduleKeepsInv(w, xs);
    RunMovesForward(After(w, xs), ys);
  }

  // ----- When the bridge hangs up its legs -----

  predicate Dead(w: World, s: Side) {
    LegOf(w, s).state.Destroyed?
  }

  /** The frame at `p` has called `Hangup` on leg `s` and that call has not begun. */
  predicate AboutToHangUp(w: World, p: Pos, s: Side) {
    At(w, Next(p)) && FrameAt(w, Next(p)) == CallHangup(s, BridgePeer)
  }

  /** How far an activation of `Stop` has got with the two legs of a started bridge. */
  predicate StopOK(w: World, p: Pos)
    requires At(w, p) && FrameAt(w, p).Stop?
  {
    var f := FrameAt(w, p);
    && f.hangup
    && (w.bridge.started ==>
          match f.spc
          case SEnter => true
          case SUnbridge => true
          case SReadA => true
          case SReadB => f.seenA.Answered? || Dead(w, SideA)
          case SHangA => (f.seenA.Answered? || Dead(w, SideA)) && (f.seenB.Answered? || Dead(w, SideB))
          case SHangB =>
            (Dead(w, SideA) || AboutToHangUp(w, p, SideA)) && (f.seenB.Answered? || Dead(w, SideB))
          case SFinish => Dead(w, SideA) && (Dead(w, SideB) || AboutToHangUp(w, p, SideB))
          case SClose => Dead(w, SideA) && Dead(w, SideB)
          case SNotify => Dead(w, SideA) && Dead(w, SideB))
  }

  predicate LegsOK(w: World) {
    && w.bridge.autoHangup
    && (w.bridge.started ==>
          && (w.legA.state.Answered? || Dead(w, SideA))
          && (w.legB.state.Answered? || Dead(w, SideB))
          && (w.bridge.state.Terminated? ==> Dead(w, SideA) && Dead(w, SideB)))
  }

  ghost predicate HangupInv(w: World) {
    && LegsOK(w)
    && forall p: Pos :: At(w, p) && FrameAt(w, p).Stop? ==> StopOK(w, p)
  }

  /** Nobody asks the bridge to stop and leave its legs up. */
  predicate HangsUp(e: Event) {
    !(e.Spawn? && e.call.Stop? && !e.call.hangup)
  }

  lemma HangupStepKills(w: World, w': World, t: nat, rest: Stack)
    requires HangupMove(w, w', t, rest)
    ensures forall s :: Dead(w, s) ==> Dead(w', s)
    ensures forall s :: LegOf(w, s).state.Answered? ==> LegOf(w', s).state.Answered? || Dead(w', s)
    ensures Top(w, t).hpc.HEnter? && !LegOf(w, Top(w, t).side).state.Failed? ==> Dead(w', Top(w, t).side)
    ensures forall f :: f in rest ==> !f.Stop?
  {
  }

  lemma HangupKeepsHangupInv(w: World, w': World, t: nat, rest: Stack)
    requires HangupInv(w) && HangupMove(w, w', t, rest)
    ensures HangupInv(w')
  {
    HangupStepKills(w, w', t, rest);
    assert FrameAt(w, Here(w, t)) == Top(w, t);
    assert LegOf(w, SideA) == w.legA && LegOf(w, SideB) == w.legB;
    assert LegOf(w', SideA) == w'.legA && LegOf(w', SideB) == w'.legB;
    forall p: Pos | At(w', p) && FrameAt(w', p).Stop? ensures StopOK(w', p) {
      assert p != Here(w, t) && p != Above(w, t);
      assert At(w, p) && StopOK(w, p);
      if At(w, Next(p)) && Next(p) != Here(w, t) {
        assert At(w', Next(p));
      }
    }
  }

  lemma TeardownKeepsHangupInv(w: World, w': World, t: nat, rest: Stack)
    requires Inv(w) && HangupInv(w) && TeardownMove(w, w', t, rest)
    ensures HangupInv(w')
  {
    assert FrameAt(w, Here(w, t)) == Top(w, t) && !At(w, Above(w, t));
    assert At(w, Here(w, t)) && FrameOK(w, Here(w, t));
    if Top(w, t).Stop? {
      assert StopOK(w, Here(w, t));
    }
    assert LegOf(w, SideA) == w.legA && LegOf(w, SideB) == w.legB;
    assert LegOf(w', SideA) == w'.legA && LegOf(w', SideB) == w'.legB;
    forall p: Pos | At(w', p) && FrameAt(w', p).Stop? ensures StopOK(w', p) {
      if p != Here(w, t) && p != Above(w, t) {
        assert At(w, p) && StopOK(w, p);
        if At(w, Next(p)) && Next(p) != Here(w, t) {
          assert At(w', Next(p));
        }
      }
    }
  }

  lemma StartKeepsHangupInv(w: World, w': World, t: nat, ok: bool, rest: Stack)
    requires Inv(w) && HangupInv(w) && StartMove(w, w', t, ok, rest)
    ensures HangupInv(w')
  {
    assert FrameAt(w, Here(w, t)) == Top(w, t) && !At(w, Above(w, t));
    assert At(w, Here(w, t)) && FrameOK(w, Here(w, t));
    assert LegOK(w, SideA) && LegOK(w, SideB);
    assert LegOf(w, SideA) == w.legA && LegOf(w, SideB) == w.legB;
    assert LegOf(w', SideA) == w'.legA && LegOf(w', SideB) == w'.legB;
    forall p: Pos | At(w', p) && FrameAt(w', p).Stop? ensures StopOK(w', p) {
      assert p != Here(w, t) && p != Above(w, t);
      assert At(w, p) && StopOK(w, p) && FrameOK(w, p);
      if At(w, Next(p)) && Next(p) != Here(w, t) {
        assert At(w', Next(p));
      }
    }
  }

  lemma NewKeepsHangupInv(w: World, w': World, t: nat, rest: Stack)
    requires HangupInv(w) && NewMove(w, w', t, rest)
    ensures HangupInv(w')
  {
    assert FrameAt(w, Here(w, t)) == Top(w, t) && !At(w, Above(w, t));
    assert LegOf(w, SideA) == w.legA && LegOf(w, SideB) == w.legB;
    assert LegOf(w', SideA) == w'.legA && LegOf(w', SideB) == w'.legB;
    forall p: Pos | At(w', p) && FrameAt(w', p).Stop? ensures StopOK(w', p) {
      assert p != Here(w, t) && p != Above(w, t);
      assert At(w, p) && StopOK(w, p);
      if At(w, Next(p)) && Next(p) != Here(w, t) {
        assert At(w', Next(p));
      }
    }
  }

  lemma StepKeepsHangupInv(w: World, t: nat, ok: bool)
    requires Inv(w) && HangupInv(w) && CanStep(w, t)
    ensures HangupInv(Step(w, t, ok))
  {
    var rest := StepIsMove(w, t, ok);
    var w' := Step(w, t, ok);
    if HangupMove(w, w', t, rest) {
      HangupKeepsHangupInv(w, w', t, rest);
    } else if TeardownMove(w, w', t, rest) {
      TeardownKeepsHangupInv(w, w', t, rest);
    } else if StartMove(w, w', t, ok, rest) {
      StartKeepsHangupInv(w, w', t, ok, rest);
    } else {
      NewKeepsHangupInv(w, w', t, rest);
    }
  }

  lemma EventKeepsHangupInv(w: World, e: Event)
    requires Inv(w) && HangupInv(w) && Enabled(w, e) && HangsUp(e)
    ensures HangupInv(Apply(w, e))
  {
    match e
    case Spawn(f) =>
      var w' := Apply(w, e);
      var n := |w.threads|;
      forall p: Pos | At(w', p) && FrameAt(w', p).Stop? ensures StopOK(w', p) {
        if p != Pos(n, 0) {
          assert At(w, p) && FrameAt(w', p) == FrameAt(w, p) && StopOK(w, p);
          assert At(w', Next(p)) <==> At(w, Next(p));
        }
      }
    case Move(s, to) =>
      var w' := Apply(w, e);
      forall p: Pos | At(w', p) && FrameAt(w', p).Stop? ensures StopOK(w', p) {
        assert At(w, p) && FrameAt(w', p) == FrameAt(w, p) && StopOK(w, p);
        assert At(w', Next(p)) <==> At(w, Next(p));
      }
    case Run(t, ok) => StepKeepsHangupInv(w, t, ok);
  }

  lemma {:induction false} ScheduleKeepsHangupInv(w: World, es: seq<Event>)
    requires Inv(w) && HangupInv(w) && Feasible(w, es) && forall e :: e in es ==> HangsUp(e)
    ensures HangupInv(After(w, es))
    decreases |es|
  {
    if es != [] {
      EventKeepsInv(w, es[0]);
      EventKeepsHangupInv(w, es[0]);
      ScheduleKeepsHangupInv(Apply(w, es[0]), es[1..]);
    }
  }

  /** Once a leg of a started bridge has died, the end of all activity finds the bridge
      Terminated and both legs Destroyed, provided the bridge hangs up its legs. */
  lemma OneLegEndsBoth(w: World, es: seq<Event>)
    requires Initial(w) && w.bridge.autoHangup
    requires Feasible(w, es) && forall e :: e in es ==> HangsUp(e)
    requires Quiescent(After(w, es)) && After(w, es).bridge.started
    requires !After(w, es).legA.state.Answered? || !After(w, es).legB.state.Answered?
    ensures var v := After(w, es);
            v.bridge.state.Terminated? && v.legA.state.Destroyed? && v.legB.state.Destroyed?
  {
    InitialInv(w);
    ScheduleKeepsInv(w, es);
    ScheduleKeepsHangupInv(w, es);
    QuietBridgeIsSettled(w, es);
  }
}
