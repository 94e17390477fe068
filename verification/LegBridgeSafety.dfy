/** What every interleaving of the leg/bridge protocol keeps. */
module LegBridgeSafety {
  import opened CallStates
  import opened LegBridge

  // ----- Vocabulary -----

  predicate At(w: World, p: Pos) {
    p.thread < |w.threads| && p.index < |w.threads[p.thread]|
  }

  function FrameAt(w: World, p: Pos): Frame
    requires At(w, p)
  {
    w.threads[p.thread][p.index]
  }

  function Next(p: Pos): Pos {
    Pos(p.thread, p.index + 1)
  }

  /** An activation of `Hangup` on leg `s` that found the leg alive. */
  predicate Owns(f: Frame, s: Side) {
    f.Hangup? && f.side == s && !f.hpc.HEnter?
  }

  /** The activation of `Hangup` that destroyed leg `s`, while it is still running. */
  function Winning(w: World, s: Side): Option<Frame> {
    var l := LegOf(w, s);
    if l.winner.Some? && At(w, l.winner.value) && Owns(FrameAt(w, l.winner.value), s)
    then Some(FrameAt(w, l.winner.value))
    else None
  }

  /** Leg `s` is destroyed and its termination callback has not reached the bridge yet:
      the hangup has still to read the callback table, or has read the bridge's entry and
      not called it, or has called it and the handler has not taken the bridge's mutex. */
  predicate Undelivered(w: World, s: Side) {
    var win := Winning(w, s);
    && win.Some?
    && match win.value.hpc
       case HEnter => false
       case HTeardown => true
       case HDone => true
       case HState => true
       case HSnap => true
       case HDeliver => win.value.snap
       case HReturn =>
         var q := Next(LegOf(w, s).winner.value);
         At(w, q) && FrameAt(w, q) == CallHandle(s)
  }

  predicate Covered(w: World, s: Side) {
    LegOf(w, s).state.Answered? || Undelivered(w, s)
  }

  predicate BeforeFinish(pc: StopPc) {
    !pc.SClose? && !pc.SNotify?
  }

  /** The activation that moved the bridge to Terminating will still finish the job. */
  predicate DriverAlive(w: World) {
    && w.bridge.driver.Some?
    && At(w, w.bridge.driver.value)
    && var p := w.bridge.driver.value;
       match FrameAt(w, p)
       case Hangup(_, _, _, _) => false
       case Handle(_, pc) =>
         pc.KStop? || (pc.KReturn? && At(w, Next(p)) && FrameAt(w, Next(p)).Stop?
             && BeforeFinish(FrameAt(w, Next(p)).spc))
       case Stop(_, pc, _, _) => !pc.SEnter? && BeforeFinish(pc)
       case Start(_) => false
       case NewBridge(_) => false
  }

  // ----- The invariant -----

  /** A leg is destroyed by one activation of `Hangup`; the teardown handler has run
      exactly once and `done` is closed as soon as that activation is past them. */
  predicate LegInv(l: Leg, win: Option<Frame>)
    requires win.Some? ==> win.value.Hangup?
  {
    && (l.state.Destroyed? <==> l.winner.Some?)
    && (!l.state.Destroyed? ==> l.teardowns == 0 && !l.doneClosed)
    && (l.state.Destroyed? ==>
          && (l.teardowns == if l.handler && !(win.Some? && win.value.hpc.HTeardown?) then 1 else 0)
          && (l.doneClosed <==> !(win.Some? && (win.value.hpc.HTeardown? || win.value.hpc.HDone?))))
  }

  predicate LegOK(w: World, s: Side) {
    LegInv(LegOf(w, s), Winning(w, s))
  }

  predicate IsTop(w: World, p: Pos) {
    At(w, p) && !At(w, Next(p))
  }

  predicate FrameOK(w: World, p: Pos)
    requires At(w, p)
  {
    match FrameAt(w, p)
    case Hangup(s, _, pc, _) => !pc.HEnter? ==> LegOf(w, s).winner == Some(p)
    case Handle(_, pc) => !pc.KEnter? ==> Rank(w.bridge.state) >= 2
    case Stop(_, pc, _, _) => !pc.SEnter? ==> Rank(w.bridge.state) >= 2
    case Start(pc) =>
      && IsTop(w, p)
      && w.bridge.published
      && (!pc.TLock? ==> w.lock == Some(p.thread) && w.bridge.state.Fresh?)
      && (pc.TReadB? || pc.TMedia? || pc.TActivate? ==> Covered(w, SideA))
      && (pc.TMedia? || pc.TActivate? ==> Covered(w, SideB))
    case NewBridge(pc) => IsTop(w, p) && (pc.NWatchB? ==> w.legA.watched)
  }

  predicate LockOK(w: World) {
    w.lock.Some? ==>
      Running(w, w.lock.value) && Top(w, w.lock.value).Start? && !Top(w, w.lock.value).tpc.TLock?
  }

  predicate BridgeOK(w: World) {
    var b := w.bridge;
    && (b.published ==> w.legA.watched && w.legB.watched)
    && (b.state.Active? ==> b.published && b.started && Covered(w, SideA) && Covered(w, SideB))
    && (Rank(b.state) < 2 ==> b.endedBy.NoOne? && b.cause.NoCause?)
    && (b.endedBy.NoOne? <==> b.cause.NoCause?)
    && (b.state.Terminating? ==> DriverAlive(w))
    && (b.state.Terminated? ==> !b.endedBy.NoOne?)
    && (b.started ==> !b.state.Fresh?)
  }

  ghost predicate Inv(w: World) {
    && LegOK(w, SideA)
    && LegOK(w, SideB)
    && LockOK(w)
    && BridgeOK(w)
    && (forall p: Pos :: At(w, p) ==> FrameOK(w, p))
  }

  // ----- What a step of thread `t` leaves alone -----

  function Above(w: World, t: nat): Pos
    requires Running(w, t)
  {
    Next(Here(w, t))
  }

  /** Between `w` and `w'` the top frame of thread `t` became `rest` and no other frame changed. */
  ghost predicate Resumed(w: World, w': World, t: nat, rest: Stack)
    requires Running(w, t)
  {
    && |rest| <= 2
    && (At(w', Here(w, t)) <==> |rest| >= 1)
    && (|rest| >= 1 ==> FrameAt(w', Here(w, t)) == rest[0])
    && (At(w', Above(w, t)) <==> |rest| == 2)
    && (|rest| == 2 ==> FrameAt(w', Above(w, t)) == rest[1])
    && (forall p: Pos {:trigger At(w', p)} {:trigger At(w, p)} ::
          p != Here(w, t) && p != Above(w, t) ==>
            (At(w', p) <==> At(w, p)) && (At(w, p) ==> FrameAt(w', p) == FrameAt(w, p)))
  }

  lemma ResumeEffect(w0: World, w: World, t: nat, rest: Stack)
    requires Running(w, t) && w0.threads == w.threads && |rest| <= 2
    ensures Resumed(w, Resume(w0, t, rest), t, rest)
  {
  }

  lemma WinningStays(w: World, w': World, t: nat, rest: Stack, s: Side)
    requires Running(w, t) && Resumed(w, w', t, rest)
    requires LegOf(w', s).winner == LegOf(w, s).winner
    requires !Owns(Top(w, t), s) && forall f :: f in rest ==> !Owns(f, s)
    ensures Winning(w', s) == Winning(w, s)
  {
    if LegOf(w, s).winner.Some? {
      var p := LegOf(w, s).winner.value;
      assert At(w, p) ==> At(w', p) || p == Here(w, t);
      assert At(w', p) ==> At(w, p) || p == Above(w, t);
      assert FrameAt(w, Here(w, t)) == Top(w, t);
    }
  }

  lemma UndeliveredStays(w: World, w': World, t: nat, rest: Stack, s: Side)
    requires Running(w, t) && Resumed(w, w', t, rest)
    requires LegOf(w', s).winner == LegOf(w, s).winner
    requires !Owns(Top(w, t), s) && Top(w, t) != CallHandle(s) && forall f :: f in rest ==> !Owns(f, s)
    requires Undelivered(w, s)
    ensures Undelivered(w', s)
  {
    WinningStays(w, w', t, rest, s);
    var q := Next(LegOf(w, s).winner.value);
    if At(w, q) {
      assert At(w', q) || q == Here(w, t);
      assert FrameAt(w, Here(w, t)) == Top(w, t);
    }
  }

  lemma DriverStays(w: World, w': World, t: nat, rest: Stack)
    requires Running(w, t) && Resumed(w, w', t, rest)
    requires w'.bridge.driver == w.bridge.driver
    requires !Top(w, t).Handle? && !Top(w, t).Stop?
    requires DriverAlive(w)
    ensures DriverAlive(w')
  {
    var p := w.bridge.driver.value;
    assert FrameAt(w, Here(w, t)) == Top(w, t);
    assert At(w', p);
    if At(w, Next(p)) {
      assert At(w', Next(p)) || Next(p) == Here(w, t);
    }
  }

  lemma LockStays(w: World, w': World, t: nat, rest: Stack)
    requires Running(w, t) && Resumed(w, w', t, rest)
    requires LockOK(w) && w'.lock == w.lock && w.lock != Some(t)
    ensures LockOK(w')
  {
    if w.lock.Some? {
      var p := Here(w, w.lock.value);
      assert At(w, p) && !At(w, Next(p));
      assert At(w', p) && !At(w', Next(p));
      assert FrameAt(w', p) == Top(w, w.lock.value);
    }
  }

  // ----- A step of `Hangup` -----

  ghost predicate HangupMove(w: World, w': World, t: nat, rest: Stack) {
    && Running(w, t) && Top(w, t).Hangup?
    && Resumed(w, w', t, rest)
    && w'.bridge == w.bridge && w'.lock == w.lock
    && var side := Top(w, t).side;
       && (LegOf(w', side), rest) == HangupStep(Top(w, t), LegOf(w, side), Here(w, t))
       && forall s :: s != side ==> LegOf(w', s) == LegOf(w, s)
  }

  lemma HangupKeepsLeg(w: World, w': World, t: nat, rest: Stack, s: Side)
    requires HangupMove(w, w', t, rest)
    requires LegOK(w, s) && FrameOK(w, Here(w, t))
    ensures LegOK(w', s)
  {
    var f := Top(w, t);
    assert FrameAt(w, Here(w, t)) == f;
    if s != f.side {
      WinningStays(w, w', t, rest, s);
    } else if f.hpc.HEnter? && IsTerminal(LegOf(w, s).state) {
      WinningStays(w, w', t, rest, s);
    } else {
      assert FrameOK(w, Here(w, t));
    }
  }

  lemma HangupKeepsCovered(w: World, w': World, t: nat, rest: Stack, s: Side)
    requires HangupMove(w, w', t, rest)
    requires LegOK(w, s) && FrameOK(w, Here(w, t)) && Covered(w, s) && LegOf(w, s).watched
    ensures Covered(w', s)
  {
    var f := Top(w, t);
    assert FrameAt(w, Here(w, t)) == f;
    if s != f.side || (f.hpc.HEnter? && IsTerminal(LegOf(w, s).state)) {
      if Undelivered(w, s) {
        UndeliveredStays(w, w', t, rest, s);
      }
    } else {
      assert FrameOK(w, Here(w, t));
      assert !At(w, Above(w, t));
    }
  }

  lemma HangupKeepsFrame(w: World, w': World, t: nat, rest: Stack, p: Pos)
    requires HangupMove(w, w', t, rest)
    requires LegOK(w, SideA) && LegOK(w, SideB) && BridgeOK(w)
    requires FrameOK(w, Here(w, t)) && At(w', p) && (At(w, p) ==> FrameOK(w, p))
    ensures FrameOK(w', p)
  {
    assert FrameAt(w, Here(w, t)) == Top(w, t);
    if p != Here(w, t) && p != Above(w, t) {
      assert At(w, p);
      if FrameAt(w, p).Start? {
        if Covered(w, SideA) {
          HangupKeepsCovered(w, w', t, rest, SideA);
        }
        if Covered(w, SideB) {
          HangupKeepsCovered(w, w', t, rest, SideB);
        }
        assert !At(w, Next(p)) && Next(p) != Above(w, t);
      }
    }
  }

  lemma HangupKeepsBridge(w: World, w': World, t: nat, rest: Stack)
    requires HangupMove(w, w', t, rest)
    requires LegOK(w, SideA) && LegOK(w, SideB) && BridgeOK(w) && FrameOK(w, Here(w, t))
    ensures BridgeOK(w')
  {
    if w.bridge.state.Active? {
      HangupKeepsCovered(w, w', t, rest, SideA);
      HangupKeepsCovered(w, w', t, rest, SideB);
    } else if w.bridge.state.Terminating? {
      DriverStays(w, w', t, rest);
    }
  }

  lemma HangupKeepsInv(w: World, w': World, t: nat, rest: Stack)
    requires Inv(w) && HangupMove(w, w', t, rest)
    ensures Inv(w')
  {
    assert At(w, Here(w, t));
    HangupKeepsLeg(w, w', t, rest, SideA);
    HangupKeepsLeg(w, w', t, rest, SideB);
    HangupKeepsBridge(w, w', t, rest);
    LockStays(w, w', t, rest);
    forall p: Pos | At(w', p) ensures FrameOK(w', p) {
      HangupKeepsFrame(w, w', t, rest, p);
    }
  }

  // ----- A step of the bridge's handler, or of `Stop` -----

  ghost predicate TeardownMove(w: World, w': World, t: nat, rest: Stack) {
    && CanStep(w, t) && Resumed(w, w', t, rest)
    && w'.legA == w.legA && w'.legB == w.legB && w'.lock == w.lock
    && (|| (Top(w, t).Handle? && (w'.bridge, rest) == HandleStep(Top(w, t), w.bridge, Here(w, t)))
        || (Top(w, t).Stop?
            && (w'.bridge, rest) == StopStep(Top(w, t), w.bridge, w.legA.state, w.legB.state, Here(w, t))))
  }

  lemma TeardownMovesBridge(w: World, w': World, t: nat, rest: Stack)
    requires TeardownMove(w, w', t, rest) && FrameOK(w, Here(w, t))
    ensures Rank(w'.bridge.state) >= 2 && Rank(w'.bridge.state) >= Rank(w.bridge.state)
    ensures w'.bridge.published == w.bridge.published && w'.bridge.started == w.bridge.started
    ensures forall f :: f in rest ==> !f.Start? && !f.NewBridge? && (f.Hangup? ==> f.hpc.HEnter?)
  {
    assert FrameAt(w, Here(w, t)) == Top(w, t);
  }

  lemma TeardownKeepsFrame(w: World, w': World, t: nat, rest: Stack, p: Pos)
    requires TeardownMove(w, w', t, rest) && BridgeOK(w)
    requires FrameOK(w, Here(w, t)) && At(w', p) && (At(w, p) ==> FrameOK(w, p))
    ensures FrameOK(w', p)
  {
    TeardownMovesBridge(w, w', t, rest);
    assert FrameAt(w, Here(w, t)) == Top(w, t);
    if p != Here(w, t) && p != Above(w, t) {
      assert At(w, p);
      if FrameAt(w, p).Start? || FrameAt(w, p).NewBridge? {
        assert !At(w, Next(p)) && Next(p) != Above(w, t);
      }
    }
  }

  lemma HandleKeepsDriver(w: World, w': World, t: nat, rest: Stack)
    requires TeardownMove(w, w', t, rest) && BridgeOK(w) && FrameOK(w, Here(w, t))
    requires Top(w, t).Handle? && w'.bridge.state.Terminating?
    ensures DriverAlive(w')
  {
    var f := Top(w, t);
    assert FrameAt(w, Here(w, t)) == f && !At(w, Above(w, t));
    if Rank(w.bridge.state) >= 2 {
      var p := w.bridge.driver.value;
      assert w'.bridge.driver == w.bridge.driver;
      if p != Here(w, t) {
        assert At(w', p) && FrameAt(w', p) == FrameAt(w, p);
        assert At(w, Next(p)) ==> At(w', Next(p)) || Next(p) == Here(w, t);
      }
    }
  }

  lemma StopKeepsDriver(w: World, w': World, t: nat, rest: Stack)
    requires TeardownMove(w, w', t, rest) && BridgeOK(w) && FrameOK(w, Here(w, t))
    requires Top(w, t).Stop? && w'.bridge.state.Terminating?
    ensures DriverAlive(w')
  {
    var f := Top(w, t);
    assert FrameAt(w, Here(w, t)) == f && !At(w, Above(w, t));
    if w.bridge.state.Terminating? {
      var p := w.bridge.driver.value;
      assert w'.bridge.driver == w.bridge.driver;
      if p != Here(w, t) {
        assert At(w', p) && FrameAt(w', p) == FrameAt(w, p);
        assert At(w, Next(p)) ==> At(w', Next(p)) || Next(p) == Here(w, t);
      }
    }
  }

  lemma TeardownKeepsInv(w: World, w': World, t: nat, rest: Stack)
    requires Inv(w) && TeardownMove(w, w', t, rest)
    ensures Inv(w')
  {
    assert At(w, Here(w, t));
    TeardownMovesBridge(w, w', t, rest);
    WinningStays(w, w', t, rest, SideA);
    WinningStays(w, w', t, rest, SideB);
    LockStays(w, w', t, rest);
    assert BridgeOK(w') by {
      if w'.bridge.state.Terminating? {
        if Top(w, t).Handle? {
          HandleKeepsDriver(w, w', t, rest);
        } else {
          StopKeepsDriver(w, w', t, rest);
        }
      }
    }
    forall p: Pos | At(w', p) ensures FrameOK(w', p) {
      TeardownKeepsFrame(w, w', t, rest, p);
    }
  }

  // ----- A step of `Start` -----

  ghost predicate StartMove(w: World, w': World, t: nat, ok: bool, rest: Stack) {
    && CanStep(w, t) && Top(w, t).Start? && Resumed(w, w', t, rest)
    && w'.legA == w.legA && w'.legB == w.legB
    && (w'.bridge, w'.lock == Some(t), rest)
       == StartStep(Top(w, t), w.bridge, w.legA.state, w.legB.state, ok)
    && (w'.lock == Some(t) || w'.lock == None)
  }

  lemma StartKeepsCovered(w: World, w': World, t: nat, ok: bool, rest: Stack, s: Side)
    requires StartMove(w, w', t, ok, rest)
    ensures Winning(w', s) == Winning(w, s)
    ensures Covered(w, s) ==> Covered(w', s)
  {
    WinningStays(w, w', t, rest, s);
    if Undelivered(w, s) {
      UndeliveredStays(w, w', t, rest, s);
    }
  }

  lemma StartKeepsFrame(w: World, w': World, t: nat, ok: bool, rest: Stack, p: Pos)
    requires StartMove(w, w', t, ok, rest) && BridgeOK(w)
    requires FrameOK(w, Here(w, t)) && At(w', p) && (At(w, p) ==> FrameOK(w, p))
    ensures FrameOK(w', p)
  {
    StartKeepsCovered(w, w', t, ok, rest, SideA);
    StartKeepsCovered(w, w', t, ok, rest, SideB);
    assert FrameAt(w, Here(w, t)) == Top(w, t);
    if p != Here(w, t) && p != Above(w, t) {
      assert At(w, p);
      if FrameAt(w, p).Start? || FrameAt(w, p).NewBridge? {
        assert !At(w, Next(p)) && Next(p) != Above(w, t);
      }
    }
  }

  lemma StartKeepsInv(w: World, w': World, t: nat, ok: bool, rest: Stack)
    requires Inv(w) && StartMove(w, w', t, ok, rest)
    ensures Inv(w')
  {
    assert At(w, Here(w, t)) && FrameOK(w, Here(w, t));
    assert FrameAt(w, Here(w, t)) == Top(w, t);
    StartKeepsCovered(w, w', t, ok, rest, SideA);
    StartKeepsCovered(w, w', t, ok, rest, SideB);
    if w.bridge.state.Terminating? {
      DriverStays(w, w', t, rest);
    }
    if w'.lock == Some(t) {
      assert At(w', Here(w, t)) && !At(w', Above(w, t));
    }
    forall p: Pos | At(w', p) ensures FrameOK(w', p) {
      StartKeepsFrame(w, w', t, ok, rest, p);
    }
  }

  // ----- A step of `NewBridge` -----

  ghost predicate NewMove(w: World, w': World, t: nat, rest: Stack) {
    && CanStep(w, t) && Top(w, t).NewBridge? && Resumed(w, w', t, rest)
    && w'.lock == w.lock
    && (w'.legA, w'.legB, w'.bridge, rest) == NewStep(Top(w, t), w)
  }

  lemma NewKeepsCovered(w: World, w': World, t: nat, rest: Stack, s: Side)
    requires NewMove(w, w', t, rest)
    ensures Winning(w', s) == Winning(w, s)
    ensures Covered(w, s) ==> Covered(w', s)
  {
    WinningStays(w, w', t, rest, s);
    if Undelivered(w, s) {
      UndeliveredStays(w, w', t, rest, s);
    }
  }

  lemma NewKeepsFrame(w: World, w': World, t: nat, rest: Stack, p: Pos)
    requires NewMove(w, w', t, rest)
    requires FrameOK(w, Here(w, t)) && At(w', p) && (At(w, p) ==> FrameOK(w, p))
    ensures FrameOK(w', p)
  {
    NewKeepsCovered(w, w', t, rest, SideA);
    NewKeepsCovered(w, w', t, rest, SideB);
    assert FrameAt(w, Here(w, t)) == Top(w, t);
    if p != Here(w, t) && p != Above(w, t) {
      assert At(w, p);
      if FrameAt(w, p).Start? || FrameAt(w, p).NewBridge? {
        assert !At(w, Next(p)) && Next(p) != Above(w, t);
      }
    }
  }

  lemma NewKeepsInv(w: World, w': World, t: nat, rest: Stack)
    requires Inv(w) && NewMove(w, w', t, rest)
    ensures Inv(w')
  {
    assert At(w, Here(w, t)) && FrameOK(w, Here(w, t));
    assert FrameAt(w, Here(w, t)) == Top(w, t);
    NewKeepsCovered(w, w', t, rest, SideA);
    NewKeepsCovered(w, w', t, rest, SideB);
    if w.bridge.state.Terminating? {
      DriverStays(w, w', t, rest);
    }
    LockStays(w, w', t, rest);
    forall p: Pos | At(w', p) ensures FrameOK(w', p) {
      NewKeepsFrame(w, w', t, rest, p);
    }
  }

  // ----- Events from outside -----

  lemma SpawnKeepsInv(w: World, f: Frame)
    requires Inv(w) && Spawnable(w, f)
    ensures Inv(Apply(w, Spawn(f)))
  {
    var w' := Apply(w, Spawn(f));
    var n := |w.threads|;
    forall p: Pos ensures At(w', p) <==> At(w, p) || p == Pos(n, 0)
      ensures At(w, p) ==> FrameAt(w', p) == FrameAt(w, p)
    {
    }
    assert FrameAt(w', Pos(n, 0)) == f;
    assert Winning(w', SideA) == Winning(w, SideA) && Winning(w', SideB) == Winning(w, SideB);
    assert Covered(w, SideA) ==> Covered(w', SideA);
    assert Covered(w, SideB) ==> Covered(w', SideB);
    forall p: Pos | At(w', p) ensures FrameOK(w', p) {
      if p != Pos(n, 0) {
        assert FrameOK(w, p);
        assert At(w', Next(p)) <==> At(w, Next(p));
      }
    }
  }

  lemma MoveKeepsInv(w: World, s: Side, to: LegState)
    requires Inv(w) && Enabled(w, Move(s, to))
    ensures Inv(Apply(w, Move(s, to)))
  {
    var w' := Apply(w, Move(s, to));
    forall p: Pos ensures At(w', p) <==> At(w, p)
      ensures At(w, p) ==> FrameAt(w', p) == FrameAt(w, p)
    {
    }
    assert Winning(w', SideA) == Winning(w, SideA) && Winning(w', SideB) == Winning(w, SideB);
    assert Covered(w, SideA) ==> Covered(w', SideA);
    assert Covered(w, SideB) ==> Covered(w', SideB);
    forall p: Pos | At(w', p) ensures FrameOK(w', p) {
      assert FrameOK(w, p);
    }
  }

  /** Every step is one of the four moves. */
  lemma StepIsMove(w: World, t: nat, ok: bool) returns (rest: Stack)
    requires CanStep(w, t)
    ensures var w' := Step(w, t, ok);
            || HangupMove(w, w', t, rest)
            || TeardownMove(w, w', t, rest)
            || StartMove(w, w', t, ok, rest)
            || NewMove(w, w', t, rest)
  {
    var f := Top(w, t);
    var here := Here(w, t);
    match f
    case Hangup(side, _, _, _) =>
      var (leg, r) := HangupStep(f, LegOf(w, side), here);
      rest := r;
      ResumeEffect(WithLeg(w, side, leg), w, t, rest);
    case Handle(_, _) =>
      var (b, r) := HandleStep(f, w.bridge, here);
      rest := r;
      ResumeEffect(w.(bridge := b), w, t, rest);
    case Stop(_, _, _, _) =>
      var (b, r) := StopStep(f, w.bridge, w.legA.state, w.legB.state, here);
      rest := r;
      ResumeEffect(w.(bridge := b), w, t, rest);
    case Start(_) =>
      var (b, held, r) := StartStep(f, w.bridge, w.legA.state, w.legB.state, ok);
      rest := r;
      ResumeEffect(w.(bridge := b, lock := if held then Some(t) else None), w, t, rest);
    case NewBridge(_) =>
      var (a, c, b, r) := NewStep(f, w);
      rest := r;
      ResumeEffect(w.(legA := a, legB := c, bridge := b), w, t, rest);
  }

  /** One step of any thread, whatever the others are doing. */
  lemma StepKeepsInv(w: World, t: nat, ok: bool)
    requires Inv(w) && CanStep(w, t)
    ensures Inv(Step(w, t, ok))
  {
    var rest := StepIsMove(w, t, ok);
    var w' := Step(w, t, ok);
    if HangupMove(w, w', t, rest) {
      HangupKeepsInv(w, w', t, rest);
    } else if TeardownMove(w, w', t, rest) {
      TeardownKeepsInv(w, w', t, rest);
    } else if StartMove(w, w', t, ok, rest) {
      StartKeepsInv(w, w', t, ok, rest);
    } else {
      NewKeepsInv(w, w', t, rest);
    }
  }

  lemma EventKeepsInv(w: World, e: Event)
    requires Inv(w) && Enabled(w, e)
    ensures Inv(Apply(w, e))
  {
    match e
    case Spawn(f) => SpawnKeepsInv(w, f);
    case Move(s, to) => MoveKeepsInv(w, s, to);
    case Run(t, ok) => StepKeepsInv(w, t, ok);
  }

  lemma InitialInv(w: World)
    requires Initial(w)
    ensures Inv(w)
  {
    assert LegOf(w, SideA) == w.legA && LegOf(w, SideB) == w.legB;
  }

  lemma {:induction false} ScheduleKeepsInv(w: World, es: seq<Event>)
    requires Inv(w) && Feasible(w, es)
    ensures Inv(After(w, es))
    decreases |es|
  {
    if es != [] {
      EventKeepsInv(w, es[0]);
      ScheduleKeepsInv(Apply(w, es[0]), es[1..]);
    }
  }
}
