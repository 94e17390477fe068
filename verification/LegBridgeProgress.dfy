/** The recursion Hangup -> callback -> Stop -> Hangup always comes to an end. */
module LegBridgeProgress {
  import opened CallStates
  import opened LegBridge
  import opened LegBridgeSafety
  import opened LegBridgeOutcome

  // ----- A bound on the work left -----

  /** An upper bound on the steps that remain in a frame and in all it will call, not
      counting the one `Stop` that the first handler to win the bridge will call. */
  function Cost(f: Frame): nat {
    match f
    case Hangup(_, _, pc, _) =>
      (match pc
       case HEnter => 8
       case HTeardown => 7
       case HDone => 6
       case HState => 5
       case HSnap => 4
       case HDeliver => 3
       case HReturn => 1)
    case Handle(_, pc) =>
      (match pc
       case KEnter => 1
       case KStop => 27
       case KReturn => 1)
    case Stop(_, pc, _, _) =>
      (match pc
       case SEnter => 25
       case SUnbridge => 24
       case SReadA => 23
       case SReadB => 22
       case SHangA => 21
       case SHangB => 12
       case SFinish => 3
       case SClose => 2
       case SNotify => 1)
    case Start(pc) =>
      (match pc
       case TLock => 5
       case TReadA => 4
       case TReadB => 3
       case TMedia => 2
       case TActivate => 1)
    case NewBridge(pc) =>
      (match pc
       case NWatchA => 2
       case NWatchB => 1)
  }

  function StackCost(st: Stack): nat {
    if st == [] then 0 else StackCost(st[..|st| - 1]) + Cost(st[|st| - 1])
  }

  function TotalCost(ts: seq<Stack>): nat {
    if ts == [] then 0 else TotalCost(ts[..|ts| - 1]) + StackCost(ts[|ts| - 1])
  }

  /** The work of the `Stop` that the winning handler will call. */
  function Reserve(b: Bridge): nat {
    if Rank(b.state) < 2 then 27 else 0
  }

  function Work(w: World): nat {
    TotalCost(w.threads) + Reserve(w.bridge)
  }

  lemma {:induction false} TotalCostUpdate(ts: seq<Stack>, t: nat, st: Stack)
    requires t < |ts|
    ensures TotalCost(ts[t := st]) + StackCost(ts[t]) == TotalCost(ts) + StackCost(st)
  {
    var n := |ts| - 1;
    if t == n {
      assert ts[t := st][..n] == ts[..n];
    } else {
      assert ts[t := st][..n] == ts[..n][t := st];
      TotalCostUpdate(ts[..n], t, st);
    }
  }

  lemma StackCostAppend(st: Stack, rest: Stack)
    requires |rest| <= 2
    ensures StackCost(st + rest) == StackCost(st) + StackCost(rest)
  {
    if |rest| == 0 {
      assert st + rest == st;
    } else {
      var n := |st + rest| - 1;
      assert (st + rest)[..n] == st + rest[..|rest| - 1];
      StackCostAppend(st, rest[..|rest| - 1]);
    }
  }

  lemma ResumeCost(ts: seq<Stack>, t: nat, rest: Stack)
    requires t < |ts| && ts[t] != [] && |rest| <= 2
    ensures var st := ts[t];
            TotalCost(ts[t := st[..|st| - 1] + rest]) + Cost(st[|st| - 1]) == TotalCost(ts) + StackCost(rest)
  {
    var st := ts[t];
    StackCostAppend(st[..|st| - 1], rest);
    TotalCostUpdate(ts, t, st[..|st| - 1] + rest);
  }

  lemma ResumeUsesWork(w: World, w0: World, t: nat, rest: Stack)
    requires Running(w, t) && w0.threads == w.threads && |rest| <= 2
    requires StackCost(rest) + Reserve(w0.bridge) < Cost(Top(w, t)) + Reserve(w.bridge)
    ensures Work(Resume(w0, t, rest)) < Work(w)
  {
    ResumeCost(w.threads, t, rest);
  }

  lemma PairCost(f: Frame, g: Frame)
    ensures StackCost([f]) == Cost(f) && StackCost([f, g]) == Cost(f) + Cost(g)
  {
    assert [f, g][..1] == [f];
  }

  lemma HangupStepCost(f: Frame, leg: Leg, here: Pos)
    requires f.Hangup?
    ensures StackCost(HangupStep(f, leg, here).1) < Cost(f) && |HangupStep(f, leg, here).1| <= 2
  {
    var rest := HangupStep(f, leg, here).1;
    if rest != [] {
      PairCost(rest[0], CallHandle(f.side));
    }
  }

  /** Only the handler that wins the bridge adds work: the `Stop` it will call. */
  lemma HandleStepCost(f: Frame, b: Bridge, here: Pos)
    requires f.Handle?
    ensures var (b', rest) := HandleStep(f, b, here);
            |rest| <= 2 && StackCost(rest) + Reserve(b') < Cost(f) + Reserve(b)
  {
    var rest := HandleStep(f, b, here).1;
    if rest != [] {
      PairCost(rest[0], CallStop(b.autoHangup));
    }
  }

  lemma StopStepCost(f: Frame, b: Bridge, a: LegState, c: LegState, here: Pos)
    requires f.Stop? && (!f.spc.SEnter? ==> Rank(b.state) >= 2)
    ensures var (b', rest) := StopStep(f, b, a, c, here);
            |rest| <= 2 && StackCost(rest) < Cost(f) && Reserve(b') <= Reserve(b)
  {
    var rest := StopStep(f, b, a, c, here).1;
    if rest != [] {
      PairCost(rest[0], CallHangup(SideA, BridgePeer));
      PairCost(rest[0], CallHangup(SideB, BridgePeer));
    }
  }

  lemma StartStepCost(f: Frame, b: Bridge, a: LegState, c: LegState, ok: bool)
    requires f.Start? && (f.tpc.TActivate? ==> b.state.Fresh?)
    ensures var (b', _, rest) := StartStep(f, b, a, c, ok);
            |rest| <= 2 && StackCost(rest) < Cost(f) && Reserve(b') <= Reserve(b)
  {
    var rest := StartStep(f, b, a, c, ok).2;
    if rest != [] {
      PairCost(rest[0], rest[0]);
    }
  }

  lemma NewStepCost(f: Frame, w: World)
    requires f.NewBridge?
    ensures var (_, _, b', rest) := NewStep(f, w);
            |rest| <= 2 && StackCost(rest) < Cost(f) && Reserve(b') <= Reserve(w.bridge)
  {
    var rest := NewStep(f, w).3;
    if rest != [] {
      PairCost(rest[0], rest[0]);
    }
  }

  /** Every step of every thread uses up some of the work left. */
  lemma StepUsesWork(w: World, t: nat, ok: bool)
    requires CanStep(w, t) && FrameOK(w, Here(w, t))
    ensures Work(Step(w, t, ok)) < Work(w)
  {
    var f := Top(w, t);
    var here := Here(w, t);
    assert FrameAt(w, here) == f;
    match f
    case Hangup(side, _, _, _) =>
      HangupStepCost(f, LegOf(w, side), here);
      var (leg, rest) := HangupStep(f, LegOf(w, side), here);
      ResumeUsesWork(w, WithLeg(w, side, leg), t, rest);
    case Handle(_, _) =>
      HandleStepCost(f, w.bridge, here);
      var (b, rest) := HandleStep(f, w.bridge, here);
      ResumeUsesWork(w, w.(bridge := b), t, rest);
    case Stop(_, _, _, _) =>
      StopStepCost(f, w.bridge, w.legA.state, w.legB.state, here);
      var (b, rest) := StopStep(f, w.bridge, w.legA.state, w.legB.state, here);
      ResumeUsesWork(w, w.(bridge := b), t, rest);
    case Start(_) =>
      StartStepCost(f, w.bridge, w.legA.state, w.legB.state, ok);
      var (b, held, rest) := StartStep(f, w.bridge, w.legA.state, w.legB.state, ok);
      ResumeUsesWork(w, w.(bridge := b, lock := if held then Some(t) else None), t, rest);
    case NewBridge(_) =>
      NewStepCost(f, w);
      var (a, c, b, rest) := NewStep(f, w);
      ResumeUsesWork(w, w.(legA := a, legB := c, bridge := b), t, rest);
  }

  // ----- No deadlock, no livelock -----

  /** While any call is unfinished, some thread can move: the bridge's mutex is held across
      steps only by `Start`, which waits for nobody. */
  lemma SomeThreadCanStep(w: World) returns (t: nat)
    requires Inv(w) && !Quiescent(w)
    ensures CanStep(w, t)
  {
    if w.lock.Some? {
      t := w.lock.value;
    } else {
      t :| 0 <= t < |w.threads| && w.threads[t] != [];
    }
  }

  /** With no new calls, at most `Work(w)` steps remain, however the threads are scheduled. */
  lemma {:induction false} RunsAreBounded(w: World, es: seq<Event>)
    requires Inv(w) && Feasible(w, es) && forall e :: e in es ==> e.Run?
    ensures |es| + Work(After(w, es)) <= Work(w)
    decreases |es|
  {
    if es != [] {
      assert At(w, Here(w, es[0].thread));
      StepUsesWork(w, es[0].thread, es[0].rpcOk);
      StepKeepsInv(w, es[0].thread, es[0].rpcOk);
      RunsAreBounded(Apply(w, es[0]), es[1..]);
    }
  }

  /** After any run, letting the threads go on in any order until none can move takes
      boundedly many steps and ends with every call returned; if a leg of a started bridge
      that hangs up its legs has died by then, the bridge is Terminated and both legs are
      Destroyed. */
  lemma TeardownCompletes(w: World, es: seq<Event>, fs: seq<Event>)
    requires Initial(w) && Feasible(w, es + fs) && forall e :: e in fs ==> e.Run?
    requires forall t: nat :: !CanStep(After(w, es + fs), t)
    ensures Feasible(w, es) && |fs| <= Work(After(w, es))
    ensures var v := After(w, es + fs);
            && Quiescent(v)
            && (v.bridge.started && w.bridge.autoHangup && (forall e :: e in es ==> HangsUp(e))
                && (v.legA.state.Destroyed? || v.legB.state.Destroyed?)
                ==> v.bridge.state.Terminated? && v.legA.state.Destroyed? && v.legB.state.Destroyed?)
  {
    SplitRun(w, es, fs);
    InitialInv(w);
    ScheduleKeepsInv(w, es);
    RunsAreBounded(After(w, es), fs);
    ScheduleKeepsInv(w, es + fs);
    var v := After(w, es + fs);
    if !Quiescent(v) {
      var t := SomeThreadCanStep(v);
    }
    if v.bridge.started && w.bridge.autoHangup && (forall e :: e in es ==> HangsUp(e))
       && (v.legA.state.Destroyed? || v.legB.state.Destroyed?) {
      OneLegEndsBoth(w, es + fs);
    }
  }
}
