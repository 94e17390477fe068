/** The life of a bridge, from two answered legs to the end of both. */
module LegBridgeRuns {
  import opened CallStates
  import opened LegBridge
  import opened LegBridgeSafety
  import opened LegBridgeOutcome
  import opened LegBridgeProgress
  import opened LegBridgeRecord

  lemma {:induction false} JoinRuns(w: World, xs: seq<Event>, ys: seq<Event>)
    requires Feasible(w, xs) && Feasible(After(w, xs), ys)
    ensures Feasible(w, xs + ys) && After(w, xs + ys) == After(After(w, xs), ys)
    decreases |xs|
  {
    if xs == [] {
      assert xs + ys == ys;
    } else {
      assert (xs + ys)[0] == xs[0] && (xs + ys)[1..] == xs[1..] + ys;
      JoinRuns(Apply(w, xs[0]), xs[1..], ys);
    }
  }

  lemma Then(w: World, es: seq<Event>, e: Event)
    requires Feasible(w, es) && Enabled(After(w, es), e)
    ensures Feasible(w, es + [e]) && After(w, es + [e]) == Apply(After(w, es), e)
  {
    assert [e][1..] == [];
    assert Feasible(After(w, es), [e]) && After(After(w, es), [e]) == Apply(After(w, es), e);
    JoinRuns(w, es, [e]);
  }

  /** The threads can always run to their end. */
  lemma Finishes(w: World) returns (fs: seq<Event>)
    requires Inv(w)
    ensures Feasible(w, fs) && Quiescent(After(w, fs)) && forall e :: e in fs ==> e.Run?
    decreases Work(w)
  {
    fs := [];
    if !Quiescent(w) {
      var t := SomeThreadCanStep(w);
      assert At(w, Here(w, t));
      StepUsesWork(w, t, true);
      StepKeepsInv(w, t, true);
      var rest := Finishes(Step(w, t, true));
      fs := [Run(t, true)] + rest;
      assert fs[1..] == rest;
    }
  }

  /** The only frame of a thread is replaced. */
  lemma ResumeOnly(w: World, t: nat, rest: Stack)
    requires t < |w.threads| && |w.threads[t]| == 1
    ensures Resume(w, t, rest).threads == w.threads[t := rest]
  {
    assert w.threads[t][..0] + rest == rest;
  }

  predicate BothAnswered(w: World) {
    w.legA.state.Answered? && w.legB.state.Answered?
  }

  /** The bridge is made. */
  lemma Made(w: World) returns (es: seq<Event>)
    requires Initial(w) && BothAnswered(w)
    ensures Feasible(w, es) && forall e :: e in es ==> HangsUp(e)
    ensures var v := After(w, es);
            && v.threads == [[]] && v.lock.None? && v.bridge.published && v.bridge.state.Fresh? && BothAnswered(v)
  {
    es := [];
    Then(w, es, Spawn(NewBridge(NWatchA)));
    es := es + [Spawn(NewBridge(NWatchA))];
    var w1 := After(w, es);
    assert w1.threads == [[NewBridge(NWatchA)]];
    ResumeOnly(w1.(legA := w1.legA.(watched := true)), 0, [NewBridge(NWatchB)]);
    Then(w, es, Run(0, true));
    es := es + [Run(0, true)];
    var w2 := After(w, es);
    assert w2.threads == [[NewBridge(NWatchB)]];
    ResumeOnly(w2.(legB := w2.legB.(watched := true), bridge := w2.bridge.(published := true)), 0, []);
    Then(w, es, Run(0, true));
    es := es + [Run(0, true)];
  }

  predicate Starting(w: World, pc: StartPc) {
    && w.threads == [[], [Start(pc)]] && w.bridge.published && w.bridge.state.Fresh? && BothAnswered(w)
    && (if pc.TLock? then w.lock.None? else w.lock == Some(1))
  }

  function NextPc(pc: StartPc): StartPc {
    match pc
    case TLock => TReadA
    case TReadA => TReadB
    case TReadB => TMedia
    case TMedia => TActivate
    case TActivate => TActivate
  }

  lemma StartGoesOn(w: World, pc: StartPc)
    requires Starting(w, pc)
    ensures Enabled(w, Run(1, true))
    ensures var v := Apply(w, Run(1, true));
            if pc.TActivate? then v.threads == [[], []] && v.bridge.state.Active? && v.bridge.started && BothAnswered(v)
            else Starting(v, NextPc(pc))
  {
    var (b, held, rest) := StartStep(Start(pc), w.bridge, w.legA.state, w.legB.state, true);
    ResumeOnly(w.(bridge := b, lock := if held then Some(1) else None), 1, rest);
    assert w.threads[1 := rest] == [[], rest];
  }

  /** From two answered legs, a bridge is made, started and Active, and all calls have returned. */
  lemma BecomesActive(w: World) returns (es: seq<Event>)
    requires Initial(w) && BothAnswered(w)
    ensures Feasible(w, es) && forall e :: e in es ==> HangsUp(e)
    ensures var v := After(w, es);
            v.threads == [[], []] && v.bridge.state.Active? && v.bridge.started && BothAnswered(v)
  {
    es := Made(w);
    Then(w, es, Spawn(Start(TLock)));
    es := es + [Spawn(Start(TLock))];
    var pc := TLock;
    assert Starting(After(w, es), pc);
    while !pc.TActivate?
      invariant Feasible(w, es) && Starting(After(w, es), pc) && forall e :: e in es ==> HangsUp(e)
      decreases match pc case TLock => 4 case TReadA => 3 case TReadB => 2 case TMedia => 1 case TActivate => 0
    {
      StartGoesOn(After(w, es), pc);
      Then(w, es, Run(1, true));
      es := es + [Run(1, true)];
      pc := NextPc(pc);
    }
    StartGoesOn(After(w, es), pc);
    Then(w, es, Run(1, true));
    es := es + [Run(1, true)];
  }

  /** The first leg is hung up, and everything runs to its end: the bridge is Terminated, both legs are
      Destroyed, and the first one for the reason given. */
  lemma LivesAndEnds(w: World, cause: Cause) returns (es: seq<Event>)
    requires Initial(w) && BothAnswered(w) && w.bridge.autoHangup
    ensures Feasible(w, es) && Quiescent(After(w, es))
    ensures var v := After(w, es);
            && v.bridge.started && v.bridge.state.Terminated?
            && v.legA.state.Destroyed? && v.legB.state.Destroyed? && v.legA.cause == cause
  {
    es := BecomesActive(w);
    Then(w, es, Spawn(CallHangup(SideA, cause)));
    es := es + [Spawn(CallHangup(SideA, cause))];
    assert After(w, es).threads == [[], [], [CallHangup(SideA, cause)]];
    Then(w, es, Run(2, true));
    es := es + [Run(2, true)];
    var u := After(w, es);
    assert u.legA.state.Destroyed? && u.legA.cause == cause && u.bridge.started;
    InitialInv(w);
    ScheduleKeepsInv(w, es);
    var fs := Finishes(u);
    JoinRuns(w, es, fs);
    RunMovesForward(u, fs);
    assert LegOf(u, SideA) == u.legA && LegOf(After(u, fs), SideA) == After(u, fs).legA;
    OneLegEndsBoth(w, es + fs);
    es := es + fs;
  }
}
