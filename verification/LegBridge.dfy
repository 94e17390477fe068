/** Two call legs, the bridge that joins them, and the threads that run their methods.

    A thread is a call stack.  Its top frame runs next, one lock region of the
    program at a time, so every interleaving of `NewBridge`, `Start`, `Stop` and
    the two legs' `Hangup` is a schedule of the steps below.  The termination
    callbacks make the calls recursive: a hangup calls the bridge's handler, which
    calls `Stop`, which hangs up the legs.
 */
module LegBridge {
  import opened CallStates

  datatype BridgeState = Fresh | Active | Terminating | Terminated

  function Rank(s: BridgeState): nat {
    match s
    case Fresh => 0
    case Active => 1
    case Terminating => 2
    case Terminated => 3
  }

  datatype Side = SideA | SideB

  datatype Ender = NoOne | ByLeg(side: Side) | Local

  datatype Cause = NoCause | Normal | Cancel | Rejected | Timeout | Error | BridgePeer | Transfer | RemoteBye

  /** A place in a call stack. */
  datatype Pos = Pos(thread: nat, index: nat)

  /** `watched` says that the bridge's callback is registered on the leg and `handler`
      that a teardown handler is installed.  `teardowns` and `winner` are history: how
      often the handler ran, and which activation of `Hangup` destroyed the leg. */
  datatype Leg = Leg(state: LegState, cause: Cause, watched: bool, handler: bool,
                     teardowns: nat, doneClosed: bool, winner: Option<Pos>)

  /** `started` and `driver` are history: whether the bridge was ever Active, and which
      activation first moved it to Terminating. */
  datatype Bridge = Bridge(state: BridgeState, endedBy: Ender, cause: Cause, autoHangup: bool,
                           made: bool, published: bool, started: bool, driver: Option<Pos>)

  datatype HangupPc = HEnter | HTeardown | HDone | HState | HSnap | HDeliver | HReturn
  datatype HandlePc = KEnter | KStop | KReturn
  datatype StopPc = SEnter | SUnbridge | SReadA | SReadB | SHangA | SHangB | SFinish | SClose | SNotify
  datatype StartPc = TLock | TReadA | TReadB | TMedia | TActivate
  datatype NewPc = NWatchA | NWatchB

  datatype Frame =
    | Hangup(side: Side, cause: Cause, hpc: HangupPc, snap: bool)
    | Handle(who: Side, kpc: HandlePc)
    | Stop(hangup: bool, spc: StopPc, seenA: LegState, seenB: LegState)
    | Start(tpc: StartPc)
    | NewBridge(npc: NewPc)

  type Stack = seq<Frame>

  /** `lock` is the thread that holds the bridge's mutex between steps; only `Start` does. */
  datatype World = World(legA: Leg, legB: Leg, bridge: Bridge, lock: Option<nat>, threads: seq<Stack>)

  // ----- Calls, as they are first pushed on a stack -----

  function CallHangup(side: Side, cause: Cause): Frame {
    Hangup(side, cause, HEnter, false)
  }

  function CallHandle(side: Side): Frame {
    Handle(side, KEnter)
  }

  function CallStop(hangup: bool): Frame {
    Stop(hangup, SEnter, Created, Created)
  }

  // ----- Access and update -----

  function LegOf(w: World, s: Side): Leg {
    if s.SideA? then w.legA else w.legB
  }

  function WithLeg(w: World, s: Side, l: Leg): World {
    if s.SideA? then w.(legA := l) else w.(legB := l)
  }

  predicate Running(w: World, t: nat) {
    t < |w.threads| && w.threads[t] != []
  }

  function Top(w: World, t: nat): Frame
    requires Running(w, t)
  {
    w.threads[t][|w.threads[t]| - 1]
  }

  function Here(w: World, t: nat): Pos
    requires Running(w, t)
  {
    Pos(t, |w.threads[t]| - 1)
  }

  /** The top frame of thread `t` is replaced by `rest`. */
  function Resume(w: World, t: nat, rest: Stack): World
    requires Running(w, t)
  {
    w.(threads := w.threads[t := w.threads[t][..|w.threads[t]| - 1] + rest])
  }

  // ----- One lock region of each method -----
  //
  // Each function takes the top frame and what the region reads, and gives what the
  // region writes and the frames that replace the top one: none to return, one to go
  // on, two to call.

  function HangupStep(f: Frame, leg: Leg, here: Pos): (Leg, Stack)
    requires f.Hangup?
  {
    match f.hpc
    case HEnter =>
      if IsTerminal(leg.state) then (leg, [])
      else (leg.(state := Destroyed, cause := f.cause, winner := Some(here)), [f.(hpc := HTeardown)])
    case HTeardown =>
      (if leg.handler then leg.(teardowns := leg.teardowns + 1) else leg, [f.(hpc := HDone)])
    case HDone => (leg.(doneClosed := true), [f.(hpc := HState)])
    case HState => (leg, [f.(hpc := HSnap)])
    case HSnap => (leg, [f.(hpc := HDeliver, snap := leg.watched)])
    case HDeliver => (leg, if f.snap then [f.(hpc := HReturn), CallHandle(f.side)] else [])
    case HReturn => (leg, [])
  }

  function HandleStep(f: Frame, b: Bridge, here: Pos): (Bridge, Stack)
    requires f.Handle?
  {
    match f.kpc
    case KEnter =>
      if Rank(b.state) >= 2 then (b, [])
      else (b.(state := Terminating, endedBy := ByLeg(f.who), cause := BridgePeer, driver := Some(here)),
            [f.(kpc := KStop)])
    case KStop => (b, [f.(kpc := KReturn), CallStop(b.autoHangup)])
    case KReturn => (b, [])
  }

  function StopStep(f: Frame, b: Bridge, a: LegState, c: LegState, here: Pos): (Bridge, Stack)
    requires f.Stop?
  {
    match f.spc
    case SEnter =>
      if b.state.Terminated? then (b, [])
      else if b.state.Terminating? then (b, [f.(spc := SUnbridge)])
      else (b.(state := Terminating, driver := Some(here)), [f.(spc := SUnbridge)])
    case SUnbridge => (b, [f.(spc := if f.hangup then SReadA else SFinish)])
    case SReadA => (b, [f.(spc := SReadB, seenA := a)])
    case SReadB => (b, [f.(spc := SHangA, seenB := c)])
    case SHangA =>
      (b, if f.seenA.Answered? then [f.(spc := SHangB), CallHangup(SideA, BridgePeer)] else [f.(spc := SHangB)])
    case SHangB =>
      (b, if f.seenB.Answered? then [f.(spc := SFinish), CallHangup(SideB, BridgePeer)] else [f.(spc := SFinish)])
    case SFinish =>
      (b.(state := Terminated,
          endedBy := if b.endedBy.NoOne? then Local else b.endedBy,
          cause := if b.cause.NoCause? then Normal else b.cause), [f.(spc := SClose)])
    case SClose => (b, [f.(spc := SNotify)])
    case SNotify => (b, [])
  }

  /** `Start` holds the bridge's mutex from its first step to its last, but reads each
      leg under that leg's own mutex; `ok` is the outcome of the media RPC.  The middle
      component says whether the mutex is held after the step. */
  function StartStep(f: Frame, b: Bridge, a: LegState, c: LegState, ok: bool): (Bridge, bool, Stack)
    requires f.Start?
  {
    match f.tpc
    case TLock => if b.state.Fresh? then (b, true, [Start(TReadA)]) else (b, false, [])
    case TReadA => if a.Answered? then (b, true, [Start(TReadB)]) else (b, false, [])
    case TReadB => if c.Answered? then (b, true, [Start(TMedia)]) else (b, false, [])
    case TMedia => if ok then (b, true, [Start(TActivate)]) else (b, false, [])
    case TActivate => (b.(state := Active, started := true), false, [])
  }

  function NewStep(f: Frame, w: World): (Leg, Leg, Bridge, Stack)
    requires f.NewBridge?
  {
    match f.npc
    case NWatchA => (w.legA.(watched := true), w.legB, w.bridge, [NewBridge(NWatchB)])
    case NWatchB => (w.legA, w.legB.(watched := true), w.bridge.(published := true), [])
  }

  predicate NeedsBridgeLock(f: Frame) {
    match f
    case Hangup(_, _, _, _) => false
    case Handle(_, pc) => pc.KEnter?
    case Stop(_, pc, _, _) => pc.SEnter? || pc.SFinish?
    case Start(pc) => pc.TLock?
    case NewBridge(_) => false
  }

  predicate CanStep(w: World, t: nat) {
    Running(w, t) && (NeedsBridgeLock(Top(w, t)) ==> w.lock.None?)
  }

  function Step(w: World, t: nat, ok: bool): World
    requires CanStep(w, t)
  {
    var f := Top(w, t);
    var here := Here(w, t);
    match f
    case Hangup(side, _, _, _) =>
      var (leg, rest) := HangupStep(f, LegOf(w, side), here);
      Resume(WithLeg(w, side, leg), t, rest)
    case Handle(_, _) =>
      var (b, rest) := HandleStep(f, w.bridge, here);
      Resume(w.(bridge := b), t, rest)
    case Stop(_, _, _, _) =>
      var (b, rest) := StopStep(f, w.bridge, w.legA.state, w.legB.state, here);
      Resume(w.(bridge := b), t, rest)
    case Start(_) =>
      var (b, held, rest) := StartStep(f, w.bridge, w.legA.state, w.legB.state, ok);
      Resume(w.(bridge := b, lock := if held then Some(t) else None), t, rest)
    case NewBridge(_) =>
      var (a, c, b, rest) := NewStep(f, w);
      Resume(w.(legA := a, legB := c, bridge := b), t, rest)
  }

  // ----- What the rest of the program may do -----

  /** `Spawn` is a call from outside, `Move` a signalling-driven change of a leg that is
      not yet answered (`TransitionTo` or `Answer`), `Run` a step of one thread. */
  datatype Event = Spawn(call: Frame) | Move(side: Side, to: LegState) | Run(thread: nat, rpcOk: bool)

  predicate Spawnable(w: World, f: Frame) {
    match f
    case Hangup(s, c, _, _) => f == CallHangup(s, c)
    case Handle(_, _) => false
    case Stop(h, _, _, _) => f == CallStop(h) && w.bridge.published
    case Start(pc) => pc.TLock? && w.bridge.published
    case NewBridge(pc) => pc.NWatchA? && !w.bridge.made
  }

  predicate Enabled(w: World, e: Event) {
    match e
    case Spawn(f) => Spawnable(w, f)
    case Move(s, to) =>
      !LegOf(w, s).state.Answered? && !IsTerminal(LegOf(w, s).state) && !to.Destroyed?
    case Run(t, _) => CanStep(w, t)
  }

  function Apply(w: World, e: Event): World
    requires Enabled(w, e)
  {
    match e
    case Spawn(f) =>
      var w' := w.(threads := w.threads + [[f]]);
      if f.NewBridge? then w'.(bridge := w.bridge.(made := true)) else w'
    case Move(s, to) => WithLeg(w, s, LegOf(w, s).(state := to))
    case Run(t, ok) => Step(w, t, ok)
  }

  /** A schedule that can happen from `w`, and where it leads. */
  predicate Feasible(w: World, es: seq<Event>)
    decreases |es|
  {
    es == [] || (Enabled(w, es[0]) && Feasible(Apply(w, es[0]), es[1..]))
  }

  function After(w: World, es: seq<Event>): World
    requires Feasible(w, es)
    decreases |es|
  {
    if es == [] then w else After(Apply(w, es[0]), es[1..])
  }

  /** Two legs in any state short of the end, and no bridge yet. */
  predicate Initial(w: World) {
    && (forall s: Side ::
          var l := LegOf(w, s);
          !l.state.Destroyed? && l.teardowns == 0 && !l.doneClosed && l.winner.None? && !l.watched)
    && w.bridge == Bridge(Fresh, NoOne, NoCause, w.bridge.autoHangup, false, false, false, None)
    && w.lock.None?
    && w.threads == []
  }

  predicate Quiescent(w: World) {
    forall t :: 0 <= t < |w.threads| ==> w.threads[t] == []
  }
}
