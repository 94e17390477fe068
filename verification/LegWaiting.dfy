/** Waiting for a leg to reach a state.

    `TransitionTo` changes the state and swaps the broadcast channel in one lock region,
    and closes the old channel in a later one; `Hangup` changes the state without touching
    the channel and later closes `done`; `Answer` changes the state and signals nobody.
    `WaitForState` reads state and channel together and then sleeps on the channel, on
    `done` and on its context. */
module LegWaiting {
  import opened CallStates

  datatype Direction = Inbound | Outbound

  datatype Verdict = Reached | LegTerminated | Canceled

  datatype Task =
    | Transition(to: LegState)                      // TransitionTo, not begun
    | Closing(ch: nat)                              // TransitionTo, about to close the channel it swapped out
    | Closed(ch: nat)                               // TransitionTo, returned
    | HangingUp                                     // Hangup, not begun
    | ClosingDone                                   // Hangup, about to close `done`
    | HungUp                                        // Hangup, returned
    | Answering                                     // Answer, not begun
    | AnswerReturned(ok: bool)
    | Waiting(target: LegState)                     // WaitForState, about to read
    | Asleep(target: LegState, seen: LegState, ch: nat)
    | Woken(target: LegState, seen: LegState, verdict: Verdict)

  /** `chan` numbers the current broadcast channel.  `swapper` and `hangup` are history: which
      task swapped out each earlier channel, and which activation of `Hangup` found the leg alive first. */
  datatype World = World(dir: Direction, state: LegState, chan: nat, closed: set<nat>, doneClosed: bool,
                         tasks: seq<Task>, swapper: seq<nat>, hangup: Option<nat>)

  /** The two tests that `WaitForState` makes on the state it has read. */
  function Decide(current: LegState, target: LegState): Option<Verdict> {
    if Order(current) >= Order(target) then
      if IsTerminal(current) && !IsTerminal(target) then Some(LegTerminated) else Some(Reached)
    else if IsTerminal(current) then Some(LegTerminated)
    else None
  }

  datatype Wake = OnChannel | OnDone | OnContext

  predicate CanRun(w: World, i: nat, wake: Wake) {
    i < |w.tasks| &&
    match w.tasks[i]
    case Transition(_) => true
    case Closing(_) => true
    case Closed(_) => false
    case HangingUp => true
    case ClosingDone => true
    case HungUp => false
    case Answering => true
    case AnswerReturned(_) => false
    case Waiting(_) => true
    case Asleep(_, _, ch) =>
      (match wake
       case OnChannel => ch in w.closed
       case OnDone => w.doneClosed
       case OnContext => true)
    case Woken(_, _, _) => false
  }

  function Run(w: World, i: nat, wake: Wake): World
    requires CanRun(w, i, wake)
  {
    match w.tasks[i]
    case Transition(to) =>
      w.(state := to, chan := w.chan + 1, swapper := w.swapper + [i], tasks := w.tasks[i := Closing(w.chan)])
    case Closing(ch) => w.(closed := w.closed + {ch}, tasks := w.tasks[i := Closed(ch)])
    case HangingUp =>
      if IsTerminal(w.state) then w.(tasks := w.tasks[i := HungUp])
      else w.(state := Destroyed, hangup := if w.hangup.None? then Some(i) else w.hangup,
              tasks := w.tasks[i := ClosingDone])
    case ClosingDone => w.(doneClosed := true, tasks := w.tasks[i := HungUp])
    case Answering =>
      if w.dir.Inbound? && (w.state.Ringing? || w.state.EarlyMedia?)
      then w.(state := Answered, tasks := w.tasks[i := AnswerReturned(true)])
      else w.(tasks := w.tasks[i := AnswerReturned(false)])
    case Waiting(target) =>
      var v := Decide(w.state, target);
      w.(tasks := w.tasks[i := if v.Some? then Woken(target, w.state, v.value) else Asleep(target, w.state, w.chan)])
    case Asleep(target, seen, _) =>
      w.(tasks := w.tasks[i := match wake
                               case OnChannel => Waiting(target)
                               case OnDone => Woken(target, seen, LegTerminated)
                               case OnContext => Woken(target, seen, Canceled)])
  }

  datatype Event = Spawn(call: Task) | Step(task: nat, wake: Wake)

  predicate Enabled(w: World, e: Event) {
    match e
    case Spawn(t) => t.Transition? || t.HangingUp? || t.Answering? || t.Waiting?
    case Step(i, wake) => CanRun(w, i, wake)
  }

  function Apply(w: World, e: Event): World
    requires Enabled(w, e)
  {
    match e
    case Spawn(t) => w.(tasks := w.tasks + [t])
    case Step(i, wake) => Run(w, i, wake)
  }

  predicate Feasible(w: World, es: seq<Event>)
    decreases |es|
  {
    es == [] || (Enabled(w, es[0]) && Feasible(Apply(w, es[0]), es[1..]))
  }

  function After(w: World, es: seq<Event>): World
    requires Feasible(w, es)
    decreases |es|
  {
    if es == [] then w else After(Apply(w, es[0]), es[1..])
  }

  /** A leg as its constructor leaves it: Ringing or Answered if inbound, Created if outbound. */
  predicate Initial(w: World) {
    w == World(w.dir, w.state, 0, {}, false, [], [], None) && !IsTerminal(w.state)
  }

  // ----- The invariant -----

  /** Channel `c` has been closed, or the task that swapped it out has yet to close it. */
  predicate Signalled(w: World, c: nat) {
    c in w.closed || exists i :: 0 <= i < |w.tasks| && w.tasks[i] == Closing(c)
  }

  /** `done` is closed, or an activation of `Hangup` has yet to close it. */
  predicate DoneSignalled(w: World) {
    w.doneClosed || exists i :: 0 <= i < |w.tasks| && w.tasks[i].ClosingDone?
  }

  /** Each channel that was swapped out belongs to one task, which closes it exactly once. */
  ghost predicate ChannelsOK(w: World) {
    && |w.swapper| == w.chan
    && (forall c :: 0 <= c < w.chan ==>
          && w.swapper[c] < |w.tasks|
          && w.tasks[w.swapper[c]] == if c in w.closed then Closed(c) else Closing(c))
    && (forall i :: 0 <= i < |w.tasks| && w.tasks[i].Closing? ==>
          w.tasks[i].ch < w.chan && w.swapper[w.tasks[i].ch] == i)
    && (forall c :: c in w.closed ==> c < w.chan)
  }

  predicate DoneOK(w: World) {
    && (w.hangup.Some? ==> w.hangup.value < |w.tasks| && (w.doneClosed || w.tasks[w.hangup.value].ClosingDone?))
    && (w.doneClosed ==> w.hangup.Some?)
    && (forall i :: 0 <= i < |w.tasks| && w.tasks[i].ClosingDone? ==> w.hangup.Some?)
  }

  /** A sleeper on the current channel of a leg nobody has hung up has seen the current
      state, unless an `Answer` has gone by since it looked. */
  predicate SleeperOK(w: World, t: Task) {
    t.Asleep? ==>
      && t.ch <= w.chan
      && Decide(t.seen, t.target).None?
      && (t.ch == w.chan && w.hangup.None? && w.state != t.seen ==> w.dir.Inbound? && w.state.Answered?)
  }

  predicate WokenOK(t: Task) {
    t.Woken? && t.verdict.Reached? ==> Decide(t.seen, t.target) == Some(Reached)
  }

  ghost predicate Inv(w: World) {
    && ChannelsOK(w)
    && DoneOK(w)
    && (forall i :: 0 <= i < |w.tasks| ==> SleeperOK(w, w.tasks[i]) && WokenOK(w.tasks[i]))
  }

  lemma SwapKeepsChannels(w: World, i: nat, wake: Wake)
    requires ChannelsOK(w) && CanRun(w, i, wake) && w.tasks[i].Transition?
    ensures ChannelsOK(Run(w, i, wake))
  {
    var w' := Run(w, i, wake);
    assert forall c :: 0 <= c < w.chan ==> w'.swapper[c] == w.swapper[c] != i;
    assert w'.swapper[w.chan] == i && w'.tasks[i] == Closing(w.chan) && w.chan !in w'.closed;
  }

  lemma CloseKeepsChannels(w: World, i: nat, wake: Wake)
    requires ChannelsOK(w) && CanRun(w, i, wake) && w.tasks[i].Closing?
    ensures ChannelsOK(Run(w, i, wake))
  {
    var w' := Run(w, i, wake);
    var ch := w.tasks[i].ch;
    assert forall c :: 0 <= c < w.chan && c != ch ==> w'.swapper[c] != i && (c in w'.closed <==> c in w.closed);
  }

  lemma OtherKeepsChannels(w: World, w': World, i: nat)
    requires ChannelsOK(w) && i < |w.tasks| == |w'.tasks|
    requires w'.chan == w.chan && w'.closed == w.closed && w'.swapper == w.swapper
    requires forall j :: 0 <= j < |w.tasks| && j != i ==> w'.tasks[j] == w.tasks[j]
    requires !w.tasks[i].Closing? && !w.tasks[i].Closed? && !w'.tasks[i].Closing?
    ensures ChannelsOK(w')
  {
    assert forall c :: 0 <= c < w.chan ==> w'.swapper[c] != i;
  }

  lemma RunKeepsChannels(w: World, i: nat, wake: Wake)
    requires ChannelsOK(w) && CanRun(w, i, wake)
    ensures ChannelsOK(Run(w, i, wake))
  {
    if w.tasks[i].Transition? {
      SwapKeepsChannels(w, i, wake);
    } else if w.tasks[i].Closing? {
      CloseKeepsChannels(w, i, wake);
    } else {
      OtherKeepsChannels(w, Run(w, i, wake), i);
    }
  }

  lemma RunKeepsDone(w: World, i: nat, wake: Wake)
    requires DoneOK(w) && CanRun(w, i, wake)
    ensures DoneOK(Run(w, i, wake))
  {
  }

  lemma RunKeepsSleeper(w: World, i: nat, wake: Wake, j: nat)
    requires CanRun(w, i, wake) && j < |w.tasks|
    requires SleeperOK(w, w.tasks[j]) && WokenOK(w.tasks[j])
    ensures SleeperOK(Run(w, i, wake), Run(w, i, wake).tasks[j]) && WokenOK(Run(w, i, wake).tasks[j])
  {
  }

  lemma RunKeepsInv(w: World, i: nat, wake: Wake)
    requires Inv(w) && CanRun(w, i, wake)
    ensures Inv(Run(w, i, wake))
  {
    var w' := Run(w, i, wake);
    RunKeepsChannels(w, i, wake);
    RunKeepsDone(w, i, wake);
    forall j | 0 <= j < |w'.tasks| ensures SleeperOK(w', w'.tasks[j]) && WokenOK(w'.tasks[j]) {
      RunKeepsSleeper(w, i, wake, j);
    }
  }

  lemma {:induction false} ScheduleKeepsInv(w: World, es: seq<Event>)
    requires Inv(w) && Feasible(w, es)
    ensures Inv(After(w, es)) && After(w, es).dir == w.dir
    decreases |es|
  {
    if es != [] {
      if es[0].Step? {
        RunKeepsInv(w, es[0].task, es[0].wake);
      }
      ScheduleKeepsInv(Apply(w, es[0]), es[1..]);
    }
  }

  // ----- Results -----

  /** In every interleaving on an outbound leg, a sleeper whose leg has moved on is already
      woken, or the task that moved it has still to close the channel or `done`. */
  lemma NoLostWakeup(w: World, es: seq<Event>, i: nat)
    requires Initial(w) && w.dir.Outbound? && Feasible(w, es)
    requires var v := After(w, es);
             i < |v.tasks| && v.tasks[i].Asleep? && v.state != v.tasks[i].seen
    ensures var v := After(w, es);
            Signalled(v, v.tasks[i].ch) || DoneSignalled(v)
  {
    ScheduleKeepsInv(w, es);
    var v := After(w, es);
    var ch := v.tasks[i].ch;
    assert SleeperOK(v, v.tasks[i]);
    if ch < v.chan {
      var j := v.swapper[ch];
      assert ch in v.closed || v.tasks[j] == Closing(ch);
    }
  }

  /** No interleaving closes a channel twice: the task about to close one finds it open. */
  lemma NoDoubleClose(w: World, es: seq<Event>, i: nat, j: nat)
    requires Initial(w) && Feasible(w, es)
    requires var v := After(w, es); i < |v.tasks| && j < |v.tasks| && v.tasks[i].Closing?
    ensures var v := After(w, es);
            && v.tasks[i].ch !in v.closed
            && (v.tasks[j] == v.tasks[i] ==> i == j)
            && v.tasks[i].ch != v.chan
  {
    ScheduleKeepsInv(w, es);
  }

  /** `WaitForState(Answered)` reports success only after reading Answered itself. */
  lemma ReachedMeansAnswered(w: World, es: seq<Event>, i: nat)
    requires Initial(w) && Feasible(w, es)
    requires var v := After(w, es);
             i < |v.tasks| && v.tasks[i].Woken? && v.tasks[i].verdict.Reached?
    ensures var t := After(w, es).tasks[i];
            && (t.target.Answered? ==> t.seen.Answered?)
            && (!IsTerminal(t.target) ==> !IsTerminal(t.seen) && Order(t.seen) >= Order(t.target))
  {
    ScheduleKeepsInv(w, es);
    assert WokenOK(After(w, es).tasks[i]);
  }

  /** A sleeper that nothing will ever wake except its own context. */
  predicate Lost(w: World, i: nat)
    requires i < |w.tasks| && w.tasks[i].Asleep?
  {
    !Signalled(w, w.tasks[i].ch) && !DoneSignalled(w) && w.state != w.tasks[i].seen
  }

  /** The step that loses a sleeper is exactly a successful `Answer` of an inbound leg that
      nobody has hung up: whenever a task moves the leg to another state under a sleeper on the
      current channel, the sleeper is lost if and only if that task is an `Answer` and there is
      no hangup to fall back on. */
  lemma OnlyAnswerLosesSleepers(w: World, k: nat, i: nat, wake: Wake)
    requires Inv(w) && CanRun(w, k, wake)
    requires i < |w.tasks| && i != k && w.tasks[i].Asleep? && w.tasks[i].ch == w.chan
    requires w.state == w.tasks[i].seen && Run(w, k, wake).state != w.state
    ensures Lost(Run(w, k, wake), i) <==> w.tasks[k].Answering? && w.hangup.None?
  {
    var w' := Run(w, k, wake);
    RunKeepsInv(w, k, wake);
    if w.hangup.Some? {
      assert w'.doneClosed || w'.tasks[w'.hangup.value].ClosingDone?;
    }
    if w.tasks[k].Transition? {
      assert w'.tasks[k] == Closing(w.chan);
    }
    if w.tasks[k].HangingUp? {
      assert w'.tasks[k].ClosingDone?;
    }
  }

  lemma Prepend(w: World, e: Event, es: seq<Event>)
    requires Enabled(w, e) && Feasible(Apply(w, e), es)
    ensures Feasible(w, [e] + es) && After(w, [e] + es) == After(Apply(w, e), es)
  {
    assert ([e] + es)[1..] == es;
  }

  /** Such a run exists: a caller waits for an inbound leg to be answered, the leg is answered,
      and the caller sleeps on. */
  lemma AnsweredInboundLegLosesSleeper(w: World) returns (es: seq<Event>)
    requires Initial(w) && w.dir.Inbound? && w.state.Ringing?
    ensures Feasible(w, es) && |After(w, es).tasks| == 2 && After(w, es).tasks[0].Asleep? && Lost(After(w, es), 0)
  {
    es := [];
    var asleep := Asleep(Answered, Ringing, 0);
    assert [asleep, Answering][1 := AnswerReturned(true)] == [asleep, AnswerReturned(true)];
    Prepend(w.(tasks := [asleep, Answering]), Step(1, OnContext), es);
    es := [Step(1, OnContext)] + es;
    assert [asleep] + [Answering] == [asleep, Answering];
    Prepend(w.(tasks := [asleep]), Spawn(Answering), es);
    es := [Spawn(Answering)] + es;
    assert [Waiting(Answered)][0 := asleep] == [asleep];
    Prepend(w.(tasks := [Waiting(Answered)]), Step(0, OnContext), es);
    es := [Step(0, OnContext)] + es;
    assert w.tasks + [Waiting(Answered)] == [Waiting(Answered)];
    Prepend(w, Spawn(Waiting(Answered)), es);
    es := [Spawn(Waiting(Answered))] + es;
  }

  // ----- What a waiter is told -----

  /** The states in which a wait for `target` is over. */
  function From(target: LegState): set<LegState> {
    match target
    case Created => {Created, Ringing, EarlyMedia, Answered}
    case Ringing => {Ringing, EarlyMedia, Answered}
    case EarlyMedia => {EarlyMedia, Answered}
    case Answered => {Answered}
    case Failed => {Failed, Destroyed}
    case Destroyed => {Destroyed}
  }

  /** A caller that reads the leg returns success exactly if the leg is in such a state, an error exactly if
      the leg is over and is not, and otherwise sleeps on the present channel. */
  lemma VerdictIsExact(w: World, i: nat, wake: Wake)
    requires i < |w.tasks| && w.tasks[i].Waiting?
    ensures CanRun(w, i, wake)
    ensures var target := w.tasks[i].target;
            Run(w, i, wake) == w.(tasks := w.tasks[i :=
              if w.state in From(target) then Woken(target, w.state, Reached)
              else if w.state == Failed || w.state == Destroyed then Woken(target, w.state, LegTerminated)
              else Asleep(target, w.state, w.chan)])
  {
  }

  lemma FourSteps(w: World, a: Event, b: Event, c: Event, d: Event)
    requires Enabled(w, a) && Enabled(Apply(w, a), b) && Enabled(Apply(Apply(w, a), b), c)
    requires Enabled(Apply(Apply(Apply(w, a), b), c), d)
    ensures Feasible(w, [a, b, c, d])
    ensures After(w, [a, b, c, d]) == Apply(Apply(Apply(Apply(w, a), b), c), d)
  {
    var w1 := Apply(w, a);
    var w2 := Apply(w1, b);
    var w3 := Apply(w2, c);
    var none: seq<Event> := [];
    Prepend(w3, d, none);
    Prepend(w2, c, [d] + none);
    Prepend(w1, b, [c] + ([d] + none));
    Prepend(w, a, [b] + ([c] + ([d] + none)));
    assert [a] + ([b] + ([c] + ([d] + none))) == [a, b, c, d];
  }

  /** A caller asleep on the present channel is woken by `TransitionTo`, reads the new state, and is told. */
  lemma TransitionWakesSleeper(w: World, k: nat, i: nat)
    requires k < |w.tasks| && w.tasks[k].Transition? && i < |w.tasks| && w.tasks[i].Asleep? && w.tasks[i].ch == w.chan
    ensures var es := [Step(k, OnContext), Step(k, OnContext), Step(i, OnChannel), Step(i, OnContext)];
            var to, target := w.tasks[k].to, w.tasks[i].target;
            && Feasible(w, es) && After(w, es).state == to && i < |After(w, es).tasks|
            && (to in From(target) ==> After(w, es).tasks[i] == Woken(target, to, Reached))
            && (to !in From(target) && (to == Failed || to == Destroyed) ==>
                  After(w, es).tasks[i] == Woken(target, to, LegTerminated))
            && (to !in From(target) && to != Failed && to != Destroyed ==>
                  After(w, es).tasks[i] == Asleep(target, to, w.chan + 1))
  {
    var a, b, c, d := Step(k, OnContext), Step(k, OnContext), Step(i, OnChannel), Step(i, OnContext);
    var w1 := Apply(w, a);
    var w2 := Apply(w1, b);
    var w3 := Apply(w2, c);
    assert w3.tasks[i] == Waiting(w.tasks[i].target) && w3.state == w.tasks[k].to;
    VerdictIsExact(w3, i, OnContext);
    FourSteps(w, a, b, c, d);
  }

  /** `Hangup` destroys a leg that is not over and then closes `done`, which tells every sleeper. */
  lemma HangupWakesSleeper(w: World, k: nat, i: nat)
    requires k < |w.tasks| && w.tasks[k].HangingUp? && w.state != Failed && w.state != Destroyed
    requires i < |w.tasks| && w.tasks[i].Asleep?
    ensures var w1 := Run(w, k, OnContext);
            && w1.state == Destroyed && CanRun(w1, k, OnContext)
            && CanRun(Run(w1, k, OnContext), i, OnDone)
            && Run(Run(w1, k, OnContext), i, OnDone).tasks[i]
               == Woken(w.tasks[i].target, w.tasks[i].seen, LegTerminated)
  {
  }

  /** `Answer` answers an inbound leg that rings or plays early media, and no other. */
  lemma AnswerIsExact(w: World, k: nat, wake: Wake)
    requires k < |w.tasks| && w.tasks[k].Answering?
    ensures var ok := w.dir == Inbound && (w.state == Ringing || w.state == EarlyMedia);
            Run(w, k, wake) == w.(state := if ok then Answered else w.state, tasks := w.tasks[k := AnswerReturned(ok)])
  {
  }
}
