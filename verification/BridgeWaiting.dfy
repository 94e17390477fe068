/** Waiting for a bridge to terminate.

    `Stop` marks the bridge Terminated in one lock region and, in a later one, closes the
    waiters' channel and puts a new one in its place.  `WaitForTermination` tests the state
    in one region and picks up the channel in another. */
module BridgeWaiting {

  datatype Task =
    | Entering        // Stop, not begun
    | Finishing       // Stop, tearing down, has yet to mark the bridge Terminated
    | Signalling      // Stop, about to close and replace the waiters' channel
    | Stopped         // Stop, returned
    | Testing         // WaitForTermination, about to test the state
    | Taking          // WaitForTermination, about to pick up the channel
    | Asleep(ch: nat)
    | Returned

  /** `chan` numbers the waiters' channel; all earlier ones are closed. */
  datatype World = World(terminated: bool, chan: nat, tasks: seq<Task>)

  predicate CanRun(w: World, i: nat) {
    i < |w.tasks| && !w.tasks[i].Stopped? && !w.tasks[i].Returned?
    && (w.tasks[i].Asleep? ==> w.tasks[i].ch < w.chan)
  }

  function Run(w: World, i: nat): World
    requires CanRun(w, i)
  {
    match w.tasks[i]
    case Entering => w.(tasks := w.tasks[i := if w.terminated then Stopped else Finishing])
    case Finishing => w.(terminated := true, tasks := w.tasks[i := Signalling])
    case Signalling => w.(chan := w.chan + 1, tasks := w.tasks[i := Stopped])
    case Testing => w.(tasks := w.tasks[i := if w.terminated then Returned else Taking])
    case Taking => w.(tasks := w.tasks[i := Asleep(w.chan)])
    case Asleep(_) => w.(tasks := w.tasks[i := Returned])
  }

  datatype Event = CallStop | CallWait | Step(task: nat)

  predicate Enabled(w: World, e: Event) {
    e.Step? ==> CanRun(w, e.task)
  }

  function Apply(w: World, e: Event): World
    requires Enabled(w, e)
  {
    match e
    case CallStop => w.(tasks := w.tasks + [Entering])
    case CallWait => w.(tasks := w.tasks + [Testing])
    case Step(i) => Run(w, i)
  }

  predicate Feasible(w: World, es: seq<Event>)
    decreases |es|
  {
    es == [] || (Enabled(w, es[0]) && Feasible(Apply(w, es[0]), es[1..]))
  }

  function After(w: World, es: seq<Event>): World
    requires Feasible(w, es)
    decreases |es|
  {
    if es == [] then w else After(Apply(w, es[0]), es[1..])
  }

  /** An activation of `Stop` that will still replace the channel. */
  predicate WillSignal(w: World) {
    exists j :: 0 <= j < |w.tasks| && (w.tasks[j].Finishing? || w.tasks[j].Signalling?)
  }

  /** Task `i` is past the test and has picked up a channel that is closed or will be when
      the bridge has terminated, or has returned. */
  predicate Safe(w: World, i: nat) {
    && i < |w.tasks|
    && (w.tasks[i].Returned?
        || (w.tasks[i].Asleep? && w.tasks[i].ch <= w.chan
            && (w.tasks[i].ch < w.chan || !w.terminated || WillSignal(w))))
  }

  /** Task `i` sleeps on a channel that nobody will close. */
  predicate Lost(w: World, i: nat) {
    i < |w.tasks| && w.tasks[i] == Asleep(w.chan) && w.terminated && !WillSignal(w)
  }

  lemma EventKeepsSafe(w: World, e: Event, i: nat)
    requires Safe(w, i) && Enabled(w, e)
    ensures Safe(Apply(w, e), i)
  {
    var w' := Apply(w, e);
    if WillSignal(w) {
      var j :| 0 <= j < |w.tasks| && (w.tasks[j].Finishing? || w.tasks[j].Signalling?);
      assert w'.chan > w.chan || w'.tasks[j].Finishing? || w'.tasks[j].Signalling?;
    }
    if e.Step? && w.tasks[e.task].Finishing? {
      assert w'.tasks[e.task].Signalling?;
    }
  }

  lemma EventKeepsLost(w: World, e: Event, i: nat)
    requires Lost(w, i) && Enabled(w, e)
    ensures Lost(Apply(w, e), i)
  {
    var w' := Apply(w, e);
    forall j | 0 <= j < |w'.tasks| ensures !w'.tasks[j].Finishing? && !w'.tasks[j].Signalling? {
      if j < |w.tasks| {
        assert !w.tasks[j].Finishing? && !w.tasks[j].Signalling?;
      }
    }
  }

  lemma {:induction false} RunKeepsFate(w: World, es: seq<Event>, i: nat)
    requires Feasible(w, es) && (Safe(w, i) || Lost(w, i))
    ensures Safe(w, i) ==> Safe(After(w, es), i)
    ensures Lost(w, i) ==> Lost(After(w, es), i)
    decreases |es|
  {
    if es != [] {
      if Safe(w, i) {
        EventKeepsSafe(w, es[0], i);
      } else {
        EventKeepsLost(w, es[0], i);
      }
      RunKeepsFate(Apply(w, es[0]), es[1..], i);
    }
  }

  /** A caller that has passed the test and picks up the channel in state `w` is, once the
      bridge has terminated and every `Stop` has returned, still asleep for good if and only if
      by the time it picked up the channel the bridge was Terminated and every `Stop` that
      found it alive had already replaced the channel. */
  lemma WaiterIsLostIffLate(w: World, i: nat, es: seq<Event>)
    requires i < |w.tasks| && w.tasks[i].Taking?
    requires Feasible(Run(w, i), es)
    requires After(Run(w, i), es).terminated && !WillSignal(After(Run(w, i), es))
    ensures Lost(After(Run(w, i), es), i) <==> w.terminated && !WillSignal(w)
  {
    var w1 := Run(w, i);
    assert w1.tasks[i] == Asleep(w.chan);
    assert WillSignal(w) <==> WillSignal(w1) by {
      if WillSignal(w) {
        var j :| 0 <= j < |w.tasks| && (w.tasks[j].Finishing? || w.tasks[j].Signalling?);
        assert w1.tasks[j] == w.tasks[j];
      }
      if WillSignal(w1) {
        var j :| 0 <= j < |w1.tasks| && (w1.tasks[j].Finishing? || w1.tasks[j].Signalling?);
        assert w1.tasks[j] == w.tasks[j];
      }
    }
    RunKeepsFate(w1, es, i);
  }

  lemma Prepend(w: World, e: Event, es: seq<Event>)
    requires Enabled(w, e) && Feasible(Apply(w, e), es)
    ensures Feasible(w, [e] + es) && After(w, [e] + es) == After(Apply(w, e), es)
  {
    assert ([e] + es)[1..] == es;
  }

  /** The late caller exists: it tests the bridge, `Stop` runs to its end, and then it picks
      up a channel that is never closed. */
  lemma LateWaiterIsLost() returns (es: seq<Event>)
    ensures Feasible(World(false, 0, []), es) && Lost(After(World(false, 0, []), es), 0)
  {
    es := [];
    assert [Taking, Stopped][0 := Asleep(1)] == [Asleep(1), Stopped];
    Prepend(World(true, 1, [Taking, Stopped]), Step(0), es);
    es := [Step(0)] + es;
    assert [Taking, Signalling][1 := Stopped] == [Taking, Stopped];
    Prepend(World(true, 0, [Taking, Signalling]), Step(1), es);
    es := [Step(1)] + es;
    assert [Taking, Finishing][1 := Signalling] == [Taking, Signalling];
    Prepend(World(false, 0, [Taking, Finishing]), Step(1), es);
    es := [Step(1)] + es;
    assert [Taking, Entering][1 := Finishing] == [Taking, Finishing];
    Prepend(World(false, 0, [Taking, Entering]), Step(1), es);
    es := [Step(1)] + es;
    assert [Taking] + [Entering] == [Taking, Entering];
    Prepend(World(false, 0, [Taking]), CallStop, es);
    es := [CallStop] + es;
    assert [Testing][0 := Taking] == [Taking];
    Prepend(World(false, 0, [Testing]), Step(0), es);
    es := [Step(0)] + es;
    assert [] + [Testing] == [Testing];
    Prepend(World(false, 0, []), CallWait, es);
    es := [CallWait] + es;
  }

  // ----- The callers that are not lost -----

  /** A caller returns at once exactly if it finds the bridge Terminated. */
  lemma TestIsExact(w: World, i: nat)
    requires i < |w.tasks| && w.tasks[i].Testing?
    ensures CanRun(w, i) && Run(w, i) == w.(tasks := w.tasks[i := if w.terminated then Returned else Taking])
  {
  }

  /** A caller asleep when a `Stop` begins on a live bridge is woken once that `Stop` has run. */
  lemma StopWakesSleeper(w: World, k: nat, i: nat)
    requires !w.terminated && k < |w.tasks| && w.tasks[k].Entering? && i < |w.tasks| && w.tasks[i] == Asleep(w.chan)
    ensures CanRun(w, k) && CanRun(Run(w, k), k) && CanRun(Run(Run(w, k), k), k)
    ensures var v := Run(Run(Run(w, k), k), k);
            && v.terminated && v.tasks[k].Stopped? && CanRun(v, i) && Run(v, i).tasks[i].Returned?
  {
    var v := Run(Run(Run(w, k), k), k);
    assert v.tasks[i] == Asleep(w.chan) && v.chan == w.chan + 1;
  }

  /** A caller sleeps until its channel is replaced, and not longer. */
  lemma SleepsUntilReplaced(w: World, i: nat)
    requires i < |w.tasks| && w.tasks[i].Asleep?
    ensures CanRun(w, i) <==> w.tasks[i].ch < w.chan
  {
  }
}
