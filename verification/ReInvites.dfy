/** Any number of callers re-inviting one dialog at once, with BYEs and state changes in between. */
module ReInvites {
  import opened Dialogs

  /** Where a caller stands: the atomic operations of a re-INVITE.  `k` is the place of the caller's
      number among all numbers handed out. */
  datatype Pc =
    | ChecksTerminated
    | ChecksConfirmed
    | Claims
    | Targets
    | Numbers
    | Sends(k: nat)
    | Awaits(k: nat)
    | Frees(open: bool, result: Result)
    | Closes(result: Result)
    | Returned(result: Result)

  /** Between taking the flag and giving it back. */
  predicate Owns(pc: Pc) {
    pc.Targets? || pc.Numbers? || pc.Sends? || pc.Awaits? || pc.Frees?
  }

  /** Between starting a client transaction and terminating it. */
  predicate HasTransaction(pc: Pc) {
    pc.Awaits? || (pc.Frees? && pc.open) || pc.Closes?
  }

  /** `issued` are the CSeqs handed out, in order; `sent` the places in it of the re-INVITEs that
      went out, in the order they went out. */
  datatype System = System(state: DialogState, hasInvite: bool, flag: bool, cseq: nat,
                           callers: seq<Pc>, issued: seq<nat>, sent: seq<nat>)

  datatype Event =
    | Call
    | Step(i: nat, ok: bool, arrival: Arrival)
    | Bye(target: bool)
    | Transition(to: DialogState)

  predicate Enabled(c: System, e: Event) {
    match e
    case Call => true
    case Step(i, _, _) => i < |c.callers| && !c.callers[i].Returned?
    case Bye(_) => true
    case Transition(to) => CanTransition(c.state, to)
  }

  function Issue(c: System): System {
    var n := NextCSeq(c.cseq);
    c.(cseq := n, issued := c.issued + [n])
  }

  function At(c: System, i: nat, pc: Pc): System
    requires i < |c.callers|
  {
    c.(callers := c.callers[i := pc])
  }

  function Advance(c: System, i: nat, ok: bool, arrival: Arrival): System
    requires i < |c.callers|
  {
    match c.callers[i]
    case ChecksTerminated => At(c, i, if c.state.Terminated? then Returned(DialogTerminated) else ChecksConfirmed)
    case ChecksConfirmed => At(c, i, if c.state.Confirmed? then Claims else Returned(NotConfirmed))
    case Claims =>
      if !c.hasInvite then At(c, i, Returned(NoInvite))
      else if c.flag then At(c, i, Returned(InProgress))
      else At(c, i, Targets).(flag := true)
    case Targets => At(c, i, if ok then Numbers else Frees(false, BadTarget))
    case Numbers => At(Issue(c), i, Sends(|c.issued|))
    case Sends(k) => if ok then At(c, i, Awaits(k)).(sent := c.sent + [k]) else At(c, i, Frees(false, SendFailed))
    case Awaits(_) => if Provisional(arrival) then c else At(c, i, Frees(true, Conclusion(arrival)))
    case Frees(open, result) => At(c, i, if open then Closes(result) else Returned(result)).(flag := false)
    case Closes(result) => At(c, i, Returned(result))
    case Returned(_) => c
  }

  function Apply(c: System, e: Event): System
    requires Enabled(c, e)
  {
    match e
    case Call => c.(callers := c.callers + [ChecksTerminated])
    case Step(i, ok, arrival) => Advance(c, i, ok, arrival)
    case Bye(target) => if c.hasInvite && target then Issue(c) else c
    case Transition(to) => c.(state := to)
  }

  predicate Feasible(c: System, es: seq<Event>)
    decreases |es|
  {
    es == [] || (Enabled(c, es[0]) && Feasible(Apply(c, es[0]), es[1..]))
  }

  function After(c: System, es: seq<Event>): System
    requires Feasible(c, es)
    decreases |es|
  {
    if es == [] then c else After(Apply(c, es[0]), es[1..])
  }

  predicate Fresh(c: System, initial: nat) {
    initial == c.cseq < MODULUS && !c.flag && c.callers == [] && c.issued == [] && c.sent == []
  }

  // ----- The invariant -----

  predicate IsOwner(c: System, i: int) {
    0 <= i < |c.callers| && Owns(c.callers[i])
  }

  ghost predicate OneOwner(c: System) {
    && (c.flag <==> exists i :: IsOwner(c, i))
    && forall i, j :: IsOwner(c, i) && IsOwner(c, j) ==> i == j
  }

  /** Every number is the previous one plus one, modulo the width of the counter. */
  predicate Counted(c: System, initial: nat) {
    && c.cseq == (initial + |c.issued|) % MODULUS
    && forall k :: 0 <= k < |c.issued| ==> c.issued[k] == (initial + k + 1) % MODULUS
  }

  predicate Below(places: seq<nat>, k: nat) {
    forall a :: 0 <= a < |places| ==> places[a] < k
  }

  predicate Ascending(places: seq<nat>) {
    forall a, b :: 0 <= a < b < |places| ==> places[a] < places[b]
  }

  /** Re-INVITEs go out in the order of their numbers, and the one under way comes last. */
  predicate InOrder(c: System) {
    && Ascending(c.sent) && Below(c.sent, |c.issued|)
    && forall i :: 0 <= i < |c.callers| && c.callers[i].Sends? ==>
         c.callers[i].k < |c.issued| && Below(c.sent, c.callers[i].k)
  }

  ghost predicate Inv(c: System, initial: nat) {
    OneOwner(c) && Counted(c, initial) && InOrder(c)
  }

  lemma StepMovesOne(c: System, i: nat, ok: bool, arrival: Arrival)
    requires i < |c.callers|
    ensures var c' := Advance(c, i, ok, arrival);
            && |c'.callers| == |c.callers|
            && c'.callers == c.callers[i := c'.callers[i]]
  {
  }

  /** A step takes the flag, gives it back, or leaves both it and its owner alone. */
  lemma StepMovesFlag(c: System, i: nat, ok: bool, arrival: Arrival)
    requires i < |c.callers|
    ensures var c' := Advance(c, i, ok, arrival);
            || (!IsOwner(c, i) && IsOwner(c', i) && !c.flag && c'.flag)
            || (IsOwner(c, i) && !IsOwner(c', i) && !c'.flag)
            || (IsOwner(c', i) == IsOwner(c, i) && c'.flag == c.flag)
  {
  }

  lemma StepKeepsOneOwner(c: System, i: nat, ok: bool, arrival: Arrival)
    requires OneOwner(c) && i < |c.callers|
    ensures OneOwner(Advance(c, i, ok, arrival))
  {
    var c' := Advance(c, i, ok, arrival);
    StepMovesOne(c, i, ok, arrival);
    StepMovesFlag(c, i, ok, arrival);
    assert forall j :: j != i ==> IsOwner(c', j) == IsOwner(c, j);
    if c'.flag && c.flag {
      var o :| IsOwner(c, o);
      assert IsOwner(c', o);
    }
  }

  lemma SendKeepsOrder(c: System, i: nat)
    requires OneOwner(c) && InOrder(c) && i < |c.callers| && c.callers[i].Sends?
    ensures InOrder(At(c, i, Awaits(c.callers[i].k)).(sent := c.sent + [c.callers[i].k]))
  {
    forall j | 0 <= j < |c.callers| && j != i ensures !c.callers[j].Sends? {
      assert IsOwner(c, i);
      assert !IsOwner(c, j);
    }
  }

  lemma NumberKeepsOrder(c: System, i: nat)
    requires InOrder(c) && i < |c.callers|
    ensures InOrder(At(Issue(c), i, Sends(|c.issued|)))
  {
  }

  lemma StepKeepsOrder(c: System, i: nat, ok: bool, arrival: Arrival)
    requires OneOwner(c) && InOrder(c) && i < |c.callers|
    ensures InOrder(Advance(c, i, ok, arrival))
  {
    match c.callers[i] {
      case Sends(_) =>
        if ok {
          SendKeepsOrder(c, i);
        }
      case Numbers => NumberKeepsOrder(c, i);
      case _ =>
    }
  }

  lemma StepKeepsCount(c: System, initial: nat, e: Event)
    requires Counted(c, initial) && Enabled(c, e)
    ensures Counted(Apply(c, e), initial)
  {
    if Apply(c, e).issued != c.issued {
      NextNumber(initial + |c.issued|);
    }
  }

  lemma NextNumber(n: nat)
    ensures NextCSeq(n % MODULUS) == (n + 1) % MODULUS
  {
  }

  lemma EventKeepsInv(c: System, initial: nat, e: Event)
    requires Inv(c, initial) && Enabled(c, e)
    ensures Inv(Apply(c, e), initial)
  {
    StepKeepsCount(c, initial, e);
    if e.Step? {
      StepKeepsOneOwner(c, e.i, e.ok, e.arrival);
      StepKeepsOrder(c, e.i, e.ok, e.arrival);
    } else {
      assert forall i :: IsOwner(Apply(c, e), i) == IsOwner(c, i);
    }
  }

  lemma {:induction false} RunKeepsInv(c: System, initial: nat, es: seq<Event>)
    requires Inv(c, initial) && Feasible(c, es)
    ensures Inv(After(c, es), initial)
    decreases |es|
  {
    if es != [] {
      EventKeepsInv(c, initial, es[0]);
      RunKeepsInv(Apply(c, es[0]), initial, es[1..]);
    }
  }

  // ----- The guard -----

  /** In every run the flag is up exactly while one caller owns it, and never two do: so at most one
      caller at a time awaits a response, and once every caller has returned the flag is down. */
  lemma FlagHasOneOwner(c: System, initial: nat, es: seq<Event>)
    requires Fresh(c, initial) && Feasible(c, es)
    ensures var d := After(c, es);
            && (d.flag <==> exists i :: IsOwner(d, i))
            && (forall i, j :: IsOwner(d, i) && IsOwner(d, j) ==> i == j)
            && ((forall pc :: pc in d.callers ==> pc.Returned?) ==> !d.flag)
  {
    RunKeepsInv(c, initial, es);
    if After(c, es).flag {
      var i :| IsOwner(After(c, es), i);
      assert After(c, es).callers[i] in After(c, es).callers;
    }
  }

  /** Two client transactions can be open at once only if one of their callers has already given
      the flag back and is about to terminate its own. */
  lemma OverlapNeedsACloser(c: System, initial: nat, es: seq<Event>, i: nat, j: nat)
    requires Fresh(c, initial) && Feasible(c, es)
    requires i < j < |After(c, es).callers|
    requires HasTransaction(After(c, es).callers[i]) && HasTransaction(After(c, es).callers[j])
    ensures After(c, es).callers[i].Closes? || After(c, es).callers[j].Closes?
  {
    FlagHasOneOwner(c, initial, es);
    assert !IsOwner(After(c, es), i) || !IsOwner(After(c, es), j);
  }

  /** At the moment a re-INVITE goes out, another transaction is open if and only if its caller has given
      the flag back and not yet terminated it. */
  lemma SendOverlapsIff(c: System, initial: nat, es: seq<Event>, i: nat)
    requires Fresh(c, initial) && Feasible(c, es) && i < |After(c, es).callers| && After(c, es).callers[i].Sends?
    ensures var d := Advance(After(c, es), i, true, Cancelled);
            && d.callers[i].Awaits?
            && ((exists j :: 0 <= j < |d.callers| && j != i && HasTransaction(d.callers[j]))
                <==> exists j :: 0 <= j < |d.callers| && j != i && d.callers[j].Closes?)
  {
    FlagHasOneOwner(c, initial, es);
    var d := Advance(After(c, es), i, true, Cancelled);
    assert IsOwner(After(c, es), i);
    forall j | 0 <= j < |d.callers| && j != i ensures HasTransaction(d.callers[j]) <==> d.callers[j].Closes? {
      assert !IsOwner(After(c, es), j);
    }
  }

  /** That does happen: a caller whose context ends gives the flag back before its transaction is
      terminated, and the next caller's re-INVITE goes out meanwhile. */
  lemma AbandonedTransactionOverlaps() returns (c: System, es: seq<Event>)
    ensures Fresh(c, 1) && Feasible(c, es)
    ensures var d := After(c, es);
            |d.callers| == 2 && d.callers[0] == Closes(Abandoned) && d.callers[1].Awaits?
  {
    c := System(Confirmed, true, false, 1, [], [], []);
    es := Then(c, [], Call);
    es := Then(c, es, Call);
    es := CallerCanSend(c, es, 0);
    es := Then(c, es, Step(0, true, Cancelled));
    es := Then(c, es, Step(0, true, Cancelled));
    es := CallerCanSend(c, es, 1);
  }

  lemma {:induction false} Then(c: System, es: seq<Event>, e: Event) returns (longer: seq<Event>)
    requires Feasible(c, es) && Enabled(After(c, es), e)
    ensures Feasible(c, longer) && After(c, longer) == Apply(After(c, es), e)
    decreases |es|
  {
    if es == [] {
      longer := [e];
      assert longer[1..] == [];
    } else {
      var rest := Then(Apply(c, es[0]), es[1..], e);
      longer := [es[0]] + rest;
      assert longer[1..] == rest;
    }
  }

  /** While the flag is down, a caller on a confirmed dialog can get its re-INVITE out. */
  lemma CallerCanSend(c: System, es: seq<Event>, i: nat) returns (longer: seq<Event>)
    requires Feasible(c, es) && i < |After(c, es).callers| && After(c, es).callers[i].ChecksTerminated?
    requires After(c, es).state.Confirmed? && After(c, es).hasInvite && !After(c, es).flag
    ensures Feasible(c, longer)
    ensures var d, d' := After(c, es), After(c, longer);
            && d'.callers == d.callers[i := Awaits(|d.issued|)]
            && d'.flag && d'.state == d.state && d'.hasInvite == d.hasInvite
  {
    var step := Step(i, true, Cancelled);
    longer := Then(c, es, step);
    longer := Then(c, longer, step);
    longer := Then(c, longer, step);
    longer := Then(c, longer, step);
    longer := Then(c, longer, step);
    longer := Then(c, longer, step);
  }

  function Previous(initial: nat, issued: seq<nat>, k: int): nat
    requires 0 <= k < |issued|
  {
    if k == 0 then initial else issued[k - 1]
  }

  predicate Rising(initial: nat, issued: seq<nat>) {
    forall k :: 0 <= k < |issued| ==> Previous(initial, issued, k) < issued[k]
  }

  /** The CSeqs of everything built on the dialog, BYEs and re-INVITEs alike, rise strictly from the
      initial one exactly as long as the counter has not wrapped around. */
  lemma CSeqsRiseIff(c: System, initial: nat, es: seq<Event>)
    requires Fresh(c, initial) && Feasible(c, es)
    ensures Rising(initial, After(c, es).issued) <==> initial + |After(c, es).issued| < MODULUS
  {
    RunKeepsInv(c, initial, es);
    var issued := After(c, es).issued;
    if initial + |issued| >= MODULUS {
      var k := MODULUS - 1 - initial;
      assert 0 <= k < |issued| && issued[k] == 0;
      assert !(Previous(initial, issued, k) < issued[k]);
    } else {
      assert forall k :: 0 <= k < |issued| ==> issued[k] == initial + k + 1;
    }
  }

  /** Re-INVITEs go out in the order of their numbers, whoever sends them. */
  lemma ReInvitesGoOutInOrder(c: System, initial: nat, es: seq<Event>)
    requires Fresh(c, initial) && Feasible(c, es) && initial + |After(c, es).issued| < MODULUS
    ensures var d := After(c, es);
            && (forall a :: 0 <= a < |d.sent| ==> d.sent[a] < |d.issued|)
            && (forall a, b :: 0 <= a < b < |d.sent| ==> d.issued[d.sent[a]] < d.issued[d.sent[b]])
  {
    RunKeepsInv(c, initial, es);
  }

  // ----- What a caller is told -----

  /** A caller that awaits a response goes on awaiting after a provisional one, and otherwise has its
      result: success exactly on a status from 200 to 299. */
  lemma AwaitIsExact(c: System, i: nat, ok: bool, a: Arrival)
    requires i < |c.callers| && c.callers[i].Awaits?
    ensures Advance(c, i, ok, a) == if a.Response? && 100 <= a.status < 200 then c
                                    else At(c, i, Frees(true, match a
                                                              case Response(s) => Final(200 <= s < 300, s)
                                                              case NoResponse => Unanswered
                                                              case Cancelled => Abandoned))
  {
  }

  /** Before that, a caller is refused in order: by a terminated dialog, an unconfirmed one, a missing
      INVITE, a flag that is up; and an unusable target or a failed send ends it with the flag to free. */
  lemma RefusalsAreExact(c: System, i: nat, ok: bool, a: Arrival)
    requires i < |c.callers|
    ensures var pc := Advance(c, i, ok, a).callers[i];
            match c.callers[i]
            case ChecksTerminated => pc == if c.state == Terminated then Returned(DialogTerminated) else ChecksConfirmed
            case ChecksConfirmed => pc == if c.state == Confirmed then Claims else Returned(NotConfirmed)
            case Claims =>
              pc == if !c.hasInvite then Returned(NoInvite) else if c.flag then Returned(InProgress) else Targets
            case Targets => pc == if ok then Numbers else Frees(false, BadTarget)
            case Sends(k) => pc == if ok then Awaits(k) else Frees(false, SendFailed)
            case _ => true
  {
  }

  /** Its last steps free the flag, terminate the transaction if there is one, and hand the result on. */
  lemma ResultIsHandedOn(c: System, i: nat, ok: bool, a: Arrival)
    requires i < |c.callers| && c.callers[i].Frees?
    ensures var r, c1 := c.callers[i].result, Advance(c, i, ok, a);
            && !c1.flag
            && (!c.callers[i].open ==> c1.callers[i] == Returned(r))
            && (c.callers[i].open ==> c1.callers[i] == Closes(r) && Advance(c1, i, ok, a).callers[i] == Returned(r))
  {
  }

  /** The dialog is never Confirmed during the run. */
  predicate NeverConfirmed(c: System, es: seq<Event>)
    requires Feasible(c, es)
    decreases |es|
  {
    c.state != Confirmed && (es == [] || NeverConfirmed(Apply(c, es[0]), es[1..]))
  }

  /** No caller is past the tests. */
  predicate NoneAdmitted(c: System) {
    c.sent == [] && !c.flag &&
    forall i :: 0 <= i < |c.callers| ==>
      c.callers[i].ChecksTerminated? || c.callers[i].ChecksConfirmed? || c.callers[i].Claims? || c.callers[i].Returned?
  }

  predicate NoneClaims(c: System) {
    forall i :: 0 <= i < |c.callers| ==> !c.callers[i].Claims?
  }

  /** On a dialog that is never Confirmed no re-INVITE goes out, and every caller that returns is refused. */
  lemma {:induction false} UnconfirmedSendsNothing(c: System, es: seq<Event>)
    requires Feasible(c, es) && NeverConfirmed(c, es) && NoneAdmitted(c) && NoneClaims(c)
    ensures NoneAdmitted(After(c, es)) && NoneClaims(After(c, es))
    decreases |es|
  {
    if es != [] {
      UnconfirmedSendsNothing(Apply(c, es[0]), es[1..]);
    }
  }

  /** Neither does one whose INVITE is missing. */
  lemma {:induction false} NoInviteSendsNothing(c: System, es: seq<Event>)
    requires Feasible(c, es) && !c.hasInvite && NoneAdmitted(c) && c.issued == []
    ensures NoneAdmitted(After(c, es)) && After(c, es).issued == []
    decreases |es|
  {
    if es != [] {
      NoInviteSendsNothing(Apply(c, es[0]), es[1..]);
    }
  }

  /** A BYE, like a re-INVITE, is given the next number; the state of the dialog moves as it is told. */
  lemma OtherEventsAreTheDialogs(c: System, e: Event)
    requires Enabled(c, e) && (e.Bye? || e.Transition?)
    ensures e.Transition? ==> Apply(c, e) == c.(state := e.to)
    ensures e.Bye? && c.hasInvite && e.target ==>
              && Apply(c, e).cseq == (c.cseq + 1) % 0x1_0000_0000
              && Apply(c, e) == c.(cseq := Apply(c, e).cseq, issued := c.issued + [Apply(c, e).cseq])
    ensures e.Bye? && !(c.hasInvite && e.target) ==> Apply(c, e) == c
  {
  }
}
