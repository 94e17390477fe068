/** A dialog: its re-INVITE flag, its CSeq counter, and one caller's re-INVITE from start to end. */
module Dialogs {
  import opened CallStates

  /** One more than the largest 32-bit CSeq. */
  const MODULUS: nat := 0x1_0000_0000

  datatype DialogState = Initial | Early | WaitingAck | Confirmed | Terminating | Terminated

  predicate CanTransition(from: DialogState, to: DialogState) {
    match from
    case Initial => to.Early? || to.Terminated?
    case Early => to.WaitingAck? || to.Terminated?
    case WaitingAck => to.Confirmed? || to.Terminated?
    case Confirmed => to.Terminating? || to.Terminated?
    case Terminating => to.Terminated?
    case Terminated => false
  }

  function NextCSeq(cseq: nat): nat {
    (cseq + 1) % MODULUS
  }

  /** What wakes a caller that awaits a response. */
  datatype Arrival = Response(status: int) | NoResponse | Cancelled

  predicate Provisional(a: Arrival) {
    a.Response? && 100 <= a.status < 200
  }

  datatype Result =
    | DialogTerminated | NotConfirmed | NoInvite | InProgress | BadTarget | SendFailed   // no transaction
    | Abandoned | Unanswered                                                           // no final response
    | Final(success: bool, status: int)

  function Conclusion(a: Arrival): Result
    requires !Provisional(a)
  {
    match a
    case Response(status) => Final(200 <= status < 300, status)
    case NoResponse => Unanswered
    case Cancelled => Abandoned
  }

  /** The first arrival that is not provisional; a caller left without one is cancelled. */
  function Decisive(arrivals: seq<Arrival>): (a: Arrival)
    ensures !Provisional(a)
  {
    if arrivals == [] then Cancelled
    else if Provisional(arrivals[0]) then Decisive(arrivals[1..])
    else arrivals[0]
  }

  /** Arrival `i` is the first that is not a provisional response. */
  predicate IsFirstFinal(arrivals: seq<Arrival>, i: nat) {
    && i < |arrivals|
    && (forall k :: 0 <= k < i ==> arrivals[k].Response? && 100 <= arrivals[k].status < 200)
    && !(arrivals[i].Response? && 100 <= arrivals[i].status < 200)
  }

  lemma {:induction false} DecisiveIsFirstFinal(arrivals: seq<Arrival>)
    ensures forall i: nat :: IsFirstFinal(arrivals, i) ==> Decisive(arrivals) == arrivals[i]
    ensures (forall i: nat :: !IsFirstFinal(arrivals, i)) ==> Decisive(arrivals) == Cancelled
    ensures Decisive(arrivals) != Cancelled ==> exists i: nat :: IsFirstFinal(arrivals, i)
  {
    if arrivals != [] {
      if Provisional(arrivals[0]) {
        DecisiveIsFirstFinal(arrivals[1..]);
        forall i: nat ensures IsFirstFinal(arrivals[1..], i) <==> IsFirstFinal(arrivals, i + 1) {
          if i < |arrivals[1..]| {
            assert forall k :: 0 <= k < i ==> arrivals[1..][k] == arrivals[k + 1];
            assert forall k :: 1 <= k < i + 1 ==> arrivals[k] == arrivals[1..][k - 1];
          }
        }
        forall i: nat | IsFirstFinal(arrivals, i) ensures Decisive(arrivals) == arrivals[i] {
          assert i > 0 && IsFirstFinal(arrivals[1..], i - 1);
        }
      } else {
        assert IsFirstFinal(arrivals, 0);
      }
    }
  }

  class Dialog {
    var state: DialogState
    var localCSeq: nat
    var reInviteInProgress: bool
    const hasInvite: bool

    ghost predicate Valid()
      reads this
    {
      localCSeq < MODULUS
    }

    constructor (initialCSeq: nat, hasInvite: bool, state: DialogState)
      requires initialCSeq < MODULUS
      ensures Valid() && localCSeq == initialCSeq && !reInviteInProgress
      ensures this.hasInvite == hasInvite && this.state == state
    {
      this.state := state;
      localCSeq := initialCSeq;
      reInviteInProgress := false;
      this.hasInvite := hasInvite;
    }

    method TransitionTo(s: DialogState) returns (ok: bool)
      modifies this`state
      ensures ok == CanTransition(old(state), s)
      ensures ok <==> || (s == Terminated && old(state) != Terminated)
                      || (old(state), s) in {(Initial, Early), (Early, WaitingAck), (WaitingAck, Confirmed),
                                             (Confirmed, Terminating)}
      ensures state == if ok then s else old(state)
    {
      ok := CanTransition(state, s);
      if ok {
        state := s;
      }
    }

    /** `target` tells whether the request URI can be parsed. */
    method BuildBYE(target: bool) returns (cseq: Option<nat>)
      requires Valid()
      modifies this`localCSeq
      ensures Valid()
      ensures cseq.Some? <==> hasInvite && target
      ensures if cseq.Some? then cseq.value == localCSeq == NextCSeq(old(localCSeq)) else localCSeq == old(localCSeq)
    {
      if !hasInvite || !target {
        return None;
      }
      localCSeq := (localCSeq + 1) % MODULUS;
      cseq := Some(localCSeq);
    }

    /** Takes the flag exactly when it succeeds; if the flag was taken it changes nothing at all. */
    method BuildReINVITE(target: bool) returns (cseq: Option<nat>, why: Result)
      requires Valid()
      modifies this`localCSeq, this`reInviteInProgress
      ensures Valid()
      ensures cseq.Some? <==> hasInvite && !old(reInviteInProgress) && target
      ensures if cseq.Some? then cseq.value == localCSeq == NextCSeq(old(localCSeq)) && reInviteInProgress
              else localCSeq == old(localCSeq) && reInviteInProgress == old(reInviteInProgress)
      ensures cseq.None? ==> why == if !hasInvite then NoInvite else if old(reInviteInProgress) then InProgress
               else BadTarget
    {
      cseq, why := None, NoInvite;
      if !hasInvite {
        return;
      }
      if reInviteInProgress {
        why := InProgress;
        return;
      }
      reInviteInProgress := true;
      if !target {
        reInviteInProgress := false;
        why := BadTarget;
        return;
      }
      localCSeq := (localCSeq + 1) % MODULUS;
      cseq := Some(localCSeq);
    }

    method CompleteReINVITE()
      modifies this`reInviteInProgress
      ensures !reInviteInProgress
    {
      reInviteInProgress := false;
    }
  }

  /** Nobody else acting on the dialog, the flag is as it was on every way out, one CSeq is spent
      exactly if a request was built, and the result is that of the first response that is not
      provisional. */
  method SendReINVITE(d: Dialog, target: bool, sent: bool, arrivals: seq<Arrival>) returns (r: Result)
    requires d.Valid()
    modifies d`localCSeq, d`reInviteInProgress
    ensures d.Valid() && d.reInviteInProgress == old(d.reInviteInProgress)
    ensures var out := d.state.Confirmed? && d.hasInvite && !old(d.reInviteInProgress) && target && sent;
            && (forall s, ok :: r == Final(ok, s) <==>
                  && out && ok == (200 <= s < 300)
                  && exists i: nat :: IsFirstFinal(arrivals, i) && arrivals[i] == Response(s))
            && (r.Unanswered? <==> out && exists i: nat :: IsFirstFinal(arrivals, i) && arrivals[i].NoResponse?)
            && (r.Abandoned? <==> out && ((forall i: nat :: !IsFirstFinal(arrivals, i))
                                          || exists i: nat :: IsFirstFinal(arrivals, i) && arrivals[i].Cancelled?))
    ensures var built := d.state.Confirmed? && d.hasInvite && !old(d.reInviteInProgress) && target;
            && d.localCSeq == (if built then NextCSeq(old(d.localCSeq)) else old(d.localCSeq))
            && (built && sent ==> r == Conclusion(Decisive(arrivals)))
            && (built && !sent ==> r == SendFailed)
            && (!built ==> r == if d.state.Terminated? then DialogTerminated
                                else if !d.state.Confirmed? then NotConfirmed
                                else if !d.hasInvite then NoInvite
                                else if old(d.reInviteInProgress) then InProgress
                                else BadTarget)
  {
    DecisiveIsFirstFinal(arrivals);
    if d.state.Terminated? {
      return DialogTerminated;
    }
    if !d.state.Confirmed? {
      return NotConfirmed;
    }
    var cseq, why := d.BuildReINVITE(target);
    if cseq.None? {
      return why;
    }
    if !sent {
      d.CompleteReINVITE();
      return SendFailed;
    }
    var i := 0;
    while i < |arrivals|
      invariant 0 <= i <= |arrivals| && d.reInviteInProgress
      invariant Decisive(arrivals[i..]) == Decisive(arrivals)
    {
      if !Provisional(arrivals[i]) {
        d.CompleteReINVITE();
        return Conclusion(arrivals[i]);
      }
      assert arrivals[i..][1..] == arrivals[i + 1..];
      i := i + 1;
    }
    d.CompleteReINVITE();
    r := Abandoned;
  }
}
