/** Vocabulary shared by the models: identifiers, the states of a call leg, and a fact about sets. */
module CallStates {

  datatype Option<+T> = None | Some(value: T)

  type SessionId = string
  type CallId = string

  datatype LegState = Created | Ringing | EarlyMedia | Answered | Failed | Destroyed

  predicate IsTerminal(s: LegState) {
    s.Failed? || s.Destroyed?
  }

  /** The numeric order of the states. */
  function Order(s: LegState): nat {
    match s
    case Created => 0
    case Ringing => 1
    case EarlyMedia => 2
    case Answered => 3
    case Failed => 4
    case Destroyed => 5
  }

  lemma SomeElement<T>(s: set<T>)
    ensures s == {} || exists x :: x in s
  {
    if forall x :: x !in s {
      assert s == {};
    }
  }
}
