/**
 * The lifecycle (activation) automaton, kept abstract: every event is accepted
 * in every state and names its target state. Its own source is not part of
 * this model; only the behaviour the coordinator relies on is.
 */
module Lifecycle {

  datatype StateType = Inactive | Standby | Active

  datatype Event = Activate | Deactivate | Standby

  /** Activate leads to Active, Standby to Standby, Deactivate to Inactive,
      whatever the current state. */
  function Next(s: StateType, e: Event): (r: StateType)
    ensures r == Active <==> e == Activate
    ensures r == StateType.Standby <==> e == Event.Standby
    ensures r == Inactive <==> e == Deactivate
  {
    match e
    case Activate => Active
    case Deactivate => Inactive
    case Standby => StateType.Standby
  }

  class StateMachine {
    var current: StateType

    constructor ()
      ensures current == Inactive
    {
      current := Inactive;
    }

    method Handle(e: Event)
      modifies this
      ensures current == Next(old(current), e)
    {
      current := Next(current, e);
    }

    method GetCurrentStateType() returns (s: StateType)
      ensures s == current
    {
      s := current;
    }
  }
}
