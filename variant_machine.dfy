/**
 * The generic state-machine template: one object per state, a pointer to the
 * current one, and hooks run around every switch. States are numbered by
 * their position in the template's pack, `0 .. count - 1`; the per-state
 * event handlers are the function `react`, and the hook calls are recorded in
 * a ghost trace.
 *
 * The hooks are recorded under the names the template calls them by:
 * `entry()` runs on the state being LEFT and `exit()` on the state being
 * ENTERED.
 */
module VariantMachine {

  import Election

  /** One call into a state object. */
  datatype Hook = Entry(state: nat) | Exit(state: nat) | Handled(state: nat)

  /** What a state's handler returns: stay, or switch the machine to `target`. */
  datatype Action = NoTransition | MoveTo(target: nat)

  /** The state index after applying `a` in state `current`. */
  function AfterAction(current: nat, a: Action): (i: nat)
    ensures a.NoTransition? ==> i == current
    ensures a.MoveTo? ==> i == a.target
  {
    match a
    case NoTransition => current
    case MoveTo(target) => target
  }

  /** The hook calls that applying `a` in state `current` makes. */
  function HooksOf(current: nat, a: Action): (h: seq<Hook>)
    ensures h == [] <==> a.NoTransition?
  {
    match a
    case NoTransition => []
    case MoveTo(target) => [Entry(current), Exit(target)]
  }

  class StateMachine<Event> {
    /** the number of states in the pack; the state objects are fixed */
    const count: nat
    /** the handler of state `i` for an event */
    const react: (nat, Event) -> Action
    var current: nat
    ghost var hooks: seq<Hook>

    ghost predicate Valid()
      reads this
    {
      current < count
    }

    /** The machine starts at the first state of the pack. */
    constructor (count: nat, react: (nat, Event) -> Action)
      requires count > 0
      ensures Valid()
      ensures this.count == count && this.react == react
      ensures current == 0 && hooks == []
    {
      this.count := count;
      this.react := react;
      current := 0;
      hooks := [];
    }

    /** Switch to `target`: `entry()` on the old state, repoint, `exit()` on
        the new one. A switch to the current state is not skipped. */
    method TransitionTo(target: nat)
      requires Valid() && target < count
      modifies this`current, this`hooks
      ensures Valid()
      ensures current == target
      ensures hooks == old(hooks) + [Entry(old(current)), Exit(target)]
    {
      hooks := hooks + [Entry(current)];
      current := target;
      hooks := hooks + [Exit(current)];
    }

    /** Pass `e` to the current state's handler only, then apply the action it
        returns to this machine. */
    method Handle(e: Event)
      requires Valid()
      requires react(current, e).MoveTo? ==> react(current, e).target < count
      modifies this`current, this`hooks
      ensures Valid()
      ensures current == AfterAction(old(current), react(old(current), e))
      ensures hooks == old(hooks) + [Handled(old(current))] + HooksOf(old(current), react(old(current), e))
    {
      var action := react(current, e);
      hooks := hooks + [Handled(current)];
      match action
      case NoTransition =>
      case MoveTo(target) =>
        TransitionTo(target);
    }

    method GetCurrentStateIndex() returns (i: nat)
      requires Valid()
      ensures i == current && i < count
    {
      i := current;
    }
  }

  /** Election roles as template indices. Only StandBy at 0 is fixed (a fresh
      machine is in StandBy, and the template starts at the first state of its
      pack); the indices 1 .. 3 are this model's own numbering. */
  function IndexOf(s: Election.StateType): (i: nat)
    ensures i < 4
    ensures (i == 0) == (s == Election.StandBy)
  {
    match s
    case StandBy => 0
    case Follower => 1
    case Candidate => 2
    case Leader => 3
  }

  function StateAt(i: nat): (s: Election.StateType)
    requires i < 4
    ensures IndexOf(s) == i
  {
    if i == 0 then Election.StandBy
    else if i == 1 then Election.Follower
    else if i == 2 then Election.Candidate
    else Election.Leader
  }

  /** The per-state handlers of the election roles, state by state. A cell the
      role ignores returns no transition; Timedout in Candidate starts a new
      round and so re-enters Candidate through the hooks. */
  function ElectionReact(i: nat, e: Election.Event): (a: Action)
    ensures a.MoveTo? ==> a.target < 4
  {
    if i == 0 then
      (if e == Election.Started then MoveTo(1) else NoTransition)
    else if i == 1 then
      (match e
       case Terminated => MoveTo(0)
       case Timedout => MoveTo(2)
       case _ => NoTransition)
    else if i == 2 then
      (match e
       case Terminated => MoveTo(0)
       case Timedout => MoveTo(2)
       case Elected => MoveTo(3)
       case LeaderDiscovered => MoveTo(1)
       case _ => NoTransition)
    else if i == 3 then
      (match e
       case Terminated => MoveTo(0)
       case LeaderDiscovered => MoveTo(1)
       case _ => NoTransition)
    else NoTransition
  }

  /** The handlers agree with the election table: dispatching through the
      template lands on the index of `Next(s, e)`. The hooks run when the role
      changes, and also on Timedout in Candidate, where the role is re-entered. */
  lemma ElectionDispatch(s: Election.StateType, e: Election.Event)
    ensures AfterAction(IndexOf(s), ElectionReact(IndexOf(s), e)) == IndexOf(Election.Next(s, e))
    ensures HooksOf(IndexOf(s), ElectionReact(IndexOf(s), e)) != [] <==>
              Election.Next(s, e) != s || (s == Election.Candidate && e == Election.Timedout)
  {
  }

  /** The hook calls made by handling `events` from a fresh election machine. */
  ghost function ElectionHooks(events: seq<Election.Event>): (h: seq<Hook>)
    decreases |events|
  {
    if events == [] then []
    else
      var k := IndexOf(Election.Run(Election.StandBy, events[..|events| - 1]));
      ElectionHooks(events[..|events| - 1]) + [Handled(k)] + HooksOf(k, ElectionReact(k, events[|events| - 1]))
  }

  /** Drives a template instance holding the election handlers through
      `events`, as the node's election machine is driven one `handle` call at a
      time, and reads back the current index. */
  method DispatchElection(events: seq<Election.Event>) returns (i: nat, ghost trace: seq<Hook>)
    ensures i == IndexOf(Election.Run(Election.StandBy, events))
    ensures i < 4 && StateAt(i) == Election.Run(Election.StandBy, events)
    ensures trace == ElectionHooks(events)
  {
    var m := new StateMachine<Election.Event>(4, ElectionReact);
    var n := 0;
    while n < |events|
      invariant 0 <= n <= |events|
      invariant m.Valid() && m.count == 4 && m.react == ElectionReact
      invariant m.current == IndexOf(Election.Run(Election.StandBy, events[..n]))
      invariant m.hooks == ElectionHooks(events[..n])
    {
      ghost var before := Election.Run(Election.StandBy, events[..n]);
      ElectionDispatch(before, events[n]);
      Election.RunSnoc(Election.StandBy, events[..n], events[n]);
      assert events[..n + 1] == events[..n] + [events[n]];
      assert events[..n + 1][..n] == events[..n];
      m.Handle(events[n]);
      n := n + 1;
    }
    assert events[..n] == events;
    i := m.GetCurrentStateIndex();
    trace := m.hooks;
  }

  /** A self-transition through the template still calls both hooks, on the
      same state. */
  method SelfTransitionRunsHooks() returns (i: nat, ghost trace: seq<Hook>)
    ensures i == 0 && trace == [Entry(0), Exit(0)]
  {
    var m := new StateMachine<Election.Event>(4, ElectionReact);
    m.TransitionTo(0);
    i := m.GetCurrentStateIndex();
    trace := m.hooks;
  }
}
