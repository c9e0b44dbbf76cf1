/**
 * The cluster-node coordinator. It observes the election automaton and the
 * lifecycle automaton: each election role it is told about becomes a
 * lifecycle event, and each lifecycle state it is told about becomes exactly
 * one host callback. `IsActivated` is the single gate the host consults.
 */
module Coordinator {

  import Election
  import Lifecycle
  import VariantMachine

  datatype Option<T> = None | Some(value: T)

  /** A state value as delivered to a handler: one of the enumerators, or a
      raw value outside the enumeration. */
  datatype Reported<T> = Known(value: T) | OutOfRange(raw: int)

  /** The host's notification callbacks. */
  datatype Callback = OnStandby | OnActivated | OnDeactivated

  datatype Fsm = LifecycleFsm | RaftFsm

  /** Subscription changes and events raised by the coordinator, in order. */
  datatype Step = Subscribe(fsm: Fsm) | Unsubscribe(fsm: Fsm) | Raise(event: Election.Event)

  /** The lifecycle event raised for an election role. */
  function LifecycleEventFor(s: Election.StateType): (e: Lifecycle.Event)
    ensures e == Lifecycle.Activate <==> s == Election.Leader
    ensures e == Lifecycle.Deactivate <==> s == Election.StandBy
    ensures e == Lifecycle.Event.Standby <==> s == Election.Follower || s == Election.Candidate
  {
    match s
    case StandBy => Lifecycle.Deactivate
    case Follower => Lifecycle.Event.Standby
    case Candidate => Lifecycle.Event.Standby
    case Leader => Lifecycle.Activate
  }

  /** The host callback made for a lifecycle state. */
  function CallbackFor(l: Lifecycle.StateType): (c: Callback)
    ensures c == OnActivated <==> l == Lifecycle.Active
    ensures c == OnStandby <==> l == Lifecycle.StateType.Standby
    ensures c == OnDeactivated <==> l == Lifecycle.Inactive
  {
    match l
    case Standby => OnStandby
    case Active => OnActivated
    case Inactive => OnDeactivated
  }

  /** The callbacks made for one lifecycle notification: one for a state of
      the enumeration, none (only an error log) for a value outside it. */
  function CallbacksFor(v: Reported<Lifecycle.StateType>): (cs: seq<Callback>)
    ensures v.Known? <==> |cs| == 1
    ensures v.OutOfRange? <==> cs == []
    ensures v.Known? ==> cs == [CallbackFor(v.value)]
    ensures v.Known? ==> (cs[0] == OnActivated <==> v.value == Lifecycle.Active)
  {
    match v
    case Known(l) => [CallbackFor(l)]
    case OutOfRange(_) => []
  }

  /** The lifecycle state after the coordinator is told about election
      state `v`, starting from lifecycle state `l`. */
  function LifecycleAfter(l: Lifecycle.StateType, v: Reported<Election.StateType>): (r: Lifecycle.StateType)
    ensures v.Known? ==> (r == Lifecycle.Active <==> v.value == Election.Leader)
    ensures v.Known? ==> (r == Lifecycle.Inactive <==> v.value == Election.StandBy)
    ensures v.OutOfRange? ==> r == l
  {
    match v
    case Known(s) => Lifecycle.Next(l, LifecycleEventFor(s))
    case OutOfRange(_) => l
  }

  /** The lifecycle state after a series of election notifications. */
  function LifecycleAfterAll(l: Lifecycle.StateType, vs: seq<Reported<Election.StateType>>): (r: Lifecycle.StateType)
    ensures vs != [] && vs[|vs| - 1].Known? ==> (r == Lifecycle.Active <==> vs[|vs| - 1].value == Election.Leader)
    ensures (forall k :: 0 <= k < |vs| ==> vs[k].OutOfRange?) ==> r == l
    decreases |vs|
  {
    if vs == [] then l else LifecycleAfterAll(LifecycleAfter(l, vs[0]), vs[1..])
  }

  /** The last election role among `vs` that lies in the enumeration. */
  function LastKnown(vs: seq<Reported<Election.StateType>>): (r: Option<Election.StateType>)
    ensures r.Some? <==> exists k :: 0 <= k < |vs| && vs[k].Known?
    ensures r.Some? ==> exists k :: 0 <= k < |vs| && vs[k] == Known(r.value) &&
                                    forall j :: k < j < |vs| ==> vs[j].OutOfRange?
  {
    if vs == [] then None
    else
      var rest := LastKnown(vs[1..]);
      if rest.Some? then
        ghost var k :| 0 <= k < |vs[1..]| && vs[1..][k] == Known(rest.value) &&
                       forall j :: k < j < |vs[1..]| ==> vs[1..][j].OutOfRange?;
        assert vs[k + 1] == Known(rest.value);
        assert forall j :: k + 1 < j < |vs| ==> vs[j] == vs[1..][j - 1];
        rest
      else if vs[0].Known? then
        assert forall j :: 0 < j < |vs| ==> vs[j] == vs[1..][j - 1];
        Some(vs[0].value)
      else None
  }

  /** Activation is derived state: after any series of notifications the
      lifecycle is Active exactly when the last valid election role reported
      is Leader (or, with none reported, when it was Active to begin with). */
  lemma {:induction false} ActiveIffLastReportedLeader(l: Lifecycle.StateType, vs: seq<Reported<Election.StateType>>)
    ensures LifecycleAfterAll(l, vs) == Lifecycle.Active <==>
              match LastKnown(vs)
              case Some(s) => s == Election.Leader
              case None => l == Lifecycle.Active
    decreases |vs|
  {
    if vs != [] {
      ActiveIffLastReportedLeader(LifecycleAfter(l, vs[0]), vs[1..]);
    }
  }

  /** The lifecycle state a role leads to, whatever the lifecycle state was. */
  function LifecycleOf(s: Election.StateType): (l: Lifecycle.StateType)
    ensures l == Lifecycle.Active <==> s == Election.Leader
    ensures forall l0 :: LifecycleAfter(l0, Known(s)) == l
  {
    Lifecycle.Next(Lifecycle.Inactive, LifecycleEventFor(s))
  }

  /** Whether the election machine notifies its subscriber after handling
      `e` in role `s`: exactly when the role's handler switches the machine,
      that is when the role changes or a Candidate re-enters Candidate on
      Timedout. The cells the table leaves alone have no side effect. */
  predicate NotifiesAfter(s: Election.StateType, e: Election.Event): (r: bool)
    ensures r <==> Election.Next(s, e) != s || (s == Election.Candidate && e == Election.Timedout)
  {
    VariantMachine.ElectionDispatch(s, e);
    VariantMachine.ElectionReact(VariantMachine.IndexOf(s), e).MoveTo?
  }

  class ClusterNodeImpl {
    const raftFsm: Election.StateMachine
    const lifecycleFsm: Lifecycle.StateMachine
    ghost var steps: seq<Step>
    ghost var callbacks: seq<Callback>
    /** error lines written for state values outside the enumerations */
    ghost var errors: nat

    /** The election machine is consistent, and the lifecycle machine holds
        the state its current role leads to. */
    ghost predicate Valid()
      reads raftFsm, lifecycleFsm
    {
      raftFsm.Valid() && lifecycleFsm.current == LifecycleOf(raftFsm.current)
    }

    /** Subscribe to the lifecycle machine, then to the election machine, then
        raise Started once; the election machine reports Follower, which puts
        the lifecycle machine in Standby and calls `on_standby`. */
    constructor ()
      ensures Valid() && fresh(raftFsm) && fresh(lifecycleFsm)
      ensures raftFsm.current == Election.Follower && raftFsm.handled == [Election.Started]
      ensures lifecycleFsm.current == Lifecycle.StateType.Standby
      ensures steps == [Subscribe(LifecycleFsm), Subscribe(RaftFsm), Raise(Election.Started)]
      ensures callbacks == [OnStandby] && errors == 0
    {
      raftFsm := new Election.StateMachine();
      lifecycleFsm := new Lifecycle.StateMachine();
      steps := [];
      callbacks := [];
      errors := 0;
      new;
      steps := steps + [Subscribe(LifecycleFsm)];
      steps := steps + [Subscribe(RaftFsm)];
      RaiseRaftEvent(Election.Started);
    }

    /** Unsubscribe from both machines, lifecycle first. */
    method Destroy()
      modifies this`steps
      ensures steps == old(steps) + [Unsubscribe(LifecycleFsm), Unsubscribe(RaftFsm)]
    {
      steps := steps + [Unsubscribe(LifecycleFsm)];
      steps := steps + [Unsubscribe(RaftFsm)];
    }

    /** Raise an event on the election machine. When its handler switches the
        machine, the machine notifies this subscriber of its new role; an
        event the role ignores notifies nobody. */
    method RaiseRaftEvent(e: Election.Event)
      requires Valid()
      modifies raftFsm, lifecycleFsm, this`steps, this`callbacks, this`errors
      ensures Valid()
      ensures raftFsm.current == Election.Next(old(raftFsm.current), e)
      ensures raftFsm.handled == old(raftFsm.handled) + [e]
      ensures steps == old(steps) + [Raise(e)] && errors == old(errors)
      ensures NotifiesAfter(old(raftFsm.current), e) ==>
                callbacks == old(callbacks) + [CallbackFor(lifecycleFsm.current)]
      ensures !NotifiesAfter(old(raftFsm.current), e) ==>
                callbacks == old(callbacks) && lifecycleFsm.current == old(lifecycleFsm.current)
      ensures lifecycleFsm.current == Lifecycle.Active <==> raftFsm.current == Election.Leader
    {
      steps := steps + [Raise(e)];
      var notifies := NotifiesAfter(raftFsm.current, e);
      raftFsm.Handle(e);
      if notifies {
        var s := raftFsm.GetCurrentState();
        HandleRaftState(Known(s));
      }
    }

    /** Notification of a lifecycle state: one host callback, or an error
        line for a value outside the enumeration. */
    method HandleLifecycleState(v: Reported<Lifecycle.StateType>)
      modifies this`callbacks, this`errors
      ensures callbacks == old(callbacks) + CallbacksFor(v)
      ensures errors == old(errors) + (if v.OutOfRange? then 1 else 0)
    {
      match v
      case Known(l) =>
        callbacks := callbacks + [CallbackFor(l)];
      case OutOfRange(_) =>
        errors := errors + 1;
    }

    /** Notification of an election role: raise the matching lifecycle event;
        the lifecycle machine then notifies this coordinator of its new state.
        A value outside the enumeration only writes an error line. */
    method HandleRaftState(v: Reported<Election.StateType>)
      modifies this`callbacks, this`errors, lifecycleFsm
      ensures lifecycleFsm.current == LifecycleAfter(old(lifecycleFsm.current), v)
      ensures v.Known? ==> callbacks == old(callbacks) + [CallbackFor(lifecycleFsm.current)] && errors == old(errors)
      ensures v.OutOfRange? ==> callbacks == old(callbacks) && errors == old(errors) + 1
      ensures v.Known? ==> (lifecycleFsm.current == Lifecycle.Active <==> v.value == Election.Leader)
    {
      match v
      case Known(s) =>
        lifecycleFsm.Handle(LifecycleEventFor(s));
        var now := lifecycleFsm.GetCurrentStateType();
        HandleLifecycleState(Known(now));
      case OutOfRange(_) =>
        errors := errors + 1;
    }

    ghost predicate Activated()
      reads lifecycleFsm
    {
      lifecycleFsm.current == Lifecycle.Active
    }

    /** True exactly when the lifecycle machine is Active, which on a
        consistent node is exactly when the election role is Leader; changes
        nothing. */
    method IsActivated() returns (r: bool)
      ensures r <==> lifecycleFsm.current == Lifecycle.Active
      ensures Valid() ==> (r <==> raftFsm.current == Election.Leader)
    {
      var s := lifecycleFsm.GetCurrentStateType();
      r := s == Lifecycle.Active;
    }
  }

  /** A node that wins an election is activated; a vote it ignores makes no
      callback; demoted by a discovered leader it is not activated; an
      out-of-range role report changes nothing. Returns what `IsActivated`
      answered at each point. */
  method LeadershipScenario() returns (activated: seq<bool>, ghost calls: seq<Callback>)
    ensures activated == [false, false, true, true, false, false]
    ensures calls == [OnStandby, OnStandby, OnActivated, OnStandby]
  {
    var node := new ClusterNodeImpl();
    var on := node.IsActivated();
    activated := [on];
    node.RaiseRaftEvent(Election.Timedout);
    on := node.IsActivated();
    activated := activated + [on];
    node.RaiseRaftEvent(Election.Elected);
    on := node.IsActivated();
    activated := activated + [on];
    node.RaiseRaftEvent(Election.VoteReceived);
    on := node.IsActivated();
    activated := activated + [on];
    node.RaiseRaftEvent(Election.LeaderDiscovered);
    on := node.IsActivated();
    activated := activated + [on];
    node.HandleRaftState(OutOfRange(7));
    on := node.IsActivated();
    activated := activated + [on];
    calls := node.callbacks;
    node.Destroy();
  }
}
