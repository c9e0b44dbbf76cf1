/**
 * The Raft election automaton of a cluster node: four roles, six events.
 * The transition table is the one the state-machine unit tests fix cell by
 * cell; every (state, event) pair has a successor, and the pairs that are not
 * listed in `Transitions` are self-loops.
 */
module Election {

  datatype StateType = StandBy | Follower | Candidate | Leader

  datatype Event = Started | Terminated | Timedout | VoteReceived | Elected | LeaderDiscovered

  /** One step of the automaton. */
  function Next(s: StateType, e: Event): (r: StateType)
    // Terminated halts every role
    ensures e == Terminated ==> r == StandBy
    // vote accounting is not the automaton's business
    ensures e == VoteReceived ==> r == s
    // a stopped node only wakes up on Started, and then as a Follower
    ensures s == StandBy ==> (r == Follower <==> e == Started) && (r == StandBy <==> e != Started)
    // Leader is entered only from Candidate on Elected
    ensures r == Leader && s != Leader <==> s == Candidate && e == Elected
    // LeaderDiscovered demotes the two campaigning roles to Follower
    ensures e == LeaderDiscovered && (s == Candidate || s == Leader) ==> r == Follower
  {
    match s
    case StandBy =>
      if e == Started then Follower else StandBy
    case Follower =>
      (match e
       case Terminated => StandBy
       case Timedout => Candidate
       case _ => Follower)
    case Candidate =>
      (match e
       case Terminated => StandBy
       case Elected => Leader
       case LeaderDiscovered => Follower
       case _ => Candidate)
    case Leader =>
      (match e
       case Terminated => StandBy
       case LeaderDiscovered => Follower
       case _ => Leader)
  }

  /** The state-changing cells of the table; every other cell is a self-loop. */
  const Transitions: map<(StateType, Event), StateType> :=
    map[(StandBy, Started) := Follower,
        (Follower, Terminated) := StandBy,
        (Follower, Timedout) := Candidate,
        (Candidate, Terminated) := StandBy,
        (Candidate, Elected) := Leader,
        (Candidate, LeaderDiscovered) := Follower,
        (Leader, Terminated) := StandBy,
        (Leader, LeaderDiscovered) := Follower]

  /** `Next` agrees with the table cell by cell, and a step changes the state
      exactly on the listed cells. */
  lemma NextFollowsTable(s: StateType, e: Event)
    ensures Next(s, e) == if (s, e) in Transitions then Transitions[(s, e)] else s
    ensures Next(s, e) != s <==> (s, e) in Transitions
  {
  }

  /** The state reached from `s` after handling `events` in order. */
  function Run(s: StateType, events: seq<Event>): (r: StateType)
    // a final Terminated always leaves the node stopped
    ensures events != [] && events[|events| - 1] == Terminated ==> r == StandBy
    decreases |events|
  {
    if events == [] then s else Run(Next(s, events[0]), events[1..])
  }

  lemma {:induction false} RunSnoc(s: StateType, events: seq<Event>, e: Event)
    ensures Run(s, events + [e]) == Next(Run(s, events), e)
    decreases |events|
  {
    if events == [] {
      assert events + [e] == [e];
    } else {
      assert (events + [e])[1..] == events[1..] + [e];
      RunSnoc(Next(s, events[0]), events[1..], e);
    }
  }

  /** A run of vote notifications alone never changes the role. */
  lemma {:induction false} VotesAloneKeepRole(s: StateType, events: seq<Event>)
    requires forall k :: 0 <= k < |events| ==> events[k] == VoteReceived
    ensures Run(s, events) == s
    decreases |events|
  {
    if events != [] {
      VotesAloneKeepRole(s, events[1..]);
    }
  }

  /** Every role can be reached from the initial StandBy. */
  lemma AllStatesReachable(s: StateType) returns (events: seq<Event>)
    ensures Run(StandBy, events) == s
    ensures |events| <= 3
  {
    match s
    case StandBy => events := [];
    case Follower => events := [Started];
    case Candidate => events := [Started, Timedout];
    case Leader => events := [Started, Timedout, Elected];
  }

  /** `pattern` occurs in `events` as a (not necessarily contiguous) subsequence. */
  predicate InOrder(pattern: seq<Event>, events: seq<Event>)
  {
    pattern == [] ||
    (events != [] &&
     ((events[0] == pattern[0] && InOrder(pattern[1..], events[1..])) || InOrder(pattern, events[1..])))
  }

  /** The only way up to Leader: Started, then Timedout, then Elected. */
  const Campaign: seq<Event> := [Started, Timedout, Elected]

  /** How far along `Campaign` a role is. */
  function Rank(s: StateType): (k: nat)
    ensures k <= |Campaign|
  {
    match s
    case StandBy => 0
    case Follower => 1
    case Candidate => 2
    case Leader => 3
  }

  /** What is still missing of `Campaign` from role `s`. */
  function Remaining(s: StateType): (r: seq<Event>)
    ensures s == Leader <==> r == []
  {
    Campaign[Rank(s)..]
  }

  /** A single step moves at most one place along `Campaign`, and only on the
      event that stands at that place. */
  lemma StepRank(s: StateType, e: Event)
    ensures Rank(Next(s, e)) <= Rank(s) || (Rank(Next(s, e)) == Rank(s) + 1 && e == Campaign[Rank(s)])
  {
  }

  lemma {:induction false} InOrderDropFirst(pattern: seq<Event>, events: seq<Event>)
    requires pattern != [] && InOrder(pattern, events)
    ensures InOrder(pattern[1..], events)
    decreases |events|
  {
    if pattern[1..] != [] {
      if events[0] == pattern[0] && InOrder(pattern[1..], events[1..]) {
      } else {
        InOrderDropFirst(pattern, events[1..]);
      }
    }
  }

  lemma {:induction false} InOrderSuffix(k: nat, pattern: seq<Event>, events: seq<Event>)
    requires k <= |pattern| && InOrder(pattern, events)
    ensures InOrder(pattern[k..], events)
    decreases k
  {
    if k > 0 {
      InOrderDropFirst(pattern, events);
      InOrderSuffix(k - 1, pattern[1..], events);
      assert pattern[1..][k - 1..] == pattern[k..];
    }
  }

  /** From role `s`, any run that ends in Leader contains what is missing of
      `Campaign` in order. */
  lemma {:induction false} LeaderNeedsRemaining(s: StateType, events: seq<Event>)
    requires Run(s, events) == Leader
    ensures InOrder(Remaining(s), events)
    decreases |events|
  {
    if events != [] {
      var t := Next(s, events[0]);
      LeaderNeedsRemaining(t, events[1..]);
      StepRank(s, events[0]);
      if Rank(t) <= Rank(s) {
        assert Remaining(t)[Rank(s) - Rank(t)..] == Remaining(s);
        InOrderSuffix(Rank(s) - Rank(t), Remaining(t), events[1..]);
        if Remaining(s) != [] {
          assert InOrder(Remaining(s), events[1..]);
        }
      } else {
        assert Remaining(s)[1..] == Remaining(t);
      }
    }
  }

  /** Turns a subsequence occurrence into strictly increasing positions. */
  lemma {:induction false} InOrderPositions(pattern: seq<Event>, events: seq<Event>) returns (pos: seq<int>)
    requires InOrder(pattern, events)
    ensures |pos| == |pattern|
    ensures forall m :: 0 <= m < |pos| ==> 0 <= pos[m] < |events| && events[pos[m]] == pattern[m]
    ensures forall m, n :: 0 <= m < n < |pos| ==> pos[m] < pos[n]
    decreases |events|
  {
    if pattern == [] {
      pos := [];
    } else if events[0] == pattern[0] && InOrder(pattern[1..], events[1..]) {
      var rest := InOrderPositions(pattern[1..], events[1..]);
      pos := [0] + seq(|rest|, m requires 0 <= m < |rest| => rest[m] + 1);
    } else {
      var rest := InOrderPositions(pattern, events[1..]);
      pos := seq(|rest|, m requires 0 <= m < |rest| => rest[m] + 1);
    }
  }

  /** Any event sequence that takes a fresh machine to Leader contains Started,
      then Timedout, then Elected. */
  lemma LeaderOnlyThroughCampaign(events: seq<Event>)
    requires Run(StandBy, events) == Leader
    ensures exists i, j, k :: 0 <= i < j < k < |events| &&
              events[i] == Started && events[j] == Timedout && events[k] == Elected
  {
    LeaderNeedsRemaining(StandBy, events);
    var pos := InOrderPositions(Campaign, events);
    assert events[pos[0]] == Started && events[pos[1]] == Timedout && events[pos[2]] == Elected;
  }

  /** The automaton object the node drives: `Handle` steps it, `GetCurrentState`
      reads it back. */
  class StateMachine {
    var current: StateType
    /** every event handled since construction, in order */
    ghost var handled: seq<Event>

    ghost predicate Valid()
      reads this
    {
      current == Run(StandBy, handled)
    }

    constructor ()
      ensures Valid()
      ensures current == StandBy && handled == []
    {
      current := StandBy;
      handled := [];
    }

    method Handle(e: Event)
      requires Valid()
      modifies this
      ensures Valid()
      ensures current == Next(old(current), e)
      ensures handled == old(handled) + [e]
    {
      RunSnoc(StandBy, handled, e);
      current := Next(current, e);
      handled := handled + [e];
    }

    method GetCurrentState() returns (s: StateType)
      requires Valid()
      ensures s == Run(StandBy, handled)
      ensures s == Leader ==> InOrder(Campaign, handled)
    {
      s := current;
      if s == Leader {
        LeaderNeedsRemaining(StandBy, handled);
      }
    }
  }

  /** The six events, in the order the unit tests take them. */
  const AllEvents: seq<Event> := [Started, Terminated, Timedout, VoteReceived, Elected, LeaderDiscovered]

  /** The initial-state test: a fresh machine reports StandBy. */
  method InitialCase() returns (s: StateType)
    ensures s == StandBy
  {
    var m := new StateMachine();
    s := m.GetCurrentState();
  }

  /** The StandBy group of the unit tests: a fresh machine, then one event. Returns the role after each of the six events, in
      the order of `AllEvents`. */
  method StandByCases() returns (outcomes: seq<StateType>)
    ensures outcomes == [Follower, StandBy, StandBy, StandBy, StandBy, StandBy]
  {
    outcomes := [];
    for i := 0 to |AllEvents|
      invariant |outcomes| == i
      invariant forall k :: 0 <= k < i ==> outcomes[k] == Next(StandBy, AllEvents[k])
    {
      var m := new StateMachine();
      var s := m.GetCurrentState();
      assert s == StandBy;
      m.Handle(AllEvents[i]);
      s := m.GetCurrentState();
      outcomes := outcomes + [s];
    }
  }

  /** The Follower group of the unit tests: Started, then one more event. Returns the role after each of the six events, in
      the order of `AllEvents`. */
  method FollowerCases() returns (outcomes: seq<StateType>)
    ensures outcomes == [Follower, StandBy, Candidate, Follower, Follower, Follower]
  {
    outcomes := [];
    for i := 0 to |AllEvents|
      invariant |outcomes| == i
      invariant forall k :: 0 <= k < i ==> outcomes[k] == Next(Follower, AllEvents[k])
    {
      var m := new StateMachine();
      m.Handle(Started);
      var s := m.GetCurrentState();
      assert s == Follower;
      m.Handle(AllEvents[i]);
      s := m.GetCurrentState();
      outcomes := outcomes + [s];
    }
  }

  /** The Candidate group of the unit tests: Started, Timedout, then one
      more event. Returns the role after each of the six events, in
      the order of `AllEvents`. */
  method CandidateCases() returns (outcomes: seq<StateType>)
    ensures outcomes == [Candidate, StandBy, Candidate, Candidate, Leader, Follower]
  {
    outcomes := [];
    for i := 0 to |AllEvents|
      invariant |outcomes| == i
      invariant forall k :: 0 <= k < i ==> outcomes[k] == Next(Candidate, AllEvents[k])
    {
      var m := new StateMachine();
      m.Handle(Started);
      m.Handle(Timedout);
      var s := m.GetCurrentState();
      assert s == Candidate;
      m.Handle(AllEvents[i]);
      s := m.GetCurrentState();
      outcomes := outcomes + [s];
    }
  }

  /** The Leader group of the unit tests: Started, Timedout, Elected, then
      one more event. Returns the role after each of the six events, in
      the order of `AllEvents`. */
  method LeaderCases() returns (outcomes: seq<StateType>)
    ensures outcomes == [Leader, StandBy, Leader, Leader, Leader, Follower]
  {
    outcomes := [];
    for i := 0 to |AllEvents|
      invariant |outcomes| == i
      invariant forall k :: 0 <= k < i ==> outcomes[k] == Next(Leader, AllEvents[k])
    {
      var m := new StateMachine();
      m.Handle(Started);
      m.Handle(Timedout);
      m.Handle(Elected);
      var s := m.GetCurrentState();
      assert s == Leader;
      m.Handle(AllEvents[i]);
      s := m.GetCurrentState();
      outcomes := outcomes + [s];
    }
  }
}
