# Failover cluster node: election automaton, coordinator and publish gate

This project models, in Dafny, the core of a failover cluster node for ROS 2.
Redundant nodes run a Raft-style election. Each node's election role is
turned into an activation signal, and that signal gates the messages the host
application publishes. The model covers five linked pieces:

- **Election automaton** (`election.dfy`, module `Election`). It has four roles
  (StandBy, Follower, Candidate, Leader) and six events (Started, Terminated,
  Timedout, VoteReceived, Elected, LeaderDiscovered). `Next` is the pure
  transition table, which the unit tests fix cell by cell. `Run` folds `Next`
  over a sequence of events. The class `StateMachine` keeps the current role
  in a field: `Handle` steps it and `GetCurrentState` reads it. The methods
  `StandByCases`, `FollowerCases`, `CandidateCases` and `LeaderCases` replay
  the 25 unit-test cases against the class contract.
- **Generic state-machine template** (`variant_machine.dfy`, module
  `VariantMachine`). The template's states are numbered by their position in
  the pack, `0 .. count - 1`. The per-state handlers are one function
  `react(i, e)`, and the hook calls go into a ghost trace. `TransitionTo` calls
  `entry()` on the state being left and `exit()` on the state being entered,
  because that is how the template is written. A switch to the current state
  still runs both hooks. `ElectionReact` writes the election roles as
  per-state handlers. A handler that ignores an event returns no transition.
  In Candidate, Timedout starts a new round, so it re-enters Candidate
  through the hooks. `DispatchElection` drives a template instance with these
  handlers through any event sequence and proves that it ends on the role
  `Run` gives.
- **Lifecycle automaton** (`lifecycle.dfy`, module `Lifecycle`). Its source is
  not part of this model, so it is abstract: Activate leads to Active, Standby
  to Standby and Deactivate to Inactive, from any state. It starts in Inactive.
- **Coordinator** (`cluster_node.dfy`, module `Coordinator`). `ClusterNodeImpl`
  maps each election role to a lifecycle event and each lifecycle state to
  exactly one host callback. A state value outside its enumeration (modelled
  as `Reported.OutOfRange`) only writes an error line. `IsActivated` is true
  exactly when the lifecycle state is Active. `RaiseRaftEvent` raises an
  event on the election machine. When the role's handler switches the
  machine, the machine notifies the coordinator of its new role. The constructor raises Started this way, so a new node is
  Follower with its lifecycle in Standby. On such a node the invariant
  `Valid` holds: the lifecycle state is the one the current role leads to.
  Two ghost logs record the order of subscriptions and raised events, and the
  host callbacks.
- **Publish gate** (`cluster_node_publisher.dfy`, module `Publisher`).
  `ClusterNodePublisher` forwards a message when no node interface is set, or
  when the interface reports activated. Otherwise it drops the message and
  writes a warning. A ghost log records the forwarded messages and a ghost
  counter records the warnings.
- **Log entry** (`data.dfy`, module `LogEntry`). `Data` is a value
  `{index: u64, data: bytes, term: u64}`.

Main results:

- `Election.LeaderOnlyThroughCampaign`: any event sequence that takes a fresh
  automaton to Leader contains Started, then Timedout, then Elected, at
  increasing positions.
- `Coordinator.LifecycleAfter` and `Coordinator.ActiveIffLastReportedLeader`:
  after the coordinator is told about election role `s`, the node is activated
  exactly when `s` is Leader. After any series of notifications, it is
  activated exactly when the last valid role reported was Leader.

The interface the publisher consults is modelled as a nullable reference to
the coordinator. Its `IsActivated` gives the answer, so the publisher and
coordinator can be composed end to end (`Publisher.FailoverScenario`).

## Model

| member | source | states |
|---|---|---|
| `Election.Next` | fsros/test/test_state_machine.cpp:45-286 | Terminated always gives StandBy. VoteReceived never changes the role. From StandBy, only Started changes the role, and only to Follower. Leader is entered (from another role) exactly from Candidate on Elected. LeaderDiscovered demotes Candidate and Leader to Follower. |
| `Election.NextFollowsTable` | fsros/test/test_state_machine.cpp:45-286 | `Next` agrees with the eight-cell transition table `Transitions`, and every unlisted cell is a self-loop. A step changes the role exactly on the listed cells. |
| `Election.Run` | fsros/test/test_state_machine.cpp:45-286 | Running a sequence whose last event is Terminated always ends in StandBy, whatever came before. |
| `Election.VotesAloneKeepRole` | fsros/test/test_state_machine.cpp:66-71 | A sequence made only of VoteReceived events leaves every role unchanged, however long it is. |
| `Election.RunSnoc` | fsros/test/test_state_machine.cpp:212-217 | Handling one more event applies `Next` to the role reached so far. This is what lets successive `Handle` calls be read as one run. |
| `Election.AllStatesReachable` | fsros/test/test_state_machine.cpp:210-217 | Every role is reachable from StandBy in at most three events. |
| `Election.InOrderDropFirst` | fsros/test/test_state_machine.cpp:210-217 | Helper of `LeaderOnlyThroughCampaign`: if a pattern occurs in order in an event sequence, so does the pattern without its first event. |
| `Election.InOrderSuffix` | fsros/test/test_state_machine.cpp:210-217 | Helper of `LeaderOnlyThroughCampaign`: if a pattern occurs in order, so does every suffix of it. |
| `Election.LeaderNeedsRemaining` | fsros/test/test_state_machine.cpp:187-217 | From any role, a run that ends in Leader contains, in order, the part of Started, Timedout, Elected that the role has not yet passed. |
| `Election.InOrderPositions` | fsros/test/test_state_machine.cpp:210-217 | Helper of `LeaderOnlyThroughCampaign`: an in-order occurrence gives strictly increasing positions holding the pattern's events. |
| `Election.LeaderOnlyThroughCampaign` | fsros/test/test_state_machine.cpp:187-217 | Every event sequence that takes a fresh machine to Leader has Started, Timedout and Elected at positions i < j < k. |
| `Election.StateMachine.constructor` | fsros/test/test_state_machine.cpp:41-43 | A new machine is in StandBy and has handled no events. |
| `Election.StateMachine.Handle` | fsros/test/test_state_machine.cpp:45-50 | The role becomes `Next(old role, e)`, and the event is appended to the handled history. The invariant role == Run(StandBy, history) is kept. |
| `Election.StateMachine.GetCurrentState` | fsros/test/test_state_machine.cpp:41-43 | Returns the role reached by running the whole handled history from StandBy. If that role is Leader, the history contains Started, Timedout, Elected in order. |
| `Election.InitialCase` | fsros/test/test_state_machine.cpp:41-43 | A fresh machine reports StandBy. |
| `Election.StandByCases` | fsros/test/test_state_machine.cpp:45-85 | From StandBy, the six events give Follower, StandBy, StandBy, StandBy, StandBy, StandBy, in the order Started, Terminated, Timedout, VoteReceived, Elected, LeaderDiscovered. |
| `Election.FollowerCases` | fsros/test/test_state_machine.cpp:88-140 | From Follower, the six events give Follower, StandBy, Candidate, Follower, Follower, Follower. |
| `Election.CandidateCases` | fsros/test/test_state_machine.cpp:143-207 | From Candidate, the six events give Candidate, StandBy, Candidate, Candidate, Leader, Follower. |
| `Election.LeaderCases` | fsros/test/test_state_machine.cpp:210-286 | From Leader, the six events give Leader, StandBy, Leader, Leader, Leader, Follower. |
| `VariantMachine.AfterAction` | fsros/src/raft/state_machine.hpp:37-42 | A handler that returns no transition leaves the current state as it is. A transition lands on its target. |
| `VariantMachine.HooksOf` | fsros/src/raft/state_machine.hpp:37-42 | Hooks run exactly when the handler returns a transition. |
| `VariantMachine.StateMachine.constructor` | fsros/src/raft/state_machine.hpp:47-48 | The current state is index 0, the first state of the pack. The state set and handlers are fixed from then on. The hook trace is empty. |
| `VariantMachine.StateMachine.TransitionTo` | fsros/src/raft/state_machine.hpp:30-35 | The current index becomes the target. Exactly `entry()` on the old state, then `exit()` on the new state, are appended, even when the two are the same. Nothing else changes. |
| `VariantMachine.StateMachine.Handle` | fsros/src/raft/state_machine.hpp:37-42 | Only the current state's handler is invoked. Its action is then applied: no change, or a transition with both hooks. |
| `VariantMachine.StateMachine.GetCurrentStateIndex` | fsros/src/raft/state_machine.hpp:44 | Returns the current index, which is always within the pack. |
| `VariantMachine.IndexOf` | fsros/src/raft/state_machine.hpp:47-48 | Election roles as template indices, all below four. Index 0, the template's initial state, is exactly StandBy, which is what a fresh election machine reports. The indices 1 to 3 are this model's own numbering. |
| `VariantMachine.StateAt` | fsros/src/raft/state_machine.hpp:47-48 | The inverse of `IndexOf` on `0 .. 3`. |
| `VariantMachine.ElectionReact` | fsros/src/raft/state_machine.hpp:37-42 | Every transition a role's handler returns targets one of the four roles of the pack. |
| `VariantMachine.ElectionDispatch` | fsros/src/raft/state_machine.hpp:37-42 | For every role and event, applying the role's handler lands on the index of `Next(s, e)`. Hooks run exactly when the role changes, and also on Timedout in Candidate, where the role is re-entered. |
| `VariantMachine.DispatchElection` | fsros/src/raft/state_machine.hpp:37-48 | A template instance that starts at index 0 and is driven by the election handlers through any event sequence ends on the index of `Run(StandBy, events)`, and `StateAt` maps that index back to the role. Its hook trace is `ElectionHooks(events)`. |
| `VariantMachine.SelfTransitionRunsHooks` | fsros/src/raft/state_machine.hpp:30-35 | A switch to the current state still calls `entry()` and `exit()` on that state, in that order. |
| `Lifecycle.Next` | fsros/src/cluster_node_impl.cpp:76-103 | Activate gives Active, Standby gives Standby, Deactivate gives Inactive. Each holds in both directions and from any state. |
| `Lifecycle.StateMachine.constructor` | fsros/src/cluster_node_impl.cpp:46 | A fresh lifecycle machine is Inactive. |
| `Lifecycle.StateMachine.Handle` | fsros/src/cluster_node_impl.cpp:81 | The state becomes `Next(old state, e)`. |
| `Lifecycle.StateMachine.GetCurrentStateType` | fsros/src/cluster_node_impl.cpp:109-110 | Returns the current lifecycle state. |
| `Coordinator.LifecycleEventFor` | fsros/src/cluster_node_impl.cpp:76-103 | Leader raises Activate, StandBy raises Deactivate, and Follower and Candidate raise Standby. Each holds in both directions. |
| `Coordinator.CallbackFor` | fsros/src/cluster_node_impl.cpp:58-74 | Standby maps to `on_standby`, Active to `on_activated` and Inactive to `on_deactivated`. Each holds in both directions. |
| `Coordinator.CallbacksFor` | fsros/src/cluster_node_impl.cpp:58-74 | A valid lifecycle state gives exactly one callback, which is `on_activated` iff the state is Active. An out-of-range value gives none. |
| `Coordinator.LifecycleAfter` | fsros/src/cluster_node_impl.cpp:76-111 | After a valid election role, the lifecycle is Active iff the role is Leader, and Inactive iff it is StandBy. An out-of-range value changes nothing. |
| `Coordinator.LifecycleAfterAll` | fsros/src/cluster_node_impl.cpp:76-111 | If the last notification is a valid role, the lifecycle afterwards is Active iff that role is Leader. Notifications that are all out of range change nothing. |
| `Coordinator.LastKnown` | fsros/src/cluster_node_impl.cpp:76-103 | A role is found iff some notification in the series is a valid role. The role found is the last valid one: it is reported at some position, and every later notification is out of range. |
| `Coordinator.LifecycleOf` | fsros/src/cluster_node_impl.cpp:76-103 | The lifecycle state a role leads to does not depend on the lifecycle state before. It is Active iff the role is Leader. |
| `Coordinator.ActiveIffLastReportedLeader` | fsros/src/cluster_node_impl.cpp:76-111 | After any series of notifications, the lifecycle is Active iff the last valid role reported was Leader. With none reported, it is Active iff it was Active at the start. |
| `Coordinator.ClusterNodeImpl.constructor` | fsros/src/cluster_node_impl.cpp:32-51 | The node subscribes to the lifecycle machine, then the election machine, then raises Started exactly once. The election machine is then Follower with history [Started], and the lifecycle machine is Standby. Exactly one callback, `on_standby`, has run. The node is consistent (`Valid`). |
| `Coordinator.NotifiesAfter` | fsros/src/cluster_node_impl.cpp:76-103 | The election machine notifies the coordinator after an event exactly when the role changes, or when a Candidate re-enters Candidate on Timedout. It is read off the per-state handlers. |
| `Coordinator.ClusterNodeImpl.RaiseRaftEvent` | fsros/src/cluster_node_impl.cpp:50 | The election role becomes `Next(old role, e)`, and the event is appended to the history and the step log. When the machine notifies, exactly one callback is appended, for the new lifecycle state. When it does not notify, the callbacks and the lifecycle state are unchanged. The node stays consistent, so it is Active iff the new role is Leader. |
| `Coordinator.ClusterNodeImpl.Destroy` | fsros/src/cluster_node_impl.cpp:53-56 | Unsubscribes from the lifecycle machine, then from the election machine. |
| `Coordinator.ClusterNodeImpl.HandleLifecycleState` | fsros/src/cluster_node_impl.cpp:58-74 | Appends exactly the callbacks of `CallbacksFor`. An out-of-range value only counts one error line. |
| `Coordinator.ClusterNodeImpl.HandleRaftState` | fsros/src/cluster_node_impl.cpp:76-103 | The lifecycle state becomes `LifecycleAfter(old, v)`. A valid role appends exactly the one callback for the new lifecycle state, and afterwards the node is Active iff the role is Leader. An out-of-range value only counts one error line. |
| `Coordinator.ClusterNodeImpl.IsActivated` | fsros/src/cluster_node_impl.cpp:105-111 | Returns true iff the lifecycle state is Active. On a consistent node, that is iff the election role is Leader. Changes nothing. |
| `Coordinator.LeadershipScenario` | fsros/src/cluster_node_impl.cpp:76-111 | A new node is not activated. It is not activated as Candidate, and is activated as Leader. As Leader it ignores a vote and makes no callback. It is not activated after a leader is discovered. An out-of-range role report changes nothing. The callbacks made are `on_standby`, `on_standby`, `on_activated`, `on_standby`. |
| `Publisher.Admits` | fsros/include/akit/failsafe/fsros/cluster_node_publisher.hpp:73 | With no interface set, a message always goes out. With one set, it goes out iff the interface reports activated. |
| `Publisher.ClusterNodePublisher.Open` | fsros/include/akit/failsafe/fsros/cluster_node_publisher.hpp:72-81 | A publish now would be forwarded iff no interface is set, or the interface's lifecycle state is Active. |
| `Publisher.ClusterNodePublisher.constructor` | fsros/include/akit/failsafe/fsros/cluster_node_publisher.hpp:58-63 | No interface is set, nothing has been forwarded, and there are no warnings. |
| `Publisher.ClusterNodePublisher.PublishOwned` | fsros/include/akit/failsafe/fsros/cluster_node_publisher.hpp:72-82 | With no interface, or one that reports activated, the message is forwarded exactly once and unchanged. With an interface that reports not activated, the log is unchanged and one warning is written. |
| `Publisher.ClusterNodePublisher.Publish` | fsros/include/akit/failsafe/fsros/cluster_node_publisher.hpp:89-99 | The same gate and effects as `PublishOwned`. |
| `Publisher.ClusterNodePublisher.SetNodeInterface` | fsros/include/akit/failsafe/fsros/cluster_node_publisher.hpp:101-103 | Replaces the stored interface, possibly with null, and changes nothing else. |
| `Publisher.PublishThroughNode` | fsros/include/akit/failsafe/fsros/cluster_node_publisher.hpp:89-99 | Through a publisher wired to a consistent node, a message is forwarded iff the node's role is Leader. Otherwise one warning is written. |
| `Publisher.FailoverScenario` | fsros/include/akit/failsafe/fsros/cluster_node_publisher.hpp:72-99 | A message published before any interface is set is forwarded. A message published through a Follower node is dropped, through the same node as Leader is forwarded, and after demotion is dropped. Exactly two messages are forwarded and two warnings written. |
| `LogEntry.DefaultData` | foros/src/data.cpp:25 | The default entry has an empty payload. |
| `LogEntry.MakeData` | foros/src/data.cpp:27-28 | Stores index and term exactly as given. The payload has the argument's length and the same bytes in order. Any index, payload and term are accepted. |
| `LogEntry.MakeDataRoundTrip` | foros/src/data.cpp:27-28 | Every entry is rebuilt by `MakeData` from its own fields, and `MakeData` is one-to-one. |

## Left out

- The election context is not part of this model. That covers term counting, vote requests and tallies, heartbeats, and timeout randomisation. The coordinator's constructor passes the node id, the ROS interfaces and the timeout bounds to that context, and the cluster node ids to the election machine, which does not model membership. It also stores the host's node interface; its three callbacks are the ghost `callbacks` log. None of these are parameters here.
- Multi-node safety (at most one leader per term) is left out, because no vote counting is modelled.
- Notification by both machines: the subscribe/notify code is not part of this model. Both machines are taken to notify their subscriber synchronously, with the new state. `RaiseRaftEvent` and `HandleRaftState` spell this out as calls.
- `Coordinator.ClusterNodeImpl.RaiseRaftEvent`: the election machine is taken to notify only when a handler switches it, that is on a role change or on Timedout in Candidate. The cells the transition table leaves alone have no side effect. The lifecycle machine is taken to notify after every event it handles, even one that leaves its state unchanged. Each lifecycle event is a switch into its target state, and a switch into the current state still runs, as the state-machine template shows. So a Follower that becomes Candidate calls `on_standby` again.
- `VariantMachine.ElectionReact`: the election roles' own handler classes are not part of this model. Their handlers are written from the transition table. A cell the table leaves unchanged returns no transition, except Timedout in Candidate, which re-enters Candidate as a new round.
- `Lifecycle.StateMachine.constructor`: the lifecycle machine's initial state is taken to be Inactive. Its source is not part of this model.
- Console and ROS logging are not modelled as output. Warnings and error lines are only counted in ghost variables. The forwarding done by the underlying ROS publisher is a ghost log of messages.
- The template's `std::variant`/`std::tuple` machinery is replaced by state indices, and each state object's `handle` by a function value. The state objects' own `entry`/`exit` bodies are not modelled; only the calls are recorded.
- The by-pointer overload's move of a `unique_ptr` is modelled as passing the message value.
- `Publisher.ClusterNodePublisher.constructor`: the interface starts as null. In the C++ class the pointer is never initialised before `set_node_interface` is called, so publishing before that call is undefined behaviour there.
- The node interface the publisher consults is the host's `ClusterNodeInterface`. Its `is_activated` is modelled by the coordinator's `IsActivated`.
- `LogEntry.DefaultData`: promises only an empty payload. The declarations of `index_` and `term_` (the data header) are not part of this model, so their default values are not stated. The body picks 0.
- Memory management (`shared_ptr`, `unique_ptr`, destructor order beyond the two unsubscribes), the ROS node naming tests and the demo executable are not modelled. Concurrency is not modelled either: dispatch is single-threaded.
