/**
 * The publisher wrapper that gates outbound messages on the node's activation.
 * The node interface it consults is a (nullable) reference to the node
 * coordinator, whose `IsActivated` answers the question; the messages handed
 * on to the underlying transport publisher are recorded in a ghost log, and
 * so is the number of warnings written for dropped messages.
 */
module Publisher {

  import Coordinator
  import Election
  import Lifecycle

  /** A message goes out when no node interface is set, or when the node
      reports itself activated. */
  predicate Admits(interfaceSet: bool, activated: bool): (r: bool)
    ensures !interfaceSet ==> r
    ensures interfaceSet ==> (r <==> activated)
  {
    !interfaceSet || activated
  }

  class ClusterNodePublisher<Msg> {
    var nodeInterface: Coordinator.ClusterNodeImpl?
    /** messages forwarded to the transport, in order */
    ghost var forwarded: seq<Msg>
    ghost var warnings: nat

    /** The node interface starts unset. */
    constructor ()
      ensures nodeInterface == null && forwarded == [] && warnings == 0
    {
      nodeInterface := null;
      forwarded := [];
      warnings := 0;
    }

    /** Whether a publish now would be forwarded. */
    ghost predicate Open(): (r: bool)
      reads this, if nodeInterface == null then {} else {nodeInterface.lifecycleFsm}
      ensures nodeInterface == null ==> r
      ensures nodeInterface != null ==> (r <==> nodeInterface.lifecycleFsm.current == Lifecycle.Active)
    {
      Admits(nodeInterface != null, nodeInterface != null && nodeInterface.Activated())
    }

    /** Publish a message the caller hands over. */
    method PublishOwned(msg: Msg)
      modifies this`forwarded, this`warnings
      ensures forwarded == if old(Open()) then old(forwarded) + [msg] else old(forwarded)
      ensures warnings == if old(Open()) then old(warnings) else old(warnings) + 1
    {
      if nodeInterface != null {
        var activated := nodeInterface.IsActivated();
        if !activated {
          warnings := warnings + 1;
          return;
        }
      }
      forwarded := forwarded + [msg];
    }

    /** Publish a message by reference: the same gate as `PublishOwned`. */
    method Publish(msg: Msg)
      modifies this`forwarded, this`warnings
      ensures forwarded == if old(Open()) then old(forwarded) + [msg] else old(forwarded)
      ensures warnings == if old(Open()) then old(warnings) else old(warnings) + 1
    {
      if nodeInterface != null {
        var activated := nodeInterface.IsActivated();
        if !activated {
          warnings := warnings + 1;
          return;
        }
      }
      forwarded := forwarded + [msg];
    }

    /** Replace the stored node interface (null clears it). */
    method SetNodeInterface(iface: Coordinator.ClusterNodeImpl?)
      modifies this`nodeInterface
      ensures nodeInterface == iface
    {
      nodeInterface := iface;
    }
  }

  /** Publish `msg` through a publisher wired to `node`: it goes out exactly
      when the node's election role is Leader. Returns what the node's
      `IsActivated` answered. */
  method PublishThroughNode<Msg>(node: Coordinator.ClusterNodeImpl, pub: ClusterNodePublisher<Msg>, msg: Msg)
    returns (activated: bool)
    requires node.Valid() && pub.nodeInterface == node
    modifies pub`forwarded, pub`warnings
    ensures activated <==> node.raftFsm.current == Election.Leader
    ensures pub.forwarded == if activated then old(pub.forwarded) + [msg] else old(pub.forwarded)
    ensures pub.warnings == if activated then old(pub.warnings) else old(pub.warnings) + 1
  {
    activated := node.IsActivated();
    pub.Publish(msg);
  }

  /** End to end: a publisher wired to a node forwards only while the node is
      Leader. Returns what the node's `IsActivated` answered at each publish
      made through it. */
  method FailoverScenario<Msg>(m1: Msg, m2: Msg, m3: Msg, m4: Msg)
    returns (activated: seq<bool>, ghost sent: seq<Msg>, ghost dropped: nat)
    ensures activated == [false, true, false]
    ensures sent == [m1, m3] && dropped == 2
  {
    var node := new Coordinator.ClusterNodeImpl();
    var pub := new ClusterNodePublisher<Msg>();
    // no interface yet: always forwarded
    pub.Publish(m1);
    pub.SetNodeInterface(node);
    // Follower: dropped
    var on := PublishThroughNode(node, pub, m2);
    activated := [on];
    node.RaiseRaftEvent(Election.Timedout);
    node.RaiseRaftEvent(Election.Elected);
    // Leader: forwarded
    on := PublishThroughNode(node, pub, m3);
    activated := activated + [on];
    node.RaiseRaftEvent(Election.LeaderDiscovered);
    // demoted to Follower: dropped
    on := PublishThroughNode(node, pub, m4);
    activated := activated + [on];
    sent := pub.forwarded;
    dropped := pub.warnings;
  }
}
