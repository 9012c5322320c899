/**
 The cluster: nodes, their disks, and the set of packets ever sent.

 Packets are never removed from the network and delivering one is always
 optional, so a run may lose, delay, reorder and duplicate them at will. Any
 node may crash and restart between handlers, and also inside the handling of a
 message, between the write that records a higher term and the rest.
 */
module RaftCluster {
  import opened RaftProtocol

  datatype Cluster = Cluster(nodes: map<NodeId, Node>, net: set<Packet>)

  datatype Action =
    | Timeout(id: NodeId)
    | Propose(id: NodeId, command: string, timestamp: real)
    | Beat(id: NodeId)
    | Receive(packet: Packet)
    | Crash(id: NodeId)
    | CrashReceiving(packet: Packet)

  /** The node an action runs on. */
  function Actor(a: Action): NodeId {
    match a
    case Receive(p) => p.dst
    case CrashReceiving(p) => p.dst
    case _ => a.id
  }

  /** `peers` is everyone else, listed once. */
  ghost predicate PeersOf(members: set<NodeId>, id: NodeId, peers: seq<NodeId>) {
    && (forall p :: p in peers <==> p in members && p != id)
    && |peers| + 1 == |members|
  }

  ghost predicate Initial(c: Cluster) {
    && c.net == {}
    && (forall id :: id in c.nodes ==>
          && c.nodes[id] == Fresh(id, c.nodes[id].peers)
          && PeersOf(c.nodes.Keys, id, c.nodes[id].peers))
  }

  /** What the scheduler must respect. A leader's election timer does nothing. */
  predicate Enabled(c: Cluster, a: Action) {
    && Actor(a) in c.nodes
    && match a
       case Timeout(id) => c.nodes[id].role != Leader
       case Receive(p) => p in c.net
       case CrashReceiving(p) => p in c.net
       case _ => true
  }

  /** Every dictionary lookup made by the action's handler succeeds. */
  predicate Defined(c: Cluster, a: Action)
    requires Actor(a) in c.nodes
  {
    match a
    case Propose(id, _, _) => LeaderReady(c.nodes[id])
    case Beat(id) => LeaderReady(c.nodes[id])
    case Receive(p) => CanHandle(c.nodes[p.dst], p.msg)
    case _ => true
  }

  function Perform(c: Cluster, a: Action): Outcome
    requires Actor(a) in c.nodes && Defined(c, a)
  {
    match a
    case Timeout(id) => StartElection(c.nodes[id])
    case Propose(id, command, timestamp) => RaftProtocol.Propose(c.nodes[id], command, timestamp)
    case Beat(id) => Heartbeat(c.nodes[id])
    case Receive(p) => HandleMessage(c.nodes[p.dst], p.msg)
    case Crash(id) => Outcome(Restart(c.nodes[id]), [])
    case CrashReceiving(p) => Outcome(Restart(ObserveTerm(c.nodes[p.dst], p.msg.term)), [])
  }

  function Install(c: Cluster, id: NodeId, o: Outcome): Cluster {
    Cluster(c.nodes[id := o.node], c.net + set p | p in o.out)
  }

  predicate Next(c: Cluster, a: Action, c': Cluster) {
    Enabled(c, a) && Defined(c, a) && c' == Install(c, Actor(a), Perform(c, a))
  }

  /** A run: states and the actions between them. */
  datatype Run = Run(states: seq<Cluster>, actions: seq<Action>) {
    ghost predicate Valid() {
      && |states| == |actions| + 1
      && Initial(states[0])
      && (forall i: nat :: i < |actions| ==> Step(i))
    }

    predicate Step(i: nat)
      requires i < |actions| && |states| == |actions| + 1
    {
      Next(states[i], actions[i], states[i + 1])
    }
  }

  /** A proposal made while the leader believes every peer has exactly its log. */
  predicate Addressed(c: Cluster, a: Action) {
    a.Propose? && a.id in c.nodes && c.nodes[a.id].role == Leader ==>
      var n := c.nodes[a.id];
      forall p :: p in n.peers ==> p in n.nextIndex && n.nextIndex[p] == |n.log| + 1
  }

  /** Runs in which a leader proposes only while it believes every peer has exactly its log. */
  ghost predicate AllAddressed(r: Run) {
    |r.states| == |r.actions| + 1 &&
    forall i :: 0 <= i < |r.actions| ==> Addressed(r.states[i], r.actions[i])
  }

  /** An accepted message leaves a log that ends where the message does. */
  predicate EndsWithMessage(n: Node, m: Message) {
    && m.AppendEntries? && m.term >= n.term
    && Consistent(n.log, m.prevLogIndex, m.prevLogTerm)
    ==> Conflicts(n.log, m.prevLogIndex, m.entries) || |n.log| <= m.prevLogIndex + |m.entries|
  }

  /** A counted answer is of the leader's own term. */
  predicate AnswersOwnTerm(n: Node, m: Message) {
    m.AppendResponse? && m.success && n.role == Leader ==> m.term >= n.term
  }

  predicate EndsAt(c: Cluster, a: Action) {
    a.Receive? && Actor(a) in c.nodes ==> EndsWithMessage(c.nodes[Actor(a)], a.packet.msg)
  }

  predicate OwnTermAt(c: Cluster, a: Action) {
    a.Receive? && Actor(a) in c.nodes ==> AnswersOwnTerm(c.nodes[Actor(a)], a.packet.msg)
  }

  ghost predicate AllEnd(r: Run) {
    |r.states| == |r.actions| + 1 &&
    forall i :: 0 <= i < |r.actions| ==> EndsAt(r.states[i], r.actions[i])
  }

  ghost predicate AllOwnTerm(r: Run) {
    |r.states| == |r.actions| + 1 &&
    forall i :: 0 <= i < |r.actions| ==> OwnTermAt(r.states[i], r.actions[i])
  }
}
