/**
 A Raft node as a value, and every handler of the node as a function from the
 node before to the node after plus the packets it hands to the transport.

 The transport hook never suspends, so a handler runs as one atomic step.
 Reading the clock is a parameter (`timestamp`), timers are steps of the
 cluster (see RaftCluster), and a durable write replaces the whole disk image.
 */
module RaftProtocol {
  import opened Wrappers

  type NodeId = string

  datatype Role = Follower | Candidate | Leader

  datatype Entry = Entry(index: nat, term: nat, command: string, timestamp: real)

  datatype Message =
    | RequestVote(term: nat, sender: NodeId, lastLogIndex: nat, lastLogTerm: nat)
    | VoteResponse(term: nat, sender: NodeId, granted: bool)
    | AppendEntries(term: nat, sender: NodeId, prevLogIndex: nat, prevLogTerm: nat,
                    entries: seq<Entry>, leaderCommit: nat)
    | AppendResponse(term: nat, sender: NodeId, success: bool, matchIndex: nat)

  /** A message addressed to one peer. */
  datatype Packet = Packet(dst: NodeId, msg: Message)

  /** The durable image: what survives a crash. */
  datatype Disk = Disk(term: nat, votedFor: Option<NodeId>, log: seq<Entry>)

  /** One call of the commit callback: the log position (from 1) and the entry read there. */
  datatype Delivery = Delivery(position: nat, entry: Entry)

  datatype Node = Node(
    id: NodeId,
    peers: seq<NodeId>,
    // persistent state
    term: nat,
    votedFor: Option<NodeId>,
    log: seq<Entry>,
    disk: Disk,
    // volatile state
    role: Role,
    commitIndex: nat,
    lastApplied: nat,
    nextIndex: map<NodeId, nat>,
    matchIndex: map<NodeId, nat>,
    votes: set<NodeId>,
    applied: seq<Delivery>  // the callbacks made by this incarnation
  )

  /** What one handler leaves behind. */
  datatype Outcome = Outcome(node: Node, out: seq<Packet>)

  // ---------------------------------------------------------------- start and restart

  function Boot(id: NodeId, peers: seq<NodeId>, disk: Disk): Node {
    Node(id, peers, disk.term, disk.votedFor, disk.log, disk, Follower, 0, 0, map[], map[], {}, [])
  }

  function Fresh(id: NodeId, peers: seq<NodeId>): Node {
    Boot(id, peers, Disk(0, None, []))
  }

  /** A crash loses everything but the disk; the node comes back as a follower. */
  function Restart(n: Node): Node {
    Boot(n.id, n.peers, n.disk)
  }

  function Persist(n: Node): Node {
    n.(disk := Disk(n.term, n.votedFor, n.log))
  }

  // ---------------------------------------------------------------- elections

  /** A strict majority of the cluster, which is this node and its peers. */
  predicate IsMajority(n: Node, count: nat) {
    count > (|n.peers| + 1) / 2
  }

  function LastIndex(log: seq<Entry>): nat {
    if log == [] then 0 else log[|log| - 1].index
  }

  function LastTerm(log: seq<Entry>): nat {
    if log == [] then 0 else log[|log| - 1].term
  }

  function Broadcast(peers: seq<NodeId>, m: Message): seq<Packet> {
    seq(|peers|, i requires 0 <= i < |peers| => Packet(peers[i], m))
  }

  function Campaign(n: Node): Node {
    Persist(n.(role := Candidate, term := n.term + 1, votedFor := Some(n.id), votes := {n.id}))
  }

  function StartElection(n: Node): Outcome {
    var c := Campaign(n);
    if IsMajority(c, |c.votes|) then Outcome(BecomeLeader(c), [])
    else Outcome(c, Broadcast(c.peers, RequestVote(c.term, c.id, LastIndex(c.log), LastTerm(c.log))))
  }

  /** `table` with the entry of every listed peer set to `v`. */
  function SetAll(table: map<NodeId, nat>, peers: seq<NodeId>, v: nat): (r: map<NodeId, nat>)
    ensures forall p :: p in r <==> p in table || p in peers
    ensures forall p :: p in peers ==> r[p] == v
    ensures forall p :: p in table && p !in peers ==> r[p] == table[p]
  {
    if |peers| == 0 then table
    else SetAll(table, peers[..|peers| - 1], v)[peers[|peers| - 1] := v]
  }

  function BecomeLeader(n: Node): Node {
    n.(role := Leader,
       nextIndex := SetAll(n.nextIndex, n.peers, |n.log| + 1),
       matchIndex := SetAll(n.matchIndex, n.peers, 0))
  }

  predicate UpToDate(lastTerm: nat, lastIndex: nat, log: seq<Entry>) {
    lastTerm > LastTerm(log) || (lastTerm == LastTerm(log) && lastIndex >= LastIndex(log))
  }

  predicate GrantsVote(n: Node, m: Message)
    requires m.RequestVote?
  {
    && m.term >= n.term
    && (n.votedFor == None || n.votedFor == Some(m.sender))
    && UpToDate(m.lastLogTerm, m.lastLogIndex, n.log)
  }

  function HandleRequestVote(n: Node, m: Message): Outcome
    requires m.RequestVote?
  {
    var granted := GrantsVote(n, m);
    var n' := if granted then Persist(n.(votedFor := Some(m.sender))) else n;
    Outcome(n', [Packet(m.sender, VoteResponse(n'.term, n'.id, granted))])
  }

  function HandleVoteResponse(n: Node, m: Message): Node
    requires m.VoteResponse?
  {
    if n.role != Candidate || m.term != n.term || !m.granted then n
    else
      var c := n.(votes := n.votes + {m.sender});
      if IsMajority(c, |c.votes|) then BecomeLeader(c) else c
  }

  // ---------------------------------------------------------------- replication

  /** What a leader's tables must hold for its sends to be defined. */
  predicate LeaderReady(n: Node) {
    n.role == Leader ==>
      forall p :: p in n.peers ==> p in n.nextIndex && n.nextIndex[p] >= 1
  }

  function AppendMessage(n: Node, peer: NodeId, entries: seq<Entry>): Message
    requires peer in n.nextIndex && n.nextIndex[peer] >= 1
  {
    var prev := n.nextIndex[peer] - 1;
    var prevTerm := if 0 < prev <= |n.log| then n.log[prev - 1].term else 0;
    AppendEntries(n.term, n.id, prev, prevTerm, entries, n.commitIndex)
  }

  function AppendToAll(n: Node, entries: seq<Entry>): seq<Packet>
    requires forall p :: p in n.peers ==> p in n.nextIndex && n.nextIndex[p] >= 1
  {
    seq(|n.peers|, i requires 0 <= i < |n.peers| => Packet(n.peers[i], AppendMessage(n, n.peers[i], entries)))
  }

  /** One round of heartbeats: an empty AppendEntries to every peer. */
  function Heartbeat(n: Node): Outcome
    requires LeaderReady(n)
  {
    if n.role == Leader then Outcome(n, AppendToAll(n, [])) else Outcome(n, [])
  }

  function Propose(n: Node, command: string, timestamp: real): Outcome
    requires LeaderReady(n)
  {
    if n.role != Leader then Outcome(n, [])
    else
      var e := Entry(|n.log| + 1, n.term, command, timestamp);
      var n' := Persist(n.(log := n.log + [e]));
      Outcome(n', AppendToAll(n', [e]))
  }

  predicate Consistent(log: seq<Entry>, prev: nat, prevTerm: nat) {
    prev == 0 || (prev <= |log| && log[prev - 1].term == prevTerm)
  }

  /** The first `k` entries of the message agree in term with the log wherever both have one. */
  predicate AgreesFor(log: seq<Entry>, prev: nat, entries: seq<Entry>, k: nat)
    requires k <= |entries|
  {
    forall j :: 0 <= j < k && prev + j < |log| ==> log[prev + j].term == entries[j].term
  }

  /** Some entry of the message meets a log entry of another term. */
  predicate Conflicts(log: seq<Entry>, prev: nat, entries: seq<Entry>) {
    !AgreesFor(log, prev, entries, |entries|)
  }

  /** The position, relative to `prev`, of the first such meeting. */
  function FirstConflict(log: seq<Entry>, prev: nat, entries: seq<Entry>): (k: nat)
    requires Conflicts(log, prev, entries)
    ensures k < |entries| && prev + k < |log|
    ensures log[prev + k].term != entries[k].term
    ensures AgreesFor(log, prev, entries, k)
  {
    FirstConflictFrom(log, prev, entries, 0)
  }

  function FirstConflictFrom(log: seq<Entry>, prev: nat, entries: seq<Entry>, i: nat): (k: nat)
    requires Conflicts(log, prev, entries)
    requires i <= |entries| && AgreesFor(log, prev, entries, i)
    ensures k < |entries| && prev + k < |log|
    ensures log[prev + k].term != entries[k].term
    ensures AgreesFor(log, prev, entries, k)
    decreases |entries| - i
  {
    if prev + i < |log| && log[prev + i].term != entries[i].term then i
    else FirstConflictFrom(log, prev, entries, i + 1)
  }

  /**
   What a follower's log becomes: kept when it agrees with and covers the
   message, extended when it agrees but is shorter, and cut at the first
   disagreement otherwise.
   */
  function Splice(log: seq<Entry>, prev: nat, entries: seq<Entry>): seq<Entry>
    requires prev <= |log|
  {
    if Conflicts(log, prev, entries) then
      var k := FirstConflict(log, prev, entries);
      log[..prev + k] + entries[k..]
    else if prev + |entries| <= |log| then log
    else log + entries[|log| - prev..]
  }

  function Deliveries(log: seq<Entry>, from: nat, to: nat): seq<Delivery>
    requires from <= to <= |log|
  {
    seq(to - from, i requires 0 <= i < to - from => Delivery(from + i + 1, log[from + i]))
  }

  function ApplyCommitted(n: Node): Node
    requires n.commitIndex <= |n.log|
  {
    if n.lastApplied >= n.commitIndex then n
    else n.(lastApplied := n.commitIndex,
            applied := n.applied + Deliveries(n.log, n.lastApplied, n.commitIndex))
  }

  function CommitTo(n: Node, k: nat): Node
    requires k <= |n.log|
  {
    ApplyCommitted(n.(commitIndex := k))
  }

  function Min(a: nat, b: nat): nat { if a <= b then a else b }

  /** Splice the entries in, write them down, then commit as far as announced and owned. */
  function AcceptEntries(n: Node, m: Message): Node
    requires m.AppendEntries? && Consistent(n.log, m.prevLogIndex, m.prevLogTerm)
  {
    var log' := Splice(n.log, m.prevLogIndex, m.entries);
    var s := if m.entries != [] then Persist(n.(log := log')) else n;
    if m.leaderCommit > s.commitIndex then CommitTo(s, Min(m.leaderCommit, |s.log|)) else s
  }

  function HandleAppendEntries(n: Node, m: Message): Outcome
    requires m.AppendEntries?
  {
    if m.term < n.term then AckAppend(n, m.sender, false)
    else
      var f := n.(role := Follower);
      if Consistent(n.log, m.prevLogIndex, m.prevLogTerm) then AckAppend(AcceptEntries(f, m), m.sender, true)
      else AckAppend(f, m.sender, false)
  }

  function AckAppend(n: Node, leader: NodeId, success: bool): Outcome {
    Outcome(n, [Packet(leader, AppendResponse(n.term, n.id, success, |n.log|))])
  }

  // ---------------------------------------------------------------- commitment

  /** Peers whose acknowledged index reaches `index`, counted over the first `k` peers. */
  function Replicas(n: Node, index: nat, k: nat): nat
    requires k <= |n.peers|
  {
    if k == 0 then 0
    else
      var p := n.peers[k - 1];
      Replicas(n, index, k - 1) + if p in n.matchIndex && n.matchIndex[p] >= index then 1 else 0
  }

  /** The leader may count replicas for this index: current term, and a majority holds it. */
  predicate Committable(n: Node, index: nat) {
    && 1 <= index <= |n.log|
    && n.log[index - 1].term == n.term
    && IsMajority(n, 1 + Replicas(n, index, |n.peers|))
  }

  /** The greatest committable index in (commitIndex, k], or commitIndex if there is none. */
  function CommitTarget(n: Node, k: nat): (t: nat)
    requires k <= |n.log|
    ensures t == n.commitIndex || (n.commitIndex < t <= k && Committable(n, t))
    ensures forall j :: n.commitIndex < j <= k && Committable(n, j) ==> j <= t
  {
    if k <= n.commitIndex then n.commitIndex
    else if Committable(n, k) then k
    else CommitTarget(n, k - 1)
  }

  function CheckCommit(n: Node): Node {
    var t := CommitTarget(n, |n.log|);
    if t > n.commitIndex then CommitTo(n, t) else n
  }

  function Acknowledge(n: Node, peer: NodeId, index: nat): Node {
    n.(matchIndex := n.matchIndex[peer := index], nextIndex := n.nextIndex[peer := index + 1])
  }

  function HandleAppendResponse(n: Node, m: Message): Node
    requires m.AppendResponse?
    requires n.role == Leader && !m.success ==> m.sender in n.nextIndex
  {
    if n.role != Leader then n
    else if m.success then CheckCommit(Acknowledge(n, m.sender, m.matchIndex))
    else
      var next := n.nextIndex[m.sender];
      n.(nextIndex := n.nextIndex[m.sender := if next >= 2 then next - 1 else 1])
  }

  // ---------------------------------------------------------------- dispatch

  /** Seeing a higher term: adopt it, step down, forget the vote, and write that to disk. */
  function ObserveTerm(n: Node, term: nat): Node {
    if term > n.term then Persist(n.(term := term, role := Follower, votedFor := None)) else n
  }

  /** The lookups the handler makes are defined: its tables are complete and the sender is a peer. */
  predicate CanHandle(n: Node, m: Message) {
    LeaderReady(n) && m.sender in n.peers
  }

  function HandleMessage(n: Node, m: Message): Outcome
    requires CanHandle(n, m)
  {
    var n' := ObserveTerm(n, m.term);
    match m
    case RequestVote(_, _, _, _) => HandleRequestVote(n', m)
    case VoteResponse(_, _, _) => Outcome(HandleVoteResponse(n', m), [])
    case AppendEntries(_, _, _, _, _, _) => HandleAppendEntries(n', m)
    case AppendResponse(_, _, _, _) => Outcome(HandleAppendResponse(n', m), [])
  }
}
