/**
 Commitment and delivery. A leader commits the greatest index of its own term
 that a majority acknowledges (section 5.4.2 of the Raft paper); every node
 delivers positions 1, 2, 3, ... once each. A follower's commit index is not
 monotone: it moves back exactly when an accepted AppendEntries leaves a log
 shorter than what the follower had committed while announcing a higher commit.
 */
module RaftCommit {
  import opened RaftProtocol
  import opened RaftCluster
  import opened RaftElection
  import opened RaftLogs

  // ---------------------------------------------------------------- counting replicas

  ghost function HoldersOf(n: Node, index: nat, k: nat): set<NodeId>
    requires k <= |n.peers|
  {
    set p | p in n.peers[..k] && p in n.matchIndex && n.matchIndex[p] >= index
  }

  ghost predicate Distinct(peers: seq<NodeId>) {
    forall i, j :: 0 <= i < j < |peers| ==> peers[i] != peers[j]
  }

  lemma {:induction false} RepeatsLoseMembers(peers: seq<NodeId>)
    ensures |set p | p in peers| <= |peers|
    ensures |set p | p in peers| == |peers| ==> Distinct(peers)
  {
    if |peers| > 0 {
      var rest, last := peers[..|peers| - 1], peers[|peers| - 1];
      RepeatsLoseMembers(rest);
      assert (set p | p in peers) == (set p | p in rest) + {last};
      if last in rest {
        assert (set p | p in peers) == (set p | p in rest);
      }
    }
  }

  /** A node's peers are listed once each. */
  lemma PeersDistinct(members: set<NodeId>, id: NodeId, peers: seq<NodeId>)
    requires PeersOf(members, id, peers) && id in members
    ensures Distinct(peers)
  {
    assert (set p | p in peers) == members - {id};
    RepeatsLoseMembers(peers);
  }

  /** The loop's count is the number of peers that acknowledged the index. */
  lemma {:induction false} ReplicasCount(n: Node, index: nat, k: nat)
    requires k <= |n.peers| && Distinct(n.peers)
    ensures Replicas(n, index, k) == |HoldersOf(n, index, k)|
  {
    if k > 0 {
      ReplicasCount(n, index, k - 1);
      HoldersNext(n, index, k - 1);
    }
  }

  lemma HoldersNext(n: Node, index: nat, k: nat)
    requires k < |n.peers| && Distinct(n.peers)
    ensures var p := n.peers[k];
            |HoldersOf(n, index, k + 1)|
            == |HoldersOf(n, index, k)| + if p in n.matchIndex && n.matchIndex[p] >= index then 1 else 0
  {
    var p := n.peers[k];
    assert n.peers[..k + 1] == n.peers[..k] + [p];
    assert p !in n.peers[..k];
    if p in n.matchIndex && n.matchIndex[p] >= index {
      assert HoldersOf(n, index, k + 1) == HoldersOf(n, index, k) + {p};
    } else {
      assert HoldersOf(n, index, k + 1) == HoldersOf(n, index, k);
    }
  }

  /** `index` may be committed by counting: own term, and this node plus its holders are a majority. */
  ghost predicate HeldByMajority(n: Node, index: nat) {
    && 1 <= index <= |n.log|
    && n.log[index - 1].term == n.term
    && IsMajority(n, 1 + |HoldersOf(n, index, |n.peers|)|)
  }

  /** The check ends at the greatest such index above the old commit, or leaves it unchanged. */
  lemma CheckCommitIsGreatest(n: Node)
    requires Distinct(n.peers)
    ensures var c := CheckCommit(n).commitIndex;
            && (c == n.commitIndex || (c > n.commitIndex && HeldByMajority(n, c)))
            && (forall j :: n.commitIndex < j && HeldByMajority(n, j) ==> j <= c)
  {
    var c := CheckCommit(n).commitIndex;
    forall j | 1 <= j <= |n.log| ensures Committable(n, j) <==> HeldByMajority(n, j) {
      ReplicasCount(n, j, |n.peers|);
    }
    assert forall j :: n.commitIndex < j && HeldByMajority(n, j) ==> Committable(n, j);
  }

  /** So it does at every node of every run. */
  lemma RunCommitIsGreatest(r: Run, k: nat, id: NodeId)
    requires r.Valid() && k <= |r.actions| && id in r.states[k].nodes
    ensures var n := r.states[k].nodes[id]; var c := CheckCommit(n).commitIndex;
            && (c == n.commitIndex || (c > n.commitIndex && HeldByMajority(n, c)))
            && (forall j :: n.commitIndex < j && HeldByMajority(n, j) ==> j <= c)
  {
    RunKeepsInv(r, k);
    var n := r.states[k].nodes[id];
    assert NodeOk(n, HistoryOf(r, k), r.states[k].nodes.Keys);
    PeersDistinct(r.states[k].nodes.Keys, n.id, n.peers);
    CheckCommitIsGreatest(n);
  }

  // ---------------------------------------------------------------- delivery

  /** Position k was the k-th delivered, and everything committed is delivered. */
  ghost predicate DeliveredInOrder(n: Node) {
    && n.lastApplied == |n.applied|
    && n.commitIndex <= n.lastApplied
    && (forall k :: 0 <= k < |n.applied| ==> n.applied[k].position == k + 1)
  }

  lemma CommitToDelivers(n: Node, k: nat)
    requires DeliveredInOrder(n) && k <= |n.log|
    ensures DeliveredInOrder(CommitTo(n, k))
    ensures n.applied <= CommitTo(n, k).applied
    ensures CommitTo(n, k).commitIndex == k
    ensures CommitTo(n, k).lastApplied == (if n.lastApplied >= k then n.lastApplied else k)
    ensures forall i :: |n.applied| <= i < |CommitTo(n, k).applied| ==> CommitTo(n, k).applied[i].entry == n.log[i]
  {
  }

  /** A message whose handling moves the commit index back. Every part can be read off before the call. */
  predicate Retreats(n: Node, m: Message) {
    && m.AppendEntries?
    && m.term >= n.term
    && Consistent(n.log, m.prevLogIndex, m.prevLogTerm)
    && m.leaderCommit > n.commitIndex
    && m.prevLogIndex + |m.entries| < n.commitIndex
    && (Conflicts(n.log, m.prevLogIndex, m.entries) || |n.log| < n.commitIndex)
  }

  lemma SpliceShorterThan(log: seq<Entry>, prev: nat, entries: seq<Entry>, c: nat)
    requires prev <= |log|
    ensures |Splice(log, prev, entries)| < c <==> prev + |entries| < c && (Conflicts(log, prev, entries) || |log| < c)
  {
    SpliceKeepsOrConflicts(log, prev, entries);
  }

  lemma AcceptDelivers(n: Node, m: Message)
    requires DeliveredInOrder(n) && m.AppendEntries? && m.term >= n.term
    requires Consistent(n.log, m.prevLogIndex, m.prevLogTerm)
    ensures var n' := AcceptEntries(n, m);
            && DeliveredInOrder(n') && n.applied <= n'.applied
            && (n'.commitIndex < n.commitIndex <==> Retreats(n, m))
            && (n.commitIndex == n.lastApplied ==> (n'.commitIndex == n'.lastApplied <==> !Retreats(n, m)))
  {
    SpliceShorterThan(n.log, m.prevLogIndex, m.entries, n.commitIndex);
    var log' := Splice(n.log, m.prevLogIndex, m.entries);
    var s := if m.entries != [] then Persist(n.(log := log')) else n;
    assert s.log == log';
    if m.leaderCommit > n.commitIndex {
      CommitToDelivers(s, Min(m.leaderCommit, |s.log|));
    }
  }

  lemma AppendEntriesDelivers(n: Node, m: Message)
    requires DeliveredInOrder(n) && m.AppendEntries?
    ensures var n' := HandleAppendEntries(n, m).node;
            && DeliveredInOrder(n') && n.applied <= n'.applied
            && (n'.commitIndex < n.commitIndex <==> Retreats(n, m))
            && (n.commitIndex == n.lastApplied ==> (n'.commitIndex == n'.lastApplied <==> !Retreats(n, m)))
  {
    if m.term >= n.term && Consistent(n.log, m.prevLogIndex, m.prevLogTerm) {
      AcceptDelivers(n.(role := Follower), m);
    }
  }

  lemma CheckCommitDelivers(n: Node)
    requires DeliveredInOrder(n)
    ensures DeliveredInOrder(CheckCommit(n)) && n.applied <= CheckCommit(n).applied
    ensures CheckCommit(n).commitIndex >= n.commitIndex
    ensures n.commitIndex == n.lastApplied ==> CheckCommit(n).commitIndex == CheckCommit(n).lastApplied
  {
    var t := CommitTarget(n, |n.log|);
    if t > n.commitIndex {
      CommitToDelivers(n, t);
    }
  }

  /**
   Every message: deliveries only grow, in order; the commit index moves back,
   and stops being the last position delivered, exactly on a retreat.
   */
  lemma MessageDelivers(n: Node, m: Message)
    requires DeliveredInOrder(n) && CanHandle(n, m)
    ensures var n' := HandleMessage(n, m).node;
            && DeliveredInOrder(n') && n.applied <= n'.applied
            && (n'.commitIndex < n.commitIndex <==> Retreats(n, m))
            && (n.commitIndex == n.lastApplied ==> (n'.commitIndex == n'.lastApplied <==> !Retreats(n, m)))
  {
    var o := ObserveTerm(n, m.term);
    match m
    case AppendEntries(_, _, _, _, _, _) => AppendEntriesDelivers(o, m);
    case AppendResponse(_, _, _, _) => AppendResponseDelivers(o, m);
    case _ =>
  }

  lemma AppendResponseDelivers(n: Node, m: Message)
    requires DeliveredInOrder(n) && m.AppendResponse? && (n.role == Leader && !m.success ==> m.sender in n.nextIndex)
    ensures var n' := HandleAppendResponse(n, m);
            && DeliveredInOrder(n') && n.applied <= n'.applied && n.commitIndex <= n'.commitIndex
            && (n.commitIndex == n.lastApplied ==> n'.commitIndex == n'.lastApplied)
  {
    if n.role == Leader && m.success {
      CheckCommitDelivers(Acknowledge(n, m.sender, m.matchIndex));
    }
  }

  // ---------------------------------------------------------------- every run

  /** A step that ends an incarnation of `id`. */
  predicate Kills(a: Action, id: NodeId) {
    Actor(a) == id && (a.Crash? || a.CrashReceiving?)
  }

  /** A step at which `id` handles a retreating message. */
  predicate RetreatStep(c: Cluster, a: Action, id: NodeId) {
    a.Receive? && a.packet.dst == id && id in c.nodes && Retreats(c.nodes[id], a.packet.msg)
  }

  lemma NextDelivers(c: Cluster, a: Action, c': Cluster, id: NodeId)
    requires Next(c, a, c') && id in c.nodes && DeliveredInOrder(c.nodes[id])
    ensures id in c'.nodes && DeliveredInOrder(c'.nodes[id])
    ensures !Kills(a, id) ==> c.nodes[id].applied <= c'.nodes[id].applied
    ensures !Kills(a, id) ==> (c'.nodes[id].commitIndex < c.nodes[id].commitIndex <==> RetreatStep(c, a, id))
    ensures !Kills(a, id) && c.nodes[id].commitIndex == c.nodes[id].lastApplied ==>
              (c'.nodes[id].commitIndex == c'.nodes[id].lastApplied <==> !RetreatStep(c, a, id))
  {
    if a.Receive? && a.packet.dst == id {
      MessageDelivers(c.nodes[id], a.packet.msg);
    }
  }

  lemma {:induction false} RunDelivers(r: Run, k: nat, id: NodeId)
    requires r.Valid() && k <= |r.actions| && id in r.states[0].nodes
    ensures id in r.states[k].nodes && DeliveredInOrder(r.states[k].nodes[id])
  {
    if k == 0 {
      assert r.states[0].nodes[id] == Fresh(id, r.states[0].nodes[id].peers);
    } else {
      RunDelivers(r, k - 1, id);
      StepAt(r, k - 1);
      NextDelivers(r.states[k - 1], r.actions[k - 1], r.states[k], id);
    }
  }

  /** Within one incarnation, what has been delivered stays delivered and each position comes once, in order. */
  lemma {:induction false} DeliveredOnceInOrder(r: Run, i: nat, j: nat, id: NodeId)
    requires r.Valid() && i <= j <= |r.actions| && id in r.states[0].nodes
    requires forall k: nat :: i <= k < j ==> !Kills(r.actions[k], id)
    ensures id in r.states[i].nodes && id in r.states[j].nodes
    ensures r.states[i].nodes[id].applied <= r.states[j].nodes[id].applied
    ensures DeliveredInOrder(r.states[j].nodes[id])
    decreases j - i
  {
    RunDelivers(r, i, id);
    RunDelivers(r, j, id);
    if i < j {
      DeliveredOnceInOrder(r, i, j - 1, id);
      StepAt(r, j - 1);
      NextDelivers(r.states[j - 1], r.actions[j - 1], r.states[j], id);
    }
  }

  /** A stretch of a run within one incarnation, starting where all that is delivered is committed. */
  ghost predicate InOneLife(r: Run, i: nat, j: nat, id: NodeId) {
    && r.Valid() && i <= j <= |r.actions| && id in r.states[0].nodes
    && (forall k: nat :: i <= k < j ==> !Kills(r.actions[k], id))
    && id in r.states[i].nodes
    && r.states[i].nodes[id].commitIndex == r.states[i].nodes[id].lastApplied
  }

  ghost predicate RetreatAt(r: Run, k: nat, id: NodeId)
    requires r.Valid() && k < |r.actions|
  {
    RetreatStep(r.states[k], r.actions[k], id)
  }

  /** Step `k` does not move the commit index back and leaves it at the last position delivered. */
  ghost predicate CommitHeldAt(r: Run, k: nat, id: NodeId)
    requires r.Valid() && k < |r.actions|
  {
    && id in r.states[k].nodes && id in r.states[k + 1].nodes
    && r.states[k].nodes[id].commitIndex <= r.states[k + 1].nodes[id].commitIndex
    && r.states[k + 1].nodes[id].commitIndex == r.states[k + 1].nodes[id].lastApplied
  }

  lemma RetreatLosesCommit(r: Run, k: nat, id: NodeId)
    requires r.Valid() && k < |r.actions| && id in r.states[0].nodes
    requires !Kills(r.actions[k], id) && RetreatAt(r, k, id)
    ensures !CommitHeldAt(r, k, id)
  {
    RunDelivers(r, k, id);
    StepAt(r, k);
    NextDelivers(r.states[k], r.actions[k], r.states[k + 1], id);
  }

  lemma NoRetreatHoldsCommit(r: Run, k: nat, id: NodeId)
    requires r.Valid() && k < |r.actions| && id in r.states[k].nodes && DeliveredInOrder(r.states[k].nodes[id])
    requires !Kills(r.actions[k], id) && !RetreatAt(r, k, id)
    requires r.states[k].nodes[id].commitIndex == r.states[k].nodes[id].lastApplied
    ensures CommitHeldAt(r, k, id)
  {
    StepAt(r, k);
    NextDelivers(r.states[k], r.actions[k], r.states[k + 1], id);
  }

  /** Without a retreat the commit index never moves back and equals the last position delivered. */
  lemma {:induction false} CommitKeptWithoutRetreat(r: Run, i: nat, j: nat, id: NodeId)
    requires InOneLife(r, i, j, id)
    requires forall k: nat :: i <= k < j ==> !RetreatAt(r, k, id)
    ensures id in r.states[j].nodes
    ensures r.states[i].nodes[id].commitIndex <= r.states[j].nodes[id].commitIndex
    ensures r.states[j].nodes[id].commitIndex == r.states[j].nodes[id].lastApplied
    decreases j - i
  {
    if i < j {
      CommitKeptWithoutRetreat(r, i, j - 1, id);
      RunDelivers(r, j - 1, id);
      NoRetreatHoldsCommit(r, j - 1, id);
    }
  }

  /** It does both at every step of the stretch if and only if no step of it is a retreat. */
  lemma CommitMonotoneExactly(r: Run, i: nat, j: nat, id: NodeId)
    requires InOneLife(r, i, j, id)
    ensures (forall k: nat :: i <= k < j ==> !RetreatAt(r, k, id)) <==>
            (forall k: nat :: i <= k < j ==> CommitHeldAt(r, k, id))
  {
    forall k: nat | i <= k < j && RetreatAt(r, k, id) ensures !CommitHeldAt(r, k, id) {
      RetreatLosesCommit(r, k, id);
    }
    if forall k: nat :: i <= k < j ==> !RetreatAt(r, k, id) {
      forall k: nat | i <= k < j ensures CommitHeldAt(r, k, id) {
        CommitKeptWithoutRetreat(r, i, k, id);
        RunDelivers(r, k, id);
        NoRetreatHoldsCommit(r, k, id);
      }
    }
  }

  // ---------------------------------------------------------------- what a follower delivers

  /** Step `k` delivers this AppendEntries, and the receiver accepts it. */
  ghost predicate AcceptedAt(r: Run, k: nat, id: NodeId, m: Message)
    requires r.Valid() && k < |r.actions|
  {
    && id in r.states[k].nodes && r.actions[k] == Receive(Packet(id, m)) && m.AppendEntries?
    && m.term >= r.states[k].nodes[id].term
    && Consistent(r.states[k].nodes[id].log, m.prevLogIndex, m.prevLogTerm)
  }

  /** An accepted message is answered with the length of the log it leaves. */
  lemma AcceptedAnswer(n: Node, m: Message)
    requires CanHandle(n, m) && m.AppendEntries?
    requires m.term >= n.term && Consistent(n.log, m.prevLogIndex, m.prevLogTerm)
    ensures var o := HandleMessage(n, m);
            && o.out == [Packet(m.sender, AppendResponse(m.term, n.id, true, |o.node.log|))]
            && o.node.id == n.id && o.node.term == m.term
            && o.node.log == Splice(n.log, m.prevLogIndex, m.entries)
  {
    var f := ObserveTerm(n, m.term).(role := Follower);
    AcceptShape(f, m);
    assert HandleMessage(n, m) == AckAppend(AcceptEntries(f, m), m.sender, true);
  }

  lemma AcceptShape(f: Node, m: Message)
    requires m.AppendEntries? && Consistent(f.log, m.prevLogIndex, m.prevLogTerm)
    ensures var x := AcceptEntries(f, m);
            x.id == f.id && x.term == f.term && x.log == Splice(f.log, m.prevLogIndex, m.entries)
  {
  }

  lemma AcceptedStep(c: Cluster, id: NodeId, m: Message, c': Cluster)
    requires Next(c, Receive(Packet(id, m)), c') && c.nodes[id].id == id && m.AppendEntries?
    requires m.term >= c.nodes[id].term && Consistent(c.nodes[id].log, m.prevLogIndex, m.prevLogTerm)
    ensures Packet(id, m) in c.net && id in c'.nodes
    ensures Packet(m.sender, AppendResponse(m.term, id, true, |c'.nodes[id].log|)) in c'.net
  {
    AcceptedAnswer(c.nodes[id], m);
  }

  lemma SenderWon(c: Cluster, h: History, id: NodeId, m: Message)
    requires Inv(c, h) && Packet(id, m) in c.net && m.AppendEntries?
    ensures m.term in h.written
  {
    assert PacketOk(Packet(id, m), h, c.nodes.Keys);
  }

  lemma AcceptedAtStep(r: Run, k: nat, id: NodeId, m: Message)
    requires r.Valid() && k < |r.actions| && AcceptedAt(r, k, id, m)
    ensures id in r.states[k + 1].nodes && m.term in HistoryOf(r, k + 1).written
    ensures Packet(m.sender, AppendResponse(m.term, id, true, |r.states[k + 1].nodes[id].log|)) in r.states[k + 1].net
  {
    var c, h := r.states[k], HistoryOf(r, k);
    RunKeepsInv(r, k);
    StepAt(r, k);
    AcceptedStep(c, id, m, r.states[k + 1]);
    SenderWon(c, h, id, m);
    HistoryGrows(r, k, k + 1);
  }

  /** What an accepted message with a higher commit makes its receiver deliver. */
  lemma AcceptedDeliveries(n: Node, m: Message)
    requires CanHandle(n, m) && m.AppendEntries? && DeliveredInOrder(n)
    requires m.term >= n.term && Consistent(n.log, m.prevLogIndex, m.prevLogTerm) && m.leaderCommit > n.commitIndex
    ensures var x := HandleMessage(n, m).node;
            && x.commitIndex == Min(m.leaderCommit, |x.log|)
            && (n.lastApplied < x.commitIndex ==>
                  x.applied == n.applied + Deliveries(x.log, n.lastApplied, x.commitIndex))
  {
    AcceptedAnswer(n, m);
    var f := ObserveTerm(n, m.term).(role := Follower);
    AcceptReaches(f, m);
    assert HandleMessage(n, m).node == AcceptEntries(f, m);
  }

  lemma AcceptReaches(f: Node, m: Message)
    requires m.AppendEntries? && DeliveredInOrder(f)
    requires Consistent(f.log, m.prevLogIndex, m.prevLogTerm) && m.leaderCommit > f.commitIndex
    ensures var x := AcceptEntries(f, m);
            && x.commitIndex == Min(m.leaderCommit, |x.log|)
            && (f.lastApplied < x.commitIndex ==>
                  x.applied == f.applied + Deliveries(x.log, f.lastApplied, x.commitIndex))
  {
  }

  lemma SameDeliveriesExactly(h: History, log: seq<Entry>, w: seq<Entry>, i: nat, j: nat)
    requires LogOk(h, log) && LogOk(h, w) && i < j <= |log| && j <= |w|
    ensures Deliveries(log, i, j) == Deliveries(w, i, j) <==> log[j - 1].term == w[j - 1].term
  {
    if log[j - 1].term == w[j - 1].term {
      SameTermSamePrefix(h, log, w, j - 1);
      forall k | i <= k < j ensures log[k] == w[k] {
        assert log[..j][k] == w[..j][k];
      }
    } else {
      assert Deliveries(log, i, j)[j - 1 - i] != Deliveries(w, i, j)[j - 1 - i];
    }
  }

  /**
   In runs of addressed proposals, what a follower newly delivers when it accepts
   a message is its leader's exactly when, at the new commit index, the leader's
   log has an entry of the same term as its own. The code does not compare them.
   */
  lemma DeliversLeadersExactly(r: Run, k: nat, id: NodeId, m: Message)
    requires r.Valid() && AllAddressed(r) && k < |r.actions| && AcceptedAt(r, k, id, m)
    requires m.leaderCommit > r.states[k].nodes[id].commitIndex
    requires r.states[k].nodes[id].lastApplied < Min(m.leaderCommit,
               |Splice(r.states[k].nodes[id].log, m.prevLogIndex, m.entries)|)
    ensures id in r.states[k + 1].nodes && m.term in HistoryOf(r, k + 1).written
    ensures var n, x, w := r.states[k].nodes[id], r.states[k + 1].nodes[id], HistoryOf(r, k + 1).written[m.term];
            && n.applied <= x.applied && n.lastApplied == |n.applied|
            && x.log == Splice(n.log, m.prevLogIndex, m.entries) && x.commitIndex == Min(m.leaderCommit, |x.log|)
            && (x.commitIndex <= |w| && x.applied[|n.applied|..] == Deliveries(w, n.lastApplied, x.commitIndex) <==>
                x.commitIndex <= |w| && w[x.commitIndex - 1].term == x.log[x.commitIndex - 1].term)
  {
    AcceptedAtStep(r, k, id, m);
    AcceptedNode(r, k, id, m);
    RunKeepsLogs(r, k + 1);
    var n, x, w := r.states[k].nodes[id], r.states[k + 1].nodes[id], HistoryOf(r, k + 1).written[m.term];
    if x.commitIndex <= |w| {
      SameDeliveriesExactly(HistoryOf(r, k + 1), x.log, w, n.lastApplied, x.commitIndex);
    }
  }

  lemma AcceptedNode(r: Run, k: nat, id: NodeId, m: Message)
    requires r.Valid() && k < |r.actions| && AcceptedAt(r, k, id, m)
    requires m.leaderCommit > r.states[k].nodes[id].commitIndex
    ensures id in r.states[k + 1].nodes
    ensures var n, x := r.states[k].nodes[id], r.states[k + 1].nodes[id];
            && n.lastApplied == |n.applied| && x.log == Splice(n.log, m.prevLogIndex, m.entries)
            && x.commitIndex == Min(m.leaderCommit, |x.log|)
            && (n.lastApplied < x.commitIndex ==>
                  x.applied == n.applied + Deliveries(x.log, n.lastApplied, x.commitIndex))
  {
    RunKeepsInv(r, k);
    RunDelivers(r, k, id);
    StepAt(r, k);
    AcceptedAnswer(r.states[k].nodes[id], m);
    AcceptedDeliveries(r.states[k].nodes[id], m);
  }

  lemma TrueAck(h: History, log: seq<Entry>, w: seq<Entry>)
    requires LogOk(h, log) && LogOk(h, w)
    ensures log <= w <==> |log| == 0 || (|log| <= |w| && w[|log| - 1].term == log[|log| - 1].term)
  {
    if 0 < |log| <= |w| && w[|log| - 1].term == log[|log| - 1].term {
      SameTermSamePrefix(h, log, w, |log| - 1);
      assert log[..|log|] == log;
    }
  }

  /**
   A follower acknowledges its whole log. In runs of addressed proposals the
   acknowledgement is true, the follower holding the leader's entries up to the
   index it names, exactly when the leader's log reaches that index with an entry
   of the same term. The leader counts the replica without that comparison.
   */
  lemma AckIsTrueExactly(r: Run, k: nat, id: NodeId, m: Message)
    requires r.Valid() && AllAddressed(r) && k < |r.actions| && AcceptedAt(r, k, id, m)
    ensures id in r.states[k + 1].nodes && m.term in HistoryOf(r, k + 1).written
    ensures var log, w := r.states[k + 1].nodes[id].log, HistoryOf(r, k + 1).written[m.term];
            && Packet(m.sender, AppendResponse(m.term, id, true, |log|)) in r.states[k + 1].net
            && (log <= w <==> |log| == 0 || (|log| <= |w| && w[|log| - 1].term == log[|log| - 1].term))
  {
    AcceptedAtStep(r, k, id, m);
    RunKeepsLogs(r, k + 1);
    TrueAck(HistoryOf(r, k + 1), r.states[k + 1].nodes[id].log, HistoryOf(r, k + 1).written[m.term]);
  }
}
