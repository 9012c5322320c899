/**
 The node as the object it is in the program: fields changed in place, loops
 over peers and entries. Every method is proved to do to the fields exactly what
 the handler function of RaftProtocol does to the node value, and to hand the
 transport exactly the same packets.
 */
module RaftNode {
  import opened Wrappers
  import opened RaftProtocol

  // ---------------------------------------------------------------- the splice loop

  /** One turn of the loop over the entries of a message. */
  function SpliceOne(s: seq<Entry>, at: nat, e: Entry): seq<Entry> {
    if at < |s| then (if s[at].term != e.term then s[..at] + [e] else s) else s + [e]
  }

  lemma FirstConflictIs(log: seq<Entry>, prev: nat, entries: seq<Entry>, k: nat)
    requires k < |entries| && prev + k < |log| && log[prev + k].term != entries[k].term
    requires AgreesFor(log, prev, entries, k)
    ensures Conflicts(log, prev, entries) && FirstConflict(log, prev, entries) == k
  {
    var f := FirstConflict(log, prev, entries);
    assert !(f < k) && !(k < f);
  }

  lemma AgreesForPrefix(log: seq<Entry>, prev: nat, entries: seq<Entry>, i: nat, k: nat)
    requires k <= i <= |entries|
    ensures AgreesFor(log, prev, entries[..i], k) <==> AgreesFor(log, prev, entries, k)
  {
    assert forall j :: 0 <= j < k ==> entries[..i][j] == entries[j];
  }

  lemma SpliceGrowsAfterCut(log: seq<Entry>, prev: nat, entries: seq<Entry>, i: nat)
    requires prev <= |log| && i < |entries| && Conflicts(log, prev, entries[..i])
    ensures Splice(log, prev, entries[..i + 1]) == Splice(log, prev, entries[..i]) + [entries[i]]
    ensures |Splice(log, prev, entries[..i])| == prev + i
  {
    var a, b := entries[..i], entries[..i + 1];
    var k := FirstConflict(log, prev, a);
    AgreesForPrefix(log, prev, entries, i, k);
    AgreesForPrefix(log, prev, entries, i + 1, k);
    FirstConflictIs(log, prev, b, k);
    assert b[k..] == a[k..] + [entries[i]];
  }

  lemma SpliceGrowsToCut(log: seq<Entry>, prev: nat, entries: seq<Entry>, i: nat)
    requires prev <= |log| && i < |entries| && !Conflicts(log, prev, entries[..i])
    requires prev + i < |log| && log[prev + i].term != entries[i].term
    ensures Splice(log, prev, entries[..i]) == log
    ensures Splice(log, prev, entries[..i + 1]) == log[..prev + i] + [entries[i]]
  {
    AgreesForPrefix(log, prev, entries, i, i);
    AgreesForPrefix(log, prev, entries, i + 1, i);
    FirstConflictIs(log, prev, entries[..i + 1], i);
    assert entries[..i + 1][i..] == [entries[i]];
  }

  lemma SpliceGrowsOver(log: seq<Entry>, prev: nat, entries: seq<Entry>, i: nat)
    requires prev <= |log| && i < |entries| && !Conflicts(log, prev, entries[..i])
    requires prev + i < |log| ==> log[prev + i].term == entries[i].term
    ensures prev + i <= |Splice(log, prev, entries[..i])|
    ensures prev + i < |log| ==> Splice(log, prev, entries[..i]) == log && Splice(log, prev, entries[..i + 1]) == log
    ensures prev + i >= |log| ==>
      && |Splice(log, prev, entries[..i])| == prev + i
      && Splice(log, prev, entries[..i + 1]) == Splice(log, prev, entries[..i]) + [entries[i]]
  {
    var a, b := entries[..i], entries[..i + 1];
    AgreesForPrefix(log, prev, entries, i, i);
    AgreesForPrefix(log, prev, entries, i + 1, i);
    assert AgreesFor(log, prev, b, i + 1);
    if prev + i >= |log| {
      assert b[|log| - prev..] == a[|log| - prev..] + [entries[i]];
    }
  }

  /** The loop's next turn extends the splice of the first `i` entries to the first `i + 1`. */
  lemma SpliceGrows(log: seq<Entry>, prev: nat, entries: seq<Entry>, i: nat)
    requires prev <= |log| && i < |entries|
    ensures prev + i <= |Splice(log, prev, entries[..i])|
    ensures Splice(log, prev, entries[..i + 1]) == SpliceOne(Splice(log, prev, entries[..i]), prev + i, entries[i])
  {
    if Conflicts(log, prev, entries[..i]) {
      SpliceGrowsAfterCut(log, prev, entries, i);
    } else if prev + i < |log| && log[prev + i].term != entries[i].term {
      SpliceGrowsToCut(log, prev, entries, i);
    } else {
      SpliceGrowsOver(log, prev, entries, i);
    }
  }

  // ---------------------------------------------------------------- the commit loop

  lemma CommitTwice(n: Node, j: nat, k: nat)
    requires j <= k <= |n.log|
    ensures CommitTo(CommitTo(n, j), k) == CommitTo(n, k)
  {
    if n.lastApplied < j && j < k {
      assert Deliveries(n.log, n.lastApplied, j) + Deliveries(n.log, j, k) == Deliveries(n.log, n.lastApplied, k);
    }
  }

  /** Where the commit loop stands after considering every index up to `k`. */
  function CommittedUpTo(n: Node, k: nat): Node
    requires k <= |n.log|
  {
    var t := CommitTarget(n, k);
    if t > n.commitIndex then CommitTo(n, t) else n
  }

  lemma CommitLoopTurn(n: Node, k: nat)
    requires n.commitIndex < k <= |n.log|
    ensures CommittedUpTo(n, k) ==
            if Committable(n, k) then CommitTo(CommittedUpTo(n, k - 1), k) else CommittedUpTo(n, k - 1)
  {
    var t := CommitTarget(n, k - 1);
    if Committable(n, k) && t > n.commitIndex {
      CommitTwice(n, t, k);
    }
  }

  // ---------------------------------------------------------------- the node

  lemma SetAllNext(table: map<NodeId, nat>, peers: seq<NodeId>, i: nat, v: nat)
    requires i < |peers|
    ensures SetAll(table, peers[..i + 1], v) == SetAll(table, peers[..i], v)[peers[i] := v]
  {
    assert peers[..i + 1][..i] == peers[..i];
  }

  class RaftNode {
    const id: NodeId
    const peers: seq<NodeId>

    // persistent state, and its durable image
    var term: nat
    var votedFor: Option<NodeId>
    var log: seq<Entry>
    var disk: Disk

    // volatile state
    var role: Role
    var commitIndex: nat
    var lastApplied: nat
    var nextIndex: map<NodeId, nat>
    var matchIndex: map<NodeId, nat>
    var votes: set<NodeId>

    // what has been handed to the commit callback and to the transport
    var applied: seq<Delivery>
    var outbox: seq<Packet>

    ghost function State(): Node
      reads this
    {
      Node(id, peers, term, votedFor, log, disk, role, commitIndex, lastApplied, nextIndex, matchIndex, votes, applied)
    }

    /** Start, or restart after a crash, from what the disk holds. */
    constructor (id: NodeId, peers: seq<NodeId>, disk: Disk)
      ensures State() == Boot(id, peers, disk) && outbox == []
    {
      this.id, this.peers := id, peers;
      term, votedFor, log, this.disk := disk.term, disk.votedFor, disk.log, disk;
      role, commitIndex, lastApplied := Follower, 0, 0;
      nextIndex, matchIndex, votes := map[], map[], {};
      applied, outbox := [], [];
    }

    method PersistState()
      modifies this`disk
      ensures State() == Persist(old(State()))
    {
      disk := Disk(term, votedFor, log);
    }

    method Send(peer: NodeId, m: Message)
      modifies this`outbox
      ensures outbox == old(outbox) + [Packet(peer, m)]
    {
      outbox := outbox + [Packet(peer, m)];
    }

    // -------------------------------------------------------------- elections

    method StartElection()
      modifies this
      ensures var o := RaftProtocol.StartElection(old(State())); State() == o.node && outbox == old(outbox) + o.out
    {
      role := Candidate;
      term := term + 1;
      votedFor := Some(id);
      votes := {id};
      PersistState();
      assert State() == Campaign(old(State()));
      if |votes| > (|peers| + 1) / 2 {
        BecomeLeader();
        return;
      }
      var request := RequestVote(term, id, LastIndex(log), LastTerm(log));
      ghost var all := Broadcast(peers, request);
      for i := 0 to |peers|
        invariant State() == Campaign(old(State()))
        invariant outbox == old(outbox) + all[..i]
      {
        Send(peers[i], request);
        assert all[..i + 1] == all[..i] + [all[i]];
      }
      assert all[..|peers|] == all;
    }

    method BecomeLeader()
      modifies this`role, this`nextIndex, this`matchIndex
      ensures State() == RaftProtocol.BecomeLeader(old(State()))
    {
      role := Leader;
      for i := 0 to |peers|
        invariant role == Leader
        invariant nextIndex == SetAll(old(nextIndex), peers[..i], |log| + 1)
        invariant matchIndex == SetAll(old(matchIndex), peers[..i], 0)
      {
        SetAllNext(old(nextIndex), peers, i, |log| + 1);
        SetAllNext(old(matchIndex), peers, i, 0);
        nextIndex := nextIndex[peers[i] := |log| + 1];
        matchIndex := matchIndex[peers[i] := 0];
      }
      assert peers[..|peers|] == peers;
      assert State() == old(State()).(role := Leader, nextIndex := nextIndex, matchIndex := matchIndex);
    }

    method HandleRequestVote(m: Message)
      requires m.RequestVote?
      modifies this
      ensures var o := RaftProtocol.HandleRequestVote(old(State()), m);
              State() == o.node && outbox == old(outbox) + o.out
    {
      var granted := false;
      if m.term >= term && (votedFor == None || votedFor == Some(m.sender)) {
        var lastIndex, lastTerm := LastIndex(log), LastTerm(log);
        if m.lastLogTerm > lastTerm || (m.lastLogTerm == lastTerm && m.lastLogIndex >= lastIndex) {
          granted := true;
          votedFor := Some(m.sender);
          PersistState();
        }
      }
      Send(m.sender, VoteResponse(term, id, granted));
    }

    method HandleVoteResponse(m: Message)
      requires m.VoteResponse?
      modifies this
      ensures State() == RaftProtocol.HandleVoteResponse(old(State()), m) && outbox == old(outbox)
    {
      if role != Candidate || m.term != term { return; }
      if !m.granted { return; }
      votes := votes + {m.sender};
      if |votes| > (|peers| + 1) / 2 {
        BecomeLeader();
      }
    }

    // -------------------------------------------------------------- replication

    method SendAppendEntries(peer: NodeId, entries: seq<Entry>)
      requires peer in nextIndex && nextIndex[peer] >= 1
      modifies this`outbox
      ensures outbox == old(outbox) + [Packet(peer, AppendMessage(State(), peer, entries))]
    {
      var prev := nextIndex[peer] - 1;
      var prevTerm := 0;
      if prev > 0 && prev <= |log| {
        prevTerm := log[prev - 1].term;
      }
      Send(peer, AppendEntries(term, id, prev, prevTerm, entries, commitIndex));
    }

    method SendToAll(entries: seq<Entry>)
      requires forall p :: p in peers ==> p in nextIndex && nextIndex[p] >= 1
      modifies this`outbox
      ensures outbox == old(outbox) + AppendToAll(State(), entries)
    {
      ghost var all := AppendToAll(State(), entries);
      for i := 0 to |peers|
        invariant outbox == old(outbox) + all[..i]
      {
        SendAppendEntries(peers[i], entries);
        assert all[..i + 1] == all[..i] + [all[i]];
      }
      assert all[..|peers|] == all;
    }

    method SendHeartbeats()
      requires LeaderReady(State())
      modifies this`outbox
      ensures var o := Heartbeat(old(State())); State() == o.node && outbox == old(outbox) + o.out
    {
      if role == Leader {
        SendToAll([]);
      }
    }

    method Propose(command: string, timestamp: real) returns (accepted: bool)
      requires LeaderReady(State())
      modifies this
      ensures var o := RaftProtocol.Propose(old(State()), command, timestamp);
              State() == o.node && outbox == old(outbox) + o.out
      ensures accepted == (old(role) == Leader)
    {
      if role != Leader { return false; }
      var entry := Entry(|log| + 1, term, command, timestamp);
      log := log + [entry];
      PersistState();
      SendToAll([entry]);
      return true;
    }

    method HandleAppendEntries(m: Message)
      requires m.AppendEntries?
      modifies this
      ensures var o := RaftProtocol.HandleAppendEntries(old(State()), m);
              State() == o.node && outbox == old(outbox) + o.out
    {
      var success := false;
      if m.term >= term {
        role := Follower;
        if m.prevLogIndex == 0 || (m.prevLogIndex <= |log| && log[m.prevLogIndex - 1].term == m.prevLogTerm) {
          success := true;
          AcceptEntries(m);
        }
      }
      Send(m.sender, AppendResponse(term, id, success, |log|));
    }

    // The part of HandleAppendEntries that follows a passed consistency check.
    method AcceptEntries(m: Message)
      requires m.AppendEntries? && Consistent(log, m.prevLogIndex, m.prevLogTerm)
      modifies this
      ensures State() == RaftProtocol.AcceptEntries(old(State()), m) && outbox == old(outbox)
    {
      SpliceIn(m.prevLogIndex, m.entries);
      if m.entries != [] {
        PersistState();
      }
      if m.leaderCommit > commitIndex {
        commitIndex := Min(m.leaderCommit, |log|);
        ApplyCommitted();
      }
    }

    method SpliceIn(prev: nat, entries: seq<Entry>)
      requires prev <= |log|
      modifies this`log
      ensures log == Splice(old(log), prev, entries)
    {
      ghost var log0 := log;
      assert entries[..0] == [];
      for i := 0 to |entries|
        invariant log == Splice(log0, prev, entries[..i])
      {
        SpliceGrows(log0, prev, entries, i);
        var logIndex := prev + i + 1;
        if logIndex <= |log| {
          if log[logIndex - 1].term != entries[i].term {
            log := log[..logIndex - 1];
            log := log + [entries[i]];
          }
        } else {
          log := log + [entries[i]];
        }
      }
      assert entries[..|entries|] == entries;
    }

    method HandleAppendResponse(m: Message)
      requires m.AppendResponse?
      requires role == Leader && !m.success ==> m.sender in nextIndex
      modifies this
      ensures State() == RaftProtocol.HandleAppendResponse(old(State()), m) && outbox == old(outbox)
    {
      if role != Leader { return; }
      if m.success {
        matchIndex := matchIndex[m.sender := m.matchIndex];
        nextIndex := nextIndex[m.sender := m.matchIndex + 1];
        CheckCommit();
      } else {
        var next := nextIndex[m.sender];
        nextIndex := nextIndex[m.sender := if next >= 2 then next - 1 else 1];
      }
    }

    // -------------------------------------------------------------- commitment

    method CheckCommit()
      modifies this`commitIndex, this`lastApplied, this`applied
      ensures State() == RaftProtocol.CheckCommit(old(State()))
    {
      ghost var n := State();
      var index := commitIndex + 1;
      while index <= |log|
        invariant n.commitIndex + 1 <= index
        invariant index <= |log| + 1 || index == n.commitIndex + 1
        invariant State() == CommittedUpTo(n, if index <= |log| + 1 then index - 1 else |log|)
      {
        CommitLoopTurn(n, index);
        if log[index - 1].term == term {
          var count := 1;
          for i := 0 to |peers|
            invariant count == 1 + Replicas(n, index, i)
          {
            if peers[i] in matchIndex && matchIndex[peers[i]] >= index {
              count := count + 1;
            }
          }
          if count > (|peers| + 1) / 2 {
            commitIndex := index;
            ApplyCommitted();
          }
        }
        index := index + 1;
      }
    }

    method ApplyCommitted()
      requires commitIndex <= |log|
      modifies this`lastApplied, this`applied
      ensures State() == RaftProtocol.ApplyCommitted(old(State()))
    {
      ghost var from := lastApplied;
      while lastApplied < commitIndex
        invariant from <= lastApplied
        invariant lastApplied <= commitIndex || lastApplied == from
        invariant lastApplied <= commitIndex ==>
          applied == old(applied) + Deliveries(log, from, lastApplied)
        invariant lastApplied > commitIndex ==> applied == old(applied)
      {
        lastApplied := lastApplied + 1;
        applied := applied + [Delivery(lastApplied, log[lastApplied - 1])];
        assert Deliveries(log, from, lastApplied) ==
               Deliveries(log, from, lastApplied - 1) + [Delivery(lastApplied, log[lastApplied - 1])];
      }
    }

    // -------------------------------------------------------------- dispatch

    method HandleMessage(m: Message)
      requires CanHandle(State(), m)
      modifies this
      ensures var o := RaftProtocol.HandleMessage(old(State()), m);
              State() == o.node && outbox == old(outbox) + o.out
    {
      if m.term > term {
        term := m.term;
        role := Follower;
        votedFor := None;
        PersistState();
      }
      match m
      case RequestVote(_, _, _, _) => HandleRequestVote(m);
      case VoteResponse(_, _, _) => HandleVoteResponse(m);
      case AppendEntries(_, _, _, _, _, _) => HandleAppendEntries(m);
      case AppendResponse(_, _, _, _) => HandleAppendResponse(m);
    }
  }
}
