/**
 Why Log Matching needs addressed proposals: after a run that has kept to them,
 a first proposal that is not addressed to a peer, and that the peer takes in,
 leads on to a state in which Log Matching fails.
 */
module RaftAddressing {
  import opened RaftProtocol
  import opened RaftCluster
  import opened RaftLogs
  import opened RaftCommit
  import opened RaftRuns

  /** Two logs agree in term at a position but not in what they hold up to it. */
  ghost predicate Mismatched(a: seq<Entry>, b: seq<Entry>, pos: nat) {
    pos < |a| && pos < |b| && a[pos].term == b[pos].term && a[..pos + 1] != b[..pos + 1]
  }

  ghost predicate Goes(r: Run, r': Run) {
    r.Valid() && r'.Valid() && r.states <= r'.states && r.actions <= r'.actions
  }

  /** What a leader's proposal says to one peer. */
  function Proposal(n: Node, peer: NodeId, command: string): Message
    requires n.role == Leader && LeaderReady(n) && peer in n.peers
  {
    var e := Entry(|n.log| + 1, n.term, command, 0.0);
    AppendMessage(Persist(n.(log := n.log + [e])), peer, [e])
  }

  /** The peer accepts it, and its entry comes to stand where the message says. */
  predicate TakesIn(m: Node, msg: Message) {
    && msg.AppendEntries? && |msg.entries| == 1 && m.term <= msg.term
    && Consistent(m.log, msg.prevLogIndex, msg.prevLogTerm)
    && (msg.prevLogIndex == |m.log| || m.log[msg.prevLogIndex].term != msg.entries[0].term)
  }

  lemma TakenIn(m: Node, msg: Message)
    requires TakesIn(m, msg) && CanHandle(m, msg)
    ensures var x := HandleMessage(m, msg).node;
            x.id == m.id && msg.prevLogIndex < |x.log| && x.log[msg.prevLogIndex] == msg.entries[0]
  {
    AcceptedAnswer(m, msg);
    var prev := msg.prevLogIndex;
    if prev < |m.log| {
      assert DisagreesFirst(m.log, prev, msg.entries, 0);
      SpliceCutsAt(m.log, prev, msg.entries, 0);
    } else {
      assert !Conflicts(m.log, prev, msg.entries);
    }
  }

  lemma ProposalSent(n: Node, peer: NodeId, command: string)
    requires n.role == Leader && LeaderReady(n) && peer in n.peers
    ensures Packet(peer, Proposal(n, peer, command)) in RaftProtocol.Propose(n, command, 0.0).out
  {
    var o := RaftProtocol.Propose(n, command, 0.0);
    var i :| 0 <= i < |n.peers| && n.peers[i] == peer;
    assert o.out[i] == Packet(peer, Proposal(n, peer, command));
  }

  /** A leader may propose until its log reaches any length; what it adds is numbered by its place. */
  lemma {:induction false} ProposeUntil(r: Run, n: Node, other: Node, length: nat) returns (r': Run, x: Node)
    requires Has(r, n) && Has(r, other) && n.id != other.id && n.role == Leader && LeaderReady(n)
    ensures Goes(r, r') && Has(r', x) && Has(r', other) && x.id == n.id
    ensures n.log <= x.log && length <= |x.log|
    ensures forall i :: |n.log| <= i < |x.log| ==> x.log[i].index == i + 1 && x.log[i].term == n.term
    decreases length - |n.log|
  {
    r', x := r, n;
    if |n.log| < length {
      var o := RaftProtocol.Propose(n, "", 0.0);
      var r1 := TakePropose(r, n, "", o);
      r', x := ProposeUntil(r1, o.node, other, length);
    }
  }

  lemma SendOut(r: Run, n: Node, m: Node, command: string) returns (r': Run)
    requires Has(r, n) && Has(r, m) && n.id != m.id && n.role == Leader && LeaderReady(n) && m.id in n.peers
    ensures Goes(r, r') && Has(r', RaftProtocol.Propose(n, command, 0.0).node) && Has(r', m)
    ensures Packet(m.id, Proposal(n, m.id, command)) in Last(r').net
  {
    ProposalSent(n, m.id, command);
    r' := TakePropose(r, n, command, RaftProtocol.Propose(n, command, 0.0));
  }

  lemma TakeInMessage(r: Run, n1: Node, m: Node, msg: Message) returns (r': Run, m1: Node)
    requires Has(r, n1) && Has(r, m) && n1.id != m.id && Packet(m.id, msg) in Last(r).net
    requires CanHandle(m, msg) && TakesIn(m, msg)
    ensures Goes(r, r') && Has(r', n1) && Has(r', m1) && m1.id == m.id
    ensures msg.prevLogIndex < |m1.log| && m1.log[msg.prevLogIndex] == msg.entries[0]
  {
    TakenIn(m, msg);
    m1 := HandleMessage(m, msg).node;
    r' := TakeReceive(r, m, msg, HandleMessage(m, msg));
  }

  /**
   A run of addressed proposals, a leader that believes a peer's log is not as long
   as its own, and a peer that would take the proposal in. If the position named is
   beyond the leader's log, or holds an entry of its own term there, the run can go
   on to logs that agree in term at that position and are different.
   */
  lemma UnaddressedBreaks(r: Run, n: Node, m: Node, command: string) returns (r': Run)
    requires r.Valid() && AllAddressed(r) && Has(r, n) && Has(r, m) && n.id != m.id
    requires n.role == Leader && LeaderReady(n) && m.id in n.peers && n.nextIndex[m.id] != |n.log| + 1
    requires CanHandle(m, Proposal(n, m.id, command)) && TakesIn(m, Proposal(n, m.id, command))
    requires var at := n.nextIndex[m.id] - 1; at < |n.log| ==> n.log[at].term == n.term
    ensures Goes(r, r') && n.id in Last(r').nodes && m.id in Last(r').nodes
    ensures Mismatched(Last(r').nodes[n.id].log, Last(r').nodes[m.id].log, n.nextIndex[m.id] - 1)
  {
    var at := n.nextIndex[m.id] - 1;
    var n1 := RaftProtocol.Propose(n, command, 0.0).node;
    var r0 := SendOut(r, n, m, command);
    var r1, m1 := TakeInMessage(r0, n1, m, Proposal(n, m.id, command));
    var x;
    r', x := ProposeUntil(r1, n1, m1, at + 1);
    LeaderEntryAt(r, n, command, n1.log, x.log, at);
    assert x.log[at] != m1.log[at];
    assert x.log[..at + 1][at] == x.log[at] && m1.log[..at + 1][at] == m1.log[at];
  }

  /** What stands at that position in the leader's log is of its term and numbered by its place. */
  lemma LeaderEntryAt(r: Run, n: Node, command: string, log: seq<Entry>, later: seq<Entry>, at: nat)
    requires r.Valid() && AllAddressed(r) && Has(r, n)
    requires log == n.log + [Entry(|n.log| + 1, n.term, command, 0.0)] && log <= later && at < |later|
    requires forall i :: |log| <= i < |later| ==> later[i].index == i + 1 && later[i].term == n.term
    requires at < |n.log| ==> n.log[at].term == n.term
    ensures later[at].index == at + 1 && later[at].term == n.term
  {
    IndexIsPosition(r, |r.actions|, n.id);
    assert at < |log| ==> later[at] == log[at];
  }
}
