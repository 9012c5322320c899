/**
 Building runs: from a run that ends with certain nodes in certain states to one
 that goes on by a step or a few.
 */
module RaftRuns {
  import opened Wrappers
  import opened RaftProtocol
  import opened RaftCluster
  import opened RaftElection

  // ---------------------------------------------------------------- building a run

  ghost function Last(r: Run): Cluster
    requires r.Valid()
  {
    r.states[|r.actions|]
  }

  /** The run ends with this node in this state. */
  ghost predicate Has(r: Run, n: Node) {
    r.Valid() && n.id in Last(r).nodes && Last(r).nodes[n.id] == n
  }

  /** What one or more steps of the named nodes keep. */
  ghost predicate Continues(r: Run, r': Run, movers: set<NodeId>)
    requires r.Valid()
  {
    && r'.Valid() && r.states <= r'.states && r.actions <= r'.actions
    && (forall n :: Has(r, n) && n.id !in movers ==> Has(r', n))
    && Last(r).net <= Last(r').net
  }

  lemma Extended(r: Run, a: Action, c': Cluster)
    requires r.Valid() && Next(Last(r), a, c')
    ensures Run(r.states + [c'], r.actions + [a]).Valid()
    ensures AllAddressed(r) && Addressed(Last(r), a) ==> AllAddressed(Run(r.states + [c'], r.actions + [a]))
    ensures AllEnd(r) && EndsAt(Last(r), a) ==> AllEnd(Run(r.states + [c'], r.actions + [a]))
    ensures AllOwnTerm(r) && OwnTermAt(Last(r), a) ==> AllOwnTerm(Run(r.states + [c'], r.actions + [a]))
  {
    var r' := Run(r.states + [c'], r.actions + [a]);
    forall i: nat | i < |r'.actions| ensures r'.Step(i) {
      if i < |r.actions| {
        assert r.Step(i);
      }
    }
    if AllEnd(r) && EndsAt(Last(r), a) {
      forall i | 0 <= i < |r'.actions| ensures EndsAt(r'.states[i], r'.actions[i]) {
        if i < |r.actions| {
          assert EndsAt(r.states[i], r.actions[i]);
        }
      }
    }
    if AllOwnTerm(r) && OwnTermAt(Last(r), a) {
      forall i | 0 <= i < |r'.actions| ensures OwnTermAt(r'.states[i], r'.actions[i]) {
        if i < |r.actions| {
          assert OwnTermAt(r.states[i], r.actions[i]);
        }
      }
    }
    if AllAddressed(r) && Addressed(Last(r), a) {
      forall i | 0 <= i < |r'.actions| ensures Addressed(r'.states[i], r'.actions[i]) {
        if i < |r.actions| {
          assert Addressed(r.states[i], r.actions[i]);
        }
      }
    }
  }

  /** Append one step, given what its handler leaves behind. */
  lemma Take(r: Run, a: Action, o: Outcome) returns (r': Run)
    requires r.Valid() && Enabled(Last(r), a) && Defined(Last(r), a) && Perform(Last(r), a) == o
    requires o.node.id == Actor(a)
    ensures Continues(r, r', {Actor(a)}) && r'.actions == r.actions + [a] && Has(r', o.node)
    ensures forall p :: p in o.out ==> p in Last(r').net
    ensures AllAddressed(r) && Addressed(Last(r), a) ==> AllAddressed(r')
    ensures AllEnd(r) && EndsAt(Last(r), a) ==> AllEnd(r')
    ensures AllOwnTerm(r) && OwnTermAt(Last(r), a) ==> AllOwnTerm(r')
  {
    var c' := Install(Last(r), Actor(a), o);
    r' := Run(r.states + [c'], r.actions + [a]);
    Extended(r, a, c');
  }

  lemma TakeTimeout(r: Run, n: Node, o: Outcome) returns (r': Run)
    requires Has(r, n)
    requires n.role != Leader && o == StartElection(n)
    ensures Continues(r, r', {n.id}) && r'.actions == r.actions + [Timeout(n.id)] && Has(r', o.node)
    ensures forall p :: p in o.out ==> p in Last(r').net
    ensures AllAddressed(r) ==> AllAddressed(r')
    ensures AllEnd(r) ==> AllEnd(r')
    ensures AllOwnTerm(r) ==> AllOwnTerm(r')
  {
    r' := Take(r, Timeout(n.id), o);
  }

  lemma ReceiveIs(c: Cluster, n: Node, m: Message)
    requires n.id in c.nodes && c.nodes[n.id] == n && Packet(n.id, m) in c.net && CanHandle(n, m)
    ensures var a := Receive(Packet(n.id, m));
            && Enabled(c, a) && Defined(c, a) && Addressed(c, a) && Perform(c, a) == HandleMessage(n, m)
            && (EndsAt(c, a) <==> EndsWithMessage(n, m))
    ensures HandleMessage(n, m).node.id == n.id
  {
    HandlesAsItself(n, m);
  }

  lemma HandlesAsItself(n: Node, m: Message)
    requires CanHandle(n, m)
    ensures HandleMessage(n, m).node.id == n.id
  {
  }

  lemma TakeReceive(r: Run, n: Node, m: Message, o: Outcome) returns (r': Run)
    requires Has(r, n)
    requires Packet(n.id, m) in Last(r).net && CanHandle(n, m) && o == HandleMessage(n, m)
    ensures Continues(r, r', {n.id}) && r'.actions == r.actions + [Receive(Packet(n.id, m))] && Has(r', o.node)
    ensures forall p :: p in o.out ==> p in Last(r').net
    ensures AllAddressed(r) ==> AllAddressed(r')
    ensures AllEnd(r) && EndsWithMessage(n, m) ==> AllEnd(r')
    ensures AllOwnTerm(r) && AnswersOwnTerm(n, m) ==> AllOwnTerm(r')
  {
    ReceiveIs(Last(r), n, m);
    r' := Take(r, Receive(Packet(n.id, m)), o);
  }

  lemma TakePropose(r: Run, n: Node, command: string, o: Outcome) returns (r': Run)
    requires Has(r, n)
    requires LeaderReady(n) && o == RaftProtocol.Propose(n, command, 0.0)
    ensures Continues(r, r', {n.id}) && r'.actions == r.actions + [Action.Propose(n.id, command, 0.0)] && Has(r', o.node)
    ensures forall p :: p in o.out ==> p in Last(r').net
    ensures AllAddressed(r) && (forall p :: p in n.peers ==> p in n.nextIndex && n.nextIndex[p] == |n.log| + 1)
            ==> AllAddressed(r')
    ensures AllEnd(r) ==> AllEnd(r')
    ensures AllOwnTerm(r) ==> AllOwnTerm(r')
  {
    r' := Take(r, Action.Propose(n.id, command, 0.0), o);
  }

  lemma TakeBeat(r: Run, n: Node, o: Outcome) returns (r': Run)
    requires Has(r, n)
    requires LeaderReady(n) && o == Heartbeat(n)
    ensures Continues(r, r', {n.id}) && r'.actions == r.actions + [Beat(n.id)] && Has(r', o.node)
    ensures forall p :: p in o.out ==> p in Last(r').net
    ensures AllAddressed(r) ==> AllAddressed(r')
  {
    r' := Take(r, Beat(n.id), o);
  }

  /** A leader beats, and `v` hears it. */
  lemma TakeHeardBeat(r: Run, n: Node, v: Node, m: Message, v1: Node) returns (r': Run)
    requires Has(r, n) && Has(r, v) && n.id != v.id && v1.id == v.id
    requires n.role == Leader && LeaderReady(n) && Packet(v.id, m) in Heartbeat(n).out
    requires CanHandle(v, m) && HandleMessage(v, m).node == v1
    ensures r'.Valid() && Has(r', n) && Has(r', v1)
  {
    var r1 := TakeBeat(r, n, Heartbeat(n));
    r' := TakeReceive(r1, v, m, HandleMessage(v, m));
  }

  /** The last step of a run, before and after. */
  lemma TakeLast(r: Run, n: Node, m: Message, n1: Node) returns (r': Run, k: nat)
    requires Has(r, n) && n1.id == n.id && Packet(n.id, m) in Last(r).net
    requires CanHandle(n, m) && HandleMessage(n, m).node == n1
    ensures r'.Valid() && |r'.actions| == k + 1
    ensures n.id in r'.states[k].nodes && r'.states[k].nodes[n.id] == n
    ensures n.id in r'.states[k + 1].nodes && r'.states[k + 1].nodes[n.id] == n1
  {
    r' := TakeReceive(r, n, m, HandleMessage(n, m));
    k := |r.actions|;
    assert r'.states[k] == r.states[k] == Last(r);
    assert r'.states[k + 1] == Last(r');
  }

  /** `v` handles a message and `n` hears its answer. */
  lemma TakeExchange(r: Run, n: Node, v: Node, m: Message, v1: Node, answer: Message, n1: Node) returns (r': Run)
    requires Has(r, n) && Has(r, v) && n.id != v.id && v1.id == v.id
    requires Packet(v.id, m) in Last(r).net
    requires CanHandle(v, m) && HandleMessage(v, m) == Outcome(v1, [Packet(n.id, answer)])
    requires CanHandle(n, answer) && HandleMessage(n, answer).node == n1
    ensures Continues(r, r', {n.id, v.id}) && Has(r', n1) && Has(r', v1)
    ensures AllAddressed(r) ==> AllAddressed(r')
  {
    var r1 := TakeReceive(r, v, m, HandleMessage(v, m));
    assert Packet(n.id, answer) in HandleMessage(v, m).out;
    r' := TakeReceive(r1, n, answer, HandleMessage(n, answer));
  }

  /** Candidate `n` asks, `v` grants, and the answer makes `n` leader. */
  lemma TakeElection(r: Run, n: Node, v: Node, ask: Message, n1: Node, v1: Node, n2: Node) returns (r': Run)
    requires Has(r, n)
    requires Has(r, v) && n.id != v.id && n1.id == n.id && v1.id == v.id
    requires n.role != Leader && StartElection(n).node == n1 && Packet(v.id, ask) in StartElection(n).out
    requires CanHandle(v, ask) && HandleMessage(v, ask) == Outcome(v1, [Packet(n.id, VoteResponse(ask.term, v.id, true))])
    requires CanHandle(n1, VoteResponse(ask.term, v.id, true))
    requires HandleMessage(n1, VoteResponse(ask.term, v.id, true)).node == n2
    ensures Continues(r, r', {n.id, v.id}) && Has(r', n2) && Has(r', v1)
    ensures AllAddressed(r) ==> AllAddressed(r')
  {
    var r1 := TakeTimeout(r, n, StartElection(n));
    r' := TakeExchange(r1, n1, v, ask, v1, VoteResponse(ask.term, v.id, true), n2);
  }

  /** Leader `n` proposes, follower `v` takes the message and acknowledges, and the leader hears it. */
  lemma TakeReplication(
    r: Run, n: Node, v: Node, command: string, m: Message, n1: Node, v1: Node, ack: Message, n2: Node)
    returns (r': Run)
    requires Has(r, n)
    requires Has(r, v) && n.id != v.id && n1.id == n.id && v1.id == v.id
    requires LeaderReady(n) && RaftProtocol.Propose(n, command, 0.0).node == n1
    requires Packet(v.id, m) in RaftProtocol.Propose(n, command, 0.0).out
    requires CanHandle(v, m) && HandleMessage(v, m) == Outcome(v1, [Packet(n.id, ack)])
    requires CanHandle(n1, ack) && HandleMessage(n1, ack).node == n2
    ensures Continues(r, r', {n.id, v.id}) && Has(r', n2) && Has(r', v1)
    ensures AllAddressed(r) && (forall p :: p in n.peers ==> p in n.nextIndex && n.nextIndex[p] == |n.log| + 1)
            ==> AllAddressed(r')
  {
    var r1 := TakePropose(r, n, command, RaftProtocol.Propose(n, command, 0.0));
    r' := TakeExchange(r1, n1, v, m, v1, ack, n2);
  }

  /** The same, for a third node that takes no part. */
  lemma TakeReplicationBeside(
    r: Run, n: Node, v: Node, other: Node, command: string, m: Message, n1: Node, v1: Node, ack: Message, n2: Node)
    returns (r': Run)
    requires Has(r, n) && Has(r, other) && other.id !in {n.id, v.id}
    requires Has(r, v) && n.id != v.id && n1.id == n.id && v1.id == v.id
    requires LeaderReady(n) && RaftProtocol.Propose(n, command, 0.0).node == n1
    requires Packet(v.id, m) in RaftProtocol.Propose(n, command, 0.0).out
    requires CanHandle(v, m) && HandleMessage(v, m) == Outcome(v1, [Packet(n.id, ack)])
    requires CanHandle(n1, ack) && HandleMessage(n1, ack).node == n2
    ensures r'.Valid() && Has(r', n2) && Has(r', v1) && Has(r', other)
    ensures AllAddressed(r) && (forall p :: p in n.peers ==> p in n.nextIndex && n.nextIndex[p] == |n.log| + 1)
            ==> AllAddressed(r')
  {
    r' := TakeReplication(r, n, v, command, m, n1, v1, ack, n2);
  }

  // ---------------------------------------------------------------- going on from any run

  ghost predicate Continuation(r: Run, r': Run) {
    r.Valid() && r'.Valid() && AllAddressed(r') && r.states <= r'.states && r.actions <= r'.actions
  }

  /** Any step but a proposal may follow. */
  lemma Go(r: Run, a: Action) returns (r': Run)
    requires r.Valid() && AllAddressed(r) && Enabled(Last(r), a) && !a.Propose?
    ensures Continuation(r, r') && Defined(Last(r), a)
    ensures AllEnd(r) && EndsAt(Last(r), a) ==> AllEnd(r')
    ensures Last(r') == Install(Last(r), Actor(a), Perform(Last(r), a))
    ensures Last(r').nodes.Keys == Last(r).nodes.Keys
  {
    HandlersNeverFail(r, |r.actions|, a);
    var c' := Install(Last(r), Actor(a), Perform(Last(r), a));
    r' := Run(r.states + [c'], r.actions + [a]);
    Extended(r, a, c');
  }

  lemma LastKnown(r: Run, id: NodeId)
    requires r.Valid() && id in Last(r).nodes
    ensures Last(r).nodes[id].id == id && PeersOf(Last(r).nodes.Keys, id, Last(r).nodes[id].peers)
    ensures Last(r).nodes[id].disk.log == Last(r).nodes[id].log && Last(r).nodes[id].disk.term == Last(r).nodes[id].term
  {
    RunKeepsInv(r, |r.actions|);
    assert NodeOk(Last(r).nodes[id], HistoryOf(r, |r.actions|), Last(r).nodes.Keys);
  }

  ghost predicate OthersSame(c: Cluster, c': Cluster, movers: set<NodeId>) {
    && c'.nodes.Keys == c.nodes.Keys && c.net <= c'.net
    && forall v :: v in c.nodes && v !in movers ==> c'.nodes[v] == c.nodes[v]
  }

  function Request(n: Node): Message {
    RequestVote(n.term, n.id, LastIndex(n.log), LastTerm(n.log))
  }

  /** A node that is asking every peer for its vote. */
  ghost predicate Asks(c: Cluster, b: NodeId, u: nat, log: seq<Entry>) {
    && b in c.nodes && c.nodes[b].role == Candidate && c.nodes[b].term == u && c.nodes[b].log == log
    && c.nodes[b].id == b
    && forall p :: p in c.nodes[b].peers ==> Packet(p, Request(c.nodes[b])) in c.net
  }

  lemma TakeCandidacy(r: Run, b: NodeId) returns (r': Run)
    requires r.Valid() && AllAddressed(r) && b in Last(r).nodes
    requires Last(r).nodes[b].role != Leader && |Last(r).nodes[b].peers| > 0
    ensures Continuation(r, r') && OthersSame(Last(r), Last(r'), {b}) && (AllEnd(r) ==> AllEnd(r'))
    ensures Asks(Last(r'), b, Last(r).nodes[b].term + 1, Last(r).nodes[b].log)
    ensures Last(r').nodes[b] == Campaign(Last(r).nodes[b])
  {
    LastKnown(r, b);
    r' := Go(r, Timeout(b));
    var n := Last(r).nodes[b];
    assert StartElection(n) == Outcome(Campaign(n), Broadcast(n.peers, Request(Campaign(n))));
    forall p | p in n.peers ensures Packet(p, Request(Campaign(n))) in Last(r').net {
      var i :| 0 <= i < |n.peers| && n.peers[i] == p;
      assert Broadcast(n.peers, Request(Campaign(n)))[i] == Packet(p, Request(Campaign(n)));
    }
  }

  /** A node of an earlier term with no better log grants the vote. */
  lemma Grants(n: Node, m: Message)
    requires CanHandle(n, m) && m.RequestVote? && n.term < m.term
    requires UpToDate(m.lastLogTerm, m.lastLogIndex, n.log)
    ensures HandleMessage(n, m) == Outcome(Persist(n.(term := m.term, role := Follower, votedFor := Some(m.sender))),
                                           [Packet(m.sender, VoteResponse(m.term, n.id, true))])
  {
  }

  /** A candidate with one more vote, which may be the last it needs. */
  function WithVote(n: Node, v: NodeId): Node {
    var c := n.(votes := n.votes + {v});
    if IsMajority(c, |c.votes|) then BecomeLeader(c) else c
  }

  lemma Counts(n: Node, m: Message)
    requires CanHandle(n, m) && m.VoteResponse? && n.role == Candidate && m.term == n.term && m.granted
    ensures HandleMessage(n, m) == Outcome(WithVote(n, m.sender), [])
  {
  }

  lemma TakeVote(r: Run, b: NodeId, v: NodeId, u: nat, log: seq<Entry>) returns (r': Run)
    requires r.Valid() && AllAddressed(r) && Asks(Last(r), b, u, log) && v in Last(r).nodes[b].peers
    requires v in Last(r).nodes && v != b && Last(r).nodes[v].term < u
    requires UpToDate(LastTerm(log), LastIndex(log), Last(r).nodes[v].log)
    ensures Continuation(r, r') && OthersSame(Last(r), Last(r'), {b, v}) && (AllEnd(r) ==> AllEnd(r'))
    ensures Last(r').nodes[b] == WithVote(Last(r).nodes[b], v)
    ensures Last(r').nodes[v] == Persist(Last(r).nodes[v].(term := u, role := Follower, votedFor := Some(b)))
  {
    LastKnown(r, v);
    var n := Last(r).nodes[b];
    var ask, yes := Request(n), VoteResponse(u, v, true);
    var r1 := Go(r, Receive(Packet(v, ask)));
    Grants(Last(r).nodes[v], ask);
    assert Packet(b, yes) in Last(r1).net && Last(r1).nodes[b] == n;
    r' := Go(r1, Receive(Packet(b, yes)));
    Counts(n, yes);
  }

  lemma TakeCrash(r: Run, b: NodeId) returns (r': Run)
    requires r.Valid() && AllAddressed(r) && b in Last(r).nodes
    ensures Continuation(r, r') && OthersSame(Last(r), Last(r'), {b}) && (AllEnd(r) ==> AllEnd(r'))
    ensures var n, x := Last(r).nodes[b], Last(r').nodes[b];
            && x.role == Follower && x.term == n.term && x.log == n.log && x.peers == n.peers && x.id == b
            && x.commitIndex == 0
  {
    LastKnown(r, b);
    r' := Go(r, Crash(b));
  }
}
