/**
 A run of five nodes in which every proposal is addressed and every accepted
 message leaves a log that ends where the message does, so every acknowledgement
 is true when it is sent. Leader Completeness fails all the same: a leader counts
 an answer its follower gave in an earlier term, about entries both have since
 parted from.
 */
module RaftStaleAnswer {
  import opened RaftProtocol
  import opened RaftCluster
  import opened RaftElection
  import opened RaftRuns

  ghost predicate Orderly(r: Run) {
    r.Valid() && AllAddressed(r) && AllEnd(r)
  }

  // ---------------------------------------------------------------- moves

  /** A leader that believes every peer has exactly its log, and has counted nothing. */
  predicate NewLeader(n: Node) {
    n.role == Leader && forall p :: p in n.peers ==>
      && p in n.nextIndex && n.nextIndex[p] == |n.log| + 1
      && p in n.matchIndex && n.matchIndex[p] == 0
  }

  /** What an election leaves of a voter and of the winner. */
  ghost predicate VotesFor(n: Node, x: Node, t: nat) {
    x.term == t && x.log == n.log && x.commitIndex == n.commitIndex && x.role == Follower
  }

  ghost predicate Wins(n: Node, x: Node) {
    x.term == n.term + 1 && x.log == n.log && x.commitIndex == n.commitIndex && NewLeader(x)
  }

  /** `n` times out, asks everyone, and the votes of `v` and `w` make it leader. */
  lemma Elect(r: Run, n: NodeId, v: NodeId, w: NodeId) returns (r': Run)
    requires Orderly(r) && |Last(r).nodes.Keys| == 5
    requires n in Last(r).nodes && v in Last(r).nodes && w in Last(r).nodes && n != v && n != w && v != w
    requires Last(r).nodes[n].role != Leader
    requires Last(r).nodes[v].term <= Last(r).nodes[n].term && Last(r).nodes[w].term <= Last(r).nodes[n].term
    requires var log := Last(r).nodes[n].log;
             && UpToDate(LastTerm(log), LastIndex(log), Last(r).nodes[v].log)
             && UpToDate(LastTerm(log), LastIndex(log), Last(r).nodes[w].log)
    ensures Orderly(r') && OthersSame(Last(r), Last(r'), {n, v, w})
    ensures Wins(Last(r).nodes[n], Last(r').nodes[n])
    ensures VotesFor(Last(r).nodes[v], Last(r').nodes[v], Last(r).nodes[n].term + 1)
    ensures VotesFor(Last(r).nodes[w], Last(r').nodes[w], Last(r).nodes[n].term + 1)
    ensures var m := RequestVote(Last(r).nodes[n].term + 1, n, LastIndex(Last(r).nodes[n].log), LastTerm(Last(r).nodes[n].log));
            forall p :: p in Last(r).nodes && p != n ==> Packet(p, m) in Last(r').net
  {
    LastKnown(r, n);
    var log, u := Last(r).nodes[n].log, Last(r).nodes[n].term + 1;
    var r1 := TakeCandidacy(r, n);
    var r2 := TakeVote(r1, n, v, u, log);
    assert |{n} + {v}| == 2;
    assert Last(r2).nodes[n] == Last(r1).nodes[n].(votes := {n} + {v});
    r' := TakeVote(r2, n, w, u, log);
    assert |{n} + {v} + {w}| == 3;
  }

  /** What a leader in step with its peers sends to each of them. */
  lemma Proposes(r: Run, n: NodeId, command: string) returns (r': Run)
    requires Orderly(r) && n in Last(r).nodes && NewLeader(Last(r).nodes[n])
    ensures Orderly(r') && OthersSame(Last(r), Last(r'), {n})
    ensures var x := Last(r).nodes[n];
            var e := Entry(|x.log| + 1, x.term, command, 0.0);
            && Last(r').nodes[n] == Persist(x.(log := x.log + [e]))
            && forall p :: p in Last(r).nodes && p != n ==>
                 Packet(p, AppendEntries(x.term, n, |x.log|, LastTerm(x.log), [e], x.commitIndex)) in Last(r').net
  {
    LastKnown(r, n);
    var x, a := Last(r).nodes[n], Action.Propose(n, command, 0.0);
    HandlersNeverFail(r, |r.actions|, a);
    var o := Perform(Last(r), a);
    var c' := Install(Last(r), n, o);
    r' := Run(r.states + [c'], r.actions + [a]);
    Extended(r, a, c');
    var e := Entry(|x.log| + 1, x.term, command, 0.0);
    forall p | p in x.peers ensures Packet(p, AppendEntries(x.term, n, |x.log|, LastTerm(x.log), [e], x.commitIndex)) in o.out {
      var i :| 0 <= i < |x.peers| && x.peers[i] == p;
      assert o.out[i] == Packet(p, AppendEntries(x.term, n, |x.log|, LastTerm(x.log), [e], x.commitIndex));
    }
  }

  /** A follower whose whole log the message continues takes its entry. */
  lemma TakesNext(r: Run, v: NodeId, m: Message) returns (r': Run)
    requires Orderly(r) && v in Last(r).nodes && Packet(v, m) in Last(r).net
    requires m.AppendEntries? && Last(r).nodes[v].role == Follower && m.term == Last(r).nodes[v].term
    requires var log := Last(r).nodes[v].log;
             m.prevLogIndex == |log| && m.prevLogTerm == LastTerm(log) && |m.entries| == 1 && m.leaderCommit == 0
    ensures Orderly(r') && OthersSame(Last(r), Last(r'), {v})
    ensures var n := Last(r).nodes[v];
            && Last(r').nodes[v] == Persist(n.(log := n.log + m.entries))
            && Packet(m.sender, AppendResponse(m.term, v, true, |n.log| + 1)) in Last(r').net
  {
    LastKnown(r, v);
    var n := Last(r).nodes[v];
    r' := Go(r, Receive(Packet(v, m)));
    assert Splice(n.log, |n.log|, m.entries) == n.log + m.entries;
    var o := HandleMessage(n, m);
    assert o.out[0] == Packet(m.sender, AppendResponse(m.term, v, true, |n.log| + 1));
  }

  /** A crash makes a leader stand again. */
  lemma Crashes(r: Run, n: NodeId) returns (r': Run)
    requires Orderly(r) && n in Last(r).nodes
    ensures Orderly(r') && OthersSame(Last(r), Last(r'), {n})
    ensures var x, x' := Last(r).nodes[n], Last(r').nodes[n];
            x'.role == Follower && x'.term == x.term && x'.log == x.log && x'.commitIndex == 0
  {
    r' := TakeCrash(r, n);
  }

  /** A node whose first entry conflicts with the message's is cut back to the message's. */
  lemma Overwrites(r: Run, v: NodeId, m: Message) returns (r': Run)
    requires Orderly(r) && v in Last(r).nodes && Packet(v, m) in Last(r).net
    requires m.AppendEntries? && Last(r).nodes[v].term < m.term && m.prevLogIndex == 0 && |m.entries| == 1
    requires |Last(r).nodes[v].log| > 0 && Last(r).nodes[v].log[0].term != m.entries[0].term && m.leaderCommit == 0
    ensures Orderly(r') && OthersSame(Last(r), Last(r'), {v})
    ensures var n, x := Last(r).nodes[v], Last(r').nodes[v];
            x.role == Follower && x.term == m.term && x.log == m.entries && x.commitIndex == n.commitIndex
  {
    LastKnown(r, v);
    var n := Last(r).nodes[v];
    assert n.log[0 + 0].term != m.entries[0].term;
    assert Conflicts(n.log, 0, m.entries) && FirstConflict(n.log, 0, m.entries) == 0;
    assert Splice(n.log, 0, m.entries) == m.entries;
    r' := Go(r, Receive(Packet(v, m)));
  }

  /** A node of an earlier term reaches a later one by being asked for its vote. */
  lemma Reaches(r: Run, v: NodeId, m: Message) returns (r': Run)
    requires Orderly(r) && v in Last(r).nodes && Packet(v, m) in Last(r).net && m.RequestVote?
    requires Last(r).nodes[v].term < m.term
    ensures Orderly(r') && OthersSame(Last(r), Last(r'), {v})
    ensures var n, x := Last(r).nodes[v], Last(r').nodes[v];
            x.role == Follower && x.term == m.term && x.log == n.log && x.commitIndex == n.commitIndex
  {
    LastKnown(r, v);
    r' := Go(r, Receive(Packet(v, m)));
  }

  /** A leader that counts an answer, and whose check then commits up to `k`. */
  lemma CountsAnswer(r: Run, n: NodeId, m: Message) returns (r': Run)
    requires Orderly(r) && n in Last(r).nodes && Packet(n, m) in Last(r).net
    requires m.AppendResponse? && m.success && Last(r).nodes[n].role == Leader && m.term <= Last(r).nodes[n].term
    ensures Orderly(r') && OthersSame(Last(r), Last(r'), {n})
    ensures Last(r').nodes[n] == CheckCommit(Acknowledge(Last(r).nodes[n], m.sender, m.matchIndex))
  {
    r' := Go(r, Receive(Packet(n, m)));
  }

  // ---------------------------------------------------------------- the run

  const X1 := Entry(1, 1, "x1", 0.0)
  const X2 := Entry(2, 2, "x2", 0.0)
  const Y1 := Entry(1, 3, "y1", 0.0)
  const Z2 := Entry(2, 4, "z2", 0.0)

  /** An orderly run of five nodes. */
  ghost predicate Five(r: Run, x: NodeId, f: NodeId, y: NodeId, a: NodeId, b: NodeId) {
    Orderly(r) && Last(r).nodes.Keys == {x, f, y, a, b} && |{x, f, y, a, b}| == 5
  }

  /** A node with this term and log, that has committed nothing. */
  ghost predicate Holding(c: Cluster, n: NodeId, t: nat, log: seq<Entry>) {
    n in c.nodes && c.nodes[n].term == t && c.nodes[n].log == log && c.nodes[n].commitIndex == 0
  }

  ghost predicate Standing(c: Cluster, n: NodeId, t: nat, log: seq<Entry>) {
    Holding(c, n, t, log) && c.nodes[n].role == Follower
  }

  ghost predicate Leading(c: Cluster, n: NodeId, t: nat, log: seq<Entry>) {
    Holding(c, n, t, log) && NewLeader(c.nodes[n])
  }

  lemma AllDifferent(x: NodeId, f: NodeId, y: NodeId, a: NodeId, b: NodeId)
    requires |{x, f, y, a, b}| == 5
    ensures x != f && x != y && x != a && x != b && f != y && f != a && f != b && y != a && y != b && a != b
  {
    assert x == f ==> {x, f, y, a, b} == {x, y, a, b};
    assert x == y ==> {x, f, y, a, b} == {x, f, a, b};
    assert x == a ==> {x, f, y, a, b} == {x, f, y, b};
    assert x == b ==> {x, f, y, a, b} == {x, f, y, a};
    assert f == y ==> {x, f, y, a, b} == {x, f, a, b};
    assert f == a ==> {x, f, y, a, b} == {x, f, y, b};
    assert f == b ==> {x, f, y, a, b} == {x, f, y, a};
    assert y == a ==> {x, f, y, a, b} == {x, f, y, b};
    assert y == b ==> {x, f, y, a, b} == {x, f, y, a};
    assert a == b ==> {x, f, y, a, b} == {x, f, y, a};
  }

  lemma FiveNodes(x: NodeId, f: NodeId, y: NodeId, a: NodeId, b: NodeId) returns (c: Cluster)
    requires |{x, f, y, a, b}| == 5
    ensures Initial(c) && c.nodes.Keys == {x, f, y, a, b}
  {
    AllDifferent(x, f, y, a, b);
    var nodes := map[x := Fresh(x, [f, y, a, b]), f := Fresh(f, [x, y, a, b]), y := Fresh(y, [x, f, a, b]),
                     a := Fresh(a, [x, f, y, b]), b := Fresh(b, [x, f, y, a])];
    assert nodes.Keys == {x, f, y, a, b};
    forall id | id in nodes ensures nodes[id] == Fresh(id, nodes[id].peers) && PeersOf(nodes.Keys, id, nodes[id].peers) {
    }
    c := Cluster(nodes, {});
  }

  lemma Start(x: NodeId, f: NodeId, y: NodeId, a: NodeId, b: NodeId) returns (r: Run)
    requires |{x, f, y, a, b}| == 5
    ensures Five(r, x, f, y, a, b)
    ensures Standing(Last(r), x, 0, []) && Standing(Last(r), f, 0, []) && Standing(Last(r), y, 0, [])
    ensures Standing(Last(r), a, 0, []) && Standing(Last(r), b, 0, [])
  {
    var c := FiveNodes(x, f, y, a, b);
    forall id | id in c.nodes ensures Standing(c, id, 0, []) {
      assert c.nodes[id] == Fresh(id, c.nodes[id].peers);
    }
    r := Run([c], []);
  }

  /** Term 1: X is elected by F and Y. */
  lemma Leads1(x: NodeId, f: NodeId, y: NodeId, a: NodeId, b: NodeId) returns (r: Run)
    requires |{x, f, y, a, b}| == 5
    ensures Five(r, x, f, y, a, b) && Leading(Last(r), x, 1, [])
    ensures Standing(Last(r), f, 1, []) && Standing(Last(r), y, 1, [])
    ensures Standing(Last(r), a, 0, []) && Standing(Last(r), b, 0, [])
  {
    AllDifferent(x, f, y, a, b);
    var r0 := Start(x, f, y, a, b);
    r := Elect(r0, x, f, y);
  }

  /** F copies x1, and X crashes. */
  lemma Copies1(x: NodeId, f: NodeId, y: NodeId, a: NodeId, b: NodeId) returns (r: Run)
    requires |{x, f, y, a, b}| == 5
    ensures Five(r, x, f, y, a, b) && Standing(Last(r), x, 1, [X1])
    ensures Standing(Last(r), f, 1, [X1]) && Standing(Last(r), y, 1, [])
    ensures Standing(Last(r), a, 0, []) && Standing(Last(r), b, 0, [])
  {
    AllDifferent(x, f, y, a, b);
    var r0 := Leads1(x, f, y, a, b);
    var r1 := Proposes(r0, x, "x1");
    assert Last(r1).nodes[x].log == [X1];
    var r2 := TakesNext(r1, f, AppendEntries(1, x, 0, 0, [X1], 0));
    assert Last(r2).nodes[f].log == [X1];
    r := Crashes(r2, x);
  }

  /** Term 2: X is elected by F and Y again. */
  lemma Leads2(x: NodeId, f: NodeId, y: NodeId, a: NodeId, b: NodeId) returns (r: Run)
    requires |{x, f, y, a, b}| == 5
    ensures Five(r, x, f, y, a, b) && Leading(Last(r), x, 2, [X1])
    ensures Standing(Last(r), f, 2, [X1]) && Standing(Last(r), y, 2, [])
    ensures Standing(Last(r), a, 0, []) && Standing(Last(r), b, 0, [])
  {
    AllDifferent(x, f, y, a, b);
    var r0 := Copies1(x, f, y, a, b);
    r := Elect(r0, x, f, y);
  }

  /** F copies x2. Its answer is true, and under way. */
  lemma Copies2(x: NodeId, f: NodeId, y: NodeId, a: NodeId, b: NodeId) returns (r: Run)
    requires |{x, f, y, a, b}| == 5
    ensures Five(r, x, f, y, a, b) && Holding(Last(r), x, 2, [X1, X2])
    ensures Standing(Last(r), f, 2, [X1, X2]) && Standing(Last(r), y, 2, [])
    ensures Standing(Last(r), a, 0, []) && Standing(Last(r), b, 0, [])
    ensures Packet(x, AppendResponse(2, f, true, 2)) in Last(r).net
  {
    AllDifferent(x, f, y, a, b);
    var r0 := Leads2(x, f, y, a, b);
    var r1 := Proposes(r0, x, "x2");
    assert [X1] + [X2] == [X1, X2];
    r := TakesNext(r1, f, AppendEntries(2, x, 1, 1, [X2], 0));
  }

  /** Term 3: Y, who has none of it, is elected by A and B, and its y1 takes the place of x1 and x2 at X. */
  lemma Leads3(x: NodeId, f: NodeId, y: NodeId, a: NodeId, b: NodeId) returns (r: Run)
    requires |{x, f, y, a, b}| == 5
    ensures Five(r, x, f, y, a, b) && Holding(Last(r), x, 2, [X1, X2])
    ensures Standing(Last(r), f, 2, [X1, X2]) && Leading(Last(r), y, 3, [])
    ensures Standing(Last(r), a, 3, []) && Standing(Last(r), b, 3, [])
    ensures Packet(x, AppendResponse(2, f, true, 2)) in Last(r).net
  {
    AllDifferent(x, f, y, a, b);
    var r0 := Copies2(x, f, y, a, b);
    r := Elect(r0, y, a, b);
  }

  lemma Overwrites3(x: NodeId, f: NodeId, y: NodeId, a: NodeId, b: NodeId) returns (r: Run)
    requires |{x, f, y, a, b}| == 5
    ensures Five(r, x, f, y, a, b) && Standing(Last(r), x, 3, [Y1])
    ensures Standing(Last(r), f, 2, [X1, X2]) && Holding(Last(r), y, 3, [Y1])
    ensures Standing(Last(r), a, 3, []) && Standing(Last(r), b, 3, [])
    ensures Packet(x, AppendResponse(2, f, true, 2)) in Last(r).net
  {
    AllDifferent(x, f, y, a, b);
    var r0 := Leads3(x, f, y, a, b);
    var r1 := Proposes(r0, y, "y1");
    assert Last(r1).nodes[y].log == [Y1];
    r := Overwrites(r1, x, AppendEntries(3, y, 0, 0, [Y1], 0));
  }

  /** Term 4: X, now with y1, is elected by Y and A. */
  lemma Leads4(x: NodeId, f: NodeId, y: NodeId, a: NodeId, b: NodeId) returns (r: Run)
    requires |{x, f, y, a, b}| == 5
    ensures Five(r, x, f, y, a, b) && Leading(Last(r), x, 4, [Y1])
    ensures Standing(Last(r), f, 2, [X1, X2]) && Standing(Last(r), y, 4, [Y1])
    ensures Standing(Last(r), a, 4, []) && Standing(Last(r), b, 3, [])
    ensures Packet(x, AppendResponse(2, f, true, 2)) in Last(r).net
    ensures Packet(f, RequestVote(4, x, 1, 3)) in Last(r).net
  {
    AllDifferent(x, f, y, a, b);
    var r0 := Overwrites3(x, f, y, a, b);
    r := Elect(r0, x, y, a);
  }

  /** Y copies z2 and answers. */
  lemma Copies4(x: NodeId, f: NodeId, y: NodeId, a: NodeId, b: NodeId) returns (r: Run)
    requires |{x, f, y, a, b}| == 5
    ensures Five(r, x, f, y, a, b) && Holding(Last(r), x, 4, [Y1, Z2]) && Last(r).nodes[x].role == Leader
    ensures forall p :: p in Last(r).nodes[x].peers ==> p in Last(r).nodes[x].matchIndex && Last(r).nodes[x].matchIndex[p] == 0
    ensures Standing(Last(r), f, 2, [X1, X2])
    ensures Standing(Last(r), a, 4, []) && Standing(Last(r), b, 3, [])
    ensures Packet(x, AppendResponse(2, f, true, 2)) in Last(r).net
    ensures Packet(x, AppendResponse(4, y, true, 2)) in Last(r).net
    ensures Packet(f, RequestVote(4, x, 1, 3)) in Last(r).net
  {
    AllDifferent(x, f, y, a, b);
    var r0 := Leads4(x, f, y, a, b);
    var r1 := Proposes(r0, x, "z2");
    assert [Y1] + [Z2] == [Y1, Z2];
    r := TakesNext(r1, y, AppendEntries(4, x, 1, 3, [Z2], 0));
  }

  /** Two peers of four have acknowledged `k`: with the leader, a majority. */
  lemma TwoOfFour(n: Node, p: NodeId, q: NodeId, k: nat)
    requires |n.peers| == 4 && p in n.peers && q in n.peers && p != q
    requires p in n.matchIndex && n.matchIndex[p] >= k && q in n.matchIndex && n.matchIndex[q] >= k
    ensures Replicas(n, k, 4) >= 2
  {
    assert Replicas(n, k, 0) == 0;
    assert Replicas(n, k, 1) >= if n.peers[0] == p || n.peers[0] == q then 1 else 0;
    assert Replicas(n, k, 2) >= Replicas(n, k, 1) + if n.peers[1] == p || n.peers[1] == q then 1 else 0;
    assert Replicas(n, k, 3) >= Replicas(n, k, 2) + if n.peers[2] == p || n.peers[2] == q then 1 else 0;
    assert Replicas(n, k, 4) >= Replicas(n, k, 3) + if n.peers[3] == p || n.peers[3] == q then 1 else 0;
  }

  /** A leader with one own entry at 2 counts two answers about it. */
  lemma CommitsTwo(n: Node, p: NodeId, q: NodeId) returns (x: Node)
    requires n.role == Leader && |n.log| == 2 && n.log[1].term == n.term && n.commitIndex == 0
    requires |n.peers| == 4 && p in n.peers && q in n.peers && p != q
    ensures x == CheckCommit(Acknowledge(CheckCommit(Acknowledge(n, p, 2)), q, 2))
    ensures x.commitIndex == 2 && x.log == n.log && x.term == n.term && x.role == Leader
  {
    var n1 := Acknowledge(n, p, 2);
    CheckCommitKeeps(n1);
    var n2 := Acknowledge(CheckCommit(n1), q, 2);
    CheckCommitKeeps(n2);
    TwoOfFour(n2, p, q, 2);
    assert Committable(n2, 2);
    x := CheckCommit(n2);
  }

  /** X counts F's answer of term 2, then Y's of term 4, and commits y1 and z2. */
  lemma Commits4(x: NodeId, f: NodeId, y: NodeId, a: NodeId, b: NodeId) returns (r: Run)
    requires |{x, f, y, a, b}| == 5
    ensures Five(r, x, f, y, a, b) && x in Last(r).nodes
    ensures var n := Last(r).nodes[x]; n.role == Leader && n.term == 4 && n.log == [Y1, Z2] && n.commitIndex == 2
    ensures Standing(Last(r), f, 2, [X1, X2])
    ensures Standing(Last(r), a, 4, []) && Standing(Last(r), b, 3, [])
    ensures Packet(f, RequestVote(4, x, 1, 3)) in Last(r).net
  {
    AllDifferent(x, f, y, a, b);
    var r0 := Copies4(x, f, y, a, b);
    var n := Last(r0).nodes[x];
    LastKnown(r0, x);
    var r1 := CountsAnswer(r0, x, AppendResponse(2, f, true, 2));
    CheckCommitKeeps(Acknowledge(n, f, 2));
    r := CountsAnswer(r1, x, AppendResponse(4, y, true, 2));
    var n' := CommitsTwo(n, f, y);
  }

  /**
   Term 5: F, who is asked in term 4 and then stands itself, is elected by A and B
   with x1 and x2. What X has committed is not in the log of the new leader.
   */
  lemma TrueAnswersAreNotEnough(x: NodeId, f: NodeId, y: NodeId, a: NodeId, b: NodeId) returns (r: Run)
    requires |{x, f, y, a, b}| == 5
    ensures r.Valid() && AllAddressed(r) && AllEnd(r)
    ensures x in Last(r).nodes && f in Last(r).nodes
    ensures var n, m := Last(r).nodes[x], Last(r).nodes[f];
            && n.role == Leader && n.term == 4 && n.commitIndex == 2 && n.log == [Y1, Z2]
            && m.role == Leader && m.term == 5 && m.log == [X1, X2] && X1 != Y1
  {
    AllDifferent(x, f, y, a, b);
    var r0 := Commits4(x, f, y, a, b);
    var r1 := Reaches(r0, f, RequestVote(4, x, 1, 3));
    r := Elect(r1, f, a, b);
  }
}
