/**
 Four runs of the code as written, step by step, and one that keeps the guard of
 RaftSafety.

 - Log Matching fails when a leader proposes twice without an answer in between.
 - State Machine Safety fails even with addressed proposals: a heartbeat that
   checks no entry makes a follower commit an entry of its own.
 - Leader Completeness fails in the same way: a follower acknowledges entries it
   does not have.
 - A commit index moves back.
 */
module RaftCounterexamples {
  import opened Wrappers
  import opened RaftProtocol
  import opened RaftCluster
  import opened RaftRuns
  import opened RaftSafety

  // ---------------------------------------------------------------- Log Matching

  const A2 := Fresh("A", ["B"])
  const B2 := Fresh("B", ["A"])
  const A2_RUNS := Campaign(A2)
  const B2_VOTED := Persist(B2.(term := 1, votedFor := Some("A")))
  const A2_LEADS := BecomeLeader(A2_RUNS.(votes := {"A", "B"}))
  const X1 := Entry(1, 1, "x1", 0.0)
  const X2 := Entry(2, 1, "x2", 0.0)
  const A2_X1 := Persist(A2_LEADS.(log := [X1]))
  const A2_X2 := Persist(A2_LEADS.(log := [X1, X2]))
  const ASK := RequestVote(1, "A", 0, 0)

  lemma Elects2()
    ensures StartElection(A2) == Outcome(A2_RUNS, [Packet("B", ASK)])
    ensures CanHandle(B2, ASK) && HandleMessage(B2, ASK) == Outcome(B2_VOTED, [Packet("A", VoteResponse(1, "B", true))])
    ensures CanHandle(A2_RUNS, VoteResponse(1, "B", true))
    ensures HandleMessage(A2_RUNS, VoteResponse(1, "B", true)) == Outcome(A2_LEADS, [])
  {
    assert Broadcast(["B"], ASK) == [Packet("B", ASK)];
    assert {"A"} + {"B"} == {"A", "B"};
  }

  lemma Start2() returns (r: Run)
    ensures Has(r, A2) && Has(r, B2) && GuardedRun(r)
  {
    var c := Cluster(map["A" := A2, "B" := B2], {});
    assert c.nodes.Keys == {"A", "B"};
    assert |{"A", "B"}| == 2;
    assert PeersOf({"A", "B"}, "A", ["B"]);
    assert PeersOf({"A", "B"}, "B", ["A"]);
    r := Run([c], []);
  }

  lemma TwoNodeElection() returns (r: Run)
    ensures Has(r, A2_LEADS) && Has(r, B2_VOTED) && GuardedRun(r)
  {
    r := Start2();
    Elects2();
    r := TakeTimeout(r, A2, StartElection(A2));
    r := TakeReceive(r, B2, ASK, HandleMessage(B2, ASK));
    r := TakeReceive(r, A2_RUNS, VoteResponse(1, "B", true), HandleMessage(A2_RUNS, VoteResponse(1, "B", true)));
  }

  const FIRST := AppendEntries(1, "A", 0, 0, [X1], 0)
  const SECOND := AppendEntries(1, "A", 0, 0, [X2], 0)
  const B2_X2 := Persist(B2_VOTED.(log := [X2]))

  lemma Proposes2()
    ensures LeaderReady(A2_LEADS) && LeaderReady(A2_X1)
    ensures RaftProtocol.Propose(A2_LEADS, "x1", 0.0) == Outcome(A2_X1, [Packet("B", FIRST)])
    ensures RaftProtocol.Propose(A2_X1, "x2", 0.0) == Outcome(A2_X2, [Packet("B", SECOND)])
    ensures CanHandle(B2_VOTED, SECOND) && HandleMessage(B2_VOTED, SECOND).node == B2_X2
    ensures "B" in A2_X1.peers && A2_X1.nextIndex["B"] == 1
  {
    assert A2_LEADS.nextIndex["B"] == 1;
    assert A2_LEADS.log + [X1] == [X1];
    assert AppendToAll(A2_X1, [X1]) == [Packet("B", FIRST)];
    assert A2_X1.log + [X2] == A2_X2.log;
    assert AppendToAll(A2_X2, [X2]) == [Packet("B", SECOND)];
    assert Splice([], 0, [X2]) == [X2];
  }

  lemma OneProposal() returns (r: Run)
    ensures Has(r, A2_X1) && Has(r, B2_VOTED) && Packet("B", FIRST) in Last(r).net && GuardedRun(r)
  {
    r := TwoNodeElection();
    Proposes2();
    r := TakePropose(r, A2_LEADS, "x1", RaftProtocol.Propose(A2_LEADS, "x1", 0.0));
  }

  lemma TwoProposals() returns (r: Run)
    ensures Has(r, A2_X2) && Has(r, B2_VOTED) && Packet("B", SECOND) in Last(r).net
    ensures !AllAddressed(r)
  {
    var before := OneProposal();
    Proposes2();
    r := TakePropose(before, A2_X1, "x2", RaftProtocol.Propose(A2_X1, "x2", 0.0));
    var k := |before.actions|;
    assert r.states[k] == before.states[k];
    assert !Addressed(r.states[k], r.actions[k]);
  }

  lemma StaysMisaddressed(r: Run, r': Run)
    requires r.Valid() && r'.Valid() && r.states <= r'.states && r.actions <= r'.actions && !AllAddressed(r)
    ensures !AllAddressed(r')
  {
    var i :| 0 <= i < |r.actions| && !Addressed(r.states[i], r.actions[i]);
    assert r'.states[i] == r.states[i] && r'.actions[i] == r.actions[i];
  }

  /**
   The leader proposes x1 and x2 at once; both messages say "after position 0".
   The follower that hears only the second files x2 at position 1.
   */
  lemma LogMatchingNeedsAddressing() returns (r: Run)
    ensures r.Valid() && !AllAddressed(r)
    ensures "A" in Last(r).nodes && "B" in Last(r).nodes
    ensures var a, b := Last(r).nodes["A"].log, Last(r).nodes["B"].log;
            |a| == 2 && |b| == 1 && a[0].term == b[0].term && a[0].command == "x1" && b[0].command == "x2"
  {
    var before := TwoProposals();
    Proposes2();
    r := TakeReceive(before, B2_VOTED, SECOND, HandleMessage(B2_VOTED, SECOND));
    StaysMisaddressed(before, r);
  }

  // ---------------------------------------------------------------- a run that keeps the guard

  const B2_X1 := Persist(B2_VOTED.(log := [X1]))
  const ACK_B := AppendResponse(1, "B", true, 1)
  const A2_COMMITS := CommitTo(Acknowledge(A2_X1, "B", 1), 1)

  lemma Commits2()
    ensures CanHandle(B2_VOTED, FIRST) && HandleMessage(B2_VOTED, FIRST) == Outcome(B2_X1, [Packet("A", ACK_B)])
    ensures CanHandle(A2_X1, ACK_B) && HandleMessage(A2_X1, ACK_B) == Outcome(A2_COMMITS, [])
    ensures A2_COMMITS.applied == [Delivery(1, X1)]
  {
    assert Splice([], 0, [X1]) == [X1];
    assert Replicas(Acknowledge(A2_X1, "B", 1), 1, 1) == 1;
  }

  /** The guard of RaftSafety leaves runs in which a leader commits and delivers. */
  lemma GuardedRunCommits() returns (r: Run)
    ensures GuardedRun(r) && "A" in Last(r).nodes
    ensures var a := Last(r).nodes["A"]; a.role == Leader && a.commitIndex == 1 && a.applied == [Delivery(1, X1)]
  {
    r := OneProposal();
    Commits2();
    r := TakeReceive(r, B2_VOTED, FIRST, HandleMessage(B2_VOTED, FIRST));
    r := TakeReceive(r, A2_X1, ACK_B, HandleMessage(A2_X1, ACK_B));
  }

  // ---------------------------------------------------------------- State Machine Safety

  const A3 := Fresh("A", ["B", "C"])
  const B3 := Fresh("B", ["A", "C"])
  const C3 := Fresh("C", ["A", "B"])
  const A_RUNS := Campaign(A3)
  const B_VOTED := Persist(B3.(term := 1, votedFor := Some("A")))
  const A_LEADS := BecomeLeader(A_RUNS.(votes := {"A", "B"}))
  const A_X1 := Persist(A_LEADS.(log := [X1]))
  const B_RUNS := Campaign(B_VOTED)
  const ASK2 := RequestVote(2, "B", 0, 0)
  const C_VOTED := Persist(C3.(term := 2, votedFor := Some("B")))
  const B_LEADS := BecomeLeader(B_RUNS.(votes := {"B", "C"}))
  const Y1 := Entry(1, 2, "y1", 0.0)
  const SEND_Y1 := AppendEntries(2, "B", 0, 0, [Y1], 0)
  const B_Y1 := Persist(B_LEADS.(log := [Y1]))
  const C_Y1 := Persist(C_VOTED.(log := [Y1]))
  const B_COMMITS1 := CommitTo(Acknowledge(B_Y1, "C", 1), 1)
  const BEAT1 := AppendEntries(2, "B", 0, 0, [], 1)
  const A_WRONG := CommitTo(Persist(A_X1.(term := 2, role := Follower, votedFor := None)), 1)

  lemma Start3() returns (r: Run)
    ensures AllAddressed(r) && Has(r, A3) && Has(r, B3) && Has(r, C3)
  {
    var c := Cluster(map["A" := A3, "B" := B3, "C" := C3], {});
    assert c.nodes.Keys == {"A", "B", "C"};
    assert |{"A", "B", "C"}| == 3;
    assert PeersOf({"A", "B", "C"}, "A", ["B", "C"]);
    assert PeersOf({"A", "B", "C"}, "B", ["A", "C"]);
    assert PeersOf({"A", "B", "C"}, "C", ["A", "B"]);
    r := Run([c], []);
  }

  lemma ElectsA()
    ensures StartElection(A3).node == A_RUNS && Packet("B", ASK) in StartElection(A3).out
    ensures CanHandle(B3, ASK) && HandleMessage(B3, ASK) == Outcome(B_VOTED, [Packet("A", VoteResponse(1, "B", true))])
    ensures CanHandle(A_RUNS, VoteResponse(1, "B", true))
    ensures HandleMessage(A_RUNS, VoteResponse(1, "B", true)) == Outcome(A_LEADS, [])
  {
    assert Broadcast(["B", "C"], ASK)[0] == Packet("B", ASK);
    assert {"A"} + {"B"} == {"A", "B"};
  }

  lemma ElectsB()
    ensures StartElection(B_VOTED).node == B_RUNS && Packet("C", ASK2) in StartElection(B_VOTED).out
    ensures CanHandle(C3, ASK2) && HandleMessage(C3, ASK2) == Outcome(C_VOTED, [Packet("B", VoteResponse(2, "C", true))])
    ensures CanHandle(B_RUNS, VoteResponse(2, "C", true))
    ensures HandleMessage(B_RUNS, VoteResponse(2, "C", true)) == Outcome(B_LEADS, [])
  {
    assert Broadcast(["A", "C"], ASK2)[1] == Packet("C", ASK2);
    assert {"B"} + {"C"} == {"B", "C"};
  }

  lemma LeadsA()
    ensures LeaderReady(A_LEADS) && RaftProtocol.Propose(A_LEADS, "x1", 0.0).node == A_X1
    ensures forall p :: p in A_LEADS.peers ==> p in A_LEADS.nextIndex && A_LEADS.nextIndex[p] == |A_LEADS.log| + 1
  {
    assert A_LEADS.log + [X1] == [X1];
  }

  lemma LeadsB()
    ensures LeaderReady(B_LEADS) && B_LEADS.nextIndex["A"] == 1 && B_LEADS.nextIndex["C"] == 1
    ensures RaftProtocol.Propose(B_LEADS, "y1", 0.0).node == B_Y1
    ensures Packet("C", SEND_Y1) in RaftProtocol.Propose(B_LEADS, "y1", 0.0).out
    ensures forall p :: p in B_LEADS.peers ==> p in B_LEADS.nextIndex && B_LEADS.nextIndex[p] == |B_LEADS.log| + 1
  {
    assert B_LEADS.nextIndex["A"] == 1 && B_LEADS.nextIndex["C"] == 1;
    assert B_LEADS.log + [Y1] == [Y1];
    assert AppendToAll(B_Y1, [Y1])[1] == Packet("C", SEND_Y1);
  }

  lemma CopiesC()
    ensures CanHandle(C_VOTED, SEND_Y1)
    ensures HandleMessage(C_VOTED, SEND_Y1) == Outcome(C_Y1, [Packet("B", AppendResponse(2, "C", true, 1))])
  {
    assert Splice([], 0, [Y1]) == [Y1];
  }

  lemma CommitsB()
    ensures CanHandle(B_Y1, AppendResponse(2, "C", true, 1))
    ensures HandleMessage(B_Y1, AppendResponse(2, "C", true, 1)).node == B_COMMITS1
    ensures B_COMMITS1.applied == [Delivery(1, Y1)]
  {
    LeadsB();
    var n := Acknowledge(B_Y1, "C", 1);
    assert n.matchIndex["C"] == 1 && n.peers == ["A", "C"];
    assert Replicas(n, 1, 0) == 0;
    assert Replicas(n, 1, 2) >= 1;
    assert Committable(n, 1);
    assert CommitTarget(n, 1) == 1;
  }

  lemma BeatsB()
    ensures LeaderReady(B_COMMITS1) && Packet("A", BEAT1) in Heartbeat(B_COMMITS1).out
  {
    LeadsB();
    assert AppendToAll(B_COMMITS1, [])[0] == Packet("A", BEAT1);
  }

  lemma MisleadsA()
    ensures CanHandle(A_X1, BEAT1) && HandleMessage(A_X1, BEAT1).node == A_WRONG
    ensures A_WRONG.applied == [Delivery(1, X1)]
  {
    LeadsA();
  }

  lemma RunToFirstLeader() returns (r: Run)
    ensures AllAddressed(r) && Has(r, A_LEADS) && Has(r, B_VOTED) && Has(r, C3)
  {
    r := Start3();
    ElectsA();
    r := TakeElection(r, A3, B3, ASK, A_RUNS, B_VOTED, A_LEADS);
  }

  lemma RunToX1() returns (r: Run)
    ensures AllAddressed(r) && Has(r, A_X1) && Has(r, B_VOTED) && Has(r, C3)
  {
    r := RunToFirstLeader();
    LeadsA();
    r := TakePropose(r, A_LEADS, "x1", RaftProtocol.Propose(A_LEADS, "x1", 0.0));
  }

  lemma RunToSecondLeader() returns (r: Run)
    ensures AllAddressed(r) && Has(r, A_X1) && Has(r, B_LEADS) && Has(r, C_VOTED)
  {
    r := RunToX1();
    ElectsB();
    r := TakeElection(r, B_VOTED, C3, ASK2, B_RUNS, C_VOTED, B_LEADS);
  }

  lemma RunToY1() returns (r: Run)
    ensures AllAddressed(r) && Has(r, A_X1) && Has(r, B_COMMITS1) && Has(r, C_Y1)
  {
    r := RunToSecondLeader();
    LeadsB();
    CopiesC();
    CommitsB();
    r := TakeReplicationBeside(r, B_LEADS, C_VOTED, A_X1, "y1", SEND_Y1, B_Y1, C_Y1, AppendResponse(2, "C", true, 1), B_COMMITS1);
  }

  lemma RunToBeat() returns (r: Run)
    ensures AllAddressed(r) && Has(r, A_X1) && Has(r, B_COMMITS1) && Has(r, C_Y1)
    ensures Packet("A", BEAT1) in Last(r).net
  {
    r := RunToY1();
    BeatsB();
    r := TakeBeat(r, B_COMMITS1, Heartbeat(B_COMMITS1));
  }

  lemma RunToWrong() returns (r: Run)
    ensures AllAddressed(r) && Has(r, A_WRONG) && Has(r, B_COMMITS1)
  {
    r := RunToBeat();
    MisleadsA();
    r := TakeReceive(r, A_X1, BEAT1, HandleMessage(A_X1, BEAT1));
  }

  /**
   Every proposal is addressed, nothing crashes, nothing is lost but a delay:
   B commits and delivers y1 at position 1, and a heartbeat that checks no entry
   makes A deliver its own stale x1 there.
   */
  lemma StateMachineSafetyFails() returns (r: Run)
    ensures r.Valid() && AllAddressed(r)
    ensures "A" in Last(r).nodes && "B" in Last(r).nodes
    ensures Last(r).nodes["B"].applied == [Delivery(1, Y1)]
    ensures Last(r).nodes["A"].applied == [Delivery(1, X1)]
    ensures X1.command != Y1.command
  {
    r := RunToWrong();
    CommitsB();
    MisleadsA();
  }

  // ---------------------------------------------------------------- Leader Completeness

  const BEAT0 := AppendEntries(2, "B", 0, 0, [], 0)
  const A_KEEPS := Persist(A_X1.(term := 2, role := Follower, votedFor := None))
  const ACK_A := AppendResponse(2, "A", true, 1)
  const B_MISLED := CommitTo(Acknowledge(B_Y1, "A", 1), 1)
  const A_AGAIN := Campaign(A_KEEPS)
  const ASK3 := RequestVote(3, "A", 1, 1)
  const C_VOTED3 := Persist(C_VOTED.(term := 3, votedFor := Some("A")))
  const A_LEADS3 := BecomeLeader(A_AGAIN.(votes := {"A", "C"}))

  lemma BeatsB0()
    ensures LeaderReady(B_Y1) && Packet("A", BEAT0) in Heartbeat(B_Y1).out
  {
    LeadsB();
    assert AppendToAll(B_Y1, [])[0] == Packet("A", BEAT0);
  }

  lemma KeepsA()
    ensures CanHandle(A_X1, BEAT0) && HandleMessage(A_X1, BEAT0) == Outcome(A_KEEPS, [Packet("B", ACK_A)])
  {
    LeadsA();
  }

  lemma MisleadsB()
    ensures CanHandle(B_Y1, ACK_A) && HandleMessage(B_Y1, ACK_A).node == B_MISLED
    ensures B_MISLED.role == Leader && B_MISLED.commitIndex == 1 && B_MISLED.log == [Y1]
  {
    LeadsB();
    var n := Acknowledge(B_Y1, "A", 1);
    assert n.matchIndex["A"] == 1 && n.peers == ["A", "C"];
    assert Replicas(n, 1, 1) >= 1;
    assert Committable(n, 1);
    assert CommitTarget(n, 1) == 1;
  }

  lemma ElectsAAgain()
    ensures StartElection(A_KEEPS).node == A_AGAIN && Packet("C", ASK3) in StartElection(A_KEEPS).out
    ensures CanHandle(C_VOTED, ASK3)
    ensures HandleMessage(C_VOTED, ASK3) == Outcome(C_VOTED3, [Packet("A", VoteResponse(3, "C", true))])
    ensures CanHandle(A_AGAIN, VoteResponse(3, "C", true))
    ensures HandleMessage(A_AGAIN, VoteResponse(3, "C", true)) == Outcome(A_LEADS3, [])
    ensures A_LEADS3.role == Leader && A_LEADS3.term == 3 && A_LEADS3.log == [X1]
  {
    assert Broadcast(["B", "C"], ASK3)[1] == Packet("C", ASK3);
    assert {"A"} + {"C"} == {"A", "C"};
  }

  lemma RunToY0() returns (r: Run)
    ensures AllAddressed(r) && Has(r, A_X1) && Has(r, B_Y1) && Has(r, C_VOTED)
  {
    r := RunToSecondLeader();
    LeadsB();
    r := TakePropose(r, B_LEADS, "y1", RaftProtocol.Propose(B_LEADS, "y1", 0.0));
  }

  lemma RunToBeat0() returns (r: Run)
    ensures AllAddressed(r) && Has(r, A_X1) && Has(r, B_Y1) && Has(r, C_VOTED)
    ensures Packet("A", BEAT0) in Last(r).net
  {
    r := RunToY0();
    BeatsB0();
    r := TakeBeat(r, B_Y1, Heartbeat(B_Y1));
  }

  lemma RunToMisled() returns (r: Run)
    ensures AllAddressed(r) && Has(r, A_KEEPS) && Has(r, B_MISLED) && Has(r, C_VOTED)
  {
    r := RunToBeat0();
    KeepsA();
    MisleadsB();
    r := TakeExchange(r, B_Y1, A_X1, BEAT0, A_KEEPS, ACK_A, B_MISLED);
  }

  /**
   A acknowledges a heartbeat with the length of its own stale log, so the leader
   of term 2 commits y1 though nobody else has it; A is then elected in term 3
   without it.
   */
  lemma LeaderCompletenessFails() returns (r: Run)
    ensures r.Valid() && AllAddressed(r)
    ensures "A" in Last(r).nodes && "B" in Last(r).nodes
    ensures var a, b := Last(r).nodes["A"], Last(r).nodes["B"];
            && b.role == Leader && b.term == 2 && b.commitIndex == 1 && b.log == [Y1] && Y1.term == 2
            && a.role == Leader && a.term == 3 && a.log == [X1] && X1.command != Y1.command
  {
    r := RunToNewLeader();
    MisledIs();
    ElectsAAgain();
  }

  lemma MisledIs()
    ensures B_MISLED.id == "B" && B_MISLED.role == Leader && B_MISLED.term == 2
    ensures B_MISLED.commitIndex == 1 && B_MISLED.log == [Y1] && A_LEADS3.id == "A"
  {
  }

  lemma RunToNewLeader() returns (r: Run)
    ensures AllAddressed(r) && Has(r, A_LEADS3) && Has(r, B_MISLED)
  {
    r := RunToMisled();
    ElectsAAgain();
    r := TakeElection(r, A_KEEPS, C_VOTED, ASK3, A_AGAIN, C_VOTED3, A_LEADS3);
  }

  // ---------------------------------------------------------------- a commit index that moves back

  const A_X2 := Persist(A_X1.(log := [X1, X2]))
  const Y2 := Entry(2, 2, "y2", 0.0)
  const Y3 := Entry(3, 2, "y3", 0.0)
  const Y4 := Entry(4, 2, "y4", 0.0)
  const SEND_Y2 := AppendEntries(2, "B", 1, 2, [Y2], 1)
  const B_Y2 := Persist(B_COMMITS1.(log := [Y1, Y2]))
  const C_Y2 := CommitTo(Persist(C_Y1.(log := [Y1, Y2])), 1)
  const B_COMMITS2 := CommitTo(Acknowledge(B_Y2, "C", 2), 2)
  const SEND_Y3 := AppendEntries(2, "B", 2, 2, [Y3], 2)
  const B_Y3 := Persist(B_COMMITS2.(log := [Y1, Y2, Y3]))
  const C_Y3 := CommitTo(Persist(C_Y2.(log := [Y1, Y2, Y3])), 2)
  const B_COMMITS3 := CommitTo(Acknowledge(B_Y3, "C", 3), 3)
  const BEAT3 := AppendEntries(2, "B", 0, 0, [], 3)
  const A_COMMITS2 := CommitTo(Persist(A_X2.(term := 2, role := Follower, votedFor := None)), 2)
  const SEND_Y4 := AppendEntries(2, "B", 0, 0, [Y4], 3)
  const B_Y4 := Persist(B_COMMITS3.(log := [Y1, Y2, Y3, Y4]))
  const A_BACK := CommitTo(Persist(A_COMMITS2.(log := [Y4])), 1)

  lemma LeadsA2()
    ensures LeaderReady(A_X1) && RaftProtocol.Propose(A_X1, "x2", 0.0).node == A_X2
  {
    LeadsA();
    assert A_X1.log + [X2] == [X1, X2];
  }

  lemma SendsY2()
    ensures LeaderReady(B_COMMITS1) && RaftProtocol.Propose(B_COMMITS1, "y2", 0.0).node == B_Y2
    ensures Packet("C", SEND_Y2) in RaftProtocol.Propose(B_COMMITS1, "y2", 0.0).out
  {
    LeadsB();
    assert B_COMMITS1.log + [Y2] == [Y1, Y2];
    assert B_COMMITS1.nextIndex["C"] == 2;
    assert AppendToAll(B_Y2, [Y2])[1] == Packet("C", SEND_Y2);
  }

  lemma CopiesC2()
    ensures CanHandle(C_Y1, SEND_Y2)
    ensures HandleMessage(C_Y1, SEND_Y2) == Outcome(C_Y2, [Packet("B", AppendResponse(2, "C", true, 2))])
  {
    assert !Conflicts([Y1], 1, [Y2]);
    assert Splice([Y1], 1, [Y2]) == [Y1, Y2];
  }

  lemma CommitsB2()
    ensures CanHandle(B_Y2, AppendResponse(2, "C", true, 2))
    ensures HandleMessage(B_Y2, AppendResponse(2, "C", true, 2)).node == B_COMMITS2
  {
    LeadsB();
    var n := Acknowledge(B_Y2, "C", 2);
    assert n.matchIndex["C"] == 2 && n.peers == ["A", "C"];
    assert Replicas(n, 2, 2) >= 1;
    assert CommitTarget(n, 2) == 2;
  }

  lemma SendsY3()
    ensures LeaderReady(B_COMMITS2) && RaftProtocol.Propose(B_COMMITS2, "y3", 0.0).node == B_Y3
    ensures Packet("C", SEND_Y3) in RaftProtocol.Propose(B_COMMITS2, "y3", 0.0).out
  {
    LeadsB();
    assert B_COMMITS2.log + [Y3] == [Y1, Y2, Y3];
    assert B_COMMITS2.nextIndex["C"] == 3;
    assert AppendToAll(B_Y3, [Y3])[1] == Packet("C", SEND_Y3);
  }

  lemma CopiesC3()
    ensures CanHandle(C_Y2, SEND_Y3)
    ensures HandleMessage(C_Y2, SEND_Y3) == Outcome(C_Y3, [Packet("B", AppendResponse(2, "C", true, 3))])
  {
    assert !Conflicts([Y1, Y2], 2, [Y3]);
    assert Splice([Y1, Y2], 2, [Y3]) == [Y1, Y2, Y3];
  }

  lemma CommitsB3()
    ensures CanHandle(B_Y3, AppendResponse(2, "C", true, 3))
    ensures HandleMessage(B_Y3, AppendResponse(2, "C", true, 3)).node == B_COMMITS3
  {
    LeadsB();
    var n := Acknowledge(B_Y3, "C", 3);
    assert n.matchIndex["C"] == 3 && n.peers == ["A", "C"];
    assert Replicas(n, 3, 2) >= 1;
    assert CommitTarget(n, 3) == 3;
  }

  lemma BeatsB3()
    ensures LeaderReady(B_COMMITS3) && B_COMMITS3.nextIndex["A"] == 1
    ensures Packet("A", BEAT3) in Heartbeat(B_COMMITS3).out
  {
    LeadsB();
    assert AppendToAll(B_COMMITS3, [])[0] == Packet("A", BEAT3);
  }

  lemma CommitsA2()
    ensures CanHandle(A_X2, BEAT3) && HandleMessage(A_X2, BEAT3).node == A_COMMITS2
    ensures A_COMMITS2.commitIndex == 2 && A_COMMITS2.lastApplied == 2
  {
    LeadsA();
  }

  lemma SendsY4()
    ensures RaftProtocol.Propose(B_COMMITS3, "y4", 0.0).node == B_Y4
    ensures Packet("A", SEND_Y4) in RaftProtocol.Propose(B_COMMITS3, "y4", 0.0).out
  {
    BeatsB3();
    assert B_COMMITS3.log + [Y4] == [Y1, Y2, Y3, Y4];
    assert AppendToAll(B_Y4, [Y4])[0] == Packet("A", SEND_Y4);
  }

  lemma CutsA()
    ensures CanHandle(A_COMMITS2, SEND_Y4) && HandleMessage(A_COMMITS2, SEND_Y4).node == A_BACK
    ensures A_BACK.commitIndex == 1 && A_BACK.lastApplied == 2
  {
    assert [X1, X2][0 + 0].term != [Y4][0].term;
    assert Conflicts([X1, X2], 0, [Y4]);
    assert FirstConflict([X1, X2], 0, [Y4]) == 0;
    assert Splice([X1, X2], 0, [Y4]) == [Y4];
  }

  lemma RunToX2() returns (r: Run)
    ensures Has(r, A_X2) && Has(r, B_VOTED) && Has(r, C3)
  {
    r := RunToX1();
    LeadsA2();
    r := TakePropose(r, A_X1, "x2", RaftProtocol.Propose(A_X1, "x2", 0.0));
  }

  lemma RunToTwoTerms() returns (r: Run)
    ensures Has(r, A_X2) && Has(r, B_LEADS) && Has(r, C_VOTED)
  {
    r := RunToX2();
    ElectsB();
    r := TakeElection(r, B_VOTED, C3, ASK2, B_RUNS, C_VOTED, B_LEADS);
  }

  lemma RunToCommit1() returns (r: Run)
    ensures Has(r, A_X2) && Has(r, B_COMMITS1) && Has(r, C_Y1)
  {
    r := RunToTwoTerms();
    LeadsB();
    CopiesC();
    CommitsB();
    r := TakeReplicationBeside(r, B_LEADS, C_VOTED, A_X2, "y1", SEND_Y1, B_Y1, C_Y1, AppendResponse(2, "C", true, 1), B_COMMITS1);
  }

  lemma RunToCommit2() returns (r: Run)
    ensures Has(r, A_X2) && Has(r, B_COMMITS2) && Has(r, C_Y2)
  {
    r := RunToCommit1();
    SendsY2();
    CopiesC2();
    CommitsB2();
    r := TakeReplicationBeside(r, B_COMMITS1, C_Y1, A_X2, "y2", SEND_Y2, B_Y2, C_Y2, AppendResponse(2, "C", true, 2), B_COMMITS2);
  }

  lemma RunToCommit3() returns (r: Run)
    ensures Has(r, A_X2) && Has(r, B_COMMITS3) && Has(r, C_Y3)
  {
    r := RunToCommit2();
    SendsY3();
    CopiesC3();
    CommitsB3();
    r := TakeReplicationBeside(r, B_COMMITS2, C_Y2, A_X2, "y3", SEND_Y3, B_Y3, C_Y3, AppendResponse(2, "C", true, 3), B_COMMITS3);
  }

  lemma RunToBeat3() returns (r: Run)
    ensures Has(r, A_COMMITS2) && Has(r, B_COMMITS3)
  {
    r := RunToCommit3();
    BeatsB3();
    CommitsA2();
    r := TakeHeardBeat(r, B_COMMITS3, A_X2, BEAT3, A_COMMITS2);
  }

  lemma RunToY4() returns (r: Run)
    ensures Has(r, A_COMMITS2) && Packet("A", SEND_Y4) in Last(r).net
  {
    r := RunToBeat3();
    BeatsB3();
    SendsY4();
    r := TakePropose(r, B_COMMITS3, "y4", RaftProtocol.Propose(B_COMMITS3, "y4", 0.0));
  }

  /**
   A has delivered positions 1 and 2 and counts both as committed. A proposal
   addressed to position 1 cuts its log to one entry and announces commit 3, so
   the last step of this run takes the commit index from 2 back to 1.
   */
  lemma CommitMovesBack() returns (r: Run, k: nat)
    ensures r.Valid() && |r.actions| == k + 1
    ensures "A" in r.states[k].nodes && "A" in r.states[k + 1].nodes
    ensures r.states[k].nodes["A"].commitIndex == 2 && r.states[k].nodes["A"].lastApplied == 2
    ensures r.states[k + 1].nodes["A"].commitIndex == 1 && r.states[k + 1].nodes["A"].lastApplied == 2
  {
    var before := RunToY4();
    CommitsA2();
    CutsA();
    r, k := TakeLast(before, A_COMMITS2, SEND_Y4, A_BACK);
  }
}
