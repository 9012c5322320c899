/**
 Election safety (section 5.2 of the Raft paper) over every run.

 The argument keeps a history beside the run: who voted for whom in which term,
 who won which term with which voters, and what log each winner has written in
 its term. The history is computed from the nodes and never read by them.
 */
module RaftElection {
  import opened Wrappers
  import opened RaftProtocol
  import opened RaftCluster

  datatype History = History(
    votes: map<(NodeId, nat), NodeId>,
    won: map<nat, NodeId>,
    voters: map<nat, set<NodeId>>,
    written: map<nat, seq<Entry>>
  )

  const NO_HISTORY := History(map[], map[], map[], map[])

  /** Record what can be seen of a node after one of its steps. */
  function Observe(h: History, n: Node): History {
    var h' := if n.votedFor.Some? then h.(votes := h.votes[(n.id, n.term) := n.votedFor.value]) else h;
    if n.role != Leader then h'
    else h'.(won := h.won[n.term := n.id],
             voters := h.voters[n.term := n.votes],
             written := h.written[n.term := n.log])
  }

  ghost predicate Extends(h: History, h': History) {
    && (forall k :: k in h.votes ==> k in h'.votes && h'.votes[k] == h.votes[k])
    && (forall t :: t in h.won ==> t in h'.won && h'.won[t] == h.won[t])
    && (forall t :: t in h.written ==> t in h'.written && h.written[t] <= h'.written[t])
  }

  // ---------------------------------------------------------------- the invariant

  ghost predicate Voted(h: History, voter: NodeId, term: nat, candidate: NodeId) {
    (voter, term) in h.votes && h.votes[(voter, term)] == candidate
  }

  /** Every winner was elected by a strict majority of voters on record. */
  ghost predicate Elected(h: History, members: set<NodeId>) {
    && h.won.Keys == h.voters.Keys == h.written.Keys
    && (forall t :: t in h.won ==>
          && h.voters[t] <= members
          && |h.voters[t]| > |members| / 2
          && (forall v :: v in h.voters[t] ==> Voted(h, v, t, h.won[t])))
  }

  ghost predicate VoteOnDisk(n: Node, h: History) {
    && n.disk == Disk(n.term, n.votedFor, n.log)
    && (n.votedFor.Some? ==> Voted(h, n.id, n.term, n.votedFor.value))
    && (n.votedFor.None? ==> (n.id, n.term) !in h.votes)
    && (forall t :: (n.id, t) in h.votes ==> t <= n.term)
    && (forall t :: t in h.won && h.won[t] == n.id ==> t <= n.term)
  }

  ghost predicate RoleJustified(n: Node, h: History, members: set<NodeId>) {
    && (n.role == Candidate ==>
          && n.votes <= members
          && (forall v :: v in n.votes ==> Voted(h, v, n.term, n.id))
          && (n.term in h.won ==> h.won[n.term] != n.id))
    && (n.role == Leader ==>
          && n.term in h.won && h.won[n.term] == n.id
          && n.term in h.voters && h.voters[n.term] == n.votes
          && n.term in h.written && h.written[n.term] == n.log)
  }

  ghost predicate NodeOk(n: Node, h: History, members: set<NodeId>) {
    && n.id in members
    && PeersOf(members, n.id, n.peers)
    && VoteOnDisk(n, h)
    && RoleJustified(n, h, members)
    && LeaderReady(n)
  }

  ghost predicate PacketOk(p: Packet, h: History, members: set<NodeId>) {
    && p.dst in members && p.msg.sender in members && p.dst != p.msg.sender
    && (p.msg.VoteResponse? && p.msg.granted ==> Voted(h, p.msg.sender, p.msg.term, p.dst))
    && (p.msg.AppendEntries? ==> p.msg.term in h.won && h.won[p.msg.term] == p.msg.sender)
  }

  ghost predicate Inv(c: Cluster, h: History) {
    var members := c.nodes.Keys;
    && Elected(h, members)
    && (forall id :: id in c.nodes ==> c.nodes[id].id == id && NodeOk(c.nodes[id], h, members))
    && (forall p :: p in c.net ==> PacketOk(p, h, members))
  }

  // ---------------------------------------------------------------- quorums

  lemma TwoMajoritiesMeet(a: set<NodeId>, b: set<NodeId>, members: set<NodeId>) returns (v: NodeId)
    requires a <= members && b <= members
    requires |a| > |members| / 2 && |b| > |members| / 2
    ensures v in a && v in b
  {
    if a * b == {} {
      assert |a + b| == |a| + |b|;
      SubsetIsSmaller(a + b, members);
      assert false;
    }
    v :| v in a * b;
  }

  /** A term already won cannot be won again by a candidate of that term. */
  lemma TermIsOpen(n: Node, h: History, members: set<NodeId>)
    requires Elected(h, members) && RoleJustified(n, h, members)
    requires n.role == Candidate && |n.votes| > |members| / 2
    ensures n.term !in h.won
  {
    if n.term in h.won {
      var v := TwoMajoritiesMeet(n.votes, h.voters[n.term], members);
      assert false;
    }
  }

  // ---------------------------------------------------------------- what each handler keeps

  /** The obligations of one node step: enough to keep the invariant of the whole cluster. */
  ghost predicate Sound(h: History, members: set<NodeId>, n: Node, o: Outcome) {
    var h' := Observe(h, o.node);
    && o.node.id == n.id
    && Extends(h, h')
    && Elected(h', members)
    && NodeOk(o.node, h', members)
    && (forall p :: p in o.out ==> PacketOk(p, h', members))
  }

  lemma ObserveKnown(n: Node, h: History, members: set<NodeId>)
    requires NodeOk(n, h, members)
    ensures Observe(h, n) == h
  {
  }

  /** A step that leaves term, vote and leadership alone is sound if what it sends is. */
  lemma QuietSound(n: Node, o: Outcome, h: History, members: set<NodeId>)
    requires Elected(h, members) && NodeOk(n, h, members)
    requires o.node.id == n.id && o.node.peers == n.peers
    requires o.node.term == n.term && o.node.votedFor == n.votedFor
    requires o.node.disk == Disk(n.term, n.votedFor, o.node.log)
    requires o.node.role == Follower || (o.node.role == n.role && o.node.votes == n.votes)
    requires o.node.role == Leader ==> o.node.log == n.log && LeaderReady(o.node)
    requires forall p :: p in o.out ==> PacketOk(p, h, members)
    ensures Sound(h, members, n, o)
  {
    assert NodeOk(o.node, h, members);
    ObserveKnown(o.node, h, members);
  }

  lemma ObserveTermSound(n: Node, term: nat, h: History, members: set<NodeId>)
    requires Elected(h, members) && NodeOk(n, h, members)
    ensures NodeOk(ObserveTerm(n, term), h, members)
    ensures ObserveTerm(n, term).id == n.id && ObserveTerm(n, term).term >= term
  {
  }

  lemma RestartSound(n: Node, h: History, members: set<NodeId>)
    requires Elected(h, members) && NodeOk(n, h, members)
    ensures NodeOk(Restart(n), h, members) && Restart(n).id == n.id
  {
  }

  /** Recording a win by a majority of recorded voters keeps every winner elected. */
  lemma WinElected(n: Node, h: History, h': History, members: set<NodeId>)
    requires Elected(h, members)
    requires n.votes <= members && |n.votes| > |members| / 2
    requires forall v :: v in n.votes ==> Voted(h, v, n.term, n.id)
    requires h' == h.(won := h.won[n.term := n.id],
                      voters := h.voters[n.term := n.votes],
                      written := h.written[n.term := n.log])
    ensures Elected(h', members)
  {
    forall t | t in h'.won
      ensures h'.voters[t] <= members && |h'.voters[t]| > |members| / 2
      ensures forall v :: v in h'.voters[t] ==> Voted(h', v, t, h'.won[t])
    {
      if t != n.term {
        assert t in h.won;
        forall v | v in h'.voters[t] ensures Voted(h', v, t, h'.won[t]) {
          assert Voted(h, v, t, h.won[t]);
        }
      } else {
        forall v | v in h'.voters[t] ensures Voted(h', v, t, h'.won[t]) {
          assert Voted(h, v, t, n.id);
        }
      }
    }
  }

  lemma LeaderOk(n: Node, h: History, h': History, members: set<NodeId>)
    requires NodeOk(n, h, members)
    requires n.role == Candidate
    requires h' == h.(won := h.won[n.term := n.id],
                      voters := h.voters[n.term := n.votes],
                      written := h.written[n.term := n.log])
    ensures NodeOk(BecomeLeader(n), h', members)
  {
    assert VoteOnDisk(BecomeLeader(n), h');
  }

  lemma BecomeLeaderSound(n: Node, h: History, members: set<NodeId>)
    requires Elected(h, members) && NodeOk(n, h, members)
    requires n.role == Candidate && IsMajority(n, |n.votes|)
    ensures Sound(h, members, n, Outcome(BecomeLeader(n), []))
    ensures n.term !in h.won
  {
    TermIsOpen(n, h, members);
    var l := BecomeLeader(n);
    var h' := Observe(h, l);
    LeaderObserved(n, h, members);
    WinElected(n, h, h', members);
    LeaderOk(n, h, h', members);
  }

  lemma LeaderObserved(n: Node, h: History, members: set<NodeId>)
    requires Elected(h, members) && NodeOk(n, h, members) && n.term !in h.won
    ensures Observe(h, BecomeLeader(n)) == h.(won := h.won[n.term := n.id],
                                              voters := h.voters[n.term := n.votes],
                                              written := h.written[n.term := n.log])
    ensures Extends(h, Observe(h, BecomeLeader(n)))
  {
    ObserveKnown(n, h, members);
  }

  /** A first vote of a node in its term adds to the record and keeps the rest. */
  lemma VoteRecorded(h: History, voter: NodeId, term: nat, candidate: NodeId, members: set<NodeId>) returns (h': History)
    requires Elected(h, members)
    requires (voter, term) in h.votes ==> h.votes[(voter, term)] == candidate
    ensures h' == h.(votes := h.votes[(voter, term) := candidate])
    ensures Extends(h, h') && Elected(h', members) && Voted(h', voter, term, candidate)
    ensures forall v, t, x :: Voted(h, v, t, x) ==> Voted(h', v, t, x)
    ensures forall v, t :: (v, t) in h'.votes ==> (v, t) in h.votes || (v == voter && t == term)
  {
    h' := h.(votes := h.votes[(voter, term) := candidate]);
    assert forall v, t, x :: Voted(h, v, t, x) ==> Voted(h', v, t, x);
    forall t | t in h'.won ensures forall v :: v in h'.voters[t] ==> Voted(h', v, t, h'.won[t]) {
      assert forall v :: v in h.voters[t] ==> Voted(h, v, t, h.won[t]);
    }
  }

  lemma CampaignSound(n: Node, h: History, members: set<NodeId>)
    requires Elected(h, members) && NodeOk(n, h, members)
    ensures var c := Campaign(n); var h' := Observe(h, c);
            Extends(h, h') && Elected(h', members) && NodeOk(c, h', members)
            && h'.won == h.won && h'.written == h.written
  {
    var c := Campaign(n);
    assert (n.id, n.term + 1) !in h.votes;
    var h' := VoteRecorded(h, n.id, c.term, n.id, members);
    assert Observe(h, c) == h';
    assert c.role == Candidate && c.votes == {n.id};
  }

  lemma StartElectionSound(n: Node, h: History, members: set<NodeId>)
    requires Elected(h, members) && NodeOk(n, h, members)
    ensures Sound(h, members, n, StartElection(n))
  {
    var c := Campaign(n);
    var h1 := Observe(h, c);
    CampaignSound(n, h, members);
    if IsMajority(c, |c.votes|) {
      BecomeLeaderSound(c, h1, members);
      assert Observe(h, BecomeLeader(c)) == Observe(h1, BecomeLeader(c));
    }
  }

  lemma GrantObserved(n: Node, candidate: NodeId, h: History, members: set<NodeId>)
    requires NodeOk(n, h, members)
    ensures Observe(h, Persist(n.(votedFor := Some(candidate)))) == h.(votes := h.votes[(n.id, n.term) := candidate])
  {
    if n.role == Leader {
      assert h.won[n.term := n.id] == h.won;
      assert h.voters[n.term := n.votes] == h.voters;
      assert h.written[n.term := n.log] == h.written;
    }
  }

  lemma GrantSound(n: Node, candidate: NodeId, h: History, members: set<NodeId>)
    requires Elected(h, members) && NodeOk(n, h, members)
    requires candidate in members && candidate != n.id
    requires n.votedFor == None || n.votedFor == Some(candidate)
    ensures var n' := Persist(n.(votedFor := Some(candidate)));
            Sound(h, members, n, Outcome(n', [Packet(candidate, VoteResponse(n'.term, n'.id, true))]))
  {
    var n' := Persist(n.(votedFor := Some(candidate)));
    var h' := VoteRecorded(h, n.id, n.term, candidate, members);
    GrantObserved(n, candidate, h, members);
    assert NodeOk(n', h', members);
  }

  lemma RequestVoteSound(n: Node, m: Message, h: History, members: set<NodeId>)
    requires Elected(h, members) && NodeOk(n, h, members)
    requires m.RequestVote? && m.sender in members && m.sender != n.id && m.term <= n.term
    ensures Sound(h, members, n, HandleRequestVote(n, m))
  {
    if GrantsVote(n, m) {
      GrantSound(n, m.sender, h, members);
    } else {
      QuietSound(n, HandleRequestVote(n, m), h, members);
    }
  }

  lemma VoteResponseSound(n: Node, m: Message, h: History, members: set<NodeId>)
    requires Elected(h, members) && NodeOk(n, h, members)
    requires m.VoteResponse? && PacketOk(Packet(n.id, m), h, members)
    ensures Sound(h, members, n, Outcome(HandleVoteResponse(n, m), []))
  {
    ObserveKnown(n, h, members);
    if n.role == Candidate && m.term == n.term && m.granted {
      var c := n.(votes := n.votes + {m.sender});
      assert NodeOk(c, h, members);
      if IsMajority(c, |c.votes|) {
        BecomeLeaderSound(c, h, members);
      } else {
        ObserveKnown(c, h, members);
      }
    }
  }

  /** A leader never receives an AppendEntries of its own term: that term's winner is itself. */
  lemma LeaderGetsNoAppend(n: Node, m: Message, h: History, members: set<NodeId>)
    requires NodeOk(n, h, members)
    requires m.AppendEntries? && m.term == n.term && PacketOk(Packet(n.id, m), h, members)
    ensures n.role != Leader
  {
  }

  /** What handling AppendEntries may touch. */
  lemma AppendEntriesShape(n: Node, m: Message)
    requires m.AppendEntries? && n.disk == Disk(n.term, n.votedFor, n.log)
    ensures var o := HandleAppendEntries(n, m);
            && o.node.id == n.id && o.node.peers == n.peers
            && o.node.term == n.term && o.node.votedFor == n.votedFor
            && o.node.disk == Disk(n.term, n.votedFor, o.node.log)
            && (m.term < n.term ==> o.node == n)
            && (m.term >= n.term ==> o.node.role == Follower)
            && o.out == [Packet(m.sender, AppendResponse(n.term, n.id, o.out[0].msg.success, |o.node.log|))]
  {
  }

  lemma AppendEntriesSound(n: Node, m: Message, h: History, members: set<NodeId>)
    requires Elected(h, members) && NodeOk(n, h, members)
    requires m.AppendEntries? && m.term <= n.term && PacketOk(Packet(n.id, m), h, members)
    ensures Sound(h, members, n, HandleAppendEntries(n, m))
  {
    AppendEntriesShape(n, m);
    QuietSound(n, HandleAppendEntries(n, m), h, members);
  }

  lemma CheckCommitKeeps(n: Node)
    ensures var n' := CheckCommit(n);
            n' == n.(commitIndex := n'.commitIndex, lastApplied := n'.lastApplied, applied := n'.applied)
  {
  }

  lemma AppendResponseSound(n: Node, m: Message, h: History, members: set<NodeId>)
    requires Elected(h, members) && NodeOk(n, h, members)
    requires m.AppendResponse? && m.sender in n.peers
    ensures Sound(h, members, n, Outcome(HandleAppendResponse(n, m), []))
  {
    if n.role == Leader && m.success {
      CheckCommitKeeps(Acknowledge(n, m.sender, m.matchIndex));
    }
    QuietSound(n, Outcome(HandleAppendResponse(n, m), []), h, members);
  }

  lemma MessageSound(n: Node, m: Message, h: History, members: set<NodeId>)
    requires Elected(h, members) && NodeOk(n, h, members) && PacketOk(Packet(n.id, m), h, members)
    ensures CanHandle(n, m) && Sound(h, members, n, HandleMessage(n, m))
  {
    assert m.sender in n.peers;
    ObserveTermSound(n, m.term, h, members);
    var n' := ObserveTerm(n, m.term);
    match m
    case RequestVote(_, _, _, _) => RequestVoteSound(n', m, h, members);
    case VoteResponse(_, _, _) => VoteResponseSound(n', m, h, members);
    case AppendEntries(_, _, _, _, _, _) => AppendEntriesSound(n', m, h, members);
    case AppendResponse(_, _, _, _) => AppendResponseSound(n', m, h, members);
  }

  lemma WrittenKeepsElected(h: History, t: nat, log: seq<Entry>, members: set<NodeId>)
    requires Elected(h, members) && t in h.written
    ensures Elected(h.(written := h.written[t := log]), members)
  {
    var h' := h.(written := h.written[t := log]);
    forall u | u in h'.won ensures forall v :: v in h'.voters[u] ==> Voted(h', v, u, h'.won[u]) {
      assert forall v :: v in h.voters[u] ==> Voted(h, v, u, h.won[u]);
    }
  }

  lemma ProposeSound(n: Node, command: string, timestamp: real, h: History, members: set<NodeId>)
    requires Elected(h, members) && NodeOk(n, h, members)
    ensures Sound(h, members, n, RaftProtocol.Propose(n, command, timestamp))
  {
    var o := RaftProtocol.Propose(n, command, timestamp);
    if n.role != Leader {
      QuietSound(n, o, h, members);
    } else {
      var h' := h.(written := h.written[n.term := o.node.log]);
      ProposeObserved(n, o.node, h, members);
      WrittenKeepsElected(h, n.term, o.node.log, members);
      WriterOk(n, o.node, h, members);
    }
  }

  lemma ProposeObserved(n: Node, x: Node, h: History, members: set<NodeId>)
    requires NodeOk(n, h, members) && n.role == Leader && x == Persist(n.(log := x.log)) && n.log <= x.log
    ensures Observe(h, x) == h.(written := h.written[n.term := x.log]) && Extends(h, Observe(h, x))
  {
    ObserveKnown(n, h, members);
  }

  lemma WriterOk(n: Node, x: Node, h: History, members: set<NodeId>)
    requires NodeOk(n, h, members) && n.role == Leader && x == Persist(n.(log := x.log))
    ensures NodeOk(x, h.(written := h.written[n.term := x.log]), members)
  {
  }

  lemma HeartbeatSound(n: Node, h: History, members: set<NodeId>)
    requires Elected(h, members) && NodeOk(n, h, members)
    ensures Sound(h, members, n, Heartbeat(n))
  {
    QuietSound(n, Heartbeat(n), h, members);
  }

  // ---------------------------------------------------------------- every step, every run

  /** No handler ever looks up a key it does not have, and every step is sound. */
  lemma StepSound(c: Cluster, a: Action, h: History)
    requires Inv(c, h) && Enabled(c, a)
    ensures Defined(c, a)
    ensures Sound(h, c.nodes.Keys, c.nodes[Actor(a)], Perform(c, a))
  {
    var members := c.nodes.Keys;
    var n := c.nodes[Actor(a)];
    match a
    case Timeout(_) => StartElectionSound(n, h, members);
    case Propose(_, command, timestamp) => ProposeSound(n, command, timestamp, h, members);
    case Beat(_) => HeartbeatSound(n, h, members);
    case Receive(p) => MessageSound(n, p.msg, h, members);
    case Crash(_) =>
      RestartSound(n, h, members);
      ObserveKnown(Restart(n), h, members);
    case CrashReceiving(p) =>
      ObserveTermSound(n, p.msg.term, h, members);
      var n' := ObserveTerm(n, p.msg.term);
      RestartSound(n', h, members);
      ObserveKnown(Restart(n'), h, members);
  }

  /** A step of one node disturbs what is known of no other. */
  lemma OthersKept(n: Node, m: Node, h: History, members: set<NodeId>, o: Outcome)
    requires NodeOk(m, h, members) && m.id != n.id && Sound(h, members, n, o)
    ensures NodeOk(m, Observe(h, o.node), members)
  {
    var h' := Observe(h, o.node);
    assert forall v, t, x :: Voted(h, v, t, x) ==> Voted(h', v, t, x);
    assert forall t :: (m.id, t) in h'.votes ==> (m.id, t) in h.votes;
    if m.role == Leader {
      assert h'.won[m.term] == m.id;
    }
  }

  lemma NextKeepsInv(c: Cluster, a: Action, c': Cluster, h: History)
    requires Inv(c, h) && Next(c, a, c')
    ensures var h' := Observe(h, c'.nodes[Actor(a)]); Inv(c', h') && Extends(h, h')
    ensures c'.nodes.Keys == c.nodes.Keys
  {
    var n := c.nodes[Actor(a)];
    var o := Perform(c, a);
    var members := c.nodes.Keys;
    StepSound(c, a, h);
    var h' := Observe(h, o.node);
    assert c'.nodes.Keys == members;
    forall id | id in c'.nodes ensures c'.nodes[id].id == id && NodeOk(c'.nodes[id], h', members) {
      if id != n.id {
        OthersKept(n, c.nodes[id], h, members, o);
      }
    }
    forall p | p in c'.net ensures PacketOk(p, h', members) {
      if p in c.net {
        PacketStays(p, h, h', members);
      }
    }
  }

  lemma PacketStays(p: Packet, h: History, h': History, members: set<NodeId>)
    requires PacketOk(p, h, members) && Extends(h, h')
    ensures PacketOk(p, h', members)
  {
  }

  lemma StepAt(r: Run, k: nat)
    requires r.Valid() && k < |r.actions|
    ensures Next(r.states[k], r.actions[k], r.states[k + 1])
    ensures Actor(r.actions[k]) in r.states[k + 1].nodes
  {
    assert r.Step(k);
  }

  /** The history of a run after `k` steps. */
  ghost function HistoryOf(r: Run, k: nat): History
    requires r.Valid() && k <= |r.actions|
  {
    if k == 0 then NO_HISTORY
    else
      StepAt(r, k - 1);
      Observe(HistoryOf(r, k - 1), r.states[k].nodes[Actor(r.actions[k - 1])])
  }

  lemma InitialInv(c: Cluster)
    requires Initial(c)
    ensures Inv(c, NO_HISTORY)
  {
    forall id | id in c.nodes ensures c.nodes[id].id == id && NodeOk(c.nodes[id], NO_HISTORY, c.nodes.Keys) {
      assert c.nodes[id] == Fresh(id, c.nodes[id].peers);
    }
  }

  lemma HistoryStep(r: Run, k: nat)
    requires r.Valid() && 0 < k <= |r.actions|
    requires Inv(r.states[k - 1], HistoryOf(r, k - 1))
    ensures Inv(r.states[k], HistoryOf(r, k))
    ensures Extends(HistoryOf(r, k - 1), HistoryOf(r, k))
    ensures r.states[k].nodes.Keys == r.states[k - 1].nodes.Keys
  {
    StepAt(r, k - 1);
    NextKeepsInv(r.states[k - 1], r.actions[k - 1], r.states[k], HistoryOf(r, k - 1));
  }

  lemma HistoryStart(r: Run)
    requires r.Valid()
    ensures Inv(r.states[0], HistoryOf(r, 0))
  {
    InitialInv(r.states[0]);
  }

  lemma {:induction false} RunKeepsInv(r: Run, k: nat)
    requires r.Valid() && k <= |r.actions|
    ensures Inv(r.states[k], HistoryOf(r, k))
    ensures r.states[k].nodes.Keys == r.states[0].nodes.Keys
  {
    if k == 0 {
      HistoryStart(r);
    } else {
      RunKeepsInv(r, k - 1);
      HistoryStep(r, k);
    }
  }

  lemma ExtendsTransitive(a: History, b: History, c: History)
    requires Extends(a, b) && Extends(b, c)
    ensures Extends(a, c)
  {
  }

  lemma {:induction false} HistoryGrows(r: Run, i: nat, k: nat)
    requires r.Valid() && i <= k <= |r.actions|
    ensures Extends(HistoryOf(r, i), HistoryOf(r, k))
    decreases k - i
  {
    if i == k {
      ExtendsItself(HistoryOf(r, i));
    } else {
      HistoryGrows(r, i, k - 1);
      HistoryGrowsOn(r, i, k);
    }
  }

  lemma ExtendsItself(h: History)
    ensures Extends(h, h)
  {
  }

  lemma HistoryGrowsOn(r: Run, i: nat, k: nat)
    requires r.Valid() && i < k <= |r.actions| && Extends(HistoryOf(r, i), HistoryOf(r, k - 1))
    ensures Extends(HistoryOf(r, i), HistoryOf(r, k))
  {
    RunKeepsInv(r, k - 1);
    HistoryStep(r, k);
    ExtendsTransitive(HistoryOf(r, i), HistoryOf(r, k - 1), HistoryOf(r, k));
  }

  /** Two leaders of one term, at any two moments of a run, are the same node. */
  lemma ElectionSafety(r: Run, i: nat, j: nat, a: NodeId, b: NodeId)
    requires r.Valid() && i < |r.states| && j < |r.states|
    requires a in r.states[i].nodes && r.states[i].nodes[a].role == Leader
    requires b in r.states[j].nodes && r.states[j].nodes[b].role == Leader
    requires r.states[i].nodes[a].term == r.states[j].nodes[b].term
    ensures a == b
  {
    RunKeepsInv(r, i);
    RunKeepsInv(r, j);
    if i <= j { HistoryGrows(r, i, j); } else { HistoryGrows(r, j, i); }
  }

  /** While a node leads a term, its log only grows at the end. */
  lemma LeaderAppendOnly(r: Run, i: nat, j: nat, a: NodeId)
    requires r.Valid() && i <= j < |r.states|
    requires a in r.states[i].nodes && a in r.states[j].nodes
    requires r.states[i].nodes[a].role == Leader && r.states[j].nodes[a].role == Leader
    requires r.states[i].nodes[a].term == r.states[j].nodes[a].term
    ensures r.states[i].nodes[a].log <= r.states[j].nodes[a].log
  {
    RunKeepsInv(r, i);
    RunKeepsInv(r, j);
    HistoryGrows(r, i, j);
  }

  /** Nothing the scheduler may do makes a handler fail a lookup, in any reachable state. */
  lemma HandlersNeverFail(r: Run, k: nat, a: Action)
    requires r.Valid() && k < |r.states| && Enabled(r.states[k], a)
    ensures Defined(r.states[k], a)
  {
    RunKeepsInv(r, k);
    StepSound(r.states[k], a, HistoryOf(r, k));
  }
}
