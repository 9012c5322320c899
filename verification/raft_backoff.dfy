/**
 Backing off: how a leader whose guess of a peer's log is wrong finds its way
 back to a position at which the two logs agree, one refused heartbeat at a time.
 */
module RaftBackoff {
  import opened Wrappers
  import opened RaftProtocol
  import opened RaftCluster
  import opened RaftRuns

  // ---------------------------------------------------------------- what a leader's next heartbeat says

  /** The node leads, and what its next heartbeat sends `p` is about this position of the log. */
  ghost predicate Names(n: Node, p: NodeId, position: nat) {
    && n.role == Leader && p in n.peers && LeaderReady(n)
    && forall q :: q in Heartbeat(n).out && q.dst == p ==> q.msg.AppendEntries? && q.msg.prevLogIndex == position
  }

  lemma HeartbeatTo(n: Node, p: NodeId)
    requires n.role == Leader && p in n.peers && LeaderReady(n)
    ensures Packet(p, AppendMessage(n, p, [])) in Heartbeat(n).out
    ensures forall q :: q in Heartbeat(n).out && q.dst == p ==> q.msg == AppendMessage(n, p, [])
  {
    var i :| 0 <= i < |n.peers| && n.peers[i] == p;
    assert Heartbeat(n).out[i] == Packet(p, AppendMessage(n, p, []));
  }

  lemma NamesIs(n: Node, p: NodeId, position: nat)
    ensures Names(n, p, position) <==>
      n.role == Leader && p in n.peers && LeaderReady(n) && n.nextIndex[p] == position + 1
  {
    if n.role == Leader && p in n.peers && LeaderReady(n) {
      HeartbeatTo(n, p);
      assert Packet(p, AppendMessage(n, p, [])).dst == p;
    }
  }

  function Back(position: nat, steps: nat): nat {
    if position >= steps then position - steps else 0
  }

  // ---------------------------------------------------------------- one answer

  /** A refused answer of no later term moves the sender's position one back, and nothing else. */
  lemma RefusalBacksOff(c: Cluster, id: NodeId, m: Message, c': Cluster, p: NodeId, position: nat)
    requires Next(c, Receive(Packet(id, m)), c') && m.AppendResponse? && !m.success
    requires Names(c.nodes[id], p, position) && m.term <= c.nodes[id].term
    ensures Names(c'.nodes[id], p, if p != m.sender || position == 0 then position else position - 1)
    ensures c'.nodes[id] == c.nodes[id].(nextIndex := c'.nodes[id].nextIndex)
    ensures c' == Cluster(c.nodes[id := c'.nodes[id]], c.net)
  {
    NamesIs(c.nodes[id], p, position);
    NamesIs(c'.nodes[id], p, if p != m.sender || position == 0 then position else position - 1);
  }

  /** An accepted answer of no later term puts the sender's position where the answer says, and no other. */
  lemma AcceptanceAdvances(c: Cluster, id: NodeId, m: Message, c': Cluster, p: NodeId, position: nat)
    requires Next(c, Receive(Packet(id, m)), c') && m.AppendResponse? && m.success
    requires Names(c.nodes[id], p, position) && m.term <= c.nodes[id].term
    ensures Names(c'.nodes[id], p, if p == m.sender then m.matchIndex else position)
    ensures var n, n' := c.nodes[id], c'.nodes[id];
      && n'.log == n.log && n'.term == n.term && n'.disk == n.disk
      && (p == m.sender ==> p in n'.matchIndex && n'.matchIndex[p] == m.matchIndex)
      && (p != m.sender ==> (p in n'.matchIndex <==> p in n.matchIndex))
      && (p != m.sender && p in n.matchIndex ==> n'.matchIndex[p] == n.matchIndex[p])
    ensures c' == Cluster(c.nodes[id := c'.nodes[id]], c.net)
  {
    NamesIs(c.nodes[id], p, position);
    NamesIs(c'.nodes[id], p, if p == m.sender then m.matchIndex else position);
  }

  /**
   A request of an earlier term changes nothing and is refused with the node's own
   term; whoever is behind that term then gives up its role and its vote, and keeps
   its log.
   */
  lemma StaleIsTold(v: Node, m: Message, n: Node)
    requires CanHandle(v, m) && (m.RequestVote? || m.AppendEntries?) && m.term < v.term
    ensures HandleMessage(v, m).node == v && |HandleMessage(v, m).out| == 1
    ensures var answer := HandleMessage(v, m).out[0];
      && answer.dst == m.sender && answer.msg.term == v.term
      && (answer.msg.VoteResponse? ==> !answer.msg.granted) && (answer.msg.AppendResponse? ==> !answer.msg.success)
      && (CanHandle(n, answer.msg) && n.term < v.term ==>
            HandleMessage(n, answer.msg)
            == Outcome(Persist(n.(term := v.term, role := Follower, votedFor := None)), []))
  {
  }

  // ---------------------------------------------------------------- any stretch of a run

  /** `id` handles an answer of `p`. */
  predicate Hears(a: Action, id: NodeId, p: NodeId, success: bool) {
    a.Receive? && a.packet.dst == id && a.packet.msg.AppendResponse? && a.packet.msg.sender == p
    && a.packet.msg.success == success
  }

  predicate Leads(c: Cluster, id: NodeId, term: nat) {
    id in c.nodes && c.nodes[id].role == Leader && c.nodes[id].term == term
  }

  /** How many refusals of `p` reach `id` in the steps from state `i` to state `j`. */
  ghost function Refusals(r: Run, id: NodeId, p: NodeId, i: nat, j: nat): nat
    requires j <= |r.actions|
  {
    if j <= i then 0
    else Refusals(r, id, p, i, j - 1) + if Hears(r.actions[j - 1], id, p, false) then 1 else 0
  }

  /** It leads the term, and its next heartbeat names this position to `p`. */
  ghost predicate NamesIn(c: Cluster, id: NodeId, term: nat, p: NodeId, position: nat) {
    Leads(c, id, term) && Names(c.nodes[id], p, position)
  }

  lemma OtherMessagesKeep(n: Node, m: Message)
    requires CanHandle(n, m) && n.role == Leader && !m.AppendResponse?
    requires var n' := HandleMessage(n, m).node; n'.role == Leader && n'.term == n.term
    ensures var n' := HandleMessage(n, m).node; n'.nextIndex == n.nextIndex && n'.peers == n.peers
  {
  }

  lemma AnswersMove(n: Node, m: Message, p: NodeId)
    requires CanHandle(n, m) && n.role == Leader && m.AppendResponse? && p in n.peers
    requires var n' := HandleMessage(n, m).node; n'.role == Leader && n'.term == n.term
    requires m.sender == p ==> !m.success
    ensures var n' := HandleMessage(n, m).node;
      && n'.peers == n.peers && LeaderReady(n')
      && n'.nextIndex[p] == if m.sender == p && n.nextIndex[p] > 1 then n.nextIndex[p] - 1 else n.nextIndex[p]
  {
  }

  /** Any step of any node, while `id` stays leader. */
  lemma StepMovesBack(c: Cluster, a: Action, c': Cluster, id: NodeId, term: nat, p: NodeId, position: nat)
    requires Next(c, a, c') && NamesIn(c, id, term, p, position) && Leads(c', id, term) && !Hears(a, id, p, true)
    ensures NamesIn(c', id, term, p, Back(position, if Hears(a, id, p, false) then 1 else 0))
  {
    var n, n' := c.nodes[id], c'.nodes[id];
    NamesIs(n, p, position);
    if a.Receive? && a.packet.dst == id {
      if a.packet.msg.AppendResponse? {
        AnswersMove(n, a.packet.msg, p);
      } else {
        OtherMessagesKeep(n, a.packet.msg);
      }
    }
    NamesIs(n', p, Back(position, if Hears(a, id, p, false) then 1 else 0));
  }

  /**
   While a node leads a term and nothing it hears from `p` is an acceptance, its
   next message to `p` is one position further back for every refusal it has
   heard, whatever else happens in the cluster, until it is at the start.
   */
  lemma {:induction false} RefusalsCounted(
    r: Run, id: NodeId, term: nat, p: NodeId, i: nat, j: nat, position: nat)
    requires r.Valid() && i <= j <= |r.actions|
    requires forall k :: i <= k <= j ==> Leads(r.states[k], id, term)
    requires forall k :: i <= k < j ==> !Hears(r.actions[k], id, p, true)
    requires NamesIn(r.states[i], id, term, p, position)
    ensures NamesIn(r.states[j], id, term, p, Back(position, Refusals(r, id, p, i, j)))
    decreases j
  {
    if i < j {
      RefusalsCounted(r, id, term, p, i, j - 1, position);
      assert r.Step(j - 1);
      StepMovesBack(r.states[j - 1], r.actions[j - 1], r.states[j], id, term, p,
                    Back(position, Refusals(r, id, p, i, j - 1)));
    }
  }

  /** After as many refusals as the first position is from the start, any log passes the check. */
  lemma RefusalsRunOut(
    r: Run, id: NodeId, term: nat, p: NodeId, i: nat, j: nat, position: nat, log: seq<Entry>, m: Message)
    requires r.Valid() && i <= j <= |r.actions|
    requires forall k :: i <= k <= j ==> Leads(r.states[k], id, term)
    requires forall k :: i <= k < j ==> !Hears(r.actions[k], id, p, true)
    requires NamesIn(r.states[i], id, term, p, position) && Refusals(r, id, p, i, j) >= position
    requires id in r.states[j].nodes && LeaderReady(r.states[j].nodes[id])
    requires Packet(p, m) in Heartbeat(r.states[j].nodes[id]).out
    ensures m.AppendEntries? && Consistent(log, m.prevLogIndex, m.prevLogTerm)
  {
    RefusalsCounted(r, id, term, p, i, j, position);
    assert Packet(p, m).dst == p;
  }

  // ---------------------------------------------------------------- heartbeats and answers in turn

  /** A leader beats, `p` handles the heartbeat, and the leader the answer, with nothing in between. */
  ghost predicate Round(c: Cluster, c': Cluster, id: NodeId, p: NodeId, m: Message, answer: Message) {
    exists c1, c2 :: Legs(c, c1, c2, c', id, p, m, answer)
  }

  ghost predicate Legs(
    c: Cluster, c1: Cluster, c2: Cluster, c': Cluster, id: NodeId, p: NodeId, m: Message, answer: Message) {
    && Next(c, Beat(id), c1) && Packet(p, m) in Heartbeat(c.nodes[id]).out
    && Next(c1, Receive(Packet(p, m)), c2) && Packet(id, answer) in Perform(c1, Receive(Packet(p, m))).out
    && Next(c2, Receive(Packet(id, answer)), c')
  }

  /** The term of the entry at a position, 0 where there is none. */
  function TermAt(log: seq<Entry>, position: nat): nat {
    if 0 < position <= |log| then log[position - 1].term else 0
  }

  /** The follower's log has an entry of the leader's term there, or the position is the start. */
  predicate Meet(leader: seq<Entry>, follower: seq<Entry>, position: nat) {
    position == 0 || (position <= |follower| && TermAt(follower, position) == TermAt(leader, position))
  }

  /** A leader whose next message to `p` is about this position, and `p`, which has seen no later term. */
  ghost predicate Paired(c: Cluster, id: NodeId, term: nat, p: NodeId, position: nat, leader: seq<Entry>, follower: seq<Entry>)
  {
    && Leads(c, id, term) && c.nodes[id].id == id && c.nodes[id].log == leader
    && p in c.nodes[id].peers && LeaderReady(c.nodes[id]) && c.nodes[id].nextIndex[p] == position + 1
    && p != id && p in c.nodes && c.nodes[p].id == p && c.nodes[p].term <= term && c.nodes[p].log == follower
  }

  /** That is what it names. */
  lemma PairedNames(
    c: Cluster, id: NodeId, term: nat, p: NodeId, position: nat, leader: seq<Entry>, follower: seq<Entry>)
    requires Paired(c, id, term, p, position, leader, follower)
    ensures NamesIn(c, id, term, p, position)
  {
    NamesIs(c.nodes[id], p, position);
  }

  lemma HeartbeatHeard(n: Node, p: NodeId, m: Message, v: Node, position: nat)
    requires Names(n, p, position) && Packet(p, m) in Heartbeat(n).out && CanHandle(v, m) && v.term <= n.term
    ensures var o := HandleMessage(v, m);
      && o.node.term == n.term && o.node.log == v.log && o.node.id == v.id
      && o.out == [Packet(n.id, AppendResponse(n.term, v.id, Meet(n.log, v.log, position), |v.log|))]
  {
    NamesIs(n, p, position);
    HeartbeatTo(n, p);
    assert Packet(p, m).dst == p;
    assert v.log + [] == v.log;
  }

  /**
   One round: the heartbeat passes exactly where the logs meet. Then the leader
   has the length of the follower's log; otherwise it is one position further back.
   */
  lemma RoundIs(
    c: Cluster, c': Cluster, id: NodeId, p: NodeId, m: Message, answer: Message,
    term: nat, position: nat, leader: seq<Entry>, follower: seq<Entry>)
    requires Round(c, c', id, p, m, answer) && Paired(c, id, term, p, position, leader, follower)
    ensures answer.AppendResponse? && (answer.success <==> Meet(leader, follower, position))
    ensures Paired(c', id, term, p, if answer.success then |follower| else Back(position, 1), leader, follower)
    ensures answer.success ==> p in c'.nodes[id].matchIndex && c'.nodes[id].matchIndex[p] == |follower|
  {
    var c1, c2 :| Legs(c, c1, c2, c', id, p, m, answer);
    PairedNames(c, id, term, p, position, leader, follower);
    HeartbeatHeard(c.nodes[id], p, m, c.nodes[p], position);
    assert c1.nodes == c.nodes;
    assert answer == AppendResponse(term, p, Meet(leader, follower, position), |follower|);
    if answer.success {
      AcceptanceAdvances(c2, id, answer, c', p, position);
    } else {
      RefusalBacksOff(c2, id, answer, c', p, position);
    }
    NamesIs(c'.nodes[id], p, if answer.success then |follower| else Back(position, 1));
  }

  /** A round with an answer of this kind. */
  ghost predicate RoundWith(c: Cluster, c': Cluster, id: NodeId, p: NodeId, success: bool) {
    exists m, answer :: Round(c, c', id, p, m, answer) && answer.AppendResponse? && answer.success == success
  }

  lemma RoundWithIs(
    c: Cluster, c': Cluster, id: NodeId, p: NodeId, success: bool,
    term: nat, position: nat, leader: seq<Entry>, follower: seq<Entry>)
    requires RoundWith(c, c', id, p, success) && Paired(c, id, term, p, position, leader, follower)
    ensures success <==> Meet(leader, follower, position)
    ensures Paired(c', id, term, p, if success then |follower| else Back(position, 1), leader, follower)
  {
    var m, answer :| Round(c, c', id, p, m, answer) && answer.AppendResponse? && answer.success == success;
    RoundIs(c, c', id, p, m, answer, term, position, leader, follower);
  }

  /** Rounds one after another, and what they bring. */
  ghost predicate Rounds(states: seq<Cluster>, id: NodeId, p: NodeId, answers: seq<bool>) {
    if |answers| == 0 then |states| == 1
    else
      var n := |answers| - 1;
      && |states| == n + 2 && Rounds(states[..n + 1], id, p, answers[..n])
      && RoundWith(states[n], states[n + 1], id, p, answers[n])
  }

  /** The logs meet at none of the `k` positions from this one back. */
  ghost predicate NoneMeet(leader: seq<Entry>, follower: seq<Entry>, position: nat, k: nat) {
    forall q: nat :: q <= position < q + k ==> !Meet(leader, follower, q)
  }

  lemma NoneMeetNext(leader: seq<Entry>, follower: seq<Entry>, position: nat, k: nat)
    requires NoneMeet(leader, follower, position, k) && k <= position && !Meet(leader, follower, Back(position, k))
    ensures k + 1 <= position && NoneMeet(leader, follower, position, k + 1)
  {
  }

  /** The first place to meet, going back from here, is `k` positions back. */
  ghost predicate FirstMeet(leader: seq<Entry>, follower: seq<Entry>, position: nat, k: nat) {
    k <= position && Meet(leader, follower, Back(position, k)) && NoneMeet(leader, follower, position, k)
  }

  lemma MeetsHere(leader: seq<Entry>, follower: seq<Entry>, position: nat)
    requires Meet(leader, follower, position)
    ensures FirstMeet(leader, follower, position, 0)
  {
  }

  lemma MeetsBefore(leader: seq<Entry>, follower: seq<Entry>, position: nat, k: nat)
    requires !Meet(leader, follower, position) && FirstMeet(leader, follower, Back(position, 1), k)
    ensures FirstMeet(leader, follower, position, k + 1)
  {
    assert Back(Back(position, 1), k) == Back(position, k + 1);
  }

  /** The leader is `k` positions further back, and the logs have met at none of those it tried. */
  ghost predicate BackedOff(
    c: Cluster, id: NodeId, term: nat, p: NodeId, position: nat, k: nat, leader: seq<Entry>, follower: seq<Entry>)
  {
    && k <= position && NoneMeet(leader, follower, position, k)
    && Paired(c, id, term, p, Back(position, k), leader, follower)
  }

  lemma BacksOffOnce(
    c: Cluster, c': Cluster, id: NodeId, p: NodeId,
    term: nat, position: nat, k: nat, leader: seq<Entry>, follower: seq<Entry>)
    requires BackedOff(c, id, term, p, position, k, leader, follower) && RoundWith(c, c', id, p, false)
    ensures BackedOff(c', id, term, p, position, k + 1, leader, follower)
  {
    RoundWithIs(c, c', id, p, false, term, Back(position, k), leader, follower);
    NoneMeetNext(leader, follower, position, k);
    assert Back(Back(position, k), 1) == Back(position, k + 1);
  }

  lemma NotYetBack(
    c: Cluster, id: NodeId, term: nat, p: NodeId, position: nat, leader: seq<Entry>, follower: seq<Entry>)
    requires Paired(c, id, term, p, position, leader, follower)
    ensures BackedOff(c, id, term, p, position, 0, leader, follower)
  {
  }

  lemma LastRound(states: seq<Cluster>, id: NodeId, p: NodeId, answers: seq<bool>, n: nat)
    requires Rounds(states, id, p, answers) && |answers| == n + 1
    ensures |states| == n + 2 && Rounds(states[..n + 1], id, p, answers[..n])
    ensures RoundWith(states[n], states[n + 1], id, p, answers[n])
  {
  }

  /** After `k` refusals. */
  lemma {:induction false} RoundsRefused(
    first: Cluster, states: seq<Cluster>, id: NodeId, p: NodeId, answers: seq<bool>, k: nat, c: Cluster,
    term: nat, position: nat, leader: seq<Entry>, follower: seq<Entry>)
    requires |answers| == k && |states| == k + 1 && states[k] == c && Rounds(states, id, p, answers)
    requires states[0] == first && Paired(first, id, term, p, position, leader, follower)
    requires forall i :: 0 <= i < k ==> !answers[i]
    ensures BackedOff(c, id, term, p, position, k, leader, follower)
  {
    if k == 0 {
      NotYetBack(c, id, term, p, position, leader, follower);
    } else {
      var n: nat := k - 1;
      LastRound(states, id, p, answers, n);
      RoundsRefused(first, states[..n + 1], id, p, answers[..n], n, states[n], term, position, leader, follower);
      BacksOffOnce(states[n], c, id, p, term, position, n, leader, follower);
    }
  }

  /**
   When heartbeats and their answers alternate, a refusal takes the position back
   by one and leaves the logs as they are. So there are at most as many refusals
   as the first position is from the start, and the heartbeat that passes is the
   first to name a position where the logs meet.
   */
  lemma BackoffEnds(
    states: seq<Cluster>, id: NodeId, p: NodeId, answers: seq<bool>, c': Cluster, success: bool,
    term: nat, position: nat, leader: seq<Entry>, follower: seq<Entry>)
    requires Rounds(states, id, p, answers) && |states| == |answers| + 1
    requires forall i :: 0 <= i < |answers| ==> !answers[i]
    requires Paired(states[0], id, term, p, position, leader, follower)
    requires RoundWith(states[|answers|], c', id, p, success)
    ensures |answers| <= position && (|answers| == position ==> success)
    ensures success <==> FirstMeet(leader, follower, position, |answers|)
    ensures success ==> Paired(c', id, term, p, |follower|, leader, follower)
  {
    var c := states[|answers|];
    RoundsRefused(states[0], states, id, p, answers, |answers|, c, term, position, leader, follower);
    RoundWithIs(c, c', id, p, success, term, Back(position, |answers|), leader, follower);
  }

  /** The leader beats, `p` handles the heartbeat, and its answer is under way. */
  lemma TakeHeartbeat(
    r: Run, id: NodeId, term: nat, p: NodeId, position: nat, leader: seq<Entry>, follower: seq<Entry>)
    returns (r1: Run, r2: Run, m: Message, answer: Message)
    requires r.Valid() && AllAddressed(r) && Paired(Last(r), id, term, p, position, leader, follower)
    ensures Continuation(r, r1) && Continuation(r1, r2)
    ensures Packet(p, m) in Heartbeat(Last(r).nodes[id]).out
    ensures Next(Last(r), Beat(id), Last(r1)) && Next(Last(r1), Receive(Packet(p, m)), Last(r2))
    ensures Packet(id, answer) in Perform(Last(r1), Receive(Packet(p, m))).out
    ensures Packet(id, answer) in Last(r2).net && id in Last(r2).nodes && answer.AppendResponse?
  {
    var n, v := Last(r).nodes[id], Last(r).nodes[p];
    PairedNames(Last(r), id, term, p, position, leader, follower);
    HeartbeatTo(n, p);
    m, answer := AppendMessage(n, p, []), AppendResponse(term, p, Meet(leader, follower, position), |follower|);
    r1 := Go(r, Beat(id));
    r2 := Go(r1, Receive(Packet(p, m)));
    HeartbeatHeard(n, p, m, v, position);
  }

  /** A round may follow any run that ends with a leader and such a follower. */
  lemma TakeRound(
    r: Run, id: NodeId, term: nat, p: NodeId, position: nat, leader: seq<Entry>, follower: seq<Entry>)
    returns (r': Run, success: bool)
    requires r.Valid() && AllAddressed(r) && Paired(Last(r), id, term, p, position, leader, follower)
    ensures Continuation(r, r') && RoundWith(Last(r), Last(r'), id, p, success)
  {
    var r1, r2, m, answer := TakeHeartbeat(r, id, term, p, position, leader, follower);
    r' := Go(r2, Receive(Packet(id, answer)));
    assert Legs(Last(r), Last(r1), Last(r2), Last(r'), id, p, m, answer);
    success := answer.success;
    assert Round(Last(r), Last(r'), id, p, m, answer);
  }

  /**
   So from any state of any such run the leader can find the follower's log: with
   at most as many refusals as its position is from the start, and no more than it
   takes to reach a position where the logs meet.
   */
  lemma {:induction false} LeaderFindsLog(
    r: Run, id: NodeId, term: nat, p: NodeId, position: nat, leader: seq<Entry>, follower: seq<Entry>)
    returns (r': Run, refusals: nat)
    requires r.Valid() && AllAddressed(r) && Paired(Last(r), id, term, p, position, leader, follower)
    ensures Continuation(r, r') && Paired(Last(r'), id, term, p, |follower|, leader, follower)
    ensures FirstMeet(leader, follower, position, refusals)
    decreases position
  {
    var success;
    r', success := TakeRound(r, id, term, p, position, leader, follower);
    RoundWithIs(Last(r), Last(r'), id, p, success, term, position, leader, follower);
    if success {
      refusals := 0;
      MeetsHere(leader, follower, position);
    } else {
      r', refusals := LeaderFindsLog(r', id, term, p, Back(position, 1), leader, follower);
      MeetsBefore(leader, follower, position, refusals);
      refusals := refusals + 1;
    }
  }
}
