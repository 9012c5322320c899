/**
 When a committed entry is safe, exactly: whoever counts what, later leaders have
 it in every continuation of a run if and only if the nodes that lack it are no
 majority.
 */
module RaftExactness {
  import opened RaftProtocol
  import opened RaftCluster
  import opened RaftElection
  import opened RaftLogs
  import opened RaftRuns
  import opened RaftCompleteness
  import opened RaftSafety

  // ---------------------------------------------------------------- nothing is had without having been held

  ghost predicate Latest(h: History, t: nat) {
    forall u :: u in h.written ==> u <= t
  }

  /** While a term is the latest, whoever has an entry of it has held it in that term. */
  ghost predicate HeldIfHad(c: Cluster, h: History, g: Holdings) {
    forall id, t: nat, k: nat :: id in c.nodes && Latest(h, t) && Own(h, t, k) && Agree(c.nodes[id].log, h.written[t], k) ==>
      Holds(g, id, t, k)
  }

  /** A log takes over entries only from a leader of the node's new term. */
  predicate LogComes(h: History, n: Node, x: Node) {
    x.log == n.log || x.term in h.written
  }

  lemma HeldIfHadStep(c: Cluster, h: History, g: Holdings, c': Cluster, h': History, g': Holdings, n: Node, x: Node)
    requires Moves(c, h, g, c', h', g', n, x) && HeldIfHad(c, h, g) && LogComes(h', n, x)
    requires TermsUpTo(x.log, x.term) && forall id :: id in c.nodes ==> LogOk(h, c.nodes[id].log)
    ensures HeldIfHad(c', h', g')
  {
    forall id, t: nat, k: nat |
      id in c'.nodes && Latest(h', t) && Own(h', t, k) && Agree(c'.nodes[id].log, h'.written[t], k)
      ensures Holds(g', id, t, k)
    {
      if id == n.id {
        MoverHeld(c, h, g, c', h', g', n, x, t, k);
      } else {
        OtherHeld(c, h, g, c', h', g', n, x, id, t, k);
      }
    }
  }

  lemma LatestBefore(h: History, h': History, t: nat)
    requires Extends(h, h') && Latest(h', t)
    ensures Latest(h, t)
  {
  }

  lemma MoverHeld(
    c: Cluster, h: History, g: Holdings, c': Cluster, h': History, g': Holdings, n: Node, x: Node, t: nat, k: nat)
    requires Moves(c, h, g, c', h', g', n, x) && HeldIfHad(c, h, g) && LogComes(h', n, x)
    requires TermsUpTo(x.log, x.term)
    requires Latest(h', t) && Own(h', t, k) && Agree(x.log, h'.written[t], k)
    ensures Holds(g', n.id, t, k)
  {
    AgreeEach(x.log, h'.written[t], k);
    assert x.log[k - 1].term == t;
    RecordHolds(g, h', x, n.id, t, k);
    if t < x.term {
      assert x.term !in h'.written;
      assert h'.written == h.written && x.log == n.log;
      assert Latest(h, t) && Own(h, t, k);
    }
  }

  lemma OtherHeld(
    c: Cluster, h: History, g: Holdings, c': Cluster, h': History, g': Holdings, n: Node, x: Node,
    id: NodeId, t: nat, k: nat)
    requires Moves(c, h, g, c', h', g', n, x) && HeldIfHad(c, h, g)
    requires id in c.nodes && id != n.id && LogOk(h, c.nodes[id].log)
    requires Latest(h', t) && Own(h', t, k) && Agree(c.nodes[id].log, h'.written[t], k)
    ensures Holds(g', id, t, k)
  {
    var log := c.nodes[id].log;
    AgreeEach(log, h'.written[t], k);
    assert Placed(h, log, k - 1);
    var w, w' := h.written[t], h'.written[t];
    assert w[k - 1] == w'[k - 1] && w[..k] == w'[..k];
    LatestBefore(h, h', t);
    assert Own(h, t, k) && Agree(log, w, k);
    RecordHolds(g, h', x, id, t, k);
  }

  lemma StepLogComes(c: Cluster, h: History, a: Action)
    requires Inv(c, h) && Enabled(c, a) && Defined(c, a)
    ensures LogComes(Observe(h, Perform(c, a).node), c.nodes[Actor(a)], Perform(c, a).node)
  {
    var n := c.nodes[Actor(a)];
    assert NodeOk(n, h, c.nodes.Keys);
    if a.Receive? {
      HandlesMessage(n, a.packet.msg);
      assert PacketOk(a.packet, h, c.nodes.Keys);
    }
  }

  lemma NextKeepsHeld(c: Cluster, h: History, g: Holdings, a: Action, c': Cluster)
    requires Inv(c, h) && LogsInv(c, h) && Safe(c, h, g) && HeldIfHad(c, h, g) && Next(c, a, c')
    ensures var h' := Observe(h, c'.nodes[Actor(a)]); HeldIfHad(c', h', Record(g, h', c'.nodes[Actor(a)]))
  {
    var n, x := c.nodes[Actor(a)], Perform(c, a).node;
    var h' := Observe(h, x);
    NextMoves(c, h, g, a, c');
    StepOk(c, h, g, a);
    StepLogComes(c, h, a);
    HeldIfHadStep(c, h, g, c', h', Record(g, h', x), n, x);
  }

  ghost predicate HeldAt(r: Run, k: nat)
    requires r.Valid() && k <= |r.actions|
  {
    HeldIfHad(r.states[k], HistoryOf(r, k), HoldingsOf(r, k))
  }

  lemma HeldAtStep(r: Run, k: nat)
    requires r.Valid() && k < |r.actions| && LogsAt(r, k) && SafeAt(r, k) && HeldAt(r, k)
    ensures HeldAt(r, k + 1)
  {
    RecordAt(r, k);
    NextKeepsHeld(r.states[k], HistoryOf(r, k), HoldingsOf(r, k), r.actions[k], r.states[k + 1]);
  }

  lemma HeldNext(r: Run, k: nat)
    requires r.Valid() && AllAddressed(r) && k < |r.actions| && HeldAt(r, k)
    ensures HeldAt(r, k + 1)
  {
    LogsHold(r, k);
    RunKeepsSafe(r, k);
    HeldAtStep(r, k);
  }

  lemma HeldAtStart(r: Run)
    requires r.Valid()
    ensures HeldAt(r, 0)
  {
  }

  lemma {:induction false} RunKeepsHeld(r: Run, k: nat)
    requires r.Valid() && AllAddressed(r) && k <= |r.actions|
    ensures HeldAt(r, k)
  {
    if k == 0 {
      HeldAtStart(r);
    } else {
      RunKeepsHeld(r, k - 1);
      HeldNext(r, k - 1);
    }
  }

  // ---------------------------------------------------------------- no majority lacks it: it is safe

  /** A majority none of which has `p` at the start of its log. */
  ghost predicate Lacking(c: Cluster, p: seq<Entry>, s: set<NodeId>) {
    Majority(s, c.nodes.Keys) && forall v :: v in s ==> !(p <= c.nodes[v].log)
  }

  ghost predicate MajorityLacks(c: Cluster, p: seq<Entry>) {
    exists s :: Lacking(c, p, s)
  }

  lemma UnlackedIsSecured(c: Cluster, h: History, g: Holdings, t: nat, k: nat)
    requires HeldIfHad(c, h, g) && Latest(h, t) && Own(h, t, k) && !MajorityLacks(c, h.written[t][..k])
    ensures Secured(c.nodes.Keys, g, t, k)
  {
    var p := h.written[t][..k];
    forall s | Majority(s, c.nodes.Keys) ensures Hit(s, g, t, k) {
      assert !Lacking(c, p, s);
      var v :| v in s && p <= c.nodes[v].log;
      assert Agree(c.nodes[v].log, h.written[t], k);
    }
  }

  /** What has happened is not undone by going on. */
  lemma {:induction false} SameBeginning(r: Run, r': Run, k: nat)
    requires Continuation(r, r') && k <= |r.actions|
    ensures HistoryOf(r', k) == HistoryOf(r, k) && HoldingsOf(r', k) == HoldingsOf(r, k)
  {
    if k > 0 {
      SameBeginning(r, r', k - 1);
      StepAt(r, k - 1);
      assert r'.states[k] == r.states[k] && r'.actions[k - 1] == r.actions[k - 1];
    }
  }

  lemma SafeIfUnlacked(r: Run, t: nat, k: nat, r': Run, u: nat)
    requires r.Valid() && AllAddressed(r) && Continuation(r, r')
    requires Own(HistoryOf(r, |r.actions|), t, k) && Latest(HistoryOf(r, |r.actions|), t)
    requires !MajorityLacks(Last(r), HistoryOf(r, |r.actions|).written[t][..k])
    requires t < u && u in HistoryOf(r', |r'.actions|).written
    ensures HistoryOf(r, |r.actions|).written[t][..k] <= HistoryOf(r', |r'.actions|).written[u]
  {
    var i := |r.actions|;
    RunKeepsHeld(r, i);
    UnlackedIsSecured(Last(r), HistoryOf(r, i), HoldingsOf(r, i), t, k);
    SameBeginning(r, r', i);
    assert r'.states[i] == r.states[i];
    SecuredIsKept(r', i, |r'.actions|, t, k, u);
  }

  // ---------------------------------------------------------------- a majority lacks it: it can be lost

  /** Timing out again and again takes a node to any later term. */
  lemma {:induction false} TakeCandidacies(r: Run, b: NodeId, u: nat) returns (r': Run)
    requires r.Valid() && AllAddressed(r) && b in Last(r).nodes
    requires Last(r).nodes[b].role != Leader && |Last(r).nodes[b].peers| > 0 && Last(r).nodes[b].term < u
    ensures Continuation(r, r') && OthersSame(Last(r), Last(r'), {b})
    ensures Asks(Last(r'), b, u, Last(r).nodes[b].log)
    ensures Last(r').nodes[b].votes == {b}
    decreases u - Last(r).nodes[b].term
  {
    var r1 := TakeCandidacy(r, b);
    if Last(r).nodes[b].term + 1 == u {
      r' := r1;
    } else {
      r' := TakeCandidacies(r1, b, u);
    }
  }

  lemma TakeOneVote(r: Run, b: NodeId, v: NodeId, u: nat, log: seq<Entry>) returns (r': Run)
    requires r.Valid() && AllAddressed(r) && Asks(Last(r), b, u, log) && v in Last(r).nodes[b].peers
    requires v in Last(r).nodes && v != b && Last(r).nodes[v].term < u
    requires UpToDate(LastTerm(log), LastIndex(log), Last(r).nodes[v].log)
    ensures Continuation(r, r') && OthersSame(Last(r), Last(r'), {b, v})
    ensures var n, x := Last(r).nodes[b], Last(r').nodes[b];
            && x.id == b && x.term == u && x.log == log && x.peers == n.peers && x.votes == n.votes + {v}
            && x.role == (if IsMajority(n, |n.votes + {v}|) then Leader else Candidate)
  {
    r' := TakeVote(r, b, v, u, log);
  }

  /** These peers would vote for `b` in term `u`. */
  ghost predicate WouldGrant(c: Cluster, b: NodeId, rest: set<NodeId>, u: nat, log: seq<Entry>) {
    b in c.nodes && forall v :: v in rest ==>
      && v in c.nodes[b].peers && v in c.nodes && v != b && c.nodes[v].term < u
      && UpToDate(LastTerm(log), LastIndex(log), c.nodes[v].log)
  }

  lemma StillGrant(c: Cluster, c': Cluster, b: NodeId, v: NodeId, rest: set<NodeId>, u: nat, log: seq<Entry>)
    requires WouldGrant(c, b, rest, u, log) && OthersSame(c, c', {b, v}) && c'.nodes[b].peers == c.nodes[b].peers
    ensures WouldGrant(c', b, rest - {v}, u, log)
  {
  }

  lemma MovedOver(votes: set<NodeId>, rest: set<NodeId>, v: NodeId)
    requires v in rest
    ensures (votes + {v}) + (rest - {v}) == votes + rest && |rest - {v}| < |rest|
  {
  }

  /** Candidates whose voters are still to answer win in the end. */
  lemma {:induction false} TakeVotes(r: Run, b: NodeId, rest: set<NodeId>, u: nat, log: seq<Entry>) returns (r': Run)
    requires r.Valid() && AllAddressed(r) && Asks(Last(r), b, u, log)
    requires !IsMajority(Last(r).nodes[b], |Last(r).nodes[b].votes|)
    requires IsMajority(Last(r).nodes[b], |Last(r).nodes[b].votes + rest|)
    requires WouldGrant(Last(r), b, rest, u, log)
    ensures Continuation(r, r') && b in Last(r').nodes
    ensures Last(r').nodes[b].role == Leader && Last(r').nodes[b].term == u && Last(r').nodes[b].log == log
    decreases |rest|
  {
    var votes := Last(r).nodes[b].votes;
    assert rest != {} by {
      assert rest == {} ==> votes + rest == votes;
    }
    var v :| v in rest;
    var r1 := TakeOneVote(r, b, v, u, log);
    if Last(r1).nodes[b].role == Leader {
      r' := r1;
    } else {
      MovedOver(votes, rest, v);
      StillGrant(Last(r), Last(r1), b, v, rest, u, log);
      r' := TakeVotes(r1, b, rest - {v}, u, log);
    }
  }

  lemma {:induction false} BestLog(c: Cluster, s: set<NodeId>) returns (b: NodeId)
    requires s != {} && s <= c.nodes.Keys
    ensures b in s
    ensures forall v :: v in s ==> UpToDate(LastTerm(c.nodes[b].log), LastIndex(c.nodes[b].log), c.nodes[v].log)
    decreases |s|
  {
    var v :| v in s;
    var rest := s - {v};
    if rest == {} {
      assert s == {v};
      b := v;
    } else {
      var best := BestLog(c, rest);
      b := if UpToDate(LastTerm(c.nodes[v].log), LastIndex(c.nodes[v].log), c.nodes[best].log) then v else best;
    }
  }

  lemma {:induction false} TermsBelow(c: Cluster, s: set<NodeId>, t: nat) returns (u: nat)
    requires s <= c.nodes.Keys
    ensures t < u && forall v :: v in s ==> c.nodes[v].term < u
    decreases |s|
  {
    if s == {} {
      u := t + 1;
    } else {
      var v :| v in s;
      u := TermsBelow(c, s - {v}, t);
      u := if c.nodes[v].term < u then u else c.nodes[v].term + 1;
    }
  }

  lemma WonReached(c: Cluster, h: History, t: nat) returns (v: NodeId)
    requires Inv(c, h) && t in h.written
    ensures v in c.nodes && t <= c.nodes[v].term
  {
    v :| v in h.voters[t];
    assert Voted(h, v, t, h.won[t]);
    assert NodeOk(c.nodes[v], h, c.nodes.Keys);
  }

  /** A node that is the whole cluster wins as soon as it times out. */
  lemma TakeLoneWin(r: Run, b: NodeId) returns (r': Run)
    requires r.Valid() && AllAddressed(r) && b in Last(r).nodes
    requires Last(r).nodes[b].role != Leader && |Last(r).nodes[b].peers| == 0
    ensures Continuation(r, r') && b in Last(r').nodes
    ensures var n, x := Last(r).nodes[b], Last(r').nodes[b];
            x.role == Leader && x.term == n.term + 1 && x.log == n.log
  {
    r' := Go(r, Timeout(b));
  }

  /** The best placed node of a majority can be elected by it. */
  lemma TakeWin(r: Run, b: NodeId, s: set<NodeId>, u: nat) returns (r': Run)
    requires r.Valid() && AllAddressed(r) && Majority(s, Last(r).nodes.Keys) && b in s
    requires Last(r).nodes[b].role != Leader && |Last(r).nodes[b].peers| > 0
    requires forall v :: v in s ==> Last(r).nodes[v].term < u
    requires var log := Last(r).nodes[b].log;
             forall v :: v in s ==> UpToDate(LastTerm(log), LastIndex(log), Last(r).nodes[v].log)
    ensures Continuation(r, r') && b in Last(r').nodes
    ensures Last(r').nodes[b].role == Leader && Last(r').nodes[b].term == u
    ensures Last(r').nodes[b].log == Last(r).nodes[b].log
  {
    var r1 := TakeCandidacies(r, b, u);
    LastKnown(r, b);
    LastKnown(r1, b);
    assert {b} + (s - {b}) == s;
    r' := TakeVotes(r1, b, s - {b}, u, Last(r).nodes[b].log);
  }

  lemma LastLeaderWrote(r: Run, b: NodeId)
    requires r.Valid() && b in Last(r).nodes && Last(r).nodes[b].role == Leader
    ensures var h, n := HistoryOf(r, |r.actions|), Last(r).nodes[b];
            n.term in h.written && h.written[n.term] == n.log
  {
    RunKeepsInv(r, |r.actions|);
    LeaderWrote(Last(r), HistoryOf(r, |r.actions|), b);
  }

  /** The whole cluster's one node has reached every term that was won. */
  lemma LoneReached(r: Run, b: NodeId, t: nat)
    requires r.Valid() && b in Last(r).nodes && |Last(r).nodes[b].peers| == 0
    requires t in HistoryOf(r, |r.actions|).written
    ensures t <= Last(r).nodes[b].term
  {
    LastKnown(r, b);
    RunKeepsInv(r, |r.actions|);
    var v := WonReached(Last(r), HistoryOf(r, |r.actions|), t);
  }

  lemma TakeLaterWin(r: Run, b: NodeId, s: set<NodeId>, t: nat) returns (r': Run)
    requires r.Valid() && AllAddressed(r) && Majority(s, Last(r).nodes.Keys) && b in s
    requires Last(r).nodes[b].role != Leader && (|Last(r).nodes[b].peers| == 0 ==> t <= Last(r).nodes[b].term)
    requires var log := Last(r).nodes[b].log;
             forall v :: v in s ==> UpToDate(LastTerm(log), LastIndex(log), Last(r).nodes[v].log)
    ensures Continuation(r, r') && b in Last(r').nodes
    ensures Last(r').nodes[b].role == Leader && t < Last(r').nodes[b].term
    ensures Last(r').nodes[b].log == Last(r).nodes[b].log
  {
    if |Last(r).nodes[b].peers| == 0 {
      r' := TakeLoneWin(r, b);
    } else {
      var u := TermsBelow(Last(r), s, t);
      r' := TakeWin(r, b, s, u);
    }
  }

  lemma LostIfLacked(r: Run, t: nat, p: seq<Entry>, s: set<NodeId>) returns (r': Run, u: nat)
    requires r.Valid() && AllAddressed(r) && t in HistoryOf(r, |r.actions|).written && Lacking(Last(r), p, s)
    ensures Continuation(r, r') && t < u && u in HistoryOf(r', |r'.actions|).written
    ensures !(p <= HistoryOf(r', |r'.actions|).written[u])
  {
    var b := BestLog(Last(r), s);
    if |Last(r).nodes[b].peers| == 0 {
      LoneReached(r, b, t);
    }
    var r1 := TakeCrash(r, b);
    r' := TakeLaterWin(r1, b, s, t);
    LastLeaderWrote(r', b);
    u := Last(r').nodes[b].term;
  }

  /** In every continuation, every leader of a later term has the first `k` entries of term `t`'s leader. */
  ghost predicate AlwaysKept(r: Run, t: nat, p: seq<Entry>)
    requires r.Valid()
  {
    forall r', u: nat :: Continuation(r, r') && t < u && u in HistoryOf(r', |r'.actions|).written ==>
      p <= HistoryOf(r', |r'.actions|).written[u]
  }

  /**
   Leader Completeness for one entry of the latest leader's own term, committed or
   not: every later leader, however the run goes on, will have it if and only if
   the nodes whose logs lack it now are no majority. The code counts acknowledged
   lengths instead.
   */
  lemma KeptExactly(r: Run, t: nat, k: nat)
    requires r.Valid() && AllAddressed(r)
    requires Own(HistoryOf(r, |r.actions|), t, k) && Latest(HistoryOf(r, |r.actions|), t)
    ensures var p := HistoryOf(r, |r.actions|).written[t][..k];
            AlwaysKept(r, t, p) <==> !MajorityLacks(Last(r), p)
  {
    var p := HistoryOf(r, |r.actions|).written[t][..k];
    if MajorityLacks(Last(r), p) {
      var s :| Lacking(Last(r), p, s);
      var r', u := LostIfLacked(r, t, p, s);
      assert !AlwaysKept(r, t, p);
    } else {
      forall r', u: nat | Continuation(r, r') && t < u && u in HistoryOf(r', |r'.actions|).written
        ensures p <= HistoryOf(r', |r'.actions|).written[u]
      {
        SafeIfUnlacked(r, t, k, r', u);
      }
    }
  }

  /**
   So for what a leader of the latest term has committed, up to an entry of its
   own: it is safe if and only if no majority lacks it.
   */
  lemma CommitKeptExactly(r: Run, id: NodeId)
    requires r.Valid() && AllAddressed(r) && id in Last(r).nodes
    requires var n := Last(r).nodes[id];
             && n.role == Leader && Latest(HistoryOf(r, |r.actions|), n.term)
             && 0 < n.commitIndex <= |n.log| && n.log[n.commitIndex - 1].term == n.term
    ensures var n := Last(r).nodes[id];
            var p := n.log[..n.commitIndex];
            AlwaysKept(r, n.term, p) <==> !MajorityLacks(Last(r), p)
  {
    LastLeaderWrote(r, id);
    var n := Last(r).nodes[id];
    KeptExactly(r, n.term, n.commitIndex);
  }
}
