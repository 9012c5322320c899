/**
 Leader Completeness (section 5.4 of the Raft paper), as far as the code keeps it.

 What is proved of every run of addressed proposals is about logs, not about
 counting: an entry of a leader's own term that a majority really held, each
 while in that term, is in the log of every later leader. The history is
 extended by how much of each leader's log each node has held in that
 leader's term.
 */
module RaftCompleteness {
  import opened Wrappers
  import opened RaftProtocol
  import opened RaftCluster
  import opened RaftElection
  import opened RaftLogs

  // ---------------------------------------------------------------- what was held

  /** How many of a term's leader's entries a node has held at once while in that term. */
  type Holdings = map<(NodeId, nat), nat>

  predicate Agree(a: seq<Entry>, b: seq<Entry>, k: nat) {
    k <= |a| && k <= |b| && a[..k] == b[..k]
  }

  lemma AgreeEach(a: seq<Entry>, b: seq<Entry>, k: nat)
    requires Agree(a, b, k)
    ensures forall j :: 0 <= j < k ==> a[j] == b[j]
  {
    forall j | 0 <= j < k ensures a[j] == b[j] {
      assert a[..k][j] == b[..k][j];
    }
  }

  /** The length of the longest common prefix. */
  function Common(a: seq<Entry>, b: seq<Entry>): (k: nat)
    ensures Agree(a, b, k)
  {
    if |a| == 0 || |b| == 0 || a[0] != b[0] then 0
    else
      var k := Common(a[1..], b[1..]);
      assert a[..k + 1] == [a[0]] + a[1..][..k];
      assert b[..k + 1] == [b[0]] + b[1..][..k];
      k + 1
  }

  lemma {:induction false} CommonIsLongest(a: seq<Entry>, b: seq<Entry>, k: nat)
    ensures Agree(a, b, k) <==> k <= Common(a, b)
  {
    var c := Common(a, b);
    if k <= c {
      assert a[..k] == a[..c][..k] == b[..c][..k] == b[..k];
    } else if Agree(a, b, k) {
      assert a[0] == a[..k][0] == b[..k][0] == b[0];
      assert a[1..][..k - 1] == a[..k][1..] == b[..k][1..] == b[1..][..k - 1];
      CommonIsLongest(a[1..], b[1..], k - 1);
    }
  }

  predicate Holds(g: Holdings, v: NodeId, t: nat, k: nat) {
    (v, t) in g && g[(v, t)] >= k
  }

  /** Note how far a node agrees with the leader of its term. */
  function Record(g: Holdings, h: History, n: Node): Holdings {
    if n.term !in h.written then g
    else
      var k := Common(n.log, h.written[n.term]);
      if Holds(g, n.id, n.term, k) then g else g[(n.id, n.term) := k]
  }

  lemma RecordHolds(g: Holdings, h: History, n: Node, v: NodeId, t: nat, k: nat)
    ensures Holds(Record(g, h, n), v, t, k) <==>
            Holds(g, v, t, k) || (v == n.id && t == n.term && t in h.written && Agree(n.log, h.written[t], k))
  {
    if n.term in h.written {
      CommonIsLongest(n.log, h.written[n.term], k);
    }
  }

  // ---------------------------------------------------------------- kept or blocked

  /** The leader of term `t` wrote its `k`-th entry in that very term. */
  ghost predicate Own(h: History, t: nat, k: nat) {
    t in h.written && 0 < k <= |h.written[t]| && h.written[t][k - 1].term == t
  }

  /** A majority that has left term `t` without having held those entries, and so never will. */
  ghost predicate Bars(s: set<NodeId>, c: Cluster, g: Holdings, t: nat, k: nat) {
    && s <= c.nodes.Keys && |s| > |c.nodes.Keys| / 2
    && (forall v :: v in s ==> c.nodes[v].term > t && !Holds(g, v, t, k))
  }

  ghost predicate Blocked(c: Cluster, g: Holdings, t: nat, k: nat) {
    exists s :: Bars(s, c, g, t, k)
  }

  /** The log has the first `k` entries of term `t`'s leader, or no majority will ever hold them. */
  ghost predicate Kept(c: Cluster, h: History, g: Holdings, log: seq<Entry>, t: nat, k: nat)
    requires t in h.written
  {
    Agree(log, h.written[t], k) || Blocked(c, g, t, k)
  }

  /** So it is for everything that node `v` held in a term before `u`. */
  ghost predicate KeepsHeld(c: Cluster, h: History, g: Holdings, v: NodeId, u: nat, log: seq<Entry>) {
    forall t: nat, k: nat :: t < u && Own(h, t, k) && Holds(g, v, t, k) ==> Kept(c, h, g, log, t, k)
  }

  ghost predicate NodesKeep(c: Cluster, h: History, g: Holdings) {
    forall id :: id in c.nodes ==> KeepsHeld(c, h, g, id, c.nodes[id].term + 1, c.nodes[id].log)
  }

  /** A candidate's log keeps what each node that voted for it held before. */
  ghost predicate CandidatesKeep(c: Cluster, h: History, g: Holdings) {
    forall id, v :: id in c.nodes && c.nodes[id].role == Candidate && Voted(h, v, c.nodes[id].term, id) ==>
      KeepsHeld(c, h, g, v, c.nodes[id].term, c.nodes[id].log)
  }

  ghost predicate WinnersKeep(c: Cluster, h: History, g: Holdings) {
    forall t: nat, u: nat, k: nat :: t < u && u in h.written && Own(h, t, k) ==> Kept(c, h, g, h.written[u], t, k)
  }

  // ---------------------------------------------------------------- the rest of the invariant

  predicate TermsUpTo(log: seq<Entry>, t: nat) {
    forall i :: 0 <= i < |log| ==> 0 < log[i].term <= t
  }

  ghost predicate Bounded(c: Cluster, h: History) {
    && (forall t :: t in h.written ==> t > 0 && TermsUpTo(h.written[t], t))
    && (forall id :: id in c.nodes ==> TermsUpTo(c.nodes[id].log, c.nodes[id].term))
    && (forall id :: id in c.nodes && c.nodes[id].role != Follower ==> c.nodes[id].term > 0)
  }

  ghost predicate HoldingsOk(c: Cluster, h: History, g: Holdings) {
    forall v, t: nat, k: nat :: Holds(g, v, t, k) ==>
      v in c.nodes && t <= c.nodes[v].term && t in h.written && k <= |h.written[t]|
  }

  /** Nobody has a vote in a term it has not reached. */
  ghost predicate VotesReached(c: Cluster, h: History) {
    forall v, t :: (v, t) in h.votes ==> h.votes[(v, t)] in c.nodes && t <= c.nodes[h.votes[(v, t)]].term
  }

  /** While its sender is still a candidate, a vote request describes the sender's log. */
  ghost predicate RequestOk(c: Cluster, m: Message)
    requires m.RequestVote?
  {
    && m.sender in c.nodes && m.term <= c.nodes[m.sender].term
    && (c.nodes[m.sender].role == Candidate && c.nodes[m.sender].term == m.term ==>
          m.lastLogIndex == LastIndex(c.nodes[m.sender].log) && m.lastLogTerm == LastTerm(c.nodes[m.sender].log))
  }

  ghost predicate RequestsOk(c: Cluster) {
    forall p :: p in c.net && p.msg.RequestVote? ==> RequestOk(c, p.msg)
  }

  ghost predicate Safe(c: Cluster, h: History, g: Holdings) {
    && Bounded(c, h) && HoldingsOk(c, h, g) && VotesReached(c, h) && RequestsOk(c)
    && NodesKeep(c, h, g) && CandidatesKeep(c, h, g) && WinnersKeep(c, h, g)
  }

  // ---------------------------------------------------------------- what a step may do to its node

  /** A message may leave the log alone, or splice the entries of a leader of the new term. */
  predicate LogHandled(n: Node, m: Message, x: Node) {
    || x.log == n.log
    || (&& m.AppendEntries? && m.entries != [] && m.term == x.term
        && Consistent(n.log, m.prevLogIndex, m.prevLogTerm)
        && x.log == Splice(n.log, m.prevLogIndex, m.entries))
  }

  /** A node leads because it did, or because this vote completed its election. */
  predicate LeadHandled(n: Node, m: Message, x: Node) {
    && x.log == n.log && x.term == n.term
    && (|| n.role == Leader
        || (&& n.role == Candidate && m.VoteResponse? && m.granted && m.term == n.term
            && x.votes == n.votes + {m.sender}))
  }

  /** A vote is the old one, or granted to a sender whose log is up to date. */
  predicate VoteHandled(n: Node, m: Message, x: Node) {
    || (x.term == n.term && x.votedFor == n.votedFor)
    || (&& m.RequestVote? && Some(m.sender) == x.votedFor && m.term == x.term && x.log == n.log
        && UpToDate(m.lastLogTerm, m.lastLogIndex, n.log))
  }

  /** What handling a message may do to the term, log, role and vote of a node. */
  predicate Handles(n: Node, m: Message, x: Node) {
    && x.id == n.id && n.term <= x.term && m.term <= x.term
    && LogHandled(n, m, x)
    && (x.role == Candidate ==> n.role == Candidate && x.term == n.term && x.log == n.log)
    && (x.role == Leader ==> LeadHandled(n, m, x))
    && (x.votedFor.Some? ==> VoteHandled(n, m, x))
  }

  lemma HandlesAppend(n: Node, m: Message)
    requires m.AppendEntries? && m.term <= n.term
    ensures Handles(n, m, HandleAppendEntries(n, m).node)
  {
  }

  lemma HandlesMessage(n: Node, m: Message)
    requires CanHandle(n, m)
    ensures Handles(n, m, HandleMessage(n, m).node)
    ensures forall p :: p in HandleMessage(n, m).out ==> !p.msg.RequestVote?
  {
    var o := ObserveTerm(n, m.term);
    match m
    case AppendEntries(_, _, _, _, _, _) => HandlesAppend(o, m);
    case AppendResponse(_, _, _, _) =>
      if o.role == Leader && m.success {
        CheckCommitKeeps(Acknowledge(o, m.sender, m.matchIndex));
      }
    case _ =>
  }

  // ---------------------------------------------------------------- what every step leaves standing

  /** One node goes from `n` to `x`, and the history and the holdings take note. */
  ghost predicate Moves(
    c: Cluster, h: History, g: Holdings, c': Cluster, h': History, g': Holdings, n: Node, x: Node)
  {
    && n.id in c.nodes && c.nodes[n.id] == n && x.id == n.id && n.term <= x.term
    && c'.nodes == c.nodes[n.id := x]
    && Extends(h, h') && h' == Observe(h, x) && g' == Record(g, h', x)
  }

  lemma BlockedStays(
    c: Cluster, h: History, g: Holdings, c': Cluster, h': History, g': Holdings, n: Node, x: Node, t: nat, k: nat)
    requires Moves(c, h, g, c', h', g', n, x) && Blocked(c, g, t, k)
    ensures Blocked(c', g', t, k)
  {
    var s :| Bars(s, c, g, t, k);
    assert c'.nodes.Keys == c.nodes.Keys;
    forall v | v in s ensures c'.nodes[v].term > t && !Holds(g', v, t, k) {
      RecordHolds(g, h', x, v, t, k);
    }
    assert Bars(s, c', g', t, k);
  }

  lemma KeptStays(
    c: Cluster, h: History, g: Holdings, c': Cluster, h': History, g': Holdings, n: Node, x: Node,
    log: seq<Entry>, log': seq<Entry>, t: nat, k: nat)
    requires Moves(c, h, g, c', h', g', n, x) && t in h.written
    requires Kept(c, h, g, log, t, k) && log <= log'
    ensures Kept(c', h', g', log', t, k)
  {
    if Blocked(c, g, t, k) {
      BlockedStays(c, h, g, c', h', g', n, x, t, k);
    } else {
      var w, w' := h.written[t], h'.written[t];
      assert w'[..k] == w[..k] && log'[..k] == log[..k];
    }
  }

  /** An entry of a leader's own term that is new was written in this step. */
  lemma NewOwn(
    c: Cluster, h: History, g: Holdings, c': Cluster, h': History, g': Holdings, n: Node, x: Node, t: nat, k: nat)
    requires Moves(c, h, g, c', h', g', n, x) && HoldingsOk(c, h, g) && Own(h', t, k) && !Own(h, t, k)
    ensures t == x.term && x.role == Leader
    ensures forall v :: !Holds(g, v, t, k)
  {
    assert t in h.written && k <= |h.written[t]| ==> Own(h, t, k);
  }

  /** What a node holds of a term before its new one it held before the step. */
  lemma HeldBefore(
    c: Cluster, h: History, g: Holdings, c': Cluster, h': History, g': Holdings, n: Node, x: Node,
    v: NodeId, t: nat, k: nat)
    requires Moves(c, h, g, c', h', g', n, x) && HoldingsOk(c, h, g)
    requires Own(h', t, k) && Holds(g', v, t, k) && (v != n.id || t < x.term)
    ensures Holds(g, v, t, k) && Own(h, t, k)
  {
    RecordHolds(g, h', x, v, t, k);
    if !Own(h, t, k) {
      NewOwn(c, h, g, c', h', g', n, x, t, k);
    }
  }

  lemma KeepsHeldStays(
    c: Cluster, h: History, g: Holdings, c': Cluster, h': History, g': Holdings, n: Node, x: Node,
    v: NodeId, u: nat, log: seq<Entry>)
    requires Moves(c, h, g, c', h', g', n, x) && HoldingsOk(c, h, g)
    requires KeepsHeld(c, h, g, v, u, log) && (v == n.id ==> u <= x.term)
    ensures KeepsHeld(c', h', g', v, u, log)
  {
    forall t: nat, k: nat | t < u && Own(h', t, k) && Holds(g', v, t, k) ensures Kept(c', h', g', log, t, k) {
      HeldBefore(c, h, g, c', h', g', n, x, v, t, k);
      KeptStays(c, h, g, c', h', g', n, x, log, log, t, k);
    }
  }

  // ---------------------------------------------------------------- nodes keep what they held

  /** Splicing part of `w` keeps every common beginning of `w` and the log. */
  lemma SpliceKeepsCommon(log: seq<Entry>, prev: nat, entries: seq<Entry>, w: seq<Entry>, k: nat)
    requires prev <= |log| && prev + |entries| <= |w| && entries == w[prev..prev + |entries|]
    requires Agree(log, w, k)
    ensures Agree(Splice(log, prev, entries), log, k)
  {
    if Conflicts(log, prev, entries) {
      var f := FirstConflict(log, prev, entries);
      AgreeEach(log, w, k);
      assert entries[f] == w[prev + f];
      assert k <= prev + f;
      assert Splice(log, prev, entries)[..k] == log[..prev + f][..k] == log[..k];
    } else {
      SpliceKeepsOrConflicts(log, prev, entries);
    }
  }

  /** A splice from a leader of term `m.term` keeps what was held in a term up to that. */
  lemma SpliceKeeps(c: Cluster, h: History, g: Holdings, log: seq<Entry>, m: Message, t: nat, k: nat)
    requires m.AppendEntries? && Quotes(h, m) && Consistent(log, m.prevLogIndex, m.prevLogTerm)
    requires WinnersKeep(c, h, g) && Own(h, t, k) && t <= m.term && m.prevLogIndex <= |log|
    requires Kept(c, h, g, log, t, k)
    ensures Kept(c, h, g, Splice(log, m.prevLogIndex, m.entries), t, k)
  {
    var w := h.written[m.term];
    assert Kept(c, h, g, w, t, k);
    if Agree(w, h.written[t], k) && Agree(log, h.written[t], k) {
      SpliceKeepsCommon(log, m.prevLogIndex, m.entries, w, k);
    }
  }

  /** The log after the step keeps what the log before it kept. */
  ghost predicate LogKeeps(c: Cluster, h: History, g: Holdings, n: Node, x: Node) {
    forall t: nat, k: nat :: t <= n.term && Own(h, t, k) && Kept(c, h, g, n.log, t, k) ==> Kept(c, h, g, x.log, t, k)
  }

  lemma NodesKeepStep(c: Cluster, h: History, g: Holdings, c': Cluster, h': History, g': Holdings, n: Node, x: Node)
    requires Moves(c, h, g, c', h', g', n, x) && HoldingsOk(c, h, g) && NodesKeep(c, h, g)
    requires LogKeeps(c, h, g, n, x)
    ensures NodesKeep(c', h', g')
  {
    forall id | id in c'.nodes ensures KeepsHeld(c', h', g', id, c'.nodes[id].term + 1, c'.nodes[id].log) {
      if id != n.id {
        KeepsHeldStays(c, h, g, c', h', g', n, x, id, c.nodes[id].term + 1, c.nodes[id].log);
      } else {
        MoverKeeps(c, h, g, c', h', g', n, x);
      }
    }
  }

  lemma MoverKeeps(c: Cluster, h: History, g: Holdings, c': Cluster, h': History, g': Holdings, n: Node, x: Node)
    requires Moves(c, h, g, c', h', g', n, x) && HoldingsOk(c, h, g)
    requires KeepsHeld(c, h, g, n.id, n.term + 1, n.log) && LogKeeps(c, h, g, n, x)
    ensures KeepsHeld(c', h', g', n.id, x.term + 1, x.log)
  {
    forall t: nat, k: nat | t < x.term + 1 && Own(h', t, k) && Holds(g', n.id, t, k)
      ensures Kept(c', h', g', x.log, t, k)
    {
      RecordHolds(g, h', x, n.id, t, k);
      if Holds(g, n.id, t, k) {
        if !Own(h, t, k) {
          NewOwn(c, h, g, c', h', g', n, x, t, k);
        }
        KeptStays(c, h, g, c', h', g', n, x, x.log, x.log, t, k);
      }
    }
  }

  // ---------------------------------------------------------------- winners keep what a majority held

  /** Voters none of whom held the entries bar them: they are a majority, and past that term. */
  lemma VotersBar(c: Cluster, h: History, g: Holdings, u: nat, t: nat, k: nat)
    requires Inv(c, h) && u in h.won && t < u
    requires forall v :: v in h.voters[u] ==> !Holds(g, v, t, k)
    ensures Blocked(c, g, t, k)
  {
    forall v | v in h.voters[u] ensures c.nodes[v].term > t {
      assert Voted(h, v, u, h.won[u]);
      assert NodeOk(c.nodes[v], h, c.nodes.Keys);
    }
    assert Bars(h.voters[u], c, g, t, k);
  }

  /** The new winner's log keeps what any of its voters held. */
  ghost predicate WinKept(c: Cluster, h: History, g: Holdings, h': History, x: Node) {
    x.role == Leader && x.term !in h.written ==>
      forall v :: v in x.votes ==> KeepsHeld(c, h, g, v, x.term, x.log)
  }

  lemma WinnersKeepStep(c: Cluster, h: History, g: Holdings, c': Cluster, h': History, g': Holdings, n: Node, x: Node)
    requires Moves(c, h, g, c', h', g', n, x) && HoldingsOk(c, h, g) && WinnersKeep(c, h, g)
    requires Inv(c', h') && WinKept(c, h, g, h', x)
    ensures WinnersKeep(c', h', g')
  {
    forall t: nat, u: nat, k: nat | t < u && u in h'.written && Own(h', t, k)
      ensures Kept(c', h', g', h'.written[u], t, k)
    {
      WinnerKeeps(c, h, g, c', h', g', n, x, t, u, k);
    }
  }

  lemma WinnerKeeps(
    c: Cluster, h: History, g: Holdings, c': Cluster, h': History, g': Holdings, n: Node, x: Node,
    t: nat, u: nat, k: nat)
    requires Moves(c, h, g, c', h', g', n, x) && HoldingsOk(c, h, g) && WinnersKeep(c, h, g)
    requires Inv(c', h') && WinKept(c, h, g, h', x)
    requires t < u && u in h'.written && Own(h', t, k)
    ensures Kept(c', h', g', h'.written[u], t, k)
  {
    if u !in h.written {
      FreshWinnerKeeps(c, h, g, c', h', g', n, x, t, u, k);
    } else if Own(h, t, k) {
      KnownWinnerKeeps(c, h, g, c', h', g', n, x, t, u, k);
    } else {
      NewOwn(c, h, g, c', h', g', n, x, t, k);
      OldWinnerKeeps(c, h, g, c', h', g', n, x, t, u, k);
    }
  }

  lemma KnownWinnerKeeps(
    c: Cluster, h: History, g: Holdings, c': Cluster, h': History, g': Holdings, n: Node, x: Node,
    t: nat, u: nat, k: nat)
    requires Moves(c, h, g, c', h', g', n, x) && HoldingsOk(c, h, g) && WinnersKeep(c, h, g)
    requires t < u && u in h.written && Own(h, t, k)
    ensures u in h'.written && Own(h', t, k) && Kept(c', h', g', h'.written[u], t, k)
  {
    assert Kept(c, h, g, h.written[u], t, k);
    KeptStays(c, h, g, c', h', g', n, x, h.written[u], h'.written[u], t, k);
  }

  /** A term won only now is the mover's. */
  lemma NewWinner(c: Cluster, h: History, g: Holdings, c': Cluster, h': History, g': Holdings, n: Node, x: Node, u: nat)
    requires Moves(c, h, g, c', h', g', n, x) && u in h'.written && u !in h.written
    ensures x.role == Leader && x.term == u && h'.written[u] == x.log
  {
  }

  lemma FreshWinnerKeeps(
    c: Cluster, h: History, g: Holdings, c': Cluster, h': History, g': Holdings, n: Node, x: Node,
    t: nat, u: nat, k: nat)
    requires Moves(c, h, g, c', h', g', n, x) && HoldingsOk(c, h, g) && Inv(c', h') && WinKept(c, h, g, h', x)
    requires t < u && u in h'.written && u !in h.written && Own(h', t, k)
    ensures Kept(c', h', g', h'.written[u], t, k)
  {
    NewWinner(c, h, g, c', h', g', n, x, u);
    NewWinnerKeeps(c, h, g, c', h', g', n, x, t, k);
  }

  /** Nobody who voted in a later term can hold what is only now being written. */
  lemma OldWinnerKeeps(
    c: Cluster, h: History, g: Holdings, c': Cluster, h': History, g': Holdings, n: Node, x: Node,
    t: nat, u: nat, k: nat)
    requires Moves(c, h, g, c', h', g', n, x) && HoldingsOk(c, h, g) && Inv(c', h')
    requires t < u && u in h'.won && t == x.term && forall v :: !Holds(g, v, t, k)
    ensures Blocked(c', g', t, k)
  {
    forall v | v in h'.voters[u] ensures !Holds(g', v, t, k) {
      assert Voted(h', v, u, h'.won[u]);
      assert NodeOk(c'.nodes[v], h', c'.nodes.Keys);
      RecordHolds(g, h', x, v, t, k);
    }
    VotersBar(c', h', g', u, t, k);
  }

  lemma NewWinnerKeeps(
    c: Cluster, h: History, g: Holdings, c': Cluster, h': History, g': Holdings, n: Node, x: Node, t: nat, k: nat)
    requires Moves(c, h, g, c', h', g', n, x) && HoldingsOk(c, h, g) && Inv(c', h')
    requires x.role == Leader && x.term !in h.written && WinKept(c, h, g, h', x)
    requires t < x.term && Own(h', t, k)
    ensures Kept(c', h', g', x.log, t, k)
  {
    if v :| v in x.votes && Holds(g', v, t, k) {
      HeldBefore(c, h, g, c', h', g', n, x, v, t, k);
      KeptStays(c, h, g, c', h', g', n, x, x.log, x.log, t, k);
    } else {
      VotersBar(c', h', g', x.term, t, k);
    }
  }

  // ---------------------------------------------------------------- candidates keep what their voters held

  /** Terms never fall along a log. */
  lemma TermsRise(c: Cluster, h: History, log: seq<Entry>, i: nat, j: nat)
    requires Bounded(c, h) && LogOk(h, log) && i <= j < |log|
    ensures log[i].term <= log[j].term
  {
    var t := log[j].term;
    assert Placed(h, log, j);
    assert log[i] == log[..j + 1][i] == h.written[t][i];
  }

  /** A placed log is the beginning of the log of the leader of its last entry's term. */
  lemma WholeLogPlaced(h: History, log: seq<Entry>)
    requires LogOk(h, log) && |log| > 0
    ensures LastTerm(log) in h.written && log <= h.written[LastTerm(log)]
    ensures LastIndex(log) == |log|
  {
    assert Placed(h, log, |log| - 1);
    assert log[..|log|] == log;
  }

  /** A log at least as up to date as one that keeps an entry keeps it too. */
  lemma UpToDateKeeps(c: Cluster, h: History, g: Holdings, mine: seq<Entry>, other: seq<Entry>, t: nat, k: nat)
    requires Bounded(c, h) && WinnersKeep(c, h, g) && LogOk(h, mine) && LogOk(h, other)
    requires Own(h, t, k) && Agree(mine, h.written[t], k)
    requires UpToDate(LastTerm(other), LastIndex(other), mine)
    ensures Kept(c, h, g, other, t, k)
  {
    WholeLogPlaced(h, mine);
    AgreeEach(mine, h.written[t], k);
    TermsRise(c, h, mine, k - 1, |mine| - 1);
    assert |other| > 0;
    WholeLogPlaced(h, other);
    var u := LastTerm(other);
    if u == LastTerm(mine) {
      assert mine <= other;
      assert other[..k] == mine[..k];
    } else {
      LaterLogKeeps(c, h, g, other, t, k);
    }
  }

  lemma LaterLogKeeps(c: Cluster, h: History, g: Holdings, log: seq<Entry>, t: nat, k: nat)
    requires Bounded(c, h) && WinnersKeep(c, h, g) && Own(h, t, k)
    requires |log| > 0 && LastTerm(log) in h.written && log <= h.written[LastTerm(log)] && t < LastTerm(log)
    ensures Kept(c, h, g, log, t, k)
  {
    var w := h.written[LastTerm(log)];
    assert Kept(c, h, g, w, t, k);
    if Agree(w, h.written[t], k) {
      AgreeEach(w, h.written[t], k);
      assert log[|log| - 1] == w[|log| - 1];
      assert k <= |log|;
      assert log[..k] == w[..k];
    }
  }

  /** What the vote on the mover's ballot must satisfy, and what its own candidacy must. */
  ghost predicate BallotKept(c: Cluster, h: History, g: Holdings, x: Node) {
    x.votedFor.Some? ==>
      var y := x.votedFor.value;
      y != x.id && y in c.nodes && c.nodes[y].role == Candidate && c.nodes[y].term == x.term ==>
        KeepsHeld(c, h, g, x.id, x.term, c.nodes[y].log)
  }

  ghost predicate CandidacyKept(c: Cluster, h: History, g: Holdings, h': History, x: Node) {
    x.role == Candidate ==>
      forall v :: Voted(h', v, x.term, x.id) ==> KeepsHeld(c, h, g, v, x.term, x.log)
  }

  /** A vote for another node's candidacy that was not on record is the mover's. */
  lemma NewBallot(c: Cluster, h: History, g: Holdings, c': Cluster, h': History, g': Holdings, n: Node, x: Node,
                  v: NodeId, u: nat, id: NodeId)
    requires Moves(c, h, g, c', h', g', n, x) && Voted(h', v, u, id) && !Voted(h, v, u, id)
    ensures v == x.id && x.votedFor == Some(id) && u == x.term
  {
  }

  lemma CandidateKept(c: Cluster, h: History, g: Holdings, c': Cluster, h': History, g': Holdings, n: Node, x: Node,
                      id: NodeId, v: NodeId)
    requires Moves(c, h, g, c', h', g', n, x) && CandidatesKeep(c, h, g)
    requires BallotKept(c, h, g, x) && CandidacyKept(c, h, g, h', x)
    requires id in c'.nodes && c'.nodes[id].role == Candidate && Voted(h', v, c'.nodes[id].term, id)
    ensures KeepsHeld(c, h, g, v, c'.nodes[id].term, c'.nodes[id].log)
  {
    if id != n.id && !Voted(h, v, c'.nodes[id].term, id) {
      NewBallot(c, h, g, c', h', g', n, x, v, c'.nodes[id].term, id);
    }
  }

  lemma CandidatesKeepStep(c: Cluster, h: History, g: Holdings, c': Cluster, h': History, g': Holdings, n: Node, x: Node)
    requires Moves(c, h, g, c', h', g', n, x) && HoldingsOk(c, h, g) && CandidatesKeep(c, h, g)
    requires Inv(c', h') && BallotKept(c, h, g, x) && CandidacyKept(c, h, g, h', x)
    ensures CandidatesKeep(c', h', g')
  {
    forall id, v | id in c'.nodes && c'.nodes[id].role == Candidate && Voted(h', v, c'.nodes[id].term, id)
      ensures KeepsHeld(c', h', g', v, c'.nodes[id].term, c'.nodes[id].log)
    {
      var u, log := c'.nodes[id].term, c'.nodes[id].log;
      CandidateKept(c, h, g, c', h', g', n, x, id, v);
      VoterReached(c', h', v, u, id);
      KeepsHeldStays(c, h, g, c', h', g', n, x, v, u, log);
    }
  }

  lemma VoterReached(c: Cluster, h: History, v: NodeId, u: nat, id: NodeId)
    requires Inv(c, h) && Voted(h, v, u, id)
    ensures v in c.nodes ==> u <= c.nodes[v].term
  {
    if v in c.nodes {
      assert NodeOk(c.nodes[v], h, c.nodes.Keys);
    }
  }

  // ---------------------------------------------------------------- the rest of the invariant, step by step

  lemma HoldingsOkStep(c: Cluster, h: History, g: Holdings, c': Cluster, h': History, g': Holdings, n: Node, x: Node)
    requires Moves(c, h, g, c', h', g', n, x) && HoldingsOk(c, h, g)
    ensures HoldingsOk(c', h', g')
  {
    forall v, t: nat, k: nat | Holds(g', v, t, k)
      ensures v in c'.nodes && t <= c'.nodes[v].term && t in h'.written && k <= |h'.written[t]|
    {
      RecordHolds(g, h', x, v, t, k);
    }
  }

  lemma BoundedStep(c: Cluster, h: History, g: Holdings, c': Cluster, h': History, g': Holdings, n: Node, x: Node)
    requires Moves(c, h, g, c', h', g', n, x) && Bounded(c, h)
    requires TermsUpTo(x.log, x.term) && (x.role != Follower ==> x.term > 0)
    ensures Bounded(c', h')
  {
  }

  ghost predicate BallotReached(c: Cluster, x: Node) {
    x.votedFor.Some? ==>
      x.votedFor.value == x.id || (x.votedFor.value in c.nodes && x.term <= c.nodes[x.votedFor.value].term)
  }

  lemma VotesReachedStep(c: Cluster, h: History, g: Holdings, c': Cluster, h': History, g': Holdings, n: Node, x: Node)
    requires Moves(c, h, g, c', h', g', n, x) && VotesReached(c, h) && BallotReached(c, x)
    ensures VotesReached(c', h')
  {
    forall v, t | (v, t) in h'.votes ensures h'.votes[(v, t)] in c'.nodes && t <= c'.nodes[h'.votes[(v, t)]].term {
      VoteReachedStep(c, h, g, c', h', g', n, x, v, t);
    }
  }

  lemma VoteReachedStep(c: Cluster, h: History, g: Holdings, c': Cluster, h': History, g': Holdings, n: Node, x: Node,
                        v: NodeId, t: nat)
    requires Moves(c, h, g, c', h', g', n, x) && VotesReached(c, h) && BallotReached(c, x) && (v, t) in h'.votes
    ensures h'.votes[(v, t)] in c'.nodes && t <= c'.nodes[h'.votes[(v, t)]].term
  {
    if (v, t) != (x.id, x.term) {
      assert h'.votes[(v, t)] == h.votes[(v, t)];
    }
  }

  /** A candidacy is the old one with the old log, or of a later term. */
  predicate CandidacyHandled(n: Node, x: Node) {
    x.role == Candidate ==> x.term > n.term || (n.role == Candidate && x.log == n.log)
  }

  lemma RequestsOkStep(c: Cluster, c': Cluster, n: Node, x: Node)
    requires n.id in c.nodes && c.nodes[n.id] == n && x.id == n.id && n.term <= x.term
    requires c'.nodes == c.nodes[n.id := x] && RequestsOk(c) && CandidacyHandled(n, x)
    requires forall p :: p in c'.net && p.msg.RequestVote? && p !in c.net ==> RequestOk(c', p.msg)
    ensures RequestsOk(c')
  {
    forall p | p in c'.net && p.msg.RequestVote? ensures RequestOk(c', p.msg) {
      if p in c.net {
        assert RequestOk(c, p.msg);
      }
    }
  }

  // ---------------------------------------------------------------- every kind of step

  /** Everything about the mover that the invariant needs. */
  ghost predicate MoverOk(c: Cluster, h: History, g: Holdings, h': History, n: Node, x: Node) {
    && LogKeeps(c, h, g, n, x) && WinKept(c, h, g, h', x)
    && CandidacyKept(c, h, g, h', x) && BallotKept(c, h, g, x)
    && TermsUpTo(x.log, x.term) && (x.role != Follower ==> x.term > 0)
    && BallotReached(c, x) && CandidacyHandled(n, x)
  }

  lemma SafeStep(c: Cluster, h: History, g: Holdings, c': Cluster, h': History, g': Holdings, n: Node, x: Node)
    requires Moves(c, h, g, c', h', g', n, x) && Safe(c, h, g) && Inv(c', h') && MoverOk(c, h, g, h', n, x)
    requires forall p :: p in c'.net && p.msg.RequestVote? && p !in c.net ==> RequestOk(c', p.msg)
    ensures Safe(c', h', g')
  {
    BoundedStep(c, h, g, c', h', g', n, x);
    HoldingsOkStep(c, h, g, c', h', g', n, x);
    VotesReachedStep(c, h, g, c', h', g', n, x);
    RequestsOkStep(c, c', n, x);
    NodesKeepStep(c, h, g, c', h', g', n, x);
    CandidatesKeepStep(c, h, g, c', h', g', n, x);
    WinnersKeepStep(c, h, g, c', h', g', n, x);
  }

  /** A step that only appends to a log, steps down or loses volatile state. */
  predicate Rests(n: Node, x: Node) {
    && x.id == n.id && n.term <= x.term && n.log <= x.log
    && (x.role != Follower ==> x.role == n.role && x.term == n.term)
    && (x.role == Candidate ==> x.log == n.log)
    && (x.votedFor.Some? ==> x.term == n.term && x.votedFor == n.votedFor)
  }

  /** What is known of the node about to move. */
  ghost predicate Known(c: Cluster, h: History, g: Holdings, n: Node) {
    && Safe(c, h, g) && n.id in c.nodes && c.nodes[n.id] == n && NodeOk(n, h, c.nodes.Keys)
  }

  lemma OwnBallot(c: Cluster, h: History, g: Holdings, n: Node, x: Node)
    requires Known(c, h, g, n) && x.id == n.id && x.votedFor.Some? && x.term == n.term && x.votedFor == n.votedFor
    ensures BallotKept(c, h, g, x) && BallotReached(c, x)
  {
    assert Voted(h, n.id, n.term, x.votedFor.value);
  }

  /** A candidacy carried on: its voters are those on record, or itself. */
  lemma SameCandidacy(c: Cluster, h: History, g: Holdings, h': History, n: Node, x: Node)
    requires Known(c, h, g, n) && x.id == n.id && h' == Observe(h, x)
    requires n.role == Candidate && x.term == n.term && x.log == n.log
    ensures CandidacyKept(c, h, g, h', x)
  {
    forall v | Voted(h', v, x.term, x.id) ensures KeepsHeld(c, h, g, v, x.term, x.log) {
      if !Voted(h, v, x.term, x.id) {
        assert KeepsHeld(c, h, g, n.id, n.term + 1, n.log);
      }
    }
  }

  lemma RestsOk(c: Cluster, h: History, g: Holdings, h': History, n: Node, x: Node)
    requires Known(c, h, g, n) && h' == Observe(h, x) && Rests(n, x) && TermsUpTo(x.log, x.term)
    ensures MoverOk(c, h, g, h', n, x)
  {
    assert LogKeeps(c, h, g, n, x) by {
      forall t: nat, k: nat | Own(h, t, k) && Kept(c, h, g, n.log, t, k) ensures Kept(c, h, g, x.log, t, k) {
        assert Agree(n.log, h.written[t], k) ==> x.log[..k] == n.log[..k];
      }
    }
    if x.votedFor.Some? {
      OwnBallot(c, h, g, n, x);
    }
    if x.role == Candidate {
      SameCandidacy(c, h, g, h', n, x);
    }
  }

  /** A new candidacy, won at once if the node is alone. */
  predicate Campaigns(n: Node, x: Node) {
    && x.id == n.id && x.term == n.term + 1 && x.log == n.log && x.votedFor == Some(n.id)
    && (x.role == Leader ==> x.votes == {n.id})
  }

  lemma TimeoutCampaigns(n: Node)
    ensures Campaigns(n, StartElection(n).node)
  {
  }

  /** Nobody but itself can have voted for a node in a term it has not reached. */
  lemma OnlyOwnVote(c: Cluster, h: History, h': History, n: Node, x: Node, v: NodeId)
    requires VotesReached(c, h) && n.id in c.nodes && c.nodes[n.id] == n
    requires h' == Observe(h, x) && Campaigns(n, x) && Voted(h', v, x.term, x.id)
    ensures v == n.id
  {
    assert !Voted(h, v, x.term, x.id);
  }

  lemma CampaignsOk(c: Cluster, h: History, g: Holdings, h': History, n: Node, x: Node)
    requires Known(c, h, g, n) && h' == Observe(h, x) && Campaigns(n, x)
    ensures MoverOk(c, h, g, h', n, x)
  {
    assert KeepsHeld(c, h, g, n.id, n.term + 1, n.log);
    forall v | Voted(h', v, x.term, x.id) ensures KeepsHeld(c, h, g, v, x.term, x.log) {
      OnlyOwnVote(c, h, h', n, x, v);
    }
  }

  lemma SpliceBounded(log: seq<Entry>, prev: nat, entries: seq<Entry>, t: nat)
    requires prev <= |log| && TermsUpTo(log, t) && TermsUpTo(entries, t)
    ensures TermsUpTo(Splice(log, prev, entries), t)
  {
  }

  lemma SplicedOk(c: Cluster, h: History, g: Holdings, n: Node, m: Message, x: Node)
    requires Known(c, h, g, n) && m.AppendEntries? && Quotes(h, m) && n.term <= m.term == x.term
    requires Consistent(n.log, m.prevLogIndex, m.prevLogTerm) && x.log == Splice(n.log, m.prevLogIndex, m.entries)
    ensures LogKeeps(c, h, g, n, x) && TermsUpTo(x.log, x.term)
  {
    SpliceBounded(n.log, m.prevLogIndex, m.entries, m.term);
    forall t: nat, k: nat | t <= n.term && Own(h, t, k) && Kept(c, h, g, n.log, t, k)
      ensures Kept(c, h, g, x.log, t, k)
    {
      SpliceKeeps(c, h, g, n.log, m, t, k);
    }
  }

  lemma GrantOk(c: Cluster, h: History, g: Holdings, n: Node, m: Message, x: Node)
    requires Known(c, h, g, n) && x.id == n.id && m.RequestVote? && RequestOk(c, m)
    requires Some(m.sender) == x.votedFor && m.term == x.term && UpToDate(m.lastLogTerm, m.lastLogIndex, n.log)
    requires forall id :: id in c.nodes ==> LogOk(h, c.nodes[id].log)
    ensures BallotKept(c, h, g, x) && BallotReached(c, x)
  {
    var y := c.nodes[m.sender];
    if y.role == Candidate && y.term == x.term {
      forall t: nat, k: nat | t < x.term && Own(h, t, k) && Holds(g, x.id, t, k) ensures Kept(c, h, g, y.log, t, k) {
        assert KeepsHeld(c, h, g, n.id, n.term + 1, n.log);
        if !Blocked(c, g, t, k) {
          UpToDateKeeps(c, h, g, n.log, y.log, t, k);
        }
      }
    }
  }

  lemma WonOk(c: Cluster, h: History, g: Holdings, h': History, n: Node, m: Message, x: Node)
    requires Known(c, h, g, n) && LeadHandled(n, m, x) && x.role == Leader
    requires PacketOk(Packet(n.id, m), h, c.nodes.Keys)
    ensures WinKept(c, h, g, h', x)
  {
  }

  lemma HandlesOk(c: Cluster, h: History, g: Holdings, h': History, n: Node, m: Message, x: Node)
    requires Known(c, h, g, n) && h' == Observe(h, x) && Handles(n, m, x)
    requires PacketOk(Packet(n.id, m), h, c.nodes.Keys) && PacketQuotes(h, Packet(n.id, m))
    requires m.RequestVote? ==> RequestOk(c, m)
    requires forall id :: id in c.nodes ==> LogOk(h, c.nodes[id].log)
    ensures MoverOk(c, h, g, h', n, x)
  {
    if x.log != n.log {
      SplicedOk(c, h, g, n, m, x);
    }
    if x.role == Leader {
      WonOk(c, h, g, h', n, m, x);
    }
    if x.role == Candidate {
      SameCandidacy(c, h, g, h', n, x);
    }
    if x.votedFor.Some? {
      if x.term == n.term && x.votedFor == n.votedFor {
        OwnBallot(c, h, g, n, x);
      } else {
        GrantOk(c, h, g, n, m, x);
      }
    }
  }

  // ---------------------------------------------------------------- every step, every run

  lemma CrashRests(n: Node, term: nat)
    requires n.disk == Disk(n.term, n.votedFor, n.log)
    ensures Rests(n, Restart(n)) && Rests(n, Restart(ObserveTerm(n, term)))
  {
  }

  lemma ProposeRests(n: Node, command: string, timestamp: real)
    requires LeaderReady(n)
    ensures Rests(n, RaftProtocol.Propose(n, command, timestamp).node)
  {
  }

  lemma MessageOk(c: Cluster, h: History, g: Holdings, h': History, n: Node, m: Message)
    requires Known(c, h, g, n) && Inv(c, h) && LogsInv(c, h) && Packet(n.id, m) in c.net && CanHandle(n, m)
    requires h' == Observe(h, HandleMessage(n, m).node)
    ensures MoverOk(c, h, g, h', n, HandleMessage(n, m).node)
  {
    assert PacketOk(Packet(n.id, m), h, c.nodes.Keys) && PacketQuotes(h, Packet(n.id, m));
    HandlesMessage(n, m);
    HandlesOk(c, h, g, h', n, m, HandleMessage(n, m).node);
  }

  lemma OtherActionsRest(c: Cluster, h: History, a: Action)
    requires Bounded(c, h) && Enabled(c, a) && Defined(c, a) && !a.Timeout? && !a.Receive?
    requires VoteOnDisk(c.nodes[Actor(a)], h)
    ensures Rests(c.nodes[Actor(a)], Perform(c, a).node)
    ensures TermsUpTo(Perform(c, a).node.log, Perform(c, a).node.term)
  {
    var n := c.nodes[Actor(a)];
    match a
    case Propose(_, command, timestamp) => ProposeRests(n, command, timestamp);
    case Beat(_) =>
    case Crash(_) => CrashRests(n, 0);
    case CrashReceiving(p) => CrashRests(n, p.msg.term);
  }

  lemma StepOk(c: Cluster, h: History, g: Holdings, a: Action)
    requires Inv(c, h) && LogsInv(c, h) && Safe(c, h, g) && Enabled(c, a) && Defined(c, a)
    ensures MoverOk(c, h, g, Observe(h, Perform(c, a).node), c.nodes[Actor(a)], Perform(c, a).node)
  {
    var n, x := c.nodes[Actor(a)], Perform(c, a).node;
    assert Known(c, h, g, n);
    if a.Timeout? {
      TimeoutCampaigns(n);
      CampaignsOk(c, h, g, Observe(h, x), n, x);
    } else if a.Receive? {
      MessageOk(c, h, g, Observe(h, x), n, a.packet.msg);
    } else {
      OtherActionsRest(c, h, a);
      RestsOk(c, h, g, Observe(h, x), n, x);
    }
  }

  /** Every vote request sent describes the candidacy it opens. */
  lemma RequestsSent(c: Cluster, a: Action, c': Cluster)
    requires Next(c, a, c') && forall id :: id in c.nodes ==> c.nodes[id].id == id
    ensures forall p :: p in c'.net && p.msg.RequestVote? && p !in c.net ==> RequestOk(c', p.msg)
  {
    if a.Receive? {
      HandlesMessage(c.nodes[Actor(a)], a.packet.msg);
    }
  }

  lemma NextMoves(c: Cluster, h: History, g: Holdings, a: Action, c': Cluster)
    requires Inv(c, h) && Next(c, a, c')
    ensures var n, x := c.nodes[Actor(a)], Perform(c, a).node;
            var h' := Observe(h, x);
            Moves(c, h, g, c', h', Record(g, h', x), n, x) && Inv(c', h') && c'.nodes[Actor(a)] == x
  {
    NextKeepsInv(c, a, c', h);
    var n, x := c.nodes[Actor(a)], Perform(c, a).node;
    StepSound(c, a, h);
    NextTerms(c, a, h);
  }

  /** No step takes a node back to an earlier term. */
  lemma NextTerms(c: Cluster, a: Action, h: History)
    requires Inv(c, h) && Enabled(c, a) && Defined(c, a)
    ensures c.nodes[Actor(a)].term <= Perform(c, a).node.term
  {
    var n := c.nodes[Actor(a)];
    assert NodeOk(n, h, c.nodes.Keys);
    if a.Receive? {
      HandlesMessage(n, a.packet.msg);
    }
  }

  lemma NextKeepsSafe(c: Cluster, h: History, g: Holdings, a: Action, c': Cluster)
    requires Inv(c, h) && LogsInv(c, h) && Safe(c, h, g) && Next(c, a, c')
    ensures var h' := Observe(h, c'.nodes[Actor(a)]); Safe(c', h', Record(g, h', c'.nodes[Actor(a)]))
  {
    var n, x := c.nodes[Actor(a)], Perform(c, a).node;
    var h' := Observe(h, x);
    NextMoves(c, h, g, a, c');
    StepOk(c, h, g, a);
    RequestsSent(c, a, c');
    SafeStep(c, h, g, c', h', Record(g, h', x), n, x);
  }

  /** The holdings of a run after `k` steps. */
  ghost function HoldingsOf(r: Run, k: nat): Holdings
    requires r.Valid() && k <= |r.actions|
  {
    if k == 0 then map[]
    else
      StepAt(r, k - 1);
      Record(HoldingsOf(r, k - 1), HistoryOf(r, k), r.states[k].nodes[Actor(r.actions[k - 1])])
  }

  lemma FreshSafe(c: Cluster)
    requires Initial(c)
    ensures Safe(c, NO_HISTORY, map[])
  {
    forall id | id in c.nodes ensures |c.nodes[id].log| == 0 && c.nodes[id].role == Follower {
      assert c.nodes[id] == Fresh(id, c.nodes[id].peers);
    }
  }

  ghost predicate SafeAt(r: Run, k: nat)
    requires r.Valid() && k <= |r.actions|
  {
    Safe(r.states[k], HistoryOf(r, k), HoldingsOf(r, k))
  }

  lemma SafeAtStart(r: Run)
    requires r.Valid()
    ensures SafeAt(r, 0)
  {
    FreshSafe(r.states[0]);
  }

  ghost predicate LogsAt(r: Run, k: nat)
    requires r.Valid() && k <= |r.actions|
  {
    Inv(r.states[k], HistoryOf(r, k)) && LogsInv(r.states[k], HistoryOf(r, k))
  }

  lemma LogsHold(r: Run, k: nat)
    requires r.Valid() && AllAddressed(r) && k <= |r.actions|
    ensures LogsAt(r, k)
  {
    RunKeepsInv(r, k);
    RunKeepsLogs(r, k);
  }

  lemma RecordAt(r: Run, k: nat)
    requires r.Valid() && k < |r.actions|
    ensures Next(r.states[k], r.actions[k], r.states[k + 1]) && Actor(r.actions[k]) in r.states[k + 1].nodes
    ensures var x := r.states[k + 1].nodes[Actor(r.actions[k])];
            HistoryOf(r, k + 1) == Observe(HistoryOf(r, k), x)
            && HoldingsOf(r, k + 1) == Record(HoldingsOf(r, k), HistoryOf(r, k + 1), x)
  {
    StepAt(r, k);
  }

  lemma SafeAtStep(r: Run, k: nat)
    requires r.Valid() && k < |r.actions| && LogsAt(r, k) && SafeAt(r, k)
    ensures SafeAt(r, k + 1)
  {
    RecordAt(r, k);
    NextKeepsSafe(r.states[k], HistoryOf(r, k), HoldingsOf(r, k), r.actions[k], r.states[k + 1]);
  }

  lemma SafeNext(r: Run, k: nat)
    requires r.Valid() && AllAddressed(r) && k < |r.actions| && SafeAt(r, k)
    ensures SafeAt(r, k + 1)
  {
    LogsHold(r, k);
    SafeAtStep(r, k);
  }

  lemma {:induction false} RunKeepsSafe(r: Run, k: nat)
    requires r.Valid() && AllAddressed(r) && k <= |r.actions|
    ensures SafeAt(r, k)
  {
    if k == 0 {
      SafeAtStart(r);
    } else {
      RunKeepsSafe(r, k - 1);
      SafeNext(r, k - 1);
    }
  }
}
