/**
 Leader Completeness and State Machine Safety (section 5.4 of the Raft paper)
 under the conditions the code leaves unchecked.

 A leader counts acknowledgements without comparing terms, a follower
 acknowledges its whole log, and it commits as far as announced. Where what is
 counted was really held, and what is committed is really the leader's, no
 later leader lacks a committed entry and no two nodes deliver different ones.
 */
module RaftSafety {
  import opened RaftProtocol
  import opened RaftCluster
  import opened RaftElection
  import opened RaftLogs
  import opened RaftCommit
  import opened RaftCompleteness

  // ---------------------------------------------------------------- secured entries

  ghost predicate Majority(s: set<NodeId>, members: set<NodeId>) {
    s <= members && |s| > |members| / 2
  }

  ghost predicate Hit(s: set<NodeId>, g: Holdings, t: nat, k: nat) {
    exists v :: v in s && Holds(g, v, t, k)
  }

  /** Every majority has a node that has held the entries in their own term. */
  ghost predicate Secured(members: set<NodeId>, g: Holdings, t: nat, k: nat) {
    forall s :: Majority(s, members) ==> Hit(s, g, t, k)
  }

  lemma SecuredNotBlocked(c: Cluster, g: Holdings, t: nat, k: nat)
    requires Secured(c.nodes.Keys, g, t, k)
    ensures !Blocked(c, g, t, k)
  {
    forall s ensures !Bars(s, c, g, t, k) {
      if Majority(s, c.nodes.Keys) {
        assert Hit(s, g, t, k);
      }
    }
  }

  lemma MajoritySecures(members: set<NodeId>, g: Holdings, t: nat, k: nat, q: set<NodeId>)
    requires Majority(q, members) && forall v :: v in q ==> Holds(g, v, t, k)
    ensures Secured(members, g, t, k)
  {
    forall s | Majority(s, members) ensures Hit(s, g, t, k) {
      var v := TwoMajoritiesMeet(s, q, members);
    }
  }

  /** The history and the holdings have only grown. */
  ghost predicate Grown(h: History, g: Holdings, h': History, g': Holdings) {
    && Extends(h, h')
    && (forall v, t: nat, k: nat :: Holds(g, v, t, k) ==> Holds(g', v, t, k))
  }

  lemma SecuredStays(members: set<NodeId>, h: History, g: Holdings, h': History, g': Holdings, t: nat, k: nat)
    requires Grown(h, g, h', g') && Secured(members, g, t, k)
    ensures Secured(members, g', t, k)
  {
    forall s | Majority(s, members) ensures Hit(s, g', t, k) {
      assert Hit(s, g, t, k);
    }
  }

  lemma MovesGrow(c: Cluster, h: History, g: Holdings, c': Cluster, h': History, g': Holdings, n: Node, x: Node)
    requires Moves(c, h, g, c', h', g', n, x)
    ensures Grown(h, g, h', g') && c'.nodes.Keys == c.nodes.Keys
  {
    forall v, t: nat, k: nat | Holds(g, v, t, k) ensures Holds(g', v, t, k) {
      RecordHolds(g, h', x, v, t, k);
    }
  }

  lemma GrownTransitive(h0: History, g0: Holdings, h1: History, g1: Holdings, h2: History, g2: Holdings)
    requires Grown(h0, g0, h1, g1) && Grown(h1, g1, h2, g2)
    ensures Grown(h0, g0, h2, g2)
  {
    ExtendsTransitive(h0, h1, h2);
  }

  ghost predicate GrownAt(r: Run, i: nat, j: nat)
    requires r.Valid() && i <= j <= |r.actions|
  {
    Grown(HistoryOf(r, i), HoldingsOf(r, i), HistoryOf(r, j), HoldingsOf(r, j))
    && r.states[i].nodes.Keys == r.states[j].nodes.Keys
  }

  lemma GrownNext(r: Run, k: nat)
    requires r.Valid() && k < |r.actions|
    ensures GrownAt(r, k, k + 1)
  {
    RunKeepsInv(r, k);
    RecordAt(r, k);
    var c, a, h, g := r.states[k], r.actions[k], HistoryOf(r, k), HoldingsOf(r, k);
    NextMoves(c, h, g, a, r.states[k + 1]);
    MovesGrow(c, h, g, r.states[k + 1], HistoryOf(r, k + 1), HoldingsOf(r, k + 1), c.nodes[Actor(a)], Perform(c, a).node);
  }

  lemma GrownFurther(r: Run, i: nat, j: nat, k: nat)
    requires r.Valid() && i <= j <= k <= |r.actions| && GrownAt(r, i, j) && GrownAt(r, j, k)
    ensures GrownAt(r, i, k)
  {
    GrownTransitive(HistoryOf(r, i), HoldingsOf(r, i), HistoryOf(r, j), HoldingsOf(r, j),
                    HistoryOf(r, k), HoldingsOf(r, k));
  }

  lemma GrownAtOnce(r: Run, i: nat)
    requires r.Valid() && i <= |r.actions|
    ensures GrownAt(r, i, i)
  {
  }

  lemma GrownOn(r: Run, i: nat, k: nat)
    requires r.Valid() && i < k <= |r.actions| && GrownAt(r, i, k - 1)
    ensures GrownAt(r, i, k)
  {
    GrownNext(r, k - 1);
    GrownFurther(r, i, k - 1, k);
  }

  lemma {:induction false} RunGrows(r: Run, i: nat, j: nat)
    requires r.Valid() && i <= j <= |r.actions|
    ensures GrownAt(r, i, j)
    decreases j - i
  {
    if i == j {
      GrownAtOnce(r, i);
    } else {
      RunGrows(r, i, j - 1);
      GrownOn(r, i, j);
    }
  }

  /**
   In every run of addressed proposals: once every majority has a node that held
   an entry of its leader's own term in that term, the log of every leader of a
   later term begins with everything up to that entry, at all times.
   */
  lemma SecuredIsKept(r: Run, i: nat, j: nat, t: nat, k: nat, u: nat)
    requires r.Valid() && AllAddressed(r) && i <= j <= |r.actions|
    requires Own(HistoryOf(r, i), t, k) && Secured(r.states[i].nodes.Keys, HoldingsOf(r, i), t, k)
    requires t < u && u in HistoryOf(r, j).written
    ensures HistoryOf(r, i).written[t][..k] <= HistoryOf(r, j).written[u]
  {
    RunKeepsSafe(r, j);
    RunGrows(r, i, j);
    var c, h, g := r.states[j], HistoryOf(r, j), HoldingsOf(r, j);
    SecuredStays(c.nodes.Keys, HistoryOf(r, i), HoldingsOf(r, i), h, g, t, k);
    SecuredNotBlocked(c, g, t, k);
    SecuredEntryKept(c, HistoryOf(r, i), h, g, t, k, u);
  }

  lemma SecuredEntryKept(c: Cluster, h0: History, h: History, g: Holdings, t: nat, k: nat, u: nat)
    requires WinnersKeep(c, h, g) && Extends(h0, h) && Own(h0, t, k) && !Blocked(c, g, t, k)
    requires t < u && u in h.written
    ensures h0.written[t][..k] <= h.written[u]
  {
    var w := h.written[t];
    assert w[..k] == h0.written[t][..k];
    assert Own(h, t, k);
    assert Kept(c, h, g, h.written[u], t, k);
  }

  // ---------------------------------------------------------------- what a message brings

  /** In every run: a message that names a term for the entry before its own names the leader's. */
  ghost predicate PrevQuotes(h: History, m: Message)
    requires m.AppendEntries?
  {
    m.prevLogIndex > 0 && m.prevLogTerm > 0 ==>
      && m.term in h.written && m.prevLogIndex <= |h.written[m.term]|
      && h.written[m.term][m.prevLogIndex - 1].term == m.prevLogTerm
  }

  /** Up to where an accepted message ends, the follower's log is the leader's. */
  lemma CoveredAgrees(c: Cluster, h: History, log: seq<Entry>, m: Message)
    requires Bounded(c, h) && LogOk(h, log) && m.AppendEntries? && m.term in h.written && LogOk(h, h.written[m.term])
    requires Consistent(log, m.prevLogIndex, m.prevLogTerm) && PrevQuotes(h, m)
    requires m.entries != [] ==> Quotes(h, m)
    requires forall i :: 0 <= i < |log| ==> log[i].term > 0
    ensures Agree(Splice(log, m.prevLogIndex, m.entries), h.written[m.term], m.prevLogIndex + |m.entries|)
  {
    var w, prev := h.written[m.term], m.prevLogIndex;
    if m.entries != [] {
      QuotedAgrees(h, log, m);
    } else if prev > 0 {
      SameTermSamePrefix(h, log, w, prev - 1);
    }
  }

  lemma QuotedAgrees(h: History, log: seq<Entry>, m: Message)
    requires LogOk(h, log) && m.AppendEntries? && m.term in h.written && LogOk(h, h.written[m.term])
    requires Consistent(log, m.prevLogIndex, m.prevLogTerm) && m.entries != [] && Quotes(h, m)
    ensures Agree(Splice(log, m.prevLogIndex, m.entries), h.written[m.term], m.prevLogIndex + |m.entries|)
  {
    var w, prev := h.written[m.term], m.prevLogIndex;
    var log' := Splice(log, prev, m.entries);
    SpliceOk(h, log, m);
    LastCarried(log, prev, m.entries);
    LastQuoted(h, m);
    SameTermAgree(h, log', w, prev + |m.entries|);
  }

  lemma SameTermAgree(h: History, a: seq<Entry>, b: seq<Entry>, k: nat)
    requires LogOk(h, a) && LogOk(h, b) && 0 < k <= |a| && k <= |b| && a[k - 1].term == b[k - 1].term
    ensures Agree(a, b, k)
  {
    SameTermSamePrefix(h, a, b, k - 1);
  }

  lemma LastCarried(log: seq<Entry>, prev: nat, entries: seq<Entry>)
    requires prev <= |log| && entries != []
    ensures var s := Splice(log, prev, entries);
            prev + |entries| <= |s| && s[prev + |entries| - 1].term == entries[|entries| - 1].term
  {
    SpliceCarries(log, prev, entries);
    assert Splice(log, prev, entries)[prev + (|entries| - 1)].term == entries[|entries| - 1].term;
  }

  lemma LastQuoted(h: History, m: Message)
    requires m.AppendEntries? && m.entries != [] && Quotes(h, m)
    ensures var w := h.written[m.term];
            m.prevLogIndex + |m.entries| <= |w| && w[m.prevLogIndex + |m.entries| - 1] == m.entries[|m.entries| - 1]
  {
  }

  // ---------------------------------------------------------------- backed by a secured entry

  /** The first `k` entries of the log begin a secured prefix of the leader of term `t`. */
  ghost predicate Backs(members: set<NodeId>, h: History, g: Holdings, log: seq<Entry>, k: nat, t: nat, j: nat) {
    Own(h, t, j) && k <= j && Agree(log, h.written[t], k) && Secured(members, g, t, j)
  }

  /** So they do for some leader of a term up to `u`. */
  ghost predicate Backed(members: set<NodeId>, h: History, g: Holdings, log: seq<Entry>, k: nat, u: nat) {
    k <= |log| && (k == 0 || exists t: nat, j: nat :: t <= u && Backs(members, h, g, log, k, t, j))
  }

  lemma BackedStays(
    members: set<NodeId>, h: History, g: Holdings, h': History, g': Holdings, log: seq<Entry>, log': seq<Entry>,
    k: nat, u: nat, u': nat)
    requires Grown(h, g, h', g') && Backed(members, h, g, log, k, u) && Agree(log, log', k) && u <= u'
    ensures Backed(members, h', g', log', k, u')
  {
    if k > 0 {
      var t: nat, j: nat :| t <= u && Backs(members, h, g, log, k, t, j);
      SecuredStays(members, h, g, h', g', t, j);
      var w, w' := h.written[t], h'.written[t];
      assert w[..k] == w'[..k] && w[j - 1] == w'[j - 1];
      assert Backs(members, h', g', log', k, t, j);
    }
  }

  /** Part of what backs one log backs another that agrees with it so far. */
  lemma BackedPart(
    members: set<NodeId>, h: History, g: Holdings, log: seq<Entry>, log': seq<Entry>, k: nat, k': nat, u: nat)
    requires Backed(members, h, g, log, k, u) && k' <= k && Agree(log', log, k')
    ensures Backed(members, h, g, log', k', u)
  {
    if k' > 0 {
      var t: nat, j: nat :| t <= u && Backs(members, h, g, log, k, t, j);
      var w := h.written[t];
      assert w[..k'] == w[..k][..k'] == log[..k][..k'] == log[..k'];
      assert Backs(members, h, g, log', k', t, j);
    }
  }

  /** A later leader's log begins with whatever is backed. */
  lemma LeaderHasBacked(c: Cluster, h: History, g: Holdings, log: seq<Entry>, k: nat, u: nat, v: nat)
    requires WinnersKeep(c, h, g) && Backed(c.nodes.Keys, h, g, log, k, u) && u <= v && v in h.written
    ensures Agree(log, h.written[v], k)
  {
    if k > 0 {
      var t: nat, j: nat :| t <= u && Backs(c.nodes.Keys, h, g, log, k, t, j);
      if t < v {
        SecuredNotBlocked(c, g, t, j);
        assert Kept(c, h, g, h.written[v], t, j);
        var w, w' := h.written[t], h.written[v];
        assert w'[..k] == w'[..j][..k] == w[..j][..k] == w[..k];
      }
    }
  }

  /** Two logs backed at the same time agree as far as both are. */
  lemma BackedAgree(
    c: Cluster, h: History, g: Holdings, a: seq<Entry>, k: nat, u: nat, b: seq<Entry>, l: nat, v: nat, i: nat)
    requires WinnersKeep(c, h, g)
    requires Backed(c.nodes.Keys, h, g, a, k, u) && Backed(c.nodes.Keys, h, g, b, l, v) && i < k && i < l
    ensures a[i] == b[i]
  {
    var t: nat, j: nat :| t <= u && Backs(c.nodes.Keys, h, g, a, k, t, j);
    var t': nat, j': nat :| t' <= v && Backs(c.nodes.Keys, h, g, b, l, t', j');
    BacksAgree(c, h, g, a, k, t, j, b, l, t', j', i);
  }

  lemma BacksAgree(
    c: Cluster, h: History, g: Holdings, a: seq<Entry>, k: nat, t: nat, j: nat,
    b: seq<Entry>, l: nat, t': nat, j': nat, i: nat)
    requires WinnersKeep(c, h, g) && i < k && i < l
    requires Backs(c.nodes.Keys, h, g, a, k, t, j) && Backs(c.nodes.Keys, h, g, b, l, t', j')
    ensures a[i] == b[i]
  {
    AgreeEach(a, h.written[t], k);
    AgreeEach(b, h.written[t'], l);
    if t < t' {
      SecuredNotBlocked(c, g, t, j);
      assert Kept(c, h, g, h.written[t'], t, j);
      AgreeEach(h.written[t'], h.written[t], j);
    } else if t' < t {
      SecuredNotBlocked(c, g, t', j');
      assert Kept(c, h, g, h.written[t], t', j');
      AgreeEach(h.written[t], h.written[t'], j');
    }
  }

  // ---------------------------------------------------------------- what nodes commit

  /** Delivered and committed are the same beginning of the log. */
  ghost predicate Served(n: Node) {
    && n.commitIndex == n.lastApplied <= |n.log|
    && n.applied == Deliveries(n.log, 0, n.commitIndex)
  }

  ghost predicate CommitOk(members: set<NodeId>, h: History, g: Holdings, n: Node) {
    Served(n) && Backed(members, h, g, n.log, n.commitIndex, n.term)
  }

  ghost predicate CommitsOk(c: Cluster, h: History, g: Holdings) {
    forall id :: id in c.nodes ==> CommitOk(c.nodes.Keys, h, g, c.nodes[id])
  }

  /** The commit index a leader announces is backed in its log. */
  ghost predicate NewsOk(members: set<NodeId>, h: History, g: Holdings, m: Message)
    requires m.AppendEntries?
  {
    && m.term in h.written && PrevQuotes(h, m)
    && Backed(members, h, g, h.written[m.term], m.leaderCommit, m.term)
  }

  ghost predicate AllNewsOk(c: Cluster, h: History, g: Holdings) {
    forall p :: p in c.net && p.msg.AppendEntries? ==> NewsOk(c.nodes.Keys, h, g, p.msg)
  }

  /** What a leader has counted was held. */
  ghost predicate CountOk(g: Holdings, n: Node) {
    n.role == Leader ==>
      && Holds(g, n.id, n.term, |n.log|)
      && (forall p :: p in n.peers && p in n.matchIndex && n.matchIndex[p] > 0 ==>
            Holds(g, p, n.term, n.matchIndex[p]))
  }

  ghost predicate CountsOk(c: Cluster, g: Holdings) {
    forall id :: id in c.nodes ==> CountOk(g, c.nodes[id])
  }

  lemma CommitStays(
    members: set<NodeId>, h: History, g: Holdings, h': History, g': Holdings, n: Node)
    requires Grown(h, g, h', g') && CommitOk(members, h, g, n)
    ensures CommitOk(members, h', g', n)
  {
    BackedStays(members, h, g, h', g', n.log, n.log, n.commitIndex, n.term, n.term);
  }

  lemma NewsStays(members: set<NodeId>, h: History, g: Holdings, h': History, g': Holdings, m: Message)
    requires Grown(h, g, h', g') && m.AppendEntries? && NewsOk(members, h, g, m)
    ensures NewsOk(members, h', g', m)
  {
    var w, w' := h.written[m.term], h'.written[m.term];
    assert w'[..m.leaderCommit] == w[..m.leaderCommit];
    BackedStays(members, h, g, h', g', w, w', m.leaderCommit, m.term, m.term);
  }

  // ---------------------------------------------------------------- what a follower commits

  /** A splice from the leader of the node's term keeps what is backed. */
  lemma SplicedBacked(c: Cluster, h: History, g: Holdings, log: seq<Entry>, m: Message, k: nat, u: nat)
    requires WinnersKeep(c, h, g) && Backed(c.nodes.Keys, h, g, log, k, u)
    requires m.AppendEntries? && Quotes(h, m) && Consistent(log, m.prevLogIndex, m.prevLogTerm) && u <= m.term
    ensures Agree(Splice(log, m.prevLogIndex, m.entries), log, k)
    ensures Backed(c.nodes.Keys, h, g, Splice(log, m.prevLogIndex, m.entries), k, u)
  {
    LeaderHasBacked(c, h, g, log, k, u, m.term);
    SpliceKeepsCommon(log, m.prevLogIndex, m.entries, h.written[m.term], k);
    BackedPart(c.nodes.Keys, h, g, log, Splice(log, m.prevLogIndex, m.entries), k, k, u);
  }

  lemma DeliveriesExtend(log: seq<Entry>, log': seq<Entry>, k: nat, k': nat)
    requires Agree(log', log, k) && k <= k' <= |log'|
    ensures Deliveries(log, 0, k) + Deliveries(log', k, k') == Deliveries(log', 0, k')
  {
    AgreeEach(log', log, k);
  }

  /** The new commit index is within what is known to be the leader's. */
  ghost predicate CommitsLeaders(h: History, log: seq<Entry>, m: Message)
    requires m.AppendEntries? && m.prevLogIndex <= |log|
  {
    var log' := Splice(log, m.prevLogIndex, m.entries);
    m.term in h.written && Agree(log', h.written[m.term], Min(m.leaderCommit, |log'|))
  }

  lemma CommitToServes(n: Node, log: seq<Entry>, k: nat)
    requires n.commitIndex == n.lastApplied <= |log| && n.applied == Deliveries(log, 0, n.commitIndex)
    requires Agree(n.log, log, n.commitIndex) && n.commitIndex <= k <= |n.log|
    ensures Served(CommitTo(n, k)) && CommitTo(n, k).commitIndex == k
  {
    DeliveriesExtend(log, n.log, n.commitIndex, k);
  }

  lemma AcceptCommits(c: Cluster, h: History, g: Holdings, n: Node, m: Message)
    requires WinnersKeep(c, h, g) && CommitOk(c.nodes.Keys, h, g, n)
    requires m.AppendEntries? && n.term == m.term && Consistent(n.log, m.prevLogIndex, m.prevLogTerm)
    requires m.entries != [] ==> Quotes(h, m)
    requires NewsOk(c.nodes.Keys, h, g, m)
    requires m.leaderCommit > n.commitIndex ==> CommitsLeaders(h, n.log, m)
    ensures CommitOk(c.nodes.Keys, h, g, AcceptEntries(n, m))
  {
    var log' := Splice(n.log, m.prevLogIndex, m.entries);
    var s := if m.entries != [] then Persist(n.(log := log')) else n;
    if m.entries != [] {
      SplicedBacked(c, h, g, n.log, m, n.commitIndex, n.term);
    }
    assert s.log == log' && Agree(log', n.log, n.commitIndex);
    assert Backed(c.nodes.Keys, h, g, log', n.commitIndex, n.term);
    if m.leaderCommit > n.commitIndex {
      var k := Min(m.leaderCommit, |log'|);
      BackedPart(c.nodes.Keys, h, g, h.written[m.term], log', m.leaderCommit, k, m.term);
      CommitToServes(s, n.log, k);
    } else {
      CommitToServes(s, n.log, n.commitIndex);
    }
  }

  // ---------------------------------------------------------------- what a leader commits

  /** A counted majority that held the entries secures them. */
  lemma CountedIsSecured(members: set<NodeId>, g: Holdings, n: Node, k: nat)
    requires n.id in members && PeersOf(members, n.id, n.peers)
    requires n.role == Leader && CountOk(g, n) && Committable(n, k)
    ensures Secured(members, g, n.term, k)
  {
    PeersDistinct(members, n.id, n.peers);
    ReplicasCount(n, k, |n.peers|);
    var q := {n.id} + HoldersOf(n, k, |n.peers|);
    assert n.peers[..|n.peers|] == n.peers;
    assert |q| == 1 + |HoldersOf(n, k, |n.peers|)|;
    MajoritySecures(members, g, n.term, k, q);
  }

  lemma LeaderCommits(members: set<NodeId>, h: History, g: Holdings, n: Node)
    requires n.id in members && PeersOf(members, n.id, n.peers)
    requires n.role == Leader && CountOk(g, n) && CommitOk(members, h, g, n)
    requires n.term in h.written && h.written[n.term] == n.log
    ensures CommitOk(members, h, g, CheckCommit(n))
  {
    var k := CommitTarget(n, |n.log|);
    if k > n.commitIndex {
      CountedIsSecured(members, g, n, k);
      assert Backs(members, h, g, n.log, k, n.term, k);
      CommitToServes(n, n.log, k);
    }
  }

  // ---------------------------------------------------------------- every kind of step

  /** A step that commits nothing: the commit index stays, or is lost with the rest. */
  predicate CommitRests(n: Node, x: Node) {
    && n.term <= x.term && n.log <= x.log
    && (|| (x.commitIndex == n.commitIndex && x.lastApplied == n.lastApplied && x.applied == n.applied)
        || (x.commitIndex == 0 && x.lastApplied == 0 && x.applied == []))
  }

  lemma CommitRestsOk(members: set<NodeId>, h: History, g: Holdings, n: Node, x: Node)
    requires CommitOk(members, h, g, n) && CommitRests(n, x)
    ensures CommitOk(members, h, g, x)
  {
    if x.commitIndex == n.commitIndex {
      BackedStays(members, h, g, h, g, n.log, x.log, n.commitIndex, n.term, x.term);
      DeliveriesExtend(n.log, x.log, n.commitIndex, n.commitIndex);
    }
  }

  /** The answer a leader counts reports what its sender held in the leader's term. */
  ghost predicate CountsHeld(g: Holdings, n: Node, m: Message) {
    m.AppendResponse? && m.success && m.matchIndex > 0 && n.role == Leader && m.term <= n.term ==>
      Holds(g, m.sender, n.term, m.matchIndex)
  }

  /** What a follower is about to commit is its leader's. */
  ghost predicate CommitIsLeaders(h: History, n: Node, m: Message) {
    && m.AppendEntries? && m.term >= n.term
    && Consistent(n.log, m.prevLogIndex, m.prevLogTerm) && m.leaderCommit > n.commitIndex
    ==> CommitsLeaders(h, n.log, m)
  }

  lemma AnswerCommits(members: set<NodeId>, h: History, g: Holdings, n: Node, m: Message)
    requires CommitOk(members, h, g, n) && CountOk(g, n) && NodeOk(n, h, members)
    requires m.AppendResponse? && m.term <= n.term && CanHandle(n, m) && CountsHeld(g, n, m)
    ensures CommitOk(members, h, g, HandleAppendResponse(n, m))
  {
    if n.role == Leader && m.success {
      var s := Acknowledge(n, m.sender, m.matchIndex);
      CommitRestsOk(members, h, g, n, s);
      LeaderCommits(members, h, g, s);
    }
  }

  lemma AppendCommits(c: Cluster, h: History, g: Holdings, n: Node, m: Message)
    requires WinnersKeep(c, h, g) && CommitOk(c.nodes.Keys, h, g, n)
    requires m.AppendEntries? && m.term <= n.term && (m.entries != [] ==> Quotes(h, m))
    requires NewsOk(c.nodes.Keys, h, g, m) && CommitIsLeaders(h, n, m)
    ensures CommitOk(c.nodes.Keys, h, g, HandleAppendEntries(n, m).node)
  {
    if m.term >= n.term {
      var f := n.(role := Follower);
      CommitRestsOk(c.nodes.Keys, h, g, n, f);
      if Consistent(n.log, m.prevLogIndex, m.prevLogTerm) {
        AcceptCommits(c, h, g, f, m);
      }
    }
  }

  lemma ObservedCommits(members: set<NodeId>, h: History, g: Holdings, n: Node, term: nat)
    requires CommitOk(members, h, g, n) && CountOk(g, n)
    ensures CommitOk(members, h, g, ObserveTerm(n, term)) && CountOk(g, ObserveTerm(n, term))
  {
    CommitRestsOk(members, h, g, n, ObserveTerm(n, term));
  }

  lemma AppendMessageCommits(c: Cluster, h: History, g: Holdings, n: Node, m: Message)
    requires m.AppendEntries? && CanHandle(n, m) && WinnersKeep(c, h, g)
    requires CommitOk(c.nodes.Keys, h, g, n) && CountOk(g, n)
    requires NewsOk(c.nodes.Keys, h, g, m) && (m.entries != [] ==> Quotes(h, m)) && CommitIsLeaders(h, n, m)
    ensures CommitOk(c.nodes.Keys, h, g, HandleMessage(n, m).node)
  {
    ObservedCommits(c.nodes.Keys, h, g, n, m.term);
    AppendCommits(c, h, g, ObserveTerm(n, m.term), m);
  }

  lemma AnswerMessageCommits(members: set<NodeId>, h: History, g: Holdings, n: Node, m: Message)
    requires m.AppendResponse? && CanHandle(n, m) && Elected(h, members) && NodeOk(n, h, members)
    requires CommitOk(members, h, g, n) && CountOk(g, n) && CountsHeld(g, n, m)
    ensures CommitOk(members, h, g, HandleMessage(n, m).node)
  {
    if m.term > n.term {
      CommitRestsOk(members, h, g, n, HandleMessage(n, m).node);
    } else {
      AnswerCommits(members, h, g, n, m);
    }
  }

  lemma VoteMessageCommits(members: set<NodeId>, h: History, g: Holdings, n: Node, m: Message)
    requires (m.RequestVote? || m.VoteResponse?) && CanHandle(n, m) && CommitOk(members, h, g, n)
    ensures CommitOk(members, h, g, HandleMessage(n, m).node)
  {
    VoteRests(n, m);
    CommitRestsOk(members, h, g, n, HandleMessage(n, m).node);
  }

  lemma VoteRests(n: Node, m: Message)
    requires (m.RequestVote? || m.VoteResponse?) && CanHandle(n, m)
    ensures CommitRests(n, HandleMessage(n, m).node)
  {
  }

  lemma MessageCommits(c: Cluster, h: History, g: Holdings, n: Node, m: Message)
    requires Inv(c, h) && NodeOk(n, h, c.nodes.Keys) && WinnersKeep(c, h, g)
    requires CommitOk(c.nodes.Keys, h, g, n) && CountOk(g, n) && CanHandle(n, m)
    requires m.AppendEntries? ==> NewsOk(c.nodes.Keys, h, g, m) && (m.entries != [] ==> Quotes(h, m))
    requires CountsHeld(g, n, m) && CommitIsLeaders(h, n, m)
    ensures CommitOk(c.nodes.Keys, h, g, HandleMessage(n, m).node)
  {
    match m
    case AppendEntries(_, _, _, _, _, _) => AppendMessageCommits(c, h, g, n, m);
    case AppendResponse(_, _, _, _) => AnswerMessageCommits(c.nodes.Keys, h, g, n, m);
    case _ => VoteMessageCommits(c.nodes.Keys, h, g, n, m);
  }

  lemma OtherActionsCommit(c: Cluster, h: History, a: Action)
    requires Enabled(c, a) && Defined(c, a) && !a.Receive? && VoteOnDisk(c.nodes[Actor(a)], h)
    ensures CommitRests(c.nodes[Actor(a)], Perform(c, a).node)
  {
  }

  lemma StepCommits(c: Cluster, h: History, g: Holdings, a: Action)
    requires Inv(c, h) && LogsInv(c, h) && Safe(c, h, g) && Sure(c, h, g) && Enabled(c, a) && Defined(c, a)
    requires a.Receive? ==> CountsHeld(g, c.nodes[Actor(a)], a.packet.msg)
    requires a.Receive? ==> CommitIsLeaders(h, c.nodes[Actor(a)], a.packet.msg)
    ensures CommitOk(c.nodes.Keys, h, g, Perform(c, a).node)
  {
    var n := c.nodes[Actor(a)];
    assert NodeOk(n, h, c.nodes.Keys) && CommitOk(c.nodes.Keys, h, g, n) && CountOk(g, n);
    if a.Receive? {
      assert PacketQuotes(h, a.packet);
      MessageCommits(c, h, g, n, a.packet.msg);
    } else {
      OtherActionsCommit(c, h, a);
      CommitRestsOk(c.nodes.Keys, h, g, n, Perform(c, a).node);
    }
  }

  /** What every leader knows at the end of a step it knew before, or has just been told. */
  ghost predicate CountHandled(g: Holdings, n: Node, x: Node) {
    x.role == Leader ==>
      forall p :: p in x.peers && p in x.matchIndex && x.matchIndex[p] > 0 ==>
        Holds(g, p, x.term, x.matchIndex[p])
  }

  lemma MessageCounts(g: Holdings, n: Node, m: Message)
    requires CountOk(g, n) && CanHandle(n, m) && CountsHeld(g, n, m)
    ensures CountHandled(g, n, HandleMessage(n, m).node)
  {
    if m.AppendResponse? {
      AnswerCounts(g, n, m);
    } else {
      OtherMessagesCount(g, n, m);
    }
  }

  lemma AnswerCounts(g: Holdings, n: Node, m: Message)
    requires m.AppendResponse? && CountOk(g, n) && CanHandle(n, m) && CountsHeld(g, n, m)
    ensures CountHandled(g, n, HandleMessage(n, m).node)
  {
    var o := ObserveTerm(n, m.term);
    if o.role == Leader && m.success {
      CheckCommitKeeps(Acknowledge(o, m.sender, m.matchIndex));
    }
  }

  lemma OtherMessagesCount(g: Holdings, n: Node, m: Message)
    requires !m.AppendResponse? && CountOk(g, n) && CanHandle(n, m)
    ensures CountHandled(g, n, HandleMessage(n, m).node)
  {
    match m
    case RequestVote(_, _, _, _) => LeadersStay(n, m);
    case VoteResponse(_, _, _) => VoteResponseCounts(g, n, m);
    case AppendEntries(_, _, _, _, _, _) => LeadersStay(n, m);
  }

  lemma LeadersStay(n: Node, m: Message)
    requires (m.RequestVote? || m.AppendEntries?) && CanHandle(n, m)
    ensures var x := HandleMessage(n, m).node;
            x.role == Leader ==> n.role == Leader && x.term == n.term && x.peers == n.peers && x.matchIndex == n.matchIndex
  {
  }

  /** A new leader has counted nothing. */
  lemma VoteResponseCounts(g: Holdings, n: Node, m: Message)
    requires m.VoteResponse? && CountOk(g, n) && CanHandle(n, m)
    ensures CountHandled(g, n, HandleMessage(n, m).node)
  {
  }

  lemma OtherActionsCount(c: Cluster, g: Holdings, a: Action)
    requires Enabled(c, a) && Defined(c, a) && !a.Receive? && CountOk(g, c.nodes[Actor(a)])
    ensures CountHandled(g, c.nodes[Actor(a)], Perform(c, a).node)
  {
  }

  lemma MoverCounts(g: Holdings, h': History, g': Holdings, n: Node, x: Node, members: set<NodeId>)
    requires g' == Record(g, h', x) && CountHandled(g, n, x) && NodeOk(x, h', members)
    ensures CountOk(g', x)
  {
    if x.role == Leader {
      RecordHolds(g, h', x, x.id, x.term, |x.log|);
      forall p | p in x.peers && p in x.matchIndex && x.matchIndex[p] > 0 ensures Holds(g', p, x.term, x.matchIndex[p]) {
        RecordHolds(g, h', x, p, x.term, x.matchIndex[p]);
      }
    }
  }

  lemma CountStays(h: History, g: Holdings, h': History, g': Holdings, n: Node)
    requires Grown(h, g, h', g') && CountOk(g, n)
    ensures CountOk(g', n)
  {
  }

  /** Only a leader sends AppendEntries, and says where its own log stands. */
  ghost predicate Announces(x: Node, m: Message) {
    m.AppendEntries? ==>
      && x.role == Leader && m.term == x.term && m.leaderCommit == x.commitIndex
      && (m.prevLogIndex > 0 && m.prevLogTerm > 0 ==>
            m.prevLogIndex <= |x.log| && x.log[m.prevLogIndex - 1].term == m.prevLogTerm)
  }

  lemma StepAnnounces(c: Cluster, a: Action)
    requires Enabled(c, a) && Defined(c, a)
    ensures forall p :: p in Perform(c, a).out ==> Announces(Perform(c, a).node, p.msg)
  {
  }

  lemma AnnouncedOk(members: set<NodeId>, h: History, g: Holdings, x: Node, m: Message)
    requires NodeOk(x, h, members) && CommitOk(members, h, g, x) && m.AppendEntries? && Announces(x, m)
    ensures NewsOk(members, h, g, m)
  {
  }

  /** Commits, counts and announcements all rest on what was held. */
  ghost predicate Sure(c: Cluster, h: History, g: Holdings) {
    CommitsOk(c, h, g) && AllNewsOk(c, h, g) && CountsOk(c, g)
  }

  lemma CommitsOkStep(c: Cluster, h: History, g: Holdings, c': Cluster, h': History, g': Holdings, n: Node, x: Node)
    requires Moves(c, h, g, c', h', g', n, x) && CommitsOk(c, h, g) && CommitOk(c.nodes.Keys, h, g, x)
    ensures CommitsOk(c', h', g')
  {
    MovesGrow(c, h, g, c', h', g', n, x);
    forall id | id in c'.nodes ensures CommitOk(c'.nodes.Keys, h', g', c'.nodes[id]) {
      assert CommitOk(c.nodes.Keys, h, g, c'.nodes[id]);
      CommitStays(c.nodes.Keys, h, g, h', g', c'.nodes[id]);
    }
  }

  lemma CountsOkStep(c: Cluster, h: History, g: Holdings, c': Cluster, h': History, g': Holdings, n: Node, x: Node)
    requires Moves(c, h, g, c', h', g', n, x) && CountsOk(c, g) && CountOk(g', x)
    ensures CountsOk(c', g')
  {
    MovesGrow(c, h, g, c', h', g', n, x);
    forall id | id in c'.nodes ensures CountOk(g', c'.nodes[id]) {
      if id != n.id {
        CountStays(h, g, h', g', c.nodes[id]);
      }
    }
  }

  lemma AllNewsOkStep(c: Cluster, h: History, g: Holdings, c': Cluster, h': History, g': Holdings, n: Node, x: Node)
    requires Moves(c, h, g, c', h', g', n, x) && AllNewsOk(c, h, g)
    requires NodeOk(x, h', c'.nodes.Keys) && CommitOk(c'.nodes.Keys, h', g', x)
    requires forall p :: p in c'.net && p !in c.net ==> Announces(x, p.msg)
    ensures AllNewsOk(c', h', g')
  {
    MovesGrow(c, h, g, c', h', g', n, x);
    forall p | p in c'.net && p.msg.AppendEntries? ensures NewsOk(c'.nodes.Keys, h', g', p.msg) {
      if p in c.net {
        NewsStays(c.nodes.Keys, h, g, h', g', p.msg);
      } else {
        AnnouncedOk(c'.nodes.Keys, h', g', x, p.msg);
      }
    }
  }

  lemma NextKeepsSure(c: Cluster, h: History, g: Holdings, a: Action, c': Cluster)
    requires Inv(c, h) && LogsInv(c, h) && Safe(c, h, g) && Sure(c, h, g) && Next(c, a, c')
    requires a.Receive? ==> CountsHeld(g, c.nodes[Actor(a)], a.packet.msg)
    requires a.Receive? ==> CommitIsLeaders(h, c.nodes[Actor(a)], a.packet.msg)
    ensures var h' := Observe(h, c'.nodes[Actor(a)]); Sure(c', h', Record(g, h', c'.nodes[Actor(a)]))
  {
    var n, x := c.nodes[Actor(a)], Perform(c, a).node;
    var h' := Observe(h, x);
    var g' := Record(g, h', x);
    NextMoves(c, h, g, a, c');
    StepCommits(c, h, g, a);
    StepCounts(c, h, g, a);
    StepAnnounces(c, a);
    SureStep(c, h, g, c', h', g', n, x);
  }

  lemma StepCounts(c: Cluster, h: History, g: Holdings, a: Action)
    requires Inv(c, h) && CountsOk(c, g) && Enabled(c, a) && Defined(c, a)
    requires a.Receive? ==> CountsHeld(g, c.nodes[Actor(a)], a.packet.msg)
    ensures CountHandled(g, c.nodes[Actor(a)], Perform(c, a).node)
  {
    var n := c.nodes[Actor(a)];
    if a.Receive? {
      MessageCounts(g, n, a.packet.msg);
    } else {
      OtherActionsCount(c, g, a);
    }
  }

  lemma MoverOk(c: Cluster, h: History, g: Holdings, c': Cluster, h': History, g': Holdings, n: Node, x: Node)
    requires Moves(c, h, g, c', h', g', n, x) && Inv(c', h')
    ensures x.id in c'.nodes && NodeOk(x, h', c'.nodes.Keys)
  {
    assert c'.nodes[x.id] == x;
  }

  lemma MoverCommits(c: Cluster, h: History, g: Holdings, c': Cluster, h': History, g': Holdings, n: Node, x: Node)
    requires Moves(c, h, g, c', h', g', n, x) && CommitOk(c.nodes.Keys, h, g, x)
    ensures CommitOk(c'.nodes.Keys, h', g', x)
  {
    MovesGrow(c, h, g, c', h', g', n, x);
    CommitStays(c.nodes.Keys, h, g, h', g', x);
  }

  lemma SureStep(c: Cluster, h: History, g: Holdings, c': Cluster, h': History, g': Holdings, n: Node, x: Node)
    requires Moves(c, h, g, c', h', g', n, x) && Sure(c, h, g) && Inv(c', h')
    requires CommitOk(c.nodes.Keys, h, g, x) && CountHandled(g, n, x)
    requires forall p :: p in c'.net && p !in c.net ==> Announces(x, p.msg)
    ensures Sure(c', h', g')
  {
    MoverOk(c, h, g, c', h', g', n, x);
    MoverCounts(g, h', g', n, x, c'.nodes.Keys);
    CommitsOkStep(c, h, g, c', h', g', n, x);
    CountsOkStep(c, h, g, c', h', g', n, x);
    MoverCommits(c, h, g, c', h', g', n, x);
    AllNewsOkStep(c, h, g, c', h', g', n, x);
  }

  // ---------------------------------------------------------------- every run

  lemma FreshSure(c: Cluster)
    requires Initial(c)
    ensures Sure(c, NO_HISTORY, map[])
  {
    forall id | id in c.nodes ensures CommitOk(c.nodes.Keys, NO_HISTORY, map[], c.nodes[id]) && c.nodes[id].role == Follower {
      assert c.nodes[id] == Fresh(id, c.nodes[id].peers);
    }
  }

  /** Step `k` counts only what was held, and commits only what is the leader's. */
  ghost predicate TrueStep(r: Run, k: nat)
    requires r.Valid() && k < |r.actions|
  {
    var a := r.actions[k];
    a.Receive? && Actor(a) in r.states[k].nodes ==>
      && CountsHeld(HoldingsOf(r, k), r.states[k].nodes[Actor(a)], a.packet.msg)
      && CommitIsLeaders(HistoryOf(r, k), r.states[k].nodes[Actor(a)], a.packet.msg)
  }

  /** An addressed run all of whose steps do so. */
  ghost predicate TrueRun(r: Run) {
    r.Valid() && AllAddressed(r) && forall k: nat :: k < |r.actions| ==> TrueStep(r, k)
  }

  ghost predicate SureAt(r: Run, k: nat)
    requires r.Valid() && k <= |r.actions|
  {
    Sure(r.states[k], HistoryOf(r, k), HoldingsOf(r, k))
  }

  lemma SureAtStart(r: Run)
    requires r.Valid()
    ensures SureAt(r, 0)
  {
    FreshSure(r.states[0]);
  }

  lemma SureAtStep(r: Run, k: nat)
    requires r.Valid() && k < |r.actions| && LogsAt(r, k) && SafeAt(r, k) && SureAt(r, k) && TrueStep(r, k)
    ensures SureAt(r, k + 1)
  {
    RecordAt(r, k);
    NextKeepsSure(r.states[k], HistoryOf(r, k), HoldingsOf(r, k), r.actions[k], r.states[k + 1]);
  }

  lemma SureNext(r: Run, k: nat)
    requires r.Valid() && AllAddressed(r) && k < |r.actions| && SureAt(r, k) && TrueStep(r, k)
    ensures SureAt(r, k + 1)
  {
    LogsHold(r, k);
    RunKeepsSafe(r, k);
    SureAtStep(r, k);
  }

  lemma {:induction false} RunKeepsSure(r: Run, k: nat)
    requires TrueRun(r) && k <= |r.actions|
    ensures SureAt(r, k)
  {
    if k == 0 {
      SureAtStart(r);
    } else {
      RunKeepsSure(r, k - 1);
      SureNext(r, k - 1);
    }
  }

  /** What a node has committed stays backed for the rest of the run. */
  lemma CommittedStaysBacked(r: Run, i: nat, j: nat, a: NodeId)
    requires TrueRun(r) && i <= j <= |r.actions| && a in r.states[i].nodes
    ensures var n := r.states[i].nodes[a];
            Served(n)
            && Backed(r.states[j].nodes.Keys, HistoryOf(r, j), HoldingsOf(r, j), n.log, n.commitIndex, n.term)
  {
    RunKeepsSure(r, i);
    RunGrows(r, i, j);
    var n := r.states[i].nodes[a];
    assert CommitOk(r.states[i].nodes.Keys, HistoryOf(r, i), HoldingsOf(r, i), n);
    BackedStays(r.states[j].nodes.Keys, HistoryOf(r, i), HoldingsOf(r, i), HistoryOf(r, j), HoldingsOf(r, j),
                n.log, n.log, n.commitIndex, n.term, n.term);
  }

  lemma LeaderWrote(c: Cluster, h: History, b: NodeId)
    requires Inv(c, h) && b in c.nodes && c.nodes[b].role == Leader
    ensures c.nodes[b].term in h.written && h.written[c.nodes[b].term] == c.nodes[b].log
  {
    assert NodeOk(c.nodes[b], h, c.nodes.Keys);
  }

  /**
   Leader Completeness: whatever any node has committed, every leader from then
   on whose term is no earlier than that node's has in its log.
   */
  lemma LeaderCompleteness(r: Run, i: nat, j: nat, a: NodeId, b: NodeId)
    requires TrueRun(r) && i <= j <= |r.actions|
    requires a in r.states[i].nodes && b in r.states[j].nodes && r.states[j].nodes[b].role == Leader
    requires r.states[i].nodes[a].term <= r.states[j].nodes[b].term
    ensures var n := r.states[i].nodes[a];
            n.commitIndex <= |n.log| && n.log[..n.commitIndex] <= r.states[j].nodes[b].log
  {
    CommittedStaysBacked(r, i, j, a);
    RunKeepsSafe(r, j);
    RunKeepsInv(r, j);
    LeaderWrote(r.states[j], HistoryOf(r, j), b);
    var n := r.states[i].nodes[a];
    LeaderHasBacked(r.states[j], HistoryOf(r, j), HoldingsOf(r, j), n.log, n.commitIndex, n.term,
                    r.states[j].nodes[b].term);
  }

  /** State Machine Safety: no two nodes, at any two moments, deliver different entries at one position. */
  lemma StateMachineSafety(r: Run, i: nat, j: nat, a: NodeId, b: NodeId, pos: nat)
    requires TrueRun(r) && i <= j <= |r.actions|
    requires a in r.states[i].nodes && b in r.states[j].nodes
    requires pos < |r.states[i].nodes[a].applied| && pos < |r.states[j].nodes[b].applied|
    ensures r.states[i].nodes[a].applied[pos] == r.states[j].nodes[b].applied[pos]
  {
    CommittedStaysBacked(r, i, j, a);
    CommittedStaysBacked(r, j, j, b);
    RunKeepsSafe(r, j);
    var n, m := r.states[i].nodes[a], r.states[j].nodes[b];
    BackedAgree(r.states[j], HistoryOf(r, j), HoldingsOf(r, j), n.log, n.commitIndex, n.term,
                m.log, m.commitIndex, m.term, pos);
  }

  // ---------------------------------------------------------------- a guard the code could check

  /** What a node could check before it acts. */
  predicate Guard(n: Node, m: Message) {
    AnswersOwnTerm(n, m) && EndsWithMessage(n, m)
  }

  /** An addressed run in which every counted answer is of the leader's term and every accepted message ends the log. */
  ghost predicate GuardedRun(r: Run) {
    r.Valid() && AllAddressed(r) && AllOwnTerm(r) && AllEnd(r)
  }

  /** Every acknowledgement sent is true. */
  ghost predicate AckOk(g: Holdings, m: Message) {
    m.AppendResponse? && m.success && m.matchIndex > 0 ==> Holds(g, m.sender, m.term, m.matchIndex)
  }

  ghost predicate AcksOk(c: Cluster, g: Holdings) {
    forall p :: p in c.net ==> AckOk(g, p.msg)
  }

  /** A guarded message that is accepted leaves a beginning of the leader's log. */
  lemma GuardedSplice(c: Cluster, h: History, log: seq<Entry>, m: Message)
    requires Bounded(c, h) && LogOk(h, log) && m.AppendEntries? && m.term in h.written && LogOk(h, h.written[m.term])
    requires Consistent(log, m.prevLogIndex, m.prevLogTerm) && PrevQuotes(h, m)
    requires m.entries != [] ==> Quotes(h, m)
    requires forall i :: 0 <= i < |log| ==> log[i].term > 0
    requires Conflicts(log, m.prevLogIndex, m.entries) || |log| <= m.prevLogIndex + |m.entries|
    ensures Splice(log, m.prevLogIndex, m.entries) <= h.written[m.term]
  {
    CoveredAgrees(c, h, log, m);
    SpliceKeepsOrConflicts(log, m.prevLogIndex, m.entries);
    var log' := Splice(log, m.prevLogIndex, m.entries);
    assert log'[..|log'|] == log';
  }

  lemma PrefixAgrees(a: seq<Entry>, b: seq<Entry>, k: nat)
    requires a <= b && k <= |a|
    ensures Agree(a, b, k)
  {
  }

  /** The logs and the message a guarded step meets. */
  lemma GuardedAccept(c: Cluster, h: History, g: Holdings, n: Node, m: Message)
    requires LogsInv(c, h) && Bounded(c, h) && AllNewsOk(c, h, g)
    requires n.id in c.nodes && c.nodes[n.id] == n && Packet(n.id, m) in c.net
    requires m.AppendEntries? && m.term >= n.term && Consistent(n.log, m.prevLogIndex, m.prevLogTerm)
    requires Guard(n, m)
    ensures m.term in h.written && Splice(n.log, m.prevLogIndex, m.entries) <= h.written[m.term]
  {
    assert PacketQuotes(h, Packet(n.id, m)) && NewsOk(c.nodes.Keys, h, g, m);
    GuardedSplice(c, h, n.log, m);
  }

  lemma GuardIsTrue(c: Cluster, h: History, g: Holdings, n: Node, m: Message)
    requires LogsInv(c, h) && Bounded(c, h) && AllNewsOk(c, h, g) && AcksOk(c, g)
    requires n.id in c.nodes && c.nodes[n.id] == n && Packet(n.id, m) in c.net && Guard(n, m)
    ensures CountsHeld(g, n, m) && CommitIsLeaders(h, n, m)
  {
    assert AckOk(g, m);
    if m.AppendEntries? && m.term >= n.term && Consistent(n.log, m.prevLogIndex, m.prevLogTerm) {
      GuardedAccept(c, h, g, n, m);
      var log' := Splice(n.log, m.prevLogIndex, m.entries);
      PrefixAgrees(log', h.written[m.term], Min(m.leaderCommit, |log'|));
    }
  }

  /** Only accepting a message is answered with success. */
  lemma OnlyAcceptedSucceed(c: Cluster, a: Action)
    requires Enabled(c, a) && Defined(c, a)
    requires a.Receive? && a.packet.msg.AppendEntries? ==>
               var n, m := c.nodes[a.packet.dst], a.packet.msg;
               m.term < n.term || !Consistent(n.log, m.prevLogIndex, m.prevLogTerm)
    ensures forall p :: p in Perform(c, a).out && p.msg.AppendResponse? ==> !p.msg.success
  {
  }

  /** A node that has just taken over a beginning of its leader's log answers truthfully. */
  lemma TrueAnswer(h: History, g: Holdings, h': History, x: Node)
    requires Extends(h, h') && x.term in h.written && x.log <= h.written[x.term]
    ensures AckOk(Record(g, h', x), AppendResponse(x.term, x.id, true, |x.log|))
  {
    PrefixAgrees(x.log, h'.written[x.term], |x.log|);
    RecordHolds(g, h', x, x.id, x.term, |x.log|);
  }

  lemma GuardedAnswer(c: Cluster, h: History, g: Holdings, n: Node, m: Message)
    requires LogsInv(c, h) && Bounded(c, h) && AllNewsOk(c, h, g) && CanHandle(n, m) && Guard(n, m)
    requires n.id in c.nodes && c.nodes[n.id] == n && Packet(n.id, m) in c.net
    requires m.AppendEntries? && m.term >= n.term && Consistent(n.log, m.prevLogIndex, m.prevLogTerm)
    requires Extends(h, Observe(h, HandleMessage(n, m).node))
    ensures var o := HandleMessage(n, m);
            forall p :: p in o.out ==> AckOk(Record(g, Observe(h, o.node), o.node), p.msg)
  {
    GuardedAccept(c, h, g, n, m);
    AcceptedAnswer(n, m);
    var x := HandleMessage(n, m).node;
    TrueAnswer(h, g, Observe(h, x), x);
  }

  lemma AcksOkStep(c: Cluster, h: History, g: Holdings, c': Cluster, h': History, g': Holdings, n: Node, x: Node)
    requires Moves(c, h, g, c', h', g', n, x) && AcksOk(c, g)
    requires forall p :: p in c'.net && p !in c.net ==> AckOk(g', p.msg)
    ensures AcksOk(c', g')
  {
    MovesGrow(c, h, g, c', h', g', n, x);
    forall p | p in c'.net ensures AckOk(g', p.msg) {
      if p in c.net {
        assert AckOk(g, p.msg);
      }
    }
  }

  lemma StepAnswers(c: Cluster, h: History, g: Holdings, a: Action)
    requires Inv(c, h) && LogsInv(c, h) && Bounded(c, h) && AllNewsOk(c, h, g) && Enabled(c, a) && Defined(c, a)
    requires a.Receive? ==> Guard(c.nodes[Actor(a)], a.packet.msg)
    requires Extends(h, Observe(h, Perform(c, a).node))
    ensures var o := Perform(c, a);
            forall p :: p in o.out ==> AckOk(Record(g, Observe(h, o.node), o.node), p.msg)
  {
    var n := c.nodes[Actor(a)];
    if a.Receive? && a.packet.msg.AppendEntries? && a.packet.msg.term >= n.term
       && Consistent(n.log, a.packet.msg.prevLogIndex, a.packet.msg.prevLogTerm) {
      GuardedAnswer(c, h, g, n, a.packet.msg);
    } else {
      OnlyAcceptedSucceed(c, a);
    }
  }

  lemma NextKeepsAcks(c: Cluster, h: History, g: Holdings, a: Action, c': Cluster)
    requires Inv(c, h) && LogsInv(c, h) && Bounded(c, h) && AllNewsOk(c, h, g) && AcksOk(c, g) && Next(c, a, c')
    requires a.Receive? ==> Guard(c.nodes[Actor(a)], a.packet.msg)
    ensures var h' := Observe(h, c'.nodes[Actor(a)]); AcksOk(c', Record(g, h', c'.nodes[Actor(a)]))
  {
    var n, x := c.nodes[Actor(a)], Perform(c, a).node;
    var h' := Observe(h, x);
    NextMoves(c, h, g, a, c');
    StepAnswers(c, h, g, a);
    AcksOkStep(c, h, g, c', h', Record(g, h', x), n, x);
  }

  ghost predicate GuardedAt(r: Run, k: nat)
    requires r.Valid() && k <= |r.actions|
  {
    Sure(r.states[k], HistoryOf(r, k), HoldingsOf(r, k)) && AcksOk(r.states[k], HoldingsOf(r, k))
  }

  ghost predicate GuardedStep(r: Run, k: nat)
    requires r.Valid() && k < |r.actions|
  {
    EndsAt(r.states[k], r.actions[k]) && OwnTermAt(r.states[k], r.actions[k])
  }

  lemma GuardedStepIsTrue(r: Run, k: nat)
    requires r.Valid() && k < |r.actions| && LogsAt(r, k) && SafeAt(r, k) && GuardedAt(r, k) && GuardedStep(r, k)
    ensures TrueStep(r, k)
  {
    RecordAt(r, k);
    var a := r.actions[k];
    if a.Receive? && Actor(a) in r.states[k].nodes {
      GuardIsTrue(r.states[k], HistoryOf(r, k), HoldingsOf(r, k), r.states[k].nodes[Actor(a)], a.packet.msg);
    }
  }

  lemma AcksAtStep(r: Run, k: nat)
    requires r.Valid() && k < |r.actions| && LogsAt(r, k) && SafeAt(r, k) && GuardedAt(r, k) && GuardedStep(r, k)
    ensures AcksOk(r.states[k + 1], HoldingsOf(r, k + 1))
  {
    RecordAt(r, k);
    NextKeepsAcks(r.states[k], HistoryOf(r, k), HoldingsOf(r, k), r.actions[k], r.states[k + 1]);
  }

  lemma GuardedNext(r: Run, k: nat)
    requires r.Valid() && AllAddressed(r) && k < |r.actions| && GuardedAt(r, k) && GuardedStep(r, k)
    ensures GuardedAt(r, k + 1) && TrueStep(r, k)
  {
    LogsHold(r, k);
    RunKeepsSafe(r, k);
    GuardedStepIsTrue(r, k);
    SureAtStep(r, k);
    AcksAtStep(r, k);
  }

  lemma GuardedAtStart(r: Run)
    requires r.Valid()
    ensures GuardedAt(r, 0)
  {
    FreshSure(r.states[0]);
  }

  lemma {:induction false} RunStaysGuarded(r: Run, k: nat)
    requires GuardedRun(r) && k <= |r.actions|
    ensures GuardedAt(r, k)
    ensures forall i: nat :: i < k ==> TrueStep(r, i)
  {
    if k == 0 {
      GuardedAtStart(r);
    } else {
      RunStaysGuarded(r, k - 1);
      GuardedNext(r, k - 1);
    }
  }

  /** A node that checks the guard counts only what was held and commits only what is the leader's. */
  lemma GuardedIsTrue(r: Run)
    requires GuardedRun(r)
    ensures TrueRun(r)
  {
    RunStaysGuarded(r, |r.actions|);
  }
}
