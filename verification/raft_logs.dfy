/**
 Log Matching (section 5.3 of the Raft paper) and the follower's splice.

 An AppendEntries carries the entry just proposed but is addressed by the
 leader's guess of the follower's length, so it states the truth about the
 leader's log only when that guess is exactly right. Runs whose proposals are
 all made in that case keep Log Matching; a run in which one is not breaks it
 (see RaftCounterexamples).
 */
module RaftLogs {
  import opened RaftProtocol
  import opened RaftCluster
  import opened RaftElection

  // ---------------------------------------------------------------- the splice on its own

  /** After a splice the log carries the message's terms at the message's positions. */
  lemma SpliceCarries(log: seq<Entry>, prev: nat, entries: seq<Entry>)
    requires prev <= |log|
    ensures var s := Splice(log, prev, entries);
            && prev + |entries| <= |s|
            && s[..prev] == log[..prev]
            && (forall j :: 0 <= j < |entries| ==> s[prev + j].term == entries[j].term)
  {
    var s := Splice(log, prev, entries);
    if Conflicts(log, prev, entries) {
      var k := FirstConflict(log, prev, entries);
      forall j | 0 <= j < |entries| ensures s[prev + j].term == entries[j].term {
        if j < k {
          assert s[prev + j] == log[prev + j];
        } else {
          assert s[prev + j] == entries[k..][j - k];
        }
      }
    } else if |log| < prev + |entries| {
      forall j | 0 <= j < |entries| ensures s[prev + j].term == entries[j].term {
        if |log| <= prev + j {
          assert s[prev + j] == entries[|log| - prev..][prev + j - |log|];
        }
      }
    }
  }

  /** Redelivering the same message changes nothing. */
  lemma SpliceIdempotent(log: seq<Entry>, prev: nat, entries: seq<Entry>)
    requires prev <= |log|
    ensures prev <= |Splice(log, prev, entries)|
    ensures Splice(Splice(log, prev, entries), prev, entries) == Splice(log, prev, entries)
  {
    SpliceCarries(log, prev, entries);
    var s := Splice(log, prev, entries);
    assert !Conflicts(s, prev, entries);
  }

  /** The log is cut exactly when two terms disagree; otherwise it is a prefix of the result. */
  lemma SpliceKeepsOrConflicts(log: seq<Entry>, prev: nat, entries: seq<Entry>)
    requires prev <= |log|
    ensures Conflicts(log, prev, entries) <==> !(log <= Splice(log, prev, entries))
    ensures Conflicts(log, prev, entries) ==> |Splice(log, prev, entries)| == prev + |entries|
  {
    if Conflicts(log, prev, entries) {
      var k := FirstConflict(log, prev, entries);
      assert Splice(log, prev, entries)[prev + k] == entries[k..][0];
    }
  }

  /** `k` is where log and message first disagree in term. */
  predicate DisagreesFirst(log: seq<Entry>, prev: nat, entries: seq<Entry>, k: nat) {
    && k < |entries| && prev + k < |log| && log[prev + k].term != entries[k].term
    && forall j :: 0 <= j < k ==> log[prev + j].term == entries[j].term
  }

  /** There the log is cut and continued with the rest of the message. */
  lemma SpliceCutsAt(log: seq<Entry>, prev: nat, entries: seq<Entry>, k: nat)
    requires prev <= |log| && DisagreesFirst(log, prev, entries, k)
    ensures Conflicts(log, prev, entries)
    ensures Splice(log, prev, entries) == log[..prev + k] + entries[k..]
  {
    assert !AgreesFor(log, prev, entries, |entries|);
    var f := FirstConflict(log, prev, entries);
    assert f == k;
  }

  /** And every conflict has such a place. */
  lemma ConflictHasPlace(log: seq<Entry>, prev: nat, entries: seq<Entry>) returns (k: nat)
    requires prev <= |log| && Conflicts(log, prev, entries)
    ensures DisagreesFirst(log, prev, entries, k)
  {
    k := FirstConflict(log, prev, entries);
  }

  // ---------------------------------------------------------------- the invariant on logs

  /** Entry `i` sits where the winner of its term wrote it, after the same entries. */
  ghost predicate Placed(h: History, log: seq<Entry>, i: nat)
    requires i < |log|
  {
    var t := log[i].term;
    && t in h.written && i < |h.written[t]|
    && log[..i + 1] == h.written[t][..i + 1]
    && log[i].index == i + 1
  }

  ghost predicate LogOk(h: History, log: seq<Entry>) {
    forall i: nat :: i < |log| ==> Placed(h, log, i)
  }

  /** A non-empty message quotes the log of its term's winner, at the right place. */
  ghost predicate Quotes(h: History, m: Message)
    requires m.AppendEntries?
  {
    && m.term in h.written
    && m.prevLogIndex + |m.entries| <= |h.written[m.term]|
    && m.entries == h.written[m.term][m.prevLogIndex..m.prevLogIndex + |m.entries|]
    && (m.prevLogIndex > 0 ==> m.prevLogTerm == h.written[m.term][m.prevLogIndex - 1].term)
  }

  ghost predicate PacketQuotes(h: History, p: Packet) {
    p.msg.AppendEntries? && p.msg.entries != [] ==> Quotes(h, p.msg)
  }

  ghost predicate LogsInv(c: Cluster, h: History) {
    && (forall id :: id in c.nodes ==> LogOk(h, c.nodes[id].log))
    && (forall t :: t in h.written ==> LogOk(h, h.written[t]))
    && (forall p :: p in c.net ==> PacketQuotes(h, p))
  }

  lemma LogOkGrows(h: History, h': History, log: seq<Entry>)
    requires Extends(h, h') && LogOk(h, log)
    ensures LogOk(h', log)
  {
    forall i: nat | i < |log| ensures Placed(h', log, i) {
      assert Placed(h, log, i);
    }
  }

  lemma QuotesGrows(h: History, h': History, m: Message)
    requires Extends(h, h') && m.AppendEntries? && Quotes(h, m)
    ensures Quotes(h', m)
  {
  }

  /** Two placed logs that agree in term at a position agree up to it. */
  lemma SameTermSamePrefix(h: History, a: seq<Entry>, b: seq<Entry>, i: nat)
    requires LogOk(h, a) && LogOk(h, b) && i < |a| && i < |b| && a[i].term == b[i].term
    ensures a[..i + 1] == b[..i + 1]
  {
    assert Placed(h, a, i) && Placed(h, b, i);
  }

  lemma PrefixOk(h: History, log: seq<Entry>, k: nat)
    requires LogOk(h, log) && k <= |log|
    ensures LogOk(h, log[..k])
  {
    forall i: nat | i < k ensures Placed(h, log[..k], i) {
      assert Placed(h, log, i);
      assert log[..k][..i + 1] == log[..i + 1];
    }
  }

  /** The log up to the message's start is the winner's log. */
  lemma ConsistentPrefix(h: History, log: seq<Entry>, m: Message)
    requires LogOk(h, log) && m.AppendEntries? && Quotes(h, m) && LogOk(h, h.written[m.term])
    requires Consistent(log, m.prevLogIndex, m.prevLogTerm)
    ensures m.prevLogIndex <= |log|
    ensures log[..m.prevLogIndex] == h.written[m.term][..m.prevLogIndex]
  {
    if m.prevLogIndex > 0 {
      SameTermSamePrefix(h, log, h.written[m.term], m.prevLogIndex - 1);
    }
  }

  /** Where the message agrees with the log in term, the log is the winner's log. */
  lemma AgreeingPrefix(h: History, log: seq<Entry>, m: Message, k: nat)
    requires LogOk(h, log) && m.AppendEntries? && Quotes(h, m) && LogOk(h, h.written[m.term])
    requires Consistent(log, m.prevLogIndex, m.prevLogTerm)
    requires k <= |m.entries| && m.prevLogIndex + k <= |log|
    requires AgreesFor(log, m.prevLogIndex, m.entries, k)
    ensures log[..m.prevLogIndex + k] == h.written[m.term][..m.prevLogIndex + k]
  {
    if k == 0 {
      ConsistentPrefix(h, log, m);
    } else {
      var w := h.written[m.term];
      assert m.entries[k - 1] == w[m.prevLogIndex + k - 1];
      SameTermSamePrefix(h, log, w, m.prevLogIndex + k - 1);
    }
  }

  /** Splicing a quotation of `w` into a log that follows `w` far enough yields a prefix of `w`, or no change. */
  lemma SpliceOfQuotation(log: seq<Entry>, prev: nat, entries: seq<Entry>, w: seq<Entry>, k: nat)
    requires prev <= |log| && prev + |entries| <= |w| && entries == w[prev..prev + |entries|]
    requires k <= |entries| && prev + k <= |log| && log[..prev + k] == w[..prev + k]
    requires if Conflicts(log, prev, entries) then k == FirstConflict(log, prev, entries)
             else k == |entries| || prev + k == |log|
    ensures Splice(log, prev, entries) == log || Splice(log, prev, entries) == w[..prev + |entries|]
  {
    assert w[..prev + k] + entries[k..] == w[..prev + |entries|];
    assert prev + k == |log| ==> log[..prev + k] == log;
  }

  /** How many of the entries the log already has: up to a conflict, or until either ends. */
  function Agreement(log: seq<Entry>, prev: nat, entries: seq<Entry>): (k: nat)
    requires prev <= |log|
    ensures k <= |entries| && prev + k <= |log| && AgreesFor(log, prev, entries, k)
    ensures if Conflicts(log, prev, entries) then k == FirstConflict(log, prev, entries)
            else k == |entries| || prev + k == |log|
  {
    if Conflicts(log, prev, entries) then FirstConflict(log, prev, entries)
    else if prev + |entries| <= |log| then |entries| else |log| - prev
  }

  lemma SpliceOk(h: History, log: seq<Entry>, m: Message)
    requires LogOk(h, log) && m.AppendEntries? && Quotes(h, m) && LogOk(h, h.written[m.term])
    requires Consistent(log, m.prevLogIndex, m.prevLogTerm)
    ensures m.prevLogIndex <= |log|
    ensures LogOk(h, Splice(log, m.prevLogIndex, m.entries))
  {
    ConsistentPrefix(h, log, m);
    var w, prev, es := h.written[m.term], m.prevLogIndex, m.entries;
    var k := Agreement(log, prev, es);
    AgreeingPrefix(h, log, m, k);
    SpliceOfQuotation(log, prev, es, w, k);
    PrefixOk(h, w, prev + |es|);
  }

  // ---------------------------------------------------------------- every handler keeps it

  ghost predicate LogsKept(h: History, n: Node, o: Outcome) {
    var h' := Observe(h, o.node);
    && LogOk(h', o.node.log)
    && (forall p :: p in o.out ==> PacketQuotes(h', p))
  }

  /** The addressing a proposal relies on, seen from the leader. */
  ghost predicate PeersInStep(n: Node) {
    forall p :: p in n.peers ==> p in n.nextIndex && n.nextIndex[p] == |n.log| + 1
  }

  lemma AppendOwn(h: History, log: seq<Entry>, e: Entry)
    requires LogOk(h, log) && e.index == |log| + 1
    requires e.term in h.written && h.written[e.term] == log + [e]
    ensures LogOk(h, log + [e])
  {
    forall i: nat | i < |log| + 1 ensures Placed(h, log + [e], i) {
      if i < |log| {
        assert Placed(h, log, i);
        assert (log + [e])[..i + 1] == log[..i + 1];
      }
    }
  }

  lemma ProposeLogs(n: Node, command: string, timestamp: real, h: History, members: set<NodeId>)
    requires NodeOk(n, h, members) && LogOk(h, n.log)
    requires n.role == Leader ==> PeersInStep(n)
    requires Sound(h, members, n, RaftProtocol.Propose(n, command, timestamp))
    ensures LogsKept(h, n, RaftProtocol.Propose(n, command, timestamp))
  {
    if n.role == Leader {
      LeaderProposeLogs(n, command, timestamp, h, members);
    } else {
      ObserveKnown(n, h, members);
    }
  }

  lemma LeaderProposeLogs(n: Node, command: string, timestamp: real, h: History, members: set<NodeId>)
    requires n.role == Leader && NodeOk(n, h, members) && LogOk(h, n.log) && PeersInStep(n)
    requires Sound(h, members, n, RaftProtocol.Propose(n, command, timestamp))
    ensures LogsKept(h, n, RaftProtocol.Propose(n, command, timestamp))
  {
    var o := RaftProtocol.Propose(n, command, timestamp);
    var h' := Observe(h, o.node);
    var e := Entry(|n.log| + 1, n.term, command, timestamp);
    LogOkGrows(h, h', n.log);
    AppendOwn(h', n.log, e);
    forall p | p in o.out ensures PacketQuotes(h', p) {
      ProposalQuotes(n, command, timestamp, h', p);
    }
  }

  /** An addressed proposal quotes what the leader has just written. */
  lemma ProposalQuotes(n: Node, command: string, timestamp: real, h: History, p: Packet)
    requires n.role == Leader && LeaderReady(n) && PeersInStep(n)
    requires var o := RaftProtocol.Propose(n, command, timestamp);
             p in o.out && n.term in h.written && h.written[n.term] == o.node.log
    ensures PacketQuotes(h, p)
  {
    var o := RaftProtocol.Propose(n, command, timestamp);
    assert p.msg.prevLogIndex == |n.log|;
    assert [Entry(|n.log| + 1, n.term, command, timestamp)] == o.node.log[|n.log|..|n.log| + 1];
  }

  lemma AppendEntriesLogs(n: Node, m: Message, h: History, members: set<NodeId>)
    requires Elected(h, members) && NodeOk(n, h, members) && LogOk(h, n.log)
    requires m.AppendEntries? && m.term <= n.term && PacketOk(Packet(n.id, m), h, members)
    requires m.entries != [] ==> Quotes(h, m) && LogOk(h, h.written[m.term])
    ensures LogOk(h, HandleAppendEntries(n, m).node.log)
  {
    if m.term >= n.term && Consistent(n.log, m.prevLogIndex, m.prevLogTerm) && m.entries != [] {
      SpliceOk(h, n.log, m);
    }
  }

  /** Every other handler leaves the log alone and sends no entries. */
  lemma OtherMessagesLogStays(n: Node, m: Message)
    requires CanHandle(n, m) && !m.AppendEntries?
    ensures HandleMessage(n, m).node.log == n.log
    ensures forall p :: p in HandleMessage(n, m).out ==> !p.msg.AppendEntries?
  {
    if m.AppendResponse? {
      var n' := ObserveTerm(n, m.term);
      if n'.role == Leader && m.success {
        CheckCommitKeeps(Acknowledge(n', m.sender, m.matchIndex));
      }
    }
  }

  lemma OtherActionsLogStays(c: Cluster, a: Action)
    requires Enabled(c, a) && Defined(c, a) && !a.Propose? && !a.Receive?
    requires c.nodes[Actor(a)].disk.log == c.nodes[Actor(a)].log
    ensures Perform(c, a).node.log == c.nodes[Actor(a)].log
    ensures forall p :: p in Perform(c, a).out && p.msg.AppendEntries? ==> p.msg.entries == []
  {
  }

  lemma KeptLog(h: History, n: Node, o: Outcome)
    requires LogOk(h, n.log) && o.node.log == n.log && Extends(h, Observe(h, o.node))
    requires forall p :: p in o.out && p.msg.AppendEntries? ==> p.msg.entries == []
    ensures LogsKept(h, n, o)
  {
    LogOkGrows(h, Observe(h, o.node), n.log);
  }

  lemma ChangedLog(h: History, n: Node, o: Outcome)
    requires LogOk(h, o.node.log) && Extends(h, Observe(h, o.node))
    requires forall p :: p in o.out ==> !p.msg.AppendEntries?
    ensures LogsKept(h, n, o)
  {
    LogOkGrows(h, Observe(h, o.node), o.node.log);
  }

  lemma ReceiveLogs(n: Node, m: Message, h: History, members: set<NodeId>)
    requires Elected(h, members) && NodeOk(n, h, members) && LogOk(h, n.log)
    requires PacketOk(Packet(n.id, m), h, members) && CanHandle(n, m)
    requires m.AppendEntries? && m.entries != [] ==> Quotes(h, m) && LogOk(h, h.written[m.term])
    requires Sound(h, members, n, HandleMessage(n, m))
    ensures LogsKept(h, n, HandleMessage(n, m))
  {
    var o := HandleMessage(n, m);
    if m.AppendEntries? {
      ReceiveAppendLogs(n, m, h, members);
    } else {
      OtherMessagesLogStays(n, m);
      KeptLog(h, n, o);
    }
  }

  lemma ReceiveAppendLogs(n: Node, m: Message, h: History, members: set<NodeId>)
    requires Elected(h, members) && NodeOk(n, h, members) && LogOk(h, n.log)
    requires PacketOk(Packet(n.id, m), h, members) && CanHandle(n, m) && m.AppendEntries?
    requires m.entries != [] ==> Quotes(h, m) && LogOk(h, h.written[m.term])
    requires Sound(h, members, n, HandleMessage(n, m))
    ensures LogsKept(h, n, HandleMessage(n, m))
  {
    ObserveTermSound(n, m.term, h, members);
    var n' := ObserveTerm(n, m.term);
    AppendEntriesLogs(n', m, h, members);
    AppendEntriesShape(n', m);
    ChangedLog(h, n, HandleMessage(n, m));
  }

  lemma StepLogs(c: Cluster, a: Action, h: History)
    requires Inv(c, h) && LogsInv(c, h) && Enabled(c, a) && Defined(c, a) && Addressed(c, a)
    requires Sound(h, c.nodes.Keys, c.nodes[Actor(a)], Perform(c, a))
    ensures LogsKept(h, c.nodes[Actor(a)], Perform(c, a))
  {
    var members := c.nodes.Keys;
    var n := c.nodes[Actor(a)];
    match a
    case Propose(_, command, timestamp) => ProposeLogs(n, command, timestamp, h, members);
    case Receive(p) =>
      assert PacketQuotes(h, p) && PacketOk(p, h, members);
      ReceiveLogs(n, p.msg, h, members);
    case _ =>
      OtherActionsLogStays(c, a);
      KeptLog(h, n, Perform(c, a));
  }

  lemma NextKeepsLogs(c: Cluster, a: Action, c': Cluster, h: History)
    requires Inv(c, h) && LogsInv(c, h) && Next(c, a, c') && Addressed(c, a)
    ensures LogsInv(c', Observe(h, c'.nodes[Actor(a)]))
  {
    var n := c.nodes[Actor(a)];
    var o := Perform(c, a);
    StepSound(c, a, h);
    StepLogs(c, a, h);
    var h' := Observe(h, o.node);
    forall id | id in c'.nodes ensures LogOk(h', c'.nodes[id].log) {
      if id != n.id { LogOkGrows(h, h', c.nodes[id].log); }
    }
    forall t | t in h'.written ensures LogOk(h', h'.written[t]) {
      if o.node.role == Leader && t == o.node.term {
        assert h'.written[t] == o.node.log;
      } else {
        LogOkGrows(h, h', h.written[t]);
      }
    }
    forall p | p in c'.net ensures PacketQuotes(h', p) {
      if p in c.net && p.msg.AppendEntries? && p.msg.entries != [] {
        assert PacketQuotes(h, p);
        QuotesGrows(h, h', p.msg);
      }
    }
  }

  // ---------------------------------------------------------------- every run

  lemma RunKeepsLogs(r: Run, k: nat)
    requires r.Valid() && AllAddressed(r) && k <= |r.actions|
    ensures LogsInv(r.states[k], HistoryOf(r, k))
  {
    LogsHoldAt(r, k);
  }

  ghost predicate LogsOkAt(r: Run, k: nat)
    requires r.Valid() && k <= |r.actions|
  {
    LogsInv(r.states[k], HistoryOf(r, k))
  }

  lemma {:induction false} LogsHoldAt(r: Run, k: nat)
    requires r.Valid() && AllAddressed(r) && k <= |r.actions|
    ensures LogsOkAt(r, k)
  {
    if k == 0 {
      FreshLogs(r.states[0]);
    } else {
      LogsHoldAt(r, k - 1);
      LogsNext(r, k);
    }
  }

  lemma LogsNext(r: Run, k: nat)
    requires r.Valid() && AllAddressed(r) && 0 < k <= |r.actions| && LogsOkAt(r, k - 1)
    ensures LogsOkAt(r, k)
  {
    RunKeepsInv(r, k - 1);
    LogsStep(r, k);
  }

  lemma FreshLogs(c: Cluster)
    requires Initial(c)
    ensures LogsInv(c, NO_HISTORY)
  {
    forall id | id in c.nodes ensures LogOk(NO_HISTORY, c.nodes[id].log) {
      assert c.nodes[id] == Fresh(id, c.nodes[id].peers);
    }
  }

  lemma LogsStep(r: Run, k: nat)
    requires r.Valid() && 0 < k <= |r.actions|
    requires Addressed(r.states[k - 1], r.actions[k - 1])
    requires Inv(r.states[k - 1], HistoryOf(r, k - 1)) && LogsInv(r.states[k - 1], HistoryOf(r, k - 1))
    ensures LogsInv(r.states[k], HistoryOf(r, k))
  {
    StepAt(r, k - 1);
    NextKeepsLogs(r.states[k - 1], r.actions[k - 1], r.states[k], HistoryOf(r, k - 1));
  }

  /**
   Two logs, of any nodes at any two moments of the run, that hold entries of
   the same term at the same position are identical up to that position.
   */
  lemma LogMatching(r: Run, i: nat, j: nat, a: NodeId, b: NodeId, pos: nat)
    requires r.Valid() && AllAddressed(r) && i <= |r.actions| && j <= |r.actions|
    requires a in r.states[i].nodes && b in r.states[j].nodes
    requires pos < |r.states[i].nodes[a].log| && pos < |r.states[j].nodes[b].log|
    requires r.states[i].nodes[a].log[pos].term == r.states[j].nodes[b].log[pos].term
    ensures r.states[i].nodes[a].log[..pos + 1] == r.states[j].nodes[b].log[..pos + 1]
  {
    var m := if i <= j then j else i;
    RunKeepsLogs(r, i);
    RunKeepsLogs(r, j);
    HistoryGrows(r, i, m);
    HistoryGrows(r, j, m);
    var h := HistoryOf(r, m);
    LogOkGrows(HistoryOf(r, i), h, r.states[i].nodes[a].log);
    LogOkGrows(HistoryOf(r, j), h, r.states[j].nodes[b].log);
    SameTermSamePrefix(h, r.states[i].nodes[a].log, r.states[j].nodes[b].log, pos);
  }

  /** In those runs an entry's index is its position, so a candidate's claimed last index is its log length. */
  lemma IndexIsPosition(r: Run, i: nat, a: NodeId)
    requires r.Valid() && AllAddressed(r) && i <= |r.actions| && a in r.states[i].nodes
    ensures forall k: nat :: k < |r.states[i].nodes[a].log| ==> r.states[i].nodes[a].log[k].index == k + 1
    ensures LastIndex(r.states[i].nodes[a].log) == |r.states[i].nodes[a].log|
  {
    RunKeepsLogs(r, i);
    var log := r.states[i].nodes[a].log;
    forall k: nat | k < |log| ensures log[k].index == k + 1 {
      assert Placed(HistoryOf(r, i), log, k);
    }
  }

  /** The message of a proposal tells the truth about the leader's log. */
  ghost predicate Truthful(log: seq<Entry>, m: Message)
    requires m.AppendEntries?
  {
    && m.prevLogIndex + |m.entries| <= |log|
    && m.entries == log[m.prevLogIndex..m.prevLogIndex + |m.entries|]
    && (m.prevLogIndex > 0 ==> m.prevLogTerm == log[m.prevLogIndex - 1].term)
  }

  /** It does so exactly when the leader's guess of that peer's length is right. */
  lemma TruthfulExactly(n: Node, command: string, timestamp: real, i: nat)
    requires n.role == Leader && LeaderReady(n) && i < |n.peers|
    requires forall k: nat :: k < |n.log| ==> n.log[k].index == k + 1
    ensures var o := RaftProtocol.Propose(n, command, timestamp);
            && o.out[i].dst == n.peers[i]
            && (Truthful(o.node.log, o.out[i].msg) <==> n.nextIndex[n.peers[i]] == |n.log| + 1)
  {
    var o := RaftProtocol.Propose(n, command, timestamp);
    var m := o.out[i].msg;
    if Truthful(o.node.log, m) {
      assert o.node.log[m.prevLogIndex] == m.entries[0];
      assert m.entries[0].index == |n.log| + 1;
    }
    if n.nextIndex[n.peers[i]] == |n.log| + 1 {
      assert m.entries == o.node.log[|n.log|..|n.log| + 1];
    }
  }
}
