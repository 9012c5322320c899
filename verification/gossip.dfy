/**
 Gossip: each node numbers its own writes, sends snapshots of its data, and keeps
 for every other node the newest item it has seen under each key. Snapshots may be
 lost, repeated and overtake one another.
 */
module GossipMerge {
  type NodeId = string

  datatype Item = Item(value: string, version: nat, timestamp: real, node: NodeId)

  type Data = map<string, Item>

  datatype Op = Op(key: string, value: string, timestamp: real)

  /** What a node holds of its own after these writes: the n-th write has version n. */
  function Local(id: NodeId, ops: seq<Op>): Data {
    if |ops| == 0 then map[]
    else
      var op := ops[|ops| - 1];
      Local(id, ops[..|ops| - 1])[op.key := Item(op.value, |ops|, op.timestamp, id)]
  }

  /** A key holds what the last write under it said, numbered by its place among all writes. */
  lemma {:induction false} LocalIsLast(id: NodeId, ops: seq<Op>, i: nat)
    requires i < |ops| && forall j :: i < j < |ops| ==> ops[j].key != ops[i].key
    ensures ops[i].key in Local(id, ops)
    ensures Local(id, ops)[ops[i].key] == Item(ops[i].value, i + 1, ops[i].timestamp, id)
  {
    if i < |ops| - 1 {
      assert ops[..|ops| - 1][i] == ops[i];
      LocalIsLast(id, ops[..|ops| - 1], i);
    }
  }

  /** Nothing else is held. */
  lemma {:induction false} LocalIsWritten(id: NodeId, ops: seq<Op>, key: string) returns (i: nat)
    requires key in Local(id, ops)
    ensures i < |ops| && ops[i].key == key && forall j :: i < j < |ops| ==> ops[j].key != key
  {
    i := |ops| - 1;
    if ops[i].key != key {
      i := LocalIsWritten(id, ops[..|ops| - 1], key);
    }
  }

  /** The same after only the first `k` of them. */
  function Snapshot(id: NodeId, ops: seq<Op>, k: nat): Data
    requires k <= |ops|
  {
    Local(id, ops[..k])
  }

  function VersionOf(d: Data, key: string): nat {
    if key in d then d[key].version else 0
  }

  /** `after` is `before` with every item of `incoming` that has a higher version taken over. */
  ghost predicate Merged(before: Data, incoming: Data, after: Data) {
    && (forall key :: key in after <==> key in before || (key in incoming && incoming[key].version > 0))
    && (forall key :: key in after ==>
          after[key] == if key in incoming && incoming[key].version > VersionOf(before, key) then incoming[key]
                        else before[key])
  }

  /** A later snapshot has every key of an earlier one, and agrees with it on all items as old as that. */
  lemma {:induction false} SnapshotGrows(id: NodeId, ops: seq<Op>, i: nat, j: nat)
    requires i <= j <= |ops|
    ensures forall key :: key in Snapshot(id, ops, i) ==>
      key in Snapshot(id, ops, j) && 0 < Snapshot(id, ops, i)[key].version <= i
      && Snapshot(id, ops, i)[key].version <= Snapshot(id, ops, j)[key].version
    ensures forall key :: key in Snapshot(id, ops, j) && Snapshot(id, ops, j)[key].version <= i ==>
      key in Snapshot(id, ops, i) && Snapshot(id, ops, i)[key] == Snapshot(id, ops, j)[key]
    decreases j
  {
    if j > 0 {
      assert ops[..j][..j - 1] == ops[..j - 1];
      SnapshotGrows(id, ops, if i < j then i else j - 1, j - 1);
    }
  }

  /** Merging one snapshot of a node into another gives the later of the two, whichever came first. */
  lemma MergeIsNewest(id: NodeId, ops: seq<Op>, i: nat, j: nat, after: Data)
    requires i <= |ops| && j <= |ops|
    requires Merged(Snapshot(id, ops, i), Snapshot(id, ops, j), after)
    ensures after == Snapshot(id, ops, if i < j then j else i)
  {
    if i < j {
      SnapshotGrows(id, ops, i, j);
    } else {
      SnapshotGrows(id, ops, j, i);
    }
  }

  lemma SnapshotStays(id: NodeId, ops: seq<Op>, op: Op, k: nat)
    requires k <= |ops|
    ensures Snapshot(id, ops + [op], k) == Snapshot(id, ops, k)
  {
    assert (ops + [op])[..k] == ops[..k];
  }
}

/** One gossip node, updated in place. */
module GossipNodes {
  import opened GossipMerge

  class GossipNode {
    const id: NodeId

    var version: nat
    var local: Data
    var peerData: map<NodeId, Data>

    ghost var ops: seq<Op>   // its own writes so far

    ghost predicate Valid()
      reads this
    {
      version == |ops| && local == Local(id, ops)
    }

    /** What it holds of another node. */
    function CopyOf(peer: NodeId): Data
      reads this
    {
      if peer in peerData then peerData[peer] else map[]
    }

    constructor (id: NodeId)
      ensures this.id == id && Valid() && ops == [] && peerData == map[]
    {
      this.id := id;
      version, local, peerData, ops := 0, map[], map[], [];
    }

    method Set(key: string, value: string, timestamp: real)
      requires Valid()
      modifies this`version, this`local, this`ops
      ensures Valid() && ops == old(ops) + [Op(key, value, timestamp)]
    {
      version := version + 1;
      local := local[key := Item(value, version, timestamp, id)];
      ops := ops + [Op(key, value, timestamp)];
      assert ops[..|ops| - 1] == old(ops);
    }

    /** What it sends: a snapshot and its version. */
    method SendPayload() returns (version': nat, data: Data)
      requires Valid()
      ensures version' == |ops| && data == Snapshot(id, ops, |ops|)
    {
      assert ops[..|ops|] == ops;
      return version, local;
    }

    /** Take over, item by item and in any order, whatever is newer than the copy of the sender. */
    method HandlePayload(sender: NodeId, data: Data)
      modifies this`peerData
      ensures Merged(old(CopyOf(sender)), data, CopyOf(sender))
      ensures forall peer :: peer != sender ==> CopyOf(peer) == old(CopyOf(peer))
    {
      var todo := data.Keys;
      while todo != {}
        invariant todo <= data.Keys
        invariant forall peer :: peer != sender ==> CopyOf(peer) == old(CopyOf(peer))
        invariant forall key :: key in todo ==> VersionOf(CopyOf(sender), key) == VersionOf(old(CopyOf(sender)), key)
        invariant forall key :: key in CopyOf(sender) <==>
          key in old(CopyOf(sender)) || (key in data && key !in todo && data[key].version > 0)
        invariant forall key :: key in CopyOf(sender) ==>
          CopyOf(sender)[key] ==
          if key in data && key !in todo && data[key].version > VersionOf(old(CopyOf(sender)), key) then data[key]
          else old(CopyOf(sender))[key]
        decreases |todo|
      {
        var key :| key in todo;
        if data[key].version > VersionOf(CopyOf(sender), key) {
          peerData := peerData[sender := CopyOf(sender)[key := data[key]]];
        }
        todo := todo - {key};
      }
    }
  }
}

/** All nodes together, over any run of writes, sends and deliveries. */
module GossipRuns {
  import opened GossipMerge

  datatype Payload = Payload(sender: NodeId, version: nat, data: Data)

  datatype System = System(ops: map<NodeId, seq<Op>>, net: set<Payload>, copies: map<(NodeId, NodeId), Data>)

  datatype Event = Set(id: NodeId, op: Op) | Send(id: NodeId) | Deliver(to: NodeId, payload: Payload)

  /** What `to` holds of `from`. */
  function Copy(s: System, to: NodeId, from: NodeId): Data {
    if (to, from) in s.copies then s.copies[(to, from)] else map[]
  }

  ghost predicate Initial(s: System) {
    s.net == {} && s.copies == map[] && forall id :: id in s.ops ==> s.ops[id] == []
  }

  /** A delivered payload stays in the network, so it may arrive again, late or never. */
  ghost predicate Next(s: System, e: Event, s': System) {
    match e
    case Set(id, op) => id in s.ops && s' == s.(ops := s.ops[id := s.ops[id] + [op]])
    case Send(id) =>
      id in s.ops && s' == s.(net := s.net + {Payload(id, |s.ops[id]|, Local(id, s.ops[id]))})
    case Deliver(to, p) =>
      && to in s.ops && p in s.net && s'.ops == s.ops && s'.net == s.net
      && Merged(Copy(s, to, p.sender), p.data, Copy(s', to, p.sender))
      && forall a, b :: (a, b) != (to, p.sender) ==> Copy(s', a, b) == Copy(s, a, b)
  }

  datatype Run = Run(states: seq<System>, events: seq<Event>) {
    ghost predicate Valid() {
      && |states| == |events| + 1
      && Initial(states[0])
      && (forall i: nat :: i < |events| ==> Step(i))
    }

    ghost predicate Step(i: nat)
      requires i < |events| && |states| == |events| + 1
    {
      Next(states[i], events[i], states[i + 1])
    }

    /** Event `i` brings `to` a payload of `from`. */
    ghost predicate Brings(i: nat, to: NodeId, from: NodeId)
      requires i < |events|
    {
      events[i].Deliver? && events[i].to == to && events[i].payload.sender == from
    }

    /** The newest version of `from` that has reached `to` in the first `n` events. */
    ghost function Seen(n: nat, to: NodeId, from: NodeId): nat
      requires n <= |events|
    {
      if n == 0 then 0
      else
        var before := Seen(n - 1, to, from);
        if Brings(n - 1, to, from) && events[n - 1].payload.version > before then events[n - 1].payload.version
        else before
    }
  }

  /** Every payload is a true snapshot of its sender. */
  ghost predicate Truthful(s: System) {
    forall p :: p in s.net ==>
      p.sender in s.ops && p.version <= |s.ops[p.sender]|
      && p.data == Snapshot(p.sender, s.ops[p.sender], p.version)
  }

  lemma TruthfulStep(s: System, e: Event, s': System)
    requires Truthful(s) && Next(s, e, s')
    ensures Truthful(s')
  {
    if e.Set? {
      forall p | p in s'.net && p.sender == e.id
        ensures p.data == Snapshot(p.sender, s'.ops[p.sender], p.version)
      {
        SnapshotStays(e.id, s.ops[e.id], e.op, p.version);
      }
    } else if e.Send? {
      assert s.ops[e.id][..|s.ops[e.id]|] == s.ops[e.id];
    }
  }

  lemma {:induction false} RunTruthful(r: Run, n: nat)
    requires r.Valid() && n <= |r.events|
    ensures Truthful(r.states[n]) && r.states[n].ops.Keys == r.states[0].ops.Keys
  {
    if n > 0 {
      RunTruthful(r, n - 1);
      assert r.Step(n - 1);
      TruthfulStep(r.states[n - 1], r.events[n - 1], r.states[n]);
    }
  }

  /**
   Convergence. Whatever was lost, repeated or overtaken, a node's copy of another
   is always exactly that node's data as of the newest version that has arrived.
   */
  lemma {:induction false} CopyIsNewestSnapshot(r: Run, n: nat, to: NodeId, from: NodeId)
    requires r.Valid() && n <= |r.events| && from in r.states[n].ops
    ensures r.Seen(n, to, from) <= |r.states[n].ops[from]|
    ensures Copy(r.states[n], to, from) == Snapshot(from, r.states[n].ops[from], r.Seen(n, to, from))
  {
    if n > 0 {
      var s, e, s', k := r.states[n - 1], r.events[n - 1], r.states[n], r.Seen(n - 1, to, from);
      assert r.Step(n - 1);
      RunTruthful(r, n - 1);
      CopyIsNewestSnapshot(r, n - 1, to, from);
      if e.Set? && e.id == from {
        SnapshotStays(from, s.ops[from], e.op, k);
      } else if r.Brings(n - 1, to, from) {
        MergeIsNewest(from, s.ops[from], k, e.payload.version, Copy(s', to, from));
      }
    }
  }

  lemma {:induction false} SeenAtLeast(r: Run, i: nat, n: nat, to: NodeId, from: NodeId)
    requires i < n <= |r.events| && r.Brings(i, to, from)
    ensures r.Seen(n, to, from) >= r.events[i].payload.version
  {
    if i < n - 1 {
      SeenAtLeast(r, i, n - 1, to, from);
    }
  }

  /** Once the newest payload has arrived, the copy is the sender's data, whatever stale ones follow. */
  lemma NewestPayloadWins(r: Run, i: nat, n: nat, to: NodeId, from: NodeId)
    requires r.Valid() && i < n <= |r.events| && r.Brings(i, to, from) && from in r.states[n].ops
    requires r.events[i].payload.version >= |r.states[n].ops[from]|
    ensures Copy(r.states[n], to, from) == Local(from, r.states[n].ops[from])
  {
    SeenAtLeast(r, i, n, to, from);
    CopyIsNewestSnapshot(r, n, to, from);
    assert r.states[n].ops[from][..|r.states[n].ops[from]|] == r.states[n].ops[from];
  }

  lemma {:induction false} SeenArrived(r: Run, n: nat, to: NodeId, from: NodeId)
    requires n <= |r.events| && r.Seen(n, to, from) > 0
    ensures exists i :: 0 <= i < n && r.Brings(i, to, from) && r.events[i].payload.version == r.Seen(n, to, from)
  {
    if !(r.Brings(n - 1, to, from) && r.events[n - 1].payload.version == r.Seen(n, to, from)) {
      SeenArrived(r, n - 1, to, from);
    }
  }

  lemma {:induction false} OpsGrow(r: Run, i: nat, n: nat, id: NodeId)
    requires r.Valid() && i <= n <= |r.events| && id in r.states[i].ops
    ensures id in r.states[n].ops && r.states[i].ops[id] <= r.states[n].ops[id]
    decreases n - i
  {
    if i < n {
      OpsGrow(r, i, n - 1, id);
      assert r.Step(n - 1);
    }
  }

  /** Each key of a copy holds the highest version that has arrived under it, and nothing that has not arrived. */
  lemma HighestVersionArrived(r: Run, n: nat, to: NodeId, from: NodeId, key: string)
    requires r.Valid() && n <= |r.events| && from in r.states[n].ops
    ensures forall i :: 0 <= i < n && r.Brings(i, to, from) && key in r.events[i].payload.data ==>
      key in Copy(r.states[n], to, from)
      && r.events[i].payload.data[key].version <= Copy(r.states[n], to, from)[key].version
    ensures key in Copy(r.states[n], to, from) ==>
      exists i :: 0 <= i < n && r.Brings(i, to, from)
        && key in r.events[i].payload.data && r.events[i].payload.data[key] == Copy(r.states[n], to, from)[key]
  {
    var ops := r.states[n].ops[from];
    CopyIsNewestSnapshot(r, n, to, from);
    var seen := r.Seen(n, to, from);
    forall i | 0 <= i < n && r.Brings(i, to, from)
      ensures r.events[i].payload.version <= seen
      ensures r.events[i].payload.data == Snapshot(from, ops, r.events[i].payload.version)
    {
      SeenAtLeast(r, i, n, to, from);
      PayloadStays(r, i, n, to, from);
    }
    forall i | 0 <= i < n && r.Brings(i, to, from) && key in r.events[i].payload.data
      ensures key in Snapshot(from, ops, seen)
      ensures r.events[i].payload.data[key].version <= Snapshot(from, ops, seen)[key].version
    {
      SnapshotGrows(from, ops, r.events[i].payload.version, seen);
    }
    if key in Copy(r.states[n], to, from) {
      SeenArrived(r, n, to, from);
    }
  }

  /** A payload delivered earlier is still a snapshot of what its sender has written since. */
  lemma PayloadStays(r: Run, i: nat, n: nat, to: NodeId, from: NodeId)
    requires r.Valid() && i < n <= |r.events| && r.Brings(i, to, from) && from in r.states[n].ops
    ensures var p := r.events[i].payload;
      p.version <= |r.states[n].ops[from]| && p.data == Snapshot(from, r.states[n].ops[from], p.version)
  {
    RunTruthful(r, i);
    assert r.Step(i);
    OpsGrow(r, i, n, from);
    var p := r.events[i].payload;
    assert r.states[n].ops[from][..p.version] == r.states[i].ops[from][..p.version];
  }
}
