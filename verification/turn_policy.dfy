/** Who may speak in a session: the turn policies, and the fairness of round robin. */
module TurnPolicy {
  datatype Policy = RoundRobin | HumanModerator | Priority | LlmSelected | Other

  datatype Role = System | HumanGate | User | Agent

  datatype Verdict = Exempt | UserFree | NoAgents | YourTurn | NotYourTurn(expected: string) | Allowed

  /** The participants other than the user, in order. */
  function TurnOrder(participants: seq<string>): (order: seq<string>)
    ensures forall a :: a in order <==> a in participants && a != "user"
  {
    if |participants| == 0 then []
    else
      var front, last := participants[..|participants| - 1], participants[|participants| - 1];
      assert participants == front + [last];
      if last != "user" then TurnOrder(front) + [last] else TurnOrder(front)
  }

  /** The order has every participant but the user, for each time it is listed, in that order; `at` are the places. */
  ghost predicate Places(participants: seq<string>, order: seq<string>, at: seq<nat>) {
    && |at| == |order| && (forall i, j :: 0 <= i < j < |at| ==> at[i] < at[j])
    && (forall i :: 0 <= i < |at| ==> at[i] < |participants| && order[i] == participants[at[i]])
    && (forall k: nat :: k < |participants| ==> (k in at <==> participants[k] != "user"))
  }

  lemma PlacesNext(participants: seq<string>, order: seq<string>, at: seq<nat>, p: string)
    requires Places(participants, order, at)
    ensures p != "user" ==> Places(participants + [p], order + [p], at + [|participants|])
    ensures p == "user" ==> Places(participants + [p], order, at)
  {
    if p == "user" {
      assert |participants| !in at;
    } else {
      var at' := at + [|participants|];
      assert at'[|at|] == |participants|;
      forall k: nat | k < |participants| ensures k in at' <==> k in at {
      }
    }
  }

  lemma {:induction false} TurnOrderIs(participants: seq<string>) returns (at: seq<nat>)
    ensures Places(participants, TurnOrder(participants), at)
  {
    at := [];
    if |participants| > 0 {
      var front, last := participants[..|participants| - 1], participants[|participants| - 1];
      assert participants == front + [last];
      at := TurnOrderIs(front);
      PlacesNext(front, TurnOrder(front), at, last);
      at := if last != "user" then at + [|front|] else at;
    }
  }

  // ---------------------------------------------------------------- fairness

  ghost predicate Distinct(order: seq<string>) {
    forall i, j :: 0 <= i < j < |order| ==> order[i] != order[j]
  }

  /** The turns taken so far went round the order. */
  ghost predicate GoesRound(spoken: seq<string>, order: seq<string>) {
    |order| > 0 && forall k :: 0 <= k < |spoken| ==> spoken[k] == order[k % |order|]
  }

  ghost function TurnsOf(spoken: seq<string>, agent: string): nat {
    if |spoken| == 0 then 0
    else TurnsOf(spoken[..|spoken| - 1], agent) + if spoken[|spoken| - 1] == agent then 1 else 0
  }

  lemma DivModNext(k: nat, n: nat)
    requires n > 0
    ensures (k + 1) % n == if k % n + 1 < n then k % n + 1 else 0
    ensures (k + 1) / n == k / n + if k % n + 1 < n then 0 else 1
  {
    var q, r := k / n, k % n;
    assert k == q * n + r;
    if r + 1 < n {
      DivModUnique(k + 1, n, q, r + 1);
    } else {
      assert k + 1 == (q + 1) * n;
      DivModUnique(k + 1, n, q + 1, 0);
    }
  }

  lemma AtLeastOnce(a: nat, b: nat, n: nat)
    requires a < b
    ensures b * n >= a * n + n
  {
    assert b * n == a * n + (b - a) * n;
    assert (b - a) * n == n + (b - a - 1) * n;
  }

  lemma DivModUnique(k: nat, n: nat, q: nat, r: nat)
    requires n > 0 && r < n && k == q * n + r
    ensures k / n == q && k % n == r
  {
    var q' := k / n;
    assert k == q' * n + k % n;
    if q' < q {
      AtLeastOnce(q', q, n);
    } else if q < q' {
      AtLeastOnce(q, q', n);
    }
  }

  /** After `m` turns the agent at place `p` has had one for every full round, and one more if its place came up since. */
  lemma {:induction false} TurnsCounted(spoken: seq<string>, order: seq<string>, p: nat)
    requires GoesRound(spoken, order) && Distinct(order) && p < |order|
    ensures TurnsOf(spoken, order[p]) == |spoken| / |order| + if p < |spoken| % |order| then 1 else 0
  {
    if |spoken| > 0 {
      var m := |spoken| - 1;
      TurnsCounted(spoken[..m], order, p);
      DivModNext(m, |order|);
      assert spoken[m] == order[p] <==> m % |order| == p;
    }
  }

  /** In every prefix any two agents' turns differ by at most one. */
  lemma RoundRobinIsFair(spoken: seq<string>, order: seq<string>, m: nat, a: string, b: string)
    requires GoesRound(spoken, order) && Distinct(order) && m <= |spoken| && a in order && b in order
    ensures -1 <= TurnsOf(spoken[..m], a) - TurnsOf(spoken[..m], b) <= 1
  {
    var i :| 0 <= i < |order| && order[i] == a;
    var j :| 0 <= j < |order| && order[j] == b;
    TurnsCounted(spoken[..m], order, i);
    TurnsCounted(spoken[..m], order, j);
  }

  // ---------------------------------------------------------------- the session

  class Session {
    const participants: seq<string>
    const policy: Policy

    var turnIndex: nat
    var currentTurn: nat

    ghost var spoken: seq<string>   // whose round-robin turns were accepted

    constructor (participants: seq<string>, policy: Policy)
      ensures this.participants == participants && this.policy == policy
      ensures Valid() && spoken == []
    {
      this.participants, this.policy := participants, policy;
      turnIndex, currentTurn, spoken := 0, 0, [];
    }

    ghost predicate Valid()
      reads this
    {
      turnIndex == |spoken| && (spoken != [] ==> GoesRound(spoken, TurnOrder(participants)))
    }

    /** Only an agent's own turn moves the pointer; everything else leaves the round as it is. */
    method CanSpeak(sender: string, role: Role) returns (allowed: bool, verdict: Verdict)
      requires Valid()
      modifies this
      ensures Valid()
      ensures spoken == if verdict.YourTurn? then old(spoken) + [sender] else old(spoken)
      ensures allowed <==> !verdict.NotYourTurn?
      ensures verdict.Exempt? <==> role.System? || role.HumanGate? || sender == "system"
      ensures verdict.UserFree? <==> role.User? && sender != "system"
      ensures verdict.NoAgents? <==> role.Agent? && sender != "system" && TurnOrder(participants) == []
      ensures role.Agent? && sender != "system" && policy.RoundRobin? && TurnOrder(participants) != [] ==>
        var expected := TurnOrder(participants)[old(turnIndex) % |TurnOrder(participants)|];
        verdict == if sender == expected then YourTurn else NotYourTurn(expected)
      ensures !policy.RoundRobin? ==> !verdict.YourTurn? && !verdict.NotYourTurn?
      ensures currentTurn == old(currentTurn) +
        if verdict.YourTurn? || (verdict.Allowed? && (policy.Priority? || policy.LlmSelected?)) then 1 else 0
    {
      var order := TurnOrder(participants);
      if role.System? || role.HumanGate? || sender == "system" {
        return true, Exempt;
      }
      if role.User? {
        return true, UserFree;
      }
      if order == [] {
        return true, NoAgents;
      }
      match policy
      case RoundRobin =>
        var expected := order[turnIndex % |order|];
        if sender != expected {
          return false, NotYourTurn(expected);
        }
        turnIndex, currentTurn, spoken := turnIndex + 1, currentTurn + 1, spoken + [sender];
        return true, YourTurn;
      case HumanModerator => return true, Allowed;
      case Priority =>
        currentTurn := currentTurn + 1;
        return true, Allowed;
      case LlmSelected =>
        currentTurn := currentTurn + 1;
        return true, Allowed;
      case Other => return true, Allowed;
    }

    /** Whatever calls are made, the accepted turns go round the order. */
    method Converse(calls: seq<(string, Role)>)
      requires Valid()
      modifies this
      ensures Valid() && old(spoken) <= spoken
    {
      for i := 0 to |calls|
        invariant Valid() && old(spoken) <= spoken
      {
        var allowed, verdict := CanSpeak(calls[i].0, calls[i].1);
      }
    }
  }
}
