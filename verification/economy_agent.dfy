/**
 An agent of either economy, and the ledger of a list of agents: the sums of
 their wealth and capability, and how those sums move when one agent's do.
 Money is real; rounding is not modelled.
 */
module EconomyAgent {
  import opened Wrappers

  datatype Status = Novice | Veteran | Tycoon

  class Agent {
    const id: nat
    const name: string
    const role: string

    var wealth: real
    var capability: real
    var bid: Option<real>
    var status: Status

    constructor (id: nat, name: string, role: string, bid: Option<real>, wealth: real)
      ensures this.id == id && this.name == name && this.role == role
      ensures this.wealth == wealth && capability == 0.0 && this.bid == bid && status == Novice
    {
      this.id, this.name, this.role := id, name, role;
      this.wealth, capability, this.bid, status := wealth, 0.0, bid, Novice;
    }

    method GainMoney(amount: real)
      modifies this`wealth
      ensures wealth == old(wealth) + amount
    {
      wealth := wealth + amount;
    }

    method LoseMoney(amount: real)
      modifies this`wealth
      ensures wealth == old(wealth) - amount
    {
      wealth := wealth - amount;
    }

    method GainCapability(amount: real)
      modifies this`capability
      ensures capability == old(capability) + amount
    {
      capability := capability + amount;
    }

    /** Enter the economy afresh. */
    method Initialize(initialWealth: real)
      modifies this
      ensures wealth == initialWealth && capability == 0.0 && status == Novice && bid == Some(0.0)
    {
      wealth, capability, status, bid := initialWealth, 0.0, Novice, Some(0.0);
    }

    predicate Bankrupt()
      reads this`wealth
    {
      wealth < 0.0
    }
  }

  // ---------------------------------------------------------------- the ledger

  ghost function Ids(agents: seq<Agent>): set<nat> {
    if |agents| == 0 then {} else Ids(agents[..|agents| - 1]) + {agents[|agents| - 1].id}
  }

  /** No two entries share an id. */
  ghost predicate DistinctIds(agents: seq<Agent>) {
    |agents| > 0 ==>
      DistinctIds(agents[..|agents| - 1]) && agents[|agents| - 1].id !in Ids(agents[..|agents| - 1])
  }

  lemma IdsOfAppend(agents: seq<Agent>, a: Agent)
    ensures Ids(agents + [a]) == Ids(agents) + {a.id}
    ensures DistinctIds(agents + [a]) <==> DistinctIds(agents) && a.id !in Ids(agents)
  {
    assert (agents + [a])[..|agents|] == agents;
  }

  lemma {:induction false} DistinctIdsCount(agents: seq<Agent>)
    requires DistinctIds(agents)
    ensures |Ids(agents)| == |agents|
  {
    if |agents| > 0 {
      DistinctIdsCount(agents[..|agents| - 1]);
    }
  }

  lemma {:induction false} IdHeld(agents: seq<Agent>, id: nat)
    ensures id in Ids(agents) <==> exists a :: a in agents && a.id == id
  {
    if agents != [] {
      var front, last := agents[..|agents| - 1], agents[|agents| - 1];
      assert agents == front + [last];
      IdHeld(front, id);
    }
  }

  ghost function Members(agents: seq<Agent>): set<Agent> {
    set a | a in agents
  }

  /** Nobody is listed twice. */
  ghost predicate DistinctAgents(agents: seq<Agent>) {
    |agents| > 0 ==> DistinctAgents(agents[..|agents| - 1]) && agents[|agents| - 1] !in agents[..|agents| - 1]
  }

  lemma {:induction false} DistinctApart(agents: seq<Agent>, i: nat, j: nat)
    requires DistinctAgents(agents) && i < j < |agents|
    ensures agents[i] != agents[j]
  {
    var front, last := agents[..|agents| - 1], agents[|agents| - 1];
    assert agents == front + [last];
    if j < |front| {
      DistinctApart(front, i, j);
    } else {
      assert front[i] in front;
    }
  }

  lemma MembersIn(agents: seq<Agent>, roster: seq<Agent>)
    ensures Members(agents) <= Members(roster) <==> forall a :: a in agents ==> a in roster
  {
    if Members(agents) <= Members(roster) {
      forall a | a in agents ensures a in roster {
        assert a in Members(agents);
      }
    }
  }

  ghost function Sum(xs: seq<real>): real {
    if |xs| == 0 then 0.0 else Sum(xs[..|xs| - 1]) + xs[|xs| - 1]
  }

  lemma {:induction false} SumUpdate(xs: seq<real>, i: nat, x: real)
    requires i < |xs|
    ensures Sum(xs[i := x]) == Sum(xs) - xs[i] + x
  {
    var n := |xs| - 1;
    if i < n {
      SumUpdate(xs[..n], i, x);
      assert xs[i := x][..n] == xs[..n][i := x];
    } else {
      assert xs[i := x][..n] == xs[..n];
    }
  }

  ghost function Wealths(agents: seq<Agent>): (ws: seq<real>)
    reads agents
    ensures |ws| == |agents| && forall i :: 0 <= i < |agents| ==> ws[i] == agents[i].wealth
  {
    seq(|agents|, i requires 0 <= i < |agents| reads agents => agents[i].wealth)
  }

  ghost function Capabilities(agents: seq<Agent>): (cs: seq<real>)
    reads agents
    ensures |cs| == |agents| && forall i :: 0 <= i < |agents| ==> cs[i] == agents[i].capability
  {
    seq(|agents|, i requires 0 <= i < |agents| reads agents => agents[i].capability)
  }

  ghost function Wealth(agents: seq<Agent>): real
    reads agents
  {
    if |agents| == 0 then 0.0 else Wealth(agents[..|agents| - 1]) + agents[|agents| - 1].wealth
  }

  ghost function Capability(agents: seq<Agent>): real
    reads agents
  {
    if |agents| == 0 then 0.0 else Capability(agents[..|agents| - 1]) + agents[|agents| - 1].capability
  }

  lemma {:induction false} TotalsAreSums(agents: seq<Agent>)
    ensures Wealth(agents) == Sum(Wealths(agents)) && Capability(agents) == Sum(Capabilities(agents))
  {
    if |agents| > 0 {
      var front := agents[..|agents| - 1];
      TotalsAreSums(front);
      assert Wealths(agents)[..|front|] == Wealths(front);
      assert Capabilities(agents)[..|front|] == Capabilities(front);
    }
  }

  /** `after` is `before` with the agents equal to `a` moved by `d`. */
  ghost predicate Shifted(agents: seq<Agent>, before: seq<real>, after: seq<real>, a: Agent, d: real) {
    && |before| == |agents| == |after|
    && (forall i :: 0 <= i < |agents| ==> after[i] == before[i] + if agents[i] == a then d else 0.0)
  }

  /** When one of several distinct agents moves, the sum moves as much. */
  lemma {:induction false} SumShifted(agents: seq<Agent>, before: seq<real>, after: seq<real>, a: Agent, d: real)
    requires DistinctAgents(agents) && Shifted(agents, before, after, a, d)
    ensures Sum(after) == Sum(before) + if a in agents then d else 0.0
  {
    if agents != [] {
      var front, last := agents[..|agents| - 1], agents[|agents| - 1];
      assert agents == front + [last];
      SumShifted(front, before[..|front|], after[..|front|], a, d);
    }
  }

  lemma {:induction false} DistinctIdsDistinct(agents: seq<Agent>)
    requires DistinctIds(agents)
    ensures DistinctAgents(agents)
  {
    if agents != [] {
      var front, last := agents[..|agents| - 1], agents[|agents| - 1];
      assert agents == front + [last];
      IdsOfAppend(front, last);
      DistinctIdsDistinct(front);
      IdHeld(front, last.id);
    }
  }

  lemma {:induction false} SameIdSame(agents: seq<Agent>, a: Agent, b: Agent)
    requires DistinctIds(agents) && a in agents && b in agents && a.id == b.id
    ensures a == b
  {
    var front, last := agents[..|agents| - 1], agents[|agents| - 1];
    assert agents == front + [last];
    IdsOfAppend(front, last);
    IdHeld(front, last.id);
    if a != last && b != last {
      SameIdSame(front, a, b);
    }
  }

  // ---------------------------------------------------------------- unique members

  /** The agents of a list, each once, in the order of first appearance by id. */
  method Unique(agents: seq<Agent>) returns (unique: seq<Agent>)
    ensures DistinctIds(unique) && Ids(unique) == Ids(agents)
    ensures Members(unique) <= Members(agents)
    ensures agents != [] <==> unique != []
  {
    var seen: set<nat> := {};
    unique := [];
    for i := 0 to |agents|
      invariant DistinctIds(unique) && seen == Ids(unique) == Ids(agents[..i])
      invariant forall a :: a in unique ==> a in agents
      invariant i > 0 <==> unique != []
    {
      assert agents[..i + 1][..i] == agents[..i];
      var a := agents[i];
      if a.id !in seen {
        seen := seen + {a.id};
        IdsOfAppend(unique, a);
        unique := unique + [a];
      }
    }
    assert agents[..|agents|] == agents;
  }

  /** `amount` paid out `k` times. */
  function Times(amount: real, k: nat): real {
    if k == 0 then 0.0 else Times(amount, k - 1) + amount
  }

  lemma {:induction false} TimesIsProduct(amount: real, k: nat)
    ensures Times(amount, k) == amount * k as real
  {
    if k > 0 {
      TimesIsProduct(amount, k - 1);
    }
  }

  /** Splitting an amount evenly and paying out every share pays out the amount. */
  lemma SharesAddUp(amount: real, k: nat)
    requires k > 0
    ensures Times(amount / k as real, k) == amount
  {
    TimesIsProduct(amount / k as real, k);
  }

  ghost function Occurrences(agents: seq<Agent>, a: Agent): nat {
    if |agents| == 0 then 0
    else Occurrences(agents[..|agents| - 1], a) + if agents[|agents| - 1] == a then 1 else 0
  }

  lemma NoOccurrence(agents: seq<Agent>, a: Agent)
    requires a !in agents
    ensures Occurrences(agents, a) == 0
  {
  }

  lemma {:induction false} OccursOnce(agents: seq<Agent>, a: Agent)
    requires DistinctIds(agents) && a in agents
    ensures Occurrences(agents, a) == 1
  {
    var front, last := agents[..|agents| - 1], agents[|agents| - 1];
    assert agents == front + [last];
    if last == a {
      IdHeld(front, a.id);
      NoOccurrence(front, a);
    } else {
      OccursOnce(front, a);
    }
  }

  /** Paying every listed agent once per listing moves the roster's sum by all the payments. */
  lemma {:induction false} SumPaid(roster: seq<Agent>, before: seq<real>, after: seq<real>, payees: seq<Agent>, amount: real)
    requires DistinctAgents(roster) && forall a :: a in payees ==> a in roster
    requires |before| == |roster| == |after|
    requires forall j :: 0 <= j < |roster| ==> after[j] == before[j] + Times(amount, Occurrences(payees, roster[j]))
    ensures Sum(after) == Sum(before) + Times(amount, |payees|)
    decreases |payees|
  {
    if payees == [] {
      assert after == before;
    } else {
      var front, last := payees[..|payees| - 1], payees[|payees| - 1];
      assert payees == front + [last];
      var mid := seq(|roster|, j requires 0 <= j < |roster| => before[j] + Times(amount, Occurrences(front, roster[j])));
      SumPaid(roster, before, mid, front, amount);
      SumShifted(roster, mid, after, last, amount);
    }
  }

  /** The same reward to each agent of a list, repeats included. */
  method RewardEach(payees: seq<Agent>, amount: real)
    modifies Members(payees)`wealth, Members(payees)`capability
    ensures forall a: Agent :: a in payees ==>
      && a.wealth == old(a.wealth) + Times(amount, Occurrences(payees, a))
      && a.capability == old(a.capability) + Times(amount, Occurrences(payees, a))
  {
    for i := 0 to |payees|
      invariant forall a: Agent :: a in payees ==>
        && a.wealth == old(a.wealth) + Times(amount, Occurrences(payees[..i], a))
        && a.capability == old(a.capability) + Times(amount, Occurrences(payees[..i], a))
    {
      payees[i].GainMoney(amount);
      payees[i].GainCapability(amount);
      assert payees[..i + 1][..i] == payees[..i];
    }
    assert payees[..|payees|] == payees;
  }

  /** The same rewards, seen from the whole roster. */
  method RewardEachWithin(payees: seq<Agent>, amount: real, ghost roster: seq<Agent>)
    requires DistinctAgents(roster) && forall a :: a in payees ==> a in roster
    modifies Members(payees)`wealth, Members(payees)`capability
    ensures forall a :: a in payees ==>
      && a.wealth == old(a.wealth) + Times(amount, Occurrences(payees, a))
      && a.capability == old(a.capability) + Times(amount, Occurrences(payees, a))
    ensures Wealth(roster) == old(Wealth(roster)) + Times(amount, |payees|)
    ensures Capability(roster) == old(Capability(roster)) + Times(amount, |payees|)
  {
    ghost var ws, cs := Wealths(roster), Capabilities(roster);
    TotalsAreSums(roster);
    RewardEach(payees, amount);
    forall j | 0 <= j < |roster|
      ensures roster[j].wealth == ws[j] + Times(amount, Occurrences(payees, roster[j]))
      ensures roster[j].capability == cs[j] + Times(amount, Occurrences(payees, roster[j]))
    {
      if roster[j] !in payees {
        NoOccurrence(payees, roster[j]);
      }
    }
    TotalsAreSums(roster);
    SumPaid(roster, ws, Wealths(roster), payees, amount);
    SumPaid(roster, cs, Capabilities(roster), payees, amount);
  }

  /** A reward to one agent of the roster: money and capability alike. */
  method RewardWithin(payee: Agent, amount: real, ghost roster: seq<Agent>)
    requires DistinctAgents(roster) && payee in roster
    modifies payee`wealth, payee`capability
    ensures payee.wealth == old(payee.wealth) + amount && payee.capability == old(payee.capability) + amount
    ensures Wealth(roster) == old(Wealth(roster)) + amount
    ensures Capability(roster) == old(Capability(roster)) + amount
  {
    ghost var ws, cs := Wealths(roster), Capabilities(roster);
    TotalsAreSums(roster);
    payee.GainMoney(amount);
    payee.GainCapability(amount);
    TotalsAreSums(roster);
    SumShifted(roster, ws, Wealths(roster), payee, amount);
    SumShifted(roster, cs, Capabilities(roster), payee, amount);
  }

  // ---------------------------------------------------------------- payments

  /** The winner pays its bid to the previous winner, or to nobody at the start of a chain. */
  method Pay(winner: Agent, payment: real, prev: Agent?)
    modifies winner`wealth, (if prev == null then {} else {prev})`wealth
    ensures forall x: Agent :: x == winner || x == prev ==>
      x.wealth == old(x.wealth) - (if x == winner then payment else 0.0) + (if x == prev then payment else 0.0)
  {
    winner.LoseMoney(payment);
    if prev != null {
      prev.GainMoney(payment);
    }
  }

  /** A payment conserves the sum, except that an opening bid leaves it. */
  lemma {:induction false} SumAfterPayment(
    roster: seq<Agent>, before: seq<real>, after: seq<real>, winner: Agent, payment: real, prev: Agent?)
    requires DistinctAgents(roster)
    requires |before| == |roster| == |after|
    requires forall i :: 0 <= i < |roster| ==>
      after[i] == before[i] - (if roster[i] == winner then payment else 0.0) + (if roster[i] == prev then payment else 0.0)
    ensures Sum(after) ==
            Sum(before) - (if winner in roster then payment else 0.0)
            + (if prev != null && prev in roster then payment else 0.0)
  {
    if |roster| > 0 {
      var n := |roster| - 1;
      assert roster == roster[..n] + [roster[n]];
      SumAfterPayment(roster[..n], before[..n], after[..n], winner, payment, prev);
    }
  }

  /** Pay, seen from the whole roster. */
  method PayWithin(winner: Agent, payment: real, prev: Agent?, ghost roster: seq<Agent>)
    requires DistinctAgents(roster) && winner in roster && (prev != null ==> prev in roster)
    modifies winner`wealth, (if prev == null then {} else {prev})`wealth
    ensures forall x: Agent :: x == winner || x == prev ==>
      x.wealth == old(x.wealth) - (if x == winner then payment else 0.0) + (if x == prev then payment else 0.0)
    ensures Wealth(roster) == old(Wealth(roster)) - (if prev == null then payment else 0.0)
    ensures Capability(roster) == old(Capability(roster))
  {
    ghost var ws, cs := Wealths(roster), Capabilities(roster);
    TotalsAreSums(roster);
    Pay(winner, payment, prev);
    TotalsAreSums(roster);
    SumAfterPayment(roster, ws, Wealths(roster), winner, payment, prev);
    assert Capabilities(roster) == cs;
  }
}
