/**
 What both economies ask of their population: lookups by name and role, the
 richest and the poorest, and the split into the living and the bankrupt.
 */
module EconomyPopulation {
  import opened Wrappers
  import opened EconomyAgent

  // ---------------------------------------------------------------- sublists

  /** Some of the agents of a list, in the same order. */
  ghost predicate Sublist(part: seq<Agent>, whole: seq<Agent>)
    decreases |whole|
  {
    if |part| == 0 then true
    else if |whole| == 0 then false
    else
      var front, last := whole[..|whole| - 1], whole[|whole| - 1];
      if part[|part| - 1] == last then Sublist(part[..|part| - 1], front) else Sublist(part, front)
  }

  /** Two agents of a sublist stand in the order they have in the whole list. */
  lemma {:induction false} SublistOrder(part: seq<Agent>, whole: seq<Agent>, i: nat, j: nat) returns (x: nat, y: nat)
    requires Sublist(part, whole) && i < j < |part|
    ensures x < y < |whole| && whole[x] == part[i] && whole[y] == part[j]
    decreases |whole|
  {
    var front, n := whole[..|whole| - 1], |part| - 1;
    if part[n] != whole[|front|] {
      x, y := SublistOrder(part, front, i, j);
    } else if j < n {
      x, y := SublistOrder(part[..n], front, i, j);
    } else {
      x := SublistPlace(part[..n], front, i);
      y := |front|;
    }
  }

  lemma {:induction false} SublistPlace(part: seq<Agent>, whole: seq<Agent>, i: nat) returns (x: nat)
    requires Sublist(part, whole) && i < |part|
    ensures x < |whole| && whole[x] == part[i]
    decreases |whole|
  {
    var front, n := whole[..|whole| - 1], |part| - 1;
    if part[n] != whole[|front|] {
      x := SublistPlace(part, front, i);
    } else if i < n {
      x := SublistPlace(part[..n], front, i);
    } else {
      x := |front|;
    }
  }

  // ---------------------------------------------------------------- roles

  function Roles(agents: seq<Agent>): set<string> {
    if |agents| == 0 then {} else Roles(agents[..|agents| - 1]) + {agents[|agents| - 1].role}
  }

  lemma RolesOfAppend(agents: seq<Agent>, a: Agent)
    ensures Roles(agents + [a]) == Roles(agents) + {a.role}
  {
    assert (agents + [a])[..|agents|] == agents;
  }

  lemma {:induction false} RolesAtMost(agents: seq<Agent>)
    ensures |Roles(agents)| <= |agents|
  {
    if |agents| > 0 {
      RolesAtMost(agents[..|agents| - 1]);
    }
  }

  lemma {:induction false} RolesOfPrefix(agents: seq<Agent>, more: seq<Agent>)
    requires agents <= more
    ensures Roles(agents) <= Roles(more)
  {
    if |agents| < |more| {
      RolesOfPrefix(agents, more[..|more| - 1]);
    } else {
      assert agents == more;
    }
  }

  lemma {:induction false} RoleHeld(agents: seq<Agent>, role: string)
    ensures role in Roles(agents) <==> exists a :: a in agents && a.role == role
  {
    if agents != [] {
      var front, last := agents[..|agents| - 1], agents[|agents| - 1];
      assert agents == front + [last];
      RoleHeld(front, role);
    }
  }

  /** The agents of a role, in order. */
  function WithRole(agents: seq<Agent>, role: string): (w: seq<Agent>)
    ensures forall a :: a in w ==> a in agents && a.role == role
    ensures w == [] <==> role !in Roles(agents)
  {
    if |agents| == 0 then []
    else
      var front, last := agents[..|agents| - 1], agents[|agents| - 1];
      assert agents == front + [last];
      RolesOfAppend(front, last);
      if last.role == role then WithRole(front, role) + [last] else WithRole(front, role)
  }

  // ---------------------------------------------------------------- lookups

  /** The last agent registered under a name. */
  function Named(agents: seq<Agent>, name: string): (a: Agent?)
    ensures a != null ==> a in agents && a.name == name
    ensures a == null ==> forall x :: x in agents ==> x.name != name
  {
    if |agents| == 0 then null
    else
      var front, last := agents[..|agents| - 1], agents[|agents| - 1];
      assert agents == front + [last];
      if last.name == name then last else Named(front, name)
  }

  lemma {:induction false} NamedIsLast(agents: seq<Agent>, name: string) returns (i: nat)
    requires Named(agents, name) != null
    ensures i < |agents| && agents[i] == Named(agents, name) && forall j :: i < j < |agents| ==> agents[j].name != name
  {
    i := |agents| - 1;
    if agents[i].name != name {
      i := NamedIsLast(agents[..|agents| - 1], name);
    }
  }

  /** The agent goes by this name, and nobody after it does. */
  ghost predicate LastOf(agents: seq<Agent>, name: string, a: Agent) {
    exists i :: 0 <= i < |agents| && agents[i] == a && a.name == name && forall j :: i < j < |agents| ==> agents[j].name != name
  }

  /** Somebody goes by this name. */
  ghost predicate GoesBy(agents: seq<Agent>, name: string) {
    exists a :: a in agents && a.name == name
  }

  lemma NamedIs(agents: seq<Agent>, name: string)
    ensures Named(agents, name) != null <==> GoesBy(agents, name)
    ensures GoesBy(agents, name) ==> LastOf(agents, name, Named(agents, name))
    ensures forall a :: LastOf(agents, name, a) ==> a == Named(agents, name)
  {
    if Named(agents, name) != null {
      var i := NamedIsLast(agents, name);
      forall a | LastOf(agents, name, a) ensures a == Named(agents, name) {
        var j :| 0 <= j < |agents| && agents[j] == a && a.name == name && forall k :: j < k < |agents| ==> agents[k].name != name;
        assert i == j;
      }
    }
  }

  /**
   The list has, for each of these mentions of a name, the last agent that goes
   by it; `at` are the mentions, in order.
   */
  ghost predicate Mentions(agents: seq<Agent>, names: seq<string>, listed: seq<Agent>, at: seq<nat>) {
    && |at| == |listed|
    && (forall i :: 0 <= i < |at| ==> at[i] < |names| && LastOf(agents, names[at[i]], listed[i]))
    && (forall i, j :: 0 <= i < j < |at| ==> at[i] < at[j])
  }

  lemma MentionsNext(agents: seq<Agent>, names: seq<string>, listed: seq<Agent>, at: seq<nat>, name: string, a: Agent)
    requires Mentions(agents, names, listed, at) && LastOf(agents, name, a)
    ensures Mentions(agents, names + [name], listed + [a], at + [|names|])
  {
  }

  lemma MentionsSkip(agents: seq<Agent>, names: seq<string>, listed: seq<Agent>, at: seq<nat>, name: string)
    requires Mentions(agents, names, listed, at)
    ensures Mentions(agents, names + [name], listed, at)
  {
  }

  /** The first of the wealthiest agents. */
  ghost predicate IsRichest(agents: seq<Agent>, a: Agent)
    reads agents, a
  {
    exists i :: 0 <= i < |agents| && agents[i] == a
      && (forall j :: 0 <= j < |agents| ==> agents[j].wealth <= a.wealth)
      && (forall j :: 0 <= j < i ==> agents[j].wealth < a.wealth)
  }

  /** The first of the poorest agents. */
  ghost predicate IsPoorest(agents: seq<Agent>, a: Agent)
    reads agents, a
  {
    exists i :: 0 <= i < |agents| && agents[i] == a
      && (forall j :: 0 <= j < |agents| ==> agents[j].wealth >= a.wealth)
      && (forall j :: 0 <= j < i ==> agents[j].wealth > a.wealth)
  }

  method Richest(agents: seq<Agent>) returns (a: Agent?)
    ensures a == null <==> agents == []
    ensures a != null ==> a in agents && IsRichest(agents, a)
  {
    if agents == [] { return null; }
    var best := 0;
    for k := 1 to |agents|
      invariant 0 <= best < k
      invariant forall j :: 0 <= j < k ==> agents[j].wealth <= agents[best].wealth
      invariant forall j :: 0 <= j < best ==> agents[j].wealth < agents[best].wealth
    {
      if agents[k].wealth > agents[best].wealth {
        best := k;
      }
    }
    a := agents[best];
  }

  method Poorest(agents: seq<Agent>) returns (a: Agent?)
    ensures a == null <==> agents == []
    ensures a != null ==> a in agents && IsPoorest(agents, a)
  {
    if agents == [] { return null; }
    var best := 0;
    for k := 1 to |agents|
      invariant 0 <= best < k
      invariant forall j :: 0 <= j < k ==> agents[j].wealth >= agents[best].wealth
      invariant forall j :: 0 <= j < best ==> agents[j].wealth > agents[best].wealth
    {
      if agents[k].wealth < agents[best].wealth {
        best := k;
      }
    }
    a := agents[best];
  }

  // ---------------------------------------------------------------- bankruptcy

  /** The agents that are not bankrupt, in order. */
  function Living(agents: seq<Agent>): (l: seq<Agent>)
    reads agents
    ensures forall a :: a in l ==> a in agents && !a.Bankrupt()
    ensures forall a :: a in agents && !a.Bankrupt() ==> a in l
    ensures |l| <= |agents|
  {
    if |agents| == 0 then []
    else
      var front, last := agents[..|agents| - 1], agents[|agents| - 1];
      assert agents == front + [last];
      if last.Bankrupt() then Living(front) else Living(front) + [last]
  }

  lemma {:induction false} LivingIds(agents: seq<Agent>)
    ensures Ids(Living(agents)) <= Ids(agents)
    ensures DistinctIds(agents) ==> DistinctIds(Living(agents))
  {
    if agents != [] {
      var front, last := agents[..|agents| - 1], agents[|agents| - 1];
      assert agents == front + [last];
      LivingIds(front);
      IdsOfAppend(front, last);
      IdsOfAppend(Living(front), last);
    }
  }

  /** The bankrupt agents, in order. */
  function Dead(agents: seq<Agent>): (d: seq<Agent>)
    reads agents
    ensures forall a :: a in d ==> a in agents && a.Bankrupt()
    ensures forall a :: a in agents && a.Bankrupt() ==> a in d
    ensures |d| + |Living(agents)| == |agents|
  {
    if |agents| == 0 then []
    else
      var front, last := agents[..|agents| - 1], agents[|agents| - 1];
      assert agents == front + [last];
      if last.Bankrupt() then Dead(front) + [last] else Dead(front)
  }

  lemma {:induction false} NoneDead(agents: seq<Agent>)
    requires Dead(agents) == []
    ensures Living(agents) == agents
  {
    if agents != [] {
      var front, last := agents[..|agents| - 1], agents[|agents| - 1];
      assert agents == front + [last];
      NoneDead(front);
    }
  }

  /** Both keep the order, and nobody comes to be listed twice. */
  lemma {:induction false} SplitInOrder(agents: seq<Agent>)
    ensures Sublist(Living(agents), agents) && Sublist(Dead(agents), agents)
    ensures DistinctAgents(agents) ==> DistinctAgents(Living(agents)) && DistinctAgents(Dead(agents))
  {
    if |agents| > 0 {
      SplitInOrder(agents[..|agents| - 1]);
    }
  }

  method SplitBankrupts(agents: seq<Agent>) returns (kept: seq<Agent>, removed: seq<Agent>)
    ensures kept == Living(agents) && removed == Dead(agents)
  {
    kept, removed := [], [];
    for i := 0 to |agents|
      invariant kept == Living(agents[..i]) && removed == Dead(agents[..i])
    {
      assert agents[..i + 1][..i] == agents[..i];
      if agents[i].Bankrupt() {
        removed := removed + [agents[i]];
      } else {
        kept := kept + [agents[i]];
      }
    }
    assert agents[..|agents|] == agents;
  }

  /** Removing the bankrupts frees at least as many places as roles go missing. */
  lemma DeadCoverMissing(agents: seq<Agent>, wanted: set<string>)
    requires wanted <= Roles(agents)
    ensures wanted - Roles(Living(agents)) <= Roles(Dead(agents))
    ensures |wanted - Roles(Living(agents))| <= |Dead(agents)|
  {
    forall role | role in wanted && role !in Roles(Living(agents)) ensures role in Roles(Dead(agents)) {
      RoleHeld(agents, role);
      var a :| a in agents && a.role == role;
      RoleHeld(Living(agents), role);
      RoleHeld(Dead(agents), role);
    }
    RolesAtMost(Dead(agents));
    SubsetIsSmaller(wanted - Roles(Living(agents)), Roles(Dead(agents)));
  }
}
