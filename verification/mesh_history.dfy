/**
 What the calls on a mesh economy do, on values: from one moment to the next,
 and over any sequence of calls.
 An agent's name is its tether id; several agents may share one.
 */
module MeshHistory {
  import opened Wrappers
  import opened EconomyAgent
  import opened EconomyBidding
  import opened EconomyPopulation

  datatype Config = Config(
    scheme: Scheme,
    rules: Rules,
    initialWealth: real,
    maxAgents: int,
    good: real,
    bad: real
  ) {
    predicate ValidEvolution() {
      0.0 <= good <= 1.0 && 0.0 <= bad <= 1.0 && 0.0 <= good + bad <= 1.0
    }
  }

  datatype Child = Child(name: string, role: string)

  predicate IsChild(a: Agent, child: Child) {
    a.name == child.name && a.role == child.role
  }

  /** One bankrupt's chance of a replacement: the draw, and what the factory gives. */
  datatype Chance = Chance(draw: real, child: Option<Child>)

  datatype Event =
    | Register(name: string, role: string)
    | Unregister(name: string)
    | Auction(candidates: seq<string>, choice: nat)
    | ResetChain
    | Reward(name: string, amount: real)
    | CheckBankruptcies
    | Spawn(names: seq<string>, chances: seq<Chance>)

  // ---------------------------------------------------------------- lookups

  /** The first agent registered under a name. */
  function FirstNamed(agents: seq<Agent>, name: string): (a: Agent?)
    ensures a != null ==> a in agents && a.name == name
    ensures a == null <==> forall x :: x in agents ==> x.name != name
  {
    if |agents| == 0 then null
    else if agents[0].name == name then agents[0]
    else
      assert agents == [agents[0]] + agents[1..];
      FirstNamed(agents[1..], name)
  }

  /** The bidders: for each candidate, the last agent under its name; a repeated candidate bids twice. */
  function Bidders(agents: seq<Agent>, candidates: seq<string>): (bidders: seq<Agent>)
    ensures forall a :: a in bidders ==> a in agents && a.name in candidates
  {
    if |candidates| == 0 then []
    else
      var front, last := candidates[..|candidates| - 1], candidates[|candidates| - 1];
      assert candidates == front + [last];
      var a := Named(agents, last);
      if a == null then Bidders(agents, front) else Bidders(agents, front) + [a]
  }

  /**
   Every candidate known in the population has the last agent of its name among
   the bidders, once for each mention, in the order of the candidates.
   */
  ghost predicate Heard(agents: seq<Agent>, candidates: seq<string>, bidders: seq<Agent>, at: seq<nat>) {
    && Mentions(agents, candidates, bidders, at)
    && forall k: nat :: k < |candidates| ==> (k in at <==> GoesBy(agents, candidates[k]))
  }

  lemma {:induction false} BiddersAreHeard(agents: seq<Agent>, candidates: seq<string>) returns (at: seq<nat>)
    ensures Heard(agents, candidates, Bidders(agents, candidates), at)
  {
    at := [];
    if |candidates| > 0 {
      var front, last := candidates[..|candidates| - 1], candidates[|candidates| - 1];
      assert candidates == front + [last];
      at := BiddersAreHeard(agents, front);
      NamedIs(agents, last);
      if GoesBy(agents, last) {
        MentionsNext(agents, front, Bidders(agents, front), at, last, Named(agents, last));
        at := at + [|front|];
      } else {
        MentionsSkip(agents, front, Bidders(agents, front), at, last);
      }
    }
  }

  lemma BiddersHaveAll(agents: seq<Agent>, candidates: seq<string>)
    ensures forall k, a :: 0 <= k < |candidates| && LastOf(agents, candidates[k], a) ==> a in Bidders(agents, candidates)
  {
    var at := BiddersAreHeard(agents, candidates);
    forall k: nat, a | k < |candidates| && LastOf(agents, candidates[k], a) ensures a in Bidders(agents, candidates) {
      NamedIs(agents, candidates[k]);
      assert GoesBy(agents, candidates[k]);
      var i :| 0 <= i < |at| && at[i] == k;
    }
  }

  /** `agents` without `a`. */
  function Without(agents: seq<Agent>, a: Agent): (rest: seq<Agent>)
    ensures forall x :: x in rest ==> x in agents && x != a
  {
    if |agents| == 0 then []
    else
      var front, last := agents[..|agents| - 1], agents[|agents| - 1];
      assert agents == front + [last];
      if last == a then Without(front, a) else Without(front, a) + [last]
  }

  /** `agents` without the first of that name. */
  function Unregistered(agents: seq<Agent>, name: string): (rest: seq<Agent>)
    ensures forall x :: x in rest ==> x in agents
  {
    var a := FirstNamed(agents, name);
    if a == null then agents else Without(agents, a)
  }

  lemma {:induction false} WithoutIs(agents: seq<Agent>, a: Agent)
    ensures Sublist(Without(agents, a), agents)
    ensures forall x :: Occurrences(Without(agents, a), x) == if x == a then 0 else Occurrences(agents, x)
  {
    if |agents| > 0 {
      var front, last := agents[..|agents| - 1], agents[|agents| - 1];
      var rest := Without(front, a);
      WithoutIs(front, a);
      assert (rest + [last])[..|rest|] == rest;
      assert |rest| > 0 ==> rest[|rest| - 1] in rest;
    }
  }

  lemma {:induction false} FirstNamedIsFirst(agents: seq<Agent>, name: string) returns (i: nat)
    requires FirstNamed(agents, name) != null
    ensures i < |agents| && agents[i] == FirstNamed(agents, name) && agents[i].name == name
    ensures forall j :: 0 <= j < i ==> agents[j].name != name
  {
    i := 0;
    if agents[0].name != name {
      i := FirstNamedIsFirst(agents[1..], name);
      i := i + 1;
    }
  }

  /** Exactly the first agent of that name leaves; everyone else stays, in order. */
  lemma UnregisteredIs(agents: seq<Agent>, name: string) returns (i: nat)
    ensures i <= |agents| && forall j :: 0 <= j < i ==> agents[j].name != name
    ensures var rest := Unregistered(agents, name);
      if i == |agents| then rest == agents
      else
        && agents[i].name == name && Sublist(rest, agents)
        && forall x :: Occurrences(rest, x) == if x == agents[i] then 0 else Occurrences(agents, x)
  {
    i := |agents|;
    if FirstNamed(agents, name) != null {
      i := FirstNamedIsFirst(agents, name);
      WithoutIs(agents, agents[i]);
    }
  }

  // ---------------------------------------------------------------- births

  function ChanceAt(chances: seq<Chance>, i: nat): Chance {
    if i < |chances| then chances[i] else Chance(1.0, None)
  }

  /** Whether a chance leads to a birth when there are `size` agents. */
  predicate Due(config: Config, recent: map<string, Agent>, size: nat, name: string, chance: Chance) {
    && chance.child.Some? && (config.maxAgents <= 0 || size < config.maxAgents)
    && if chance.draw < config.good then size > 0
       else chance.draw < config.good + config.bad && name in recent
  }

  /** Who is born of the first `n` chances, starting with `size` agents. */
  ghost function Newborns(
    config: Config, recent: map<string, Agent>, size: nat, names: seq<string>, chances: seq<Chance>, n: nat): seq<Child>
    requires n <= |names|
  {
    if n == 0 then []
    else
      var born, chance := Newborns(config, recent, size, names, chances, n - 1), ChanceAt(chances, n - 1);
      if Due(config, recent, size + |born|, names[n - 1], chance) then born + [chance.child.value] else born
  }

  /**
   One more is born of the next chance exactly if the factory gives a child, there
   is room, and the draw is below the first chance with somebody to be its parent,
   or below the sum of the chances with the bankrupt remembered.
   */
  lemma NewbornsStep(
    config: Config, recent: map<string, Agent>, size: nat, names: seq<string>, chances: seq<Chance>, i: nat)
    requires i < |names| && i < |chances|
    ensures var was, now := Newborns(config, recent, size, names, chances, i), Newborns(config, recent, size, names, chances, i + 1);
      var draw := chances[i].draw;
      if chances[i].child.None? || 0 < config.maxAgents <= size + |was| then now == was
      else if draw < config.good && size + |was| > 0 then now == was + [chances[i].child.value]
      else if config.good <= draw < config.good + config.bad && names[i] in recent then now == was + [chances[i].child.value]
      else now == was
  {
  }

  /** With one more, if there is one. */
  function With(agents: seq<Agent>, a: Agent?): seq<Agent> {
    if a == null then agents else agents + [a]
  }

  ghost predicate AreChildren(agents: seq<Agent>, born: seq<Child>) {
    |agents| == |born| && forall k :: 0 <= k < |born| ==> IsChild(agents[k], born[k])
  }

  lemma NewbornsNext(
    config: Config, recent: map<string, Agent>, size: nat, names: seq<string>, chances: seq<Chance>, i: nat,
    agents: seq<Agent>, newborn: Agent?)
    requires i < |names| && AreChildren(agents, Newborns(config, recent, size, names, chances, i))
    requires newborn != null <==> Due(config, recent, size + |agents|, names[i], ChanceAt(chances, i))
    requires newborn != null ==> IsChild(newborn, ChanceAt(chances, i).child.value)
    ensures AreChildren(With(agents, newborn), Newborns(config, recent, size, names, chances, i + 1))
  {
  }

  // ---------------------------------------------------------------- one call

  /** An economy at one moment: what everyone ever admitted holds, by place of admission. */
  datatype Moment = Moment(
    population: seq<Agent>,
    admitted: seq<Agent>,
    wealth: seq<real>,
    capability: seq<real>,
    prev: Agent?,
    recent: map<string, Agent>,
    market: seq<MarketEvent>
  ) {
    ghost predicate Shaped() {
      |wealth| == |capability| == |admitted|
    }

    /** Whether an agent is in debt. */
    ghost predicate Broke(a: Agent)
      requires Shaped()
    {
      exists i :: 0 <= i < |admitted| && admitted[i] == a && wealth[i] < 0.0
    }
  }

  /** What a call did. */
  datatype Result =
    | Nothing
    | Arrived(agents: seq<Agent>)
    | Paid(winner: Agent, payment: real, shown: seq<Bidder>)
    | ChainReset
    | Gained(amount: real)

  /** An agent enters, with the initial wealth and nothing else. */
  ghost function Join(config: Config, m: Moment, a: Agent, bid: Option<real>): Moment {
    m.(population := m.population + [a], admitted := m.admitted + [a],
       wealth := m.wealth + [config.initialWealth], capability := m.capability + [0.0],
       market := m.market + [Joined(a.id, bid)])
  }

  /** These agents enter, one after another. */
  ghost function Enter(config: Config, m: Moment, agents: seq<Agent>, bid: Option<real>): Moment {
    if |agents| == 0 then m
    else Join(config, Enter(config, m, agents[..|agents| - 1], bid), agents[|agents| - 1], bid)
  }

  lemma {:induction false} EnterKeeps(config: Config, m: Moment, agents: seq<Agent>, bid: Option<real>)
    ensures var m' := Enter(config, m, agents, bid);
            && m'.population == m.population + agents && m'.admitted == m.admitted + agents
            && m'.prev == m.prev && m'.recent == m.recent && m.wealth <= m'.wealth && m.market <= m'.market
            && (m.Shaped() ==> m'.Shaped())
  {
    if |agents| > 0 {
      EnterKeeps(config, m, agents[..|agents| - 1], bid);
    }
  }

  lemma EnterSize(config: Config, m: Moment, agents: seq<Agent>, bid: Option<real>)
    ensures var m' := Enter(config, m, agents, bid);
            |m'.population| == |m.population| + |agents| && m'.recent == m.recent
  {
    EnterKeeps(config, m, agents, bid);
  }

  /** They hold the initial wealth and no merit, and the book has them as novices with that bid. */
  lemma {:induction false} EnterBrings(
    config: Config, m: Moment, agents: seq<Agent>, bid: Option<real>, k: nat)
    requires m.Shaped() && Trail(config.scheme, config.rules, Enter(config, m, agents, bid).market) && k < |agents|
    ensures var m' := Enter(config, m, agents, bid);
            && |m'.wealth| == |m'.capability| == |m'.admitted| == |m.admitted| + |agents|
            && m'.wealth[|m.admitted| + k] == config.initialWealth && m'.capability[|m.admitted| + k] == 0.0
            && var book := BookAfter(config.scheme, config.rules, m'.market);
               agents[k].id in book && book[agents[k].id] == Tag(bid, Novice)
  {
    var front, last := agents[..|agents| - 1], agents[|agents| - 1];
    var was, m' := Enter(config, m, front, bid), Enter(config, m, agents, bid);
    assert m'.market[..|m'.market| - 1] == was.market;
    EnterKeeps(config, m, front, bid);
    if k < |front| {
      EnterBrings(config, m, front, bid, k);
    }
  }

  lemma EnterNext(config: Config, m: Moment, agents: seq<Agent>, a: Agent, bid: Option<real>)
    ensures Enter(config, m, agents + [a], bid) == Join(config, Enter(config, m, agents, bid), a, bid)
  {
    assert (agents + [a])[..|agents|] == agents;
  }

  /** `payer` pays `payee`, or nobody. */
  ghost predicate Moved(m: Moment, m': Moment, payer: Agent, payee: Agent?, payment: real)
    requires m.Shaped()
  {
    |m'.wealth| == |m.wealth| && forall i :: 0 <= i < |m.wealth| ==>
      m'.wealth[i] == m.wealth[i] - (if m.admitted[i] == payer then payment else 0.0)
                      + (if m.admitted[i] == payee then payment else 0.0)
  }

  /** The winner of an auction among these bidders, with a highest bid, pays the previous winner. */
  ghost predicate Auctions(config: Config, m: Moment, bidders: seq<Agent>, r: Result, m': Moment)
    requires m.Shaped()
  {
    && r.Paid? && r.winner in bidders && Moved(m, m', r.winner, m.prev, r.payment)
    && Shows(m, bidders, r.shown)
    && m' == m.(wealth := m'.wealth, prev := r.winner,
                market := m.market + [Held(IdSeq(bidders), r.shown, r.winner.id)])
    && Costs(config, m'.market, r.winner.id, r.payment)
  }

  /** What the bidders show of their wealth is what they have. */
  ghost predicate Shows(m: Moment, bidders: seq<Agent>, shown: seq<Bidder>)
    requires m.Shaped()
  {
    |shown| == |bidders| && forall i, j :: 0 <= i < |bidders| && 0 <= j < |m.admitted| && m.admitted[j] == bidders[i] ==>
      shown[i].wealth == m.wealth[j]
  }

  /** The price is the winner's bid. */
  ghost predicate Costs(config: Config, market: seq<MarketEvent>, winner: nat, payment: real) {
    var book := BookAfter(config.scheme, config.rules, market);
    winner in book && book[winner].bid == Some(payment)
  }

  ghost predicate Rewards(m: Moment, a: Agent, amount: real, m': Moment)
    requires m.Shaped()
  {
    && |m'.wealth| == |m'.capability| == |m.admitted|
    && (forall i :: 0 <= i < |m.admitted| ==>
          && m'.wealth[i] == m.wealth[i] + (if m.admitted[i] == a then amount else 0.0)
          && m'.capability[i] == m.capability[i] + (if m.admitted[i] == a then amount else 0.0))
    && m' == m.(wealth := m'.wealth, capability := m'.capability)
  }

  /** The agents that are not in debt, in order. */
  ghost function Kept(m: Moment, agents: seq<Agent>): seq<Agent>
    requires m.Shaped()
  {
    if |agents| == 0 then []
    else
      var rest, last := Kept(m, agents[..|agents| - 1]), agents[|agents| - 1];
      if m.Broke(last) then rest else rest + [last]
  }

  /** The agents that are. */
  ghost function Lost(m: Moment, agents: seq<Agent>): seq<Agent>
    requires m.Shaped()
  {
    if |agents| == 0 then []
    else
      var rest, last := Lost(m, agents[..|agents| - 1]), agents[|agents| - 1];
      if m.Broke(last) then rest + [last] else rest
  }

  /** Who each name last belonged to. */
  ghost predicate Remembers(recent: map<string, Agent>, agents: seq<Agent>) {
    && (forall name :: name in recent <==> exists a :: a in agents && a.name == name)
    && (forall name :: name in recent ==> recent[name] == Named(agents, name))
  }

  /** What one call does. */
  ghost predicate Happens(config: Config, m: Moment, e: Event, r: Result, m': Moment)
    requires m.Shaped()
  {
    match e
    case Register(name, role) =>
      r.Arrived? && AreChildren(r.agents, [Child(name, role)]) && m' == Enter(config, m, r.agents, None)
    case Unregister(name) =>
      r.Nothing? && m' == m.(population := Unregistered(m.population, name))
    case Auction(candidates, _) =>
      var bidders := Bidders(m.population, candidates);
      if |bidders| == 0 || config.scheme == Unknown then r.Nothing? && m' == m
      else Auctions(config, m, bidders, r, m')
    case ResetChain =>
      r.ChainReset? && m' == m.(prev := null)
    case Reward(name, amount) =>
      var a := FirstNamed(m.population, name);
      if a == null then r.Nothing? && m' == m
      else r == Gained(amount) && Rewards(m, a, amount, m')
    case CheckBankruptcies =>
      && r.Nothing? && m' == m.(population := Kept(m, m.population), recent := m'.recent)
      && Remembers(m'.recent, Lost(m, m.population))
    case Spawn(names, chances) =>
      var born := if config.ValidEvolution() then Newborns(config, m.recent, |m.population|, names, chances, |names|) else [];
      r.Arrived? && AreChildren(r.agents, born) && m' == Enter(config, m, r.agents, Some(0.0))
  }

  lemma RegisterHappens(config: Config, m: Moment, name: string, role: string, a: Agent)
    requires m.Shaped() && a.name == name && a.role == role
    ensures Happens(config, m, Register(name, role), Arrived([a]), Join(config, m, a, None))
  {
    EnterNext(config, m, [], a, None);
    assert [] + [a] == [a];
  }

  // ---------------------------------------------------------------- money through one call

  /** The population and the chain are among the admitted. */
  ghost predicate Known(m: Moment) {
    && m.Shaped() && DistinctAgents(m.admitted)
    && (forall a :: a in m.population ==> a in m.admitted) && (m.prev != null ==> m.prev in m.admitted)
  }

  lemma {:induction false} EnterSums(config: Config, m: Moment, agents: seq<Agent>, bid: Option<real>)
    ensures var m' := Enter(config, m, agents, bid);
            && Sum(m'.wealth) == Sum(m.wealth) + Times(config.initialWealth, |agents|)
            && Sum(m'.capability) == Sum(m.capability)
  {
    if |agents| > 0 {
      EnterSums(config, m, agents[..|agents| - 1], bid);
      var was := Enter(config, m, agents[..|agents| - 1], bid);
      assert (was.wealth + [config.initialWealth])[..|was.wealth|] == was.wealth;
      assert (was.capability + [0.0])[..|was.capability|] == was.capability;
    }
  }

  function Arrivals(r: Result): nat {
    if r.Arrived? then |r.agents| else 0
  }

  function Gain(r: Result): real {
    if r.Gained? then r.amount else 0.0
  }

  /** What goes to nobody: a payment when no previous winner stands. */
  function Lapse(standing: bool, r: Result): real {
    if r.Paid? && !standing then r.payment else 0.0
  }

  lemma AuctionConserves(config: Config, m: Moment, bidders: seq<Agent>, r: Result, m': Moment)
    requires Known(m) && (forall a :: a in bidders ==> a in m.admitted) && Auctions(config, m, bidders, r, m')
    ensures Known(m') && Sum(m'.wealth) == Sum(m.wealth) - Lapse(m.prev != null, r)
  {
    SumAfterPayment(m.admitted, m.wealth, m'.wealth, r.winner, r.payment, m.prev);
  }

  lemma ArrivalsConserve(config: Config, m: Moment, agents: seq<Agent>, bid: Option<real>)
    requires Known(m) && DistinctAgents(Enter(config, m, agents, bid).admitted)
    ensures var m' := Enter(config, m, agents, bid);
            && Known(m') && Sum(m'.capability) == Sum(m.capability)
            && Sum(m'.wealth) == Sum(m.wealth) + Times(config.initialWealth, |agents|)
  {
    EnterKeeps(config, m, agents, bid);
    EnterSums(config, m, agents, bid);
  }

  lemma RewardConserves(m: Moment, a: Agent, amount: real, m': Moment)
    requires Known(m) && a in m.admitted && Rewards(m, a, amount, m')
    ensures Known(m')
    ensures Sum(m'.wealth) == Sum(m.wealth) + amount && Sum(m'.capability) == Sum(m.capability) + amount
  {
    SumShifted(m.admitted, m.wealth, m'.wealth, a, amount);
    SumShifted(m.admitted, m.capability, m'.capability, a, amount);
  }

  lemma {:induction false} KeptAmong(m: Moment, agents: seq<Agent>)
    requires m.Shaped()
    ensures forall a :: a in Kept(m, agents) ==> a in agents
  {
    if |agents| > 0 {
      KeptAmong(m, agents[..|agents| - 1]);
    }
  }

  /** The others, in order, and those in debt. */
  lemma {:induction false} KeptIs(m: Moment, agents: seq<Agent>)
    requires m.Shaped()
    ensures Sublist(Kept(m, agents), agents) && Sublist(Lost(m, agents), agents)
    ensures forall x :: Occurrences(Kept(m, agents), x) == if m.Broke(x) then 0 else Occurrences(agents, x)
    ensures forall x :: Occurrences(Lost(m, agents), x) == if m.Broke(x) then Occurrences(agents, x) else 0
  {
    if |agents| > 0 {
      var front, last := agents[..|agents| - 1], agents[|agents| - 1];
      KeptIs(m, front);
      assert (Kept(m, front) + [last])[..|Kept(m, front)|] == Kept(m, front);
      assert (Lost(m, front) + [last])[..|Lost(m, front)|] == Lost(m, front);
    }
  }

  lemma StillKnown(m: Moment, m': Moment)
    requires Known(m) && m'.admitted == m.admitted && m'.wealth == m.wealth && m'.capability == m.capability
    requires (forall a :: a in m'.population ==> a in m.population) && (m'.prev == null || m'.prev == m.prev)
    ensures Known(m')
  {
  }

  /** Money only comes with newcomers and rewards, and only goes with unclaimed payments. */
  ghost predicate Conserved(config: Config, m: Moment, r: Result, m': Moment) {
    && Known(m')
    && Sum(m'.wealth)
       == Sum(m.wealth) + Times(config.initialWealth, Arrivals(r)) + Gain(r) - Lapse(m.prev != null, r)
    && Sum(m'.capability) == Sum(m.capability) + Gain(r)
  }

  lemma CallsConserve(config: Config, m: Moment, e: Event, r: Result, m': Moment)
    requires Known(m) && Happens(config, m, e, r, m') && !e.Register? && !e.Spawn?
    ensures Conserved(config, m, r, m')
  {
    if r.Paid? {
      AuctionConserves(config, m, Bidders(m.population, e.candidates), r, m');
    } else if r.Gained? {
      RewardConserves(m, FirstNamed(m.population, e.name), e.amount, m');
    } else {
      KeptAmong(m, m.population);
      StillKnown(m, m');
    }
  }

  lemma HappensConserves(config: Config, m: Moment, e: Event, r: Result, m': Moment)
    requires Known(m) && Happens(config, m, e, r, m') && DistinctAgents(m'.admitted)
    ensures Conserved(config, m, r, m')
  {
    if e.Register? {
      ArrivalsConserve(config, m, r.agents, None);
    } else if e.Spawn? {
      ArrivalsConserve(config, m, r.agents, Some(0.0));
    } else {
      CallsConserve(config, m, e, r, m');
    }
  }

  // ---------------------------------------------------------------- any sequence of calls

  /** Whether a previous winner stands after a call. */
  predicate Stands(before: bool, r: Result) {
    r.Paid? || (before && !r.ChainReset?)
  }

  /** Who was admitted stays on record, and so does the market's history. */
  lemma HappensGrows(config: Config, m: Moment, e: Event, r: Result, m': Moment)
    requires m.Shaped() && Happens(config, m, e, r, m')
    ensures (m'.prev != null) == Stands(m.prev != null, r)
    ensures m'.admitted == m.admitted + (if r.Arrived? then r.agents else []) && m.market <= m'.market
  {
    if e.Register? {
      EnterKeeps(config, m, r.agents, None);
    } else if e.Spawn? {
      EnterKeeps(config, m, r.agents, Some(0.0));
    }
  }

  /** Whether one stands after these. */
  predicate Standing(before: bool, results: seq<Result>) {
    if |results| == 0 then before
    else Stands(Standing(before, results[..|results| - 1]), results[|results| - 1])
  }

  /** What was paid to nobody: the payments made while no previous winner stood. */
  ghost function Unclaimed(before: bool, results: seq<Result>): real {
    if |results| == 0 then 0.0
    else
      var front, last := results[..|results| - 1], results[|results| - 1];
      Unclaimed(before, front) + Lapse(Standing(before, front), last)
  }

  ghost function Gains(results: seq<Result>): real {
    if |results| == 0 then 0.0
    else
      Gains(results[..|results| - 1]) + Gain(results[|results| - 1])
  }

  /** What the newcomers brought. */
  ghost function Newcomers(results: seq<Result>): nat {
    if |results| == 0 then 0
    else
      Newcomers(results[..|results| - 1]) + Arrivals(results[|results| - 1])
  }

  /** The moments of a sequence of calls, each one call after the one before. */
  ghost predicate Chronicle(config: Config, moments: seq<Moment>, events: seq<Event>, results: seq<Result>) {
    if |events| == 0 then |results| == 0 && |moments| == 1 && moments[0].Shaped()
    else
      var n := |events| - 1;
      && |results| == n + 1 && |moments| == n + 2 && moments[n].Shaped() && moments[n + 1].Shaped()
      && Chronicle(config, moments[..n + 1], events[..n], results[..n])
      && Happens(config, moments[n], events[n], results[n], moments[n + 1])
  }

  lemma ChronicleGrows(
    config: Config, moments: seq<Moment>, events: seq<Event>, results: seq<Result>, e: Event, r: Result, m: Moment)
    requires Chronicle(config, moments, events, results) && m.Shaped()
    requires |moments| == |events| + 1 && moments[|events|].Shaped() && Happens(config, moments[|events|], e, r, m)
    ensures Chronicle(config, moments + [m], events + [e], results + [r])
  {
    ChronicleShaped(config, moments, events, results);
    assert (moments + [m])[..|moments|] == moments;
    assert (events + [e])[..|events|] == events && (results + [r])[..|results|] == results;
  }

  lemma ChronicleNext(
    config: Config, moments: seq<Moment>, events: seq<Event>, i: nat, results: seq<Result>, r: Result, m: Moment)
    requires i < |events| && Chronicle(config, moments, events[..i], results) && m.Shaped()
    requires |moments| == i + 1 && moments[i].Shaped() && Happens(config, moments[i], events[i], r, m)
    ensures Chronicle(config, moments + [m], events[..i + 1], results + [r])
  {
    ChronicleGrows(config, moments, events[..i], results, events[i], r, m);
    assert events[..i + 1] == events[..i] + [events[i]];
  }

  lemma {:induction false} ChronicleShaped(
    config: Config, moments: seq<Moment>, events: seq<Event>, results: seq<Result>)
    requires Chronicle(config, moments, events, results)
    ensures |results| == |events| && |moments| == |events| + 1 && moments[|events|].Shaped()
  {
    if |events| > 0 {
      var n := |events| - 1;
      ChronicleShaped(config, moments[..n + 1], events[..n], results[..n]);
    }
  }

  /** Every single call did what it says. */
  lemma {:induction false} ChronicleAt(
    config: Config, moments: seq<Moment>, events: seq<Event>, results: seq<Result>, k: nat)
    requires Chronicle(config, moments, events, results) && k < |events|
    ensures |results| == |events| && |moments| == |events| + 1
    ensures moments[k].Shaped() && Happens(config, moments[k], events[k], results[k], moments[k + 1])
  {
    ChronicleShaped(config, moments, events, results);
    var n := |events| - 1;
    if k < n {
      ChronicleAt(config, moments[..n + 1], events[..n], results[..n], k);
    }
  }

  lemma {:induction false} TimesAdds(amount: real, a: nat, b: nat)
    ensures Times(amount, a + b) == Times(amount, a) + Times(amount, b)
  {
    if b > 0 {
      TimesAdds(amount, a, b - 1);
    }
  }

  lemma {:induction false} DistinctPrefix(agents: seq<Agent>, n: nat)
    requires DistinctAgents(agents) && n <= |agents|
    ensures DistinctAgents(agents[..n])
    decreases |agents|
  {
    if n < |agents| {
      DistinctPrefix(agents[..|agents| - 1], n);
      assert agents[..|agents| - 1][..n] == agents[..n];
    } else {
      assert agents[..n] == agents;
    }
  }

  /** From one moment to another, money comes and goes in the ways these results say. */
  ghost predicate Ledger(config: Config, m: Moment, results: seq<Result>, m': Moment) {
    Lineage(m, results, m') && Totals(config, m, results, m')
  }

  ghost predicate Lineage(m: Moment, results: seq<Result>, m': Moment) {
    && Known(m') && m.admitted <= m'.admitted && m.market <= m'.market
    && |m'.admitted| == |m.admitted| + Newcomers(results)
    && (m'.prev != null) == Standing(m.prev != null, results)
  }

  ghost predicate Totals(config: Config, m: Moment, results: seq<Result>, m': Moment) {
    && Sum(m'.wealth) == Sum(m.wealth) + Times(config.initialWealth, Newcomers(results)) + Gains(results)
                         - Unclaimed(m.prev != null, results)
    && Sum(m'.capability) == Sum(m.capability) + Gains(results)
  }

  lemma TallyNext(before: bool, results: seq<Result>, r: Result)
    ensures Standing(before, results + [r]) == Stands(Standing(before, results), r)
    ensures Unclaimed(before, results + [r]) == Unclaimed(before, results) + Lapse(Standing(before, results), r)
    ensures Gains(results + [r]) == Gains(results) + Gain(r)
    ensures Newcomers(results + [r]) == Newcomers(results) + Arrivals(r)
  {
    assert (results + [r])[..|results|] == results;
  }

  lemma LedgerNext(
    config: Config, m: Moment, results: seq<Result>, mid: Moment, e: Event, r: Result, m': Moment)
    requires Ledger(config, m, results, mid) && Happens(config, mid, e, r, m') && DistinctAgents(m'.admitted)
    ensures Ledger(config, m, results + [r], m')
  {
    HappensConserves(config, mid, e, r, m');
    LineageNext(config, m, results, mid, e, r, m');
    TotalsNext(config, m, results, mid, r, m');
  }

  lemma LineageNext(
    config: Config, m: Moment, results: seq<Result>, mid: Moment, e: Event, r: Result, m': Moment)
    requires Lineage(m, results, mid) && Happens(config, mid, e, r, m') && Known(m')
    ensures Lineage(m, results + [r], m')
  {
    HappensGrows(config, mid, e, r, m');
    TallyNext(m.prev != null, results, r);
  }

  lemma TotalsNext(config: Config, m: Moment, results: seq<Result>, mid: Moment, r: Result, m': Moment)
    requires Totals(config, m, results, mid) && Conserved(config, mid, r, m')
    requires (mid.prev != null) == Standing(m.prev != null, results)
    ensures Totals(config, m, results + [r], m')
  {
    TallyNext(m.prev != null, results, r);
    TimesAdds(config.initialWealth, Newcomers(results), Arrivals(r));
  }

  lemma LedgerStarts(config: Config, m: Moment, results: seq<Result>)
    requires Known(m) && |results| == 0
    ensures Ledger(config, m, results, m)
  {
  }

  lemma ChronicleLast(config: Config, moments: seq<Moment>, events: seq<Event>, results: seq<Result>)
    requires Chronicle(config, moments, events, results) && |events| > 0
    ensures var n := |events| - 1;
            && |moments| == n + 2 && |results| == n + 1 && results == results[..n] + [results[n]]
            && moments[n].Shaped() && Happens(config, moments[n], events[n], results[n], moments[n + 1])
            && Chronicle(config, moments[..n + 1], events[..n], results[..n])
  {
  }

  /** So it is from the first to the last moment of any sequence of calls. */
  lemma {:induction false} ChronicleConserves(
    config: Config, moments: seq<Moment>, events: seq<Event>, results: seq<Result>)
    requires Chronicle(config, moments, events, results) && |moments| == |events| + 1 && Known(moments[0])
    requires DistinctAgents(moments[|events|].admitted)
    ensures Ledger(config, moments[0], results, moments[|events|])
  {
    if |events| == 0 {
      LedgerStarts(config, moments[0], results);
    } else {
      var n := |events| - 1;
      ChronicleLast(config, moments, events, results);
      EarlierApart(config, moments[n], events[n], results[n], moments[n + 1]);
      ChronicleConserves(config, moments[..n + 1], events[..n], results[..n]);
      LedgerNext(config, moments[0], results[..n], moments[n], events[n], results[n], moments[n + 1]);
    }
  }

  lemma EarlierApart(config: Config, m: Moment, e: Event, r: Result, m': Moment)
    requires m.Shaped() && Happens(config, m, e, r, m') && DistinctAgents(m'.admitted)
    ensures DistinctAgents(m.admitted)
  {
    HappensGrows(config, m, e, r, m');
    assert m'.admitted[..|m.admitted|] == m.admitted;
    DistinctPrefix(m'.admitted, |m.admitted|);
  }
}
