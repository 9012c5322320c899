/**
 The mesh economy: auctions among named candidates, with a payment chain that
 outlives the agents in it, rewards by name, bankruptcies and births.
 Every call is proved to do what MeshHistory says of it.
 */
module MeshEconomy {
  import opened Wrappers
  import opened EconomyAgent
  import opened EconomyBidding
  import opened EconomyPopulation
  import opened MeshHistory

  datatype AuctionResult = NoBidders | Refused | Won(name: string, payment: real)

  // ---------------------------------------------------------------- payments and lookups

  /**
   The mesh skips a payment to oneself. The effect is that of paying
   unconditionally, as the training economy does.
   */
  method ProcessPayment(winner: Agent, payment: real, prev: Agent?, ghost roster: seq<Agent>)
    requires DistinctIds(roster) && winner in roster && (prev != null ==> prev in roster)
    modifies winner`wealth, (if prev == null then {} else {prev})`wealth
    ensures forall x: Agent :: x == winner || x == prev ==>
      x.wealth == old(x.wealth) - (if x == winner then payment else 0.0) + (if x == prev then payment else 0.0)
    ensures Wealth(roster) == old(Wealth(roster)) - (if prev == null then payment else 0.0)
    ensures Capability(roster) == old(Capability(roster))
  {
    ghost var ws, cs := Wealths(roster), Capabilities(roster);
    DistinctIdsDistinct(roster);
    TotalsAreSums(roster);
    if prev == null {
      winner.LoseMoney(payment);
    } else if prev.id != winner.id {
      winner.LoseMoney(payment);
      prev.GainMoney(payment);
    } else {
      SameIdSame(roster, winner, prev);
    }
    TotalsAreSums(roster);
    SumAfterPayment(roster, ws, Wealths(roster), winner, payment, prev);
    assert Capabilities(roster) == cs;
  }

  /** The names of some agents, and who each name last belonged to. */
  method Remember(agents: seq<Agent>) returns (names: seq<string>, byName: map<string, Agent>)
    ensures |names| == |agents| && forall j :: 0 <= j < |agents| ==> names[j] == agents[j].name
    ensures forall name :: name in byName <==> name in names
    ensures forall name :: name in names ==> byName[name] == Named(agents, name)
  {
    names, byName := [], map[];
    for i := 0 to |agents|
      invariant |names| == i && forall j :: 0 <= j < i ==> names[j] == agents[j].name
      invariant forall name :: name in byName <==> name in names
      invariant forall name :: name in names ==> byName[name] == Named(agents[..i], name)
    {
      assert agents[..i + 1][..i] == agents[..i];
      names := names + [agents[i].name];
      byName := byName[agents[i].name := agents[i]];
    }
    assert agents[..|agents|] == agents;
  }

  lemma NamesOf(names: seq<string>, agents: seq<Agent>)
    requires |names| == |agents| && forall j :: 0 <= j < |agents| ==> names[j] == agents[j].name
    ensures forall name :: name in names <==> exists a :: a in agents && a.name == name
  {
    forall name | name in names ensures exists a :: a in agents && a.name == name {
      var j :| 0 <= j < |names| && names[j] == name;
      assert agents[j] in agents;
    }
    forall a | a in agents ensures a.name in names {
      var j :| 0 <= j < |agents| && agents[j] == a;
      assert names[j] == a.name;
    }
  }

  // ---------------------------------------------------------------- the engine

  class MeshEngine {
    const config: Config

    var population: seq<Agent>
    var prevWinner: Agent?
    var recentBankrupts: map<string, Agent>
    var totalRewards: real
    var bankruptcyCount: nat
    var nextId: nat

    ghost var now: Moment   // all of this as a value, with everyone ever admitted and the market's history

    constructor (config: Config)
      ensures this.config == config && Valid() && totalRewards == 0.0
      ensures now == Moment([], [], [], [], null, map[], [])
    {
      this.config := config;
      population, prevWinner, recentBankrupts := [], null, map[];
      totalRewards, bankruptcyCount, nextId := 0.0, 0, 0;
      now := Moment([], [], [], [], null, map[], []);
    }

    /** The value is what the fields and the agents hold. */
    ghost predicate Current()
      reads this, now.admitted
    {
      && now.population == population && now.prev == prevWinner && now.recent == recentBankrupts && now.Shaped()
      && forall i :: 0 <= i < |now.admitted| ==>
           now.wealth[i] == now.admitted[i].wealth && now.capability[i] == now.admitted[i].capability
    }

    /** The market's history explains every bid and status. */
    ghost predicate Accounted()
      reads this, now.admitted
    {
      Explained(now.admitted, config.scheme, config.rules, now.market, nextId, false)
    }

    /** The population and the chain are among the admitted. */
    ghost predicate Placed()
      reads this`now
    {
      (forall a :: a in now.population ==> a in now.admitted) && (now.prev != null ==> now.prev in now.admitted)
    }

    ghost predicate Valid()
      reads this, now.admitted
    {
      Current() && Placed() && Accounted()
    }

    ghost function BookNow(): Book
      reads this`now
    {
      BookAfter(config.scheme, config.rules, now.market)
    }

    /** Who is in debt now. */
    lemma BrokeNow(a: Agent)
      requires Current() && a in now.admitted
      ensures now.Broke(a) <==> a.Bankrupt()
    {
      var i :| 0 <= i < |now.admitted| && now.admitted[i] == a;
      assert now.wealth[i] == a.wealth;
    }

    lemma {:induction false} SplitNow(agents: seq<Agent>)
      requires Current() && forall a :: a in agents ==> a in now.admitted
      ensures Living(agents) == Kept(now, agents) && Dead(agents) == Lost(now, agents)
    {
      if |agents| > 0 {
        SplitNow(agents[..|agents| - 1]);
        BrokeNow(agents[|agents| - 1]);
      }
    }

    /** The market's history explains what everyone shows. */
    lemma BidsExplained()
      requires Accounted()
      ensures Trail(config.scheme, config.rules, now.market) && Entered(now.admitted, BookNow())
    {
      ExplainedIs(now.admitted, config.scheme, config.rules, now.market, nextId, false);
    }

    lemma AdmittedApart()
      requires Accounted()
      ensures DistinctIds(now.admitted) && DistinctAgents(now.admitted)
    {
      ExplainedIs(now.admitted, config.scheme, config.rules, now.market, nextId, false);
      DistinctIdsDistinct(now.admitted);
    }

    // -------------------------------------------------------------- joining and leaving

    /** A newly made agent: a novice without merit, with the initial wealth. */
    ghost predicate Newborn(a: Agent)
      reads a
    {
      a.capability == 0.0 && a.status == Novice && a.wealth == config.initialWealth && (a.bid.None? || a.bid == Some(0.0))
    }

    /** Let a new agent in. */
    method Admit(a: Agent)
      requires Valid() && a.id < nextId && a.id !in Ids(now.admitted) && a.id !in BookNow() && Newborn(a)
      modifies this`population, this`now
      ensures Valid() && now == Join(config, old(now), a, a.bid)
    {
      NewcomerExplained(config.scheme, config.rules, now.market, nextId, false, now.admitted, a);
      population := population + [a];
      now := Join(config, now, a, a.bid);
    }

    method RegisterAgent(name: string, role: string) returns (a: Agent)
      requires Valid()
      modifies this`population, this`nextId, this`now
      ensures Valid() && Happens(config, old(now), Register(name, role), Arrived([a]), now)
      ensures fresh(a) && a.name == name && a.role == role && Newborn(a) && a.bid == None
    {
      NextIsNew(config.scheme, config.rules, now.market, nextId, false, now.admitted);
      a := new Agent(nextId, name, role, None, config.initialWealth);
      nextId := nextId + 1;
      ghost var was := now;
      Admit(a);
      RegisterHappens(config, was, name, role, a);
    }

    /** Remove the first agent under a name. It keeps its money, and its place in the chain. */
    method UnregisterAgent(name: string)
      requires Valid()
      modifies this`population, this`now
      ensures Valid() && now == old(now).(population := Unregistered(old(population), name))
    {
      var a := FirstNamed(population, name);
      if a != null {
        population := Without(population, a);
        now := now.(population := population);
      }
    }

    // -------------------------------------------------------------- auctions

    method FindBidders(candidates: seq<string>) returns (bidders: seq<Agent>)
      ensures bidders == Bidders(population, candidates)
    {
      bidders := [];
      for i := 0 to |candidates|
        invariant bidders == Bidders(population, candidates[..i])
      {
        assert candidates[..i + 1][..i] == candidates[..i];
        var a := Named(population, candidates[i]);
        if a != null {
          bidders := bidders + [a];
        }
      }
      assert candidates[..|candidates|] == candidates;
    }

    /** Add to the market's history what it then explains. */
    ghost method AddEvent(e: MarketEvent)
      requires Current() && Placed()
      requires Explained(now.admitted, config.scheme, config.rules, now.market + [e], nextId, false)
      modifies this`now
      ensures Valid() && now == old(now).(market := old(now).market + [e])
    {
      now := now.(market := now.market + [e]);
    }

    /** Rebidding and selection: a highest bidder, unless the scheme is unknown. */
    method HoldAuction(bidders: seq<Agent>, choice: nat) returns (winner: Agent?, payment: real)
      requires Valid() && bidders != [] && Members(bidders) <= Members(now.admitted)
      modifies this`now, Members(bidders)`bid, Members(bidders)`status
      ensures Valid() && (winner == null <==> config.scheme == Unknown)
      ensures winner == null ==> now == old(now)
      ensures winner != null ==>
        && winner in bidders && winner in now.admitted && winner.bid == Some(payment)
        && (forall a :: a in bidders ==> a.bid.Some? && a.bid.value <= payment)
        && now == old(now).(market := old(now).market + [Held(IdSeq(bidders), old(View(bidders)), winner.id)])
    {
      winner, payment := null, 0.0;
      if config.scheme != Unknown {
        ghost var e;
        winner, payment, e :=
          EconomyBidding.RunAuction(bidders, choice, config.scheme, config.rules, now.market, nextId, false, now.admitted);
        AddEvent(e);
      }
    }

    /** The payment among the agents, which the value does not know of yet. */
    method PayAhead(winner: Agent, payment: real)
      requires Valid() && winner in now.admitted && DistinctIds(now.admitted)
      modifies winner`wealth, (if prevWinner == null then {} else {prevWinner})`wealth
      ensures Accounted()
      ensures forall i :: 0 <= i < |now.admitted| ==>
        var x := now.admitted[i];
        && x.wealth == now.wealth[i] - (if x == winner then payment else 0.0) + (if x == prevWinner then payment else 0.0)
        && x.capability == now.capability[i]
    {
      ProcessPayment(winner, payment, prevWinner, now.admitted);
      assert Accounted();
      forall i | 0 <= i < |now.admitted|
        ensures var x := now.admitted[i];
                x.wealth == now.wealth[i] - (if x == winner then payment else 0.0) + (if x == prevWinner then payment else 0.0)
      {
        assert old(now.admitted[i].wealth) == now.wealth[i];
      }
    }

    /** The winner's payment, and its place at the end of the chain. */
    method SettlePayment(winner: Agent, payment: real)
      requires Valid() && winner in now.admitted
      modifies this`prevWinner, this`now
      modifies winner`wealth, (if prevWinner == null then {} else {prevWinner})`wealth
      ensures Valid() && Moved(old(now), now, winner, old(prevWinner), payment)
      ensures now == old(now).(wealth := now.wealth, prev := winner)
    {
      AdmittedApart();
      PayAhead(winner, payment);
      now, prevWinner := now.(wealth := Wealths(now.admitted), prev := winner), winner;
    }

    /** The winner's bid is in the book. */
    lemma PriceIsBid(winner: Agent, payment: real)
      requires Accounted() && winner in now.admitted && winner.bid == Some(payment)
      ensures Costs(config, now.market, winner.id, payment)
    {
      BidsExplained();
    }

    lemma ShownNow(bidders: seq<Agent>)
      requires Current()
      ensures Shows(now, bidders, View(bidders))
    {
    }

    /**
     An auction among these bidders: one with a highest bid wins, and pays the
     previous winner, who may have left long ago, or nobody if it opens a chain.
     */
    method AuctionAmong(bidders: seq<Agent>, choice: nat)
      returns (winner: Agent?, payment: real, ghost shown: seq<Bidder>)
      requires Valid() && bidders != [] && Members(bidders) <= Members(now.admitted)
      modifies this`prevWinner, this`now
      modifies Members(now.admitted)`wealth, Members(now.admitted)`bid, Members(now.admitted)`status
      ensures Valid() && shown == old(View(bidders)) && (winner == null <==> config.scheme == Unknown)
      ensures winner == null ==> now == old(now)
      ensures winner != null ==>
        && Auctions(config, old(now), bidders, Paid(winner, payment, shown), now)
        && (forall a :: a in bidders ==> a.bid.Some? && a.bid.value <= payment)
    {
      shown := View(bidders);
      ShownNow(bidders);
      winner, payment := HoldAuction(bidders, choice);
      if winner != null {
        PriceIsBid(winner, payment);
        SettlePayment(winner, payment);
      }
    }

    /** An auction among the candidates that are in the population. */
    method AuctionCandidates(candidates: seq<string>, choice: nat)
      returns (sale: AuctionResult, ghost bidders: seq<Agent>, ghost result: Result)
      requires Valid()
      modifies this`prevWinner, this`now
      modifies Members(now.admitted)`wealth, Members(now.admitted)`bid, Members(now.admitted)`status
      ensures Valid() && bidders == Bidders(old(population), candidates)
      ensures Happens(config, old(now), Auction(candidates, choice), result, now)
      ensures sale.NoBidders? <==> |bidders| == 0
      ensures sale.Refused? <==> |bidders| > 0 && config.scheme == Unknown
      ensures sale.Won? ==>
        && result.Paid? && sale == Won(result.winner.name, result.payment)
        && (forall a :: a in bidders ==> a.bid.Some? && a.bid.value <= sale.payment)
      ensures !sale.Won? ==> result.Nothing?
    {
      var found := FindBidders(candidates);
      bidders, result, sale := found, Nothing, NoBidders;
      if found != [] {
        MembersIn(found, now.admitted);
        var winner, payment;
        ghost var shown;
        winner, payment, shown := AuctionAmong(found, choice);
        if winner == null {
          sale := Refused;
        } else {
          sale, result := Won(winner.name, payment), Paid(winner, payment, shown);
        }
      }
    }

    /**
     Every candidate known in the population is heard: it bids no more than the
     price. `at` are the mentions of such candidates, one bidder each.
     */
    method RunAuction(candidates: seq<string>, choice: nat)
      returns (sale: AuctionResult, ghost bidders: seq<Agent>, ghost at: seq<nat>, ghost result: Result)
      requires Valid()
      modifies this`prevWinner, this`now
      modifies Members(now.admitted)`wealth, Members(now.admitted)`bid, Members(now.admitted)`status
      ensures Valid() && Heard(old(population), candidates, bidders, at)
      ensures forall k, a :: 0 <= k < |candidates| && LastOf(old(population), candidates[k], a) ==> a in bidders
      ensures Happens(config, old(now), Auction(candidates, choice), result, now)
      ensures sale.NoBidders? <==> |bidders| == 0
      ensures sale.Refused? <==> |bidders| > 0 && config.scheme == Unknown
      ensures sale.Won? ==>
        && result.Paid? && sale == Won(result.winner.name, result.payment)
        && (forall a :: a in bidders ==> a.bid.Some? && a.bid.value <= sale.payment)
      ensures !sale.Won? ==> result.Nothing?
    {
      at := BiddersAreHeard(population, candidates);
      BiddersHaveAll(population, candidates);
      sale, bidders, result := AuctionCandidates(candidates, choice);
    }

    method ResetPaymentChain()
      requires Valid()
      modifies this`prevWinner, this`now
      ensures Valid() && now == old(now).(prev := null)
    {
      prevWinner := null;
      now := now.(prev := null);
    }

    // -------------------------------------------------------------- rewards and bankruptcies

    /** A reward to the first agent under a name, if there is one. */
    method ApplyReward(name: string, amount: real) returns (ghost result: Result)
      requires Valid()
      modifies this`totalRewards, this`now, Members(population)`wealth, Members(population)`capability
      ensures Valid() && Happens(config, old(now), Reward(name, amount), result, now)
      ensures totalRewards == old(totalRewards) + Gain(result)
    {
      result := Nothing;
      var a := FirstNamed(population, name);
      if a != null {
        assert a in Members(population);
        GiveReward(a, amount);
        result := Gained(amount);
      }
    }

    /** The reward to the agent, which the value does not know of yet. */
    method RewardAhead(a: Agent, amount: real)
      requires Valid() && a in now.admitted
      modifies a`wealth, a`capability
      ensures Accounted()
      ensures forall i :: 0 <= i < |now.admitted| ==>
        var x := now.admitted[i];
        && x.wealth == now.wealth[i] + (if x == a then amount else 0.0)
        && x.capability == now.capability[i] + (if x == a then amount else 0.0)
    {
      a.GainMoney(amount);
      a.GainCapability(amount);
      assert Accounted();
    }

    method GiveReward(a: Agent, amount: real)
      requires Valid() && a in now.admitted
      modifies this`totalRewards, this`now, a`wealth, a`capability
      ensures Valid() && Rewards(old(now), a, amount, now) && totalRewards == old(totalRewards) + amount
    {
      RewardAhead(a, amount);
      now := now.(wealth := Wealths(now.admitted), capability := Capabilities(now.admitted));
      totalRewards := totalRewards + amount;
    }

    method Retire(kept: seq<Agent>, byName: map<string, Agent>, count: nat)
      requires Valid() && forall a :: a in kept ==> a in population
      modifies this`population, this`recentBankrupts, this`bankruptcyCount, this`now
      ensures Valid() && now == old(now).(population := kept, recent := byName)
      ensures bankruptcyCount == old(bankruptcyCount) + count
    {
      population, recentBankrupts, bankruptcyCount := kept, byName, bankruptcyCount + count;
      now := now.(population := kept, recent := byName);
    }

    /** Remove the bankrupts, and remember them by name until the next check. */
    method CheckBankruptcies() returns (names: seq<string>, ghost removed: seq<Agent>)
      requires Valid()
      modifies this`population, this`recentBankrupts, this`bankruptcyCount, this`now
      ensures Valid() && removed == old(Dead(population))
      ensures Happens(config, old(now), Event.CheckBankruptcies, Nothing, now)
      ensures |names| == |removed| && bankruptcyCount == old(bankruptcyCount) + |names|
      ensures forall i :: 0 <= i < |names| ==> names[i] == removed[i].name
    {
      SplitNow(population);
      var kept, dead := SplitBankrupts(population);
      removed := dead;
      var byName;
      names, byName := Remember(dead);
      NamesOf(names, dead);
      Retire(kept, byName, |dead|);
    }

    // -------------------------------------------------------------- births

    /** A birth, if there is a child and the cap allows it. */
    ghost predicate Bears(child: Child, newborn: Agent)
      reads newborn
    {
      IsChild(newborn, child) && Newborn(newborn) && newborn.bid == Some(0.0)
    }

    /** Admit a newborn, if there is one and the cap allows it. */
    method AddBornAgent(child: Option<Child>) returns (newborn: Agent?)
      requires Valid()
      modifies this`population, this`nextId, this`now
      ensures Valid() && (newborn == null ==> now == old(now))
      ensures newborn != null <==> child.Some? && (config.maxAgents <= 0 || |old(population)| < config.maxAgents)
      ensures newborn != null ==>
        now == Join(config, old(now), newborn, Some(0.0)) && fresh(newborn) && Bears(child.value, newborn)
    {
      newborn := null;
      if child.Some? {
        NextIsNew(config.scheme, config.rules, now.market, nextId, false, now.admitted);
        var a := new Agent(nextId, child.value.name, child.value.role, None, 0.0);
        nextId := nextId + 1;
        if config.maxAgents <= 0 || |population| < config.maxAgents {
          a.Initialize(config.initialWealth);
          Admit(a);
          newborn := a;
        }
      }
    }

    /** One bankrupt's chance: a birth if it is due, and nothing else. */
    method Replace(name: string, chance: Chance) returns (newborn: Agent?)
      requires Valid()
      modifies this`population, this`nextId, this`now
      ensures Valid() && (newborn == null ==> now == old(now))
      ensures newborn != null <==> Due(config, recentBankrupts, |old(population)|, name, chance)
      ensures newborn != null ==>
        now == Join(config, old(now), newborn, Some(0.0)) && fresh(newborn) && Bears(chance.child.value, newborn)
    {
      newborn := null;
      if chance.draw < config.good {
        var parent := Richest(population);
        if parent != null {
          newborn := AddBornAgent(chance.child);
        }
      } else if chance.draw < config.good + config.bad {
        if name in recentBankrupts {
          newborn := AddBornAgent(chance.child);
        }
      }
    }

    /** One chance of birth for each of the named bankrupts; the cap is kept throughout. */
    method SpawnReplacements(names: seq<string>, chances: seq<Chance>) returns (ok: bool, ghost newcomers: seq<Agent>)
      requires Valid()
      modifies this`population, this`nextId, this`now
      ensures Valid() && Happens(config, old(now), Spawn(names, chances), Arrived(newcomers), now)
      ensures ok <==> names == [] || config.ValidEvolution()
      ensures forall a :: a in newcomers ==> fresh(a) && Newborn(a) && a.bid == Some(0.0)
      ensures 0 < config.maxAgents ==> |population| <= config.maxAgents || population == old(population)
    {
      newcomers := [];
      ghost var was := now;
      ok := names == [] || config.ValidEvolution();
      if ok {
        newcomers := ReplaceEach(names, chances);
        forall k | 0 <= k < |newcomers| ensures Newborn(newcomers[k]) && newcomers[k].bid == Some(0.0) {
          ArrivedNewborn(was, newcomers, k);
        }
      }
    }

    lemma ShowsItsTag(a: Agent)
      requires Accounted() && a in now.admitted
      ensures a.id in BookNow() && BookNow()[a.id] == AgentTag(a)
    {
      BidsExplained();
    }

    /** Whoever has just entered is as the birth of an agent leaves it. */
    lemma ArrivedNewborn(was: Moment, agents: seq<Agent>, k: nat)
      requires Current() && Accounted() && was.Shaped() && now == Enter(config, was, agents, Some(0.0)) && k < |agents|
      ensures Newborn(agents[k]) && agents[k].bid == Some(0.0)
    {
      BidsExplained();
      EnterBrings(config, was, agents, Some(0.0), k);
      EnteredAt(was, agents, k);
      ShowsItsTag(agents[k]);
    }

    lemma EnteredAt(was: Moment, agents: seq<Agent>, k: nat)
      requires Current() && was.Shaped() && now == Enter(config, was, agents, Some(0.0)) && k < |agents|
      ensures |was.admitted| + k < |now.admitted| && now.admitted[|was.admitted| + k] == agents[k]
    {
      EnterKeeps(config, was, agents, Some(0.0));
    }

    /** What the first `n` chances have brought since `was`. */
    ghost predicate Replaced(was: Moment, names: seq<string>, chances: seq<Chance>, n: nat, newcomers: seq<Agent>)
      requires n <= |names|
      reads this`now
    {
      && now == Enter(config, was, newcomers, Some(0.0))
      && AreChildren(newcomers, Newborns(config, was.recent, |was.population|, names, chances, n))
    }

    /** The next chance. */
    method ReplaceNext(names: seq<string>, chances: seq<Chance>, i: nat, ghost was: Moment, ghost newcomers: seq<Agent>)
      returns (newborn: Agent?)
      requires Valid() && i < |names| && Replaced(was, names, chances, i, newcomers)
      modifies this`population, this`nextId, this`now
      ensures Valid()
      ensures Replaced(was, names, chances, i + 1, With(newcomers, newborn))
      ensures newborn != null ==> fresh(newborn) && (config.maxAgents <= 0 || |population| <= config.maxAgents)
      ensures newborn == null ==> population == old(population)
    {
      EnterSize(config, was, newcomers, Some(0.0));
      newborn := Replace(names[i], ChanceAt(chances, i));
      NewbornsNext(config, was.recent, |was.population|, names, chances, i, newcomers, newborn);
      if newborn != null {
        EnterNext(config, was, newcomers, newborn, Some(0.0));
      }
    }

    method ReplaceEach(names: seq<string>, chances: seq<Chance>) returns (ghost newcomers: seq<Agent>)
      requires Valid()
      modifies this`population, this`nextId, this`now
      ensures Valid() && Replaced(old(now), names, chances, |names|, newcomers)
      ensures forall a :: a in newcomers ==> fresh(a)
      ensures 0 < config.maxAgents ==> |population| <= config.maxAgents || population == old(population)
    {
      newcomers := [];
      ghost var was := now;
      for i := 0 to |names|
        invariant Valid() && Replaced(was, names, chances, i, newcomers)
        invariant forall a :: a in newcomers ==> fresh(a)
        invariant 0 < config.maxAgents ==> |population| <= config.maxAgents || population == old(population)
      {
        var newborn := ReplaceNext(names, chances, i, was, newcomers);
        newcomers := With(newcomers, newborn);
      }
    }

    // -------------------------------------------------------------- whole histories

    /** One call, and what it did. */
    method Handle(e: Event) returns (ghost result: Result)
      requires Valid()
      modifies this, Members(now.admitted)
      ensures Valid() && Happens(config, old(now), e, result, now)
      ensures totalRewards == old(totalRewards) + Gain(result)
      ensures result.Arrived? ==> forall a :: a in result.agents ==> fresh(a)
    {
      result := Nothing;
      match e
      case Register(name, role) =>
        var a := RegisterAgent(name, role);
        result := Arrived([a]);
      case Unregister(name) => UnregisterAgent(name);
      case Auction(candidates, choice) =>
        var sale;
        ghost var bidders, at;
        sale, bidders, at, result := RunAuction(candidates, choice);
      case ResetChain =>
        ResetPaymentChain();
        result := ChainReset;
      case Reward(name, amount) => result := ApplyReward(name, amount);
      case CheckBankruptcies =>
        var names;
        ghost var removed;
        names, removed := CheckBankruptcies();
      case Spawn(names, chances) =>
        var ok;
        ghost var newcomers;
        ok, newcomers := SpawnReplacements(names, chances);
        result := Arrived(newcomers);
    }

    method RunEach(events: seq<Event>) returns (ghost moments: seq<Moment>, ghost results: seq<Result>)
      requires Valid()
      modifies this, Members(now.admitted)
      ensures Valid() && Chronicle(config, moments, events, results)
      ensures |moments| == |events| + 1 && moments[0] == old(now) && moments[|events|] == now
      ensures totalRewards == old(totalRewards) + Gains(results)
    {
      moments, results := [now], [];
      ghost var was := now;
      for i := 0 to |events|
        invariant Valid()
        invariant forall a :: a in now.admitted ==> a in was.admitted || fresh(a)
        invariant |moments| == i + 1 && |results| == i && moments[0] == was && moments[i] == now
        invariant Chronicle(config, moments, events[..i], results)
        invariant totalRewards == old(totalRewards) + Gains(results)
      {
        ghost var before := now;
        ghost var result := Handle(events[i]);
        HappensGrows(config, before, events[i], result, now);
        TallyNext(true, results, result);
        ChronicleNext(config, moments, events, i, results, result, now);
        moments, results := moments + [now], results + [result];
      }
      assert events[..|events|] == events;
    }

    /**
     Whatever happens in whatever order, every call does exactly what it says. So
     over everyone ever admitted money comes with newcomers and rewards alone, and
     goes with what auctions cost while no previous winner stood; and the market is
     fair to newcomers and keeps veterans' bids.
     */
    method Run(events: seq<Event>) returns (ghost moments: seq<Moment>, ghost results: seq<Result>)
      requires Valid()
      modifies this, Members(now.admitted)
      ensures Valid() && Chronicle(config, moments, events, results)
      ensures |moments| == |events| + 1 && moments[0] == old(now) && moments[|events|] == now
      ensures Ledger(config, old(now), results, now) && totalRewards == old(totalRewards) + Gains(results)
      ensures FairMarket(now.admitted, config.scheme, config.rules, now.market)
      ensures config.scheme == FixedWithEps ==> forall a :: a in old(now).admitted && old(a.status) == Veteran ==>
        a.status == Veteran && a.bid == old(a.bid)
    {
      ghost var was := now;
      AdmittedApart();
      BidsExplained();
      moments, results := RunEach(events);
      AdmittedApart();
      ChronicleConserves(config, moments, events, results);
      MarketIsFair(now.admitted, config.scheme, config.rules, now.market, nextId, false);
      BidsExplained();
      if config.scheme == FixedWithEps {
        forall a | a in was.admitted && old(a.status) == Veteran ensures a.status == Veteran && a.bid == old(a.bid) {
          VeteranStaysBooked(config.rules, was.market, now.market, a.id);
        }
      }
    }
  }

  /**
   From the beginning: what everyone ever admitted holds is the initial wealth of
   each, plus the rewards, less what was paid to nobody.
   */
  method RunNew(config: Config, events: seq<Event>)
    returns (engine: MeshEngine, ghost moments: seq<Moment>, ghost results: seq<Result>)
    ensures fresh(engine) && engine.config == config && engine.Valid() && Chronicle(config, moments, events, results)
    ensures |moments| == |events| + 1 && moments[|events|] == engine.now
    ensures Wealth(engine.now.admitted) ==
            Times(config.initialWealth, |engine.now.admitted|) + engine.totalRewards - Unclaimed(false, results)
    ensures Capability(engine.now.admitted) == engine.totalRewards
  {
    engine := new MeshEngine(config);
    moments, results := engine.Run(events);
    TotalsAreSums(engine.now.admitted);
    assert engine.now.wealth == Wealths(engine.now.admitted);
    assert engine.now.capability == Capabilities(engine.now.admitted);
  }
}
