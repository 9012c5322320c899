/**
 The training economy: auctions with bucket-brigade payments, step and path
 rewards, bankruptcy, rollback and replay, forced role recovery, rent and births.

 What the engine asks of the outside world is an input: who is awake at a step,
 how ties fall, what reward the environment pays, whether it is done, whose
 names its history holds, how it is scored, and what the birth factories give.
 */
module HayekEconomy {
  import opened Wrappers
  import opened EconomyAgent
  import opened EconomyBidding
  import opened EconomyPopulation
  import opened HayekLedger

  // ---------------------------------------------------------------- money movements

  lemma LatestAmong(winners: seq<Agent>, roster: seq<Agent>)
    requires Members(winners) <= Members(roster)
    ensures winners != [] ==> winners[|winners| - 1] in roster
  {
    MembersIn(winners, roster);
  }

  /** The recent winners and one more are agents of the roster if all winners are. */
  lemma RecentMembers(rewards: RewardConfig, winners: seq<Agent>, winner: Agent, roster: seq<Agent>)
    requires Members(winners) <= Members(roster) && winner in roster
    ensures var t := Recent(rewards, winners + [winner]); winner in t && Members(t) <= Members(winners + [winner]) <= Members(roster)
  {
    var t := Recent(rewards, winners + [winner]);
    assert t[|t| - 1] == winner;
    MembersIn(winners + [winner], roster) by {
      forall a | a in winners ensures a in roster {
        assert a in Members(winners);
      }
    }
  }

  /** Every agent of a chain is counted exactly once among its unique members. */
  lemma CountedOnce(chain: seq<Agent>, unique: seq<Agent>, roster: seq<Agent>, a: Agent)
    requires DistinctIds(roster) && Members(chain) <= Members(roster) && a in chain
    requires DistinctIds(unique) && Ids(unique) == Ids(chain) && Members(unique) <= Members(chain)
    ensures a in unique && Occurrences(unique, a) == 1
  {
    IdHeld(chain, a.id);
    IdHeld(unique, a.id);
    var u :| u in unique && u.id == a.id;
    assert u in Members(unique) && a in Members(chain);
    SameIdSame(roster, u, a);
    OccursOnce(unique, a);
  }

  /** Split a reward evenly among the agents of a chain, each counted once. */
  method ShareReward(chain: seq<Agent>, reward: real, ghost roster: seq<Agent>)
    requires DistinctIds(roster) && chain != [] && Members(chain) <= Members(roster)
    modifies Members(chain)`wealth, Members(chain)`capability
    ensures forall a :: a in chain ==>
      && a.wealth == old(a.wealth) + reward / Sharers(chain) as real
      && a.capability == old(a.capability) + reward / Sharers(chain) as real
    ensures Wealth(roster) == old(Wealth(roster)) + reward
    ensures Capability(roster) == old(Capability(roster)) + reward
  {
    DistinctIdsDistinct(roster);
    var sharers := Unique(chain);
    MembersIn(sharers, roster);
    DistinctIdsCount(sharers);
    var share := reward / |sharers| as real;
    SharesAddUp(reward, |sharers|);
    RewardEachWithin(sharers, share, roster);
    forall a | a in chain ensures a in sharers && Times(share, Occurrences(sharers, a)) == share {
      CountedOnce(chain, sharers, roster, a);
    }
  }

  /** The reward of one step, to the winner or shared along the chain of recent winners. */
  method PayReward(winner: Agent, chain: seq<Agent>, reward: real, split: bool, ghost roster: seq<Agent>)
    requires DistinctIds(roster) && winner in chain && Members(chain) <= Members(roster)
    modifies Members(chain)`wealth, Members(chain)`capability
    ensures forall a :: a in chain ==>
      && a.wealth == old(a.wealth) + Portion(a == winner, reward, split, Sharers(chain))
      && a.capability == old(a.capability) + Portion(a == winner, reward, split, Sharers(chain))
    ensures Wealth(roster) == old(Wealth(roster)) + reward
    ensures Capability(roster) == old(Capability(roster)) + reward
  {
    assert winner in Members(chain);
    if split && reward != 0.0 {
      ShareReward(chain, reward, roster);
    } else {
      DistinctIdsDistinct(roster);
      RewardWithin(winner, reward, roster);
    }
  }

  function PathTotal(each: real, count: nat): real {
    each * count as real
  }

  /** The shares of a path reward add up to it, counted out or multiplied. */
  lemma PathSharesAddUp(rewards: RewardConfig, pay: real, count: nat)
    ensures var each := rewards.PathRewardPerAgent(pay, count);
            PathTotal(each, count) == Times(each, count) == if count > 0 then rewards.PathReward(pay) else 0.0
  {
    TimesIsProduct(rewards.PathRewardPerAgent(pay, count), count);
    if count > 0 {
      SharesAddUp(rewards.PathReward(pay), count);
    }
  }

  // ---------------------------------------------------------------- the engine

  class Hayek {
    const engine: EngineConfig
    const rewards: RewardConfig

    var population: seq<Agent>
    var initialAgents: seq<Agent>
    var totalRewards: real
    var bankruptcyCount: nat
    var episodeCount: nat
    var nextId: nat

    ghost var events: seq<MarketEvent>   // who joined and what was auctioned, from the start

    constructor (engine: EngineConfig, rewards: RewardConfig)
      ensures this.engine == engine && this.rewards == rewards
      ensures population == [] && initialAgents == [] && totalRewards == 0.0 && events == []
      ensures engine.scheme != Unknown ==> Registered()
    {
      this.engine, this.rewards := engine, rewards;
      population, initialAgents := [], [];
      totalRewards, bankruptcyCount, episodeCount, nextId := 0.0, 0, 0, 0;
      events := [];
    }

    ghost function BookNow(): Book
      reads this`events
    {
      BookAfter(engine.scheme, engine.rules, events)
    }

    /** The agents are told apart, and the events explain every bid and status. */
    ghost predicate Registered()
      reads this, population
    {
      engine.scheme != Unknown && Explained(population, engine.scheme, engine.rules, events, nextId, true)
    }

    lemma EventsExplain()
      ensures Explained(population, engine.scheme, engine.rules, events, nextId, true) <==>
              && Trail(engine.scheme, engine.rules, events) && JoinedBelow(events, nextId) && OnceEach(events)
              && Fit(population, nextId) && Entered(population, BookNow())
    {
      ExplainedIs(population, engine.scheme, engine.rules, events, nextId, true);
    }

    lemma ToldApart()
      requires Registered()
      ensures DistinctIds(population) && DistinctAgents(population)
    {
      EventsExplain();
      DistinctIdsDistinct(population);
    }

    lemma BiddersApart(awake: set<nat>)
      requires Registered()
      ensures DistinctIds(Active(population, awake)) && Members(Active(population, awake)) <= Members(population)
    {
      ToldApart();
      ActiveIds(population, awake);
    }

    method RewardStep(winner: Agent, chain: seq<Agent>, reward: real, ghost winners: seq<Agent>)
      requires Registered() && winner in chain && Members(chain) <= Members(population)
      requires winners != [] && chain == Recent(rewards, winners) && winner == winners[|winners| - 1]
      modifies this`totalRewards, Members(chain)`wealth, Members(chain)`capability
      ensures Registered()
      ensures totalRewards == old(totalRewards) + rewards.Earned(reward)
      ensures forall a :: a in old(population) ==>
        && a.wealth == old(a.wealth) + Credit(rewards, reward, winners, a)
        && a.capability == old(a.capability) + Credit(rewards, reward, winners, a)
      ensures Wealth(population) == old(Wealth(population)) + rewards.Earned(reward)
      ensures Capability(population) == old(Capability(population)) + rewards.Earned(reward)
    {
      ToldApart();
      totalRewards := totalRewards + rewards.Earned(reward);
      if rewards.stepwise {
        PayReward(winner, chain, reward, rewards.splitChain, population);
      }
    }

    /** The highest bid once the active agents have rebid. */
    ghost function Price(active: seq<Agent>): Option<real>
      reads active
    {
      TopBid(RebidAll(engine.scheme, engine.rules, View(active)))
    }

    /** The premium applies: a fixed scheme with a positive premium, and a novice among the bidders. */
    ghost predicate NoviceDue(view: seq<Bidder>) {
      Premium(engine.scheme, engine.rules) && exists i :: 0 <= i < |view| && view[i].status == Novice
    }

    /** Where the premium applies, the winner of an auction was a novice before it. */
    lemma NoviceWon(before: seq<MarketEvent>, e: MarketEvent)
      requires Trail(engine.scheme, engine.rules, before + [e]) && OnceEach(before + [e])
      requires e.Held? && NoviceDue(e.shown)
      ensures var book := BookAfter(engine.scheme, engine.rules, before);
              e.winner in book && book[e.winner].status == Novice
    {
      var events := before + [e];
      assert events[..|before|] == before;
      OnceEachAt(events, |before|);
      var n :| 0 <= n < |e.shown| && e.shown[n].status == Novice;
      assert |e.active| == |e.shown|;
      OnceIsSure(engine.scheme, e.active, e.shown, n);
      NoviceWins(engine.scheme, engine.rules, events, |before|);
    }

    /** Rebidding and selection: a highest bidder wins, and a novice if the premium applies. */
    method SelectByAuction(active: seq<Agent>, choice: nat) returns (winner: Agent, payment: real)
      requires Registered() && active != [] && DistinctIds(active) && Members(active) <= Members(population)
      modifies this`events, Members(active)`bid, Members(active)`status
      ensures Registered()
      ensures events == old(events) + [Held(IdSeq(active), old(View(active)), winner.id)]
      ensures winner in active && winner in population && winner.bid == Some(payment) == old(Price(active))
      ensures NoviceDue(old(View(active))) ==> old(winner.status) == Novice
      ensures Wealth(population) == old(Wealth(population)) && Capability(population) == old(Capability(population))
    {
      EventsExplain();
      ghost var e;
      winner, payment, e := RunAuction(active, choice, engine.scheme, engine.rules, events, nextId, true, population);
      ghost var w, c := Wealth(population), Capability(population);
      if NoviceDue(e.shown) {
        ExplainedIs(population, engine.scheme, engine.rules, events + [e], nextId, true);
        NoviceWon(events, e);
      }
      AddEvent(e);
    }

    /** Add to the events what they then explain. */
    ghost method AddEvent(e: MarketEvent)
      requires Explained(population, engine.scheme, engine.rules, events + [e], nextId, true)
      modifies this`events
      ensures events == old(events) + [e]
      ensures Explained(population, engine.scheme, engine.rules, events, nextId, true)
      ensures Wealth(population) == old(Wealth(population)) && Capability(population) == old(Capability(population))
    {
      events := events + [e];
    }

    /** One auction: the highest bidder pays its bid to the previous winner. */
    method HoldAuction(active: seq<Agent>, choice: nat, prev: Agent?) returns (winner: Agent, payment: real)
      requires Registered() && active != [] && DistinctIds(active) && Members(active) <= Members(population)
      requires prev != null ==> prev in population
      modifies this`events, Members(population)`wealth, Members(population)`bid, Members(population)`status
      ensures Registered()
      ensures events == old(events) + [Held(IdSeq(active), old(View(active)), winner.id)]
      ensures winner in active && winner in population && winner.bid == Some(payment) == old(Price(active))
      ensures NoviceDue(old(View(active))) ==> old(winner.status) == Novice
      ensures forall a :: a in old(population) ==>
        a.wealth == old(a.wealth) - (if a == winner then payment else 0.0) + (if a == prev then payment else 0.0)
      ensures Wealth(population) == old(Wealth(population)) - if prev == null then payment else 0.0
      ensures Capability(population) == old(Capability(population))
    {
      winner, payment := SelectByAuction(active, choice);
      PayBid(winner, payment, prev);
    }

    method PayBid(winner: Agent, payment: real, prev: Agent?)
      requires Registered() && winner in population && (prev != null ==> prev in population)
      modifies winner`wealth, (if prev == null then {} else {prev})`wealth
      ensures Registered()
      ensures forall a :: a in old(population) ==>
        a.wealth == old(a.wealth) - (if a == winner then payment else 0.0) + (if a == prev then payment else 0.0)
      ensures Wealth(population) == old(Wealth(population)) - if prev == null then payment else 0.0
      ensures Capability(population) == old(Capability(population))
    {
      ToldApart();
      PayWithin(winner, payment, prev, population);
    }

    /** An auction, and the winner's place in the chain, which holds as many of the last winners as the window allows. */
    method SeatWinner(active: seq<Agent>, choice: nat, prev: Agent?, chain: seq<Agent>, ghost winners: seq<Agent>)
      returns (winner: Agent, payment: real, chain': seq<Agent>)
      requires Registered() && active != [] && DistinctIds(active) && Members(active) <= Members(population)
      requires Members(winners) <= Members(population)
      requires prev == Latest(winners) && chain == Recent(rewards, winners)
      modifies this`events, Members(population)`wealth, Members(population)`bid, Members(population)`status
      ensures Registered()
      ensures events == old(events) + [Held(IdSeq(active), old(View(active)), winner.id)]
      ensures winner in active && winner in population && winner.bid == Some(payment) == old(Price(active))
      ensures NoviceDue(old(View(active))) ==> old(winner.status) == Novice
      ensures Members(winners + [winner]) <= Members(population)
      ensures winner in chain' && chain' == Recent(rewards, winners + [winner])
      ensures var size := if rewards.chainWindow >= 1 then rewards.chainWindow else 1;
        |chain'| == if |chain| < size then |chain| + 1 else size
      ensures forall a :: a in old(population) ==>
        a.wealth == old(a.wealth) - (if a == winner then payment else 0.0) + (if a == prev then payment else 0.0)
      ensures Wealth(population) == old(Wealth(population)) - if prev == null then payment else 0.0
      ensures Capability(population) == old(Capability(population))
    {
      var size := if rewards.chainWindow >= 1 then rewards.chainWindow else 1;
      LatestAmong(winners, population);
      winner, payment := HoldAuction(active, choice, prev);
      chain' := chain + [winner];
      if |chain'| > size {
        chain' := chain'[|chain'| - size..];
      }
      ChainMovesOn(rewards, winners, winner, chain');
      RecentMembers(rewards, winners, winner, population);
    }

    /**
     One step of the loop: an auction, the winner's place in the chain, the
     reward. The winner pays the one before it, and the reward goes in equal
     parts to the winners in the chain, or to the winner alone.
     */
    method RunStep(active: seq<Agent>, input: StepInput, prev: Agent?, chain: seq<Agent>, ghost winners: seq<Agent>)
      returns (winner: Agent, payment: real, chain': seq<Agent>)
      requires Registered() && active != [] && DistinctIds(active) && Members(active) <= Members(population)
      requires Members(winners) <= Members(population)
      requires prev == Latest(winners) && chain == Recent(rewards, winners)
      modifies this`totalRewards, this`events, Members(population)
      ensures Registered()
      ensures events == old(events) + [Held(IdSeq(active), old(View(active)), winner.id)]
      ensures winner in active && winner in population && winner.bid == Some(payment) == old(Price(active))
      ensures NoviceDue(old(View(active))) ==> old(winner.status) == Novice
      ensures Members(winners + [winner]) <= Members(population)
      ensures chain' == Recent(rewards, winners + [winner])
      ensures var size := if rewards.chainWindow >= 1 then rewards.chainWindow else 1;
        |chain'| == if |chain| < size then |chain| + 1 else size
      ensures forall a :: a in old(population) ==>
        && a.wealth == old(a.wealth) + Change(rewards, input.reward, winners + [winner], payment, a)
        && a.capability == old(a.capability) + Credit(rewards, input.reward, winners + [winner], a)
      ensures totalRewards == old(totalRewards) + rewards.Earned(input.reward)
      ensures Wealth(population) ==
              old(Wealth(population)) + rewards.Earned(input.reward) - if prev == null then payment else 0.0
      ensures Capability(population) == old(Capability(population)) + rewards.Earned(input.reward)
    {
      winner, payment, chain' := SeatWinner(active, input.choice, prev, chain, winners);
      label M:
      RecentMembers(rewards, winners, winner, population);
      RewardStep(winner, chain', input.reward, winners + [winner]);
      ChangeIs(rewards, input.reward, winners, winner, payment);
      forall a | a in old(population)
        ensures a.wealth == old(a.wealth) + Change(rewards, input.reward, winners + [winner], payment, a)
      {
        assert a.wealth == old@M(a.wealth) + Credit(rewards, input.reward, winners + [winner], a);
      }
    }

    /**
     The step at which a trial that has come to step `n` ends: the steps run out,
     nobody is awake, or the environment is done.
     */
    ghost function Duration(agents: seq<Agent>, trial: TrialInput, n: nat): nat
      decreases engine.maxSteps - n
    {
      if n >= engine.maxSteps || !AnyAwake(agents, trial.Step(n).awake) then n
      else if trial.Step(n).done then n + 1
      else Duration(agents, trial, n + 1)
    }

    /**
     From step `n` on there is somebody awake at every step before that one and
     none but its last is done; and it is the last allowed, or done, or nobody is
     awake after it.
     */
    lemma {:induction false} DurationIs(agents: seq<Agent>, trial: TrialInput, n: nat)
      ensures var d := Duration(agents, trial, n);
        && n <= d && (d > n ==> d <= engine.maxSteps)
        && (forall k: nat :: n <= k < d ==> AnyAwake(agents, trial.Step(k).awake))
        && (forall k: nat :: n <= k && k + 1 < d ==> !trial.Step(k).done)
        && (d >= engine.maxSteps || (d > n && trial.Step(d - 1).done) || !AnyAwake(agents, trial.Step(d).awake))
      decreases engine.maxSteps - n
    {
      if n < engine.maxSteps && AnyAwake(agents, trial.Step(n).awake) && !trial.Step(n).done {
        DurationIs(agents, trial, n + 1);
      }
    }

    /** What the first `n` steps earn. */
    ghost function Takings(trial: TrialInput, n: nat): real {
      if n == 0 then 0.0 else Takings(trial, n - 1) + rewards.Earned(trial.Step(n - 1).reward)
    }

    lemma NextStep(agents: seq<Agent>, trial: TrialInput, n: nat)
      requires n < engine.maxSteps
      ensures Takings(trial, n + 1) == Takings(trial, n) + rewards.Earned(trial.Step(n).reward)
      ensures Duration(agents, trial, n) ==
        if Active(agents, trial.Step(n).awake) == [] then n
        else if trial.Step(n).done then n + 1 else Duration(agents, trial, n + 1)
    {
    }

    /** What the awake agents show before they rebid. */
    ghost function AwakeView(agents: seq<Agent>, awake: set<nat>): seq<Bidder>
      reads agents
    {
      if |agents| == 0 then []
      else
        var rest, last := AwakeView(agents[..|agents| - 1], awake), agents[|agents| - 1];
        if last.id in awake then rest + [ViewAgent(last)] else rest
    }

    lemma {:induction false} AwakeViewIs(agents: seq<Agent>, awake: set<nat>)
      ensures AwakeView(agents, awake) == View(Active(agents, awake))
    {
      if |agents| > 0 {
        AwakeViewIs(agents[..|agents| - 1], awake);
      }
    }

    /** Who bids at the first step of a trial, before rebidding. */
    ghost function FirstBidders(trial: TrialInput): seq<Bidder>
      reads this, population
    {
      AwakeView(population, trial.Step(0).awake)
    }

    lemma {:induction false} AwakeViewFrom(agents: seq<Agent>, awake: set<nat>, book: Book)
      requires Entered(agents, book)
      ensures AwakeView(agents, awake) == BiddersFrom(agents, awake, book, Wealths(agents))
    {
      if |agents| > 0 {
        var n := |agents| - 1;
        assert agents == agents[..n] + [agents[n]];
        AwakeViewFrom(agents[..n], awake, book);
        assert Wealths(agents)[..n] == Wealths(agents[..n]);
      }
    }

    /** The opening bid is the price of the first auction, if one is held. */
    lemma OpeningIs(trial: TrialInput, opening: real)
      requires engine.maxSteps > 0 && opening == OpeningBid(engine, FirstBidders(trial))
      ensures var price := Price(Active(population, trial.Step(0).awake));
        if price.Some? then opening == price.value else opening == 0.0
      ensures Active(population, trial.Step(0).awake) == [] ==> opening == 0.0
    {
      AwakeViewIs(population, trial.Step(0).awake);
    }

    lemma LastSale(active: seq<Agent>, winner: Agent, price: real)
      requires Registered() && winner in population && winner in active && winner.bid == Some(price)
      requires |events| > 0 && events[|events| - 1].Held?
      requires events[|events| - 1].active == IdSeq(active) && events[|events| - 1].winner == winner.id
      ensures Sale(engine, events, active, winner, price)
    {
      EventsExplain();
    }

    /** One more winner, if there is one. */
    ghost predicate WonBy(winners: seq<Agent>, winner: Agent?, winners': seq<Agent>) {
      if winner == null then winners' == winners
      else |winners'| == |winners| + 1 && winners' == winners + [winners'[|winners|]] && winners'[|winners|] == winner
    }

    /** A step among whoever is awake. */
    method AwakeStep(input: StepInput, prev: Agent?, chain: seq<Agent>, ghost winners: seq<Agent>)
      returns (winner: Agent?, ghost payment: real, chain': seq<Agent>, ghost winners': seq<Agent>)
      requires Registered() && Members(winners) <= Members(population)
      requires prev == Latest(winners) && chain == Recent(rewards, winners)
      modifies this`totalRewards, this`events, Members(population)
      ensures Registered() && WonBy(winners, winner, winners')
      ensures Members(winners') <= Members(population) && chain' == Recent(rewards, winners')
      ensures winner == null <==> Active(population, input.awake) == []
      ensures winner == null ==> unchanged(this) && unchanged(population)
      ensures winner != null ==>
        && Some(payment) == old(Price(Active(population, input.awake)))
        && |events| == |old(events)| + 1 && events == old(events) + [events[|old(events)|]]
        && Sale(engine, events, Active(population, input.awake), winner, payment)
      ensures winner != null ==> forall a :: a in old(population) ==>
        && a.wealth == old(a.wealth) + Change(rewards, input.reward, winners', payment, a)
        && a.capability == old(a.capability) + Credit(rewards, input.reward, winners', a)
      ensures winner != null ==>
        && totalRewards == old(totalRewards) + rewards.Earned(input.reward)
        && Wealth(population) ==
           old(Wealth(population)) + rewards.Earned(input.reward) - (if prev == null then payment else 0.0)
        && Capability(population) == old(Capability(population)) + rewards.Earned(input.reward)
    {
      BiddersApart(input.awake);
      var active := Active(population, input.awake);
      winner, chain', payment, winners' := null, chain, 0.0, winners;
      if active != [] {
        var first, price;
        first, price, chain' := RunStep(active, input, prev, chain, winners);
        winner, payment, winners' := first, price, winners + [first];
        LastSale(active, first, price);
      }
    }

    /** The totals after `n` steps. Only the first one's payment has left the economy. */
    ghost predicate Tallied(trial: TrialInput, n: nat, wealth: real, capability: real, total: real, opening: real)
      reads this, population
    {
      && totalRewards == total + Takings(trial, n)
      && Wealth(population) == wealth + Takings(trial, n) - (if n == 0 then 0.0 else opening)
      && Capability(population) == capability + Takings(trial, n)
    }

    /** A step, if anyone is awake, added to the record of the steps before. */
    method RecordStep(
      trial: TrialInput, step: nat, prev: Agent?, chain: seq<Agent>, ghost winners: seq<Agent>, ghost prices: seq<real>,
      ghost start: seq<MarketEvent>)
      returns (winner: Agent?, ghost payment: real, chain': seq<Agent>, ghost winners': seq<Agent>, ghost prices': seq<real>)
      requires Registered() && Members(winners) <= Members(population) && |winners| == |prices| == step
      requires prev == Latest(winners) && chain == Recent(rewards, winners)
      requires Sales(engine, start, events, population, trial, winners, prices)
      modifies this`totalRewards, this`events, Members(population)
      ensures Registered() && old(events) <= events
      ensures WonBy(winners, winner, winners') && |prices'| == |winners'|
      ensures Members(winners') <= Members(population) && chain' == Recent(rewards, winners')
      ensures Sales(engine, start, events, population, trial, winners', prices')
      ensures forall a :: a in old(population) ==>
        && a.wealth - Income(rewards, trial, winners', prices', a) ==
           old(a.wealth) - Income(rewards, trial, winners, prices, a)
        && a.capability - Merit(rewards, trial, winners', a) == old(a.capability) - Merit(rewards, trial, winners, a)
      ensures winner == null <==> Active(population, trial.Step(step).awake) == []
      ensures winner != null ==> Some(payment) == old(Price(Active(population, trial.Step(step).awake)))
      ensures var earned := if winner == null then 0.0 else rewards.Earned(trial.Step(step).reward);
        && totalRewards == old(totalRewards) + earned
        && Wealth(population) ==
           old(Wealth(population)) + earned - (if winner != null && prev == null then payment else 0.0)
        && Capability(population) == old(Capability(population)) + earned
    {
      ghost var before := events;
      winner, payment, chain', winners' := AwakeStep(trial.Step(step), prev, chain, winners);
      prices' := prices;
      if winner != null {
        SalesNext(engine, start, before, population, trial, winners, prices, events[|before|], winner, payment);
        IncomesNext(rewards, trial, winners, prices, winner, payment);
        prices' := prices + [payment];
      }
    }

    /** A step's part in the course of the trial. */
    method Turn(
      trial: TrialInput, step: nat, prev: Agent?, chain: seq<Agent>, ghost winners: seq<Agent>, ghost prices: seq<real>,
      ghost start: seq<MarketEvent>, ghost w: real, ghost c: real, ghost r: real, ghost opening: real)
      returns (winner: Agent?, chain': seq<Agent>, ghost winners': seq<Agent>, ghost prices': seq<real>)
      requires Registered() && Members(winners) <= Members(population) && |winners| == |prices| == step < engine.maxSteps
      requires prev == Latest(winners) && chain == Recent(rewards, winners)
      requires step == 0 ==> opening == OpeningBid(engine, FirstBidders(trial))
      requires Sales(engine, start, events, population, trial, winners, prices)
      requires Tallied(trial, step, w, c, r, opening)
      modifies this`totalRewards, this`events, Members(population)
      ensures Registered() && old(events) <= events
      ensures |prices'| == |winners'| == if winner == null then step else step + 1
      ensures Latest(winners') == if winner == null then prev else winner
      ensures Members(winners') <= Members(population) && chain' == Recent(rewards, winners')
      ensures Sales(engine, start, events, population, trial, winners', prices')
      ensures forall a :: a in old(population) ==>
        && a.wealth - Income(rewards, trial, winners', prices', a) ==
           old(a.wealth) - Income(rewards, trial, winners, prices, a)
        && a.capability - Merit(rewards, trial, winners', a) == old(a.capability) - Merit(rewards, trial, winners, a)
      ensures winner == null <==> Active(population, trial.Step(step).awake) == []
      ensures winner == null && step == 0 ==> opening == 0.0
      ensures Tallied(trial, |winners'|, w, c, r, opening)
    {
      NextStep(population, trial, step);
      if step == 0 {
        OpeningIs(trial, opening);
      }
      ghost var price;
      winner, price, chain', winners', prices' := RecordStep(trial, step, prev, chain, winners, prices, start);
    }

    /**
     One attempt: auctions until the steps run out, nobody is awake, or the
     environment is done. Payments only move money around, but for the first.
     Each winner pays the one before it, and each reward goes to the winners of
     the last steps of this attempt alone.
     */
    method RunAuctionActionLoop(trial: TrialInput, ghost first: seq<Bidder>)
      returns (steps: nat, ghost winners: seq<Agent>, ghost prices: seq<real>)
      requires Registered() && first == FirstBidders(trial)
      modifies this`totalRewards, this`events, Members(population)
      ensures Registered() && steps == |winners| == |prices| == Duration(population, trial, 0) && old(events) <= events
      ensures Sales(engine, old(events), events, population, trial, winners, prices)
      ensures Members(winners) <= Members(population)
      ensures forall a :: a in old(population) ==>
        && a.wealth == old(a.wealth) + Income(rewards, trial, winners, prices, a)
        && a.capability == old(a.capability) + Merit(rewards, trial, winners, a)
      ensures totalRewards == old(totalRewards) + Takings(trial, steps)
      ensures Wealth(population) == old(Wealth(population)) + Takings(trial, steps) - OpeningBid(engine, first)
      ensures Capability(population) == old(Capability(population)) + Takings(trial, steps)
    {
      steps, winners, prices := 0, [], [];
      var prev: Agent? := null;
      var chain: seq<Agent> := [];
      ghost var w, c, r, opening := Wealth(population), Capability(population), totalRewards, OpeningBid(engine, first);
      ghost var whole := Duration(population, trial, 0);
      var over := false;
      while steps < engine.maxSteps && !over
        invariant Registered() && old(events) <= events
        invariant |winners| == |prices| == steps <= engine.maxSteps && Members(winners) <= Members(population)
        invariant prev == Latest(winners) && chain == Recent(rewards, winners)
        invariant Sales(engine, old(events), events, population, trial, winners, prices)
        invariant forall a :: a in old(population) ==>
          && a.wealth - Income(rewards, trial, winners, prices, a) == old(a.wealth)
          && a.capability - Merit(rewards, trial, winners, a) == old(a.capability)
        invariant (if over then steps else Duration(population, trial, steps)) == whole
        invariant steps == 0 ==> if over then opening == 0.0 else first == FirstBidders(trial)
        invariant Tallied(trial, steps, w, c, r, opening)
        decreases engine.maxSteps - steps, if over then 0 else 1
      {
        NextStep(population, trial, steps);
        var winner;
        winner, chain, winners, prices :=
          Turn(trial, steps, prev, chain, winners, prices, old(events), w, c, r, opening);
        if winner == null {
          over := true;
        } else {
          steps, prev, over := steps + 1, winner, trial.Step(steps).done;
        }
      }
    }

    // -------------------------------------------------------------- path rewards

    method PathAgents(authors: seq<string>) returns (path: seq<Agent>, ghost at: seq<nat>)
      ensures path == PathOf(population, authors) && Walked(population, authors, path, at)
    {
      at := PathIsWalked(population, authors);
      path := [];
      for i := 0 to |authors|
        invariant path == PathOf(population, authors[..i])
      {
        assert authors[..i + 1][..i] == authors[..i];
        if authors[i] != "" {
          var a := Named(population, authors[i]);
          if a != null {
            path := path + [a];
          }
        }
      }
      assert authors[..|authors|] == authors;
    }

    method PayoutTargets(authors: seq<string>) returns (targets: seq<Agent>)
      ensures PaidOut(rewards, PathOf(population, authors), targets)
      ensures Members(targets) <= Members(population)
      ensures targets != [] <==> PathOf(population, authors) != []
    {
      ghost var at;
      targets, at := PathAgents(authors);
      MembersIn(targets, population);
      if rewards.perUniqueAuthor {
        targets := Unique(targets);
      }
    }

    /** The path reward shared among these agents, repeats included: in all, scale times signal. */
    method PayTargets(targets: seq<Agent>, pay: real)
      requires DistinctAgents(population) && forall a :: a in targets ==> a in population
      modifies this`totalRewards, Members(targets)`wealth, Members(targets)`capability
      ensures forall a :: a in targets ==>
        && a.wealth == old(a.wealth) + TargetShare(rewards, targets, a, pay)
        && a.capability == old(a.capability) + TargetShare(rewards, targets, a, pay)
      ensures totalRewards == old(totalRewards) + if targets != [] then rewards.PathReward(pay) else 0.0
      ensures Wealth(population) == old(Wealth(population)) + (totalRewards - old(totalRewards))
      ensures Capability(population) == old(Capability(population)) + (totalRewards - old(totalRewards))
    {
      var each := rewards.PathRewardPerAgent(pay, |targets|);
      PathSharesAddUp(rewards, pay, |targets|);
      totalRewards := totalRewards + PathTotal(each, |targets|);
      RewardEachWithin(targets, each, population);
    }

    /** The same, seen by everybody: nothing to anyone who is no target. */
    method PayOut(targets: seq<Agent>, pay: real)
      requires Registered() && Members(targets) <= Members(population)
      modifies this`totalRewards, Members(population)`wealth, Members(population)`capability
      ensures Registered()
      ensures forall a :: a in old(population) ==>
        && a.wealth == old(a.wealth) + TargetShare(rewards, targets, a, pay)
        && a.capability == old(a.capability) + TargetShare(rewards, targets, a, pay)
      ensures totalRewards == old(totalRewards) + if targets != [] then rewards.PathReward(pay) else 0.0
      ensures Wealth(population) == old(Wealth(population)) + (totalRewards - old(totalRewards))
      ensures Capability(population) == old(Capability(population)) + (totalRewards - old(totalRewards))
    {
      ToldApart();
      MembersIn(targets, population);
      NoShare(rewards, targets, pay);
      PayTargets(targets, pay);
    }

    /**
     The terminal reward along the path: an equal share to each target, nothing
     to anyone else, and scale times signal in all whenever anyone is paid.
     */
    method ApplyPathRewards(authors: seq<string>, score: Option<real>) returns (ghost targets: seq<Agent>)
      requires Registered()
      modifies this`totalRewards, Members(population)`wealth, Members(population)`capability
      ensures Registered()
      ensures PaidOut(rewards, PathOf(population, authors), targets)
      ensures forall a :: a in old(population) ==>
        && a.wealth == old(a.wealth) + TargetShare(rewards, targets, a, rewards.PayScore(score))
        && a.capability == old(a.capability) + TargetShare(rewards, targets, a, rewards.PayScore(score))
      ensures totalRewards == old(totalRewards)
        + if PathOf(population, authors) != [] then rewards.PathReward(rewards.PayScore(score)) else 0.0
      ensures Wealth(population) == old(Wealth(population)) + (totalRewards - old(totalRewards))
      ensures Capability(population) == old(Capability(population)) + (totalRewards - old(totalRewards))
    {
      var payees := PayoutTargets(authors);
      PayOut(payees, rewards.PayScore(score));
      targets := payees;
    }

    /** A whole trial: the auction loop, then the path rewards. */
    method RunTrial(trial: TrialInput, ghost first: seq<Bidder>) returns (steps: nat, ghost account: Account)
      requires Registered() && first == FirstBidders(trial)
      modifies this`totalRewards, this`events, Members(population)
      ensures Registered() && steps == |account.winners| == Duration(population, trial, 0) && old(events) <= events
      ensures Audited(engine, rewards, population, trial, account) && account.start == old(events) && account.market == events
      ensures forall a :: a in old(population) ==>
        a.wealth == old(a.wealth) + Gain(rewards, trial, account, a)
      ensures totalRewards == old(totalRewards)
        + Takings(trial, steps)
        + (if PathOf(population, trial.authors) != [] then rewards.PathReward(rewards.PayScore(trial.score)) else 0.0)
      ensures Wealth(population) == old(Wealth(population)) + (totalRewards - old(totalRewards)) - OpeningBid(engine, first)
      ensures Capability(population) == old(Capability(population)) + (totalRewards - old(totalRewards))
    {
      ghost var winners, prices;
      steps, winners, prices := RunAuctionActionLoop(trial, first);
      ghost var targets := ApplyPathRewards(trial.authors, trial.score);
      account := Account(winners, prices, targets, old(events), events);
    }

    // -------------------------------------------------------------- bankruptcy

    /** The roles still to be represented. */
    ghost function MissingRoles(): set<string>
      reads this
    {
      Roles(initialAgents) - Roles(population)
    }

    /** Whoever is left after a removal is still told apart and explained. */
    lemma LivingStayRegistered()
      requires Registered()
      ensures Trail(engine.scheme, engine.rules, events) && OnceEach(events) && JoinedBelow(events, nextId)
      ensures Fit(Living(population), nextId) && Entered(Living(population), BookNow())
      ensures Dead(population) == [] ==> Living(population) == population
    {
      EventsExplain();
      LivingIds(population);
      if Dead(population) == [] {
        NoneDead(population);
      }
    }

    lemma DeadCoverRoles()
      ensures MissingRoles() == {} ==>
        var missing := Roles(initialAgents) - Roles(Living(population));
        missing <= Roles(Dead(population)) && |missing| <= |Dead(population)|
    {
      if MissingRoles() == {} {
        DeadCoverMissing(population, Roles(initialAgents));
      }
    }

    lemma BankruptsLeave()
      requires Registered()
      ensures Leave(population, Dead(population), Living(population))
    {
      ToldApart();
      SplitInOrder(population);
    }

    /** Only these stay. */
    method KeepOnly(kept: seq<Agent>)
      requires Trail(engine.scheme, engine.rules, events) && OnceEach(events) && JoinedBelow(events, nextId)
      requires engine.scheme != Unknown && Fit(kept, nextId) && Entered(kept, BookNow())
      modifies this`population
      ensures Registered() && population == kept
    {
      population := kept;
      EventsExplain();
    }

    method SplitOff() returns (removed: seq<Agent>)
      requires Registered()
      modifies this`population, this`bankruptcyCount
      ensures Registered()
      ensures population == old(Living(population)) && removed == old(Dead(population))
      ensures bankruptcyCount == old(bankruptcyCount) + |removed| && |population| + |removed| == |old(population)|
      ensures removed == [] ==> population == old(population)
      ensures old(MissingRoles()) == {} ==> MissingRoles() <= Roles(removed) && |MissingRoles()| <= |removed|
    {
      LivingStayRegistered();
      DeadCoverRoles();
      var kept;
      kept, removed := SplitBankrupts(population);
      KeepOnly(kept);
      bankruptcyCount := bankruptcyCount + |removed|;
    }

    /** Exactly the bankrupts leave. */
    method RemoveBankruptAgents() returns (removed: seq<Agent>)
      requires Registered()
      modifies this`population, this`bankruptcyCount
      ensures Registered()
      ensures population == old(Living(population)) && removed == old(Dead(population))
      ensures Leave(old(population), removed, population)
      ensures bankruptcyCount == old(bankruptcyCount) + |removed| && |population| + |removed| == |old(population)|
      ensures removed == [] ==> population == old(population)
      ensures old(MissingRoles()) == {} ==> MissingRoles() <= Roles(removed) && |MissingRoles()| <= |removed|
    {
      BankruptsLeave();
      removed := SplitOff();
    }

    // -------------------------------------------------------------- births

    predicate CanAddAgent()
      reads this
    {
      Room(engine, |population|)
    }

    /** How an agent enters the economy. */
    ghost predicate Newborn(a: Agent)
      reads a
    {
      a.wealth == engine.initialWealth && a.capability == 0.0 && a.status == Novice && a.bid == Some(0.0)
    }

    /** A birth attempt: an agent nobody has seen, if the factory gives one. */
    method Beget(child: Option<Child>) returns (a: Agent?)
      modifies this`nextId
      ensures nextId == old(nextId) + 1
      ensures a == null <==> child.None?
      ensures a != null ==> fresh(a) && a.id == old(nextId) && IsChild(a, child.value)
    {
      a := null;
      if child.Some? {
        a := new Agent(nextId, child.value.name, child.value.role, None, 0.0);
      }
      nextId := nextId + 1;
    }

    /** Start an agent afresh and let it in. */
    method Enter(a: Agent)
      requires Registered() && a.id < nextId && a.id !in BookNow() && a.id !in Ids(population)
      modifies this`population, this`events, a
      ensures Registered() && old(events) <= events
      ensures population == old(population) + [a] && Newborn(a)
    {
      IdHeld(population, a.id);
      a.Initialize(engine.initialWealth);
      NewcomerExplained(engine.scheme, engine.rules, events, nextId, true, population, a);
      population, events := population + [a], events + [Joined(a.id, a.bid)];
    }

    /** Admit a newborn, if there is one and there is room. */
    method AddBornAgent(a: Agent?) returns (added: bool)
      requires Registered() && (a != null ==> a.id < nextId && a.id !in BookNow() && a.id !in Ids(population))
      modifies this`population, this`events, if a == null then {} else {a}
      ensures Registered() && old(events) <= events
      ensures added <==> a != null && old(CanAddAgent())
      ensures population == if added then old(population) + [a] else old(population)
      ensures added ==> Newborn(a)
    {
      if a == null || !CanAddAgent() { return false; }
      Enter(a);
      return true;
    }

    /** A birth from start to finish. */
    method Birth(child: Option<Child>) returns (born: Agent?)
      requires Registered()
      modifies this`population, this`events, this`nextId
      ensures Registered() && nextId == old(nextId) + 1 && old(events) <= events
      ensures born != null <==> child.Some? && old(CanAddAgent())
      ensures population == if born == null then old(population) else old(population) + [born]
      ensures born != null ==> fresh(born) && Newborn(born) && born.id == old(nextId) && IsChild(born, child.value)
    {
      NextIsNew(engine.scheme, engine.rules, events, nextId, true, population);
      var a := Beget(child);
      var added := AddBornAgent(a);
      born := if added then a else null;
    }

    /** Let in a founder. */
    method Settle(child: Child)
      requires Registered()
      modifies this`population, this`events, this`nextId
      ensures Registered() && old(events) <= events && |population| == |old(population)| + 1
      ensures old(population) <= population
      ensures var a := population[|old(population)|]; fresh(a) && Newborn(a) && IsChild(a, child)
    {
      NextIsNew(engine.scheme, engine.rules, events, nextId, true, population);
      var a := Beget(Some(child));
      Enter(a);
    }

    /** The economy's first agents, who are also its templates. */
    method Found(children: seq<Child>)
      requires Registered() && population == [] && initialAgents == []
      modifies this`population, this`initialAgents, this`events, this`nextId
      ensures Registered() && |population| == |children| && initialAgents == population
      ensures forall i :: 0 <= i < |children| ==>
        fresh(population[i]) && Newborn(population[i]) && IsChild(population[i], children[i])
      ensures children != [] && engine.initialWealth >= 0.0 && (engine.maxAgents <= 0 || |children| <= engine.maxAgents)
        ==> Sound() && Solvent()
    {
      for i := 0 to |children|
        invariant Registered() && |population| == i && initialAgents == []
        invariant forall j :: 0 <= j < i ==>
          fresh(population[j]) && Newborn(population[j]) && IsChild(population[j], children[j])
      {
        Settle(children[i]);
      }
      initialAgents := population;
    }

    // -------------------------------------------------------------- role recovery

    ghost predicate Fits(births: nat)
      reads this
    {
      engine.maxAgents <= 0 || births == 0 || |population| + births <= engine.maxAgents
    }

    /** A recovery that failed names a role with no bankrupt of it, no room, or a factory that gave nothing. */
    ghost predicate Justified(
      recovery: Recovery, roles: set<string>, bankrupts: seq<Agent>, world: Outside, full: bool)
    {
      match recovery
      case Recovered => true
      case MissingCandidate(role) => role in roles && role !in Roles(bankrupts)
      case RespawnFailed(role, attempt) => role in roles && (full || world.bad(attempt, role).None?)
    }

    /** One forced birth, from a bankrupt agent of the role. */
    method ForceBirth(role: string, bankrupts: seq<Agent>, world: Outside) returns (recovery: Recovery)
      requires Registered()
      modifies this`population, this`events, this`nextId
      ensures Registered() && nextId >= old(nextId) && old(events) <= events
      ensures recovery.Recovered? ==>
        && |population| == |old(population)| + 1 && old(population) <= population
        && (forall a :: a in population ==> a in old(population) || (fresh(a) && Newborn(a) && a.id >= old(nextId)))
        && MissingRoles() == old(MissingRoles()) - {role}
        && role in Roles(bankrupts) && old(CanAddAgent())
        && population[|old(population)|].role == role
        && world.bad(old(nextId), role) == Some(population[|old(population)|].name)
      ensures !recovery.Recovered? ==> population == old(population)
      ensures Justified(recovery, {role}, bankrupts, world, !old(CanAddAgent()))
    {
      var candidates := WithRole(bankrupts, role);
      if candidates == [] {
        return MissingCandidate(role);
      }
      var source := candidates[world.pick(nextId) % |candidates|];
      assert source in candidates;
      var attempt, name := nextId, world.bad(nextId, role);
      var born := Birth(if name.Some? then Some(Child(source.role, name.value)) else None);
      if born == null {
        return RespawnFailed(role, attempt);
      }
      RolesOfAppend(old(population), born);
      assert MissingRoles() == old(MissingRoles()) - {role};
      return Recovered;
    }

    /** A forced birth for one of the missing roles. */
    method ForceOne(todo: set<string>, bankrupts: seq<Agent>, world: Outside) returns (recovery: Recovery, rest: set<string>)
      requires Registered() && todo == MissingRoles() && todo != {}
      modifies this`population, this`events, this`nextId
      ensures Registered() && nextId >= old(nextId) && old(events) <= events && old(population) <= population
      ensures rest <= todo && rest == MissingRoles() && |population| + |rest| == |old(population)| + |todo|
      ensures forall a :: a in population ==> a in old(population) || (fresh(a) && Newborn(a) && a.id >= old(nextId))
      ensures forall role :: role in todo ==> role in rest || role in Roles(bankrupts)
      ensures recovery.Recovered? ==> |rest| + 1 == |todo| && old(CanAddAgent())
      ensures !recovery.Recovered? ==> population == old(population) && rest == todo
      ensures Justified(recovery, todo, bankrupts, world, !old(CanAddAgent()))
    {
      var role :| role in todo;
      recovery := ForceBirth(role, bankrupts, world);
      rest := if recovery.Recovered? then todo - {role} else todo;
    }

    /** What forced births have left of the roles still to be filled. */
    ghost predicate Filling(missing: set<string>, todo: set<string>, bankrupts: seq<Agent>, size: nat)
      reads this
    {
      && todo == MissingRoles() && |population| + |todo| == size + |missing|
      && todo <= missing <= todo + Roles(bankrupts)
      && (engine.maxAgents <= 0 || |population| == size || |population| <= engine.maxAgents)
    }

    /** A forced birth for each missing role in turn, until one fails. */
    method ForceEach(missing: set<string>, bankrupts: seq<Agent>, world: Outside)
      returns (recovery: Recovery, todo: set<string>)
      requires Registered() && missing == MissingRoles()
      modifies this`population, this`events, this`nextId
      ensures Registered() && nextId >= old(nextId) && old(events) <= events && old(population) <= population
      ensures forall a :: a in population ==> a in old(population) || (fresh(a) && Newborn(a) && a.id >= old(nextId))
      ensures Filling(missing, todo, bankrupts, |old(population)|) && (recovery.Recovered? <==> todo == {})
      ensures Justified(recovery, todo, bankrupts, world, 0 < engine.maxAgents <= |population|)
    {
      todo, recovery := missing, Recovered;
      while todo != {} && recovery.Recovered?
        invariant Registered() && nextId >= old(nextId) && old(events) <= events && old(population) <= population
        invariant forall a :: a in population ==> a in old(population) || (fresh(a) && Newborn(a) && a.id >= old(nextId))
        invariant Filling(missing, todo, bankrupts, |old(population)|)
        invariant recovery.Recovered? || todo != {}
        invariant Justified(recovery, todo, bankrupts, world, 0 < engine.maxAgents <= |population|)
        decreases |todo|, if recovery.Recovered? then 1 else 0
      {
        ghost var size, rest := |population|, todo;
        recovery, todo := ForceOne(todo, bankrupts, world);
        StillFilling(missing, rest, todo, bankrupts, |old(population)|, size, recovery);
      }
    }

    lemma StillFilling(
      missing: set<string>, rest: set<string>, todo: set<string>, bankrupts: seq<Agent>, size: nat, last: nat,
      recovery: Recovery)
      requires rest <= missing <= rest + Roles(bankrupts) && last + |rest| == size + |missing|
      requires engine.maxAgents <= 0 || last == size || last <= engine.maxAgents
      requires todo == MissingRoles() && todo <= rest && |population| + |todo| == last + |rest|
      requires forall role :: role in rest ==> role in todo || role in Roles(bankrupts)
      requires |population| != last ==> engine.maxAgents <= 0 || last < engine.maxAgents
      requires |population| <= last + 1
      ensures Filling(missing, todo, bankrupts, size)
    {
    }

    method ForceBirths(missing: set<string>, bankrupts: seq<Agent>, world: Outside) returns (recovery: Recovery)
      requires Registered() && missing == MissingRoles()
      modifies this`population, this`events, this`nextId
      ensures Registered() && old(events) <= events && (forall a :: a in old(population) ==> a in population)
      ensures forall a :: a in population ==> a in old(population) || (fresh(a) && Newborn(a) && a.id >= old(nextId))
      ensures recovery.Recovered? && missing == {} ==> population == old(population)
      ensures recovery.Recovered? ==>
        && MissingRoles() == {} && |population| == |old(population)| + |missing| && missing <= Roles(bankrupts)
        && (engine.maxAgents <= 0 || missing == {} || |population| <= engine.maxAgents)
      ensures Justified(recovery, missing, bankrupts, world, 0 < engine.maxAgents < |old(population)| + |missing|)
    {
      var todo;
      recovery, todo := ForceEach(missing, bankrupts, world);
      assert todo != {} ==> |todo| > 0;
    }

    /**
     One forced birth for every missing role, from a bankrupt agent of that role.
     It succeeds when every missing role has such an agent, the births fit under
     the cap and the factory delivers; otherwise the result says what was wrong.
     */
    method EnsureNecessaryRolesExist(bankrupts: seq<Agent>, world: Outside) returns (recovery: Recovery)
      requires Registered()
      modifies this`population, this`events, this`nextId
      ensures Registered() && old(events) <= events && (forall a :: a in old(population) ==> a in population)
      ensures forall a :: a in population ==> a in old(population) || (fresh(a) && Newborn(a) && a.id >= old(nextId))
      ensures recovery.Recovered? && old(MissingRoles()) == {} ==> population == old(population)
      ensures recovery.Recovered? ==>
        && MissingRoles() == {} && |population| == |old(population)| + |old(MissingRoles())|
        && old(MissingRoles()) <= Roles(bankrupts) && old(Fits(|MissingRoles()|))
      ensures Justified(recovery, old(MissingRoles()), bankrupts, world, !old(Fits(|MissingRoles()|)))
    {
      recovery := ForceBirths(Roles(initialAgents) - Roles(population), bankrupts, world);
    }

    /**
     What holds between trials: agents are told apart, every initial role is
     represented, the cap is kept, and newborns are solvent.
     */
    ghost predicate Sound()
      reads this, population
    {
      && Registered() && initialAgents != [] && MissingRoles() == {}
      && (engine.maxAgents <= 0 || |population| <= engine.maxAgents)
      && engine.initialWealth >= 0.0
    }

    /** What holds between episodes besides: nobody is in debt. */
    ghost predicate Solvent()
      reads this, population
    {
      forall a :: a in population ==> a.wealth >= 0.0
    }

    /** The factory delivers on every forced birth. */
    ghost predicate Reliable(world: Outside)
      reads this`initialAgents
    {
      forall k, role :: role in Roles(initialAgents) ==> world.bad(k, role).Some?
    }

    /** Role recovery from bankrupts that cover the missing roles cannot fail. */
    method RecoverRoles(bankrupts: seq<Agent>, world: Outside)
      requires Registered() && initialAgents != [] && engine.initialWealth >= 0.0 && Reliable(world)
      requires MissingRoles() <= Roles(bankrupts) && Fits(|MissingRoles()|)
      requires engine.maxAgents <= 0 || |population| <= engine.maxAgents
      modifies this`population, this`events, this`nextId
      ensures Sound() && population != [] && old(events) <= events && (forall a :: a in old(population) ==> a in population)
      ensures old(MissingRoles()) == {} ==> population == old(population)
      ensures forall a :: a in population ==> a in old(population) || (fresh(a) && Newborn(a) && a.id >= old(nextId))
    {
      var recovery := EnsureNecessaryRolesExist(bankrupts, world);
      assert recovery.Recovered?;
      RolesOfPrefix([initialAgents[0]], initialAgents);
      assert Roles(population) != {};
    }

    /** Remove the bankrupts and recover their roles: this never fails, and never needs more room. */
    method SettleBankruptcies(world: Outside) returns (removed: seq<Agent>)
      requires Sound() && Reliable(world)
      modifies this`population, this`events, this`bankruptcyCount, this`nextId
      ensures Sound() && Solvent() && population != [] && old(events) <= events
      ensures Leave(old(population), removed, population) && (removed == [] ==> population == old(population))
      ensures forall a :: a in old(population) ==> (a in population <==> !old(a.Bankrupt()))
      ensures forall a :: a in population ==> a in old(population) || (fresh(a) && Newborn(a) && a.id >= old(nextId))
    {
      removed := RemoveBankruptAgents();
      ghost var living := population;
      RecoverRoles(removed, world);
      LeaveStill(old(population), removed, living, population);
    }

    // -------------------------------------------------------------- rollback and replay

    /** The snapshot a trial may be rolled back to, by agent id. */
    method TakeSnapshot() returns (snapshot: map<nat, Saved>)
      requires Registered()
      ensures forall a :: a in population ==> a.id in snapshot && snapshot[a.id] == Saved(a.wealth, a.capability)
      ensures forall k :: k in snapshot ==> k < nextId
    {
      EventsExplain();
      snapshot := map[];
      for i := 0 to |population|
        invariant forall k :: k in snapshot ==> k < nextId
        invariant forall a :: a in population[..i] ==>
          a.id in snapshot && snapshot[a.id] == Saved(a.wealth, a.capability)
      {
        var a := population[i];
        IdHeld(population, a.id);
        forall b | b in population && b.id == a.id ensures b == a {
          SameIdSame(population, a, b);
        }
        snapshot := snapshot[a.id := Saved(a.wealth, a.capability)];
      }
      assert population[..|population|] == population;
    }

    /** Put back what was saved; agents the snapshot does not know keep what they have. */
    method Restore(snapshot: map<nat, Saved>)
      modifies Members(population)`wealth, Members(population)`capability
      ensures forall a :: a in population ==>
        Saved(a.wealth, a.capability) ==
        if a.id in snapshot then snapshot[a.id] else old(Saved(a.wealth, a.capability))
    {
      for i := 0 to |population|
        invariant forall a :: a in population && a.id !in snapshot ==>
          Saved(a.wealth, a.capability) == old(Saved(a.wealth, a.capability))
        invariant forall a :: a in population[..i] && a.id in snapshot ==>
          Saved(a.wealth, a.capability) == snapshot[a.id]
      {
        var a := population[i];
        assert a in Members(population);
        if a.id in snapshot {
          a.wealth := snapshot[a.id].wealth;
          a.capability := snapshot[a.id].capability;
        }
      }
      assert population[..|population|] == population;
    }

    /** Undo a trial's money: saved agents get theirs back, and so does the reward total. */
    method RollBack(snapshot: map<nat, Saved>, total: real)
      requires Sound()
      modifies this`totalRewards, Members(population)`wealth, Members(population)`capability
      ensures Sound() && totalRewards == total
      ensures forall a :: a in population ==>
        Saved(a.wealth, a.capability) ==
        if a.id in snapshot then snapshot[a.id] else old(Saved(a.wealth, a.capability))
    {
      Restore(snapshot);
      totalRewards := total;
    }

    /** A trial leaves a sound economy as sound as it was. */
    method SoundTrial(trial: TrialInput, ghost first: seq<Bidder>) returns (steps: nat, ghost account: Account)
      requires Sound() && first == FirstBidders(trial)
      modifies this`totalRewards, this`events, Members(population)
      ensures Sound() && steps == Duration(population, trial, 0) && old(events) <= events
      ensures Audited(engine, rewards, population, trial, account) && account.start == old(events) && account.market == events
      ensures forall a :: a in old(population) ==> a.wealth == old(a.wealth) + Gain(rewards, trial, account, a)
      ensures Wealth(population) == old(Wealth(population)) + (totalRewards - old(totalRewards)) - OpeningBid(engine, first)
      ensures Capability(population) == old(Capability(population)) + (totalRewards - old(totalRewards))
    {
      steps, account := RunTrial(trial, first);
    }

    /** Settling bankruptcies, if there are none, changes nothing. */
    method SettleQuietly(world: Outside) returns (removed: seq<Agent>)
      requires Sound() && Reliable(world)
      modifies this`population, this`events, this`bankruptcyCount, this`nextId
      ensures Sound() && Solvent() && population != [] && old(events) <= events
      ensures Leave(old(population), removed, population) && (removed == [] ==> population == old(population))
      ensures forall a :: a in old(population) ==> (a in population <==> !old(a.Bankrupt()))
      ensures forall a :: a in population ==> a in old(population) || (fresh(a) && Newborn(a) && a.id >= old(nextId))
      ensures removed == [] ==>
        Wealth(population) == old(Wealth(population)) && Capability(population) == old(Capability(population))
    {
      removed := SettleBankruptcies(world);
    }

    /** A trial and its credit check, before any rollback. */
    method TryOut(trial: TrialInput, world: Outside, ghost first: seq<Bidder>)
      returns (removed: seq<Agent>, steps: nat, ghost account: Account)
      requires Sound() && Reliable(world) && first == FirstBidders(trial)
      modifies this`totalRewards, this`population, this`events, this`bankruptcyCount, this`nextId
      modifies Members(population)
      ensures Sound() && Solvent() && population != [] && steps == Duration(old(population), trial, 0)
      ensures old(events) <= events
      ensures Audited(engine, rewards, old(population), trial, account)
      ensures account.start == old(events) && account.market <= events
      ensures Leave(old(population), removed, population) && (removed == [] ==> population == old(population))
      ensures forall a :: a in old(population) ==>
        && a.wealth == old(a.wealth) + Gain(rewards, trial, account, a)
        && (a in population <==> a.wealth >= 0.0)
      ensures removed == [] ==>
        Wealth(population) == old(Wealth(population)) + (totalRewards - old(totalRewards)) - OpeningBid(engine, first)
      ensures removed == [] ==>
        Capability(population) == old(Capability(population)) + (totalRewards - old(totalRewards))
      ensures forall a :: a in population ==> a in old(population) || (fresh(a) && Newborn(a) && a.id >= old(nextId))
    {
      steps, account := SoundTrial(trial, first);
      removed := SettleQuietly(world);
    }

    /**
     One trial with its credit check. Without bankruptcies it stands; with them,
     everyone who was there and survived has exactly what it had before, everyone
     else is newly born, and the rewards are taken back.
     */
    method Attempt(trial: TrialInput, world: Outside, ghost first: seq<Bidder>)
      returns (removed: seq<Agent>, steps: nat, ghost account: Account)
      requires Sound() && Reliable(world) && first == FirstBidders(trial)
      modifies this`totalRewards, this`population, this`events, this`bankruptcyCount, this`nextId
      modifies Members(population)
      ensures Sound() && population != [] && steps == Duration(old(population), trial, 0) && old(events) <= events
      ensures Audited(engine, rewards, old(population), trial, account)
      ensures account.start == old(events) && account.market <= events
      ensures Leave(old(population), removed, population)
      ensures forall a :: a in old(population) ==>
        (a in population <==> old(a.wealth) + Gain(rewards, trial, account, a) >= 0.0)
      ensures removed == [] ==> forall a :: a in old(population) ==> a.wealth == old(a.wealth) + Gain(rewards, trial, account, a)
      ensures removed == [] ==>
        && population == old(population) && Solvent()
        && Wealth(population) == old(Wealth(population)) + (totalRewards - old(totalRewards)) - OpeningBid(engine, first)
        && Capability(population) == old(Capability(population)) + (totalRewards - old(totalRewards))
      ensures removed != [] ==>
        && totalRewards == old(totalRewards)
        && forall a :: a in population ==>
          if a in old(population) then a.wealth == old(a.wealth) && a.capability == old(a.capability)
          else fresh(a) && a.wealth == engine.initialWealth && a.capability == 0.0
    {
      var snapshot := TakeSnapshot();
      var total := totalRewards;
      removed, steps, account := TryOut(trial, world, first);
      if removed != [] {
        assert |population| > 0;
        RollBack(snapshot, total);
      }
    }

    lemma FirstBiddersFrom(trial: TrialInput)
      requires Registered()
      ensures FirstBidders(trial) == BiddersFrom(population, trial.Step(0).awake, BookNow(), Wealths(population))
    {
      EventsExplain();
      AwakeViewFrom(population, trial.Step(0).awake, BookNow());
    }

    /** The economy as it is, as an episode's outset. */
    ghost function Now(): Outset
      reads this`population, this`events, population
    {
      Outset(engine, rewards, population, Wealths(population), Capabilities(population), events)
    }

    /** Whoever is there holds what it held at the outset, or what a newborn holds. */
    ghost predicate Reset(outset: Outset)
      reads this, population
    {
      forall a :: a in population ==> a.wealth == outset.Purse(a) && a.capability == outset.Renown(a)
    }

    lemma ResetNow()
      ensures Reset(Now())
    {
      forall a | a in population ensures a.wealth == Now().Purse(a) && a.capability == Now().Renown(a) {
        LookupIs(population, Wealths(population), engine.initialWealth, a);
        LookupIs(population, Capabilities(population), 0.0, a);
      }
    }

    twostate lemma StillReset(outset: Outset)
      requires old(Reset(outset)) && outset.engine == engine
      requires |outset.wealth| == |outset.capability| == |outset.agents|
      requires forall a :: a in outset.agents ==> old(allocated(a))
      requires forall a :: a in population ==>
        if a in old(population) then a.wealth == old(a.wealth) && a.capability == old(a.capability)
        else fresh(a) && a.wealth == engine.initialWealth && a.capability == 0.0
      ensures Reset(outset)
    {
      forall a | a in population ensures a.wealth == outset.Purse(a) && a.capability == outset.Renown(a) {
        LookupIs(outset.agents, outset.wealth, engine.initialWealth, a);
        LookupIs(outset.agents, outset.capability, 0.0, a);
      }
    }

    lemma ResetSolvent(outset: Outset)
      requires Reset(outset) && |outset.wealth| == |outset.agents| && outset.engine.initialWealth >= 0.0
      requires forall i :: 0 <= i < |outset.agents| ==> outset.wealth[i] >= 0.0
      ensures Solvent()
    {
      forall a | a in population ensures a.wealth >= 0.0 {
        LookupIs(outset.agents, outset.wealth, outset.engine.initialWealth, a);
      }
    }

    lemma ResetSums(outset: Outset)
      requires Reset(outset)
      ensures Wealths(population) == outset.Purses(population)
      ensures Wealth(population) == Sum(outset.Purses(population))
      ensures Capability(population) == Sum(outset.Renowns(population))
    {
      TotalsAreSums(population);
      assert Wealths(population) == outset.Purses(population);
      assert Capabilities(population) == outset.Renowns(population);
    }

    /** The outset of an episode of this economy. */
    ghost predicate Ours(outset: Outset) {
      outset.engine == engine && outset.rewards == rewards && |outset.wealth| == |outset.capability| == |outset.agents|
    }

    /**
     What a trial without bankruptcies has left, its ledger starting from everyone's
     holdings at the outset: everybody has what it brought them, and the totals have
     moved by the rewards less the first winner's bid.
     */
    ghost predicate Stands(outset: Outset, trial: TrialInput, t: Attempted, total: real)
      reads this, population
    {
      && t.agents == population
      && (forall a :: a in population ==> a.wealth == outset.Purse(a) + Gain(rewards, trial, t.account, a))
      && Wealth(population) == Sum(outset.Purses(population)) + (totalRewards - total) - outset.Opening(trial, t)
      && Capability(population) == Sum(outset.Renowns(population)) + (totalRewards - total)
    }

    /** Who bids first, seen from the outset. */
    lemma OpeningFrom(outset: Outset, trial: TrialInput, t: Attempted)
      requires Registered() && Ours(outset) && Reset(outset) && t.agents == population && t.account.start == events
      ensures OpeningBid(engine, FirstBidders(trial)) == outset.Opening(trial, t)
    {
      FirstBiddersFrom(trial);
      ResetSums(outset);
    }

    /** An attempt, and whom it ruins. */
    method RuinousAttempt(trial: TrialInput, world: Outside, ghost outset: Outset)
      returns (removed: seq<Agent>, ghost t: Attempted)
      requires Sound() && Reliable(world) && Ours(outset) && Reset(outset)
      modifies this`totalRewards, this`population, this`events, this`bankruptcyCount, this`nextId
      modifies Members(population)
      ensures Sound() && old(events) <= events
      ensures t.agents == old(population) && t.removed == removed && outset.Ruins(trial, t, population)
      ensures t.account.start == old(events) && t.account.market <= events
      ensures removed == [] ==>
        && population == old(population) && Solvent()
        && (forall a :: a in old(population) ==> a.wealth == old(a.wealth) + Gain(rewards, trial, t.account, a))
        && Wealth(population) ==
           old(Wealth(population)) + (totalRewards - old(totalRewards)) - OpeningBid(engine, old(FirstBidders(trial)))
        && Capability(population) == old(Capability(population)) + (totalRewards - old(totalRewards))
      ensures removed != [] ==>
        && totalRewards == old(totalRewards)
        && forall a :: a in population ==>
          if a in old(population) then a.wealth == old(a.wealth) && a.capability == old(a.capability)
          else fresh(a) && a.wealth == engine.initialWealth && a.capability == 0.0
    {
      ghost var agents := population;
      var steps;
      ghost var account;
      removed, steps, account := Attempt(trial, world, FirstBidders(trial));
      t := Attempted(agents, account, removed);
    }

    /** An attempt, seen from the outset. */
    method NextAttempt(trial: TrialInput, world: Outside, ghost outset: Outset) returns (removed: seq<Agent>, ghost t: Attempted)
      requires Sound() && Reliable(world) && Ours(outset) && Reset(outset)
      modifies this`totalRewards, this`population, this`events, this`bankruptcyCount, this`nextId
      modifies Members(population)
      ensures Sound() && old(events) <= events
      ensures forall a :: a in population ==> a in old(population) || fresh(a)
      ensures t.agents == old(population) && t.removed == removed && outset.Ruins(trial, t, population)
      ensures t.account.start == old(events) && t.account.market <= events
      ensures removed == [] ==> Solvent() && Stands(outset, trial, t, old(totalRewards))
      ensures removed != [] ==> Reset(outset) && totalRewards == old(totalRewards)
    {
      ghost var was := Attempted(population, Account([], [], [], events, events), []);
      OpeningFrom(outset, trial, was);
      ResetSums(outset);
      removed, t := RuinousAttempt(trial, world, outset);
      assert outset.Opening(trial, was) == outset.Opening(trial, t);
      if removed != [] {
        StillReset(outset);
      }
    }

    /** What the accepted trial has left. */
    ghost predicate Settled(outset: Outset, world: Outside, attempts: seq<Attempted>, total: real)
      reads this, population
    {
      Accepted(attempts) && Stands(outset, world.Trial(|attempts| - 1), attempts[|attempts| - 1], total)
    }

    /** The trials so far have all failed, and left no trace but in who is there and on the market. */
    ghost predicate Trying(outset: Outset, world: Outside, attempts: seq<Attempted>)
      reads this, population
    {
      Ours(outset) && outset.Replayed(world, attempts, population, events) && AllFailed(attempts) && Reset(outset)
    }

    /** An attempt, added to the record of the failed ones before. */
    method ReplayOnce(world: Outside, k: nat, ghost outset: Outset, ghost attempts: seq<Attempted>)
      returns (removed: seq<Agent>, ghost attempts': seq<Attempted>)
      requires Sound() && Reliable(world) && Trying(outset, world, attempts) && |attempts| == k
      modifies this`totalRewards, this`population, this`events, this`bankruptcyCount, this`nextId
      modifies Members(population)
      ensures Sound() && old(events) <= events && (removed == [] ==> Solvent())
      ensures forall a :: a in population ==> a in old(population) || fresh(a)
      ensures |attempts'| == k + 1 && attempts'[..k] == attempts && Ruined(attempts') == Ruined(attempts) + removed
      ensures outset.Replayed(world, attempts', population, events) && (Accepted(attempts') <==> removed == [])
      ensures if removed == [] then Settled(outset, world, attempts', old(totalRewards))
              else Trying(outset, world, attempts') && totalRewards == old(totalRewards)
    {
      ghost var t;
      removed, t := NextAttempt(world.Trial(k), world, outset);
      outset.ReplayedNext(world, attempts, t, population, events);
      FailedNext(attempts, t);
      attempts' := attempts + [t];
    }

    /**
     Attempts until one goes through without a bankruptcy or the trials run out.
     Every one is on record: who was there, who won its steps at what price, and
     whom it ruined. Only the accepted one leaves a trace: its ledger starts from
     everyone's holdings before the episode, and without one those still stand. Its
     opening bid is that of its awake agents with those holdings and with the bids
     and statuses the book had by then: those of before the episode, and what the
     auctions and births of failed trials made of them.
     */
    method ReplayLoop(world: Outside)
      returns (accepted: bool, trials: nat, removed: seq<Agent>, ghost attempts: seq<Attempted>)
      requires Sound() && Solvent() && Reliable(world)
      modifies this`totalRewards, this`population, this`events, this`bankruptcyCount, this`nextId, Members(population)
      ensures Sound() && Solvent() && old(events) <= events
      ensures forall a :: a in population ==> a in old(population) || fresh(a)
      ensures old(Now()).Recorded(world, attempts, population, events) && removed == Ruined(attempts)
      ensures accepted == Accepted(attempts) && |attempts| == if accepted then trials + 1 else trials
      ensures if accepted then Settled(old(Now()), world, attempts, old(totalRewards))
              else Reset(old(Now())) && totalRewards == old(totalRewards)
    {
      accepted, removed, trials, attempts := false, [], 0, [];
      ghost var outset := Now();
      ResetNow();
      while trials < engine.maxTrials
        invariant Sound() && trials <= engine.maxTrials && old(events) <= events
        invariant forall a :: a in population ==> a in old(population) || fresh(a)
        invariant !accepted && totalRewards == old(totalRewards) && |attempts| == trials && removed == Ruined(attempts)
        invariant Trying(outset, world, attempts)
      {
        var gone;
        gone, attempts := ReplayOnce(world, trials, outset, attempts);
        if gone == [] {
          accepted := true;
          break;
        }
        removed := removed + gone;
        trials := trials + 1;
      }
      if !accepted {
        ResetSolvent(outset);
      }
    }

    // -------------------------------------------------------------- rent

    method CollectRent()
      requires DistinctAgents(population)
      modifies Members(population)`wealth
      ensures forall a :: a in population ==> a.wealth == old(a.wealth) - engine.rent
    {
      for i := 0 to |population|
        invariant forall j :: 0 <= j < i ==> population[j].wealth == old(population[j].wealth) - engine.rent
        invariant forall j :: i <= j < |population| ==> population[j].wealth == old(population[j].wealth)
      {
        forall j | 0 <= j < |population| && j != i ensures population[j] != population[i] {
          DistinctApart(population, if i < j then i else j, if i < j then j else i);
        }
        assert population[i] in Members(population);
        population[i].LoseMoney(engine.rent);
      }
    }

    /** Rent: exactly those who cannot pay leave, the others pay, and the roles are recovered. */
    method ChargeRent(world: Outside) returns (removed: seq<Agent>)
      requires Sound() && Reliable(world)
      modifies this`population, this`events, this`bankruptcyCount, this`nextId, Members(population)`wealth
      ensures Sound() && Solvent() && old(events) <= events && Leave(old(population), removed, population)
      ensures forall a :: a in old(population) ==> (a in population <==> old(a.wealth) >= engine.rent)
      ensures forall a :: a in population ==>
        if a in old(population) then a.wealth == old(a.wealth) - engine.rent else fresh(a) && Newborn(a)
    {
      ToldApart();
      CollectRent();
      removed := SettleBankruptcies(world);
    }

    // -------------------------------------------------------------- voluntary births

    /** What a stretch of voluntary births keeps. */
    twostate predicate OnlyGrew()
      reads this, population
    {
      && Sound() && (old(Solvent()) ==> Solvent()) && old(population) <= population && old(events) <= events
      && forall a :: a in population ==> a in old(population) || (fresh(a) && Newborn(a))
    }

    /** These births were tried, and nothing else happened. */
    twostate predicate Bred(world: Outside, new tries: seq<Try>)
      reads this, population
    {
      && OnlyGrew() && nextId == old(nextId) + |tries|
      && Born(engine, world, old(nextId), old(population), tries, population)
    }

    /** One birth is tried. */
    method Admit(world: Outside, t: Try)
      requires Sound()
      modifies this`population, this`events, this`nextId
      ensures OnlyGrew() && nextId == old(nextId) + 1
      ensures var child := ChildOf(world, old(nextId), t);
        if child.Some? && old(CanAddAgent()) then
          |population| == |old(population)| + 1 && IsChild(population[|old(population)|], child.value)
        else population == old(population)
    {
      var born := Birth(ChildOf(world, nextId, t));
      RolesOfPrefix(old(population), population);
    }

    lemma SomebodyLives()
      requires Sound()
      ensures population != []
    {
      RolesOfPrefix([initialAgents[0]], initialAgents);
      assert Roles(population) != {};
    }

    /** One more birth is tried after these. */
    method Breed(world: Outside, t: Try, ghost id: nat, ghost agents: seq<Agent>, ghost tries: seq<Try>)
      requires Sound() && nextId == id + |tries| && Born(engine, world, id, agents, tries, population)
      modifies this`population, this`events, this`nextId
      ensures OnlyGrew() && nextId == old(nextId) + 1
      ensures Born(engine, world, id, agents, tries + [t], population)
      ensures LastSize(engine, world, id, |agents|, tries + [t]) == |old(population)|
    {
      Admit(world, t);
      BornNext(engine, world, id, agents, tries, old(population), t, population);
      LastSizeIs(engine, world, id, agents, tries, old(population), t);
    }

    /** A bankrupt's chance: a child of the richest, a repair of the bankrupt, or nothing. */
    method FateBirth(draw: real, bankrupt: Agent, world: Outside, ghost id: nat, ghost agents: seq<Agent>, ghost tries: seq<Try>)
      returns (ghost t: Option<Try>)
      requires Sound() && engine.evolution.Valid()
      requires nextId == id + |tries| && Born(engine, world, id, agents, tries, population)
      modifies this`population, this`events, this`nextId
      ensures OnlyGrew() && nextId == old(nextId) + if t.Some? then 1 else 0
      ensures Born(engine, world, id, agents, if t.Some? then tries + [t.value] else tries, population)
      ensures t.None? <==> draw >= engine.evolution.good + engine.evolution.bad
      ensures draw < engine.evolution.good ==>
        t.value.good && t.value.source in old(population) && old(IsRichest(population, t.value.source))
      ensures engine.evolution.good <= draw < engine.evolution.good + engine.evolution.bad ==>
        t.value == Try(false, bankrupt)
    {
      t := None;
      if draw < engine.evolution.good {
        SomebodyLives();
        var best := Richest(population);
        if best != null {
          t := Some(Try(true, best));
          Breed(world, Try(true, best), id, agents, tries);
        }
      } else if draw < engine.evolution.good + engine.evolution.bad {
        t := Some(Try(false, bankrupt));
        Breed(world, Try(false, bankrupt), id, agents, tries);
      }
    }

    /** The chance of the next bankrupt, after these. */
    method NextFate(
      i: nat, bankrupt: Agent, world: Outside, ghost ruined: seq<Agent>, ghost id: nat, ghost agents: seq<Agent>,
      ghost tries: seq<Try>)
      returns (ghost tries': seq<Try>)
      requires Sound() && engine.evolution.Valid() && i == |ruined|
      requires nextId == id + |tries| && Born(engine, world, id, agents, tries, population)
      requires Fated(engine, world, ruined, tries)
      modifies this`population, this`events, this`nextId
      ensures OnlyGrew() && nextId == id + |tries'| && Born(engine, world, id, agents, tries', population)
      ensures Fated(engine, world, ruined + [bankrupt], tries')
    {
      ghost var t := FateBirth(world.fate(i), bankrupt, world, id, agents, tries);
      FatedNext(engine, world, ruined, tries, bankrupt, t);
      tries' := if t.Some? then tries + [t.value] else tries;
    }

    /** One chance of birth for each agent that went bankrupt. */
    method ResolveBankruptcyBirths(bankrupts: seq<Agent>, world: Outside) returns (ok: bool, ghost tries: seq<Try>)
      requires Sound()
      modifies this`population, this`events, this`nextId
      ensures ok <==> |bankrupts| == 0 || engine.evolution.Valid()
      ensures Bred(world, tries) && FateBirths(engine, world, bankrupts, tries)
    {
      tries := [];
      NoneBorn(engine, world, nextId, population);
      if |bankrupts| == 0 { return true, tries; }
      if !engine.evolution.Valid() { return false, tries; }
      for i := 0 to |bankrupts|
        invariant OnlyGrew() && nextId == old(nextId) + |tries|
        invariant Born(engine, world, old(nextId), old(population), tries, population)
        invariant Fated(engine, world, bankrupts[..i], tries)
      {
        assert bankrupts[..i + 1] == bankrupts[..i] + [bankrupts[i]];
        tries := NextFate(i, bankrupts[i], world, bankrupts[..i], old(nextId), old(population), tries);
      }
      assert bankrupts[..|bankrupts|] == bankrupts;
      return true, tries;
    }

    /** A birth in season: a child of the richest or a repair of the poorest. */
    method SeasonalBirth(draw: real, world: Outside, ghost id: nat, ghost agents: seq<Agent>, ghost tries: seq<Try>)
      returns (ghost t: Try)
      requires Sound() && nextId == id + |tries| && Born(engine, world, id, agents, tries, population)
      modifies this`population, this`events, this`nextId
      ensures OnlyGrew() && nextId == old(nextId) + 1 && Born(engine, world, id, agents, tries + [t], population)
      ensures LastSize(engine, world, id, |agents|, tries + [t]) == |old(population)|
      ensures t.source in old(population)
      ensures if draw < engine.evolution.seasonalGood then t.good && old(IsRichest(population, t.source))
              else !t.good && old(IsPoorest(population, t.source))
    {
      SomebodyLives();
      var agent: Agent? := null;
      if draw < engine.evolution.seasonalGood {
        agent := Richest(population);
      } else {
        agent := Poorest(population);
      }
      if agent != null {
        t := Try(draw < engine.evolution.seasonalGood, agent);
        Breed(world, Try(draw < engine.evolution.seasonalGood, agent), id, agents, tries);
      }
    }

    /** The season's next birth. */
    method NextInSeason(i: nat, world: Outside, ghost id: nat, ghost agents: seq<Agent>, ghost tries: seq<Try>)
      returns (ghost tries': seq<Try>)
      requires Sound() && CanAddAgent() && i == |tries|
      requires nextId == id + |tries| && Born(engine, world, id, agents, tries, population) && Seasoned(engine, world, tries)
      modifies this`population, this`events, this`nextId
      ensures OnlyGrew() && nextId == id + |tries'| && Born(engine, world, id, agents, tries', population)
      ensures |tries'| == i + 1 && Seasoned(engine, world, tries')
      ensures Room(engine, LastSize(engine, world, id, |agents|, tries'))
    {
      ghost var t := SeasonalBirth(world.season(i), world, id, agents, tries);
      SeasonedNext(engine, world, tries, t);
      tries' := tries + [t];
    }

    /** The births of a season, as long as there is room. */
    method PeriodicBirths(world: Outside) returns (ok: bool, ghost tries: seq<Try>)
      requires Sound()
      modifies this`population, this`events, this`nextId
      ensures ok <==> engine.evolution.Valid()
      ensures Bred(world, tries)
      ensures SeasonBirths(engine, world, true, old(nextId), |old(population)|, tries, |population|)
    {
      tries := [];
      NoneBorn(engine, world, nextId, population);
      if !engine.evolution.Valid() { return false, tries; }
      var full := false;
      for i := 0 to engine.birthsPerInterval
        invariant OnlyGrew() && nextId == old(nextId) + |tries|
        invariant Born(engine, world, old(nextId), old(population), tries, population)
        invariant if full then !CanAddAgent() && |tries| <= i else |tries| == i
        invariant Seasoned(engine, world, tries)
        invariant tries != [] ==>
          Room(engine, |old(population)|) && Room(engine, LastSize(engine, world, old(nextId), |old(population)|, tries))
      {
        full := !CanAddAgent();
        if !full {
          tries := NextInSeason(i, world, old(nextId), old(population), tries);
        }
      }
      return true, tries;
    }

    /** A child of the richest, or of a template if there is nobody. */
    method GoodBirth(template: Agent, world: Outside, ghost id: nat, ghost agents: seq<Agent>, ghost tries: seq<Try>)
      returns (ghost t: Try)
      requires Sound() && nextId == id + |tries| && Born(engine, world, id, agents, tries, population)
      modifies this`population, this`events, this`nextId
      ensures OnlyGrew() && nextId == old(nextId) + 1 && Born(engine, world, id, agents, tries + [t], population)
      ensures LastSize(engine, world, id, |agents|, tries + [t]) == |old(population)|
      ensures t.good && t.source in old(population) && old(IsRichest(population, t.source))
    {
      SomebodyLives();
      var richest := Richest(population);
      var parent := if richest != null then richest else template;
      t := Try(true, parent);
      Breed(world, Try(true, parent), id, agents, tries);
    }

    /** The next birth below the floor. */
    method NextBelowFloor(template: Agent, world: Outside, ghost id: nat, ghost agents: seq<Agent>, ghost tries: seq<Try>)
      returns (ghost tries': seq<Try>)
      requires Sound() && nextId == id + |tries| && Born(engine, world, id, agents, tries, population)
      requires |population| < engine.minAgents && forall k :: 0 <= k < |tries| ==> tries[k].good
      modifies this`population, this`events, this`nextId
      ensures OnlyGrew() && nextId == id + |tries'| && Born(engine, world, id, agents, tries', population)
      ensures |tries'| == |tries| + 1 && forall k :: 0 <= k < |tries'| ==> tries'[k].good
      ensures |agents| <= LastSize(engine, world, id, |agents|, tries') < engine.minAgents
    {
      ghost var t := GoodBirth(template, world, id, agents, tries);
      tries' := tries + [t];
    }

    /** Good births, one per initial agent at most, while the population is below its floor. */
    method Replenish(world: Outside) returns (ghost tries: seq<Try>)
      requires Sound()
      modifies this`population, this`events, this`nextId
      ensures Bred(world, tries)
      ensures FloorBirths(engine, world, |initialAgents|, old(nextId), |old(population)|, tries, |population|)
    {
      tries := [];
      NoneBorn(engine, world, nextId, population);
      var enough := false;
      for i := 0 to |initialAgents|
        invariant OnlyGrew() && nextId == old(nextId) + |tries| && initialAgents == old(initialAgents)
        invariant Born(engine, world, old(nextId), old(population), tries, population)
        invariant if enough then |population| >= engine.minAgents && |tries| <= i else |tries| == i
        invariant forall k :: 0 <= k < |tries| ==> tries[k].good
        invariant tries == []
          || |old(population)| <= LastSize(engine, world, old(nextId), |old(population)|, tries) < engine.minAgents
      {
        enough := |population| >= engine.minAgents;
        if !enough {
          tries := NextBelowFloor(initialAgents[i], world, old(nextId), old(population), tries);
        }
      }
    }

    // -------------------------------------------------------------- the market so far

    /** Fair to newcomers in every auction: nobody is ever listed twice, so a novice wins wherever one takes part. */
    ghost predicate Fair()
      reads this, population
    {
      && OnceEach(events) && FairMarket(population, engine.scheme, engine.rules, events)
      && (Premium(engine.scheme, engine.rules) ==>
            forall k: nat :: k < |events| && Promotes(events[k]) ==> NoviceWonAt(engine.scheme, engine.rules, events, k))
    }

    lemma AuctionsAreFair()
      requires Registered()
      ensures Fair()
    {
      EventsExplain();
      MarketIsFair(population, engine.scheme, engine.rules, events, nextId, true);
      if Premium(engine.scheme, engine.rules) {
        forall k: nat | k < |events| && Promotes(events[k]) ensures NoviceWonAt(engine.scheme, engine.rules, events, k) {
          OnceEachAt(events, k);
          TrailPrefix(engine.scheme, engine.rules, events, k);
          var n :| 0 <= n < |events[k].shown| && events[k].shown[n].status == Novice;
          OnceIsSure(engine.scheme, events[k].active, events[k].shown, n);
        }
      }
    }

    /** Under "fixed_with_eps" a veteran's bid stands as long as it stays, whatever happens. */
    twostate predicate VeteransStand()
      reads this, population
    {
      engine.scheme == FixedWithEps ==>
        forall a :: a in population && a in old(population) && old(a.status) == Veteran ==>
          a.status == Veteran && a.bid == old(a.bid)
    }

    twostate lemma VeteransStood(before: seq<MarketEvent>)
      requires Registered() && before <= events
      requires forall a :: a in old(population) ==>
        var was := BookAfter(engine.scheme, engine.rules, before);
        a.id in was && was[a.id] == Tag(old(a.bid), old(a.status))
      ensures VeteransStand()
    {
      EventsExplain();
      if engine.scheme == FixedWithEps {
        forall a | a in population && a in old(population) && old(a.status) == Veteran
          ensures a.status == Veteran && a.bid == old(a.bid)
        {
          VeteranStaysBooked(engine.rules, before, events, a.id);
        }
      }
    }

    // -------------------------------------------------------------- episodes

    /** The rent, if it is due. */
    method RentStage(world: Outside) returns (evicted: seq<Agent>)
      requires Sound() && Solvent() && Reliable(world)
      modifies this`population, this`events, this`bankruptcyCount, this`nextId, Members(population)`wealth
      ensures Sound() && Solvent() && old(events) <= events && Leave(old(population), evicted, population)
      ensures forall a :: a in old(population) ==>
        (a in population <==> (RentDue(engine, world, episodeCount) ==> old(a.wealth) >= engine.rent))
      ensures forall a :: a in population ==>
        if a in old(population) then
          a.wealth == old(a.wealth) - if RentDue(engine, world, episodeCount) then engine.rent else 0.0
        else fresh(a) && a.wealth == engine.initialWealth
    {
      evicted := [];
      var rentDue := engine.rent > 0.0 && engine.rentInterval > 0 && episodeCount % engine.rentInterval == 0;
      if rentDue && !world.preheat {
        evicted := ChargeRent(world);
      }
    }

    lemma StakesAre(outset: Outset, world: Outside, attempts: seq<Attempted>, accepted: bool, total: real)
      requires outset.rewards == rewards && accepted == Accepted(attempts)
      requires if accepted then Settled(outset, world, attempts, total) else Reset(outset)
      ensures forall a :: a in population ==> a.wealth == outset.Stake(world, attempts, a)
    {
    }

    /** With the rent settled, everybody has what is left of its stake. */
    twostate lemma RentPaid(new world: Outside, new e: Episode)
      requires e.outset.engine == engine && e.number == episodeCount && e.end == Now() && e.present == old(population)
      requires Leave(old(population), e.evicted, population)
      requires forall a :: a in old(population) ==> old(a.wealth) == e.outset.Stake(world, e.trials, a)
      requires forall a :: a in old(population) ==>
        (a in population <==> (RentDue(engine, world, episodeCount) ==> old(a.wealth) >= engine.rent))
      requires forall a :: a in population ==>
        if a in old(population) then
          a.wealth == old(a.wealth) - if RentDue(engine, world, episodeCount) then engine.rent else 0.0
        else fresh(a) && a.wealth == engine.initialWealth
      ensures e.Paid(world)
    {
      forall i | 0 <= i < |population|
        ensures population[i].wealth == if population[i] in e.present then e.Rest(world, population[i]) else engine.initialWealth
      {
        assert population[i] in population;
      }
    }

    /** The trials of an episode. */
    method TrialStage(world: Outside) returns (bankrupts: seq<Agent>, ghost attempts: seq<Attempted>)
      requires Sound() && Solvent() && Reliable(world)
      modifies this`totalRewards, this`population, this`events, this`bankruptcyCount, this`nextId, Members(population)
      ensures Sound() && Solvent() && old(events) <= events
      ensures forall a :: a in population ==> a in old(population) || fresh(a)
      ensures old(Now()).Recorded(world, attempts, population, events) && bankrupts == Ruined(attempts)
      ensures forall a :: a in population ==> a.wealth == old(Now()).Stake(world, attempts, a)
    {
      var accepted, trials;
      accepted, trials, bankrupts, attempts := ReplayLoop(world);
      StakesAre(old(Now()), world, attempts, accepted, old(totalRewards));
    }

    /** The trials and the rent of an episode, and whoever they ruined. */
    method TrialsAndRent(world: Outside) returns (bankrupts: seq<Agent>, ghost e: Episode)
      requires Sound() && Solvent() && Reliable(world)
      modifies this`totalRewards, this`population, this`events, this`bankruptcyCount, this`nextId, Members(population)
      ensures Sound() && Solvent() && old(events) <= events
      ensures forall a :: a in population ==> a in old(population) || fresh(a)
      ensures e.outset == old(Now()) && e.end == Now() && e.number == episodeCount
      ensures e.Begun(world) && bankrupts == e.ruined
    {
      var evicted;
      ghost var attempts;
      bankrupts, attempts := TrialStage(world);
      ghost var present, market := population, events;
      label R:
      evicted := RentStage(world);
      bankrupts := bankrupts + evicted;
      ghost var none := Brood([], [], [], 0, 0, 0, [], [], [], []);
      e := Episode(episodeCount, old(Now()), attempts, present, market, evicted, bankrupts, none, Now());
      RentPaid@R(world, e);
      e.BegunIs(world);
    }

    /** The births of the season, if it is one and there is room. */
    method SeasonStage(world: Outside, ghost id: nat) returns (ok: bool, ghost tries: seq<Try>)
      requires Sound() && nextId == id
      modifies this`population, this`events, this`nextId
      ensures OnlyGrew() && nextId == id + |tries| && Born(engine, world, id, old(population), tries, population)
      ensures ok <==> (Due(engine.birthInterval, episodeCount) && old(CanAddAgent()) ==> engine.evolution.Valid())
      ensures SeasonBirths(engine, world, Due(engine.birthInterval, episodeCount), id, |old(population)|, tries, |population|)
    {
      ok, tries := true, [];
      NoneBorn(engine, world, id, population);
      if engine.birthInterval > 0 && episodeCount % engine.birthInterval == 0 && CanAddAgent() {
        ok, tries := PeriodicBirths(world);
      }
    }

    /** The births up to the floor, if the population is below it. */
    method FloorStage(world: Outside, ghost id: nat) returns (ghost tries: seq<Try>)
      requires Sound() && nextId == id
      modifies this`population, this`events, this`nextId
      ensures OnlyGrew() && nextId == id + |tries| && Born(engine, world, id, old(population), tries, population)
      ensures FloorBirths(engine, world, |initialAgents|, id, |old(population)|, tries, |population|)
    {
      tries := [];
      NoneBorn(engine, world, id, population);
      if engine.minAgents > 0 && |population| < engine.minAgents {
        tries := Replenish(world);
      }
    }

    /** The births up to the floor, if the episode has come that far. */
    method LastStage(go: bool, world: Outside, ghost id: nat) returns (outcome: Outcome, ghost tries: seq<Try>)
      requires Sound() && nextId == id
      modifies this`population, this`events, this`nextId
      ensures OnlyGrew() && nextId == id + |tries| && Born(engine, world, id, old(population), tries, population)
      ensures outcome.Done? <==> go
      ensures if go then FloorBirths(engine, world, |initialAgents|, id, |old(population)|, tries, |population|)
              else tries == []
    {
      outcome, tries := BadProbabilities, [];
      NoneBorn(engine, world, id, population);
      if go {
        tries := FloorStage(world, id);
        outcome := Done;
      }
    }

    /** The births in season, if the episode has come that far. */
    method MiddleStage(go: bool, world: Outside, ghost id: nat) returns (ok: bool, ghost tries: seq<Try>)
      requires Sound() && nextId == id
      modifies this`population, this`events, this`nextId
      ensures OnlyGrew() && nextId == id + |tries| && Born(engine, world, id, old(population), tries, population)
      ensures ok <==> go && (Due(engine.birthInterval, episodeCount) && old(CanAddAgent()) ==> engine.evolution.Valid())
      ensures SeasonBirths(
        engine, world, go && Due(engine.birthInterval, episodeCount), id, |old(population)|, tries, |population|)
    {
      ok, tries := false, [];
      NoneBorn(engine, world, id, population);
      if go {
        ok, tries := SeasonStage(world, id);
      }
    }

    /** Both. */
    method LaterBirths(go: bool, world: Outside, ghost id: nat)
      returns (outcome: Outcome, ghost season: seq<Try>, ghost floor: seq<Try>, ghost third: seq<Agent>, ghost floorId: nat)
      requires Sound() && nextId == id
      modifies this`population, this`events, this`nextId
      ensures OnlyGrew() && nextId == floorId + |floor| && floorId == id + |season|
      ensures outcome.Done? <==>
              go && (Due(engine.birthInterval, episodeCount) && old(CanAddAgent()) ==> engine.evolution.Valid())
      ensures Born(engine, world, id, old(population), season, third)
      ensures SeasonBirths(
        engine, world, go && Due(engine.birthInterval, episodeCount), id, |old(population)|, season, |third|)
      ensures Born(engine, world, floorId, third, floor, population)
      ensures if outcome.Done? then FloorBirths(engine, world, |initialAgents|, floorId, |third|, floor, |population|)
              else floor == []
    {
      var ok;
      ok, season := MiddleStage(go, world, id);
      third, floorId := population, nextId;
      outcome, floor := LastStage(ok, world, floorId);
    }

    /** The births that end an episode. */
    method EndBirths(bankrupts: seq<Agent>, world: Outside) returns (outcome: Outcome, ghost b: Brood)
      requires Sound()
      modifies this`population, this`events, this`nextId
      ensures OnlyGrew() && nextId == old(nextId) + |b.fate| + |b.season| + |b.floor|
      ensures Bore(engine, world, episodeCount, bankrupts, |initialAgents|, b, outcome)
      ensures b.fateId == old(nextId) && b.first == old(population) && b.last == population
      ensures engine.evolution.Valid() ==> outcome.Done?
    {
      var ok;
      ghost var fate, season, floor, third, floorId;
      ok, fate := ResolveBankruptcyBirths(bankrupts, world);
      ghost var second, seasonId := population, nextId;
      outcome, season, floor, third, floorId := LaterBirths(ok, world, seasonId);
      b := Brood(fate, season, floor, old(nextId), seasonId, floorId, old(population), second, third, population);
    }

    /** Births change nothing that is on record but who is there. */
    twostate lemma StillPaid(new world: Outside, new e: Episode, new b: Brood, new e': Episode)
      requires e.end == old(Now()) && e.Paid(world) && e.outset.engine == engine
      requires old(population) <= population
      requires forall a :: a in population ==> a in old(population) || (fresh(a) && Newborn(a))
      requires forall a :: a in old(population) ==> a.wealth == old(a.wealth)
      requires forall a :: a in e.present ==> old(allocated(a))
      requires e' == e.Ending(b, Now())
      ensures e'.Paid(world)
    {
      LeaveStill(e.present, e.evicted, old(population), population);
      forall i | 0 <= i < |population|
        ensures population[i].wealth == if population[i] in e.present then e.Rest(world, population[i]) else engine.initialWealth
      {
        var a := population[i];
        if a in old(population) {
          var j :| 0 <= j < |old(population)| && old(population)[j] == a;
          assert e.end.wealth[j] == old(a.wealth);
        } else {
          assert a in population;
        }
      }
    }

    /** The births, after the trials and the rent on record, which stay as they are. */
    method PaidBirths(bankrupts: seq<Agent>, world: Outside, ghost paid: Episode) returns (outcome: Outcome, ghost b: Brood)
      requires Sound() && Solvent()
      requires paid.number == episodeCount && paid.outset.engine == engine && paid.end == Now() && paid.Paid(world)
      modifies this`population, this`events, this`nextId
      ensures Sound() && Solvent() && old(events) <= events
      ensures forall a :: a in population ==> a in old(population) || fresh(a)
      ensures Bore(engine, world, episodeCount, bankrupts, |initialAgents|, b, outcome) && b.last == population
      ensures paid.Ending(b, Now()).Paid(world)
      ensures engine.evolution.Valid() ==> outcome.Done?
    {
      outcome, b := EndBirths(bankrupts, world);
      StillPaid(world, paid, b, paid.Ending(b, Now()));
    }

    /** The births that complete a record. */
    method EndEpisode(bankrupts: seq<Agent>, world: Outside, ghost paid: Episode) returns (outcome: Outcome, ghost e: Episode)
      requires Sound() && Solvent()
      requires paid.number == episodeCount && paid.outset.engine == engine && paid.end == Now()
      requires paid.Begun(world) && bankrupts == paid.ruined
      modifies this`population, this`events, this`nextId
      ensures Sound() && Solvent() && old(events) <= events
      ensures forall a :: a in population ==> a in old(population) || fresh(a)
      ensures e.number == paid.number && e.outset == paid.outset && e.end == Now()
      ensures e.Runs(world, |initialAgents|, outcome)
      ensures engine.evolution.Valid() ==> outcome.Done?
    {
      paid.BegunPaid(world);
      ghost var b;
      outcome, b := PaidBirths(bankrupts, world, paid);
      e := paid.Ending(b, Now());
      paid.BegunRuns(world, |initialAgents|, b, Now(), outcome);
    }

    /** The trials, the rent and the births of an episode. */
    method RunEpisode(world: Outside) returns (outcome: Outcome, ghost e: Episode)
      requires Sound() && Solvent() && Reliable(world)
      modifies this`totalRewards, this`population, this`events, this`bankruptcyCount, this`nextId, Members(population)
      ensures Sound() && Solvent() && old(events) <= events
      ensures forall a :: a in population ==> a in old(population) || fresh(a)
      ensures e.number == episodeCount && e.outset == old(Now()) && e.end == Now()
      ensures e.Runs(world, |initialAgents|, outcome)
      ensures engine.evolution.Valid() ==> outcome.Done?
    {
      var bankrupts;
      ghost var paid;
      bankrupts, paid := TrialsAndRent(world);
      outcome, e := EndEpisode(bankrupts, world, paid);
    }

    /** The same, counted. */
    method CountEpisode(world: Outside) returns (outcome: Outcome, ghost e: Episode)
      requires Sound() && Solvent() && Reliable(world)
      modifies this, Members(population)
      ensures Sound() && Solvent() && old(events) <= events
      ensures initialAgents == old(initialAgents) && episodeCount == old(episodeCount) + 1
      ensures forall a :: a in population ==> a in old(population) || fresh(a)
      ensures e.number == episodeCount && e.outset == old(Now()) && e.end == Now()
      ensures e.Runs(world, |initialAgents|, outcome)
      ensures engine.evolution.Valid() ==> outcome.Done?
    {
      episodeCount := episodeCount + 1;
      outcome, e := RunEpisode(world);
    }

    /**
     A training episode. From a sound and solvent economy it always leaves one:
     every initial role represented, the cap kept, nobody in debt. The only way
     it can stop early is a birth probability out of range. Its record says whom
     each trial ruined and why, what the accepted one brought everybody, that
     exactly those who cannot pay it leave when rent is due and the others pay it,
     that everybody ruined has one chance of birth, and which other births are tried.
     */
    method TrainForward(world: Outside) returns (outcome: Outcome, ghost e: Episode)
      requires Sound() && Solvent() && Reliable(world)
      modifies this, Members(population)
      ensures Sound() && Solvent() && old(events) <= events && VeteransStand()
      ensures initialAgents == old(initialAgents) && episodeCount == old(episodeCount) + 1
      ensures forall a :: a in population ==> a in old(population) || fresh(a)
      ensures e.number == episodeCount && e.outset == old(Now()) && e.end == Now()
      ensures e.Runs(world, |initialAgents|, outcome)
      ensures engine.evolution.Valid() ==> outcome.Done?
    {
      assert |population| > 0 by {
        RolesOfPrefix([initialAgents[0]], initialAgents);
        assert Roles(population) != {};
      }
      EventsExplain();
      outcome, e := CountEpisode(world);
      VeteransStood(old(events));
    }

    /**
     Any sequence of training episodes, one after another until one stops early:
     the records of all of them, each beginning where the one before ended.
     */
    method Train(worlds: seq<Outside>) returns (outcome: Outcome, ghost episodes: seq<Episode>)
      requires Sound() && Solvent()
      requires forall i :: 0 <= i < |worlds| ==> Reliable(worlds[i])
      modifies this, Members(population)
      ensures Sound() && Solvent() && old(events) <= events && Fair() && VeteransStand()
      ensures forall role :: role in Roles(old(initialAgents)) ==> exists a :: a in population && a.role == role
      ensures Annals(old(Now()), old(episodeCount), |old(initialAgents)|, worlds, episodes, Now(), outcome)
      ensures episodeCount == old(episodeCount) + |episodes| && (outcome.Done? ==> |episodes| == |worlds|)
      ensures engine.evolution.Valid() ==> outcome.Done?
    {
      EventsExplain();
      outcome, episodes := Done, [];
      for i := 0 to |worlds|
        invariant Sound() && Solvent() && initialAgents == old(initialAgents) && old(events) <= events
        invariant forall a :: a in population ==> a in old(population) || fresh(a)
        invariant episodeCount == old(episodeCount) + i && |episodes| == i
        invariant Annals(old(Now()), old(episodeCount), |old(initialAgents)|, worlds, episodes, Now(), outcome)
        invariant outcome.Done?
      {
        ghost var e;
        outcome, e := TrainForward(worlds[i]);
        AnnalsNext(old(Now()), old(episodeCount), |initialAgents|, worlds, episodes, e, outcome);
        episodes := episodes + [e];
        if !outcome.Done? {
          break;
        }
      }
      forall role | role in Roles(initialAgents) ensures exists a :: a in population && a.role == role {
        RoleHeld(population, role);
      }
      AuctionsAreFair();
      VeteransStood(old(events));
    }
  }
}
