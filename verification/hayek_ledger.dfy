/**
 What a trial and an episode of the training economy do, on values: who won, what
 each step was worth to whom, and who was there when.
 */
module HayekLedger {
  import opened Wrappers
  import opened EconomyAgent
  import opened EconomyBidding
  import opened EconomyPopulation

  // ---------------------------------------------------------------- configuration and inputs

  datatype RewardConfig = RewardConfig(
    stepwise: bool,          // reward_scheme == "path_reward_and_stepwise_reward"
    pathScale: real,
    envScale: real,
    missingScore: real,
    center: bool,
    perUniqueAuthor: bool,
    splitChain: bool,
    chainWindow: int
  ) {
    /** What a step's reward is worth under the reward scheme. */
    function Earned(reward: real): real {
      if stepwise then reward else 0.0
    }

    function CenteredScore(score: real): real {
      2.0 * score - 1.0
    }

    function RewardSignal(score: real): real {
      envScale * (if center then CenteredScore(score) else score)
    }

    /** The score a path reward is paid on. */
    function PayScore(score: Option<real>): real {
      if score.Some? then score.value else missingScore
    }

    function PathReward(score: real): real {
      pathScale * RewardSignal(score)
    }

    function PathRewardPerAgent(score: real, pathLength: nat): real {
      if pathLength == 0 then 0.0 else PathReward(score) / pathLength as real
    }
  }

  datatype EngineConfig = EngineConfig(
    maxSteps: nat,
    maxTrials: nat,
    birthInterval: int,
    birthsPerInterval: nat,
    minAgents: int,
    maxAgents: int,
    scheme: Scheme,
    rules: Rules,
    initialWealth: real,
    rent: real,
    rentInterval: int,
    evolution: Evolution
  )

  /** One step's worth of the outside world. */
  datatype StepInput = StepInput(awake: set<nat>, choice: nat, reward: real, done: bool)

  /** One attempt's worth: the steps, the authors in its history, and its score if it has one. */
  datatype TrialInput = TrialInput(steps: seq<StepInput>, authors: seq<string>, score: Option<real>) {
    /** Past the listed steps nobody is awake. */
    function Step(k: nat): StepInput {
      if k < |steps| then steps[k] else StepInput({}, 0, 0.0, false)
    }
  }

  datatype Child = Child(role: string, name: string)

  /** The birth probabilities: good and bad births after bankruptcies, good ones in season. */
  datatype Evolution = Evolution(good: real, bad: real, seasonalGood: real) {
    predicate Valid() {
      0.0 <= good <= 1.0 && 0.0 <= bad <= 1.0 && good + bad <= 1.0 && 0.0 <= seasonalGood <= 1.0
    }
  }

  /**
   One episode's worth of the outside world: its attempts, and what the birth
   factories give at each birth attempt. A repair birth keeps its source's role.
   */
  datatype Outside = Outside(
    trials: seq<TrialInput>,
    bad: (nat, string) -> Option<string>,
    good: (nat, string) -> Option<Child>,
    pick: nat -> nat,
    fate: nat -> real,
    season: nat -> real,
    preheat: bool
  ) {
    /** Past the listed attempts nobody is awake. */
    function Trial(k: nat): TrialInput {
      if k < |trials| then trials[k] else TrialInput([], [], None)
    }
  }

  datatype Recovery = Recovered | MissingCandidate(role: string) | RespawnFailed(role: string, attempt: nat)

  datatype Outcome = Done | BadProbabilities

  /** What a rollback puts back. */
  datatype Saved = Saved(wealth: real, capability: real)

  // ---------------------------------------------------------------- who is awake

  predicate AnyAwake(agents: seq<Agent>, awake: set<nat>) {
    |agents| > 0 && (agents[|agents| - 1].id in awake || AnyAwake(agents[..|agents| - 1], awake))
  }

  /** The agents an auction is held among. */
  function Active(agents: seq<Agent>, awake: set<nat>): (active: seq<Agent>)
    ensures forall a :: a in active ==> a in agents && a.id in awake
    ensures forall a :: a in agents && a.id in awake ==> a in active
    ensures Members(active) <= Members(agents)
    ensures active == [] <==> !AnyAwake(agents, awake)
  {
    if |agents| == 0 then []
    else
      var front, last := agents[..|agents| - 1], agents[|agents| - 1];
      assert agents == front + [last];
      if last.id in awake then Active(front, awake) + [last] else Active(front, awake)
  }

  lemma {:induction false} ActiveIds(agents: seq<Agent>, awake: set<nat>)
    ensures Ids(Active(agents, awake)) <= Ids(agents)
    ensures DistinctIds(agents) ==> DistinctIds(Active(agents, awake))
  {
    if |agents| > 0 {
      var front, last := agents[..|agents| - 1], agents[|agents| - 1];
      assert agents == front + [last];
      ActiveIds(front, awake);
      IdsOfAppend(front, last);
      IdsOfAppend(Active(front, awake), last);
    }
  }

  lemma {:induction false} ActiveInOrder(agents: seq<Agent>, awake: set<nat>)
    ensures Sublist(Active(agents, awake), agents)
  {
    if |agents| > 0 {
      ActiveInOrder(agents[..|agents| - 1], awake);
    }
  }

  // ---------------------------------------------------------------- what a step is worth to whom

  /** The winners that share a step's reward: those of the last steps, this one's included. */
  function Recent(rewards: RewardConfig, winners: seq<Agent>): (recent: seq<Agent>)
    ensures winners != [] ==> recent != [] && recent[|recent| - 1] == winners[|winners| - 1]
    ensures Members(recent) <= Members(winners)
  {
    var size := if rewards.chainWindow >= 1 then rewards.chainWindow else 1;
    var recent := if |winners| > size then winners[|winners| - size..] else winners;
    recent
  }

  /** How many agents a list holds, repeats aside. */
  ghost function Sharers(chain: seq<Agent>): (n: nat)
    requires chain != []
    ensures n > 0
  {
    IdHeld(chain, chain[0].id);
    assert chain[0].id in Ids(chain);
    |Ids(chain)|
  }

  /** The part of a step reward one agent of the chain gets. */
  function Portion(won: bool, reward: real, split: bool, sharers: nat): real
    requires sharers > 0
  {
    if split && reward != 0.0 then reward / sharers as real else if won then reward else 0.0
  }

  /** What the last step's reward brings an agent: its part of a shared one, or all of one it won. */
  ghost function Credit(rewards: RewardConfig, reward: real, winners: seq<Agent>, a: Agent): real
    requires winners != []
  {
    if !rewards.stepwise || a !in Recent(rewards, winners) then 0.0
    else Portion(a == winners[|winners| - 1], reward, rewards.splitChain, Sharers(Recent(rewards, winners)))
  }

  /** What the last step brings an agent: a winner pays the winner before it, and the reward is credited. */
  ghost function Change(rewards: RewardConfig, reward: real, winners: seq<Agent>, price: real, a: Agent): real
    requires winners != []
  {
    var n := |winners| - 1;
    Credit(rewards, reward, winners, a)
      - (if a == winners[n] then price else 0.0) + (if n > 0 && a == winners[n - 1] then price else 0.0)
  }

  /** What a trial's steps bring an agent, who won each of them at what price being given. */
  ghost function Income(rewards: RewardConfig, trial: TrialInput, winners: seq<Agent>, prices: seq<real>, a: Agent): real
    requires |prices| == |winners|
  {
    if |winners| == 0 then 0.0
    else
      var n := |winners| - 1;
      Income(rewards, trial, winners[..n], prices[..n], a)
        + Change(rewards, trial.Step(n).reward, winners, prices[n], a)
  }

  /** What the rewards of a trial's steps credit to an agent. */
  ghost function Merit(rewards: RewardConfig, trial: TrialInput, winners: seq<Agent>, a: Agent): real {
    if |winners| == 0 then 0.0
    else
      var n := |winners| - 1;
      Merit(rewards, trial, winners[..n], a) + Credit(rewards, trial.Step(n).reward, winners, a)
  }

  lemma IncomeNext(
    rewards: RewardConfig, trial: TrialInput, winners: seq<Agent>, prices: seq<real>, winner: Agent, price: real, a: Agent)
    requires |prices| == |winners|
    ensures Income(rewards, trial, winners + [winner], prices + [price], a) ==
            Income(rewards, trial, winners, prices, a)
            + Change(rewards, trial.Step(|winners|).reward, winners + [winner], price, a)
    ensures Merit(rewards, trial, winners + [winner], a) ==
            Merit(rewards, trial, winners, a) + Credit(rewards, trial.Step(|winners|).reward, winners + [winner], a)
  {
    assert (winners + [winner])[..|winners|] == winners && (prices + [price])[..|prices|] == prices;
  }

  /** The change in terms of the winner before. */
  lemma ChangeIs(rewards: RewardConfig, reward: real, winners: seq<Agent>, winner: Agent, price: real)
    ensures forall a ::
      Change(rewards, reward, winners + [winner], price, a) ==
      Credit(rewards, reward, winners + [winner], a)
      - (if a == winner then price else 0.0) + (if a == Latest(winners) then price else 0.0)
  {
  }

  lemma IncomesNext(
    rewards: RewardConfig, trial: TrialInput, winners: seq<Agent>, prices: seq<real>, winner: Agent, price: real)
    requires |prices| == |winners|
    ensures forall a ::
      Income(rewards, trial, winners + [winner], prices + [price], a) ==
      Income(rewards, trial, winners, prices, a)
      + Change(rewards, trial.Step(|winners|).reward, winners + [winner], price, a)
    ensures forall a ::
      Merit(rewards, trial, winners + [winner], a) ==
      Merit(rewards, trial, winners, a) + Credit(rewards, trial.Step(|winners|).reward, winners + [winner], a)
  {
    forall a
      ensures Income(rewards, trial, winners + [winner], prices + [price], a) ==
              Income(rewards, trial, winners, prices, a)
              + Change(rewards, trial.Step(|winners|).reward, winners + [winner], price, a)
      ensures Merit(rewards, trial, winners + [winner], a) ==
              Merit(rewards, trial, winners, a) + Credit(rewards, trial.Step(|winners|).reward, winners + [winner], a)
    {
      IncomeNext(rewards, trial, winners, prices, winner, price, a);
    }
  }

  /** The winner before the next step, or nobody. */
  ghost function Latest(winners: seq<Agent>): Agent? {
    if |winners| == 0 then null else winners[|winners| - 1]
  }

  /** The chain never holds more than the window, and always the last winners, in order. */
  lemma RecentIs(rewards: RewardConfig, winners: seq<Agent>, k: nat)
    requires rewards.chainWindow >= 1
    ensures var recent := Recent(rewards, winners);
      && |recent| == (if |winners| < rewards.chainWindow then |winners| else rewards.chainWindow)
      && (k < |recent| ==> recent[|recent| - 1 - k] == winners[|winners| - 1 - k])
  {
  }

  /** Cutting what was the chain with one more winner gives the chain with that winner. */
  lemma ChainMovesOn(rewards: RewardConfig, winners: seq<Agent>, winner: Agent, chain: seq<Agent>)
    requires var size, all := if rewards.chainWindow >= 1 then rewards.chainWindow else 1, Recent(rewards, winners) + [winner];
      chain == if |all| > size then all[|all| - size..] else all
    ensures chain == Recent(rewards, winners + [winner])
    ensures var size, was := if rewards.chainWindow >= 1 then rewards.chainWindow else 1, |Recent(rewards, winners)|;
      |chain| == if was < size then was + 1 else size
  {
  }

  // ---------------------------------------------------------------- who won the steps

  /** The market's last event was an auction among these agents, won by this one, and its bid is the price. */
  ghost predicate Sale(engine: EngineConfig, market: seq<MarketEvent>, active: seq<Agent>, winner: Agent, price: real) {
    && |market| > 0 && winner in active
    && var e, book := market[|market| - 1], BookAfter(engine.scheme, engine.rules, market);
       && e.Held? && e.active == IdSeq(active) && e.winner == winner.id
       && winner.id in book && book[winner.id].bid == Some(price)
  }

  /** What has happened on the market since `start` are a trial's auctions, one a step among whoever was awake. */
  ghost predicate Sales(
    engine: EngineConfig, start: seq<MarketEvent>, market: seq<MarketEvent>, agents: seq<Agent>, trial: TrialInput,
    winners: seq<Agent>, prices: seq<real>)
  {
    if |winners| == 0 then |prices| == 0 && market == start
    else
      var n := |winners| - 1;
      && |prices| == |winners| && |market| > 0
      && Sales(engine, start, market[..|market| - 1], agents, trial, winners[..n], prices[..n])
      && Sale(engine, market, Active(agents, trial.Step(n).awake), winners[n], prices[n])
  }

  lemma SalesNext(
    engine: EngineConfig, start: seq<MarketEvent>, market: seq<MarketEvent>, agents: seq<Agent>, trial: TrialInput,
    winners: seq<Agent>, prices: seq<real>, e: MarketEvent, winner: Agent, price: real)
    requires Sales(engine, start, market, agents, trial, winners, prices) && |prices| == |winners|
    requires Sale(engine, market + [e], Active(agents, trial.Step(|winners|).awake), winner, price)
    ensures Sales(engine, start, market + [e], agents, trial, winners + [winner], prices + [price])
  {
    assert (winners + [winner])[..|winners|] == winners && (prices + [price])[..|prices|] == prices;
    assert (market + [e])[..|market|] == market;
  }

  lemma {:induction false} SalesShape(
    engine: EngineConfig, start: seq<MarketEvent>, market: seq<MarketEvent>, agents: seq<Agent>, trial: TrialInput,
    winners: seq<Agent>, prices: seq<real>)
    requires Sales(engine, start, market, agents, trial, winners, prices)
    ensures |prices| == |winners| && |market| == |start| + |winners| && start <= market
  {
    if |winners| > 0 {
      var n, before := |winners| - 1, market[..|market| - 1];
      SalesShape(engine, start, before, agents, trial, winners[..n], prices[..n]);
    }
  }

  /** Each step's auction is there. */
  lemma {:induction false} SalesAt(
    engine: EngineConfig, start: seq<MarketEvent>, market: seq<MarketEvent>, agents: seq<Agent>, trial: TrialInput,
    winners: seq<Agent>, prices: seq<real>, k: nat) returns (until: seq<MarketEvent>)
    requires Sales(engine, start, market, agents, trial, winners, prices) && k < |winners| == |prices|
    ensures until <= market && |until| == |start| + k + 1
    ensures Sale(engine, until, Active(agents, trial.Step(k).awake), winners[k], prices[k])
  {
    SalesShape(engine, start, market, agents, trial, winners, prices);
    var n := |winners| - 1;
    if k < n {
      until := SalesAt(engine, start, market[..|market| - 1], agents, trial, winners[..n], prices[..n], k);
    } else {
      until := market;
    }
  }

  // ---------------------------------------------------------------- the path

  /** The realized path: one entry per action with a living author, in order. */
  function PathOf(agents: seq<Agent>, authors: seq<string>): (path: seq<Agent>)
    ensures forall a :: a in path ==> a in agents
  {
    if |authors| == 0 then []
    else
      var front, last := authors[..|authors| - 1], authors[|authors| - 1];
      var a := if last == "" then null else Named(agents, last);
      if a == null then PathOf(agents, front) else PathOf(agents, front) + [a]
  }

  /**
   Every action whose author is known has the last agent of that name on the
   path, in the order of the actions; one without an author has nobody.
   */
  ghost predicate Walked(agents: seq<Agent>, authors: seq<string>, path: seq<Agent>, at: seq<nat>) {
    && Mentions(agents, authors, path, at)
    && forall k: nat :: k < |authors| ==> (k in at <==> authors[k] != "" && GoesBy(agents, authors[k]))
  }

  lemma {:induction false} PathIsWalked(agents: seq<Agent>, authors: seq<string>) returns (at: seq<nat>)
    ensures Walked(agents, authors, PathOf(agents, authors), at)
  {
    at := [];
    if |authors| > 0 {
      var front, last := authors[..|authors| - 1], authors[|authors| - 1];
      assert authors == front + [last];
      at := PathIsWalked(agents, front);
      NamedIs(agents, last);
      if last != "" && GoesBy(agents, last) {
        MentionsNext(agents, front, PathOf(agents, front), at, last, Named(agents, last));
        at := at + [|front|];
      } else {
        MentionsSkip(agents, front, PathOf(agents, front), at, last);
      }
    }
  }

  /** Everyone on the path, or each author once. */
  ghost predicate PaidOut(rewards: RewardConfig, path: seq<Agent>, targets: seq<Agent>) {
    if rewards.perUniqueAuthor then
      DistinctIds(targets) && Ids(targets) == Ids(path) && Members(targets) <= Members(path)
    else targets == path
  }

  /** What one target receives: the per-entry reward, once per entry. */
  ghost function TargetShare(rewards: RewardConfig, targets: seq<Agent>, a: Agent, pay: real): real {
    Times(rewards.PathRewardPerAgent(pay, |targets|), Occurrences(targets, a))
  }

  // ---------------------------------------------------------------- one trial

  /**
   A trial's record: who won its steps at what price, who is paid along the path,
   and the market before and after it.
   */
  datatype Account = Account(
    winners: seq<Agent>, prices: seq<real>, targets: seq<Agent>, start: seq<MarketEvent>, market: seq<MarketEvent>)

  /** The record is of this trial among these agents. */
  ghost predicate Audited(
    engine: EngineConfig, rewards: RewardConfig, agents: seq<Agent>, trial: TrialInput, account: Account)
  {
    && |account.prices| == |account.winners|
    && Sales(engine, account.start, account.market, agents, trial, account.winners, account.prices)
    && PaidOut(rewards, PathOf(agents, trial.authors), account.targets)
  }

  /** What a trial brings an agent. */
  ghost function Gain(rewards: RewardConfig, trial: TrialInput, account: Account, a: Agent): real {
    (if |account.prices| == |account.winners| then Income(rewards, trial, account.winners, account.prices, a) else 0.0)
      + TargetShare(rewards, account.targets, a, rewards.PayScore(trial.score))
  }

  lemma NoShare(rewards: RewardConfig, targets: seq<Agent>, pay: real)
    ensures forall a :: a !in targets ==> TargetShare(rewards, targets, a, pay) == 0.0
  {
    forall a | a !in targets ensures TargetShare(rewards, targets, a, pay) == 0.0 {
      NoOccurrence(targets, a);
    }
  }

  // ---------------------------------------------------------------- the first auction of a trial

  /** What the awake agents show, if they hold this much and the book is this. */
  ghost function BiddersFrom(agents: seq<Agent>, awake: set<nat>, book: Book, ws: seq<real>): seq<Bidder> {
    if |agents| == 0 || |ws| != |agents| then []
    else
      var n := |agents| - 1;
      var rest, id := BiddersFrom(agents[..n], awake, book, ws[..n]), agents[n].id;
      if id in awake && id in book then rest + [Bidder(book[id].bid, book[id].status, ws[n])] else rest
  }

  /** The first winner's bid, which nobody receives. */
  ghost function OpeningBid(engine: EngineConfig, first: seq<Bidder>): real {
    var p := TopBid(RebidAll(engine.scheme, engine.rules, first));
    if engine.maxSteps == 0 || p.None? then 0.0 else p.value
  }

  // ---------------------------------------------------------------- an episode's trials

  /** These agents have left, each once and in order, and nobody else has. */
  ghost predicate Leave(before: seq<Agent>, removed: seq<Agent>, after: seq<Agent>) {
    && Sublist(removed, before) && DistinctAgents(removed)
    && (forall a :: a in removed ==> a in before && a !in after)
    && (forall a :: a in before && a !in after ==> a in removed)
  }

  /** Newcomers do not matter to who has left. */
  lemma LeaveStill(before: seq<Agent>, removed: seq<Agent>, middle: seq<Agent>, after: seq<Agent>)
    requires Leave(before, removed, middle)
    requires (forall a :: a in middle ==> a in after) && (forall a :: a in after ==> a in middle || a !in before)
    ensures Leave(before, removed, after)
  {
  }

  /** What an agent held, by the lists of who was there and what they held, or else this. */
  ghost function Lookup(agents: seq<Agent>, held: seq<real>, otherwise: real, a: Agent): real {
    if |agents| == 0 || |held| != |agents| then otherwise
    else
      var n := |agents| - 1;
      if agents[n] == a then held[n] else Lookup(agents[..n], held[..n], otherwise, a)
  }

  lemma {:induction false} LookupIs(agents: seq<Agent>, held: seq<real>, otherwise: real, a: Agent)
    requires |held| == |agents|
    ensures if a in agents then exists i :: 0 <= i < |agents| && agents[i] == a && Lookup(agents, held, otherwise, a) == held[i]
            else Lookup(agents, held, otherwise, a) == otherwise
  {
    if |agents| > 0 {
      var n := |agents| - 1;
      if agents[n] != a {
        LookupIs(agents[..n], held[..n], otherwise, a);
        if a in agents[..n] {
          var i :| 0 <= i < n && agents[..n][i] == a && Lookup(agents[..n], held[..n], otherwise, a) == held[..n][i];
          assert agents[i] == a && held[..n][i] == held[i];
        }
      }
    }
  }

  /** One of an episode's trials: who was there, what it brought them, and whom it ruined. */
  datatype Attempted = Attempted(agents: seq<Agent>, account: Account, removed: seq<Agent>)

  /** An economy before an episode: who is there, what they hold, and the market so far. */
  datatype Outset = Outset(
    engine: EngineConfig, rewards: RewardConfig, agents: seq<Agent>, wealth: seq<real>, capability: seq<real>,
    market: seq<MarketEvent>) {

    /** What an agent holds when a trial begins: what it held before the episode, or a newborn's wealth. */
    ghost function Purse(a: Agent): real {
      Lookup(agents, wealth, engine.initialWealth, a)
    }

    ghost function Renown(a: Agent): real {
      Lookup(agents, capability, 0.0, a)
    }

    ghost function Purses(list: seq<Agent>): (ws: seq<real>)
      ensures |ws| == |list| && forall i :: 0 <= i < |list| ==> ws[i] == Purse(list[i])
    {
      if |list| == 0 then [] else Purses(list[..|list| - 1]) + [Purse(list[|list| - 1])]
    }

    ghost function Renowns(list: seq<Agent>): (cs: seq<real>)
      ensures |cs| == |list| && forall i :: 0 <= i < |list| ==> cs[i] == Renown(list[i])
    {
      if |list| == 0 then [] else Renowns(list[..|list| - 1]) + [Renown(list[|list| - 1])]
    }

    /** A trial ruins exactly those it leaves in debt, and they leave. */
    ghost predicate Ruins(trial: TrialInput, t: Attempted, after: seq<Agent>) {
      && Audited(engine, rewards, t.agents, trial, t.account) && Leave(t.agents, t.removed, after)
      && forall a :: a in t.agents ==> (a in after <==> Purse(a) + Gain(rewards, trial, t.account, a) >= 0.0)
    }

    /** Trial after trial, from the outset to who is there after and the market by then. */
    ghost predicate Replayed(world: Outside, trials: seq<Attempted>, after: seq<Agent>, market': seq<MarketEvent>) {
      if |trials| == 0 then after == agents && market' == market
      else
        var n := |trials| - 1;
        && Replayed(world, trials[..n], trials[n].agents, trials[n].account.start)
        && Ruins(world.Trial(n), trials[n], after) && trials[n].account.market <= market'
    }

    lemma ReplayedNext(world: Outside, trials: seq<Attempted>, t: Attempted, after: seq<Agent>, market': seq<MarketEvent>)
      requires Replayed(world, trials, t.agents, t.account.start)
      requires Ruins(world.Trial(|trials|), t, after) && t.account.market <= market'
      ensures Replayed(world, trials + [t], after, market')
    {
      assert (trials + [t])[..|trials|] == trials;
    }

    /** What an agent holds after the trials: what it held, and what the accepted one brought. */
    ghost function Stake(world: Outside, trials: seq<Attempted>, a: Agent): real {
      Purse(a) + if Accepted(trials) then Gain(rewards, world.Trial(|trials| - 1), trials[|trials| - 1].account, a) else 0.0
    }

    /** The trials of an episode are on record: one at most accepted, that the last, or as many failed as are allowed. */
    ghost predicate Recorded(world: Outside, trials: seq<Attempted>, after: seq<Agent>, market': seq<MarketEvent>) {
      && Replayed(world, trials, after, market') && |trials| <= engine.maxTrials
      && (|trials| > 0 ==> AllFailed(trials[..|trials| - 1]))
      && (Accepted(trials) || (AllFailed(trials) && |trials| == engine.maxTrials))
    }

    /**
     The opening bid of a trial: that of its awake agents, with what they held at
     the outset and with the bids and statuses the book had when the trial began.
     */
    ghost function Opening(trial: TrialInput, t: Attempted): real {
      var book := BookAfter(engine.scheme, engine.rules, t.account.start);
      OpeningBid(engine, BiddersFrom(t.agents, trial.Step(0).awake, book, Purses(t.agents)))
    }
  }

  /** The last trial ruined nobody. */
  ghost predicate Accepted(trials: seq<Attempted>) {
    |trials| > 0 && trials[|trials| - 1].removed == []
  }

  /** Every trial ruined somebody. */
  ghost predicate AllFailed(trials: seq<Attempted>) {
    |trials| > 0 ==> trials[|trials| - 1].removed != [] && AllFailed(trials[..|trials| - 1])
  }

  /** Whom the trials ruined, one after another. */
  ghost function Ruined(trials: seq<Attempted>): seq<Agent> {
    if |trials| == 0 then []
    else
      Ruined(trials[..|trials| - 1]) + trials[|trials| - 1].removed
  }

  lemma FailedNext(trials: seq<Attempted>, t: Attempted)
    requires AllFailed(trials)
    ensures Ruined(trials + [t]) == Ruined(trials) + t.removed
    ensures AllFailed(trials + [t]) <==> t.removed != []
    ensures Accepted(trials + [t]) <==> t.removed == []
    ensures (trials + [t])[..|trials|] == trials
  {
    assert (trials + [t])[..|trials|] == trials;
  }

  // ---------------------------------------------------------------- an episode's births

  /** A birth that is tried: a child of its source, or a repair of it. */
  datatype Try = Try(good: bool, source: Agent)

  /** What the factories give. A repair keeps the role of its source. */
  function ChildOf(world: Outside, id: nat, t: Try): Option<Child> {
    if t.good then world.good(id, t.source.role)
    else
      var name := world.bad(id, t.source.role);
      if name.Some? then Some(Child(t.source.role, name.value)) else None
  }

  predicate IsChild(a: Agent, child: Child) {
    a.name == child.name && a.role == child.role
  }

  predicate Room(engine: EngineConfig, size: nat) {
    engine.maxAgents <= 0 || size < engine.maxAgents
  }

  /** Who is born of these tries among so many agents, each try using up an id: those for whom there is room. */
  function Offspring(engine: EngineConfig, world: Outside, id: nat, size: nat, tries: seq<Try>): (born: seq<Child>)
    ensures |born| <= |tries|
  {
    if |tries| == 0 then []
    else
      var n := |tries| - 1;
      var rest, child := Offspring(engine, world, id, size, tries[..n]), ChildOf(world, id + n, tries[n]);
      if child.Some? && Room(engine, size + |rest|) then rest + [child.value] else rest
  }

  /** The population after these tries: the agents as before, and whoever was born. */
  ghost predicate Born(
    engine: EngineConfig, world: Outside, id: nat, agents: seq<Agent>, tries: seq<Try>, agents': seq<Agent>)
  {
    var born := Offspring(engine, world, id, |agents|, tries);
    && agents <= agents' && |agents'| == |agents| + |born|
    && forall k: nat :: k < |born| ==> IsChild(agents'[|agents| + k], born[k])
  }

  lemma NoneBorn(engine: EngineConfig, world: Outside, id: nat, agents: seq<Agent>)
    ensures Born(engine, world, id, agents, [], agents)
  {
  }

  lemma BornNext(
    engine: EngineConfig, world: Outside, id: nat, agents: seq<Agent>, tries: seq<Try>, middle: seq<Agent>, t: Try,
    agents': seq<Agent>)
    requires Born(engine, world, id, agents, tries, middle) && middle <= agents'
    requires var child := ChildOf(world, id + |tries|, t);
      if child.Some? && Room(engine, |middle|) then |agents'| == |middle| + 1 && IsChild(agents'[|middle|], child.value)
      else agents' == middle
    ensures Born(engine, world, id, agents, tries + [t], agents')
  {
    assert (tries + [t])[..|tries|] == tries;
  }

  /** Whether what happens at this interval falls on this episode. */
  predicate Due(interval: int, episode: nat) {
    interval > 0 && episode % interval == 0
  }

  /** One draw for each of the ruined: a child of somebody, a repair of the ruined agent, or nothing. */
  ghost predicate Fated(engine: EngineConfig, world: Outside, ruined: seq<Agent>, tries: seq<Try>) {
    if |ruined| == 0 then |tries| == 0
    else
      var n, m := |ruined| - 1, |tries| - 1;
      var draw := world.fate(n);
      if draw >= engine.evolution.good + engine.evolution.bad then Fated(engine, world, ruined[..n], tries)
      else
        && m >= 0 && Fated(engine, world, ruined[..n], tries[..m])
        && if draw < engine.evolution.good then tries[m].good else tries[m] == Try(false, ruined[n])
  }

  lemma FatedNext(
    engine: EngineConfig, world: Outside, ruined: seq<Agent>, tries: seq<Try>, next: Agent, t: Option<Try>)
    requires Fated(engine, world, ruined, tries)
    requires var draw := world.fate(|ruined|);
      if draw >= engine.evolution.good + engine.evolution.bad then t.None?
      else t.Some? && if draw < engine.evolution.good then t.value.good else t.value == Try(false, next)
    ensures Fated(engine, world, ruined + [next], if t.Some? then tries + [t.value] else tries)
  {
    assert (ruined + [next])[..|ruined|] == ruined;
    if t.Some? {
      assert (tries + [t.value])[..|tries|] == tries;
    }
  }

  /** The draws of a season: a child of somebody, or a repair. */
  ghost predicate Seasoned(engine: EngineConfig, world: Outside, tries: seq<Try>) {
    forall k :: 0 <= k < |tries| ==> (tries[k].good <==> world.season(k) < engine.evolution.seasonalGood)
  }

  /** How many there were when the last birth was tried. */
  ghost function LastSize(engine: EngineConfig, world: Outside, id: nat, size: nat, tries: seq<Try>): nat {
    if |tries| == 0 then size else size + |Offspring(engine, world, id, size, tries[..|tries| - 1])|
  }

  lemma LastSizeIs(
    engine: EngineConfig, world: Outside, id: nat, agents: seq<Agent>, tries: seq<Try>, middle: seq<Agent>, t: Try)
    requires Born(engine, world, id, agents, tries, middle)
    ensures LastSize(engine, world, id, |agents|, tries + [t]) == |middle|
  {
    assert (tries + [t])[..|tries|] == tries;
  }

  lemma SeasonedNext(engine: EngineConfig, world: Outside, tries: seq<Try>, t: Try)
    requires Seasoned(engine, world, tries) && (t.good <==> world.season(|tries|) < engine.evolution.seasonalGood)
    ensures Seasoned(engine, world, tries + [t])
  {
  }

  /** Chances for the ruined, unless the probabilities are out of range. */
  ghost predicate FateBirths(engine: EngineConfig, world: Outside, ruined: seq<Agent>, tries: seq<Try>) {
    if engine.evolution.Valid() then Fated(engine, world, ruined, tries) else tries == []
  }

  /** In season, if there is room, births are tried while there is, up to their number; otherwise none. */
  ghost predicate SeasonBirths(
    engine: EngineConfig, world: Outside, on: bool, id: nat, before: nat, tries: seq<Try>, after: nat)
  {
    if on && Room(engine, before) && engine.evolution.Valid() then
      && Seasoned(engine, world, tries) && Room(engine, LastSize(engine, world, id, before, tries))
      && |tries| <= engine.birthsPerInterval && (|tries| < engine.birthsPerInterval ==> !Room(engine, after))
    else tries == []
  }

  /** Below the floor, births are tried until it is reached, at most one per initial agent; otherwise none. */
  ghost predicate FloorBirths(
    engine: EngineConfig, world: Outside, initial: nat, id: nat, before: nat, tries: seq<Try>, after: nat)
  {
    if engine.minAgents > 0 && before < engine.minAgents then
      && (forall k :: 0 <= k < |tries| ==> tries[k].good)
      && LastSize(engine, world, id, before, tries) < engine.minAgents
      && |tries| <= initial && (|tries| < initial ==> after >= engine.minAgents)
    else tries == []
  }

  /**
   The births an episode tries, by fate, in season and up to the floor; the first
   id each uses, and who is there before and after each.
   */
  datatype Brood = Brood(
    fate: seq<Try>, season: seq<Try>, floor: seq<Try>, fateId: nat, seasonId: nat, floorId: nat,
    first: seq<Agent>, second: seq<Agent>, third: seq<Agent>, last: seq<Agent>)

  /** The occasions for a birth. */
  datatype Occasion = Fate | Season | Floor

  /**
   What an occasion led to in an episode that has ruined these. The episode
   stops early exactly where chances are needed and out of range.
   */
  ghost predicate Led(
    occasion: Occasion, engine: EngineConfig, world: Outside, episode: nat, ruined: seq<Agent>, initial: nat, b: Brood,
    outcome: Outcome)
  {
    var fated := |ruined| == 0 || engine.evolution.Valid();
    var season := fated && Due(engine.birthInterval, episode);
    match occasion
    case Fate =>
      FateBirths(engine, world, ruined, b.fate) && Born(engine, world, b.fateId, b.first, b.fate, b.second)
    case Season =>
      && b.seasonId == b.fateId + |b.fate| && Born(engine, world, b.seasonId, b.second, b.season, b.third)
      && SeasonBirths(engine, world, season, b.seasonId, |b.second|, b.season, |b.third|)
    case Floor =>
      && (outcome.Done? <==> fated && (season && Room(engine, |b.second|) ==> engine.evolution.Valid()))
      && b.floorId == b.seasonId + |b.season| && Born(engine, world, b.floorId, b.third, b.floor, b.last)
      && if outcome.Done? then FloorBirths(engine, world, initial, b.floorId, |b.third|, b.floor, |b.last|)
         else b.floor == []
  }

  /** The births of an episode. */
  ghost predicate Bore(
    engine: EngineConfig, world: Outside, episode: nat, ruined: seq<Agent>, initial: nat, b: Brood, outcome: Outcome)
  {
    forall occasion: Occasion :: Led(occasion, engine, world, episode, ruined, initial, b, outcome)
  }

  // ---------------------------------------------------------------- a whole episode

  /** Rent is charged in the episodes it falls on, but for preheat ones. */
  predicate RentDue(engine: EngineConfig, world: Outside, episode: nat) {
    engine.rent > 0.0 && Due(engine.rentInterval, episode) && !world.preheat
  }

  /** The stages of an episode. */
  datatype Stage = Trials | Rent | Births

  /** An episode's record: its trials and who was there after them, whom the rent evicted, whom it all ruined, the births, and the end. */
  datatype Episode = Episode(
    number: nat, outset: Outset, trials: seq<Attempted>, present: seq<Agent>, market: seq<MarketEvent>, evicted: seq<Agent>,
    ruined: seq<Agent>, brood: Brood, end: Outset) {

    /** The same with these births and this end. */
    ghost function Ending(b: Brood, end': Outset): Episode {
      Episode(number, outset, trials, present, market, evicted, ruined, b, end')
    }

    /** What an agent holds after the trials and the rent, if it can pay. */
    ghost function Rest(world: Outside, a: Agent): real {
      outset.Stake(world, trials, a) - if RentDue(outset.engine, world, number) then outset.engine.rent else 0.0
    }

    /** Exactly those who cannot pay the rent leave; the others end up with the rest, and the newly born with their due. */
    ghost predicate Paid(world: Outside) {
      && Leave(present, evicted, end.agents) && |end.wealth| == |end.agents|
      && (forall a :: a in present ==>
            (a in end.agents <==> (RentDue(outset.engine, world, number) ==> Rest(world, a) >= 0.0)))
      && (forall i :: 0 <= i < |end.agents| ==>
            end.wealth[i] ==
            if end.agents[i] in present then Rest(world, end.agents[i]) else outset.engine.initialWealth)
    }

    /** What a stage of the episode did: the trials, the rent, or the births, with a chance for everybody ruined. */
    ghost predicate Goes(stage: Stage, world: Outside, initial: nat, outcome: Outcome) {
      match stage
      case Trials => outset.Recorded(world, trials, present, market) && market <= end.market
      case Rent => Paid(world) && ruined == Ruined(trials) + evicted
      case Births => Bore(outset.engine, world, number, ruined, initial, brood, outcome) && brood.last == end.agents
    }

    /** The course of an episode. */
    ghost predicate Runs(world: Outside, initial: nat, outcome: Outcome) {
      forall stage: Stage :: Goes(stage, world, initial, outcome)
    }

    /** Its course up to the births. */
    ghost predicate Begun(world: Outside) {
      forall stage: Stage :: stage.Births? || Goes(stage, world, 0, Done)
    }

    lemma BegunIs(world: Outside)
      requires outset.Recorded(world, trials, present, market) && market <= end.market
      requires Paid(world) && ruined == Ruined(trials) + evicted
      ensures Begun(world)
    {
    }

    lemma BegunPaid(world: Outside)
      requires Begun(world)
      ensures Paid(world)
    {
      assert Goes(Rent, world, 0, Done);
    }

    /** With the births it is complete. */
    lemma BegunRuns(world: Outside, initial: nat, b: Brood, end': Outset, outcome: Outcome)
      requires Begun(world) && end.market <= end'.market && b.last == end'.agents
      requires Bore(outset.engine, world, number, ruined, initial, b, outcome) && Ending(b, end').Paid(world)
      ensures Ending(b, end').Runs(world, initial, outcome)
    {
      assert Goes(Trials, world, 0, Done) && Goes(Rent, world, 0, Done);
    }
  }

  /** Episodes one after another, each beginning where the one before ended; all but the last done. */
  ghost predicate Annals(
    outset: Outset, number: nat, initial: nat, worlds: seq<Outside>, episodes: seq<Episode>, end: Outset, outcome: Outcome)
  {
    if |episodes| == 0 then end == outset && outcome.Done?
    else
      var n := |episodes| - 1;
      && n < |worlds| && episodes[n].end == end && episodes[n].number == number + n + 1
      && Annals(outset, number, initial, worlds, episodes[..n], episodes[n].outset, Done)
      && episodes[n].Runs(worlds[n], initial, outcome)
  }

  lemma AnnalsNext(
    outset: Outset, number: nat, initial: nat, worlds: seq<Outside>, episodes: seq<Episode>, e: Episode, outcome: Outcome)
    requires Annals(outset, number, initial, worlds, episodes, e.outset, Done) && |episodes| < |worlds|
    requires e.Runs(worlds[|episodes|], initial, outcome) && e.number == number + |episodes| + 1
    ensures Annals(outset, number, initial, worlds, episodes + [e], e.end, outcome)
  {
    assert (episodes + [e])[..|episodes|] == episodes;
  }

  // ---------------------------------------------------------------- scores

  /** The path reward is linear in the score: centered, it goes from minus to plus its scale; otherwise from nothing. */
  lemma PathRewardIs(rewards: RewardConfig, score: real)
    ensures var high := rewards.pathScale * rewards.envScale; var low := if rewards.center then -high else 0.0;
      rewards.PathReward(score) == low + score * (high - low)
  {
    var k := rewards.pathScale * rewards.envScale;
    assert rewards.PathReward(score) == k * (if rewards.center then 2.0 * score - 1.0 else score);
  }
}
