# Verified models of the swarm's consensus, economies and hub

This project models, in Dafny, the parts of the repository whose correctness is a
statement about every run: the Raft node and its cluster, gossip merging, the two
agent economies, the hub's rate limiter, event bus, turn policy and semantic
registry, and the trainer's resumable loop. Code that updates objects in place is
modelled by classes whose methods are proved against specification functions or
against statements about the whole state; the functions and the runs built from
them carry the theorems.

`dafny verify dfyconfig.toml` checks everything.

## What is modelled

**Raft** (`raft_*.dfy`). `RaftProtocol` gives every handler as a function on a
node value; `RaftNode` is the node as a class, each method proved to do exactly
what its function says, loops included. `RaftCluster` is the step relation: nodes,
disks and a set of sent packets that may be lost, delayed, repeated and reordered,
with crashes between handlers and inside the handling of a message, between the
write that records a higher term and the rest. The clock is a parameter, a timer
is a step the scheduler may take whenever the state check allows it, membership is
fixed, and a durable write replaces the disk image and succeeds. Proved over every
run: election safety, leader append-only, no failed lookup in any handler, and,
where a leader proposes only while it believes every peer has exactly its log, Log
Matching. Follower splicing, commitment and delivery are proved for every log and
message. A leader's search for the place where its log and a follower's meet is
followed over runs: one position back for each refusal, and no further than it must
(`raft_backoff.dfy`).

Four things the comments promise are not true of the code. Each is settled here
with a run that shows it and the condition that decides it:

- Log Matching (swarm/consensus/raft.py:505 and 540-542): a proposal sends one
  entry but describes the position after `next_index`. The entry it sends sits at
  the position it claims exactly when `next_index` is one past the old log
  (`TruthfulExactly`); otherwise two logs come to differ under one term
  (`LogMatchingNeedsAddressing`), from any state in which a peer takes in a first
  such message at a place past the leader's log or among its own entries
  (`UnaddressedBreaks`).
- The commit index never moving back (swarm/consensus/raft.py:630-635): it moves
  back exactly when an accepted message cuts or leaves the log shorter than what
  was committed while announcing a higher commit (`MessageDelivers`,
  `CommitMonotoneExactly`), which a run reaches (`CommitMovesBack`). Deliveries are
  still each made once, in order.
- Leader Completeness (swarm/consensus/raft.py:320-324): a leader commits an entry
  that the next leader lacks. There are two separate causes. A follower
  acknowledges its whole log, not the part its leader knows of (line 642,
  `LeaderCompletenessFails`), and a leader counts an answer given in an earlier
  term, since it compares no terms (lines 646-656, `TrueAnswersAreNotEnough`,
  where every answer is true when it is sent). Whether the current leader's entry
  is safe is decided exactly: every later leader will have it, however the run
  goes on, if and only if the nodes that lack it now are no majority
  (`KeptExactly`, `CommitKeptExactly`).
- State Machine Safety (swarm/consensus/raft.py:320-324): two nodes deliver
  different commands at position 1 (`StateMachineSafetyFails`). What a follower
  newly delivers is its leader's exactly when the two logs agree in term at the new
  commit index, which the code does not compare (`DeliversLeadersExactly`).

Both properties are then proved of every run, with crashes, loss and reordering,
in which each counted answer was about entries its sender has held in the
counting leader's term, and each commit index taken over lies where the logs
agree (`LeaderCompleteness`, `StateMachineSafety`). A guard on the node's own
fields and the message at hand is enough for that: count an answer only if it is
of one's own term, and after accepting a message let the log end where the message
does unless a term conflicts (`GuardedIsTrue`). A run that keeps it can commit
(`GuardedRunCommits`); `TrueAnswersAreNotEnough` keeps its second half alone. The
argument records which node held which entry in which term; once every majority
has a node that held an entry in its own term, no later leader lacks it
(`SecuredIsKept`), which rests on what a vote and an up-to-date log preserve
(`UpToDateKeeps`, `NextKeepsSafe`).

**Gossip** (`gossip.dfy`). A node numbers its writes, sends snapshots, and merges
what it receives item by item. Whatever is lost, repeated or overtaken, a copy is
always exactly the sender's data as of the newest version that has arrived.

**The training economy** (`economy_*.dfy`, `hayek_*.dfy`). Agents are
objects; auctions, payments, step rewards, path rewards, bankruptcy, rollback and
replay, forced role recovery, rent and births change them in place. Money is
`real`. The outside world is an input: who is awake, how ties fall, what the
environment pays and when it is done, whose names its history holds, its score,
and what the birth factories give. A repair birth keeps the role of its source.
Ids are given out by a counter, and a birth attempt uses one up whether or not it
succeeds. A terminal step's restriction to certain tags is a choice of who is
awake. The bid scheme is one of the three known ones.

Bids and statuses outlive an auction, a rollback and an episode. Both engines keep
a ghost history of who joined and which auctions were held, and its book: the last
bid and status of everyone who ever took part. Every method is proved to extend
the history by what it did, and the history to explain what every agent shows. So
the laws of the market, proved once about histories, hold of the engines: under
the fixed schemes nobody becomes a tycoon, an auction that a novice is sure to win is
won by one, bids grow by at most one premium per promoting auction, and under "fixed_with_eps"
a veteran's bid stands. The book also fixes the opening bid of a trial that is
accepted only after others have failed.

`HayekLedger` says on values what a step, a trial and an episode are worth to whom,
given who won each step at what price: `Income` adds up a trial's steps, `Gain` a
whole trial, `Stake` the trials of an episode, and `Rest` what the rent leaves of
that. The engine is proved to keep such records and to pay by them. An episode's
record (`Episode.Runs`) lists every trial, failed ones included, whom each of them
and the rent ruined, and every birth tried on each occasion; `Annals` strings the
records of successive episodes together.

**The mesh economy** (`mesh_history.dfy`, `mesh_economy.dfy`). The payment chain lives in the engine
and outlives the agents in it. The engine is proved to keep a value beside it: who
is there, what everyone ever admitted holds, the chain, and the history of the
market. `MeshHistory` says on such values what each call does, and every method
meets it, so that a sequence of calls is a chronicle with no step unexplained; where
money comes from and goes to is then a theorem about chronicles. A candidate named
twice bids twice, which under "fixed" costs a novice its premium
(`NoviceListedTwiceMayLose`); when novices are sure to win all the same is decided
exactly (`NoviceWinsExactly`).

**The hub** (`rate_limiter.dfy`, `event_bus.dfy`, `turn_policy.dfy`,
`semantic_registry.dfy`) and **the trainer** (`training_run.dfy`). What a request
deserves of the rate limiter is counted out over the limiter's whole history
(`Deserves`), without windows or pruning.

## Model

| member | source | states |
|---|---|---|
| RaftElection.ElectionSafety | swarm/consensus/raft.py:445-478 | over any run with loss, duplication, reordering and crashes, no two nodes are ever leaders of the same term |
| RaftElection.LeaderAppendOnly | swarm/consensus/raft.py:527-544 | while a node leads a term its log only grows at the end, whatever messages arrive |
| RaftElection.HandlersNeverFail | swarm/consensus/raft.py:500-521 | in every reachable state no step the scheduler may take makes a handler miss a key of its tables |
| RaftElection.TwoMajoritiesMeet | swarm/consensus/raft.py:597-600 | two strict majorities of the cluster share a voter |
| RaftElection.TermIsOpen | swarm/consensus/raft.py:590-600 | a candidate with a majority of recorded votes is in a term nobody has won |
| RaftElection.GrantSound | swarm/consensus/raft.py:563-588 | granting a vote, persisted before the reply, keeps one vote per voter and term on record |
| RaftElection.RestartSound | swarm/consensus/raft.py:413-430 | a restart from disk keeps term, vote and log consistent with everything the node has said |
| RaftElection.LeaderGetsNoAppend | swarm/consensus/raft.py:602-608 | a leader never receives AppendEntries of its own term |
| RaftElection.NextKeepsInv | swarm/consensus/raft.py:546-561 | every step of the cluster keeps the election invariant |
| RaftElection.RunKeepsInv | swarm/consensus/raft.py:387-430 | the election invariant holds in every state of every run, crashes included |
| RaftLogs.LogMatching | swarm/consensus/raft.py:602-630 | in runs of addressed proposals, logs with the same term at a position, at whatever times, agree up to it |
| RaftLogs.IndexIsPosition | swarm/consensus/raft.py:527-538 | in those runs every entry's index is its position |
| RaftLogs.TruthfulExactly | swarm/consensus/raft.py:500-544 | the entry a proposal sends sits where the message says if and only if the leader's `next_index` for the peer is one past its old log |
| RaftAddressing.UnaddressedBreaks | swarm/consensus/raft.py:500-544 | after a run of addressed proposals, one that is not addressed to a peer which takes it in can be followed by logs that agree in term at a position and differ, if the position named is past the leader's log or holds an entry of its own term |
| RaftLogs.SpliceCarries | swarm/consensus/raft.py:610-630 | after an accepted splice the log carries the message's entries, in term, at the message's positions |
| RaftLogs.ConflictHasPlace | swarm/consensus/raft.py:610-630 | every conflict has such a first place |
| RaftLogs.SpliceIdempotent | swarm/consensus/raft.py:610-630 | splicing the same message again changes nothing |
| RaftLogs.SpliceKeepsOrConflicts | swarm/consensus/raft.py:610-630 | the old log stays a prefix unless a term conflicts, and then the log ends where the message does |
| RaftLogs.SpliceCutsAt | swarm/consensus/raft.py:610-630 | where log and message first disagree in term, the log is cut and continued with the rest of the message |
| RaftLogs.SpliceOk | swarm/consensus/raft.py:602-630 | splicing a quotation of a winner's log into a consistent log keeps every prefix a prefix of some winner's log |
| RaftLogs.NextKeepsLogs | swarm/consensus/raft.py:546-561 | every step with addressed proposals keeps logs and messages prefixes or quotations of winners' logs |
| RaftNode.SpliceGrows | swarm/consensus/raft.py:610-630 | one turn of the in-place splicing loop takes the spliced log of the entries so far to that of one more |
| RaftNode.RaftNode.SpliceIn | swarm/consensus/raft.py:610-630 | the loop leaves the log equal to the splice of the whole message |
| RaftNode.RaftNode.StartElection | swarm/consensus/raft.py:445-478 | the method's state and packets are those of the specification, persisted before any request is sent |
| RaftNode.RaftNode.BecomeLeader | swarm/consensus/raft.py:480-491 | every peer's next index is one past the log and its match index 0 |
| RaftNode.RaftNode.SendHeartbeats | swarm/consensus/raft.py:493-525 | a leader sends every peer an empty message about the end of what it believes the peer has, as the specification does |
| RaftNode.RaftNode.HandleRequestVote | swarm/consensus/raft.py:563-588 | the method's state and reply are those of the specification |
| RaftNode.RaftNode.HandleVoteResponse | swarm/consensus/raft.py:590-600 | the method counts a vote and takes office as the specification does |
| RaftNode.RaftNode.Propose | swarm/consensus/raft.py:527-544 | a leader appends, persists and sends one entry to each peer; anyone else refuses |
| RaftNode.RaftNode.HandleAppendEntries | swarm/consensus/raft.py:602-644 | the method's state, deliveries and reply are those of the specification |
| RaftNode.RaftNode.HandleAppendResponse | swarm/consensus/raft.py:646-656 | the method records an acknowledgement or backs off as the specification does |
| RaftNode.RaftNode.CheckCommit | swarm/consensus/raft.py:658-676 | the loop commits and delivers up to the target the specification picks |
| RaftNode.RaftNode.ApplyCommitted | swarm/consensus/raft.py:678-684 | each committed entry not yet delivered is delivered once, in order, inside the log |
| RaftNode.RaftNode.HandleMessage | swarm/consensus/raft.py:546-561 | a message is handled after adopting and persisting a higher term, as the specification does |
| RaftBackoff.RefusalBacksOff | swarm/consensus/raft.py:646-656 | a refused answer of no later term moves the position that the next message to its sender names one back, down to the start, and changes nothing else in the cluster |
| RaftBackoff.AcceptanceAdvances | swarm/consensus/raft.py:646-656 | an accepted one puts the position and the match index where the answer says, and nobody else's |
| RaftBackoff.StaleIsTold | swarm/consensus/raft.py:546-561 | a request of an earlier term changes nothing and is refused with the node's own term, on which whoever is behind steps down, gives up its vote and keeps its log |
| RaftBackoff.RefusalsCounted | swarm/consensus/raft.py:500-521 | over any stretch of a run in which a node leads and hears no acceptance from a peer, the position it names to that peer is as many places back as it has heard refusals, whatever else happens |
| RaftBackoff.RefusalsRunOut | swarm/consensus/raft.py:602-608 | after as many refusals as the first position is from the start, its next message passes the consistency check of any log |
| RaftBackoff.RoundIs | swarm/consensus/raft.py:493-525 | a heartbeat passes exactly where the two logs meet, and then the leader has the length of the follower's log |
| RaftBackoff.BackoffEnds | swarm/consensus/raft.py:646-656 | when heartbeats and their answers alternate there are at most `next_index` - 1 refusals, and the heartbeat that passes is the first to name a position where the logs meet |
| RaftBackoff.LeaderFindsLog | swarm/consensus/raft.py:646-656 | from every state of every run of addressed proposals there is such a continuation, ending with the leader's tables right about the follower |
| RaftCommit.ReplicasCount | swarm/consensus/raft.py:658-670 | the counting loop counts exactly the peers that acknowledged the index |
| RaftCommit.PeersDistinct | swarm/consensus/raft.py:328-337 | a node's peers are the other members, so none is listed twice |
| RaftCommit.CheckCommitIsGreatest | swarm/consensus/raft.py:658-676 | the check ends at the greatest index above the old commit with an entry of the current term and a majority, or changes nothing |
| RaftCommit.RunCommitIsGreatest | swarm/consensus/raft.py:658-676 | so it does at every node of every run, whose peers are listed once each |
| RaftCommit.MessageDelivers | swarm/consensus/raft.py:630-635 | for every message, deliveries only grow and in order; the commit index moves back, or parts from the last delivery, if and only if the message is a retreat |
| RaftCommit.DeliveredOnceInOrder | swarm/consensus/raft.py:678-684 | within one incarnation every position 1, 2, 3, ... is delivered once, in order, and stays delivered |
| RaftCommit.CommitKeptWithoutRetreat | swarm/consensus/raft.py:630-635 | along any stretch of a run without a retreat the commit index never decreases and equals the last delivery |
| RaftCommit.CommitMonotoneExactly | swarm/consensus/raft.py:630-635 | a stretch keeps its commit index at every step if and only if no step of it is a retreat |
| RaftCommit.DeliversLeadersExactly | swarm/consensus/raft.py:630-644 | what a follower newly delivers on accepting a message is exactly what its sender's log has at those positions, if and only if at the new commit index that log has an entry of the same term |
| RaftCommit.AckIsTrueExactly | swarm/consensus/raft.py:602-644 | an acceptance acknowledges the follower's whole log, and the answer is true when it is sent if and only if the leader's log reaches that index with the same term |
| RaftCounterexamples.LogMatchingNeedsAddressing | swarm/consensus/raft.py:500-544 | a run of two nodes with two quick proposals ends with different commands at one position under one term |
| RaftCounterexamples.GuardedRunCommits | swarm/consensus/raft.py:646-684 | a run that keeps the guard in which a leader commits and delivers its entry |
| RaftCounterexamples.StateMachineSafetyFails | swarm/consensus/raft.py:632-644 | a run of addressed proposals in which two nodes deliver different commands at position 1 |
| RaftCounterexamples.LeaderCompletenessFails | swarm/consensus/raft.py:636-676 | a run of addressed proposals in which an entry committed in term 2 is missing from the log of the leader of term 3 |
| RaftCounterexamples.CommitMovesBack | swarm/consensus/raft.py:610-635 | a run that takes a follower's commit index from 2 back to 1 after both were delivered |
| RaftStaleAnswer.TrueAnswersAreNotEnough | swarm/consensus/raft.py:646-656 | among any five nodes, a run of addressed proposals whose every answer is true when sent, in which an answer of term 2 counted in term 4 commits two entries that the leader of term 5 lacks |
| RaftCompleteness.UpToDateKeeps | swarm/consensus/raft.py:575-588 | a log at least as up to date as one that keeps an entry of a leader's own term keeps it too |
| RaftCompleteness.NextKeepsSafe | swarm/consensus/raft.py:546-561 | every step keeps this: an entry of a leader's own term stays in the log of a node that held it in that term, is in the log of a candidate it votes for and in that of every later winner, unless a majority has left the term without it |
| RaftCompleteness.RunKeepsSafe | swarm/consensus/raft.py:445-600 | it holds in every state of every run of addressed proposals |
| RaftSafety.SecuredIsKept | swarm/consensus/raft.py:320-324 | once every majority has a node that held an entry of its leader's own term in that term, every leader of a later term begins with everything up to it |
| RaftSafety.CountedIsSecured | swarm/consensus/raft.py:658-676 | a majority of acknowledgements of entries really held in the term makes the entry secured |
| RaftSafety.LeaderCompleteness | swarm/consensus/raft.py:320-324 | in every run whose counted answers were held and whose commits are the leader's, whatever any node ever commits is in the log of every leader of that term or a later one from then on |
| RaftSafety.StateMachineSafety | swarm/consensus/raft.py:320-324 | in every such run any two nodes, at any two moments, deliver the same entry at the same position |
| RaftSafety.GuardedIsTrue | swarm/consensus/raft.py:632-656 | a run is such if every answer is counted only in its own term and every accepted message leaves a log that conflicted or ends with the message, both of which a node could check |
| RaftExactness.KeptExactly | swarm/consensus/raft.py:658-676 | an entry of the latest leader's own term will be in the log of every later leader, in every continuation, if and only if no majority of the nodes lacks it now |
| RaftExactness.CommitKeptExactly | swarm/consensus/raft.py:658-676 | so what that leader has committed is safe from then on if and only if no majority lacks it, whatever was counted |
| GossipMerge.SnapshotGrows | swarm/consensus/raft.py:773-782 | a later snapshot has every key of an earlier one and agrees with it on all items as old as that |
| GossipMerge.MergeIsNewest | swarm/consensus/raft.py:907-917 | merging two snapshots of one node gives the later of them, whichever came first |
| GossipMerge.LocalIsLast | swarm/consensus/raft.py:773-782 | a key holds the value of the last write under it, with the number of that write as its version |
| GossipMerge.LocalIsWritten | swarm/consensus/raft.py:773-782 | a node holds nothing else of its own |
| GossipNodes.GossipNode.Set | swarm/consensus/raft.py:773-782 | local data is exactly what the writes so far leave, each numbered in turn |
| GossipNodes.GossipNode.SendPayload | swarm/consensus/raft.py:922-930 | a payload is a snapshot of the local data with its version |
| GossipNodes.GossipNode.HandlePayload | swarm/consensus/raft.py:907-917 | items are taken over if and only if their version is higher, in whatever order they are visited, and no other peer's copy changes |
| GossipRuns.CopyIsNewestSnapshot | swarm/consensus/raft.py:907-930 | in every run a copy is exactly its owner's data as of the newest version that has arrived |
| GossipRuns.NewestPayloadWins | swarm/consensus/raft.py:907-930 | once the newest payload has arrived the copy equals the owner's data, whatever stale payloads follow |
| GossipRuns.HighestVersionArrived | swarm/consensus/raft.py:907-917 | each key of a copy holds the highest version that arrived under it, and only what arrived |
| EconomyAgent.SumShifted | hayekmas/base/agent.py:111-134 | moving one of several distinct agents moves their total by as much |
| EconomyAgent.SumPaid | hayekmas/base/mas.py:411-418 | paying a list, repeats included, moves the total by the payment times the length of the list |
| EconomyAgent.SumAfterPayment | hayekmas/base/mas.py:655-661 | a bid paid to the previous winner leaves the total as it is, even when they are the same agent; paid to nobody it leaves the total that much lower |
| EconomyAgent.Pay | hayekmas/base/mas.py:655-661 | the winner is debited and the previous winner credited, both if they are the same |
| EconomyAgent.Unique | hayekmas/base/mas.py:399-409 | the deduplicated list has the same ids as the original, each once |
| EconomyAgent.SharesAddUp | hayekmas/base/mas.py:687-702 | equal shares add up to what was split |
| EconomyBidding.NoviceOutbidsAll | hayekmas/base/mas.py:574-606 | under both fixed schemes with a positive premium and no tycoon, a top bidder was a novice whenever a novice takes part |
| EconomyBidding.RebidsSettle | hayekmas/base/mas.py:573-649 | under every scheme, however often somebody is listed, all participants have a bid and none is a novice afterwards, and nobody loses a bid |
| EconomyBidding.TrailSteady | hayekmas/base/mas.py:574-606 | over any history of joining and auctions nobody becomes a tycoon under the fixed schemes |
| EconomyBidding.TrailTame | hayekmas/base/mas.py:574-606 | and bids stay below the base bid plus one premium per promoting auction |
| EconomyBidding.NoviceWins | hayekmas/base/mas.py:574-606 | in any history every auction a novice is sure to win has been won by one |
| EconomyBidding.NoviceWinsExactly | voidtether/economy/auction.py:25-125 | every possible winner of an auction under the fixed schemes was a novice if and only if, under "fixed_with_eps", a novice takes part, and under "fixed", one is listed exactly once or only novices are listed |
| EconomyBidding.RebidsFixed | voidtether/economy/auction.py:92-105 | under "fixed" a bidder ends up with the premium bid exactly if it is a novice listed once, and with the base bid however else it is listed |
| EconomyBidding.RebidsHolland | hayekmas/base/mas.py:607-643 | under "holland" a novice listed once bids the premium over the tycoons; otherwise whoever has reached the threshold becomes a tycoon, a tycoon bids its share of its wealth and everyone else the base bid |
| EconomyBidding.HighBidIs | hayekmas/base/mas.py:589-620 | the bid a novice must top is the highest of the veterans, or of the tycoons, or the base bid if they have none |
| EconomyBidding.NoviceListedTwiceMayLose | voidtether/economy/auction.py:92-105 | under "fixed" an auction that lists a novice twice may be won by a veteran |
| EconomyBidding.RebidsWithEps | hayekmas/base/mas.py:589-606 | under "fixed_with_eps" rebidding changes novices alone, and those once, however often they are listed |
| EconomyBidding.VeteranBidStands | hayekmas/base/mas.py:589-606 | under "fixed_with_eps" a veteran's bid never changes over any history |
| EconomyBidding.InitializeBids | voidtether/economy/auction.py:67-156 | the loop leaves every agent as the book says once all listed have rebid in turn, repeats included; an unknown scheme is refused |
| EconomyBidding.FindHighBid | voidtether/economy/auction.py:115-121 | the bid to beat is the highest of the given status, or the base bid |
| EconomyBidding.SelectWinner | hayekmas/base/mas.py:649-652 | the winner is one of the highest bidders and the price is its bid |
| EconomyBidding.RunAuction | voidtether/economy/auction.py:25-65 | an auction extends the history that explains everyone's bid and status by itself, is won by a highest bidder at its bid, and moves no money |
| EconomyBidding.MarketIsFair | hayekmas/base/mas.py:574-606 | whoever a history explains: no tycoons under the fixed schemes, bids within one premium per promoting auction, and a novice won wherever one was sure to |
| EconomyPopulation.Richest | hayekmas/base/population.py:121-126 | the first of the wealthiest agents, if there is any |
| EconomyPopulation.Poorest | hayekmas/base/population.py:128-133 | the first of the poorest agents, if there is any |
| EconomyPopulation.NamedIsLast | hayekmas/base/mas.py:364-375 | a name finds the last agent registered under it |
| EconomyPopulation.SplitBankrupts | hayekmas/base/mas.py:181-196 | the living and the bankrupt, each in order |
| EconomyPopulation.SplitInOrder | hayekmas/base/mas.py:181-196 | both keep the order of the population, and nobody comes to be listed twice |
| EconomyPopulation.DeadCoverMissing | hayekmas/base/mas.py:310-323 | every role that a bankruptcy removes has a bankrupt agent, and there are no more such roles than bankrupts |
| HayekEconomy.PathSharesAddUp | hayekmas/base/config.py:48-62 | the per-agent path reward times the number of agents is scale times signal, and nothing when nobody is on the path |
| HayekEconomy.CountedOnce | hayekmas/base/mas.py:691-697 | each agent of a chain is counted exactly once among its unique members |
| HayekLedger.RecentIs | hayekmas/base/mas.py:676-678 | the chain after a step has exactly as many entries as the window and the steps so far allow, the last winners in order |
| HayekLedger.SalesAt | hayekmas/base/mas.py:571-652 | in a trial's record each step was an auction among those awake at it, won by the recorded winner at its bid in the market's book |
| HayekLedger.ActiveInOrder | hayekmas/base/mas.py:571-573 | whoever is awake takes part, in the order of the population |
| HayekLedger.PathIsWalked | hayekmas/base/mas.py:358-376 | the path has the last agent of its author's name for every action with a known author, in the order of the actions, and nobody else |
| HayekLedger.PathRewardIs | hayekmas/base/config.py:48-62 | the path reward is linear in the score: centered, from minus to plus its scale, and otherwise from nothing |
| HayekEconomy.ShareReward | hayekmas/base/mas.py:687-702 | every distinct agent of the chain gets an equal share and the total grows by the reward |
| HayekEconomy.PayReward | hayekmas/base/mas.py:685-713 | a nonzero reward is shared along the chain if so configured, and otherwise all goes to the winner, in money and in merit |
| HayekEconomy.Hayek.HoldAuction | hayekmas/base/mas.py:571-661 | the highest bidder pays its bid to the previous winner, a novice wins if the premium applies, everyone else keeps their money, and the history grows by this auction alone |
| HayekEconomy.Hayek.SeatWinner | hayekmas/base/mas.py:571-678 | the winner pays its bid to the winner before it and takes its place in the chain, which grows by one up to its window and holds the last winners of the trial |
| HayekEconomy.Hayek.RunStep | hayekmas/base/mas.py:571-713 | who gains and who loses what in one step: the winner pays the one before it, the reward is credited in equal parts to the distinct winners of the last steps, or to this one alone, and to nobody else; bids and statuses change by this auction alone |
| HayekEconomy.Hayek.RunAuctionActionLoop | hayekmas/base/mas.py:511-731 | over the whole trial everybody gains exactly the credits of its steps, less the bids it paid, plus those it was paid; each step was an auction among those then awake; the totals move by the rewards less the first bid, and the loop stops exactly when it should |
| HayekEconomy.Hayek.DurationIs | hayekmas/base/mas.py:511-731 | a trial's steps go on while they are allowed, somebody is awake and the environment is not done, and no further |
| HayekEconomy.Hayek.PathAgents | hayekmas/base/mas.py:358-376 | the path lists, in order, the living author of every action |
| HayekEconomy.Hayek.PayoutTargets | hayekmas/base/mas.py:396-409 | the payout goes to every entry of the path, or to each author once |
| HayekEconomy.Hayek.ApplyPathRewards | hayekmas/base/mas.py:378-418 | each target gets an equal part per entry, nobody else anything, and in all scale times signal is paid whenever anyone is |
| HayekEconomy.Hayek.RunTrial | hayekmas/base/mas.py:802-810 | a whole trial brings everybody its income from the steps and its shares of the path reward, and moves the totals by the change in total rewards less the first winner's bid |
| HayekEconomy.Hayek.RemoveBankruptAgents | hayekmas/base/mas.py:171-196 | exactly the bankrupts leave, each once and in order, and they cover the roles that go missing |
| HayekEconomy.Hayek.AddBornAgent | hayekmas/base/mas.py:228-237 | a newborn is admitted if and only if it exists and the cap has room, and starts afresh |
| HayekEconomy.Hayek.Found | hayekmas/base/pipeline.py:193-201 | the first agents enter fresh, one per template, and within the cap they are a sound and solvent economy |
| HayekEconomy.Hayek.EnsureNecessaryRolesExist | hayekmas/base/mas.py:299-334 | success covers every missing role with one birth each; failure names a missing role without a bankrupt, a cap without room or the attempt at which the factory gave nothing |
| HayekEconomy.Hayek.SettleBankruptcies | hayekmas/base/mas.py:836-843 | from a sound economy removal and recovery never fail, never need more room than the bankrupts free, and leave somebody |
| HayekEconomy.Hayek.TakeSnapshot | hayekmas/base/mas.py:784-800 | the snapshot holds everyone's wealth and capability by id, and no id not yet given out |
| HayekEconomy.Hayek.Restore | hayekmas/base/mas.py:850-855 | saved agents get back what was saved and all others keep what they have |
| HayekEconomy.Hayek.Attempt | hayekmas/base/mas.py:793-860 | exactly those leave whose holdings and what the trial brought them come to less than nothing; a trial without bankruptcies stands with its ledger; otherwise every survivor has exactly what it had, everyone else is newly born and the rewards are undone |
| HayekEconomy.Hayek.ReplayLoop | hayekmas/base/mas.py:784-860 | every trial of an episode is on record: who was there, who won its steps at what price, what it brought everybody and that it ruined exactly those it left in debt; only the accepted one leaves a trace, its ledger starting from everyone's holdings before the episode and its opening bid from the bids and statuses of the book by then; without one those holdings stand |
| HayekEconomy.Hayek.ChargeRent | hayekmas/base/mas.py:862-882 | exactly those who cannot pay leave, the others pay, and all roles are represented again |
| HayekEconomy.Hayek.RentStage | hayekmas/base/mas.py:862-882 | rent is charged exactly if it is positive, the episode is one of its interval and not a preheat one |
| HayekEconomy.Hayek.FateBirth | hayekmas/base/mas.py:286-297 | one draw: a child of the richest below the first chance, a repair of this bankrupt below the sum, and nothing above; it joins if the factory gives it and there is room |
| HayekEconomy.Hayek.ResolveBankruptcyBirths | hayekmas/base/mas.py:275-297 | it is refused exactly when there are bankrupts and the probabilities are out of range; otherwise each bankrupt in turn has its one draw, and exactly those are born whom the factories give and for whom there is room, by name, role and order |
| HayekEconomy.Hayek.PeriodicBirths | hayekmas/base/mas.py:926-939 | it is refused exactly when the probabilities are out of range; otherwise births are tried, each with room, until their number or the cap is reached, a child or a repair by draw |
| HayekEconomy.Hayek.SeasonalBirth | hayekmas/base/mas.py:932-939 | one draw: a child of the richest or a repair of the poorest, which joins if the factory gives it and there is room |
| HayekEconomy.Hayek.GoodBirth | hayekmas/base/mas.py:901-907 | below the floor the parent is the richest, as there always is one, and not the template |
| HayekEconomy.Hayek.Replenish | hayekmas/base/mas.py:894-907 | births of children are tried, each below the floor, until the floor is reached or once per initial agent |
| HayekEconomy.Hayek.EndBirths | hayekmas/base/mas.py:887-907 | each of the ruined has its draw; in season, if there is room, births are tried up to their number or the cap; below the floor, until it is reached or once per initial agent; and otherwise none. Who is there afterwards follows exactly, by name and role, from the tries and what the factories give |
| HayekEconomy.Hayek.TrainForward | hayekmas/base/mas.py:757-907 | the record of an episode: the trials as replayed, then everybody present ends with what it had and what the accepted trial brought it, less the rent exactly when rent is due, and leaves exactly if it cannot pay that; the ruined are those of every trial and of the rent, each with one chance of birth; the economy stays sound and solvent, veterans' bids stand under "fixed_with_eps", and only bad probabilities stop it early |
| HayekEconomy.Hayek.Train | hayekmas/base/mas.py:757-907 | the records of any sequence of episodes, each beginning where the one before ended; every initial role is represented, and the whole market so far has been fair to newcomers: rollbacks, births and removals included |
| MeshEconomy.ProcessPayment | voidtether/economy/auction.py:160-184 | skipping a payment to oneself has the effect of debiting and crediting, so the total moves only when a bid opens a chain |
| MeshEconomy.MeshEngine.RegisterAgent | voidtether/economy/engine.py:80-99 | a new agent joins as a novice with the initial wealth and no bid, and nothing else changes |
| MeshEconomy.MeshEngine.UnregisterAgent | voidtether/economy/engine.py:101-111 | the first agent of that name leaves with its money, and nothing else changes |
| MeshEconomy.MeshEngine.RunAuction | voidtether/economy/engine.py:115-168 | every candidate known in the population is heard, the last agent of its name once per mention, and bids no more than the price; a highest bidder pays the previous winner, gone or not, or nobody, and the history grows by this auction; nothing changes without bidders or under an unknown scheme |
| MeshEconomy.MeshEngine.ApplyReward | voidtether/economy/engine.py:177-190 | the first agent of that name gains the amount in wealth and capability, as the reward total does, and nothing else changes |
| MeshEconomy.MeshEngine.CheckBankruptcies | voidtether/economy/engine.py:194-217 | exactly the bankrupts leave, are reported in order and are remembered by name, and nothing else changes |
| MeshEconomy.MeshEngine.AddBornAgent | voidtether/economy/engine.py:353-369 | a newborn is admitted if and only if it exists and the cap has room, as a novice with the initial wealth, no merit and a zero bid |
| MeshEconomy.MeshEngine.SpawnReplacements | voidtether/economy/engine.py:219-262 | it is refused exactly when there are bankrupts and the probabilities are out of range; otherwise exactly those children are born, in order, whose draw is low enough, whose bankrupt is remembered where that matters, and for whom there is room, each with the initial wealth, as a novice with a zero bid |
| MeshEconomy.MeshEngine.Run | voidtether/economy/engine.py:115-262 | any interleaving of calls is a chronicle in which every call does exactly what it says; so money comes with newcomers and rewards alone and goes with payments made while no previous winner stood, the market is fair to newcomers, and under "fixed_with_eps" every veteran has the bid it had |
| MeshEconomy.RunNew | voidtether/economy/engine.py:115-262 | from the start, what everyone ever admitted holds is the initial wealth of each, plus the reward total, less the payments made while no previous winner stood |
| MeshHistory.HappensConserves | voidtether/economy/engine.py:115-262 | what one call of any kind does to the total wealth and capability of everyone ever admitted |
| MeshHistory.ChronicleConserves | voidtether/economy/engine.py:115-262 | what any sequence of calls does to them, and to the standing of the chain |
| MeshHistory.ChronicleAt | voidtether/economy/engine.py:115-262 | in a chronicle every single call did what it says |
| MeshHistory.EnterBrings | voidtether/economy/engine.py:219-262 | newcomers hold the initial wealth and no merit, and the market's book has them as novices with the bid they came with |
| MeshHistory.BiddersAreHeard | voidtether/economy/engine.py:141-161 | the bidders are, for every mention of a candidate known in the population and in the order of the candidates, the last agent registered under its name |
| MeshHistory.UnregisteredIs | voidtether/economy/engine.py:101-111 | only the first agent of that name is taken out, and everyone else stays, in order |
| MeshHistory.KeptIs | voidtether/economy/engine.py:194-217 | the agents in debt and the others, each in order and as often as before |
| MeshHistory.NewbornsStep | voidtether/economy/engine.py:241-262 | a chance leads to a birth exactly if there is a child and room, and the draw is below the first chance with somebody alive, or below the sum with the bankrupt remembered |
| SlidingWindow.PruneTwice | voidtether/server/app.py:84-86 | pruning early and again later is pruning later |
| SlidingWindow.AdmitKeepsSpacing | voidtether/server/app.py:84-93 | admitting a request when fewer than the limit are recent keeps any limit-plus-one requests a window apart |
| SlidingWindow.SpanHoldsLimit | voidtether/server/app.py:84-93 | such a history has at most the limit in any half-open span one window long |
| RateLimiter.AgentLimitHolds | voidtether/server/app.py:76-93 | in every run at most the agent limit of an agent's requests is forwarded in any half-open span one window long |
| RateLimiter.IpLimitHolds | voidtether/server/app.py:95-110 | the same for a client address |
| RateLimiter.VerdictIsSane | voidtether/server/app.py:87-92 | with limits of at least one no request fails, and a refused one is told to wait between 0 and a window |
| RateLimiter.VerdictIsDeserved | voidtether/server/app.py:76-110 | counted over the whole history, a request is forwarded if and only if fewer than the limit were charged to its agent and fewer than the limit forwarded from its address within the last window; a refusal names the kind that is full, and the wait is the whole seconds until the oldest counted request leaves the window |
| RateLimiter.DeservesOnce | voidtether/server/app.py:87-110 | that determines the answer |
| RateLimiter.RunIsDeserved | voidtether/server/app.py:76-110 | so every request of every run was answered |
| RateLimiter.ForwardedWereCharged | voidtether/server/app.py:81-110 | an agent is charged for at least everything forwarded for it, since its window counts requests its address's limit then refuses |
| RateLimiter.Limiter.Handle | voidtether/server/app.py:76-110 | from the pruned windows every request gets the answer that counting over its full history gives, and the windows keep agreeing with that history |
| RateLimiter.Limiter.HandleAll | voidtether/server/app.py:76-110 | the same for any sequence of requests |
| EventBus.OfferedStaysSuffix | voidtether/server/events.py:119-127 | dropping the oldest for the newest keeps a queue a suffix of the events it wants |
| EventBus.OfferedLosesOldest | voidtether/server/events.py:119-127 | a queue loses nothing until it is full, and then only its oldest event |
| EventBus.Bus.SubscriberCount | voidtether/server/events.py:99-102 | the sum of the list lengths is the number of subscribed queues |
| EventBus.Bus.Subscribe | voidtether/server/events.py:62-82 | a new empty queue, refused exactly when the cap is reached |
| EventBus.Bus.Unsubscribe | voidtether/server/events.py:84-97 | a queue leaves exactly when it is on the list the call points at, which is the global one for a session that has no list |
| EventBus.Bus.Targets | voidtether/server/events.py:110-116 | the targets are exactly the queues that want the event, each once |
| EventBus.Bus.Publish | voidtether/server/events.py:104-130 | every queue that wants the event gets it, the oldest making room in a full one; no other queue changes, no subscriber is dropped, and every queue stays the newest part of what it wants since it subscribed |
| EventBus.Bus.Consume | voidtether/server/events.py:75-82 | taking the oldest event leaves a queue the newest part of what it wants |
| TurnPolicy.TurnOrderIs | voidtether/server/sessions.py:115-118 | the order of turns is that of the participants without the user |
| TurnPolicy.TurnsCounted | voidtether/server/sessions.py:115-145 | after m accepted turns an agent has had one per full round, and one more if its place has come up since |
| TurnPolicy.RoundRobinIsFair | voidtether/server/sessions.py:115-145 | in every prefix of the accepted turns any two agents' turns differ by at most one |
| TurnPolicy.Session.CanSpeak | voidtether/server/sessions.py:115-167 | who may speak under each policy; only an agent's own turn moves the round, and the accepted turns go round the order |
| TurnPolicy.Session.Converse | voidtether/server/sessions.py:115-167 | the same over any sequence of calls |
| SemanticRegistry.Registry.RegisterEvent | voidtether/core/semantic_registry.py:36-41 | a session is linked to exactly the entities it mentioned, and the two maps stay inverse |
| SemanticRegistry.Registry.GetRelatedSessions | voidtether/core/semantic_registry.py:43-59 | exactly the other sessions sharing an entity, each with the number of entities shared |
| SemanticRegistry.ScoreIsSymmetric | voidtether/core/semantic_registry.py:43-59 | two sessions are related with the same score both ways |
| TrainingRun.ScheduleIsLexicographic | hayekmas/base/pipeline.py:433-491 | on schedule, earlier entries come before later ones by epoch and then task |
| TrainingRun.PlaceIsUnique | hayekmas/base/pipeline.py:433-491 | no epoch and task come twice |
| TrainingRun.Trainer.SaveProgress | hayekmas/base/pipeline.py:324-372 | what is saved says exactly where the history ends: the next place, the number of tasks and of successes |
| TrainingRun.Trainer.RunEpoch | hayekmas/base/pipeline.py:440-491 | an epoch's loop saves its tasks in order from where it starts, each with the ending it had, up to a crash or to its end |
| TrainingRun.Trainer.Train | hayekmas/base/pipeline.py:424-519 | a session, fresh or resumed, adds the next part of the schedule, each task with the ending it had, and a finished one has all of it and reports its length and successes |
| TrainingRun.Trainer.TrainThroughCrashes | hayekmas/base/pipeline.py:316-519 | over any sequence of crashes and resumes the saved pairs are the start of the schedule with no gap or repeat |

## Left out

- The repaired Raft itself: the guard that would repair it is stated on the steps of the code as written (`GuardedIsTrue`), not built into a second protocol.
- RaftSafety.LeaderCompleteness: over a whole run its condition is sufficient; a run that breaks it may keep the property by luck. The exact conditions are per entry (`KeptExactly`) and per delivery (`DeliversLeadersExactly`).
- RaftExactness.KeptExactly: decides the entries of the latest term won; an entry of an older term, once a later leader may or may not have it, is not decided.
- Raft liveness, timers, jitter and task plumbing: a timer is a step that may be taken at any time the state check allows.
- Raft persistence details: file format, temporary files and swallowed write errors; the disk is replaced as a whole and the write succeeds. A node without a data directory is not modelled.
- Changing a Raft node's peers, and several nodes on one disk.
- RaftLogs.LogMatching: stated for runs whose proposals are addressed as the code's arithmetic needs. A first misaddressed entry that falls among the leader's entries of older terms is not decided: whether logs then come to differ depends on the other peers.
- Gossip heartbeats, digests, failure detection, peer selection and `remove_peer`: a payload's digest appears only as its version.
- EconomyBidding.NoviceWins: claims nothing under "holland", where the premium is computed from earlier bids and a tycoon may outbid a novice; the ledger laws hold there too.
- The population's role index, status counts and sorted queries: the population is an ordered list of agents inside the engine.
- HayekEconomy.Hayek.TrainForward: assumes the bad-birth factory delivers on forced births; what happens when it does not is in `EnsureNecessaryRolesExist`.
- HayekEconomy.Hayek.RunTrial: the merit of each agent is stated for the steps and for the path rewards apart; for the whole trial only money is stated agent by agent, and merit in total.
- HayekEconomy.Hayek.EndBirths: that the source of a good birth is the richest agent, and that of a seasonal repair the poorest, is stated birth by birth (`FateBirth`, `SeasonalBirth`, `GoodBirth`) and not in the record of a whole episode.
- An unknown bid scheme in the training economy, which raises in the middle of a step; the mesh model has it.
- Evaluation mode, statistics, traces, step checkpoints, logging and failure records: no effect on the modelled state.
- LLM clients, prompts, agent actions, environments and birth factories: inputs.
- Floating-point rounding: money and time are `real`.
- The mesh engine's locks, its step-reward splitting (`process_reward`, never called by the engine) and its settings files.
- The rate limiter's header parsing and 429 body: a request arrives as agent id, address and time, handled in order of nondecreasing times.
- The event bus's convenience publishers and asynchronous waiting.
- Session message storage, eviction, timeouts and participant changes: the turn order is fixed.
- Entity extraction from text: the entities of a message are an input.
- `resume_from_task`, periodic tests and checkpoint files of the trainer: one state file and one history file, saved together.
- The quorum, early-termination and pricing helpers, the routes, stores, bridges and user interfaces: thin or timing-driven.
