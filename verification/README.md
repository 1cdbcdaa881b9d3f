# A verified model of a Tendermint-style consensus node

The repository is a Byzantine-fault-tolerant consensus node: a state machine that proposes, prevotes,
precommits and commits blocks, a timeout ticker that drives it, a block executor with BFT time, a block
store, a catch-up loop and the start/stop protocol of its services. This project models those parts in
Dafny and proves what they promise, for every input, every run and every interleaving.

## Layout

| file | what it holds |
|---|---|
| `Quorums.dfy`, `Votes.dfy` | validators and power; hashes, blocks, votes, vote sets, commits |
| `BlockTime.dfy`, `HonestTime.dfy` | the weighted median, in place and declaratively; exact bounds on what faulty validators can do to it |
| `Executor.dfy` | chain state, block validity, block making |
| `Machine.dfy` | the consensus state machine as functions of its state, one per function of the code |
| `ConsensusState.dfy` | the same machine as an object that updates its fields, each method proved equal to its function |
| `NodeInvariant.dfy`, `NodeSteps.dfy`, `Transitions.dfy`, `Commits.dfy`, `Events.dfy` | what every state of one node satisfies, and that every event keeps it |
| `Duties.dfy`, `Answers.dfy` | what each operation must do, stated on the votes, blocks and rounds it finds and leaves; where it panics |
| `Ticker.dfy`, `Wakeup.dfy` | the timeout ticker alone, and joined to the machine |
| `CatchUp.dfy`, `BlockSync.dfy` | one block of catch-up, and the whole loop |
| `Held.dfy` | which blocks a node can come to hold |
| `Network.dfy`, `Agreement.dfy`, `Safety.dfy`, `HonestBlocks.dfy` | any number of processes, any faulty minority, any message order; agreement and the other properties of whole runs |
| `Solo.dfy` | a concrete run that commits a block |
| `BlockStore.dfy`, `Service.dfy` | the block store over a key-value database; starting and stopping under interleaving |

## How the two layers fit

The machine's state (`Machine.Node`) has one component per field of the code, plus three that only record
history: everything signed, every timeout scheduled, every vote accepted. `Events.StepOk` is the theorem
about one node: whatever proposal, vote, timeout or committed block arrives, the invariant of
`NodeInvariant.dfy` is kept, the position (Height, Round, Step) only advances, and everything newly signed
lies above the old position. It assumes nothing about the other nodes.

`Events.StepOk` says what a node may do; `Answers.EventDuty` says what it must do. It determines the state after any
event from the state before, in terms of majorities, blocks held and rounds, without reference to the
functions of `Machine.dfy` that compute it: which block a node prevotes and precommits, when a lock is taken,
kept and released, what is proposed, when a round is entered and when a block is committed.

A `Network.Net` is any number of such processes, each with its ticker, some still catching up. An action
is one input of one process. Messages may be lost, repeated, reordered and delayed without limit; faulty
validators sign anything. The only limits are that a vote of an honest validator is delivered, by itself or
within a commit or a block's LastCommit, only if that validator signed it, and that faulty validators hold
less than a third of the power. The first limit excludes nothing an honest process sends
(`HonestBlocks.HonestMessagesArrive`). The main statements of `Safety.dfy` and `HonestBlocks.dfy`, and
`Agreement.ChainsAgree`, are about every state of every run of such a network.

The invariant behind agreement (`Network.NoConflict`) is phrased over majorities that are still possible,
not only those that exist: while a precommit majority for a block may still come about in a round, no later
round has a prevote majority for anything else. It follows the code rather than the published algorithm:
a locked node prevotes its lock whatever POLRound a proposal carries, and any newer prevote majority for
another value, nil included, releases the lock.

## Where the code and its comments differ

* `consensus/default_block_executor.go:119-122` says the computed time always lies between timestamps of
  honest processes. The upper half holds for every verified commit; the lower half does not, because the
  code rounds half the power down and stops on `<=`. `HonestTime.LowerBoundExact` gives the exact condition
  for lists of timestamps, `HonestTime.CommitLowerBoundExact` for verified commits, and
  `HonestTime.OneFaultyOfFourSetsTheTime` a case with four equal validators.
* `consensus/service.go:65` says Stop may be called without Start. It then returns an error and rolls its
  flag back. If it overlaps a Start that is itself about to be rolled back, OnStop runs and quit is closed
  for a service that never started (`Services.StoppedNeverStarted`); `Services.StopFindsStarted` says
  exactly when that happens.

## Model

| member | source | states |
|---|---|---|
| `Safety.NoLaterConflict` | consensus/consensus_state.go:1379-1468 | In every run, once more than 2/3 of the power (the faulty counted in full) has precommitted a block in a round, no +2/3 prevote majority for anything else, nil included, exists in that round or any later one of the height |
| `Agreement.ChainsAgree` | consensus/consensus_state.go:1582-1686 | In every run, the chains any two honest processes have stored agree at every index both reach, read at any two times, whether a block came by finalizeCommit, processCommitedBlock or catch-up |
| `Agreement.MajoritiesAgree` | consensus/consensus_state.go:1502-1600 | Two precommit majorities for blocks at one height, in whatever rounds, are for the same block |
| `Agreement.PolkasFollowDecision` | consensus/consensus_state.go:1857-1874 | The state form of NoLaterConflict: a precommit majority in round r and a prevote majority in round r' >= r are for the same value |
| `Agreement.OneMajority` | consensus/priv_validator_local.go:68-77 | In one round at most one value gets a majority of one kind, although the signer keeps no memory: honest processes sign at most one vote per round and kind |
| `Agreement.NoConflictStays` | consensus/consensus_state.go:1312-1341 | The inductive step of agreement: whatever action is taken, a prevote majority for another value in a later round never coexists with a precommit majority for a block that has happened or can still happen |
| `Agreement.CandidatesShrink` | consensus/consensus_state.go:1379-1395 | Having passed the precommit step of a round without precommitting a value is final: a majority that cannot come about any more never becomes possible again |
| `Agreement.PrecommitNeedsPolka` | consensus/consensus_state.go:1397-1457 | Every precommit majority for a block comes with a prevote majority for it in the same round |
| `Agreement.OneDecision` | consensus/consensus_state.go:1555-1600 | At most one block is decided at each height |
| `Agreement.StoresAgree` | consensus/consensus_state.go:560-569 | In every reachable network, two stores hold the same block wherever both reach |
| `Agreement.StoresGrow` | consensus/consensus_state.go:1618-1628 | A store only ever grows: what was stored is a prefix of what is stored later |
| `Agreement.RunOk` | consensus/consensus_state.go:842-951 | The network invariant holds in every state of every run, for any number of processes, any interleaving and any loss, delay or repetition of messages |
| `Agreement.ApplyOk` | consensus/consensus_state.go:954-1015 | Every enabled action, of any process, with any input, keeps the network invariant |
| `Safety.ExternalValidity` | consensus/consensus_state.go:1312-1341 | In every run a block with a +2/3 prevote majority was prevoted by an honest validator of the set, passed ValidateBlock on its own chain, builds on the decided block below, and passes ValidateBlock at every honest process that has the chain below it |
| `Safety.DecidedIsVouched` | consensus/consensus_state.go:1602-1604 | Every committed block was prevoted by an honest validator of the set, passed ValidateBlock on its own chain, builds on the decided block below, and passes ValidateBlock at every honest process that has the chain below it |
| `Safety.NoPanic` | consensus/consensus_state.go:726-1604 | In no run with faulty power under 1/3, and with block store writes that succeed, does an honest process reach any of the panics of updateToState, enterPrevoteWait, enterPrecommit, enterPrecommitWait, enterCommit, tryFinalizeCommit, finalizeCommit, handleTimeout or SaveBlock |
| `Safety.NoEquivocation` | consensus/consensus_state.go:1952-1999 | In every run the messages one process signs are ordered strictly by (height, round, step): at most one proposal, prevote and precommit per round, in that order, and nothing for a step already passed |
| `Safety.JustifiedUnlocking` | consensus/consensus_state.go:1857-1874 | If a process precommits a block in round R and prevotes anything else in a later round R', the votes it has accepted hold a +2/3 prevote majority for another value in some round after R and up to R' |
| `Safety.ProposalsAcceptable` | consensus/consensus_state.go:1191-1213 | Every proposal a process signs has a POLRound receivers accept, -1 or in [0, round), and when it is not -1 the process has accepted a +2/3 prevote majority for that block in that round |
| `Safety.LocksAreBacked` | consensus/consensus_state.go:1434-1457 | In every run LockedBlock is nil exactly when LockedRound is -1, likewise Valid*; neither round exceeds Round; each block has a recorded +2/3 prevote majority in its round; a locked block is valid |
| `Safety.FreshLockIsValid` | consensus/consensus_state.go:1443-1457 | A lock newly taken in a round finds the same block as ValidBlock with ValidRound that round |
| `Safety.AlwaysWoken` | consensus/consensus_state.go:466-476 | In every run, whatever a process waits for, a timeout of its height and round and of at least that step is scheduled, armed or on its way, and handling any that has arrived moves the process forward without a panic |
| `Safety.TimeoutsAreCurrent` | consensus/consensus_state.go:1024-1051 | In every run a timeout that passes the staleness check is for exactly the height and round of the machine, so the round it carries is the round signVote stamps |
| `Safety.ChainAndStoreInStep` | consensus/consensus_state.go:560-582 | In every run each store is contiguous from 1, linked by parent hash, strictly increasing in TimeMs above the initial height, every stored commit and every LastCommit verifies, and its length equals LastBlockHeight and Height - 1 |
| `Safety.ProposerMakesValidBlocks` | consensus/consensus_state.go:1250-1281 | A proposer always has a commit for the last block, so createProposalBlock never returns nil, and the block it makes is valid exactly when it is a validator and, above height 1, the median time exceeds the last block time |
| `Safety.EveryStepAnswers` | consensus/consensus_state.go:842-951 | In every run, every message, vote, timeout or committed block an honest process receives changes it exactly as the duties below say, nothing more and nothing less |
| `Safety.BlocksAreWellMade` | consensus/default_block_executor.go:25-111 | In every run every stored block, and every block with a +2/3 prevote majority, follows its parent, changes validators only at the end of an epoch, has a validator as proposer and agreeing time fields, no LastCommit signatures at height 1, and above it a verifying LastCommit whose median is its time |
| `Safety.NextBlockIsAccepted` | p2p/block_sync.go:74-97 | In every run the next block of any honest process's store, with its commit, passes both checks at every process at that height, by catch-up or by the fast path |
| `HonestBlocks.HonestMessagesArrive` | consensus/consensus_state.go:954-983 | In every run, whatever an honest process has signed or stored can be delivered to every other: the assumption that signatures are not forged excludes no honest vote, proposal or block |
| `Held.StepHolds` | consensus/consensus_state.go:1690-1750 | One event makes a node hold (as proposal, lock, valid block, stored block or block proposed again) at most the block it brings |
| `Events.StepOk` | consensus/consensus_state.go:954-1057 | One event of any kind keeps the node invariant, moves (Height, Round, Step) forward only, signs only above the old position, accepts no votes but those it carries, and does not panic unless some recorded majority is for an invalid block |
| `Answers.EventDuty` | consensus/consensus_state.go:954-1057 | Exactly what any event does, from any state the invariant allows: the lemmas below put together |
| `Duties.PrevoteDuty` | consensus/consensus_state.go:1312-1341 | The one prevote appended, if the node can sign, is for the locked block whatever the proposal, else for the proposal block exactly when it is valid, else nil; only log and step change |
| `Duties.PrecommitDuty` | consensus/consensus_state.go:1397-1467 | With a polka for the locked block LockedRound becomes this round and the block is precommitted; with one for a valid proposal block that is locked and precommitted; with none the lock stays and nil is precommitted; with one for nil or a block not held the lock goes and nil is precommitted |
| `Duties.ProposeDuty` | consensus/consensus_state.go:1119-1226 | Exactly one proposal when it is the node's turn and signing works, none otherwise: the valid block with ValidRound as POLRound, else a new block of this height on the last block with POLRound -1; the timeout is scheduled, and a whole proposal is prevoted at once |
| `Duties.NewBlockDuty` | consensus/consensus_state.go:1250-1281 | A proposer with no valid block always makes one, of its height, on the last block, in its own name |
| `Duties.NewRoundDuty` | consensus/consensus_state.go:1069-1113 | A later round, or round 0 of a new height, is entered with the proposal dropped (kept for round 0), the precommit trigger cleared and the proposal step done; any other call changes nothing |
| `Duties.TimeoutDuty` | consensus/consensus_state.go:1024-1055 | A stale timeout changes nothing. Otherwise: new height leads to round 0; propose to the prevote; prevote wait to the precommit of this round; precommit wait to that precommit if still due and then to the next round |
| `Answers.SetProposalDuty` | consensus/consensus_state.go:1690-1750 | Exactly which proposals are taken; one that polka has already hit becomes the valid block; a whole one in time is prevoted, and precommitted on a polka; one a commit waits for is finalized |
| `Answers.FollowDuty` | consensus/consensus_state.go:1857-1894 | A polka releases the lock if and only if it is of a newer round not beyond the present one and for something else; it makes the proposal block the valid block, or drops it, exactly when it is this round's and news |
| `Answers.PrevoteVoteDuty` | consensus/consensus_state.go:1845-1915 | A prevote that counts is counted, its polka followed, and then: a later round with +2/3 of any is entered; a polka for nil or for a whole proposal is precommitted on; +2/3 of any starts the wait; a proposal made whole is prevoted |
| `Answers.PrecommitVoteDuty` | consensus/consensus_state.go:1917-1943 | A precommit that counts is counted, and a majority enters its round, precommits there, and commits the block if it is held and valid, waits for it in the commit step if it is not held, or waits for the next round if it is for nil or mixed |
| `Answers.CommitDuty` | consensus/consensus_state.go:1502-1686 | On a precommit majority for a block: the block held as lock or proposal is stored under a commit for it and the next height scheduled; with no such block the machine waits in the commit step for it |
| `Answers.LateVoteDuty` | consensus/consensus_state.go:1814-1836 | A late precommit that counts joins LastCommit, and starts the height at once if it completes it and the configuration says so |
| `Answers.VoteIgnored` | consensus/consensus_state.go:1814-1850 | Any other vote changes nothing |
| `Answers.ArrivalDuty` | consensus/consensus_state.go:524-604 | A committed block is taken exactly if it is of this height, valid and carries a verifying commit: stored with it, next height scheduled, or started at once if all precommits are in and the configuration says so |
| `Duties.PrecommitPanics` | consensus/consensus_state.go:1412-1450 | enterPrecommit panics exactly on a polka POLInfo is behind of, or for an invalid proposal block that is not the lock; in every state, reachable or not |
| `Duties.WaitPanics` | consensus/consensus_state.go:1354-1359 | enterPrevoteWait and enterPrecommitWait panic exactly when +2/3 of any votes are missing |
| `Duties.UpdatePanics` | consensus/consensus_state.go:726-789 | updateToState panics exactly on a state of another height, a machine out of step with its chain, or a missing last commit |
| `Duties.SavePanics` | cmd/main/default_block_store.go:83-87 | Saving panics exactly on a block beyond the next one and appends exactly the next one |
| `Duties.CommitPanics` | consensus/consensus_state.go:1526-1604 | enterCommit, tryFinalizeCommit and finalizeCommit panic without a majority, at another height, and on anything but a valid decided block |
| `Commits.StartNodeOk` | consensus/consensus_state.go:701-722 | A process started on a store that holds together satisfies the invariant, does not panic, and has its NewHeight timeout scheduled |
| `Transitions.EnterPrevoteOk` | consensus/consensus_state.go:1287-1341 | enterPrevote keeps the invariant and signs at most one vote: a prevote of the machine's own height and round, for the locked block if there is one whatever the proposal says, else for a proposal block that is valid here, or nil |
| `Transitions.EnterPrevoteWaitOk` | consensus/consensus_state.go:1344-1371 | enterPrevoteWait, called with +2/3 of any prevotes, keeps the invariant and schedules the timeout it waits for |
| `Transitions.DecisionOk` | consensus/consensus_state.go:1397-1467 | Whatever lock change enterPrecommit makes keeps the invariant, and a precommit for a block is for the one locked in this very round on this round's prevote majority; which change it makes is Duties.PrecommitDuty |
| `Transitions.InvalidatedOk` | consensus/consensus_state.go:1412-1450 | enterPrecommit fails only when this round's prevote majority is for the proposal block and that block is invalid here; POLInfo is at least the round, so its check never fails |
| `Transitions.EnterPrecommitOk` | consensus/consensus_state.go:1379-1468 | enterPrecommit keeps the invariant, leaves votes, chain and store alone and ends at the precommit step, or fails; what it locks and signs is Duties.PrecommitDuty |
| `Transitions.POLInfoFinds` | consensus/consensus_state.go:1412-1416 | POLInfo is at least every tracked round with a prevote majority |
| `Transitions.POLInfoIsHighest` | consensus/consensus_state.go:1412-1416 | POLInfo is the highest tracked round with a prevote majority, -1 if there is none |
| `Transitions.EnterPrecommitWaitOk` | consensus/consensus_state.go:1471-1499 | enterPrecommitWait, called with +2/3 of any precommits, keeps the invariant and schedules its timeout |
| `Transitions.NewProposalOk` | consensus/consensus_state.go:1191-1213 | A proposal that is signed rests on a prevote majority of an earlier round for its block, or claims none and cites accepted precommits only; which one it is, is Duties.ProposeDuty |
| `Transitions.NewBlockDrawn` | consensus/consensus_state.go:1250-1281 | A block the node makes cites in its LastCommit only precommits the node has accepted |
| `Transitions.EnterProposeOk` | consensus/consensus_state.go:1119-1185 | enterPropose keeps the invariant whichever way its deferred completion check goes, and leaves the machine proposing or prevoting |
| `Transitions.EnterNewRoundOk` | consensus/consensus_state.go:1069-1113 | enterNewRound either does nothing or leaves the machine proposing or prevoting in the new round, with the invariant kept; it never panics |
| `Commits.FinalizeCommitOk` | consensus/consensus_state.go:1582-1686 | Finalizing stores exactly the committed block with a commit that verifies, and leads to height + 1 at round 0 with nothing locked, LastCommit carrying the majority and the NewHeight timeout scheduled |
| `Commits.NextHeightOk` | consensus/consensus_state.go:726-828 | Committing a block its precommits or its commit justify takes every part of the invariant to the next height |
| `Commits.TryFinalizeCommitOk` | consensus/consensus_state.go:1555-1579 | tryFinalizeCommit does nothing, finalizes, or fails only on a majority for an invalid block |
| `Commits.EnterCommitOk` | consensus/consensus_state.go:1502-1552 | enterCommit on a precommit majority for a block keeps the invariant through its deferred finalization |
| `Commits.ProcessCommittedBlockOk` | consensus/consensus_state.go:524-604 | The fast path either changes nothing or takes the block: invariant kept, no failure, block and commit appended to the store, exactly the signatures of the commit newly accepted, height + 1 |
| `Events.SetProposalOk` | consensus/consensus_state.go:1690-1750 | Any proposal, whoever sent it, keeps the invariant, in whatever step it arrives |
| `Events.AddPrevoteOk` | consensus/consensus_state.go:1852-1915 | Adding a prevote (unlock, valid block, round skip, precommit, wait, completed proposal) keeps the invariant and does not panic unless a majority is for an invalid block |
| `Events.FollowedOk` | consensus/consensus_state.go:1857-1894 | Recording a prevote and following the polka it completes keeps the invariant; what following it must change is Answers.FollowDuty |
| `Events.AddPrecommitOk` | consensus/consensus_state.go:1917-1943 | The same for adding a precommit, through new round, precommit, commit and wait |
| `Events.AddLatePrecommitOk` | consensus/consensus_state.go:1814-1836 | A precommit for the height before is accepted only while waiting and only if LastCommit takes it, otherwise nothing changes; LastCommit keeps its majority for the last block, made of accepted precommits |
| `Events.HandleTimeoutOk` | consensus/consensus_state.go:1017-1057 | Handling any timeout this machine scheduled keeps the invariant; the default branch is unreachable; where each leads is Duties.TimeoutDuty |
| `Consensus.ConsensusState.constructor` | consensus/consensus_state.go:148-195 | The object starts in the state the invariant is proved for: round 0 of the height above the chain state, LastCommit rebuilt from the store |
| `Consensus.ConsensusState.SignAddVote` | consensus/consensus_state.go:2026-2052 | Appends one vote for the machine's own height and round when the node can sign, and changes nothing else |
| `Consensus.ConsensusState.DoPrevote` | consensus/consensus_state.go:1312-1341 | The locked block, else a valid proposal block, else nil; nothing but the log changes |
| `Consensus.ConsensusState.EnterPrevote` | consensus/consensus_state.go:1287-1310 | Does what the specification proved safe by Transitions.EnterPrevoteOk does, the deferred step included |
| `Consensus.ConsensusState.EnterPrevoteWait` | consensus/consensus_state.go:1344-1371 | Whole new state, the panic included, as judged by Transitions.EnterPrevoteWaitOk |
| `Consensus.ConsensusState.PrecommitByPolka` | consensus/consensus_state.go:1397-1467 | The lock change and the precommit Duties.PrecommitDuty is about, the panics included |
| `Consensus.ConsensusState.EnterPrecommit` | consensus/consensus_state.go:1379-1468 | Whole new state, as judged by Transitions.EnterPrecommitOk |
| `Consensus.ConsensusState.EnterPrecommitWait` | consensus/consensus_state.go:1471-1499 | Whole new state, as judged by Transitions.EnterPrecommitWaitOk |
| `Consensus.ConsensusState.CreateProposalBlock` | consensus/consensus_state.go:1250-1281 | The block Safety.ProposerMakesValidBlocks is about |
| `Consensus.ConsensusState.DecideProposal` | consensus/consensus_state.go:1191-1226 | The proposal Duties.ProposeDuty is about; nothing but the log changes |
| `Consensus.ConsensusState.EnterPropose` | consensus/consensus_state.go:1119-1185 | Whole new state, the deferred completion check included |
| `Consensus.ConsensusState.EnterNewRound` | consensus/consensus_state.go:1069-1113 | Whole new state; the proposal survives into round 0 only |
| `Consensus.ConsensusState.UpdateToState` | consensus/consensus_state.go:726-828 | Whole new state: the three panics, the ignored old state, or the reset for the next height |
| `Consensus.ConsensusState.FinalizeCommit` | consensus/consensus_state.go:1582-1686 | Whole new state: save, apply, next height, timeout |
| `Consensus.ConsensusState.TryFinalizeCommit` | consensus/consensus_state.go:1555-1579 | Whole new state, as judged by Commits.TryFinalizeCommitOk |
| `Consensus.ConsensusState.EnterCommit` | consensus/consensus_state.go:1502-1552 | Whole new state, the deferred finalization included |
| `Consensus.ConsensusState.ProcessCommittedBlock` | consensus/consensus_state.go:524-604 | Whole new state, as judged by Commits.ProcessCommittedBlockOk |
| `Consensus.ConsensusState.SetProposal` | consensus/consensus_state.go:1690-1750 | Whole new state, as judged by Events.SetProposalOk |
| `Consensus.ConsensusState.FollowPolka` | consensus/consensus_state.go:1857-1894 | The change to lock, valid block and proposal block Answers.FollowDuty is about |
| `Consensus.ConsensusState.AfterPrevote` | consensus/consensus_state.go:1896-1915 | Whole new state after a recorded prevote |
| `Consensus.ConsensusState.AfterPrecommit` | consensus/consensus_state.go:1917-1943 | Whole new state after a recorded precommit |
| `Consensus.ConsensusState.AddLatePrecommit` | consensus/consensus_state.go:1814-1836 | Whole new state for a precommit of the height before |
| `Consensus.ConsensusState.AddVote` | consensus/consensus_state.go:1801-1950 | Whole new state for any vote |
| `Consensus.ConsensusState.HandleTimeout` | consensus/consensus_state.go:1017-1057 | Whole new state for any timeout, as determined by Duties.TimeoutDuty |
| `Consensus.ConsensusState.ReceiveSafely` | consensus/consensus_state.go:842-951 | One turn of the receive routine on a valid state: the specified new state, valid again, only moved forward, and not failed unless a majority is for an invalid block |
| `Consensus.ConsensusState.StartSafely` | consensus/consensus_state.go:295-383 | Starting on a chain that holds together gives a valid state with its first timeout scheduled |
| `Quorums.QuorumsShareHonest` | consensus/consensus_state.go:1857-1858 | Two sets of more than 2/3 of the power share a validator outside any set of less than 1/3, for any positive or zero powers |
| `Votes.MajorityIsQuorum` | consensus/consensus_state.go:1397-1410 | TwoThirdsMajority returns a value exactly when more than 2/3 of the power voted for it |
| `Votes.MajorityStays` | consensus/consensus_state.go:1926-1938 | A majority once reached stays, whatever vote is added |
| `Votes.MadeCommitVerifies` | consensus/consensus_state.go:1619-1624 | MakeCommit of a vote set with a majority verifies for that value |
| `Votes.MadeCommitDrawn` | consensus/consensus_state.go:1619-1624 | A commit made of a vote set carries only votes of that set |
| `Votes.CommitVoteSetMajority` | consensus/consensus_state.go:542-547 | CommitToVoteSet of a verified commit has the same majority |
| `Votes.CommitVoteSetDrawn` | consensus/consensus_state.go:542-547 | The vote set rebuilt from a verified commit holds only votes the commit carries |
| `Votes.CommitIsEvidence` | consensus/consensus_state.go:536-540 | A verified commit carries the genuine precommits of more than 2/3 of the power for that block, height and one round |
| `Ticker.EachRingsOnce` | consensus/timeout_ticker.go:97-142 | For every sequence of ticks and expiries, accepted ticks strictly increase in (height, round, step), and each rings at most once, in that order, only if accepted |
| `Ticker.TimeoutTicker.ReceiveTick` | consensus/timeout_ticker.go:102-125 | A tick re-arms the timer exactly when it is newer than the last one taken, and is dropped otherwise |
| `Ticker.TimeoutTicker.TimerFires` | consensus/timeout_ticker.go:126-137 | The timeout last taken goes out once and the timer is idle |
| `Ticker.TimeoutTicker.ReceiveTock` | consensus/timeout_ticker.go:68-71 | Any one of the timeouts on their way is received, in no promised order |
| `Wakeup.NoLostWakeup` | consensus/timeout_ticker.go:97-142 | Although the ticker drops ticks that are not newer, a timeout that will do is always scheduled, armed or on its way |
| `Wakeup.TakeKeepsWound` | consensus/timeout_ticker.go:97-142 | Every input to machine or ticker, tocks in any order included, keeps the joint invariant that gives it |
| `Wakeup.TimeoutPasses` | consensus/consensus_state.go:1024-1055 | After handling a timeout it scheduled the machine is past that timeout's height, round and step; it can fail only on a recorded majority for an invalid block, which no run has |
| `Wakeup.HandlingAdvances` | consensus/consensus_state.go:1030-1055 | Handling any timeout that serves the present wait strictly advances (Height, Round, Step); it can fail only on a recorded majority for an invalid block, which no run has |
| `Wakeup.ActsOnOwnRound` | consensus/consensus_state.go:1024-1028 | A timeout that is not stale is for the machine's own height and round |
| `BlockTime.WeightedMedian` | consensus/default_block_executor.go:142-166 | Sorting in place and walking down the running median returns the median of the entries present, the slice ending as a permutation of itself |
| `BlockTime.MedianMeetsSpec` | consensus/default_block_executor.go:142-166 | That median is the one and only timestamp that is the least whose entries at or below it weigh at least half the power, rounded down |
| `BlockTime.MedianOfPermutation` | consensus/default_block_executor.go:146-154 | The median is the same for every order of the entries, hence for every order an unstable sort gives to ties |
| `BlockTime.SortTimes` | consensus/default_block_executor.go:146-154 | A sorted permutation under the code's comparator, absent entries last |
| `BlockTime.ComputeMedianTime` | consensus/default_block_executor.go:123-140 | MedianTime counts exactly the present signatures of known validators |
| `BlockTime.FillSlots` | consensus/default_block_executor.go:124-137 | One slot per signature, nil where absent or unknown, and the power that counts |
| `HonestTime.UpperBoundExact` | consensus/default_block_executor.go:119-166 | With honest weight h and faulty weight b, the median never exceeds every honest timestamp, for all entries, if and only if b <= h + 1 |
| `HonestTime.LowerBoundExact` | consensus/default_block_executor.go:119-166 | It is never below every honest timestamp, for all entries, if and only if b = 0 or 2b + 1 is less than the counted weight |
| `HonestTime.CommitTimeAtMostHonest` | consensus/default_block_executor.go:119-140 | The time of a verified commit with faulty power under 1/3 is at most some honest timestamp |
| `HonestTime.CommitTimeAtLeastHonest` | consensus/default_block_executor.go:119-140 | It is at least some honest timestamp when no faulty signature counts or the honest weight exceeds the faulty weight by 2 or more |
| `HonestTime.CommitLowerBoundExact` | consensus/default_block_executor.go:119-140 | For verified commits with honest weight h and faulty weight b (always b < h), the time is at least some honest timestamp, for all such commits, if and only if b = 0 or b + 2 <= h |
| `HonestTime.FaultySetsTheTime` | consensus/default_block_executor.go:119-140 | For every faulty power b > 0 there is a verified commit with faulty power under 1/3 whose time is below every honest timestamp in it |
| `HonestTime.OneFaultyOfFourSetsTheTime` | consensus/default_block_executor.go:119-140 | The comment's claim fails at the edge: of four equal validators one faulty one sets the time of a verified commit below every honest timestamp in it |
| `HonestBlocks.StoredTimeAtMostHonest` | consensus/default_block_executor.go:79-94 | In every run, the time of every stored block above the initial height is at most the timestamp of a precommit an honest validator really signed for the block before it |
| `HonestBlocks.StoredTimeAtLeastHonest` | consensus/default_block_executor.go:79-94 | And at least the timestamp of such a precommit when no faulty signature in its LastCommit counts or the honest ones outweigh them by 2 or more |
| `Executor.ValidOnOwnParent` | consensus/default_block_executor.go:25-111 | Validity on the state after any chain is validity on the block's own parent chain, so nodes with the same prefix agree on every block |
| `Executor.ValidIsWellMade` | consensus/default_block_executor.go:25-111 | A block passes validateBlock on its own parent chain if and only if it is well made: number, epoch rule, proposer, time fields, LastCommit and median time, each stated of the block and its parent |
| `Executor.ValidBlockExtends` | consensus/default_block_executor.go:29-94 | A valid block has the next number, the right parent, a verifying LastCommit and a later time (the genesis time at height 1) |
| `Executor.MakerMeetsChecker` | consensus/chain_state.go:123-157 | The block MakeBlock builds passes validateBlock exactly when the proposer is a validator and, above the initial height, the median time exceeds LastBlockTime |
| `Executor.StateAfterShape` | consensus/default_block_executor.go:179-211 | The state after any chain has the hash and height of its last block, and the validators and epoch of the genesis |
| `CatchUp.AcceptOk` | p2p/block_sync.go:81-96 | A block that passes both checks carries the next number, is decided by its own commit, and leaves chain state and store together |
| `BlockSyncs.TakenOk` | p2p/block_sync.go:74-97 | The same for any number of blocks taken from whatever peers answer |
| `BlockSyncs.BlockSync.AskHeights` | p2p/block_sync.go:45-61 | The height found is the largest reported so far, and the peer chosen is one that reported it |
| `BlockSyncs.HighestIs` | p2p/block_sync.go:53-60 | The running maximum is an upper bound of every height reported and is itself reported |
| `BlockSyncs.BlockSync.Fetch` | p2p/block_sync.go:74-97 | Exactly the first blocks answered that pass are taken; it stops at the height asked for, at the first answer that fails, or when answers run out |
| `BlockSyncs.BlockSync.Sync` | p2p/block_sync.go:38-104 | The loop ends finished only level with the highest height reported in all the rounds asked, and gives up at once when it is ahead of all of them |
| `BlockSyncs.BlockSync.SyncSafely` | p2p/block_sync.go:38-104 | From a chain and store that hold together, sync never saves out of order and leaves them together, whatever is answered |
| `BlockStores.BigEndianRoundTrip` | cmd/main/default_block_store.go:28-32 | Reading back a number written big-endian gives it back when it fits |
| `BlockStores.KeysApart` | cmd/main/default_block_store.go:47-70 | No two keys the store writes collide |
| `BlockStores.DefaultBlockStore.Height` | cmd/main/default_block_store.go:22-33 | The stored height, 0 when missing or malformed |
| `BlockStores.DefaultBlockStore.SaveBlock` | cmd/main/default_block_store.go:83-120 | Panics exactly on a block that does not follow; otherwise writes block, commit and height in this order, up to the first write that fails |
| `BlockStores.SavedHolds` | cmd/main/default_block_store.go:83-120 | A save appends the block when every write works and otherwise leaves every height up to Height() loading as before, whichever write fails |
| `BlockStores.HistoryHolds` | cmd/main/default_block_store.go:83-120 | After any sequence of saves with any failures the database holds exactly the blocks that followed on and were fully written |
| `BlockStores.EveryHeightLoads` | cmd/main/default_block_store.go:47-81 | Every height from 1 to Height() loads its own block and a commit, and is never corrupt |
| `BlockStores.StoreFollowsMachine` | consensus/consensus_state.go:1618-1628 | Through any sequence of guarded saves, while writes work, the database holds exactly the store of the state machine, and panics exactly when the machine does |
| `BlockStores.LostWriteStopsNext` | cmd/main/default_block_store.go:83-120 | SaveBlock swallows write errors: after saving a block, the next one is saved if and only if every write of the first worked, and panics if any failed |
| `Safety.ChainOnDisk` | consensus/consensus_state.go:560-569 | In every run, any process's chain, saved block by block into an empty database while writes work, is never refused and is exactly what the database then holds |
| `Services.AtMostOnce` | consensus/service.go:116-186 | For any threads and any interleaving of the atomic steps: OnStop at most once, quit closed at most once, OnStart successful at most once, one thread in OnStart at a time, one in Stop at a time |
| `Services.NeverAgain` | consensus/service.go:116-165 | Once OnStart has succeeded it is never called again, whatever any thread does afterwards; a stopped service stays stopped |
| `Services.QuietMeansRunning` | consensus/service.go:190-192 | With no call under way, started says OnStart succeeded and stopped says quit was closed |
| `Services.StartAnswers` | consensus/service.go:116-165 | A Start nobody interferes with runs OnStart exactly when the service is neither started nor stopped, returns the error that says why not, or OnStart's, and then leaves both flags as they were |
| `Services.StopAnswers` | consensus/service.go:169-186 | A Stop nobody interferes with runs OnStop and closes quit exactly when the service is started and not stopped, and otherwise returns the error that says why not and leaves both flags as they were |
| `Services.StopFindsStarted` | consensus/service.go:169-186 | A Stop that gets past its check stops a service that did start if and only if no Start is under way |
| `Services.StoppedWasStarted` | consensus/service.go:63-65 | If Start and Stop never overlap, as the comment demands, OnStop runs only after OnStart has succeeded |
| `Services.StoppedNeverStarted` | consensus/service.go:116-186 | Without that, OnStop can run and quit be closed although OnStart never ran |
| `Services.BaseService.Start` | consensus/service.go:116-117 | The compare-and-swap that enters Start, or ErrAlreadyStarted |
| `Services.BaseService.Stop` | consensus/service.go:169-170 | The compare-and-swap that enters Stop, or ErrAlreadyStopped |
| `Services.BaseService.Proceed` | consensus/service.go:118-181 | Every further atomic step of either call: loads, roll-backs, OnStart, OnStop, close |
| `Solo.LoneValidatorCommits` | consensus/consensus_state.go:842-951 | The invariants are not empty: a lone validator fed its own timeout, proposal and votes commits its first block |

## Left out

Contracts taken for code that is not in the repository (`go.mod:170`, `consensus/types.go:9-48`):

- VoteSet, HeightVoteSet, ValidatorSet, Commit, FullBlock: not part of this repository; `Votes.dfy` states what the consensus code relies on. A vote set counts at most one vote per validator, may refuse any vote, treats unknown rounds as empty and accepts only genuine signatures. `AddVote` on a nil LastCommit is taken to refuse.
- Hashes and signatures: a hash is modelled as the block it was taken of, LastCommit included, and signatures as unforgeable. validateBlock itself does not compare LastCommit with LastCommitHash.
- The proposer of a round: an arbitrary function of height and round, so every result holds for every rotation. IncrementProposerPriority, and with it the priorities inside a validator set, is not modelled.
- Votes carry rounds that are not negative, as their signatures require; a commit with a negative round does not verify.

Parts of the code not modelled:

- Integer widths: heights, rounds, powers and times are unbounded, so `consensus/safe_math.go` has no counterpart, except for the 64-bit heights of the block store, whose wrap-around is modelled.
- Clocks: the time put on a vote is an arbitrary input, because `consensus/priv_validator_local.go:69` overwrites what voteTime computed; timer durations are arbitrary, too.
- The signer: `PrivValidatorLocal` is reduced to whether signing works and the time it stamps; the public key is fixed for a process lifetime.
- `updateState` with new validators (`consensus/default_block_executor.go:189-193`): ApplyBlock always passes empty lists, and never fails.
- Crash recovery and the write-ahead log, which the code has commented out: a run is one process lifetime per process.
- A panic is recorded and stops the process; the deferred step updates that run while it unwinds are not modelled. No run of the network reaches one.
- The race of a timer that fires while it is being stopped: an expired timer whose channel is unread counts as armed, and stopping it drops that timeout.
- createSyncRequest, processSyncRequest and gossip: they only offer messages, and the network delivers any genuine message anyway. That a height terminates under timely delivery is not claimed; that no process is left without a timeout is.
- A catch-up that fails ends the node in the code; in the network it may go on, which only allows more runs.
- Contexts, channels and queue capacities, logging, metrics, RLP and stream framing, the command line.
- `LoadSeenCommit`, `Base` and `Size` of the block store: nothing writes a seen commit.
- The goroutine of Start that calls Stop on a cancelled context: it is one more thread that may call Stop at any time.

Results that are deliberately not claimed:

- `Safety.FreshLockIsValid`: says nothing of a relock, which does not move ValidRound, so LockedRound may exceed ValidRound.
- `HonestTime.CommitTimeAtLeastHonest`: needs its condition on the two weights; `HonestTime.CommitLowerBoundExact` shows that the condition is exact.
- `Safety.NoPanic`: the processes of the network have stores whose writes succeed; `BlockStores.LostWriteStopsNext` says what a failed write leads to.
