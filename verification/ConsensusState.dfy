/**
  The consensus state as the code keeps it: an object whose methods update its fields.  Each method is
  proved to do exactly what the function of the same name in `Machine` does to the state it finds.
*/
module Consensus {
  import opened Quorums
  import opened Votes
  import opened Executor
  import opened Machine
  import opened NodeInvariant
  import opened Commits
  import opened Events

  class ConsensusState {
    const cfg: Config

    var chainState: ChainState
    var blockStore: seq<Stored>

    // RoundState
    var height: nat
    var round: int
    var step: int
    var proposal: Option<Proposal>
    var proposalBlock: Option<Block>
    var lockedRound: int
    var lockedBlock: Option<Block>
    var validRound: int
    var validBlock: Option<Block>
    var prevotes: map<int, Ballots>
    var precommits: map<int, Ballots>
    var trackedRound: int
    var commitRound: int
    var lastCommit: Option<VoteSet>
    var triggeredTimeoutPrecommit: bool

    var failed: bool
    var signed: seq<Message>   // what goes to the internal message queue
    var ticks: seq<Timeout>    // what goes to the ticker
    ghost var heard: set<Vote>

    ghost function State(): Node
      reads this
    {
      Node(chainState, blockStore, height, round, step, proposal, proposalBlock, lockedRound, lockedBlock,
           validRound, validBlock, prevotes, precommits, trackedRound, commitRound, lastCommit,
           triggeredTimeoutPrecommit, failed, signed, ticks, heard)
    }

    /** What holds between two events; see NodeInvariant. */
    ghost predicate Valid(g: ChainState)
      reads this
    {
      Ready(g, cfg, State())
    }

    constructor (cfg: Config, st: ChainState, store: seq<Stored>, ghost heardBefore: set<Vote>)
      ensures State() == NewNode(st, store, heardBefore) && this.cfg == cfg
    {
      this.cfg := cfg;
      chainState, blockStore := st, store;
      height := if st.lastBlockHeight == 0 then st.initialHeight else st.lastBlockHeight + 1;
      round, step := 0, NEW_HEIGHT;
      proposal, proposalBlock := None, None;
      lockedRound, lockedBlock := -1, None;
      validRound, validBlock := -1, None;
      prevotes, precommits, trackedRound := map[], map[], 0;
      commitRound, lastCommit := -1, ReconstructLastCommit(st, store);
      triggeredTimeoutPrecommit := false;
      failed := st.lastBlockHeight > 0 && ReconstructLastCommit(st, store).None?;
      signed, ticks := [], [];
      heard := heardBefore;
    }

    method OnStart()
      modifies this
      ensures State() == Machine.ScheduleRound0(old(State()))
    {
      ScheduleRound0();
    }

    // ---- Small parts ----

    function Polka(r: int): Option<Hash>
      reads this
    {
      TwoThirdsMajority(chainState.validators, VotesAt(prevotes, r))
    }

    function Commitment(r: int): Option<Hash>
      reads this
    {
      TwoThirdsMajority(chainState.validators, VotesAt(precommits, r))
    }

    method UpdateRoundStep(r: int, newStep: int)
      modifies this
      ensures State() == old(State()).(round := r, step := newStep)
    {
      round, step := r, newStep;
    }

    method SetProposed(p: Option<Proposal>, b: Option<Block>)
      modifies this
      ensures State() == old(State()).(proposal := p, proposalBlock := b)
    {
      proposal, proposalBlock := p, b;
    }

    method SetLock(r: int, b: Option<Block>)
      modifies this
      ensures State() == old(State()).(lockedRound := r, lockedBlock := b)
    {
      lockedRound, lockedBlock := r, b;
    }

    method SetValid(r: int, b: Option<Block>)
      modifies this
      ensures State() == old(State()).(validRound := r, validBlock := b)
    {
      validRound, validBlock := r, b;
    }

    method SetVotes(pv: map<int, Ballots>, pc: map<int, Ballots>)
      modifies this
      ensures State() == old(State()).(prevotes := pv, precommits := pc)
    {
      prevotes, precommits := pv, pc;
    }

    method TrackRound(r: int)
      modifies this
      ensures State() == old(State()).(trackedRound := r, triggeredTimeoutPrecommit := false)
    {
      trackedRound := r;
      triggeredTimeoutPrecommit := false;
    }

    method ScheduleTimeout(t: Timeout)
      modifies this
      ensures State() == Machine.ScheduleTimeout(old(State()), t)
    {
      ticks := ticks + [t];
    }

    method ScheduleRound0()
      modifies this
      ensures State() == Machine.ScheduleRound0(old(State()))
    {
      if failed { return; }
      ScheduleTimeout(Timeout(height, 0, NEW_HEIGHT));
    }

    method SignAddVote(e: Env, kind: Kind, value: Hash)
      modifies this
      ensures State() == Machine.SignAddVote(cfg, e, old(State()), kind, value)
    {
      if cfg.key.None? { return; }
      if !HasAddress(chainState.validators, cfg.key.value) { return; }
      var time := e.voteTime(kind, height, round);
      if time.Some? && round >= 0 {
        signed := signed + [VoteMsg(Vote(kind, height, round, value, cfg.key.value, time.value))];
      }
    }

    method IsProposalComplete() returns (complete: bool)
      ensures complete == Machine.IsProposalComplete(State())
    {
      if proposal.None? || proposalBlock.None? { return false; }
      if proposal.value.polRound < 0 { return true; }
      return Polka(proposal.value.polRound).Some?;
    }

    // ---- Prevote ----

    method DoPrevote(e: Env)
      modifies this
      ensures State() == Machine.DoPrevote(cfg, e, old(State()))
    {
      hide ValidateBlock, NewVote;
      if lockedBlock.Some? {
        SignAddVote(e, Prevote, HashOf(lockedBlock.value));
        return;
      }
      if proposalBlock.None? {
        SignAddVote(e, Prevote, ZeroHash);
        return;
      }
      var validity := ValidateBlock(chainState, proposalBlock.value);
      if validity.Invalid? {
        SignAddVote(e, Prevote, ZeroHash);
        return;
      }
      SignAddVote(e, Prevote, HashOf(proposalBlock.value));
    }

    method EnterPrevote(e: Env, h: nat, r: int)
      modifies this
      ensures State() == Machine.EnterPrevote(cfg, e, old(State()), h, r)
    {
      hide PrevoteValue, NewVote;
      if failed || height != h || r < round || (round == r && PREVOTE <= step) { return; }
      DoPrevote(e);
      UpdateRoundStep(r, PREVOTE);
    }

    method EnterPrevoteWait(h: nat, r: int)
      modifies this
      ensures State() == Machine.EnterPrevoteWait(old(State()), h, r)
    {
      if failed || height != h || r < round || (round == r && PREVOTE_WAIT <= step) { return; }
      if !HasTwoThirdsAny(chainState.validators, VotesAt(prevotes, r)) {
        failed := true;
        return;
      }
      ScheduleTimeout(Timeout(h, r, PREVOTE_WAIT));
      UpdateRoundStep(r, PREVOTE_WAIT);
    }

    // ---- Precommit ----

    /** enterPrecommit up to its deferred step update. */
    method PrecommitByPolka(e: Env, r: int)
      modifies this
      ensures
        var d := DecidePrecommit(old(State()), r);
        State() == if d.Invalidated? then Panic(old(State()))
                   else Machine.SignAddVote(cfg, e,
                     old(State()).(lockedRound := d.lockedRound, lockedBlock := d.lockedBlock),
                                            Precommit, d.value)
    {
      hide ValidateBlock, POLInfo, TwoThirdsMajority, NewVote;
      var polka := Polka(r);
      if polka.None? {
        SignAddVote(e, Precommit, ZeroHash);
        return;
      }
      if POLInfo(chainState.validators, prevotes, trackedRound) < r {
        failed := true;
        return;
      }
      if polka.value == ZeroHash {
        if lockedBlock.Some? || lockedRound != -1 {
          SetLock(-1, None);
        }
        SignAddVote(e, Precommit, ZeroHash);
        return;
      }
      if HashesTo(lockedBlock, polka.value) {
        SetLock(r, lockedBlock);
        SignAddVote(e, Precommit, polka.value);
        return;
      }
      if HashesTo(proposalBlock, polka.value) {
        if ValidateBlock(chainState, proposalBlock.value).Invalid? {
          failed := true;
          return;
        }
        SetLock(r, proposalBlock);
        SignAddVote(e, Precommit, polka.value);
        return;
      }
      SetLock(-1, None);
      SignAddVote(e, Precommit, ZeroHash);
    }

    method EnterPrecommit(e: Env, h: nat, r: int)
      modifies this
      ensures State() == Machine.EnterPrecommit(cfg, e, old(State()), h, r)
    {
      hide DecidePrecommit, NewVote;
      if failed || height != h || r < round || (round == r && PRECOMMIT <= step) { return; }
      PrecommitByPolka(e, r);
      if !failed {
        UpdateRoundStep(r, PRECOMMIT);
      }
    }

    method EnterPrecommitWait(h: nat, r: int)
      modifies this
      ensures State() == Machine.EnterPrecommitWait(old(State()), h, r)
    {
      if failed || height != h || r < round || (round == r && triggeredTimeoutPrecommit) { return; }
      if !HasTwoThirdsAny(chainState.validators, VotesAt(precommits, r)) {
        failed := true;
        return;
      }
      ScheduleTimeout(Timeout(h, r, PRECOMMIT_WAIT));
      triggeredTimeoutPrecommit := true;
    }

    // ---- New round and proposal ----

    method CreateProposalBlock(proposer: Addr) returns (block: Option<Block>)
      ensures block == Machine.CreateProposalBlock(State(), proposer)
    {
      hide TwoThirdsMajority;
      var commit;
      if height == chainState.initialHeight {
        commit := Commit(0, 0, ZeroHash, []);
      } else if lastCommit.Some? && HasTwoThirdsMajority(chainState.lastValidators, lastCommit.value.ballots) {
        commit := MakeCommit(chainState.lastValidators, lastCommit.value);
      } else {
        return None;
      }
      return Some(MakeBlock(chainState, height, commit, proposer));
    }

    method DecideProposal(e: Env, h: nat, r: int)
      modifies this
      ensures State() == Machine.DecideProposal(cfg, e, old(State()), h, r)
    {
      hide Machine.CreateProposalBlock;
      if cfg.key.None? || !HasAddress(chainState.validators, cfg.key.value)
        || cfg.proposer(h, r) != cfg.key.value { return; }
      var block := validBlock;
      if block.None? {
        block := CreateProposalBlock(cfg.key.value);
        if block.None? { return; }
      }
      if e.signsProposal(h, r) {
        signed := signed + [ProposalMsg(Proposal(h, r, validRound, block.value, cfg.key.value))];
      }
    }

    method EnterPropose(e: Env, h: nat, r: int)
      modifies this
      ensures State() == Machine.EnterPropose(cfg, e, old(State()), h, r)
    {
      hide NewProposal, Machine.EnterPrevote, TwoThirdsMajority;
      if failed || height != h || r < round || (round == r && PROPOSE <= step) { return; }
      ScheduleTimeout(Timeout(h, r, PROPOSE));
      DecideProposal(e, h, r);
      UpdateRoundStep(r, PROPOSE);
      var complete := IsProposalComplete();
      if complete {
        EnterPrevote(e, h, round);
      }
    }

    /** A proposal for round 0 may have come in while the node waited for the height to start. */
    method SetupRound(r: int)
      modifies this
      ensures State() == StartRound(old(State()), r)
    {
      UpdateRoundStep(r, NEW_ROUND);
      if r != 0 {
        SetProposed(None, None);
      }
      TrackRound(r + 1);
    }

    method EnterNewRound(e: Env, h: nat, r: int)
      modifies this
      ensures State() == Machine.EnterNewRound(cfg, e, old(State()), h, r)
    {
      hide Machine.EnterPropose;
      if failed || height != h || r < round || (round == r && step != NEW_HEIGHT) { return; }
      SetupRound(r);
      EnterPropose(e, h, r);
    }

    // ---- Commit ----

    method SaveBlock(b: Block, commit: Commit)
      modifies this
      ensures State() == Machine.SaveBlock(old(State()), b, commit)
    {
      if failed || |blockStore| >= b.number { return; }
      if b.number != |blockStore| + 1 {
        failed := true;
        return;
      }
      blockStore := blockStore + [Stored(b, commit)];
    }

    method UpdateToState(st: ChainState)
      modifies this
      ensures State() == Machine.UpdateToState(old(State()), st)
    {
      hide TwoThirdsMajority;
      if failed { return; }
      if || (commitRound > -1 && 0 < height && height != st.lastBlockHeight)
         || (chainState.lastBlockHeight > 0 && chainState.lastBlockHeight + 1 != height)
         || (chainState.lastBlockHeight > 0 && height == chainState.initialHeight) {
        failed := true;
        return;
      }
      if st.lastBlockHeight <= chainState.lastBlockHeight { return; }
      if commitRound > -1 {
        if Commitment(commitRound).None? {
          failed := true;
          return;
        }
        lastCommit := Some(VoteSet(height, commitRound, VotesAt(precommits, commitRound)));
      } else if lastCommit.None? {
        failed := true;
        return;
      }
      ResetRoundState(st);
    }

    method ResetBlocks()
      modifies this
      ensures State() == old(State()).(proposal := None, proposalBlock := None,
        lockedRound := -1, lockedBlock := None, validRound := -1, validBlock := None)
    {
      SetProposed(None, None);
      SetLock(-1, None);
      SetValid(-1, None);
    }

    method ResetVotes()
      modifies this
      ensures State() == old(State()).(prevotes := map[], precommits := map[], trackedRound := 0,
        commitRound := -1, triggeredTimeoutPrecommit := false)
    {
      SetVotes(map[], map[]);
      TrackRound(0);
      commitRound := -1;
    }

    method ResetRoundState(st: ChainState)
      modifies this
      ensures State() == ResetForHeight(old(State()), st, old(lastCommit))
    {
      height := if st.lastBlockHeight == 0 then st.initialHeight else st.lastBlockHeight + 1;
      UpdateRoundStep(0, NEW_HEIGHT);
      ResetBlocks();
      ResetVotes();
      chainState := st;
    }

    method FinalizeCommit(h: nat)
      modifies this
      ensures State() == Machine.FinalizeCommit(old(State()), h)
    {
      hide ValidateBlock, TwoThirdsMajority, MakeCommit, Machine.UpdateToState, Machine.SaveBlock;
      if failed || height != h || step != COMMIT { return; }
      var id := Commitment(commitRound);
      if id.None? || !HashesTo(proposalBlock, id.value) {
        failed := true;
        return;
      }
      var block := proposalBlock.value;
      if ValidateBlock(chainState, block).Invalid? {
        failed := true;
        return;
      }
      var seen := MakeCommit(chainState.validators, VoteSet(height, commitRound, VotesAt(precommits, commitRound)));
      SaveBlock(block, seen);
      UpdateToState(UpdateState(chainState, block));
      ScheduleRound0();
    }

    method TryFinalizeCommit(h: nat)
      modifies this
      ensures State() == Machine.TryFinalizeCommit(old(State()), h)
    {
      hide Machine.FinalizeCommit, TwoThirdsMajority;
      if failed { return; }
      if height != h {
        failed := true;
        return;
      }
      var id := Commitment(commitRound);
      if id.None? || id.value == ZeroHash || !HashesTo(proposalBlock, id.value) { return; }
      FinalizeCommit(h);
    }

    method PrepareCommit(r: int, id: Hash)
      modifies this
      ensures State() == old(State()).(proposalBlock := CommitBlock(old(State()), id), step := COMMIT, commitRound := r)
    {
      if HashesTo(lockedBlock, id) {
        proposalBlock := lockedBlock;
      }
      if !HashesTo(proposalBlock, id) {
        proposalBlock := None;
      }
      UpdateRoundStep(round, COMMIT);
      commitRound := r;
    }

    method EnterCommit(h: nat, r: int)
      modifies this
      ensures State() == Machine.EnterCommit(old(State()), h, r)
    {
      hide Machine.TryFinalizeCommit, TwoThirdsMajority;
      if failed || height != h || COMMIT <= step { return; }
      var id := Commitment(r);
      if id.None? {
        failed := true;
        return;
      }
      PrepareCommit(r, id.value);
      TryFinalizeCommit(h);
    }

    /** The commit becomes the last commit directly, with no commit round of our own. */
    method TakeCommit(commit: Commit)
      modifies this
      ensures State() == old(State()).(step := COMMIT, commitRound := -1, lastCommit := Some(CommitToVoteSet(commit)),
                                       heard := old(heard) + CommitVotes(commit))
    {
      UpdateRoundStep(round, COMMIT);
      commitRound := -1;
      lastCommit := Some(CommitToVoteSet(commit));
      heard := heard + CommitVotes(commit);
    }

    method ProcessCommittedBlock(e: Env, full: FullBlock)
      modifies this
      ensures State() == Machine.ProcessCommittedBlock(cfg, e, old(State()), full)
    {
      hide ValidateBlock, VerifyCommit, CommitVotes, CommitToVoteSet, Machine.UpdateToState, Machine.SaveBlock,
        Machine.EnterNewRound;
      var block := full.block;
      if failed || block.number != height { return; }
      if ValidateBlock(chainState, block).Invalid? { return; }
      if !VerifyCommit(chainState.validators, HashOf(block), block.number, full.commit) { return; }
      TakeCommit(full.commit);
      SaveBlock(block, full.commit);
      UpdateToState(UpdateState(chainState, block));
      if failed { return; }
      if cfg.skipTimeoutCommit && lastCommit.Some? && HasAll(chainState.validators, lastCommit.value.ballots) {
        EnterNewRound(e, height, 0);
      } else {
        ScheduleRound0();
      }
    }

    // ---- Messages ----

    method AcceptProposal(p: Proposal)
      modifies this
      ensures State() == Machine.AcceptProposal(old(State()), p)
    {
      hide TwoThirdsMajority;
      var polka := Polka(round);
      var known := polka.Some? && polka.value != ZeroHash && validRound < round && HashesTo(Some(p.block), polka.value);
      SetProposed(Some(p), Some(p.block));
      if known {
        SetValid(round, proposalBlock);
      }
    }

    method SetProposal(e: Env, p: Proposal)
      modifies this
      ensures State() == Machine.SetProposal(cfg, e, old(State()), p)
    {
      hide TwoThirdsMajority, Machine.AcceptProposal, Machine.EnterPrevote, Machine.EnterPrecommit,
        Machine.TryFinalizeCommit;
      if failed || proposal.Some? { return; }
      if p.height != height || p.round != round { return; }
      if p.polRound < -1 || (p.polRound >= 0 && p.polRound >= p.round) { return; }
      if p.signer != cfg.proposer(height, round) { return; }
      var polka := Polka(round);
      AcceptProposal(p);
      var complete := IsProposalComplete();
      if step <= PROPOSE && complete {
        EnterPrevote(e, height, round);
        if polka.Some? {
          EnterPrecommit(e, height, round);
        }
      } else if step == COMMIT {
        TryFinalizeCommit(height);
      }
    }

    method AddLatePrecommit(e: Env, v: Vote)
      modifies this
      ensures State() == Machine.AddLatePrecommit(cfg, e, old(State()), v)
    {
      hide Machine.EnterNewRound;
      if step != NEW_HEIGHT || lastCommit.None? { return; }
      var last := lastCommit.value;
      if v.kind != Precommit || v.height != last.height || v.round != last.round { return; }
      if !BallotsAccept(e, chainState.lastValidators, last.ballots, v) { return; }
      lastCommit := Some(last.(ballots := last.ballots[v.validator := Ballot(v.value, v.timeMs)]));
      heard := heard + {v};
      if cfg.skipTimeoutCommit && HasAll(chainState.lastValidators, lastCommit.value.ballots) {
        EnterNewRound(e, height, 0);
      }
    }

    /** A polka of round r: unlock on it if it is newer, follow it with the valid block. */
    method FollowPolka(r: int, id: Hash)
      modifies this
      ensures State() == Machine.FollowPolka(old(State()), r, id)
    {
      if lockedBlock.Some? && lockedRound < r && r <= round && !HashesTo(lockedBlock, id) {
        SetLock(-1, None);
      }
      if id != ZeroHash && validRound < r && r == round {
        if HashesTo(proposalBlock, id) {
          SetValid(r, proposalBlock);
        } else {
          proposalBlock := None;
        }
      }
    }

    method AfterPrevote(e: Env, r: int)
      modifies this
      ensures State() == Machine.AfterPrevote(cfg, e, old(State()), r)
    {
      hide TwoThirdsMajority, Machine.EnterNewRound, Machine.EnterPrecommit, Machine.EnterPrevote,
        Machine.EnterPrevoteWait;
      var polka := Polka(r);
      if polka.Some? {
        FollowPolka(r, polka.value);
      }
      var any := HasTwoThirdsAny(chainState.validators, VotesAt(prevotes, r));
      var complete := IsProposalComplete();
      if round < r && any {
        EnterNewRound(e, height, r);
      } else if round == r && PREVOTE <= step {
        if polka.Some? && (complete || polka.value == ZeroHash) {
          EnterPrecommit(e, height, r);
        } else if any {
          EnterPrevoteWait(height, r);
        }
      } else if proposal.Some? && 0 <= proposal.value.polRound && proposal.value.polRound == r {
        if complete {
          EnterPrevote(e, height, round);
        }
      }
    }

    method AfterPrecommit(e: Env, r: int)
      modifies this
      ensures State() == Machine.AfterPrecommit(cfg, e, old(State()), r)
    {
      hide TwoThirdsMajority, Machine.EnterNewRound, Machine.EnterPrecommit, Machine.EnterCommit,
        Machine.EnterPrecommitWait;
      var h := height;
      var id := Commitment(r);
      var any := HasTwoThirdsAny(chainState.validators, VotesAt(precommits, r));
      var all := HasAll(chainState.validators, VotesAt(precommits, r));
      if id.Some? {
        EnterNewRound(e, h, r);
        EnterPrecommit(e, h, r);
        if id.value != ZeroHash {
          EnterCommit(h, r);
          if cfg.skipTimeoutCommit && all {
            EnterNewRound(e, height, 0);
          }
        } else {
          EnterPrecommitWait(h, r);
        }
      } else if round <= r && any {
        EnterNewRound(e, h, r);
        EnterPrecommitWait(h, r);
      }
    }

    /** HeightVoteSet.AddVote, once it accepts. */
    method Record(v: Vote)
      modifies this
      ensures State() == Machine.Record(old(State()), v)
    {
      var ballot := Ballot(v.value, v.timeMs);
      heard := heard + {v};
      match v.kind
      case Prevote =>
        prevotes := prevotes[v.round := VotesAt(prevotes, v.round)[v.validator := ballot]];
      case Precommit =>
        precommits := precommits[v.round := VotesAt(precommits, v.round)[v.validator := ballot]];
    }

    method AddVote(e: Env, v: Vote)
      modifies this
      ensures State() == Machine.AddVote(cfg, e, old(State()), v)
    {
      hide Machine.AfterPrevote, Machine.AfterPrecommit, Machine.AddLatePrecommit, Machine.Record;
      if failed { return; }
      if v.height + 1 == height && v.kind == Precommit {
        AddLatePrecommit(e, v);
        return;
      }
      if v.height != height { return; }
      if !BallotsAccept(e, chainState.validators,
        VotesAt(if v.kind == Prevote then prevotes else precommits, v.round), v) {
        return;
      }
      Record(v);
      match v.kind
      case Prevote => AfterPrevote(e, v.round);
      case Precommit => AfterPrecommit(e, v.round);
    }

    method HandleTimeout(e: Env, t: Timeout)
      modifies this
      ensures State() == Machine.HandleTimeout(cfg, e, old(State()), t)
    {
      hide Machine.EnterNewRound, Machine.EnterPropose, Machine.EnterPrevote, Machine.EnterPrecommit;
      if failed { return; }
      if t.height != height || t.round < round || (t.round == round && t.step < step) { return; }
      if t.step == NEW_HEIGHT {
        EnterNewRound(e, t.height, 0);
      } else if t.step == NEW_ROUND {
        EnterPropose(e, t.height, 0);
      } else if t.step == PROPOSE {
        EnterPrevote(e, t.height, t.round);
      } else if t.step == PREVOTE_WAIT {
        EnterPrecommit(e, t.height, t.round);
      } else if t.step == PRECOMMIT_WAIT {
        EnterPrecommit(e, t.height, t.round);
        EnterNewRound(e, t.height, t.round + 1);
      } else {
        failed := true;
      }
    }

    /** One turn of the receive routine. */
    method Receive(e: Env, ev: Event)
      modifies this
      ensures State() == Machine.Step(cfg, e, old(State()), ev)
    {
      hide Machine.SetProposal, Machine.AddVote, Machine.HandleTimeout, Machine.ProcessCommittedBlock;
      match ev
      case ProposalReceived(p) => SetProposal(e, p);
      case VoteReceived(v) => AddVote(e, v);
      case TimedOut(t) => HandleTimeout(e, t);
      case BlockReceived(full) => ProcessCommittedBlock(e, full);
    }

    /** Receiving an event keeps the state valid and only moves it forward, whatever the event. */
    method ReceiveSafely(ghost g: ChainState, e: Env, ev: Event)
      requires Valid(g)
      requires ev.TimedOut? ==> ev.timeout in ticks
      modifies this
      ensures State() == Step(cfg, e, old(State()), ev)
      ensures Valid(g) && Advances(old(State()), State())
      ensures heard <= old(heard) + Carried(ev)
      ensures !old(failed) && old(Trusts(Judged(e, State(), ev))) ==> !failed
    {
      hide Step, Ready, Advances, Carried, Trusts, Judged;
      StepOk(g, cfg, e, State(), ev);
      Receive(e, ev);
    }

    /** Started on a chain that holds together, the node is valid. */
    method StartSafely(ghost g: ChainState)
      requires IsGenesis(g) && ChainOk(g, heard, chainState, blockStore)
      requires State() == NewNode(chainState, blockStore, heard)
      modifies this
      ensures State() == StartNode(old(chainState), old(blockStore), old(heard))
      ensures Valid(g) && !failed
    {
      hide Ready, ChainOk, NewNode;
      StartNodeOk(g, cfg, chainState, blockStore, heard);
      OnStart();
    }
  }
}
