/**
  A node holds no block but those it was sent: it takes up a block of its own only when it comes back as a
  proposal, and a block it proposes again, on an earlier polka, is one it held.
*/
module Held {
  import opened Quorums
  import opened Votes
  import opened Executor
  import opened Machine

  function Only(block: Option<Block>): set<Block> {
    if block.Some? then {block.value} else {}
  }

  function Blocks(store: seq<Stored>): set<Block> {
    set x | x in store :: x.block
  }

  /** The blocks proposed with the polka of an earlier round. */
  function Reproposed(signed: seq<Message>): set<Block> {
    set m | m in signed && m.ProposalMsg? && m.proposal.polRound >= 0 :: m.proposal.block
  }

  /** Proposed, locked, valid, stored, or proposed again. */
  function HeldBlocks(s: Node): set<Block> {
    Only(s.proposalBlock) + Only(s.lockedBlock) + Only(s.validBlock) + Blocks(s.store) + Reproposed(s.signed)
  }

  predicate Tied(s: Node) {
    s.validRound >= 0 ==> s.validBlock.Some?
  }

  /** From `s` to `t` no block but those of `extra` is taken up. */
  predicate HoldsOnly(s: Node, t: Node, extra: set<Block>) {
    Tied(s) ==> Tied(t) && HeldBlocks(t) <= HeldBlocks(s) + extra
  }

  /** The block an event brings. */
  function Offered(ev: Event): set<Block> {
    match ev
    case ProposalReceived(p) => {p.block}
    case BlockReceived(full) => {full.block}
    case VoteReceived(_) => {}
    case TimedOut(_) => {}
  }

  predicate SameBlocks(s: Node, t: Node) {
    && t.proposalBlock == s.proposalBlock && t.lockedBlock == s.lockedBlock
    && t.validBlock == s.validBlock && t.validRound == s.validRound && t.store == s.store
    && Reproposed(t.signed) == Reproposed(s.signed)
  }

  lemma BlocksAppend(store: seq<Stored>, x: Stored)
    ensures Blocks(store + [x]) == Blocks(store) + {x.block}
  {
    assert x in store + [x];
    forall b | b in Blocks(store) ensures b in Blocks(store + [x]) {
      var y :| y in store && y.block == b;
      assert y in store + [x];
    }
  }

  lemma SameHeld(s: Node, t: Node)
    requires SameBlocks(s, t)
    ensures HeldBlocks(t) == HeldBlocks(s) && HoldsOnly(s, t, {}) && (Tied(t) <==> Tied(s))
  {
    hide Reproposed, Blocks;
  }

  lemma HoldsSame(s: Node)
    ensures HoldsOnly(s, s, {})
  {
  }

  // ---- The steps of a round ----

  lemma EnterPrevoteHolds(c: Config, e: Env, s: Node, height: nat, round: int)
    ensures SameBlocks(s, EnterPrevote(c, e, s, height, round))
  {
    hide PrevoteValue, HasAddress, Reproposed;
    VotesRepropose(c, e, s, Prevote, PrevoteValue(s));
  }

  lemma VotesRepropose(c: Config, e: Env, s: Node, kind: Kind, value: Hash)
    ensures Reproposed(s.signed + NewVote(c, e, s, kind, value)) == Reproposed(s.signed)
  {
    hide HasAddress, Reproposed;
    var ms := NewVote(c, e, s, kind, value);
    if ms == [] {
      assert s.signed + [] == s.signed;
    } else {
      assert ms == [ms[0]];
      ReproposedAppend(s.signed, ms[0]);
    }
  }

  lemma EnterPrevoteWaitHolds(s: Node, height: nat, round: int)
    ensures SameBlocks(s, EnterPrevoteWait(s, height, round))
  {
    hide Quorum;
  }

  lemma DecisionHolds(s: Node, round: int)
    ensures var d := DecidePrecommit(s, round); d.Decision? ==> d.lockedBlock in {s.lockedBlock, s.proposalBlock, None}
  {
    hide TwoThirdsMajority, POLInfo, ValidateBlock;
  }

  lemma EnterPrecommitHolds(c: Config, e: Env, s: Node, height: nat, round: int)
    ensures HoldsOnly(s, EnterPrecommit(c, e, s, height, round), {})
  {
    hide DecidePrecommit, NewVote, Blocks, Reproposed;
    DecisionHolds(s, round);
    var d := DecidePrecommit(s, round);
    if d.Decision? {
      VotesRepropose(c, e, s.(lockedRound := d.lockedRound, lockedBlock := d.lockedBlock), Precommit, d.value);
    }
  }

  lemma EnterPrecommitWaitHolds(s: Node, height: nat, round: int)
    ensures SameBlocks(s, EnterPrecommitWait(s, height, round))
  {
    hide Quorum;
  }

  lemma ReproposedAppend(signed: seq<Message>, m: Message)
    ensures Reproposed(signed + [m]) ==
      Reproposed(signed) + if m.ProposalMsg? && m.proposal.polRound >= 0 then {m.proposal.block} else {}
  {
    assert m in signed + [m];
    forall x | x in signed ensures x in signed + [m] {}
  }

  lemma DecideProposalHolds(c: Config, e: Env, s: Node, height: nat, round: int)
    ensures HoldsOnly(s, DecideProposal(c, e, s, height, round), {})
  {
    hide CreateProposalBlock, HasAddress, Blocks, Reproposed;
    var ms := NewProposal(c, e, s, height, round);
    if ms == [] {
      assert s.signed + [] == s.signed;
    } else {
      assert ms == [ms[0]];
      ReproposedAppend(s.signed, ms[0]);
    }
  }

  lemma EnterProposeHolds(c: Config, e: Env, s: Node, height: nat, round: int)
    ensures HoldsOnly(s, EnterPropose(c, e, s, height, round), {})
  {
    hide NewProposal, EnterPrevote, TwoThirdsMajority, DecideProposal, HeldBlocks, Reproposed;
    var s1 := ScheduleTimeout(s, Timeout(height, round, PROPOSE));
    var s2 := DecideProposal(c, e, s1, height, round);
    var s3 := s2.(round := round, step := PROPOSE);
    SameHeld(s, s1);
    DecideProposalHolds(c, e, s1, height, round);
    SameHeld(s2, s3);
    EnterPrevoteHolds(c, e, s3, height, s3.round);
    SameHeld(s3, EnterPrevote(c, e, s3, height, s3.round));
  }

  lemma EnterNewRoundHolds(c: Config, e: Env, s: Node, height: nat, round: int)
    ensures HoldsOnly(s, EnterNewRound(c, e, s, height, round), {})
  {
    hide EnterPropose, Blocks;
    EnterProposeHolds(c, e, StartRound(s, round), height, round);
  }

  // ---- Committing ----

  lemma SaveBlockHolds(s: Node, b: Block, commit: Commit)
    ensures HoldsOnly(s, SaveBlock(s, b, commit), {b})
  {
    hide Blocks;
    BlocksAppend(s.store, Stored(b, commit));
  }

  lemma UpdateToStateHolds(s: Node, st: ChainState)
    ensures HoldsOnly(s, UpdateToState(s, st), {})
  {
    hide ResetForHeight, HeldBlocks, NextLastCommit;
    ResetHolds(s, st, NextLastCommit(s));
    SameHeld(s, Panic(s));
  }

  lemma ResetHolds(s: Node, st: ChainState, last: Option<VoteSet>)
    ensures HoldsOnly(s, ResetForHeight(s, st, last), {})
  {
    hide Blocks;
  }

  lemma ScheduleHolds(s: Node)
    ensures SameBlocks(s, ScheduleRound0(s))
  {
  }

  lemma FinalizeCommitHolds(s: Node, height: nat)
    ensures HoldsOnly(s, FinalizeCommit(s, height), {})
  {
    hide TwoThirdsMajority, ValidateBlock, MakeCommit, SaveBlock, UpdateToState, ScheduleRound0, Blocks;
    if s.proposalBlock.Some? && PrecommitMajority(s, s.commitRound).Some? {
      var votes := VoteSet(s.height, s.commitRound, VotesAt(s.precommits, s.commitRound));
      var s1 := SaveBlock(s, s.proposalBlock.value, MakeCommit(s.chain.validators, votes));
      var s2 := UpdateToState(s1, UpdateState(s1.chain, s.proposalBlock.value));
      SaveBlockHolds(s, s.proposalBlock.value, MakeCommit(s.chain.validators, votes));
      UpdateToStateHolds(s1, UpdateState(s1.chain, s.proposalBlock.value));
      ScheduleHolds(s2);
    }
  }

  lemma TryFinalizeCommitHolds(s: Node, height: nat)
    ensures HoldsOnly(s, TryFinalizeCommit(s, height), {})
  {
    hide TwoThirdsMajority, FinalizeCommit, Blocks;
    FinalizeCommitHolds(s, height);
  }

  lemma EnterCommitHolds(s: Node, height: nat, commitRound: int)
    ensures HoldsOnly(s, EnterCommit(s, height, commitRound), {})
  {
    hide TwoThirdsMajority, TryFinalizeCommit, Blocks;
    var id := PrecommitMajority(s, commitRound);
    if id.Some? {
      var t := s.(proposalBlock := CommitBlock(s, id.value), step := COMMIT, commitRound := commitRound);
      TryFinalizeCommitHolds(t, height);
    }
  }

  lemma ProcessCommittedBlockHolds(c: Config, e: Env, s: Node, full: FullBlock)
    ensures HoldsOnly(s, ProcessCommittedBlock(c, e, s, full), {full.block})
  {
    hide ValidateBlock, VerifyCommit, CommitVotes, CommitToVoteSet, SaveBlock, UpdateToState, EnterNewRound, HasAll,
      ScheduleRound0, Blocks;
    var s1 := s.(step := COMMIT, commitRound := -1, lastCommit := Some(CommitToVoteSet(full.commit)),
                 heard := s.heard + CommitVotes(full.commit));
    var s2 := SaveBlock(s1, full.block, full.commit);
    var s3 := UpdateToState(s2, UpdateState(s2.chain, full.block));
    SaveBlockHolds(s1, full.block, full.commit);
    UpdateToStateHolds(s2, UpdateState(s2.chain, full.block));
    EnterNewRoundHolds(c, e, s3, s3.height, 0);
    ScheduleHolds(s3);
  }

  // ---- Messages ----

  lemma SetProposalHolds(c: Config, e: Env, s: Node, p: Proposal)
    ensures HoldsOnly(s, SetProposal(c, e, s, p), {p.block})
  {
    hide EnterPrevote, EnterPrecommit, TryFinalizeCommit, TwoThirdsMajority, Blocks;
    var s1 := AcceptProposal(s, p);
    var s2 := EnterPrevote(c, e, s1, s1.height, s1.round);
    EnterPrevoteHolds(c, e, s1, s1.height, s1.round);
    EnterPrecommitHolds(c, e, s2, s2.height, s2.round);
    TryFinalizeCommitHolds(s1, s1.height);
  }

  lemma AddLatePrecommitHolds(c: Config, e: Env, s: Node, v: Vote)
    ensures HoldsOnly(s, AddLatePrecommit(c, e, s, v), {})
  {
    hide EnterNewRound, HasAll, Blocks;
    if s.lastCommit.Some? {
      var last := s.lastCommit.value;
      var t := s.(lastCommit := Some(last.(ballots := last.ballots[v.validator := Ballot(v.value, v.timeMs)])),
                  heard := s.heard + {v});
      EnterNewRoundHolds(c, e, t, t.height, 0);
    }
  }

  lemma FollowPolkaHolds(s: Node, r: int, x: Hash)
    ensures HoldsOnly(s, FollowPolka(s, r, x), {})
  {
    hide Blocks;
  }

  lemma AfterPrevoteHolds(c: Config, e: Env, s: Node, r: int)
    ensures HoldsOnly(s, AfterPrevote(c, e, s, r), {})
  {
    hide TwoThirdsMajority, EnterNewRound, EnterPrecommit, EnterPrevote, EnterPrevoteWait, FollowPolka, Quorum,
      HeldBlocks, Tied, IsProposalComplete;
    var polka := PrevoteMajority(s, r);
    var s1 := if polka.Some? then FollowPolka(s, r, polka.value) else s;
    if polka.Some? { FollowPolkaHolds(s, r, polka.value); }
    EnterNewRoundHolds(c, e, s1, s1.height, r);
    EnterPrecommitHolds(c, e, s1, s1.height, r);
    EnterPrevoteWaitHolds(s1, s1.height, r);
    SameHeld(s1, EnterPrevoteWait(s1, s1.height, r));
    EnterPrevoteHolds(c, e, s1, s1.height, s1.round);
    SameHeld(s1, EnterPrevote(c, e, s1, s1.height, s1.round));
  }

  lemma AfterPrecommitHolds(c: Config, e: Env, s: Node, r: int)
    ensures HoldsOnly(s, AfterPrecommit(c, e, s, r), {})
  {
    hide TwoThirdsMajority, EnterNewRound, EnterPrecommit, EnterCommit, EnterPrecommitWait, HasAll, Quorum, HeldBlocks;
    var s1 := EnterNewRound(c, e, s, s.height, r);
    var s2 := EnterPrecommit(c, e, s1, s.height, r);
    var s3 := EnterCommit(s2, s.height, r);
    EnterNewRoundHolds(c, e, s, s.height, r);
    EnterPrecommitHolds(c, e, s1, s.height, r);
    EnterCommitHolds(s2, s.height, r);
    EnterNewRoundHolds(c, e, s3, s3.height, 0);
    EnterPrecommitWaitHolds(s2, s.height, r);
    EnterPrecommitWaitHolds(s1, s.height, r);
    SameHeld(s2, EnterPrecommitWait(s2, s.height, r));
    SameHeld(s1, EnterPrecommitWait(s1, s.height, r));
  }

  lemma RecordHolds(s: Node, v: Vote)
    ensures SameBlocks(s, Record(s, v))
  {
    hide Reproposed;
  }

  lemma AddVoteHolds(c: Config, e: Env, s: Node, v: Vote)
    ensures HoldsOnly(s, AddVote(c, e, s, v), {})
  {
    hide AfterPrevote, AfterPrecommit, AddLatePrecommit, Record, HeldBlocks, HasAddress;
    RecordHolds(s, v);
    SameHeld(s, Record(s, v));
    AddLatePrecommitHolds(c, e, s, v);
    AfterPrevoteHolds(c, e, Record(s, v), v.round);
    AfterPrecommitHolds(c, e, Record(s, v), v.round);
  }

  lemma HandleTimeoutHolds(c: Config, e: Env, s: Node, t: Timeout)
    ensures HoldsOnly(s, HandleTimeout(c, e, s, t), {})
  {
    hide EnterNewRound, EnterPropose, EnterPrevote, EnterPrecommit, HeldBlocks;
    var s1 := EnterPrecommit(c, e, s, t.height, t.round);
    EnterNewRoundHolds(c, e, s, t.height, 0);
    EnterProposeHolds(c, e, s, t.height, 0);
    EnterPrevoteHolds(c, e, s, t.height, t.round);
    SameHeld(s, EnterPrevote(c, e, s, t.height, t.round));
    EnterPrecommitHolds(c, e, s, t.height, t.round);
    EnterNewRoundHolds(c, e, s1, t.height, t.round + 1);
    SameHeld(s, Panic(s));
  }

  /** One event adds at most the block it brings. */
  lemma StepHolds(c: Config, e: Env, s: Node, ev: Event)
    ensures HoldsOnly(s, Step(c, e, s, ev), Offered(ev))
  {
    hide SetProposal, AddVote, HandleTimeout, ProcessCommittedBlock, HeldBlocks;
    match ev
    case ProposalReceived(p) => SetProposalHolds(c, e, s, p);
    case VoteReceived(v) => AddVoteHolds(c, e, s, v);
    case TimedOut(t) => HandleTimeoutHolds(c, e, s, t);
    case BlockReceived(full) => ProcessCommittedBlockHolds(c, e, s, full);
  }
}
