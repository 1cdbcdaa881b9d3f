/**
  What each step of the machine has to do, not only what it may.  Each operation is described by the votes,
  blocks and rounds it finds and the votes, blocks and rounds it leaves, for every state the invariant allows.
*/
module Duties {
  import opened Quorums
  import opened Votes
  import opened BlockTime
  import opened Executor
  import opened Machine
  import opened NodeInvariant
  import opened NodeSteps
  import opened Transitions
  import opened Commits

  // ---- Signing ----

  /** The node has a key, the key is a validator's, and signing works. */
  predicate CanVote(c: Config, e: Env, s: Node, kind: Kind) {
    && c.key.Some? && HasAddress(s.chain.validators, c.key.value)
    && e.voteTime(kind, s.height, s.round).Some?
  }

  /** The log grows by the node's one vote of this kind for `x`, at its own height and round, if it can vote. */
  predicate Signs(c: Config, e: Env, s: Node, signed: seq<Message>, kind: Kind, x: Hash)
    requires s.round >= 0
  {
    signed == s.signed +
      if CanVote(c, e, s, kind)
      then [VoteMsg(Vote(kind, s.height, s.round, x, c.key.value, e.voteTime(kind, s.height, s.round).value))] else []
  }

  lemma SignsOnce(c: Config, e: Env, s: Node, kind: Kind, x: Hash)
    requires s.round >= 0
    ensures Signs(c, e, s, SignAddVote(c, e, s, kind, x).signed, kind, x)
  {
    hide HasAddress;
  }

  // ---- Prevoting ----

  /** The lock, whatever the proposal; else the proposal block, if it is valid here; else nil. */
  predicate PrevoteAnswer(c: Config, e: Env, s: Node, t: Node) {
    && s.round >= 0
    && t == s.(signed := t.signed, step := PREVOTE)
    && (s.lockedBlock.Some? ==> Signs(c, e, s, t.signed, Prevote, HashOf(s.lockedBlock.value)))
    && (s.lockedBlock.None? && s.proposalBlock.Some? && ValidateBlock(s.chain, s.proposalBlock.value).Valid? ==>
          Signs(c, e, s, t.signed, Prevote, HashOf(s.proposalBlock.value)))
    && (s.lockedBlock.None? && (s.proposalBlock.None? || ValidateBlock(s.chain, s.proposalBlock.value).Invalid?) ==>
          Signs(c, e, s, t.signed, Prevote, ZeroHash))
  }

  lemma PrevoteDuty(c: Config, e: Env, s: Node)
    requires RoundOk(s) && !s.failed && s.step < PREVOTE
    ensures PrevoteAnswer(c, e, s, EnterPrevote(c, e, s, s.height, s.round))
  {
    hide RoundOk, ValidateBlock, NewVote, HasAddress, Signs;
    RoundIsNat(s);
    SignsOnce(c, e, s, Prevote, PrevoteValue(s));
  }

  lemma RoundIsNat(s: Node)
    requires RoundOk(s)
    ensures s.round >= 0
  {
  }

  // ---- Precommitting ----

  predicate Precommits(c: Config, e: Env, s: Node, t: Node, lockedRound: int, lockedBlock: Option<Block>, x: Hash) {
    && s.round >= 0
    && t == s.(signed := t.signed, step := PRECOMMIT, lockedRound := lockedRound, lockedBlock := lockedBlock)
    && Signs(c, e, s, t.signed, Precommit, x)
  }

  /**
    With no prevote majority in the round the lock stays and the precommit is nil.  A majority for the locked
    block relocks it in this round, one for a valid proposal block locks that, and either is precommitted.
    A majority for nil or for a block the node does not hold releases the lock, and the precommit is nil.
  */
  predicate PrecommitAnswer(c: Config, e: Env, s: Node, t: Node) {
    var polka := PrevoteMajority(s, s.round);
    && (polka.None? ==> Precommits(c, e, s, t, s.lockedRound, s.lockedBlock, ZeroHash))
    && (polka == Some(ZeroHash) ==> Precommits(c, e, s, t, -1, None, ZeroHash))
    && (polka.Some? && HashesTo(s.lockedBlock, polka.value) ==>
          Precommits(c, e, s, t, s.round, s.lockedBlock, polka.value))
    && (polka.Some? && !HashesTo(s.lockedBlock, polka.value) && HashesTo(s.proposalBlock, polka.value) ==>
          if ValidateBlock(s.chain, s.proposalBlock.value).Valid?
          then Precommits(c, e, s, t, s.round, s.proposalBlock, polka.value) else t.failed)
    && (polka.Some? && !HashesTo(s.lockedBlock, polka.value) && !HashesTo(s.proposalBlock, polka.value) ==>
          Precommits(c, e, s, t, -1, None, ZeroHash))
  }

  lemma PrecommitDuty(g: ChainState, c: Config, e: Env, s: Node)
    requires Inv(g, c, s) && !s.failed && s.step < PRECOMMIT
    ensures PrecommitAnswer(c, e, s, EnterPrecommit(c, e, s, s.height, s.round))
  {
    hide Inv, RoundOk, ValidateBlock, NewVote, HasAddress, Signs, POLInfo, TwoThirdsMajority;
    Facts(g, c, s);
    RoundIsNat(s);
    var polka := PrevoteMajority(s, s.round);
    if polka.Some? { PolkaIsTracked(g, c, s); }
    var d := DecidePrecommit(s, s.round);
    if d.Decision? {
      SignsOnce(c, e, s.(lockedRound := d.lockedRound, lockedBlock := d.lockedBlock), Precommit, d.value);
      SignsSame(c, e, s.(lockedRound := d.lockedRound, lockedBlock := d.lockedBlock), s,
                EnterPrecommit(c, e, s, s.height, s.round).signed, d.value);
    }
  }

  lemma PolkaIsTracked(g: ChainState, c: Config, s: Node)
    requires Inv(g, c, s) && PrevoteMajority(s, s.round).Some?
    ensures POLInfo(s.chain.validators, s.prevotes, s.trackedRound) >= s.round
  {
    hide Inv, POLInfo, TwoThirdsMajority;
    Facts(g, c, s);
    POLInfoFinds(s.chain.validators, s.prevotes, s.trackedRound, s.round);
  }

  lemma SignsSame(c: Config, e: Env, s: Node, t: Node, signed: seq<Message>, x: Hash)
    requires t.round == s.round >= 0 && t.height == s.height && t.chain == s.chain && t.signed == s.signed
    requires Signs(c, e, s, signed, Precommit, x)
    ensures Signs(c, e, t, signed, Precommit, x)
  {
    hide HasAddress;
  }

  // ---- Proposing and entering a round ----

  /** The proposal and its block are here and, if it claims a polka, so is a majority of that round. */
  predicate Whole(s: Node) {
    && s.proposal.Some? && s.proposalBlock.Some?
    && (s.proposal.value.polRound < 0 || PrevoteMajority(s, s.proposal.value.polRound).Some?)
  }

  predicate MustPropose(c: Config, e: Env, s: Node) {
    && c.key.Some? && HasAddress(s.chain.validators, c.key.value) && c.proposer(s.height, s.round) == c.key.value
    && e.signsProposal(s.height, s.round)
  }

  /** The valid block with the round of its polka, or a new block on the tip of the chain with no claim. */
  predicate ProposalFor(c: Config, s: Node, p: Proposal)
    requires c.key.Some?
  {
    && p.height == s.height && p.round == s.round && p.signer == c.key.value
    && (if s.validBlock.Some? then p.block == s.validBlock.value && p.polRound == s.validRound
        else p.polRound == -1 && p.block.number == s.height && p.block.parent == s.chain.lastBlockID
             && p.block.coinbase == c.key.value)
  }

  /** Exactly one proposal if it is the node's turn and signing works, none otherwise. */
  ghost predicate Proposes(c: Config, e: Env, s: Node, signed: seq<Message>) {
    if MustPropose(c, e, s)
    then exists p :: signed == s.signed + [ProposalMsg(p)] && ProposalFor(c, s, p)
    else signed == s.signed
  }

  /** The proposal step: propose, schedule the timeout, and prevote at once if the proposal is already whole. */
  ghost predicate ProposeAnswer(c: Config, e: Env, s: Node, t: Node) {
    exists signed :: Proposes(c, e, s, signed) && ProposedThen(c, e, s, signed, t)
  }

  predicate ProposedThen(c: Config, e: Env, s: Node, signed: seq<Message>, t: Node) {
    var u := s.(signed := signed, ticks := s.ticks + [Timeout(s.height, s.round, PROPOSE)], step := PROPOSE);
    if Whole(s) then PrevoteAnswer(c, e, u, t) else t == u
  }

  lemma ProposalDuty(g: ChainState, c: Config, e: Env, s: Node)
    requires Inv(g, c, s)
    ensures Proposes(c, e, s, s.signed + NewProposal(c, e, s, s.height, s.round))
  {
    hide Inv, HasAddress, MakeBlock, ProposalCommit;
    Facts(g, c, s);
    var ms := NewProposal(c, e, s, s.height, s.round);
    if MustPropose(c, e, s) {
      if s.validBlock.None? { NewBlockDuty(g, c, s, c.key.value); }
      assert ms == [ms[0]] && ProposalFor(c, s, ms[0].proposal);
    } else {
      assert s.signed + [] == s.signed;
    }
  }

  lemma NewBlockDuty(g: ChainState, c: Config, s: Node, proposer: Addr)
    requires Inv(g, c, s)
    ensures CreateProposalBlock(s, proposer).Some?
    ensures var b := CreateProposalBlock(s, proposer).value;
      b.number == s.height && b.parent == s.chain.lastBlockID && b.coinbase == proposer
  {
    hide Inv, TwoThirdsMajority, MakeCommit, DrawnFrom, MedianTime;
    Facts(g, c, s);
    LastValidatorsAre(g, c, s);
  }

  lemma LastValidatorsAre(g: ChainState, c: Config, s: Node)
    requires Inv(g, c, s)
    ensures s.chain.lastBlockHeight > 0 ==> s.chain.lastValidators == g.validators
  {
    hide LogOk, LockOk, BallotsHeard, StoredOk, RoundOk, LastCommitOk;
    StateAfterShape(g, Tip(s.store));
  }

  lemma ProposeDuty(g: ChainState, c: Config, e: Env, s: Node)
    requires Inv(g, c, s) && !s.failed && s.step < PROPOSE && s.validRound < s.round
    ensures ProposeAnswer(c, e, s, EnterPropose(c, e, s, s.height, s.round))
  {
    hide Inv, NewProposal, Proposes, PrevoteAnswer, TwoThirdsMajority, EnterPrevote;
    var signed := s.signed + NewProposal(c, e, s, s.height, s.round);
    var u := s.(signed := signed, ticks := s.ticks + [Timeout(s.height, s.round, PROPOSE)], step := PROPOSE);
    ProposalDuty(g, c, e, s);
    NewProposalIgnoresTicks(c, e, s, ScheduleTimeout(s, Timeout(s.height, s.round, PROPOSE)), s.height, s.round);
    assert u == Propose(c, e, s, s.height, s.round);
    ProposeOk(g, c, e, s);
    KeepsInv(g, c, s, u);
    Facts(g, c, u);
    if Whole(s) { PrevoteDuty(c, e, u); }
    assert ProposedThen(c, e, s, signed, EnterPropose(c, e, s, s.height, s.round));
  }

  /** A round starts with no proposal, except that one already here for round 0 is kept, and with nothing triggered. */
  function Started(s: Node, round: int): Node {
    s.(round := round, step := NEW_ROUND, trackedRound := round + 1, triggeredTimeoutPrecommit := false,
       proposal := if round == 0 then s.proposal else None,
       proposalBlock := if round == 0 then s.proposalBlock else None)
  }

  lemma NewRoundDuty(g: ChainState, c: Config, e: Env, s: Node, round: int)
    requires Inv(g, c, s) && Fresh(s) && !s.failed
    ensures var t := EnterNewRound(c, e, s, s.height, round);
      if round > s.round || (round == s.round && s.step == NEW_HEIGHT)
      then ProposeAnswer(c, e, Started(s, round), t) else t == s
  {
    hide Inv, ProposeAnswer, EnterPropose;
    if round > s.round || (round == s.round && s.step == NEW_HEIGHT) {
      StartRoundOk(g, c, s, round);
      KeepsInv(g, c, s, StartRound(s, round));
      ProposeDuty(g, c, e, Started(s, round));
    }
  }

  // ---- Timeouts ----

  /** Where a timeout of the machine's own height and round leads. */
  ghost predicate TimeoutAnswer(c: Config, e: Env, s: Node, t: Timeout, u: Node) {
    && (t.step == NEW_HEIGHT ==> ProposeAnswer(c, e, Started(s, 0), u))
    && (t.step == PROPOSE ==> PrevoteAnswer(c, e, s, u))
    && (t.step == PREVOTE_WAIT ==> PrecommitAnswer(c, e, s, u))
    && (t.step == PRECOMMIT_WAIT ==>
          if s.step >= PRECOMMIT then ProposeAnswer(c, e, Started(s, s.round + 1), u)
          else exists m :: PrecommitAnswer(c, e, s, m) && NextRound(c, e, m, u))
  }

  ghost predicate NextRound(c: Config, e: Env, s: Node, t: Node) {
    if s.failed then t == s else ProposeAnswer(c, e, Started(s, s.round + 1), t)
  }

  lemma TimeoutDuty(g: ChainState, c: Config, e: Env, s: Node, t: Timeout)
    requires Ready(g, c, s) && !s.failed && t in s.ticks
    ensures var u := HandleTimeout(c, e, s, t);
      if t.height == s.height && t.round == s.round && t.step >= s.step then TimeoutAnswer(c, e, s, t, u) else u == s
  {
    hide Inv, EnterNewRound, EnterPropose, EnterPrecommit, EnterPrevote, ProposeAnswer, PrevoteAnswer, PrecommitAnswer;
    Facts(g, c, s);
    if t.height == s.height && t.round == s.round && t.step >= s.step {
      if t.step == NEW_HEIGHT {
        NewRoundDuty(g, c, e, s, 0);
      } else if t.step == PROPOSE {
        PrevoteDuty(c, e, s);
      } else if t.step == PREVOTE_WAIT {
        PrecommitDuty(g, c, e, s);
      } else {
        PrecommitTimeoutDuty(g, c, e, s);
      }
    }
  }

  lemma PrecommitTimeoutDuty(g: ChainState, c: Config, e: Env, s: Node)
    requires Ready(g, c, s) && !s.failed && s.step < COMMIT
    ensures var m := EnterPrecommit(c, e, s, s.height, s.round);
      var u := EnterNewRound(c, e, m, s.height, s.round + 1);
      && (if s.step >= PRECOMMIT then m == s else PrecommitAnswer(c, e, s, m))
      && NextRound(c, e, m, u)
  {
    hide Inv, EnterNewRound, ProposeAnswer, PrecommitAnswer, DecidePrecommit, NewVote;
    var m := EnterPrecommit(c, e, s, s.height, s.round);
    EnterPrecommitOk(g, c, e, s, s.height, s.round);
    KeepsInv(g, c, s, m);
    if s.step < PRECOMMIT { PrecommitDuty(g, c, e, s); }
    if m.failed {
      FailedStaysOut(c, e, m, s.height, s.round + 1);
    } else {
      NewRoundDuty(g, c, e, m, s.round + 1);
    }
  }

  lemma FailedStaysOut(c: Config, e: Env, s: Node, height: nat, round: int)
    requires s.failed
    ensures EnterNewRound(c, e, s, height, round) == s
  {
  }

  // ---- Where the machine panics: exactly, in every state, reachable or not ----

  lemma WaitPanics(s: Node, height: nat, round: int)
    requires !s.failed && s.height == height && round >= s.round
    ensures !(round == s.round && PREVOTE_WAIT <= s.step) ==>
      (EnterPrevoteWait(s, height, round).failed <==> !PrevotesAny(s, round))
    ensures !(round == s.round && s.triggeredTimeoutPrecommit) ==>
      (EnterPrecommitWait(s, height, round).failed <==> !PrecommitsAny(s, round))
  {
    hide Quorum;
  }

  /** On a polka the machine does not track, or a polka for an invalid proposal block it is not locked on. */
  lemma PrecommitPanics(c: Config, e: Env, s: Node)
    requires !s.failed && s.step < PRECOMMIT
    ensures EnterPrecommit(c, e, s, s.height, s.round).failed <==>
      var polka := PrevoteMajority(s, s.round);
      && polka.Some?
      && (|| POLInfo(s.chain.validators, s.prevotes, s.trackedRound) < s.round
          || (polka.value != ZeroHash && !HashesTo(s.lockedBlock, polka.value) && HashesTo(s.proposalBlock, polka.value)
              && ValidateBlock(s.chain, s.proposalBlock.value).Invalid?))
  {
    hide POLInfo, ValidateBlock, TwoThirdsMajority, HasAddress;
  }

  /** On a state of another height, on a machine out of step with its own chain, or without a last commit. */
  lemma UpdatePanics(s: Node, st: ChainState)
    requires !s.failed
    ensures UpdateToState(s, st).failed <==>
      || (s.commitRound > -1 && s.height > 0 && s.height != st.lastBlockHeight)
      || (s.chain.lastBlockHeight > 0 && (s.height != s.chain.lastBlockHeight + 1 || s.height == s.chain.initialHeight))
      || (st.lastBlockHeight > s.chain.lastBlockHeight
          && if s.commitRound > -1 then PrecommitMajority(s, s.commitRound).None? else s.lastCommit.None?)
    ensures st.lastBlockHeight <= s.chain.lastBlockHeight && !UpdateToState(s, st).failed ==> UpdateToState(s, st) == s
  {
    hide TwoThirdsMajority;
  }

  lemma SavePanics(s: Node, b: Block, commit: Commit)
    requires !s.failed
    ensures var t := SaveBlock(s, b, commit);
      && (t.failed <==> b.number > |s.store| + 1)
      && (b.number <= |s.store| ==> t == s)
      && (b.number == |s.store| + 1 ==> t == s.(store := s.store + [Stored(b, commit)]))
  {
  }

  /** Committing without a majority, finalizing at another height, and finalizing anything but a valid decided block. */
  lemma CommitPanics(s: Node, height: nat, r: int)
    requires !s.failed
    ensures s.height == height && s.step < COMMIT && PrecommitMajority(s, r).None? ==> EnterCommit(s, height, r).failed
    ensures s.height != height ==> TryFinalizeCommit(s, height).failed && EnterCommit(s, height, r) == s
    ensures s.height == height && s.step == COMMIT ==>
      var id := PrecommitMajority(s, s.commitRound);
      (id.None? || !HashesTo(s.proposalBlock, id.value) || ValidateBlock(s.chain, s.proposalBlock.value).Invalid?) ==>
        FinalizeCommit(s, height).failed
  {
    hide TwoThirdsMajority, ValidateBlock, MakeCommit, UpdateToState, SaveBlock;
  }

  lemma TimeoutPanics(c: Config, e: Env, s: Node, t: Timeout)
    requires !s.failed && t.height == s.height && t.round == s.round && t.step >= s.step
    ensures t.step !in {NEW_HEIGHT, NEW_ROUND, PROPOSE, PREVOTE_WAIT, PRECOMMIT_WAIT} ==>
      HandleTimeout(c, e, s, t).failed
  {
    hide EnterNewRound, EnterPropose, EnterPrevote, EnterPrecommit;
  }
}
