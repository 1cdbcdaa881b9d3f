/** Each function of the machine keeps the node invariant and only advances. */
module Transitions {
  import opened Quorums
  import opened Votes
  import opened Executor
  import opened Machine
  import opened NodeInvariant
  import opened NodeSteps

  lemma KeepsSame(g: ChainState, c: Config, s: Node)
    requires Inv(g, c, s)
    ensures Keeps(g, c, s, s)
  {
  }

  lemma PanicOk(g: ChainState, c: Config, s: Node)
    requires Inv(g, c, s) && !Trusts(s)
    ensures Keeps(g, c, s, Panic(s))
  {
    hide ChainOk, BallotsHeard, LogOk, MajoritiesValid;
  }

  predicate NotAhead(s: Node, height: nat, round: int) {
    height == s.height ==> round <= s.round
  }

  // ---- Prevote ----

  /**
    A prevote of the machine's own round: for the locked block if there is one, else for a valid proposal block,
    or nil.
  */
  predicate PrevotesFor(s: Node, v: Vote) {
    && v.kind == Prevote && v.height == s.height && v.round == s.round
    && (if s.lockedBlock.Some? then v.value == HashOf(s.lockedBlock.value)
        else v.value != ZeroHash ==>
               HashesTo(s.proposalBlock, v.value) && ValidateBlock(s.chain, s.proposalBlock.value).Valid?)
  }

  lemma EnterPrevoteOk(g: ChainState, c: Config, e: Env, s: Node, height: nat, round: int)
    requires Inv(g, c, s) && NotAhead(s, height, round)
    ensures var t := EnterPrevote(c, e, s, height, round);
      && Keeps(g, c, s, t) && (t == s || (t.step == PREVOTE && t.height == s.height && t.round == s.round))
      && (t.signed == s.signed || exists v :: t.signed == s.signed + [VoteMsg(v)] && PrevotesFor(s, v))
  {
    EnterPrevoteSigns(c, e, s, height, round);
    hide Inv, Moves;
    KeepsSame(g, c, s);
    Facts(g, c, s);
    if !(s.failed || s.height != height || round < s.round || (s.round == round && PREVOTE <= s.step)) {
      PrevoteValueOk(g, c, s);
      SignPrevoteOk(g, c, e, s, PrevoteValue(s));
    }
  }

  lemma EnterPrevoteSigns(c: Config, e: Env, s: Node, height: nat, round: int)
    requires NotAhead(s, height, round)
    ensures var t := EnterPrevote(c, e, s, height, round);
      t.signed == s.signed || exists v :: t.signed == s.signed + [VoteMsg(v)] && PrevotesFor(s, v)
  {
    hide ValidateBlock, HasAddress;
    var t := EnterPrevote(c, e, s, height, round);
    var ms := NewVote(c, e, s, Prevote, PrevoteValue(s));
    if ms == [] {
      assert s.signed + [] == s.signed;
    } else {
      assert PrevotesFor(s, ms[0].vote);
      assert ms == [VoteMsg(ms[0].vote)];
    }
  }

  lemma PrevoteValueOk(g: ChainState, c: Config, s: Node)
    requires Inv(g, c, s)
    ensures PrevoteValue(s) == ZeroHash || Proper(g, s.heard, s.height, PrevoteValue(s))
  {
    LockedIsValid(g, c, s);
    hide Inv, ValidateBlock;
    if PrevoteValue(s) != ZeroHash { ProperIfValid(g, c, s, PrevoteValue(s).block); }
  }

  lemma LockedIsValid(g: ChainState, c: Config, s: Node)
    requires Inv(g, c, s)
    ensures s.lockedBlock.Some? ==> ValidateBlock(s.chain, s.lockedBlock.value).Valid?
  {
  }

  lemma EnterPrevoteWaitOk(g: ChainState, c: Config, s: Node, height: nat, round: int)
    requires Inv(g, c, s) && NotAhead(s, height, round) && PrevotesAny(s, round)
    ensures Keeps(g, c, s, EnterPrevoteWait(s, height, round))
  {
    hide Inv, Moves;
    KeepsSame(g, c, s);
    Facts(g, c, s);
    if EnterPrevoteWait(s, height, round) != s {
      FrameOk(g, c, s, EnterPrevoteWait(s, height, round));
    }
  }

  // ---- Precommit ----

  lemma {:induction false} POLInfoFinds(vals: ValidatorSet, prevotes: map<int, Ballots>, top: int, r: int)
    requires 0 <= r <= top && HasTwoThirdsMajority(vals, VotesAt(prevotes, r))
    ensures POLInfo(vals, prevotes, top) >= r
  {
    if r < top { POLInfoFinds(vals, prevotes, top - 1, r); }
  }

  /** It is a tracked round with a majority, the highest one, or -1 if there is none. */
  lemma {:induction false} POLInfoIsHighest(vals: ValidatorSet, prevotes: map<int, Ballots>, top: int)
    ensures var r := POLInfo(vals, prevotes, top);
      && (r == -1 || (0 <= r <= top && HasTwoThirdsMajority(vals, VotesAt(prevotes, r))))
      && forall q :: 0 <= q <= top && HasTwoThirdsMajority(vals, VotesAt(prevotes, q)) ==> q <= r
  {
    hide TwoThirdsMajority;
    if top >= 0 { POLInfoIsHighest(vals, prevotes, top - 1); }
  }

  lemma KeepsInv(g: ChainState, c: Config, s: Node, t: Node)
    requires Keeps(g, c, s, t)
    ensures Inv(g, c, t)
  {
  }

  /** The lock changes enterPrecommit makes, before it signs. */
  lemma DecisionOk(g: ChainState, c: Config, s: Node, d: Decision)
    requires Inv(g, c, s) && s.step < PRECOMMIT && d == DecidePrecommit(s, s.round) && d.Decision?
    ensures Keeps(g, c, s, s.(lockedRound := d.lockedRound, lockedBlock := d.lockedBlock))
    ensures d.value != ZeroHash ==>
      PrevoteMajority(s, s.round) == Some(d.value) && HashesTo(d.lockedBlock, d.value) && d.lockedRound == s.round
  {
    hide Inv, Moves, ValidateBlock, POLInfo;
    KeepsSame(g, c, s);
    LockedIsValid(g, c, s);
    var polka := PrevoteMajority(s, s.round);
    if d.value != ZeroHash {
      LockBlockOk(g, c, s, d.lockedBlock.value);
    } else if polka.Some? {
      UnlockNowOk(g, c, s, polka.value);
    }
  }

  lemma UnlockNowOk(g: ChainState, c: Config, s: Node, x: Hash)
    requires Inv(g, c, s) && s.step < PRECOMMIT && PrevoteMajority(s, s.round) == Some(x) && !HashesTo(s.lockedBlock, x)
    ensures Keeps(g, c, s, Unlock(s))
  {
    hide Inv, Moves, ValidateBlock;
    Facts(g, c, s);
    forall v | PrecommittedAt(s.signed, s.height, v) ensures v.round < s.round {
      assert AtMost(Rank(VoteMsg(v)), Position(s));
    }
    UnlockOk(g, c, s, s.round, x);
  }

  /** A precommit fails only on a polka for a block that is not valid here. */
  lemma InvalidatedOk(g: ChainState, c: Config, s: Node)
    requires Inv(g, c, s) && DecidePrecommit(s, s.round).Invalidated?
    ensures POLInfo(s.chain.validators, s.prevotes, s.trackedRound) >= s.round
    ensures s.proposalBlock.Some? && PrevoteMajority(s, s.round) == Some(HashOf(s.proposalBlock.value))
    ensures ValidateBlock(s.chain, s.proposalBlock.value).Invalid?
    ensures Keeps(g, c, s, Panic(s))
  {
    hide Inv, Moves, ValidateBlock;
    Facts(g, c, s);
    var polka := PrevoteMajority(s, s.round);
    MajorityEvidence(g, c, s, Prevote, s.round, polka.value);
    POLInfoFinds(s.chain.validators, s.prevotes, s.trackedRound, s.round);
    assert !MajoritiesValid(s.chain, s.prevotes);
    PanicOk(g, c, s);
  }

  lemma EnterPrecommitOk(g: ChainState, c: Config, e: Env, s: Node, height: nat, round: int)
    requires Inv(g, c, s) && NotAhead(s, height, round)
    ensures var t := EnterPrecommit(c, e, s, height, round);
      && Keeps(g, c, s, t)
      && t.height == s.height && t.round == s.round
      && (t == s || t == Panic(s) || t.step == PRECOMMIT)
      && t.prevotes == s.prevotes && t.precommits == s.precommits && t.chain == s.chain && t.store == s.store
  {
    hide Inv, Moves, DecidePrecommit;
    KeepsSame(g, c, s);
    if !(s.failed || s.height != height || round < s.round || (s.round == round && PRECOMMIT <= s.step)) {
      var d := DecidePrecommit(s, round);
      if d.Invalidated? {
        InvalidatedOk(g, c, s);
      } else {
        var s1 := s.(lockedRound := d.lockedRound, lockedBlock := d.lockedBlock);
        DecisionOk(g, c, s, d);
        KeepsInv(g, c, s, s1);
        SignPrecommitOk(g, c, e, s1, d.value);
        KeepsCompose(g, c, s, s1, SignAddVote(c, e, s1, Precommit, d.value).(step := PRECOMMIT));
      }
    }
  }

  lemma EnterPrecommitWaitOk(g: ChainState, c: Config, s: Node, height: nat, round: int)
    requires Inv(g, c, s) && NotAhead(s, height, round) && PrecommitsAny(s, round) && s.step != NEW_HEIGHT
    ensures Keeps(g, c, s, EnterPrecommitWait(s, height, round))
    ensures EnterPrecommitWait(s, height, round).step == s.step
  {
    hide Inv, Moves;
    KeepsSame(g, c, s);
    Facts(g, c, s);
    if EnterPrecommitWait(s, height, round) != s {
      FrameOk(g, c, s, EnterPrecommitWait(s, height, round));
    }
  }

  // ---- New round and proposal ----

  /** A proposal rests on a polka of an earlier round for its block, or claims none. */
  lemma NewProposalOk(g: ChainState, c: Config, e: Env, s: Node, round: int)
    requires Inv(g, c, s) && round == s.round && s.validRound < round
    ensures var ms := NewProposal(c, e, s, s.height, round);
      ms == [] || (|ms| == 1 && ms[0].ProposalMsg? && ProposalOk(g, s.heard, ms[0].proposal)
                    && Rank(ms[0]) == Pos(s.height, round, PROPOSE))
  {
    Facts(g, c, s);
    hide Inv, CreateProposalBlock, CommitVotes;
    if s.validBlock.Some? {
      MajorityEvidence(g, c, s, Prevote, s.validRound, HashOf(s.validBlock.value));
    } else if c.key.Some? && CreateProposalBlock(s, c.key.value).Some? {
      NewBlockDrawn(g, c, s, c.key.value);
    }
  }

  lemma NothingCited()
    ensures CommitVotes(Commit(0, 0, ZeroHash, [])) == {}
  {
  }

  /** A block the node makes cites only precommits it has accepted. */
  lemma NewBlockDrawn(g: ChainState, c: Config, s: Node, proposer: Addr)
    requires Inv(g, c, s) && CreateProposalBlock(s, proposer).Some?
    ensures CommitVotes(CreateProposalBlock(s, proposer).value.lastCommit) <= s.heard
  {
    hide Inv, TwoThirdsMajority, DrawnFrom, CommitVotes;
    Facts(g, c, s);
    if s.height == s.chain.initialHeight {
      assert CommitVotes(Commit(0, 0, ZeroHash, [])) == {} by { NothingCited(); }
    } else {
      MadeCommitDrawn(s.chain.lastValidators, s.lastCommit.value, s.heard);
    }
  }

  lemma SignProposalOk(g: ChainState, c: Config, s: Node, t: Node, m: Message)
    requires Inv(g, c, s) && s.step < PROPOSE
    requires m.ProposalMsg? && ProposalOk(g, s.heard, m.proposal) && Rank(m) == Pos(s.height, s.round, PROPOSE)
    requires Keeps(g, c, s, t) && t.signed == s.signed && t.heard == s.heard
             && Position(t) == Pos(s.height, s.round, PROPOSE)
    ensures Keeps(g, c, s, t.(signed := t.signed + [m]))
  {
    hide ChainOk, BallotsHeard, MajoritiesValid, RoundOk, TicksBehind, WaitsScheduled, LastCommitOk, StoredOk;
    var u := t.(signed := t.signed + [m]);
    forall p | ProposalMsg(p) in u.signed ensures ProposalOk(g, u.heard, p) {}
    forall v | PrecommittedAt(u.signed, u.height, v)
      ensures HoldsLock(u.lockedBlock, u.lockedRound, v)
              || Unlocks(g.validators, u.heard, u.height, v.round, u.round, v.value)
    {
      assert PrecommittedAt(t.signed, t.height, v);
    }
    assert RoundOk(u) && LastCommitOk(u) && WaitsScheduled(u) by { RoundOkSame(t, u); }
  }

  lemma RoundOkSame(t: Node, u: Node)
    requires RoundOk(t) && LastCommitOk(t) && WaitsScheduled(t) && u == t.(signed := u.signed)
    ensures RoundOk(u) && LastCommitOk(u) && WaitsScheduled(u)
  {
  }

  /** EnterPropose up to its deferred check of the proposal. */
  function Propose(c: Config, e: Env, s: Node, height: nat, round: int): Node {
    DecideProposal(c, e, ScheduleTimeout(s, Timeout(height, round, PROPOSE)), height, round)
      .(round := round, step := PROPOSE)
  }

  lemma ProposeOk(g: ChainState, c: Config, e: Env, s: Node)
    requires Inv(g, c, s) && s.step < PROPOSE && s.validRound < s.round
    ensures Keeps(g, c, s, Propose(c, e, s, s.height, s.round))
  {
    var s1 := ScheduleTimeout(s, Timeout(s.height, s.round, PROPOSE));
    var t := s1.(step := PROPOSE);
    hide Inv, Moves, NewProposal;
    Facts(g, c, s);
    FrameOk(g, c, s, t);
    NewProposalOk(g, c, e, s, s.round);
    var ms := NewProposal(c, e, s, s.height, s.round);
    assert NewProposal(c, e, s1, s.height, s.round) == ms by {
      NewProposalIgnoresTicks(c, e, s, s1, s.height, s.round);
    }
    if ms == [] {
      assert s.signed + [] == s.signed;
    } else {
      assert ms == [ms[0]];
      SignProposalOk(g, c, s, t, ms[0]);
    }
  }

  lemma NewProposalIgnoresTicks(c: Config, e: Env, s: Node, t: Node, height: nat, round: int)
    requires t == s.(ticks := t.ticks)
    ensures NewProposal(c, e, t, height, round) == NewProposal(c, e, s, height, round)
  {
  }

  lemma EnterProposeOk(g: ChainState, c: Config, e: Env, s: Node, height: nat, round: int)
    requires Inv(g, c, s) && NotAhead(s, height, round) && s.validRound < s.round
    ensures var t := EnterPropose(c, e, s, height, round);
      && Keeps(g, c, s, t)
      && t.height == s.height && t.round == s.round
      && (t == s || PROPOSE <= t.step <= PREVOTE)
      && (s.height == height && s.round == round && !s.failed && s.step < PROPOSE ==> PROPOSE <= t.step <= PREVOTE)
      && t.prevotes == s.prevotes && t.precommits == s.precommits && t.chain == s.chain && t.store == s.store
      && t.failed == s.failed
  {
    hide Inv, Moves, NewProposal, PrevoteValue, TwoThirdsMajority;
    KeepsSame(g, c, s);
    if !(s.failed || s.height != height || round < s.round || (s.round == round && PROPOSE <= s.step)) {
      var s2 := Propose(c, e, s, height, round);
      ProposeOk(g, c, e, s);
      KeepsInv(g, c, s, s2);
      EnterPrevoteOk(g, c, e, s2, height, s2.round);
      if IsProposalComplete(s2) {
        KeepsCompose(g, c, s, s2, EnterPrevote(c, e, s2, height, s2.round));
      }
    }
  }

  lemma StartRoundOk(g: ChainState, c: Config, s: Node, round: int)
    requires Inv(g, c, s) && Fresh(s)
    requires round > s.round || (round == s.round && s.step == NEW_HEIGHT)
    ensures Keeps(g, c, s, StartRound(s, round)) && s.validRound < round
  {
    hide Inv, Moves, ValidateBlock;
    Facts(g, c, s);
    FrameOk(g, c, s, StartRound(s, round));
  }

  lemma EnterNewRoundOk(g: ChainState, c: Config, e: Env, s: Node, height: nat, round: int)
    requires Inv(g, c, s) && Fresh(s)
    ensures var t := EnterNewRound(c, e, s, height, round);
      && Keeps(g, c, s, t) && Fresh(t)
      && t.height == s.height
      && (if EntersNewRound(s, height, round) then t.round == round && PROPOSE <= t.step <= PREVOTE else t == s)
      && t.prevotes == s.prevotes && t.precommits == s.precommits && t.chain == s.chain && t.store == s.store
      && t.failed == s.failed
  {
    hide Inv, Moves;
    KeepsSame(g, c, s);
    if EntersNewRound(s, height, round) {
      var s1 := StartRound(s, round);
      StartRoundOk(g, c, s, round);
      KeepsInv(g, c, s, s1);
      EnterProposeOk(g, c, e, s1, height, round);
      KeepsCompose(g, c, s, s1, EnterPropose(c, e, s1, height, round));
    }
  }
}
