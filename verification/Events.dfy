/** Every event a node handles: proposals, votes, timeouts and committed blocks. */
module Events {
  import opened Quorums
  import opened Votes
  import opened Executor
  import opened Machine
  import opened NodeInvariant
  import opened NodeSteps
  import opened Transitions
  import opened Commits

  // ---- Proposals ----

  lemma AcceptProposalOk(g: ChainState, c: Config, s: Node, p: Proposal)
    requires Inv(g, c, s) && ProposalApplies(c, s, p)
    ensures Keeps(g, c, s, AcceptProposal(s, p))
  {
    hide Inv, Moves, ValidateBlock;
    Facts(g, c, s);
    FrameOk(g, c, s, AcceptProposal(s, p));
  }

  /** While the node waits for the height to start a proposal can claim no earlier round, so it is complete. */
  lemma EarlyIsComplete(s: Node, c: Config, p: Proposal)
    requires RoundOk(s) && ProposalApplies(c, s, p) && s.step == NEW_HEIGHT
    ensures IsProposalComplete(AcceptProposal(s, p))
  {
    hide TwoThirdsMajority, ValidateBlock;
  }

  lemma AcceptedOk(g: ChainState, c: Config, e: Env, s: Node)
    requires Inv(g, c, s) && s.step <= PROPOSE && !s.failed
    ensures var t := EnterPrevote(c, e, s, s.height, s.round);
      && Keeps(g, c, s, t) && Fresh(t) && Rung(t)
      && var u := EnterPrecommit(c, e, t, t.height, t.round); Keeps(g, c, s, u) && Fresh(u) && Rung(u)
  {
    hide Inv, Moves, EnterPrevote, EnterPrecommit, PrevotesFor;
    var t := EnterPrevote(c, e, s, s.height, s.round);
    EnterPrevoteOk(g, c, e, s, s.height, s.round);
    PrevoteEntered(c, e, s, s.height, s.round);
    KeepsInv(g, c, s, t);
    EnterPrecommitOk(g, c, e, t, t.height, t.round);
    KeepsCompose(g, c, s, t, EnterPrecommit(c, e, t, t.height, t.round));
  }

  lemma PrevoteEntered(c: Config, e: Env, s: Node, height: nat, round: int)
    requires !s.failed && s.height == height && s.round == round && s.step < PREVOTE
    ensures var t := EnterPrevote(c, e, s, height, round); t.step == PREVOTE && t.height == height && t.round == round
  {
  }

  lemma SetProposalOk(g: ChainState, c: Config, e: Env, s: Node, p: Proposal)
    requires Ready(g, c, s)
    ensures var t := SetProposal(c, e, s, p); Keeps(g, c, s, t) && Fresh(t) && Rung(t)
  {
    hide Inv, Moves, AcceptProposal, ProposalApplies, IsProposalComplete, EnterPrevote, EnterPrecommit,
      TryFinalizeCommit, TwoThirdsMajority, PrevotesFor;
    KeepsSame(g, c, s);
    if !s.failed && ProposalApplies(c, s, p) {
      var s1 := AcceptProposal(s, p);
      AcceptProposalFrame(s, p);
      AcceptProposalOk(g, c, s, p);
      KeepsInv(g, c, s, s1);
      Facts(g, c, s);
      if s1.step <= PROPOSE && IsProposalComplete(s1) {
        var s2 := EnterPrevote(c, e, s1, s1.height, s1.round);
        AcceptedOk(g, c, e, s1);
        KeepsCompose(g, c, s, s1, s2);
        KeepsCompose(g, c, s, s1, EnterPrecommit(c, e, s2, s2.height, s2.round));
      } else if s1.step == COMMIT {
        TryFinalizeCommitOk(g, c, s1);
        KeepsCompose(g, c, s, s1, TryFinalizeCommit(s1, s1.height));
      } else if s.step == NEW_HEIGHT {
        EarlyIsComplete(s, c, p);
      }
    }
  }

  lemma AcceptProposalFrame(s: Node, p: Proposal)
    ensures var t := AcceptProposal(s, p);
      && t.step == s.step && t.round == s.round && t.height == s.height && t.failed == s.failed
      && t.proposal == Some(p) && t.proposalBlock == Some(p.block)
  {
  }

  // ---- Votes ----

  lemma RecordGrows(vals: ValidatorSet, votes: map<int, Ballots>, r: int, a: Addr, b: Ballot)
    requires a !in VotesAt(votes, r)
    ensures var more := votes[r := VotesAt(votes, r)[a := b]];
      && (forall q, x :: TwoThirdsMajority(vals, VotesAt(votes, q)) == Some(x)
                         ==> TwoThirdsMajority(vals, VotesAt(more, q)) == Some(x))
      && (forall q :: q != r ==> VotesAt(more, q) == VotesAt(votes, q))
  {
    var more := votes[r := VotesAt(votes, r)[a := b]];
    forall q, x | TwoThirdsMajority(vals, VotesAt(votes, q)) == Some(x)
      ensures TwoThirdsMajority(vals, VotesAt(more, q)) == Some(x)
    {
      if q == r { MajorityStays(vals, VotesAt(votes, r), a, b, x); }
    }
  }

  lemma RecordHeard(heard: set<Vote>, h: nat, k: Kind, votes: map<int, Ballots>, v: Vote)
    requires BallotsHeard(heard, h, k, votes) && v.height == h && v.kind == k
    ensures BallotsHeard(heard + {v}, h, k,
            votes[v.round := VotesAt(votes, v.round)[v.validator := Ballot(v.value, v.timeMs)]])
  {
  }

  /** Everything but the votes and Valid* as before; the new round state is fine. */
  lemma RecordedOk(g: ChainState, c: Config, s: Node, v: Vote, t: Node)
    requires Inv(g, c, s) && v.height == s.height
             && v.validator !in VotesAt(if v.kind == Prevote then s.prevotes else s.precommits, v.round)
    requires t == Record(s, v).(validRound := t.validRound, validBlock := t.validBlock,
             proposalBlock := t.proposalBlock)
    requires RoundOk(t)
    ensures Inv(g, c, t) && Advances(s, t) && t.heard == s.heard + {v}
  {
    hide ChainOk, BallotsHeard, LogOk, RoundOk, LogBehind, TicksBehind, LockOk, LastCommitOk, WaitsScheduled, Quorum;
    LastCommitSame(s, t);
    WaitsSame(s, t);
    ChainOkMonotone(g, s.heard, t.heard, s.chain, s.store);
    LogOkMonotone(g, c, s.heard, t.heard, s.signed);
    LockOkMonotone(g, s, t);
    HeardMore(s.heard, t.heard, s.height, s.prevotes, s.precommits);
    RecordHeard(s.heard, s.height, v.kind, if v.kind == Prevote then s.prevotes else s.precommits, v);
  }

  lemma WaitsSame(s: Node, t: Node)
    requires WaitsScheduled(s) && Position(t) == Position(s)
    requires t.triggeredTimeoutPrecommit == s.triggeredTimeoutPrecommit && t.ticks == s.ticks
    ensures WaitsScheduled(t)
  {
  }

  lemma HeardMore(a: set<Vote>, b: set<Vote>, h: nat, prevotes: map<int, Ballots>, precommits: map<int, Ballots>)
    requires BallotsHeard(a, h, Prevote, prevotes) && BallotsHeard(a, h, Precommit, precommits) && a <= b
    ensures BallotsHeard(b, h, Prevote, prevotes) && BallotsHeard(b, h, Precommit, precommits)
  {
  }

  lemma RecordPrecommitOk(g: ChainState, c: Config, e: Env, s: Node, v: Vote)
    requires Ready(g, c, s) && v.height == s.height && v.kind == Precommit && VotesAccept(e, s, v)
    ensures var t := Record(s, v); Ready(g, c, t) && Advances(s, t) && t.heard == s.heard + {v}
  {
    var t := Record(s, v);
    hide Inv, ValidateBlock;
    Facts(g, c, s);
    RecordGrows(s.chain.validators, s.precommits, v.round, v.validator, Ballot(v.value, v.timeMs));
    RecordedOk(g, c, s, v, t);
  }

  /** Recording a prevote, and following the polka it may complete. */
  function Prevoted(s: Node, v: Vote): Node {
    var s1 := Record(s, v);
    var polka := PrevoteMajority(s1, v.round);
    if polka.Some? then UpdateValid(s1, v.round, polka.value) else s1
  }

  lemma RecordLocksOk(s: Node, v: Vote)
    requires LocksOk(s) && v.kind == Prevote
    requires forall q, x :: PrevoteMajority(s, q) == Some(x) ==> PrevoteMajority(Record(s, v), q) == Some(x)
    ensures LocksOk(Record(s, v))
  {
    hide TwoThirdsMajority, ValidateBlock;
    assert PrecommitMajority(Record(s, v), s.commitRound) == PrecommitMajority(s, s.commitRound);
  }

  lemma UpdateValidOk(s: Node, r: int, x: Hash)
    requires LocksOk(s) && PrevoteMajority(s, r) == Some(x)
    requires r == s.round || PolkaFollowed(s)
    ensures RoundOk(UpdateValid(s, r, x))
  {
    hide TwoThirdsMajority, ValidateBlock;
    var t := UpdateValid(s, r, x);
    assert PrevoteMajority(t, s.lockedRound) == PrevoteMajority(s, s.lockedRound);
    assert PrevoteMajority(t, t.validRound) == PrevoteMajority(s, t.validRound);
    assert PrevoteMajority(t, s.round) == PrevoteMajority(s, s.round);
    assert PrecommitMajority(t, s.commitRound) == PrecommitMajority(s, s.commitRound);
  }

  lemma PrevotedRoundOk(s: Node, v: Vote)
    requires RoundOk(s) && v.kind == Prevote
    requires forall q, x :: PrevoteMajority(s, q) == Some(x) ==> PrevoteMajority(Record(s, v), q) == Some(x)
    requires v.round != s.round ==> PrevoteMajority(Record(s, v), s.round) == PrevoteMajority(s, s.round)
    ensures RoundOk(Prevoted(s, v))
  {
    hide LocksOk, PrevoteMajority, UpdateValid;
    var s1 := Record(s, v);
    RecordLocksOk(s, v);
    var polka := PrevoteMajority(s1, v.round);
    if polka.Some? { UpdateValidOk(s1, v.round, polka.value); }
  }

  lemma RecordPrevoteOk(g: ChainState, c: Config, e: Env, s: Node, v: Vote)
    requires Ready(g, c, s) && v.height == s.height && v.kind == Prevote && VotesAccept(e, s, v)
    ensures var t := Prevoted(s, v); Ready(g, c, t) && Advances(s, t) && t.heard == s.heard + {v}
  {
    var t := Prevoted(s, v);
    hide Inv, ValidateBlock, TwoThirdsMajority, RoundOk;
    Facts(g, c, s);
    RecordGrows(s.chain.validators, s.prevotes, v.round, v.validator, Ballot(v.value, v.timeMs));
    PrevotedRoundOk(s, v);
    RecordedOk(g, c, s, v, t);
  }

  lemma UnlockOnPolkaOk(g: ChainState, c: Config, s: Node, r: int, x: Hash)
    requires Ready(g, c, s) && PrevoteMajority(s, r) == Some(x)
    ensures var t := UnlockOnPolka(s, r, x); Keeps(g, c, s, t) && Fresh(t) && Rung(t)
  {
    hide Inv, Moves;
    KeepsSame(g, c, s);
    if UnlockOnPolka(s, r, x) != s {
      UnlockOk(g, c, s, r, x);
    }
  }

  lemma FollowPolkaCommutes(s: Node, r: int, x: Hash)
    ensures FollowPolka(s, r, x) == UnlockOnPolka(UpdateValid(s, r, x), r, x)
  {
  }

  /** From a state that has followed the polka of round r on to the next step. */
  function OnPrevotes(c: Config, e: Env, s: Node, r: int): Node {
    var polka := PrevoteMajority(s, r);
    if s.round < r && PrevotesAny(s, r) then EnterNewRound(c, e, s, s.height, r)
    else if s.round == r && PREVOTE <= s.step then
      if polka.Some? && (IsProposalComplete(s) || polka.value == ZeroHash) then EnterPrecommit(c, e, s, s.height, r)
      else if PrevotesAny(s, r) then EnterPrevoteWait(s, s.height, r)
      else s
    else if s.proposal.Some? && 0 <= s.proposal.value.polRound == r && IsProposalComplete(s) then
      EnterPrevote(c, e, s, s.height, s.round)
    else s
  }

  lemma OnPrevotesOk(g: ChainState, c: Config, e: Env, s: Node, r: int)
    requires Ready(g, c, s)
    ensures var t := OnPrevotes(c, e, s, r); Keeps(g, c, s, t) && Fresh(t) && Rung(t)
  {
    hide Inv, Moves, TwoThirdsMajority, EnterNewRound, EnterPrecommit, EnterPrevote;
    KeepsSame(g, c, s);
    if s.round < r && PrevotesAny(s, r) {
      EnterNewRoundOk(g, c, e, s, s.height, r);
    } else if s.round == r && PREVOTE <= s.step {
      EnterPrecommitOk(g, c, e, s, s.height, r);
      if PrevotesAny(s, r) { EnterPrevoteWaitOk(g, c, s, s.height, r); }
    } else {
      EnterPrevoteOk(g, c, e, s, s.height, s.round);
    }
  }

  lemma AfterPrevoteIs(c: Config, e: Env, s: Node, r: int)
    ensures AfterPrevote(c, e, s, r) == OnPrevotes(c, e, Followed(s, r), r)
  {
    hide TwoThirdsMajority, EnterNewRound, EnterPrecommit, EnterPrevote, EnterPrevoteWait;
  }

  /** Recording a prevote and following the polka it may complete, in the order the code does it. */
  function Followed(s: Node, r: int): Node {
    var polka := PrevoteMajority(s, r);
    if polka.Some? then FollowPolka(s, r, polka.value) else s
  }

  lemma FollowedOk(g: ChainState, c: Config, e: Env, s: Node, v: Vote)
    requires Ready(g, c, s) && v.height == s.height && v.kind == Prevote && VotesAccept(e, s, v)
    ensures var t := Followed(Record(s, v), v.round);
      Ready(g, c, t) && Advances(s, t) && t.heard == s.heard + {v} && t.failed == s.failed
    ensures Trusts(Record(s, v)) ==> Trusts(Followed(Record(s, v), v.round))
  {
    hide Inv, TwoThirdsMajority, MajoritiesValid, Record;
    var s1, s2, t := Record(s, v), Prevoted(s, v), Followed(Record(s, v), v.round);
    var polka := PrevoteMajority(s1, v.round);
    RecordFrame(s, v);
    RecordPrevoteOk(g, c, e, s, v);
    if polka.Some? {
      FollowPolkaCommutes(s1, v.round, polka.value);
      assert PrevoteMajority(s2, v.round) == polka;
      UnlockOnPolkaOk(g, c, s2, v.round, polka.value);
      AdvancesCompose(s, s2, t);
    }
  }

  lemma RecordFrame(s: Node, v: Vote)
    ensures Record(s, v).failed == s.failed && Record(s, v).chain == s.chain
  {
  }

  lemma AddPrevoteOk(g: ChainState, c: Config, e: Env, s: Node, v: Vote)
    requires Ready(g, c, s) && v.height == s.height && v.kind == Prevote && VotesAccept(e, s, v) && !s.failed
    ensures var t := AfterPrevote(c, e, Record(s, v), v.round);
      && Ready(g, c, t) && Advances(s, t) && t.heard == s.heard + {v}
      && (Trusts(Record(s, v)) ==> !t.failed)
  {
    hide Inv, AfterPrevote, OnPrevotes, Followed, Record, Trusts;
    var s1 := Followed(Record(s, v), v.round);
    FollowedOk(g, c, e, s, v);
    AfterPrevoteIs(c, e, Record(s, v), v.round);
    OnPrevotesOk(g, c, e, s1, v.round);
    AdvancesCompose(s, s1, OnPrevotes(c, e, s1, v.round));
  }

  /** Precommits decide round r: enter it, precommit, then commit the block or wait for the next round. */
  lemma DecidedRoundOk(g: ChainState, c: Config, e: Env, s: Node, s1: Node, r: nat, x: Hash)
    requires Ready(g, c, s1) && s1.step != NEW_HEIGHT && s1.height == s.height && r <= s1.round
             && PrecommitMajority(s1, r) == Some(x)
    ensures var s2 := EnterPrecommit(c, e, s1, s.height, r);
      var s3 := EnterCommit(s2, s.height, r);
      var t := if x != ZeroHash then s3 else EnterPrecommitWait(s2, s.height, r);
      Keeps(g, c, s1, t) && Fresh(t) && Rung(t)
  {
    hide Inv, Moves, TwoThirdsMajority, EnterPrecommit, EnterCommit, EnterPrecommitWait;
    MajorityIsAny(s1.chain.validators, VotesAt(s1.precommits, r), x);
    var s2 := EnterPrecommit(c, e, s1, s.height, r);
    EnterPrecommitOk(g, c, e, s1, s.height, r);
    KeepsInv(g, c, s1, s2);
    if x != ZeroHash {
      EnterCommitOk(g, c, s2, r);
      KeepsCompose(g, c, s1, s2, EnterCommit(s2, s.height, r));
    } else {
      EnterPrecommitWaitOk(g, c, s2, s.height, r);
      KeepsCompose(g, c, s1, s2, EnterPrecommitWait(s2, s.height, r));
    }
  }

  lemma AfterPrecommitOk(g: ChainState, c: Config, e: Env, s: Node, r: nat)
    requires Ready(g, c, s) && !s.failed
    ensures var t := AfterPrecommit(c, e, s, r); Keeps(g, c, s, t) && Fresh(t) && Rung(t)
  {
    hide Inv, Moves, TwoThirdsMajority, EnterNewRound, EnterPrecommit, EnterCommit, EnterPrecommitWait, HasAll, Quorum;
    KeepsSame(g, c, s);
    var id := PrecommitMajority(s, r);
    var s1 := EnterNewRound(c, e, s, s.height, r);
    RoundEntered(g, c, e, s, r);
    if id.Some? {
      DecidedRoundOk(g, c, e, s, s1, r, id.value);
      var s3 := EnterCommit(EnterPrecommit(c, e, s1, s.height, r), s.height, r);
      if id.value != ZeroHash {
        KeepsCompose(g, c, s, s1, s3);
        KeepsInv(g, c, s, s3);
        EnterNewRoundOk(g, c, e, s3, s3.height, 0);
        KeepsCompose(g, c, s, s3, EnterNewRound(c, e, s3, s3.height, 0));
      } else {
        KeepsCompose(g, c, s, s1, EnterPrecommitWait(EnterPrecommit(c, e, s1, s.height, r), s.height, r));
      }
    } else if s.round <= r && PrecommitsAny(s, r) {
      EnterPrecommitWaitOk(g, c, s1, s.height, r);
      KeepsCompose(g, c, s, s1, EnterPrecommitWait(s1, s.height, r));
    }
  }

  lemma RoundEntered(g: ChainState, c: Config, e: Env, s: Node, r: nat)
    requires Ready(g, c, s) && !s.failed
    ensures var t := EnterNewRound(c, e, s, s.height, r);
      && Keeps(g, c, s, t) && Ready(g, c, t) && t.step != NEW_HEIGHT && t.height == s.height && r <= t.round
      && t.precommits == s.precommits && t.chain == s.chain
  {
    hide Inv, Moves, EnterNewRound;
    Facts(g, c, s);
    EnterNewRoundOk(g, c, e, s, s.height, r);
    KeepsInv(g, c, s, EnterNewRound(c, e, s, s.height, r));
  }

  lemma AddPrecommitOk(g: ChainState, c: Config, e: Env, s: Node, v: Vote)
    requires Ready(g, c, s) && v.height == s.height && v.kind == Precommit && VotesAccept(e, s, v) && !s.failed
    ensures var t := AfterPrecommit(c, e, Record(s, v), v.round);
      && Ready(g, c, t) && Advances(s, t) && t.heard == s.heard + {v}
      && (Trusts(Record(s, v)) ==> !t.failed)
  {
    hide Inv, AfterPrecommit, MajoritiesValid;
    RecordPrecommitOk(g, c, e, s, v);
    AfterPrecommitOk(g, c, e, Record(s, v), v.round);
    AdvancesCompose(s, Record(s, v), AfterPrecommit(c, e, Record(s, v), v.round));
  }

  lemma LatePrecommitRecorded(g: ChainState, c: Config, e: Env, s: Node, v: Vote, t: Node)
    requires Ready(g, c, s) && LastCommitAccepts(e, s, v)
    requires var last := s.lastCommit.value;
      t == s.(lastCommit := Some(last.(ballots := last.ballots[v.validator := Ballot(v.value, v.timeMs)])),
              heard := s.heard + {v})
    ensures Inv(g, c, t) && Fresh(t) && Rung(t) && Advances(s, t)
    ensures Trusts(s) ==> Trusts(t)
  {
    hide ChainOk, BallotsHeard, LogOk, LogBehind, TicksBehind, LockOk, MajoritiesValid;
    var last := s.lastCommit.value;
    if s.chain.lastBlockHeight > 0 {
      MajorityStays(s.chain.validators, last.ballots, v.validator, Ballot(v.value, v.timeMs), s.chain.lastBlockID);
    }
    ChainOkMonotone(g, s.heard, t.heard, s.chain, s.store);
    LogOkMonotone(g, c, s.heard, t.heard, s.signed);
    LockOkMonotone(g, s, t);
    HeardMore(s.heard, t.heard, s.height, s.prevotes, s.precommits);
  }

  lemma AddLatePrecommitOk(g: ChainState, c: Config, e: Env, s: Node, v: Vote)
    requires Ready(g, c, s)
    ensures var t := AddLatePrecommit(c, e, s, v);
      && Moves(g, c, s, t) && Fresh(t) && Rung(t)
      && (if s.step == NEW_HEIGHT && LastCommitAccepts(e, s, v) then t.heard == s.heard + {v} else t == s)
      && t.chain == s.chain && LastCommitOk(t)
  {
    hide Inv, EnterNewRound, HasAll, MajoritiesValid, TwoThirdsMajority, LastCommitOk, Quorum;
    KeepsSame(g, c, s);
    Facts(g, c, s);
    if s.step == NEW_HEIGHT && LastCommitAccepts(e, s, v) {
      var last := s.lastCommit.value;
      var t := s.(lastCommit := Some(last.(ballots := last.ballots[v.validator := Ballot(v.value, v.timeMs)])),
                  heard := s.heard + {v});
      var u := EnterNewRound(c, e, t, t.height, 0);
      LatePrecommitRecorded(g, c, e, s, v, t);
      Facts(g, c, t);
      EnterNewRoundOk(g, c, e, t, t.height, 0);
      MovesCompose(g, c, s, t, u);
      KeepsInv(g, c, t, u);
      Facts(g, c, u);
      assert u.step != NEW_HEIGHT || u == t;
    }
  }

  // ---- Timeouts ----

  /** A timeout this machine scheduled. */
  lemma HandleTimeoutOk(g: ChainState, c: Config, e: Env, s: Node, t: Timeout)
    requires Ready(g, c, s) && t in s.ticks
    ensures var u := HandleTimeout(c, e, s, t); Keeps(g, c, s, u) && Fresh(u) && Rung(u)
  {
    hide Inv, Moves, EnterNewRound, EnterPropose, EnterPrecommit, EnterPrevote;
    Facts(g, c, s);
    KeepsSame(g, c, s);
    if !s.failed && TimeoutApplies(s, t) {
      if t.step == NEW_HEIGHT {
        EnterNewRoundOk(g, c, e, s, t.height, 0);
      } else if t.step == PROPOSE {
        EnterPrevoteOk(g, c, e, s, t.height, t.round);
      } else if t.step == PREVOTE_WAIT {
        EnterPrecommitOk(g, c, e, s, t.height, t.round);
      } else {
        PrecommitTimeoutOk(g, c, e, s, t);
      }
    }
  }

  lemma PrecommitTimeoutOk(g: ChainState, c: Config, e: Env, s: Node, t: Timeout)
    requires Ready(g, c, s) && t.height == s.height && t.round == s.round
    ensures var u := EnterNewRound(c, e, EnterPrecommit(c, e, s, t.height, t.round), t.height, t.round + 1);
      Keeps(g, c, s, u) && Fresh(u) && Rung(u)
  {
    hide Inv, Moves, EnterNewRound, EnterPrecommit;
    var s1 := EnterPrecommit(c, e, s, t.height, t.round);
    EnterPrecommitOk(g, c, e, s, t.height, t.round);
    KeepsInv(g, c, s, s1);
    EnterNewRoundOk(g, c, e, s1, t.height, t.round + 1);
    KeepsCompose(g, c, s, s1, EnterNewRound(c, e, s1, t.height, t.round + 1));
  }

  // ---- All events ----

  /** The votes an event may let the node hear of. */
  function Carried(ev: Event): set<Vote> {
    match ev
    case VoteReceived(v) => {v}
    case BlockReceived(full) => CommitVotes(full.commit)
    case ProposalReceived(_) => {}
    case TimedOut(_) => {}
  }

  /** The state in which the machine judges majorities while it handles an event. */
  function Judged(e: Env, s: Node, ev: Event): Node {
    if ev.VoteReceived? && ev.vote.height == s.height && VotesAccept(e, s, ev.vote) then Record(s, ev.vote) else s
  }

  /** One event, whatever it is, except that a timeout must be one the machine scheduled. */
  lemma StepOk(g: ChainState, c: Config, e: Env, s: Node, ev: Event)
    requires Ready(g, c, s)
    requires ev.TimedOut? ==> ev.timeout in s.ticks
    ensures var t := Step(c, e, s, ev);
      && Ready(g, c, t) && Advances(s, t) && t.heard <= s.heard + Carried(ev)
      && (Trusts(Judged(e, s, ev)) && !s.failed ==> !t.failed)
  {
    hide Inv, MajoritiesValid, SetProposal, HandleTimeout, ProcessCommittedBlock, AfterPrevote, AfterPrecommit,
      AddLatePrecommit, CommitVotes;
    KeepsSame(g, c, s);
    match ev
    case ProposalReceived(p) => SetProposalOk(g, c, e, s, p);
    case TimedOut(t) => HandleTimeoutOk(g, c, e, s, t);
    case BlockReceived(full) => ProcessCommittedBlockOk(g, c, e, s, full);
    case VoteReceived(v) =>
      AddLatePrecommitOk(g, c, e, s, v);
      if !s.failed && v.height == s.height && VotesAccept(e, s, v) {
        match v.kind
        case Prevote => AddPrevoteOk(g, c, e, s, v);
        case Precommit => AddPrecommitOk(g, c, e, s, v);
      }
  }
}
