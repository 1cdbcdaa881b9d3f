/** How the machine answers each message, vote and committed block, from any state the invariant allows. */
module Answers {
  import opened Quorums
  import opened Votes
  import opened Executor
  import opened Machine
  import opened NodeInvariant
  import opened NodeSteps
  import opened Transitions
  import opened Commits
  import opened Events
  import opened Duties

  // ---- Committing ----

  predicate BlockHeld(s: Node, x: Hash) {
    HashesTo(s.lockedBlock, x) || HashesTo(s.proposalBlock, x)
  }

  /** The block of `x`, where it is held. */
  predicate HeldIsValid(s: Node, x: Hash) {
    x.HashOf? && ValidateBlock(s.chain, x.block).Valid?
  }

  /**
    At the next height, waiting for it to start, with this block stored under a commit for it and nothing of the
    old height carried over.
  */
  predicate AtNextHeight(s: Node, t: Node, b: Block) {
    && t.height == s.height + 1 && t.round == 0 && t.step == NEW_HEIGHT && !t.failed
    && |t.store| == |s.store| + 1 && t.store[..|s.store|] == s.store
    && t.store[|s.store|].block == b
    && VerifyCommit(s.chain.validators, HashOf(b), s.height, t.store[|s.store|].commit)
    && t.chain.lastBlockHeight == s.height && t.chain.lastBlockID == HashOf(b) && t.chain.lastBlockTime == b.timeMs
    && t.chain.validators == s.chain.validators && t.chain.lastValidators == s.chain.validators
    && t.proposal == None && t.proposalBlock == None && t.lockedBlock == None && t.validBlock == None
    && t.lockedRound == t.validRound == t.commitRound == -1
    && t.prevotes == map[] && t.precommits == map[] && !t.triggeredTimeoutPrecommit
    && t.signed == s.signed && t.trackedRound == 0
  }

  /** Committed by the precommits of round `r`, which become the last commit; the height is scheduled to start. */
  predicate Committed(s: Node, r: int, b: Block, t: Node) {
    && AtNextHeight(s, t, b)
    && t.lastCommit == Some(VoteSet(s.height, r, VotesAt(s.precommits, r)))
    && t.ticks == s.ticks + [Timeout(s.height + 1, 0, NEW_HEIGHT)] && t.heard == s.heard
  }

  /** On a precommit majority for a block: commit it if it is held and valid, else wait for it in the commit step. */
  predicate CommitAnswer(s: Node, r: int, x: Hash, t: Node) {
    if !BlockHeld(s, x) then t == s.(proposalBlock := None, step := COMMIT, commitRound := r)
    else if HeldIsValid(s, x) then Committed(s, r, x.block, t)
    else t.failed && t.height == s.height
  }

  lemma NextHeightIs(s: Node, b: Block, commit: Commit, last: VoteSet, heard: set<Vote>, ticks: seq<Timeout>)
    requires b.number == s.height == s.chain.lastBlockHeight + 1 && !s.failed
    requires VerifyCommit(s.chain.validators, HashOf(b), s.height, commit)
    ensures var t := NextHeight(s, b, commit, last, heard, ticks);
      AtNextHeight(s, t, b) && t.lastCommit == Some(last) && t.ticks == ticks && t.heard == heard
  {
    hide VerifyCommit;
  }

  lemma FinalizeDuty(g: ChainState, c: Config, s: Node, b: Block)
    requires Inv(g, c, s) && !s.failed && s.step == COMMIT && s.proposalBlock == Some(b)
    requires PrecommitMajority(s, s.commitRound) == Some(HashOf(b))
    ensures var t := TryFinalizeCommit(s, s.height);
      if ValidateBlock(s.chain, b).Valid? then Committed(s, s.commitRound, b, t) else t == Panic(s)
  {
    hide Inv, ValidateBlock, TwoThirdsMajority, MakeCommit, NextHeight, VerifyCommit, SaveBlock, UpdateToState,
      ScheduleRound0, Committed, Keeps;
    Facts(g, c, s);
    if ValidateBlock(s.chain, b).Valid? {
      var last := VoteSet(s.height, s.commitRound, VotesAt(s.precommits, s.commitRound));
      var ticks := s.ticks + [Timeout(s.height + 1, 0, NEW_HEIGHT)];
      FinalizeCommitOk(g, c, s);
      BlockIsNext(g, c, s, b);
      MajorityEvidence(g, c, s, Precommit, s.commitRound, HashOf(b));
      MadeCommitVerifies(g.validators, last, HashOf(b));
      NextHeightIs(s, b, SeenCommit(s), last, s.heard, ticks);
      CommittedIs(s, b, NextHeight(s, b, SeenCommit(s), last, s.heard, ticks));
    }
  }

  lemma CommittedIs(s: Node, b: Block, t: Node)
    requires AtNextHeight(s, t, b) && t.heard == s.heard
    requires t.lastCommit == Some(VoteSet(s.height, s.commitRound, VotesAt(s.precommits, s.commitRound)))
    requires t.ticks == s.ticks + [Timeout(s.height + 1, 0, NEW_HEIGHT)]
    ensures Committed(s, s.commitRound, b, t)
  {
  }

  lemma BlockIsNext(g: ChainState, c: Config, s: Node, b: Block)
    requires Inv(g, c, s) && ValidateBlock(s.chain, b).Valid?
    ensures b.number == s.height
  {
    hide Inv, ValidateBlock, VerifyCommit;
    Facts(g, c, s);
    ValidBlockExtends(s.chain, b);
  }

  lemma CommitDuty(g: ChainState, c: Config, s: Node, r: int, x: Hash)
    requires Inv(g, c, s) && !s.failed && s.step != NEW_HEIGHT && s.step < COMMIT
    requires PrecommitMajority(s, r) == Some(x) && x != ZeroHash
    ensures CommitAnswer(s, r, x, EnterCommit(s, s.height, r))
  {
    hide Inv, TwoThirdsMajority, TryFinalizeCommit, ValidateBlock, Committed, Keeps;
    var s1 := s.(proposalBlock := CommitBlock(s, x), step := COMMIT, commitRound := r);
    PreparedOk(g, c, s, r, x);
    KeepsInv(g, c, s, s1);
    if BlockHeld(s, x) {
      FinalizeDuty(g, c, s1, x.block);
      if ValidateBlock(s.chain, x.block).Valid? { CommittedFrom(s, s1, r, x.block, TryFinalizeCommit(s1, s.height)); }
    } else {
      StaysForBlock(s1);
    }
  }

  lemma CommittedFrom(s: Node, s1: Node, r: int, b: Block, t: Node)
    requires Committed(s1, r, b, t) && s1 == s.(proposalBlock := s1.proposalBlock, step := COMMIT, commitRound := r)
    ensures Committed(s, r, b, t)
  {
    hide VerifyCommit;
  }

  lemma StaysForBlock(s: Node)
    requires s.proposalBlock == None
    ensures TryFinalizeCommit(s, s.height) == s
  {
    hide TwoThirdsMajority;
  }

  // ---- Proposals received ----

  /** An acceptable proposal of this height and round by its proposer, and the first. */
  predicate Takes(c: Config, s: Node, p: Proposal) {
    && s.proposal == None && p.height == s.height && p.round == s.round && p.signer == c.proposer(s.height, s.round)
    && (p.polRound == -1 || 0 <= p.polRound < p.round)
  }

  /** The proposal is taken; its block is the valid block if its polka of this round is already here and is news. */
  function Taken(s: Node, p: Proposal): Node {
    var s1 := s.(proposal := Some(p), proposalBlock := Some(p.block));
    if PrevoteMajority(s, s.round) == Some(HashOf(p.block)) && s.validRound < s.round
    then s1.(validRound := s.round, validBlock := Some(p.block)) else s1
  }

  /** Prevote on a whole proposal that comes in time, precommit too on a polka; finalize a block waited for. */
  ghost predicate ProposalAnswer(c: Config, e: Env, s: Node, p: Proposal, t: Node) {
    var a := Taken(s, p);
    if !Takes(c, s, p) then t == s
    else if s.step <= PROPOSE && Whole(a) then
      exists u :: PrevoteAnswer(c, e, a, u) &&
        if PrevoteMajority(s, s.round).Some? then PrecommitAnswer(c, e, u, t) else t == u
    else if s.step == COMMIT && PrecommitMajority(s, s.commitRound) == Some(HashOf(p.block)) then
      if ValidateBlock(s.chain, p.block).Valid? then Committed(a, s.commitRound, p.block, t) else t.failed
    else t == a
  }

  lemma SetProposalDuty(g: ChainState, c: Config, e: Env, s: Node, p: Proposal)
    requires Ready(g, c, s) && !s.failed
    ensures ProposalAnswer(c, e, s, p, SetProposal(c, e, s, p))
  {
    hide Inv, TwoThirdsMajority, EnterPrevote, EnterPrecommit, TryFinalizeCommit, PrevoteAnswer, PrecommitAnswer,
      ValidateBlock, Committed, Keeps;
    if Takes(c, s, p) {
      var a := Taken(s, p);
      AcceptProposalOk(g, c, s, p);
      assert AcceptProposal(s, p) == a;
      KeepsInv(g, c, s, a);
      Facts(g, c, a);
      if s.step <= PROPOSE && Whole(a) {
        var u := EnterPrevote(c, e, a, a.height, a.round);
        PrevoteDuty(c, e, a);
        EnterPrevoteOk(g, c, e, a, a.height, a.round);
        KeepsInv(g, c, a, u);
        AnswerKeepsPlace(c, e, a, u);
        PrecommitDuty(g, c, e, u);
      } else if s.step == COMMIT {
        CommitStepDuty(g, c, a, p.block);
      }
    }
  }

  lemma AnswerKeepsPlace(c: Config, e: Env, s: Node, t: Node)
    requires PrevoteAnswer(c, e, s, t)
    ensures t.height == s.height && t.round == s.round && t.step == PREVOTE && t.failed == s.failed
  {
    hide ValidateBlock, Signs;
  }

  lemma CommitStepDuty(g: ChainState, c: Config, s: Node, b: Block)
    requires Inv(g, c, s) && !s.failed && s.step == COMMIT && s.proposalBlock == Some(b)
    ensures var t := TryFinalizeCommit(s, s.height);
      if PrecommitMajority(s, s.commitRound) != Some(HashOf(b)) then t == s
      else if ValidateBlock(s.chain, b).Valid? then Committed(s, s.commitRound, b, t) else t.failed
  {
    hide Inv, TwoThirdsMajority, FinalizeCommit, ValidateBlock, Committed;
    if PrecommitMajority(s, s.commitRound) == Some(HashOf(b)) { FinalizeDuty(g, c, s, b); }
  }

  // ---- Votes received ----

  /** The vote set takes this vote: it is of this height, by a validator it has no vote of in that round. */
  predicate Counts(e: Env, s: Node, v: Vote) {
    && v.height == s.height && e.accepts && HasAddress(s.chain.validators, v.validator)
    && v.validator !in VotesAt(if v.kind == Prevote then s.prevotes else s.precommits, v.round)
  }

  function WithVote(votes: map<int, Ballots>, v: Vote): map<int, Ballots> {
    votes[v.round := VotesAt(votes, v.round)[v.validator := Ballot(v.value, v.timeMs)]]
  }

  /** The vote is counted in its own round and kind, and nothing else changes. */
  function Counted(s: Node, v: Vote): Node {
    s.(heard := s.heard + {v},
       prevotes := if v.kind == Prevote then WithVote(s.prevotes, v) else s.prevotes,
       precommits := if v.kind == Precommit then WithVote(s.precommits, v) else s.precommits)
  }

  /** A polka of round `r` releases an older lock on anything else: exactly then, and nothing else releases one. */
  predicate LockFollows(s: Node, r: int, x: Hash, t: Node) {
    if s.lockedBlock.Some? && s.lockedRound < r <= s.round && !HashesTo(s.lockedBlock, x)
    then t.lockedBlock == None && t.lockedRound == -1
    else t.lockedBlock == s.lockedBlock && t.lockedRound == s.lockedRound
  }

  /**
    A polka of this round for a block is news if no valid block is of this round yet: it makes the proposal block
    the valid block, or drops it if it is another.
  */
  predicate ValidFollows(s: Node, r: int, x: Hash, t: Node) {
    if x == ZeroHash || r != s.round || s.validRound >= r then
      t.validBlock == s.validBlock && t.validRound == s.validRound && t.proposalBlock == s.proposalBlock
    else if HashesTo(s.proposalBlock, x) then
      t.validBlock == s.proposalBlock && t.validRound == r && t.proposalBlock == s.proposalBlock
    else t.validBlock == s.validBlock && t.validRound == s.validRound && t.proposalBlock == None
  }

  predicate PolkaFollows(s: Node, r: int, t: Node) {
    var polka := PrevoteMajority(s, r);
    if polka.None? then t == s
    else
      && LockFollows(s, r, polka.value, t) && ValidFollows(s, r, polka.value, t)
      && t == s.(lockedBlock := t.lockedBlock, lockedRound := t.lockedRound,
                 validBlock := t.validBlock, validRound := t.validRound, proposalBlock := t.proposalBlock)
  }

  /**
    After a prevote of round `r`: skip to a later round, precommit on a polka, wait on any majority, or prevote on a
    proposal the vote has made whole.
  */
  ghost predicate PrevoteThen(c: Config, e: Env, s: Node, r: int, t: Node) {
    if r > s.round then
      if PrevotesAny(s, r) then ProposeAnswer(c, e, Started(s, r), t) else t == s
    else if r == s.round then
      if s.step != PREVOTE && s.step != PREVOTE_WAIT then t == s
      else if PrevoteMajority(s, r) == Some(ZeroHash) || (PrevoteMajority(s, r).Some? && Whole(s)) then
        PrecommitAnswer(c, e, s, t)
      else if PrevotesAny(s, r) && s.step == PREVOTE then
        t == s.(step := PREVOTE_WAIT, ticks := s.ticks + [Timeout(s.height, r, PREVOTE_WAIT)])
      else t == s
    else
      if s.step < PREVOTE && Whole(s) && s.proposal.value.polRound == r then PrevoteAnswer(c, e, s, t) else t == s
  }

  lemma FollowDuty(s: Node, r: int)
    ensures PolkaFollows(s, r, Followed(s, r))
  {
    hide TwoThirdsMajority;
  }

  lemma PrevoteThenDuty(g: ChainState, c: Config, e: Env, s: Node, r: nat)
    requires Ready(g, c, s) && !s.failed
    ensures PrevoteThen(c, e, s, r, OnPrevotes(c, e, s, r))
  {
    hide Inv, TwoThirdsMajority, EnterNewRound, EnterPrecommit, EnterPrevote, ProposeAnswer, PrevoteAnswer,
      PrecommitAnswer, Quorum, ValidateBlock;
    Facts(g, c, s);
    if r > s.round {
      NewRoundDuty(g, c, e, s, r);
    } else if r == s.round {
      if s.step < PRECOMMIT { PrecommitDuty(g, c, e, s); } else { LateStaysOut(c, e, s); }
    } else if s.step < PREVOTE {
      PrevoteDuty(c, e, s);
    } else {
      LateStaysOut(c, e, s);
    }
  }

  lemma LateStaysOut(c: Config, e: Env, s: Node)
    ensures s.step >= PRECOMMIT ==> EnterPrecommit(c, e, s, s.height, s.round) == s
    ensures s.step >= PREVOTE ==> EnterPrevote(c, e, s, s.height, s.round) == s
  {
  }

  lemma PrevoteVoteDuty(g: ChainState, c: Config, e: Env, s: Node, v: Vote)
    requires Ready(g, c, s) && !s.failed && v.kind == Prevote && Counts(e, s, v)
    ensures exists f :: PolkaFollows(Counted(s, v), v.round, f) && PrevoteThen(c, e, f, v.round, AddVote(c, e, s, v))
  {
    hide Inv, PolkaFollows, PrevoteThen, AfterPrevote, OnPrevotes, Followed, AfterPrecommit, AddLatePrecommit,
      HasAddress;
    var s1 := Counted(s, v);
    assert s1 == Record(s, v);
    var f := Followed(s1, v.round);
    FollowDuty(s1, v.round);
    FollowedOk(g, c, e, s, v);
    AfterPrevoteIs(c, e, s1, v.round);
    PrevoteThenDuty(g, c, e, f, v.round);
  }

  /** With a majority of round `r`: the node is in that round or a later one and has precommitted. */
  ghost predicate Reached(c: Config, e: Env, s: Node, r: int, m: Node) {
    if r < s.round || (r == s.round && s.step >= PRECOMMIT) then m == s
    else if r == s.round && s.step != NEW_HEIGHT then PrecommitAnswer(c, e, s, m)
    else exists n :: ProposeAnswer(c, e, Started(s, r), n) && PrecommitAnswer(c, e, n, m)
  }

  /** Waiting for precommits of round `r`, once per round. */
  predicate Waits(s: Node, r: int, t: Node) {
    if r < s.round || (r == s.round && s.triggeredTimeoutPrecommit) then t == s
    else t == s.(triggeredTimeoutPrecommit := true, ticks := s.ticks + [Timeout(s.height, r, PRECOMMIT_WAIT)])
  }

  /**
    A majority for a block commits it, unless a commit is under way; with all precommits in, the next height
    starts at once.
  */
  ghost predicate BlockDecided(c: Config, e: Env, s: Node, r: int, x: Hash, t: Node) {
    if s.step >= COMMIT then t == s
    else exists u :: CommitAnswer(s, r, x, u) && DecidedThen(c, e, s, r, u, t)
  }

  ghost predicate DecidedThen(c: Config, e: Env, s: Node, r: int, u: Node, t: Node) {
    if u.height == s.height + 1 && c.skipTimeoutCommit && HasAll(s.chain.validators, VotesAt(s.precommits, r))
    then ProposeAnswer(c, e, Started(u, 0), t) else t == u
  }

  ghost predicate MajorityThen(c: Config, e: Env, m: Node, r: int, x: Hash, t: Node) {
    if m.failed then t == m
    else if x != ZeroHash then BlockDecided(c, e, m, r, x, t)
    else Waits(m, r, t)
  }

  /** After a precommit of round `r`. */
  ghost predicate PrecommitThen(c: Config, e: Env, s: Node, r: int, t: Node) {
    var id := PrecommitMajority(s, r);
    if id.Some? then
      exists m :: Reached(c, e, s, r, m) && MajorityThen(c, e, m, r, id.value, t)
    else if s.round <= r && PrecommitsAny(s, r) then
      if r > s.round || s.step == NEW_HEIGHT
      then exists n :: ProposeAnswer(c, e, Started(s, r), n) && Waits(n, r, t)
      else Waits(s, r, t)
    else t == s
  }

  lemma ReachedDuty(g: ChainState, c: Config, e: Env, s: Node, r: nat)
    requires Ready(g, c, s) && !s.failed
    ensures var m := EnterPrecommit(c, e, EnterNewRound(c, e, s, s.height, r), s.height, r);
      && Reached(c, e, s, r, m) && Ready(g, c, m) && m.step != NEW_HEIGHT
      && m.height == s.height && m.round >= r && m.precommits == s.precommits && m.chain == s.chain
  {
    hide Inv, Moves, EnterNewRound, EnterPrecommit, ProposeAnswer, PrecommitAnswer;
    var n := EnterNewRound(c, e, s, s.height, r);
    var m := EnterPrecommit(c, e, n, s.height, r);
    Facts(g, c, s);
    RoundEntered(g, c, e, s, r);
    NewRoundDuty(g, c, e, s, r);
    EnterNewRoundOk(g, c, e, s, s.height, r);
    EnterPrecommitOk(g, c, e, n, s.height, r);
    KeepsInv(g, c, n, m);
    if n.round == r && n.step < PRECOMMIT {
      PrecommitDuty(g, c, e, n);
    } else {
      PastStaysOut(c, e, n, r);
    }
  }

  lemma PastStaysOut(c: Config, e: Env, s: Node, r: int)
    requires r < s.round || (r == s.round && s.step >= PRECOMMIT)
    ensures EnterPrecommit(c, e, s, s.height, r) == s
  {
  }

  lemma BlockDecidedDuty(g: ChainState, c: Config, e: Env, s: Node, r: nat, x: Hash)
    requires Ready(g, c, s) && !s.failed && s.step != NEW_HEIGHT
    requires PrecommitMajority(s, r) == Some(x) && x != ZeroHash
    ensures
      var u := EnterCommit(s, s.height, r);
      var skips := c.skipTimeoutCommit && HasAll(s.chain.validators, VotesAt(s.precommits, r));
      BlockDecided(c, e, s, r, x, if skips then EnterNewRound(c, e, u, u.height, 0) else u)
  {
    hide Inv, Moves, TwoThirdsMajority, EnterCommit, EnterNewRound, HasAll, ProposeAnswer, Committed, HeldIsValid;
    var u := EnterCommit(s, s.height, r);
    Facts(g, c, s);
    if s.step >= COMMIT {
      assert u == s by { CommitStaysOut(s, r); }
      NewRoundDuty(g, c, e, s, 0);
    } else {
      CommitDuty(g, c, s, r, x);
      EnterCommitOk(g, c, s, r);
      KeepsInv(g, c, s, u);
      if u.failed { FailedStaysOut(c, e, u, u.height, 0); } else { NewRoundDuty(g, c, e, u, 0); }
      if HeldIsValid(s, x) && BlockHeld(s, x) { CommittedPlace(s, r, x.block, u); }
    }
  }

  lemma CommitStaysOut(s: Node, r: int)
    requires s.step >= COMMIT
    ensures EnterCommit(s, s.height, r) == s
  {
  }

  lemma CommittedPlace(s: Node, r: int, b: Block, t: Node)
    requires Committed(s, r, b, t)
    ensures t.height == s.height + 1 && t.round == 0 && t.step == NEW_HEIGHT && !t.failed
  {
    hide VerifyCommit;
  }

  lemma WaitsDuty(s: Node, r: int)
    requires PrecommitsAny(s, r) && !s.failed
    ensures Waits(s, r, EnterPrecommitWait(s, s.height, r))
  {
    hide Quorum;
  }

  lemma PrecommitThenDuty(g: ChainState, c: Config, e: Env, s: Node, r: nat)
    requires Ready(g, c, s) && !s.failed
    ensures PrecommitThen(c, e, s, r, AfterPrecommit(c, e, s, r))
  {
    hide Inv, TwoThirdsMajority, EnterNewRound, EnterPrecommit, EnterCommit, EnterPrecommitWait, HasAll, Quorum,
      ProposeAnswer, Reached, BlockDecided, Waits;
    var id := PrecommitMajority(s, r);
    var n := EnterNewRound(c, e, s, s.height, r);
    if id.Some? {
      var m := EnterPrecommit(c, e, n, s.height, r);
      ReachedDuty(g, c, e, s, r);
      assert PrecommitMajority(m, r) == id;
      if m.failed {
        AllStayOut(c, e, m, r);
      } else if id.value != ZeroHash {
        BlockDecidedDuty(g, c, e, m, r, id.value);
      } else {
        MajorityIsAny(m.chain.validators, VotesAt(m.precommits, r), id.value);
        WaitsDuty(m, r);
      }
      assert MajorityThen(c, e, m, r, id.value, AfterPrecommit(c, e, s, r));
    } else if s.round <= r && PrecommitsAny(s, r) {
      NewRoundDuty(g, c, e, s, r);
      EnterNewRoundOk(g, c, e, s, s.height, r);
      WaitsDuty(n, r);
    }
  }

  lemma AllStayOut(c: Config, e: Env, s: Node, r: int)
    requires s.failed
    ensures EnterCommit(s, s.height, r) == s && EnterPrecommitWait(s, s.height, r) == s
    ensures EnterNewRound(c, e, s, s.height, 0) == s
  {
  }

  lemma PrecommitVoteDuty(g: ChainState, c: Config, e: Env, s: Node, v: Vote)
    requires Ready(g, c, s) && !s.failed && v.kind == Precommit && Counts(e, s, v)
    ensures PrecommitThen(c, e, Counted(s, v), v.round, AddVote(c, e, s, v))
  {
    hide Inv, PrecommitThen, AfterPrevote, AfterPrecommit, AddLatePrecommit, HasAddress;
    assert Counted(s, v) == Record(s, v);
    RecordPrecommitOk(g, c, e, s, v);
    PrecommitThenDuty(g, c, e, Counted(s, v), v.round);
  }

  /** A precommit for the height before, by a validator of it that LastCommit has no vote of, taken up while waiting. */
  predicate CountsLate(e: Env, s: Node, v: Vote) {
    && s.step == NEW_HEIGHT && v.kind == Precommit && v.height + 1 == s.height && s.lastCommit.Some?
    && v.height == s.lastCommit.value.height && v.round == s.lastCommit.value.round
    && e.accepts && HasAddress(s.chain.lastValidators, v.validator) && v.validator !in s.lastCommit.value.ballots
  }

  function CountedLate(s: Node, v: Vote): Node
    requires s.lastCommit.Some?
  {
    var last := s.lastCommit.value;
    s.(heard := s.heard + {v},
       lastCommit := Some(last.(ballots := last.ballots[v.validator := Ballot(v.value, v.timeMs)])))
  }

  ghost predicate LateThen(c: Config, e: Env, s: Node, u: Node, t: Node)
    requires u.lastCommit.Some?
  {
    if c.skipTimeoutCommit && HasAll(s.chain.lastValidators, u.lastCommit.value.ballots)
    then ProposeAnswer(c, e, Started(u, 0), t) else t == u
  }

  lemma LateVoteDuty(g: ChainState, c: Config, e: Env, s: Node, v: Vote)
    requires Ready(g, c, s) && !s.failed && CountsLate(e, s, v)
    ensures LateThen(c, e, s, CountedLate(s, v), AddVote(c, e, s, v))
  {
    hide Inv, EnterNewRound, HasAll, HasAddress, ProposeAnswer, AfterPrevote, AfterPrecommit;
    var u := CountedLate(s, v);
    Facts(g, c, s);
    LatePrecommitRecorded(g, c, e, s, v, u);
    NewRoundDuty(g, c, e, u, 0);
  }

  /** A vote that neither counts nor counts late changes nothing. */
  lemma VoteIgnored(c: Config, e: Env, s: Node, v: Vote)
    requires !Counts(e, s, v) && !CountsLate(e, s, v)
    ensures AddVote(c, e, s, v) == s
  {
    hide HasAddress, AfterPrevote, AfterPrecommit, EnterNewRound, HasAll;
  }

  // ---- Committed blocks received ----

  predicate Arrives(s: Node, full: FullBlock) {
    && full.block.number == s.height && ValidateBlock(s.chain, full.block).Valid?
    && VerifyCommit(s.chain.validators, HashOf(full.block), s.height, full.commit)
  }

  /** A valid block of this height with its commit is stored, whatever step the machine is in; any other is ignored. */
  ghost predicate ArrivalAnswer(c: Config, e: Env, s: Node, full: FullBlock, t: Node) {
    if !Arrives(s, full) then t == s
    else exists u :: ArrivedAs(s, full, u) && ArrivedThen(c, e, s, full, u, t)
  }

  ghost predicate ArrivedThen(c: Config, e: Env, s: Node, full: FullBlock, u: Node, t: Node) {
    if c.skipTimeoutCommit && HasAll(s.chain.validators, CommitToVoteSet(full.commit).ballots)
    then ProposeAnswer(c, e, Started(u, 0), t)
    else t == u.(ticks := u.ticks + [Timeout(s.height + 1, 0, NEW_HEIGHT)])
  }

  predicate ArrivedAs(s: Node, full: FullBlock, u: Node) {
    && AtNextHeight(s, u, full.block) && u.store[|s.store|].commit == full.commit
    && u.lastCommit == Some(CommitToVoteSet(full.commit)) && u.ticks == s.ticks
    && u.heard == s.heard + CommitVotes(full.commit)
  }

  lemma ArrivalDuty(g: ChainState, c: Config, e: Env, s: Node, full: FullBlock)
    requires Ready(g, c, s) && !s.failed
    ensures ArrivalAnswer(c, e, s, full, ProcessCommittedBlock(c, e, s, full))
  {
    hide Inv, Moves, ValidateBlock, VerifyCommit, CommitVotes, CommitToVoteSet, EnterNewRound, HasAll, ProposeAnswer,
      NextHeight, AtNextHeight, ProcessCommittedBlock;
    if FastPath(s, full) {
      var b, commit := full.block, full.commit;
      var heard, last := s.heard + CommitVotes(commit), CommitToVoteSet(commit);
      var u := NextHeight(s, b, commit, last, heard, s.ticks);
      Facts(g, c, s);
      CommitDecides(g, s, b, commit);
      NextHeightOk(g, c, s, b, commit, last, heard, s.ticks);
      NextHeightIs(s, b, commit, last, heard, s.ticks);
      NextHeightStores(s, b, commit, last, heard, s.ticks);
      FastPathLeads(g, c, e, s, full);
      MovesInv(g, c, s, u);
      NewRoundDuty(g, c, e, u, 0);
      assert ArrivedAs(s, full, u);
    } else {
      NotFastPath(c, e, s, full);
    }
  }

  lemma NextHeightStores(s: Node, b: Block, commit: Commit, last: VoteSet, heard: set<Vote>, ticks: seq<Timeout>)
    requires b.number == s.height == s.chain.lastBlockHeight + 1
    ensures var t := NextHeight(s, b, commit, last, heard, ticks);
      && t.store == s.store + [Stored(b, commit)] && t.chain.validators == s.chain.validators
      && t.height == s.height + 1 && t.round == 0 && t.step == NEW_HEIGHT && t.failed == s.failed
  {
  }

  // ---- Any event ----

  /** Everything an event does to the machine. */
  ghost predicate EventAnswer(c: Config, e: Env, s: Node, ev: Event, t: Node) {
    if s.failed then t == s
    else
      match ev
      case ProposalReceived(p) => ProposalAnswer(c, e, s, p, t)
      case BlockReceived(full) => ArrivalAnswer(c, e, s, full, t)
      case VoteReceived(v) => VoteAnswer(c, e, s, v, t)
      case TimedOut(x) =>
        if x.height == s.height && x.round == s.round && x.step >= s.step then TimeoutAnswer(c, e, s, x, t) else t == s
  }

  ghost predicate VoteAnswer(c: Config, e: Env, s: Node, v: Vote, t: Node) {
    if Counts(e, s, v) then
      if v.kind == Precommit then PrecommitThen(c, e, Counted(s, v), v.round, t)
      else exists f :: PolkaFollows(Counted(s, v), v.round, f) && PrevoteThen(c, e, f, v.round, t)
    else if CountsLate(e, s, v) then LateThen(c, e, s, CountedLate(s, v), t)
    else t == s
  }

  lemma EventDuty(g: ChainState, c: Config, e: Env, s: Node, ev: Event)
    requires Ready(g, c, s) && (ev.TimedOut? ==> ev.timeout in s.ticks)
    ensures EventAnswer(c, e, s, ev, Step(c, e, s, ev))
  {
    hide Ready, SetProposal, AddVote, HandleTimeout, ProcessCommittedBlock, ProposalAnswer, ArrivalAnswer,
      TimeoutAnswer, PrecommitThen, PrevoteThen, PolkaFollows, LateThen, Counts, CountsLate;
    if s.failed {
      FailedStops(c, e, s, ev);
    } else {
      match ev
      case ProposalReceived(p) => SetProposalDuty(g, c, e, s, p);
      case BlockReceived(full) => ArrivalDuty(g, c, e, s, full);
      case TimedOut(x) => TimeoutDuty(g, c, e, s, x);
      case VoteReceived(v) =>
        if Counts(e, s, v) {
          match v.kind
          case Prevote => PrevoteVoteDuty(g, c, e, s, v);
          case Precommit => PrecommitVoteDuty(g, c, e, s, v);
        } else if CountsLate(e, s, v) {
          LateVoteDuty(g, c, e, s, v);
        } else {
          VoteIgnored(c, e, s, v);
        }
    }
  }

  lemma FailedStops(c: Config, e: Env, s: Node, ev: Event)
    requires s.failed
    ensures Step(c, e, s, ev) == s
  {
  }
}
