/** Committing a block, by precommits or by a verified commit, takes the node to the next height. */
module Commits {
  import opened Quorums
  import opened Votes
  import opened Executor
  import opened Machine
  import opened NodeInvariant
  import opened NodeSteps
  import opened Transitions

  /** The state between two events. */
  ghost predicate Ready(g: ChainState, c: Config, s: Node) {
    Inv(g, c, s) && Fresh(s) && Rung(s)
  }

  lemma NoMajorityOfNone(vals: ValidatorSet, r: int, x: Hash)
    ensures TwoThirdsMajority(vals, VotesAt(map[], r)) != Some(x)
  {
    var none: Ballots := map[];
    MajorityIsQuorum(vals, none, x);
    assert VotersFor(none, x) == {};
    PowerOfNobody(vals);
  }

  lemma StoreAppendOk(g: ChainState, heard: set<Vote>, more: set<Vote>, st: ChainState, store: seq<Stored>,
                      b: Block, commit: Commit)
    requires IsGenesis(g) && ChainOk(g, heard, st, store) && heard <= more
    requires ValidateBlock(st, b).Valid?
    requires VerifyCommit(g.validators, HashOf(b), |store| + 1, commit)
    requires Decided(g.validators, more, |store| + 1, HashOf(b)) && CommitVotes(commit) <= more
    ensures ChainOk(g, more, UpdateState(st, b), store + [Stored(b, commit)])
    ensures b.number == |store| + 1
  {
    var next := store + [Stored(b, commit)];
    ChainOkMonotone(g, heard, more, st, store);
    StateAfterShape(g, Tip(store));
    ValidOnOwnParent(g, Tip(store), b);
    ValidBlockExtends(st, b);
    assert next[..|store|] == store;
    forall i | 0 <= i < |next| ensures StoredOk(g, more, next, i) {
      if i < |store| {
        assert StoredOk(g, more, store, i);
        assert next[..i] == store[..i];
      }
    }
  }

  /** A node at the start of a height. */
  predicate AtStart(s: Node) {
    && s.round == 0 && s.step == NEW_HEIGHT && s.trackedRound == 0 && s.commitRound == -1
    && s.proposal == None && s.proposalBlock == None && !s.triggeredTimeoutPrecommit
    && s.lockedRound == -1 && s.lockedBlock == None && s.validRound == -1 && s.validBlock == None
    && s.prevotes == map[] && s.precommits == map[]
  }

  lemma StartIsOk(s: Node)
    requires AtStart(s) && s.height >= 1
    ensures RoundOk(s) && WaitsScheduled(s) && Fresh(s) && Trusts(s)
    ensures BallotsHeard(s.heard, s.height, Prevote, s.prevotes)
            && BallotsHeard(s.heard, s.height, Precommit, s.precommits)
  {
    hide TwoThirdsMajority, ValidateBlock;
    forall r, x ensures TwoThirdsMajority(s.chain.validators, VotesAt(map[], r)) != Some(x) {
      NoMajorityOfNone(s.chain.validators, r, x);
    }
  }

  /** Where committing block `b` with seen commit `commit` leads. */
  function NextHeight(s: Node, b: Block, commit: Commit, last: VoteSet, heard: set<Vote>, ticks: seq<Timeout>): Node {
    ResetForHeight(s.(store := s.store + [Stored(b, commit)], heard := heard, ticks := ticks),
                   UpdateState(s.chain, b), Some(last))
  }

  /** A valid block with a commit for it and a set of precommits for it, all of them among `heard`. */
  ghost predicate Committable(g: ChainState, s: Node, b: Block, commit: Commit, last: VoteSet, heard: set<Vote>) {
    && ValidateBlock(s.chain, b).Valid?
    && VerifyCommit(g.validators, HashOf(b), s.height, commit) && CommitVotes(commit) <= heard
    && last.height == s.height && DrawnFrom(heard, last)
    && TwoThirdsMajority(g.validators, last.ballots) == Some(HashOf(b))
  }

  lemma NextHeightOk(g: ChainState, c: Config, s: Node, b: Block, commit: Commit, last: VoteSet,
                     heard: set<Vote>, ticks: seq<Timeout>)
    requires Inv(g, c, s) && Committable(g, s, b, commit, last, heard)
    requires s.heard <= heard && Decided(g.validators, heard, s.height, HashOf(b))
    requires ticks == s.ticks || ticks == s.ticks + [Timeout(s.height + 1, 0, NEW_HEIGHT)]
    ensures var t := NextHeight(s, b, commit, last, heard, ticks);
      Moves(g, c, s, t) && t.heard == heard && Fresh(t) && t.height == s.height + 1 && b.number == s.height
  {
    var t := NextHeight(s, b, commit, last, heard, ticks);
    assert IsGenesis(g);
    hide BallotsHeard, StoredOk, LogOk, VerifyCommit, ValidateBlock, Decided, MajoritiesValid, RoundOk, ChainOk,
      LogBehind, AtStart, CommitVotes, DrawnFrom;
    NextChainOk(g, c, s, b, commit, heard);
    LogOkMonotone(g, c, s.heard, heard, s.signed);
    LogBehindMonotone(s.signed, Position(s), Position(t));
    NothingSignedAbove(s.signed, Position(s), t.height);
    assert AtStart(t) by { ResetIsStart(s, b, commit, last, heard, ticks); }
    StartIsOk(t);
  }

  lemma ResetIsStart(s: Node, b: Block, commit: Commit, last: VoteSet, heard: set<Vote>, ticks: seq<Timeout>)
    ensures AtStart(NextHeight(s, b, commit, last, heard, ticks))
  {
  }

  lemma NextChainOk(g: ChainState, c: Config, s: Node, b: Block, commit: Commit, heard: set<Vote>)
    requires Inv(g, c, s) && ValidateBlock(s.chain, b).Valid? && VerifyCommit(g.validators, HashOf(b), s.height, commit)
    requires s.heard <= heard && Decided(g.validators, heard, s.height, HashOf(b)) && CommitVotes(commit) <= heard
    ensures ChainOk(g, heard, UpdateState(s.chain, b), s.store + [Stored(b, commit)])
    ensures b.number == s.height && s.chain.validators == g.validators && s.height == s.chain.lastBlockHeight + 1
  {
    hide StoredOk, LogOk, VerifyCommit, ValidateBlock, Decided, CommitVotes;
    StateAfterShape(g, Tip(s.store));
    StoreAppendOk(g, s.heard, heard, s.chain, s.store, b, commit);
  }

  lemma NothingSignedAbove(signed: seq<Message>, pos: Pos, h: nat)
    requires LogBehind(signed, pos) && pos.height < h
    ensures forall v :: !PrecommittedAt(signed, h, v)
  {
    forall v | VoteMsg(v) in signed ensures v.height < h {
      assert AtMost(Rank(VoteMsg(v)), pos);
    }
  }

  // ---- Finalizing on precommits ----

  function SeenCommit(s: Node): Commit
    requires PrecommitMajority(s, s.commitRound).Some?
  {
    MakeCommit(s.chain.validators, VoteSet(s.height, s.commitRound, VotesAt(s.precommits, s.commitRound)))
  }

  predicate Finalizable(s: Node) {
    && !s.failed && s.step == COMMIT
    && PrecommitMajority(s, s.commitRound).Some?
    && HashesTo(s.proposalBlock, PrecommitMajority(s, s.commitRound).value)
  }

  lemma FinalizeLeads(s: Node)
    requires Finalizable(s) && ValidateBlock(s.chain, s.proposalBlock.value).Valid?
             && s.proposalBlock.value.number == s.height
    requires s.chain.initialHeight == 1 && s.height == s.chain.lastBlockHeight + 1 == |s.store| + 1
             && s.commitRound >= 0
    ensures
      var last := VoteSet(s.height, s.commitRound, VotesAt(s.precommits, s.commitRound));
      var ticks := s.ticks + [Timeout(s.height + 1, 0, NEW_HEIGHT)];
      FinalizeCommit(s, s.height) == NextHeight(s, s.proposalBlock.value, SeenCommit(s), last, s.heard, ticks)
  {
    hide TwoThirdsMajority, ValidateBlock, MakeCommit;
  }

  /** What a commit made of precommits stores and where it leads. */
  lemma FinalizeCommitOk(g: ChainState, c: Config, s: Node)
    requires Inv(g, c, s) && Finalizable(s) && ValidateBlock(s.chain, s.proposalBlock.value).Valid?
    ensures
      var last := VoteSet(s.height, s.commitRound, VotesAt(s.precommits, s.commitRound));
      var ticks := s.ticks + [Timeout(s.height + 1, 0, NEW_HEIGHT)];
      var t := FinalizeCommit(s, s.height);
      && t == NextHeight(s, s.proposalBlock.value, SeenCommit(s), last, s.heard, ticks)
      && Keeps(g, c, s, t) && Fresh(t) && Rung(t) && t.height == s.height + 1
  {
    var b := s.proposalBlock.value;
    var last := VoteSet(s.height, s.commitRound, VotesAt(s.precommits, s.commitRound));
    var ticks := s.ticks + [Timeout(s.height + 1, 0, NEW_HEIGHT)];
    assert |s.store| == s.chain.lastBlockHeight;
    hide Inv, Moves, ValidateBlock, CommitVotes, DrawnFrom, FinalizeCommit, TwoThirdsMajority, VerifyCommit;
    Facts(g, c, s);
    MajorityEvidence(g, c, s, Precommit, s.commitRound, HashOf(b));
    PrecommitsDrawn(g, c, s, s.commitRound);
    MadeCommitVerifies(g.validators, last, HashOf(b));
    MadeCommitDrawn(g.validators, last, s.heard);
    NextHeightOk(g, c, s, b, SeenCommit(s), last, s.heard, ticks);
    FinalizeLeads(s);
  }

  lemma PrecommitsDrawn(g: ChainState, c: Config, s: Node, r: int)
    requires Inv(g, c, s) && r >= 0
    ensures DrawnFrom(s.heard, VoteSet(s.height, r, VotesAt(s.precommits, r)))
  {
    hide ChainOk, LogOk, LockOk, RoundOk, LastCommitOk;
  }

  lemma TryFinalizeCommitOk(g: ChainState, c: Config, s: Node)
    requires Inv(g, c, s)
    ensures var t := TryFinalizeCommit(s, s.height);
      Keeps(g, c, s, t) && (t == s || t == Panic(s) || (Fresh(t) && Rung(t) && t.height == s.height + 1))
  {
    hide Inv, Moves, ValidateBlock;
    KeepsSame(g, c, s);
    if Finalizable(s) {
      if ValidateBlock(s.chain, s.proposalBlock.value).Valid? {
        FinalizeCommitOk(g, c, s);
      } else {
        assert !MajoritiesValid(s.chain, s.precommits);
        PanicOk(g, c, s);
      }
    }
  }

  lemma PreparedOk(g: ChainState, c: Config, s: Node, r: int, id: Hash)
    requires Inv(g, c, s) && PrecommitMajority(s, r) == Some(id) && id != ZeroHash
    requires s.step != NEW_HEIGHT && s.step < COMMIT
    ensures Keeps(g, c, s, s.(proposalBlock := CommitBlock(s, id), step := COMMIT, commitRound := r))
  {
    hide Inv, Moves, ValidateBlock, TwoThirdsMajority;
    Facts(g, c, s);
    MajorityEvidence(g, c, s, Precommit, r, id);
    FrameOk(g, c, s, s.(proposalBlock := CommitBlock(s, id), step := COMMIT, commitRound := r));
  }

  lemma EnterCommitOk(g: ChainState, c: Config, s: Node, r: int)
    requires Inv(g, c, s) && PrecommitMajority(s, r).Some? && PrecommitMajority(s, r).value != ZeroHash
    requires s.step != NEW_HEIGHT
    ensures var t := EnterCommit(s, s.height, r); Keeps(g, c, s, t) && Fresh(t) && Rung(t)
  {
    hide Inv, Moves, TwoThirdsMajority, TryFinalizeCommit, CommitBlock;
    KeepsSame(g, c, s);
    if !s.failed && s.step < COMMIT {
      var id := PrecommitMajority(s, r).value;
      var s1 := s.(proposalBlock := CommitBlock(s, id), step := COMMIT, commitRound := r);
      PreparedOk(g, c, s, r, id);
      KeepsInv(g, c, s, s1);
      TryFinalizeCommitOk(g, c, s1);
      KeepsCompose(g, c, s, s1, TryFinalizeCommit(s1, s.height));
    }
  }

  // ---- The fast path ----

  predicate FastPath(s: Node, full: FullBlock) {
    && !s.failed && full.block.number == s.height && ValidateBlock(s.chain, full.block).Valid?
    && VerifyCommit(s.chain.validators, HashOf(full.block), full.block.number, full.commit)
  }

  /** Saving a block that follows and updating to the state after it, with its commit as the last commit. */
  lemma SavedAndUpdated(s: Node, b: Block, commit: Commit, last: VoteSet, heard: set<Vote>)
    requires !s.failed && s.chain.initialHeight == 1
    requires s.height == s.chain.lastBlockHeight + 1 == |s.store| + 1 && b.number == s.height
    ensures var s1 := s.(step := COMMIT, commitRound := -1, lastCommit := Some(last), heard := heard);
      UpdateToState(SaveBlock(s1, b, commit), UpdateState(s.chain, b)) == NextHeight(s, b, commit, last, heard, s.ticks)
  {
  }

  lemma FastPathLeads(g: ChainState, c: Config, e: Env, s: Node, full: FullBlock)
    requires Inv(g, c, s) && FastPath(s, full)
    ensures
      var heard, last := s.heard + CommitVotes(full.commit), CommitToVoteSet(full.commit);
      var next := NextHeight(s, full.block, full.commit, last, heard, s.ticks);
      ProcessCommittedBlock(c, e, s, full) ==
        if c.skipTimeoutCommit && HasAll(next.chain.validators, next.lastCommit.value.ballots)
        then EnterNewRound(c, e, next, next.height, 0) else ScheduleRound0(next)
  {
    var heard, last := s.heard + CommitVotes(full.commit), CommitToVoteSet(full.commit);
    var s1 := s.(step := COMMIT, commitRound := -1, lastCommit := Some(last), heard := heard);
    assert |s.store| == s.chain.lastBlockHeight;
    hide Inv, ValidateBlock, VerifyCommit, CommitVotes, CommitToVoteSet, EnterNewRound, HasAll, SaveBlock,
      UpdateToState;
    Facts(g, c, s);
    SavedAndUpdated(s, full.block, full.commit, last, heard);
    assert SaveBlock(s1, full.block, full.commit).chain == s.chain by { SaveKeepsChain(s1, full.block, full.commit); }
  }

  lemma SaveKeepsChain(s: Node, b: Block, commit: Commit)
    ensures SaveBlock(s, b, commit).chain == s.chain
  {
  }

  lemma ProcessCommittedBlockOk(g: ChainState, c: Config, e: Env, s: Node, full: FullBlock)
    requires Ready(g, c, s)
    ensures var t := ProcessCommittedBlock(c, e, s, full);
      && Moves(g, c, s, t) && Fresh(t) && Rung(t)
      && (if FastPath(s, full)
          then t.heard == s.heard + CommitVotes(full.commit) && t.height == s.height + 1
               && t.store == s.store + [Stored(full.block, full.commit)] && !t.failed
          else t == s)
  {
    hide Inv, Moves, ValidateBlock, VerifyCommit, CommitVotes, CommitToVoteSet, HasAll;
    KeepsSame(g, c, s);
    if FastPath(s, full) {
      var b, commit := full.block, full.commit;
      var heard, last := s.heard + CommitVotes(commit), CommitToVoteSet(commit);
      var ticks := s.ticks + [Timeout(s.height + 1, 0, NEW_HEIGHT)];
      var next := NextHeight(s, b, commit, last, heard, s.ticks);
      Facts(g, c, s);
      CommitDecides(g, s, b, commit);
      NextHeightOk(g, c, s, b, commit, last, heard, s.ticks);
      FastPathLeads(g, c, e, s, full);
      if c.skipTimeoutCommit && HasAll(next.chain.validators, next.lastCommit.value.ballots) {
        MovesInv(g, c, s, next);
        EnterNewRoundOk(g, c, e, next, next.height, 0);
        MovesCompose(g, c, s, next, EnterNewRound(c, e, next, next.height, 0));
        assert EntersNewRound(next, next.height, 0);
      } else {
        NextHeightOk(g, c, s, b, commit, last, heard, ticks);
        assert ScheduleRound0(next) == NextHeight(s, b, commit, last, heard, ticks);
      }
    } else {
      NotFastPath(c, e, s, full);
    }
  }

  lemma NotFastPath(c: Config, e: Env, s: Node, full: FullBlock)
    requires !FastPath(s, full)
    ensures ProcessCommittedBlock(c, e, s, full) == s
  {
  }

  lemma MovesInv(g: ChainState, c: Config, s: Node, t: Node)
    requires Moves(g, c, s, t)
    ensures Inv(g, c, t)
  {
  }

  lemma CommitDecides(g: ChainState, s: Node, b: Block, commit: Commit)
    requires ValidateBlock(s.chain, b).Valid? && VerifyCommit(g.validators, HashOf(b), s.height, commit)
    ensures Committable(g, s, b, commit, CommitToVoteSet(commit), s.heard + CommitVotes(commit))
    ensures Decided(g.validators, s.heard + CommitVotes(commit), s.height, HashOf(b))
  {
    CommitIsEvidence(g.validators, HashOf(b), s.height, commit);
    EvidenceMonotone(g.validators, CommitVotes(commit), s.heard + CommitVotes(commit), Precommit, s.height,
      commit.round, HashOf(b));
    CommitVoteSetMajority(g.validators, HashOf(b), s.height, commit);
    CommitVoteSetDrawn(g.validators, HashOf(b), s.height, commit);
  }

  // ---- Starting ----

  /** A node started on a chain that holds together is ready. */
  lemma StartNodeOk(g: ChainState, c: Config, st: ChainState, store: seq<Stored>, heard: set<Vote>)
    requires IsGenesis(g) && ChainOk(g, heard, st, store)
    ensures var s := StartNode(st, store, heard);
      Ready(g, c, s) && !s.failed && Trusts(s) && s.store == store && s.chain == st && s.heard == heard
        && s.signed == []
  {
    var s := StartNode(st, store, heard);
    StateAfterShape(g, Tip(store));
    StoredLastCommit(g, heard, st, store);
    hide ChainOk, TwoThirdsMajority, RoundOk, BallotsHeard, MajoritiesValid, ReconstructLastCommit;
    StartIsOk(s);
  }

  /** The commit stored with the last block rebuilds the last commit, if there is a last block. */
  lemma StoredLastCommit(g: ChainState, heard: set<Vote>, st: ChainState, store: seq<Stored>)
    requires IsGenesis(g) && ChainOk(g, heard, st, store)
    ensures st.lastBlockHeight > 0 ==>
      var last := ReconstructLastCommit(st, store);
      && last.Some? && last.value.height == st.lastBlockHeight && DrawnFrom(heard, last.value)
      && TwoThirdsMajority(g.validators, last.value.ballots) == Some(st.lastBlockID)
  {
    StateAfterShape(g, Tip(store));
    if store != [] {
      var i := |store| - 1;
      assert StoredOk(g, heard, store, i);
      CommitVoteSetMajority(g.validators, HashOf(store[i].block), i + 1, store[i].commit);
      CommitVoteSetDrawn(g.validators, HashOf(store[i].block), i + 1, store[i].commit);
    }
  }
}
