/** Each transition of the machine keeps the node invariant and only advances. */
module NodeSteps {
  import opened Quorums
  import opened Votes
  import opened Executor
  import opened Machine
  import opened NodeInvariant

  // ---- From vote sets to evidence ----

  lemma BallotEvidence(vals: ValidatorSet, heard: set<Vote>, h: nat, k: Kind, votes: map<int, Ballots>, r: int, x: Hash)
    requires BallotsHeard(heard, h, k, votes) && TwoThirdsMajority(vals, VotesAt(votes, r)) == Some(x)
    ensures r >= 0 && Evidence(vals, heard, k, h, r, x)
  {
    var m := VotesAt(votes, r);
    MajorityIsQuorum(vals, m, x);
    QuorumsMeet(vals, VotersFor(m, x), VotersFor(m, x));
    var voter :| voter in VotersFor(m, x);
    assert r in votes && voter in votes[r];
    forall a | a in VotersFor(m, x) ensures a in Backers(heard, k, h, r, x) {
      assert Vote(k, h, r, votes[r][a].value, a, votes[r][a].timeMs) in heard;
    }
    QuorumMonotone(vals, VotersFor(m, x), Backers(heard, k, h, r, x));
  }

  lemma MajorityEvidence(g: ChainState, c: Config, s: Node, k: Kind, r: int, x: Hash)
    requires Inv(g, c, s)
    requires (if k == Prevote then PrevoteMajority(s, r) else PrecommitMajority(s, r)) == Some(x)
    ensures r >= 0 && Evidence(g.validators, s.heard, k, s.height, r, x)
  {
    hide LogOk, BallotsHeard, StoredOk;
    StateAfterShape(g, Tip(s.store));
    match k
    case Prevote => BallotEvidence(g.validators, s.heard, s.height, Prevote, s.prevotes, r, x);
    case Precommit => BallotEvidence(g.validators, s.heard, s.height, Precommit, s.precommits, r, x);
  }

  lemma ProperIfValid(g: ChainState, c: Config, s: Node, b: Block)
    requires Inv(g, c, s) && ValidateBlock(s.chain, b).Valid?
    ensures Proper(g, s.heard, s.height, HashOf(b))
  {
    ValidOnOwnParent(g, Tip(s.store), b);
    StateAfterShape(g, Tip(s.store));
    if s.store != [] {
      assert StoredOk(g, s.heard, s.store, |s.store| - 1);
    }
  }

  // ---- Hearing more ----

  lemma DecidedMonotone(vals: ValidatorSet, a: set<Vote>, b: set<Vote>, h: nat, x: Hash)
    requires Decided(vals, a, h, x) && a <= b
    ensures Decided(vals, b, h, x)
  {
    var r: int :| Evidence(vals, a, Precommit, h, r, x);
    EvidenceMonotone(vals, a, b, Precommit, h, r, x);
  }

  lemma UnlocksMonotone(vals: ValidatorSet, a: set<Vote>, b: set<Vote>, h: nat, lo: int, hi: int, hi': int, x: Hash)
    requires Unlocks(vals, a, h, lo, hi, x) && a <= b && hi <= hi'
    ensures Unlocks(vals, b, h, lo, hi', x)
  {
    var r: int, y: Hash :| lo < r <= hi && y != x && Evidence(vals, a, Prevote, h, r, y);
    EvidenceMonotone(vals, a, b, Prevote, h, r, y);
  }

  lemma VoteOkMonotone(g: ChainState, c: Config, a: set<Vote>, b: set<Vote>, v: Vote)
    requires VoteOk(g, c, a, v) && a <= b
    ensures VoteOk(g, c, b, v)
  {
    if v.value != ZeroHash {
      if v.kind == Prevote {
        if v.height > 1 { DecidedMonotone(g.validators, a, b, v.height - 1, v.value.block.parent); }
      } else {
        EvidenceMonotone(g.validators, a, b, Prevote, v.height, v.round, v.value);
      }
    }
  }

  lemma ChainOkMonotone(g: ChainState, a: set<Vote>, b: set<Vote>, st: ChainState, store: seq<Stored>)
    requires ChainOk(g, a, st, store) && a <= b
    ensures ChainOk(g, b, st, store)
  {
    forall i | 0 <= i < |store| ensures StoredOk(g, b, store, i) {
      assert StoredOk(g, a, store, i);
      DecidedMonotone(g.validators, a, b, i + 1, HashOf(store[i].block));
    }
  }

  lemma LogOkMonotone(g: ChainState, c: Config, a: set<Vote>, b: set<Vote>, signed: seq<Message>)
    requires LogOk(g, c, a, signed) && a <= b
    ensures LogOk(g, c, b, signed)
  {
    forall v | VoteMsg(v) in signed ensures VoteOk(g, c, b, v) {
      VoteOkMonotone(g, c, a, b, v);
    }
    forall p | ProposalMsg(p) in signed ensures ProposalOk(g, b, p) {
      assert ProposalOk(g, a, p);
      if p.polRound >= 0 {
        EvidenceMonotone(g.validators, a, b, Prevote, p.height, p.polRound, HashOf(p.block));
      }
    }
    forall v, u | VoteMsg(v) in signed && VoteMsg(u) in signed ensures Unlocked(g, b, v, u) {
      assert Unlocked(g, a, v, u);
      if Unlocks(g.validators, a, v.height, v.round, u.round, v.value) {
        UnlocksMonotone(g.validators, a, b, v.height, v.round, u.round, u.round, v.value);
      }
    }
  }

  lemma LockOkMonotone(g: ChainState, s: Node, t: Node)
    requires LockOk(g, s)
    requires s.heard <= t.heard && s.signed == t.signed && s.height == t.height && s.round <= t.round
    requires s.lockedBlock == t.lockedBlock && s.lockedRound == t.lockedRound
    ensures LockOk(g, t)
  {
    forall v | PrecommittedAt(t.signed, t.height, v)
      ensures HoldsLock(t.lockedBlock, t.lockedRound, v)
              || Unlocks(g.validators, t.heard, t.height, v.round, t.round, v.value)
    {
      assert PrecommittedAt(s.signed, s.height, v);
      if !HoldsLock(s.lockedBlock, s.lockedRound, v) {
        UnlocksMonotone(g.validators, s.heard, t.heard, s.height, v.round, s.round, t.round, v.value);
      }
    }
  }

  // ---- Locking and unlocking ----

  lemma UnlockOk(g: ChainState, c: Config, s: Node, r: int, x: Hash)
    requires Inv(g, c, s) && r <= s.round && PrevoteMajority(s, r) == Some(x) && !HashesTo(s.lockedBlock, x)
    requires forall v :: PrecommittedAt(s.signed, s.height, v) && HoldsLock(s.lockedBlock, s.lockedRound, v) ==>
             v.round < r
    ensures Keeps(g, c, s, Unlock(s))
  {
    hide ChainOk, BallotsHeard, LogOk, MajoritiesValid;
    var t := Unlock(s);
    MajorityEvidence(g, c, s, Prevote, r, x);
    forall v | PrecommittedAt(t.signed, t.height, v)
      ensures Unlocks(g.validators, t.heard, t.height, v.round, t.round, v.value)
    {
      assert PrecommittedAt(s.signed, s.height, v);
    }
  }

  /** Locking `b` on a polka for it in the current round, before precommitting there. */
  lemma LockBlockOk(g: ChainState, c: Config, s: Node, b: Block)
    requires Inv(g, c, s) && s.step < PRECOMMIT
    requires PrevoteMajority(s, s.round) == Some(HashOf(b)) && ValidateBlock(s.chain, b).Valid?
    ensures Keeps(g, c, s, s.(lockedRound := s.round, lockedBlock := Some(b)))
  {
    hide ChainOk, BallotsHeard, LogOk, MajoritiesValid;
    var t := s.(lockedRound := s.round, lockedBlock := Some(b));
    MajorityEvidence(g, c, s, Prevote, s.round, HashOf(b));
    forall v | PrecommittedAt(t.signed, t.height, v)
      ensures HoldsLock(t.lockedBlock, t.lockedRound, v)
              || Unlocks(g.validators, t.heard, t.height, v.round, t.round, v.value)
    {
      assert PrecommittedAt(s.signed, s.height, v);
      assert AtMost(Rank(VoteMsg(v)), Position(s));
    }
  }

  // ---- Signing votes ----

  lemma LogAppends(g: ChainState, c: Config, s: Node, u: Vote)
    requires Inv(g, c, s) && VoteOk(g, c, s.heard, u)
    requires u.height == s.height && u.round == s.round
    requires s.step < (if u.kind == Prevote then PREVOTE else PRECOMMIT)
    requires u.kind == Prevote && s.lockedBlock.Some? ==> u.value == HashOf(s.lockedBlock.value)
    ensures LogOk(g, c, s.heard, s.signed + [VoteMsg(u)])
  {
    forall v | VoteMsg(v) in s.signed ensures Unlocked(g, s.heard, v, u) && Unlocked(g, s.heard, u, v) {
      assert AtMost(Rank(VoteMsg(v)), Position(s));
      if v.kind == Precommit && v.height == s.height && v.value != ZeroHash {
        assert PrecommittedAt(s.signed, s.height, v);
      }
    }
  }

  lemma AdvancesBySigning(s: Node, t: Node, u: Vote)
    requires t.signed == s.signed + [VoteMsg(u)]
    requires s.ticks <= t.ticks && s.heard <= t.heard && s.store <= t.store
    requires AtMost(Position(s), Position(t)) && Less(Position(s), Rank(VoteMsg(u)))
             && AtMost(Rank(VoteMsg(u)), Position(t))
    ensures Advances(s, t)
  {
  }

  lemma LogBehindMonotone(signed: seq<Message>, p: Pos, q: Pos)
    requires LogBehind(signed, p) && AtMost(p, q)
    ensures LogBehind(signed, q)
  {
  }

  /** Changes that leave chain, votes, locks and log alone. */
  predicate SameCore(s: Node, t: Node) {
    && t.chain == s.chain && t.store == s.store && t.height == s.height
    && t.prevotes == s.prevotes && t.precommits == s.precommits && t.lastCommit == s.lastCommit
    && t.lockedBlock == s.lockedBlock && t.lockedRound == s.lockedRound
    && t.signed == s.signed && t.heard == s.heard && t.failed == s.failed
    && s.ticks <= t.ticks
  }

  lemma FrameOk(g: ChainState, c: Config, s: Node, t: Node)
    requires Inv(g, c, s) && SameCore(s, t) && AtMost(Position(s), Position(t))
    requires RoundOk(t) && TicksBehind(t.ticks, t.height, t.round) && WaitsScheduled(t)
    ensures Keeps(g, c, s, t)
  {
    hide ChainOk, BallotsHeard, LogOk, MajoritiesValid, RoundOk, TicksBehind, WaitsScheduled, LogBehind, LockOk,
      LastCommitOk;
    LogBehindMonotone(s.signed, Position(s), Position(t));
    LockOkMonotone(g, s, t);
    assert LastCommitOk(t) by { LastCommitSame(s, t); }
  }

  lemma LastCommitSame(s: Node, t: Node)
    requires LastCommitOk(s) && t.chain == s.chain && t.lastCommit == s.lastCommit && s.heard <= t.heard
    ensures LastCommitOk(t)
  {
  }

  lemma Facts(g: ChainState, c: Config, s: Node)
    requires Inv(g, c, s)
    ensures RoundOk(s) && TicksBehind(s.ticks, s.height, s.round) && WaitsScheduled(s)
            && s.chain.validators == g.validators
    ensures s.height == s.chain.lastBlockHeight + 1 && s.chain.initialHeight == 1
    ensures LogBehind(s.signed, Position(s)) && LockOk(g, s) && LastCommitOk(s)
  {
    StateAfterShape(g, Tip(s.store));
  }

  /** Moving on to PREVOTE or PRECOMMIT of the same round, without signing. */
  lemma StepUpOk(g: ChainState, c: Config, s: Node, step: int)
    requires Inv(g, c, s) && s.step < step && step in {PREVOTE, PRECOMMIT}
    ensures Keeps(g, c, s, s.(step := step))
  {
    hide Inv, Moves;
    Facts(g, c, s);
    FrameOk(g, c, s, s.(step := step));
  }

  lemma SignsOk(g: ChainState, c: Config, s: Node, u: Vote, step: int)
    requires Inv(g, c, s) && VoteOk(g, c, s.heard, u)
    requires u.height == s.height && u.round == s.round
    requires s.step < step && step == (if u.kind == Prevote then PREVOTE else PRECOMMIT)
    requires u.kind == Prevote && s.lockedBlock.Some? ==> u.value == HashOf(s.lockedBlock.value)
    requires u.kind == Precommit && u.value != ZeroHash ==> HashesTo(s.lockedBlock, u.value) && s.lockedRound == s.round
    ensures Keeps(g, c, s, s.(step := step, signed := s.signed + [VoteMsg(u)]))
  {
    hide ChainOk, BallotsHeard, MajoritiesValid;
    var t1 := s.(step := step);
    var t := t1.(signed := s.signed + [VoteMsg(u)]);
    StepUpOk(g, c, s, step);
    LogAppends(g, c, s, u);
    AdvancesBySigning(s, t, u);
    forall v | PrecommittedAt(t.signed, t.height, v)
      ensures HoldsLock(t.lockedBlock, t.lockedRound, v)
              || Unlocks(g.validators, t.heard, t.height, v.round, t.round, v.value)
    {
      assert v == u || PrecommittedAt(t1.signed, t1.height, v);
    }
  }

  lemma SignPrevoteOk(g: ChainState, c: Config, e: Env, s: Node, value: Hash)
    requires Inv(g, c, s) && s.step < PREVOTE
    requires value == ZeroHash || Proper(g, s.heard, s.height, value)
    requires s.lockedBlock.Some? ==> value == HashOf(s.lockedBlock.value)
    ensures Keeps(g, c, s, SignAddVote(c, e, s, Prevote, value).(step := PREVOTE))
  {
    hide Inv, Moves;
    if NewVote(c, e, s, Prevote, value) == [] {
      assert s.signed + [] == s.signed;
      StepUpOk(g, c, s, PREVOTE);
    } else {
      SignsOk(g, c, s, Vote(Prevote, s.height, s.round, value, c.key.value,
                             e.voteTime(Prevote, s.height, s.round).value), PREVOTE);
    }
  }

  lemma SignPrecommitOk(g: ChainState, c: Config, e: Env, s: Node, value: Hash)
    requires Inv(g, c, s) && s.step < PRECOMMIT
    requires value != ZeroHash ==>
      PrevoteMajority(s, s.round) == Some(value) && HashesTo(s.lockedBlock, value) && s.lockedRound == s.round
    ensures Keeps(g, c, s, SignAddVote(c, e, s, Precommit, value).(step := PRECOMMIT))
  {
    hide Inv, Moves;
    if NewVote(c, e, s, Precommit, value) == [] {
      assert s.signed + [] == s.signed;
      StepUpOk(g, c, s, PRECOMMIT);
    } else {
      if value != ZeroHash { MajorityEvidence(g, c, s, Prevote, s.round, value); }
      SignsOk(g, c, s, Vote(Precommit, s.height, s.round, value, c.key.value,
                             e.voteTime(Precommit, s.height, s.round).value), PRECOMMIT);
    }
  }
}
