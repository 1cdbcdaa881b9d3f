/** The invariants are not empty promises: a lone validator, fed its own messages, commits its first block. */
module Solo {
  import opened Quorums
  import opened Votes
  import opened Executor
  import opened Machine
  import opened Transitions
  import opened Commits

  const ME: Addr := 7
  const GENESIS := MakeGenesisChainState(1000, [Validator(ME, 1)], 1)
  const CONFIG := Config(Some(ME), false, (h: nat, r: int) => ME)
  const ENV := Env(
    (k: Kind, h: nat, r: int) => Some(if k == Prevote then 2000 else 2001), (h: nat, r: int) => true, true)

  const FIRST := Block(ZeroHash, 1, 1000, 1, ME, [], Commit(0, 0, ZeroHash, []))
  const PROPOSAL := Proposal(1, 0, -1, FIRST, ME)
  const PREVOTED := Vote(Prevote, 1, 0, HashOf(FIRST), ME, 2000)
  const PRECOMMITTED := Vote(Precommit, 1, 0, HashOf(FIRST), ME, 2001)

  function Started(): Node {
    Step(CONFIG, ENV, StartNode(GENESIS, [], {}), TimedOut(Timeout(1, 0, NEW_HEIGHT)))
  }

  function Proposed(): Node {
    Step(CONFIG, ENV, Started(), ProposalReceived(PROPOSAL))
  }

  function Polled(): Node {
    Step(CONFIG, ENV, Proposed(), VoteReceived(PREVOTED))
  }

  function Committed(): Node {
    Step(CONFIG, ENV, Polled(), VoteReceived(PRECOMMITTED))
  }

  lemma Alone(m: Ballots)
    requires m.Keys == {ME} && m[ME].value == HashOf(FIRST)
    ensures TwoThirdsMajority(GENESIS.validators, m) == Some(HashOf(FIRST))
  {
    var vals := [Validator(ME, 1)];
    assert ME in VotersFor(m, HashOf(FIRST));
    assert vals[1..] == [] && Power(vals, VotersFor(m, HashOf(FIRST))) == 1 && Total(vals) == 1;
    MajorityIsQuorum(vals, m, HashOf(FIRST));
  }

  lemma Nobody(r: int)
    ensures TwoThirdsMajority(GENESIS.validators, VotesAt(map[], r)) == None
  {
    forall x ensures TwoThirdsMajority(GENESIS.validators, VotesAt(map[], r)) != Some(x) {
      NoMajorityOfNone(GENESIS.validators, r, x);
    }
    if TwoThirdsMajority(GENESIS.validators, VotesAt(map[], r)).Some? {
      NoMajorityOfNone(GENESIS.validators, r, TwoThirdsMajority(GENESIS.validators, VotesAt(map[], r)).value);
    }
  }

  lemma FirstIsValid()
    ensures ValidateBlock(GENESIS, FIRST).Valid? && HasAddress(GENESIS.validators, ME)
  {
    assert GENESIS.validators[0].addr == ME;
  }

  predicate AtRound0(s: Node, step: int) {
    && s.chain == GENESIS && s.store == [] && s.height == 1 && s.round == 0 && s.step == step
    && s.commitRound == -1 && s.trackedRound == 1 && !s.triggeredTimeoutPrecommit && !s.failed
    && s.lastCommit == None
  }

  lemma StartedIs()
    ensures AtRound0(Started(), PROPOSE)
    ensures Started().signed == [ProposalMsg(PROPOSAL)] && Started().proposal == None && Started().lockedBlock == None
    ensures Started().prevotes == map[] && Started().precommits == map[] && Started().validRound == -1
  {
    FirstIsValid();
    hide HasAddress, TwoThirdsMajority, ValidateBlock;
  }

  lemma ProposedIs()
    ensures AtRound0(Proposed(), PREVOTE)
    ensures Proposed().signed == [ProposalMsg(PROPOSAL), VoteMsg(PREVOTED)]
    ensures Proposed().proposal == Some(PROPOSAL) && Proposed().proposalBlock == Some(FIRST)
            && Proposed().lockedBlock == None
    ensures Proposed().prevotes == map[] && Proposed().precommits == map[] && Proposed().validRound == -1
  {
    StartedIs();
    FirstIsValid();
    Nobody(0);
    hide HasAddress, TwoThirdsMajority, ValidateBlock, Started;
  }

  lemma PrecommitsFirst(s: Node)
    requires AtRound0(s, PREVOTE) && PrevoteMajority(s, 0) == Some(HashOf(FIRST))
    requires s.proposalBlock == Some(FIRST) && s.lockedBlock == None
    ensures EnterPrecommit(CONFIG, ENV, s, 1, 0) ==
      s.(lockedRound := 0, lockedBlock := Some(FIRST), signed := s.signed + [VoteMsg(PRECOMMITTED)], step := PRECOMMIT)
  {
    POLInfoFinds(GENESIS.validators, s.prevotes, 1, 0);
    FirstIsValid();
    hide HasAddress, TwoThirdsMajority, ValidateBlock, POLInfo;
  }

  /** The validator's own vote is accepted, and makes a majority by itself. */
  lemma Recorded(s: Node, v: Vote)
    requires v == PREVOTED || v == PRECOMMITTED
    requires s.chain == GENESIS && s.height == 1 && !s.failed
    requires (if v.kind == Prevote then s.prevotes else s.precommits) == map[]
    ensures var t := Record(s, v);
      && AddVote(CONFIG, ENV, s, v) ==
           (if v.kind == Prevote then AfterPrevote(CONFIG, ENV, t, 0) else AfterPrecommit(CONFIG, ENV, t, 0))
      && (if v.kind == Prevote then PrevoteMajority(t, 0) else PrecommitMajority(t, 0)) == Some(HashOf(FIRST))
  {
    FirstIsValid();
    var t := Record(s, v);
    var m := VotesAt(if v.kind == Prevote then t.prevotes else t.precommits, 0);
    assert m == map[ME := Ballot(v.value, v.timeMs)];
    Alone(m);
    hide HasAddress, TwoThirdsMajority, AfterPrevote, AfterPrecommit, AddLatePrecommit;
  }

  lemma PolledIs()
    ensures AtRound0(Polled(), PRECOMMIT)
    ensures Polled().signed == [ProposalMsg(PROPOSAL), VoteMsg(PREVOTED), VoteMsg(PRECOMMITTED)]
    ensures Polled().proposalBlock == Some(FIRST) && Polled().lockedBlock == Some(FIRST) && Polled().precommits == map[]
  {
    ProposedIs();
    Recorded(Proposed(), PREVOTED);
    hide Proposed, AddVote, TwoThirdsMajority, EnterPrecommit, ValidateBlock;
    var s := Record(Proposed(), PREVOTED);
    PrecommitsFirst(FollowPolka(s, 0, HashOf(FIRST)));
  }

  lemma FinalizesFirst(s: Node)
    requires AtRound0(s.(step := PRECOMMIT, commitRound := -1), PRECOMMIT) && s.step == COMMIT && s.commitRound == 0
    requires PrecommitMajority(s, 0) == Some(HashOf(FIRST)) && s.proposalBlock == Some(FIRST)
    ensures var t := FinalizeCommit(s, 1);
      |t.store| == 1 && t.store[0].block == FIRST && t.height == 2 && !t.failed && t.signed == s.signed
  {
    FirstIsValid();
    hide HasAddress, TwoThirdsMajority, ValidateBlock, MakeCommit;
  }

  lemma CommitsFirst(s: Node)
    requires AtRound0(s, PRECOMMIT) && PrecommitMajority(s, 0) == Some(HashOf(FIRST)) && s.lockedBlock == Some(FIRST)
    ensures var t := EnterCommit(s, 1, 0);
      |t.store| == 1 && t.store[0].block == FIRST && t.height == 2 && !t.failed && t.signed == s.signed
  {
    hide TwoThirdsMajority, FinalizeCommit;
    FinalizesFirst(s.(proposalBlock := Some(FIRST), step := COMMIT, commitRound := 0));
  }

  /** Started, proposed, polled, committed: the store holds the block and the machine is at height 2. */
  lemma LoneValidatorCommits()
    ensures |Committed().store| == 1 && Committed().store[0].block == FIRST
    ensures Committed().height == 2 && !Committed().failed
    ensures Committed().signed == [ProposalMsg(PROPOSAL), VoteMsg(PREVOTED), VoteMsg(PRECOMMITTED)]
  {
    PolledIs();
    Recorded(Polled(), PRECOMMITTED);
    hide Polled, AddVote, TwoThirdsMajority, HasAll, EnterCommit, ValidateBlock;
    CommitsFirst(Record(Polled(), PRECOMMITTED));
  }
}
