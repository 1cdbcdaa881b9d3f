/**
  The consensus state machine as a function of its state: one function per Go function, with the same
  guards, the same order of effects and the deferred updates in place.  `ConsensusState` in
  ConsensusState.dfy runs these steps in place and is proved to compute exactly these functions.

  Three fields only record what happened: `signed` (everything this process signed, in order), `ticks`
  (every timeout it scheduled, in order) and `heard` (every vote or commit signature it accepted).
*/
module Machine {
  import opened Quorums
  import opened Votes
  import opened Executor

  // Ordered steps of a round
  const NEW_HEIGHT := 1
  const NEW_ROUND := 2
  const PROPOSE := 3
  const PREVOTE := 4
  const PREVOTE_WAIT := 5
  const PRECOMMIT := 6
  const PRECOMMIT_WAIT := 7
  const COMMIT := 8

  datatype Timeout = Timeout(height: nat, round: int, step: int)

  datatype Message = VoteMsg(vote: Vote) | ProposalMsg(proposal: Proposal)

  datatype Stored = Stored(block: Block, commit: Commit)

  datatype Node = Node(
    chain: ChainState,
    store: seq<Stored>,
    height: nat,
    round: int,
    step: int,
    proposal: Option<Proposal>,
    proposalBlock: Option<Block>,
    lockedRound: int,
    lockedBlock: Option<Block>,
    validRound: int,
    validBlock: Option<Block>,
    prevotes: map<int, Ballots>,
    precommits: map<int, Ballots>,
    trackedRound: int,
    commitRound: int,
    lastCommit: Option<VoteSet>,
    triggeredTimeoutPrecommit: bool,
    failed: bool,
    signed: seq<Message>,
    ticks: seq<Timeout>,
    heard: set<Vote>)

  /** `key`: the address of the private validator, if the node has one; `proposer`: whom GetProposer names. */
  datatype Config = Config(key: Option<Addr>, skipTimeoutCommit: bool, proposer: (nat, int) -> Addr)

  /**
    What the outside decides during one event: at what time each vote is signed, if signing it works, whether
    signing each proposal works, and whether the vote set accepts.
  */
  datatype Env = Env(
    voteTime: (Kind, nat, int) -> Option<nat>,
    signsProposal: (nat, int) -> bool,
    accepts: bool)

  datatype Event =
    | ProposalReceived(proposal: Proposal)
    | VoteReceived(vote: Vote)
    | TimedOut(timeout: Timeout)
    | BlockReceived(full: FullBlock)

  // ---- Reading the votes ----

  function VotesAt(m: map<int, Ballots>, r: int): Ballots {
    if r in m then m[r] else map[]
  }

  function PrevoteMajority(s: Node, r: int): Option<Hash> {
    TwoThirdsMajority(s.chain.validators, VotesAt(s.prevotes, r))
  }

  predicate PrevotesAny(s: Node, r: int) {
    HasTwoThirdsAny(s.chain.validators, VotesAt(s.prevotes, r))
  }

  function PrecommitMajority(s: Node, r: int): Option<Hash> {
    TwoThirdsMajority(s.chain.validators, VotesAt(s.precommits, r))
  }

  predicate PrecommitsAny(s: Node, r: int) {
    HasTwoThirdsAny(s.chain.validators, VotesAt(s.precommits, r))
  }

  /** The highest tracked round with a prevote majority, -1 if there is none. */
  function POLInfo(vals: ValidatorSet, prevotes: map<int, Ballots>, r: int): int
    decreases if r < 0 then 0 else r + 1
  {
    if r < 0 then -1
    else if HasTwoThirdsMajority(vals, VotesAt(prevotes, r)) then r
    else POLInfo(vals, prevotes, r - 1)
  }

  // ---- Signing, scheduling, failing ----

  /** A panic: the receive routine stops and the node takes no further step. */
  function Panic(s: Node): Node {
    s.(failed := true)
  }

  function ScheduleTimeout(s: Node, t: Timeout): Node {
    s.(ticks := s.ticks + [t])
  }

  predicate CanSign(c: Config, s: Node) {
    c.key.Some? && HasAddress(s.chain.validators, c.key.value)
  }

  /** The vote signed, if the node can sign, stamped with the machine's own height and round. */
  function NewVote(c: Config, e: Env, s: Node, kind: Kind, value: Hash): seq<Message> {
    var time := e.voteTime(kind, s.height, s.round);
    if CanSign(c, s) && time.Some? && s.round >= 0
    then [VoteMsg(Vote(kind, s.height, s.round, value, c.key.value, time.value))] else []
  }

  function SignAddVote(c: Config, e: Env, s: Node, kind: Kind, value: Hash): Node {
    s.(signed := s.signed + NewVote(c, e, s, kind, value))
  }

  // ---- State transitions ----

  /** What doPrevote votes for: the locked block, else the proposal block if it is valid, else nil. */
  function PrevoteValue(s: Node): Hash {
    if s.lockedBlock.Some? then HashOf(s.lockedBlock.value)
    else if s.proposalBlock.None? then ZeroHash
    else if ValidateBlock(s.chain, s.proposalBlock.value).Invalid? then ZeroHash
    else HashOf(s.proposalBlock.value)
  }

  function DoPrevote(c: Config, e: Env, s: Node): Node {
    SignAddVote(c, e, s, Prevote, PrevoteValue(s))
  }

  function EnterPrevote(c: Config, e: Env, s: Node, height: nat, round: int): Node {
    if s.failed || s.height != height || round < s.round || (s.round == round && PREVOTE <= s.step) then s
    else DoPrevote(c, e, s).(round := round, step := PREVOTE)
  }

  function EnterPrevoteWait(s: Node, height: nat, round: int): Node {
    if s.failed || s.height != height || round < s.round || (s.round == round && PREVOTE_WAIT <= s.step) then s
    else if !PrevotesAny(s, round) then Panic(s)
    else ScheduleTimeout(s, Timeout(height, round, PREVOTE_WAIT)).(round := round, step := PREVOTE_WAIT)
  }

  function Unlock(s: Node): Node {
    s.(lockedRound := -1, lockedBlock := None)
  }

  /** What enterPrecommit does about the lock, and what it precommits. */
  datatype Decision = Invalidated | Decision(lockedRound: int, lockedBlock: Option<Block>, value: Hash)

  function DecidePrecommit(s: Node, round: int): Decision {
    var polka := PrevoteMajority(s, round);
    if polka.None? then Decision(s.lockedRound, s.lockedBlock, ZeroHash)
    else if POLInfo(s.chain.validators, s.prevotes, s.trackedRound) < round then Invalidated
    else if polka.value == ZeroHash then Decision(-1, None, ZeroHash)
    else if HashesTo(s.lockedBlock, polka.value) then Decision(round, s.lockedBlock, polka.value)
    else if HashesTo(s.proposalBlock, polka.value) then
      if ValidateBlock(s.chain, s.proposalBlock.value).Invalid? then Invalidated
      else Decision(round, s.proposalBlock, polka.value)
    else Decision(-1, None, ZeroHash)
  }

  function EnterPrecommit(c: Config, e: Env, s: Node, height: nat, round: int): Node {
    if s.failed || s.height != height || round < s.round || (s.round == round && PRECOMMIT <= s.step) then s
    else
      match DecidePrecommit(s, round)
      case Invalidated => Panic(s)
      case Decision(lockedRound, lockedBlock, value) =>
        SignAddVote(c, e, s.(lockedRound := lockedRound, lockedBlock := lockedBlock), Precommit, value)
          .(round := round, step := PRECOMMIT)
  }

  function EnterPrecommitWait(s: Node, height: nat, round: int): Node {
    if s.failed || s.height != height || round < s.round || (s.round == round && s.triggeredTimeoutPrecommit) then s
    else if !PrecommitsAny(s, round) then Panic(s)
    else ScheduleTimeout(s, Timeout(height, round, PRECOMMIT_WAIT)).(triggeredTimeoutPrecommit := true)
  }

  predicate IsProposalComplete(s: Node) {
    && s.proposal.Some? && s.proposalBlock.Some?
    && (s.proposal.value.polRound < 0 || PrevoteMajority(s, s.proposal.value.polRound).Some?)
  }

  /** The commit to put in a new block: empty at the initial height, else made from LastCommit. */
  function ProposalCommit(s: Node): Option<Commit> {
    if s.height == s.chain.initialHeight then Some(Commit(0, 0, ZeroHash, []))
    else if s.lastCommit.Some? && HasTwoThirdsMajority(s.chain.lastValidators, s.lastCommit.value.ballots) then
      Some(MakeCommit(s.chain.lastValidators, s.lastCommit.value))
    else None
  }

  function CreateProposalBlock(s: Node, proposer: Addr): Option<Block> {
    match ProposalCommit(s)
    case None => None
    case Some(commit) => Some(MakeBlock(s.chain, s.height, commit, proposer))
  }

  function NewProposal(c: Config, e: Env, s: Node, height: nat, round: int): seq<Message> {
    if !CanSign(c, s) || c.proposer(height, round) != c.key.value then []
    else
      var block := if s.validBlock.Some? then s.validBlock else CreateProposalBlock(s, c.key.value);
      if block.None? || !e.signsProposal(height, round) then []
      else [ProposalMsg(Proposal(height, round, s.validRound, block.value, c.key.value))]
  }

  /** If it is the node's turn, sign a proposal for the valid block, or for a new one. */
  function DecideProposal(c: Config, e: Env, s: Node, height: nat, round: int): Node {
    s.(signed := s.signed + NewProposal(c, e, s, height, round))
  }

  function EnterPropose(c: Config, e: Env, s: Node, height: nat, round: int): Node {
    if s.failed || s.height != height || round < s.round || (s.round == round && PROPOSE <= s.step) then s
    else
      var s1 := ScheduleTimeout(s, Timeout(height, round, PROPOSE));
      var s2 := DecideProposal(c, e, s1, height, round).(round := round, step := PROPOSE);
      if IsProposalComplete(s2) then EnterPrevote(c, e, s2, height, s2.round) else s2
  }

  /** A proposal already received for round 0 is kept. */
  function StartRound(s: Node, round: int): Node {
    s.(round := round, step := NEW_ROUND,
       proposal := if round == 0 then s.proposal else None,
       proposalBlock := if round == 0 then s.proposalBlock else None,
       trackedRound := round + 1, triggeredTimeoutPrecommit := false)
  }

  predicate EntersNewRound(s: Node, height: nat, round: int) {
    !(s.failed || s.height != height || round < s.round || (s.round == round && s.step != NEW_HEIGHT))
  }

  function EnterNewRound(c: Config, e: Env, s: Node, height: nat, round: int): Node {
    if !EntersNewRound(s, height, round) then s
    else EnterPropose(c, e, StartRound(s, round), height, round)
  }

  // ---- Committing ----

  /** The LastCommit for the next height; None where updateToState panics. */
  function NextLastCommit(s: Node): Option<VoteSet> {
    if s.commitRound > -1 then
      if PrecommitMajority(s, s.commitRound).None? then None
      else Some(VoteSet(s.height, s.commitRound, VotesAt(s.precommits, s.commitRound)))
    else s.lastCommit
  }

  function ResetForHeight(s: Node, st: ChainState, lastCommit: Option<VoteSet>): Node {
    s.(chain := st,
       height := if st.lastBlockHeight == 0 then st.initialHeight else st.lastBlockHeight + 1,
       round := 0, step := NEW_HEIGHT,
       proposal := None, proposalBlock := None,
       lockedRound := -1, lockedBlock := None, validRound := -1, validBlock := None,
       prevotes := map[], precommits := map[], trackedRound := 0,
       commitRound := -1, lastCommit := lastCommit, triggeredTimeoutPrecommit := false)
  }

  function UpdateToState(s: Node, st: ChainState): Node {
    if s.failed then s
    else if s.commitRound > -1 && 0 < s.height && s.height != st.lastBlockHeight then Panic(s)
    else if s.chain.lastBlockHeight > 0 && s.chain.lastBlockHeight + 1 != s.height then Panic(s)
    else if s.chain.lastBlockHeight > 0 && s.height == s.chain.initialHeight then Panic(s)
    else if st.lastBlockHeight <= s.chain.lastBlockHeight then s
    else if NextLastCommit(s).None? then Panic(s)
    else ResetForHeight(s, st, NextLastCommit(s))
  }

  /** blockStore.SaveBlock guarded as both commit paths guard it; saving a non-contiguous block panics. */
  function SaveBlock(s: Node, b: Block, commit: Commit): Node {
    if s.failed || |s.store| >= b.number then s
    else if b.number != |s.store| + 1 then Panic(s)
    else s.(store := s.store + [Stored(b, commit)])
  }

  function ScheduleRound0(s: Node): Node {
    if s.failed then s else ScheduleTimeout(s, Timeout(s.height, 0, NEW_HEIGHT))
  }

  function FinalizeCommit(s: Node, height: nat): Node {
    if s.failed || s.height != height || s.step != COMMIT then s
    else
      var id := PrecommitMajority(s, s.commitRound);
      if id.None? || !HashesTo(s.proposalBlock, id.value) then Panic(s)
      else
        var block := s.proposalBlock.value;
        if ValidateBlock(s.chain, block).Invalid? then Panic(s)
        else
          var seen := MakeCommit(s.chain.validators,
            VoteSet(s.height, s.commitRound, VotesAt(s.precommits, s.commitRound)));
          var s1 := SaveBlock(s, block, seen);
          ScheduleRound0(UpdateToState(s1, UpdateState(s1.chain, block)))
  }

  function TryFinalizeCommit(s: Node, height: nat): Node {
    if s.failed then s
    else if s.height != height then Panic(s)
    else
      var id := PrecommitMajority(s, s.commitRound);
      if id.None? || id.value == ZeroHash || !HashesTo(s.proposalBlock, id.value) then s
      else FinalizeCommit(s, height)
  }

  /** The block being committed, if it is the locked one or the proposed one. */
  function CommitBlock(s: Node, id: Hash): Option<Block> {
    if HashesTo(s.lockedBlock, id) then s.lockedBlock
    else if HashesTo(s.proposalBlock, id) then s.proposalBlock
    else None
  }

  function EnterCommit(s: Node, height: nat, commitRound: int): Node {
    if s.failed || s.height != height || COMMIT <= s.step then s
    else
      var id := PrecommitMajority(s, commitRound);
      if id.None? then Panic(s)
      else
        TryFinalizeCommit(
          s.(proposalBlock := CommitBlock(s, id.value), step := COMMIT, commitRound := commitRound), height)
  }

  /** The fast path for a block that arrives with its commit. */
  function ProcessCommittedBlock(c: Config, e: Env, s: Node, full: FullBlock): Node {
    var block := full.block;
    if s.failed || block.number != s.height then s
    else if ValidateBlock(s.chain, block).Invalid? then s
    else if !VerifyCommit(s.chain.validators, HashOf(block), block.number, full.commit) then s
    else
      var s1 := s.(step := COMMIT, commitRound := -1, lastCommit := Some(CommitToVoteSet(full.commit)),
                   heard := s.heard + CommitVotes(full.commit));
      var s2 := SaveBlock(s1, block, full.commit);
      var s3 := UpdateToState(s2, UpdateState(s2.chain, block));
      if s3.failed then s3
      else if c.skipTimeoutCommit && s3.lastCommit.Some?
        && HasAll(s3.chain.validators, s3.lastCommit.value.ballots) then
        EnterNewRound(c, e, s3, s3.height, 0)
      else ScheduleRound0(s3)
  }

  // ---- Messages ----

  /** Takes the proposal, and makes its block the valid one if a polka for it is already there. */
  function AcceptProposal(s: Node, p: Proposal): Node {
    var polka := PrevoteMajority(s, s.round) == Some(HashOf(p.block)) && s.validRound < s.round;
    s.(proposal := Some(p), proposalBlock := Some(p.block),
       validRound := if polka then s.round else s.validRound,
       validBlock := if polka then Some(p.block) else s.validBlock)
  }

  predicate ProposalApplies(c: Config, s: Node, p: Proposal) {
    && s.proposal.None?
    && p.height == s.height && p.round == s.round
    && p.polRound >= -1 && (p.polRound < 0 || p.polRound < p.round)
    && p.signer == c.proposer(s.height, s.round)
  }

  function SetProposal(c: Config, e: Env, s: Node, p: Proposal): Node {
    if s.failed || !ProposalApplies(c, s, p) then s
    else
      var hasTwoThirds := PrevoteMajority(s, s.round).Some?;
      var s1 := AcceptProposal(s, p);
      if s1.step <= PROPOSE && IsProposalComplete(s1) then
        var s2 := EnterPrevote(c, e, s1, s1.height, s1.round);
        if hasTwoThirds then EnterPrecommit(c, e, s2, s2.height, s2.round) else s2
      else if s1.step == COMMIT then TryFinalizeCommit(s1, s1.height)
      else s1
  }

  /** A vote set takes at most one vote per validator, and may refuse any. */
  predicate BallotsAccept(e: Env, vals: ValidatorSet, m: Ballots, v: Vote) {
    e.accepts && v.validator !in m && HasAddress(vals, v.validator)
  }

  predicate LastCommitAccepts(e: Env, s: Node, v: Vote) {
    && s.lastCommit.Some? && v.kind == Precommit
    && v.height == s.lastCommit.value.height && v.round == s.lastCommit.value.round
    && BallotsAccept(e, s.chain.lastValidators, s.lastCommit.value.ballots, v)
  }

  function AddLatePrecommit(c: Config, e: Env, s: Node, v: Vote): Node {
    if s.step != NEW_HEIGHT || !LastCommitAccepts(e, s, v) then s
    else
      var last := s.lastCommit.value;
      var s1 := s.(lastCommit := Some(last.(ballots := last.ballots[v.validator := Ballot(v.value, v.timeMs)])),
                   heard := s.heard + {v});
      if c.skipTimeoutCommit && HasAll(s1.chain.lastValidators, s1.lastCommit.value.ballots)
      then EnterNewRound(c, e, s1, s1.height, 0) else s1
  }

  predicate VotesAccept(e: Env, s: Node, v: Vote) {
    BallotsAccept(e, s.chain.validators, VotesAt(if v.kind == Prevote then s.prevotes else s.precommits, v.round), v)
  }

  function Record(s: Node, v: Vote): Node {
    var ballot := Ballot(v.value, v.timeMs);
    match v.kind
    case Prevote =>
      s.(prevotes := s.prevotes[v.round := VotesAt(s.prevotes, v.round)[v.validator := ballot]], heard := s.heard + {v})
    case Precommit =>
      s.(precommits := s.precommits[v.round := VotesAt(s.precommits, v.round)[v.validator := ballot]],
        heard := s.heard + {v})
  }

  /** A polka for `x` in round `r` releases an older lock on anything else. */
  function UnlockOnPolka(s: Node, r: int, x: Hash): Node {
    var newer := s.lockedBlock.Some? && s.lockedRound < r && r <= s.round && !HashesTo(s.lockedBlock, x);
    s.(lockedRound := if newer then -1 else s.lockedRound, lockedBlock := if newer then None else s.lockedBlock)
  }

  /** A polka of the current round makes the proposal block the valid block, or drops it as the wrong block. */
  function UpdateValid(s: Node, r: int, x: Hash): Node {
    var current := x != ZeroHash && s.validRound < r && r == s.round;
    var known := current && HashesTo(s.proposalBlock, x);
    s.(validRound := if known then r else s.validRound,
       validBlock := if known then s.proposalBlock else s.validBlock,
       proposalBlock := if current && !known then None else s.proposalBlock)
  }

  function FollowPolka(s: Node, r: int, x: Hash): Node {
    UpdateValid(UnlockOnPolka(s, r, x), r, x)
  }

  function AfterPrevote(c: Config, e: Env, s: Node, r: int): Node {
    var polka := PrevoteMajority(s, r);
    var s1 := if polka.Some? then FollowPolka(s, r, polka.value) else s;
    if s1.round < r && PrevotesAny(s1, r) then EnterNewRound(c, e, s1, s1.height, r)
    else if s1.round == r && PREVOTE <= s1.step then
      if polka.Some? && (IsProposalComplete(s1) || polka.value == ZeroHash) then EnterPrecommit(c, e, s1, s1.height, r)
      else if PrevotesAny(s1, r) then EnterPrevoteWait(s1, s1.height, r)
      else s1
    else if s1.proposal.Some? && 0 <= s1.proposal.value.polRound == r && IsProposalComplete(s1) then
      EnterPrevote(c, e, s1, s1.height, s1.round)
    else s1
  }

  function AfterPrecommit(c: Config, e: Env, s: Node, r: int): Node {
    var id := PrecommitMajority(s, r);
    if id.Some? then
      var s1 := EnterNewRound(c, e, s, s.height, r);
      var s2 := EnterPrecommit(c, e, s1, s.height, r);
      if id.value != ZeroHash then
        var s3 := EnterCommit(s2, s.height, r);
        if c.skipTimeoutCommit && HasAll(s.chain.validators, VotesAt(s.precommits, r))
        then EnterNewRound(c, e, s3, s3.height, 0) else s3
      else EnterPrecommitWait(s2, s.height, r)
    else if s.round <= r && PrecommitsAny(s, r) then
      EnterPrecommitWait(EnterNewRound(c, e, s, s.height, r), s.height, r)
    else s
  }

  function AddVote(c: Config, e: Env, s: Node, v: Vote): Node {
    if s.failed then s
    else if v.height + 1 == s.height && v.kind == Precommit then AddLatePrecommit(c, e, s, v)
    else if v.height != s.height || !VotesAccept(e, s, v) then s
    else if v.kind == Prevote then AfterPrevote(c, e, Record(s, v), v.round)
    else AfterPrecommit(c, e, Record(s, v), v.round)
  }

  predicate TimeoutApplies(s: Node, t: Timeout) {
    t.height == s.height && t.round >= s.round && (t.round == s.round ==> t.step >= s.step)
  }

  function HandleTimeout(c: Config, e: Env, s: Node, t: Timeout): Node {
    if s.failed || !TimeoutApplies(s, t) then s
    else if t.step == NEW_HEIGHT then EnterNewRound(c, e, s, t.height, 0)
    else if t.step == NEW_ROUND then EnterPropose(c, e, s, t.height, 0)
    else if t.step == PROPOSE then EnterPrevote(c, e, s, t.height, t.round)
    else if t.step == PREVOTE_WAIT then EnterPrecommit(c, e, s, t.height, t.round)
    else if t.step == PRECOMMIT_WAIT then
      EnterNewRound(c, e, EnterPrecommit(c, e, s, t.height, t.round), t.height, t.round + 1)
    else Panic(s)
  }

  function Step(c: Config, e: Env, s: Node, ev: Event): Node {
    match ev
    case ProposalReceived(p) => SetProposal(c, e, s, p)
    case VoteReceived(v) => AddVote(c, e, s, v)
    case TimedOut(t) => HandleTimeout(c, e, s, t)
    case BlockReceived(full) => ProcessCommittedBlock(c, e, s, full)
  }

  // ---- Starting ----

  /** reconstructLastCommit: the commit stored with the last block, None where the code panics. */
  function ReconstructLastCommit(st: ChainState, store: seq<Stored>): Option<VoteSet> {
    if 0 < st.lastBlockHeight <= |store| then Some(CommitToVoteSet(store[st.lastBlockHeight - 1].commit)) else None
  }

  /** NewConsensusState, on the chain a fresh or synced store holds. */
  function NewNode(st: ChainState, store: seq<Stored>, heard: set<Vote>): Node {
    var lastCommit := ReconstructLastCommit(st, store);
    var blank := Node(st, store, 0, 0, NEW_HEIGHT, None, None, -1, None, -1, None, map[], map[], 0, -1,
                      None, false, st.lastBlockHeight > 0 && lastCommit.None?, [], [], heard);
    ResetForHeight(blank, st, lastCommit)
  }

  /** NewConsensusState followed by OnStart. */
  function StartNode(st: ChainState, store: seq<Stored>, heard: set<Vote>): Node {
    ScheduleRound0(NewNode(st, store, heard))
  }
}
