/**
  What every state of one node satisfies, whatever messages it is sent, and the relation every step keeps:
  the position (height, round, step) never goes back, and everything newly signed lies above the old position.
*/
module NodeInvariant {
  import opened Quorums
  import opened Votes
  import opened Executor
  import opened Machine

  // ---- Positions ----

  datatype Pos = Pos(height: int, round: int, step: int)

  predicate Less(p: Pos, q: Pos) {
    p.height < q.height || (p.height == q.height && (p.round < q.round || (p.round == q.round && p.step < q.step)))
  }

  predicate AtMost(p: Pos, q: Pos) {
    p == q || Less(p, q)
  }

  function Position(s: Node): Pos {
    Pos(s.height, s.round, s.step)
  }

  /** The step of a round in which a message is signed. */
  function Rank(m: Message): Pos {
    match m
    case VoteMsg(v) => Pos(v.height, v.round, if v.kind == Prevote then PREVOTE else PRECOMMIT)
    case ProposalMsg(p) => Pos(p.height, p.round, PROPOSE)
  }

  ghost predicate Advances(s: Node, t: Node) {
    && AtMost(Position(s), Position(t))
    && s.signed <= t.signed && s.ticks <= t.ticks && s.heard <= t.heard && s.store <= t.store
    && (forall i :: |s.signed| <= i < |t.signed| ==>
          Less(Position(s), Rank(t.signed[i])) && AtMost(Rank(t.signed[i]), Position(t)))
    && (forall i, j :: |s.signed| <= i < j < |t.signed| ==> Less(Rank(t.signed[i]), Rank(t.signed[j])))
  }

  lemma AdvancesCompose(s: Node, t: Node, u: Node)
    requires Advances(s, t) && Advances(t, u)
    ensures Advances(s, u)
  {
    forall i | |s.signed| <= i < |u.signed|
      ensures Less(Position(s), Rank(u.signed[i])) && AtMost(Rank(u.signed[i]), Position(u))
    {
      if i < |t.signed| { assert u.signed[i] == t.signed[i]; }
    }
    forall i, j | |s.signed| <= i < j < |u.signed| ensures Less(Rank(u.signed[i]), Rank(u.signed[j])) {
      if i < |t.signed| { assert u.signed[i] == t.signed[i]; }
      if j < |t.signed| { assert u.signed[j] == t.signed[j]; }
    }
  }

  // ---- The chain a node holds ----

  function Tip(store: seq<Stored>): Hash {
    if store == [] then ZeroHash else HashOf(store[|store| - 1].block)
  }

  /** Some round has more than two thirds of the power precommitting `x` at height `h`. */
  ghost predicate Decided(vals: ValidatorSet, votes: set<Vote>, h: nat, x: Hash) {
    exists r: int :: Evidence(vals, votes, Precommit, h, r, x)
  }

  ghost predicate StoredOk(g: ChainState, heard: set<Vote>, store: seq<Stored>, i: nat)
    requires i < |store|
  {
    && store[i].block.number == i + 1
    && store[i].block.parent == Tip(store[..i])
    && GoodBlock(g, store[i].block)
    && VerifyCommit(g.validators, HashOf(store[i].block), i + 1, store[i].commit)
    && CommitVotes(store[i].commit) <= heard
    && Decided(g.validators, heard, i + 1, HashOf(store[i].block))
  }

  ghost predicate ChainOk(g: ChainState, heard: set<Vote>, st: ChainState, store: seq<Stored>) {
    && st == StateAfter(g, Tip(store))
    && st.lastBlockHeight == |store|
    && forall i :: 0 <= i < |store| ==> StoredOk(g, heard, store, i)
  }

  // ---- What a node's signatures rest on ----

  /** A polka at height `h`, in a round after `lo` and up to `hi`, for something other than `x`. */
  ghost predicate Unlocks(vals: ValidatorSet, votes: set<Vote>, h: nat, lo: int, hi: int, x: Hash) {
    exists r: int, y: Hash :: lo < r <= hi && y != x && Evidence(vals, votes, Prevote, h, r, y)
  }

  /** `x` is a block that passed validation on top of the block decided at the height before. */
  ghost predicate Proper(g: ChainState, votes: set<Vote>, h: nat, x: Hash) {
    && x.HashOf? && x.block.number == h && GoodBlock(g, x.block)
    && (if h <= 1 then x.block.parent == ZeroHash
        else x.block.parent.HashOf? && Decided(g.validators, votes, h - 1, x.block.parent))
  }

  ghost predicate VoteOk(g: ChainState, c: Config, heard: set<Vote>, v: Vote) {
    && c.key == Some(v.validator)
    && (v.value != ZeroHash ==>
          if v.kind == Prevote then Proper(g, heard, v.height, v.value)
          else Evidence(g.validators, heard, Prevote, v.height, v.round, v.value))
  }

  /** Between a precommit and a later prevote for something else there is a polka that justifies unlocking. */
  ghost predicate Unlocked(g: ChainState, heard: set<Vote>, v: Vote, u: Vote) {
    (&& v.kind == Precommit && u.kind == Prevote && v.height == u.height && v.round < u.round
     && v.value != ZeroHash && u.value != v.value)
    ==> Unlocks(g.validators, heard, v.height, v.round, u.round, v.value)
  }

  ghost predicate ProposalOk(g: ChainState, heard: set<Vote>, p: Proposal) {
    && p.polRound >= -1
    && (p.polRound == -1 ==> CommitVotes(p.block.lastCommit) <= heard)
    && (p.polRound >= 0 ==>
          p.polRound < p.round && Evidence(g.validators, heard, Prevote, p.height, p.polRound, HashOf(p.block)))
  }

  /** Every message of the log is accounted for by what has been heard. */
  ghost predicate LogOk(g: ChainState, c: Config, heard: set<Vote>, signed: seq<Message>) {
    && (forall v :: VoteMsg(v) in signed ==> VoteOk(g, c, heard, v))
    && (forall p :: ProposalMsg(p) in signed ==> ProposalOk(g, heard, p))
    && (forall v, u :: VoteMsg(v) in signed && VoteMsg(u) in signed ==> Unlocked(g, heard, v, u))
  }

  predicate LogBehind(signed: seq<Message>, pos: Pos) {
    forall m :: m in signed ==> AtMost(Rank(m), pos)
  }

  predicate HoldsLock(block: Option<Block>, round: int, v: Vote) {
    HashesTo(block, v.value) && round >= v.round
  }

  /** A precommit for a block, signed at height `h`. */
  predicate PrecommittedAt(signed: seq<Message>, h: nat, v: Vote) {
    VoteMsg(v) in signed && v.kind == Precommit && v.height == h && v.value != ZeroHash
  }

  /** The last block precommitted at this height is still locked, or something newer has released it. */
  ghost predicate LockOk(g: ChainState, s: Node) {
    forall v :: PrecommittedAt(s.signed, s.height, v) ==>
      HoldsLock(s.lockedBlock, s.lockedRound, v) || Unlocks(g.validators, s.heard, s.height, v.round, s.round, v.value)
  }

  // ---- The round state ----

  predicate Backed(s: Node, block: Option<Block>, round: int) {
    && (block.None? <==> round == -1)
    && -1 <= round <= s.round
    && (block.Some? ==> PrevoteMajority(s, round) == Some(HashOf(block.value)))
  }

  /** A polka of the current round for the proposal block has already made it the valid block. */
  predicate PolkaFollowed(s: Node) {
    (&& s.step < COMMIT && s.proposalBlock.Some?
     && PrevoteMajority(s, s.round) == Some(HashOf(s.proposalBlock.value)))
    ==> s.validRound == s.round && s.validBlock == s.proposalBlock
  }

  predicate RoundOk(s: Node) {
    LocksOk(s) && PolkaFollowed(s)
  }

  predicate LocksOk(s: Node) {
    && s.height >= 1 && s.round >= 0 && NEW_HEIGHT <= s.step <= COMMIT && s.step != PRECOMMIT_WAIT
    && (s.step == NEW_HEIGHT ==> s.round == 0)
    && s.trackedRound >= s.round
    && Backed(s, s.lockedBlock, s.lockedRound)
    && Backed(s, s.validBlock, s.validRound)
    && (s.lockedBlock.Some? ==> ValidateBlock(s.chain, s.lockedBlock.value).Valid?)
    && (s.proposal.Some? ==> s.proposal.value.polRound < 0 || s.proposal.value.polRound < s.round)
    && (s.step == COMMIT ==>
          (&& s.commitRound >= 0 && PrecommitMajority(s, s.commitRound).Some?
           && PrecommitMajority(s, s.commitRound).value != ZeroHash))
  }

  ghost predicate BallotsHeard(heard: set<Vote>, h: nat, k: Kind, m: map<int, Ballots>) {
    && (forall r :: r in m ==> r >= 0)
    && (forall r, a :: r in m && a in m[r] ==> Vote(k, h, r, m[r][a].value, a, m[r][a].timeMs) in heard)
  }

  ghost predicate LastCommitOk(s: Node) {
    s.chain.lastBlockHeight > 0 ==>
      && s.lastCommit.Some? && s.lastCommit.value.height == s.chain.lastBlockHeight
      && DrawnFrom(s.heard, s.lastCommit.value)
      && TwoThirdsMajority(s.chain.validators, s.lastCommit.value.ballots) == Some(s.chain.lastBlockID)
  }

  /** Nothing is scheduled ahead of the machine. */
  predicate TicksBehind(ticks: seq<Timeout>, height: nat, round: int) {
    forall t :: t in ticks ==>
      && t.step in {NEW_HEIGHT, PROPOSE, PREVOTE_WAIT, PRECOMMIT_WAIT}
      && t.round >= 0 && (t.height < height || (t.height == height && t.round <= round))
  }

  /** Each wait of the round has its timeout scheduled. */
  predicate WaitsScheduled(s: Node) {
    && (s.step == PROPOSE ==> Timeout(s.height, s.round, PROPOSE) in s.ticks)
    && (s.step == PREVOTE_WAIT ==> Timeout(s.height, s.round, PREVOTE_WAIT) in s.ticks)
    && (s.triggeredTimeoutPrecommit ==> Timeout(s.height, s.round, PRECOMMIT_WAIT) in s.ticks)
  }

  ghost predicate Inv(g: ChainState, c: Config, s: Node) {
    && IsGenesis(g)
    && ChainOk(g, s.heard, s.chain, s.store)
    && s.height == s.chain.lastBlockHeight + 1
    && RoundOk(s)
    && BallotsHeard(s.heard, s.height, Prevote, s.prevotes)
    && BallotsHeard(s.heard, s.height, Precommit, s.precommits)
    && LogOk(g, c, s.heard, s.signed)
    && LogBehind(s.signed, Position(s))
    && LockOk(g, s)
    && LastCommitOk(s)
    && TicksBehind(s.ticks, s.height, s.round)
    && WaitsScheduled(s)
  }

  /** Between heights nothing of the new height has been taken up yet. */
  predicate Fresh(s: Node) {
    s.step == NEW_HEIGHT ==>
      s.proposal.None? && s.proposalBlock.None? && s.lockedBlock.None? && s.validRound == -1
  }

  predicate Rung(s: Node) {
    s.step == NEW_HEIGHT ==> Timeout(s.height, 0, NEW_HEIGHT) in s.ticks
  }

  /** Every majority in these votes is for nil or for a block that is valid on top of `st`. */
  ghost predicate MajoritiesValid(st: ChainState, votes: map<int, Ballots>) {
    forall r, b :: TwoThirdsMajority(st.validators, VotesAt(votes, r)) == Some(HashOf(b)) ==>
      ValidateBlock(st, b).Valid?
  }

  ghost predicate Trusts(s: Node) {
    MajoritiesValid(s.chain, s.prevotes) && MajoritiesValid(s.chain, s.precommits)
  }

  /** What every transition from `s` to `t` guarantees. */
  ghost predicate Moves(g: ChainState, c: Config, s: Node, t: Node) {
    && Inv(g, c, t)
    && Advances(s, t)
    && (Trusts(s) && !s.failed ==> Trusts(t) && !t.failed)
  }

  /** The same for a transition that hears of no new vote. */
  ghost predicate Keeps(g: ChainState, c: Config, s: Node, t: Node) {
    Moves(g, c, s, t) && t.heard == s.heard
  }

  lemma MovesCompose(g: ChainState, c: Config, s: Node, t: Node, u: Node)
    requires Moves(g, c, s, t) && Moves(g, c, t, u)
    ensures Moves(g, c, s, u)
  {
    AdvancesCompose(s, t, u);
  }

  lemma KeepsCompose(g: ChainState, c: Config, s: Node, t: Node, u: Node)
    requires Keeps(g, c, s, t) && Keeps(g, c, t, u)
    ensures Keeps(g, c, s, u)
  {
    AdvancesCompose(s, t, u);
  }
}
