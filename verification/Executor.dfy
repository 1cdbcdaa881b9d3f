/** Chain state, block validity, block making, and the state a chain of blocks leads to. */
module Executor {
  import opened Quorums
  import opened Votes
  import opened BlockTime

  type Epoch = e: nat | e > 0 witness 1

  datatype ChainState = ChainState(
    initialHeight: nat,
    lastBlockHeight: nat,
    lastBlockID: Hash,
    lastBlockTime: nat,
    validators: ValidatorSet,
    lastValidators: ValidatorSet,
    epoch: Epoch)

  function MakeGenesisChainState(genesisTimeMs: nat, vals: ValidatorSet, epoch: Epoch): ChainState {
    ChainState(1, 0, ZeroHash, genesisTimeMs, vals, [], epoch)
  }

  datatype BlockError =
    | WrongHeight | WrongParent | UnexpectedLastCommit | BadLastCommit | ValidatorChangeInEpoch
    | UnknownProposer | InconsistentTime | TimeNotIncreasing | NotMedianTime | NotGenesisTime | BelowInitialHeight

  datatype Validity = Valid | Invalid(error: BlockError)

  /** validateBlock, check by check. */
  function ValidateBlock(st: ChainState, b: Block): Validity
  {
    if st.lastBlockHeight == 0 && b.number != st.initialHeight then Invalid(WrongHeight)
    else if st.lastBlockHeight > 0 && b.number != st.lastBlockHeight + 1 then Invalid(WrongHeight)
    else if b.parent != st.lastBlockID then Invalid(WrongParent)
    else if b.number == st.initialHeight && |b.lastCommit.sigs| != 0 then Invalid(UnexpectedLastCommit)
    else if b.number != st.initialHeight &&
            (b.number == 0 || !VerifyCommit(st.lastValidators, st.lastBlockID, b.number - 1, b.lastCommit)) then
      Invalid(BadLastCommit)
    else if b.number % st.epoch != 0 && |b.nextValidators| != 0 then Invalid(ValidatorChangeInEpoch)
    else if !HasAddress(st.validators, b.coinbase) then Invalid(UnknownProposer)
    else if b.timeMs / 1000 != b.time then Invalid(InconsistentTime)
    else if b.number > st.initialHeight then
      if b.timeMs <= st.lastBlockTime then Invalid(TimeNotIncreasing)
      else if b.timeMs != MedianTime(b.lastCommit, st.lastValidators) then Invalid(NotMedianTime)
      else Valid
    else if b.number == st.initialHeight then
      if b.timeMs != st.lastBlockTime then Invalid(NotGenesisTime) else Valid
    else Invalid(BelowInitialHeight)
  }

  /** updateState as ApplyBlock calls it: the validators carry over, the old ones become LastValidators. */
  function UpdateState(st: ChainState, b: Block): ChainState {
    ChainState(st.initialHeight, b.number, HashOf(b), b.timeMs, st.validators, st.validators, st.epoch)
  }

  function MakeBlock(st: ChainState, height: nat, commit: Commit, proposer: Addr): Block {
    var timestamp := if height == st.initialHeight then st.lastBlockTime else MedianTime(commit, st.lastValidators);
    Block(st.lastBlockID, height, timestamp, timestamp / 1000, proposer, [], commit)
  }

  predicate IsGenesis(g: ChainState) {
    && g.initialHeight == 1 && g.lastBlockHeight == 0 && g.lastBlockID == ZeroHash
    && g.lastValidators == []
  }

  /** The chain state after the whole chain a hash identifies. */
  function StateAfter(g: ChainState, h: Hash): ChainState {
    match h
    case ZeroHash => g
    case HashOf(b) => UpdateState(StateAfter(g, b.parent), b)
  }

  /** Everything but height, hash and time is fixed by the genesis, because ApplyBlock never changes the validators. */
  lemma {:induction false} StateAfterShape(g: ChainState, h: Hash)
    requires IsGenesis(g)
    ensures var st := StateAfter(g, h);
      && st.lastBlockID == h && st.initialHeight == 1 && st.epoch == g.epoch && st.validators == g.validators
      && (h.ZeroHash? ==> st == g)
      && (h.HashOf? ==> st.lastBlockHeight == h.block.number && st.lastBlockTime == h.block.timeMs
                        && st.lastValidators == g.validators)
  {
    match h
    case ZeroHash =>
    case HashOf(b) => StateAfterShape(g, b.parent);
  }

  /** `b` passes validation on top of the chain its own parent hash identifies. */
  predicate GoodBlock(g: ChainState, b: Block)
  {
    ValidateBlock(StateAfter(g, b.parent), b).Valid?
  }

  /** Two nodes on the same prefix agree on the validity of every block. */
  lemma ValidOnOwnParent(g: ChainState, h: Hash, b: Block)
    requires IsGenesis(g)
    ensures ValidateBlock(StateAfter(g, h), b).Valid? <==> b.parent == h && GoodBlock(g, b)
  {
    StateAfterShape(g, h);
  }

  function NumberOf(h: Hash): nat {
    match h case ZeroHash => 0 case HashOf(b) => b.number
  }

  function TimeOf(g: ChainState, h: Hash): nat {
    match h case ZeroHash => g.lastBlockTime case HashOf(b) => b.timeMs
  }

  /**
    A block that follows its parent, in number and in time: validators change only at the end of an epoch, the
    proposer is a validator, the two time fields agree.  The first block has the genesis time and no LastCommit
    signatures; every later one a verifying LastCommit for its parent and the median time of that.
  */
  predicate WellMade(g: ChainState, b: Block) {
    && b.number == NumberOf(b.parent) + 1
    && (b.nextValidators == [] || b.number % g.epoch == 0)
    && HasAddress(g.validators, b.coinbase)
    && b.time == b.timeMs / 1000
    && (b.number == 1 ==> b.lastCommit.sigs == [] && b.timeMs == TimeOf(g, b.parent))
    && (b.number > 1 ==>
          && VerifyCommit(g.validators, b.parent, b.number - 1, b.lastCommit)
          && b.timeMs > TimeOf(g, b.parent) && b.timeMs == MedianTime(b.lastCommit, g.validators))
  }

  /** Valid blocks are exactly the well made ones. */
  lemma ValidIsWellMade(g: ChainState, b: Block)
    requires IsGenesis(g)
    ensures GoodBlock(g, b) <==> WellMade(g, b)
  {
    hide MedianTime, VerifyCommit;
    StateAfterShape(g, b.parent);
  }

  /** What validity guarantees: contiguous height, linked parent, and time growing above the initial height. */
  lemma ValidBlockExtends(st: ChainState, b: Block)
    requires st.initialHeight == 1 && ValidateBlock(st, b).Valid?
    ensures b.number == st.lastBlockHeight + 1 && b.parent == st.lastBlockID
    ensures b.number > 1 ==>
      b.timeMs > st.lastBlockTime && VerifyCommit(st.lastValidators, b.parent, b.number - 1, b.lastCommit)
    ensures b.number == 1 ==> b.timeMs == st.lastBlockTime
  {
  }

  /**
    Maker meets checker.  Given the commit the proposer holds for the last block (none at the initial
    height), the block MakeBlock builds is valid exactly when the proposer is a validator and, above
    the initial height, the median time of the commit exceeds the last block's time.
  */
  lemma MakerMeetsChecker(st: ChainState, commit: Commit, proposer: Addr)
    requires st.initialHeight == 1
    requires st.lastBlockHeight == 0 ==> commit.sigs == []
    requires st.lastBlockHeight > 0 ==> VerifyCommit(st.lastValidators, st.lastBlockID, st.lastBlockHeight, commit)
    ensures ValidateBlock(st, MakeBlock(st, st.lastBlockHeight + 1, commit, proposer)).Valid? <==>
              && HasAddress(st.validators, proposer)
              && (st.lastBlockHeight > 0 ==> MedianTime(commit, st.lastValidators) > st.lastBlockTime)
  {
  }
}
