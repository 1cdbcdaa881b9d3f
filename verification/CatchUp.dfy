/** One block of catch-up: check it against the chain state and its own commit, then apply and save it. */
module CatchUp {
  import opened Votes
  import opened Executor
  import opened Machine
  import opened NodeInvariant
  import opened Commits

  predicate Acceptable(st: ChainState, full: FullBlock) {
    && ValidateBlock(st, full.block).Valid?
    && VerifyCommit(st.validators, HashOf(full.block), full.block.number, full.commit)
  }

  /** Saving and applying an accepted block keeps the chain and store together, on the signatures of its commit. */
  lemma AcceptOk(g: ChainState, heard: set<Vote>, st: ChainState, store: seq<Stored>, full: FullBlock)
    requires IsGenesis(g) && ChainOk(g, heard, st, store) && Acceptable(st, full)
    ensures ChainOk(g, heard + CommitVotes(full.commit), UpdateState(st, full.block),
                    store + [Stored(full.block, full.commit)])
    ensures full.block.number == |store| + 1
  {
    var b := full.block;
    StateAfterShape(g, Tip(store));
    ValidBlockExtends(st, b);
    CommitIsEvidence(g.validators, HashOf(b), b.number, full.commit);
    EvidenceMonotone(g.validators, CommitVotes(full.commit), heard + CommitVotes(full.commit),
                     Precommit, b.number, full.commit.round, HashOf(b));
    StoreAppendOk(g, heard, heard + CommitVotes(full.commit), st, store, b, full.commit);
  }
}
