/** BFT time in runs: the time of every stored block is bounded by timestamps honest validators really signed. */
module HonestBlocks {
  import opened Quorums
  import opened Votes
  import opened BlockTime
  import opened HonestTime
  import opened Executor
  import opened Machine
  import opened NodeInvariant
  import opened Events
  import opened Held
  import opened Wakeup
  import opened CatchUp
  import opened Network
  import opened Agreement
  import opened Safety

  // ---- The LastCommit of every block a process holds is genuine ----

  function BlocksOf(m: Member): set<Block> {
    if m.Syncing? then Blocks(m.store) else HeldBlocks(m.process.node)
  }

  ghost predicate MemberSound(w: World, pool: set<Vote>, m: Member) {
    Sound(w, pool, BlocksOf(m)) && (m.Active? ==> Tied(m.process.node))
  }

  ghost predicate AllSound(w: World, n: Net) {
    forall id :: id in n.members ==> MemberSound(w, n.pool, n.members[id])
  }

  lemma TakeHolds(c: Config, e: Env, p: Process, i: Input)
    requires CanTake(p, i)
    ensures HoldsOnly(p.node, Take(c, e, p, i).node, Shown(i))
  {
    hide Step, HeldBlocks;
    match i
    case Deliver(ev) => StepHolds(c, e, p.node, ev);
    case DeliverTock(t) => StepHolds(c, e, p.node, TimedOut(t));
    case ReadTick => HoldsSame(p.node);
    case TimerExpires => HoldsSame(p.node);
  }

  lemma LaunchHolds(st: ChainState, store: seq<Stored>, heard: set<Vote>)
    ensures var s := Launch(st, store, heard).node; HeldBlocks(s) == Blocks(store) && Tied(s)
  {
    hide Blocks, ReconstructLastCommit;
  }

  lemma MemberStepSound(w: World, n: Net, a: Action)
    requires Enabled(w, n, a) && MemberSound(w, n.pool, n.members[a.id])
    ensures MemberSound(w, n.pool, MemberStep(w, n, a))
  {
    var m := n.members[a.id];
    hide Genuine, CommitVotes, Blocks, HeldBlocks, Acceptable, Take, CanTake, Launch, UpdateState, Shown, Brought, Tied;
    match a
    case SyncBlock(_, full) => BlocksAppend(m.store, Stored(full.block, full.commit));
    case Begin(_) => LaunchHolds(m.chain, m.store, m.heard);
    case Act(id, e, i) => TakeHolds(w.configs[id], e, m.process, i);
  }

  lemma ApplySound(w: World, n: Net, a: Action)
    requires Enabled(w, n, a) && AllSound(w, n)
    ensures AllSound(w, Apply(w, n, a))
  {
    hide MemberStep, BlocksOf, CommitVotes, Tied;
    MemberStepSound(w, n, a);
  }

  lemma {:induction false} RunSound(w: World, run: seq<Net>, actions: seq<Action>, k: nat)
    requires IsRun(w, run, actions) && k < |run|
    ensures AllSound(w, run[k])
  {
    if k == 0 {
      assert forall id :: id in run[0].members ==> BlocksOf(run[0].members[id]) == {};
    } else {
      RunSound(w, run, actions, k - 1);
      hide AllSound, Enabled, Apply;
      ApplySound(w, run[k - 1], actions[k - 1]);
    }
  }

  // ---- Nothing honest is kept from being delivered ----

  /** What a process has to offer others: the messages it signed, the blocks it stored with their commits. */
  ghost predicate Offers(m: Member, ev: Event) {
    match ev
    case VoteReceived(v) => VoteMsg(v) in m.Log()
    case ProposalReceived(p) => ProposalMsg(p) in m.Log()
    case BlockReceived(full) => Stored(full.block, full.commit) in m.Store()
    case TimedOut(_) => false
  }

  lemma ProposalsSound(w: World, n: Net, id: Addr, p: Proposal)
    requires NetInv(w, n) && AllSound(w, n) && id in n.members && ProposalMsg(p) in n.members[id].Log()
    ensures Sound(w, n.pool, {p.block})
  {
    var m := n.members[id];
    hide NoConflict, PoolOk, Wound, CommitVotes, Ordered;
    assert MemberOk(w, n.pool, id, m);
    assert MemberSound(w, n.pool, m);
    WoundProposal(w.genesis, w.configs[id], m.process, p);
    if p.polRound >= 0 {
      assert p.block in Reproposed(m.process.node.signed);
      assert p.block in BlocksOf(m);
    }
  }

  lemma StoredSound(w: World, n: Net, id: Addr, x: Stored)
    requires NetInv(w, n) && AllSound(w, n) && id in n.members && x in n.members[id].Store()
    ensures Sound(w, n.pool, {x.block}) && Genuine(w, n.pool, CommitVotes(x.commit))
  {
    var m := n.members[id];
    hide NetInv, CommitVotes, Decided, VerifyCommit, GoodBlock;
    StoredIsOk(w, n, id);
    HeardGenuine(w, n, id);
    var i :| 0 <= i < |m.Store()| && m.Store()[i] == x;
    assert StoredOk(w.genesis, m.Heard(), m.Store(), i);
    assert MemberSound(w, n.pool, m);
    assert x.block in BlocksOf(m);
  }

  lemma HeardGenuine(w: World, n: Net, id: Addr)
    requires NetInv(w, n) && id in n.members
    ensures id in w.configs && Genuine(w, n.pool, n.members[id].Heard())
    ensures forall v :: VoteMsg(v) in n.members[id].Log() ==> v in n.pool
  {
    hide NoConflict, PoolOk, Wound, ChainOk;
    assert MemberOk(w, n.pool, id, n.members[id]);
  }

  lemma OffersAreGenuine(w: World, n: Net, id: Addr, ev: Event)
    requires NetInv(w, n) && AllSound(w, n) && id in n.members && Offers(n.members[id], ev)
    ensures Genuine(w, n.pool, Carried(ev)) && Sound(w, n.pool, Offered(ev)) && !ev.TimedOut?
  {
    hide NetInv, AllSound, CommitVotes, Sound;
    HeardGenuine(w, n, id);
    match ev
    case VoteReceived(v) => NoneUnsound(w, n.pool);
    case ProposalReceived(p) => ProposalsSound(w, n, id, p);
    case BlockReceived(full) => StoredSound(w, n, id, Stored(full.block, full.commit));
    case TimedOut(_) =>
  }

  /**
    The limits on delivery exclude nothing honest: in every run, whatever an honest process has signed or
    stored can be delivered to every other, as an event or, for blocks, in answer to catch-up.
  */
  lemma HonestMessagesArrive(w: World, run: seq<Net>, actions: seq<Action>, k: nat, id: Addr, to: Addr, e: Env,
                             ev: Event)
    requires WorldOk(w) && IsRun(w, run, actions) && k < |run| && id in run[k].members && to in run[k].members
    requires Offers(run[k].members[id], ev)
    ensures run[k].members[to].Active? ==> Enabled(w, run[k], Act(to, e, Deliver(ev)))
    ensures run[k].members[to].Syncing? && ev.BlockReceived? ==> Enabled(w, run[k], SyncBlock(to, ev.full))
  {
    hide IsRun, NetInv, AllSound, CommitVotes, Sound, Genuine, Offers;
    RunOk(w, run, actions, k);
    RunSound(w, run, actions, k);
    HeardGenuine(w, run[k], to);
    OffersAreGenuine(w, run[k], id, ev);
  }

  lemma NoneUnsound(w: World, pool: set<Vote>)
    ensures Sound(w, pool, {})
  {
  }

  // ---- The time of a stored block ----

  /** The addresses are distinct and the powers positive, as a validator set has them. */
  predicate RealValidators(vals: ValidatorSet) {
    Distinct(vals) && forall v :: v in vals ==> v.power > 0
  }

  /** A precommit an honest validator signed, for `x` at height `h`, at time `t`. */
  ghost predicate HonestlySigned(w: World, n: Net, h: nat, x: Hash, v: Vote) {
    && v in n.pool && v.kind == Precommit && v.height == h && v.value == x
    && v.validator !in w.faulty && v.validator in n.members && VoteMsg(v) in n.members[v.validator].Log()
  }

  lemma CommitTimeIsSigned(w: World, n: Net, x: Hash, h: nat, commit: Commit, e: WeightedTime)
    requires PoolOk(n) && Genuine(w, n.pool, CommitVotes(commit)) && VerifyCommit(Vals(w), x, h, commit)
    requires e in HonestTimes(commit, Vals(w), w.faulty)
    ensures exists v :: HonestlySigned(w, n, h, x, v) && v.timeMs == e.timeMs
  {
    hide HonestTime.Times;
    KeptSigned(commit.sigs, Vals(w), w.faulty, false);
    var s :| s in commit.sigs && s.Present? && s.validator !in w.faulty && s.timeMs == e.timeMs;
    var i :| 0 <= i < |commit.sigs| && commit.sigs[i] == s;
    var v := Vote(Precommit, commit.height, commit.round, commit.blockID, s.validator, s.timeMs);
    assert v in CommitVotes(commit);
    assert HonestlySigned(w, n, h, x, v);
  }

  lemma StoredTime(g: ChainState, b: Block)
    requires IsGenesis(g) && GoodBlock(g, b) && b.number > 1
    ensures b.timeMs == MedianTime(b.lastCommit, g.validators)
  {
    hide MedianTime, VerifyCommit;
    StateAfterShape(g, b.parent);
  }

  lemma StoredFacts(w: World, run: seq<Net>, actions: seq<Action>, k: nat, id: Addr, i: nat)
    requires WorldOk(w) && IsRun(w, run, actions) && k < |run| && id in run[k].members
    requires 0 < i < |run[k].members[id].Store()|
    ensures var store := run[k].members[id].Store(); var b := store[i].block;
      && b.timeMs == MedianTime(b.lastCommit, Vals(w))
      && VerifyCommit(Vals(w), HashOf(store[i - 1].block), i, b.lastCommit)
      && Genuine(w, run[k].pool, CommitVotes(b.lastCommit)) && PoolOk(run[k])
  {
    var m := run[k].members[id];
    var b := m.Store()[i].block;
    ChainAndStoreInStep(w, run, actions, k, id);
    RunOk(w, run, actions, k);
    RunSound(w, run, actions, k);
    StoredIsOk(w, run[k], id);
    assert StoredOk(w.genesis, m.Heard(), m.Store(), i);
    hide IsRun, VerifyCommit, CommitVotes, MedianTime, NoConflict, MemberOk, GoodBlock, Decided;
    StoredTime(w.genesis, b);
    assert m.Store()[i] in m.Store();
    assert b in BlocksOf(m);
  }

  /**
    In every run, the time of every stored block above the initial height is at most the timestamp of a
    precommit that an honest validator signed for the block before it.
  */
  lemma StoredTimeAtMostHonest(w: World, run: seq<Net>, actions: seq<Action>, k: nat, id: Addr, i: nat)
    requires WorldOk(w) && IsRun(w, run, actions) && k < |run| && id in run[k].members
    requires RealValidators(Vals(w)) && 0 < i < |run[k].members[id].Store()|
    ensures var store := run[k].members[id].Store();
      exists v :: HonestlySigned(w, run[k], i, HashOf(store[i - 1].block), v) && store[i].block.timeMs <= v.timeMs
  {
    hide IsRun, VerifyCommit, CommitVotes, MedianTime, PoolOk, Genuine, HonestTimes;
    var store := run[k].members[id].Store();
    var x, commit := HashOf(store[i - 1].block), store[i].block.lastCommit;
    StoredFacts(w, run, actions, k, id, i);
    CommitTimeAtMostHonest(Vals(w), x, i, commit, w.faulty);
    var e :| e in HonestTimes(commit, Vals(w), w.faulty) && MedianTime(commit, Vals(w)) <= e.timeMs;
    CommitTimeIsSigned(w, run[k], x, i, commit, e);
  }

  /** And at least the timestamp of such a precommit, if the honest signatures outweigh the faulty ones by two. */
  lemma StoredTimeAtLeastHonest(w: World, run: seq<Net>, actions: seq<Action>, k: nat, id: Addr, i: nat)
    requires WorldOk(w) && IsRun(w, run, actions) && k < |run| && id in run[k].members
    requires RealValidators(Vals(w)) && 0 < i < |run[k].members[id].Store()|
    requires var commit := run[k].members[id].Store()[i].block.lastCommit;
      var b := TotalWeight(Times(Keep(commit.sigs, w.faulty, true), Vals(w)));
      b == 0 || b + 2 <= TotalWeight(HonestTimes(commit, Vals(w), w.faulty))
    ensures var store := run[k].members[id].Store();
      exists v :: HonestlySigned(w, run[k], i, HashOf(store[i - 1].block), v) && v.timeMs <= store[i].block.timeMs
  {
    hide IsRun, VerifyCommit, CommitVotes, MedianTime, PoolOk, Genuine, HonestTimes;
    var store := run[k].members[id].Store();
    var x, commit := HashOf(store[i - 1].block), store[i].block.lastCommit;
    StoredFacts(w, run, actions, k, id, i);
    CommitTimeAtLeastHonest(Vals(w), x, i, commit, w.faulty);
    var e :| e in HonestTimes(commit, Vals(w), w.faulty) && e.timeMs <= MedianTime(commit, Vals(w));
    CommitTimeIsSigned(w, run[k], x, i, commit, e);
  }
}
