/** Further safety properties of every run: external validity, no panic, no equivocation, justified unlocking. */
module Safety {
  import opened Quorums
  import opened Votes
  import opened BlockTime
  import opened Executor
  import opened Machine
  import opened NodeInvariant
  import opened NodeSteps
  import opened Transitions
  import opened Commits
  import opened Events
  import opened Wakeup
  import opened CatchUp
  import opened Network
  import opened Agreement
  import opened BlockStores
  import opened Answers

  // ---- External validity ----

  /** An honest validator prevoted `x` at this height and round, and `x` builds on what was decided before. */
  ghost predicate Vouched(w: World, n: Net, h: nat, r: int, x: Hash) {
    && x.HashOf? && x.block.number == h && GoodBlock(w.genesis, x.block)
    && (if h <= 1 then x.block.parent == ZeroHash
        else x.block.parent.HashOf? && DecidedIn(w, n, h - 1, x.block.parent))
    && exists v :: v in n.pool && v.kind == Prevote && v.height == h && v.round == r && v.value == x
                   && v.validator !in w.faulty && HasAddress(Vals(w), v.validator)
  }

  lemma PolkaIsVouched(w: World, n: Net, h: nat, r: int, x: Hash)
    requires NetInv(w, n) && x != ZeroHash && Majority(w, n.pool, Prevote, h, r, x)
    ensures Vouched(w, n, h, r, x)
  {
    hide MemberOk, NoConflict, Wound, GoodBlock;
    var a := w.faulty + Backers(n.pool, Prevote, h, r, x);
    QuorumHasHonest(Vals(w), a, w.faulty);
    var m :| m in a && m !in w.faulty && HasAddress(Vals(w), m);
    var v :| v in n.pool && v.kind == Prevote && v.height == h && v.round == r && v.value == x && v.validator == m;
    HonestVoteOk(w, n, v);
    if h > 1 { HeardDecision(w, n, m, h - 1, x.block.parent); }
  }

  function ChainOf(m: Member): ChainState {
    if m.Syncing? then m.chain else m.process.node.chain
  }

  lemma MemberChainOk(w: World, n: Net, id: Addr)
    requires NetInv(w, n) && id in n.members
    ensures var m := n.members[id]; ChainOk(w.genesis, m.Heard(), ChainOf(m), m.Store())
  {
    hide NoConflict, PoolOk;
    assert MemberOk(w, n.pool, id, n.members[id]);
  }

  lemma ParentIsTip(w: World, n: Net, h: nat, parent: Hash, id: Addr)
    requires NetInv(w, n) && id in n.members && |n.members[id].Store()| + 1 == h
    requires if h <= 1 then parent == ZeroHash else parent.HashOf? && DecidedIn(w, n, h - 1, parent)
    ensures parent == Tip(n.members[id].Store())
  {
    hide NetInv, DecidedIn;
    if h > 1 {
      StoredDecided(w, n, id, h - 2);
      OneDecision(w, n, h - 1, parent, HashOf(n.members[id].Store()[h - 2].block));
    }
  }

  /** A vouched block passes validation at every honest process whose chain has reached the height before. */
  lemma VouchedIsValid(w: World, n: Net, h: nat, r: int, b: Block, id: Addr)
    requires NetInv(w, n) && Vouched(w, n, h, r, HashOf(b)) && id in n.members
    requires |n.members[id].Store()| + 1 == h
    ensures ValidateBlock(ChainOf(n.members[id]), b).Valid?
  {
    hide NetInv, GoodBlock, ValidateBlock, DecidedIn, StoredOk;
    ParentIsTip(w, n, h, b.parent, id);
    ChainOfIs(w, n, id);
    ValidOnOwnParent(w.genesis, Tip(n.members[id].Store()), b);
  }

  lemma ChainOfIs(w: World, n: Net, id: Addr)
    requires NetInv(w, n) && id in n.members
    ensures IsGenesis(w.genesis) && ChainOf(n.members[id]) == StateAfter(w.genesis, Tip(n.members[id].Store()))
  {
    hide NetInv, StoredOk;
    MemberChainOk(w, n, id);
    GenesisOf(w, n);
  }

  lemma GenesisOf(w: World, n: Net)
    requires NetInv(w, n)
    ensures IsGenesis(w.genesis)
  {
  }

  /**
    External validity, in every run: a block with a prevote majority passed ValidateBlock at an honest
    validator that prevoted it, and passes at every honest process that has the chain below it.
  */
  lemma ExternalValidity(w: World, run: seq<Net>, actions: seq<Action>, k: nat, h: nat, r: int, b: Block)
    requires WorldOk(w) && IsRun(w, run, actions) && k < |run|
    requires Majority(w, run[k].pool, Prevote, h, r, HashOf(b))
    ensures Vouched(w, run[k], h, r, HashOf(b))
    ensures forall id :: id in run[k].members && |run[k].members[id].Store()| + 1 == h ==>
      ValidateBlock(ChainOf(run[k].members[id]), b).Valid?
  {
    hide NetInv, IsRun, Vouched, ValidateBlock, Majority;
    RunOk(w, run, actions, k);
    PolkaIsVouched(w, run[k], h, r, HashOf(b));
    forall id | id in run[k].members && |run[k].members[id].Store()| + 1 == h
      ensures ValidateBlock(ChainOf(run[k].members[id]), b).Valid?
    {
      VouchedIsValid(w, run[k], h, r, b, id);
    }
  }

  /** The same of every block committed, whether by precommits of its own round or by a verified commit. */
  lemma DecidedIsVouched(w: World, run: seq<Net>, actions: seq<Action>, k: nat, h: nat, b: Block)
    requires WorldOk(w) && IsRun(w, run, actions) && k < |run|
    requires DecidedIn(w, run[k], h, HashOf(b))
    ensures exists r: int :: Vouched(w, run[k], h, r, HashOf(b))
    ensures forall id :: id in run[k].members && |run[k].members[id].Store()| + 1 == h ==>
      ValidateBlock(ChainOf(run[k].members[id]), b).Valid?
  {
    hide NetInv, IsRun, Vouched, Majority, ValidateBlock;
    RunOk(w, run, actions, k);
    var r: int :| Majority(w, run[k].pool, Precommit, h, r, HashOf(b));
    PrecommitNeedsPolka(w, run[k], h, r, HashOf(b));
    ExternalValidity(w, run, actions, k, h, r, b);
  }

  /**
    In every run, a precommit majority for a block rules out a prevote majority for anything else from that
    round on.
  */
  lemma NoLaterConflict(w: World, run: seq<Net>, actions: seq<Action>, k: nat, h: nat, r: int, x: Hash, r': int,
                        y: Hash)
    requires WorldOk(w) && IsRun(w, run, actions) && k < |run|
    requires x != ZeroHash && r <= r' && y != x && Majority(w, run[k].pool, Precommit, h, r, x)
    ensures !Majority(w, run[k].pool, Prevote, h, r', y)
  {
    hide NetInv, IsRun, Majority;
    RunOk(w, run, actions, k);
    if Majority(w, run[k].pool, Prevote, h, r', y) {
      PolkasFollowDecision(w, run[k], h, r, x, r', y);
      assert false;
    }
  }

  // ---- No panic ----

  predicate Alive(n: Net) {
    forall id :: id in n.members && n.members[id].Active? ==> !n.members[id].process.node.failed
  }

  /** Majorities an active process judges are vouched for, so it finds their blocks valid. */
  lemma MajoritiesAreValid(w: World, n: Net, id: Addr, more: set<Vote>, k: Kind, votes: map<int, Ballots>)
    requires NetInv(w, n) && id in n.members && n.members[id].Active? && Genuine(w, n.pool, more)
    requires var s := n.members[id].process.node;
      BallotsHeard(s.heard + more, s.height, k, votes)
    ensures MajoritiesValid(n.members[id].process.node.chain, votes)
  {
    var s := n.members[id].process.node;
    hide NetInv, BallotsHeard, ValidateBlock, Vouched;
    ProcessFacts(w, n, id);
    forall r, b | TwoThirdsMajority(s.chain.validators, VotesAt(votes, r)) == Some(HashOf(b))
      ensures ValidateBlock(s.chain, b).Valid?
    {
      BallotEvidence(Vals(w), s.heard + more, s.height, k, votes, r, HashOf(b));
      EvidenceIsMajority(w, n.pool, s.heard + more, k, s.height, r, HashOf(b));
      if k == Precommit { PrecommitNeedsPolka(w, n, s.height, r, HashOf(b)); }
      PolkaIsVouched(w, n, s.height, r, HashOf(b));
      VouchedIsValid(w, n, s.height, r, b, id);
    }
  }

  lemma ProcessFacts(w: World, n: Net, id: Addr)
    requires NetInv(w, n) && id in n.members && n.members[id].Active?
    ensures var p := n.members[id].process; var s := p.node;
      && s.chain.validators == Vals(w) && s.height == |s.store| + 1
      && BallotsHeard(s.heard, s.height, Prevote, s.prevotes)
      && BallotsHeard(s.heard, s.height, Precommit, s.precommits)
      && Genuine(w, n.pool, s.heard)
      && id in w.configs && Wound(w.genesis, w.configs[id], p)
  {
    hide NoConflict, PoolOk;
    assert MemberOk(w, n.pool, id, n.members[id]);
    StateAfterShape(w.genesis, Tip(n.members[id].Store()));
  }

  lemma JudgesValid(w: World, n: Net, id: Addr, e: Env, ev: Event)
    requires NetInv(w, n) && id in n.members && n.members[id].Active? && Genuine(w, n.pool, Carried(ev))
    ensures Trusts(Judged(e, n.members[id].process.node, ev))
  {
    var s := n.members[id].process.node;
    var t := Judged(e, s, ev);
    hide NetInv, MajoritiesValid, Wound, CommitVotes;
    ProcessFacts(w, n, id);
    HeardMore(s.heard, s.heard + Carried(ev), s.height, s.prevotes, s.precommits);
    if t != s {
      RecordHeard(s.heard, s.height, ev.vote.kind, if ev.vote.kind == Prevote then s.prevotes else s.precommits,
        ev.vote);
    }
    MajoritiesAreValid(w, n, id, Carried(ev), Prevote, t.prevotes);
    MajoritiesAreValid(w, n, id, Carried(ev), Precommit, t.precommits);
  }

  lemma NobodyPanics(w: World, n: Net, a: Action)
    requires NetInv(w, n) && Alive(n) && Enabled(w, n, a)
    ensures Alive(Apply(w, n, a))
  {
    hide NetInv, Wound, Judged, Trusts, Carried, Acceptable, Step, Launch;
    match a
    case SyncBlock(id, full) =>
    case Begin(id) =>
      MemberChainOk(w, n, id);
      GenesisOf(w, n);
      LaunchOk(w.genesis, w.configs[id], n.members[id].chain, n.members[id].store, n.members[id].heard);
    case Act(id, e, i) =>
      ProcessFacts(w, n, id);
      ActStaysAlive(w, n, id, e, i);
  }

  lemma ActStaysAlive(w: World, n: Net, id: Addr, e: Env, i: Input)
    requires NetInv(w, n) && Enabled(w, n, Act(id, e, i)) && !n.members[id].process.node.failed
    ensures !Take(w.configs[id], e, n.members[id].process, i).node.failed
  {
    hide NetInv, Step, CommitVotes;
    match i
    case Deliver(ev) => EventKeepsAlive(w, n, id, e, ev);
    case DeliverTock(t) => EventKeepsAlive(w, n, id, e, TimedOut(t));
    case ReadTick =>
    case TimerExpires =>
  }

  lemma EventKeepsAlive(w: World, n: Net, id: Addr, e: Env, ev: Event)
    requires NetInv(w, n) && id in n.members && id in w.configs && n.members[id].Active?
    requires Genuine(w, n.pool, Carried(ev)) && (ev.TimedOut? ==> ev.timeout in n.members[id].process.ticker.tocks)
    requires !n.members[id].process.node.failed
    ensures !Step(w.configs[id], e, n.members[id].process.node, ev).failed
  {
    hide NetInv, Judged, Trusts, Step, Carried, Ready;
    ProcessFacts(w, n, id);
    JudgesValid(w, n, id, e, ev);
    StepOk(w.genesis, w.configs[id], e, n.members[id].process.node, ev);
  }

  /** In no run does an honest process panic. */
  lemma {:induction false} NoPanic(w: World, run: seq<Net>, actions: seq<Action>, k: nat)
    requires WorldOk(w) && IsRun(w, run, actions) && k < |run|
    ensures Alive(run[k])
  {
    hide NetInv, Enabled, Apply, WorldOk;
    if k > 0 {
      NoPanic(w, run, actions, k - 1);
      RunOk(w, run, actions, k - 1);
      NobodyPanics(w, run[k - 1], actions[k - 1]);
    }
  }

  // ---- What one process signs ----

  lemma WoundInRun(w: World, run: seq<Net>, actions: seq<Action>, k: nat, id: Addr)
    requires WorldOk(w) && IsRun(w, run, actions) && k < |run| && id in run[k].members && run[k].members[id].Active?
    ensures id in w.configs && Wound(w.genesis, w.configs[id], run[k].members[id].process)
    ensures Ordered(run[k].members[id].Log())
  {
    hide NoConflict, PoolOk, IsRun, Wound;
    RunOk(w, run, actions, k);
    assert MemberOk(w, run[k].pool, id, run[k].members[id]);
  }

  /**
    No equivocation: in every run a process signs at most one proposal, one prevote and one precommit for a
    height and round, in this order, and never signs anything below what it has signed.
  */
  lemma NoEquivocation(w: World, run: seq<Net>, actions: seq<Action>, k: nat, id: Addr, i: nat, j: nat)
    requires WorldOk(w) && IsRun(w, run, actions) && k < |run| && id in run[k].members
    requires i < |run[k].members[id].Log()| && j < |run[k].members[id].Log()|
    ensures var log := run[k].members[id].Log();
      && (i < j <==> Less(Rank(log[i]), Rank(log[j])))
      && (i == j <==> Rank(log[i]) == Rank(log[j]))
  {
    hide IsRun, Wound;
    if run[k].members[id].Active? {
      WoundInRun(w, run, actions, k, id);
      var log := run[k].members[id].Log();
      if i < j { assert Less(Rank(log[i]), Rank(log[j])); }
      if j < i { assert Less(Rank(log[j]), Rank(log[i])); }
    }
  }

  /**
    Justified unlocking: between precommitting a block and prevoting anything else there was a polka for
    something else.
  */
  lemma JustifiedUnlocking(w: World, run: seq<Net>, actions: seq<Action>, k: nat, id: Addr, v: Vote, u: Vote)
    requires WorldOk(w) && IsRun(w, run, actions) && k < |run| && id in run[k].members
    requires VoteMsg(v) in run[k].members[id].Log() && VoteMsg(u) in run[k].members[id].Log()
    requires v.kind == Precommit && v.value != ZeroHash && u.kind == Prevote
    requires u.height == v.height && u.round > v.round && u.value != v.value
    ensures Unlocks(Vals(w), run[k].members[id].Heard(), v.height, v.round, u.round, v.value)
  {
    hide IsRun, Wound;
    if run[k].members[id].Active? {
      WoundInRun(w, run, actions, k, id);
      WoundUnlocked(w.genesis, w.configs[id], run[k].members[id].process, v, u);
    }
  }

  /** Every proposal a process signs carries a POLRound receivers accept, backed by the polka it claims. */
  lemma ProposalsAcceptable(w: World, run: seq<Net>, actions: seq<Action>, k: nat, id: Addr, p: Proposal)
    requires WorldOk(w) && IsRun(w, run, actions) && k < |run| && id in run[k].members
    requires ProposalMsg(p) in run[k].members[id].Log()
    ensures p.polRound == -1 || 0 <= p.polRound < p.round
    ensures p.polRound >= 0 ==> Evidence(Vals(w), run[k].members[id].Heard(), Prevote, p.height, p.polRound,
            HashOf(p.block))
  {
    hide IsRun, Wound;
    if run[k].members[id].Active? {
      WoundInRun(w, run, actions, k, id);
      WoundProposal(w.genesis, w.configs[id], run[k].members[id].process, p);
    }
  }

  lemma WoundProposal(g: ChainState, c: Config, p: Process, q: Proposal)
    requires Wound(g, c, p) && ProposalMsg(q) in p.node.signed
    ensures ProposalOk(g, p.node.heard, q)
  {
  }

  // ---- Waiting ----

  /**
    No lost wakeup, in every run: whatever a process waits for, a timeout of its height and round that will do
    is scheduled, armed or on its way, and handling any such timeout takes the process forward.
  */
  lemma AlwaysWoken(w: World, run: seq<Net>, actions: seq<Action>, k: nat, id: Addr, step: int)
    requires WorldOk(w) && IsRun(w, run, actions) && k < |run| && id in run[k].members && run[k].members[id].Active?
    requires WaitsFor(run[k].members[id].process.node, step)
    ensures var p := run[k].members[id].process;
      && id in w.configs && p.read <= |p.node.ticks|
      && (exists t :: Pending(p, t) && Serves(t, p.node, step))
      && (forall c, e, t :: c == w.configs[id] && t in p.ticker.tocks && Serves(t, p.node, step) ==>
            var u := Step(c, e, p.node, TimedOut(t)); !u.failed && Less(Position(p.node), Position(u)))
  {
    hide IsRun, Wound, Step, NetInv;
    RunOk(w, run, actions, k);
    var p := run[k].members[id].process;
    WoundInRun(w, run, actions, k, id);
    NoPanic(w, run, actions, k);
    WoundReads(w.genesis, w.configs[id], p);
    NoLostWakeup(w.genesis, w.configs[id], p, step);
    forall e: Env, t | t in p.ticker.tocks && Serves(t, p.node, step)
      ensures var u := Step(w.configs[id], e, p.node, TimedOut(t)); !u.failed && Less(Position(p.node), Position(u))
    {
      EventKeepsAlive(w, run[k], id, e, TimedOut(t));
      HandlingAdvances(w.genesis, w.configs[id], e, p, t, step);
    }
  }

  /**
    Timeouts act only in their own round: one that is not stale is for exactly the height and round the process
    is at.
  */
  lemma TimeoutsAreCurrent(w: World, run: seq<Net>, actions: seq<Action>, k: nat, id: Addr, t: Timeout)
    requires WorldOk(w) && IsRun(w, run, actions) && k < |run| && id in run[k].members && run[k].members[id].Active?
    requires t in run[k].members[id].process.ticker.tocks
    ensures var s := run[k].members[id].process.node;
      TimeoutApplies(s, t) <==> t.height == s.height && t.round == s.round && t.step >= s.step
  {
    hide IsRun, Wound;
    WoundInRun(w, run, actions, k, id);
    if TimeoutApplies(run[k].members[id].process.node, t) {
      ActsOnOwnRound(w.genesis, w.configs[id], run[k].members[id].process, t);
    }
  }

  predicate Serves(t: Timeout, s: Node, step: int) {
    t.height == s.height && t.round == s.round && t.step >= step
  }

  lemma WoundReads(g: ChainState, c: Config, p: Process)
    requires Wound(g, c, p)
    ensures p.read <= |p.node.ticks|
  {
  }

  // ---- Chain and store ----

  /** Heights without a gap, each block on the one before, later, and carrying a commit for it that verifies. */
  ghost predicate Linked(w: World, store: seq<Stored>) {
    forall i :: 0 <= i < |store| ==>
      && store[i].block.number == i + 1
      && VerifyCommit(Vals(w), HashOf(store[i].block), i + 1, store[i].commit)
      && store[i].block.parent == Tip(store[..i])
      && (i == 0 ==> store[i].block.timeMs == w.genesis.lastBlockTime)
      && (i > 0 ==> store[i].block.timeMs > store[i - 1].block.timeMs
                    && VerifyCommit(Vals(w), HashOf(store[i - 1].block), i, store[i].block.lastCommit))
  }

  lemma StoredIsLinked(g: ChainState, heard: set<Vote>, store: seq<Stored>, i: nat)
    requires IsGenesis(g) && i < |store| && StoredOk(g, heard, store, i)
    requires i > 0 ==> StoredOk(g, heard, store, i - 1)
    ensures i == 0 ==> store[i].block.timeMs == g.lastBlockTime
    ensures i > 0 ==> store[i].block.timeMs > store[i - 1].block.timeMs
                      && VerifyCommit(g.validators, HashOf(store[i - 1].block), i, store[i].block.lastCommit)
  {
    var b := store[i].block;
    hide VerifyCommit, Decided;
    StateAfterShape(g, b.parent);
    ValidBlockExtends(StateAfter(g, b.parent), b);
    if i > 0 { assert store[..i][i - 1] == store[i - 1]; }
  }

  /** Chain and store stay in step, in every run, whichever of the three commit paths brought each block. */
  lemma ChainAndStoreInStep(w: World, run: seq<Net>, actions: seq<Action>, k: nat, id: Addr)
    requires WorldOk(w) && IsRun(w, run, actions) && k < |run| && id in run[k].members
    ensures var m := run[k].members[id];
      && Linked(w, m.Store())
      && ChainOf(m).lastBlockHeight == |m.Store()| && ChainOf(m).lastBlockID == Tip(m.Store())
      && (m.Active? ==> m.process.node.height == |m.Store()| + 1)
  {
    var m := run[k].members[id];
    hide IsRun, NetInv, StoredOk, VerifyCommit;
    RunOk(w, run, actions, k);
    MemberChainOk(w, run[k], id);
    StateAfterShape(w.genesis, Tip(m.Store()));
    if m.Active? { ProcessFacts(w, run[k], id); }
    forall i | 0 <= i < |m.Store()| ensures StoredOk(w.genesis, m.Heard(), m.Store(), i) {}
    StoreIsLinked(w, m.Heard(), m.Store());
  }

  /** Every chain of every run, saved in order while writes work, is what the block store then holds. */
  lemma ChainOnDisk(w: World, run: seq<Net>, actions: seq<Action>, k: nat, id: Addr)
    requires WorldOk(w) && IsRun(w, run, actions) && k < |run| && id in run[k].members
    requires |run[k].members[id].Store()| < UINT64
    ensures InRange(SavesOf(run[k].members[id].Store()))
    ensures var store := run[k].members[id].Store(); var u := DatabaseAfter(map[], SavesOf(store));
      u.Some? && exists entries :: Holds(u.value, entries) && View(entries) == store
  {
    hide IsRun, VerifyCommit, Holds, DatabaseAfter, SavesOf, View;
    ChainAndStoreInStep(w, run, actions, k, id);
    ChainIsHeld(run[k].members[id].Store());
  }

  lemma StoreIsLinked(w: World, heard: set<Vote>, store: seq<Stored>)
    requires IsGenesis(w.genesis) && forall i :: 0 <= i < |store| ==> StoredOk(w.genesis, heard, store, i)
    ensures Linked(w, store)
  {
    hide GoodBlock, VerifyCommit, Decided;
    forall i | 0 <= i < |store|
      ensures store[i].block.number == i + 1 && store[i].block.parent == Tip(store[..i])
      ensures VerifyCommit(Vals(w), HashOf(store[i].block), i + 1, store[i].commit)
      ensures i == 0 ==> store[i].block.timeMs == w.genesis.lastBlockTime
      ensures i > 0 ==> store[i].block.timeMs > store[i - 1].block.timeMs
                        && VerifyCommit(Vals(w), HashOf(store[i - 1].block), i, store[i].block.lastCommit)
    {
      assert StoredOk(w.genesis, heard, store, i);
      if i > 0 { assert StoredOk(w.genesis, heard, store, i - 1); }
      StoredIsLinked(w.genesis, heard, store, i);
    }
  }

  // ---- Blocks ----

  /** In every run every stored block, and every block with a prevote majority, is well made. */
  lemma BlocksAreWellMade(w: World, run: seq<Net>, actions: seq<Action>, k: nat)
    requires WorldOk(w) && IsRun(w, run, actions) && k < |run|
    ensures forall id, i :: id in run[k].members && 0 <= i < |run[k].members[id].Store()| ==>
      WellMade(w.genesis, run[k].members[id].Store()[i].block)
    ensures forall h: nat, r, b :: Majority(w, run[k].pool, Prevote, h, r, HashOf(b)) ==>
      WellMade(w.genesis, b) && b.number == h
  {
    hide IsRun, NetInv, WellMade, GoodBlock, Majority, VerifyCommit, Decided, DecidedIn;
    RunOk(w, run, actions, k);
    GenesisOf(w, run[k]);
    forall id, i | id in run[k].members && 0 <= i < |run[k].members[id].Store()|
      ensures WellMade(w.genesis, run[k].members[id].Store()[i].block)
    {
      StoredIsOk(w, run[k], id);
      assert StoredOk(w.genesis, run[k].members[id].Heard(), run[k].members[id].Store(), i);
      ValidIsWellMade(w.genesis, run[k].members[id].Store()[i].block);
    }
    forall h: nat, r, b | Majority(w, run[k].pool, Prevote, h, r, HashOf(b))
      ensures WellMade(w.genesis, b) && b.number == h
    {
      PolkaIsVouched(w, run[k], h, r, HashOf(b));
      ValidIsWellMade(w.genesis, b);
    }
  }

  // ---- Catching up ----

  lemma NextIsOnTip(w: World, n: Net, id: Addr, to: Addr)
    requires NetInv(w, n) && id in n.members && to in n.members
    requires |n.members[to].Store()| < |n.members[id].Store()|
    ensures var store := n.members[to].Store(); var x := n.members[id].Store()[|store|];
      && x.block.parent == Tip(store) && GoodBlock(w.genesis, x.block) && x.block.number == |store| + 1
      && VerifyCommit(Vals(w), HashOf(x.block), |store| + 1, x.commit)
  {
    hide NetInv, VerifyCommit, Decided, GoodBlock;
    var i := |n.members[to].Store()|;
    StoredIsOk(w, n, id);
    assert StoredOk(w.genesis, n.members[id].Heard(), n.members[id].Store(), i);
    if i > 0 { StoresAgree(w, n, id, to, i - 1); }
  }

  /** This block with its commit is accepted by this process, catching up or not. */
  predicate Accepts(m: Member, full: FullBlock) {
    Acceptable(ChainOf(m), full) && (m.Active? ==> Arrives(m.process.node, full))
  }

  lemma NextAccepted(w: World, n: Net, id: Addr, to: Addr)
    requires NetInv(w, n) && id in n.members && to in n.members
    requires |n.members[to].Store()| < |n.members[id].Store()|
    ensures var x := n.members[id].Store()[|n.members[to].Store()|];
      Accepts(n.members[to], FullBlock(x.block, x.commit))
  {
    var m := n.members[to];
    var x := n.members[id].Store()[|m.Store()|];
    hide NetInv, Acceptable, Arrives, VerifyCommit, GoodBlock, Tip, StateAfter;
    NextIsOnTip(w, n, id, to);
    ChainOfIs(w, n, to);
    AcceptedOn(w.genesis, Tip(m.Store()), ChainOf(m), x.block, x.commit);
    if m.Active? {
      HeightOfStore(w, n, to);
      ArrivesOn(m.process.node, x.block, x.commit);
    }
  }

  /**
    In every run the next block of any honest process's store, offered with its commit, is accepted by every
    process at that height.
  */
  lemma NextBlockIsAccepted(w: World, run: seq<Net>, actions: seq<Action>, k: nat, id: Addr, to: Addr)
    requires WorldOk(w) && IsRun(w, run, actions) && k < |run| && id in run[k].members && to in run[k].members
    requires |run[k].members[to].Store()| < |run[k].members[id].Store()|
    ensures var x := run[k].members[id].Store()[|run[k].members[to].Store()|];
      Accepts(run[k].members[to], FullBlock(x.block, x.commit))
  {
    hide IsRun, NetInv, Accepts;
    RunOk(w, run, actions, k);
    NextAccepted(w, run[k], id, to);
  }

  lemma AcceptedOn(g: ChainState, tip: Hash, st: ChainState, b: Block, commit: Commit)
    requires IsGenesis(g) && st == StateAfter(g, tip) && b.parent == tip && GoodBlock(g, b)
    requires VerifyCommit(g.validators, HashOf(b), b.number, commit)
    ensures Acceptable(st, FullBlock(b, commit))
  {
    hide ValidateBlock, VerifyCommit;
    ValidOnOwnParent(g, tip, b);
    StateAfterShape(g, tip);
  }

  lemma ArrivesOn(s: Node, b: Block, commit: Commit)
    requires Acceptable(s.chain, FullBlock(b, commit)) && b.number == s.height
    ensures Arrives(s, FullBlock(b, commit))
  {
    hide ValidateBlock, VerifyCommit;
  }

  lemma HeightOfStore(w: World, n: Net, id: Addr)
    requires NetInv(w, n) && id in n.members && n.members[id].Active?
    ensures n.members[id].process.node.height == |n.members[id].Store()| + 1
  {
    hide NetInv, Wound;
    ProcessFacts(w, n, id);
  }

  // ---- Every step ----

  /** In every run, whatever an honest process receives it answers as the machine's duties say. */
  lemma EveryStepAnswers(w: World, run: seq<Net>, actions: seq<Action>, k: nat, id: Addr, e: Env, ev: Event)
    requires WorldOk(w) && IsRun(w, run, actions) && k < |actions|
    requires || actions[k] == Act(id, e, Deliver(ev))
             || (ev.TimedOut? && actions[k] == Act(id, e, DeliverTock(ev.timeout)))
    ensures id in w.configs && id in run[k].members && run[k].members[id].Active?
    ensures id in run[k + 1].members && run[k + 1].members[id].Active?
    ensures EventAnswer(w.configs[id], e, run[k].members[id].process.node, ev, run[k + 1].members[id].process.node)
  {
    hide Wound, Step, EventAnswer, Genuine, Sound;
    assert Enabled(w, run[k], actions[k]) && run[k + 1] == Apply(w, run[k], actions[k]);
    WoundInRun(w, run, actions, k, id);
    WoundTocks(w.genesis, w.configs[id], run[k].members[id].process);
    EventDuty(w.genesis, w.configs[id], e, run[k].members[id].process.node, ev);
  }

  lemma WoundTocks(g: ChainState, c: Config, p: Process)
    requires Wound(g, c, p)
    ensures Ready(g, c, p.node) && forall t :: t in p.ticker.tocks ==> t in p.node.ticks
  {
    hide Ready;
  }

  // ---- Locking ----

  /**
    Lock and valid bookkeeping, in every run: set together or not at all, never ahead, each backed by a polka on
    record.
  */
  lemma LocksAreBacked(w: World, run: seq<Net>, actions: seq<Action>, k: nat, id: Addr)
    requires WorldOk(w) && IsRun(w, run, actions) && k < |run| && id in run[k].members && run[k].members[id].Active?
    ensures var s := run[k].members[id].process.node;
      && (s.lockedBlock.None? <==> s.lockedRound == -1) && (s.validBlock.None? <==> s.validRound == -1)
      && s.lockedRound <= s.round && s.validRound <= s.round
      && (s.lockedBlock.Some? ==> PrevoteMajority(s, s.lockedRound) == Some(HashOf(s.lockedBlock.value))
                                  && ValidateBlock(s.chain, s.lockedBlock.value).Valid?)
      && (s.validBlock.Some? ==> PrevoteMajority(s, s.validRound) == Some(HashOf(s.validBlock.value)))
  {
    hide IsRun, Inv, ValidateBlock, TwoThirdsMajority;
    WoundInRun(w, run, actions, k, id);
    Facts(w.genesis, w.configs[id], run[k].members[id].process.node);
  }

  lemma FreshDecisionIsValid(s: Node, d: Decision)
    requires RoundOk(s) && s.step < PRECOMMIT && d == DecidePrecommit(s, s.round) && d.Decision?
    ensures d.lockedBlock.Some? && d.lockedBlock != s.lockedBlock ==>
      s.validBlock == d.lockedBlock && s.validRound == d.lockedRound == s.round
  {
    hide ValidateBlock, POLInfo, TwoThirdsMajority;
  }

  /** A lock newly taken in a round finds the same block valid since that round; a relock need not. */
  lemma FreshLockIsValid(g: ChainState, c: Config, e: Env, s: Node, height: nat, round: int)
    requires Inv(g, c, s) && NotAhead(s, height, round)
    ensures var t := EnterPrecommit(c, e, s, height, round);
      t.lockedBlock.Some? && t.lockedBlock != s.lockedBlock ==>
        t.validBlock == t.lockedBlock && t.validRound == t.lockedRound == s.round == round
  {
    hide Inv, DecidePrecommit, NewVote, RoundOk;
    Facts(g, c, s);
    var d := DecidePrecommit(s, round);
    if s.height == height && round == s.round && s.step < PRECOMMIT && d.Decision? {
      FreshDecisionIsValid(s, d);
    }
  }

  // ---- Making blocks ----

  /**
    A node that proposes always has a commit for the block before, so it never comes to propose nothing;
    the block it makes is valid exactly when it is a validator and the median time has advanced.
  */
  lemma ProposerMakesValidBlocks(g: ChainState, c: Config, s: Node, proposer: Addr)
    requires Inv(g, c, s)
    ensures ProposalCommit(s).Some?
    ensures CreateProposalBlock(s, proposer).Some?
    ensures ValidateBlock(s.chain, CreateProposalBlock(s, proposer).value).Valid? <==>
              && HasAddress(s.chain.validators, proposer)
              && (s.height > 1 ==> MedianTime(ProposalCommit(s).value, s.chain.lastValidators) > s.chain.lastBlockTime)
  {
    hide LogOk, LockOk, BallotsHeard, StoredOk, VerifyCommit, ValidateBlock, RoundOk;
    StateAfterShape(g, Tip(s.store));
    if s.store != [] {
      assert StoredOk(g, s.heard, s.store, |s.store| - 1);
      MadeCommitVerifies(s.chain.lastValidators, s.lastCommit.value, s.chain.lastBlockID);
    }
    MakerMeetsChecker(s.chain, ProposalCommit(s).value, proposer);
  }
}
