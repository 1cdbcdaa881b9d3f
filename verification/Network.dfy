/**
  Any number of processes exchanging messages.  Honest processes take exactly the steps of the machine
  and its ticker; faulty validators sign whatever they like; messages arrive in any order, late, more
  than once or not at all.  The only limits are that nobody forges an honest signature and that faulty
  validators hold less than a third of the power.
*/
module Network {
  import opened Quorums
  import opened Votes
  import opened Executor
  import opened Machine
  import opened NodeInvariant
  import opened Events
  import opened Wakeup
  import opened Held
  import opened CatchUp

  /** The fixed surroundings; a process is named by its address, and signs with that key or not at all. */
  datatype World = World(genesis: ChainState, faulty: set<Addr>, configs: map<Addr, Config>)

  datatype Member =
    | Syncing(chain: ChainState, store: seq<Stored>, heard: set<Vote>)
    | Active(process: Process)
  {
    function Store(): seq<Stored> {
      if Syncing? then store else process.node.store
    }
    function Heard(): set<Vote> {
      if Syncing? then heard else process.node.heard
    }
    function Log(): seq<Message> {
      if Syncing? then [] else process.node.signed
    }
  }

  /** `pool`: every vote an honest process has signed. */
  datatype Net = Net(members: map<Addr, Member>, pool: set<Vote>)

  datatype Action =
    | SyncBlock(id: Addr, full: FullBlock)
    | Begin(id: Addr)
    | Act(id: Addr, env: Env, input: Input)

  ghost predicate WorldOk(w: World) {
    && IsGenesis(w.genesis)
    && Minority(w.genesis.validators, w.faulty)
    && forall id :: id in w.configs ==> id !in w.faulty && (w.configs[id].key == None || w.configs[id].key == Some(id))
  }

  /** No vote of an honest validator is delivered that it did not sign. */
  predicate Genuine(w: World, pool: set<Vote>, votes: set<Vote>) {
    forall v :: v in votes ==> v.validator in w.faulty || v in pool
  }

  function Brought(i: Input): set<Vote> {
    if i.Deliver? then Carried(i.event) else {}
  }

  function Shown(i: Input): set<Block> {
    if i.Deliver? then Offered(i.event) else {}
  }

  /** Nor does a block cite one in its LastCommit. */
  predicate Sound(w: World, pool: set<Vote>, blocks: set<Block>) {
    forall b :: b in blocks ==> Genuine(w, pool, CommitVotes(b.lastCommit))
  }

  predicate Enabled(w: World, n: Net, a: Action) {
    && a.id in n.members && a.id in w.configs
    && match a
       case SyncBlock(id, full) =>
         && n.members[id].Syncing?
         && Genuine(w, n.pool, CommitVotes(full.commit)) && Sound(w, n.pool, {full.block})
       case Begin(id) => n.members[id].Syncing?
       case Act(id, _, i) =>
         && n.members[id].Active? && CanTake(n.members[id].process, i)
         && Genuine(w, n.pool, Brought(i)) && Sound(w, n.pool, Shown(i))
  }

  function MemberStep(w: World, n: Net, a: Action): Member
    requires Enabled(w, n, a)
  {
    var m := n.members[a.id];
    match a
    case SyncBlock(_, full) =>
      if Acceptable(m.chain, full)
      then Syncing(UpdateState(m.chain, full.block), m.store + [Stored(full.block, full.commit)],
        m.heard + CommitVotes(full.commit))
      else m
    case Begin(_) => Active(Launch(m.chain, m.store, m.heard))
    case Act(id, e, i) => Active(Take(w.configs[id], e, m.process, i))
  }

  function VotesOf(log: seq<Message>): set<Vote> {
    set m | m in log && m.VoteMsg? :: m.vote
  }

  function Apply(w: World, n: Net, a: Action): Net
    requires Enabled(w, n, a)
  {
    var m := MemberStep(w, n, a);
    Net(n.members[a.id := m], n.pool + VotesOf(m.Log()))
  }

  ghost predicate Initial(w: World, n: Net) {
    && n.members.Keys == w.configs.Keys
    && (forall id :: id in n.members ==> n.members[id] == Syncing(w.genesis, [], {}))
    && n.pool == {}
  }

  /** A run: any sequence of enabled actions from an initial network. */
  ghost predicate IsRun(w: World, run: seq<Net>, actions: seq<Action>) {
    && |run| == |actions| + 1
    && Initial(w, run[0])
    && forall i :: 0 <= i < |actions| ==> Enabled(w, run[i], actions[i]) && run[i + 1] == Apply(w, run[i], actions[i])
  }

  // ---- What the whole network has signed ----

  function Vals(w: World): ValidatorSet {
    w.genesis.validators
  }

  /** More than two thirds of the power, the faulty counted in full, is behind `x`. */
  predicate Majority(w: World, pool: set<Vote>, k: Kind, h: nat, r: int, x: Hash) {
    Quorum(Vals(w), w.faulty + Backers(pool, k, h, r, x))
  }

  lemma EvidenceIsMajority(w: World, pool: set<Vote>, heard: set<Vote>, k: Kind, h: nat, r: int, x: Hash)
    requires Genuine(w, pool, heard) && Evidence(Vals(w), heard, k, h, r, x)
    ensures Majority(w, pool, k, h, r, x)
  {
    QuorumMonotone(Vals(w), Backers(heard, k, h, r, x), w.faulty + Backers(pool, k, h, r, x));
  }

  /** The honest process has gone past precommitting in round r of height h. */
  predicate Passed(n: Net, a: Addr, h: nat, r: int) {
    a in n.members && n.members[a].Active? && AtMost(Pos(h, r, PRECOMMIT), Position(n.members[a].process.node))
  }

  /** Those who have precommitted `x` in round r, or still may, or may claim anything. */
  function Candidates(w: World, n: Net, h: nat, r: int, x: Hash): set<Addr> {
    set v | v in Vals(w) && (v.addr in w.faulty || v.addr in Backers(n.pool, Precommit, h, r, x)
      || !Passed(n, v.addr, h, r)) :: v.addr
  }

  predicate Choosable(w: World, n: Net, h: nat, r: int, x: Hash) {
    Quorum(Vals(w), Candidates(w, n, h, r, x))
  }

  // ---- The invariant ----

  predicate Ordered(log: seq<Message>) {
    forall i, j :: 0 <= i < j < |log| ==> Less(Rank(log[i]), Rank(log[j]))
  }

  ghost predicate MemberOk(w: World, pool: set<Vote>, id: Addr, m: Member)
    requires id in w.configs
  {
    && Genuine(w, pool, m.Heard())
    && Ordered(m.Log())
    && (forall v :: VoteMsg(v) in m.Log() ==> v in pool)
    && match m
       case Syncing(chain, store, heard) => ChainOk(w.genesis, heard, chain, store)
       case Active(p) => Wound(w.genesis, w.configs[id], p)
  }

  ghost predicate PoolOk(n: Net) {
    forall v :: v in n.pool ==> v.validator in n.members && VoteMsg(v) in n.members[v.validator].Log()
  }

  /** While a precommit majority for a block is still possible in round r, no later polka is for anything else. */
  ghost predicate NoConflict(w: World, n: Net) {
    forall h: nat, r: int, r': int, x: Hash, y: Hash ::
      r < r' && x != ZeroHash && y != x && Majority(w, n.pool, Prevote, h, r', y) ==> !Choosable(w, n, h, r, x)
  }

  ghost predicate NetInv(w: World, n: Net) {
    && WorldOk(w)
    && n.members.Keys == w.configs.Keys
    && (forall id :: id in n.members ==> MemberOk(w, n.pool, id, n.members[id]))
    && PoolOk(n)
    && NoConflict(w, n)
  }
}
