/** Agreement: honest processes never commit different blocks at the same height. */
module Agreement {
  import opened Quorums
  import opened Votes
  import opened Executor
  import opened Machine
  import opened NodeInvariant
  import opened Commits
  import opened Events
  import opened Wakeup
  import opened CatchUp
  import opened Network

  // ---- One member's step ----

  /** How a member may change: everything newly signed lies above where an active process was. */
  ghost predicate MemberMoves(m: Member, t: Member) {
    && m.Log() <= t.Log() && m.Store() <= t.Store()
    && (m.Active? ==> t.Active? && Advances(m.process.node, t.process.node))
    && (m.Syncing? ==> t.Log() == [])
  }

  lemma OrderedAdvances(s: Node, t: Node)
    requires Ordered(s.signed) && LogBehind(s.signed, Position(s)) && Advances(s, t)
    ensures Ordered(t.signed)
  {
    forall i, j | 0 <= i < j < |t.signed| ensures Less(Rank(t.signed[i]), Rank(t.signed[j])) {
      if i < |s.signed| {
        assert s.signed[i] in s.signed && t.signed[i] == s.signed[i];
        if j < |s.signed| { assert t.signed[j] == s.signed[j]; }
      }
    }
  }

  lemma StepHears(g: ChainState, c: Config, e: Env, p: Process, i: Input)
    requires Wound(g, c, p) && CanTake(p, i)
    ensures Advances(p.node, Take(c, e, p, i).node)
    ensures Take(c, e, p, i).node.heard <= p.node.heard + Brought(i)
  {
    hide Inv, Fresh, Rung, Step, Trusts;
    match i
    case Deliver(ev) => StepOk(g, c, e, p.node, ev);
    case DeliverTock(t) => StepOk(g, c, e, p.node, TimedOut(t));
    case ReadTick =>
    case TimerExpires =>
  }

  lemma MemberStepOk(w: World, n: Net, a: Action)
    requires NetInv(w, n) && Enabled(w, n, a)
    ensures var t := MemberStep(w, n, a);
      && MemberMoves(n.members[a.id], t)
      && Genuine(w, n.pool, t.Heard())
      && MemberOk(w, n.pool + VotesOf(t.Log()), a.id, t)
  {
    hide NoConflict, PoolOk, Wound, ChainOk, CommitVotes, Carried, Take, CanTake, Ordered, Acceptable, Minority;
    var m := n.members[a.id];
    assert MemberOk(w, n.pool, a.id, m);
    match a
    case SyncBlock(id, full) =>
      if Acceptable(m.chain, full) { AcceptOk(w.genesis, m.heard, m.chain, m.store, full); }
    case Begin(id) =>
      LaunchOk(w.genesis, w.configs[id], m.chain, m.store, m.heard);
    case Act(id, e, i) => ActOk(w.genesis, w.configs[id], e, m.process, i);
  }

  lemma ActOk(g: ChainState, c: Config, e: Env, p: Process, i: Input)
    requires Wound(g, c, p) && CanTake(p, i) && Ordered(p.node.signed)
    ensures var q := Take(c, e, p, i);
      Wound(g, c, q) && Advances(p.node, q.node) && Ordered(q.node.signed) && q.node.heard <= p.node.heard + Brought(i)
  {
    hide Wound, Advances, Step, Brought, Ordered;
    TakeKeepsWound(g, c, e, p, i);
    StepHears(g, c, e, p, i);
    WoundLog(g, c, p);
    OrderedAdvances(p.node, Take(c, e, p, i).node);
  }

  lemma WoundLog(g: ChainState, c: Config, p: Process)
    requires Wound(g, c, p)
    ensures LogBehind(p.node.signed, Position(p.node))
  {
  }

  lemma LaunchOk(g: ChainState, c: Config, st: ChainState, store: seq<Stored>, heard: set<Vote>)
    requires IsGenesis(g) && ChainOk(g, heard, st, store)
    ensures var p := Launch(st, store, heard);
      Wound(g, c, p) && p.node.signed == [] && p.node.heard == heard && p.node.store == store && !p.node.failed
  {
    hide Inv, Fresh, Rung;
    StartNodeOk(g, c, st, store, heard);
  }

  // ---- The network invariant is kept ----

  lemma OtherMembersOk(w: World, n: Net, more: set<Vote>, id: Addr)
    requires id in n.members && id in w.configs && MemberOk(w, n.pool, id, n.members[id]) && n.pool <= more
    ensures MemberOk(w, more, id, n.members[id])
  {
    hide Wound, ChainOk;
  }

  lemma SignsAsItself(g: ChainState, c: Config, p: Process, v: Vote)
    requires Wound(g, c, p) && VoteMsg(v) in p.node.signed
    ensures c.key == Some(v.validator)
  {
    assert VoteOk(g, c, p.node.heard, v);
  }

  lemma PoolStaysOk(w: World, n: Net, a: Action)
    requires NetInv(w, n) && Enabled(w, n, a)
    ensures PoolOk(Apply(w, n, a))
  {
    hide NoConflict, MemberOk, MemberStep;
    var t := Apply(w, n, a);
    var m := MemberStep(w, n, a);
    MemberStepOk(w, n, a);
    forall v | v in t.pool ensures v.validator in t.members && VoteMsg(v) in t.members[v.validator].Log() {
      if v in n.pool {
        if v.validator == a.id {
          var i :| 0 <= i < |n.members[a.id].Log()| && n.members[a.id].Log()[i] == VoteMsg(v);
          assert m.Log()[i] == VoteMsg(v);
        }
      } else {
        assert VoteMsg(v) in m.Log();
        OwnLog(w, t.pool, a.id, m, v);
        assert w.configs[a.id].key == Some(v.validator);
      }
    }
  }

  lemma OwnLog(w: World, pool: set<Vote>, id: Addr, m: Member, v: Vote)
    requires id in w.configs && MemberOk(w, pool, id, m) && VoteMsg(v) in m.Log()
    ensures m.Active? && w.configs[id].key == Some(v.validator)
  {
    hide Wound;
    if m.Active? { SignsAsItself(w.genesis, w.configs[id], m.process, v); }
  }

  /** Going past a round, or signing nothing for it, is final: nobody becomes a candidate again. */
  lemma CandidatesShrink(w: World, n: Net, a: Action, h: nat, r: int, x: Hash)
    requires NetInv(w, n) && Enabled(w, n, a) && Choosable(w, Apply(w, n, a), h, r, x)
    ensures Choosable(w, n, h, r, x)
  {
    hide NoConflict, MemberOk, MemberStep, Acceptable;
    var t := Apply(w, n, a);
    MemberStepOk(w, n, a);
    forall c | c in Candidates(w, t, h, r, x) ensures c in Candidates(w, n, h, r, x) {
      if c !in w.faulty && Passed(n, c, h, r) {
        PassedStays(w, n, a, c, h, r);
        var v :| v in t.pool && v.kind == Precommit && v.height == h && v.round == r && v.value == x
          && v.validator == c;
        PassedIsSigned(w, n, a, v);
      }
    }
    QuorumMonotone(Vals(w), Candidates(w, t, h, r, x), Candidates(w, n, h, r, x));
  }

  /** A precommit for a round its signer had passed was signed before. */
  lemma PassedIsSigned(w: World, n: Net, a: Action, v: Vote)
    requires NetInv(w, n) && Enabled(w, n, a) && v in Apply(w, n, a).pool
    requires v.kind == Precommit && Passed(n, v.validator, v.height, v.round)
    ensures v in n.pool
  {
    hide NoConflict, MemberOk, MemberStep, Acceptable;
    var t := Apply(w, n, a);
    var c := v.validator;
    MemberStepOk(w, n, a);
    PoolStaysOk(w, n, a);
    assert MemberOk(w, n.pool, c, n.members[c]);
    MemberLog(w, n.pool, c, n.members[c]);
    if c == a.id {
      NewlySigned(n.members[c].process.node, t.members[c].process.node, VoteMsg(v));
    }
  }

  lemma MemberLog(w: World, pool: set<Vote>, id: Addr, m: Member)
    requires id in w.configs && MemberOk(w, pool, id, m)
    ensures forall v :: VoteMsg(v) in m.Log() ==> v in pool
    ensures Ordered(m.Log()) && Genuine(w, pool, m.Heard())
  {
  }

  lemma PassedStays(w: World, n: Net, a: Action, c: Addr, h: nat, r: int)
    requires Enabled(w, n, a) && Passed(n, c, h, r) && MemberMoves(n.members[a.id], MemberStep(w, n, a))
    ensures Passed(Apply(w, n, a), c, h, r)
  {
    hide MemberStep;
  }

  /** A message at or below the old position was signed before. */
  lemma NewlySigned(s: Node, t: Node, m: Message)
    requires Advances(s, t) && m in t.signed && AtMost(Rank(m), Position(s))
    ensures m in s.signed
  {
    var i :| 0 <= i < |t.signed| && t.signed[i] == m;
    if i < |s.signed| { assert s.signed[i] == m; }
  }

  /** An honest validator that prevoted in a later round has passed the earlier one. */
  lemma PrevotedPassed(w: World, n: Net, u: Vote, r: int)
    requires n.members.Keys == w.configs.Keys && PoolOk(n) && u in n.pool && u.kind == Prevote && r < u.round
    requires forall id :: id in n.members ==> MemberOk(w, n.pool, id, n.members[id])
    ensures Passed(n, u.validator, u.height, r)
  {
    hide Wound;
    var m := n.members[u.validator];
    OwnLog(w, n.pool, u.validator, m, u);
    WoundLog(w.genesis, w.configs[u.validator], m.process);
    assert AtMost(Rank(VoteMsg(u)), Position(m.process.node));
  }

  /** What an honest process that moved off a precommit saw. */
  lemma MovedOff(w: World, n: Net, v: Vote, u: Vote)
    requires n.members.Keys == w.configs.Keys && PoolOk(n) && v in n.pool && u in n.pool && v.validator == u.validator
    requires forall id :: id in n.members ==> MemberOk(w, n.pool, id, n.members[id])
    ensures Unlocked(w.genesis, n.members[v.validator].Heard(), v, u)
  {
    hide Wound;
    var m := n.members[u.validator];
    OwnLog(w, n.pool, u.validator, m, u);
    WoundUnlocked(w.genesis, w.configs[u.validator], m.process, v, u);
  }

  lemma WoundUnlocked(g: ChainState, c: Config, p: Process, v: Vote, u: Vote)
    requires Wound(g, c, p) && VoteMsg(v) in p.node.signed && VoteMsg(u) in p.node.signed
    ensures Unlocked(g, p.node.heard, v, u) && VoteOk(g, c, p.node.heard, v)
  {
  }

  lemma ApplyMembersOk(w: World, n: Net, a: Action)
    requires NetInv(w, n) && Enabled(w, n, a)
    ensures var t := Apply(w, n, a);
      && t.members.Keys == w.configs.Keys
      && forall id :: id in t.members ==>
           MemberOk(w, t.pool, id, t.members[id]) && Genuine(w, n.pool, t.members[id].Heard())
  {
    hide NoConflict, MemberStep, MemberOk, PoolOk;
    var t := Apply(w, n, a);
    MemberStepOk(w, n, a);
    forall id | id in t.members
      ensures MemberOk(w, t.pool, id, t.members[id]) && Genuine(w, n.pool, t.members[id].Heard())
    {
      if id != a.id {
        OtherMembersOk(w, n, t.pool, id);
        MemberLog(w, n.pool, id, n.members[id]);
      }
    }
  }

  /** The heart of safety: a conflicting polka would need an honest process that had already seen one. */
  lemma NoConflictStays(w: World, n: Net, a: Action, h: nat, r: int, r': int, x: Hash, y: Hash)
    requires NetInv(w, n) && Enabled(w, n, a)
    requires r < r' && x != ZeroHash && y != x && Majority(w, Apply(w, n, a).pool, Prevote, h, r', y)
    ensures !Choosable(w, Apply(w, n, a), h, r, x)
  {
    hide MemberOk, MemberStep, Acceptable, Enabled, Apply;
    var t := Apply(w, n, a);
    if Choosable(w, t, h, r, x) {
      ApplyMembersOk(w, n, a);
      PoolStaysOk(w, n, a);
      CandidatesShrink(w, n, a, h, r, x);
      QuorumsShareHonest(Vals(w), w.faulty + Backers(t.pool, Prevote, h, r', y), Candidates(w, t, h, r, x), w.faulty);
      var m :| m in w.faulty + Backers(t.pool, Prevote, h, r', y) && m in Candidates(w, t, h, r, x) && m !in w.faulty;
      var u :| u in t.pool && u.kind == Prevote && u.height == h && u.round == r' && u.value == y && u.validator == m;
      PrevotedPassed(w, t, u, r);
      var v :| v in t.pool && v.kind == Precommit && v.height == h && v.round == r && v.value == x && v.validator == m;
      MovedOff(w, t, v, u);
      var r'': int, z: Hash :| r < r'' <= r' && z != x && Evidence(Vals(w), t.members[m].Heard(), Prevote, h, r'', z);
      EvidenceIsMajority(w, n.pool, t.members[m].Heard(), Prevote, h, r'', z);
      assert false;
    }
  }

  lemma ApplyOk(w: World, n: Net, a: Action)
    requires NetInv(w, n) && Enabled(w, n, a)
    ensures NetInv(w, Apply(w, n, a))
  {
    hide MemberOk, PoolOk, MemberStep;
    var t := Apply(w, n, a);
    ApplyMembersOk(w, n, a);
    PoolStaysOk(w, n, a);
    forall h: nat, r: int, r': int, x: Hash, y: Hash
      | r < r' && x != ZeroHash && y != x && Majority(w, t.pool, Prevote, h, r', y)
      ensures !Choosable(w, t, h, r, x)
    {
      NoConflictStays(w, n, a, h, r, r', x, y);
    }
  }

  lemma NothingYet(w: World, k: Kind, h: nat, r: int, x: Hash)
    requires Minority(Vals(w), w.faulty)
    ensures !Majority(w, {}, k, h, r, x)
  {
    assert w.faulty + Backers({}, k, h, r, x) == w.faulty;
  }

  lemma InitialOk(w: World, n: Net)
    requires WorldOk(w) && Initial(w, n)
    ensures NetInv(w, n)
  {
    forall h: nat, r: int, r': int, x: Hash, y: Hash
      ensures r < r' && x != ZeroHash && y != x && Majority(w, n.pool, Prevote, h, r', y) ==> !Choosable(w, n, h, r, x)
    {
      NothingYet(w, Prevote, h, r', y);
    }
  }

  lemma {:induction false} RunOk(w: World, run: seq<Net>, actions: seq<Action>, i: nat)
    requires WorldOk(w) && IsRun(w, run, actions) && i < |run|
    ensures NetInv(w, run[i])
  {
    hide NetInv, Initial, Enabled, Apply, WorldOk;
    if i == 0 {
      InitialOk(w, run[0]);
    } else {
      RunOk(w, run, actions, i - 1);
      ApplyOk(w, run[i - 1], actions[i - 1]);
    }
  }

  // ---- Agreement ----

  /** In one round at most one value gets a majority of one kind, because honest processes vote once. */
  lemma OneMajority(w: World, n: Net, k: Kind, h: nat, r: int, x: Hash, y: Hash)
    requires NetInv(w, n) && Majority(w, n.pool, k, h, r, x) && Majority(w, n.pool, k, h, r, y)
    ensures x == y
  {
    hide MemberOk, NoConflict;
    var a, b := w.faulty + Backers(n.pool, k, h, r, x), w.faulty + Backers(n.pool, k, h, r, y);
    QuorumsShareHonest(Vals(w), a, b, w.faulty);
    var m :| m in a && m in b && m !in w.faulty;
    var v :| v in n.pool && v.kind == k && v.height == h && v.round == r && v.value == x && v.validator == m;
    var u :| u in n.pool && u.kind == k && u.height == h && u.round == r && u.value == y && u.validator == m;
    MemberLog(w, n.pool, m, n.members[m]);
    SignedOnce(n.members[m].Log(), VoteMsg(v), VoteMsg(u));
  }

  /**
    Once a block has a precommit majority, every prevote majority of that round or a later one is for it;
    none is for anything else, nil included.
  */
  lemma PolkasFollowDecision(w: World, n: Net, h: nat, r: int, x: Hash, r': int, y: Hash)
    requires NetInv(w, n) && r <= r' && x != ZeroHash
    requires Majority(w, n.pool, Precommit, h, r, x) && Majority(w, n.pool, Prevote, h, r', y)
    ensures y == x
  {
    hide MemberOk, PoolOk, Majority;
    if r == r' {
      PrecommitNeedsPolka(w, n, h, r, x);
      OneMajority(w, n, Prevote, h, r, x, y);
    } else {
      StillChoosable(w, n, h, r, x);
    }
  }

  /** Two precommit majorities for blocks at one height, in whatever rounds, are for the same block. */
  lemma MajoritiesAgree(w: World, n: Net, h: nat, r: int, x: Hash, r': int, y: Hash)
    requires NetInv(w, n) && r <= r' && x != ZeroHash && y != ZeroHash
    requires Majority(w, n.pool, Precommit, h, r, x) && Majority(w, n.pool, Precommit, h, r', y)
    ensures x == y
  {
    hide NetInv, Majority;
    PrecommitNeedsPolka(w, n, h, r', y);
    PolkasFollowDecision(w, n, h, r, x, r', y);
  }

  lemma StillChoosable(w: World, n: Net, h: nat, r: int, x: Hash)
    requires Majority(w, n.pool, Precommit, h, r, x)
    ensures Choosable(w, n, h, r, x)
  {
    var a := w.faulty + Backers(n.pool, Precommit, h, r, x);
    forall c | c in a && HasAddress(Vals(w), c) ensures c in Candidates(w, n, h, r, x) {
      var v :| v in Vals(w) && v.addr == c;
    }
    PowerMonotone(Vals(w), a, Candidates(w, n, h, r, x));
  }

  lemma SignedOnce(log: seq<Message>, a: Message, b: Message)
    requires Ordered(log) && a in log && b in log && Rank(a) == Rank(b)
    ensures a == b
  {
    var i :| 0 <= i < |log| && log[i] == a;
    var j :| 0 <= j < |log| && log[j] == b;
    OrderedApart(log);
  }

  lemma OrderedApart(log: seq<Message>)
    requires Ordered(log)
    ensures forall i, j :: 0 <= i < |log| && 0 <= j < |log| && Rank(log[i]) == Rank(log[j]) ==> i == j
  {
    forall i, j | 0 <= i < |log| && 0 <= j < |log| && i != j ensures Rank(log[i]) != Rank(log[j]) {
      if i < j { assert Less(Rank(log[i]), Rank(log[j])); } else { assert Less(Rank(log[j]), Rank(log[i])); }
    }
  }

  /** An honest precommit of a block rests on a polka for it in the same round. */
  lemma PrecommitNeedsPolka(w: World, n: Net, h: nat, r: int, x: Hash)
    requires NetInv(w, n) && x != ZeroHash && Majority(w, n.pool, Precommit, h, r, x)
    ensures Majority(w, n.pool, Prevote, h, r, x)
  {
    hide MemberOk, NoConflict, Wound;
    var a := w.faulty + Backers(n.pool, Precommit, h, r, x);
    QuorumHasHonest(Vals(w), a, w.faulty);
    var m :| m in a && m !in w.faulty;
    var v :| v in n.pool && v.kind == Precommit && v.height == h && v.round == r && v.value == x && v.validator == m;
    HonestVoteOk(w, n, v);
    MemberLog(w, n.pool, m, n.members[m]);
    EvidenceIsMajority(w, n.pool, n.members[m].Heard(), Prevote, h, r, x);
  }

  lemma HonestVoteOk(w: World, n: Net, v: Vote)
    requires NetInv(w, n) && v in n.pool
    ensures VoteOk(w.genesis, w.configs[v.validator], n.members[v.validator].Heard(), v)
  {
    hide NoConflict, Wound;
    var m := n.members[v.validator];
    OwnLog(w, n.pool, v.validator, m, v);
    WoundUnlocked(w.genesis, w.configs[v.validator], m.process, v, v);
  }

  /** A block is decided at a height when some round has a precommit majority for it. */
  ghost predicate DecidedIn(w: World, n: Net, h: nat, x: Hash) {
    exists r: int :: Majority(w, n.pool, Precommit, h, r, x)
  }

  lemma OneDecision(w: World, n: Net, h: nat, x: Hash, y: Hash)
    requires NetInv(w, n) && x != ZeroHash && y != ZeroHash && DecidedIn(w, n, h, x) && DecidedIn(w, n, h, y)
    ensures x == y
  {
    var r: int :| Majority(w, n.pool, Precommit, h, r, x);
    var r': int :| Majority(w, n.pool, Precommit, h, r', y);
    if r <= r' { MajoritiesAgree(w, n, h, r, x, r', y); } else { MajoritiesAgree(w, n, h, r', y, r, x); }
  }

  lemma HeardDecision(w: World, n: Net, id: Addr, h: nat, x: Hash)
    requires NetInv(w, n) && id in n.members && Decided(Vals(w), n.members[id].Heard(), h, x)
    ensures DecidedIn(w, n, h, x)
  {
    hide NoConflict, MemberOk;
    var r: int :| Evidence(Vals(w), n.members[id].Heard(), Precommit, h, r, x);
    MemberLog(w, n.pool, id, n.members[id]);
    EvidenceIsMajority(w, n.pool, n.members[id].Heard(), Precommit, h, r, x);
  }

  lemma StoredIsOk(w: World, n: Net, id: Addr)
    requires NetInv(w, n) && id in n.members
    ensures forall i :: 0 <= i < |n.members[id].Store()| ==>
      StoredOk(w.genesis, n.members[id].Heard(), n.members[id].Store(), i)
  {
    hide NoConflict;
    assert MemberOk(w, n.pool, id, n.members[id]);
  }

  lemma StoredDecided(w: World, n: Net, id: Addr, i: nat)
    requires NetInv(w, n) && id in n.members && i < |n.members[id].Store()|
    ensures DecidedIn(w, n, i + 1, HashOf(n.members[id].Store()[i].block))
  {
    hide NetInv;
    StoredIsOk(w, n, id);
    assert StoredOk(w.genesis, n.members[id].Heard(), n.members[id].Store(), i);
    HeardDecision(w, n, id, i + 1, HashOf(n.members[id].Store()[i].block));
  }

  lemma StoresAgree(w: World, n: Net, id: Addr, id': Addr, i: nat)
    requires NetInv(w, n) && id in n.members && id' in n.members
    requires i < |n.members[id].Store()| && i < |n.members[id'].Store()|
    ensures n.members[id].Store()[i].block == n.members[id'].Store()[i].block
  {
    hide NetInv;
    StoredDecided(w, n, id, i);
    StoredDecided(w, n, id', i);
    OneDecision(w, n, i + 1, HashOf(n.members[id].Store()[i].block), HashOf(n.members[id'].Store()[i].block));
  }

  /**
    Chain agreement, in every run: the chains two honest processes have stored agree wherever both reach,
    whichever way each block got there, even when read at different times of the run.
  */
  lemma ChainsAgree(w: World, run: seq<Net>, actions: seq<Action>, k: nat, k': nat, id: Addr, id': Addr, i: nat)
    requires WorldOk(w) && IsRun(w, run, actions) && k <= k' < |run|
    requires id in w.configs && id' in w.configs
    ensures id in run[k].members && id' in run[k'].members
    ensures i < |run[k].members[id].Store()| && i < |run[k'].members[id'].Store()| ==>
      run[k].members[id].Store()[i].block == run[k'].members[id'].Store()[i].block
  {
    hide NetInv, IsRun;
    RunMembers(w, run, actions, k);
    RunMembers(w, run, actions, k');
    RunOk(w, run, actions, k');
    StoresGrow(w, run, actions, k, k', id);
    if i < |run[k].members[id].Store()| && i < |run[k'].members[id'].Store()| {
      StoresAgree(w, run[k'], id, id', i);
    }
  }

  lemma RunMembers(w: World, run: seq<Net>, actions: seq<Action>, k: nat)
    requires WorldOk(w) && IsRun(w, run, actions) && k < |run|
    ensures run[k].members.Keys == w.configs.Keys
  {
    RunOk(w, run, actions, k);
  }

  lemma {:induction false} StoresGrow(w: World, run: seq<Net>, actions: seq<Action>, k: nat, k': nat, id: Addr)
    requires WorldOk(w) && IsRun(w, run, actions) && k <= k' < |run| && id in w.configs
    ensures id in run[k].members && id in run[k'].members
    ensures run[k].members[id].Store() <= run[k'].members[id].Store()
  {
    hide NetInv, MemberStep;
    RunMembers(w, run, actions, k');
    if k < k' {
      StoresGrow(w, run, actions, k, k' - 1, id);
      RunOk(w, run, actions, k' - 1);
      MemberStepOk(w, run[k' - 1], actions[k' - 1]);
    }
  }
}
