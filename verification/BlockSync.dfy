/**
  Catching up: ask every peer for its height, fetch block after block from the highest, check each one,
  apply it and save it, until no peer is ahead.  What peers answer is arbitrary input.
*/
module BlockSyncs {
  import opened Quorums
  import opened Votes
  import opened Executor
  import opened Machine
  import opened NodeInvariant
  import opened CatchUp

  /** One round of hello requests: the height each peer reports, None if the request failed. */
  type Hellos = seq<Option<nat>>

  /** `Unanswered`: the peers' answers run out and the routine is still waiting for one. */
  datatype Outcome = Finished | Ahead | Refused | Unanswered | Panicked

  // ---- What a run of answers leads to ----

  datatype Progress = Progress(chain: ChainState, store: seq<Stored>)

  predicate CanTake(p: Progress, full: Option<FullBlock>) {
    full.Some? && Acceptable(p.chain, full.value)
  }

  function TakeBlock(p: Progress, full: FullBlock): Progress {
    Progress(UpdateState(p.chain, full.block), p.store + [Stored(full.block, full.commit)])
  }

  function TakeNext(p: Option<Progress>, full: Option<FullBlock>): Option<Progress> {
    if p.Some? && CanTake(p.value, full) then Some(TakeBlock(p.value, full.value)) else None
  }

  /** Taking answers one after the other, as long as each is a block that passes both checks; None once one does not. */
  function TakeAll(p: Progress, answers: seq<Option<FullBlock>>): Option<Progress> {
    if answers == [] then Some(p)
    else TakeNext(TakeAll(p, answers[..|answers| - 1]), answers[|answers| - 1])
  }

  /** The signatures the commits of these answers carry. */
  function Signatures(answers: seq<Option<FullBlock>>): set<Vote> {
    if answers == [] then {}
    else
      var last := answers[|answers| - 1];
      Signatures(answers[..|answers| - 1]) + if last.Some? then CommitVotes(last.value.commit) else {}
  }

  /**
    However many blocks are taken from whomever, chain state and store stay together, each block decided by its
    commit.
  */
  lemma {:induction false} TakenOk(g: ChainState, heard: set<Vote>, p: Progress, answers: seq<Option<FullBlock>>)
    requires IsGenesis(g) && ChainOk(g, heard, p.chain, p.store) && TakeAll(p, answers).Some?
    ensures var q := TakeAll(p, answers).value;
      && ChainOk(g, heard + Signatures(answers), q.chain, q.store)
      && p.store <= q.store && |q.store| == |p.store| + |answers|
  {
    hide ChainOk, Acceptable, CommitVotes;
    if answers == [] {
      assert heard + {} == heard;
    } else {
      var before, last := answers[..|answers| - 1], answers[|answers| - 1];
      TakenOk(g, heard, p, before);
      var q := TakeAll(p, before).value;
      AcceptOk(g, heard + Signatures(before), q.chain, q.store, last.value);
      assert heard + Signatures(answers) == heard + Signatures(before) + CommitVotes(last.value.commit);
    }
  }

  /** The next block taken carries the next number: SaveBlock's contiguity check cannot fail. */
  lemma NextNumber(g: ChainState, heard: set<Vote>, p: Progress, full: FullBlock)
    requires IsGenesis(g) && ChainOk(g, heard, p.chain, p.store) && Acceptable(p.chain, full)
    ensures full.block.number == |p.store| + 1
  {
    AcceptOk(g, heard, p.chain, p.store, full);
  }

  // ---- The heights peers report ----

  function Highest(height: nat, hellos: Hellos): nat {
    if hellos == [] then height
    else
      var before := Highest(height, hellos[..|hellos| - 1]);
      var last := hellos[|hellos| - 1];
      if last.Some? && last.value > before then last.value else before
  }

  function HighestOf(rounds: seq<Hellos>): nat {
    if rounds == [] then 0 else Highest(HighestOf(rounds[..|rounds| - 1]), rounds[|rounds| - 1])
  }

  /** It is the largest height reported, 0 if none is. */
  lemma {:induction false} HighestIs(height: nat, hellos: Hellos)
    ensures height <= Highest(height, hellos)
    ensures forall i :: 0 <= i < |hellos| && hellos[i].Some? ==> hellos[i].value <= Highest(height, hellos)
    ensures Highest(height, hellos) == height || Some(Highest(height, hellos)) in hellos
  {
    if hellos != [] {
      var before := hellos[..|hellos| - 1];
      HighestIs(height, before);
      assert forall i :: 0 <= i < |before| ==> before[i] == hellos[i];
    }
  }

  class BlockSync {
    var chainState: ChainState
    var blockStore: seq<Stored>

    ghost function State(): Progress
      reads this
    {
      Progress(chainState, blockStore)
    }

    ghost predicate Valid(g: ChainState, heard: set<Vote>)
      reads this
    {
      IsGenesis(g) && ChainOk(g, heard, chainState, blockStore)
    }

    constructor (st: ChainState, store: seq<Stored>)
      ensures State() == Progress(st, store)
    {
      chainState, blockStore := st, store;
    }

    /** One round of hello requests; `peer` is the index of the peer to fetch from. */
    method AskHeights(maxHeight: nat, maxPeer: nat, hellos: Hellos) returns (height: nat, peer: nat)
      ensures height == Highest(maxHeight, hellos)
      ensures height > maxHeight ==> peer < |hellos| && hellos[peer] == Some(height)
    {
      height, peer := maxHeight, maxPeer;
      for i := 0 to |hellos|
        invariant height == Highest(maxHeight, hellos[..i])
        invariant maxHeight <= height
        invariant height > maxHeight ==> peer < i && hellos[peer] == Some(height)
      {
        assert hellos[..i + 1][..i] == hellos[..i];
        if hellos[i].Some? {
          if hellos[i].value > height {
            height, peer := hellos[i].value, i;
          } else if height == 0 {
            peer := i;
          }
        }
      }
      assert hellos[..|hellos|] == hellos;
    }

    /** One pass of the fetching loop, up to `maxHeight`. */
    method Fetch(maxHeight: nat, answers: seq<Option<FullBlock>>) returns (outcome: Outcome, used: nat)
      requires |blockStore| <= maxHeight
      modifies this
      ensures used <= |answers|
      ensures TakeAll(old(State()), answers[..used]) == Some(State())
      ensures |blockStore| == old(|blockStore|) + used <= maxHeight
      ensures outcome == Finished ==> |blockStore| == maxHeight
      ensures outcome != Finished ==> |blockStore| < maxHeight
      ensures outcome == Refused ==> used < |answers| && !CanTake(State(), answers[used])
      ensures outcome == Unanswered ==> used == |answers|
      ensures outcome == Panicked ==>
        used < |answers| && CanTake(State(), answers[used]) && answers[used].value.block.number != |blockStore| + 1
      ensures outcome != Ahead
    {
      hide Acceptable;
      used := 0;
      var height := |blockStore| + 1;
      while height <= maxHeight
        invariant used <= |answers| && height == |blockStore| + 1 <= maxHeight + 1
        invariant TakeAll(old(State()), answers[..used]) == Some(State())
        invariant |blockStore| == old(|blockStore|) + used
        decreases maxHeight + 1 - height
      {
        if used == |answers| { return Unanswered, used; }
        var vb := answers[used];
        if vb.None? { return Refused, used; }
        if !Acceptable(chainState, vb.value) { return Refused, used; }
        if vb.value.block.number != |blockStore| + 1 { return Panicked, used; }
        assert answers[..used + 1][..used] == answers[..used];
        blockStore := blockStore + [Stored(vb.value.block, vb.value.commit)];
        chainState := UpdateState(chainState, vb.value.block);
        used := used + 1;
        height := height + 1;
      }
      outcome := Finished;
    }

    /**
      The catch-up loop.  Whatever peers answer, exactly the first `used` blocks are taken, each of which
      passed both checks; it ends `Finished` only level with the highest peer of all the rounds asked.
    */
    method Sync(rounds: seq<Hellos>, answers: seq<Option<FullBlock>>) returns (outcome: Outcome, asked: nat, used: nat)
      modifies this
      ensures asked <= |rounds| && used <= |answers|
      ensures TakeAll(old(State()), answers[..used]) == Some(State())
      ensures |blockStore| == old(|blockStore|) + used
      ensures outcome == Finished ==> |blockStore| == HighestOf(rounds[..asked])
      ensures outcome == Ahead ==> used == 0 && |blockStore| > HighestOf(rounds[..asked])
      ensures outcome == Refused ==> used < |answers| && !CanTake(State(), answers[used])
      ensures outcome == Unanswered ==> used == |answers| || asked == |rounds|
      ensures outcome == Panicked ==>
        used < |answers| && CanTake(State(), answers[used]) && answers[used].value.block.number != |blockStore| + 1
    {
      hide Acceptable, TakeAll, Highest;
      var maxHeight, maxPeer := 0, 0;
      assert TakeAll(State(), answers[..0]) == Some(State()) by { NothingTaken(State()); }
      asked, used := 0, 0;
      while asked < |rounds|
        invariant asked <= |rounds| && used <= |answers|
        invariant maxHeight == HighestOf(rounds[..asked])
        invariant TakeAll(old(State()), answers[..used]) == Some(State())
        invariant |blockStore| == old(|blockStore|) + used
        invariant used == 0 || |blockStore| == maxHeight
      {
        assert rounds[..asked + 1][..asked] == rounds[..asked];
        HighestIs(maxHeight, rounds[asked]);
        maxHeight, maxPeer := AskHeights(maxHeight, maxPeer, rounds[asked]);
        asked := asked + 1;
        var localLastHeight := |blockStore|;
        if maxHeight < localLastHeight { return Ahead, asked, used; }
        if maxHeight == localLastHeight { return Finished, asked, used; }
        var taken;
        label Fetching:
        outcome, taken := Fetch(maxHeight, answers[used..]);
        TakeMore(old(State()), answers, used, taken);
        used := used + taken;
        if outcome != Finished { return outcome, asked, used; }
      }
      return Unanswered, asked, used;
    }

    /** Syncing keeps chain state and store together, and never saves a block out of order. */
    method SyncSafely(ghost g: ChainState, ghost heard: set<Vote>, rounds: seq<Hellos>, answers: seq<Option<FullBlock>>)
      returns (outcome: Outcome, asked: nat, used: nat)
      requires Valid(g, heard)
      modifies this
      ensures used <= |answers| && Valid(g, heard + Signatures(answers[..used]))
      ensures old(blockStore) <= blockStore && chainState.lastBlockHeight == |blockStore|
      ensures outcome != Panicked
      ensures outcome == Finished ==> asked <= |rounds| && |blockStore| == HighestOf(rounds[..asked])
    {
      hide TakeAll;
      outcome, asked, used := Sync(rounds, answers);
      TakenOk(g, heard, old(State()), answers[..used]);
      if outcome == Panicked {
        NextNumber(g, heard + Signatures(answers[..used]), State(), answers[used].value);
      }
    }
  }

  lemma TakeOne(p: Progress, xs: seq<Option<FullBlock>>, x: Option<FullBlock>)
    ensures TakeAll(p, xs + [x]) == TakeNext(TakeAll(p, xs), x)
  {
    hide TakeNext;
    assert (xs + [x])[..|xs|] == xs;
  }

  lemma NothingTaken(p: Progress)
    ensures TakeAll(p, []) == Some(p)
  {
  }

  lemma {:induction false} TakeConcat(p: Progress, xs: seq<Option<FullBlock>>, ys: seq<Option<FullBlock>>)
    requires TakeAll(p, xs).Some?
    ensures TakeAll(p, xs + ys) == TakeAll(TakeAll(p, xs).value, ys)
  {
    hide TakeAll, TakeNext;
    var q := TakeAll(p, xs).value;
    if ys == [] {
      assert xs + ys == xs;
      NothingTaken(q);
    } else {
      var front, last := ys[..|ys| - 1], ys[|ys| - 1];
      TakeConcat(p, xs, front);
      TakeOne(p, xs + front, last);
      TakeOne(q, front, last);
      assert ys == front + [last] && xs + ys == xs + front + [last];
    }
  }

  lemma TakeMore(p: Progress, answers: seq<Option<FullBlock>>, used: nat, taken: nat)
    requires used + taken <= |answers| && TakeAll(p, answers[..used]).Some?
    ensures TakeAll(p, answers[..used + taken]) == TakeAll(TakeAll(p, answers[..used]).value, answers[used..][..taken])
  {
    hide TakeAll;
    assert answers[..used + taken] == answers[..used] + answers[used..][..taken];
    TakeConcat(p, answers[..used], answers[used..][..taken]);
  }
}
