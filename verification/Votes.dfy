/**
  Hashes, blocks, votes, vote sets and commits.  These types live in the go-ethereum fork the
  repository depends on; what is stated here is the contract the consensus code relies on.
  A hash is modelled as the block it was taken of, so it identifies the whole block: parent hash
  (hence the whole prefix of the chain) and LastCommit included.
*/
module Votes {
  import opened Quorums

  datatype Hash = ZeroHash | HashOf(block: Block)

  datatype Block = Block(
    parent: Hash,
    number: nat,
    timeMs: nat,
    time: nat,
    coinbase: Addr,
    nextValidators: seq<Addr>,
    lastCommit: Commit)

  /** `valid`: the signature verifies against the precommit rebuilt from the commit's height, round and block id. */
  datatype CommitSig = Absent | Present(validator: Addr, timeMs: nat, valid: bool)

  datatype Commit = Commit(height: nat, round: int, blockID: Hash, sigs: seq<CommitSig>)

  /** A block together with the commit carried in its header, which is not part of its hash. */
  datatype FullBlock = FullBlock(block: Block, commit: Commit)

  datatype Kind = Prevote | Precommit

  datatype Vote = Vote(kind: Kind, height: nat, round: nat, value: Hash, validator: Addr, timeMs: nat)

  datatype Proposal = Proposal(height: nat, round: int, polRound: int, block: Block, signer: Addr)

  /** block.HashTo(id), false on a nil block. */
  predicate HashesTo(block: Option<Block>, id: Hash) {
    block.Some? && HashOf(block.value) == id
  }

  // ---- Vote sets: at most one vote per validator ----

  datatype Ballot = Ballot(value: Hash, timeMs: nat)

  type Ballots = map<Addr, Ballot>

  function VotersFor(m: Ballots, x: Hash): set<Addr> {
    set a | a in m && m[a].value == x
  }

  predicate HasTwoThirdsAny(vals: ValidatorSet, m: Ballots) {
    Quorum(vals, m.Keys)
  }

  /** The one value more than two thirds of the power voted for, if there is one. */
  function TwoThirdsMajority(vals: ValidatorSet, m: Ballots): Option<Hash> {
    FindMajority(vals, vals, m)
  }

  function FindMajority(vals: ValidatorSet, candidates: seq<Validator>, m: Ballots): Option<Hash> {
    if candidates == [] then None
    else
      var a := candidates[0].addr;
      if a in m && Quorum(vals, VotersFor(m, m[a].value)) then Some(m[a].value)
      else FindMajority(vals, candidates[1..], m)
  }

  predicate HasTwoThirdsMajority(vals: ValidatorSet, m: Ballots) {
    TwoThirdsMajority(vals, m).Some?
  }

  predicate HasAll(vals: ValidatorSet, m: Ballots) {
    forall v :: v in vals ==> v.addr in m
  }

  lemma {:induction false} FindMajorityIs(vals: ValidatorSet, candidates: seq<Validator>, m: Ballots, x: Hash)
    ensures FindMajority(vals, candidates, m) == Some(x) ==> Quorum(vals, VotersFor(m, x))
    ensures Quorum(vals, VotersFor(m, x)) && (exists v :: v in candidates && v.addr in VotersFor(m, x))
            ==> FindMajority(vals, candidates, m) == Some(x)
  {
    if candidates != [] {
      FindMajorityIs(vals, candidates[1..], m, x);
      var a := candidates[0].addr;
      if a in m && Quorum(vals, VotersFor(m, m[a].value)) && Quorum(vals, VotersFor(m, x)) {
        QuorumsMeet(vals, VotersFor(m, m[a].value), VotersFor(m, x));
      }
    }
  }

  /** TwoThirdsMajority finds exactly the value backed by a quorum. */
  lemma MajorityIsQuorum(vals: ValidatorSet, m: Ballots, x: Hash)
    ensures TwoThirdsMajority(vals, m) == Some(x) <==> Quorum(vals, VotersFor(m, x))
  {
    FindMajorityIs(vals, vals, m, x);
    if Quorum(vals, VotersFor(m, x)) {
      QuorumsMeet(vals, VotersFor(m, x), VotersFor(m, x));
    }
  }

  /** A majority stays once reached, whatever vote is added. */
  lemma MajorityStays(vals: ValidatorSet, m: Ballots, a: Addr, b: Ballot, x: Hash)
    requires a !in m
    requires TwoThirdsMajority(vals, m) == Some(x)
    ensures TwoThirdsMajority(vals, m[a := b]) == Some(x)
  {
    MajorityIsQuorum(vals, m, x);
    MajorityIsQuorum(vals, m[a := b], x);
    QuorumMonotone(vals, VotersFor(m, x), VotersFor(m[a := b], x));
  }

  lemma MajorityIsAny(vals: ValidatorSet, m: Ballots, x: Hash)
    requires TwoThirdsMajority(vals, m) == Some(x)
    ensures HasTwoThirdsAny(vals, m)
  {
    MajorityIsQuorum(vals, m, x);
    QuorumMonotone(vals, VotersFor(m, x), m.Keys);
  }

  // ---- Commits ----

  datatype VoteSet = VoteSet(height: nat, round: int, ballots: Ballots)

  function Signers(commit: Commit): set<Addr> {
    set s | s in commit.sigs && s.Present? :: s.validator
  }

  /** Every signature present sits at its validator's index and verifies, and together they are a quorum. */
  predicate VerifyCommit(vals: ValidatorSet, blockID: Hash, height: nat, commit: Commit) {
    && commit.height == height
    && commit.round >= 0
    && commit.blockID == blockID
    && |commit.sigs| == |vals|
    && (forall i :: 0 <= i < |vals| && commit.sigs[i].Present? ==>
          commit.sigs[i].validator == vals[i].addr && commit.sigs[i].valid)
    && Quorum(vals, Signers(commit))
  }

  /** The votes whose signatures a verified commit carries. */
  function CommitVotes(commit: Commit): set<Vote> {
    set s | commit.round >= 0 && s in commit.sigs && s.Present? && s.valid ::
      Vote(Precommit, commit.height, commit.round, commit.blockID, s.validator, s.timeMs)
  }

  function MakeSig(v: Validator, m: Ballots, x: Hash): CommitSig {
    if v.addr in m && m[v.addr].value == x then Present(v.addr, m[v.addr].timeMs, true) else Absent
  }

  /** VoteSet.MakeCommit of a set with a majority; votes for anything else are recorded as absent. */
  function MakeCommit(vals: ValidatorSet, vs: VoteSet): Commit
    requires HasTwoThirdsMajority(vals, vs.ballots)
  {
    var x := TwoThirdsMajority(vals, vs.ballots).value;
    Commit(vs.height, vs.round, x, seq(|vals|, i requires 0 <= i < |vals| => MakeSig(vals[i], vs.ballots, x)))
  }

  function {:induction false} SigBallots(sigs: seq<CommitSig>, x: Hash): (m: Ballots)
    ensures forall a :: a in m <==> exists s :: s in sigs && s.Present? && s.validator == a
    ensures forall a :: a in m ==>
      m[a].value == x && exists s :: s in sigs && s.Present? && s.validator == a && s.timeMs == m[a].timeMs
  {
    if sigs == [] then map[]
    else
      var rest := SigBallots(sigs[1..], x);
      match sigs[0]
      case Absent => rest
      case Present(a, t, _) => rest[a := Ballot(x, t)]
  }

  function CommitToVoteSet(commit: Commit): VoteSet {
    VoteSet(commit.height, commit.round, SigBallots(commit.sigs, commit.blockID))
  }

  /** A commit made of a vote set with a majority verifies, for that majority. */
  lemma MadeCommitVerifies(vals: ValidatorSet, vs: VoteSet, x: Hash)
    requires vs.round >= 0 && TwoThirdsMajority(vals, vs.ballots) == Some(x)
    ensures VerifyCommit(vals, x, vs.height, MakeCommit(vals, vs))
  {
    var commit := MakeCommit(vals, vs);
    MajorityIsQuorum(vals, vs.ballots, x);
    forall a | a in VotersFor(vs.ballots, x) && HasAddress(vals, a) ensures a in Signers(commit) {
      var v :| v in vals && v.addr == a;
      var i :| 0 <= i < |vals| && vals[i] == v;
      assert commit.sigs[i] in commit.sigs;
    }
    PowerMonotone(vals, VotersFor(vs.ballots, x), Signers(commit));
  }

  /** The vote set rebuilt from a verified commit has a majority for the committed block. */
  lemma CommitVoteSetMajority(vals: ValidatorSet, blockID: Hash, height: nat, commit: Commit)
    requires VerifyCommit(vals, blockID, height, commit)
    ensures TwoThirdsMajority(vals, CommitToVoteSet(commit).ballots) == Some(blockID)
  {
    var m := CommitToVoteSet(commit).ballots;
    MajorityIsQuorum(vals, m, blockID);
    assert Signers(commit) <= VotersFor(m, blockID);
    QuorumMonotone(vals, Signers(commit), VotersFor(m, blockID));
  }

  // ---- Evidence: quorums among a set of signed votes ----

  function Backers(votes: set<Vote>, k: Kind, h: nat, r: int, x: Hash): set<Addr> {
    set v | v in votes && v.kind == k && v.height == h && v.round == r && v.value == x :: v.validator
  }

  /** `votes` hold more than two thirds of the power for `x`, of one kind, at one height and round. */
  predicate Evidence(vals: ValidatorSet, votes: set<Vote>, k: Kind, h: nat, r: int, x: Hash) {
    Quorum(vals, Backers(votes, k, h, r, x))
  }

  lemma EvidenceMonotone(vals: ValidatorSet, a: set<Vote>, b: set<Vote>, k: Kind, h: nat, r: int, x: Hash)
    requires Evidence(vals, a, k, h, r, x) && a <= b
    ensures Evidence(vals, b, k, h, r, x)
  {
    QuorumMonotone(vals, Backers(a, k, h, r, x), Backers(b, k, h, r, x));
  }

  lemma CommitIsEvidence(vals: ValidatorSet, blockID: Hash, height: nat, commit: Commit)
    requires VerifyCommit(vals, blockID, height, commit)
    ensures Evidence(vals, CommitVotes(commit), Precommit, height, commit.round, blockID)
  {
    forall a | a in Signers(commit)
      ensures a in Backers(CommitVotes(commit), Precommit, height, commit.round, blockID)
    {
      var s :| s in commit.sigs && s.Present? && s.validator == a;
      var i :| 0 <= i < |commit.sigs| && commit.sigs[i] == s;
      assert Vote(Precommit, commit.height, commit.round, commit.blockID, a, s.timeMs) in CommitVotes(commit);
    }
    QuorumMonotone(vals, Signers(commit), Backers(CommitVotes(commit), Precommit, height, commit.round, blockID));
  }

  /** Every ballot of this set of precommits is one of `votes`. */
  ghost predicate DrawnFrom(votes: set<Vote>, vs: VoteSet) {
    && vs.round >= 0
    && forall a :: a in vs.ballots ==>
         Vote(Precommit, vs.height, vs.round, vs.ballots[a].value, a, vs.ballots[a].timeMs) in votes
  }

  /** A commit made of a vote set carries only votes of that set. */
  lemma MadeCommitDrawn(vals: ValidatorSet, vs: VoteSet, votes: set<Vote>)
    requires DrawnFrom(votes, vs) && HasTwoThirdsMajority(vals, vs.ballots)
    ensures CommitVotes(MakeCommit(vals, vs)) <= votes
  {
    hide TwoThirdsMajority;
    var commit := MakeCommit(vals, vs);
    forall v | v in CommitVotes(commit) ensures v in votes {
      var s :| s in commit.sigs && s.Present? && v.validator == s.validator && v.timeMs == s.timeMs;
      var i :| 0 <= i < |vals| && commit.sigs[i] == s;
    }
  }

  /** The vote set rebuilt from a verified commit holds only votes the commit carries. */
  lemma CommitVoteSetDrawn(vals: ValidatorSet, blockID: Hash, height: nat, commit: Commit)
    requires VerifyCommit(vals, blockID, height, commit)
    ensures DrawnFrom(CommitVotes(commit), CommitToVoteSet(commit))
  {
    hide Quorum;
    var vs := CommitToVoteSet(commit);
    forall a | a in vs.ballots
      ensures Vote(Precommit, vs.height, vs.round, vs.ballots[a].value, a, vs.ballots[a].timeMs) in CommitVotes(commit)
    {
      var s :| s in commit.sigs && s.Present? && s.validator == a && s.timeMs == vs.ballots[a].timeMs;
      var i :| 0 <= i < |commit.sigs| && commit.sigs[i] == s;
    }
  }
}
