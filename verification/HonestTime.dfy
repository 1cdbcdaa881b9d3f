/**
  What honest timestamps say about the weighted median.  The doc comment of MedianTime promises a
  value between honest timestamps; that is exact only under the conditions proved here.
*/
module HonestTime {
  import opened Quorums
  import opened Votes
  import opened BlockTime

  predicate Positive(es: seq<WeightedTime>) {
    forall e :: e in es ==> e.weight > 0
  }

  /** Honest entries of total weight h (at least one), faulty ones of total weight b. */
  predicate Split(honest: seq<WeightedTime>, faulty: seq<WeightedTime>, h: nat, b: nat) {
    && honest != [] && Positive(honest) && Positive(faulty)
    && TotalWeight(honest) == h && TotalWeight(faulty) == b
  }

  function MedianOfAll(honest: seq<WeightedTime>, faulty: seq<WeightedTime>): nat {
    Median(honest + faulty, TotalWeight(honest + faulty) / 2)
  }

  predicate AtMostSomeHonest(honest: seq<WeightedTime>, faulty: seq<WeightedTime>) {
    exists e :: e in honest && MedianOfAll(honest, faulty) <= e.timeMs
  }

  predicate AtLeastSomeHonest(honest: seq<WeightedTime>, faulty: seq<WeightedTime>) {
    exists e :: e in honest && e.timeMs <= MedianOfAll(honest, faulty)
  }

  lemma PositiveTotal(es: seq<WeightedTime>)
    requires Positive(es)
    ensures es != [] ==> TotalWeight(es) > 0
  {
    if es != [] { assert es[0] in es; }
  }

  lemma UpperBound(honest: seq<WeightedTime>, faulty: seq<WeightedTime>, h: nat, b: nat)
    requires Split(honest, faulty, h, b) && b <= h + 1
    ensures AtMostSomeHonest(honest, faulty)
  {
    var es, target := honest + faulty, (h + b) / 2;
    WeightConcat(honest, faulty, 0);
    MedianMeetsSpec(es, target);
    var last := LatestExists(honest);
    assert last in es;
    WeightConcat(honest, faulty, last.timeMs);
    WeightUpToTotal(honest, last.timeMs);
    assert MedianOfAll(honest, faulty) <= last.timeMs;
  }

  lemma LowerBound(honest: seq<WeightedTime>, faulty: seq<WeightedTime>, h: nat, b: nat)
    requires Split(honest, faulty, h, b) && (b == 0 || b + 2 <= h)
    ensures AtLeastSomeHonest(honest, faulty)
  {
    var es, target := honest + faulty, (h + b) / 2;
    WeightConcat(honest, faulty, 0);
    MedianMeetsSpec(es, target);
    var m := MedianOfAll(honest, faulty);
    if b == 0 {
      PositiveTotal(faulty);
      assert es == honest;
    } else if forall e :: e in honest ==> e.timeMs > m {
      WeightConcat(honest, faulty, m);
      WeightNone(honest, m);
      WeightAtMostTotal(faulty, m);
      assert false;
    }
  }

  lemma MedianOfTwo(early: WeightedTime, late: WeightedTime, target: nat)
    requires early.timeMs < late.timeMs && target <= early.weight + late.weight
    ensures Median([early, late], target) == if early.weight >= target then early.timeMs else late.timeMs
    ensures Median([late, early], target) == Median([early, late], target)
    ensures TotalWeight([early, late]) == TotalWeight([late, early]) == early.weight + late.weight
  {
    assert multiset([early, late]) == multiset([late, early]);
    MedianOfPermutation([early, late], [late, early], target);
    assert [early, late][1..] == [late] && [late, early][1..] == [early];
    if early.weight >= target {
      FirstToReach([], early, [late], target);
      assert [] + ([early] + [late]) == [early, late];
    } else {
      assert TotalWeight([early]) == early.weight;
      FirstToReach([early], late, [], target);
      assert [early] + ([late] + []) == [early, late];
    }
  }

  /** Whatever the timestamps, the median is at most some honest one: exactly when b <= h + 1 (so whenever 2b < W). */
  lemma UpperBoundExact(h: nat, b: nat)
    requires h > 0
    ensures (forall honest, faulty :: Split(honest, faulty, h, b) ==> AtMostSomeHonest(honest, faulty)) <==> b <= h + 1
  {
    if b <= h + 1 {
      forall honest, faulty | Split(honest, faulty, h, b) ensures AtMostSomeHonest(honest, faulty) {
        UpperBound(honest, faulty, h, b);
      }
    } else {
      var honest, faulty := [WeightedTime(0, h)], [WeightedTime(1, b)];
      MedianOfTwo(honest[0], faulty[0], (h + b) / 2);
      assert honest + faulty == [honest[0], faulty[0]];
      assert Split(honest, faulty, h, b) && !AtMostSomeHonest(honest, faulty);
    }
  }

  /** It is at least some honest one: exactly when there is no faulty weight or 2b + 1 < W. */
  lemma LowerBoundExact(h: nat, b: nat)
    requires h > 0
    ensures (forall honest, faulty :: Split(honest, faulty, h, b) ==> AtLeastSomeHonest(honest, faulty))
            <==> b == 0 || 2 * b + 1 < h + b
  {
    if b == 0 || 2 * b + 1 < h + b {
      forall honest, faulty | Split(honest, faulty, h, b) ensures AtLeastSomeHonest(honest, faulty) {
        LowerBound(honest, faulty, h, b);
      }
    } else {
      var honest, faulty := [WeightedTime(1, h)], [WeightedTime(0, b)];
      MedianOfTwo(faulty[0], honest[0], (h + b) / 2);
      assert honest + faulty == [honest[0], faulty[0]];
      assert Split(honest, faulty, h, b) && !AtLeastSomeHonest(honest, faulty);
    }
  }

  // ---- Verified commits ----

  /** The signatures of validators in `who` (or of those outside it), the others left out. */
  function Keep(sigs: seq<CommitSig>, who: set<Addr>, inside: bool): seq<CommitSig> {
    seq(|sigs|, i requires 0 <= i < |sigs| =>
      if sigs[i].Present? && (sigs[i].validator in who) == inside then sigs[i] else Absent)
  }

  function Times(sigs: seq<CommitSig>, vals: ValidatorSet): seq<WeightedTime> {
    Entries(Slots(sigs, vals))
  }

  function Head(sig: CommitSig, vals: ValidatorSet): seq<WeightedTime> {
    match Slot(sig, vals) case None => [] case Some(e) => [e]
  }

  lemma TimesStep(sigs: seq<CommitSig>, vals: ValidatorSet)
    requires sigs != []
    ensures Times(sigs, vals) == Head(sigs[0], vals) + Times(sigs[1..], vals)
    ensures TotalWeight(Times(sigs, vals)) == TotalWeight(Head(sigs[0], vals)) + TotalWeight(Times(sigs[1..], vals))
  {
    assert Slots(sigs, vals)[1..] == Slots(sigs[1..], vals);
    WeightConcat(Head(sigs[0], vals), Times(sigs[1..], vals), 0);
  }

  lemma KeepStep(sigs: seq<CommitSig>, vals: ValidatorSet, who: set<Addr>, inside: bool)
    requires sigs != []
    ensures Times(Keep(sigs, who, inside), vals) ==
            (if sigs[0].Present? && (sigs[0].validator in who) == inside then Head(sigs[0], vals) else [])
            + Times(Keep(sigs[1..], who, inside), vals)
  {
    TimesStep(Keep(sigs, who, inside), vals);
    assert Keep(sigs, who, inside)[1..] == Keep(sigs[1..], who, inside);
  }

  lemma Shuffle(head: seq<WeightedTime>, hs: seq<WeightedTime>, fs: seq<WeightedTime>)
    ensures multiset(head + (hs + fs)) == multiset((head + hs) + fs) == multiset(hs + (head + fs))
  {
    assert head + (hs + fs) == (head + hs) + fs;
  }

  lemma {:induction false} TimesSplit(sigs: seq<CommitSig>, vals: ValidatorSet, who: set<Addr>)
    ensures multiset(Times(sigs, vals)) ==
            multiset(Times(Keep(sigs, who, false), vals) + Times(Keep(sigs, who, true), vals))
  {
    if sigs != [] {
      var head, rest := Head(sigs[0], vals), Times(sigs[1..], vals);
      var hs, fs := Times(Keep(sigs[1..], who, false), vals), Times(Keep(sigs[1..], who, true), vals);
      TimesSplit(sigs[1..], vals, who);
      TimesStep(sigs, vals);
      KeepStep(sigs, vals, who, false);
      KeepStep(sigs, vals, who, true);
      Shuffle(head, hs, fs);
      assert multiset(head + rest) == multiset(head) + multiset(rest) == multiset(head + (hs + fs));
    }
  }

  predicate Aligned(sigs: seq<CommitSig>, vals: ValidatorSet, who: set<Addr>) {
    |sigs| == |vals| && forall i :: 0 <= i < |vals| ==>
      if vals[i].addr in who then sigs[i].Present? && sigs[i].validator == vals[i].addr else sigs[i] == Absent
  }

  /** Signatures sitting at their validators' indices weigh as much as the validators that signed. */
  lemma {:induction false} AlignedWeight(sigs: seq<CommitSig>, part: ValidatorSet, vals: ValidatorSet, who: set<Addr>)
    requires Aligned(sigs, part, who)
    requires forall v :: v in part ==> FindValidator(vals, v.addr) == Some(v)
    ensures TotalWeight(Times(sigs, vals)) == Power(part, who)
  {
    if sigs != [] {
      assert part[0] in part && part == [part[0]] + part[1..];
      AlignedWeight(sigs[1..], part[1..], vals, who);
      TimesStep(sigs, vals);
    }
  }

  lemma {:induction false} FindsEach(vals: ValidatorSet, v: Validator)
    requires Distinct(vals) && v in vals
    ensures FindValidator(vals, v.addr) == Some(v)
  {
    if vals[0] != v {
      var i :| 0 < i < |vals| && vals[i] == v;
      assert vals[1..][i - 1] == v && vals[0].addr != vals[i].addr;
      FindsEach(vals[1..], v);
    }
  }

  lemma TimesArePositive(sigs: seq<CommitSig>, vals: ValidatorSet)
    requires forall v :: v in vals ==> v.power > 0
    ensures Positive(Times(sigs, vals))
  {
    EntriesMembers(Slots(sigs, vals));
    forall i | 0 <= i < |sigs| && Slot(sigs[i], vals).Some? ensures Slot(sigs[i], vals).value.weight > 0 {
      FoundIsMember(vals, sigs[i].validator);
    }
  }

  lemma {:induction false} FoundIsMember(vals: ValidatorSet, a: Addr)
    requires FindValidator(vals, a).Some?
    ensures FindValidator(vals, a).value in vals
  {
    if vals[0].addr != a { FoundIsMember(vals[1..], a); }
  }

  function HonestTimes(commit: Commit, vals: ValidatorSet, faulty: set<Addr>): seq<WeightedTime> {
    Times(Keep(commit.sigs, faulty, false), vals)
  }

  /** The counted weight of a verified commit splits into an honest part of over a third of all power, and the rest. */
  lemma CommitWeights(vals: ValidatorSet, id: Hash, height: nat, commit: Commit, faulty: set<Addr>)
    requires Distinct(vals) && (forall v :: v in vals ==> v.power > 0)
    requires VerifyCommit(vals, id, height, commit) && Minority(vals, faulty)
    ensures var hs, fs := HonestTimes(commit, vals, faulty), Times(Keep(commit.sigs, faulty, true), vals);
      && Split(hs, fs, TotalWeight(hs), TotalWeight(fs))
      && TotalWeight(fs) < TotalWeight(hs)
      && MedianTime(commit, vals) == MedianOfAll(hs, fs)
  {
    var who := Signers(commit);
    var hs, fs := HonestTimes(commit, vals, faulty), Times(Keep(commit.sigs, faulty, true), vals);
    forall v | v in vals ensures FindValidator(vals, v.addr) == Some(v) { FindsEach(vals, v); }
    forall i | 0 <= i < |vals| ensures vals[i].addr in who <==> commit.sigs[i].Present? {
      if vals[i].addr in who {
        var s :| s in commit.sigs && s.Present? && s.validator == vals[i].addr;
        var j :| 0 <= j < |vals| && commit.sigs[j] == s;
        assert vals[j].addr == vals[i].addr;
      } else {
        assert commit.sigs[i] in commit.sigs;
      }
    }
    assert Aligned(Keep(commit.sigs, faulty, false), vals, who - faulty);
    AlignedWeight(Keep(commit.sigs, faulty, false), vals, vals, who - faulty);
    AlignedWeight(Keep(commit.sigs, faulty, true), vals, vals, who * faulty);
    SplitPower(vals, who, faulty);
    PowerMonotone(vals, who * faulty, faulty);
    TimesArePositive(Keep(commit.sigs, faulty, false), vals);
    TimesArePositive(Keep(commit.sigs, faulty, true), vals);
    TimesSplit(commit.sigs, vals, faulty);
    WeightOfPermutation(Times(commit.sigs, vals), hs + fs, 0);
    MedianOfPermutation(Times(commit.sigs, vals), hs + fs, TotalWeight(hs + fs) / 2);
  }

  lemma {:induction false} SplitPower(vals: ValidatorSet, who: set<Addr>, part: set<Addr>)
    ensures Power(vals, who) == Power(vals, who - part) + Power(vals, who * part)
  {
    if vals != [] { SplitPower(vals[1..], who, part); }
  }

  /** The block time of a verified commit never exceeds every honest timestamp in it. */
  lemma CommitTimeAtMostHonest(vals: ValidatorSet, id: Hash, height: nat, commit: Commit, faulty: set<Addr>)
    requires Distinct(vals) && (forall v :: v in vals ==> v.power > 0)
    requires VerifyCommit(vals, id, height, commit) && Minority(vals, faulty)
    ensures exists e :: e in HonestTimes(commit, vals, faulty) && MedianTime(commit, vals) <= e.timeMs
  {
    CommitWeights(vals, id, height, commit, faulty);
    var hs, fs := HonestTimes(commit, vals, faulty), Times(Keep(commit.sigs, faulty, true), vals);
    UpperBound(hs, fs, TotalWeight(hs), TotalWeight(fs));
  }

  /**
    Nor is it below all of them, provided no faulty signature counts or the honest part outweighs the
    faulty part by at least two.
  */
  lemma CommitTimeAtLeastHonest(vals: ValidatorSet, id: Hash, height: nat, commit: Commit, faulty: set<Addr>)
    requires Distinct(vals) && (forall v :: v in vals ==> v.power > 0)
    requires VerifyCommit(vals, id, height, commit) && Minority(vals, faulty)
    requires var b := TotalWeight(Times(Keep(commit.sigs, faulty, true), vals));
      b == 0 || b + 2 <= TotalWeight(HonestTimes(commit, vals, faulty))
    ensures CommitTimeReachesHonest(commit, vals, faulty)
  {
    CommitWeights(vals, id, height, commit, faulty);
    var hs, fs := HonestTimes(commit, vals, faulty), Times(Keep(commit.sigs, faulty, true), vals);
    LowerBound(hs, fs, TotalWeight(hs), TotalWeight(fs));
  }

  // ---- The lower bound for commits is exact, too ----

  /** A verified commit over real validators, in which honest signatures weigh `h` and faulty ones `b`. */
  ghost predicate Weighed(vals: ValidatorSet, id: Hash, height: nat, commit: Commit, faulty: set<Addr>, h: nat,
                          b: nat)
  {
    && Distinct(vals) && (forall v :: v in vals ==> v.power > 0)
    && VerifyCommit(vals, id, height, commit) && Minority(vals, faulty)
    && TotalWeight(HonestTimes(commit, vals, faulty)) == h
    && TotalWeight(Times(Keep(commit.sigs, faulty, true), vals)) == b
  }

  predicate CommitTimeReachesHonest(commit: Commit, vals: ValidatorSet, faulty: set<Addr>) {
    exists e :: e in HonestTimes(commit, vals, faulty) && e.timeMs <= MedianTime(commit, vals)
  }

  /**
    Honest signatures outweigh faulty ones in every verified commit.  Its time is at least some honest
    timestamp, for all such commits, exactly when no faulty signature counts or they outweigh them by two.
  */
  lemma CommitLowerBoundExact(id: Hash, height: nat, h: nat, b: nat)
    requires b < h
    ensures (forall vals, commit, faulty :: Weighed(vals, id, height, commit, faulty, h, b) ==>
               CommitTimeReachesHonest(commit, vals, faulty))
            <==> b == 0 || b + 2 <= h
  {
    if b == 0 || b + 2 <= h {
      forall vals, commit, faulty | Weighed(vals, id, height, commit, faulty, h, b)
        ensures CommitTimeReachesHonest(commit, vals, faulty)
      {
        CommitTimeAtLeastHonest(vals, id, height, commit, faulty);
      }
    } else {
      FaultySetsTheTime(id, height, b);
      assert Weighed(Edge(b), id, height, EdgeCommit(id, height), {1}, h, b);
    }
  }

  /** Three validators of powers b + 1, b and b; the second is faulty and the third does not sign. */
  function Edge(b: nat): ValidatorSet {
    [Validator(0, b + 1), Validator(1, b), Validator(2, b)]
  }

  function EdgeCommit(id: Hash, height: nat): Commit {
    Commit(height, 0, id, [Present(0, 100, true), Present(1, 5, true), Absent])
  }

  /** For every faulty power there is a verified commit whose time is below every honest timestamp in it. */
  lemma FaultySetsTheTime(id: Hash, height: nat, b: nat)
    requires b > 0
    ensures Weighed(Edge(b), id, height, EdgeCommit(id, height), {1}, b + 1, b)
    ensures !CommitTimeReachesHonest(EdgeCommit(id, height), Edge(b), {1})
  {
    var vals, commit := Edge(b), EdgeCommit(id, height);
    EdgeVerifies(id, height, b);
    EdgeTimes(commit.sigs, vals, b);
    CommitWeights(vals, id, height, commit, {1});
    MedianOfTwo(WeightedTime(5, b), WeightedTime(100, b + 1), b);
    assert [WeightedTime(100, b + 1)] + [WeightedTime(5, b)] == [WeightedTime(100, b + 1), WeightedTime(5, b)];
  }

  lemma EdgeVerifies(id: Hash, height: nat, b: nat)
    requires b > 0
    ensures VerifyCommit(Edge(b), id, height, EdgeCommit(id, height)) && Minority(Edge(b), {1}) && Distinct(Edge(b))
  {
    var sigs := EdgeCommit(id, height).sigs;
    assert sigs[0] in sigs && sigs[1] in sigs;
    assert Signers(EdgeCommit(id, height)) == {0, 1};
    var c := [Validator(2, b)] + [];
    var d := [Validator(1, b)] + c;
    assert Edge(b) == [Validator(0, b + 1)] + d;
    forall who | who in {{0, 1}, {1}}
      ensures Power(Edge(b), who) == (if 0 in who then b + 1 else 0) + b && Total(Edge(b)) == 3 * b + 1
    {
      PowerCons(Validator(2, b), [], who);
      PowerCons(Validator(1, b), c, who);
      PowerCons(Validator(0, b + 1), d, who);
    }
    assert {0, 1} in {{0, 1}, {1}} && {1} in {{0, 1}, {1}};
  }

  lemma EdgeTimes(sigs: seq<CommitSig>, vals: ValidatorSet, b: nat)
    requires vals == Edge(b) && Distinct(vals) && sigs == [Present(0, 100, true), Present(1, 5, true), Absent]
    ensures Times(Keep(sigs, {1}, false), vals) == [WeightedTime(100, b + 1)]
    ensures Times(Keep(sigs, {1}, true), vals) == [WeightedTime(5, b)]
  {
    forall i | 0 <= i < 3 ensures FindValidator(vals, i) == Some(vals[i]) { FindsEach(vals, vals[i]); }
    var honest, faulty := Keep(sigs, {1}, false), Keep(sigs, {1}, true);
    assert honest == [sigs[0], Absent, Absent] && faulty == [Absent, sigs[1], Absent];
    OnlyTime(honest, vals, 0);
    OnlyTime(faulty, vals, 1);
  }

  lemma {:induction false} OnlyTime(sigs: seq<CommitSig>, vals: ValidatorSet, i: nat)
    requires i < |sigs| && forall j :: 0 <= j < |sigs| && j != i ==> sigs[j] == Absent
    ensures Times(sigs, vals) == Head(sigs[i], vals)
  {
    var rest := sigs[1..];
    assert forall j :: 0 <= j < |rest| ==> rest[j] == sigs[j + 1];
    TimesStep(sigs, vals);
    if i == 0 {
      NoTimes(rest, vals);
    } else {
      assert sigs[0] == Absent;
      OnlyTime(rest, vals, i - 1);
    }
  }

  lemma {:induction false} NoTimes(sigs: seq<CommitSig>, vals: ValidatorSet)
    requires forall j :: 0 <= j < |sigs| ==> sigs[j] == Absent
    ensures Times(sigs, vals) == []
  {
    if sigs != [] {
      assert sigs[0] == Absent;
      TimesStep(sigs, vals);
      NoTimes(sigs[1..], vals);
    }
  }

  /** Every timestamp kept is that of a signature kept. */
  lemma KeptSigned(sigs: seq<CommitSig>, vals: ValidatorSet, who: set<Addr>, inside: bool)
    ensures forall e :: e in Times(Keep(sigs, who, inside), vals) ==>
      exists s :: s in sigs && s.Present? && (s.validator in who) == inside && s.timeMs == e.timeMs
  {
    var kept := Keep(sigs, who, inside);
    EntriesMembers(Slots(kept, vals));
    forall e | e in Times(kept, vals)
      ensures exists s :: s in sigs && s.Present? && (s.validator in who) == inside && s.timeMs == e.timeMs
    {
      var i :| 0 <= i < |kept| && Slots(kept, vals)[i] == Some(e);
      assert kept[i] == sigs[i] && sigs[i] in sigs;
    }
  }

  // ---- The comment on MedianTime, at the edge ----

  function FourEqual(): ValidatorSet {
    [Validator(0, 1), Validator(1, 1), Validator(2, 1), Validator(3, 1)]
  }

  function ThreeSigned(id: Hash): Commit {
    Commit(1, 0, id, [Present(0, 5, true), Present(1, 100, true), Present(2, 101, true), Absent])
  }

  /**
    Four equal validators, one faulty, three signatures: the faulty timestamp wins although it precedes both
    honest ones.
  */
  lemma OneFaultyOfFourSetsTheTime(id: Hash)
    ensures Minority(FourEqual(), {0})
    ensures VerifyCommit(FourEqual(), id, 1, ThreeSigned(id))
    ensures MedianTime(ThreeSigned(id), FourEqual()) == 5
    ensures !CommitTimeReachesHonest(ThreeSigned(id), FourEqual(), {0})
  {
    ThreeVerify(id, FourEqual(), ThreeSigned(id));
    TimesOfThree(ThreeSigned(id).sigs, FourEqual());
    MedianOfThree(ThreeSigned(id), FourEqual(), Times(ThreeSigned(id).sigs, FourEqual()));
    NoneAsEarly(ThreeSigned(id), FourEqual());
  }

  lemma NoneAsEarly(commit: Commit, vals: ValidatorSet)
    requires MedianTime(commit, vals) == 5
    requires commit.sigs == [Present(0, 5, true), Present(1, 100, true), Present(2, 101, true), Absent]
    ensures !CommitTimeReachesHonest(commit, vals, {0})
  {
    hide MedianTime;
    KeptSigned(commit.sigs, vals, {0}, false);
    assert forall s :: s in commit.sigs && s.Present? && s.validator !in {0} ==> s.timeMs > 5;
  }

  lemma ThreeVerify(id: Hash, vals: ValidatorSet, commit: Commit)
    requires vals == FourEqual() && commit == ThreeSigned(id)
    ensures Minority(vals, {0}) && VerifyCommit(vals, id, 1, commit)
  {
    PowersOfFour();
    SignersOfThree(id);
  }

  lemma SignersOfThree(id: Hash)
    ensures Signers(ThreeSigned(id)) == {0, 1, 2}
  {
    var sigs := ThreeSigned(id).sigs;
    assert sigs[0] in sigs && sigs[1] in sigs && sigs[2] in sigs;
  }

  lemma MedianOfThree(commit: Commit, vals: ValidatorSet, es: seq<WeightedTime>)
    requires es == Times(commit.sigs, vals) && TotalWeight(es) == 3
    requires es == [WeightedTime(5, 1), WeightedTime(100, 1), WeightedTime(101, 1)]
    ensures MedianTime(commit, vals) == 5
  {
    FirstToReach([], es[0], es[1..], 1);
    assert [] + ([es[0]] + es[1..]) == es;
  }

  lemma PowerCons(v: Validator, rest: ValidatorSet, who: set<Addr>)
    ensures Power([v] + rest, who) == (if v.addr in who then v.power else 0) + Power(rest, who)
    ensures Total([v] + rest) == v.power + Total(rest)
  {
    assert ([v] + rest)[1..] == rest;
  }

  lemma PowersOfFour()
    ensures Power(FourEqual(), {0, 1, 2}) == 3 && Power(FourEqual(), {0}) == 1 && Total(FourEqual()) == 4
  {
    var d := [Validator(3, 1)] + [];
    var c := [Validator(2, 1)] + d;
    var b := [Validator(1, 1)] + c;
    assert FourEqual() == [Validator(0, 1)] + b;
    forall who | who in {{0, 1, 2}, {0}} ensures Power(FourEqual(), who) == |who| && Total(FourEqual()) == 4 {
      PowerCons(Validator(3, 1), [], who);
      PowerCons(Validator(2, 1), d, who);
      PowerCons(Validator(1, 1), c, who);
      PowerCons(Validator(0, 1), b, who);
    }
    assert |{0, 1, 2}| == 3 && |{0}| == 1;
    assert {0, 1, 2} in {{0, 1, 2}, {0}};
  }

  lemma TimesOfThree(sigs: seq<CommitSig>, vals: ValidatorSet)
    requires vals == [Validator(0, 1), Validator(1, 1), Validator(2, 1), Validator(3, 1)]
    requires sigs == [Present(0, 5, true), Present(1, 100, true), Present(2, 101, true), Absent]
    ensures Times(sigs, vals) == [WeightedTime(5, 1), WeightedTime(100, 1), WeightedTime(101, 1)]
    ensures TotalWeight(Times(sigs, vals)) == 3
  {
    forall i | 0 <= i < 4 ensures FindValidator(vals, i) == Some(vals[i]) { FindsEach(vals, vals[i]); }
    assert Times(sigs[3..], vals) == [] by { TimesStep(sigs[3..], vals); }
    assert Times(sigs[2..], vals) == [WeightedTime(101, 1)] by {
      TimesStep(sigs[2..], vals);
      assert sigs[2..][1..] == sigs[3..];
    }
    assert Times(sigs[1..], vals) == [WeightedTime(100, 1), WeightedTime(101, 1)] by {
      TimesStep(sigs[1..], vals);
      assert sigs[1..][1..] == sigs[2..];
    }
    TimesStep(sigs, vals);
    var es := [WeightedTime(100, 1), WeightedTime(101, 1)];
    assert es[1..] == [WeightedTime(101, 1)] && TotalWeight(es[1..]) == 1;
  }
}
