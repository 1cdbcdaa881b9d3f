/** BFT time: the weighted median of the timestamps in a commit. */
module BlockTime {
  import opened Quorums
  import opened Votes

  datatype WeightedTime = WeightedTime(timeMs: nat, weight: nat)

  // ---- The declarative form ----

  /** Weight of the entries with a timestamp of at most `t`. */
  function WeightUpTo(es: seq<WeightedTime>, t: nat): nat {
    if es == [] then 0
    else (if es[0].timeMs <= t then es[0].weight else 0) + WeightUpTo(es[1..], t)
  }

  function TotalWeight(es: seq<WeightedTime>): nat {
    if es == [] then 0 else es[0].weight + TotalWeight(es[1..])
  }

  /** `t` is the least timestamp whose entries at or below it weigh at least `target`. */
  predicate IsMedian(es: seq<WeightedTime>, target: nat, t: nat) {
    && (exists e :: e in es && e.timeMs == t)
    && WeightUpTo(es, t) >= target
    && (forall e :: e in es && e.timeMs < t ==> WeightUpTo(es, e.timeMs) < target)
  }

  /** The least timestamp of `candidates` that reaches the target, 0 when none does. */
  function Least(candidates: seq<WeightedTime>, es: seq<WeightedTime>, target: nat): Option<nat> {
    if candidates == [] then None
    else
      var rest := Least(candidates[1..], es, target);
      var t := candidates[0].timeMs;
      if WeightUpTo(es, t) < target then rest
      else if rest.Some? && rest.value <= t then rest
      else Some(t)
  }

  function Median(es: seq<WeightedTime>, target: nat): nat {
    match Least(es, es, target) case None => 0 case Some(t) => t
  }

  lemma {:induction false} LeastIsLeast(candidates: seq<WeightedTime>, es: seq<WeightedTime>, target: nat)
    ensures Least(candidates, es, target).None? ==>
              forall e :: e in candidates ==> WeightUpTo(es, e.timeMs) < target
    ensures Least(candidates, es, target).Some? ==>
              var t := Least(candidates, es, target).value;
              && (exists e :: e in candidates && e.timeMs == t)
              && WeightUpTo(es, t) >= target
              && (forall e :: e in candidates && e.timeMs < t ==> WeightUpTo(es, e.timeMs) < target)
  {
    if candidates != [] {
      LeastIsLeast(candidates[1..], es, target);
      assert candidates == [candidates[0]] + candidates[1..];
    }
  }

  lemma {:induction false} WeightUpToTotal(es: seq<WeightedTime>, t: nat)
    requires forall e :: e in es ==> e.timeMs <= t
    ensures WeightUpTo(es, t) == TotalWeight(es)
  {
    if es != [] {
      WeightUpToTotal(es[1..], t);
    }
  }

  lemma {:induction false} LatestExists(es: seq<WeightedTime>) returns (e: WeightedTime)
    requires es != []
    ensures e in es && forall x :: x in es ==> x.timeMs <= e.timeMs
  {
    e := es[0];
    if |es| > 1 {
      var f := LatestExists(es[1..]);
      if f.timeMs > e.timeMs { e := f; }
      assert es == [es[0]] + es[1..];
    }
  }

  /** The median of a non-empty list meets the declarative form, and nothing else does. */
  lemma MedianMeetsSpec(es: seq<WeightedTime>, target: nat)
    requires es != [] && target <= TotalWeight(es)
    ensures IsMedian(es, target, Median(es, target))
    ensures forall t :: IsMedian(es, target, t) ==> t == Median(es, target)
  {
    LeastIsLeast(es, es, target);
    var last := LatestExists(es);
    WeightUpToTotal(es, last.timeMs);
    var m := Median(es, target);
    forall t | IsMedian(es, target, t) ensures t == m {
      var e :| e in es && e.timeMs == t;
      var f :| f in es && f.timeMs == m;
    }
  }

  // ---- The median does not depend on the order of the entries ----

  lemma {:induction false} WeightWithout(es: seq<WeightedTime>, i: nat, t: nat)
    requires i < |es|
    ensures WeightUpTo(es, t) == (if es[i].timeMs <= t then es[i].weight else 0) + WeightUpTo(es[..i] + es[i + 1..], t)
    ensures TotalWeight(es) == es[i].weight + TotalWeight(es[..i] + es[i + 1..])
  {
    var rest := es[..i] + es[i + 1..];
    if i == 0 {
      assert rest == es[1..];
    } else {
      assert rest[0] == es[0] && rest[1..] == es[1..][..i - 1] + es[1..][i..];
      WeightWithout(es[1..], i - 1, t);
    }
  }

  lemma SplitMultiset<T>(s: seq<T>, i: nat)
    requires i < |s|
    ensures s == s[..i] + ([s[i]] + s[i + 1..])
    ensures multiset(s[..i] + s[i + 1..]) == multiset(s) - multiset{s[i]}
  {
    var front, back := s[..i], s[i + 1..];
    assert s == front + ([s[i]] + back);
    assert multiset(s) == multiset(front) + (multiset([s[i]]) + multiset(back));
    assert multiset([s[i]]) == multiset{s[i]};
    assert multiset(front + back) == multiset(front) + multiset(back);
  }

  /** Taking one common element out of two permutations leaves two permutations. */
  lemma RemoveCommon<T>(a: seq<T>, b: seq<T>) returns (i: nat)
    requires a != [] && multiset(a) == multiset(b)
    ensures i < |b| && b[i] == a[0] && multiset(a[1..]) == multiset(b[..i] + b[i + 1..])
    ensures b == b[..i] + ([b[i]] + b[i + 1..])
  {
    assert a[0] in multiset(b);
    i :| 0 <= i < |b| && b[i] == a[0];
    SplitMultiset(a, 0);
    SplitMultiset(b, i);
    assert a[..0] + a[1..] == a[1..];
  }

  lemma {:induction false} WeightOfPermutation(a: seq<WeightedTime>, b: seq<WeightedTime>, t: nat)
    requires multiset(a) == multiset(b)
    ensures WeightUpTo(a, t) == WeightUpTo(b, t) && TotalWeight(a) == TotalWeight(b)
  {
    if a == [] {
      assert |multiset(b)| == |b|;
    } else {
      var i := RemoveCommon(a, b);
      WeightWithout(b, i, t);
      WeightOfPermutation(a[1..], b[..i] + b[i + 1..], t);
    }
  }

  lemma MedianOfPermutation(a: seq<WeightedTime>, b: seq<WeightedTime>, target: nat)
    requires multiset(a) == multiset(b)
    ensures Median(a, target) == Median(b, target)
  {
    forall t: nat ensures WeightUpTo(a, t) == WeightUpTo(b, t) { WeightOfPermutation(a, b, t); }
    LeastIsLeast(a, a, target);
    LeastIsLeast(b, b, target);
    assert forall e :: e in a <==> e in multiset(a);
    assert forall e :: e in b <==> e in multiset(b);
    assert forall e :: e in a <==> e in b;
    if Least(a, a, target).Some? {
      var e :| e in a && e.timeMs == Least(a, a, target).value;
      assert e in b;
    }
    if Least(b, b, target).Some? {
      var f :| f in b && f.timeMs == Least(b, b, target).value;
      assert f in a;
    }
  }

  // ---- The algorithm: sort in place, then walk down the running median ----

  predicate Before(x: Option<WeightedTime>, y: Option<WeightedTime>) {
    x.Some? && (y.None? || x.value.timeMs < y.value.timeMs)
  }

  predicate Sorted(a: seq<Option<WeightedTime>>) {
    forall i, j :: 0 <= i < j < |a| ==> !Before(a[j], a[i])
  }

  function Entries(a: seq<Option<WeightedTime>>): seq<WeightedTime> {
    if a == [] then []
    else (match a[0] case None => [] case Some(e) => [e]) + Entries(a[1..])
  }

  lemma {:induction false} EntriesConcat(a: seq<Option<WeightedTime>>, b: seq<Option<WeightedTime>>)
    ensures Entries(a + b) == Entries(a) + Entries(b)
  {
    if a == [] {
      assert a + b == b;
    } else {
      assert (a + b)[1..] == a[1..] + b;
      EntriesConcat(a[1..], b);
    }
  }

  lemma {:induction false} EntriesOfPermutation(a: seq<Option<WeightedTime>>, b: seq<Option<WeightedTime>>)
    requires multiset(a) == multiset(b)
    ensures multiset(Entries(a)) == multiset(Entries(b))
  {
    if a == [] {
      assert |multiset(b)| == |b|;
    } else {
      var i := RemoveCommon(a, b);
      EntriesOfPermutation(a[1..], b[..i] + b[i + 1..]);
      assert a == [a[0]] + a[1..];
      EntriesConcat([a[0]], a[1..]);
      EntriesConcat(b[..i], [b[i]] + b[i + 1..]);
      EntriesConcat([b[i]], b[i + 1..]);
      EntriesConcat(b[..i], b[i + 1..]);
    }
  }

  lemma EntriesMembers(a: seq<Option<WeightedTime>>)
    ensures forall e :: e in Entries(a) <==> Some(e) in a
  {
    if a != [] {
      EntriesMembers(a[1..]);
      assert a == [a[0]] + a[1..];
    }
  }

  lemma MultisetSwap<T>(s: seq<T>, j: nat)
    requires 0 < j < |s|
    ensures multiset(s[j - 1 := s[j]][j := s[j - 1]]) == multiset(s)
  {
  }

  /** Moves element n down to its place among the n sorted ones before it. */
  method Insert(a: array<Option<WeightedTime>>, n: nat)
    requires n < a.Length && Sorted(a[..n])
    modifies a
    ensures Sorted(a[..n + 1]) && multiset(a[..]) == multiset(old(a[..]))
  {
    var j := n;
    while j > 0 && Before(a[j], a[j - 1])
      invariant 0 <= j <= n
      invariant multiset(a[..]) == multiset(old(a[..]))
      invariant forall i, k :: 0 <= i < k <= n && k != j ==> !Before(a[k], a[i])
    {
      MultisetSwap(a[..], j);
      ghost var swapped := a[..][j - 1 := a[j]][j := a[j - 1]];
      a[j - 1], a[j] := a[j], a[j - 1];
      assert a[..] == swapped;
      j := j - 1;
    }
  }

  /** sort.Slice with the code's comparator: some sorted arrangement, in no promised order among ties. */
  method SortTimes(a: array<Option<WeightedTime>>)
    modifies a
    ensures Sorted(a[..]) && multiset(a[..]) == multiset(old(a[..]))
  {
    for n := 0 to a.Length
      invariant multiset(a[..]) == multiset(old(a[..]))
      invariant Sorted(a[..n])
    {
      Insert(a, n);
    }
    assert a[..a.Length] == a[..];
  }

  lemma {:induction false} WeightConcat(a: seq<WeightedTime>, b: seq<WeightedTime>, t: nat)
    ensures WeightUpTo(a + b, t) == WeightUpTo(a, t) + WeightUpTo(b, t)
    ensures TotalWeight(a + b) == TotalWeight(a) + TotalWeight(b)
  {
    if a == [] {
      assert a + b == b;
    } else {
      assert (a + b)[1..] == a[1..] + b;
      WeightConcat(a[1..], b, t);
    }
  }

  lemma {:induction false} WeightNone(es: seq<WeightedTime>, t: nat)
    requires forall e :: e in es ==> e.timeMs > t
    ensures WeightUpTo(es, t) == 0
  {
    if es != [] { WeightNone(es[1..], t); }
  }

  lemma {:induction false} WeightAtMostTotal(es: seq<WeightedTime>, t: nat)
    ensures WeightUpTo(es, t) <= TotalWeight(es)
  {
    if es != [] { WeightAtMostTotal(es[1..], t); }
  }

  lemma FirstToReach(bs: seq<WeightedTime>, e: WeightedTime, rest: seq<WeightedTime>, target: nat)
    requires forall x :: x in bs ==> x.timeMs <= e.timeMs
    requires forall x :: x in rest ==> e.timeMs <= x.timeMs
    requires TotalWeight(bs) < target || bs == []
    requires TotalWeight(bs) + e.weight >= target
    ensures Median(bs + ([e] + rest), target) == e.timeMs
  {
    var es := bs + ([e] + rest);
    assert e in es;
    WeightConcat(bs, [e] + rest, e.timeMs);
    WeightConcat([e], rest, e.timeMs);
    WeightUpToTotal(bs, e.timeMs);
    forall x | x in es && x.timeMs < e.timeMs ensures WeightUpTo(es, x.timeMs) < target {
      assert x in bs;
      WeightConcat(bs, [e] + rest, x.timeMs);
      WeightNone([e] + rest, x.timeMs);
      WeightAtMostTotal(bs, x.timeMs);
    }
    LeastIsLeast(es, es, target);
  }

  lemma SplitEntries(s: seq<Option<WeightedTime>>, k: nat)
    requires k < |s| && s[k].Some?
    ensures Entries(s) == Entries(s[..k]) + ([s[k].value] + Entries(s[k + 1..]))
  {
    var after := s[k..];
    assert s == s[..k] + after;
    EntriesConcat(s[..k], after);
    assert after[0] == s[k] && after[1..] == s[k + 1..];
  }

  lemma SortedBounds(s: seq<Option<WeightedTime>>, k: nat)
    requires Sorted(s) && k < |s| && s[k].Some?
    ensures forall x :: x in Entries(s[..k]) ==> x.timeMs <= s[k].value.timeMs
    ensures forall x :: x in Entries(s[k + 1..]) ==> s[k].value.timeMs <= x.timeMs
  {
    var before, after := s[..k], s[k + 1..];
    forall x | x in Entries(before) ensures x.timeMs <= s[k].value.timeMs {
      EntriesMembers(before);
      var i :| 0 <= i < k && before[i] == Some(x);
      assert !Before(s[k], s[i]);
    }
    forall x | x in Entries(after) ensures s[k].value.timeMs <= x.timeMs {
      EntriesMembers(after);
      var i :| 0 <= i < |after| && after[i] == Some(x);
      assert !Before(s[k + 1 + i], s[k]);
    }
  }

  /** On a sorted slice, the first entry at which the running weight reaches the target is the median. */
  lemma FirstToReachIsMedian(s: seq<Option<WeightedTime>>, k: nat, target: nat)
    requires Sorted(s) && k < |s| && s[k].Some?
    requires TotalWeight(Entries(s[..k])) < target || Entries(s[..k]) == []
    requires TotalWeight(Entries(s[..k])) + s[k].value.weight >= target
    ensures Median(Entries(s), target) == s[k].value.timeMs
  {
    SplitEntries(s, k);
    SortedBounds(s, k);
    FirstToReach(Entries(s[..k]), s[k].value, Entries(s[k + 1..]), target);
  }

  lemma EntriesStep(s: seq<Option<WeightedTime>>, i: nat)
    requires i < |s|
    ensures Entries(s[..i + 1]) == Entries(s[..i]) + (match s[i] case None => [] case Some(e) => [e])
    ensures TotalWeight(Entries(s[..i + 1])) ==
            TotalWeight(Entries(s[..i])) + (match s[i] case None => 0 case Some(e) => e.weight)
  {
    assert s[..i + 1] == s[..i] + [s[i]];
    EntriesConcat(s[..i], [s[i]]);
    WeightConcat(Entries(s[..i]), Entries([s[i]]), 0);
    assert s[i].Some? ==> Entries([s[i]]) == [s[i].value];
  }

  lemma {:induction false} NoneReaches(es: seq<WeightedTime>, all: seq<WeightedTime>, target: nat)
    requires TotalWeight(all) < target
    ensures Least(es, all, target) == None
  {
    if es != [] {
      NoneReaches(es[1..], all, target);
      WeightAtMostTotal(all, es[0].timeMs);
    }
  }

  /** weightedMedian: reorders the slice it is given, and returns the median of the entries present. */
  method WeightedMedian(weightedTimes: array<Option<WeightedTime>>, totalVotingPower: nat) returns (res: nat)
    modifies weightedTimes
    ensures multiset(weightedTimes[..]) == multiset(old(weightedTimes[..]))
    ensures res == Median(Entries(old(weightedTimes[..])), totalVotingPower / 2)
  {
    ghost var given := weightedTimes[..];
    ghost var target := totalVotingPower / 2;
    var median := totalVotingPower / 2;
    SortTimes(weightedTimes);
    ghost var sorted := weightedTimes[..];
    EntriesOfPermutation(given, sorted);
    MedianOfPermutation(Entries(given), Entries(sorted), target);
    res := 0;
    for i := 0 to weightedTimes.Length
      invariant weightedTimes[..] == sorted
      invariant median + TotalWeight(Entries(sorted[..i])) == target
      invariant Entries(sorted[..i]) == [] || median > 0
    {
      EntriesStep(sorted, i);
      if weightedTimes[i].Some? {
        if median <= weightedTimes[i].value.weight {
          FirstToReachIsMedian(sorted, i, target);
          res := weightedTimes[i].value.timeMs;
          return;
        }
        median := median - weightedTimes[i].value.weight;
      }
    }
    assert sorted[..weightedTimes.Length] == sorted;
    if Entries(sorted) != [] {
      NoneReaches(Entries(sorted), Entries(sorted), target);
    }
  }

  // ---- MedianTime of a commit ----

  function FindValidator(vals: ValidatorSet, a: Addr): Option<Validator> {
    if vals == [] then None else if vals[0].addr == a then Some(vals[0]) else FindValidator(vals[1..], a)
  }

  /** The slice MedianTime fills: nil for an absent signature or an unknown validator. */
  function Slot(sig: CommitSig, vals: ValidatorSet): Option<WeightedTime> {
    match sig
    case Absent => None
    case Present(a, t, _) =>
      match FindValidator(vals, a)
      case None => None
      case Some(v) => Some(WeightedTime(t, v.power))
  }

  function Slots(sigs: seq<CommitSig>, vals: ValidatorSet): seq<Option<WeightedTime>> {
    seq(|sigs|, i requires 0 <= i < |sigs| => Slot(sigs[i], vals))
  }

  function CommitTimes(commit: Commit, vals: ValidatorSet): seq<WeightedTime> {
    Entries(Slots(commit.sigs, vals))
  }

  function MedianTime(commit: Commit, vals: ValidatorSet): nat {
    Median(CommitTimes(commit, vals), TotalWeight(CommitTimes(commit, vals)) / 2)
  }

  /** MedianTime's first half: one slot per signature, and the power that counts. */
  method FillSlots(commit: Commit, vals: ValidatorSet)
    returns (weightedTimes: array<Option<WeightedTime>>, totalVotingPower: nat)
    ensures fresh(weightedTimes) && weightedTimes[..] == Slots(commit.sigs, vals)
    ensures totalVotingPower == TotalWeight(CommitTimes(commit, vals))
  {
    var n := |commit.sigs|;
    weightedTimes := new Option<WeightedTime>[n](_ => None);
    totalVotingPower := 0;
    ghost var slots := Slots(commit.sigs, vals);
    for i := 0 to n
      invariant forall k :: 0 <= k < i ==> weightedTimes[k] == slots[k]
      invariant forall k :: i <= k < n ==> weightedTimes[k] == None
      invariant totalVotingPower == TotalWeight(Entries(slots[..i]))
    {
      var sig := commit.sigs[i];
      EntriesStep(slots, i);
      if sig.Present? {
        var validator := FindValidator(vals, sig.validator);
        if validator.Some? {
          totalVotingPower := totalVotingPower + validator.value.power;
          weightedTimes[i] := Some(WeightedTime(sig.timeMs, validator.value.power));
        }
      }
    }
    assert slots[..n] == slots;
  }

  method ComputeMedianTime(commit: Commit, vals: ValidatorSet) returns (res: nat)
    ensures res == MedianTime(commit, vals)
  {
    var weightedTimes, totalVotingPower := FillSlots(commit, vals);
    res := WeightedMedian(weightedTimes, totalVotingPower);
  }
}
