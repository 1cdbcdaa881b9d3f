/** Validators, their voting power, and what it means for more than two thirds of it to agree. */
module Quorums {

  type Addr = nat  // addresses are only ever compared

  datatype Option<+T> = None | Some(value: T)

  datatype Validator = Validator(addr: Addr, power: nat)

  type ValidatorSet = seq<Validator>

  predicate HasAddress(vals: ValidatorSet, a: Addr) {
    exists v :: v in vals && v.addr == a
  }

  predicate Distinct(vals: ValidatorSet) {
    forall i, j :: 0 <= i < j < |vals| ==> vals[i].addr != vals[j].addr
  }

  /** The voting power of the validators in `who`. */
  function Power(vals: ValidatorSet, who: set<Addr>): nat {
    if vals == [] then 0
    else (if vals[0].addr in who then vals[0].power else 0) + Power(vals[1..], who)
  }

  function Total(vals: ValidatorSet): nat {
    if vals == [] then 0 else vals[0].power + Total(vals[1..])
  }

  predicate Quorum(vals: ValidatorSet, who: set<Addr>) {
    3 * Power(vals, who) > 2 * Total(vals)
  }

  /** Faulty validators hold less than a third of the power. */
  predicate Minority(vals: ValidatorSet, who: set<Addr>) {
    3 * Power(vals, who) < Total(vals)
  }

  lemma {:induction false} PowerMonotone(vals: ValidatorSet, a: set<Addr>, b: set<Addr>)
    requires forall x :: x in a && HasAddress(vals, x) ==> x in b
    ensures Power(vals, a) <= Power(vals, b)
  {
    if vals != [] {
      assert vals[0] in vals;
      forall x | x in a && HasAddress(vals[1..], x) ensures x in b {
        var v :| v in vals[1..] && v.addr == x;
        assert v in vals;
      }
      PowerMonotone(vals[1..], a, b);
    }
  }

  lemma {:induction false} PowerOfIntersection(vals: ValidatorSet, a: set<Addr>, b: set<Addr>)
    ensures Power(vals, a) + Power(vals, b) <= Power(vals, a * b) + Total(vals)
  {
    if vals != [] {
      PowerOfIntersection(vals[1..], a, b);
    }
  }

  lemma QuorumMonotone(vals: ValidatorSet, a: set<Addr>, b: set<Addr>)
    requires Quorum(vals, a) && a <= b
    ensures Quorum(vals, b)
  {
    PowerMonotone(vals, a, b);
  }

  /** Two quorums share a validator that is not faulty. */
  lemma QuorumsShareHonest(vals: ValidatorSet, a: set<Addr>, b: set<Addr>, faulty: set<Addr>)
    requires Quorum(vals, a) && Quorum(vals, b) && Minority(vals, faulty)
    ensures exists x :: x in a && x in b && x !in faulty && HasAddress(vals, x)
  {
    PowerOfIntersection(vals, a, b);
    if forall x :: x in a * b && HasAddress(vals, x) ==> x in faulty {
      PowerMonotone(vals, a * b, faulty);
    } else {
      var x :| x in a * b && HasAddress(vals, x) && x !in faulty;
      assert x in a && x in b;
    }
  }

  lemma QuorumHasHonest(vals: ValidatorSet, a: set<Addr>, faulty: set<Addr>)
    requires Quorum(vals, a) && Minority(vals, faulty)
    ensures exists x :: x in a && x !in faulty && HasAddress(vals, x)
  {
    QuorumsShareHonest(vals, a, a, faulty);
  }

  lemma QuorumsMeet(vals: ValidatorSet, a: set<Addr>, b: set<Addr>)
    requires Quorum(vals, a) && Quorum(vals, b)
    ensures exists x :: x in a && x in b && HasAddress(vals, x)
  {
    PowerOfIntersection(vals, a, b);
    if forall x :: x in a * b && HasAddress(vals, x) ==> x in {} {
      PowerMonotone(vals, a * b, {});
      PowerOfNobody(vals);
    } else {
      var x :| x in a * b && HasAddress(vals, x);
      assert x in a && x in b;
    }
  }

  lemma {:induction false} PowerOfNobody(vals: ValidatorSet)
    ensures Power(vals, {}) == 0
  {
    if vals != [] {
      PowerOfNobody(vals[1..]);
    }
  }
}
