/** Majorities of a finite set of voters, and the index such a majority holds. */
module Quorums {
  /** The number of votes `quorumSize` asks for among `n` voters. */
  function QuorumSize(n: nat): (q: nat)
    ensures n < 2 * q
    ensures n > 0 ==> q <= n
  {
    n / 2 + 1
  }

  ghost predicate IsQuorum<T>(q: set<T>, voters: set<T>) {
    q <= voters && |q| >= QuorumSize(|voters|)
  }

  lemma SubsetSize<T>(a: set<T>, b: set<T>)
    requires a <= b
    ensures |a| <= |b|
  {
    assert b == a + (b - a);
  }

  /** Any two majorities of the same voters share a voter. */
  lemma QuorumsMeet<T>(voters: set<T>, a: set<T>, b: set<T>) returns (x: T)
    requires IsQuorum(a, voters) && IsQuorum(b, voters)
    ensures x in a && x in b
  {
    SubsetSize(a + b, voters);
    assert |a + b| + |a * b| == |a| + |b|;
    x :| x in a * b;
  }

  /** The voters reported to hold every entry up to `i`. */
  function Holders<T>(m: map<T, nat>, i: nat): set<T> {
    set v | v in m && m[v] >= i
  }

  /** `q` is the largest index that a majority of the reporting voters hold. */
  ghost predicate IsQuorumMatch<T>(m: map<T, nat>, q: nat) {
    && |Holders(m, q)| >= QuorumSize(|m|)
    && forall i: nat :: i > q ==> |Holders(m, i)| < QuorumSize(|m|)
  }

  lemma QuorumMatchUnique<T>(m: map<T, nat>, p: nat, q: nat)
    requires IsQuorumMatch(m, p) && IsQuorumMatch(m, q)
    ensures p == q
  {
  }

  lemma MaxReport<T>(m: map<T, nat>) returns (top: nat)
    ensures forall v :: v in m ==> m[v] <= top
  {
    top := 0;
    var todo := m.Keys;
    while todo != {}
      invariant todo <= m.Keys
      invariant forall v :: v in m && v !in todo ==> m[v] <= top
    {
      var v :| v in todo;
      if m[v] > top { top := m[v]; }
      todo := todo - {v};
    }
  }

  /** A majority index exists whenever somebody votes. */
  lemma QuorumMatchExists<T>(m: map<T, nat>) returns (q: nat)
    requires |m| > 0
    ensures IsQuorumMatch(m, q)
  {
    var top := MaxReport(m);
    q := top;
    forall i: nat | i > top ensures Holders(m, i) == {} {}
    assert Holders(m, 0) == m.Keys;
    while |Holders(m, q)| < QuorumSize(|m|)
      invariant forall i: nat :: i > q ==> |Holders(m, i)| < QuorumSize(|m|)
      decreases q
    {
      q := q - 1;
    }
  }

  /** The index `recalculate` reads off its sorted slice. */
  ghost function QuorumMatch<T>(m: map<T, nat>): (q: nat)
    requires |m| > 0
    ensures IsQuorumMatch(m, q)
  {
    assert exists q: nat :: IsQuorumMatch(m, q) by {
      var q := QuorumMatchExists(m);
    }
    var q: nat :| IsQuorumMatch(m, q);
    q
  }
}
