/** Membership and majority tests of the proposer. */
module Quorum {

  /** How many positions of `l` hold a name that occurs in `sub`. */
  function CountIn(l: seq<string>, sub: seq<string>): (n: nat)
    ensures n <= |l|
  {
    if l == [] then 0 else CountIn(l[..|l| - 1], sub) + (if l[|l| - 1] in sub then 1 else 0)
  }

  /** `sub` contains a majority of the entries of `l`. */
  predicate Majority(l: seq<string>, sub: seq<string>) {
    CountIn(l, sub) >= |l| / 2 + 1
  }

  method IsAMember(m: string, nodes: seq<string>) returns (r: bool)
    ensures r <==> m in nodes
  {
    for i := 0 to |nodes|
      invariant m !in nodes[..i]
    {
      if nodes[i] == m { return true; }
    }
    return false;
  }

  /** The positions of `l` that hold a name of `sub`. */
  function Positions(l: seq<string>, sub: set<string>): set<nat> {
    set i: nat | i < |l| && l[i] in sub
  }

  /** More than half of the positions of `l` hold a name of `sub`. */
  predicate MoreThanHalf(l: seq<string>, sub: set<string>) { 2 * |Positions(l, sub)| > |l| }

  function Names(l: seq<string>): set<string> { set m | m in l }

  lemma {:induction false} CountIsPositions(l: seq<string>, sub: seq<string>)
    ensures CountIn(l, sub) == |Positions(l, Names(sub))|
  {
    if l == [] {
      assert Positions(l, Names(sub)) == {};
    } else {
      var init, k := l[..|l| - 1], |l| - 1;
      CountIsPositions(init, sub);
      var a, b := Positions(init, Names(sub)), Positions(l, Names(sub));
      assert b == if l[k] in sub then a + {k} else a;
    }
  }

  /** Of a list of names and the other entries of a member list of odd length, exactly one is a
      majority; of an even one, at most one. */
  lemma MajorityOrRest(l: seq<string>, a: seq<string>, rest: seq<string>)
    requires forall m | m in l :: m in rest <==> m !in a
    ensures |l| % 2 == 1 ==> (Majority(l, a) <==> !Majority(l, rest))
    ensures !(Majority(l, a) && Majority(l, rest))
  {
    SplitCounts(l, a, rest);
  }

  lemma {:induction false} SplitCounts(l: seq<string>, a: seq<string>, rest: seq<string>)
    requires forall m | m in l :: m in rest <==> m !in a
    ensures CountIn(l, a) + CountIn(l, rest) == |l|
  {
    if l == [] {
    } else {
      SplitCounts(l[..|l| - 1], a, rest);
      assert l[|l| - 1] in l;
    }
  }

  lemma MajorityIsMoreThanHalf(l: seq<string>, sub: seq<string>)
    ensures Majority(l, sub) <==> MoreThanHalf(l, Names(sub))
  {
    CountIsPositions(l, sub);
  }

  method ComputeMajority(l1: seq<string>, l2: seq<string>) returns (r: bool)
    ensures r <==> 2 * |set i: nat | i < |l1| && l1[i] in l2| > |l1|
    ensures r <==> Majority(l1, l2)
  {
    var n := 0;
    for i := 0 to |l1|
      invariant n == CountIn(l1[..i], l2)
    {
      var isIn := IsAMember(l1[i], l2);
      if isIn { n := n + 1; }
      assert l1[..i + 1][..i] == l1[..i];
    }
    assert l1[..|l1|] == l1;
    CountIsPositions(l1, l2);
    assert Positions(l1, Names(l2)) == set i: nat | i < |l1| && l1[i] in l2;
    return n >= |l1| / 2 + 1;
  }

  /** Lists that share no entry of `l` cannot together cover more positions than `l` has. */
  lemma {:induction false} DisjointCounts(l: seq<string>, a: seq<string>, b: seq<string>)
    requires forall m | m in l :: !(m in a && m in b)
    ensures CountIn(l, a) + CountIn(l, b) <= |l|
  {
    if l == [] {
    } else {
      DisjointCounts(l[..|l| - 1], a, b);
      assert l[|l| - 1] in l;
    }
  }

  /** Any two majorities of the same member list share a member of it; entries may repeat. */
  lemma MajoritiesOverlap(l: seq<string>, a: seq<string>, b: seq<string>)
    requires Majority(l, a) && Majority(l, b)
    ensures exists m :: m in l && m in a && m in b
  {
    if forall m | m in l :: !(m in a && m in b) {
      DisjointCounts(l, a, b);
      assert false;
    }
  }
}
