/** Proposal numbers (prop_t) and their order. */
module Proposal {
  import Text

  /** A round and the name of the proposing node. */
  datatype Prop = Prop(n: nat, m: string)

  /** operator> on prop_t. */
  predicate Greater(a: Prop, b: Prop) {
    a.n > b.n || (a.n == b.n && Text.Less(b.m, a.m))
  }

  /** operator>= on prop_t. */
  predicate AtLeast(a: Prop, b: Prop) {
    a.n > b.n || (a.n == b.n && (a.m == b.m || Text.Less(b.m, a.m)))
  }

  lemma GreaterIsStrictTotal(a: Prop, b: Prop)
    ensures !(Greater(a, b) && Greater(b, a))
    ensures !Greater(a, a)
    ensures Greater(a, b) || a == b || Greater(b, a)
    ensures AtLeast(a, b) <==> !Greater(b, a)
    ensures AtLeast(a, b) <==> a == b || Greater(a, b)
  {
    Text.LessTotal(a.m, b.m);
    Text.LessIrreflexive(a.m);
    if Text.Less(a.m, b.m) && Text.Less(b.m, a.m) {
      Text.LessTransitive(a.m, b.m, a.m);
    }
  }

  /** The higher round wins; within a round, the name that is greater at its first difference. */
  lemma GreaterIsByRoundThenName(a: Prop, b: Prop)
    ensures a.n > b.n ==> Greater(a, b)
    ensures a.n == b.n ==> (Greater(a, b) <==> exists k: nat :: Text.LessAt(b.m, a.m, k))
  {
    Text.LessIsLexicographic(b.m, a.m);
  }

  lemma GreaterTransitive(a: Prop, b: Prop, c: Prop)
    requires Greater(a, b) && Greater(b, c)
    ensures Greater(a, c)
  {
    if a.n == b.n && b.n == c.n {
      Text.LessTransitive(c.m, b.m, a.m);
    }
  }

  lemma AtLeastTransitive(a: Prop, b: Prop, c: Prop)
    ensures AtLeast(a, b) && AtLeast(b, c) ==> AtLeast(a, c)
    ensures Greater(a, b) && AtLeast(b, c) ==> Greater(a, c)
    ensures AtLeast(a, b) && Greater(b, c) ==> Greater(a, c)
  {
    GreaterIsStrictTotal(a, b);
    GreaterIsStrictTotal(b, c);
    GreaterIsStrictTotal(a, c);
    if Greater(a, b) && Greater(b, c) { GreaterTransitive(a, b, c); }
  }
}
