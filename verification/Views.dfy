/** The sequence of views: one-node changes, the removal the heartbeater asks for, and the
    primary that nodes name while they commit views in turn. */
module Views {
  import opened Text
  import opened Options
  import opened ViewText
  import opened PaxosSystem
  import Quorum

  predicate Distinct(ms: seq<string>) {
    forall i, j | 0 <= i < j < |ms| :: ms[i] != ms[j]
  }

  /** The next view adds one new node, or drops one member while another stays. */
  ghost predicate OneChange(a: seq<string>, b: seq<string>) {
    exists p, c :: ValidChange(a, p, c) && b == Changed(a, c)
  }

  method RemoveFrom(mems: seq<string>, m: string) returns (n: seq<string>)
    ensures n == Without(mems, m)
  {
    n := [];
    for i := 0 to |mems|
      invariant n == Without(mems[..i], m)
    {
      if mems[i] != m { n := n + [mems[i]]; }
      assert mems[..i + 1][..i] == mems[..i];
    }
    assert mems[..|mems|] == mems;
  }

  lemma {:induction false} WithoutMember(ms: seq<string>, m: string)
    requires Distinct(ms)
    ensures Distinct(Without(ms, m))
    ensures forall x :: x in Without(ms, m) <==> x in ms && x != m
    ensures |Without(ms, m)| == if m in ms then |ms| - 1 else |ms|
  {
    WithoutIs(ms, m);
    if ms == [] {
    } else {
      var init, last := ms[..|ms| - 1], ms[|ms| - 1];
      assert last !in init by {
        assert forall i | 0 <= i < |init| :: init[i] == ms[i] && ms[i] != last;
      }
      WithoutMember(init, m);
      assert ms == init + [last];
    }
  }

  /** A one-node change of a duplicate-free view is nonempty, duplicate-free, and differs from
      it in exactly one node. */
  lemma ChangeShape(a: seq<string>, b: seq<string>)
    requires Distinct(a) && OneChange(a, b)
    ensures Distinct(b) && b != []
    ensures || (exists m :: m !in a && b == a + [m])
            || (exists m :: m in a && |b| == |a| - 1 && forall x :: x in b <==> x in a && x != m)
    ensures a != [] ==> exists x :: x in a && x in b
  {
    var p, c :| ValidChange(a, p, c) && b == Changed(a, c);
    if c.Remove? {
      WithoutMember(a, c.m);
      assert p in a && p in b;
    } else {
      assert a != [] ==> a[0] in a && a[0] in b;
    }
  }

  // ----- the heartbeater's choice -----

  /** The members other than me that do not answer. */
  function Silent(cmems: seq<string>, me: string, alive: set<string>): seq<string> {
    if cmems == [] then []
    else (if cmems[0] != me && cmems[0] !in alive then [cmems[0]] else []) + Silent(cmems[1..], me, alive)
  }

  lemma {:induction false} SilentAre(cmems: seq<string>, me: string, alive: set<string>)
    ensures forall x :: x in Silent(cmems, me, alive) <==> x in cmems && x != me && x !in alive
  {
    if cmems == [] {
    } else {
      assert cmems == [cmems[0]] + cmems[1..];
      SilentAre(cmems[1..], me, alive);
    }
  }

  /** The member to remove after a round of heartbeats, if any: the smallest node watches the
      others in order, the others watch the smallest. */
  method Suspect(me: string, cmems: seq<string>, alive: set<string>) returns (s: Option<string>)
    ensures me !in cmems ==> s.None?
    ensures s.Some? ==> ValidChange(cmems, me, Remove(s.value)) && s.value !in alive
    ensures s.None? && me in cmems && (forall x | x in cmems :: x == me || Less(me, x)) ==>
              forall x | x in cmems && x != me :: x in alive
    ensures s.Some? && (exists x :: x in cmems && Less(x, me)) ==>
              forall x | x in cmems :: !Less(x, s.value)
    ensures s.None? && me in cmems ==>
              forall x | x in cmems && Less(x, me) && (forall y | y in cmems :: !Less(y, x)) :: x in alive
    ensures s.Some? && (forall x | x in cmems :: x == me || Less(me, x)) ==>
              FirstOf(cmems, Silent(cmems, me, alive), s.value)
  {
    var isMember := Quorum.IsAMember(me, cmems);
    if !isMember { return None; }
    var m := me;
    LessIrreflexive(me);
    for i := 0 to |cmems|
      invariant m in cmems && (m == me || Less(m, me))
      invariant forall x | x in cmems[..i] :: !Less(x, m)
    {
      if Less(cmems[i], m) {
        forall x | x in cmems[..i] ensures !Less(x, cmems[i]) {
          if Less(x, cmems[i]) { LessTransitive(x, cmems[i], m); }
        }
        if m != me { LessTransitive(cmems[i], m, me); }
        m := cmems[i];
      }
      LessIrreflexive(cmems[i]);
    }
    assert cmems[..|cmems|] == cmems;
    SilentAre(cmems, me, alive);
    if m == me {
      for i := 0 to |cmems|
        invariant forall x | x in cmems[..i] && x != me :: x in alive
      {
        if cmems[i] != me && cmems[i] !in alive {
          assert forall j | 0 <= j < i :: cmems[j] in cmems[..i];
          return Some(cmems[i]);
        }
      }
      return None;
    } else {
      LessIrreflexive(m);
      if Less(me, m) { LessTransitive(m, me, m); }
      if m !in alive { return Some(m); }
      forall x | x in cmems && (forall y | y in cmems :: !Less(y, x)) ensures x == m { LessTotal(x, m); }
      return None;
    }
  }

  // ----- the primary -----

  /** x is in c, and no member of p before it is. */
  ghost predicate FirstOf(p: seq<string>, c: seq<string>, x: string) {
    exists i :: 0 <= i < |p| && p[i] == x && x in c && forall j | 0 <= j < i :: p[j] !in c
  }

  /** The first member of p that is in c. */
  function FirstIn(p: seq<string>, c: seq<string>): (r: Option<string>)
    ensures r.Some? ==> r.value in p && r.value in c
    ensures r.Some? ==> FirstOf(p, c, r.value)
    ensures r.None? ==> forall x | x in p :: x !in c
  {
    if p == [] then None
    else if p[0] in c then Some(p[0])
    else
      var r := FirstIn(p[1..], c);
      assert r.Some? ==> FirstOf(p, c, r.value) by { if r.Some? { FirstOfMore(p, c, r.value); } }
      r
  }

  lemma FirstOfMore(p: seq<string>, c: seq<string>, x: string)
    requires p != [] && p[0] !in c && FirstOf(p[1..], c, x)
    ensures FirstOf(p, c, x)
  {
    var i :| 0 <= i < |p[1..]| && p[1..][i] == x && x in c && forall j | 0 <= j < i :: p[1..][j] !in c;
    assert p[i + 1] == x && forall j | 0 <= j < i + 1 :: p[j] !in c by {
      forall j | 0 < j < i + 1 ensures p[j] !in c { assert p[1..][j - 1] == p[j]; }
    }
  }

  /** The primary of view c after view p; None where the last VERIFY fails. */
  function NextPrimary(primary: string, p: seq<string>, c: seq<string>): Option<string> {
    if primary in c then Some(primary) else FirstIn(p, c)
  }

  method SetPrimary(primary: string, p: seq<string>, c: seq<string>) returns (r: Option<string>)
    ensures primary in c ==> r == Some(primary)
    ensures primary !in c ==> (r.Some? <==> exists x :: x in p && x in c)
    ensures primary !in c && r.Some? ==> FirstOf(p, c, r.value)
    ensures r == NextPrimary(primary, p, c)
  {
    var stays := Quorum.IsAMember(primary, c);
    if stays { return Some(primary); }
    for i := 0 to |p|
      invariant FirstIn(p, c) == FirstIn(p[i..], c)
    {
      var here := Quorum.IsAMember(p[i], c);
      if here { return Some(p[i]); }
    }
    return None;
  }

  /** Views 1..|vs|: the first holds only the first node, and each is a one-node change. */
  ghost predicate ViewChain(vs: seq<seq<string>>) {
    && |vs| >= 1 && |vs[0]| == 1
    && forall k | 1 <= k < |vs| :: OneChange(vs[k - 1], vs[k])
  }

  /** The primary of view k for a node that commits views 1..k in turn. */
  function PrimaryOf(vs: seq<seq<string>>, k: nat): Option<string>
    requires 1 <= k <= |vs| && |vs[0]| == 1
  {
    if k == 1 then Some(vs[0][0])
    else
      match PrimaryOf(vs, k - 1)
      case None => None
      case Some(x) => NextPrimary(x, vs[k - 2], vs[k - 1])
  }

  /** Every node names a primary for every view, it is a member, and from view 2 on it was a
      member of the view before: the final VERIFY of set_primary cannot fail. */
  lemma {:induction false} PrimaryInBoth(vs: seq<seq<string>>, k: nat)
    requires ViewChain(vs) && 1 <= k <= |vs|
    ensures Distinct(vs[k - 1]) && vs[k - 1] != []
    ensures PrimaryOf(vs, k).Some? && PrimaryOf(vs, k).value in vs[k - 1]
    ensures k >= 2 ==> PrimaryOf(vs, k).value in vs[k - 2]
  {
    if k == 1 {
    } else {
      PrimaryInBoth(vs, k - 1);
      assert OneChange(vs[k - 1 - 1], vs[k - 1]);
      ChangeShape(vs[k - 2], vs[k - 1]);
    }
  }

  /** The primary only changes when it leaves. */
  lemma PrimaryStays(vs: seq<seq<string>>, k: nat)
    requires ViewChain(vs) && 2 <= k <= |vs|
    ensures PrimaryOf(vs, k - 1).Some? && PrimaryOf(vs, k).Some?
    ensures PrimaryOf(vs, k - 1).value in vs[k - 1] <==> PrimaryOf(vs, k) == PrimaryOf(vs, k - 1)
  {
    PrimaryInBoth(vs, k - 1);
    PrimaryInBoth(vs, k);
  }

  // ----- the primary is the oldest member -----

  lemma {:induction false} WithoutHead(a: seq<string>, m: string)
    requires Distinct(a) && a != []
    ensures m == a[0] ==> Without(a, m) == a[1..]
    ensures m != a[0] ==> Without(a, m) != [] && Without(a, m)[0] == a[0]
  {
    var init, last := a[..|a| - 1], a[|a| - 1];
    if |a| == 1 {
      assert init == [] && Without(init, m) == [] && a[1..] == [];
    } else {
      WithoutHead(init, m);
      assert a[1..] == init[1..] + [last];
    }
  }

  /** Members keep their places: of a view and its successor, the first old member that stays is
      the head of the new view. */
  lemma FirstInIsHead(a: seq<string>, b: seq<string>)
    requires Distinct(a) && a != [] && OneChange(a, b)
    ensures b != [] && FirstIn(a, b) == Some(b[0])
    ensures a[0] in b ==> b[0] == a[0]
  {
    var p, c :| ValidChange(a, p, c) && b == Changed(a, c);
    match c
    case Add(m) => assert b[0] == a[0];
    case Remove(m) =>
      WithoutHead(a, m);
      WithoutMember(a, m);
      if m == a[0] {
        assert p in b && b == a[1..] && a[1..][0] == b[0];
        assert FirstIn(a[1..], b) == Some(b[0]);
      }
  }

  /** Along every chain the primary is the first member of the view, which is its oldest. */
  lemma {:induction false} PrimaryIsHead(vs: seq<seq<string>>, k: nat)
    requires ViewChain(vs) && 1 <= k <= |vs|
    ensures vs[k - 1] != [] && PrimaryOf(vs, k) == Some(vs[k - 1][0])
  {
    if k == 1 {
      assert PrimaryOf(vs, 1) == Some(vs[0][0]);
    } else {
      PrimaryIsHead(vs, k - 1);
      PrimaryInBoth(vs, k - 1);
      assert OneChange(vs[k - 1 - 1], vs[k - 1]);
      FirstInIsHead(vs[k - 2], vs[k - 1]);
    }
  }

  /** A node that commits view k without the views before it, naming any node as primary until
      then, names the common primary if and only if its old primary is not in that view or is
      its head. */
  lemma JumpAgreesExactlyWhen(vs: seq<seq<string>>, k: nat, primary: string)
    requires ViewChain(vs) && 2 <= k <= |vs|
    ensures NextPrimary(primary, vs[k - 2], vs[k - 1]) == PrimaryOf(vs, k) <==>
            primary !in vs[k - 1] || vs[k - 1][0] == primary
  {
    PrimaryIsHead(vs, k);
    PrimaryInBoth(vs, k - 1);
    assert OneChange(vs[k - 1 - 1], vs[k - 1]);
    FirstInIsHead(vs[k - 2], vs[k - 1]);
  }

  lemma FourViews()
    ensures ViewChain([["1"], ["1", "2"], ["2"], ["2", "1"]])
  {
    var v1, v2, v3, v4 := ["1"], ["1", "2"], ["2"], ["2", "1"];
    assert ValidChange(v1, "1", Add("2")) && v2 == Changed(v1, Add("2"));
    assert v2[..1] == ["1"] && v2[..1][..0] == [];
    assert Without(["1"], "1") == [];
    assert Without(v2, "1") == ["2"];
    assert ValidChange(v2, "2", Remove("1")) && v3 == Changed(v2, Remove("1"));
    assert ValidChange(v3, "2", Add("1")) && v4 == Changed(v3, Add("1"));
    assert OneChange(v1, v2) && OneChange(v2, v3) && OneChange(v3, v4);
  }

  /** The other case exists: the first node leaves, comes back, and is still named by a joiner. */
  lemma JumpSplitsPrimary()
    ensures exists vs, k :: ViewChain(vs) && 1 < k <= |vs| &&
              NextPrimary(vs[0][0], vs[k - 2], vs[k - 1]) != PrimaryOf(vs, k)
  {
    var vs := [["1"], ["1", "2"], ["2"], ["2", "1"]];
    FourViews();
    hide OneChange, ViewChain;
    assert PrimaryOf(vs, 1) == Some("1");
    assert PrimaryOf(vs, 2) == Some("1");
    assert PrimaryOf(vs, 3) == Some("2");
    assert PrimaryOf(vs, 4) == Some("2");
    assert NextPrimary(vs[0][0], vs[4 - 2], vs[4 - 1]) == Some("1");
  }
}
