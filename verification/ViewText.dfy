/** A view as the text that Paxos agrees on: member names, each followed by one blank. */
module ViewText {
  import opened Text

  function Value(ms: seq<string>): (s: string)
    ensures ms != [] ==> s != ""
  {
    if ms == [] then "" else Value(ms[..|ms| - 1]) + ms[|ms| - 1] + " "
  }

  /** The tokens of a text, in order. */
  function Members(s: string): (ms: seq<string>)
    ensures forall m | m in ms :: IsName(m)
    decreases |s|
  {
    var t := SkipSpaces(s);
    if t == "" then []
    else
      var k := TokenLength(t);
      [t[..k]] + Members(t[k..])
  }

  /** The members other than m, in view order. */
  function Without(ms: seq<string>, m: string): seq<string> {
    if ms == [] then []
    else if ms[|ms| - 1] == m then Without(ms[..|ms| - 1], m)
    else Without(ms[..|ms| - 1], m) + [ms[|ms| - 1]]
  }

  lemma {:induction false} WithoutIs(ms: seq<string>, m: string)
    ensures forall x :: x in Without(ms, m) <==> x in ms && x != m
  {
    if ms == [] {
    } else {
      WithoutIs(ms[..|ms| - 1], m);
    }
  }

  lemma {:induction false} WithoutCounts(ms: seq<string>, m: string)
    ensures multiset(Without(ms, m)) == multiset(ms)[m := 0]
  {
    if ms == [] {
    } else {
      WithoutCounts(ms[..|ms| - 1], m);
      assert ms == ms[..|ms| - 1] + [ms[|ms| - 1]];
    }
  }

  /** Names keep their order: the part of a list joined from two is joined from theirs. */
  lemma {:induction false} WithoutSplits(a: seq<string>, b: seq<string>, m: string)
    ensures Without(a + b, m) == Without(a, m) + Without(b, m)
  {
    if b == [] {
      assert a + b == a;
    } else {
      WithoutSplits(a, b[..|b| - 1], m);
      assert (a + b)[..|a + b| - 1] == a + b[..|b| - 1];
    }
  }

  /** The text of a view is that of its members one after the other. */
  lemma {:induction false} ValueSplits(a: seq<string>, b: seq<string>)
    ensures Value(a + b) == Value(a) + Value(b)
  {
    if b == [] {
      assert a + b == a;
    } else {
      ValueSplits(a, b[..|b| - 1]);
      assert (a + b)[..|a + b| - 1] == a + b[..|b| - 1];
    }
  }

  method ComputeValue(m: seq<string>) returns (s: string)
    ensures s == Value(m)
  {
    s := "";
    for i := 0 to |m|
      invariant s == Value(m[..i])
    {
      s := s + m[i];
      s := s + " ";
      assert m[..i + 1][..i] == m[..i];
    }
    assert m[..|m|] == m;
  }

  method ComputeMembers(value: string) returns (view: seq<string>)
    ensures view == Members(value)
  {
    var ist := value;
    view := [];
    while SkipSpaces(ist) != ""
      invariant view + Members(ist) == Members(value)
      decreases |ist|
    {
      var t := SkipSpaces(ist);
      var k := TokenLength(t);
      view := view + [t[..k]];
      ist := t[k..];
    }
  }

  lemma {:induction false} MembersAppend(s: string, m: string)
    requires IsName(m)
    requires s == "" || IsSpace(s[|s| - 1])
    ensures Members(s + m + " ") == Members(s) + [m]
    decreases |s|
  {
    var whole := s + m + " ";
    if s == "" {
      assert whole == m + " ";
      TokenThenSpace(m, " ");
      assert whole[|m|..] == " ";
      assert Members(" ") == [];
    } else if IsSpace(s[0]) {
      assert whole[1..] == s[1..] + m + " ";
      MembersAppend(s[1..], m);
      assert Members(whole) == Members(whole[1..]);
      assert Members(s) == Members(s[1..]);
    } else {
      var k := TokenLength(s);
      TokenOfPrefix(s, m + " ");
      assert whole == s + (m + " ");
      assert whole[k..] == s[k..] + m + " ";
      MembersAppend(s[k..], m);
    }
  }

  lemma TokenOfPrefix(s: string, rest: string)
    requires s != "" && !IsSpace(s[0]) && IsSpace(s[|s| - 1])
    ensures 0 < TokenLength(s) < |s|
    ensures TokenLength(s + rest) == TokenLength(s)
    ensures (s + rest)[..TokenLength(s)] == s[..TokenLength(s)]
  {
    var k := TokenLength(s);
    assert k < |s|;
    assert forall i | 0 <= i < |s| :: (s + rest)[i] == s[i];
  }

  /** Reading a written member list gives it back exactly when every name is a token,
      so the decided text fixes the member list of the next quorum. */
  lemma {:induction false} MembersOfValue(ms: seq<string>)
    ensures Members(Value(ms)) == ms <==> forall m | m in ms :: IsName(m)
  {
    if forall m | m in ms :: IsName(m) {
      ReadBack(ms);
    }
  }

  lemma {:induction false} ReadBack(ms: seq<string>)
    requires forall m | m in ms :: IsName(m)
    ensures Members(Value(ms)) == ms
  {
    if ms == [] {
    } else {
      var init, last := ms[..|ms| - 1], ms[|ms| - 1];
      ReadBack(init);
      MembersAppend(Value(init), last);
      assert ms == init + [last];
    }
  }

  lemma {:induction false} ValueIsLine(ms: seq<string>)
    requires forall m | m in ms :: IsName(m)
    ensures IsLine(Value(ms))
  {
    if ms == [] {
    } else {
      ValueIsLine(ms[..|ms| - 1]);
      assert IsName(ms[|ms| - 1]);
    }
  }

  /** The first view's text is the bare name of the first node. */
  lemma MembersOfName(m: string)
    requires IsName(m)
    ensures Members(m) == [m]
  {
    assert m + "" == m;
    TokenThenSpace(m, "");
    assert m[|m|..] == "";
  }

  /** Any white space, however much of it, separates names and does nothing else. */
  lemma {:induction false} MembersSplit(a: string, c: char, b: string)
    requires IsSpace(c)
    ensures Members(a + [c] + b) == Members(a) + Members(b)
    decreases |a|
  {
    var whole := a + [c] + b;
    if a == "" {
      assert whole[1..] == b;
      SpaceFirst(whole);
      assert Members(a) == [] && [] + Members(b) == Members(b);
    } else if IsSpace(a[0]) {
      assert whole[1..] == a[1..] + [c] + b;
      MembersSplit(a[1..], c, b);
      SpaceFirst(a);
      SpaceFirst(whole);
      hide Members;
    } else {
      var k := TokenLength(a);
      TokenBefore(a, c, b);
      assert whole[..k] == a[..k] && whole[k..] == a[k..] + [c] + b;
      MembersSplit(a[k..], c, b);
      TokenFirst(a);
      TokenFirst(whole);
      hide Members;
      assert [a[..k]] + (Members(a[k..]) + Members(b)) == Members(a) + Members(b);
    }
  }

  lemma SpaceFirst(s: string)
    requires s != "" && IsSpace(s[0])
    ensures Members(s) == Members(s[1..])
  {
  }

  lemma TokenFirst(s: string)
    requires s != "" && !IsSpace(s[0])
    ensures Members(s) == [s[..TokenLength(s)]] + Members(s[TokenLength(s)..])
  {
  }

  lemma TokenBefore(a: string, c: char, b: string)
    requires a != "" && !IsSpace(a[0]) && IsSpace(c)
    ensures 0 < TokenLength(a) <= |a| && TokenLength(a + [c] + b) == TokenLength(a)
  {
    var s, k := a + [c] + b, TokenLength(a);
    assert forall i | 0 <= i < |a| :: s[i] == a[i];
    assert s[|a|] == c;
    assert IsSpace(s[k]);
  }
}
