/** The client side of at-most-once calls: the window of answered xids, which stands for the set
    of all xids reported as answered or abandoned, and the numbering of calls. */
module RpcWindow {
  function Above(r: set<nat>, k: nat): set<nat> { set x | x in r && x > k }

  /** The largest k at or above `from` with from+1, ..., k all in r. */
  function FrontFrom(r: set<nat>, from: nat): (k: nat)
    ensures from <= k && k + 1 !in r && forall x | from < x <= k :: x in r
    decreases Above(r, from)
  {
    if from + 1 in r then
      assert from + 1 in Above(r, from) && from + 1 !in Above(r, from + 1);
      assert Above(r, from + 1) <= Above(r, from);
      FrontFrom(r, from + 1)
    else from
  }

  /** The largest k with 1, ..., k all reported. */
  function Front(r: set<nat>): nat { FrontFrom(r, 0) }

  lemma FrontIsLargest(r: set<nat>, k: nat)
    requires k + 1 !in r && forall x | 1 <= x <= k :: x in r
    ensures k == Front(r)
  {
    var f := Front(r);
    assert 1 <= f + 1 <= k ==> f + 1 in r;
    assert 1 <= k + 1 <= f ==> k + 1 in r;
  }

  lemma FrontGrows(r: set<nat>, s: set<nat>)
    requires r <= s
    ensures Front(r) <= Front(s)
  {
    assert 1 <= Front(s) + 1 <= Front(r) ==> Front(s) + 1 in r;
  }

  predicate Sorted(w: seq<nat>) { forall i, j | 0 <= i < j < |w| :: w[i] <= w[j] }

  /** The list holds every reported xid above its front, and nothing below the front; every xid up
      to the front has been reported. */
  ghost predicate Covers(w: seq<nat>, r: set<nat>) {
    && |w| >= 1 && Sorted(w)
    && (forall x | 1 <= x <= w[0] :: x in r)
    && (forall x | x in r && x > w[0] :: x in w)
    && (forall x | x in w && x > w[0] :: x in r)
  }

  /** The window for the reported set: moreover the front cannot advance. */
  ghost predicate Window(w: seq<nat>, r: set<nat>) { Covers(w, r) && w[0] + 1 !in w }

  lemma WindowFront(w: seq<nat>, r: set<nat>)
    requires Window(w, r)
    ensures w[0] == Front(r)
    ensures forall x | x > w[0] :: x in w <==> x in r
  {
    FrontIsLargest(r, w[0]);
  }

  lemma InsertedSorted(w: seq<nat>, i: nat, xid: nat)
    requires Sorted(w) && i <= |w|
    requires (forall j | 0 <= j < i :: w[j] <= xid) && (forall j | i <= j < |w| :: xid <= w[j])
    ensures Sorted(w[..i] + [xid] + w[i..])
  {
    var v := w[..i] + [xid] + w[i..];
    assert forall j | 0 <= j < |v| :: v[j] == if j < i then w[j] else if j == i then xid else w[j - 1];
  }

  lemma Inserted(w: seq<nat>, r: set<nat>, i: nat, xid: nat)
    requires Covers(w, r) && 1 <= i <= |w| && xid > w[0]
    requires (forall j | 0 <= j < i :: w[j] <= xid) && (forall j | i <= j < |w| :: xid <= w[j])
    ensures Covers(w[..i] + [xid] + w[i..], r + {xid})
  {
    InsertedSorted(w, i, xid);
    hide Sorted;
    var v := w[..i] + [xid] + w[i..];
    assert forall x :: x in v <==> x in w || x == xid by {
      assert w == w[..i] + w[i..];
    }
    assert v[0] == w[0];
  }

  /** Everything before the iterator j equals the front, which j is one above. */
  lemma Popped(w: seq<nat>, r: set<nat>, j: nat)
    requires Covers(w, r) && 1 <= j < |w| && w[0] + 1 == w[j] && w[0] + 1 !in w[..j]
    ensures Covers(w[1..], r) && w[1..][0] in {w[0], w[j]}
    ensures j >= 2 ==> w[1] == w[0] && w[0] + 1 !in w[1..][..j - 1]
  {
    assert w[0] <= w[1] <= w[j];
    if j >= 2 { assert w[1] in w[..j]; }
    var v := w[1..];
    assert w == [w[0]] + v;
    assert w[j] in w;
    assert forall i | 0 <= i < j - 1 :: v[i] == w[..j][i + 1];
  }

  // ----- the list operations as functions -----

  /** The pop loop from iterator position j. */
  function Popping(w: seq<nat>, j: nat): (r: seq<nat>)
    requires j <= |w|
    ensures w != [] ==> r != []
    decreases |w| - j, j
  {
    if j == |w| then w
    else if j > 0 && w[0] + 1 == w[j] then Popping(w[1..], j - 1)
    else Popping(w, j + 1)
  }

  /** Before the first larger entry, else at the end. */
  function PlaceOf(w: seq<nat>, xid: nat): (i: nat)
    ensures i <= |w| && (forall j | 0 <= j < i :: w[j] <= xid) && (i < |w| ==> w[i] > xid)
  {
    if w == [] || w[0] > xid then 0 else 1 + PlaceOf(w[1..], xid)
  }

  /** The list update_xid_rep leaves. */
  function Updated(w: seq<nat>, xid: nat): (r: seq<nat>)
    requires w != []
    ensures r != []
  {
    if xid <= w[0] then w
    else
      var i := PlaceOf(w, xid);
      Popping(w[..i] + [xid] + w[i..], 1)
  }

  /** The end of update_xid_rep: advance the front over consecutive xids. */
  method Compress(w0: seq<nat>, ghost r: set<nat>) returns (w: seq<nat>)
    requires Covers(w0, r)
    ensures Window(w, r) && w == Popping(w0, 1)
  {
    w := w0;
    var j := 1;
    while j != |w|
      invariant 1 <= j <= |w| && Covers(w, r) && w[0] + 1 !in w[..j]
      invariant Popping(w, j) == Popping(w0, 1)
      decreases |w| - j
    {
      ghost var rest, it := |w| - j, w[j];
      while w[0] + 1 == w[j]
        invariant 0 <= j < |w| && |w| - j == rest && w[j] == it && Covers(w, r)
        invariant w[0] + 1 !in w[..j] && (j == 0 ==> w[0] + 1 != w[j])
        invariant Popping(w, j) == Popping(w0, 1)
        decreases j
      {
        Popped(w, r, j);
        w, j := w[1..], j - 1;
      }
      assert w[..j + 1] == w[..j] + [w[j]];
      j := j + 1;
    }
    assert w[..j] == w;
  }

  /** update_xid_rep. */
  method Update(w0: seq<nat>, xid: nat, ghost r: set<nat>) returns (w: seq<nat>)
    requires Window(w0, r)
    ensures Window(w, r + {xid}) && w == Updated(w0, xid)
  {
    w := w0;
    if xid <= w[0] { return; }
    var i := 0;
    while i < |w| && w[i] <= xid
      invariant 0 <= i <= |w| && forall j | 0 <= j < i :: w[j] <= xid
    {
      i := i + 1;
    }
    PlaceIs(w, xid, i);
    Inserted(w, r, i, xid);
    w := w[..i] + [xid] + w[i..];
    w := Compress(w, r + {xid});
  }

  lemma {:induction false} PlaceIs(w: seq<nat>, xid: nat, i: nat)
    requires i <= |w| && (forall j | 0 <= j < i :: w[j] <= xid) && (i < |w| ==> w[i] > xid)
    ensures PlaceOf(w, xid) == i
  {
    if i == 0 {
      assert w == [] || w[0] > xid;
    } else {
      assert w[0] <= xid;
      PlaceIs(w[1..], xid, i - 1);
    }
  }

  /** What a run of reports leaves, in any order and with repeats. */
  function Reports(xids: seq<nat>): set<nat> { set x | x in xids }

  /** The list after these reports. */
  function UpdatedAll(xids: seq<nat>): (r: seq<nat>)
    ensures r != []
  {
    if xids == [] then [0] else Updated(UpdatedAll(xids[..|xids| - 1]), xids[|xids| - 1])
  }

  lemma OneMore(xids: seq<nat>, i: nat)
    requires i < |xids|
    ensures Reports(xids[..i + 1]) == Reports(xids[..i]) + {xids[i]}
    ensures UpdatedAll(xids[..i + 1]) == Updated(UpdatedAll(xids[..i]), xids[i])
  {
    hide Updated;
    assert xids[..i + 1] == xids[..i] + [xids[i]] && xids[..i + 1][..i] == xids[..i];
  }

  method UpdateAll(xids: seq<nat>) returns (w: seq<nat>)
    ensures Window(w, Reports(xids)) && w == UpdatedAll(xids)
    ensures w[0] == Front(Reports(xids)) && forall x | x > w[0] :: x in w <==> x in xids
  {
    w := [0];
    for i := 0 to |xids|
      invariant Window(w, Reports(xids[..i])) && w == UpdatedAll(xids[..i])
    {
      w := Update(w, xids[i], Reports(xids[..i]));
      OneMore(xids, i);
    }
    assert xids[..|xids|] == xids;
    WindowFront(w, Reports(xids));
  }

  lemma FirstReport()
    ensures Updated([0], 2) == [0, 2]
  {
    assert [0][..1] + [2] + [0][1..] == [0, 2];
    assert PlaceOf([0], 2) == 1;
    assert Popping([0, 2], 2) == [0, 2];
  }

  lemma SameReport()
    ensures Updated([0, 2], 2) == [0, 2, 2]
  {
    PlaceIs([0, 2], 2, 2);
    assert [0, 2][..2] + [2] + [0, 2][2..] == [0, 2, 2];
    assert Popping([0, 2, 2], 3) == [0, 2, 2] && Popping([0, 2, 2], 2) == Popping([0, 2, 2], 3);
  }

  lemma LastReport()
    ensures Updated([0, 2, 2], 1) == [2, 2]
  {
    PlaceIs([0, 2, 2], 1, 1);
    assert [0, 2, 2][..1] + [1] + [0, 2, 2][1..] == [0, 1, 2, 2];
    assert [0, 1, 2, 2][1..] == [1, 2, 2] && [1, 2, 2][1..] == [2, 2];
    assert Popping([2, 2], 2) == [2, 2] && Popping([2, 2], 1) == Popping([2, 2], 2);
    assert Popping([1, 2, 2], 1) == Popping([2, 2], 0) == Popping([2, 2], 1);
    assert Popping([0, 1, 2, 2], 1) == Popping([1, 2, 2], 0) == Popping([1, 2, 2], 1);
  }

  /** Copies of the front can stay behind it: so the reports 2, 2, 1 end. */
  lemma FrontCanRepeat()
    ensures UpdatedAll([2, 2, 1]) == [2, 2] && Front(Reports([2, 2, 1])) == 2
  {
    assert [2, 2, 1][..2] == [2, 2] && [2, 2][..1] == [2] && [2][..0] == [];
    assert UpdatedAll([2]) == [0, 2] by { FirstReport(); }
    assert UpdatedAll([2, 2]) == [0, 2, 2] by { SameReport(); }
    LastReport();
    FrontIsLargest(Reports([2, 2, 1]), 2);
  }
}
