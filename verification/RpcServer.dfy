/** The server side of at-most-once calls for one client nonce: the window of remembered calls
    under the documented rule, with the low-water mark that rule needs. */
module RpcServer {
  import opened Options

  /** Every xid up to `low` is answered or abandoned at the client. A remembered call has its reply
      once it is done. */
  datatype Win = Win(low: nat, known: map<nat, Option<nat>>)

  datatype Verdict = NEW | INPROGRESS | DONE(reply: nat) | FORGOTTEN

  const EMPTY := Win(0, map[])

  function Max(a: nat, b: nat): nat { if a >= b then a else b }

  function Prune(known: map<nat, Option<nat>>, low: nat): map<nat, Option<nat>> {
    map x | x in known && !(x <= low && known[x].Some?) :: known[x]
  }

  /** checkduplicate_and_update by its documented rule. */
  function Check(w: Win, xid: nat, rep: nat): (Win, Verdict) {
    var low := Max(w.low, rep);
    var known := Prune(w.known, low);
    if xid in known then (Win(low, known), if known[xid].Some? then DONE(known[xid].value) else INPROGRESS)
    else if xid <= low then (Win(low, known), FORGOTTEN)
    else (Win(low, known[xid := None]), NEW)
  }

  function AddReply(w: Win, xid: nat, reply: nat): Win { w.(known := w.known[xid := Some(reply)]) }

  /** The call was received before: it is remembered or below the mark. */
  predicate Seen(w: Win, xid: nat) { xid in w.known || xid <= w.low }

  /** A call is NEW exactly when it was not seen and is not below the mark it brings, and from then
      on it is seen; no call is ever unseen again. */
  lemma CheckIsOnce(w: Win, xid: nat, rep: nat)
    ensures var (w', v) := Check(w, xid, rep);
            && (v == NEW <==> !Seen(w, xid) && xid > rep)
            && Seen(w', xid)
            && (forall x: nat | Seen(w, x) :: Seen(w', x))
            && (forall x: nat | Seen(w', x) :: Seen(w, x) || x == xid || x <= rep)
  {
  }

  /** The other verdicts: a call still running is in progress; an answered one above the mark gets
      its reply; one at or below the mark that is not running is forgotten. */
  lemma CheckVerdicts(w: Win, xid: nat, rep: nat)
    ensures var v := Check(w, xid, rep).1;
            && (v == INPROGRESS <==> xid in w.known && w.known[xid].None?)
            && (v.DONE? <==> xid in w.known && w.known[xid].Some? && xid > w.low && xid > rep)
            && (v.DONE? ==> w.known[xid] == Some(v.reply))
            && (v == FORGOTTEN <==> (xid <= w.low || xid <= rep) && !(xid in w.known && w.known[xid].None?))
  {
  }

  /** Pruning takes only answered calls at or below the mark. */
  lemma CheckForgetsOnlyAnswered(w: Win, xid: nat, rep: nat, x: nat)
    requires x in w.known
    ensures var w' := Check(w, xid, rep).0;
            && (x !in w'.known <==> x <= Max(w.low, rep) && w.known[x].Some?)
            && (x in w'.known ==> w'.known[x] == w.known[x])
  {
  }

  // ----- the list in place -----

  datatype Slot = Slot(xid: nat, reply: Option<nat>)

  predicate Distinct(l: seq<Slot>) { forall i, j | 0 <= i < j < |l| :: l[i].xid != l[j].xid }

  ghost predicate Holds(l: seq<Slot>, known: map<nat, Option<nat>>) {
    && Distinct(l)
    && (forall s | s in l :: s.xid in known && known[s.xid] == s.reply)
    && (forall x | x in known :: Slot(x, known[x]) in l)
  }

  predicate Stays(s: Slot, low: nat) { s.xid > low || s.reply.None? }

  function Kept(l: seq<Slot>, low: nat): seq<Slot> {
    if l == [] then []
    else Kept(l[..|l| - 1], low) + (if Stays(l[|l| - 1], low) then [l[|l| - 1]] else [])
  }

  lemma {:induction false} KeptMembers(l: seq<Slot>, low: nat)
    ensures forall s :: s in Kept(l, low) <==> s in l && Stays(s, low)
    ensures Distinct(l) ==> Distinct(Kept(l, low))
  {
    if l == [] {
    } else {
      var m := l[..|l| - 1];
      KeptMembers(m, low);
      assert l == m + [l[|l| - 1]];
      if Distinct(l) {
        assert forall s | s in m :: s.xid != l[|l| - 1].xid;
        assert forall i | 0 <= i < |Kept(m, low)| :: Kept(m, low)[i] in m;
      }
    }
  }

  method PruneList(l0: seq<Slot>, low: nat, ghost known: map<nat, Option<nat>>) returns (l: seq<Slot>)
    requires Holds(l0, known)
    ensures Holds(l, Prune(known, low))
  {
    l := [];
    for i := 0 to |l0|
      invariant l == Kept(l0[..i], low)
    {
      assert l0[..i + 1][..i] == l0[..i];
      if Stays(l0[i], low) { l := l + [l0[i]]; }
    }
    assert l0[..|l0|] == l0;
    KeptMembers(l0, low);
  }

  method Find(l: seq<Slot>, xid: nat, ghost known: map<nat, Option<nat>>) returns (i: nat)
    requires Holds(l, known)
    ensures i <= |l|
    ensures i < |l| ==> l[i].xid == xid && xid in known && known[xid] == l[i].reply
    ensures i == |l| ==> xid !in known
  {
    i := 0;
    while i < |l| && l[i].xid != xid
      invariant i <= |l| && forall j | 0 <= j < i :: l[j].xid != xid
    {
      i := i + 1;
    }
    if i < |l| { assert l[i] in l; }
  }

  lemma Replaced(l: seq<Slot>, i: nat, reply: nat, known: map<nat, Option<nat>>)
    requires Holds(l, known) && i < |l|
    ensures Holds(l[i := Slot(l[i].xid, Some(reply))], known[l[i].xid := Some(reply)])
  {
    var xid, m := l[i].xid, l[i := Slot(l[i].xid, Some(reply))];
    var after := known[xid := Some(reply)];
    forall x | x in after ensures Slot(x, after[x]) in m {
      if x == xid {
        assert m[i] in m;
      } else {
        var j: nat :| j < |l| && l[j] == Slot(x, known[x]);
        assert m[j] in m;
      }
    }
  }

  lemma Placed(l: seq<Slot>, i: nat, xid: nat, known: map<nat, Option<nat>>)
    requires Holds(l, known) && xid !in known && i <= |l|
    ensures Holds(l[..i] + [Slot(xid, None)] + l[i..], known[xid := None])
  {
    var m := l[..i] + [Slot(xid, None)] + l[i..];
    assert forall s :: s in m <==> s in l || s == Slot(xid, None) by {
      assert l == l[..i] + l[i..];
    }
    forall j, k | 0 <= j < k < |m| ensures m[j].xid != m[k].xid {
      assert forall n | 0 <= n < |l| :: l[n] in l;
    }
  }

  method Insert(l: seq<Slot>, xid: nat, ghost known: map<nat, Option<nat>>) returns (m: seq<Slot>)
    requires Holds(l, known) && xid !in known
    ensures Holds(m, known[xid := None])
  {
    var i := 0;
    while i < |l| && l[i].xid <= xid
      invariant 0 <= i <= |l|
    {
      i := i + 1;
    }
    Placed(l, i, xid, known);
    m := l[..i] + [Slot(xid, None)] + l[i..];
  }

  class ReplyWindow {
    var low: nat
    var list: seq<Slot>
    ghost var known: map<nat, Option<nat>>

    ghost predicate Valid()
      reads this
    {
      Holds(list, known)
    }

    constructor ()
      ensures Valid() && Win(low, known) == EMPTY
    {
      low, list, known := 0, [], map[];
    }

    method CheckDuplicate(xid: nat, rep: nat) returns (v: Verdict)
      requires Valid()
      modifies this
      ensures Valid() && (Win(low, known), v) == Check(old(Win(low, known)), xid, rep)
    {
      low := Max(low, rep);
      list := PruneList(list, low, known);
      known := Prune(known, low);
      var i := Find(list, xid, known);
      if i < |list| {
        return match list[i].reply case Some(r) => DONE(r) case None => INPROGRESS;
      }
      if xid <= low { return FORGOTTEN; }
      list := Insert(list, xid, known);
      known := known[xid := None];
      v := NEW;
    }

    method AddReplyTo(xid: nat, reply: nat)
      requires Valid()
      modifies this`list, this`known
      ensures Valid() && Win(low, known) == AddReply(old(Win(low, known)), xid, reply)
    {
      var i := Find(list, xid, known);
      if i < |list| {
        Replaced(list, i, reply, known);
        list := list[i := Slot(xid, Some(reply))];
      } else {
        list := list + [Slot(xid, Some(reply))];
      }
      known := known[xid := Some(reply)];
    }
  }
}
