/** Which primary nodes name. Nodes that commit views in turn name one primary per view; exactly
    when a node that skips views does as well. */
module RsmPrimary {
  import opened Options
  import opened Rsm
  import opened RsmSystem
  import opened RsmInvariant
  import opened RsmSteps
  import ViewText
  import Views

  /** The primary that nodes committing views in turn name for view v. */
  ghost function Prim(s: State, v: nat): string {
    if 1 <= v <= |s.views| && |s.views[0]| == 1 then
      match Views.PrimaryOf(s.views, v)
      case Some(x) => x
      case None => ""
    else ""
  }

  /** Committing a later view never aborts, and names the common primary exactly when the primary
      named so far is not in that view or is its head. */
  lemma CommitNamesPrimary(s: State, r: Replica, v: nat)
    requires Views.ViewChain(s.views) && r.vidCommit < v <= |s.views|
    requires v == 1 ==> r.primary == Prim(s, 1)
    ensures var c := CommitChange(r, v, ViewAt(s, v - 1), ViewAt(s, v));
            && c.Some? && c.value == r.(vidCommit := v, inviewchange := true, primary := c.value.primary)
            && ViewAt(s, v) != []
            && (c.value.primary == Prim(s, v) <==> r.primary !in ViewAt(s, v) || ViewAt(s, v)[0] == r.primary)
  {
    Views.PrimaryIsHead(s.views, v);
    if v >= 2 {
      Views.JumpAgreesExactlyWhen(s.views, v, r.primary);
      Views.PrimaryInBoth(s.views, v);
    }
  }

  /** A node that commits the next view keeps or hands on the common primary. */
  lemma InTurnIsNamed(s: State, r: Replica)
    requires Views.ViewChain(s.views) && r.vidCommit < |s.views|
    requires r.primary == Prim(s, if r.vidCommit == 0 then 1 else r.vidCommit)
    ensures var view := ViewAt(s, r.vidCommit + 1); view != [] && (r.primary !in view || view[0] == r.primary)
  {
    var v := r.vidCommit;
    Views.PrimaryIsHead(s.views, v + 1);
    if v >= 1 {
      Views.PrimaryIsHead(s.views, v);
      Views.PrimaryInBoth(s.views, v);
      assert Views.OneChange(s.views[v - 1], s.views[v]);
      Views.FirstInIsHead(s.views[v - 1], s.views[v]);
    }
  }

  // ----- every run -----

  /** A node that has committed nothing names the first node. */
  ghost predicate Booted(s: State) {
    && Views.ViewChain(s.views)
    && forall p | p in s.nodes ::
         && s.nodes[p].rep.vidCommit <= |s.views|
         && (s.nodes[p].rep.vidCommit == 0 ==> s.nodes[p].rep.primary == Prim(s, 1))
  }

  lemma BootedStays(s: State, e: Event)
    requires Booted(s) && Enabled(s, e)
    ensures Booted(Next(s, e))
  {
    hide Next, Views.ViewChain;
    var t := Next(s, e);
    SameNodes(s, e);
    SameViews(s, e);
    forall p | p in t.nodes
      ensures t.nodes[p].rep.vidCommit <= |t.views|
      ensures t.nodes[p].rep.vidCommit == 0 ==> t.nodes[p].rep.primary == Prim(t, 1)
    {
      NextNames(s, e, p);
      if e.CommitView? && e.p == p { CommitsTo(s, e); }
    }
  }

  lemma {:induction false} BootedRun(s: State, es: seq<Event>)
    requires Booted(s) && AnyRun(s, es)
    ensures Booted(After(s, es))
    decreases |es|
  {
    hide Booted, Next, Enabled;
    if es == [] {
    } else {
      BootedStays(s, es[0]);
      BootedRun(Next(s, es[0]), es[1..]);
    }
  }

  /** In every run at all, committing any later view, the next one or one after a join, fails no
      VERIFY, and it names the common primary of that view if and only if `Named` holds. */
  lemma CommitsName(views: seq<seq<string>>, names: set<string>, es: seq<Event>, s: State, p: string, w: nat)
    requires Views.ViewChain(views) && AnyRun(Init(views, names), es) && s == After(Init(views, names), es)
    requires p in s.nodes && s.nodes[p].rep.vidCommit < w <= |s.views|
    ensures Enabled(s, CommitView(p, w))
    ensures Next(s, CommitView(p, w)).nodes[p].rep.primary == Prim(s, w) <==> Named(s, CommitView(p, w))
  {
    assert Booted(Init(views, names)) by { assert Prim(Init(views, names), 1) == views[0][0]; }
    BootedRun(Init(views, names), es);
    hide AnyRun, After, CommitChange, Prim, Views.ViewChain;
    CommitNamesPrimary(s, s.nodes[p].rep, w);
  }

  // ----- runs whose commits all meet `Named` -----

  /** Every node names the common primary of the view it is in, and synced each view with it. */
  ghost predicate OneName(s: State) {
    && Booted(s)
    && (forall p | p in s.nodes && s.nodes[p].rep.vidCommit >= 1 ::
          s.nodes[p].rep.primary == Prim(s, s.nodes[p].rep.vidCommit))
    && (forall k | k in s.roles :: s.roles[k] == Prim(s, k.1))
  }

  lemma SameRoles(s: State, e: Event)
    requires Enabled(s, e) && !e.StartSync?
    ensures Next(s, e).roles == s.roles
  {
    hide ViewText.Without, EraseFirst, CommitChange;
  }

  lemma StartRole(s: State, p: string)
    requires Enabled(s, StartSync(p)) && s.nodes[p].rep.me == p
    ensures s.nodes[p].rep.vidCommit >= 1
    ensures Next(s, StartSync(p)).roles == s.roles[(p, s.nodes[p].rep.vidCommit) := s.nodes[p].rep.primary]
  {
    hide ViewText.Without;
  }

  lemma OneNameStays(s: State, e: Event)
    requires OneName(s) && (forall p | p in s.nodes :: s.nodes[p].rep.me == p) && Enabled(s, e) && Named(s, e)
    ensures OneName(Next(s, e))
  {
    hide Next, Views.ViewChain, Prim, CommitChange;
    var t := Next(s, e);
    BootedStays(s, e);
    SameNodes(s, e);
    SameViews(s, e);
    PrimSame(s, t);
    forall p | p in t.nodes && t.nodes[p].rep.vidCommit >= 1
      ensures t.nodes[p].rep.primary == Prim(t, t.nodes[p].rep.vidCommit)
    {
      NextNames(s, e, p);
      if e.CommitView? && e.p == p {
        CommitsTo(s, e);
        CommitNamesPrimary(s, s.nodes[p].rep, e.v);
      }
    }
    if e.StartSync? { StartRole(s, e.p); } else { SameRoles(s, e); }
  }

  lemma PrimSame(s: State, t: State)
    requires t.views == s.views
    ensures forall v :: Prim(t, v) == Prim(s, v)
  {
  }

  lemma OwnNames(s: State, e: Event)
    requires Enabled(s, e) && forall p | p in s.nodes :: s.nodes[p].rep.me == p
    ensures forall p | p in Next(s, e).nodes :: Next(s, e).nodes[p].rep.me == p
  {
    hide Next;
    SameNodes(s, e);
    forall p | p in s.nodes ensures Next(s, e).nodes[p].rep.me == p {
      NextNames(s, e, p);
      if e.CommitView? && e.p == p { CommitsTo(s, e); }
    }
  }

  lemma {:induction false} NamedRunKeeps(s: State, es: seq<Event>)
    requires OneName(s) && (forall p | p in s.nodes :: s.nodes[p].rep.me == p) && NamedRun(s, es) && AnyRun(s, es)
    ensures OneName(After(s, es))
    decreases |es|
  {
    hide OneName, Next, Enabled, Named;
    if es == [] {
    } else {
      OneNameStays(s, es[0]);
      OwnNames(s, es[0]);
      NamedRunKeeps(Next(s, es[0]), es[1..]);
    }
  }

  ghost predicate NamedReached(views: seq<seq<string>>, names: set<string>, es: seq<Event>, s: State) {
    && Views.ViewChain(views) && NamedRun(Init(views, names), es) && AnyRun(Init(views, names), es)
    && s == After(Init(views, names), es)
  }

  lemma NamedReachedHolds(views: seq<seq<string>>, names: set<string>, es: seq<Event>, s: State)
    requires NamedReached(views, names, es, s)
    ensures OneName(s)
  {
    assert Prim(Init(views, names), 1) == views[0][0];
    NamedRunKeeps(Init(views, names), es);
  }

  /** Every node names the same primary for the view it is in, a member of that view and of the one
      before; and a node that commits the next view meets `Named`. */
  lemma OnePrimary(views: seq<seq<string>>, names: set<string>, es: seq<Event>, s: State, p: string)
    requires NamedReached(views, names, es, s) && p in s.nodes
    ensures var v := s.nodes[p].rep.vidCommit;
            && (v >= 1 ==> s.nodes[p].rep.primary == Prim(s, v) && Prim(s, v) in ViewAt(s, v))
            && (v >= 2 ==> Prim(s, v) in ViewAt(s, v - 1))
    ensures var w := s.nodes[p].rep.vidCommit + 1;
            w <= |s.views| ==> Enabled(s, CommitView(p, w)) && Named(s, CommitView(p, w))
  {
    hide NamedReached, OneName, Enabled, Named, Prim;
    NamedReachedHolds(views, names, es, s);
    KnowsPrimary(s, p);
    if s.nodes[p].rep.vidCommit < |s.views| { NextIsNamed(s, p); }
  }

  lemma KnowsPrimary(s: State, p: string)
    requires OneName(s) && p in s.nodes
    ensures var v := s.nodes[p].rep.vidCommit;
            && (v >= 1 ==> s.nodes[p].rep.primary == Prim(s, v) && Prim(s, v) in ViewAt(s, v))
            && (v >= 2 ==> Prim(s, v) in ViewAt(s, v - 1))
  {
    var v := s.nodes[p].rep.vidCommit;
    if v >= 1 { Views.PrimaryInBoth(s.views, v); }
    hide Views.ViewChain;
  }

  lemma NextIsNamed(s: State, p: string)
    requires OneName(s) && p in s.nodes && s.nodes[p].rep.vidCommit < |s.views|
    ensures var e := CommitView(p, s.nodes[p].rep.vidCommit + 1); Enabled(s, e) && Named(s, e)
  {
    hide Views.ViewChain, Prim, CommitChange;
    CommitNamesPrimary(s, s.nodes[p].rep, s.nodes[p].rep.vidCommit + 1);
    InTurnIsNamed(s, s.nodes[p].rep);
  }

  /** In such a run only a leader ever answers a transfer. */
  lemma NamedMeansFromLeader(views: seq<seq<string>>, names: set<string>, es: seq<Event>, s: State, e: Event)
    requires NamedReached(views, names, es, s) && ReadyRun(Init(views, names), es) && Enabled(s, e)
    ensures FromLeader(s, e)
  {
    hide NamedReached, Inv, Prim, ReadyRun;
    NamedReachedHolds(views, names, es, s);
    assert Inv(s) by {
      assert views != [] && views[0] != [] && s == After(Init(views, names), es) by { NamedViews(views, names, es, s); }
      InitHolds(views, names);
      RunKeepsInv(Init(views, names), es);
    }
    if e.RecvTransfer? && HandleTransfer(s.nodes[e.m.dst].rep, e.m.last, e.m.vid).Some? { AnswererLeads(s, e.m); }
  }

  lemma NamedViews(views: seq<seq<string>>, names: set<string>, es: seq<Event>, s: State)
    requires NamedReached(views, names, es, s)
    ensures views != [] && views[0] != [] && AnyRun(Init(views, names), es) && s == After(Init(views, names), es)
  {
  }

  lemma AnswererLeads(s: State, m: Msg)
    requires Inv(s) && OneName(s) && m in s.net && m.TransferMsg? && m.dst in s.nodes
    requires s.nodes[m.dst].rep.insync && s.nodes[m.dst].rep.vidInsync == m.vid
    ensures s.nodes[m.dst].role.Lead?
  {
    hide HistOk, LeadFits, ExecsOk, RecordsOk, RoundsOk, Prim, Booted, Answers, Did, Slaves;
    assert MsgOk(s, m) && FlagsOk(s, m.dst);
  }
}
