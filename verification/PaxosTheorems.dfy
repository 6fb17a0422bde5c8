/** What holds in every timely run of the Paxos system, from the first node's first view on. */
module PaxosTheorems {
  import opened Options
  import opened Text
  import opened Proposal
  import opened PaxosLog
  import opened Acceptor
  import opened Proposer
  import opened PaxosSystem
  import opened PaxosInvariant
  import opened PaxosSteps
  import Quorum
  import ViewText
  import Views

  /** The state after a timely run from the initial state. */
  ghost predicate Reached(first: string, names: set<string>, es: seq<Event>, s: State) {
    && first in names && Names(names)
    && TimelyRun(Init(first, names), es) && AnyRun(Init(first, names), es)
    && s == After(Init(first, names), es)
  }

  lemma ReachedInv(first: string, names: set<string>, es: seq<Event>, s: State)
    requires Reached(first, names, es, s)
    ensures Inv(s)
  {
    InitHolds(first, names);
    RunKeepsInv(Init(first, names), es);
  }

  /** Agreement with reconfiguration: over loss, delay, duplication, reordering, crashes with log
      replay and joins, two nodes that commit an instance commit the same value, and so ask the
      same quorum for the next one. */
  lemma NodesAgree(first: string, names: set<string>, es: seq<Event>, s: State, p: string, q: string, i: nat)
    requires Reached(first, names, es, s)
    requires p in s.nodes && i in s.nodes[p].acc.values
    requires q in s.nodes && i in s.nodes[q].acc.values
    ensures s.nodes[p].acc.values[i] == s.nodes[q].acc.values[i]
    ensures OneQuorum(s, i + 1)
  {
    hide Inv, Reached;
    ReachedInv(first, names, es, s);
    Agreement(s, i);
  }

  /** Two runs of an instance that reach the accept phase under one number are one run. */
  lemma NumbersAreUnique(first: string, names: set<string>, es: seq<Event>, s: State, r1: nat, r2: nat)
    requires Reached(first, names, es, s) && r1 < |s.runs| && r2 < |s.runs|
    requires s.runs[r1].inst == s.runs[r2].inst && s.runs[r1].n == s.runs[r2].n
    requires !s.runs[r1].phase.Preparing? && !s.runs[r2].phase.Preparing?
    ensures r1 == r2
  {
    hide Reached, PhaseOk, PairOk, ReplyOk, NodeOk, CommitOk, HasView, IsChange;
    ReachedInv(first, names, es, s);
    assert RunOk(s, r1);
    Agreement(s, s.runs[r1].inst - 1);
    OneRunPerNumber(s, r1, r2);
  }

  /** Once a majority of the members has voted for a run's value, even if every reply is lost and
      the proposer is gone, every run of that instance with a higher number that asks for votes
      asks for that value. */
  lemma ChosenValueStays(first: string, names: set<string>, es: seq<Event>, s: State,
                         r1: nat, voters: seq<string>, r2: nat)
    requires Reached(first, names, es, s) && ChosenBy(s, r1, voters) && r2 < |s.runs|
    requires s.runs[r1].inst == s.runs[r2].inst && Greater(s.runs[r2].n, s.runs[r1].n)
    requires !s.runs[r2].phase.Preparing?
    ensures s.runs[r2].phase.v == s.runs[r1].phase.v
  {
    hide Reached, PhaseOk, PairOk, ReplyOk, NodeOk, CommitOk, HasView, IsChange;
    ReachedInv(first, names, es, s);
    assert RunOk(s, r1);
    Agreement(s, s.runs[r1].inst - 1);
    GreaterIsStrictTotal(s.runs[r2].n, s.runs[r1].n);
    ChosenStays(s, r1, voters, r2);
  }

  /** An instance has at most one value that a majority voted for. */
  lemma OneChosenValue(first: string, names: set<string>, es: seq<Event>, s: State,
                       r1: nat, voters1: seq<string>, r2: nat, voters2: seq<string>)
    requires Reached(first, names, es, s) && ChosenBy(s, r1, voters1) && ChosenBy(s, r2, voters2)
    requires s.runs[r1].inst == s.runs[r2].inst
    ensures s.runs[r1].phase.v == s.runs[r2].phase.v
  {
    hide Reached, PhaseOk, PairOk, ReplyOk, NodeOk, CommitOk, HasView, IsChange;
    ReachedInv(first, names, es, s);
    assert RunOk(s, r1);
    Agreement(s, s.runs[r1].inst - 1);
    ChosenOnce(s, r1, voters1, r2, voters2);
  }

  /** An accept that is in time is taken if and only if its number is exactly the promised one, so
      a vote never needs to raise the promise. */
  lemma VotesAtPromiseOnly(first: string, names: set<string>, es: seq<Event>, s: State, r: nat, q: string)
    requires Reached(first, names, es, s) && Enabled(s, RecvAccept(r, q)) && Timely(s, RecvAccept(r, q))
    ensures var a := s.nodes[q].acc;
            HandleAccept(a, s.runs[r].inst, s.runs[r].n, s.runs[r].phase.v).1 <==> s.runs[r].n == a.nh
  {
    hide Reached, PhaseOk, PairOk, ReplyOk, NodeOk, CommitOk, RunOk;
    ReachedInv(first, names, es, s);
    if AtLeast(s.runs[r].n, s.nodes[q].acc.nh) { VoteAtPromise(s, r, q); }
  }

  /** No decide request makes its receiver abort. */
  lemma DecideNeverAborts(first: string, names: set<string>, es: seq<Event>, s: State, e: Event)
    requires Reached(first, names, es, s) && e.RecvDecide? && Enabled(s, e)
    ensures HandleDecide(s.nodes[e.q].acc, s.runs[e.r].inst, s.runs[e.r].phase.v).Fine?
  {
    hide Inv, Reached;
    ReachedInv(first, names, es, s);
    DecideIsSafe(s, e.r, e.q);
  }

  /** Writing the log as text, reading it back and replaying it gives the live acceptor, up to the
      names on zero proposal numbers. */
  lemma ReplayIsLive(first: string, names: set<string>, es: seq<Event>, s: State, p: string)
    requires Reached(first, names, es, s) && p in s.nodes
    ensures ReadLog(PrintLog(s.nodes[p].acc.log)) == Some(s.nodes[p].acc.log)
    ensures Same(Boot(p, p == s.first, p, s.nodes[p].acc.log), s.nodes[p].acc)
  {
    hide Reached, RunOk, PhaseOk, PairOk, ReplyOk, CommitOk, Backed, Boot, ApplyAll;
    ReachedInv(first, names, es, s);
    assert NodeOk(s, p);
    ReadLogBack(s.nodes[p].acc.log);
    BootIsLive(s.nodes[p].acc, p == s.first, p);
  }

  lemma CommittedProposed(s: State, p: string, i: nat) returns (r: nat)
    requires PhasesOk(s) && p in s.nodes && i in s.nodes[p].acc.values && i >= 2 && CommitOk(s, p, i)
    ensures r < |s.runs| && s.runs[r].inst == i && s.runs[r].newv == s.nodes[p].acc.values[i]
  {
    hide Promised, ViewText.Members;
    var v := s.nodes[p].acc.values[i];
    var r0 :| 0 <= r0 < |s.runs| && s.runs[r0].inst == i && s.runs[r0].phase.Deciding? && s.runs[r0].phase.v == v;
    assert PhaseOk(s, r0);
    r :| 0 <= r < |s.runs| && s.runs[r].inst == i && s.runs[r].newv == v;
  }

  /** A committed value was proposed by a run of its instance that changed the view before. */
  lemma CommittedChange(s: State, p: string, i: nat)
    requires Inv(s) && p in s.nodes && i in s.nodes[p].acc.values && i >= 2
    ensures i - 1 in s.nodes[p].acc.values
    ensures Views.OneChange(ViewText.Members(s.nodes[p].acc.values[i - 1]),
                            ViewText.Members(s.nodes[p].acc.values[i]))
  {
    hide PairOk, ReplyOk, HasView, PhaseOk, CommitOk, IsChange, Durable, Backed;
    assert NodeOk(s, p);
    var r := CommittedProposed(s, p, i);
    assert RunOk(s, r);
    Agreement(s, i - 1);
    QuorumOfRun(s, p, r);
    ChangeReadsBack(s.runs[r].members, s.runs[r].newv);
  }

  lemma ChangeReadsBack(ms: seq<string>, v: string)
    requires IsChange(ms, v) && forall m | m in ms :: IsName(m)
    ensures Views.OneChange(ms, ViewText.Members(v))
  {
    var p, c :| ValidChange(ms, p, c) && v == ViewText.Value(Changed(ms, c));
    if c.Remove? { ViewText.WithoutIs(ms, c.m); }
    ViewText.ReadBack(Changed(ms, c));
  }

  lemma {:induction false} ViewShapeOf(s: State, p: string, i: nat)
    requires Inv(s) && p in s.nodes && i in s.nodes[p].acc.values
    ensures Views.Distinct(ViewText.Members(s.nodes[p].acc.values[i]))
    ensures ViewText.Members(s.nodes[p].acc.values[i]) != []
  {
    hide NodeOk, RunOk, PhaseOk, PairOk, ReplyOk, CommitOk, ViewText.Members;
    if i >= 2 {
      CommittedChange(s, p, i);
      ViewShapeOf(s, p, i - 1);
      Views.ChangeShape(ViewText.Members(s.nodes[p].acc.values[i - 1]), ViewText.Members(s.nodes[p].acc.values[i]));
    } else {
      FirstView(s, p, i);
    }
  }

  lemma FirstView(s: State, p: string, i: nat)
    requires NodesOk(s) && p in s.nodes && i in s.nodes[p].acc.values && i < 2 && CommitOk(s, p, i)
    ensures i == 1 && ViewText.Members(s.nodes[p].acc.values[1]) == [s.first]
  {
    hide Durable, Backed;
    assert NodeOk(s, p) && NodeOk(s, s.first);
    ViewText.MembersOfName(s.first);
  }

  /** Committed views are nonempty and duplicate-free, the first is the first node alone, and each
      adds or removes exactly one node of its predecessor. */
  lemma ViewsChangeByOne(first: string, names: set<string>, es: seq<Event>, s: State, p: string, i: nat)
    requires Reached(first, names, es, s) && p in s.nodes && i in s.nodes[p].acc.values
    ensures var view := ViewText.Members(s.nodes[p].acc.values[i]);
            && view != [] && Views.Distinct(view)
            && (i == 1 ==> view == [s.first])
            && (i >= 2 ==> i - 1 in s.nodes[p].acc.values)
            && (i >= 2 ==> Views.OneChange(ViewText.Members(s.nodes[p].acc.values[i - 1]), view))
  {
    hide Reached, NodeOk, RunOk, PhaseOk, PairOk, ReplyOk, CommitOk;
    ReachedInv(first, names, es, s);
    ViewShapeOf(s, p, i);
    if i >= 2 { CommittedChange(s, p, i); }
    if i < 2 { FirstView(s, p, i); }
  }

  /** The first node to commit a view is a member of the view before: whenever a node has
      committed view i, so has a member of view i - 1. */
  lemma MembersLearnFirst(first: string, names: set<string>, es: seq<Event>, s: State, p: string, i: nat)
    requires Reached(first, names, es, s) && p in s.nodes && i in s.nodes[p].acc.values && i >= 2
    ensures exists m :: m in s.nodes && i in s.nodes[m].acc.values
                        && m in ViewText.Members(ValueAt(s.nodes[p].acc.values, i - 1))
  {
    hide Reached, NodeOk, RunOk, PhaseOk, PairOk, ReplyOk, ViewText.Members;
    ReachedInv(first, names, es, s);
    assert CommitOk(s, p, i);
  }

  // ----- what the replicated state machine takes from Paxos -----

  /** The views a node has committed, in turn. */
  function ViewsOf(a: Acc): seq<seq<string>> {
    seq(a.ih, k requires 0 <= k < a.ih => ViewText.Members(ValueAt(a.values, k + 1)))
  }

  /** Every node that has committed a view has committed a chain of one-node changes from the first
      node's view, and of any two nodes one is a prefix of the other. */
  lemma NodesShareChain(first: string, names: set<string>, es: seq<Event>, s: State, p: string, q: string)
    requires Reached(first, names, es, s) && p in s.nodes && q in s.nodes
    requires 1 <= s.nodes[p].acc.ih <= s.nodes[q].acc.ih
    ensures Views.ViewChain(ViewsOf(s.nodes[p].acc)) && ViewsOf(s.nodes[p].acc)[0] == [s.first]
    ensures ViewsOf(s.nodes[p].acc) <= ViewsOf(s.nodes[q].acc)
  {
    hide Reached, ViewsOf;
    var a, b := s.nodes[p].acc, s.nodes[q].acc;
    ViewsAre(a);
    ViewsAre(b);
    CommittedUpTo(first, names, es, s, p);
    CommittedUpTo(first, names, es, s, q);
    hide ViewText.Members;
    forall i: nat | 1 <= i <= a.ih
      ensures a.values[i] == b.values[i]
      ensures i == 1 ==> ViewText.Members(a.values[i]) == [s.first]
      ensures i >= 2 ==> Views.OneChange(ViewText.Members(a.values[i - 1]), ViewText.Members(a.values[i]))
    {
      NodesAgree(first, names, es, s, p, q, i);
      ViewsChangeByOne(first, names, es, s, p, i);
    }
    var vs := ViewsOf(a);
    forall k | 1 <= k < |vs| ensures Views.OneChange(vs[k - 1], vs[k]) {
      assert vs[k - 1] == ViewText.Members(a.values[k]) && vs[k] == ViewText.Members(a.values[k + 1]);
    }
  }

  lemma CommittedUpTo(first: string, names: set<string>, es: seq<Event>, s: State, p: string)
    requires Reached(first, names, es, s) && p in s.nodes
    ensures forall i: nat :: i in s.nodes[p].acc.values <==> 1 <= i <= s.nodes[p].acc.ih
  {
    hide Reached, RunOk, PhaseOk, PairOk, ReplyOk, CommitOk, Backed, Durable;
    ReachedInv(first, names, es, s);
    assert NodeOk(s, p);
  }

  /** Two nodes name the same primary for every view both have committed, and it is a member. */
  lemma NodesNamePrimary(first: string, names: set<string>, es: seq<Event>, s: State, p: string, q: string, k: nat)
    requires Reached(first, names, es, s) && p in s.nodes && q in s.nodes
    requires 1 <= k <= s.nodes[p].acc.ih <= s.nodes[q].acc.ih
    ensures var vs, ws := ViewsOf(s.nodes[p].acc), ViewsOf(s.nodes[q].acc);
            && |vs[0]| == 1 && |ws[0]| == 1 && Views.PrimaryOf(vs, k) == Views.PrimaryOf(ws, k)
            && Views.PrimaryOf(vs, k).Some? && Views.PrimaryOf(vs, k).value in vs[k - 1]
  {
    hide Reached, ViewsOf;
    NodesShareChain(first, names, es, s, p, q);
    NodesShareChain(first, names, es, s, q, q);
    var vs, ws := ViewsOf(s.nodes[p].acc), ViewsOf(s.nodes[q].acc);
    ViewsAre(s.nodes[p].acc);
    ViewsAre(s.nodes[q].acc);
    Views.PrimaryInBoth(vs, k);
    SamePrimary(vs, ws, k);
  }

  lemma ViewsAre(a: Acc)
    ensures |ViewsOf(a)| == a.ih
    ensures forall k | 0 <= k < a.ih :: ViewsOf(a)[k] == ViewText.Members(ValueAt(a.values, k + 1))
  {
  }

  lemma {:induction false} SamePrimary(vs: seq<seq<string>>, ws: seq<seq<string>>, k: nat)
    requires vs <= ws && 1 <= k <= |vs| && |vs[0]| == 1
    ensures Views.PrimaryOf(vs, k) == Views.PrimaryOf(ws, k)
  {
    if k == 1 {
    } else {
      SamePrimary(vs, ws, k - 1);
    }
  }

  /** A joiner that skips views and still names any node x as primary names the primary of every
      node that committed the views in turn if and only if x is not in the new view or is its head. */
  lemma JoinerNamesPrimary(first: string, names: set<string>, es: seq<Event>, s: State, p: string, k: nat, x: string)
    requires Reached(first, names, es, s) && p in s.nodes && 2 <= k <= s.nodes[p].acc.ih
    ensures var vs := ViewsOf(s.nodes[p].acc);
            && |vs[0]| == 1 && vs[k - 1] != [] && Views.PrimaryOf(vs, k) == Some(vs[k - 1][0])
            && (Views.NextPrimary(x, vs[k - 2], vs[k - 1]) == Views.PrimaryOf(vs, k) <==>
                x !in vs[k - 1] || vs[k - 1][0] == x)
  {
    hide Reached, ViewsOf;
    NodesShareChain(first, names, es, s, p, p);
    ViewsAre(s.nodes[p].acc);
    Views.PrimaryIsHead(ViewsOf(s.nodes[p].acc), k);
    Views.JumpAgreesExactlyWhen(ViewsOf(s.nodes[p].acc), k, x);
  }

  // ----- who commits a view first -----

  /** What RsmSystem.Informed asks, of acceptors: node p moves to view v as a member of the view
      before, or after some node has committed v. */
  ghost predicate InformedOf(s: State, t: State, p: string, v: nat)
    requires p in s.nodes && p in t.nodes
  {
    || v == 1
    || (v == s.nodes[p].acc.ih + 1 && p in ViewText.Members(ValueAt(t.nodes[p].acc.values, v - 1)))
    || (exists m :: m in s.nodes && s.nodes[m].acc.ih >= v)
  }

  /** Whatever event moves an acceptor to a newer view, the replica above it is informed. */
  lemma CommitsAreInformed(first: string, names: set<string>, es: seq<Event>, s: State, e: Event, p: string)
    requires Reached(first, names, es, s) && Enabled(s, e) && Timely(s, e) && p in s.nodes
    requires p in Next(s, e).nodes && Next(s, e).nodes[p].acc.ih > s.nodes[p].acc.ih
    ensures InformedOf(s, Next(s, e), p, Next(s, e).nodes[p].acc.ih)
  {
    hide Reached, Inv, Next, InformedOf;
    ReachedInv(first, names, es, s);
    assert NodeOk(s, p) by { AllNodesOk(s, p); }
    MoversAre(s, e, p);
    match e
    case RecvDecide(r, q) => DecideInforms(s, r, q);
    case EndPrepare(r, got) => OldReplyInforms(s, r, got);
    case Join(a, b) => JoinInforms(s, a, b);
    case _ =>
  }

  lemma AllNodesOk(s: State, p: string)
    requires Inv(s) && p in s.nodes
    ensures NodeOk(s, p)
  {
  }

  /** The events that can raise the highest instance of node p. */
  predicate Moves(s: State, e: Event, p: string)
    requires Enabled(s, e)
  {
    || (e.RecvDecide? && e.q == p)
    || (e.EndPrepare? && s.runs[e.r].owner == p && Gather(s.runs[e.r].members, e.got, |e.got|).Old?)
    || (e.Join? && e.p == p)
  }

  lemma MoversAre(s: State, e: Event, p: string)
    requires Enabled(s, e) && p in s.nodes && NodeOk(s, p)
    requires p in Next(s, e).nodes && Next(s, e).nodes[p].acc.ih > s.nodes[p].acc.ih
    ensures Moves(s, e, p)
  {
    hide Gather, Boot, LogRead, Restore, Justified, ViewText.Members, Quorum.Majority, ValidChange;
    if e == Crash(p) { BootIsLive(s.nodes[p].acc, p == s.first, p); }
  }

  lemma DecideInforms(s: State, r: nat, p: string)
    requires Inv(s) && Enabled(s, RecvDecide(r, p))
    requires Next(s, RecvDecide(r, p)).nodes[p].acc.ih > s.nodes[p].acc.ih
    ensures InformedOf(s, Next(s, RecvDecide(r, p)), p, Next(s, RecvDecide(r, p)).nodes[p].acc.ih)
  {
    hide PairsOk, CommitsOk, HasView, IsChange, Durable, Backed, ViewText.Members, Boot;
    DecideIsSafe(s, r, p);
    var a, run := s.nodes[p].acc, s.runs[r];
    assert RunOk(s, r) && PhaseOk(s, r) && NodeOk(s, p);
    assert ReplyOk(s, Vote(r, p));
    Agreement(s, run.inst - 1);
    QuorumOfRun(s, p, r);
  }

  lemma OldReplyInforms(s: State, r: nat, got: seq<Option<PrepareRes>>)
    requires Inv(s) && Enabled(s, EndPrepare(r, got)) && Gather(s.runs[r].members, got, |got|).Old?
    ensures var p := s.runs[r].owner;
            var v := Next(s, EndPrepare(r, got)).nodes[p].acc.ih;
            v > s.nodes[p].acc.ih ==> InformedOf(s, Next(s, EndPrepare(r, got)), p, v)
  {
    hide PairsOk, CommitsOk, PhasesOk, HasView, IsChange, Durable, Backed, ViewText.Members;
    var run := s.runs[r];
    GatherOld(run.members, got, |got|);
    var j :| 0 <= j < |got| && got[j] == Some(OldInstance(Gather(run.members, got, |got|).v));
    var x := OldReply(r, run.members[j], got[j].value.v);
    assert ReplyOk(s, x);
    assert NodeOk(s, x.from);
    assert s.nodes[x.from].acc.ih >= run.inst;
  }

  lemma JoinInforms(s: State, p: string, q: string)
    requires Inv(s) && Enabled(s, Join(p, q)) && Timely(s, Join(p, q))
    ensures InformedOf(s, Next(s, Join(p, q)), p, Next(s, Join(p, q)).nodes[p].acc.ih)
  {
    hide Inv, Restore, LogRead;
    JoinGrows(s, Next(s, Join(p, q)), p, q);
  }
}
