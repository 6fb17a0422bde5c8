/** What every state of a timely Paxos run satisfies, and what follows from it at once:
    one run per number, chosen values stay chosen, and agreement by induction over instances. */
module PaxosInvariant {
  import opened Options
  import opened Text
  import opened Proposal
  import opened PaxosLog
  import opened Acceptor
  import opened Proposer
  import opened PaxosSystem
  import Quorum
  import ViewText

  // ----- facts that stay true once they hold -----

  /** Some run of the instance has asked for votes on (n, v). */
  ghost predicate Backed(s: State, inst: nat, n: Prop, v: string) {
    exists r :: 0 <= r < |s.runs| && s.runs[r].inst == inst && s.runs[r].n == n
                && !s.runs[r].phase.Preparing? && s.runs[r].phase.v == v
  }

  /** Some run of the instance got votes for v from a majority of its members. */
  ghost predicate Decided(s: State, inst: nat, v: string) {
    exists r :: 0 <= r < |s.runs| && s.runs[r].inst == inst
                && s.runs[r].phase.Deciding? && s.runs[r].phase.v == v
  }

  /** Some run of the instance was started to propose v. */
  ghost predicate Proposed(s: State, inst: nat, v: string) {
    exists r :: 0 <= r < |s.runs| && s.runs[r].inst == inst && s.runs[r].newv == v
  }

  /** Some node committed `members` as view `vid`. */
  ghost predicate HasView(s: State, vid: nat, members: seq<string>) {
    exists p :: p in s.nodes && vid in s.nodes[p].acc.values
                && ViewText.Members(s.nodes[p].acc.values[vid]) == members
  }

  ghost predicate Promised(s: State, r: nat, q: string, best: Prop) {
    exists x :: x in s.net && x.PromiseReply? && x.run == r && x.from == q && AtLeast(best, x.na)
  }

  // ----- the invariant -----

  ghost predicate NodeOk(s: State, p: string)
    requires p in s.nodes
  {
    var a := s.nodes[p].acc;
    && a.me == p && IsName(p) && Durable(a)
    && (forall i :: i in a.values <==> 1 <= i <= a.ih)
    && (p == s.first ==> a.ih > 0)
    && (a.na.n == 0 ==> a.va == "")
    && (a.na.n > 0 ==> Backed(s, a.ih + 1, a.na, a.va) && AtLeast(a.nh, a.na))
  }

  /** The proposed text is a one-node change of the members asked. */
  ghost predicate IsChange(members: seq<string>, v: string) {
    exists p, c :: ValidChange(members, p, c) && v == ViewText.Value(Changed(members, c))
  }

  ghost predicate RunOk(s: State, r: nat)
    requires r < |s.runs|
  {
    var run := s.runs[r];
    && run.n.n >= 1 && IsName(run.n.m) && run.inst >= 2
    && run.owner in s.nodes && run.inst <= s.nodes[run.owner].acc.ih + 1
    && HasView(s, run.inst - 1, run.members)
    && IsChange(run.members, run.newv)
  }

  ghost predicate PhaseOk(s: State, r: nat)
    requires r < |s.runs|
  {
    var run := s.runs[r];
    && (!run.phase.Preparing? ==>
          && Quorum.Majority(run.members, run.phase.promisers)
          && (forall m | m in run.phase.promisers :: Promised(s, r, m, run.phase.best))
          && Proposed(s, run.inst, run.phase.v)
          && (|| (run.phase.best.n == 0 && run.phase.v == run.newv)
              || (exists q :: PromiseReply(r, q, run.phase.best, run.phase.v) in s.net && run.phase.best.n > 0)))
    && (run.phase.Deciding? ==>
          && Quorum.Majority(run.members, run.phase.voters)
          && (forall m | m in run.phase.voters :: Vote(r, m) in s.net))
  }

  ghost predicate ReplyOk(s: State, x: Reply) {
    && x.run < |s.runs| && x.from in s.nodes && x.from in s.runs[x.run].members
    && var run, a := s.runs[x.run], s.nodes[x.from].acc;
       match x
       case PromiseReply(r, q, na, va) =>
         && run.inst <= a.ih + 1
         && (run.inst == a.ih + 1 ==> AtLeast(a.nh, run.n))
         && (na.n == 0 ==> va == "")
         && (na.n > 0 ==> Backed(s, run.inst, na, va) && Greater(run.n, na))
       case Vote(r, q) =>
         && !run.phase.Preparing? && run.inst <= a.ih + 1
         && (run.inst == a.ih + 1 ==> a.na.n > 0 && AtLeast(a.na, run.n))
       case OldReply(r, q, v) => run.inst in a.values && a.values[run.inst] == v
  }

  /** A promise is given once per number, and reports every earlier vote of its node. */
  ghost predicate PairOk(s: State, x: Reply, y: Reply)
    requires x.run < |s.runs| && y.run < |s.runs|
  {
    x.PromiseReply? && x.from == y.from && s.runs[x.run].inst == s.runs[y.run].inst ==>
      && (y.PromiseReply? && s.runs[x.run].n == s.runs[y.run].n ==> x.run == y.run)
      && (y.Vote? && Greater(s.runs[x.run].n, s.runs[y.run].n) ==>
            x.na.n > 0 && AtLeast(x.na, s.runs[y.run].n))
  }

  ghost predicate CommitOk(s: State, p: string, i: nat)
    requires p in s.nodes && i in s.nodes[p].acc.values
  {
    var v := s.nodes[p].acc.values[i];
    && (i == 1 ==> v == s.first)
    && (i >= 2 ==> Decided(s, i, v))
    && (i >= 2 ==> exists m :: m in s.nodes && i in s.nodes[m].acc.values
                               && m in ViewText.Members(ValueAt(s.nodes[p].acc.values, i - 1)))
  }

  ghost predicate NodesOk(s: State) {
    s.first in s.nodes && forall p | p in s.nodes :: NodeOk(s, p)
  }

  ghost predicate RunsOk(s: State) {
    forall r | 0 <= r < |s.runs| :: RunOk(s, r)
  }

  ghost predicate PhasesOk(s: State) {
    forall r | 0 <= r < |s.runs| :: PhaseOk(s, r)
  }

  ghost predicate RepliesOk(s: State) {
    forall x | x in s.net :: ReplyOk(s, x)
  }

  ghost predicate PairsOk(s: State)
    requires RepliesOk(s)
  {
    forall x, y | x in s.net && y in s.net :: PairOk(s, x, y)
  }

  ghost predicate CommitsOk(s: State) {
    forall p, i | p in s.nodes && i in s.nodes[p].acc.values :: CommitOk(s, p, i)
  }

  ghost predicate Inv(s: State) {
    NodesOk(s) && RunsOk(s) && PhasesOk(s) && RepliesOk(s) && PairsOk(s) && CommitsOk(s)
  }

  // ----- one run per number -----

  /** A node that promised both of two runs with a quorum. */
  lemma SharedPromiser(s: State, r1: nat, r2: nat) returns (x: Reply, y: Reply)
    requires r1 < |s.runs| && r2 < |s.runs| && PhaseOk(s, r1) && PhaseOk(s, r2)
    requires s.runs[r1].members == s.runs[r2].members
    requires !s.runs[r1].phase.Preparing? && !s.runs[r2].phase.Preparing?
    ensures x in s.net && x.PromiseReply? && x.run == r1
    ensures y in s.net && y.PromiseReply? && y.run == r2
    ensures x.from == y.from
  {
    Quorum.MajoritiesOverlap(s.runs[r1].members, s.runs[r1].phase.promisers, s.runs[r2].phase.promisers);
    var m :| m in s.runs[r1].phase.promisers && m in s.runs[r2].phase.promisers;
    assert Promised(s, r1, m, s.runs[r1].phase.best) && Promised(s, r2, m, s.runs[r2].phase.best);
    x :| x in s.net && x.PromiseReply? && x.run == r1 && x.from == m;
    y :| y in s.net && y.PromiseReply? && y.run == r2 && y.from == m;
  }

  /** At most one run per instance and number reaches the accept phase, even if a restarted
      proposer uses a number again. */
  lemma OneRunPerNumber(s: State, r1: nat, r2: nat)
    requires PhasesOk(s) && RepliesOk(s) && PairsOk(s) && r1 < |s.runs| && r2 < |s.runs|
    requires s.runs[r1].inst == s.runs[r2].inst && s.runs[r1].n == s.runs[r2].n
    requires s.runs[r1].members == s.runs[r2].members
    requires !s.runs[r1].phase.Preparing? && !s.runs[r2].phase.Preparing?
    ensures r1 == r2
  {
    var x, y := SharedPromiser(s, r1, r2);
    assert PairOk(s, x, y);
  }

  // ----- chosen values stay chosen -----

  ghost function Below(s: State, n: Prop): set<nat> {
    set r | 0 <= r < |s.runs| && Greater(n, s.runs[r].n)
  }

  lemma BelowShrinks(s: State, n: Prop, r0: nat)
    requires r0 < |s.runs| && Greater(n, s.runs[r0].n)
    ensures Below(s, s.runs[r0].n) < Below(s, n)
  {
    var n0 := s.runs[r0].n;
    forall r | r in Below(s, n0) ensures r in Below(s, n) {
      GreaterTransitive(n, n0, s.runs[r].n);
    }
    GreaterIsStrictTotal(n0, n0);
    assert r0 in Below(s, n) && r0 !in Below(s, n0);
  }

  /** The members of every run of an instance are the same list. */
  ghost predicate OneQuorum(s: State, inst: nat) {
    forall r1, r2 | 0 <= r1 < |s.runs| && 0 <= r2 < |s.runs| && s.runs[r1].inst == inst && s.runs[r2].inst == inst ::
      s.runs[r1].members == s.runs[r2].members
  }

  /** A majority of the members has voted for run r, whether or not its proposer has heard of it. */
  ghost predicate ChosenBy(s: State, r: nat, voters: seq<string>) {
    && r < |s.runs| && !s.runs[r].phase.Preparing?
    && Quorum.Majority(s.runs[r].members, voters) && forall m | m in voters :: Vote(r, m) in s.net
  }

  /** What a proposer decides was chosen. */
  lemma DecidingIsChosen(s: State, r: nat)
    requires r < |s.runs| && PhaseOk(s, r) && s.runs[r].phase.Deciding?
    ensures ChosenBy(s, r, s.runs[r].phase.voters)
  {
  }

  /** A voter of r1 among the promisers of r2. */
  lemma VoteMeetsPromise(s: State, r1: nat, voters: seq<string>, r2: nat) returns (x: Reply)
    requires ChosenBy(s, r1, voters) && r2 < |s.runs| && PhaseOk(s, r2)
    requires s.runs[r1].members == s.runs[r2].members && !s.runs[r2].phase.Preparing?
    ensures x in s.net && x.PromiseReply? && x.run == r2 && AtLeast(s.runs[r2].phase.best, x.na)
    ensures Vote(r1, x.from) in s.net
  {
    Quorum.MajoritiesOverlap(s.runs[r1].members, voters, s.runs[r2].phase.promisers);
    var m :| m in voters && m in s.runs[r2].phase.promisers;
    assert Promised(s, r2, m, s.runs[r2].phase.best);
    x :| x in s.net && x.PromiseReply? && x.run == r2 && x.from == m && AtLeast(s.runs[r2].phase.best, x.na);
  }

  /** A run that took over a promised value took it from a lower run of its instance. */
  lemma BestRun(s: State, r: nat) returns (r0: nat)
    requires r < |s.runs| && PhaseOk(s, r) && RepliesOk(s)
    requires !s.runs[r].phase.Preparing? && s.runs[r].phase.best.n > 0
    ensures r0 < |s.runs| && s.runs[r0].inst == s.runs[r].inst && !s.runs[r0].phase.Preparing?
    ensures s.runs[r0].phase.v == s.runs[r].phase.v && s.runs[r0].n == s.runs[r].phase.best
    ensures Greater(s.runs[r].n, s.runs[r0].n)
  {
    var run := s.runs[r];
    var q :| PromiseReply(r, q, run.phase.best, run.phase.v) in s.net;
    assert ReplyOk(s, PromiseReply(r, q, run.phase.best, run.phase.v));
    assert Backed(s, run.inst, run.phase.best, run.phase.v);
    r0 :| 0 <= r0 < |s.runs| && s.runs[r0].inst == run.inst && s.runs[r0].n == run.phase.best
          && !s.runs[r0].phase.Preparing? && s.runs[r0].phase.v == run.phase.v;
  }

  /** A quorum of promises for r2 meets the votes for a lower r1: the best promise of r2 names a
      run between the two. */
  lemma BestAbove(s: State, r1: nat, voters: seq<string>, r2: nat) returns (r0: nat)
    requires PhasesOk(s) && RepliesOk(s) && PairsOk(s) && ChosenBy(s, r1, voters) && r2 < |s.runs|
    requires s.runs[r1].inst == s.runs[r2].inst && s.runs[r1].members == s.runs[r2].members
    requires !s.runs[r2].phase.Preparing?
    requires Greater(s.runs[r2].n, s.runs[r1].n)
    ensures r0 < |s.runs| && s.runs[r0].inst == s.runs[r2].inst && !s.runs[r0].phase.Preparing?
    ensures s.runs[r0].phase.v == s.runs[r2].phase.v
    ensures Greater(s.runs[r2].n, s.runs[r0].n) && AtLeast(s.runs[r0].n, s.runs[r1].n)
  {
    var x := VoteMeetsPromise(s, r1, voters, r2);
    assert PairOk(s, x, Vote(r1, x.from));
    AtLeastTransitive(s.runs[r2].phase.best, x.na, s.runs[r1].n);
    r0 := BestRun(s, r2);
  }

  /** Once a majority voted for (n, v), every run of the instance with a higher number that
      asks for votes asks for v. */
  lemma {:induction false} ChosenStays(s: State, r1: nat, voters: seq<string>, r2: nat)
    requires PhasesOk(s) && RepliesOk(s) && PairsOk(s) && ChosenBy(s, r1, voters) && r2 < |s.runs|
    requires s.runs[r1].inst == s.runs[r2].inst && OneQuorum(s, s.runs[r1].inst)
    requires !s.runs[r2].phase.Preparing?
    requires AtLeast(s.runs[r2].n, s.runs[r1].n)
    ensures s.runs[r2].phase.v == s.runs[r1].phase.v
    decreases Below(s, s.runs[r2].n)
  {
    GreaterIsStrictTotal(s.runs[r2].n, s.runs[r1].n);
    if s.runs[r2].n == s.runs[r1].n {
      OneRunPerNumber(s, r1, r2);
    } else {
      var r0 := BestAbove(s, r1, voters, r2);
      BelowShrinks(s, s.runs[r2].n, r0);
      ChosenStays(s, r1, voters, r0);
    }
  }

  /** An instance has at most one chosen value. */
  lemma ChosenOnce(s: State, r1: nat, voters1: seq<string>, r2: nat, voters2: seq<string>)
    requires PhasesOk(s) && RepliesOk(s) && PairsOk(s)
    requires ChosenBy(s, r1, voters1) && ChosenBy(s, r2, voters2)
    requires s.runs[r1].inst == s.runs[r2].inst && OneQuorum(s, s.runs[r1].inst)
    ensures s.runs[r1].phase.v == s.runs[r2].phase.v
  {
    hide Quorum.Majority;
    GreaterIsStrictTotal(s.runs[r1].n, s.runs[r2].n);
    if AtLeast(s.runs[r2].n, s.runs[r1].n) {
      ChosenStays(s, r1, voters1, r2);
    } else {
      ChosenStays(s, r2, voters2, r1);
    }
  }

  lemma DecidedOnce(s: State, inst: nat, v: string, w: string)
    requires PhasesOk(s) && RepliesOk(s) && PairsOk(s) && OneQuorum(s, inst)
    requires Decided(s, inst, v) && Decided(s, inst, w)
    ensures v == w
  {
    var r1 :| 0 <= r1 < |s.runs| && s.runs[r1].inst == inst && s.runs[r1].phase.Deciding? && s.runs[r1].phase.v == v;
    var r2 :| 0 <= r2 < |s.runs| && s.runs[r2].inst == inst && s.runs[r2].phase.Deciding? && s.runs[r2].phase.v == w;
    assert PhaseOk(s, r1) && PhaseOk(s, r2);
    DecidingIsChosen(s, r1);
    DecidingIsChosen(s, r2);
    ChosenOnce(s, r1, s.runs[r1].phase.voters, r2, s.runs[r2].phase.voters);
  }

  // ----- agreement -----

  ghost predicate AgreedAt(s: State, i: nat) {
    forall p, q | p in s.nodes && q in s.nodes && i in s.nodes[p].acc.values && i in s.nodes[q].acc.values ::
      s.nodes[p].acc.values[i] == s.nodes[q].acc.values[i]
  }

  lemma QuorumOfRun(s: State, p: string, r: nat)
    requires RunsOk(s) && r < |s.runs|
    requires p in s.nodes && s.runs[r].inst >= 1 && s.runs[r].inst - 1 in s.nodes[p].acc.values
    requires AgreedAt(s, s.runs[r].inst - 1)
    ensures s.runs[r].members == ViewText.Members(s.nodes[p].acc.values[s.runs[r].inst - 1])
  {
    assert RunOk(s, r);
    assert HasView(s, s.runs[r].inst - 1, s.runs[r].members);
  }

  lemma QuorumFromView(s: State, inst: nat)
    requires RunsOk(s) && inst >= 1 && AgreedAt(s, inst - 1)
    ensures OneQuorum(s, inst)
  {
    hide ViewText.Members, IsChange;
    forall r1, r2 | 0 <= r1 < |s.runs| && 0 <= r2 < |s.runs| && s.runs[r1].inst == inst && s.runs[r2].inst == inst
      ensures s.runs[r1].members == s.runs[r2].members
    {
      assert RunOk(s, r1);
      var p :| p in s.nodes && inst - 1 in s.nodes[p].acc.values;
      QuorumOfRun(s, p, r1);
      QuorumOfRun(s, p, r2);
    }
  }

  lemma SameCommit(s: State, p: string, q: string, i: nat)
    requires PhasesOk(s) && RepliesOk(s) && PairsOk(s)
    requires p in s.nodes && i in s.nodes[p].acc.values && CommitOk(s, p, i)
    requires q in s.nodes && i in s.nodes[q].acc.values && CommitOk(s, q, i)
    requires i >= 1 && (i >= 2 ==> OneQuorum(s, i))
    ensures s.nodes[p].acc.values[i] == s.nodes[q].acc.values[i]
  {
    if i >= 2 {
      DecidedOnce(s, i, s.nodes[p].acc.values[i], s.nodes[q].acc.values[i]);
    }
  }

  /** Any two nodes that committed an instance committed the same value. */
  lemma {:induction false} Agreement(s: State, i: nat)
    requires Inv(s)
    ensures AgreedAt(s, i)
    ensures OneQuorum(s, i + 1)
  {
    hide NodeOk, RunOk, PhaseOk, PairOk, ReplyOk, CommitOk;
    if i >= 2 { Agreement(s, i - 1); }
    AgreementStep(s, i);
    QuorumFromView(s, i + 1);
  }

  lemma AgreementStep(s: State, i: nat)
    requires NodesOk(s) && CommitsOk(s) && PhasesOk(s) && RepliesOk(s) && PairsOk(s)
    requires i >= 2 ==> OneQuorum(s, i)
    ensures AgreedAt(s, i)
  {
    hide PhaseOk, PairOk, ReplyOk, CommitOk, Durable, Backed;
    forall p, q | p in s.nodes && q in s.nodes && i in s.nodes[p].acc.values && i in s.nodes[q].acc.values
      ensures s.nodes[p].acc.values[i] == s.nodes[q].acc.values[i]
    {
      assert NodeOk(s, p);
      assert CommitOk(s, p, i) && CommitOk(s, q, i);
      SameCommit(s, p, q, i);
    }
  }

  /** A decide request never fails its VERIFY: the receiver is not behind, and if it works on
      that instance its accepted value is the decided one. */
  lemma DecideIsSafe(s: State, r: nat, q: string)
    requires Inv(s) && r < |s.runs| && q in s.nodes
    requires s.runs[r].phase.Deciding? && q in s.runs[r].phase.voters
    ensures HandleDecide(s.nodes[q].acc, s.runs[r].inst, s.runs[r].phase.v).Fine?
  {
    hide CommitOk, PairOk, HasView, IsChange, Promised, Durable, Proposed;
    var run, a := s.runs[r], s.nodes[q].acc;
    assert RunOk(s, r) && PhaseOk(s, r) && NodeOk(s, q);
    assert ReplyOk(s, Vote(r, q));
    if run.inst == a.ih + 1 {
      assert Backed(s, a.ih + 1, a.na, a.va);
      var r0 :| 0 <= r0 < |s.runs| && s.runs[r0].inst == run.inst && s.runs[r0].n == a.na
                && !s.runs[r0].phase.Preparing? && s.runs[r0].phase.v == a.va;
      Agreement(s, run.inst - 1);
      DecidingIsChosen(s, r);
      ChosenStays(s, r, run.phase.voters, r0);
    }
  }
}
