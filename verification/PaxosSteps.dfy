/** Every timely step of the Paxos system keeps its invariant. */
module PaxosSteps {
  import opened Options
  import opened Text
  import opened Proposal
  import opened PaxosLog
  import opened Acceptor
  import opened Proposer
  import opened PaxosSystem
  import opened PaxosInvariant
  import Quorum
  import ViewText

  // ----- what no step undoes -----

  predicate RunGrows(a: Run, b: Run) {
    && b.owner == a.owner && b.inst == a.inst && b.n == a.n && b.members == a.members && b.newv == a.newv
    && (!a.phase.Preparing? ==> !b.phase.Preparing? && b.phase.v == a.phase.v)
    && (a.phase.Deciding? ==> b.phase.Deciding?)
  }

  predicate AccGrows(a: Acc, b: Acc) {
    a.ih <= b.ih && forall i | i in a.values :: i in b.values && b.values[i] == a.values[i]
  }

  ghost predicate Grows(s: State, t: State) {
    && t.first == s.first && t.nodes.Keys == s.nodes.Keys && |s.runs| <= |t.runs| && s.net <= t.net
    && (forall r | 0 <= r < |s.runs| :: RunGrows(s.runs[r], t.runs[r]))
    && (forall p | p in s.nodes :: AccGrows(s.nodes[p].acc, t.nodes[p].acc))
  }

  lemma BackedGrows(s: State, t: State, inst: nat, n: Prop, v: string)
    requires Grows(s, t) && Backed(s, inst, n, v)
    ensures Backed(t, inst, n, v)
  {
    var r :| 0 <= r < |s.runs| && s.runs[r].inst == inst && s.runs[r].n == n
             && !s.runs[r].phase.Preparing? && s.runs[r].phase.v == v;
    assert RunGrows(s.runs[r], t.runs[r]);
  }

  lemma DecidedGrows(s: State, t: State, inst: nat, v: string)
    requires Grows(s, t) && Decided(s, inst, v)
    ensures Decided(t, inst, v)
  {
    var r :| 0 <= r < |s.runs| && s.runs[r].inst == inst && s.runs[r].phase.Deciding? && s.runs[r].phase.v == v;
    assert RunGrows(s.runs[r], t.runs[r]);
  }

  lemma ProposedGrows(s: State, t: State, inst: nat, v: string)
    requires Grows(s, t) && Proposed(s, inst, v)
    ensures Proposed(t, inst, v)
  {
    var r :| 0 <= r < |s.runs| && s.runs[r].inst == inst && s.runs[r].newv == v;
    assert RunGrows(s.runs[r], t.runs[r]);
  }

  lemma RunOkGrows(s: State, t: State, r: nat)
    requires Grows(s, t) && r < |s.runs| && RunOk(s, r)
    ensures RunOk(t, r)
  {
    var run := s.runs[r];
    assert RunGrows(run, t.runs[r]);
    assert AccGrows(s.nodes[run.owner].acc, t.nodes[run.owner].acc);
    var p :| p in s.nodes && run.inst - 1 in s.nodes[p].acc.values
             && ViewText.Members(s.nodes[p].acc.values[run.inst - 1]) == run.members;
    assert AccGrows(s.nodes[p].acc, t.nodes[p].acc);
    assert HasView(t, run.inst - 1, run.members);
  }

  lemma PromisedGrows(s: State, t: State, r: nat, q: string, best: Prop)
    requires Grows(s, t) && Promised(s, r, q, best)
    ensures Promised(t, r, q, best)
  {
    var x :| x in s.net && x.PromiseReply? && x.run == r && x.from == q && AtLeast(best, x.na);
    assert x in t.net;
  }

  lemma PhaseOkGrows(s: State, t: State, r: nat)
    requires Grows(s, t) && r < |s.runs| && PhaseOk(s, r) && t.runs[r] == s.runs[r]
    ensures PhaseOk(t, r)
  {
    var run := s.runs[r];
    if !run.phase.Preparing? {
      ProposedGrows(s, t, run.inst, run.phase.v);
      forall m | m in run.phase.promisers ensures Promised(t, r, m, run.phase.best) {
        PromisedGrows(s, t, r, m, run.phase.best);
      }
      if q :| PromiseReply(r, q, run.phase.best, run.phase.v) in s.net && run.phase.best.n > 0 {
        assert PromiseReply(r, q, run.phase.best, run.phase.v) in t.net;
      }
    }
  }

  lemma NodeOkGrows(s: State, t: State, p: string)
    requires Grows(s, t) && p in s.nodes && NodeOk(s, p) && t.nodes[p].acc == s.nodes[p].acc
    ensures NodeOk(t, p)
  {
    var a := s.nodes[p].acc;
    if a.na.n > 0 { BackedGrows(s, t, a.ih + 1, a.na, a.va); }
  }

  lemma ReplyOkGrows(s: State, t: State, x: Reply)
    requires Grows(s, t) && ReplyOk(s, x) && t.nodes[x.from].acc == s.nodes[x.from].acc
    ensures ReplyOk(t, x)
  {
    var run := s.runs[x.run];
    assert RunGrows(run, t.runs[x.run]);
    if x.PromiseReply? && x.na.n > 0 { BackedGrows(s, t, run.inst, x.na, x.va); }
  }

  lemma CommitOkGrows(s: State, t: State, p: string, i: nat)
    requires Grows(s, t) && p in s.nodes && i in s.nodes[p].acc.values && CommitOk(s, p, i)
    requires i >= 2 ==> i - 1 in s.nodes[p].acc.values
    ensures i in t.nodes[p].acc.values && CommitOk(t, p, i)
  {
    assert AccGrows(s.nodes[p].acc, t.nodes[p].acc);
    if i >= 2 {
      DecidedGrows(s, t, i, s.nodes[p].acc.values[i]);
      var m :| m in s.nodes && i in s.nodes[m].acc.values
               && m in ViewText.Members(ValueAt(s.nodes[p].acc.values, i - 1));
      assert AccGrows(s.nodes[m].acc, t.nodes[m].acc);
      assert ValueAt(t.nodes[p].acc.values, i - 1) == ValueAt(s.nodes[p].acc.values, i - 1);
    }
  }

  // ----- frames: what a step must show about the parts it changed -----

  lemma RunsFrame(s: State, t: State)
    requires RunsOk(s) && Grows(s, t)
    requires forall r | |s.runs| <= r < |t.runs| :: RunOk(t, r)
    ensures RunsOk(t)
  {
    forall r | 0 <= r < |t.runs| ensures RunOk(t, r) {
      if r < |s.runs| { RunOkGrows(s, t, r); }
    }
  }

  lemma PhasesFrame(s: State, t: State)
    requires PhasesOk(s) && Grows(s, t)
    requires forall r | 0 <= r < |t.runs| && (r >= |s.runs| || t.runs[r] != s.runs[r]) :: PhaseOk(t, r)
    ensures PhasesOk(t)
  {
    forall r | 0 <= r < |t.runs| ensures PhaseOk(t, r) {
      if r < |s.runs| && t.runs[r] == s.runs[r] { PhaseOkGrows(s, t, r); }
    }
  }

  lemma NodesFrame(s: State, t: State, p: string)
    requires NodesOk(s) && Grows(s, t) && p in s.nodes && NodeOk(t, p)
    requires forall q | q in s.nodes && q != p :: t.nodes[q].acc == s.nodes[q].acc
    ensures NodesOk(t)
  {
    forall q | q in t.nodes ensures NodeOk(t, q) {
      if q != p { NodeOkGrows(s, t, q); }
    }
  }

  lemma RepliesFrame(s: State, t: State, p: string)
    requires RepliesOk(s) && Grows(s, t)
    requires forall q | q in s.nodes && q != p :: t.nodes[q].acc == s.nodes[q].acc
    requires forall x | x in t.net && (x.from == p || x !in s.net) :: ReplyOk(t, x)
    ensures RepliesOk(t)
  {
    forall x | x in t.net ensures ReplyOk(t, x) {
      if x.from != p && x in s.net {
        assert ReplyOk(s, x);
        ReplyOkGrows(s, t, x);
      }
    }
  }

  lemma PairsFrame(s: State, t: State)
    requires RepliesOk(s) && PairsOk(s) && Grows(s, t) && RepliesOk(t)
    requires forall x, y | x in t.net && y in t.net && (x !in s.net || y !in s.net) :: PairOk(t, x, y)
    ensures PairsOk(t)
  {
    forall x, y | x in t.net && y in t.net ensures PairOk(t, x, y) {
      if x in s.net && y in s.net {
        assert ReplyOk(s, x) && ReplyOk(s, y) && PairOk(s, x, y);
        assert RunGrows(s.runs[x.run], t.runs[x.run]) && RunGrows(s.runs[y.run], t.runs[y.run]);
      }
    }
  }

  lemma CommitsFrame(s: State, t: State)
    requires NodesOk(s) && CommitsOk(s) && Grows(s, t)
    requires forall p, i | p in t.nodes && i in t.nodes[p].acc.values && i !in s.nodes[p].acc.values ::
               CommitOk(t, p, i)
    ensures CommitsOk(t)
  {
    forall p, i | p in t.nodes && i in t.nodes[p].acc.values ensures CommitOk(t, p, i) {
      if i in s.nodes[p].acc.values {
        assert NodeOk(s, p);
        assert CommitOk(s, p, i);
        CommitOkGrows(s, t, p, i);
      }
    }
  }

  // ----- texts -----

  lemma ChangeIsText(members: seq<string>, v: string)
    requires IsChange(members, v) && forall m | m in members :: IsName(m)
    ensures v != "" && IsLine(v)
  {
    var p, c :| ValidChange(members, p, c) && v == ViewText.Value(Changed(members, c));
    if c.Remove? { ViewText.WithoutIs(members, c.m); }
    assert p in members ==> IsName(p);
    ViewText.ValueIsLine(Changed(members, c));
  }

  /** Every proposed text is a nonempty line. */
  lemma ProposedIsText(s: State, inst: nat, v: string)
    requires RunsOk(s) && Proposed(s, inst, v)
    ensures v != "" && IsLine(v)
  {
    var r :| 0 <= r < |s.runs| && s.runs[r].inst == inst && s.runs[r].newv == v;
    assert RunOk(s, r);
    var p :| p in s.nodes && s.runs[r].inst - 1 in s.nodes[p].acc.values
             && ViewText.Members(s.nodes[p].acc.values[s.runs[r].inst - 1]) == s.runs[r].members;
    ChangeIsText(s.runs[r].members, v);
  }

  lemma BackedIsProposed(s: State, inst: nat, n: Prop, v: string)
    requires PhasesOk(s) && Backed(s, inst, n, v)
    ensures Proposed(s, inst, v)
  {
    var r :| 0 <= r < |s.runs| && s.runs[r].inst == inst && s.runs[r].n == n
             && !s.runs[r].phase.Preparing? && s.runs[r].phase.v == v;
    assert PhaseOk(s, r);
  }

  lemma DecidedIsText(s: State, inst: nat, v: string)
    requires RunsOk(s) && PhasesOk(s) && Decided(s, inst, v)
    ensures v != "" && IsLine(v)
  {
    var r :| 0 <= r < |s.runs| && s.runs[r].inst == inst && s.runs[r].phase.Deciding? && s.runs[r].phase.v == v;
    assert PhaseOk(s, r);
    ProposedIsText(s, inst, v);
  }

  // ----- steps that leave every acceptor alone -----

  ghost predicate SameAccs(s: State, t: State) {
    t.nodes.Keys == s.nodes.Keys && forall p | p in s.nodes :: t.nodes[p].acc == s.nodes[p].acc
  }

  lemma QuietStep(s: State, t: State)
    requires Inv(s) && SameAccs(s, t) && t.first == s.first && t.net == s.net
    requires |s.runs| <= |t.runs|
    requires forall r | 0 <= r < |s.runs| :: RunGrows(s.runs[r], t.runs[r])
    requires forall r | |s.runs| <= r < |t.runs| :: RunOk(t, r)
    requires forall r | 0 <= r < |t.runs| && (r >= |s.runs| || t.runs[r] != s.runs[r]) :: PhaseOk(t, r)
    ensures Inv(t)
  {
    assert Grows(s, t);
    RunsFrame(s, t);
    PhasesFrame(s, t);
    assert NodeOk(s, s.first);
    NodeOkGrows(s, t, s.first);
    NodesFrame(s, t, s.first);
    forall x | x in t.net && x.from == s.first ensures ReplyOk(t, x) {
      assert ReplyOk(s, x);
      ReplyOkGrows(s, t, x);
    }
    RepliesFrame(s, t, s.first);
    PairsFrame(s, t);
    CommitsFrame(s, t);
  }

  lemma NewRunOk(s: State, t: State, p: string, vid: nat, c: Change)
    requires p in s.nodes && NodeOk(s, p) && 1 <= vid <= s.nodes[p].acc.ih
    requires ValidChange(ViewText.Members(ValueAt(s.nodes[p].acc.values, vid)), p, c)
    requires p in t.nodes && t.nodes[p].acc == s.nodes[p].acc
    requires t.runs == s.runs + [NewRun(s, p, vid, c)]
    ensures RunOk(t, |s.runs|) && PhaseOk(t, |s.runs|)
  {
    var run := NewRun(s, p, vid, c);
    assert vid in s.nodes[p].acc.values;
    assert HasView(t, vid, run.members);
    assert IsChange(run.members, run.newv);
  }

  lemma StepStart(s: State, e: Event)
    requires Inv(s) && e.Start? && Enabled(s, e)
    ensures Inv(Next(s, e))
  {
    hide PhaseOk, CommitOk, PairOk, ReplyOk, NodeOk, RunOk, ViewText.Members, ViewText.Value;
    var t := Next(s, e);
    assert NodeOk(s, e.p);
    assert t.runs == s.runs + [NewRun(s, e.p, e.vid, e.change)];
    NewRunOk(s, t, e.p, e.vid, e.change);
    QuietStep(s, t);
  }

  lemma StepEndPreparePrepared(s: State, e: Event)
    requires Inv(s) && e.EndPrepare? && Enabled(s, e)
    requires Gather(s.runs[e.r].members, e.got, |e.got|).Prepared?
    ensures Inv(Next(s, e))
  {
    hide NodeOk, RunOk, PhaseOk, PairOk, ReplyOk, CommitOk;
    var t, r, run := Next(s, e), e.r, s.runs[e.r];
    var o := Gather(run.members, e.got, |e.got|);
    if Quorum.Majority(run.members, o.accepts) {
      PreparedPhaseOk(s, t, r, e.got, o);
    }
    QuietStep(s, t);
  }

  lemma GatheredPromises(s: State, r: nat, got: seq<Option<PrepareRes>>, o: Outcome)
    requires r < |s.runs| && Justified(s, r, got)
    requires o == Gather(s.runs[r].members, got, |got|) && o.Prepared?
    ensures forall m | m in o.accepts :: Promised(s, r, m, o.best)
    ensures || (o.best == NO_PROP && o.v == "")
            || (exists q :: PromiseReply(r, q, o.best, o.v) in s.net)
  {
    var ms := s.runs[r].members;
    GatherIsBest(ms, got, |got|);
    forall m | m in o.accepts ensures Promised(s, r, m, o.best) {
      var j :| 0 <= j < |got| && ms[j] == m && got[j].Some? && got[j].value.Promise?;
      var x := PromiseReply(r, m, got[j].value.na, got[j].value.va);
      assert x in s.net;
    }
    if !(o.best == NO_PROP && o.v == "") {
      var j :| 0 <= j < |got| && got[j] == Some(Promise(o.best, o.v));
      assert PromiseReply(r, ms[j], o.best, o.v) in s.net;
    }
  }

  /** The value a run goes on with is the one promised with the highest number, or its own when
      no promise reports a vote. */
  lemma PreparedPhaseOk(s: State, t: State, r: nat, got: seq<Option<PrepareRes>>, o: Outcome)
    requires RunsOk(s) && PhasesOk(s) && RepliesOk(s)
    requires r < |s.runs| && Justified(s, r, got)
    requires o == Gather(s.runs[r].members, got, |got|) && o.Prepared?
    requires Quorum.Majority(s.runs[r].members, o.accepts)
    requires t == SetPhase(s, r, Accepting(o.accepts, o.best, Chosen(o.v, s.runs[r].newv)))
    ensures PhaseOk(t, r)
  {
    var run := s.runs[r];
    GatheredPromises(s, r, got, o);
    forall m | m in o.accepts ensures Promised(t, r, m, o.best) {
      assert Promised(s, r, m, o.best);
      var x :| x in s.net && x.PromiseReply? && x.run == r && x.from == m && AtLeast(o.best, x.na);
      assert x in t.net;
    }
    assert t.runs[r].newv == run.newv;
    if o.best == NO_PROP && o.v == "" {
      assert Proposed(t, run.inst, run.newv);
    } else {
      var q :| PromiseReply(r, q, o.best, o.v) in s.net;
      BestIsBacked(s, r, q, o.best, o.v);
      assert PromiseReply(r, q, o.best, o.v) in t.net;
      if o.v == "" {
        assert Proposed(t, run.inst, run.newv);
      } else {
        var k :| 0 <= k < |s.runs| && s.runs[k].inst == run.inst && s.runs[k].newv == o.v;
        assert t.runs[k].newv == o.v;
      }
    }
  }

  lemma BestIsBacked(s: State, r: nat, q: string, best: Prop, v: string)
    requires RunsOk(s) && PhasesOk(s) && RepliesOk(s) && r < |s.runs| && PromiseReply(r, q, best, v) in s.net
    ensures best.n == 0 <==> v == ""
    ensures best.n > 0 ==> Proposed(s, s.runs[r].inst, v)
  {
    assert ReplyOk(s, PromiseReply(r, q, best, v));
    if best.n > 0 {
      BackedIsProposed(s, s.runs[r].inst, best, v);
      ProposedIsText(s, s.runs[r].inst, v);
    }
  }

  lemma VotedPhaseOk(s: State, t: State, r: nat, oks: seq<bool>, voters: seq<string>)
    requires r < |s.runs| && PhaseOk(s, r) && s.runs[r].phase.Accepting?
    requires |oks| == |s.runs[r].phase.promisers|
    requires voters == Accepters(s.runs[r].phase.promisers, oks, |oks|)
    requires forall k | 0 <= k < |oks| && oks[k] :: Vote(r, s.runs[r].phase.promisers[k]) in s.net
    requires Quorum.Majority(s.runs[r].members, voters)
    requires var ph := s.runs[r].phase; t == SetPhase(s, r, Deciding(ph.promisers, ph.best, ph.v, voters))
    requires Grows(s, t)
    ensures PhaseOk(t, r)
  {
    var run := s.runs[r];
    AcceptersAre(run.phase.promisers, oks, |oks|);
    ProposedGrows(s, t, run.inst, run.phase.v);
    forall m | m in run.phase.promisers ensures Promised(t, r, m, run.phase.best) {
      PromisedGrows(s, t, r, m, run.phase.best);
    }
  }

  lemma StepEndAccept(s: State, e: Event)
    requires Inv(s) && e.EndAccept? && Enabled(s, e)
    ensures Inv(Next(s, e))
  {
    hide PhaseOk, CommitOk, PairOk, ReplyOk, NodeOk, RunOk, Quorum.CountIn;
    var t, r, run := Next(s, e), e.r, s.runs[e.r];
    var voters := Accepters(run.phase.promisers, e.oks, |e.oks|);
    if Quorum.Majority(run.members, voters) {
      assert PhaseOk(s, r);
      VotedPhaseOk(s, t, r, e.oks, voters);
    }
    QuietStep(s, t);
  }

  lemma StepEndRun(s: State, e: Event)
    requires Inv(s) && e.EndRun? && Enabled(s, e)
    ensures Inv(Next(s, e))
  {
    hide NodeOk, RunOk, PhaseOk, PairOk, ReplyOk, CommitOk;
    QuietStep(s, Next(s, e));
  }

  // ----- steps that change one acceptor -----

  /** Only p's acceptor differs, and it is now a. */
  ghost predicate OnlyAcc(s: State, t: State, p: string, a: Acc) {
    && t.first == s.first && t.runs == s.runs && t.nodes.Keys == s.nodes.Keys && p in s.nodes
    && t.nodes[p].acc == a
    && forall q | q in s.nodes && q != p :: t.nodes[q].acc == s.nodes[q].acc
  }

  lemma PromiseKeepsNode(s: State, t: State, r: nat, q: string, b: Acc)
    requires Grows(s, t) && r < |s.runs| && q in s.nodes && NodeOk(s, q)
    requires var a := s.nodes[q].acc;
             s.runs[r].inst > a.ih && Greater(s.runs[r].n, a.nh) && IsName(s.runs[r].n.m)
             && b == HandlePrepare(a, s.runs[r].inst, s.runs[r].n).0
    requires t.nodes[q].acc == b
    ensures NodeOk(t, q)
  {
    var a, run := s.nodes[q].acc, s.runs[r];
    PrepareKeepsDurable(a, run.inst, run.n);
    if a.na.n > 0 {
      BackedGrows(s, t, a.ih + 1, a.na, a.va);
      AtLeastTransitive(run.n, a.nh, a.na);
      GreaterIsStrictTotal(run.n, a.na);
    }
  }

  lemma PromiseReplyOk(s: State, t: State, r: nat, q: string)
    requires Grows(s, t) && r < |s.runs| && q in s.nodes && NodeOk(s, q) && t.runs == s.runs
    requires q in s.runs[r].members
    requires s.runs[r].inst == s.nodes[q].acc.ih + 1 && Greater(s.runs[r].n, s.nodes[q].acc.nh)
    requires t.nodes[q].acc.ih == s.nodes[q].acc.ih && t.nodes[q].acc.nh == s.runs[r].n
    ensures ReplyOk(t, PromiseReply(r, q, s.nodes[q].acc.na, s.nodes[q].acc.va))
  {
    var a, run := s.nodes[q].acc, s.runs[r];
    GreaterIsStrictTotal(run.n, run.n);
    if a.na.n > 0 {
      BackedGrows(s, t, a.ih + 1, a.na, a.va);
      AtLeastTransitive(run.n, a.nh, a.na);
    }
  }

  lemma PromiseKeepsReply(s: State, t: State, r: nat, q: string, x: Reply)
    requires Grows(s, t) && t.runs == s.runs && r < |s.runs| && q in s.nodes
    requires ReplyOk(s, x) && x.from == q
    requires Greater(s.runs[r].n, s.nodes[q].acc.nh)
    requires var a, b := s.nodes[q].acc, t.nodes[q].acc;
             b.ih == a.ih && b.values == a.values && b.na == a.na && b.nh == s.runs[r].n
    ensures ReplyOk(t, x)
  {
    if x.PromiseReply? {
      AtLeastTransitive(s.runs[r].n, s.nodes[q].acc.nh, s.runs[x.run].n);
      GreaterIsStrictTotal(s.runs[r].n, s.runs[x.run].n);
      if x.na.n > 0 { BackedGrows(s, t, s.runs[x.run].inst, x.na, x.va); }
    }
  }

  /** A new promise cannot repeat a number, and its report covers the node's votes. */
  lemma PromisePair(s: State, r: nat, q: string, x: Reply)
    requires r < |s.runs| && q in s.nodes && ReplyOk(s, x)
    requires s.runs[r].inst == s.nodes[q].acc.ih + 1 && Greater(s.runs[r].n, s.nodes[q].acc.nh)
    ensures var z := PromiseReply(r, q, s.nodes[q].acc.na, s.nodes[q].acc.va);
            PairOk(s, x, z) && PairOk(s, z, x)
  {
    GreaterIsStrictTotal(s.runs[r].n, s.nodes[q].acc.nh);
  }

  lemma PromiseReplies(s: State, t: State, r: nat, q: string)
    requires Grows(s, t) && RepliesOk(s) && r < |s.runs| && q in s.nodes && NodeOk(s, q) && q in s.runs[r].members
    requires s.runs[r].inst == s.nodes[q].acc.ih + 1 && Greater(s.runs[r].n, s.nodes[q].acc.nh)
    requires OnlyAcc(s, t, q, HandlePrepare(s.nodes[q].acc, s.runs[r].inst, s.runs[r].n).0)
    requires t.net == s.net + {PromiseReply(r, q, s.nodes[q].acc.na, s.nodes[q].acc.va)}
    ensures RepliesOk(t)
  {
    hide NodeOk, ReplyOk, Grows, Greater;
    PromiseReplyOk(s, t, r, q);
    forall x | x in t.net && (x.from == q || x !in s.net) ensures ReplyOk(t, x) {
      if x in s.net {
        assert ReplyOk(s, x);
        PromiseKeepsReply(s, t, r, q, x);
      }
    }
    RepliesFrame(s, t, q);
  }

  /** A promise raises n_h above everything promised before. */
  lemma StepPromise(s: State, t: State, r: nat, q: string)
    requires Inv(s) && r < |s.runs| && q in s.nodes && q in s.runs[r].members
    requires s.runs[r].inst == s.nodes[q].acc.ih + 1 && Greater(s.runs[r].n, s.nodes[q].acc.nh)
    requires OnlyAcc(s, t, q, HandlePrepare(s.nodes[q].acc, s.runs[r].inst, s.runs[r].n).0)
    requires t.net == s.net + {PromiseReply(r, q, s.nodes[q].acc.na, s.nodes[q].acc.va)}
    ensures Inv(t)
  {
    hide PhaseOk, CommitOk, PairOk, Durable, HasView, IsChange;
    assert NodeOk(s, q) && RunOk(s, r);
    assert Grows(s, t);
    RunsFrame(s, t);
    PhasesFrame(s, t);
    PromiseKeepsNode(s, t, r, q, t.nodes[q].acc);
    NodesFrame(s, t, q);
    PromiseReplies(s, t, r, q);
    hide Greater, HandlePrepare, Grows, RunOk, NodeOk, ReplyOk;
    PromisePairs(s, t, r, q);
    PairsFrame(s, t);
    CommitsFrame(s, t);
  }

  lemma PromisePairs(s: State, t: State, r: nat, q: string)
    requires RepliesOk(s) && r < |s.runs| && q in s.nodes && t.runs == s.runs && RepliesOk(t)
    requires s.runs[r].inst == s.nodes[q].acc.ih + 1 && Greater(s.runs[r].n, s.nodes[q].acc.nh)
    requires t.net == s.net + {PromiseReply(r, q, s.nodes[q].acc.na, s.nodes[q].acc.va)}
    ensures forall x, y | x in t.net && y in t.net && (x !in s.net || y !in s.net) :: PairOk(t, x, y)
  {
    var z := PromiseReply(r, q, s.nodes[q].acc.na, s.nodes[q].acc.va);
    GreaterIsStrictTotal(s.runs[r].n, s.runs[r].n);
    assert PairOk(s, z, z);
    forall x | x in s.net ensures PairOk(s, x, z) && PairOk(s, z, x) {
      assert ReplyOk(s, x);
      PromisePair(s, r, q, x);
    }
    forall x, y | x in t.net && y in t.net && (x !in s.net || y !in s.net) ensures PairOk(t, x, y) {
      assert PairOk(s, x, y);
    }
  }

  lemma StepOldReply(s: State, t: State, r: nat, q: string)
    requires Inv(s) && r < |s.runs| && q in s.nodes && q in s.runs[r].members
    requires s.runs[r].inst <= s.nodes[q].acc.ih
    requires t == s.(net := s.net + {OldReply(r, q, ValueAt(s.nodes[q].acc.values, s.runs[r].inst))})
    ensures Inv(t)
  {
    hide PhaseOk, CommitOk, Durable, HasView, IsChange;
    assert NodeOk(s, q) && RunOk(s, r);
    assert Grows(s, t);
    RunsFrame(s, t);
    PhasesFrame(s, t);
    NodeOkGrows(s, t, q);
    NodesFrame(s, t, q);
    forall x | x in t.net && (x.from == q || x !in s.net) ensures ReplyOk(t, x) {
      if x in s.net {
        assert ReplyOk(s, x);
        ReplyOkGrows(s, t, x);
      }
    }
    RepliesFrame(s, t, q);
    forall x, y | x in t.net && y in t.net && (x !in s.net || y !in s.net) ensures PairOk(t, x, y) {
      assert ReplyOk(t, x) && ReplyOk(t, y);
    }
    PairsFrame(s, t);
    CommitsFrame(s, t);
  }

  lemma StepPrepare(s: State, e: Event)
    requires Inv(s) && e.RecvPrepare? && Enabled(s, e) && Timely(s, e)
    ensures Inv(Next(s, e))
  {
    hide Inv, HasView;
    var a, run := s.nodes[e.q].acc, s.runs[e.r];
    if run.inst <= a.ih {
      StepOldReply(s, Next(s, e), e.r, e.q);
    } else if Greater(run.n, a.nh) {
      StepPromise(s, Next(s, e), e.r, e.q);
    }
  }

  // ----- votes -----

  /** A vote is only cast at exactly the promised number, so n_h need not move. */
  lemma VoteAtPromise(s: State, r: nat, q: string)
    requires PhasesOk(s) && RepliesOk(s) && r < |s.runs| && q in s.nodes
    requires !s.runs[r].phase.Preparing? && q in s.runs[r].phase.promisers
    requires s.runs[r].inst == s.nodes[q].acc.ih + 1 && AtLeast(s.runs[r].n, s.nodes[q].acc.nh)
    ensures s.runs[r].n == s.nodes[q].acc.nh && q in s.runs[r].members
  {
    assert PhaseOk(s, r);
    assert Promised(s, r, q, s.runs[r].phase.best);
    var x :| x in s.net && x.PromiseReply? && x.run == r && x.from == q;
    assert ReplyOk(s, x);
    GreaterIsStrictTotal(s.runs[r].n, s.nodes[q].acc.nh);
    GreaterIsStrictTotal(s.nodes[q].acc.nh, s.runs[r].n);
  }

  lemma VoteKeepsNode(s: State, t: State, r: nat, q: string)
    requires Grows(s, t) && t.runs == s.runs && r < |s.runs| && q in s.nodes && NodeOk(s, q)
    requires !s.runs[r].phase.Preparing? && s.runs[r].inst == s.nodes[q].acc.ih + 1
    requires s.runs[r].n == s.nodes[q].acc.nh && s.runs[r].n.n >= 1
    requires IsName(s.runs[r].n.m) && IsLine(s.runs[r].phase.v)
    requires t.nodes[q].acc == HandleAccept(s.nodes[q].acc, s.runs[r].inst, s.runs[r].n, s.runs[r].phase.v).0
    ensures NodeOk(t, q)
  {
    var a, run := s.nodes[q].acc, s.runs[r];
    GreaterIsStrictTotal(run.n, run.n);
    AcceptKeepsDurable(a, run.inst, run.n, run.phase.v);
    assert Backed(t, a.ih + 1, run.n, run.phase.v);
  }

  lemma VoteKeepsReply(s: State, t: State, q: string, x: Reply)
    requires Grows(s, t) && t.runs == s.runs && q in s.nodes && NodeOk(s, q)
    requires ReplyOk(s, x) && x.from == q
    requires var a, b := s.nodes[q].acc, t.nodes[q].acc;
             b.ih == a.ih && b.values == a.values && b.nh == a.nh && b.na == a.nh && a.nh.n >= 1
    ensures ReplyOk(t, x)
  {
    if x.PromiseReply? && x.na.n > 0 { BackedGrows(s, t, s.runs[x.run].inst, x.na, x.va); }
    if x.Vote? { AtLeastTransitive(s.nodes[q].acc.nh, s.nodes[q].acc.na, s.runs[x.run].n); }
  }

  lemma VotePair(s: State, r: nat, q: string, x: Reply)
    requires r < |s.runs| && q in s.nodes && ReplyOk(s, x)
    requires s.runs[r].inst == s.nodes[q].acc.ih + 1 && s.runs[r].n == s.nodes[q].acc.nh
    ensures PairOk(s, x, Vote(r, q)) && PairOk(s, Vote(r, q), x)
  {
    GreaterIsStrictTotal(s.nodes[q].acc.nh, s.runs[x.run].n);
  }

  lemma VotePairs(s: State, t: State, r: nat, q: string)
    requires RepliesOk(s) && RepliesOk(t) && t.runs == s.runs && t.net == s.net + {Vote(r, q)}
    requires r < |s.runs| && q in s.nodes
    requires s.runs[r].inst == s.nodes[q].acc.ih + 1 && s.runs[r].n == s.nodes[q].acc.nh
    ensures forall x, y | x in t.net && y in t.net && (x !in s.net || y !in s.net) :: PairOk(t, x, y)
  {
    forall x | x in s.net ensures PairOk(s, x, Vote(r, q)) && PairOk(s, Vote(r, q), x) {
      assert ReplyOk(s, x);
      VotePair(s, r, q, x);
    }
    assert PairOk(s, Vote(r, q), Vote(r, q));
    forall x, y | x in t.net && y in t.net && (x !in s.net || y !in s.net) ensures PairOk(t, x, y) {
      assert PairOk(s, x, y);
    }
  }

  lemma VoteReplies(s: State, t: State, r: nat, q: string)
    requires Grows(s, t) && RepliesOk(s) && r < |s.runs| && q in s.nodes && NodeOk(s, q)
    requires !s.runs[r].phase.Preparing? && q in s.runs[r].members && s.runs[r].n.n >= 1
    requires s.runs[r].inst == s.nodes[q].acc.ih + 1 && s.runs[r].n == s.nodes[q].acc.nh
    requires OnlyAcc(s, t, q, HandleAccept(s.nodes[q].acc, s.runs[r].inst, s.runs[r].n, s.runs[r].phase.v).0)
    requires t.net == s.net + {Vote(r, q)}
    ensures RepliesOk(t)
  {
    GreaterIsStrictTotal(s.runs[r].n, s.runs[r].n);
    forall x | x in t.net && (x.from == q || x !in s.net) ensures ReplyOk(t, x) {
      if x in s.net {
        assert ReplyOk(s, x);
        VoteKeepsReply(s, t, q, x);
      }
    }
    RepliesFrame(s, t, q);
  }

  lemma StepVote(s: State, t: State, r: nat, q: string)
    requires Inv(s) && r < |s.runs| && q in s.nodes
    requires !s.runs[r].phase.Preparing? && q in s.runs[r].phase.promisers
    requires s.runs[r].inst == s.nodes[q].acc.ih + 1 && AtLeast(s.runs[r].n, s.nodes[q].acc.nh)
    requires OnlyAcc(s, t, q, HandleAccept(s.nodes[q].acc, s.runs[r].inst, s.runs[r].n, s.runs[r].phase.v).0)
    requires t.net == s.net + {Vote(r, q)}
    ensures Inv(t)
  {
    hide CommitOk, PairOk, Durable, HasView, IsChange, Promised;
    var run := s.runs[r];
    VoteAtPromise(s, r, q);
    assert NodeOk(s, q) && RunOk(s, r) && PhaseOk(s, r);
    assert Grows(s, t);
    RunsFrame(s, t);
    PhasesFrame(s, t);
    ProposedIsText(s, run.inst, run.phase.v);
    VoteKeepsNode(s, t, r, q);
    NodesFrame(s, t, q);
    VoteReplies(s, t, r, q);
    hide NodeOk, RunOk, PhaseOk, ReplyOk, Grows;
    VotePairs(s, t, r, q);
    PairsFrame(s, t);
    CommitsFrame(s, t);
  }

  lemma StepAccept(s: State, e: Event)
    requires Inv(s) && e.RecvAccept? && Enabled(s, e) && Timely(s, e)
    ensures Inv(Next(s, e))
  {
    hide Inv;
    if AtLeast(s.runs[e.r].n, s.nodes[e.q].acc.nh) {
      StepVote(s, Next(s, e), e.r, e.q);
    }
  }

  // ----- commits -----

  /** A member of the previous view, known to p, has committed (or is p). */
  ghost predicate Learned(s: State, p: string, inst: nat) {
    p in s.nodes && inst >= 1 &&
    exists m :: m in s.nodes && (m == p || inst in s.nodes[m].acc.values)
                && m in ViewText.Members(ValueAt(s.nodes[p].acc.values, inst - 1))
  }

  lemma CommitKeepsNode(s: State, t: State, p: string, inst: nat, v: string)
    requires p in s.nodes && NodeOk(s, p) && inst == s.nodes[p].acc.ih + 1 && IsLine(v)
    requires t.first == s.first && p in t.nodes && t.nodes[p].acc == Commit(s.nodes[p].acc, inst, v)
    ensures NodeOk(t, p)
  {
    CommitKeepsDurable(s.nodes[p].acc, inst, v);
  }

  lemma MovedOnReply(s: State, t: State, p: string, x: Reply)
    requires Grows(s, t) && t.runs == s.runs && p in s.nodes && ReplyOk(s, x) && x.from == p
    requires t.nodes[p].acc.ih > s.nodes[p].acc.ih
    ensures ReplyOk(t, x)
  {
    assert AccGrows(s.nodes[p].acc, t.nodes[p].acc);
    if x.PromiseReply? && x.na.n > 0 { BackedGrows(s, t, s.runs[x.run].inst, x.na, x.va); }
  }

  lemma NewCommitOk(s: State, t: State, p: string, inst: nat, v: string)
    requires Grows(s, t) && p in s.nodes && NodeOk(s, p) && inst == s.nodes[p].acc.ih + 1 && inst >= 2
    requires Decided(s, inst, v) && Learned(s, p, inst)
    requires t.nodes[p].acc == Commit(s.nodes[p].acc, inst, v)
    ensures CommitOk(t, p, inst)
  {
    DecidedGrows(s, t, inst, v);
    assert inst - 1 in s.nodes[p].acc.values;
    var m :| m in s.nodes && (m == p || inst in s.nodes[m].acc.values)
             && m in ViewText.Members(ValueAt(s.nodes[p].acc.values, inst - 1));
    assert AccGrows(s.nodes[m].acc, t.nodes[m].acc);
    assert ValueAt(t.nodes[p].acc.values, inst - 1) == ValueAt(s.nodes[p].acc.values, inst - 1);
  }

  lemma StepCommit(s: State, t: State, p: string, inst: nat, v: string)
    requires Inv(s) && p in s.nodes && inst == s.nodes[p].acc.ih + 1 && inst >= 2
    requires Decided(s, inst, v) && Learned(s, p, inst)
    requires OnlyAcc(s, t, p, Commit(s.nodes[p].acc, inst, v)) && t.net == s.net
    ensures Inv(t)
  {
    hide PhaseOk, CommitOk, PairOk, Durable, HasView, IsChange, Decided, Learned, Backed;
    assert NodeOk(s, p);
    assert Grows(s, t);
    RunsFrame(s, t);
    PhasesFrame(s, t);
    DecidedIsText(s, inst, v);
    CommitKeepsNode(s, t, p, inst, v);
    NodesFrame(s, t, p);
    forall x | x in t.net && (x.from == p || x !in s.net) ensures ReplyOk(t, x) {
      assert ReplyOk(s, x);
      MovedOnReply(s, t, p, x);
    }
    RepliesFrame(s, t, p);
    PairsFrame(s, t);
    NewCommitOk(s, t, p, inst, v);
    CommitsFrame(s, t);
  }

  /** The member list a run asks is the one its receiver committed before. */
  lemma MemberOfLastView(s: State, r: nat, q: string)
    requires Inv(s) && r < |s.runs| && q in s.nodes && q in s.runs[r].members
    requires s.runs[r].inst == s.nodes[q].acc.ih + 1
    ensures Learned(s, q, s.runs[r].inst)
  {
    hide PhaseOk, CommitOk, PairOk, ReplyOk, Durable, HasView, IsChange, Backed;
    assert RunOk(s, r) && NodeOk(s, q);
    Agreement(s, s.runs[r].inst - 1);
    QuorumOfRun(s, q, r);
  }

  lemma StepDecide(s: State, e: Event)
    requires Inv(s) && e.RecvDecide? && Enabled(s, e)
    ensures Inv(Next(s, e))
  {
    hide PairOk, NodeOk, CommitOk, HasView, IsChange, Learned, Promised, Proposed;
    var t, run, a := Next(s, e), s.runs[e.r], s.nodes[e.q].acc;
    DecideIsSafe(s, e.r, e.q);
    assert PhaseOk(s, e.r) && RunOk(s, e.r);
    assert ReplyOk(s, Vote(e.r, e.q));
    if run.inst == a.ih + 1 {
      MemberOfLastView(s, e.r, e.q);
      assert Decided(s, run.inst, run.phase.v);
      StepCommit(s, t, e.q, run.inst, run.phase.v);
    } else {
      assert t == s;
    }
  }

  lemma {:induction false} GatherOld(nodes: seq<string>, got: seq<Option<PrepareRes>>, k: nat)
    requires k <= |got| == |nodes| && Gather(nodes, got, k).Old?
    ensures exists j :: 0 <= j < k && got[j] == Some(OldInstance(Gather(nodes, got, k).v))
  {
    if Gather(nodes, got, k - 1).Old? {
      GatherOld(nodes, got, k - 1);
    } else {
      assert got[k - 1] == Some(OldInstance(Gather(nodes, got, k).v));
    }
  }

  lemma LearnedFrom(s: State, p: string, m: string, inst: nat)
    requires p in s.nodes && m in s.nodes && inst >= 2
    requires inst in s.nodes[m].acc.values && CommitOk(s, m, inst)
    requires ValueAt(s.nodes[p].acc.values, inst - 1) == ValueAt(s.nodes[m].acc.values, inst - 1)
    ensures Decided(s, inst, s.nodes[m].acc.values[inst]) && Learned(s, p, inst)
  {
    var m' :| m' in s.nodes && inst in s.nodes[m'].acc.values
              && m' in ViewText.Members(ValueAt(s.nodes[m].acc.values, inst - 1));
  }

  /** What another node committed can be committed here. */
  lemma OldIsCommittable(s: State, p: string, m: string, inst: nat)
    requires Inv(s) && p in s.nodes && m in s.nodes && inst >= 2
    requires inst in s.nodes[m].acc.values && inst == s.nodes[p].acc.ih + 1
    ensures Decided(s, inst, s.nodes[m].acc.values[inst]) && Learned(s, p, inst)
  {
    hide PhaseOk, PairOk, ReplyOk, RunOk, CommitOk, Durable, Backed, Decided, Learned;
    assert NodeOk(s, p) && NodeOk(s, m);
    Agreement(s, inst - 1);
    LearnedFrom(s, p, m, inst);
  }

  lemma StepEndPrepareOld(s: State, e: Event)
    requires Inv(s) && e.EndPrepare? && Enabled(s, e)
    requires Gather(s.runs[e.r].members, e.got, |e.got|).Old?
    ensures Inv(Next(s, e))
  {
    hide PairOk, NodeOk, CommitOk, HasView, IsChange, Learned, PhaseOk, Decided;
    var t, run := Next(s, e), s.runs[e.r];
    var p, v := run.owner, Gather(run.members, e.got, |e.got|).v;
    assert RunOk(s, e.r);
    if run.inst > s.nodes[p].acc.ih {
      GatherOld(run.members, e.got, |e.got|);
      var j :| 0 <= j < |e.got| && e.got[j] == Some(OldInstance(v));
      assert ReplyOk(s, OldReply(e.r, run.members[j], v));
      OldIsCommittable(s, p, run.members[j], run.inst);
      StepCommit(s, t, p, run.inst, v);
    } else {
      QuietStep(s, t);
    }
  }

  // ----- crash and join -----

  lemma SameKeepsNode(s: State, t: State, p: string)
    requires Grows(s, t) && p in s.nodes && NodeOk(s, p) && Same(t.nodes[p].acc, s.nodes[p].acc)
    ensures NodeOk(t, p)
  {
    var a, b := s.nodes[p].acc, t.nodes[p].acc;
    assert Fresh(b.me, b.log) == Fresh(a.me, a.log);
    if a.na.n > 0 { BackedGrows(s, t, a.ih + 1, a.na, a.va); }
  }

  lemma SameKeepsReply(s: State, t: State, p: string, x: Reply)
    requires Grows(s, t) && t.runs == s.runs && p in s.nodes && ReplyOk(s, x) && x.from == p
    requires Same(t.nodes[p].acc, s.nodes[p].acc) && s.runs[x.run].n.n >= 1
    ensures ReplyOk(t, x)
  {
    if x.PromiseReply? && x.na.n > 0 { BackedGrows(s, t, s.runs[x.run].inst, x.na, x.va); }
  }

  lemma CrashKeepsReplies(s: State, t: State, p: string)
    requires RepliesOk(s) && RunsOk(s) && Grows(s, t) && t.runs == s.runs && p in s.nodes
    requires Same(t.nodes[p].acc, s.nodes[p].acc) && t.net == s.net
    ensures forall x | x in t.net && (x.from == p || x !in s.net) :: ReplyOk(t, x)
  {
    hide HasView, IsChange, Backed;
    forall x | x in t.net && (x.from == p || x !in s.net) ensures ReplyOk(t, x) {
      assert ReplyOk(s, x);
      assert RunOk(s, x.run);
      SameKeepsReply(s, t, p, x);
    }
  }

  /** Replaying the log loses nothing that a promise or a vote rests on. */
  lemma StepCrash(s: State, e: Event)
    requires Inv(s) && e.Crash? && Enabled(s, e)
    ensures Inv(Next(s, e))
  {
    hide PhaseOk, CommitOk, PairOk, HasView, IsChange, Boot, Backed, ReplyOk, ApplyAll;
    var t, p := Next(s, e), e.p;
    assert NodeOk(s, p);
    BootIsLive(s.nodes[p].acc, p == s.first, p);
    assert Grows(s, t);
    RunsFrame(s, t);
    PhasesFrame(s, t);
    SameKeepsNode(s, t, p);
    NodesFrame(s, t, p);
    CrashKeepsReplies(s, t, p);
    RepliesFrame(s, t, p);
    PairsFrame(s, t);
    CommitsFrame(s, t);
  }

  lemma JoinGrows(s: State, t: State, p: string, q: string)
    requires Inv(s) && p in s.nodes && q in s.nodes && s.nodes[q].acc.ih > s.nodes[p].acc.ih
    requires OnlyAcc(s, t, p, Restore(s.nodes[p].acc, s.nodes[q].acc)) && t.net == s.net
    ensures Grows(s, t) && t.nodes[p].acc.values == s.nodes[q].acc.values
    ensures t.nodes[p].acc.ih == s.nodes[q].acc.ih
    ensures NodeOk(t, p)
  {
    hide PhaseOk, CommitOk, PairOk, ReplyOk, RunOk, Backed, Restore, Durable;
    var a, b, c := s.nodes[p].acc, s.nodes[q].acc, t.nodes[p].acc;
    assert NodeOk(s, p) && NodeOk(s, q);
    RestoreCopies(a, b);
    forall i | i in a.values ensures i in c.values && c.values[i] == a.values[i] {
      Agreement(s, i);
    }
    assert AccGrows(a, c);
    if b.na.n > 0 { BackedGrows(s, t, b.ih + 1, b.na, b.va); }
  }

  lemma JoinCommit(s: State, t: State, p: string, q: string, i: nat)
    requires Inv(s) && p in s.nodes && q in s.nodes && Grows(s, t)
    requires t.nodes[p].acc.values == s.nodes[q].acc.values && t.nodes[q].acc == s.nodes[q].acc
    requires i in s.nodes[q].acc.values
    ensures CommitOk(t, p, i)
  {
    hide PhaseOk, PairOk, ReplyOk, RunOk, Backed, Durable;
    assert NodeOk(s, q);
    assert CommitOk(s, q, i);
    CommitOkGrows(s, t, q, i);
  }

  lemma StepJoin(s: State, e: Event)
    requires Inv(s) && e.Join? && Enabled(s, e) && Timely(s, e)
    ensures Inv(Next(s, e))
  {
    hide PhaseOk, CommitOk, PairOk, HasView, IsChange, Backed, Restore, NodeOk, RunOk;
    var t, p, q := Next(s, e), e.p, e.q;
    JoinGrows(s, t, p, q);
    RunsFrame(s, t);
    PhasesFrame(s, t);
    NodesFrame(s, t, p);
    forall x | x in t.net && (x.from == p || x !in s.net) ensures ReplyOk(t, x) {
      assert ReplyOk(s, x);
      MovedOnReply(s, t, p, x);
    }
    RepliesFrame(s, t, p);
    PairsFrame(s, t);
    forall p', i | p' in t.nodes && i in t.nodes[p'].acc.values && i !in s.nodes[p'].acc.values
      ensures CommitOk(t, p', i)
    {
      JoinCommit(s, t, p, q, i);
    }
    CommitsFrame(s, t);
  }

  // ----- runs -----

  lemma InitHolds(first: string, names: set<string>)
    requires first in names && Names(names)
    ensures Inv(Init(first, names))
  {
    var s := Init(first, names);
    forall p | p in s.nodes ensures NodeOk(s, p) && (p != first ==> s.nodes[p].acc.values == map[])
                                    && (p == first ==> s.nodes[p].acc.values == map[1 := first])
    {
      BootEmpty(p, p == first);
    }
  }

  lemma BootEmpty(p: string, first: bool)
    requires IsName(p)
    ensures var a := Boot(p, first, p, []);
            && a.me == p && Durable(a) && a.na.n == 0 && a.va == "" && (first ==> a.ih == 1) && (!first ==> a.ih == 0)
            && a.values == if first then map[1 := p] else map[]
  {
    assert ReadLog(PrintLog([])) == Some([]);
    assert Fresh(p, []).values == map[];
    if first {
      var r := Done(1, p);
      assert [r][1..] == [];
      var f := Fresh(p, [r]);
      assert ApplyAll(f, [r]) == ApplyAll(Apply(f, r), []);
    }
  }

  /** Every timely step keeps the invariant. */
  lemma StepKeepsInv(s: State, e: Event)
    requires Inv(s) && Enabled(s, e) && Timely(s, e)
    ensures Inv(Next(s, e))
  {
    hide Inv, Next;
    match e
    case Start(_, _, _) => StepStart(s, e);
    case RecvPrepare(_, _) => StepPrepare(s, e);
    case EndPrepare(r, got) =>
      if Gather(s.runs[r].members, got, |got|).Old? {
        StepEndPrepareOld(s, e);
      } else {
        StepEndPreparePrepared(s, e);
      }
    case RecvAccept(_, _) => StepAccept(s, e);
    case EndAccept(_, _) => StepEndAccept(s, e);
    case RecvDecide(_, _) => StepDecide(s, e);
    case EndRun(_) => StepEndRun(s, e);
    case Crash(_) => StepCrash(s, e);
    case Join(_, _) => StepJoin(s, e);
  }

  lemma {:induction false} RunKeepsInv(s: State, es: seq<Event>)
    requires Inv(s) && TimelyRun(s, es)
    ensures AnyRun(s, es) && Inv(After(s, es))
    decreases |es|
  {
    hide Inv, Enabled, Next;
    if es == [] {
    } else {
      StepKeepsInv(s, es[0]);
      RunKeepsInv(Next(s, es[0]), es[1..]);
    }
  }
}
