/** Requests that clients were answered survive view changes, when transfers come from leaders, nodes
    learn views as Paxos spreads them, and whoever leads was in the last view that finished. */
module RsmSurvival {
  import opened Options
  import opened Rsm
  import opened RsmSystem
  import opened RsmInvariant
  import opened RsmSteps
  import opened RsmTheorems
  import ViewText

  // ----- states come from leaders -----

  /** Whoever has the state it synced for has that of a leader. */
  ghost predicate Led(s: State) {
    && (forall b, v | (b, v) in s.adopted :: (b, v) in s.roles && (s.roles[(b, v)], v) in s.base)
    && (forall m | m in s.net && m.TransferRes? :: LeaderSent(s, m))
  }

  ghost predicate LeaderSent(s: State, m: Msg)
    requires m.TransferRes?
  {
    exists r :: r in s.net && r.TransferMsg? && r.id == m.id && (r.dst, r.vid) in s.base
  }

  lemma LeaderSentStays(s: State, t: State, m: Msg)
    requires m.TransferRes? && LeaderSent(s, m) && s.net <= t.net && forall k | k in s.base :: k in t.base
    ensures LeaderSent(t, m)
  {
    var r :| r in s.net && r.TransferMsg? && r.id == m.id && (r.dst, r.vid) in s.base;
    assert r in t.net;
  }

  lemma RoundRecords(s: State, e: Event)
    requires Enabled(s, e) && OfRounds(e)
    ensures var t := Next(s, e); t.base == s.base && t.roles == s.roles && t.adopted == s.adopted
  {
    hide ViewText.Without;
  }

  lemma SyncRecords(s: State, e: Event)
    requires Enabled(s, e) && !OfRounds(e) && !e.StartSync?
    ensures var t := Next(s, e);
            && t.base == s.base && t.roles == s.roles
            && t.adopted == (if e.GotTransfer? then s.adopted + {(e.p, s.nodes[e.p].rep.vidInsync)} else s.adopted)
  {
    hide EraseFirst, CommitChange;
  }

  /** What the records may gain in one step. */
  lemma NextRecords(s: State, e: Event)
    requires Enabled(s, e) && !e.StartSync?
    ensures var t := Next(s, e);
            && t.base == s.base && t.roles == s.roles
            && t.adopted == (if e.GotTransfer? then s.adopted + {(e.p, s.nodes[e.p].rep.vidInsync)} else s.adopted)
  {
    hide Next;
    if OfRounds(e) { RoundRecords(s, e); } else { SyncRecords(s, e); }
  }

  lemma StartRecords(s: State, p: string)
    requires Enabled(s, StartSync(p)) && s.nodes[p].rep.me == p
    ensures var t, k := Next(s, StartSync(p)), (p, s.nodes[p].rep.vidCommit);
            && t.net == s.net && t.roles == s.roles[k := s.nodes[p].rep.primary]
            && (IsPrimary(s.nodes[p]) ==>
                  && t.adopted == s.adopted + {k}
                  && t.base == s.base[k := Snap(s.nodes[p].rep.hist, s.nodes[p].rep.lastvs, s.nodes[p].from)])
            && (!IsPrimary(s.nodes[p]) ==> t.base == s.base && t.adopted == s.adopted)
  {
    hide ViewText.Without;
  }

  lemma NextAnswer(s: State, e: Event, m: Msg)
    requires Enabled(s, e) && m in Next(s, e).net && m.TransferRes? && m !in s.net
    ensures e.RecvTransfer? && m.id == e.m.id && HandleTransfer(s.nodes[e.m.dst].rep, e.m.last, e.m.vid).Some?
  {
    hide ViewText.Without, EraseFirst, CommitChange;
  }

  lemma NetOnlyGrows(s: State, e: Event)
    requires Enabled(s, e)
    ensures s.net <= Next(s, e).net
  {
    hide ViewText.Without, EraseFirst, CommitChange;
  }

  lemma LedAfterStart(s: State, p: string)
    requires Inv(s) && Led(s) && Enabled(s, StartSync(p))
    ensures Led(Next(s, StartSync(p)))
  {
    hide HistOk, LeadFits, ExecsOk, NetOk, RoundsOk, LeaderSent, BaseOk, RoleOk, AdoptOk, FinishedOk, Next;
    var t, v := Next(s, StartSync(p)), s.nodes[p].rep.vidCommit;
    assert FlagsOk(s, p);
    StartIsNew(s, p);
    StartRecords(s, p);
    hide FlagsOk;
    forall m | m in t.net && m.TransferRes? ensures LeaderSent(t, m) { LeaderSentStays(s, t, m); }
  }

  lemma LedStays(s: State, e: Event)
    requires Inv(s) && Led(s) && Enabled(s, e) && FromLeader(s, e)
    ensures Led(Next(s, e))
  {
    hide Next, Inv, LeaderSent, FromLeader, HandleTransfer;
    if e.StartSync? {
      LedAfterStart(s, e.p);
    } else {
      var t := Next(s, e);
      NextRecords(s, e);
      NetOnlyGrows(s, e);
      forall m | m in t.net && m.TransferRes? ensures LeaderSent(t, m) {
        if m in s.net {
          LeaderSentStays(s, t, m);
        } else {
          NextAnswer(s, e, m);
          InvGives(s, e.m.dst);
          LeaderAnswers(s, t, e.m, m);
        }
      }
      if e.GotTransfer? {
        assert FlagsOk(s, e.p) && NetOk(s) by { InvGives(s, e.p); }
        FollowsLeader(s, e.p, e.m);
      }
    }
  }

  lemma InvGives(s: State, p: string)
    requires Inv(s) && p in s.nodes
    ensures FlagsOk(s, p) && NetOk(s) && RecordsOk(s)
  {
    hide FlagsOk, HistOk, LeadFits, ExecsOk, NetOk, RoundsOk, RecordsOk;
    assert FlagsOk(s, p);
  }

  lemma LeaderAnswers(s: State, t: State, r: Msg, m: Msg)
    requires Enabled(s, RecvTransfer(r)) && FromLeader(s, RecvTransfer(r)) && m.TransferRes? && m.id == r.id
    requires FlagsOk(s, r.dst) && RecordsOk(s)
    requires HandleTransfer(s.nodes[r.dst].rep, r.last, r.vid).Some? && s.net <= t.net && t.base == s.base
    ensures LeaderSent(t, m)
  {
    hide RecordsOk;
    LeaderHasBase(s, r.dst);
    assert r in t.net;
  }

  /** The reply a follower waits for came from the node it follows, which leads. */
  lemma FollowsLeader(s: State, p: string, m: Msg)
    requires Enabled(s, GotTransfer(p, m)) && FlagsOk(s, p) && NetOk(s) && LeaderSent(s, m)
    ensures var k := (p, s.nodes[p].rep.vidInsync); k in s.roles && (s.roles[k], k.1) in s.base
  {
    hide MsgOk;
    var n := s.nodes[p];
    var r :| r in s.net && r.TransferMsg? && r.id == m.id && (r.dst, r.vid) in s.base;
    assert r == TransferMsg(m.id, p, n.role.m, n.rep.lastvs, n.rep.vidInsync);
  }

  // ----- what was skipped acknowledged nothing -----

  ghost predicate Left(s: State, m: string, u: nat) {
    m in s.nodes && m in ViewAt(s, u) && s.nodes[m].rep.vidCommit > u
  }

  ghost predicate SomeLeft(s: State, u: nat) {
    exists m :: Left(s, m, u)
  }

  /** A view some node has gone past was left by one of its own members. */
  ghost predicate Spread(s: State) {
    forall p, u | p in s.nodes && 1 <= u < s.nodes[p].rep.vidCommit :: SomeLeft(s, u)
  }

  /** A member left view u without executing anything there and without a round there. */
  ghost predicate Idled(s: State, m: string, u: nat) {
    && Left(s, m, u)
    && (forall x | x in s.execs && x.node == m :: x.vs.vid != u)
    && (s.nodes[m].round.Some? ==> s.nodes[m].rep.myvs.vid != u)
  }

  ghost predicate SomeIdled(s: State, u: nat) {
    exists m :: Idled(s, m, u)
  }

  /** Between a starting state and the one it came from, no view acknowledged anything. */
  ghost predicate GapsClosed(s: State) {
    forall m, v, u | (m, v) in s.base && s.base[(m, v)].parent < u < v :: SomeIdled(s, u)
  }

  lemma NextExecs(s: State, e: Event, x: Exec)
    requires Enabled(s, e) && x in Next(s, e).execs && x !in s.execs
    ensures x.node in s.nodes && x.vs == s.nodes[x.node].rep.myvs
    ensures !s.nodes[x.node].rep.inviewchange || s.nodes[x.node].round.Some?
  {
    hide ViewText.Without, EraseFirst, CommitChange;
  }

  lemma RoundRound(s: State, e: Event, m: string)
    requires Enabled(s, e) && m in s.nodes && OfRounds(e) && m in Next(s, e).nodes
    ensures Next(s, e).nodes[m].round.Some? ==>
              && (s.nodes[m].round.Some? || (e.ClientInvoke? && e.p == m))
              && Next(s, e).nodes[m].rep.myvs == s.nodes[m].rep.myvs
  {
    hide ViewText.Without;
  }

  lemma SyncRound(s: State, e: Event, m: string)
    requires Enabled(s, e) && m in s.nodes && !OfRounds(e) && FlagsOk(s, m) && m in Next(s, e).nodes
    ensures Next(s, e).nodes[m].round == s.nodes[m].round
    ensures s.nodes[m].round.Some? ==> Next(s, e).nodes[m].rep.myvs == s.nodes[m].rep.myvs
  {
    hide ViewText.Without, EraseFirst, CommitChange;
    if e.CommitView? { CommitChanges(s.nodes[e.p].rep, e.v, ViewAt(s, e.v - 1), ViewAt(s, e.v)); }
  }

  lemma NextRound(s: State, e: Event, m: string)
    requires Enabled(s, e) && m in s.nodes && FlagsOk(s, m)
    ensures m in Next(s, e).nodes
    ensures Next(s, e).nodes[m].round.Some? ==>
              && (s.nodes[m].round.Some? || (e.ClientInvoke? && e.p == m))
              && Next(s, e).nodes[m].rep.myvs == s.nodes[m].rep.myvs
  {
    hide Next, Enabled, FlagsOk;
    SameNodes(s, e);
    if OfRounds(e) { RoundRound(s, e, m); } else { SyncRound(s, e, m); }
  }

  lemma NextVid(s: State, e: Event, m: string)
    requires Enabled(s, e) && m in s.nodes
    ensures m in Next(s, e).nodes && Next(s, e).views == s.views
    ensures e.CommitView? && e.p == m ==> Next(s, e).nodes[m].rep.vidCommit == e.v > s.nodes[m].rep.vidCommit
    ensures !(e.CommitView? && e.p == m) ==> Next(s, e).nodes[m].rep.vidCommit == s.nodes[m].rep.vidCommit
  {
    SameViews(s, e);
    NextNames(s, e, m);
    if e.CommitView? && e.p == m { CommitsTo(s, e); }
    hide Next;
  }

  lemma LeftStays(s: State, e: Event, m: string, u: nat)
    requires Enabled(s, e) && Left(s, m, u)
    ensures Left(Next(s, e), m, u)
  {
    hide Next, Enabled;
    NextVid(s, e, m);
  }

  lemma IdledStays(s: State, e: Event, m: string, u: nat)
    requires Inv(s) && Enabled(s, e) && Ready(s, e) && Idled(s, m, u)
    ensures Idled(Next(s, e), m, u)
  {
    hide Next, Enabled, HistOk, ExecOk, MsgOk, BaseOk, RoleOk, AdoptOk, FinishedOk, LeadFits, RoundFits;
    var t := Next(s, e);
    assert FlagsOk(s, m);
    LeftStays(s, e, m, u);
    NextRound(s, e, m);
    forall x | x in t.execs && x.node == m ensures x.vs.vid != u {
      if x !in s.execs { NextExecs(s, e, x); }
    }
  }

  lemma JustLeft(s: State, e: Event, u: nat)
    requires Spread(s) && e.CommitView? && Enabled(s, e) && Informed(s, e)
    requires s.nodes[e.p].rep.vidCommit <= u < e.v && u >= 1
    ensures SomeLeft(Next(s, e), u)
  {
    hide Next, CommitChange;
    if m :| m in s.nodes && s.nodes[m].rep.vidCommit >= e.v {
      assert SomeLeft(s, u);
      var l :| Left(s, l, u);
      LeftStays(s, e, l, u);
    } else {
      NextVid(s, e, e.p);
      assert Left(Next(s, e), e.p, u);
    }
  }

  lemma SpreadStays(s: State, e: Event)
    requires Spread(s) && Enabled(s, e) && Informed(s, e)
    ensures Spread(Next(s, e))
  {
    hide Next, CommitChange, Informed;
    var t := Next(s, e);
    SameNodes(s, e);
    forall p, u | p in t.nodes && 1 <= u < t.nodes[p].rep.vidCommit ensures SomeLeft(t, u) {
      NextVid(s, e, p);
      if u < s.nodes[p].rep.vidCommit {
        assert SomeLeft(s, u);
        var m :| Left(s, m, u);
        LeftStays(s, e, m, u);
      } else {
        JustLeft(s, e, u);
      }
    }
  }

  lemma {:induction false} GreatestBelow(f: set<nat>, v: nat) returns (g: nat)
    requires exists x :: x in f && x < v
    ensures g in f && g < v && forall x | x in f && x < v :: x <= g
    decreases v
  {
    if v - 1 in f {
      g := v - 1;
    } else {
      g := GreatestBelow(f, v - 1);
    }
  }

  /** A prepared leader's state goes back to the last finished view or a later one. */
  lemma NothingMissed(s: State, p: string, u: nat)
    requires RecordsOk(s) && Enabled(s, StartSync(p)) && IsPrimary(s.nodes[p]) && Prepared(s, StartSync(p))
    requires s.nodes[p].from < u < s.nodes[p].rep.vidCommit
    ensures u !in s.finished
  {
    hide BaseOk, RoleOk;
    var v := s.nodes[p].rep.vidCommit;
    if exists x :: x in s.finished.Keys && x < v {
      var f := GreatestBelow(s.finished.Keys, v);
      assert FinishedOk(s, f) && Joined(s, p, f, s.finished[f]);
      assert AdoptOk(s, p, f);
    }
  }

  lemma UnfinishedIsIdle(s: State, m: string, u: nat)
    requires ExecsOk(s) && RoundsOk(s) && Left(s, m, u) && u !in s.finished
    ensures Idled(s, m, u)
  {
    hide Slaves, Did;
    forall x | x in s.execs ensures x.vs.vid != u { assert ExecOk(s, x); }
    if s.nodes[m].round.Some? { assert RoundFits(s, m); }
  }

  lemma NewGapsClosed(s: State, p: string, u: nat)
    requires p in s.nodes && ExecsOk(s) && RoundsOk(s) && RecordsOk(s) && Spread(s)
    requires Enabled(s, StartSync(p)) && IsPrimary(s.nodes[p]) && Prepared(s, StartSync(p))
    requires s.nodes[p].from < u < s.nodes[p].rep.vidCommit
    ensures SomeIdled(s, u)
  {
    hide ExecsOk, RoundsOk, RecordsOk, Idled, Enabled, Prepared;
    NothingMissed(s, p, u);
    assert SomeLeft(s, u);
    var m :| Left(s, m, u);
    UnfinishedIsIdle(s, m, u);
  }

  /** Only a leader that starts a sync adds a starting state. */
  lemma NextBase(s: State, e: Event, m: string, v: nat)
    requires Enabled(s, e) && (m, v) in Next(s, e).base && (e.StartSync? ==> s.nodes[e.p].rep.me == e.p)
    ensures ((m, v) in s.base && Next(s, e).base[(m, v)] == s.base[(m, v)]) ||
            (e.StartSync? && IsPrimary(s.nodes[e.p]) && m == e.p && v == s.nodes[e.p].rep.vidCommit
             && Next(s, e).base[(m, v)].parent == s.nodes[e.p].from)
  {
    if e.StartSync? { StartRecords(s, e.p); } else { NextRecords(s, e); }
    hide Next;
  }

  lemma GapsStay(s: State, e: Event)
    requires Inv(s) && Spread(s) && GapsClosed(s)
    requires Enabled(s, e) && Ready(s, e) && Prepared(s, e)
    ensures GapsClosed(Next(s, e))
  {
    hide Next, Spread, Prepared, Idled, Ready, FlagsOk, HistOk, LeadFits, ExecsOk, NetOk, RoundsOk, RecordsOk;
    var t := Next(s, e);
    assert e.StartSync? ==> s.nodes[e.p].rep.me == e.p by {
      if e.StartSync? { OwnName(s, e.p); }
    }
    forall m, v, u | (m, v) in t.base && t.base[(m, v)].parent < u < v ensures SomeIdled(t, u) {
      NextBase(s, e, m, v);
      if !((m, v) in s.base && t.base[(m, v)] == s.base[(m, v)]) { NewGapsClosed(s, e.p, u); }
      assert SomeIdled(s, u);
      var l :| Idled(s, l, u);
      IdledStays(s, e, l, u);
    }
  }

  lemma OwnName(s: State, p: string)
    requires NodesOk(s) && p in s.nodes
    ensures s.nodes[p].rep.me == p
  {
    hide HistOk, LeadFits;
    assert FlagsOk(s, p);
  }

  // ----- the theorems -----

  lemma {:induction false} GoodRunKeeps(s: State, es: seq<Event>)
    requires Inv(s) && Led(s) && Spread(s) && GapsClosed(s) && GoodRun(s, es)
    ensures AnyRun(s, es) && Inv(After(s, es)) && Led(After(s, es)) && GapsClosed(After(s, es))
    decreases |es|
  {
    hide Inv, Led, Spread, GapsClosed, Next, Enabled, Ready, Drained, FromLeader, Informed, Prepared;
    if es == [] {
    } else {
      StepKeepsInv(s, es[0]);
      LedStays(s, es[0]);
      SpreadStays(s, es[0]);
      GapsStay(s, es[0]);
      GoodRunKeeps(Next(s, es[0]), es[1..]);
    }
  }

  lemma MemberDid(s: State, x: Exec, m: string)
    requires ExecsOk(s) && Acked(s, x) && m in ViewAt(s, x.vs.vid)
    ensures exists y :: y in s.execs && y.node == m && y.vs == x.vs && y.req == x.req
  {
    hide Slaves;
    assert ExecOk(s, x);
    SlavesAre(s, x.vs.vid);
    if m != x.node { assert Did(s, m, x.vs, x.req); }
  }

  /** An acknowledged request is in what any leader starts any later view from. */
  lemma {:induction false} AckedInBase(s: State, x: Exec, m: string, v: nat)
    requires ExecsOk(s) && RecordsOk(s) && Led(s) && GapsClosed(s)
    requires Acked(s, x) && (m, v) in s.base && x.vs.vid < v
    ensures Entry(x.vs, x.req) in s.base[(m, v)].hist
    decreases v
  {
    hide ExecOk, FinishedOk, Slaves, Did, StateOf, AdoptOk, LeaderSent;
    assert BaseOk(s, m, v);
    var u, h := x.vs.vid, s.base[(m, v)].parent;
    if u > h {
      assert SomeIdled(s, u);
      var l :| Idled(s, l, u);
      MemberDid(s, x, l);
      assert false;
    } else {
      AckedStamped(s, x);
      if u == h {
        assert RoleOk(s, m, h);
        MemberDid(s, x, m);
      } else {
        AckedInBase(s, x, s.roles[(m, h)], h);
      }
    }
  }

  lemma AckedStamped(s: State, x: Exec)
    requires ExecsOk(s) && x in s.execs
    ensures x.vs.vid >= 1
  {
    hide Slaves, Did;
    assert ExecOk(s, x);
  }

  ghost predicate GoodReached(views: seq<seq<string>>, names: set<string>, es: seq<Event>, s: State) {
    && views != [] && views[0] != [] && GoodRun(Init(views, names), es) && AnyRun(Init(views, names), es)
    && s == After(Init(views, names), es)
  }

  lemma GoodReachedInv(views: seq<seq<string>>, names: set<string>, es: seq<Event>, s: State)
    requires GoodReached(views, names, es, s)
    ensures Inv(s) && Led(s) && GapsClosed(s)
  {
    InitHolds(views, names);
    var s0 := Init(views, names);
    assert Led(s0) && Spread(s0) && GapsClosed(s0);
    GoodRunKeeps(s0, es);
  }

  /** Every request answered OK is in the state of every replica whose state goes back to a later
      view. */
  lemma AckedSurvives(views: seq<seq<string>>, names: set<string>, es: seq<Event>, s: State, x: Exec, p: string)
    requires GoodReached(views, names, es, s) && Acked(s, x)
    requires p in s.nodes && s.nodes[p].from > x.vs.vid
    ensures Entry(x.vs, x.req) in s.nodes[p].rep.hist
  {
    hide GoodReached, ExecsOk, NetOk, RoundsOk, RecordsOk, LeadFits, HistOk, LeaderSent;
    GoodReachedInv(views, names, es, s);
    assert FlagsOk(s, p) && HistOk(s, p);
    AckedInBase(s, x, s.roles[(p, s.nodes[p].from)], s.nodes[p].from);
    NodeExtendsBase(s, p);
  }

  /** So it is in the state of every member of every later view that finished syncing. */
  lemma AckedInLaterViews(views: seq<seq<string>>, names: set<string>, es: seq<Event>,
                          s: State, x: Exec, v: nat, b: string)
    requires GoodReached(views, names, es, s) && Acked(s, x)
    requires v in s.finished && v > x.vs.vid && b in ViewAt(s, v)
    ensures b in s.nodes && Entry(x.vs, x.req) in s.nodes[b].rep.hist
  {
    hide GoodReached, ExecsOk, NetOk, RoundsOk, NodesOk, BaseOk, RoleOk, Acked, Led, GapsClosed;
    GoodReachedInv(views, names, es, s);
    assert FinishedOk(s, v) && Joined(s, b, v, s.finished[v]);
    assert AdoptOk(s, b, v);
    AckedSurvives(views, names, es, s, x, b);
  }
}
