/** What holds in every run of the replicated state machine in which requests reach only ready
    primaries, whichever nodes the members of a view take for its primary. */
module RsmTheorems {
  import opened Rsm
  import opened RsmSystem
  import opened RsmInvariant
  import opened RsmSteps

  ghost predicate Reached(views: seq<seq<string>>, names: set<string>, es: seq<Event>, s: State) {
    && views != [] && views[0] != [] && ReadyRun(Init(views, names), es) && AnyRun(Init(views, names), es)
    && s == After(Init(views, names), es)
  }

  lemma ReachedInv(views: seq<seq<string>>, names: set<string>, es: seq<Event>, s: State)
    requires Reached(views, names, es, s)
    ensures Inv(s)
  {
    InitHolds(views, names);
    RunKeepsInv(Init(views, names), es);
  }

  /** Replicas that executed a request under the same viewstamp executed the same request in the
      same state, although failed rounds leave the stamp to be used again. */
  lemma StampsAgree(views: seq<seq<string>>, names: set<string>, es: seq<Event>, s: State, x: Exec, y: Exec)
    requires Reached(views, names, es, s) && x in s.execs && y in s.execs && x.vs == y.vs
    ensures x.req == y.req && x.before == y.before
  {
    hide Reached, ExecOk, MsgOk, FlagsOk, HistOk, BaseOk, RoleOk, AdoptOk, FinishedOk;
    ReachedInv(views, names, es, s);
    SameStampSameRequest(s, x, y);
    SameStampSameState(s, x, y);
    assert x.before == AfterExec(x)[..|x.before|] && y.before == AfterExec(y)[..|y.before|];
  }

  /** Replicas whose last stamps are equal hold the same state, so a transfer may skip it. */
  lemma EqualStampsEqualStates(views: seq<seq<string>>, names: set<string>, es: seq<Event>,
                                s: State, p: string, q: string)
    requires Reached(views, names, es, s) && p in s.nodes && q in s.nodes
    requires s.nodes[p].rep.lastvs == s.nodes[q].rep.lastvs
    ensures s.nodes[p].rep.hist == s.nodes[q].rep.hist
  {
    hide Reached, ExecOk, MsgOk, FlagsOk, HistOk, BaseOk, StateOf;
    ReachedInv(views, names, es, s);
    assert HistOk(s, p) && HistOk(s, q);
    NodeStateOf(s, p);
    NodeStateOf(s, q);
    StampFixesState(s, s.nodes[p].rep.hist, s.nodes[q].rep.hist, s.nodes[p].rep.lastvs);
  }

  /** A view is finished by one node at most, which led it, and every member synced it with that node. */
  lemma OneLeaderFinishes(views: seq<seq<string>>, names: set<string>, es: seq<Event>, s: State, p: string, b: string)
    requires Reached(views, names, es, s) && Enabled(s, EndSync(p)) && b in ViewAt(s, s.nodes[p].rep.vidCommit)
    ensures var v := s.nodes[p].rep.vidCommit;
            && v !in s.finished && Joined(s, b, v, p)
            && (b != p && b in s.nodes ==> !(s.nodes[b].role.Lead? && s.nodes[b].rep.vidInsync == v))
  {
    hide Reached, ExecsOk, NetOk, RecordsOk, FlagsOk, HistOk, LeadFits;
    ReachedInv(views, names, es, s);
    assert FlagsOk(s, p) && LeadFits(s, p);
    NotYetFinished(s, p);
    MembersSynced(s, p, b);
    if b in s.nodes && b != p {
      assert FlagsOk(s, b);
      LeadersDiffer(s, p, b);
    }
  }

  lemma LeadersDiffer(s: State, p: string, b: string)
    requires p in s.nodes && b in s.nodes && FlagsOk(s, b) && Joined(s, b, s.nodes[p].rep.vidCommit, p) && b != p
    ensures !(s.nodes[b].role.Lead? && s.nodes[b].rep.vidInsync == s.nodes[p].rep.vidCommit)
  {
  }

  /** When a leader leaves the view change for view v, every other member of v holds its state and its
      last stamp, unless it has already committed a later view. */
  lemma SyncIsComplete(views: seq<seq<string>>, names: set<string>, es: seq<Event>, s: State, p: string, b: string)
    requires Reached(views, names, es, s) && Enabled(s, EndSync(p))
    requires b in ViewAt(s, s.nodes[p].rep.vidCommit)
    ensures b in s.nodes && s.nodes[b].rep.vidCommit >= s.nodes[p].rep.vidCommit
    ensures s.nodes[b].rep.vidCommit == s.nodes[p].rep.vidCommit ==>
              s.nodes[b].rep.hist == s.nodes[p].rep.hist && s.nodes[b].rep.lastvs == s.nodes[p].rep.lastvs
  {
    hide Reached, ExecOk, MsgOk, FlagsOk, HistOk, BaseOk, RoleOk, AdoptOk, FinishedOk, LeadFits;
    ReachedInv(views, names, es, s);
    assert FlagsOk(s, p) && HistOk(s, p) && LeadFits(s, p);
    MembersSynced(s, p, b);
    var v := s.nodes[p].from;
    AdopterExists(s, b, v);
    assert FlagsOk(s, b) && HistOk(s, b);
    NotYetFinished(s, p);
    LeaderHasBase(s, p);
    MemberState(s, p, p, v);
    if s.nodes[b].rep.vidCommit == v { MemberState(s, b, p, v); }
    BackupReached(s, b, v);
  }

  lemma MembersSynced(s: State, p: string, b: string)
    requires p in s.nodes && FlagsOk(s, p) && LeadFits(s, p) && Enabled(s, EndSync(p))
    requires b in ViewAt(s, s.nodes[p].rep.vidCommit)
    ensures Joined(s, b, s.nodes[p].from, p) && s.nodes[p].from == s.nodes[p].rep.vidCommit
  {
  }

  lemma AdopterExists(s: State, b: string, v: nat)
    requires RecordsOk(s) && (b, v) in s.adopted
    ensures b in s.nodes && AdoptOk(s, b, v)
  {
    hide BaseOk, FinishedOk, RoleOk;
  }

  lemma BackupReached(s: State, b: string, v: nat)
    requires b in s.nodes && FlagsOk(s, b) && AdoptOk(s, b, v)
    ensures s.nodes[b].rep.vidCommit >= v
  {
  }

  /** A node that synced an unfinished view with its leader still holds what the leader started from. */
  lemma MemberState(s: State, b: string, m: string, v: nat)
    requires b in s.nodes && FlagsOk(s, b) && HistOk(s, b) && AdoptOk(s, b, v) && ExecsOk(s)
    requires Joined(s, b, v, m) && (m, v) in s.base && s.nodes[b].rep.vidCommit == v && v !in s.finished
    ensures AtBase(s, s.nodes[b].rep, m, v)
  {
    hide Slaves, Did, StateOf;
    forall x | x in s.execs ensures x.vs.vid != v { assert ExecOk(s, x); }
  }

  // ----- exactly which acknowledged requests a state holds -----

  /** The node that finished the view executed it: the client was answered OK. */
  ghost predicate Acked(s: State, x: Exec) {
    x in s.execs && x.vs.vid in s.finished && x.node == s.finished[x.vs.vid]
  }

  /** The state holds every request acknowledged in a view below v. */
  ghost predicate Holds(s: State, hist: seq<Entry>, v: nat) {
    forall x | Acked(s, x) && x.vs.vid < v :: Entry(x.vs, x.req) in hist
  }

  /** No request was acknowledged after stamp `last` and below view v, and so on down: none between
      the stamp that the view of `last` was started from and that view. */
  ghost predicate NothingSkipped(s: State, last: Viewstamp, v: nat)
    decreases last.vid
  {
    && (forall x | Acked(s, x) && x.vs.vid < v :: !Later(x.vs, last))
    && (last.vid in s.finished && (s.finished[last.vid], last.vid) in s.base ==>
          var from := s.base[(s.finished[last.vid], last.vid)].last;
          from.vid < last.vid ==> NothingSkipped(s, from, last.vid))
  }

  lemma {:induction false} KeptExactlyWhen(s: State, hist: seq<Entry>, last: Viewstamp, v: nat)
    requires ExecsOk(s) && RecordsOk(s) && StateOf(s, hist, last) && last.vid < v
    ensures Holds(s, hist, v) <==> NothingSkipped(s, last, v)
    decreases last.vid
  {
    hide ExecOk, BaseOk, RoleOk, AdoptOk, FinishedOk, AfterExec, Holds, NothingSkipped;
    StampsBelow(s, hist, last);
    if x :| x in s.execs && x.vs == last && hist == AfterExec(x) {
      StampsOf(s, x);
      ExtendsBase(s, x);
      var f := last.vid;
      var b := s.base[(s.finished[f], f)];
      assert StateOf(s, b.hist, b.last) && b.last.vid < f by { StartsBelow(s, s.finished[f], f); }
      KeptExactlyWhen(s, b.hist, b.last, f);
      StepKept(s, x, v, b);
    } else {
      NothingYet(s, v);
    }
  }

  lemma StartsBelow(s: State, m: string, v: nat)
    requires RecordsOk(s) && (m, v) in s.base
    ensures StateOf(s, s.base[(m, v)].hist, s.base[(m, v)].last) && s.base[(m, v)].last.vid < v
  {
    hide RoleOk, AdoptOk, FinishedOk, StateOf, ExtendsParent;
    assert BaseOk(s, m, v);
  }

  lemma StepKept(s: State, x: Exec, v: nat, b: Snap)
    requires ExecsOk(s) && x in s.execs && x.vs.vid < v && x.vs.vid in s.finished
    requires (s.finished[x.vs.vid], x.vs.vid) in s.base && b == s.base[(s.finished[x.vs.vid], x.vs.vid)]
    requires b.last.vid < x.vs.vid && b.hist <= x.before
    requires forall e | e in AfterExec(x) :: !Later(e.vs, x.vs) && (e.vs.vid < x.vs.vid ==> e in b.hist)
    requires Holds(s, b.hist, x.vs.vid) <==> NothingSkipped(s, b.last, x.vs.vid)
    ensures Holds(s, AfterExec(x), v) <==> NothingSkipped(s, x.vs, v)
  {
    hide ExecOk;
    if NothingSkipped(s, x.vs, v) {
      forall y | Acked(s, y) && y.vs.vid < v ensures Entry(y.vs, y.req) in AfterExec(x) {
        if y.vs.vid == x.vs.vid { HoldsEarlier(s, y, x); } else { assert Entry(y.vs, y.req) in b.hist; }
      }
    }
    if Holds(s, AfterExec(x), v) {
      forall y | Acked(s, y) && y.vs.vid < v ensures !Later(y.vs, x.vs) {
        assert Entry(y.vs, y.req) in AfterExec(x);
      }
      forall y | Acked(s, y) && y.vs.vid < x.vs.vid ensures Entry(y.vs, y.req) in b.hist {
        assert Entry(y.vs, y.req) in AfterExec(x);
      }
      assert Holds(s, b.hist, x.vs.vid);
    }
  }

  lemma NothingYet(s: State, v: nat)
    requires ExecsOk(s) && RecordsOk(s)
    ensures Holds(s, [], v) <==> NothingSkipped(s, Vs(0, 0), v)
  {
    hide Slaves, Did, BaseOk, RoleOk, AdoptOk, FinishedOk;
    forall x | Acked(s, x) ensures x.vs.vid >= 1 { assert ExecOk(s, x); }
    assert forall x | Acked(s, x) && x.vs.vid < v :: Later(x.vs, Vs(0, 0));
    assert NothingSkipped(s, Vs(0, 0), v) <==> forall x | Acked(s, x) :: x.vs.vid >= v;
    assert Holds(s, [], v) <==> forall x | Acked(s, x) :: x.vs.vid >= v;
  }

  /** For every state of every replica and every later view, with no assumption on which nodes lead
      or answer transfers: the state holds all requests acknowledged below that view if and only if
      none was skipped. */
  lemma StateKeepsExactlyWhen(views: seq<seq<string>>, names: set<string>, es: seq<Event>, s: State, p: string, v: nat)
    requires Reached(views, names, es, s) && p in s.nodes && s.nodes[p].rep.lastvs.vid < v
    ensures Holds(s, s.nodes[p].rep.hist, v) <==> NothingSkipped(s, s.nodes[p].rep.lastvs, v)
  {
    hide Reached, ExecsOk, RecordsOk, FlagsOk, HistOk, LeadFits, StateOf;
    ReachedInv(views, names, es, s);
    assert HistOk(s, p);
    NodeStateOf(s, p);
    KeptExactlyWhen(s, s.nodes[p].rep.hist, s.nodes[p].rep.lastvs, v);
  }

  /** The same for what a leader starts a view from. */
  lemma BaseKeepsExactlyWhen(views: seq<seq<string>>, names: set<string>, es: seq<Event>, s: State, m: string, v: nat)
    requires Reached(views, names, es, s) && (m, v) in s.base
    ensures Holds(s, s.base[(m, v)].hist, v) <==> NothingSkipped(s, s.base[(m, v)].last, v)
  {
    hide Reached, ExecsOk, RecordsOk, StateOf;
    ReachedInv(views, names, es, s);
    StartsBelow(s, m, v);
    KeptExactlyWhen(s, s.base[(m, v)].hist, s.base[(m, v)].last, v);
  }
}
