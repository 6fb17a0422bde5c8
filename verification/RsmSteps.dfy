/** Every step of the replicated state machine keeps its invariant while requests reach only ready
    primaries and followers start without a round. */
module RsmSteps {
  import opened Options
  import opened Rsm
  import opened RsmSystem
  import opened RsmInvariant
  import ViewText

  // ----- what no step undoes -----

  predicate NodeGrows(a: Node, b: Node) {
    && a.rep.vidCommit <= b.rep.vidCommit && a.rep.vidInsync <= b.rep.vidInsync && a.from <= b.from
    && (b.rep.myvs == a.rep.myvs || Later(b.rep.myvs, a.rep.myvs))
  }

  ghost predicate RecordsGrow(s: State, t: State) {
    && s.execs <= t.execs && s.adopted <= t.adopted
    && (forall k | k in s.base :: k in t.base && t.base[k] == s.base[k])
    && (forall k | k in s.roles :: k in t.roles && t.roles[k] == s.roles[k] && (k in t.base ==> k in s.base))
    && (forall v | v in s.finished :: v in t.finished && t.finished[v] == s.finished[v])
  }

  ghost predicate Grows(s: State, t: State) {
    && t.views == s.views && t.nodes.Keys == s.nodes.Keys && s.nextId <= t.nextId && s.net <= t.net
    && RecordsGrow(s, t)
    && (forall p | p in s.nodes :: NodeGrows(s.nodes[p], t.nodes[p]))
  }

  lemma DidGrows(s: State, t: State, b: string, vs: Viewstamp, req: string)
    requires s.execs <= t.execs && Did(s, b, vs, req)
    ensures Did(t, b, vs, req)
  {
    var x :| x in s.execs && x.node == b && x.vs == vs && x.req == req;
    assert x in t.execs;
  }

  lemma StateOfGrows(s: State, t: State, hist: seq<Entry>, last: Viewstamp)
    requires s.execs <= t.execs && StateOf(s, hist, last)
    ensures StateOf(t, hist, last)
  {
    if x :| x in s.execs && x.vs == last && hist == AfterExec(x) {
      assert x in t.execs;
    }
  }

  lemma SlavesSame(s: State, t: State, v: nat)
    requires t.views == s.views && v in s.finished && v in t.finished && t.finished[v] == s.finished[v]
    ensures Slaves(t, v) == Slaves(s, v) && ViewAt(t, v) == ViewAt(s, v)
  {
  }

  lemma ExecOkGrows(s: State, t: State, x: Exec)
    requires Grows(s, t) && x in s.execs && ExecOk(s, x)
    ensures ExecOk(t, x)
  {
    hide Slaves, Did;
    var v := x.vs.vid;
    SlavesSame(s, t, v);
    assert NodeGrows(s.nodes[x.node], t.nodes[x.node]);
    if x.node == s.finished[v] {
      forall b | b in Slaves(t, v) ensures Did(t, b, x.vs, x.req) {
        DidGrows(s, t, b, x.vs, x.req);
      }
    } else {
      DidGrows(s, t, Slaves(s, v)[0], x.vs, x.req);
    }
    if x.vs.seqno > 1 {
      var y :| y in s.execs && y.node == x.node && y.vs == Vs(v, x.vs.seqno - 1) && x.before == AfterExec(y);
      assert y in t.execs;
    }
  }

  lemma InvokeOkGrows(s: State, t: State, m: Msg)
    requires Grows(s, t) && m.InvokeMsg? && MsgOk(s, m)
    ensures MsgOk(t, m)
  {
    hide Slaves, Did;
    SlavesSame(s, t, m.vs.vid);
    var L := Slaves(s, m.vs.vid);
    var j :| 0 <= j < |L| && L[j] == m.dst && forall i | 0 <= i < j :: Did(s, L[i], m.vs, m.req);
    forall i | 0 <= i < j ensures Did(t, L[i], m.vs, m.req) {
      DidGrows(s, t, L[i], m.vs, m.req);
    }
  }

  lemma AnswersGrows(s: State, t: State, r: Msg, a: Transfer)
    requires Grows(s, t) && r.TransferMsg? && Answers(s, r, a)
    ensures Answers(t, r, a)
  {
    hide StateOf;
    if a.state.Some? { StateOfGrows(s, t, a.state.value, a.last); }
  }

  lemma MsgOkGrows(s: State, t: State, m: Msg)
    requires Grows(s, t) && MsgOk(s, m)
    ensures MsgOk(t, m)
  {
    hide Slaves, Did, Answers;
    match m
    case InvokeMsg(_, _, _, _, _) => InvokeOkGrows(s, t, m);
    case InvokeOk(id) =>
      var r :| r in s.net && r.InvokeMsg? && r.id == id && Did(s, r.dst, r.vs, r.req);
      DidGrows(s, t, r.dst, r.vs, r.req);
      assert r in t.net;
    case TransferMsg(_, _, _, _, _) =>
    case TransferRes(id, tr) =>
      var r :| r in s.net && r.TransferMsg? && r.id == id && Answers(s, r, tr);
      AnswersGrows(s, t, r, tr);
      assert r in t.net;
    case DoneMsg(_, _, _, _) =>
    case DoneOk(_) =>
  }

  /** No execution after s is by the leader of a view in the view its state came from. */
  ghost predicate ParentsClosed(s: State, t: State) {
    forall x, m, v | x in t.execs && x !in s.execs && (m, v) in s.base ::
      !(x.node == m && x.vs.vid == s.base[(m, v)].parent)
  }

  lemma BaseOkGrows(s: State, t: State, m: string, v: nat)
    requires Grows(s, t) && (m, v) in s.base && BaseOk(s, m, v) && ParentsClosed(s, t)
    ensures BaseOk(t, m, v)
  {
    hide StateOf;
    var b := s.base[(m, v)];
    assert t.base[(m, v)] == b && NodeGrows(s.nodes[m], t.nodes[m]);
    StateOfGrows(s, t, b.hist, b.last);
    if b.parent >= 1 { assert ExtendsParent(t, m, b); }
  }

  lemma RolesFrame(s: State, t: State)
    requires RecordsOk(s) && Grows(s, t)
    requires forall b, v | (b, v) in t.roles && (b, v) !in s.roles :: RoleOk(t, b, v)
    requires forall b, v | (b, v) in t.adopted && (b, v) !in s.adopted :: AdoptOk(t, b, v)
    ensures forall b, v | (b, v) in t.roles :: RoleOk(t, b, v)
    ensures forall b, v | (b, v) in t.adopted :: AdoptOk(t, b, v)
  {
    hide BaseOk, FinishedOk;
    forall b, v | (b, v) in t.roles ensures RoleOk(t, b, v) {
      if (b, v) in s.roles {
        assert RoleOk(s, b, v);
        assert NodeGrows(s.nodes[b], t.nodes[b]);
      }
    }
    forall b, v | (b, v) in t.adopted ensures AdoptOk(t, b, v) {
      if (b, v) in s.adopted {
        assert AdoptOk(s, b, v);
        assert NodeGrows(s.nodes[b], t.nodes[b]);
      }
    }
  }

  lemma FinishedGrows(s: State, t: State, v: nat)
    requires Grows(s, t) && v in s.finished && FinishedOk(s, v)
    ensures FinishedOk(t, v)
  {
    assert NodeGrows(s.nodes[s.finished[v]], t.nodes[s.finished[v]]);
    forall b | b in ViewAt(t, v) ensures Joined(t, b, v, t.finished[v]) {
      assert Joined(s, b, v, s.finished[v]);
    }
  }

  lemma RecordsFrame(s: State, t: State)
    requires RecordsOk(s) && Grows(s, t) && ParentsClosed(s, t)
    requires forall m, v | (m, v) in t.base && (m, v) !in s.base :: BaseOk(t, m, v)
    requires forall b, v | (b, v) in t.roles && (b, v) !in s.roles :: RoleOk(t, b, v)
    requires forall b, v | (b, v) in t.adopted && (b, v) !in s.adopted :: AdoptOk(t, b, v)
    requires forall v | v in t.finished && v !in s.finished :: FinishedOk(t, v)
    ensures RecordsOk(t)
  {
    hide BaseOk, RoleOk, AdoptOk, FinishedOk;
    RolesFrame(s, t);
    forall m, v | (m, v) in t.base ensures BaseOk(t, m, v) {
      if (m, v) in s.base { BaseOkGrows(s, t, m, v); }
    }
    forall v | v in t.finished ensures FinishedOk(t, v) {
      if v in s.finished { FinishedGrows(s, t, v); }
    }
  }

  lemma ExecsFrame(s: State, t: State)
    requires ExecsOk(s) && Grows(s, t)
    requires forall x | x in t.execs && x !in s.execs :: ExecOk(t, x)
    requires forall x, y | x in t.execs && x !in s.execs && y in t.execs && x.node == y.node && x.vs == y.vs :: x == y
    ensures ExecsOk(t)
  {
    hide ExecOk;
    forall x | x in t.execs ensures ExecOk(t, x) {
      if x in s.execs { ExecOkGrows(s, t, x); }
    }
  }

  lemma NetFrame(s: State, t: State)
    requires NetOk(s) && Grows(s, t)
    requires forall m | m in t.net && m !in s.net :: MsgOk(t, m)
    requires forall m, m' | m in t.net && m !in s.net && m' in t.net && IsRequest(m) && IsRequest(m')
               && m.id == m'.id ::
               m == m'
    ensures NetOk(t)
  {
    hide MsgOk;
    forall m | m in t.net ensures MsgOk(t, m) {
      if m in s.net { MsgOkGrows(s, t, m); }
    }
  }

  lemma FlagsSame(s: State, t: State, p: string)
    requires Grows(s, t) && p in s.nodes && t.nodes[p] == s.nodes[p] && FlagsOk(s, p)
    ensures FlagsOk(t, p)
  {
  }

  /** The history clause only looks at the replica's stamps, state and origin. */
  lemma HistTouched(s: State, t: State, p: string)
    requires p in s.nodes && p in t.nodes && HistOk(s, p) && RecordsGrow(s, t)
    requires var a, b := s.nodes[p], t.nodes[p];
             b.from == a.from && b.rep.hist == a.rep.hist && b.rep.lastvs == a.rep.lastvs && b.rep.myvs == a.rep.myvs
    ensures HistOk(t, p)
  {
    hide StateOf;
    var n, r := s.nodes[p], s.nodes[p].rep;
    if n.from > 0 {
      if r.myvs.vid < n.from || r.myvs.seqno <= 1 {
        StateOfGrows(s, t, r.hist, r.lastvs);
      } else {
        var x :| x in s.execs && x.node == p && x.vs == r.lastvs && r.hist == AfterExec(x);
        assert x in t.execs;
      }
    }
  }

  lemma RoundGrows(s: State, t: State, p: string)
    requires Grows(s, t) && p in s.nodes && s.nodes[p].round.Some? && RoundFits(s, p)
    requires t.nodes[p].round == s.nodes[p].round && t.nodes[p].rep.myvs == s.nodes[p].rep.myvs
    requires t.nodes[p].from == s.nodes[p].from
    ensures RoundFits(t, p)
  {
    hide Slaves, Did;
    var rd, vs := s.nodes[p].round.value, s.nodes[p].rep.myvs;
    SlavesSame(s, t, vs.vid);
    forall j | 0 <= j < rd.k ensures Did(t, rd.slaves[j], vs, rd.req) {
      DidGrows(s, t, rd.slaves[j], vs, rd.req);
    }
  }

  lemma NodesFrame(s: State, t: State, p: string)
    requires NodesOk(s) && Grows(s, t) && p in s.nodes
    requires forall q | q in s.nodes && q != p :: t.nodes[q] == s.nodes[q]
    requires FlagsOk(t, p) && HistOk(t, p) && LeadFits(t, p)
    ensures NodesOk(t)
  {
    hide FlagsOk, HistOk;
    forall q | q in t.nodes ensures FlagsOk(t, q) && HistOk(t, q) && LeadFits(t, q) {
      if q != p {
        assert FlagsOk(s, q) && HistOk(s, q) && LeadFits(s, q);
        FlagsSame(s, t, q);
        HistTouched(s, t, q);
      }
    }
  }

  lemma RoundsFrame(s: State, t: State, p: string)
    requires RoundsOk(s) && Grows(s, t) && p in s.nodes
    requires forall q | q in s.nodes && q != p :: t.nodes[q] == s.nodes[q]
    requires t.nodes[p].round.Some? ==> RoundFits(t, p)
    ensures RoundsOk(t)
  {
    hide RoundFits;
    forall q | q in t.nodes && t.nodes[q].round.Some? ensures RoundFits(t, q) {
      if q != p { RoundGrows(s, t, q); }
    }
  }

  /** The step touched node p and added at most the given records. */
  ghost predicate Touched(s: State, t: State, p: string) {
    && Grows(s, t) && p in s.nodes
    && (forall q | q in s.nodes && q != p :: t.nodes[q] == s.nodes[q])
    && FlagsOk(t, p) && HistOk(t, p) && LeadFits(t, p)
    && (t.nodes[p].round.Some? ==> RoundFits(t, p))
  }

  /** A step that executes nothing and sends nothing. */
  lemma LocalStep(s: State, t: State, p: string)
    requires Inv(s) && Touched(s, t, p)
    requires t.execs == s.execs && t.net == s.net
    requires forall m, v | (m, v) in t.base && (m, v) !in s.base :: BaseOk(t, m, v)
    requires forall b, v | (b, v) in t.roles && (b, v) !in s.roles :: RoleOk(t, b, v)
    requires forall b, v | (b, v) in t.adopted && (b, v) !in s.adopted :: AdoptOk(t, b, v)
    requires forall v | v in t.finished && v !in s.finished :: FinishedOk(t, v)
    ensures Inv(t)
  {
    hide FlagsOk, HistOk, LeadFits, RoundFits, ExecOk, MsgOk, BaseOk, RoleOk, AdoptOk, FinishedOk;
    NodesFrame(s, t, p);
    RoundsFrame(s, t, p);
    ExecsFrame(s, t);
    NetFrame(s, t);
    RecordsFrame(s, t);
  }

  /** A step that only adds one message and changes p. */
  lemma SendStep(s: State, t: State, p: string, m: Msg)
    requires Inv(s) && Touched(s, t, p)
    requires t.execs == s.execs && t.net == s.net + {m} && MsgOk(t, m)
    requires IsRequest(m) ==> m.id == s.nextId
    requires t.base == s.base && t.roles == s.roles && t.adopted == s.adopted && t.finished == s.finished
    ensures Inv(t)
  {
    hide FlagsOk, HistOk, LeadFits, RoundFits, ExecOk, BaseOk, AdoptOk, RoleOk, FinishedOk, Did, Slaves;
    NodesFrame(s, t, p);
    RoundsFrame(s, t, p);
    ExecsFrame(s, t);
    forall k | k in s.net && IsRequest(k) ensures k.id < s.nextId {
      assert MsgOk(s, k);
    }
    NetFrame(s, t);
    RecordsFrame(s, t);
  }

  // ----- client rounds -----

  /** A replica that is not in a view change works in its latest view from that view's state. */
  lemma InView(s: State, p: string)
    requires p in s.nodes && FlagsOk(s, p) && !s.nodes[p].rep.inviewchange
    ensures var n := s.nodes[p];
            n.rep.vidCommit >= 1 && n.rep.myvs.vid == n.rep.vidCommit == n.rep.vidInsync == n.from
  {
  }

  lemma RoundTouches(s: State, p: string, req: string)
    requires Enabled(s, ClientInvoke(p, req)) && Ready(s, ClientInvoke(p, req))
    requires FlagsOk(s, p) && HistOk(s, p) && LeadFits(s, p) && p in ViewAt(s, s.nodes[p].rep.myvs.vid)
    ensures var t := Next(s, ClientInvoke(p, req)); Touched(s, t, p) && t == s.(nodes := t.nodes)
  {
    hide HistOk, Did, ViewText.Without;
    var t := Next(s, ClientInvoke(p, req));
    InView(s, p);
    HistTouched(s, t, p);
    assert RoundFits(t, p);
  }

  lemma StepClientInvoke(s: State, e: Event)
    requires Inv(s) && e.ClientInvoke? && Enabled(s, e) && Ready(s, e)
    ensures Inv(Next(s, e))
  {
    hide FlagsOk, HistOk, LeadFits, Touched, Next, RoundsOk, ExecsOk, NetOk, BaseOk, AdoptOk, FinishedOk;
    var p := e.p;
    assert FlagsOk(s, p) && HistOk(s, p) && LeadFits(s, p);
    InView(s, p);
    RoleOfView(s, p);
    RoundTouches(s, p, e.req);
    hide RecordsOk, RoleOk;
    LocalStep(s, Next(s, e), p);
  }

  lemma RoleOfView(s: State, p: string)
    requires RecordsOk(s) && p in s.nodes && FlagsOk(s, p) && s.nodes[p].rep.vidInsync >= 1
    ensures p in ViewAt(s, s.nodes[p].rep.vidInsync)
  {
    hide BaseOk, AdoptOk, FinishedOk;
    assert RoleOk(s, p, s.nodes[p].rep.vidInsync);
  }

  lemma InvokeTouches(s: State, p: string)
    requires Enabled(s, SendInvoke(p)) && FlagsOk(s, p) && HistOk(s, p) && LeadFits(s, p) && RoundFits(s, p)
    ensures var t, rd := Next(s, SendInvoke(p)), s.nodes[p].round.value;
            var m := InvokeMsg(s.nextId, p, rd.slaves[rd.k], s.nodes[p].rep.myvs, rd.req);
            Touched(s, t, p) && t == s.(nodes := t.nodes, nextId := t.nextId, net := s.net + {m}) && MsgOk(t, m)
  {
    hide HistOk, Did, Slaves;
    var t, n := Next(s, SendInvoke(p)), s.nodes[p];
    var rd := n.round.value;
    SlavesSame(s, t, n.rep.myvs.vid);
    HistTouched(s, t, p);
    forall j | 0 <= j < rd.k ensures Did(t, rd.slaves[j], n.rep.myvs, rd.req) {
      DidGrows(s, t, rd.slaves[j], n.rep.myvs, rd.req);
    }
    assert RoundFits(t, p);
  }

  lemma StepSendInvoke(s: State, e: Event)
    requires Inv(s) && e.SendInvoke? && Enabled(s, e)
    ensures Inv(Next(s, e))
  {
    hide FlagsOk, HistOk, LeadFits, RoundFits, MsgOk, Touched, Next, ExecsOk, NetOk, RecordsOk;
    var p, n := e.p, s.nodes[e.p];
    var rd := n.round.value;
    assert FlagsOk(s, p) && HistOk(s, p) && LeadFits(s, p) && RoundFits(s, p);
    InvokeTouches(s, p);
    SendStep(s, Next(s, e), p, InvokeMsg(s.nextId, p, rd.slaves[rd.k], n.rep.myvs, rd.req));
  }

  /** The backup that answered OK is the one asked, and executed this very request. */
  lemma OkMeansDid(s: State, p: string)
    requires NetOk(s) && p in s.nodes && s.nodes[p].round.Some? && RoundFits(s, p)
    requires s.nodes[p].round.value.call.Some? && InvokeOk(s.nodes[p].round.value.call.value) in s.net
    ensures var rd := s.nodes[p].round.value;
            rd.k < |rd.slaves| && Did(s, rd.slaves[rd.k], s.nodes[p].rep.myvs, rd.req)
  {
    hide Slaves, Did;
    var rd := s.nodes[p].round.value;
    assert MsgOk(s, InvokeOk(rd.call.value));
    var r :| r in s.net && r.InvokeMsg? && r.id == rd.call.value && Did(s, r.dst, r.vs, r.req);
    assert r == InvokeMsg(rd.call.value, p, rd.slaves[rd.k], s.nodes[p].rep.myvs, rd.req);
  }

  lemma StepRoundOk(s: State, e: Event)
    requires Inv(s) && e.RoundOk? && Enabled(s, e)
    ensures Inv(Next(s, e))
  {
    hide FlagsOk, HistOk, LeadFits, RoundFits, Touched, Next, ExecsOk, NetOk, RecordsOk, BaseOk, AdoptOk, FinishedOk;
    var p := e.p;
    assert FlagsOk(s, p) && HistOk(s, p) && LeadFits(s, p) && RoundFits(s, p);
    OkMeansDid(s, p);
    OkTouches(s, p);
    LocalStep(s, Next(s, e), p);
  }

  lemma OkTouches(s: State, p: string)
    requires Enabled(s, RoundOk(p)) && FlagsOk(s, p) && HistOk(s, p) && LeadFits(s, p) && RoundFits(s, p)
    requires var rd := s.nodes[p].round.value;
             rd.k < |rd.slaves| && Did(s, rd.slaves[rd.k], s.nodes[p].rep.myvs, rd.req)
    ensures var t := Next(s, RoundOk(p)); Touched(s, t, p) && t == s.(nodes := t.nodes)
  {
    hide HistOk, Did, Slaves;
    var t, n := Next(s, RoundOk(p)), s.nodes[p];
    var rd := n.round.value;
    SlavesSame(s, t, n.rep.myvs.vid);
    HistTouched(s, t, p);
    forall j | 0 <= j < rd.k + 1 ensures Did(t, rd.slaves[j], n.rep.myvs, rd.req) {
      DidGrows(s, t, rd.slaves[j], n.rep.myvs, rd.req);
    }
    assert RoundFits(t, p);
  }

  lemma FailTouches(s: State, p: string)
    requires Enabled(s, RoundFail(p)) && FlagsOk(s, p) && HistOk(s, p) && LeadFits(s, p)
    ensures var t := Next(s, RoundFail(p)); Touched(s, t, p) && t == s.(nodes := t.nodes)
  {
    hide HistOk, RoundFits;
    var t, n := Next(s, RoundFail(p)), s.nodes[p];
    HistTouched(s, t, p);
  }

  lemma StepRoundFail(s: State, e: Event)
    requires Inv(s) && e.RoundFail? && Enabled(s, e)
    ensures Inv(Next(s, e))
  {
    hide FlagsOk, HistOk, LeadFits, Touched, Next, RoundsOk, ExecsOk, NetOk, RecordsOk, BaseOk, AdoptOk, FinishedOk;
    assert FlagsOk(s, e.p) && HistOk(s, e.p) && LeadFits(s, e.p);
    FailTouches(s, e.p);
    LocalStep(s, Next(s, e), e.p);
  }

  // ----- executions -----

  /** Node p, working in the view its state goes back to, executes req and closes its round. */
  ghost predicate Runs(s: State, t: State, p: string, req: string) {
    && p in s.nodes
    && t == s.(nodes := s.nodes[p := s.nodes[p].(rep := Execute(s.nodes[p].rep, req), round := None)],
               execs := s.execs + {Exec(p, s.nodes[p].rep.myvs, req, s.nodes[p].rep.hist)},
               net := t.net)
    && s.net <= t.net
    && s.nodes[p].role.Idle?
    && s.nodes[p].rep.myvs.vid >= 1 && s.nodes[p].rep.myvs.vid == s.nodes[p].from
  }

  lemma RunsGrows(s: State, t: State, p: string, req: string)
    requires Runs(s, t, p, req)
    ensures Grows(s, t)
  {
    forall q | q in s.nodes ensures NodeGrows(s.nodes[q], t.nodes[q]) {
    }
  }

  lemma RunsNode(s: State, t: State, p: string, req: string)
    requires Runs(s, t, p, req) && FlagsOk(s, p) && HistOk(s, p)
    ensures FlagsOk(t, p) && HistOk(t, p) && LeadFits(t, p)
  {
    var n := s.nodes[p];
    var x := Exec(p, n.rep.myvs, req, n.rep.hist);
    assert x in t.execs && t.nodes[p].rep.hist == AfterExec(x);
  }

  lemma RunsParents(s: State, t: State, p: string, req: string)
    requires Runs(s, t, p, req) && RecordsOk(s)
    ensures ParentsClosed(s, t)
  {
    hide StateOf, ExtendsParent;
    forall x, m, v | x in t.execs && x !in s.execs && (m, v) in s.base
      ensures !(x.node == m && x.vs.vid == s.base[(m, v)].parent)
    {
      assert BaseOk(s, m, v);
    }
  }

  /** The execution follows the node's previous one without a gap. */
  lemma RunsExec(s: State, t: State, p: string, req: string)
    requires Runs(s, t, p, req) && HistOk(s, p) && FlagsOk(s, p)
    requires var vs := s.nodes[p].rep.myvs;
             && vs.vid in s.finished && FinishedOk(s, vs.vid) && p in ViewAt(s, vs.vid)
             && (p == s.finished[vs.vid] ==> forall b | b in Slaves(s, vs.vid) :: Did(s, b, vs, req))
             && (p != s.finished[vs.vid] ==>
                   Slaves(s, vs.vid) != [] && (Slaves(s, vs.vid)[0] == p || Did(s, Slaves(s, vs.vid)[0], vs, req)))
    ensures ExecOk(t, Exec(p, s.nodes[p].rep.myvs, req, s.nodes[p].rep.hist))
  {
    hide Slaves;
    var n := s.nodes[p];
    var x := Exec(p, n.rep.myvs, req, n.rep.hist);
    SlavesSame(s, t, x.vs.vid);
    assert x in t.execs;
    assert Joined(s, p, x.vs.vid, s.finished[x.vs.vid]);
    assert Did(t, p, x.vs, req);
    if p == s.finished[x.vs.vid] {
      forall b | b in Slaves(t, x.vs.vid) ensures Did(t, b, x.vs, req) {
        DidGrows(s, t, b, x.vs, req);
      }
    } else if Slaves(s, x.vs.vid)[0] != p {
      DidGrows(s, t, Slaves(s, x.vs.vid)[0], x.vs, req);
    }
    if x.vs.seqno > 1 {
      var y :| y in s.execs && y.node == p && y.vs == n.rep.lastvs && n.rep.hist == AfterExec(y);
      assert y in t.execs;
    }
  }

  lemma RunsUnique(s: State, t: State, p: string, req: string)
    requires Runs(s, t, p, req) && ExecsOk(s)
    ensures forall x, y | x in t.execs && x !in s.execs && y in t.execs && x.node == y.node && x.vs == y.vs :: x == y
  {
    hide Slaves, Did;
    forall y | y in s.execs && y.node == p ensures y.vs != s.nodes[p].rep.myvs {
      assert ExecOk(s, y);
    }
  }

  lemma ExecStep(s: State, t: State, p: string, req: string)
    requires Inv(s) && Runs(s, t, p, req)
    requires ExecOk(t, Exec(p, s.nodes[p].rep.myvs, req, s.nodes[p].rep.hist))
    requires forall m | m in t.net && m !in s.net :: !IsRequest(m) && MsgOk(t, m)
    ensures Inv(t)
  {
    hide FlagsOk, HistOk, LeadFits, RoundFits, ExecOk, MsgOk, BaseOk, AdoptOk, FinishedOk, Did, Slaves;
    assert FlagsOk(s, p) && HistOk(s, p);
    RunsGrows(s, t, p, req);
    RunsNode(s, t, p, req);
    NodesFrame(s, t, p);
    RoundsFrame(s, t, p);
    RunsUnique(s, t, p, req);
    ExecsFrame(s, t);
    NetFrame(s, t);
    RunsParents(s, t, p, req);
    RecordsFrame(s, t);
  }

  /** A backup executes only what every earlier backup executed. */
  lemma StepRecvInvoke(s: State, e: Event)
    requires Inv(s) && e.RecvInvoke? && Enabled(s, e)
    ensures Inv(Next(s, e))
  {
    hide HistOk, ExecOk, LeadFits, RoundFits, BaseOk, AdoptOk, FinishedOk, Slaves, ViewText.Without;
    var t, m, p := Next(s, e), e.m, e.m.dst;
    var n := s.nodes[p];
    if HandleInvoke(n.rep, m.vs, m.req).1 == OK {
      assert FlagsOk(s, p) && HistOk(s, p);
      InView(s, p);
      assert MsgOk(s, m);
      SlavesAre(s, m.vs.vid);
      assert FinishedOk(s, m.vs.vid);
      assert Runs(s, t, p, m.req);
      RunsExec(s, t, p, m.req);
      assert Exec(p, n.rep.myvs, m.req, n.rep.hist) in t.execs;
      assert Did(t, p, m.vs, m.req);
      assert m in t.net && MsgOk(t, InvokeOk(m.id));
      ExecStep(s, t, p, m.req);
    }
  }

  lemma SlavesAre(s: State, v: nat)
    requires v in s.finished
    ensures forall b :: b in Slaves(s, v) <==> b in ViewAt(s, v) && b != s.finished[v]
  {
    ViewText.WithoutIs(ViewAt(s, v), s.finished[v]);
  }

  /** The primary executes, and answers the client, only after every backup executed. */
  lemma StepRoundDone(s: State, e: Event)
    requires Inv(s) && e.RoundDone? && Enabled(s, e)
    ensures Inv(Next(s, e))
  {
    hide HistOk, ExecOk, LeadFits, BaseOk, AdoptOk, FinishedOk, MsgOk, Slaves, Did;
    var t, p, n := Next(s, e), e.p, s.nodes[e.p];
    var rd := n.round.value;
    assert FlagsOk(s, p) && HistOk(s, p) && RoundFits(s, p);
    assert FinishedOk(s, n.rep.myvs.vid);
    assert Runs(s, t, p, rd.req);
    RunsExec(s, t, p, rd.req);
    ExecStep(s, t, p, rd.req);
  }

  // ----- view changes -----

  lemma CommitChanges(r: Replica, v: nat, p: seq<string>, c: seq<string>)
    requires r.vidCommit < v && CommitChange(r, v, p, c).Some?
    ensures var x := CommitChange(r, v, p, c).value;
            x == r.(vidCommit := v, inviewchange := true, primary := x.primary)
  {
  }

  lemma CommitTouches(s: State, p: string, v: nat)
    requires Enabled(s, CommitView(p, v)) && FlagsOk(s, p) && HistOk(s, p) && LeadFits(s, p)
    ensures var t := Next(s, CommitView(p, v));
            && Grows(s, t) && t == s.(nodes := t.nodes)
            && (forall q | q in s.nodes && q != p :: t.nodes[q] == s.nodes[q])
            && FlagsOk(t, p) && HistOk(t, p) && LeadFits(t, p)
            && t.nodes[p].round == s.nodes[p].round && t.nodes[p].rep.myvs == s.nodes[p].rep.myvs
            && t.nodes[p].from == s.nodes[p].from
  {
    hide CommitChange, HistOk;
    CommitChanges(s.nodes[p].rep, v, ViewAt(s, v - 1), ViewAt(s, v));
    HistTouched(s, Next(s, CommitView(p, v)), p);
  }

  lemma StepCommitView(s: State, e: Event)
    requires Inv(s) && e.CommitView? && Enabled(s, e)
    ensures Inv(Next(s, e))
  {
    hide FlagsOk, HistOk, LeadFits, RoundFits, Grows, Next, Enabled, ExecsOk, NetOk, RecordsOk,
         BaseOk, RoleOk, AdoptOk, FinishedOk;
    var p, t := e.p, Next(s, e);
    assert p in s.nodes by { CommitIsOf(s, e); }
    assert FlagsOk(s, p) && HistOk(s, p) && LeadFits(s, p);
    CommitTouches(s, p, e.v);
    if s.nodes[p].round.Some? {
      assert RoundFits(s, p);
      RoundGrows(s, t, p);
    }
    LocalStep(s, t, p);
  }

  lemma CommitIsOf(s: State, e: Event)
    requires e.CommitView? && Enabled(s, e)
    ensures e.p in s.nodes
  {
  }

  /** A node starts to sync each view at most once. */
  lemma StartIsNew(s: State, p: string)
    requires RecordsOk(s) && p in s.nodes && FlagsOk(s, p) && CanSync(s, p)
    ensures var v := s.nodes[p].rep.vidCommit; (p, v) !in s.roles && (p, v) !in s.base && v >= 1
  {
    hide AdoptOk, FinishedOk, StateOf, ExtendsParent;
    var v := s.nodes[p].rep.vidCommit;
    assert (p, v) in s.roles ==> RoleOk(s, p, v);
    assert (p, v) in s.base ==> BaseOk(s, p, v);
  }

  /** The new starting state is the leader's own, which extends the one it came from. */
  lemma NewBaseOk(s: State, t: State, p: string)
    requires ExecsOk(s) && RecordsOk(s) && p in s.nodes && FlagsOk(s, p) && HistOk(s, p)
    requires Grows(s, t) && t.execs == s.execs
    requires var v, n := s.nodes[p].rep.vidCommit, s.nodes[p];
             && n.from < v && (p, v) in t.base && t.base[(p, v)] == Snap(n.rep.hist, n.rep.lastvs, n.from)
             && t.nodes[p].from == v && Joined(t, p, v, p)
    ensures BaseOk(t, p, s.nodes[p].rep.vidCommit)
  {
    hide ExecOk, StateOf, BaseOk, FinishedOk, RoleOk;
    var n := s.nodes[p];
    NodeStateOf(s, p);
    StateOfGrows(s, t, n.rep.hist, n.rep.lastvs);
    if n.from >= 1 {
      NodeExtendsBase(s, p);
      assert AdoptOk(s, p, n.from);
      assert ExtendsParent(t, p, t.base[(p, n.rep.vidCommit)]);
    }
    BaseFrom(t, p, n.rep.vidCommit);
  }

  lemma BaseFrom(t: State, p: string, v: nat)
    requires p in t.nodes && t.nodes[p].from >= v >= 1 && (p, v) in t.base && Joined(t, p, v, p)
    requires var b := t.base[(p, v)];
             StateOf(t, b.hist, b.last) && b.last.vid < v && b.parent < v && (b.parent >= 1 ==> ExtendsParent(t, p, b))
    ensures BaseOk(t, p, v)
  {
  }

  lemma LeadKeepsNode(s: State, t: State, p: string)
    requires p in s.nodes && FlagsOk(s, p) && HistOk(s, p) && Enabled(s, StartSync(p)) && IsPrimary(s.nodes[p])
    requires var v := s.nodes[p].rep.vidCommit; (p, v) !in s.roles && (p, v) !in s.base && v >= 1
    requires t == Next(s, StartSync(p))
    ensures Grows(s, t) && FlagsOk(t, p) && HistOk(t, p) && LeadFits(t, p)
    ensures AdoptOk(t, p, s.nodes[p].rep.vidCommit) && RoleOk(t, p, s.nodes[p].rep.vidCommit)
  {
    hide ViewText.Without, AfterExec, StateOf;
    var v := s.nodes[p].rep.vidCommit;
    NodeStateOf(s, p);
    StateOfGrows(s, t, s.nodes[p].rep.hist, s.nodes[p].rep.lastvs);
    ViewText.WithoutIs(ViewAt(s, v), p);
  }

  lemma StepStartLead(s: State, e: Event)
    requires Inv(s) && e.StartSync? && Enabled(s, e) && IsPrimary(s.nodes[e.p])
    ensures Inv(Next(s, e))
  {
    hide ExecOk, MsgOk, FinishedOk, RoundFits, BaseOk, RoleOk, ViewText.Without, HistOk, LeadFits, AdoptOk, Grows;
    var t, p := Next(s, e), e.p;
    assert FlagsOk(s, p) && HistOk(s, p);
    StartIsNew(s, p);
    LeadKeepsNode(s, t, p);
    NewBaseOk(s, t, p);
    LocalStep(s, t, p);
  }

  lemma FollowTouches(s: State, p: string)
    requires Enabled(s, StartSync(p)) && FlagsOk(s, p) && HistOk(s, p) && !IsPrimary(s.nodes[p])
    requires s.nodes[p].round.None?
    requires var v := s.nodes[p].rep.vidCommit; (p, v) !in s.roles && (p, v) !in s.base && v >= 1
    ensures var t := Next(s, StartSync(p));
            Touched(s, t, p) && t == s.(nodes := t.nodes, roles := t.roles) && RoleOk(t, p, s.nodes[p].rep.vidCommit)
  {
    hide HistOk, ViewText.Without;
    HistTouched(s, Next(s, StartSync(p)), p);
  }

  lemma StepStartFollow(s: State, e: Event)
    requires Inv(s) && e.StartSync? && Enabled(s, e) && Drained(s, e) && !IsPrimary(s.nodes[e.p])
    ensures Inv(Next(s, e))
  {
    hide ExecOk, MsgOk, FinishedOk, RoundFits, HistOk, BaseOk, RoleOk, AdoptOk, FlagsOk, LeadFits,
         Touched, ViewText.Without;
    assert FlagsOk(s, e.p) && HistOk(s, e.p);
    StartIsNew(s, e.p);
    FollowTouches(s, e.p);
    LocalStep(s, Next(s, e), e.p);
  }

  lemma AbortTouches(s: State, p: string)
    requires Enabled(s, AbortSync(p)) && FlagsOk(s, p) && HistOk(s, p)
    ensures var t := Next(s, AbortSync(p)); Touched(s, t, p) && t == s.(nodes := t.nodes)
  {
    hide HistOk, RoundFits;
    var t, n := Next(s, AbortSync(p)), s.nodes[p];
    HistTouched(s, t, p);
  }

  lemma StepAbortSync(s: State, e: Event)
    requires Inv(s) && e.AbortSync? && Enabled(s, e)
    ensures Inv(Next(s, e))
  {
    hide FlagsOk, HistOk, LeadFits, Touched, Next, RoundsOk, ExecsOk, NetOk, RecordsOk,
         BaseOk, RoleOk, AdoptOk, FinishedOk;
    assert FlagsOk(s, e.p) && HistOk(s, e.p);
    AbortTouches(s, e.p);
    LocalStep(s, Next(s, e), e.p);
  }

  // ----- state transfer -----

  lemma TransferTouches(s: State, p: string)
    requires Enabled(s, SendTransfer(p)) && FlagsOk(s, p) && HistOk(s, p)
    ensures var t, n := Next(s, SendTransfer(p)), s.nodes[p];
            var m := TransferMsg(s.nextId, p, n.role.m, n.rep.lastvs, n.rep.vidInsync);
            Touched(s, t, p) && t == s.(nodes := t.nodes, nextId := t.nextId, net := s.net + {m}) && MsgOk(t, m)
  {
    hide HistOk, RoundFits;
    var t, n := Next(s, SendTransfer(p)), s.nodes[p];
    HistTouched(s, t, p);
  }

  lemma StepSendTransfer(s: State, e: Event)
    requires Inv(s) && e.SendTransfer? && Enabled(s, e)
    ensures Inv(Next(s, e))
  {
    hide FlagsOk, HistOk, LeadFits, MsgOk, Touched, Next, RoundsOk, ExecsOk, NetOk, RecordsOk;
    var n := s.nodes[e.p];
    assert FlagsOk(s, e.p) && HistOk(s, e.p);
    TransferTouches(s, e.p);
    SendStep(s, Next(s, e), e.p, TransferMsg(s.nextId, e.p, n.role.m, n.rep.lastvs, n.rep.vidInsync));
  }

  /** A node that is syncing answers with a state of its stamp; one that leads, with what it started
      from. */
  lemma ServesState(s: State, m: Msg, tr: Transfer)
    requires m.TransferMsg? && m.dst in s.nodes && FlagsOk(s, m.dst) && HistOk(s, m.dst) && RecordsOk(s)
    requires HandleTransfer(s.nodes[m.dst].rep, m.last, m.vid) == Some(tr)
    ensures Answers(s, m, tr)
  {
    hide StateOf, AfterExec, RoleOk, AdoptOk, FinishedOk, ExtendsParent;
    NodeStateOf(s, m.dst);
    assert (m.dst, m.vid) in s.base ==> BaseOk(s, m.dst, m.vid);
  }

  lemma StepRecvTransfer(s: State, e: Event)
    requires Inv(s) && e.RecvTransfer? && Enabled(s, e)
    ensures Inv(Next(s, e))
  {
    hide ExecOk, FinishedOk, RoundFits, HistOk, BaseOk, RoleOk, AdoptOk, FlagsOk, LeadFits, Answers, HandleTransfer;
    var t, m, q := Next(s, e), e.m, e.m.dst;
    match HandleTransfer(s.nodes[q].rep, m.last, m.vid)
    case None =>
    case Some(tr) =>
      assert FlagsOk(s, q) && HistOk(s, q) && LeadFits(s, q);
      ServesState(s, m, tr);
      assert Grows(s, t);
      AnswersGrows(s, t, m, tr);
      assert m in t.net && MsgOk(t, TransferRes(m.id, tr));
      FlagsSame(s, t, q);
      HistTouched(s, t, q);
      LeadSame(s, t, q);
      if s.nodes[q].round.Some? {
        assert RoundFits(s, q);
        RoundGrows(s, t, q);
      }
      SendStep(s, t, q, TransferRes(m.id, tr));
  }

  lemma LeadSame(s: State, t: State, p: string)
    requires Grows(s, t) && p in s.nodes && t.nodes[p] == s.nodes[p] && LeadFits(s, p)
    ensures LeadFits(t, p)
  {
  }

  /** The reply answers the request this node is waiting for. */
  lemma ReplyIsMine(s: State, p: string, m: Msg)
    requires NetOk(s) && m in s.net && m.TransferRes?
    requires p in s.nodes && FlagsOk(s, p) && s.nodes[p].call == Some(m.id) && !s.nodes[p].transferred
    ensures var n := s.nodes[p];
            n.role.Follow? && Answers(s, TransferMsg(m.id, p, n.role.m, n.rep.lastvs, n.rep.vidInsync), m.t)
  {
    hide Slaves, Did, Answers;
    var n := s.nodes[p];
    assert MsgOk(s, m);
    var r :| r in s.net && r.TransferMsg? && r.id == m.id && Answers(s, r, m.t);
    assert r == TransferMsg(m.id, p, n.role.m, n.rep.lastvs, n.rep.vidInsync);
  }

  /** A state that the node n follows may hand to it. */
  ghost predicate Given(s: State, n: Node, r: Replica) {
    && n.role.Follow? && StateOf(s, r.hist, r.lastvs) && r.lastvs.vid < n.rep.vidInsync
    && (n.role.m, n.rep.vidInsync) in s.roles
    && ((n.role.m, n.rep.vidInsync) in s.base ==> AtBase(s, r, n.role.m, n.rep.vidInsync))
  }

  /** Applying the reply leaves the requester with a state of the reply's stamp, whether it was
      copied or, the stamps being equal, not sent at all; and if the node asked leads, with what
      that node started from. */
  lemma TransferGives(s: State, p: string, m: Msg)
    requires Enabled(s, GotTransfer(p, m)) && FlagsOk(s, p) && HistOk(s, p)
    requires ExecsOk(s) && NetOk(s) && RecordsOk(s)
    ensures Given(s, s.nodes[p], ApplyTransfer(s.nodes[p].rep, m.t))
  {
    hide ExecOk, MsgOk, FinishedOk, AdoptOk, RoleOk, StateOf, ExtendsParent;
    var n := s.nodes[p];
    ReplyIsMine(s, p, m);
    hide HistOk, FlagsOk;
    var k := (n.role.m, n.rep.vidInsync);
    NodeStateOf(s, p);
    if n.rep.lastvs == m.t.last && k in s.base {
      assert BaseOk(s, k.0, k.1);
      StampFixesState(s, n.rep.hist, s.base[k].hist, n.rep.lastvs);
    }
  }

  lemma GotKeepsNode(s: State, t: State, p: string, r: Replica)
    requires p in s.nodes && FlagsOk(s, p) && Given(s, s.nodes[p], r)
    requires r == s.nodes[p].rep.(hist := r.hist, lastvs := r.lastvs)
    requires var n := s.nodes[p];
             t == SetNode(s, p, n.(rep := r, transferred := true, call := None, from := n.rep.vidInsync)).(
                    adopted := s.adopted + {(p, n.rep.vidInsync)})
    ensures Touched(s, t, p) && AdoptOk(t, p, s.nodes[p].rep.vidInsync)
  {
    hide AfterExec, StateOf, RoundFits;
    StateOfGrows(s, t, r.hist, r.lastvs);
  }

  lemma StepGotTransfer(s: State, e: Event)
    requires Inv(s) && e.GotTransfer? && Enabled(s, e)
    ensures Inv(Next(s, e))
  {
    hide ExecOk, MsgOk, FinishedOk, RoundFits, BaseOk, RoleOk, HistOk, AdoptOk, Given, FlagsOk, LeadFits, Touched;
    var t, p, n := Next(s, e), e.p, s.nodes[e.p];
    assert FlagsOk(s, p) && HistOk(s, p);
    TransferGives(s, p, e.m);
    GotKeepsNode(s, t, p, ApplyTransfer(n.rep, e.m.t));
    LocalStep(s, t, p);
  }

  lemma SendDoneTouches(s: State, p: string)
    requires Enabled(s, SendDone(p)) && FlagsOk(s, p) && HistOk(s, p)
    ensures var t, n := Next(s, SendDone(p)), s.nodes[p];
            var m := DoneMsg(s.nextId, p, n.role.m, n.rep.vidInsync);
            Touched(s, t, p) && t == s.(nodes := t.nodes, nextId := t.nextId, net := s.net + {m}) && MsgOk(t, m)
  {
    hide HistOk, RoundFits;
    HistTouched(s, Next(s, SendDone(p)), p);
  }

  lemma StepSendDone(s: State, e: Event)
    requires Inv(s) && e.SendDone? && Enabled(s, e)
    ensures Inv(Next(s, e))
  {
    hide FlagsOk, HistOk, LeadFits, MsgOk, Touched, Next, RoundsOk, ExecsOk, NetOk, RecordsOk;
    var n := s.nodes[e.p];
    assert FlagsOk(s, e.p) && HistOk(s, e.p);
    SendDoneTouches(s, e.p);
    SendStep(s, Next(s, e), e.p, DoneMsg(s.nextId, e.p, n.role.m, n.rep.vidInsync));
  }

  /** A done message that matches vid_commit is about the view being synced. */
  lemma DoneIsCurrent(s: State, m: Msg)
    requires NetOk(s) && RecordsOk(s) && m in s.net && m.DoneMsg? && m.dst in s.nodes && FlagsOk(s, m.dst)
    requires m.vid == s.nodes[m.dst].rep.vidCommit
    ensures Joined(s, m.src, m.vid, m.dst) && s.nodes[m.dst].rep.vidInsync == m.vid
  {
    hide FinishedOk, BaseOk, Did, Slaves, Answers;
    assert MsgOk(s, m);
    assert AdoptOk(s, m.src, m.vid);
    assert RoleOk(s, m.dst, m.vid);
  }

  lemma DoneKeepsNode(s: State, t: State, q: string, src: string)
    requires q in s.nodes && FlagsOk(s, q) && HistOk(s, q) && LeadFits(s, q)
    requires Joined(s, src, s.nodes[q].rep.vidInsync, q)
    requires var n := s.nodes[q];
             && t.nodes == s.nodes[q := n.(rep := n.rep.(backups := EraseFirst(n.rep.backups, src)))]
             && t == s.(nodes := t.nodes, net := t.net) && s.net <= t.net
    ensures Grows(s, t) && FlagsOk(t, q) && HistOk(t, q) && LeadFits(t, q)
  {
    hide EraseFirst, HistOk;
    EraseFirstKeeps(s.nodes[q].rep.backups, src);
    HistTouched(s, t, q);
  }

  lemma StepRecvDone(s: State, e: Event)
    requires Inv(s) && e.RecvDone? && Enabled(s, e)
    ensures Inv(Next(s, e))
  {
    hide ExecOk, FinishedOk, RoundFits, HistOk, BaseOk, RoleOk, AdoptOk, EraseFirst, FlagsOk, LeadFits, Did, Slaves;
    var t, m, q := Next(s, e), e.m, e.m.dst;
    var n := s.nodes[q];
    if n.rep.vidInsync != 0 && m.vid == n.rep.vidCommit {
      assert FlagsOk(s, q) && HistOk(s, q) && LeadFits(s, q);
      DoneIsCurrent(s, m);
      DoneKeepsNode(s, t, q, m.src);
      if n.round.Some? {
        assert RoundFits(s, q);
        RoundGrows(s, t, q);
      }
      SendStep(s, t, q, DoneOk(m.id));
    }
  }

  lemma DoneTouches(s: State, p: string)
    requires Enabled(s, GotDone(p)) && FlagsOk(s, p) && HistOk(s, p)
    ensures var t := Next(s, GotDone(p)); Touched(s, t, p) && t == s.(nodes := t.nodes)
  {
    hide RoundFits, AfterExec, StateOf;
    var t, r := Next(s, GotDone(p)), s.nodes[p].rep;
    StateOfGrows(s, t, r.hist, r.lastvs);
    assert FlagsOk(t, p) && HistOk(t, p);
  }

  lemma StepGotDone(s: State, e: Event)
    requires Inv(s) && e.GotDone? && Enabled(s, e)
    ensures Inv(Next(s, e))
  {
    hide FlagsOk, HistOk, LeadFits, Touched, Next, RoundsOk, ExecsOk, NetOk, RecordsOk,
         BaseOk, RoleOk, AdoptOk, FinishedOk;
    assert FlagsOk(s, e.p) && HistOk(s, e.p);
    DoneTouches(s, e.p);
    LocalStep(s, Next(s, e), e.p);
  }

  lemma CallFailTouches(s: State, p: string)
    requires Enabled(s, CallFail(p)) && FlagsOk(s, p) && HistOk(s, p) && LeadFits(s, p)
    ensures var t := Next(s, CallFail(p)); Touched(s, t, p) && t == s.(nodes := t.nodes)
  {
    hide HistOk, RoundFits;
    var t, n := Next(s, CallFail(p)), s.nodes[p];
    HistTouched(s, t, p);
  }

  lemma StepCallFail(s: State, e: Event)
    requires Inv(s) && e.CallFail? && Enabled(s, e)
    ensures Inv(Next(s, e))
  {
    hide FlagsOk, HistOk, LeadFits, Touched, Next, RoundsOk, ExecsOk, NetOk, RecordsOk,
         BaseOk, RoleOk, AdoptOk, FinishedOk;
    assert FlagsOk(s, e.p) && HistOk(s, e.p) && LeadFits(s, e.p);
    CallFailTouches(s, e.p);
    LocalStep(s, Next(s, e), e.p);
  }

  /** No other node has finished the view of a leader that waits: it would have to be among that
      node's backups. */
  lemma NotYetFinished(s: State, p: string)
    requires RecordsOk(s) && p in s.nodes && FlagsOk(s, p) && s.nodes[p].role.Lead?
    ensures s.nodes[p].from !in s.finished
  {
    hide BaseOk, AdoptOk;
    var v := s.nodes[p].from;
    assert RoleOk(s, p, v);
    assert v in s.finished ==> FinishedOk(s, v);
  }

  /** The leader leaves the view change only when every member has its starting state. */
  lemma EndKeepsNode(s: State, t: State, p: string)
    requires p in s.nodes && FlagsOk(s, p) && HistOk(s, p) && LeadFits(s, p) && Enabled(s, EndSync(p))
    requires t == Next(s, EndSync(p)) && s.nodes[p].from !in s.finished && BaseOf(s, p)
    ensures Grows(s, t) && FlagsOk(t, p) && HistOk(t, p) && LeadFits(t, p)
  {
    hide AfterExec, StateOf;
    StateOfGrows(s, t, s.nodes[p].rep.hist, s.nodes[p].rep.lastvs);
  }

  lemma EndFinishes(s: State, t: State, p: string)
    requires p in s.nodes && FlagsOk(s, p) && LeadFits(s, p) && Enabled(s, EndSync(p))
    requires t == Next(s, EndSync(p)) && BaseOf(s, p)
    ensures s.nodes[p].from in t.finished && FinishedOk(t, s.nodes[p].from)
  {
    var v := s.nodes[p].from;
    forall b | b in ViewAt(t, v) ensures Joined(t, b, v, p) {
      assert b == p || Joined(s, b, v, p);
    }
  }

  ghost predicate BaseOf(s: State, p: string)
    requires p in s.nodes
  {
    (p, s.nodes[p].from) in s.base && Joined(s, p, s.nodes[p].from, p)
  }

  lemma LeaderHasBase(s: State, p: string)
    requires RecordsOk(s) && p in s.nodes && FlagsOk(s, p) && s.nodes[p].role.Lead?
    ensures BaseOf(s, p)
  {
    hide BaseOk, AdoptOk, FinishedOk;
    assert RoleOk(s, p, s.nodes[p].from);
  }

  lemma StepEndSync(s: State, e: Event)
    requires Inv(s) && e.EndSync? && Enabled(s, e)
    ensures Inv(Next(s, e))
  {
    hide ExecOk, MsgOk, RoundFits, BaseOk, RoleOk, AdoptOk, HistOk, LeadFits, FinishedOk;
    var t, p := Next(s, e), e.p;
    assert FlagsOk(s, p) && HistOk(s, p) && LeadFits(s, p);
    NotYetFinished(s, p);
    LeaderHasBase(s, p);
    EndKeepsNode(s, t, p);
    EndFinishes(s, t, p);
    LocalStep(s, t, p);
  }

  // ----- runs -----

  lemma InitHolds(views: seq<seq<string>>, names: set<string>)
    requires views != [] && views[0] != []
    ensures Inv(Init(views, names))
  {
  }

  lemma StepKeepsInv(s: State, e: Event)
    requires Inv(s) && Enabled(s, e) && Ready(s, e) && Drained(s, e)
    ensures Inv(Next(s, e))
  {
    hide Inv, Next, Enabled;
    match e
    case ClientInvoke(_, _) => StepClientInvoke(s, e);
    case SendInvoke(_) => StepSendInvoke(s, e);
    case RecvInvoke(_) => StepRecvInvoke(s, e);
    case RoundOk(_) => StepRoundOk(s, e);
    case RoundFail(_) => StepRoundFail(s, e);
    case RoundDone(_) => StepRoundDone(s, e);
    case CommitView(_, _) => StepCommitView(s, e);
    case StartSync(p) => StartSyncSplit(s, e);
    case AbortSync(_) => StepAbortSync(s, e);
    case SendTransfer(_) => StepSendTransfer(s, e);
    case RecvTransfer(_) => StepRecvTransfer(s, e);
    case GotTransfer(_, _) => StepGotTransfer(s, e);
    case SendDone(_) => StepSendDone(s, e);
    case RecvDone(_) => StepRecvDone(s, e);
    case GotDone(_) => StepGotDone(s, e);
    case CallFail(_) => StepCallFail(s, e);
    case EndSync(_) => StepEndSync(s, e);
  }

  lemma StartSyncSplit(s: State, e: Event)
    requires Inv(s) && e.StartSync? && Enabled(s, e) && Drained(s, e)
    ensures Inv(Next(s, e))
  {
    hide Inv, Next;
    if IsPrimary(s.nodes[e.p]) { StepStartLead(s, e); } else { StepStartFollow(s, e); }
  }

  lemma {:induction false} RunKeepsInv(s: State, es: seq<Event>)
    requires Inv(s) && ReadyRun(s, es)
    ensures AnyRun(s, es) && Inv(After(s, es))
    decreases |es|
  {
    hide Inv, Next, Enabled, Ready, Drained;
    if es == [] {
    } else {
      StepKeepsInv(s, es[0]);
      RunKeepsInv(Next(s, es[0]), es[1..]);
    }
  }

  // ----- single steps, without the invariant -----

  lemma SameNodes(s: State, e: Event)
    requires Enabled(s, e)
    ensures Next(s, e).nodes.Keys == s.nodes.Keys
  {
    hide ViewText.Without, EraseFirst, CommitChange;
  }

  lemma SameViews(s: State, e: Event)
    requires Enabled(s, e)
    ensures Next(s, e).views == s.views
  {
    hide ViewText.Without, EraseFirst, CommitChange;
  }

  /** The events of client rounds, the others being those of views and syncs. */
  predicate OfRounds(e: Event) {
    e.ClientInvoke? || e.SendInvoke? || e.RecvInvoke? || e.RoundOk? || e.RoundFail? || e.RoundDone?
  }

  lemma RoundNames(s: State, e: Event, p: string)
    requires Enabled(s, e) && p in s.nodes && OfRounds(e)
    ensures p in Next(s, e).nodes
    ensures var a, b := s.nodes[p].rep, Next(s, e).nodes[p].rep;
            b.primary == a.primary && b.vidCommit == a.vidCommit && b.me == a.me
  {
    hide ViewText.Without;
  }

  lemma SyncNames(s: State, e: Event, p: string)
    requires Enabled(s, e) && p in s.nodes && !OfRounds(e) && !(e.CommitView? && e.p == p)
    ensures p in Next(s, e).nodes
    ensures var a, b := s.nodes[p].rep, Next(s, e).nodes[p].rep;
            b.primary == a.primary && b.vidCommit == a.vidCommit && b.me == a.me
  {
    hide ViewText.Without, EraseFirst, CommitChange;
  }

  lemma NextNames(s: State, e: Event, p: string)
    requires Enabled(s, e) && p in s.nodes
    ensures p in Next(s, e).nodes
    ensures !(e.CommitView? && e.p == p) ==>
              && Next(s, e).nodes[p].rep.primary == s.nodes[p].rep.primary
              && Next(s, e).nodes[p].rep.vidCommit == s.nodes[p].rep.vidCommit
              && Next(s, e).nodes[p].rep.me == s.nodes[p].rep.me
  {
    hide Next, Enabled;
    SameNodes(s, e);
    if OfRounds(e) { RoundNames(s, e, p); } else if !(e.CommitView? && e.p == p) { SyncNames(s, e, p); }
  }

  lemma CommitsTo(s: State, e: Event)
    requires Enabled(s, e) && e.CommitView?
    ensures Next(s, e).nodes[e.p].rep.vidCommit == e.v && Next(s, e).nodes[e.p].rep.me == s.nodes[e.p].rep.me
    ensures Some(Next(s, e).nodes[e.p].rep) == CommitChange(s.nodes[e.p].rep, e.v, ViewAt(s, e.v - 1), ViewAt(s, e.v))
  {
    CommitChanges(s.nodes[e.p].rep, e.v, ViewAt(s, e.v - 1), ViewAt(s, e.v));
  }
}
