/** Runs that show why the assumptions of the replication theorems are needed: each meets all the
    others. */
module RsmCounter {
  import opened Options
  import opened Rsm
  import opened RsmSystem
  import opened RsmTheorems
  import PaxosSystem
  import Text
  import ViewText
  import Views

  // ----- runs that meet all assumptions but some -----

  datatype Rule = READY | DRAINED | LEADER | INFORMED | PREPARED

  predicate Meets(s: State, e: Event, r: Rule)
    requires Enabled(s, e)
  {
    match r
    case READY => Ready(s, e)
    case DRAINED => Drained(s, e)
    case LEADER => FromLeader(s, e)
    case INFORMED => Informed(s, e)
    case PREPARED => Prepared(s, e)
  }

  /** The event can happen and meets every rule but, maybe, those given. */
  ghost predicate Fine(s: State, e: Event, but: set<Rule>) {
    Enabled(s, e) && forall r | r !in but :: Meets(s, e, r)
  }

  ghost predicate FineRun(s: State, es: seq<Event>, but: set<Rule>)
    decreases |es|
  {
    es == [] || (Fine(s, es[0], but) && FineRun(Next(s, es[0]), es[1..], but))
  }

  ghost predicate Leads(s: State, es: seq<Event>, t: State, but: set<Rule>) {
    AnyRun(s, es) && After(s, es) == t && FineRun(s, es, but)
  }

  lemma {:induction false} LeadsOn(s: State, es: seq<Event>, u: State, e: Event, but: set<Rule>)
    requires Leads(s, es, u, but) && Fine(u, e, but)
    ensures Leads(s, es + [e], Next(u, e), but)
    decreases |es|
  {
    hide Next, Enabled, Meets;
    if es == [] {
      var v := Next(u, e);
      assert es + [e] == [e] && [e][1..] == [] && AnyRun(v, []) && After(v, []) == v && FineRun(v, [], but);
    } else {
      assert (es + [e])[0] == es[0] && (es + [e])[1..] == es[1..] + [e];
      LeadsOn(Next(s, es[0]), es[1..], u, e, but);
    }
  }

  /** One more event, with the state it leads to. */
  lemma Go(s: State, es: seq<Event>, u: State, e: Event, but: set<Rule>) returns (fs: seq<Event>, t: State)
    requires Leads(s, es, u, but) && Fine(u, e, but)
    ensures Leads(s, fs, t, but) && t == Next(u, e)
  {
    LeadsOn(s, es, u, e, but);
    fs, t := es + [e], Next(u, e);
  }

  lemma LeadsNowhere(s: State, but: set<Rule>)
    ensures Leads(s, [], s, but)
  {
  }

  lemma Arrives(s: State, es: seq<Event>, t: State, but: set<Rule>)
    requires Leads(s, es, t, but)
    ensures AnyRun(s, es) && FineRun(s, es, but) && After(s, es) == t
  {
  }

  // ----- what each event does -----

  lemma Commits(s: State, p: string, v: nat, x: string, q: string, but: set<Rule>)
    requires p in s.nodes && q in s.nodes && s.nodes[p].rep.vidCommit < v <= |s.views| && ViewAt(s, v) != []
    requires Views.NextPrimary(s.nodes[p].rep.primary, ViewAt(s, v - 1), ViewAt(s, v)) == Some(x)
    requires || INFORMED in but || v == 1 || s.nodes[q].rep.vidCommit >= v
             || (v == s.nodes[p].rep.vidCommit + 1 && p in ViewAt(s, v - 1))
    ensures Fine(s, CommitView(p, v), but)
    ensures var n := s.nodes[p];
            Next(s, CommitView(p, v)) ==
            SetNode(s, p, n.(rep := n.rep.(vidCommit := v, inviewchange := true, primary := x)))
  {
    hide Views.NextPrimary;
  }

  /** Only what no step reads differs beyond nodes, net and executions. */
  predicate Apart(s: State, t: State) { t == s.(base := t.base, roles := t.roles, adopted := t.adopted) }

  lemma StartsLead(s: State, p: string, but: set<Rule>)
    requires p in s.nodes && CanSync(s, p) && IsPrimary(s.nodes[p]) && s.nodes[p].round.None?
    requires PREPARED in but || forall f | f in s.finished && f < s.nodes[p].rep.vidCommit :: p in ViewAt(s, f)
    ensures Fine(s, StartSync(p), but)
    ensures var n, v := s.nodes[p], s.nodes[p].rep.vidCommit;
            var r := n.rep.(vidInsync := v, insync := true, backups := ViewText.Without(ViewAt(s, v), n.rep.me));
            Apart(SetNode(s, p, n.(rep := r, role := Lead, transferred := false, call := None, from := v)),
                  Next(s, StartSync(p)))
  {
    hide ViewText.Without;
  }

  lemma StartsFollow(s: State, p: string, but: set<Rule>)
    requires p in s.nodes && CanSync(s, p) && !IsPrimary(s.nodes[p]) && (DRAINED in but || s.nodes[p].round.None?)
    ensures Fine(s, StartSync(p), but)
    ensures var n := s.nodes[p];
            var r := n.rep.(vidInsync := n.rep.vidCommit, insync := true);
            Apart(SetNode(s, p, n.(rep := r, role := Follow(n.rep.primary), transferred := false, call := None)),
                  Next(s, StartSync(p)))
  {
  }

  lemma Ends(s: State, p: string, but: set<Rule>)
    requires p in s.nodes && s.nodes[p].role.Lead? && s.nodes[p].rep.backups == []
    requires s.nodes[p].rep.vidInsync == s.nodes[p].rep.vidCommit
    ensures Fine(s, EndSync(p), but)
    ensures var n := s.nodes[p];
            Next(s, EndSync(p)) ==
            SetNode(s, p, n.(rep := FinishSync(n.rep), role := Idle)).(finished := s.finished[n.rep.vidInsync := p])
  {
  }

  /** p leads a view whose only member it is. */
  lemma LeadsAlone(s: State, es: seq<Event>, u: State, p: string, but: set<Rule>) returns (fs: seq<Event>, t: State)
    requires Leads(s, es, u, but) && p in u.nodes && CanSync(u, p) && u.nodes[p].rep.primary == u.nodes[p].rep.me == p
    requires u.nodes[p].round.None? && ViewAt(u, u.nodes[p].rep.vidCommit) == [p]
    requires PREPARED in but || forall f | f in u.finished && f < u.nodes[p].rep.vidCommit :: p in ViewAt(u, f)
    ensures Leads(s, fs, t, but)
    ensures var n, v := u.nodes[p], u.nodes[p].rep.vidCommit;
            var r := n.rep.(vidInsync := v, insync := false, inviewchange := false, myvs := Vs(v, 1), backups := []);
            Apart(SetNode(u, p, Node(r, None, Idle, false, None, v)).(finished := u.finished[v := p]), t)
  {
    hide Leads, Fine, Next;
    StartsLead(u, p, but);
    assert ViewText.Without([p], p) == [] by { assert [p][..0] == []; }
    fs, t := Go(s, es, u, StartSync(p), but);
    Ends(t, p, but);
    fs, t := Go(s, fs, t, EndSync(p), but);
    var n, v := u.nodes[p], u.nodes[p].rep.vidCommit;
    var r := n.rep.(vidInsync := v, insync := false, inviewchange := false, myvs := Vs(v, 1), backups := []);
    assert t.nodes == u.nodes[p := Node(r, None, Idle, false, None, v)];
  }

  lemma Asked(s: State, p: string, req: string, but: set<Rule>)
    requires p in s.nodes && s.nodes[p].round.None? && (READY in but || AmIPrimary(s.nodes[p].rep))
    ensures Fine(s, ClientInvoke(p, req), but)
    ensures var round := Round(req, ViewText.Without(ViewAt(s, s.nodes[p].rep.myvs.vid), p), 0, None);
            Next(s, ClientInvoke(p, req)) == SetNode(s, p, s.nodes[p].(round := Some(round)))
  {
    hide ViewText.Without;
  }

  lemma Answered(s: State, p: string, but: set<Rule>)
    requires p in s.nodes && s.nodes[p].round.Some? && s.nodes[p].round.value.slaves == []
    requires s.nodes[p].round.value.k == 0
    ensures Fine(s, RoundDone(p), but)
    ensures var n := s.nodes[p];
            Next(s, RoundDone(p)) ==
            SetNode(s, p, n.(rep := Execute(n.rep, n.round.value.req), round := None)).(
              execs := s.execs + {Exec(p, n.rep.myvs, n.round.value.req, n.rep.hist)})
  {
    var n := s.nodes[p];
    assert Next(s, RoundDone(p)).nodes ==
           s.nodes[p := n.(rep := Execute(n.rep, n.round.value.req), round := None)];
  }

  /** A request at a node that has nobody to forward it to. */
  lemma ServesAlone(s: State, es: seq<Event>, u: State, p: string, req: string, but: set<Rule>)
    returns (fs: seq<Event>, t: State)
    requires Leads(s, es, u, but) && p in u.nodes && u.nodes[p].round.None?
    requires READY in but || AmIPrimary(u.nodes[p].rep)
    requires ViewText.Without(ViewAt(u, u.nodes[p].rep.myvs.vid), p) == []
    ensures Leads(s, fs, t, but)
    ensures var n := u.nodes[p];
            t == SetNode(u, p, n.(rep := Execute(n.rep, req))).(
                   execs := u.execs + {Exec(p, n.rep.myvs, req, n.rep.hist)})
  {
    hide Leads, Fine, Next;
    Asked(u, p, req, but);
    fs, t := Go(s, es, u, ClientInvoke(p, req), but);
    Answered(t, p, but);
    fs, t := Go(s, fs, t, RoundDone(p), but);
    assert t.nodes == u.nodes[p := u.nodes[p].(rep := Execute(u.nodes[p].rep, req))];
  }

  // ----- a transfer -----

  /** p, which follows m, may ask it now. */
  predicate MayAsk(s: State, p: string, m: string) {
    && p in s.nodes && m in s.nodes && p != m && s.nodes[p].role == Follow(m) && s.nodes[p].call.None?
    && !s.nodes[p].transferred && s.nodes[p].rep.vidInsync == s.nodes[p].rep.vidCommit
    && s.nodes[m].rep.insync && s.nodes[m].rep.vidInsync == s.nodes[p].rep.vidInsync
  }

  lemma Asks(s: State, p: string, m: string, but: set<Rule>)
    requires MayAsk(s, p, m)
    ensures Fine(s, SendTransfer(p), but)
    ensures var n := s.nodes[p];
            Next(s, SendTransfer(p)) ==
            SetNode(s, p, n.(call := Some(s.nextId))).(
              nextId := s.nextId + 1,
              net := s.net + {TransferMsg(s.nextId, p, m, n.rep.lastvs, n.rep.vidInsync)})
  {
  }

  lemma Served(s: State, r: Msg, but: set<Rule>)
    requires r in s.net && r.TransferMsg? && r.dst in s.nodes && (LEADER in but || s.nodes[r.dst].role.Lead?)
    requires s.nodes[r.dst].rep.insync && s.nodes[r.dst].rep.vidInsync == r.vid
    ensures Fine(s, RecvTransfer(r), but)
    ensures var d := s.nodes[r.dst].rep;
            Next(s, RecvTransfer(r)) ==
            s.(net := s.net +
                 {TransferRes(r.id, Transfer(if r.last != d.lastvs then Some(d.hist) else None, d.lastvs))})
  {
  }

  lemma Takes(s: State, p: string, a: Msg, but: set<Rule>)
    requires p in s.nodes && a in s.net && a.TransferRes? && s.nodes[p].role.Follow?
    requires !s.nodes[p].transferred && s.nodes[p].call == Some(a.id)
    ensures Fine(s, GotTransfer(p, a), but)
    ensures var n := s.nodes[p];
            Apart(SetNode(s, p, n.(rep := ApplyTransfer(n.rep, a.t), transferred := true, call := None,
                                   from := n.rep.vidInsync)),
                  Next(s, GotTransfer(p, a)))
  {
  }

  /** p takes m's state over. */
  lemma TakesOver(s: State, es: seq<Event>, u: State, p: string, m: string, but: set<Rule>)
    returns (fs: seq<Event>, t: State)
    requires Leads(s, es, u, but) && MayAsk(u, p, m) && (LEADER in but || u.nodes[m].role.Lead?)
    requires u.nodes[p].rep.lastvs == u.nodes[m].rep.lastvs ==> u.nodes[p].rep.hist == u.nodes[m].rep.hist
    ensures Leads(s, fs, t, but)
    ensures var n, d := u.nodes[p], u.nodes[m].rep;
            var r := n.rep.(hist := d.hist, lastvs := d.lastvs);
            && t == u.(nodes := t.nodes, nextId := t.nextId, net := t.net,
                       base := t.base, roles := t.roles, adopted := t.adopted)
            && t.nodes == u.nodes[p := n.(rep := r, transferred := true, from := n.rep.vidInsync)]
  {
    hide Leads, Fine, Next;
    var n, d := u.nodes[p], u.nodes[m].rep;
    var q := TransferMsg(u.nextId, p, m, n.rep.lastvs, n.rep.vidInsync);
    Asks(u, p, m, but);
    fs, t := Go(s, es, u, SendTransfer(p), but);
    Served(t, q, but);
    fs, t := Go(s, fs, t, RecvTransfer(q), but);
    var a := TransferRes(u.nextId, Transfer(if n.rep.lastvs != d.lastvs then Some(d.hist) else None, d.lastvs));
    assert a in t.net;
    Takes(t, p, a, but);
    fs, t := Go(s, fs, t, GotTransfer(p, a), but);
  }

  // ----- requests at nodes that are not ready -----

  /** client_invoke notes that it is busy or not the primary and goes on all the same: two nodes
      that joined no view yet execute different requests under the same viewstamp. */
  lemma UnreadyNodesDisagree() returns (es: seq<Event>, x: Exec, y: Exec)
    ensures var s0 := Init(SHORT, {"1", "2"});
            && Views.ViewChain(SHORT) && AnyRun(s0, es) && FineRun(s0, es, {READY})
            && x in After(s0, es).execs && y in After(s0, es).execs
    ensures x.vs == y.vs && x.req != y.req
  {
    ShortIsChain();
    var s0 := Init(SHORT, {"1", "2"});
    LeadsNowhere(s0, {READY});
    var t;
    assert ViewText.Without([], "1") == [] && ViewText.Without([], "2") == [];
    es, t := ServesAlone(s0, [], s0, "1", "a", {READY});
    es, t := ServesAlone(s0, es, t, "2", "b", {READY});
    x, y := Exec("1", Vs(0, 1), "a", []), Exec("2", Vs(0, 1), "b", []);
    hide FineRun;
  }

  // ----- a short chain of views -----

  const SHORT := [["1"], ["1", "2"], ["2"], ["2", "1"]]

  lemma ShortIsChain()
    ensures Views.ViewChain(SHORT)
    ensures Views.NextPrimary("1", [], ["1"]) == Some("1") && Views.NextPrimary("1", ["1"], ["1", "2"]) == Some("1")
    ensures Views.NextPrimary("1", ["1", "2"], ["2"]) == Some("2")
    ensures Views.NextPrimary("2", ["2"], ["2", "1"]) == Some("2")
  {
    Views.FourViews();
    assert Views.FirstIn(["1", "2"][1..], ["2"]) == Some("2");
  }

  /** An acknowledged request that a member of a later finished view does not hold. */
  ghost predicate Lost(s: State, x: Exec, v: nat, b: string) {
    && Acked(s, x) && v in s.finished && x.vs.vid < v && b in ViewAt(s, v)
    && b in s.nodes && Entry(x.vs, x.req) !in s.nodes[b].rep.hist
  }

  const ACKED := Exec("1", Vs(1, 1), "a", [])

  /** Node 1 commits the first view, leads it and answers a request there. */
  lemma FirstServes(s: State, es: seq<Event>, u: State, but: set<Rule>) returns (fs: seq<Event>, t: State)
    requires Leads(s, es, u, but) && "1" in u.nodes && ViewAt(u, 1) == ["1"] && 0 !in u.finished
    requires u.nodes["1"] == Node(Fresh("1", "1"), None, Idle, false, None, 0)
    ensures Leads(s, fs, t, but) && t.views == u.views && ACKED in t.execs && t.finished == u.finished[1 := "1"]
    ensures t.nodes == u.nodes["1" := Node(
                Replica("1", Vs(1, 2), Vs(1, 1), [Entry(Vs(1, 1), "a")], "1", false, false, 1, 1, []),
                None, Idle, false, None, 1)]
  {
    hide Leads, Fine, Next;
    assert Views.NextPrimary("1", [], ["1"]) == Some("1");
    Commits(u, "1", 1, "1", "1", but);
    fs, t := Go(s, es, u, CommitView("1", 1), but);
    fs, t := LeadsAlone(s, fs, t, "1", but);
    assert ViewText.Without(["1"], "1") == [] by { assert ["1"][..0] == []; }
    assert [] + [Entry(Vs(1, 1), "a")] == [Entry(Vs(1, 1), "a")];
    fs, t := ServesAlone(s, fs, t, "1", "a", but);
  }

  lemma ShortStarts(but: set<Rule>) returns (s: State)
    ensures s == Init(SHORT, {"1", "2"}) && s.views == SHORT && s.finished == map[] && Leads(s, [], s, but)
    ensures s.nodes == map["1" := Node(Fresh("1", "1"), None, Idle, false, None, 0),
                           "2" := Node(Fresh("1", "2"), None, Idle, false, None, 0)]
    ensures ViewAt(s, 0) == [] && ViewAt(s, 1) == ["1"] && ViewAt(s, 2) == ["1", "2"] && ViewAt(s, 3) == ["2"]
    ensures ViewAt(s, 4) == ["2", "1"]
  {
    s := Init(SHORT, {"1", "2"});
    LeadsNowhere(s, but);
  }

  /** A leader that was in no finished view: node 2 leads view 3 without ever having synced. */
  lemma UnpreparedLeaderLosesRequest() returns (es: seq<Event>)
    ensures var s0 := Init(SHORT, {"1", "2"});
            && Views.ViewChain(SHORT) && AnyRun(s0, es) && FineRun(s0, es, {PREPARED})
            && Lost(After(s0, es), ACKED, 3, "2")
  {
    hide Fine, Next, Leads, Init, AnyRun, FineRun, After, Views.NextPrimary, Views.ViewChain;
    var but := {PREPARED};
    var s0 := ShortStarts(but);
    var t;
    es, t := FirstServes(s0, [], s0, but);
    ShortIsChain();
    Commits(t, "1", 2, "1", "1", but);
    es, t := Go(s0, es, t, CommitView("1", 2), but);
    Commits(t, "1", 3, "2", "1", but);
    es, t := Go(s0, es, t, CommitView("1", 3), but);
    Commits(t, "2", 3, "2", "1", but);
    es, t := Go(s0, es, t, CommitView("2", 3), but);
    es, t := LeadsAlone(s0, es, t, "2", but);
    Arrives(s0, es, t, but);
  }

  /** A node that learns a view nobody else knows: node 2 finishes view 3 before view 1 began. */
  lemma UninformedNodeMissesRequest() returns (es: seq<Event>)
    ensures var s0 := Init(SHORT, {"1", "2"});
            && Views.ViewChain(SHORT) && AnyRun(s0, es) && FineRun(s0, es, {INFORMED})
            && Lost(After(s0, es), ACKED, 3, "2")
  {
    hide Fine, Next, Leads, Init, AnyRun, FineRun, After, Views.NextPrimary, Views.ViewChain;
    var but := {INFORMED};
    var s0 := ShortStarts(but);
    ShortIsChain();
    Commits(s0, "2", 3, "2", "1", but);
    var t;
    es, t := Go(s0, [], s0, CommitView("2", 3), but);
    es, t := LeadsAlone(s0, es, t, "2", but);
    es, t := FirstServes(s0, es, t, but);
    Arrives(s0, es, t, but);
  }

  // ----- a follower that still has a round -----

  lemma Confirms(s: State, es: seq<Event>, u: State, p: string, m: string, but: set<Rule>)
    returns (fs: seq<Event>, t: State)
    requires Leads(s, es, u, but) && p in u.nodes && m in u.nodes && p != m && u.nodes[p].role == Follow(m)
    requires u.nodes[p].transferred && u.nodes[p].call.None?
    requires u.nodes[m].rep.vidInsync != 0 && u.nodes[m].rep.vidCommit == u.nodes[p].rep.vidInsync
    ensures Leads(s, fs, t, but) && t == u.(nodes := t.nodes, nextId := t.nextId, net := t.net)
    ensures var d := u.nodes[m];
            t.nodes == u.nodes[p := u.nodes[p].(call := Some(u.nextId))]
                              [m := d.(rep := d.rep.(backups := EraseFirst(d.rep.backups, p)))]
  {
    hide Leads, EraseFirst;
    var q := DoneMsg(u.nextId, p, m, u.nodes[p].rep.vidInsync);
    fs, t := Go(s, es, u, SendDone(p), but);
    assert q in t.net;
    fs, t := Go(s, fs, t, RecvDone(q), but);
  }

  const HELD := Node(Replica("1", Vs(1, 1), Vs(0, 0), [], "1", false, false, 1, 1, []),
                     Some(Round("a", [], 0, None)), Idle, false, None, 1)

  /** Both nodes commit the views up to 4, in which node 2 is the primary. */
  lemma ShortPasses(s: State, es: seq<Event>, u: State, but: set<Rule>) returns (fs: seq<Event>, t: State)
    requires Leads(s, es, u, but) && u.views == SHORT
    requires u.nodes == map["1" := HELD, "2" := Node(Fresh("1", "2"), None, Idle, false, None, 0)]
    ensures Leads(s, fs, t, but) && t == u.(nodes := t.nodes)
    ensures t.nodes == map["1" := HELD.(rep := HELD.rep.(vidCommit := 4, primary := "2", inviewchange := true)),
                           "2" := Node(Fresh("1", "2").(vidCommit := 4, primary := "2"), None, Idle, false, None, 0)]
  {
    hide Fine, Next, Leads, Views.NextPrimary, Views.ViewChain;
    ShortIsChain();
    Commits(u, "1", 2, "1", "1", but);
    fs, t := Go(s, es, u, CommitView("1", 2), but);
    Commits(t, "1", 3, "2", "1", but);
    fs, t := Go(s, fs, t, CommitView("1", 3), but);
    Commits(t, "2", 3, "2", "1", but);
    fs, t := Go(s, fs, t, CommitView("2", 3), but);
    Commits(t, "2", 4, "2", "1", but);
    fs, t := Go(s, fs, t, CommitView("2", 4), but);
    Commits(t, "1", 4, "2", "2", but);
    fs, t := Go(s, fs, t, CommitView("1", 4), but);
  }

  /** Node 2 leads view 4; node 1 follows, round and all, up to its confirmation. */
  lemma ShortSyncs(s: State, es: seq<Event>, u: State, but: set<Rule>) returns (fs: seq<Event>, t: State)
    requires Leads(s, es, u, but) && u.views == SHORT && DRAINED in but && PREPARED in but
    requires u.nodes == map["1" := HELD.(rep := HELD.rep.(vidCommit := 4, primary := "2", inviewchange := true)),
                            "2" := Node(Fresh("1", "2").(vidCommit := 4, primary := "2"), None, Idle, false, None, 0)]
    ensures Leads(s, fs, t, but) && t.views == SHORT && "1" in t.nodes && "2" in t.nodes
    ensures t.nodes["1"].round == HELD.round && t.nodes["1"].rep.hist == [] && t.nodes["1"].rep.vidCommit == 4
    ensures var n := t.nodes["2"];
            n.role.Lead? && n.rep.backups == [] && n.rep.vidInsync == n.rep.vidCommit == 4 && n.rep.hist == []
  {
    hide Fine, Next, Leads;
    assert ViewText.Without(["2", "1"], "2") == ["1"] by { BackupsOfTwo("2", "1"); }
    StartsLead(u, "2", but);
    fs, t := Go(s, es, u, StartSync("2"), but);
    StartsFollow(t, "1", but);
    fs, t := Go(s, fs, t, StartSync("1"), but);
    fs, t := TakesOver(s, fs, t, "1", "2", but);
    fs, t := Confirms(s, fs, t, "1", "2", but);
  }

  lemma BackupsOfTwo(p: string, q: string)
    requires p != q
    ensures ViewText.Without([p, q], p) == [q]
  {
    assert [p, q][..1] == [p] && [p][..0] == [];
    assert ViewText.Without([p], p) == [];
    assert [] + [q] == [q];
  }

  /** Node 1 still has a request of view 1 when it comes back into view 4 as a backup: it takes node
      2's state over, confirms, and then executes the request. */
  lemma RoundBreaksSync() returns (es: seq<Event>)
    ensures var s0 := Init(SHORT, {"1", "2"});
            && Views.ViewChain(SHORT) && AnyRun(s0, es) && FineRun(s0, es, {DRAINED, PREPARED})
            && (var t := After(s0, es);
                && Enabled(t, EndSync("2")) && "1" in ViewAt(t, 4) && "1" in t.nodes
                && t.nodes["1"].rep.vidCommit == t.nodes["2"].rep.vidCommit == 4
                && t.nodes["1"].rep.hist != t.nodes["2"].rep.hist)
  {
    hide Fine, Next, Leads, Init, AnyRun, FineRun, After, Views.NextPrimary, Views.ViewChain;
    var but := {DRAINED, PREPARED};
    var s0 := ShortStarts(but);
    ShortIsChain();
    var t;
    Commits(s0, "1", 1, "1", "1", but);
    es, t := Go(s0, [], s0, CommitView("1", 1), but);
    es, t := LeadsAlone(s0, es, t, "1", but);
    assert ViewText.Without(["1"], "1") == [] by { assert ["1"][..0] == []; }
    Asked(t, "1", "a", but);
    es, t := Go(s0, es, t, ClientInvoke("1", "a"), but);
    es, t := ShortPasses(s0, es, t, but);
    es, t := ShortSyncs(s0, es, t, but);
    Answered(t, "1", but);
    es, t := Go(s0, es, t, RoundDone("1"), but);
    assert |t.nodes["1"].rep.hist| == 1;
    Arrives(s0, es, t, but);
  }

  // ----- a transfer from a node that follows -----

  const LONG := [["1"], ["1", "2"], ["1", "2", "3"], ["2", "3"], ["2", "3", "1"], ["3", "1"], ["1"]]

  lemma Drops(a: seq<string>, p: string)
    requires Views.Distinct(a) && |a| >= 2 && p in a && p != a[0]
    ensures Views.OneChange(a, a[1..])
  {
    Views.WithoutHead(a, a[0]);
    assert PaxosSystem.ValidChange(a, p, PaxosSystem.Remove(a[0]));
    assert a[1..] == PaxosSystem.Changed(a, PaxosSystem.Remove(a[0]));
  }

  lemma Adds(a: seq<string>, m: string)
    requires Text.IsName(m) && m !in a
    ensures Views.OneChange(a, a + [m])
  {
    assert PaxosSystem.ValidChange(a, "", PaxosSystem.Add(m));
    assert a + [m] == PaxosSystem.Changed(a, PaxosSystem.Add(m));
  }

  lemma LongIsChain()
    ensures Views.ViewChain(LONG)
  {
    hide Views.OneChange;
    Adds(["1"], "2");
    Adds(["1", "2"], "3");
    Drops(["1", "2", "3"], "2");
    Adds(["2", "3"], "1");
    Drops(["2", "3", "1"], "3");
    Drops(["3", "1"], "1");
    assert ["1"] + ["2"] == LONG[1] && ["1", "2"] + ["3"] == LONG[2] && LONG[2][1..] == LONG[3];
    assert ["2", "3"] + ["1"] == LONG[4] && LONG[4][1..] == LONG[5] && LONG[5][1..] == LONG[6];
  }

  lemma LongNames()
    ensures Views.NextPrimary("1", ["1"], ["1", "2"]) == Some("1")
    ensures Views.NextPrimary("1", ["1", "2"], ["1", "2", "3"]) == Some("1")
    ensures Views.NextPrimary("1", ["1", "2", "3"], ["2", "3"]) == Some("2")
    ensures Views.NextPrimary("2", ["2", "3"], ["2", "3", "1"]) == Some("2")
    ensures Views.NextPrimary("1", ["2", "3"], ["2", "3", "1"]) == Some("1")
    ensures Views.NextPrimary("2", ["2", "3", "1"], ["3", "1"]) == Some("3")
    ensures Views.NextPrimary("3", ["3", "1"], ["1"]) == Some("1")
  {
    assert Views.FirstIn(["1", "2", "3"][1..], ["2", "3"]) == Some("2");
    assert Views.FirstIn(["2", "3", "1"][1..], ["3", "1"]) == Some("3");
    assert Views.FirstIn(["3", "1"][1..], ["1"]) == Some("1");
  }

  /** Views 1 to 7 are those of LONG. */
  predicate OfLong(s: State) {
    && s.views == LONG && ViewAt(s, 0) == [] && ViewAt(s, 1) == ["1"] && ViewAt(s, 2) == ["1", "2"]
    && ViewAt(s, 3) == ["1", "2", "3"] && ViewAt(s, 4) == ["2", "3"] && ViewAt(s, 5) == ["2", "3", "1"]
    && ViewAt(s, 6) == ["3", "1"] && ViewAt(s, 7) == ["1"]
  }

  const SERVER := Node(Replica("1", Vs(1, 2), Vs(1, 1), [Entry(Vs(1, 1), "a")], "1", false, false, 1, 1, []),
                       None, Idle, false, None, 1)

  lemma LongStarts(but: set<Rule>) returns (s: State, es: seq<Event>, t: State)
    ensures s == Init(LONG, {"1", "2", "3"}) && Leads(s, es, t, but) && OfLong(t)
    ensures ACKED in t.execs && t.finished == map[1 := "1"]
    ensures t.nodes == map["1" := SERVER, "2" := Node(Fresh("1", "2"), None, Idle, false, None, 0),
                           "3" := Node(Fresh("1", "3"), None, Idle, false, None, 0)]
  {
    s := Init(LONG, {"1", "2", "3"});
    LeadsNowhere(s, but);
    var fresh1 := Node(Fresh("1", "1"), None, Idle, false, None, 0);
    assert s.nodes == map["1" := fresh1, "2" := Node(Fresh("1", "2"), None, Idle, false, None, 0),
                          "3" := Node(Fresh("1", "3"), None, Idle, false, None, 0)];
    assert OfLong(s);
    hide Leads, Init, ViewAt;
    es, t := FirstServes(s, [], s, but);
    SameShape(s, t);
  }

  /** Node 1 goes out of view 4 and back into view 5 behind node 2, which it then names; node 3
      passes the views on. */
  lemma FirstReturns(s: State, es: seq<Event>, u: State, but: set<Rule>) returns (fs: seq<Event>, t: State)
    requires Leads(s, es, u, but) && OfLong(u)
    requires u.nodes == map["1" := SERVER, "2" := Node(Fresh("1", "2"), None, Idle, false, None, 0),
                            "3" := Node(Fresh("1", "3"), None, Idle, false, None, 0)]
    ensures Leads(s, fs, t, but) && OfLong(t) && t == u.(nodes := t.nodes)
    ensures t.nodes == map["1" := SERVER.(rep := SERVER.rep.(vidCommit := 5, primary := "2", inviewchange := true)),
                           "2" := Node(Fresh("1", "2"), None, Idle, false, None, 0),
                           "3" := Node(Fresh("1", "3").(vidCommit := 5, primary := "2"), None, Idle, false, None, 0)]
  {
    hide Fine, Next, Leads, Views.NextPrimary, ViewAt;
    LongNames();
    Commits(u, "1", 2, "1", "1", but);
    fs, t := Go(s, es, u, CommitView("1", 2), but);
    SameShape(u, t);
    Commits(t, "1", 3, "1", "1", but);
    fs, t := Go(s, fs, t, CommitView("1", 3), but);
    SameShape(u, t);
    Commits(t, "1", 4, "2", "1", but);
    fs, t := Go(s, fs, t, CommitView("1", 4), but);
    SameShape(u, t);
    Commits(t, "3", 4, "2", "1", but);
    fs, t := Go(s, fs, t, CommitView("3", 4), but);
    SameShape(u, t);
    Commits(t, "3", 5, "2", "1", but);
    fs, t := Go(s, fs, t, CommitView("3", 5), but);
    SameShape(u, t);
    Commits(t, "1", 5, "2", "3", but);
    fs, t := Go(s, fs, t, CommitView("1", 5), but);
    SameShape(u, t);
  }

  lemma SameShape(s: State, t: State)
    requires OfLong(s) && t.views == s.views
    ensures OfLong(t)
  {
  }

  /** Node 2 skips to view 5 and still names node 1: the two follow each other, and node 1 takes over
      node 2's empty state. */
  lemma BothFollow(s: State, es: seq<Event>, u: State, but: set<Rule>) returns (fs: seq<Event>, t: State)
    requires Leads(s, es, u, but) && OfLong(u) && LEADER in but
    requires u.nodes == map["1" := SERVER.(rep := SERVER.rep.(vidCommit := 5, primary := "2", inviewchange := true)),
                            "2" := Node(Fresh("1", "2"), None, Idle, false, None, 0),
                            "3" := Node(Fresh("1", "3").(vidCommit := 5, primary := "2"), None, Idle, false, None, 0)]
    ensures Leads(s, fs, t, but) && OfLong(t) && t.execs == u.execs && t.finished == u.finished && "1" in t.nodes
    ensures t.nodes["1"] == Node(Replica("1", Vs(1, 2), Vs(0, 0), [], "2", true, true, 5, 5, []),
                                 None, Follow("2"), true, None, 5)
  {
    hide Fine, Next, Leads, Views.NextPrimary, ViewAt;
    LongNames();
    Commits(u, "2", 5, "1", "3", but);
    fs, t := Go(s, es, u, CommitView("2", 5), but);
    SameShape(u, t);
    StartsFollow(t, "2", but);
    fs, t := Go(s, fs, t, StartSync("2"), but);
    SameShape(u, t);
    StartsFollow(t, "1", but);
    fs, t := Go(s, fs, t, StartSync("1"), but);
    SameShape(u, t);
    fs, t := TakesOver(s, fs, t, "1", "2", but);
    SameShape(u, t);
  }

  lemma Aborts(s: State, p: string, but: set<Rule>)
    requires p in s.nodes && s.nodes[p].role.Follow? && s.nodes[p].rep.vidInsync != s.nodes[p].rep.vidCommit
    ensures Fine(s, AbortSync(p), but)
    ensures var n := s.nodes[p];
            Next(s, AbortSync(p)) ==
            SetNode(s, p, n.(rep := LeaveSync(n.rep), role := Idle, transferred := false, call := None))
  {
  }

  /** Node 1 goes on to view 7, which it leads alone. */
  lemma LeadsLast(s: State, es: seq<Event>, u: State, but: set<Rule>) returns (fs: seq<Event>, t: State)
    requires Leads(s, es, u, but) && OfLong(u) && u.finished == map[1 := "1"] && "1" in u.nodes && ACKED in u.execs
    requires u.nodes["1"] == Node(Replica("1", Vs(1, 2), Vs(0, 0), [], "2", true, true, 5, 5, []),
                                  None, Follow("2"), true, None, 5)
    ensures Leads(s, fs, t, but) && Lost(t, ACKED, 7, "1")
  {
    hide Fine, Next, Leads, Views.NextPrimary, ViewAt;
    LongNames();
    Commits(u, "1", 6, "3", "1", but);
    fs, t := Go(s, es, u, CommitView("1", 6), but);
    SameShape(u, t);
    Commits(t, "1", 7, "1", "1", but);
    fs, t := Go(s, fs, t, CommitView("1", 7), but);
    SameShape(u, t);
    Aborts(t, "1", but);
    fs, t := Go(s, fs, t, AbortSync("1"), but);
    SameShape(u, t);
    fs, t := LeadsAlone(s, fs, t, "1", but);
    SameShape(u, t);
  }

  /** transferreq asks whether the node is syncing, not whether it leads. With every other assumption
      met, node 1 loses the request it answered and then leads and finishes view 7 without it. */
  lemma FollowerAnswerLosesRequest() returns (es: seq<Event>)
    ensures var s0 := Init(LONG, {"1", "2", "3"});
            && Views.ViewChain(LONG) && AnyRun(s0, es) && FineRun(s0, es, {LEADER})
            && Lost(After(s0, es), ACKED, 7, "1")
  {
    hide Fine, Next, Leads, Init, AnyRun, FineRun, After, Views.NextPrimary, Views.ViewChain, ViewAt;
    var but := {LEADER};
    LongIsChain();
    LongNames();
    var s0, t;
    s0, es, t := LongStarts(but);
    es, t := FirstReturns(s0, es, t, but);
    es, t := BothFollow(s0, es, t, but);
    es, t := LeadsLast(s0, es, t, but);
    Arrives(s0, es, t, but);
  }
}
