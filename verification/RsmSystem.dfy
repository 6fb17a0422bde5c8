/** Primary/backup replication over all replicas: client rounds forwarded one backup at a
    time, view changes, state transfer, and a network that loses, delays, duplicates and
    reorders. Views come from an agreed chain; a node commits them in turn or, joining, skips some. */
module RsmSystem {
  import opened Options
  import opened Rsm
  import ViewText

  /** A client_invoke in progress: it holds invoke_mutex; `call` is the call it waits for. */
  datatype Round = Round(req: string, slaves: seq<string>, k: nat, call: Option<nat>)

  /** Where the recovery thread is: not syncing, waiting for the backups, or syncing with the
      primary it remembered when it started. */
  datatype Role = Idle | Lead | Follow(m: string)

  /** A replica with the position of its threads. `from` records the view whose starting state
      the replica's state goes back to. */
  datatype Node = Node(
    rep: Replica, round: Option<Round>, role: Role, transferred: bool, call: Option<nat>, from: nat)

  datatype Msg =
    | InvokeMsg(id: nat, src: string, dst: string, vs: Viewstamp, req: string)
    | InvokeOk(id: nat)
    | TransferMsg(id: nat, src: string, dst: string, last: Viewstamp, vid: nat)
    | TransferRes(id: nat, t: Transfer)
    | DoneMsg(id: nat, src: string, dst: string, vid: nat)
    | DoneOk(id: nat)

  /** Node `node` executed `req` under `vs` when its state was `before`. */
  datatype Exec = Exec(node: string, vs: Viewstamp, req: string, before: seq<Entry>)

  /** A leader's state when it began to sync a view, and the view that state went back to. */
  datatype Snap = Snap(hist: seq<Entry>, last: Viewstamp, parent: nat)

  /** The last five fields record what happened and no step reads them: every execution, what each
      leader started each view from, who led the sync that finished a view, whom a node synced a
      view with, and who has the state it synced for. */
  datatype State = State(
    views: seq<seq<string>>, nodes: map<string, Node>, nextId: nat, net: set<Msg>,
    execs: set<Exec>, base: map<(string, nat), Snap>, finished: map<nat, string>,
    roles: map<(string, nat), string>, adopted: set<(string, nat)>)

  datatype Event =
    | ClientInvoke(p: string, req: string)
    | SendInvoke(p: string)
    | RecvInvoke(m: Msg)
    | RoundOk(p: string)
    | RoundFail(p: string)
    | RoundDone(p: string)
    | CommitView(p: string, v: nat)  // the next view, or a later one for a node that joins
    | StartSync(p: string)
    | AbortSync(p: string)
    | SendTransfer(p: string)
    | RecvTransfer(m: Msg)
    | GotTransfer(p: string, m: Msg)
    | SendDone(p: string)
    | RecvDone(m: Msg)
    | GotDone(p: string)
    | CallFail(p: string)
    | EndSync(p: string)

  /** get_view(v): no members where nothing was agreed. */
  function ViewAt(s: State, v: nat): seq<string> {
    if 1 <= v <= |s.views| then s.views[v - 1] else []
  }

  function Init(views: seq<seq<string>>, names: set<string>): State
    requires views != [] && views[0] != []
  {
    State(views, map p | p in names :: Node(Rsm.Fresh(views[0][0], p), None, Idle, false, None, 0),
          0, {}, {}, map[], map[], map[], {})
  }

  predicate IsPrimary(n: Node) {
    n.rep.primary == n.rep.me
  }

  /** The recovery thread of p has something to do. */
  predicate CanSync(s: State, p: string)
    requires p in s.nodes
  {
    var r := s.nodes[p].rep;
    !r.insync && r.inviewchange && r.vidInsync < r.vidCommit && p in ViewAt(s, r.vidCommit)
  }

  predicate Enabled(s: State, e: Event) {
    match e
    case ClientInvoke(p, _) => p in s.nodes && s.nodes[p].round.None?
    case SendInvoke(p) =>
      && p in s.nodes && s.nodes[p].round.Some? && s.nodes[p].round.value.call.None?
      && s.nodes[p].round.value.k < |s.nodes[p].round.value.slaves|
    case RecvInvoke(m) => m in s.net && m.InvokeMsg? && m.dst in s.nodes && s.nodes[m.dst].round.None?
    case RoundOk(p) =>
      && p in s.nodes && s.nodes[p].round.Some? && s.nodes[p].round.value.call.Some?
      && InvokeOk(s.nodes[p].round.value.call.value) in s.net
    case RoundFail(p) =>
      && p in s.nodes && s.nodes[p].round.Some?
      && s.nodes[p].round.value.k < |s.nodes[p].round.value.slaves|
    case RoundDone(p) =>
      && p in s.nodes && s.nodes[p].round.Some?
      && s.nodes[p].round.value.k == |s.nodes[p].round.value.slaves|
    case CommitView(p, v) =>
      && p in s.nodes && s.nodes[p].rep.vidCommit < v <= |s.views|
      && CommitChange(s.nodes[p].rep, v, ViewAt(s, v - 1), ViewAt(s, v)).Some?
    case StartSync(p) => p in s.nodes && CanSync(s, p) && (IsPrimary(s.nodes[p]) ==> s.nodes[p].round.None?)
    case AbortSync(p) =>
      p in s.nodes && !s.nodes[p].role.Idle? && s.nodes[p].rep.vidInsync != s.nodes[p].rep.vidCommit
    case SendTransfer(p) =>
      && p in s.nodes && s.nodes[p].role.Follow?
      && s.nodes[p].rep.vidInsync == s.nodes[p].rep.vidCommit
      && !s.nodes[p].transferred && s.nodes[p].call.None?
    case RecvTransfer(m) => m in s.net && m.TransferMsg? && m.dst in s.nodes
    case GotTransfer(p, m) =>
      && p in s.nodes && m in s.net && m.TransferRes? && s.nodes[p].role.Follow?
      && !s.nodes[p].transferred && s.nodes[p].call == Some(m.id)
    case SendDone(p) =>
      p in s.nodes && s.nodes[p].role.Follow? && s.nodes[p].transferred && s.nodes[p].call.None?
    case RecvDone(m) => m in s.net && m.DoneMsg? && m.dst in s.nodes
    case GotDone(p) =>
      && p in s.nodes && s.nodes[p].role.Follow? && s.nodes[p].transferred && s.nodes[p].call.Some?
      && DoneOk(s.nodes[p].call.value) in s.net
      && s.nodes[p].rep.vidInsync == s.nodes[p].rep.vidCommit
    case CallFail(p) => p in s.nodes && s.nodes[p].call.Some?
    case EndSync(p) =>
      && p in s.nodes && s.nodes[p].role.Lead?
      && s.nodes[p].rep.vidInsync == s.nodes[p].rep.vidCommit && s.nodes[p].rep.backups == []
  }

  /** Requests reach a node only when it may serve them: the test client_invoke makes without
      acting on it. */
  predicate Ready(s: State, e: Event)
    requires Enabled(s, e)
  {
    e.ClientInvoke? ==> AmIPrimary(s.nodes[e.p].rep)
  }

  /** A node starts to follow only when no client round is left at it: only a leader waits for
      invoke_mutex. */
  predicate Drained(s: State, e: Event)
    requires Enabled(s, e)
  {
    e.StartSync? ==> s.nodes[e.p].round.None?
  }

  /** A transfer is answered only by a node that leads: transferreq looks at insync, which holds of
      a node that follows as well. */
  predicate FromLeader(s: State, e: Event)
    requires Enabled(s, e)
  {
    e.RecvTransfer? && HandleTransfer(s.nodes[e.m.dst].rep, e.m.last, e.m.vid).Some? ==>
      s.nodes[e.m.dst].role.Lead?
  }

  /** A node that skips views still names a node the new view does not contain, or its head.
      Nodes that commit every view in turn always do. */
  predicate Named(s: State, e: Event)
    requires Enabled(s, e)
  {
    e.CommitView? ==>
      var view := ViewAt(s, e.v);
      s.nodes[e.p].rep.primary !in view || view[0] == s.nodes[e.p].rep.primary
  }

  /** A node learns a view in turn as a member of the view before, or from a node that knows it. */
  predicate Informed(s: State, e: Event)
    requires Enabled(s, e)
  {
    e.CommitView? ==>
      || e.v == 1
      || (e.v == s.nodes[e.p].rep.vidCommit + 1 && e.p in ViewAt(s, e.v - 1))
      || (exists m :: m in s.nodes && s.nodes[m].rep.vidCommit >= e.v)
  }

  /** A primary that starts to sync a view was a member of the last view below it that finished. */
  predicate Prepared(s: State, e: Event)
    requires Enabled(s, e)
  {
    e.StartSync? && IsPrimary(s.nodes[e.p]) ==>
      forall f | f in s.finished && f < s.nodes[e.p].rep.vidCommit
                 && (forall g | g in s.finished && g < s.nodes[e.p].rep.vidCommit :: g <= f) ::
        e.p in ViewAt(s, f)
  }

  function SetNode(s: State, p: string, n: Node): State {
    s.(nodes := s.nodes[p := n])
  }

  /** p runs a request under its current stamp. */
  function Executed(s: State, p: string, req: string): State
    requires p in s.nodes
  {
    var n := s.nodes[p];
    SetNode(s, p, n.(rep := Execute(n.rep, req))).(
      execs := s.execs + {Exec(p, n.rep.myvs, req, n.rep.hist)})
  }

  function Sent(s: State, p: string, n: Node, m: Msg): State {
    SetNode(s, p, n).(nextId := s.nextId + 1, net := s.net + {m})
  }

  function Next(s: State, e: Event): State
    requires Enabled(s, e)
  {
    match e
    case ClientInvoke(p, req) =>
      var n := s.nodes[p];
      SetNode(s, p, n.(round := Some(Round(req, ViewText.Without(ViewAt(s, n.rep.myvs.vid), p), 0, None))))
    case SendInvoke(p) =>
      var n := s.nodes[p];
      var rd := n.round.value;
      Sent(s, p, n.(round := Some(rd.(call := Some(s.nextId)))),
           InvokeMsg(s.nextId, p, rd.slaves[rd.k], n.rep.myvs, rd.req))
    case RecvInvoke(m) =>
      var n := s.nodes[m.dst];
      var (r, st) := HandleInvoke(n.rep, m.vs, m.req);
      if st == OK then
        SetNode(s, m.dst, n.(rep := r)).(
          execs := s.execs + {Exec(m.dst, n.rep.myvs, m.req, n.rep.hist)}, net := s.net + {InvokeOk(m.id)})
      else s
    case RoundOk(p) =>
      var n := s.nodes[p];
      SetNode(s, p, n.(round := Some(n.round.value.(k := n.round.value.k + 1, call := None))))
    case RoundFail(p) => SetNode(s, p, s.nodes[p].(round := None))
    case RoundDone(p) =>
      var t := Executed(s, p, s.nodes[p].round.value.req);
      SetNode(t, p, t.nodes[p].(round := None))
    case CommitView(p, v) =>
      SetNode(s, p, s.nodes[p].(rep := CommitChange(s.nodes[p].rep, v, ViewAt(s, v - 1), ViewAt(s, v)).value))
    case StartSync(p) =>
      var n := s.nodes[p];
      var r := BeginSync(n.rep, ViewAt(s, n.rep.vidCommit));
      if IsPrimary(n) then
        SetNode(s, p, n.(rep := r, role := Lead, transferred := false, call := None, from := r.vidInsync)).(
          base := s.base[(p, r.vidInsync) := Snap(r.hist, r.lastvs, n.from)],
          roles := s.roles[(p, r.vidInsync) := p], adopted := s.adopted + {(p, r.vidInsync)})
      else
        SetNode(s, p, n.(rep := r, role := Follow(n.rep.primary), transferred := false, call := None)).(
          roles := s.roles[(p, r.vidInsync) := n.rep.primary])
    case AbortSync(p) =>
      SetNode(s, p, s.nodes[p].(rep := LeaveSync(s.nodes[p].rep), role := Idle, transferred := false, call := None))
    case SendTransfer(p) =>
      var n := s.nodes[p];
      Sent(s, p, n.(call := Some(s.nextId)),
           TransferMsg(s.nextId, p, n.role.m, n.rep.lastvs, n.rep.vidInsync))
    case RecvTransfer(m) =>
      (match HandleTransfer(s.nodes[m.dst].rep, m.last, m.vid)
       case None => s
       case Some(t) => s.(net := s.net + {TransferRes(m.id, t)}))
    case GotTransfer(p, m) =>
      var n := s.nodes[p];
      SetNode(s, p, n.(rep := ApplyTransfer(n.rep, m.t), transferred := true, call := None, from := n.rep.vidInsync)).(
        adopted := s.adopted + {(p, n.rep.vidInsync)})
    case SendDone(p) =>
      var n := s.nodes[p];
      Sent(s, p, n.(call := Some(s.nextId)), DoneMsg(s.nextId, p, n.role.m, n.rep.vidInsync))
    case RecvDone(m) =>
      var n := s.nodes[m.dst];
      var (r, st) := HandleTransferDone(n.rep, m.src, m.vid);
      if st == OK then SetNode(s, m.dst, n.(rep := r)).(net := s.net + {DoneOk(m.id)}) else s
    case GotDone(p) =>
      SetNode(s, p, s.nodes[p].(rep := FinishSync(s.nodes[p].rep), role := Idle, transferred := false, call := None))
    case CallFail(p) => SetNode(s, p, s.nodes[p].(transferred := false, call := None))
    case EndSync(p) =>
      SetNode(s, p, s.nodes[p].(rep := FinishSync(s.nodes[p].rep), role := Idle)).(
        finished := s.finished[s.nodes[p].rep.vidInsync := p])
  }

  /** A run in which requests only reach ready primaries and followers start without a round. */
  predicate ReadyRun(s: State, es: seq<Event>)
    decreases |es|
  {
    es == [] || (Enabled(s, es[0]) && Ready(s, es[0]) && Drained(s, es[0]) && ReadyRun(Next(s, es[0]), es[1..]))
  }

  /** The assumptions under which acknowledged requests survive. */
  predicate Good(s: State, e: Event)
    requires Enabled(s, e)
  {
    Ready(s, e) && Drained(s, e) && FromLeader(s, e) && Informed(s, e) && Prepared(s, e)
  }

  predicate GoodRun(s: State, es: seq<Event>)
    decreases |es|
  {
    es == [] || (Enabled(s, es[0]) && Good(s, es[0]) && GoodRun(Next(s, es[0]), es[1..]))
  }

  /** A run in which every commit names the common primary. */
  predicate NamedRun(s: State, es: seq<Event>)
    decreases |es|
  {
    es == [] || (Enabled(s, es[0]) && Named(s, es[0]) && NamedRun(Next(s, es[0]), es[1..]))
  }

  predicate AnyRun(s: State, es: seq<Event>)
    decreases |es|
  {
    es == [] || (Enabled(s, es[0]) && AnyRun(Next(s, es[0]), es[1..]))
  }

  function After(s: State, es: seq<Event>): State
    requires AnyRun(s, es)
    decreases |es|
  {
    if es == [] then s else After(Next(s, es[0]), es[1..])
  }

  // ----- client_invoke and the events that stand for it -----

  /** client_invoke leaves the replica as RoundFail does when a backup fails, and as RoundDone does
      when all answer OK. */
  lemma RoundIsEvents(s: State, p: string, oks: seq<bool>)
    requires p in s.nodes && s.nodes[p].round.Some? && |oks| == |s.nodes[p].round.value.slaves|
    ensures var rep, rd := s.nodes[p].rep, s.nodes[p].round.value;
            var r := HandleClient(rep, rd.req, oks).0;
            && (false in oks && Enabled(s, RoundFail(p)) ==> r == Next(s, RoundFail(p)).nodes[p].rep)
            && (false !in oks && Enabled(s, RoundDone(p)) ==> r == Next(s, RoundDone(p)).nodes[p].rep)
  {
    if false in oks {
      var k :| 0 <= k < |oks| && !oks[k];
    }
  }
}
