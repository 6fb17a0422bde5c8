/** What every state of the replicated state machine satisfies while requests reach only ready
    primaries, and what follows from it at once: one request and one history per viewstamp. */
module RsmInvariant {
  import opened Options
  import opened Rsm
  import opened RsmSystem
  import ViewText

  /** The backups of a finished view in forwarding order. */
  ghost function Slaves(s: State, v: nat): seq<string>
    requires v in s.finished
  {
    ViewText.Without(ViewAt(s, v), s.finished[v])
  }

  ghost predicate Did(s: State, b: string, vs: Viewstamp, req: string) {
    exists x :: x in s.execs && x.node == b && x.vs == vs && x.req == req
  }

  function AfterExec(x: Exec): seq<Entry> {
    x.before + [Entry(x.vs, x.req)]
  }

  /** `hist` is the state reached by executing the request stamped `last`. */
  ghost predicate StateOf(s: State, hist: seq<Entry>, last: Viewstamp) {
    || (last == Vs(0, 0) && hist == [])
    || (exists x :: x in s.execs && x.vs == last && hist == AfterExec(x))
  }

  // ----- the invariant -----

  /** The flags and counters of a replica fit together. */
  ghost predicate FlagsOk(s: State, p: string)
    requires p in s.nodes
  {
    var n := s.nodes[p];
    var r := n.rep;
    && r.me == p && r.myvs.seqno >= 1
    && n.from <= r.vidInsync <= r.vidCommit <= |s.views|
    && r.myvs.vid <= n.from && r.lastvs.vid <= n.from
    && (r.insync <==> !n.role.Idle?)
    && (r.inviewchange <==> r.vidCommit == 0 || r.myvs.vid < r.vidCommit)
    && (r.vidInsync >= 1 ==> (p, r.vidInsync) in s.roles)
    && (r.vidInsync == r.vidCommit >= 1 ==> s.roles[(p, r.vidInsync)] == r.primary)
    && (!n.role.Idle? ==>
          n.round.None? && r.vidInsync >= 1 && r.myvs.vid < r.vidInsync && r.lastvs.vid < r.vidInsync)
    && (n.role.Lead? ==> n.from == r.vidInsync && s.roles[(p, r.vidInsync)] == p)
    && (n.role.Follow? ==> s.roles[(p, r.vidInsync)] == n.role.m != p)
    && (!r.inviewchange && r.primary == p ==> r.vidCommit in s.finished && s.finished[r.vidCommit] == p)
    && (n.transferred ==> n.role.Follow? && n.from == r.vidInsync)
    && (n.from >= 1 ==> (p, n.from) in s.adopted)
    && (n.call.Some? ==> n.role.Follow? && n.call.value < s.nextId)
    && (n.call.Some? && !n.transferred ==> TransferMsg(n.call.value, p, n.role.m, r.lastvs, r.vidInsync) in s.net)
    && (n.call.Some? && n.transferred ==> DoneMsg(n.call.value, p, n.role.m, r.vidInsync) in s.net)
  }

  /** The replica holds what leader m started view v from. */
  ghost predicate AtBase(s: State, r: Replica, m: string, v: nat) {
    (m, v) in s.base && r.hist == s.base[(m, v)].hist && r.lastvs == s.base[(m, v)].last
  }

  /** A replica's state belongs to its last stamp. In view `from` it is what the node it synced with
      started from, if that node led, plus what the replica executed there. */
  ghost predicate HistOk(s: State, p: string)
    requires p in s.nodes
  {
    var n := s.nodes[p];
    var r := n.rep;
    if n.from == 0 then r.hist == [] && r.lastvs == Vs(0, 0)
    else
      && (p, n.from) in s.roles && (s.roles[(p, n.from)], n.from) in s.roles
      && if r.myvs.vid < n.from || r.myvs.seqno <= 1 then
           && StateOf(s, r.hist, r.lastvs)
           && ((s.roles[(p, n.from)], n.from) in s.base ==> AtBase(s, r, s.roles[(p, n.from)], n.from))
         else
           && r.lastvs == Vs(r.myvs.vid, r.myvs.seqno - 1)
           && exists x :: x in s.execs && x.node == p && x.vs == r.lastvs && r.hist == AfterExec(x)
  }

  /** A round in progress: the backups passed so far executed its request. */
  ghost predicate RoundFits(s: State, p: string)
    requires p in s.nodes && s.nodes[p].round.Some?
  {
    var n := s.nodes[p];
    var vs, rd := n.rep.myvs, n.round.value;
    && vs.vid >= 1 && vs.vid == n.from && vs.vid in s.finished && p == s.finished[vs.vid]
    && p in ViewAt(s, vs.vid)
    && rd.slaves == Slaves(s, vs.vid) && rd.k <= |rd.slaves|
    && (forall j | 0 <= j < rd.k :: Did(s, rd.slaves[j], vs, rd.req))
    && (rd.call.Some? ==> rd.k < |rd.slaves| && rd.call.value < s.nextId
                          && InvokeMsg(rd.call.value, p, rd.slaves[rd.k], vs, rd.req) in s.net)
  }

  /** Node b synced view v with m and has the state it synced for. */
  ghost predicate Joined(s: State, b: string, v: nat, m: string) {
    (b, v) in s.adopted && (b, v) in s.roles && s.roles[(b, v)] == m
  }

  /** While a leader waits for its backups, every other member is on the list or has the state. */
  ghost predicate LeadFits(s: State, p: string)
    requires p in s.nodes
  {
    s.nodes[p].role.Lead? ==>
      forall b | b in ViewAt(s, s.nodes[p].from) && b != p ::
        b in s.nodes[p].rep.backups || Joined(s, b, s.nodes[p].from, p)
  }

  /** Requests pass the backups in order, so an execution implies that all earlier ones executed
      the same; and there are no gaps in a view. */
  ghost predicate ExecOk(s: State, x: Exec) {
    var v := x.vs.vid;
    && x.node in s.nodes && v >= 1 && x.vs.seqno >= 1 && v in s.finished && (s.finished[v], v) in s.base
    && x.node in ViewAt(s, v)
    && Later(s.nodes[x.node].rep.myvs, x.vs)
    && (x.node == s.finished[v] ==> forall b | b in Slaves(s, v) :: Did(s, b, x.vs, x.req))
    && (x.node != s.finished[v] ==> Slaves(s, v) != [] && Did(s, Slaves(s, v)[0], x.vs, x.req))
    && (x.vs.seqno == 1 ==> x.before == s.base[(s.finished[v], v)].hist)
    && (x.vs.seqno > 1 ==>
          exists y :: y in s.execs && y.node == x.node && y.vs == Vs(v, x.vs.seqno - 1) && x.before == AfterExec(y))
  }

  /** What a node that was syncing view r.vid answered to r. */
  ghost predicate Answers(s: State, r: Msg, t: Transfer)
    requires r.TransferMsg?
  {
    && (r.dst, r.vid) in s.roles && t.last.vid < r.vid
    && (t.state.None? <==> r.last == t.last)
    && (t.state.Some? ==> StateOf(s, t.state.value, t.last))
    && ((r.dst, r.vid) in s.base ==>
          var b := s.base[(r.dst, r.vid)]; t.last == b.last && (t.state.Some? ==> t.state.value == b.hist))
  }

  ghost predicate MsgOk(s: State, m: Msg) {
    match m
    case InvokeMsg(id, src, dst, vs, req) =>
      && id < s.nextId && vs.vid >= 1 && vs.vid in s.finished && src == s.finished[vs.vid]
      && exists j :: 0 <= j < |Slaves(s, vs.vid)| && Slaves(s, vs.vid)[j] == dst
                     && forall i | 0 <= i < j :: Did(s, Slaves(s, vs.vid)[i], vs, req)
    case InvokeOk(id) =>
      exists r :: r in s.net && r.InvokeMsg? && r.id == id && Did(s, r.dst, r.vs, r.req)
    case TransferMsg(id, src, dst, last, vid) =>
      id < s.nextId && (src, vid) in s.roles && s.roles[(src, vid)] == dst
    case TransferRes(id, t) => exists r :: r in s.net && r.TransferMsg? && r.id == id && Answers(s, r, t)
    case DoneMsg(id, src, dst, vid) => id < s.nextId && Joined(s, src, vid, dst)
    case DoneOk(id) => true
  }

  predicate IsRequest(m: Msg) {
    m.InvokeMsg? || m.TransferMsg? || m.DoneMsg?
  }

  /** A node starts to sync a view once; it leads if it syncs with itself. */
  ghost predicate RoleOk(s: State, b: string, v: nat)
    requires (b, v) in s.roles
  {
    && b in s.nodes && 1 <= v <= s.nodes[b].rep.vidInsync && b in ViewAt(s, v)
    && (s.roles[(b, v)] == b ==> (b, v) in s.base)
  }

  /** Starting states are their leader's own, and extend the one they came from. */
  ghost predicate BaseOk(s: State, m: string, v: nat)
    requires (m, v) in s.base
  {
    var b := s.base[(m, v)];
    && m in s.nodes && s.nodes[m].from >= v >= 1 && Joined(s, m, v, m)
    && StateOf(s, b.hist, b.last) && b.last.vid < v && b.parent < v
    && (b.parent >= 1 ==> ExtendsParent(s, m, b))
  }

  /** The state went back to view b.parent; if the node m synced that view with led it, the state
      extends what that node started from, and has all that m executed there. */
  ghost predicate ExtendsParent(s: State, m: string, b: Snap) {
    && (m, b.parent) in s.adopted && (m, b.parent) in s.roles
    && (s.roles[(m, b.parent)], b.parent) in s.roles
    && ((s.roles[(m, b.parent)], b.parent) in s.base ==> s.base[(s.roles[(m, b.parent)], b.parent)].hist <= b.hist)
    && (forall x | x in s.execs && x.node == m && x.vs.vid == b.parent :: Entry(x.vs, x.req) in b.hist)
  }

  ghost predicate AdoptOk(s: State, b: string, v: nat) {
    && b in s.nodes && v >= 1 && s.nodes[b].from >= v && (b, v) in s.roles
    && (s.roles[(b, v)], v) in s.roles
  }

  /** Every member of a finished view synced it with the node that finished it. */
  ghost predicate FinishedOk(s: State, v: nat)
    requires v in s.finished
  {
    var m := s.finished[v];
    && (m, v) in s.base && (forall b | b in ViewAt(s, v) :: Joined(s, b, v, m))
    && m in s.nodes && s.nodes[m].rep.myvs.vid >= v
  }

  ghost predicate NodesOk(s: State) {
    forall p | p in s.nodes :: FlagsOk(s, p) && HistOk(s, p) && LeadFits(s, p)
  }

  ghost predicate RoundsOk(s: State) {
    forall p | p in s.nodes && s.nodes[p].round.Some? :: RoundFits(s, p)
  }

  ghost predicate ExecsOk(s: State) {
    && (forall x | x in s.execs :: ExecOk(s, x))
    && (forall x, y | x in s.execs && y in s.execs && x.node == y.node && x.vs == y.vs :: x == y)
  }

  ghost predicate NetOk(s: State) {
    && (forall m | m in s.net :: MsgOk(s, m))
    && (forall m, m' | m in s.net && m' in s.net && IsRequest(m) && IsRequest(m') && m.id == m'.id :: m == m')
  }

  ghost predicate RecordsOk(s: State) {
    && (forall m, v | (m, v) in s.base :: BaseOk(s, m, v))
    && (forall b, v | (b, v) in s.roles :: RoleOk(s, b, v))
    && (forall b, v | (b, v) in s.adopted :: AdoptOk(s, b, v))
    && (forall v | v in s.finished :: FinishedOk(s, v))
  }

  ghost predicate Inv(s: State) {
    NodesOk(s) && RoundsOk(s) && ExecsOk(s) && NetOk(s) && RecordsOk(s)
  }

  // ----- one request and one history per stamp -----

  lemma FirstBackupDid(s: State, x: Exec)
    requires ExecsOk(s) && x in s.execs && x.vs.vid in s.finished && Slaves(s, x.vs.vid) != []
    ensures Did(s, Slaves(s, x.vs.vid)[0], x.vs, x.req)
  {
    hide Slaves;
    assert ExecOk(s, x);
  }

  lemma SameStampSameRequest(s: State, x: Exec, y: Exec)
    requires ExecsOk(s) && x in s.execs && y in s.execs && x.vs == y.vs
    ensures x.req == y.req
  {
    hide Slaves;
    assert ExecOk(s, x) && ExecOk(s, y);
    if Slaves(s, x.vs.vid) != [] {
      FirstBackupDid(s, x);
      FirstBackupDid(s, y);
    }
  }

  lemma {:induction false} SameStampSameState(s: State, x: Exec, y: Exec)
    requires ExecsOk(s) && x in s.execs && y in s.execs && x.vs == y.vs
    ensures AfterExec(x) == AfterExec(y)
    decreases x.vs.seqno
  {
    hide Slaves, Did;
    SameStampSameRequest(s, x, y);
    assert ExecOk(s, x) && ExecOk(s, y);
    if x.vs.seqno == 1 {
    } else {
      var x' :| x' in s.execs && x'.node == x.node
                && x'.vs == Vs(x.vs.vid, x.vs.seqno - 1) && x.before == AfterExec(x');
      var y' :| y' in s.execs && y'.node == y.node
                && y'.vs == Vs(y.vs.vid, y.vs.seqno - 1) && y.before == AfterExec(y');
      SameStampSameState(s, x', y');
    }
  }

  /** Equal stamps of the last request mean equal states. */
  lemma StampFixesState(s: State, h1: seq<Entry>, h2: seq<Entry>, last: Viewstamp)
    requires ExecsOk(s) && StateOf(s, h1, last) && StateOf(s, h2, last)
    ensures h1 == h2
  {
    hide Slaves, Did, AfterExec;
    if last != Vs(0, 0) {
      var x :| x in s.execs && x.vs == last && h1 == AfterExec(x);
      var y :| y in s.execs && y.vs == last && h2 == AfterExec(y);
      SameStampSameState(s, x, y);
    } else {
      forall x | x in s.execs ensures x.vs != last { assert ExecOk(s, x); }
    }
  }

  lemma NodeStateOf(s: State, p: string)
    requires p in s.nodes && HistOk(s, p)
    ensures StateOf(s, s.nodes[p].rep.hist, s.nodes[p].rep.lastvs)
  {
    hide AtBase, AfterExec;
  }

  // ----- what a replica's state contains -----

  /** A state reached in a view extends the starting state of the leader that finished it. */
  lemma {:induction false} ExtendsBase(s: State, x: Exec)
    requires ExecsOk(s) && x in s.execs
    ensures x.vs.vid in s.finished && (s.finished[x.vs.vid], x.vs.vid) in s.base
    ensures s.base[(s.finished[x.vs.vid], x.vs.vid)].hist <= x.before
    decreases x.vs.seqno
  {
    hide Slaves, Did;
    assert ExecOk(s, x);
    if x.vs.seqno == 1 {
    } else {
      var y :| y in s.execs && y.node == x.node && y.vs == Vs(x.vs.vid, x.vs.seqno - 1) && x.before == AfterExec(y);
      ExtendsBase(s, y);
    }
  }

  /** It also holds everything executed in that view under an earlier stamp, by any node. */
  lemma {:induction false} HoldsEarlier(s: State, x: Exec, y: Exec)
    requires ExecsOk(s) && x in s.execs && y in s.execs
    requires x.vs.vid == y.vs.vid && x.vs.seqno <= y.vs.seqno
    ensures Entry(x.vs, x.req) in AfterExec(y)
    decreases y.vs.seqno
  {
    hide Slaves, Did;
    assert ExecOk(s, x) && ExecOk(s, y);
    if x.vs.seqno == y.vs.seqno {
      SameStampSameRequest(s, x, y);
    } else {
      var y' :| y' in s.execs && y'.node == y.node
                && y'.vs == Vs(y.vs.vid, y.vs.seqno - 1) && y.before == AfterExec(y');
      HoldsEarlier(s, x, y');
    }
  }

  /** The leader that finished a view is the one each of its members synced it with. */
  lemma ExecutedWithLeader(s: State, x: Exec)
    requires ExecsOk(s) && RecordsOk(s) && x in s.execs
    ensures x.vs.vid in s.finished && Joined(s, x.node, x.vs.vid, s.finished[x.vs.vid])
    ensures (s.finished[x.vs.vid], x.vs.vid) in s.base
  {
    hide BaseOk, RoleOk, AdoptOk, Slaves, Did;
    assert ExecOk(s, x);
    assert FinishedOk(s, x.vs.vid);
  }

  lemma NodeExtendsBase(s: State, p: string)
    requires ExecsOk(s) && RecordsOk(s) && p in s.nodes && FlagsOk(s, p) && HistOk(s, p) && s.nodes[p].from >= 1
    ensures var from := s.nodes[p].from;
            && (p, from) in s.roles
            && ((s.roles[(p, from)], from) in s.base ==>
                  s.base[(s.roles[(p, from)], from)].hist <= s.nodes[p].rep.hist)
    ensures forall x | x in s.execs && x.node == p && x.vs.vid == s.nodes[p].from ::
              Entry(x.vs, x.req) in s.nodes[p].rep.hist
  {
    hide Slaves, Did, StateOf, RecordsOk;
    var n := s.nodes[p];
    if n.rep.myvs.vid < n.from || n.rep.myvs.seqno <= 1 {
      forall x | x in s.execs && x.node == p ensures x.vs.vid != n.from { assert ExecOk(s, x); }
    } else {
      var y :| y in s.execs && y.node == p && y.vs == n.rep.lastvs && n.rep.hist == AfterExec(y);
      ExtendsBase(s, y);
      ExecutedWithLeader(s, y);
      forall x | x in s.execs && x.node == p && x.vs.vid == n.from ensures Entry(x.vs, x.req) in n.rep.hist {
        assert ExecOk(s, x);
        HoldsEarlier(s, x, y);
      }
    }
  }

  /** No entry of the state after an execution is later than it, and those of earlier views are in
      the starting state of its view. */
  lemma {:induction false} StampsOf(s: State, x: Exec)
    requires ExecsOk(s) && RecordsOk(s) && x in s.execs
    ensures x.vs.vid in s.finished && (s.finished[x.vs.vid], x.vs.vid) in s.base
    ensures forall e | e in AfterExec(x) ::
              && !Later(e.vs, x.vs)
              && (e.vs.vid < x.vs.vid ==> e in s.base[(s.finished[x.vs.vid], x.vs.vid)].hist)
    decreases x.vs.vid, x.vs.seqno
  {
    hide Slaves, Did, StateOf, RoleOk, AdoptOk, FinishedOk, ExtendsParent;
    assert ExecOk(s, x) && BaseOk(s, s.finished[x.vs.vid], x.vs.vid);
    if x.vs.seqno > 1 {
      var y :| y in s.execs && y.node == x.node && y.vs == Vs(x.vs.vid, x.vs.seqno - 1) && x.before == AfterExec(y);
      StampsOf(s, y);
    } else {
      var b := s.base[(s.finished[x.vs.vid], x.vs.vid)];
      StampsBelow(s, b.hist, b.last);
    }
  }

  lemma {:induction false} StampsBelow(s: State, hist: seq<Entry>, last: Viewstamp)
    requires ExecsOk(s) && RecordsOk(s) && StateOf(s, hist, last)
    ensures forall e | e in hist :: !Later(e.vs, last)
    decreases last.vid, last.seqno + 1
  {
    hide ExecOk, BaseOk, AfterExec, RoleOk, AdoptOk, FinishedOk;
    if hist == [] {
    } else {
      var x :| x in s.execs && x.vs == last && hist == AfterExec(x);
      StampsOf(s, x);
    }
  }
}
