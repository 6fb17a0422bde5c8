/** Each part of the delivery assumption is needed: from the first boot there is a run with one late
    accept, one with one early prepare, and one with one take-over from a node that is not ahead,
    all other events meeting the assumption, after which two nodes have committed different values
    for the same instance. */
module PaxosCounter {
  import opened Options
  import opened Text
  import opened Proposal
  import opened PaxosLog
  import opened Acceptor
  import opened Proposer
  import opened PaxosSystem
  import opened PaxosInvariant
  import opened PaxosSteps
  import Quorum
  import ViewText

  // ----- runs put together -----

  ghost predicate Leads(s: State, es: seq<Event>, t: State) {
    TimelyRun(s, es) && AnyRun(s, es) && After(s, es) == t
  }

  predicate Goes(s: State, e: Event, t: State) { Enabled(s, e) && Timely(s, e) && Next(s, e) == t }

  lemma LeadsNowhere(s: State)
    ensures Leads(s, [], s)
  {
  }

  lemma LeadsOn(s: State, es: seq<Event>, u: State, e: Event, t: State) returns (fs: seq<Event>)
    requires Leads(s, es, u) && Goes(u, e, t)
    ensures Leads(s, fs, t)
  {
    hide Next, Enabled, Timely;
    fs := [e];
    assert fs[0] == e && fs[1..] == [];
    assert TimelyRun(t, []) && AnyRun(t, []) && After(t, []) == t;
    assert TimelyRun(u, fs) && AnyRun(u, fs) && After(u, fs) == t;
    LeadsThen(s, es, u, fs, t);
    fs := es + fs;
  }

  lemma {:induction false} LeadsThen(s: State, es: seq<Event>, u: State, fs: seq<Event>, t: State)
    requires Leads(s, es, u) && Leads(u, fs, t)
    ensures Leads(s, es + fs, t)
    decreases |es|
  {
    hide Next, Enabled, Timely;
    if es == [] {
      assert es + fs == fs;
    } else {
      assert (es + fs)[0] == es[0] && (es + fs)[1..] == es[1..] + fs;
      LeadsThen(Next(s, es[0]), es[1..], u, fs, t);
    }
  }

  // ----- single steps -----

  function WithPromise(a: Acc, n: Prop): Acc { a.(nh := n, log := a.log + [PropSeen(n)]) }

  function WithVote(a: Acc, n: Prop, v: string): Acc { a.(na := n, va := v, log := a.log + [Accepted(n, v)]) }

  lemma StartStep(s: State, p: string, i: nat, ms: seq<string>, m: string)
    requires p in s.nodes && s.nodes[p].cur == None && 1 <= i <= s.nodes[p].acc.ih
    requires ViewText.Members(ValueAt(s.nodes[p].acc.values, i)) == ms && IsName(m) && m !in ms
    ensures var n := Prop(NextNumber(s.nodes[p].acc.nh.n, s.nodes[p].myN), p);
            Goes(s, Start(p, i, Add(m)),
                 s.(nodes := s.nodes[p := s.nodes[p].(myN := n.n, cur := Some(|s.runs|))],
                    runs := s.runs + [Run(p, i + 1, n, ms, ViewText.Value(ms + [m]), Preparing)]))
  {
  }

  /** A promise is given for any instance above the acceptor's; it is in time only for the next. */
  lemma PrepareStep(s: State, r: nat, q: string)
    requires r < |s.runs| && q in s.nodes && q in s.runs[r].members
    requires s.runs[r].inst > s.nodes[q].acc.ih && Greater(s.runs[r].n, s.nodes[q].acc.nh)
    ensures Enabled(s, RecvPrepare(r, q))
    ensures Timely(s, RecvPrepare(r, q)) <==> s.runs[r].inst == s.nodes[q].acc.ih + 1
    ensures var a := s.nodes[q].acc;
            Next(s, RecvPrepare(r, q)) ==
            SetAcc(s, q, WithPromise(a, s.runs[r].n)).(net := s.net + {PromiseReply(r, q, a.na, a.va)})
  {
  }

  lemma EndPrepareStep(s: State, r: nat, got: seq<Option<PrepareRes>>, accepts: seq<string>, best: Prop, v: string)
    requires Current(s, r) && s.runs[r].phase.Preparing? && Justified(s, r, got)
    requires Gather(s.runs[r].members, got, |got|) == Prepared(accepts, best, v)
    requires Quorum.Majority(s.runs[r].members, accepts)
    ensures Goes(s, EndPrepare(r, got), SetPhase(s, r, Accepting(accepts, best, Chosen(v, s.runs[r].newv))))
  {
    hide Quorum.Majority, Gather, Justified;
  }

  /** An accept is taken whatever its instance; it is in time only at an acceptor working on it. */
  lemma AcceptStep(s: State, r: nat, q: string)
    requires r < |s.runs| && q in s.nodes && s.runs[r].phase.Accepting? && q in s.runs[r].phase.promisers
    requires AtLeast(s.runs[r].n, s.nodes[q].acc.nh)
    ensures Enabled(s, RecvAccept(r, q))
    ensures Timely(s, RecvAccept(r, q)) <==> s.runs[r].inst == s.nodes[q].acc.ih + 1
    ensures Next(s, RecvAccept(r, q)) ==
            SetAcc(s, q, WithVote(s.nodes[q].acc, s.runs[r].n, s.runs[r].phase.v)).(net := s.net + {Vote(r, q)})
  {
  }

  lemma EndAcceptStep(s: State, r: nat, x: string, y: string)
    requires Current(s, r) && s.runs[r].phase.Accepting? && s.runs[r].phase.promisers == [x, y]
    requires Vote(r, x) in s.net && Vote(r, y) in s.net && Quorum.Majority(s.runs[r].members, [x, y])
    ensures var ph := s.runs[r].phase;
            Goes(s, EndAccept(r, [true, true]), SetPhase(s, r, Deciding([x, y], ph.best, ph.v, [x, y])))
  {
    hide Quorum.Majority;
    assert Accepters([x, y], [true, true], 0) == [];
    assert Accepters([x, y], [true, true], 1) == [x];
    assert Accepters([x, y], [true, true], 2) == [x] + [y] == [x, y];
  }

  lemma DecideStep(s: State, r: nat, q: string)
    requires r < |s.runs| && q in s.nodes && s.runs[r].phase.Deciding? && q in s.runs[r].phase.voters
    requires s.runs[r].inst == s.nodes[q].acc.ih + 1 && s.nodes[q].acc.va == s.runs[r].phase.v
    ensures Goes(s, RecvDecide(r, q), SetAcc(s, q, Commit(s.nodes[q].acc, s.runs[r].inst, s.runs[r].phase.v)))
  {
  }

  lemma EndRunStep(s: State, r: nat)
    requires Current(s, r) && s.runs[r].phase.Deciding?
    ensures Goes(s, EndRun(r), SetCur(s, s.runs[r].owner, None))
  {
  }

  /** A node that is behind takes over the log of one that has promised and accepted nothing since
      its last commit. */
  lemma JoinStep(s: State, p: string, q: string)
    requires Inv(s) && p in s.nodes && q in s.nodes && s.nodes[q].acc.ih > s.nodes[p].acc.ih
    requires s.nodes[q].acc.nh.n == 0 && s.nodes[q].acc.va == ""
    ensures Enabled(s, Join(p, q)) && Timely(s, Join(p, q)) && Taken(s, Next(s, Join(p, q)), p, q)
  {
    TakeOver(s, p, q);
  }

  ghost predicate Taken(s: State, u: State, p: string, q: string)
    requires p in s.nodes && q in s.nodes
  {
    && p in u.nodes && u == s.(nodes := s.nodes[p := s.nodes[p].(acc := u.nodes[p].acc)])
    && u.nodes[p].acc.ih == s.nodes[q].acc.ih && u.nodes[p].acc.nh.n == 0 && u.nodes[p].acc.va == ""
    && u.nodes[p].acc.values == s.nodes[q].acc.values
  }

  lemma TakeOver(s: State, p: string, q: string)
    requires Inv(s) && p in s.nodes && q in s.nodes && p != q && s.nodes[q].acc.ih >= s.nodes[p].acc.ih
    requires s.nodes[q].acc.ih >= 1 && s.nodes[q].acc.nh.n == 0 && s.nodes[q].acc.va == ""
    ensures Enabled(s, Join(p, q)) && Taken(s, Next(s, Join(p, q)), p, q)
  {
    hide RunsOk, PhasesOk, RepliesOk, PairsOk, CommitsOk, Restore, Durable, Backed;
    assert NodeOk(s, p) && NodeOk(s, q);
    RestoreCopies(s.nodes[p].acc, s.nodes[q].acc);
  }

  lemma Majorities(p: string, q: string, t: string)
    requires p != q && p != t && q != t
    ensures Quorum.Majority([p], [p]) && Quorum.Majority([p, q], [p, q])
    ensures Quorum.Majority([p, q, t], [p, q]) && Quorum.Majority([p, q, t], [p, t])
            && Quorum.Majority([p, q, t], [q, t])
  {
    var a, b, c := [p], [p, q], [p, q, t];
    assert a[..0] == [] && b[..1] == a && c[..2] == b;
    assert Quorum.CountIn(a, [p]) == 1;
    assert Quorum.CountIn(a, [p, q]) == 1 && Quorum.CountIn(b, [p, q]) == 2 && Quorum.CountIn(c, [p, q]) == 2;
    assert Quorum.CountIn(a, [p, t]) == 1 && Quorum.CountIn(b, [p, t]) == 1 && Quorum.CountIn(c, [p, t]) == 2;
    assert Quorum.CountIn(a, [q, t]) == 0 && Quorum.CountIn(b, [q, t]) == 1 && Quorum.CountIn(c, [q, t]) == 2;
  }

  /** Two promises that bring no value. */
  lemma TwoPromises(ms: seq<string>, got: seq<Option<PrepareRes>>, j: nat, k: nat) returns (best: Prop)
    requires 2 <= |ms| == |got| <= 3 && j < k < |ms|
    requires forall l | 0 <= l < |got| :: got[l].Some? <==> l == j || l == k
    requires got[j].value.Promise? && got[j].value.va == "" && got[k].value.Promise? && got[k].value.va == ""
    ensures Gather(ms, got, |got|) == Prepared([ms[j], ms[k]], best, "")
  {
    assert Gather(ms, got, 0) == Prepared([], NO_PROP, "");
    assert Gather(ms, got, 1).Prepared? && Gather(ms, got, 1).v == "";
    assert Gather(ms, got, 1).accepts == if j == 0 then [ms[0]] else [];
    assert Gather(ms, got, 2).Prepared? && Gather(ms, got, 2).v == "";
    assert [ms[j]] + [ms[k]] == [ms[j], ms[k]];
    best := Gather(ms, got, |got|).best;
  }

  // ----- a run of two acceptors -----

  function NumberOf(s: State, o: string): Prop
    requires o in s.nodes
  {
    Prop(NextNumber(s.nodes[o].acc.nh.n, s.nodes[o].myN), o)
  }

  /** Node z after o got the promises of x and y. */
  function Prepped(s: State, o: string, x: string, y: string, z: string): Node
    requires o in s.nodes && z in s.nodes
  {
    var n, a := NumberOf(s, o), s.nodes[z];
    var b := a.(acc := if z == x || z == y then WithPromise(a.acc, n) else a.acc);
    if z == o then b.(myN := n.n, cur := Some(|s.runs|)) else b
  }

  function AskedRun(s: State, o: string, i: nat, ms: seq<string>, m: string, x: string, y: string, best: Prop): Run
    requires o in s.nodes
  {
    var v := ViewText.Value(ms + [m]);
    Run(o, i + 1, NumberOf(s, o), ms, v, Accepting([x, y], best, v))
  }

  /** Node x can promise o's next number for instance i + 1 and has no vote to report. */
  predicate CanPromise(s: State, o: string, x: string, i: nat)
    requires o in s.nodes
  {
    x in s.nodes && s.nodes[x].acc.ih == i && s.nodes[x].acc.va == "" && Greater(NumberOf(s, o), s.nodes[x].acc.nh)
  }

  predicate CanStart(s: State, o: string, i: nat, ms: seq<string>, m: string) {
    && o in s.nodes && s.nodes[o].cur == None && 1 <= i <= s.nodes[o].acc.ih
    && ViewText.Members(ValueAt(s.nodes[o].acc.values, i)) == ms && IsName(m) && m !in ms
  }

  lemma PreparePair(s: State, o: string, i: nat, ms: seq<string>, m: string, j: nat, k: nat)
    returns (es: seq<Event>, u: State, best: Prop)
    requires CanStart(s, o, i, ms, m) && 2 <= |ms| <= 3 && j < k < |ms| && ms[j] != ms[k]
    requires CanPromise(s, o, ms[j], i) && CanPromise(s, o, ms[k], i) && Quorum.Majority(ms, [ms[j], ms[k]])
    ensures Leads(s, es, u) && s.net <= u.net && u.nodes.Keys == s.nodes.Keys
    ensures u == s.(nodes := u.nodes, net := u.net, runs := s.runs + [AskedRun(s, o, i, ms, m, ms[j], ms[k], best)])
    ensures forall z | z in s.nodes :: u.nodes[z] == Prepped(s, o, ms[j], ms[k], z)
  {
    hide Leads, Quorum.Majority, Next, Enabled, Timely, ViewText.Members, ViewText.Value, Gather;
    var r, x, y := |s.runs|, ms[j], ms[k];
    LeadsNowhere(s);
    StartStep(s, o, i, ms, m);
    var s1 := Next(s, Start(o, i, Add(m)));
    es := LeadsOn(s, [], s, Start(o, i, Add(m)), s1);
    PrepareStep(s1, r, x);
    var s2 := Next(s1, RecvPrepare(r, x));
    es := LeadsOn(s, es, s1, RecvPrepare(r, x), s2);
    PrepareStep(s2, r, y);
    var s3 := Next(s2, RecvPrepare(r, y));
    es := LeadsOn(s, es, s2, RecvPrepare(r, y), s3);
    var got := seq(|ms|, l requires 0 <= l < |ms| =>
      if l == j then Some(Promise(s.nodes[x].acc.na, ""))
      else if l == k then Some(Promise(s.nodes[y].acc.na, "")) else None);
    best := TwoPromises(ms, got, j, k);
    EndPrepareStep(s3, r, got, [x, y], best, "");
    u := Next(s3, EndPrepare(r, got));
    es := LeadsOn(s, es, s3, EndPrepare(r, got), u);
  }

  function DecidedRun(run: Run, x: string, y: string): Run
    requires run.phase.Accepting?
  {
    run.(phase := Deciding([x, y], run.phase.best, run.phase.v, [x, y]))
  }

  /** Node z after x and y voted for run k and d heard the decision. */
  function Finished(s: State, k: nat, x: string, y: string, d: string, z: string): Node
    requires k < |s.runs| && !s.runs[k].phase.Preparing? && z in s.nodes
  {
    var run, a := s.runs[k], s.nodes[z];
    var b := if z == x || z == y then WithVote(a.acc, run.n, run.phase.v) else a.acc;
    a.(acc := if z == d then Commit(b, run.inst, run.phase.v) else b)
  }

  predicate CanVote(s: State, k: nat, x: string)
    requires k < |s.runs|
  {
    x in s.nodes && s.runs[k].inst == s.nodes[x].acc.ih + 1 && AtLeast(s.runs[k].n, s.nodes[x].acc.nh)
  }

  lemma DecidePair(s: State, k: nat, x: string, y: string, d: string) returns (es: seq<Event>, u: State)
    requires Current(s, k) && s.runs[k].phase.Accepting? && s.runs[k].phase.promisers == [x, y] && x != y
    requires CanVote(s, k, x) && CanVote(s, k, y) && Quorum.Majority(s.runs[k].members, [x, y]) && d in [x, y]
    ensures Leads(s, es, u) && s.net <= u.net && u.nodes.Keys == s.nodes.Keys
    ensures u == s.(nodes := u.nodes, net := u.net, runs := s.runs[k := DecidedRun(s.runs[k], x, y)])
    ensures forall z | z in s.nodes :: u.nodes[z] == Finished(s, k, x, y, d, z)
  {
    hide Leads, Quorum.Majority, Next, Enabled, Timely, Commit;
    LeadsNowhere(s);
    AcceptStep(s, k, x);
    var s1 := Next(s, RecvAccept(k, x));
    es := LeadsOn(s, [], s, RecvAccept(k, x), s1);
    AcceptStep(s1, k, y);
    var s2 := Next(s1, RecvAccept(k, y));
    es := LeadsOn(s, es, s1, RecvAccept(k, y), s2);
    EndAcceptStep(s2, k, x, y);
    var s3 := Next(s2, EndAccept(k, [true, true]));
    es := LeadsOn(s, es, s2, EndAccept(k, [true, true]), s3);
    DecideStep(s3, k, d);
    u := Next(s3, RecvDecide(k, d));
    es := LeadsOn(s, es, s3, RecvDecide(k, d), u);
  }

  // ----- from the first boot to three members -----

  /** Node x has committed i instances, has promised and accepted nothing since, and its proposer
      is idle. */
  predicate Idle(s: State, x: string, i: nat, ms: seq<string>) {
    && x in s.nodes && s.nodes[x].cur == None
    && s.nodes[x].acc.ih == i && s.nodes[x].acc.nh.n == 0 && s.nodes[x].acc.va == ""
    && ViewText.Members(ValueAt(s.nodes[x].acc.values, i)) == ms
  }

  lemma SoloRun(s: State, p: string, i: nat, m: string) returns (es: seq<Event>, u: State)
    requires Idle(s, p, i, [p]) && i >= 1 && IsName(p) && IsName(m) && m != p
    ensures Leads(s, es, u) && Idle(u, p, i + 1, [p, m]) && u.nodes[p].myN == s.nodes[p].myN + 1
    ensures u.nodes.Keys == s.nodes.Keys && |u.runs| == |s.runs| + 1
    ensures forall z | z in s.nodes && z != p :: u.nodes[z] == s.nodes[z]
  {
    hide Leads, Quorum.Majority, Next, Enabled, Timely, ViewText.Members, ViewText.Value;
    var r, na := |s.runs|, s.nodes[p].acc.na;
    LeadsNowhere(s);
    StartStep(s, p, i, [p], m);
    var s1 := Next(s, Start(p, i, Add(m)));
    es := LeadsOn(s, [], s, Start(p, i, Add(m)), s1);
    PrepareStep(s1, r, p);
    var s2 := Next(s1, RecvPrepare(r, p));
    es := LeadsOn(s, es, s1, RecvPrepare(r, p), s2);
    var got := [Some(Promise(na, ""))];
    assert Gather([p], got, 0) == Prepared([], NO_PROP, "");
    var best := Gather([p], got, 1).best;
    assert Gather([p], got, 1) == Prepared([p], best, "");
    OneOfOne(p);
    EndPrepareStep(s2, r, got, [p], best, "");
    var s3 := Next(s2, EndPrepare(r, got));
    es := LeadsOn(s, es, s2, EndPrepare(r, got), s3);
    var fs;
    fs, u := SoloEnds(s3, r, p, i, m);
    LeadsThen(s, es, s3, fs, u);
    es := es + fs;
  }

  lemma OneOfOne(p: string)
    ensures Quorum.Majority([p], [p])
  {
    assert [p][..0] == [];
    assert Quorum.CountIn([p], [p]) == 1;
  }

  lemma SoloEnds(s: State, r: nat, p: string, i: nat, m: string) returns (es: seq<Event>, u: State)
    requires Current(s, r) && p in s.nodes && s.runs[r].owner == p && s.runs[r].members == [p]
    requires s.runs[r].inst == i + 1 && s.runs[r].phase.Accepting? && s.runs[r].phase.promisers == [p]
    requires s.runs[r].phase.v == ViewText.Value([p] + [m]) && IsName(p) && IsName(m)
    requires s.nodes[p].acc.ih == i && s.nodes[p].acc.nh == s.runs[r].n
    ensures Leads(s, es, u) && Idle(u, p, i + 1, [p, m]) && u.nodes[p].myN == s.nodes[p].myN
    ensures u.nodes.Keys == s.nodes.Keys && |u.runs| == |s.runs|
    ensures forall z | z in s.nodes && z != p :: u.nodes[z] == s.nodes[z]
  {
    hide Leads, Quorum.Majority, ViewText.Members, ViewText.Value;
    assert [p] + [m] == [p, m];
    ViewText.ReadBack([p, m]);
    LeadsNowhere(s);
    GreaterIsStrictTotal(s.runs[r].n, s.runs[r].n);
    AcceptStep(s, r, p);
    var s1 := Next(s, RecvAccept(r, p));
    es := LeadsOn(s, [], s, RecvAccept(r, p), s1);
    OneOfOne(p);
    assert Accepters([p], [true], 0) == [] && Accepters([p], [true], 1) == [] + [p] == [p];
    var s2 := Next(s1, EndAccept(r, [true]));
    es := LeadsOn(s, es, s1, EndAccept(r, [true]), s2);
    DecideStep(s2, r, p);
    var s3 := Next(s2, RecvDecide(r, p));
    es := LeadsOn(s, es, s2, RecvDecide(r, p), s3);
    EndRunStep(s3, r);
    u := Next(s3, EndRun(r));
    es := LeadsOn(s, es, s3, EndRun(r), u);
  }

  predicate Three(p: string, q: string, t: string) {
    p != q && p != t && q != t && IsName(p) && IsName(q) && IsName(t)
  }

  function First(p: string, q: string, t: string): State { Init(p, {p, q, t}) }

  /** p and t have committed view i = [p, q, t]; q has voted for it in p's run r0 and has yet to hear
      the decision. */
  predicate Lagging(s: State, r0: nat, p: string, q: string, t: string, i: nat) {
    && i >= 2 && Idle(s, p, i, [p, q, t]) && Idle(s, t, i, [p, q, t]) && s.nodes[p].acc.na.n == 0
    && q in s.nodes && s.nodes[q].cur == None && s.nodes[q].acc.ih == i - 1
    && r0 < |s.runs| && s.runs[r0].inst == i && s.runs[r0].phase.Deciding? && q in s.runs[r0].phase.voters
    && s.runs[r0].phase.v == s.nodes[q].acc.va == ViewText.Value([p, q, t])
    && s.nodes[q].acc.nh == s.nodes[q].acc.na == s.runs[r0].n
    && 1 <= s.runs[r0].n.n <= s.nodes[p].myN && s.nodes[t].myN == 0
  }

  lemma FirstIsIdle(p: string, q: string, t: string)
    requires Three(p, q, t)
    ensures var s := First(p, q, t);
            && Idle(s, p, 1, [p]) && s.nodes.Keys == {p, q, t} && s.nodes[p].myN == 0 && s.runs == []
            && forall z | z in [q, t] :: s.nodes[z] == Node(Fresh(z, []), 0, None)
  {
    ViewText.MembersOfName(p);
  }

  lemma LeadsKeepInv(p: string, q: string, t: string, es: seq<Event>, u: State)
    requires Three(p, q, t) && Leads(First(p, q, t), es, u)
    ensures Inv(u)
  {
    hide Inv;
    InitHolds(p, {p, q, t});
    RunKeepsInv(First(p, q, t), es);
  }

  /** p adds q, which takes over its log. */
  lemma ReachPair(p: string, q: string, t: string) returns (es: seq<Event>, u: State)
    requires Three(p, q, t)
    ensures Leads(First(p, q, t), es, u) && Idle(u, p, 2, [p, q]) && Idle(u, q, 2, [p, q])
    ensures u.nodes.Keys == {p, q, t} && |u.runs| == 1 && u.nodes[p].myN == 1
    ensures u.nodes[t] == Node(Fresh(t, []), 0, None)
  {
    hide Leads, Inv, Next, Enabled, Timely, ViewText.Members, First;
    var s := First(p, q, t);
    FirstIsIdle(p, q, t);
    var s1;
    es, s1 := SoloRun(s, p, 1, q);
    LeadsKeepInv(p, q, t, es, s1);
    JoinStep(s1, q, p);
    u := Next(s1, Join(q, p));
    es := LeadsOn(s, es, s1, Join(q, p), u);
  }

  /** p and q add t; q does not hear the decision yet; t takes over p's log. */
  lemma ReachLagging(p: string, q: string, t: string) returns (es: seq<Event>, u: State)
    requires Three(p, q, t)
    ensures Leads(First(p, q, t), es, u) && Lagging(u, 1, p, q, t, 3)
  {
    hide Leads, Inv, Next, Enabled, Timely, ViewText.Members, ViewText.Value, First, Quorum.Majority;
    var s := First(p, q, t);
    var s1;
    es, s1 := ReachPair(p, q, t);
    var fs, s2 := PairAdds(s1, p, q, t);
    LeadsThen(s, es, s1, fs, s2);
    es := es + fs;
    LeadsKeepInv(p, q, t, es, s2);
    JoinStep(s2, t, p);
    u := Next(s2, Join(t, p));
    es := LeadsOn(s, es, s2, Join(t, p), u);
  }

  lemma PairAdds(s: State, p: string, q: string, t: string) returns (es: seq<Event>, u: State)
    requires Three(p, q, t) && Idle(s, p, 2, [p, q]) && Idle(s, q, 2, [p, q])
    requires s.nodes.Keys == {p, q, t} && |s.runs| == 1 && s.nodes[p].myN == 1
    requires s.nodes[t] == Node(Fresh(t, []), 0, None)
    ensures Leads(s, es, u) && Idle(u, p, 3, [p, q, t]) && u.nodes[p].acc.na.n == 0 && u.nodes[p].myN == 2
    ensures u.nodes.Keys == {p, q, t} && u.nodes[t] == s.nodes[t] && u.nodes[q].cur == None
    ensures u.nodes[q].acc.ih == 2 && u.nodes[q].acc.va == ViewText.Value([p, q, t])
    ensures |u.runs| == 2 && u.runs[1].inst == 3 && u.runs[1].phase.Deciding? && q in u.runs[1].phase.voters
    ensures u.runs[1].phase.v == ViewText.Value([p, q, t]) && u.runs[1].n == Prop(2, p)
    ensures u.nodes[q].acc.nh == u.nodes[q].acc.na == u.runs[1].n
  {
    hide Leads, Next, Enabled, Timely, ViewText.Members, ViewText.Value, Quorum.Majority;
    assert [p, q] + [t] == [p, q, t];
    ViewText.ReadBack([p, q, t]);
    Majorities(p, q, t);
    var s1, best;
    es, s1, best := PreparePair(s, p, 2, [p, q], t, 0, 1);
    GreaterIsStrictTotal(Prop(2, p), Prop(2, p));
    var fs, s2 := DecidePair(s1, 1, p, q, p);
    LeadsThen(s, es, s1, fs, s2);
    es := es + fs;
    EndRunStep(s2, 1);
    u := Next(s2, EndRun(1));
    es := LeadsOn(s, es, s2, EndRun(1), u);
  }

  predicate Settled(s: State, p: string, q: string, t: string, i: nat) {
    i >= 1 && Idle(s, p, i, [p, q, t]) && Idle(s, q, i, [p, q, t]) && Idle(s, t, i, [p, q, t])
  }

  lemma ReachSettled(p: string, q: string, t: string) returns (es: seq<Event>, u: State)
    requires Three(p, q, t)
    ensures Leads(First(p, q, t), es, u) && Settled(u, p, q, t, 3)
  {
    hide Leads, Next, Enabled, Timely, ViewText.Members, ViewText.Value, First, Quorum.Majority;
    var s1;
    es, s1 := ReachLagging(p, q, t);
    ViewText.ReadBack([p, q, t]);
    DecideStep(s1, 1, q);
    u := Next(s1, RecvDecide(1, q));
    es := LeadsOn(First(p, q, t), es, s1, RecvDecide(1, q), u);
  }

  // ----- the three runs -----

  /** Two nodes committed different values for instance i. */
  predicate Split(s: State, x: string, y: string, i: nat) {
    && x in s.nodes && y in s.nodes && i in s.nodes[x].acc.values && i in s.nodes[y].acc.values
    && s.nodes[x].acc.values[i] != s.nodes[y].acc.values[i]
  }

  /** The events es, e, fs can happen in turn from s; only e misses the delivery assumption; and
      then x and y disagree on instance i. */
  ghost predicate Breaks(s: State, es: seq<Event>, e: Event, fs: seq<Event>, x: string, y: string, i: nat) {
    && TimelyRun(s, es) && AnyRun(s, es)
    && Enabled(After(s, es), e) && !Timely(After(s, es), e)
    && var u := Next(After(s, es), e);
       TimelyRun(u, fs) && AnyRun(u, fs) && Split(After(u, fs), x, y, i)
  }

  lemma BreaksFrom(s: State, es: seq<Event>, u: State, e: Event, fs: seq<Event>, w: State, x: string, y: string, i: nat)
    requires Leads(s, es, u) && Enabled(u, e) && !Timely(u, e) && Leads(Next(u, e), fs, w) && Split(w, x, y, i)
    ensures Breaks(s, es, e, fs, x, y, i)
  {
    hide Next, Enabled, Timely, TimelyRun, AnyRun, After, Split;
  }

  lemma ValuesDiffer(ms: seq<string>, a: string, b: string)
    requires (forall m | m in ms :: IsName(m)) && IsName(a) && IsName(b) && a != b
    ensures ViewText.Value(ms + [a]) != ViewText.Value(ms + [b]) && ViewText.Value(ms) != ViewText.Value(ms + [b])
  {
    ViewText.ReadBack(ms);
    ViewText.ReadBack(ms + [a]);
    ViewText.ReadBack(ms + [b]);
    assert (ms + [a])[|ms|] == a && (ms + [b])[|ms|] == b;
  }

  predicate NewNames(p: string, q: string, t: string, a: string, b: string) {
    IsName(a) && IsName(b) && a != b && a !in [p, q, t] && b !in [p, q, t]
  }

  /** With a vote of p in, a run of p and t ends with t's vote and the decision at t. */
  lemma FinishSlow(s: State, r: nat, p: string, t: string) returns (es: seq<Event>, u: State)
    requires Current(s, r) && s.runs[r].phase.Accepting? && s.runs[r].phase.promisers == [p, t] && p != t
    requires Quorum.Majority(s.runs[r].members, [p, t]) && Vote(r, p) in s.net && CanVote(s, r, t) && p in s.nodes
    ensures Leads(s, es, u) && p in u.nodes && t in u.nodes && u.nodes[p] == s.nodes[p]
    ensures var i := s.runs[r].inst;
            i in u.nodes[t].acc.values && u.nodes[t].acc.values[i] == s.runs[r].phase.v
  {
    hide Leads, Quorum.Majority, Next, Enabled, Timely;
    LeadsNowhere(s);
    AcceptStep(s, r, t);
    var s1 := Next(s, RecvAccept(r, t));
    es := LeadsOn(s, [], s, RecvAccept(r, t), s1);
    EndAcceptStep(s1, r, p, t);
    var s2 := Next(s1, EndAccept(r, [true, true]));
    es := LeadsOn(s, es, s1, EndAccept(r, [true, true]), s2);
    DecideStep(s2, r, t);
    u := Next(s2, RecvDecide(r, t));
    es := LeadsOn(s, es, s2, RecvDecide(r, t), u);
  }

  /** t has the promises of p and itself for a; p has overtaken it with q and committed b. */
  lemma Overtaken(s: State, p: string, q: string, t: string, i: nat, a: string, b: string)
    returns (es: seq<Event>, u: State)
    requires Three(p, q, t) && Settled(s, p, q, t, i) && NewNames(p, q, t, a, b)
    ensures Leads(s, es, u) && p in u.nodes && t in u.nodes && Current(u, |s.runs|)
    ensures var run := u.runs[|s.runs|];
            && run.inst == i + 1 && run.members == [p, q, t] && run.phase.Accepting? && run.n.n > 0
            && run.phase.promisers == [p, t] && run.phase.v == ViewText.Value([p, q, t] + [a])
            && u.nodes[t].acc.ih == i && u.nodes[t].acc.nh == run.n
    ensures var x := u.nodes[p].acc;
            x.ih == i + 1 && x.nh.n == 0 && i + 1 in x.values && x.values[i + 1] == ViewText.Value([p, q, t] + [b])
  {
    hide Leads, Quorum.Majority, ViewText.Members, ViewText.Value, TimelyRun, AnyRun, After, Enabled, Next, Timely;
    Majorities(p, q, t);
    var s1, best1, s2, best2;
    var ms, r := [p, q, t], |s.runs|;
    es, s1, best1 := PreparePair(s, t, i, ms, a, 0, 2);
    var fs, gs;
    fs, s2, best2 := PreparePair(s1, p, i, ms, b, 0, 1);
    LeadsThen(s, es, s1, fs, s2);
    GreaterIsStrictTotal(s2.runs[r + 1].n, s2.runs[r + 1].n);
    gs, u := DecidePair(s2, r + 1, p, q, p);
    LeadsThen(s, es + fs, s2, gs, u);
    es := es + fs + gs;
  }

  /** An accept that arrives after its acceptor has committed the instance. */
  lemma OneLateAcceptBreaksAgreement(p: string, q: string, t: string, a: string, b: string)
    returns (es: seq<Event>, e: Event, fs: seq<Event>)
    requires Three(p, q, t) && NewNames(p, q, t, a, b)
    ensures e.RecvAccept? && Breaks(First(p, q, t), es, e, fs, p, t, 4)
  {
    hide Leads, Breaks, First, Quorum.Majority, ViewText.Members, ViewText.Value, Enabled, Next, Timely;
    var s, s1, s2, w;
    es, s := ReachSettled(p, q, t);
    var r := |s.runs|;
    fs, s1 := Overtaken(s, p, q, t, 3, a, b);
    LeadsThen(First(p, q, t), es, s, fs, s1);
    es, e := es + fs, RecvAccept(r, p);
    AcceptStep(s1, r, p);
    s2 := Next(s1, e);
    Majorities(p, q, t);
    GreaterIsStrictTotal(s1.runs[r].n, s1.runs[r].n);
    fs, w := FinishSlow(s2, r, p, t);
    ValuesDiffer([p, q, t], a, b);
    BreaksFrom(First(p, q, t), es, s1, e, fs, w, p, t, 4);
  }

  /** A take-over from a node that is not ahead, which makes its taker forget a vote. */
  lemma OneBackwardJoinBreaksAgreement(p: string, q: string, t: string, a: string, b: string)
    returns (es: seq<Event>, e: Event, fs: seq<Event>)
    requires Three(p, q, t) && NewNames(p, q, t, a, b)
    ensures e.Join? && Breaks(First(p, q, t), es, e, fs, q, t, 4)
  {
    hide Leads, Breaks, First, Quorum.Majority, ViewText.Members, ViewText.Value, Enabled, Next, Timely, Inv;
    var s, s1, s2, best, gs;
    es, s := ReachSettled(p, q, t);
    var r, ms := |s.runs|, [p, q, t];
    Majorities(p, q, t);
    fs, s1, best := PreparePair(s, p, 3, ms, b, 0, 1);
    LeadsThen(First(p, q, t), es, s, fs, s1);
    es := es + fs;
    GreaterIsStrictTotal(s1.runs[r].n, s1.runs[r].n);
    gs, s2 := DecidePair(s1, r, p, q, q);
    LeadsThen(First(p, q, t), es, s1, gs, s2);
    es, e := es + gs, Join(p, t);
    LeadsKeepInv(p, q, t, es, s2);
    TakeOver(s2, p, t);
    NotAhead(s2, p, t);
    var w;
    fs, w := Forgotten(Next(s2, e), p, q, t, a);
    ValuesDiffer(ms, a, b);
    BreaksFrom(First(p, q, t), es, s2, e, fs, w, q, t, 4);
  }

  lemma NotAhead(s: State, p: string, t: string)
    requires p in s.nodes && t in s.nodes && p != t && s.nodes[t].acc.ih == s.nodes[p].acc.ih
    ensures !Timely(s, Join(p, t))
  {
  }

  /** p has forgotten its vote: t's run of p and itself ends with t's own value. */
  lemma Forgotten(s: State, p: string, q: string, t: string, a: string) returns (es: seq<Event>, u: State)
    requires Three(p, q, t) && IsName(a) && a !in [p, q, t] && q in s.nodes && Idle(s, t, 3, [p, q, t])
    requires p in s.nodes && s.nodes[p].acc.ih == 3 && s.nodes[p].acc.nh.n == 0 && s.nodes[p].acc.va == ""
    ensures Leads(s, es, u) && q in u.nodes && t in u.nodes && u.nodes[q] == s.nodes[q]
    ensures 4 in u.nodes[t].acc.values && u.nodes[t].acc.values[4] == ViewText.Value([p, q, t] + [a])
  {
    hide Leads, Quorum.Majority, ViewText.Members, ViewText.Value, Enabled, Next, Timely;
    var s1, best, fs;
    Majorities(p, q, t);
    es, s1, best := PreparePair(s, t, 3, [p, q, t], a, 0, 2);
    GreaterIsStrictTotal(s1.runs[|s.runs|].n, s1.runs[|s.runs|].n);
    fs, u := DecidePair(s1, |s.runs|, p, t, t);
    LeadsThen(s, es, s1, fs, u);
    es := es + fs;
  }

  /** p starts a run and promises it itself. */
  lemma EarlyStarts(s: State, r0: nat, p: string, q: string, t: string, i: nat, a: string)
    returns (es: seq<Event>, u: State)
    requires Three(p, q, t) && Lagging(s, r0, p, q, t, i) && IsName(a) && a !in [p, q, t]
    ensures Leads(s, es, u) && r0 < |s.runs| && |u.runs| == |s.runs| + 1 && u.runs[..|s.runs|] == s.runs
    ensures u.runs[|s.runs|] ==
            Run(p, i + 1, NumberOf(s, p), [p, q, t], ViewText.Value([p, q, t] + [a]), Preparing)
    ensures PromiseReply(|s.runs|, p, s.nodes[p].acc.na, "") in u.net
    ensures u.nodes == s.nodes[p := Node(WithPromise(s.nodes[p].acc, NumberOf(s, p)), NumberOf(s, p).n, Some(|s.runs|))]
  {
    hide Leads, Next, Enabled, Timely, ViewText.Members, ViewText.Value;
    LeadsNowhere(s);
    StartStep(s, p, i, [p, q, t], a);
    var s1 := Next(s, Start(p, i, Add(a)));
    es := LeadsOn(s, [], s, Start(p, i, Add(a)), s1);
    PrepareStep(s1, |s.runs|, p);
    u := Next(s1, RecvPrepare(|s.runs|, p));
    es := LeadsOn(s, es, s1, RecvPrepare(|s.runs|, p), u);
  }

  /** The promise of a node that is behind brings its vote of the instance before. */
  lemma WrongVote(ms: seq<string>, got: seq<Option<PrepareRes>>, x: Prop, n0: Prop, w: string)
    requires |ms| == 3 && got == [Some(Promise(x, "")), Some(Promise(n0, w)), None] && x.n == 0 && n0.n >= 1
    ensures Gather(ms, got, |got|) == Prepared([ms[0], ms[1]], n0, w)
  {
    assert Gather(ms, got, 0) == Prepared([], NO_PROP, "");
    assert Gather(ms, got, 1).Prepared? && Gather(ms, got, 1).accepts == [ms[0]] && Gather(ms, got, 1).best.n == 0;
    assert Gather(ms, got, 2) == Prepared([ms[0]] + [ms[1]], n0, w);
    assert [ms[0]] + [ms[1]] == [ms[0], ms[1]];
  }

  /** After q's early promise: p's run r asks for the old value w, q hears the decision of the instance
      before and so forgets the promise, and t's run with q commits b at t. */
  lemma EarlyGoesOn(s: State, r0: nat, r: nat, p: string, q: string, t: string, i: nat, b: string)
    returns (es: seq<Event>, u: State)
    requires Three(p, q, t) && IsName(b) && b !in [p, q, t] && i >= 2
    requires var w := ViewText.Value([p, q, t]);
             && r0 < r < |s.runs| && Current(s, r)
             && s.runs[r] == Run(p, i + 1, s.runs[r].n, [p, q, t], s.runs[r].newv, Preparing)
             && Idle(s, t, i, [p, q, t]) && s.nodes[t].myN == 0 && s.runs[r].n.n >= 2
             && Bound(s, p, r, i) && q in s.nodes && s.nodes[q].acc.ih == i - 1 && s.nodes[q].acc.va == w
             && s.nodes[q].acc.nh == s.runs[r].n
             && s.runs[r0].inst == i && s.runs[r0].phase.Deciding?
             && q in s.runs[r0].phase.voters && s.runs[r0].phase.v == w
             && s.runs[r0].n.n >= 1
    requires exists x: Prop :: x.n == 0 && PromiseReply(r, p, x, "") in s.net
    requires PromiseReply(r, q, s.runs[r0].n, ViewText.Value([p, q, t])) in s.net
    ensures Leads(s, es, u) && p in u.nodes && q in u.nodes && t in u.nodes && Current(u, r)
    ensures var run := u.runs[r];
            && run.inst == i + 1 && run.members == [p, q, t] && run.phase.Accepting? && run.phase.promisers == [p, q]
            && run.phase.v == ViewText.Value([p, q, t]) && CanVote(u, r, p) && CanVote(u, r, q)
    ensures i + 1 in u.nodes[t].acc.values && u.nodes[t].acc.values[i + 1] == ViewText.Value([p, q, t] + [b])
  {
    hide Leads, Next, Enabled, Timely, ViewText.Members, ViewText.Value, Quorum.Majority;
    var w, ms := ViewText.Value([p, q, t]), [p, q, t];
    var x: Prop :| x.n == 0 && PromiseReply(r, p, x, "") in s.net;
    var got := [Some(Promise(x, "")), Some(Promise(s.runs[r0].n, w)), None];
    WrongVote(ms, got, x, s.runs[r0].n, w);
    Majorities(p, q, t);
    LeadsNowhere(s);
    EndPrepareStep(s, r, got, [p, q], s.runs[r0].n, w);
    var s1 := Next(s, EndPrepare(r, got));
    es := LeadsOn(s, [], s, EndPrepare(r, got), s1);
    DecideStep(s1, r0, q);
    var s2 := Next(s1, RecvDecide(r0, q));
    es := LeadsOn(s, es, s1, RecvDecide(r0, q), s2);
    var fs, s3, best := PreparePair(s2, t, i, ms, b, 1, 2);
    LeadsThen(s, es, s2, fs, s3);
    es := es + fs;
    GreaterIsStrictTotal(s3.runs[|s2.runs|].n, s3.runs[|s2.runs|].n);
    fs, u := DecidePair(s3, |s2.runs|, q, t, t);
    LeadsThen(s, es, s3, fs, u);
    es := es + fs;
    GreaterIsStrictTotal(s.runs[r].n, s.runs[r].n);
  }

  predicate Bound(s: State, x: string, r: nat, i: nat) {
    r < |s.runs| && x in s.nodes && s.nodes[x].acc.nh == s.runs[r].n && s.nodes[x].acc.ih == i
  }

  /** A prepare that reaches an acceptor before the decision of the instance before it. */
  lemma OneEarlyPrepareBreaksAgreement(p: string, q: string, t: string, a: string, b: string)
    returns (es: seq<Event>, e: Event, fs: seq<Event>)
    requires Three(p, q, t) && NewNames(p, q, t, a, b)
    ensures e.RecvPrepare? && Breaks(First(p, q, t), es, e, fs, p, t, 4)
  {
    hide Leads, Breaks, First, Quorum.Majority, ViewText.Members, ViewText.Value, Enabled, Next, Timely;
    var s, s1, s2, s3, w, gs;
    es, s := ReachLagging(p, q, t);
    var r := |s.runs|;
    fs, s1 := EarlyStarts(s, 1, p, q, t, 3, a);
    LeadsThen(First(p, q, t), es, s, fs, s1);
    es, e := es + fs, RecvPrepare(r, q);
    assert s1.runs[1] == s1.runs[..r][1];
    PrepareStep(s1, r, q);
    s2 := Next(s1, e);
    assert s.nodes[p].acc.na.n == 0 && PromiseReply(r, p, s.nodes[p].acc.na, "") in s2.net;
    fs, s3 := EarlyGoesOn(s2, 1, r, p, q, t, 3, b);
    Majorities(p, q, t);
    gs, w := DecidePair(s3, r, p, q, p);
    LeadsThen(s2, fs, s3, gs, w);
    fs := fs + gs;
    ValuesDiffer([p, q, t], a, b);
    BreaksFrom(First(p, q, t), es, s1, e, fs, w, p, t, 4);
  }
}
