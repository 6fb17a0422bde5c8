/** Paxos over all nodes: proposer runs, acceptors with durable logs, and a network that
    loses, delays, duplicates and reorders. Each step runs one handler or one phase of the
    code; a run of the system is a sequence of events. */
module PaxosSystem {
  import opened Options
  import opened Text
  import opened Proposal
  import opened PaxosLog
  import opened Acceptor
  import opened Proposer
  import Quorum
  import ViewText

  /** What add() and remove_wo() ask for. */
  datatype Change = Add(m: string) | Remove(m: string)

  function Changed(ms: seq<string>, c: Change): seq<string> {
    match c
    case Add(m) => ms + [m]
    case Remove(m) => ViewText.Without(ms, m)
  }

  /** Joins add a node that is not a member; a member removes another member. */
  predicate ValidChange(ms: seq<string>, p: string, c: Change) {
    match c
    case Add(m) => IsName(m) && m !in ms
    case Remove(m) => p in ms && m in ms && m != p
  }

  datatype Phase =
    | Preparing
    | Accepting(promisers: seq<string>, best: Prop, v: string)
    | Deciding(promisers: seq<string>, best: Prop, v: string, voters: seq<string>)

  datatype Run = Run(owner: string, inst: nat, n: Prop, members: seq<string>, newv: string, phase: Phase)

  /** A node: its acceptor, the last number of its proposer, and the run in progress, if any. */
  datatype Node = Node(acc: Acc, myN: nat, cur: Option<nat>)

  /** Replies carry the run that asked; rejections have no effect and are not kept. */
  datatype Reply =
    | PromiseReply(run: nat, from: string, na: Prop, va: string)
    | OldReply(run: nat, from: string, v: string)
    | Vote(run: nat, from: string)

  datatype State = State(first: string, nodes: map<string, Node>, runs: seq<Run>, net: set<Reply>)

  datatype Event =
    | Start(p: string, vid: nat, change: Change)
    | RecvPrepare(r: nat, q: string)
    | EndPrepare(r: nat, got: seq<Option<PrepareRes>>)
    | RecvAccept(r: nat, q: string)
    | EndAccept(r: nat, oks: seq<bool>)
    | RecvDecide(r: nat, q: string)
    | EndRun(r: nat)
    | Crash(p: string)
    | Join(p: string, q: string)

  predicate Names(names: set<string>) {
    forall p | p in names :: IsName(p)
  }

  function Init(first: string, names: set<string>): State
    requires first in names
  {
    State(first, map p | p in names :: Node(Boot(p, p == first, p, []), 0, None), [], {})
  }

  /** Run r is the one its owner's proposer is working on. */
  predicate Current(s: State, r: nat) {
    r < |s.runs| && s.runs[r].owner in s.nodes && s.nodes[s.runs[r].owner].cur == Some(r)
  }

  predicate Justified(s: State, r: nat, got: seq<Option<PrepareRes>>)
    requires r < |s.runs|
  {
    var ms := s.runs[r].members;
    && |got| == |ms|
    && (forall k | 0 <= k < |got| && got[k].Some? ::
          match got[k].value
          case Promise(na, va) => PromiseReply(r, ms[k], na, va) in s.net
          case OldInstance(v) => OldReply(r, ms[k], v) in s.net
          case Reject => true)
  }

  predicate Enabled(s: State, e: Event) {
    match e
    case Start(p, vid, c) =>
      && p in s.nodes && s.nodes[p].cur.None?
      && 1 <= vid <= s.nodes[p].acc.ih
      && ValidChange(ViewText.Members(ValueAt(s.nodes[p].acc.values, vid)), p, c)
    case RecvPrepare(r, q) => r < |s.runs| && q in s.nodes && q in s.runs[r].members
    case EndPrepare(r, got) => Current(s, r) && s.runs[r].phase.Preparing? && Justified(s, r, got)
    case RecvAccept(r, q) =>
      r < |s.runs| && q in s.nodes && !s.runs[r].phase.Preparing? && q in s.runs[r].phase.promisers
    case EndAccept(r, oks) =>
      && Current(s, r) && s.runs[r].phase.Accepting?
      && |oks| == |s.runs[r].phase.promisers|
      && (forall k | 0 <= k < |oks| && oks[k] :: Vote(r, s.runs[r].phase.promisers[k]) in s.net)
    case RecvDecide(r, q) =>
      r < |s.runs| && q in s.nodes && s.runs[r].phase.Deciding? && q in s.runs[r].phase.voters
    case EndRun(r) => Current(s, r) && s.runs[r].phase.Deciding?
    case Crash(p) => p in s.nodes
    case Join(p, q) => p in s.nodes && q in s.nodes && p != q
  }

  /** The delivery assumption: no prepare reaches an acceptor that is behind, an accept reaches
      only an acceptor working on its instance, and a node joins from one that is ahead of it. */
  predicate Timely(s: State, e: Event)
    requires Enabled(s, e)
  {
    match e
    case RecvPrepare(r, q) => s.runs[r].inst <= s.nodes[q].acc.ih + 1
    case RecvAccept(r, q) => s.runs[r].inst == s.nodes[q].acc.ih + 1
    case Join(p, q) => s.nodes[q].acc.ih > s.nodes[p].acc.ih
    case _ => true
  }

  function SetAcc(s: State, p: string, a: Acc): State
    requires p in s.nodes
  {
    s.(nodes := s.nodes[p := s.nodes[p].(acc := a)])
  }

  function SetCur(s: State, p: string, cur: Option<nat>): State
    requires p in s.nodes
  {
    s.(nodes := s.nodes[p := s.nodes[p].(cur := cur)])
  }

  function SetPhase(s: State, r: nat, phase: Phase): State
    requires r < |s.runs|
  {
    s.(runs := s.runs[r := s.runs[r].(phase := phase)])
  }

  function Restart(s: State, p: string): State
    requires p in s.nodes
  {
    s.(nodes := s.nodes[p := Node(Boot(p, p == s.first, p, s.nodes[p].acc.log), 0, None)])
  }

  function NewRun(s: State, p: string, vid: nat, c: Change): Run
    requires p in s.nodes
  {
    var a := s.nodes[p].acc;
    var ms := ViewText.Members(ValueAt(a.values, vid));
    Run(p, vid + 1, Prop(NextNumber(a.nh.n, s.nodes[p].myN), p), ms,
        ViewText.Value(Changed(ms, c)), Preparing)
  }

  function Next(s: State, e: Event): State
    requires Enabled(s, e)
  {
    match e
    case Start(p, vid, c) =>
      var run := NewRun(s, p, vid, c);
      s.(nodes := s.nodes[p := s.nodes[p].(myN := run.n.n, cur := Some(|s.runs|))],
         runs := s.runs + [run])
    case RecvPrepare(r, q) =>
      var (a, res) := HandlePrepare(s.nodes[q].acc, s.runs[r].inst, s.runs[r].n);
      (match res
       case OldInstance(v) => s.(net := s.net + {OldReply(r, q, v)})
       case Promise(na, va) => SetAcc(s, q, a).(net := s.net + {PromiseReply(r, q, na, va)})
       case Reject => s)
    case EndPrepare(r, got) =>
      var run := s.runs[r];
      (match Gather(run.members, got, |got|)
       case Old(v) =>
         SetCur(SetAcc(s, run.owner, Commit(s.nodes[run.owner].acc, run.inst, v)), run.owner, None)
       case Prepared(accepts, best, v) =>
         if Quorum.Majority(run.members, accepts) then
           SetPhase(s, r, Accepting(accepts, best, Chosen(v, run.newv)))
         else SetCur(s, run.owner, None))
    case RecvAccept(r, q) =>
      var run := s.runs[r];
      var (a, ok) := HandleAccept(s.nodes[q].acc, run.inst, run.n, run.phase.v);
      if ok then SetAcc(s, q, a).(net := s.net + {Vote(r, q)}) else s
    case EndAccept(r, oks) =>
      var run := s.runs[r];
      var voters := Accepters(run.phase.promisers, oks, |oks|);
      if Quorum.Majority(run.members, voters) then
        SetPhase(s, r, Deciding(run.phase.promisers, run.phase.best, run.phase.v, voters))
      else SetCur(s, run.owner, None)
    case RecvDecide(r, q) =>
      (match HandleDecide(s.nodes[q].acc, s.runs[r].inst, s.runs[r].phase.v)
       case Fine(a) => SetAcc(s, q, a)
       case VerifyFailed => Restart(s, q))
    case EndRun(r) => SetCur(s, s.runs[r].owner, None)
    case Crash(p) => Restart(s, p)
    case Join(p, q) => SetAcc(s, p, Restore(s.nodes[p].acc, s.nodes[q].acc))
  }

  /** The events can happen one after the other, all meeting the delivery assumption. */
  predicate TimelyRun(s: State, es: seq<Event>)
    decreases |es|
  {
    es == [] || (Enabled(s, es[0]) && Timely(s, es[0]) && TimelyRun(Next(s, es[0]), es[1..]))
  }

  /** The events can happen one after the other. */
  predicate AnyRun(s: State, es: seq<Event>)
    decreases |es|
  {
    es == [] || (Enabled(s, es[0]) && AnyRun(Next(s, es[0]), es[1..]))
  }

  function After(s: State, es: seq<Event>): State
    requires AnyRun(s, es)
    decreases |es|
  {
    if es == [] then s else After(Next(s, es[0]), es[1..])
  }

  // ----- run() and the events that stand for it -----

  /** The proposer's run() ends as the two events that close its phases do: with the value committed
      from an old reply, with the run given up, or with the value decided by the voters found. */
  lemma RunIsEvents(s: State, r: nat, got: seq<Option<PrepareRes>>, oks: seq<bool>)
    requires Enabled(s, EndPrepare(r, got))
    requires var o := Gather(s.runs[r].members, got, |got|); o.Prepared? ==> |oks| == |o.accepts|
    ensures var run, t := s.runs[r], Next(s, EndPrepare(r, got));
            match RunOutcome(run.members, run.newv, got, oks)
            case FoundOld(v) =>
              t == SetCur(SetAcc(s, run.owner, Commit(s.nodes[run.owner].acc, run.inst, v)), run.owner, None)
            case NoPromises => t == SetCur(s, run.owner, None)
            case NoVotes(v) =>
              t.runs[r].phase.Accepting? && t.runs[r].phase.v == v
              && (Enabled(t, EndAccept(r, oks)) ==> Next(t, EndAccept(r, oks)) == SetCur(t, run.owner, None))
            case Agreed(v, voters) =>
              t.runs[r].phase.Accepting? && t.runs[r].phase.v == v
              && (Enabled(t, EndAccept(r, oks)) ==>
                    var phase := Next(t, EndAccept(r, oks)).runs[r].phase;
                    phase.Deciding? && phase.v == v && phase.voters == voters)
  {
    hide Gather, Accepters, Quorum.Majority;
  }
}
