/** The proposer's side: choosing a number, collecting promises and votes, and the
    decisions run() takes between its phases. Replies of the remote calls are inputs. */
module Proposer {
  import opened Options
  import opened Proposal
  import opened PaxosLog
  import opened Acceptor
  import Quorum

  function NextNumber(nhN: nat, myN: nat): (n: nat)
    ensures n > nhN && n > myN && (n == nhN + 1 || n == myN + 1)
  {
    if nhN + 1 > myN + 1 then nhN + 1 else myN + 1
  }

  /** What prepare() ends with: the value of an old-instance reply, or the nodes that promised
      with the highest accepted number among their replies and its value. */
  datatype Outcome = Old(v: string) | Prepared(accepts: seq<string>, best: Prop, v: string)

  const NO_PROP := Prop(0, "0")

  /** The outcome after the first k nodes; None stands for a call that failed or timed out. */
  function Gather(nodes: seq<string>, got: seq<Option<PrepareRes>>, k: nat): Outcome
    requires k <= |got| == |nodes|
  {
    if k == 0 then Prepared([], NO_PROP, "")
    else
      match Gather(nodes, got, k - 1)
      case Old(w) => Old(w)
      case Prepared(accepts, best, v) =>
        match got[k - 1]
        case Some(OldInstance(w)) => Old(w)
        case Some(Promise(na, va)) =>
          if Greater(na, best) then Prepared(accepts + [nodes[k - 1]], na, va)
          else Prepared(accepts + [nodes[k - 1]], best, v)
        case _ => Prepared(accepts, best, v)
  }

  /** The nodes that answered the accept request with success, in order. */
  function Accepters(nodes: seq<string>, oks: seq<bool>, k: nat): seq<string>
    requires k <= |oks| == |nodes|
  {
    if k == 0 then []
    else if oks[k - 1] then Accepters(nodes, oks, k - 1) + [nodes[k - 1]]
    else Accepters(nodes, oks, k - 1)
  }

  /** The value run() goes on with: the highest accepted one, else its own. */
  function Chosen(v: string, newv: string): string {
    if v == "" then newv else v
  }

  predicate Promises(x: Option<PrepareRes>) { x.Some? && x.value.Promise? }

  predicate IsOld(x: Option<PrepareRes>) { x.Some? && x.value.OldInstance? }

  /** Reply j promises with number `best` and value v, and every earlier promise has a smaller one. */
  predicate FirstBestAt(got: seq<Option<PrepareRes>>, best: Prop, v: string, j: nat) {
    && j < |got| && got[j] == Some(Promise(best, v))
    && forall i | 0 <= i < j && Promises(got[i]) :: Greater(best, got[i].value.na)
  }

  ghost predicate FirstBest(got: seq<Option<PrepareRes>>, best: Prop, v: string) {
    exists j: nat :: FirstBestAt(got, best, v, j)
  }

  /** The initial number, or a higher one that was promised with. */
  ghost predicate BestSoFar(got: seq<Option<PrepareRes>>, best: Prop, v: string) {
    (best == NO_PROP && v == "") || (Greater(best, NO_PROP) && FirstBest(got, best, v))
  }

  /** The names at the ticked positions, in order. */
  function Ticked(nodes: seq<string>, ticks: seq<bool>): seq<string>
    requires |ticks| == |nodes|
  {
    if nodes == [] then []
    else (if ticks[0] then [nodes[0]] else []) + Ticked(nodes[1..], ticks[1..])
  }

  lemma {:induction false} TickedSnoc(nodes: seq<string>, ticks: seq<bool>)
    requires |ticks| == |nodes| > 0
    ensures var k := |nodes| - 1;
            Ticked(nodes, ticks) == Ticked(nodes[..k], ticks[..k]) + (if ticks[k] then [nodes[k]] else [])
  {
    var k := |nodes| - 1;
    if k == 0 {
      assert nodes[1..] == [] && nodes[..0] == [];
    } else {
      TickedSnoc(nodes[1..], ticks[1..]);
      assert nodes[1..][..k - 1] == nodes[..k][1..] && ticks[1..][..k - 1] == ticks[..k][1..];
    }
  }

  lemma {:induction false} TickedAre(nodes: seq<string>, ticks: seq<bool>)
    requires |ticks| == |nodes|
    ensures forall m :: m in Ticked(nodes, ticks) <==> exists j :: 0 <= j < |nodes| && nodes[j] == m && ticks[j]
  {
    if nodes == [] {
    } else {
      TickedAre(nodes[1..], ticks[1..]);
      forall m ensures m in Ticked(nodes, ticks) <==> exists j :: 0 <= j < |nodes| && nodes[j] == m && ticks[j] {
        if j :| 0 <= j < |nodes| && nodes[j] == m && ticks[j] {
          assert j > 0 ==> nodes[1..][j - 1] == m && ticks[1..][j - 1];
        }
        if m in Ticked(nodes[1..], ticks[1..]) {
          var j :| 0 <= j < |nodes[1..]| && nodes[1..][j] == m && ticks[1..][j];
          assert nodes[j + 1] == m && ticks[j + 1];
        }
      }
    }
  }

  /** Who promised, by position. */
  function PromiseTicks(got: seq<Option<PrepareRes>>): (t: seq<bool>)
    ensures |t| == |got|
  {
    seq(|got|, i requires 0 <= i < |got| => Promises(got[i]))
  }

  lemma {:induction false} GatherIsTicked(nodes: seq<string>, got: seq<Option<PrepareRes>>, k: nat)
    requires k <= |got| == |nodes| && Gather(nodes, got, k).Prepared?
    ensures Gather(nodes, got, k).accepts == Ticked(nodes[..k], PromiseTicks(got)[..k])
  {
    if k == 0 {
    } else {
      GatherIsTicked(nodes, got, k - 1);
      TickedSnoc(nodes[..k], PromiseTicks(got)[..k]);
      assert nodes[..k][..k - 1] == nodes[..k - 1];
      assert PromiseTicks(got)[..k][..k - 1] == PromiseTicks(got)[..k - 1];
    }
  }

  lemma {:induction false} AcceptersAreTicked(nodes: seq<string>, oks: seq<bool>, k: nat)
    requires k <= |oks| == |nodes|
    ensures Accepters(nodes, oks, k) == Ticked(nodes[..k], oks[..k])
  {
    if k == 0 {
    } else {
      AcceptersAreTicked(nodes, oks, k - 1);
      TickedSnoc(nodes[..k], oks[..k]);
      assert nodes[..k][..k - 1] == nodes[..k - 1] && oks[..k][..k - 1] == oks[..k - 1];
    }
  }

  /** The loop ends with an old reply exactly when there is one, and then with the first. */
  lemma {:induction false} GatherIsOld(nodes: seq<string>, got: seq<Option<PrepareRes>>, k: nat)
    requires k <= |got| == |nodes|
    ensures Gather(nodes, got, k).Old? <==> exists j :: 0 <= j < k && IsOld(got[j])
    ensures Gather(nodes, got, k).Old? ==> FirstOld(got, Gather(nodes, got, k).v)
  {
    if k == 0 {
    } else {
      GatherIsOld(nodes, got, k - 1);
      if Gather(nodes, got, k - 1).Prepared? && IsOld(got[k - 1]) {
        assert FirstOldAt(got, got[k - 1].value.v, k - 1);
      }
    }
  }

  predicate FirstOldAt(got: seq<Option<PrepareRes>>, v: string, j: nat) {
    j < |got| && got[j] == Some(OldInstance(v)) && forall i | 0 <= i < j :: !IsOld(got[i])
  }

  ghost predicate FirstOld(got: seq<Option<PrepareRes>>, v: string) { exists j: nat :: FirstOldAt(got, v, j) }

  /** Gather collects exactly the promising nodes, and its best is the greatest number
      promised, together with the value that came with it. */
  lemma {:induction false} GatherIsBest(nodes: seq<string>, got: seq<Option<PrepareRes>>, k: nat)
    requires k <= |got| == |nodes|
    requires Gather(nodes, got, k).Prepared?
    ensures var o := Gather(nodes, got, k);
            && (forall j | 0 <= j < k && Promises(got[j]) ::
                  nodes[j] in o.accepts && AtLeast(o.best, got[j].value.na))
            && (forall j | 0 <= j < k && got[j].Some? :: !got[j].value.OldInstance?)
            && BestSoFar(got[..k], o.best, o.v)
    ensures forall m | m in Gather(nodes, got, k).accepts ::
              exists j :: 0 <= j < k && nodes[j] == m && Promises(got[j])
  {
    if k == 0 {
    } else {
      GatherIsBest(nodes, got, k - 1);
      var o, o' := Gather(nodes, got, k - 1), Gather(nodes, got, k);
      if Promises(got[k - 1]) {
        var na := got[k - 1].value.na;
        GreaterIsStrictTotal(o.best, na);
        GreaterIsStrictTotal(na, na);
        forall j | 0 <= j < k && Promises(got[j])
          ensures nodes[j] in o'.accepts && AtLeast(o'.best, got[j].value.na)
        {
          AtLeastTransitive(na, o.best, got[j].value.na);
          GreaterIsStrictTotal(na, got[j].value.na);
        }
      }
      BestGoesOn(got, k, o.best, o.v, o'.best, o'.v);
    }
  }

  lemma BestGoesOn(got: seq<Option<PrepareRes>>, k: nat, best: Prop, v: string, best': Prop, v': string)
    requires 0 < k <= |got| && BestSoFar(got[..k - 1], best, v)
    requires forall j | 0 <= j < k - 1 && Promises(got[j]) :: AtLeast(best, got[j].value.na)
    requires if Promises(got[k - 1]) && Greater(got[k - 1].value.na, best)
             then best' == got[k - 1].value.na && v' == got[k - 1].value.va
             else best' == best && v' == v
    ensures BestSoFar(got[..k], best', v')
  {
    if Promises(got[k - 1]) && Greater(got[k - 1].value.na, best) {
      GreaterIsStrictTotal(best, NO_PROP);
      AtLeastTransitive(best', best, NO_PROP);
      forall i | 0 <= i < k - 1 && Promises(got[i]) ensures Greater(best', got[i].value.na) {
        AtLeastTransitive(best', best, got[i].value.na);
      }
      assert FirstBestAt(got[..k], best', v', k - 1);
    } else if FirstBest(got[..k - 1], best, v) {
      var j: nat :| FirstBestAt(got[..k - 1], best, v, j);
      assert FirstBestAt(got[..k], best, v, j);
    }
  }

  lemma {:induction false} AcceptersAre(nodes: seq<string>, oks: seq<bool>, k: nat)
    requires k <= |oks| == |nodes|
    ensures forall m :: m in Accepters(nodes, oks, k) <==>
                          exists j :: 0 <= j < k && nodes[j] == m && oks[j]
  {
    if k == 0 {
    } else {
      AcceptersAre(nodes, oks, k - 1);
    }
  }

  /** How far a run gets. */
  datatype RunResult =
    | FoundOld(v: string)
    | NoPromises
    | NoVotes(v: string)
    | Agreed(v: string, accepts: seq<string>)

  function RunOutcome(curNodes: seq<string>, newv: string,
                      got: seq<Option<PrepareRes>>, oks: seq<bool>): RunResult
    requires |got| == |curNodes|
    requires var o := Gather(curNodes, got, |got|); o.Prepared? ==> |oks| == |o.accepts|
  {
    match Gather(curNodes, got, |got|)
    case Old(v) => FoundOld(v)
    case Prepared(accepts, best, v) =>
      if !Quorum.Majority(curNodes, accepts) then NoPromises
      else
        var voted := Accepters(accepts, oks, |oks|);
        if Quorum.Majority(curNodes, voted) then Agreed(Chosen(v, newv), voted)
        else NoVotes(Chosen(v, newv))
  }

  /** Some promise came with a number above the initial one. */
  predicate Beaten(got: seq<Option<PrepareRes>>) {
    exists j :: 0 <= j < |got| && Promises(got[j]) && Greater(got[j].value.na, NO_PROP)
  }

  /** The value run() asks for: that of the highest number promised with, the first such reply
      counting, and its own where that value is empty or no number beats the initial one. */
  ghost predicate AsksFor(got: seq<Option<PrepareRes>>, newv: string, v: string) {
    if Beaten(got) then
      exists best, w :: HighestIs(got, best, w) && v == if w == "" then newv else w
    else v == newv
  }

  ghost predicate HighestIs(got: seq<Option<PrepareRes>>, best: Prop, w: string) {
    FirstBest(got, best, w) && forall j | 0 <= j < |got| && Promises(got[j]) :: AtLeast(best, got[j].value.na)
  }

  /** One answer per accept call, which goes to the nodes that promised. */
  predicate Answered(cur: seq<string>, got: seq<Option<PrepareRes>>, oks: seq<bool>) {
    |got| == |cur| && (NoOld(got) ==> |oks| == |Ticked(cur, PromiseTicks(got))|)
  }

  predicate NoOld(got: seq<Option<PrepareRes>>) { forall j | 0 <= j < |got| :: !IsOld(got[j]) }

  /** What run() must end with, for all replies of all nodes. */
  ghost predicate RunIs(cur: seq<string>, newv: string, got: seq<Option<PrepareRes>>, oks: seq<bool>, r: RunResult)
    requires Answered(cur, got, oks)
  {
    if !NoOld(got) then r.FoundOld? && FirstOld(got, r.v)
    else
      var promised := Ticked(cur, PromiseTicks(got));
      var voted := Ticked(promised, oks);
      if !Quorum.MoreThanHalf(cur, Quorum.Names(promised)) then r == NoPromises
      else if !Quorum.MoreThanHalf(cur, Quorum.Names(voted)) then r.NoVotes? && AsksFor(got, newv, r.v)
      else r.Agreed? && AsksFor(got, newv, r.v) && r.accepts == voted
  }

  lemma GatherAsksFor(nodes: seq<string>, got: seq<Option<PrepareRes>>, newv: string)
    requires |got| == |nodes| && Gather(nodes, got, |got|).Prepared?
    ensures AsksFor(got, newv, Chosen(Gather(nodes, got, |got|).v, newv))
  {
    var o := Gather(nodes, got, |got|);
    GatherIsBest(nodes, got, |got|);
    assert got[..|got|] == got;
    hide Gather, Greater, AtLeast;
    if Beaten(got) {
      var j :| 0 <= j < |got| && Promises(got[j]) && Greater(got[j].value.na, NO_PROP);
      AtLeastTransitive(o.best, got[j].value.na, NO_PROP);
      GreaterIsStrictTotal(NO_PROP, NO_PROP);
      assert HighestIs(got, o.best, o.v);
    } else if FirstBest(got, o.best, o.v) {
      var j: nat :| FirstBestAt(got, o.best, o.v, j);
      assert Promises(got[j]);
    }
  }

  lemma GatherAnswered(cur: seq<string>, got: seq<Option<PrepareRes>>, oks: seq<bool>)
    requires Answered(cur, got, oks)
    ensures var o := Gather(cur, got, |got|);
            && (o.Prepared? <==> NoOld(got))
            && (o.Prepared? ==> o.accepts == Ticked(cur, PromiseTicks(got)) && |oks| == |o.accepts|)
            && (o.Old? ==> FirstOld(got, o.v))
  {
    GatherIsOld(cur, got, |got|);
    if NoOld(got) {
      GatherIsTicked(cur, got, |got|);
      assert cur[..|got|] == cur && PromiseTicks(got)[..|got|] == PromiseTicks(got);
    }
  }

  lemma RunOutcomeIs(cur: seq<string>, newv: string, got: seq<Option<PrepareRes>>, oks: seq<bool>)
    requires Answered(cur, got, oks)
    requires var o := Gather(cur, got, |got|); o.Prepared? ==> |oks| == |o.accepts|
    ensures RunIs(cur, newv, got, oks, RunOutcome(cur, newv, got, oks))
  {
    hide Gather, AsksFor, Quorum.Majority, Quorum.MoreThanHalf, FirstOld;
    GatherAnswered(cur, got, oks);
    if NoOld(got) {
      var promised := Ticked(cur, PromiseTicks(got));
      GatherAsksFor(cur, got, newv);
      AcceptersAreTicked(promised, oks, |oks|);
      assert promised[..|oks|] == promised && oks[..|oks|] == oks;
      Quorum.MajorityIsMoreThanHalf(cur, promised);
      Quorum.MajorityIsMoreThanHalf(cur, Ticked(promised, oks));
    }
  }

  /** That leaves one result for each input. */
  lemma OneOutcome(cur: seq<string>, newv: string, got: seq<Option<PrepareRes>>, oks: seq<bool>,
                   r: RunResult, r': RunResult)
    requires Answered(cur, got, oks) && RunIs(cur, newv, got, oks, r) && RunIs(cur, newv, got, oks, r')
    ensures r == r'
  {
    hide Quorum.MoreThanHalf, Ticked;
    if NoOld(got) {
      if !r.NoPromises? { OneValue(got, newv, r.v, r'.v); }
    } else {
      var i: nat :| FirstOldAt(got, r.v, i);
      var j: nat :| FirstOldAt(got, r'.v, j);
      assert i == j;
    }
  }

  lemma OneValue(got: seq<Option<PrepareRes>>, newv: string, v: string, v': string)
    requires AsksFor(got, newv, v) && AsksFor(got, newv, v')
    ensures v == v'
  {
    if Beaten(got) {
      var b, w :| HighestIs(got, b, w) && v == if w == "" then newv else w;
      var b', w' :| HighestIs(got, b', w') && v' == if w' == "" then newv else w';
      var i: nat :| FirstBestAt(got, b, w, i);
      var j: nat :| FirstBestAt(got, b', w', j);
      assert Promises(got[i]) && Promises(got[j]);
      GreaterIsStrictTotal(b, b');
      assert i == j;
    }
  }

  class ProposerNode {
    const me: string
    var myN: nat
    var stable: bool

    constructor (me: string)
      ensures this.me == me && myN == 0 && stable
    {
      this.me := me;
      myN := 0;
      stable := true;
    }

    method SetN(nhN: nat)
      modifies this`myN
      ensures myN > nhN && myN > old(myN) && (myN == nhN + 1 || myN == old(myN) + 1)
      ensures myN == NextNumber(nhN, old(myN))
    {
      myN := if nhN + 1 > myN + 1 then nhN + 1 else myN + 1;
    }

    /** The loop over the members; an old-instance reply ends it. */
    method Prepare(nodes: seq<string>, got: seq<Option<PrepareRes>>)
      returns (ok: bool, accepts: seq<string>, v: string, oldv: string)
      requires |got| == |nodes|
      ensures var o := Gather(nodes, got, |got|);
              && (ok <==> o.Prepared?)
              && (ok ==> accepts == o.accepts && v == o.v)
              && (!ok ==> oldv == o.v)
    {
      var maxNa := NO_PROP;
      v, accepts, oldv := "", [], "";
      for k := 0 to |nodes|
        invariant Gather(nodes, got, k) == Prepared(accepts, maxNa, v)
      {
        match got[k] {
          case None =>
          case Some(OldInstance(w)) =>
            OldIsFinal(nodes, got, k + 1);
            return false, accepts, v, w;
          case Some(Promise(na, va)) =>
            accepts := accepts + [nodes[k]];
            if Greater(na, maxNa) {
              maxNa := na;
              v := va;
            }
          case Some(Reject) =>
        }
      }
      ok := true;
    }

    method Accept(nodes: seq<string>, oks: seq<bool>) returns (accepts: seq<string>)
      requires |oks| == |nodes|
      ensures accepts == Accepters(nodes, oks, |oks|)
    {
      accepts := [];
      for k := 0 to |nodes|
        invariant accepts == Accepters(nodes, oks, k)
      {
        if oks[k] {
          accepts := accepts + [nodes[k]];
        }
      }
    }

    /** None when a run is already in progress. */
    method Run(nhN: nat, curNodes: seq<string>, newv: string,
               got: seq<Option<PrepareRes>>, oks: seq<bool>) returns (r: Option<RunResult>)
      requires Answered(curNodes, got, oks)
      modifies this
      ensures r.Some? <==> old(stable)
      ensures r.Some? ==> RunIs(curNodes, newv, got, oks, r.value)
      ensures myN == if old(stable) then NextNumber(nhN, old(myN)) else old(myN)
      ensures stable == old(stable)
    {
      if !stable { return None; }
      stable := false;
      SetN(nhN);
      GatherAnswered(curNodes, got, oks);
      RunOutcomeIs(curNodes, newv, got, oks);
      hide RunIs;
      var ok, promised, v, oldv := Prepare(curNodes, got);
      if ok {
        var most := Quorum.ComputeMajority(curNodes, promised);
        if most {
          if |v| == 0 { v := newv; }
          var voted := Accept(promised, oks);
          var enough := Quorum.ComputeMajority(curNodes, voted);
          r := Some(if enough then Agreed(v, voted) else NoVotes(v));
        } else {
          r := Some(NoPromises);
        }
      } else {
        r := Some(FoundOld(oldv));
      }
      stable := true;
    }
  }

  lemma {:induction false} OldIsFinal(nodes: seq<string>, got: seq<Option<PrepareRes>>, k: nat)
    requires k <= |got| == |nodes|
    requires Gather(nodes, got, k).Old?
    ensures Gather(nodes, got, |got|) == Gather(nodes, got, k)
    decreases |got| - k
  {
    if k == |got| {
    } else {
      OldIsFinal(nodes, got, k + 1);
    }
  }
}
