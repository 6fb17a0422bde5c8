/** One replica of the replicated state machine: the handlers and recovery steps as functions
    on replica states, and the object that runs them in place. The state of the replicated
    service is the sequence of requests executed, since execution is deterministic. */
module Rsm {
  import opened Options
  import ViewText
  import Views

  datatype Viewstamp = Vs(vid: nat, seqno: nat)

  datatype Entry = Entry(vs: Viewstamp, req: string)

  datatype Status = OK | ERR | BUSY | NOTPRIMARY

  predicate Later(a: Viewstamp, b: Viewstamp) {
    a.vid > b.vid || (a.vid == b.vid && a.seqno > b.seqno)
  }

  datatype Replica = Replica(
    me: string, myvs: Viewstamp, lastvs: Viewstamp, hist: seq<Entry>, primary: string,
    insync: bool, inviewchange: bool, vidCommit: nat, vidInsync: nat, backups: seq<string>)

  function Fresh(first: string, me: string): Replica {
    Replica(me, Vs(0, 1), Vs(0, 0), [], first, false, true, 0, 0, [])
  }

  /** Run the request under the next stamp. */
  function Execute(r: Replica, req: string): Replica {
    r.(lastvs := r.myvs, myvs := Vs(r.myvs.vid, r.myvs.seqno + 1), hist := r.hist + [Entry(r.myvs, req)])
  }

  function HandleInvoke(r: Replica, vs: Viewstamp, req: string): (Replica, Status) {
    if r.inviewchange then (r, BUSY)
    else if vs != r.myvs then (r, ERR)
    else (Execute(r, req), OK)
  }

  predicate AmIPrimary(r: Replica) {
    r.primary == r.me && !r.inviewchange
  }

  /** What client_invoke does once it knows how each backup answered. The flags only set a status
      that the first answer overwrites; the request runs in any case. */
  function HandleClient(r: Replica, req: string, oks: seq<bool>): (Replica, Status) {
    if exists k :: 0 <= k < |oks| && !oks[k] then (r, BUSY)
    else (Execute(r, req), if oks == [] && !AmIPrimary(r) then NOTPRIMARY else OK)
  }

  /** None where a VERIFY of set_primary fails. */
  function CommitChange(r: Replica, vid: nat, p: seq<string>, c: seq<string>): Option<Replica> {
    if vid <= r.vidCommit then Some(r)
    else if c == [] then None
    else
      match Views.NextPrimary(r.primary, p, c)
      case None => None
      case Some(x) => Some(r.(vidCommit := vid, inviewchange := true, primary := x))
  }

  function BeginSync(r: Replica, view: seq<string>): Replica {
    var r' := r.(vidInsync := r.vidCommit, insync := true);
    if r.primary == r.me then r'.(backups := ViewText.Without(view, r.me)) else r'
  }

  function LeaveSync(r: Replica): Replica {
    r.(insync := false)
  }

  /** The recovery thread after a successful sync. */
  function FinishSync(r: Replica): Replica {
    r.(insync := false, inviewchange := false, myvs := Vs(r.vidCommit, 1))
  }

  /** The answer to a state transfer request: the state only if the stamps differ. */
  datatype Transfer = Transfer(state: Option<seq<Entry>>, last: Viewstamp)

  function HandleTransfer(r: Replica, last: Viewstamp, vid: nat): Option<Transfer> {
    if !r.insync || vid != r.vidInsync then None
    else Some(Transfer(if last != r.lastvs then Some(r.hist) else None, r.lastvs))
  }

  /** The requester copies the state only if its stamp differs from the sender's. */
  function ApplyTransfer(r: Replica, t: Transfer): Replica {
    if r.lastvs != t.last then
      r.(hist := if t.state.Some? then t.state.value else [], lastvs := t.last)
    else r.(lastvs := t.last)
  }

  function EraseFirst(bs: seq<string>, m: string): seq<string> {
    if bs == [] then []
    else if bs[0] == m then bs[1..]
    else [bs[0]] + EraseFirst(bs[1..], m)
  }

  lemma {:induction false} EraseFirstKeeps(bs: seq<string>, m: string)
    ensures forall x :: x in EraseFirst(bs, m) ==> x in bs
    ensures forall x :: x in bs && x != m ==> x in EraseFirst(bs, m)
  {
    if bs != [] && bs[0] != m { EraseFirstKeeps(bs[1..], m); }
  }

  lemma {:induction false} EraseCounts(bs: seq<string>, m: string)
    ensures multiset(EraseFirst(bs, m)) == multiset(bs) - multiset{m}
  {
    if bs == [] {
    } else {
      assert bs == [bs[0]] + bs[1..];
      if bs[0] != m { EraseCounts(bs[1..], m); }
    }
  }

  method Erase(bs: seq<string>, m: string) returns (r: seq<string>)
    ensures r == EraseFirst(bs, m)
  {
    for i := 0 to |bs|
      invariant EraseFirst(bs, m) == bs[..i] + EraseFirst(bs[i..], m)
    {
      assert bs[i..][1..] == bs[i + 1..];
      if bs[i] == m { return bs[..i] + bs[i + 1..]; }
      assert bs[..i + 1] == bs[..i] + [bs[i]];
    }
    assert bs[..|bs|] == bs && bs[|bs|..] == [];
    return bs;
  }

  /** Only vid_commit is compared; insync is not looked at. */
  function HandleTransferDone(r: Replica, m: string, vid: nat): (Replica, Status) {
    if r.vidInsync == 0 || vid != r.vidCommit then (r, BUSY)
    else (r.(backups := EraseFirst(r.backups, m)), OK)
  }

  /** The request ran once, under the stamp the replica was at, and nothing else changed. */
  predicate Ran(r: Replica, r': Replica, req: string) {
    && |r'.hist| == |r.hist| + 1 && r'.hist[..|r.hist|] == r.hist && r'.hist[|r.hist|] == Entry(r.myvs, req)
    && r'.lastvs == r.myvs && r'.myvs.vid == r.myvs.vid && r'.myvs.seqno == r.myvs.seqno + 1
    && r' == r.(hist := r'.hist, lastvs := r'.lastvs, myvs := r'.myvs)
  }

  class RsmNode {
    const me: string
    var myvs: Viewstamp
    var lastMyvs: Viewstamp
    var hist: seq<Entry>
    var primary: string
    var insync: bool
    var inviewchange: bool
    var vidCommit: nat
    var vidInsync: nat
    var backups: seq<string>

    function State(): Replica
      reads this
    {
      Replica(me, myvs, lastMyvs, hist, primary, insync, inviewchange, vidCommit, vidInsync, backups)
    }

    constructor (first: string, me: string)
      ensures State() == Fresh(first, me)
    {
      this.me := me;
      primary := first;
      insync, inviewchange, vidCommit, vidInsync := false, true, 0, 0;
      lastMyvs := Vs(0, 0);
      myvs := Vs(0, 1);
      hist, backups := [], [];
    }

    method ExecuteNext(req: string)
      modifies this
      ensures Ran(old(State()), State(), req) && State() == Execute(old(State()), req)
    {
      lastMyvs := myvs;
      myvs := Vs(myvs.vid, myvs.seqno + 1);
      hist := hist + [Entry(lastMyvs, req)];
    }

    /** Forward to the backups one at a time; the first failure ends the round. */
    method ClientInvoke(req: string, slaves: seq<string>, oks: seq<bool>) returns (ret: Status)
      requires |oks| == |slaves|
      modifies this
      ensures false in oks ==> ret == BUSY && State() == old(State())
      ensures false !in oks ==> ret == if oks == [] && (primary != me || inviewchange) then NOTPRIMARY else OK
      ensures false !in oks ==> Ran(old(State()), State(), req)
      ensures (State(), ret) == HandleClient(old(State()), req, oks)
    {
      ret := OK;
      if inviewchange { ret := BUSY; }
      if !(primary == me && !inviewchange) { ret := NOTPRIMARY; }
      for k := 0 to |slaves|
        invariant State() == old(State())
        invariant forall j | 0 <= j < k :: oks[j]
        invariant ret == if k == 0 && !AmIPrimary(State()) then NOTPRIMARY else OK
      {
        if !oks[k] {
          assert false in oks;
          return BUSY;
        }
        ret := OK;
      }
      ExecuteNext(req);
    }

    method Invoke(vs: Viewstamp, req: string) returns (ret: Status)
      modifies this
      ensures ret == if old(inviewchange) then BUSY else if vs != old(myvs) then ERR else OK
      ensures ret == OK ==> Ran(old(State()), State(), req)
      ensures ret != OK ==> State() == old(State())
      ensures (State(), ret) == HandleInvoke(old(State()), vs, req)
    {
      if inviewchange { return BUSY; }
      if vs != myvs { return ERR; }
      ExecuteNext(req);
      ret := OK;
    }

    /** False where set_primary aborts. */
    method CommitChangeWo(vid: nat, p: seq<string>, c: seq<string>) returns (alive: bool)
      modifies this
      ensures vid <= old(vidCommit) ==> alive && State() == old(State())
      ensures vid > old(vidCommit) ==> (alive <==> old(primary) in c || (exists x :: x in p && x in c))
      ensures vid > old(vidCommit) && alive ==>
                && State() == old(State()).(vidCommit := vid, inviewchange := true, primary := primary)
                && if old(primary) in c then primary == old(primary) else Views.FirstOf(p, c, primary)
      ensures alive <==> CommitChange(old(State()), vid, p, c).Some?
      ensures alive ==> Some(State()) == CommitChange(old(State()), vid, p, c)
    {
      if vid <= vidCommit { return true; }
      if c == [] { return false; }
      vidCommit := vid;
      inviewchange := true;
      var next := Views.SetPrimary(primary, p, c);
      if next.None? { return false; }
      primary := next.value;
      alive := true;
    }

    method StartSync(view: seq<string>)
      modifies this
      ensures insync && vidInsync == vidCommit
      ensures State() == old(State()).(insync := true, vidInsync := vidCommit, backups := backups)
      ensures multiset(backups) == if primary == me then multiset(view)[me := 0] else multiset(old(backups))
      ensures State() == BeginSync(old(State()), view)
    {
      vidInsync := vidCommit;
      if primary == me {
        backups := [];
        for i := 0 to |view|
          invariant backups == ViewText.Without(view[..i], me)
          invariant State() == old(State()).(vidInsync := old(vidCommit), backups := backups)
        {
          if view[i] != me { backups := backups + [view[i]]; }
          assert view[..i + 1][..i] == view[..i];
        }
        assert view[..|view|] == view;
        ViewText.WithoutCounts(view, me);
      }
      insync := true;
    }

    method TransferReq(last: Viewstamp, vid: nat) returns (r: Option<Transfer>)
      ensures r.Some? <==> insync && vid == vidInsync
      ensures r.Some? ==> r.value.last == lastMyvs
      ensures r.Some? ==> r.value.state == if last != lastMyvs then Some(hist) else None
      ensures r == HandleTransfer(State(), last, vid)
    {
      if !insync || vid != vidInsync { return None; }
      var state := None;
      if last != lastMyvs { state := Some(hist); }
      return Some(Transfer(state, lastMyvs));
    }

    method StateTransfer(t: Transfer)
      modifies this
      ensures lastMyvs == t.last && State() == old(State()).(hist := hist, lastvs := lastMyvs)
      ensures t.last == old(lastMyvs) ==> hist == old(hist)
      ensures t.last != old(lastMyvs) && t.state.Some? ==> hist == t.state.value
      ensures State() == ApplyTransfer(old(State()), t)
    {
      if lastMyvs != t.last {
        hist := if t.state.Some? then t.state.value else [];
      }
      lastMyvs := t.last;
    }

    method TransferDoneReq(m: string, vid: nat) returns (ret: Status)
      modifies this
      ensures ret == if old(vidInsync) != 0 && vid == old(vidCommit) then OK else BUSY
      ensures State() == old(State()).(backups := backups)
      ensures multiset(backups) == if ret == OK then multiset(old(backups)) - multiset{m} else multiset(old(backups))
      ensures (State(), ret) == HandleTransferDone(old(State()), m, vid)
    {
      if vidInsync == 0 || vid != vidCommit { return BUSY; }
      EraseCounts(backups, m);
      backups := Erase(backups, m);
      ret := OK;
    }

    method FinishRecovery()
      modifies this
      ensures !insync && !inviewchange && myvs == Vs(vidCommit, 1)
      ensures State() == old(State()).(insync := false, inviewchange := false, myvs := myvs)
      ensures State() == FinishSync(old(State()))
    {
      insync := false;
      myvs := Vs(vidCommit, 1);
      inviewchange := false;
    }
  }
}
