/** The client's calls: xids, the header each request carries, replies and timeouts. */
module RpcClient {
  import opened Options
  import opened RpcServer
  import opened RpcWindow

  /** How a call is settled: by the handler's result, as stale or forgotten at the server, or by the
      client's own cancel. */
  datatype Outcome = Ok(result: nat) | OldServer | Forgotten | Cancelled

  datatype Call = Call(bind: bool, outcome: Option<Outcome>)

  /** `closing` is set once cancel() waits for calls to return. */
  datatype Client = Client(
    next: nat, calls: map<nat, Call>, reported: set<nat>, server: Option<nat>, closing: bool)

  datatype Header = Header(xid: nat, server: nat, rep: nat)

  const NEW_CLIENT := Client(1, map[], {}, None, false)

  /** What the start of a call ends with. */
  datatype Started = Go(header: Header) | BindFailure | CancelFailure

  /** Only a bind call may go out before binding is done, and none after. */
  predicate RightTime(c: Client, bind: bool) { bind <==> c.server.None? }

  predicate MayCall(c: Client, bind: bool) { RightTime(c, bind) && !c.closing }

  function HeaderOf(c: Client): Header {
    Header(c.next, if c.server.Some? then c.server.value else 0, Front(c.reported))
  }

  function StartCall(c: Client, bind: bool): Client {
    c.(next := c.next + 1, calls := c.calls[c.next := Call(bind, None)])
  }

  /** A reply: reported at once; the first one settles a call that is still out. */
  function GotPdu(c: Client, xid: nat, outcome: Outcome): Client {
    c.(reported := c.reported + {xid},
       calls := if xid in c.calls && c.calls[xid].outcome.None?
                then c.calls[xid := c.calls[xid].(outcome := Some(outcome))] else c.calls)
  }

  /** The call returns, with its outcome or timed out; a bind that succeeds fixes the server. */
  function EndCall(c: Client, xid: nat): Client
    requires xid in c.calls
  {
    var d := c.(reported := c.reported + {xid}, calls := c.calls - {xid});
    if c.calls[xid].bind && c.calls[xid].outcome.Some? && c.calls[xid].outcome.value.Ok?
    then d.(server := Some(c.calls[xid].outcome.value.result)) else d
  }

  /** cancel(): every call still out is settled, and no new one may start while they return. */
  function CancelAll(c: Client): Client {
    if |c.calls| == 0 then c
    else c.(closing := true, calls := Settled(c.calls))
  }

  function Settled(calls: map<nat, Call>): map<nat, Call> {
    map x | x in calls :: calls[x].(outcome := Some(Cancelled))
  }

  /** A bind that succeeded opens the way for calls, which carry the server's nonce; no further bind
      goes out. A bind that did not leaves things as they were. */
  lemma BindLetsCallsOut(c: Client, xid: nat)
    requires xid in c.calls && c.calls[xid].bind && !c.closing
    ensures var d := EndCall(c, xid);
            match c.calls[xid].outcome
            case Some(Ok(n)) => MayCall(d, false) && !MayCall(d, true) && HeaderOf(d).server == n
            case _ => d.server == c.server
  {
  }

  class Rpcc {
    var xid: nat
    var calls: map<nat, Call>
    var window: seq<nat>
    var server: Option<nat>
    var destroyWait: bool
    ghost var reported: set<nat>

    ghost predicate Valid()
      reads this
    {
      Window(window, reported)
    }

    ghost function State(): Client
      reads this
    {
      Client(xid, calls, reported, server, destroyWait)
    }

    constructor ()
      ensures Valid() && State() == NEW_CLIENT
    {
      xid, calls, window, server, destroyWait, reported := 1, map[], [0], None, false, {};
    }

    /** The critical section at the start of call1. */
    method Start(bind: bool) returns (r: Started)
      requires Valid()
      modifies this
      ensures Valid() && (r.Go? <==> MayCall(old(State()), bind))
      ensures r.BindFailure? <==> !RightTime(old(State()), bind)
      ensures r.Go? ==>
                && r.header.xid == old(xid) && xid == old(xid) + 1
                && r.header.server == (if old(server).Some? then old(server).value else 0)
                && calls == old(calls)[old(xid) := Call(bind, None)] && window == old(window) && server == old(server)
      ensures r.Go? ==> r.header == HeaderOf(old(State())) && State() == StartCall(old(State()), bind)
      ensures !r.Go? ==> State() == old(State())
    {
      if (!bind && server.None?) || (bind && server.Some?) { return BindFailure; }
      if destroyWait { return CancelFailure; }
      WindowFront(window, reported);
      r := Go(Header(xid, if server.Some? then server.value else 0, window[0]));
      calls := calls[xid := Call(bind, None)];
      xid := xid + 1;
    }

    /** cancel() up to its wait: the loop settles every call still out. */
    method Cancel()
      requires Valid()
      modifies this`calls, this`destroyWait
      ensures calls.Keys == old(calls).Keys
      ensures forall x | x in calls :: calls[x] == Call(old(calls[x]).bind, Some(Cancelled))
      ensures destroyWait <==> old(destroyWait) || old(calls) != map[]
      ensures Valid() && State() == CancelAll(old(State()))
    {
      var rest := calls.Keys;
      ghost var before := calls;
      while rest != {}
        invariant rest <= calls.Keys == before.Keys
        invariant forall x | x in rest :: calls[x] == before[x]
        invariant forall x | x in before && x !in rest :: calls[x] == Settled(before)[x]
        modifies this`calls
        decreases |rest|
      {
        var x :| x in rest;
        calls := calls[x := calls[x].(outcome := Some(Cancelled))];
        rest := rest - {x};
      }
      assert calls == Settled(before);
      if |calls| > 0 { destroyWait := true; }
      assert |before| == |before.Keys| == |calls|;
    }

    method GotReply(x: nat, outcome: Outcome)
      requires Valid()
      modifies this
      ensures reported == old(reported) + {x} && calls.Keys == old(calls).Keys
      ensures forall y | y in calls && (y != x || old(calls[y]).outcome.Some?) :: calls[y] == old(calls[y])
      ensures x in calls && old(calls[x]).outcome.None? ==> calls[x] == Call(old(calls[x]).bind, Some(outcome))
      ensures Valid() && State() == GotPdu(old(State()), x, outcome)
    {
      window := Update(window, x, reported);
      reported := reported + {x};
      if x in calls && calls[x].outcome.None? {
        calls := calls[x := calls[x].(outcome := Some(outcome))];
      }
    }

    /** The end of call1; None for timeout_failure. */
    method End(x: nat) returns (outcome: Option<Outcome>)
      requires Valid() && x in calls
      modifies this
      ensures reported == old(reported) + {x} && calls == old(calls) - {x}
      ensures old(calls[x].bind) && outcome.Some? && outcome.value.Ok? ==> server == Some(outcome.value.result)
      ensures !(old(calls[x].bind) && outcome.Some? && outcome.value.Ok?) ==> server == old(server)
      ensures Valid() && State() == EndCall(old(State()), x) && outcome == old(calls[x].outcome)
    {
      var call := calls[x];
      outcome := call.outcome;
      calls := calls - {x};
      window := Update(window, x, reported);
      reported := reported + {x};
      if call.bind && outcome.Some? && outcome.value.Ok? { server := Some(outcome.value.result); }
    }
  }
}
