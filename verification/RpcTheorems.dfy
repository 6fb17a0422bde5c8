/** What at-most-once calls guarantee in every run of clients, server restarts and network. */
module RpcTheorems {
  import opened Options
  import opened RpcServer
  import opened RpcWindow
  import opened RpcClient
  import opened RpcSystem
  import opened RpcProofs

  ghost predicate Reached(s: State, nonce: nat, es: seq<Event>) {
    nonce != 0 && AnyRun(Init(nonce), es) && s == After(Init(nonce), es)
  }

  lemma ReachedHolds(s: State, nonce: nat, es: seq<Event>)
    requires Reached(s, nonce, es)
    ensures Inv(s)
  {
    hide Inv, AnyRun, After;
    InitHolds(nonce);
    RunKeepsInv(Init(nonce), es);
  }

  ghost predicate IsCall(s: State, q: Request, c: nat, xid: nat) {
    q in s.requests && q.client == c && q.xid == xid && !q.bind
  }

  /** A run of a call that is not a bind was at the instance the request names. */
  lemma RunAtNamedServer(s: State, q: Request, r: Run)
    requires RunsOk(s) && SameCall(s) && IsCall(s, q, r.client, r.xid) && r in s.ran
    ensures r.server == q.server
  {
    assert RunOk(s, r);
  }

  /** The handler of a call runs at most once over all server instances; the handler of a bind call
      at most once at each. */
  lemma AtMostOnce(s: State, nonce: nat, es: seq<Event>, i: nat, j: nat)
    requires Reached(s, nonce, es) && i < |s.ran| && j < |s.ran|
    requires s.ran[i].client == s.ran[j].client && s.ran[i].xid == s.ran[j].xid
    ensures s.ran[i].server == s.ran[j].server ==> i == j
    ensures (exists q :: IsCall(s, q, s.ran[i].client, s.ran[i].xid)) ==> i == j
  {
    ReachedHolds(s, nonce, es);
    if q :| IsCall(s, q, s.ran[i].client, s.ran[i].xid) {
      RunAtNamedServer(s, q, s.ran[i]);
      RunAtNamedServer(s, q, s.ran[j]);
    }
  }

  lemma GaveOnce(s: State, q: Request, v: nat)
    requires RunsOk(s) && SameCall(s) && ResultsOk(s) && q in s.requests && !q.bind && Gave(s, q.client, q.xid, v)
    ensures Run(q.server, q.client, q.xid) in s.results && s.results[Run(q.server, q.client, q.xid)] == v
  {
    var n: nat :| Run(n, q.client, q.xid) in s.results && s.results[Run(n, q.client, q.xid)] == v;
    RunAtNamedServer(s, q, Run(n, q.client, q.xid));
  }

  /** All successful replies to a call are the one result its one run gave. */
  lemma RepliesAgree(s: State, nonce: nat, es: seq<Event>, q: Request, p: Reply, r: Reply)
    requires Reached(s, nonce, es) && q in s.requests && !q.bind
    requires p in s.replies && p.client == q.client && p.xid == q.xid && p.outcome.Ok?
    requires r in s.replies && r.client == q.client && r.xid == q.xid && r.outcome.Ok?
    ensures p == r
  {
    ReachedHolds(s, nonce, es);
    assert ReplyOk(s, p) && ReplyOk(s, r);
    GaveOnce(s, q, p.outcome.result);
    GaveOnce(s, q, r.outcome.result);
  }

  /** A call that returned a result was run exactly once, with that result. */
  lemma ResultIsFromTheOneRun(s: State, nonce: nat, es: seq<Event>, q: Request, v: nat)
    requires Reached(s, nonce, es) && q in s.requests && !q.bind
    requires (q.client, q.xid) in s.returned && s.returned[(q.client, q.xid)] == Some(Ok(v))
    ensures Run(q.server, q.client, q.xid) in s.ran
    ensures Run(q.server, q.client, q.xid) in s.results && s.results[Run(q.server, q.client, q.xid)] == v
    ensures forall r | r in s.ran && r.client == q.client && r.xid == q.xid :: r == Run(q.server, q.client, q.xid)
  {
    ReachedHolds(s, nonce, es);
    assert OutcomeOk(s, q.client, q.xid, Ok(v));
    GaveOnce(s, q, v);
    forall r | r in s.ran && r.client == q.client && r.xid == q.xid ensures r == Run(q.server, q.client, q.xid) {
      RunAtNamedServer(s, q, r);
    }
  }

  /** No call ever returns with the reply that its xid is forgotten. */
  lemma NoCallIsToldForgotten(s: State, nonce: nat, es: seq<Event>, c: nat, xid: nat)
    requires Reached(s, nonce, es) && (c, xid) in s.returned
    ensures s.returned[(c, xid)] != Some(Forgotten)
  {
    ReachedHolds(s, nonce, es);
    assert s.returned[(c, xid)].Some? ==> OutcomeOk(s, c, xid, s.returned[(c, xid)].value);
  }

  /** While a call waits, the server instance that ran it still remembers it, and no copy of its
      request is answered as forgotten or run again. */
  lemma WaitingCallIsRemembered(s: State, nonce: nat, es: seq<Event>, q: Request)
    requires Reached(s, nonce, es) && q in s.requests
    requires q.client in s.clients && q.xid in s.clients[q.client].calls
    requires s.clients[q.client].calls[q.xid].outcome.None?
    ensures q.xid > WindowOf(s, q.client).low
    ensures Check(WindowOf(s, q.client), q.xid, q.rep).1 != FORGOTTEN
    ensures Run(s.nonce, q.client, q.xid) in s.ran ==>
              && q.xid in WindowOf(s, q.client).known
              && Check(WindowOf(s, q.client), q.xid, q.rep).1 != NEW
              && q.xid in Check(WindowOf(s, q.client), q.xid, q.rep).0.known
  {
    ReachedHolds(s, nonce, es);
    var k := s.clients[q.client];
    assert ClientOk(s, q.client, k) && RequestOk(s, q);
    assert q.xid <= Front(k.reported) ==> q.xid in k.reported;
    assert q.client in s.windows ==> WindowOk(s, q.client, s.windows[q.client]);
    hide ClientOk, ClientsOk, RepliesOk, ResultsOk, ReturnsOk, SameCall, NoRepeat, RequestsOk;
    if Run(s.nonce, q.client, q.xid) in s.ran { assert RunOk(s, Run(s.nonce, q.client, q.xid)); }
  }

  /** A copy of an answered request whose reply is remembered gets the reply of its run, and
      nothing runs. */
  lemma DuplicateGetsSavedReply(s: State, nonce: nat, es: seq<Event>, q: Request)
    requires Reached(s, nonce, es) && q in s.requests && (q.server == 0 || q.server == s.nonce)
    requires Run(s.nonce, q.client, q.xid) in s.results
    requires q.xid in WindowOf(s, q.client).known && q.xid > WindowOf(s, q.client).low
    ensures var t := Next(s, Deliver(q));
            && t.ran == s.ran && t.results == s.results
            && t.replies == s.replies + {Reply(q.client, q.xid, Ok(s.results[Run(s.nonce, q.client, q.xid)]))}
  {
    hide Inv, Reached, Check, WindowOf, Dispatch;
    ReachedHolds(s, nonce, es);
    RememberedReply(s, q);
    DoneIsResent(s, q, s.results[Run(s.nonce, q.client, q.xid)]);
  }

  lemma RememberedReply(s: State, q: Request)
    requires Inv(s) && q in s.requests && Run(s.nonce, q.client, q.xid) in s.results
    requires q.xid in WindowOf(s, q.client).known && q.xid > WindowOf(s, q.client).low
    ensures Check(WindowOf(s, q.client), q.xid, q.rep).1 == DONE(s.results[Run(s.nonce, q.client, q.xid)])
  {
    assert RequestOk(s, q) && WindowOk(s, q.client, s.windows[q.client]);
    hide ClientsOk, RequestsOk, RepliesOk, WindowsOk, RunsOk, SameCall, ReturnsOk, ResultsOk, NoRepeat, Front;
  }

  lemma DoneIsResent(s: State, q: Request, v: nat)
    requires Check(WindowOf(s, q.client), q.xid, q.rep).1 == DONE(v) && (q.server == 0 || q.server == s.nonce)
    ensures var t := Dispatch(s, q);
            t.ran == s.ran && t.results == s.results && t.replies == s.replies + {Reply(q.client, q.xid, Ok(v))}
  {
    hide Check;
  }
}
