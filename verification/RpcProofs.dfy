/** Every step of the RPC system keeps its invariant. */
module RpcProofs {
  import opened Options
  import opened RpcServer
  import opened RpcWindow
  import opened RpcClient
  import opened RpcSystem

  /** Requests, reports and results only accumulate. */
  ghost predicate Grows(s: State, t: State) {
    && (forall c | c in s.clients ::
          && c in t.clients && s.clients[c].reported <= t.clients[c].reported
          && s.clients[c].next <= t.clients[c].next)
    && s.requests <= t.requests && s.used <= t.used
    && (forall r | r in s.results :: r in t.results && t.results[r] == s.results[r])
  }

  lemma GaveGrows(s: State, t: State, c: nat, xid: nat, v: nat)
    requires Grows(s, t) && Gave(s, c, xid, v)
    ensures Gave(t, c, xid, v)
  {
    var n: nat :| Run(n, c, xid) in s.results && s.results[Run(n, c, xid)] == v;
    assert Run(n, c, xid) in t.results;
  }

  lemma SentGrows(s: State, t: State, c: nat, xid: nat, bind: bool)
    requires Grows(s, t) && Sent(s, c, xid, bind)
    ensures Sent(t, c, xid, bind)
  {
    var q :| q in s.requests && q.client == c && q.xid == xid && q.bind == bind;
    assert q in t.requests;
  }

  lemma OutcomeGrows(s: State, t: State, c: nat, xid: nat, o: Outcome)
    requires Grows(s, t) && OutcomeOk(s, c, xid, o)
    ensures OutcomeOk(t, c, xid, o)
  {
    if o.Ok? { GaveGrows(s, t, c, xid, o.result); }
  }

  lemma ClientGrows(s: State, t: State, c: nat, k: Client)
    requires Grows(s, t) && ClientOk(s, c, k)
    ensures ClientOk(t, c, k)
  {
    hide Grows, Sent, OutcomeOk;
    forall x | x in k.calls ensures Sent(t, c, x, k.calls[x].bind) { SentGrows(s, t, c, x, k.calls[x].bind); }
    forall x | x in k.calls && k.calls[x].outcome.Some? ensures OutcomeOk(t, c, x, k.calls[x].outcome.value) {
      OutcomeGrows(s, t, c, x, k.calls[x].outcome.value);
    }
  }

  lemma RequestsGrow(s: State, t: State)
    requires Grows(s, t) && RequestsOk(s)
    ensures forall q | q in s.requests :: RequestOk(t, q)
  {
    forall q | q in s.requests ensures RequestOk(t, q) {
      FrontGrows(s.clients[q.client].reported, t.clients[q.client].reported);
    }
  }

  lemma RepliesGrow(s: State, t: State)
    requires Grows(s, t) && RepliesOk(s)
    ensures forall p | p in s.replies :: ReplyOk(t, p)
  {
    forall p | p in s.replies ensures ReplyOk(t, p) {
      assert ReplyOk(s, p);
      if Sent(s, p.client, p.xid, true) { SentGrows(s, t, p.client, p.xid, true); }
      else { SentGrows(s, t, p.client, p.xid, false); }
      if p.outcome.Ok? { GaveGrows(s, t, p.client, p.xid, p.outcome.result); }
    }
  }

  lemma ReturnsGrow(s: State, t: State)
    requires Grows(s, t) && ReturnsOk(s)
    ensures forall k | k in s.returned && s.returned[k].Some? :: OutcomeOk(t, k.0, k.1, s.returned[k].value)
  {
    hide OutcomeOk, Grows;
    forall k | k in s.returned && s.returned[k].Some? ensures OutcomeOk(t, k.0, k.1, s.returned[k].value) {
      OutcomeGrows(s, t, k.0, k.1, s.returned[k].value);
    }
  }

  /** A run stays in order while its window does. */
  lemma RunGrows(s: State, t: State, r: Run)
    requires Grows(s, t) && RunOk(s, r)
    requires r.server == t.nonce ==> r.server == s.nonce
    requires Seen(WindowOf(s, r.client), r.xid) ==> Seen(WindowOf(t, r.client), r.xid)
    ensures RunOk(t, r)
  {
    if Sent(s, r.client, r.xid, true) {
      SentGrows(s, t, r.client, r.xid, true);
    } else {
      var q :| q in s.requests && q.client == r.client && q.xid == r.xid && q.server == r.server;
      assert q in t.requests;
    }
  }

  /** Windows and runs are untouched and reports only grew. */
  lemma ServerGrows(s: State, t: State)
    requires Grows(s, t) && WindowsOk(s) && RunsOk(s)
    requires t.nonce == s.nonce && t.windows == s.windows && t.ran == s.ran && t.results == s.results
    ensures WindowsOk(t) && RunsOk(t)
  {
    forall c | c in t.windows ensures WindowOk(t, c, t.windows[c]) {
      FrontGrows(s.clients[c].reported, t.clients[c].reported);
    }
    forall r | r in t.ran ensures RunOk(t, r) {
      assert WindowOf(t, r.client) == WindowOf(s, r.client);
      RunGrows(s, t, r);
    }
  }

  // ----- the client's steps -----

  lemma ClientsGrow(s: State, t: State, c: nat)
    requires Grows(s, t) && ClientsOk(s) && c in t.clients && ClientOk(t, c, t.clients[c])
    requires forall d | d in t.clients && d != c :: d in s.clients && t.clients[d] == s.clients[d]
    ensures ClientsOk(t)
  {
    hide Grows, ClientOk;
    forall d | d in t.clients ensures ClientOk(t, d, t.clients[d]) {
      if d != c { ClientGrows(s, t, d, s.clients[d]); }
    }
  }

  /** A step of client c that sends nothing. */
  lemma LocalKeeps(s: State, t: State, c: nat)
    requires Inv(s) && Grows(s, t)
    requires t == s.(clients := t.clients, returned := t.returned) && ReturnsOk(t)
    requires c in t.clients && ClientOk(t, c, t.clients[c])
    requires forall d | d in t.clients && d != c :: d in s.clients && t.clients[d] == s.clients[d]
    ensures Inv(t)
  {
    ClientsGrow(s, t, c);
    RequestsGrow(s, t);
    RepliesGrow(s, t);
    ServerGrows(s, t);
  }

  lemma NewClientKeeps(s: State, c: nat)
    requires Inv(s) && Enabled(s, NewClient(c))
    ensures Inv(Next(s, NewClient(c)))
  {
    var t := Next(s, NewClient(c));
    ReturnsGrow(s, t);
    LocalKeeps(s, t, c);
  }

  lemma ReceiveKeeps(s: State, p: Reply)
    requires Inv(s) && Enabled(s, Receive(p))
    ensures Inv(Next(s, Receive(p)))
  {
    var t, k := Next(s, Receive(p)), s.clients[p.client];
    assert ReplyOk(s, p) && Grows(s, t);
    ReturnsGrow(s, t);
    var b := Sent(s, p.client, p.xid, true);
    var q :| q in s.requests && q.client == p.client && q.xid == p.xid && q.bind == b;
    assert RequestOk(s, q);
    ReceivedOk(s, t, p);
    hide RequestsOk, RepliesOk, WindowsOk, RunsOk, SameCall, ResultsOk, NoRepeat, ClientOk, Grows, OutcomeOk;
    LocalKeeps(s, t, p.client);
  }

  lemma CancelKeeps(s: State, c: nat)
    requires Inv(s) && Enabled(s, Cancel(c))
    ensures Inv(Next(s, Cancel(c)))
  {
    var t, k := Next(s, Cancel(c)), s.clients[c];
    assert Grows(s, t);
    ReturnsGrow(s, t);
    CancelledOk(s, t, c);
    hide RequestsOk, RepliesOk, WindowsOk, RunsOk, SameCall, ResultsOk, NoRepeat, ClientOk, Grows, OutcomeOk;
    LocalKeeps(s, t, c);
  }

  lemma CancelledOk(s: State, t: State, c: nat)
    requires Grows(s, t) && c in s.clients && ClientOk(s, c, s.clients[c])
    ensures ClientOk(t, c, CancelAll(s.clients[c]))
  {
    ClientGrows(s, t, c, s.clients[c]);
    hide Grows, Sent;
  }

  lemma ReceivedOk(s: State, t: State, p: Reply)
    requires Grows(s, t) && p.client in s.clients && ClientOk(s, p.client, s.clients[p.client]) && ReplyOk(s, p)
    requires 1 <= p.xid < s.clients[p.client].next
    ensures ClientOk(t, p.client, GotPdu(s.clients[p.client], p.xid, p.outcome))
  {
    var k := s.clients[p.client];
    ClientGrows(s, t, p.client, k);
    if p.xid in k.calls && k.calls[p.xid].outcome.None? {
      assert p.outcome != Forgotten;
      OutcomeGrows(s, t, p.client, p.xid, p.outcome);
    }
    hide Grows, Sent, OutcomeOk, ReplyOk;
  }

  lemma ReturnKeeps(s: State, c: nat, xid: nat)
    requires Inv(s) && Enabled(s, Return(c, xid))
    ensures Inv(Next(s, Return(c, xid)))
  {
    var t, k := Next(s, Return(c, xid)), s.clients[c];
    assert Grows(s, t);
    ReturnsGrow(s, t);
    ReturnedOk(s, t, c, xid);
    hide RequestsOk, RepliesOk, WindowsOk, RunsOk, SameCall, ResultsOk, NoRepeat, ClientOk, Grows, OutcomeOk;
    LocalKeeps(s, t, c);
  }

  lemma ReturnedOk(s: State, t: State, c: nat, xid: nat)
    requires Grows(s, t) && c in s.clients && ClientOk(s, c, s.clients[c]) && xid in s.clients[c].calls
    requires ResultsOk(s)
    ensures ClientOk(t, c, RpcClient.EndCall(s.clients[c], xid))
    ensures s.clients[c].calls[xid].outcome.Some? ==> OutcomeOk(t, c, xid, s.clients[c].calls[xid].outcome.value)
  {
    var k := s.clients[c];
    ClientGrows(s, t, c, k);
    if k.calls[xid].bind && k.calls[xid].outcome.Some? && k.calls[xid].outcome.value.Ok? {
      BindGivesNonce(s, c, xid, k.calls[xid].outcome.value.result);
    }
    hide Grows, Sent, OutcomeOk, ResultsOk;
  }

  lemma BindGivesNonce(s: State, c: nat, xid: nat, v: nat)
    requires BindsGiveNonce(s) && Sent(s, c, xid, true) && Gave(s, c, xid, v)
    ensures v != 0
  {
    var q :| q in s.requests && q.client == c && q.xid == xid && q.bind;
    var n: nat :| Run(n, c, xid) in s.results && s.results[Run(n, c, xid)] == v;
    assert s.results[Run(n, c, xid)] != 0;
  }

  lemma FrontBelow(r: set<nat>, next: nat)
    requires next >= 1 && forall x | x in r :: x < next
    ensures Front(r) < next
  {
    assert Front(r) >= next ==> next in r;
  }

  lemma SendKeeps(s: State, c: nat, bind: bool)
    requires Inv(s) && Enabled(s, Send(c, bind))
    ensures Inv(Next(s, Send(c, bind)))
  {
    var t, k := Next(s, Send(c, bind)), s.clients[c];
    var q := Request(c, k.next, HeaderOf(k).server, Front(k.reported), bind);
    assert Grows(s, t) && q in t.requests;
    SentOk(s, t, c, q);
    hide ClientOk, OutcomeOk, RequestOk, ReplyOk, WindowsOk, RunsOk, NoRepeat, SameCall, ResultsOk;
    SentAmongOthers(s, t, c, q);
  }

  /** The new call beside everything that was there. */
  lemma SentAmongOthers(s: State, t: State, c: nat, q: Request)
    requires Inv(s) && Grows(s, t) && c in s.clients && RequestOk(t, q)
    requires q.client == c && q.xid == s.clients[c].next
    requires t == s.(clients := t.clients, requests := s.requests + {q})
    requires c in t.clients && ClientOk(t, c, t.clients[c])
    requires forall d | d in t.clients && d != c :: d in s.clients && t.clients[d] == s.clients[d]
    ensures Inv(t)
  {
    hide ClientOk, OutcomeOk, RequestOk, ReplyOk, WindowsOk, RunsOk, SameCall, ResultsOk, Grows;
    ClientsGrow(s, t, c);
    RequestsGrow(s, t);
    RepliesGrow(s, t);
    ServerGrows(s, t);
    ReturnsGrow(s, t);
    FreshCall(s, c);
    SentAlone(s, t, q);
  }

  lemma SentAlone(s: State, t: State, q: Request)
    requires SameCall(s) && ResultsOk(s) && t.requests == s.requests + {q}
    requires t.results == s.results && t.ran == s.ran
    requires forall r | r in s.requests && r.client == q.client :: r.xid != q.xid
    requires forall r | r in s.results && r.client == q.client :: r.xid != q.xid
    ensures SameCall(t) && ResultsOk(t)
  {
  }

  lemma SentOk(s: State, t: State, c: nat, q: Request)
    requires Grows(s, t) && c in s.clients && ClientOk(s, c, s.clients[c]) && q in t.requests
    requires q.client == c && q.xid == s.clients[c].next
    requires c in t.clients && t.clients[c] == StartCall(s.clients[c], q.bind)
    requires q.rep == Front(s.clients[c].reported) && (q.bind <==> q.server == 0)
    ensures ClientOk(t, c, t.clients[c]) && RequestOk(t, q)
  {
    var k := s.clients[c];
    ClientGrows(s, t, c, k);
    FrontBelow(k.reported, k.next);
    assert Sent(t, c, k.next, q.bind);
    hide Grows, Sent, OutcomeOk;
  }

  /** No request and no run has the next xid. */
  lemma FreshCall(s: State, c: nat)
    requires RequestsOk(s) && RunsOk(s) && ResultsOk(s) && c in s.clients
    ensures forall q | q in s.requests && q.client == c :: q.xid != s.clients[c].next
    ensures forall r | r in s.results && r.client == c :: r.xid != s.clients[c].next
  {
    forall r | r in s.results && r.client == c ensures r.xid != s.clients[c].next {
      assert RunOk(s, r);
    }
  }

  // ----- the server's steps -----

  lemma RestartKeeps(s: State, n: nat)
    requires Inv(s) && Enabled(s, Restart(n))
    ensures Inv(Next(s, Restart(n)))
  {
    var t := Next(s, Restart(n));
    assert Grows(s, t);
    forall c | c in t.clients ensures ClientOk(t, c, t.clients[c]) { ClientGrows(s, t, c, s.clients[c]); }
    RequestsGrow(s, t);
    RepliesGrow(s, t);
    ReturnsGrow(s, t);
    forall r | r in t.ran ensures RunOk(t, r) {
      assert RunOk(s, r);
      RunRestarts(s, t, r);
    }
    hide ClientOk, RequestOk, ReplyOk, RunOk, OutcomeOk, SameCall, NoRepeat, Grows;
  }

  lemma RunRestarts(s: State, t: State, r: Run)
    requires Grows(s, t) && RunOk(s, r) && t.nonce !in s.used
    ensures RunOk(t, r)
  {
    if Sent(s, r.client, r.xid, true) {
      SentGrows(s, t, r.client, r.xid, true);
    } else {
      var q :| q in s.requests && q.client == r.client && q.xid == r.xid && q.server == r.server;
      assert q in t.requests;
    }
  }

  /** What a server step leaves alone. */
  lemma ServerSideKeeps(s: State, t: State)
    requires Inv(s) && Grows(s, t)
    requires t.clients == s.clients && t.requests == s.requests && t.nonce == s.nonce && t.used == s.used
    requires t.returned == s.returned
    requires forall p | p in t.replies && p !in s.replies :: ReplyOk(t, p)
    requires WindowsOk(t) && RunsOk(t) && NoRepeat(t) && ResultsOk(t)
    ensures Inv(t)
  {
    forall c | c in t.clients ensures ClientOk(t, c, t.clients[c]) { ClientGrows(s, t, c, s.clients[c]); }
    RequestsGrow(s, t);
    RepliesGrow(s, t);
    ReturnsGrow(s, t);
    hide ClientOk, RequestOk, ReplyOk, OutcomeOk, WindowsOk, RunsOk, NoRepeat, ResultsOk, Grows;
  }

  /** The window after a request of this instance. */
  lemma CheckedOk(s: State, q: Request)
    requires Inv(s) && q in s.requests && (q.server == 0 || q.server == s.nonce)
    ensures var (w, v) := Check(WindowOf(s, q.client), q.xid, q.rep);
            && w.low <= Front(s.clients[q.client].reported)
            && (v == NEW ==> Run(s.nonce, q.client, q.xid) !in s.ran && q.xid in w.known && w.known[q.xid] == None)
            && (v.DONE? ==> Gave(s, q.client, q.xid, v.reply))
            && (v == FORGOTTEN ==> q.xid in s.clients[q.client].reported)
            && (forall x | x in w.known && !(v == NEW && x == q.xid) ::
                  x in WindowOf(s, q.client).known && w.known[x] == WindowOf(s, q.client).known[x])
  {
    assert RequestOk(s, q);
    CheckIsOnce(WindowOf(s, q.client), q.xid, q.rep);
    if Run(s.nonce, q.client, q.xid) in s.ran { assert RunOk(s, Run(s.nonce, q.client, q.xid)); }
    assert q.client in s.windows ==> WindowOk(s, q.client, s.windows[q.client]);
  }

  /** Only the window and the runs of client c changed. */
  ghost predicate OnlyFor(s: State, t: State, c: nat, w: Win) {
    && t.nonce == s.nonce && t.clients == s.clients && t.requests == s.requests && t.used == s.used
    && t.returned == s.returned && t.windows == s.windows[c := w]
    && s.ran <= t.ran && (forall r | r in t.ran && r.client != c :: r in s.ran)
    && (forall r: Run | r.client != c :: r in t.results <==> r in s.results)
    && (forall r | r in s.results :: r in t.results && t.results[r] == s.results[r])
  }

  lemma OnlyForGrows(s: State, t: State, c: nat, w: Win)
    requires OnlyFor(s, t, c, w)
    ensures Grows(s, t) && WindowOf(t, c) == w && forall d: nat | d != c :: WindowOf(t, d) == WindowOf(s, d)
    ensures forall r | r in s.ran :: r in t.ran
  {
  }

  lemma OtherWindows(s: State, t: State, c: nat, w: Win)
    requires WindowsOk(s) && OnlyFor(s, t, c, w) && WindowOk(t, c, w)
    ensures WindowsOk(t)
  {
    OnlyForGrows(s, t, c, w);
    forall d | d in t.windows ensures WindowOk(t, d, t.windows[d]) {
      if d != c { assert WindowOk(s, d, s.windows[d]); }
    }
  }

  lemma OtherRuns(s: State, t: State, c: nat, w: Win)
    requires RunsOk(s) && OnlyFor(s, t, c, w)
    requires forall x: nat | Seen(WindowOf(s, c), x) :: Seen(w, x)
    requires forall r | r in t.ran && r !in s.ran :: RunOk(t, r)
    ensures RunsOk(t)
  {
    OnlyForGrows(s, t, c, w);
    forall r | r in t.ran ensures RunOk(t, r) {
      if r in s.ran { RunGrows(s, t, r); }
    }
  }

  lemma OnlyForKeeps(s: State, t: State, c: nat, w: Win)
    requires Inv(s) && OnlyFor(s, t, c, w) && WindowOk(t, c, w)
    requires forall x: nat | Seen(WindowOf(s, c), x) :: Seen(w, x)
    requires forall r | r in t.ran && r !in s.ran :: RunOk(t, r)
    requires forall p | p in t.replies && p !in s.replies :: ReplyOk(t, p)
    requires NoRepeat(t) && ResultsOk(t)
    ensures Inv(t)
  {
    hide WindowOk, RunOk, ReplyOk, Seen, NoRepeat, ResultsOk;
    OnlyForGrows(s, t, c, w);
    OtherWindows(s, t, c, w);
    OtherRuns(s, t, c, w);
    hide OnlyFor, WindowsOk, RunsOk, Grows;
    ServerSideKeeps(s, t);
  }

  lemma DispatchIsOnlyFor(s: State, q: Request)
    requires q.server == 0 || q.server == s.nonce
    ensures var t, (w, v) := Dispatch(s, q), Check(WindowOf(s, q.client), q.xid, q.rep);
            && OnlyFor(s, t, q.client, w) && t.results == s.results
            && t.ran == (if v == NEW then s.ran + [Run(s.nonce, q.client, q.xid)] else s.ran)
            && forall p | p in t.replies && p !in s.replies ::
                 && p.client == q.client && p.xid == q.xid
                 && ((v.DONE? && p.outcome == Ok(v.reply)) || (v == FORGOTTEN && p.outcome == Forgotten))
  {
    hide Check;
  }

  lemma RanOk(s: State, t: State, q: Request)
    requires q in t.requests && RequestOk(t, q) && (q.server == 0 || q.server == t.nonce) && NoncesOk(t)
    requires Seen(WindowOf(t, q.client), q.xid)
    ensures RunOk(t, Run(t.nonce, q.client, q.xid))
  {
    assert q.bind ==> Sent(t, q.client, q.xid, true);
    assert !q.bind ==> SentTo(t, q.client, q.xid, t.nonce);
  }

  /** Window w keeps entries of w0, and one new one for the run just recorded. */
  lemma NextWindow(s: State, t: State, c: nat, w0: Win, w: Win, first: bool, xid: nat)
    requires w0 == EMPTY || WindowOk(s, c, w0)
    requires c in s.clients && t.clients == s.clients && t.nonce == s.nonce && t.results == s.results
    requires w.low <= Front(s.clients[c].reported)
    requires forall x | x in w.known && !(first && x == xid) :: x in w0.known && w.known[x] == w0.known[x]
    requires first ==> xid in w.known && w.known[xid] == None && Run(s.nonce, c, xid) !in s.results
    requires t.ran == if first then s.ran + [Run(s.nonce, c, xid)] else s.ran
    ensures WindowOk(t, c, w)
  {
  }

  lemma DispatchedWindow(s: State, q: Request)
    requires Inv(s) && q in s.requests && (q.server == 0 || q.server == s.nonce)
    ensures WindowOk(Dispatch(s, q), q.client, Check(WindowOf(s, q.client), q.xid, q.rep).0)
  {
    assert RequestOk(s, q);
    assert WindowOf(s, q.client) == EMPTY || WindowOk(s, q.client, WindowOf(s, q.client));
    CheckedOk(s, q);
    DispatchIsOnlyFor(s, q);
    hide Check, Dispatch, WindowOk, WindowOf, RequestsOk, RepliesOk, ClientsOk,
         WindowsOk, RunsOk, SameCall, ReturnsOk, NoRepeat;
    var (w, v) := Check(WindowOf(s, q.client), q.xid, q.rep);
    NextWindow(s, Dispatch(s, q), q.client, WindowOf(s, q.client), w, v == NEW, q.xid);
  }

  lemma DispatchReplies(s: State, q: Request)
    requires Inv(s) && q in s.requests && (q.server == 0 || q.server == s.nonce)
    ensures forall p | p in Dispatch(s, q).replies && p !in s.replies :: ReplyOk(Dispatch(s, q), p)
  {
    var t := Dispatch(s, q);
    var (w, v) := Check(WindowOf(s, q.client), q.xid, q.rep);
    assert RequestOk(s, q);
    CheckedOk(s, q);
    DispatchIsOnlyFor(s, q);
    OnlyForGrows(s, t, q.client, w);
    assert Sent(t, q.client, q.xid, q.bind);
    if v.DONE? { GaveGrows(s, t, q.client, q.xid, v.reply); }
    hide Check, Dispatch, WindowOf, Gave, Sent, SameCall, NoRepeat;
    hide RequestsOk, RepliesOk, ClientsOk, WindowsOk, RunsOk, ReturnsOk;
  }

  lemma RanOnce(s: State, t: State, r: Run)
    requires NoRepeat(s) && ResultsOk(s) && t.requests == s.requests && t.results == s.results
    requires t.ran == s.ran || (t.ran == s.ran + [r] && r !in s.ran)
    ensures NoRepeat(t) && ResultsOk(t)
  {
  }

  lemma DispatchKeeps(s: State, q: Request)
    requires Inv(s) && q in s.requests && (q.server == 0 || q.server == s.nonce)
    ensures Inv(Dispatch(s, q))
  {
    hide Dispatch, Check, WindowOk, RunOk, ReplyOk, Seen, Front, Gave;
    hide RepliesOk, ClientsOk, WindowsOk, RunsOk, SameCall, ReturnsOk, ResultsOk, NoRepeat;
    var t := Dispatch(s, q);
    var (w, v) := Check(WindowOf(s, q.client), q.xid, q.rep);
    DispatchIsOnlyFor(s, q);
    OnlyForGrows(s, t, q.client, w);
    assert RequestOk(s, q) && RequestOk(t, q);
    hide RequestsOk, RequestOk;
    CheckedOk(s, q);
    CheckIsOnce(WindowOf(s, q.client), q.xid, q.rep);
    RanOk(s, t, q);
    DispatchedWindow(s, q);
    DispatchReplies(s, q);
    RanOnce(s, t, Run(s.nonce, q.client, q.xid));
    hide OnlyFor, Grows, WindowOf;
    OnlyForKeeps(s, t, q.client, w);
  }

  lemma DeliverKeeps(s: State, q: Request)
    requires Inv(s) && Enabled(s, Deliver(q))
    ensures Inv(Next(s, Deliver(q)))
  {
    if q.server != 0 && q.server != s.nonce {
      RefuseKeeps(s, q);
    } else {
      DispatchKeeps(s, q);
    }
  }

  lemma RefuseKeeps(s: State, q: Request)
    requires Inv(s) && q in s.requests && q.server != 0 && q.server != s.nonce
    ensures Inv(Dispatch(s, q))
  {
    var t := Dispatch(s, q);
    assert Grows(s, t) && RequestOk(s, q);
    assert Sent(t, q.client, q.xid, q.bind);
    ServerGrows(s, t);
    ServerSideKeeps(s, t);
  }

  lemma FinishedWindow(s: State, t: State, q: Request, result: nat)
    requires WindowOk(s, q.client, WindowOf(s, q.client)) && q.xid in WindowOf(s, q.client).known
    requires OnlyFor(s, t, q.client, AddReply(WindowOf(s, q.client), q.xid, result))
    requires t.ran == s.ran && t.results == s.results[Run(s.nonce, q.client, q.xid) := result]
    ensures WindowOk(t, q.client, AddReply(WindowOf(s, q.client), q.xid, result))
  {
  }

  lemma FinishedResults(s: State, t: State, q: Request, result: nat)
    requires ResultsOk(s) && SameCall(s) && NoncesOk(s) && q in s.requests && (q.bind ==> result == s.nonce)
    requires Run(s.nonce, q.client, q.xid) in s.ran && t.ran == s.ran && t.requests == s.requests
    requires t.results == s.results[Run(s.nonce, q.client, q.xid) := result]
    ensures ResultsOk(t) && Gave(t, q.client, q.xid, result)
  {
    assert t.results[Run(s.nonce, q.client, q.xid)] == result;
  }

  lemma FinishIsOnlyFor(s: State, q: Request, result: nat)
    requires Enabled(s, Finish(q, result)) && Run(s.nonce, q.client, q.xid) !in s.results
    ensures var t := Next(s, Finish(q, result));
            && OnlyFor(s, t, q.client, AddReply(WindowOf(s, q.client), q.xid, result)) && t.ran == s.ran
            && t.results == s.results[Run(s.nonce, q.client, q.xid) := result]
            && t.replies == s.replies + {Reply(q.client, q.xid, Ok(result))}
  {
    hide Front;
  }

  lemma FinishedReply(s: State, t: State, q: Request, result: nat)
    requires RequestOk(s, q) && q in s.requests && t.requests == s.requests && t.clients == s.clients
    requires Gave(t, q.client, q.xid, result)
    ensures ReplyOk(t, Reply(q.client, q.xid, Ok(result)))
  {
    assert Sent(t, q.client, q.xid, q.bind);
  }

  lemma AddReplySees(w: Win, xid: nat, reply: nat)
    ensures forall x: nat | Seen(w, x) :: Seen(AddReply(w, xid, reply), x)
  {
  }

  lemma RunningIsUnanswered(s: State, q: Request)
    requires WindowsOk(s) && q.xid in WindowOf(s, q.client).known && WindowOf(s, q.client).known[q.xid].None?
    ensures WindowOk(s, q.client, WindowOf(s, q.client))
    ensures Run(s.nonce, q.client, q.xid) in s.ran && Run(s.nonce, q.client, q.xid) !in s.results
  {
    assert WindowOk(s, q.client, s.windows[q.client]);
  }

  lemma FinishKeeps(s: State, q: Request, result: nat)
    requires Inv(s) && Enabled(s, Finish(q, result))
    ensures Inv(Next(s, Finish(q, result)))
  {
    hide Next, Front, WindowOk, RequestOk, ReplyOk, Seen, AddReply, Gave, WindowOf;
    hide RepliesOk, ClientsOk, RunsOk, ReturnsOk, ResultsOk, SameCall;
    var t, w := Next(s, Finish(q, result)), WindowOf(s, q.client);
    RunningIsUnanswered(s, q);
    hide WindowsOk;
    FinishIsOnlyFor(s, q, result);
    FinishedResults(s, t, q, result);
    FinishedWindow(s, t, q, result);
    assert RequestOk(s, q);
    hide RequestsOk;
    FinishedReply(s, t, q, result);
    AddReplySees(w, q.xid, result);
    assert NoRepeat(t);
    hide OnlyFor, NoRepeat;
    OnlyForKeeps(s, t, q.client, AddReply(w, q.xid, result));
  }

  // ----- every run -----

  lemma InitHolds(nonce: nat)
    requires nonce != 0
    ensures Inv(Init(nonce))
  {
  }

  lemma StepKeepsInv(s: State, e: Event)
    requires Inv(s) && Enabled(s, e)
    ensures Inv(Next(s, e))
  {
    hide Inv, Next, Enabled;
    match e
    case NewClient(c) => NewClientKeeps(s, c);
    case Send(c, bind) => SendKeeps(s, c, bind);
    case Deliver(q) => DeliverKeeps(s, q);
    case Finish(q, result) => FinishKeeps(s, q, result);
    case Restart(n) => RestartKeeps(s, n);
    case Receive(p) => ReceiveKeeps(s, p);
    case Return(c, xid) => ReturnKeeps(s, c, xid);
    case Cancel(c) => CancelKeeps(s, c);
  }

  lemma {:induction false} RunKeepsInv(s: State, es: seq<Event>)
    requires Inv(s) && AnyRun(s, es)
    ensures Inv(After(s, es))
    decreases |es|
  {
    hide Inv, Next, Enabled;
    if es == [] {
    } else {
      StepKeepsInv(s, es[0]);
      RunKeepsInv(Next(s, es[0]), es[1..]);
    }
  }
}
