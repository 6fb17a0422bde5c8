/** Clients and one server at a time around a network that loses, repeats, delays and reorders
    messages. The server may restart with a fresh nonce and empty windows. */
module RpcSystem {
  import opened Options
  import opened RpcServer
  import opened RpcWindow
  import opened RpcClient

  datatype Request = Request(client: nat, xid: nat, server: nat, rep: nat, bind: bool)

  datatype Reply = Reply(client: nat, xid: nat, outcome: Outcome)

  /** One start of a handler at a server instance. */
  datatype Run = Run(server: nat, client: nat, xid: nat)

  datatype State = State(
    nonce: nat, used: set<nat>, windows: map<nat, Win>, clients: map<nat, Client>,
    requests: set<Request>, replies: set<Reply>,
    ran: seq<Run>, results: map<Run, nat>,                // histories; no step reads them
    returned: map<(nat, nat), Option<Outcome>>)

  datatype Event =
    | NewClient(c: nat)
    | Send(c: nat, bind: bool)
    | Deliver(q: Request)
    | Finish(q: Request, result: nat)
    | Restart(newNonce: nat)
    | Receive(p: Reply)
    | Return(c: nat, xid: nat)
    | Cancel(c: nat)

  function Init(nonce: nat): State {
    State(nonce, {nonce}, map[], map[], {}, {}, [], map[], map[])
  }

  function WindowOf(s: State, c: nat): Win { if c in s.windows then s.windows[c] else EMPTY }

  predicate Enabled(s: State, e: Event) {
    match e
    case NewClient(c) => c !in s.clients && c != 0
    case Send(c, bind) => c in s.clients && MayCall(s.clients[c], bind)
    case Deliver(q) => q in s.requests
    case Finish(q, result) =>
      && q in s.requests && q.xid in WindowOf(s, q.client).known && WindowOf(s, q.client).known[q.xid].None?
      && (q.bind ==> result == s.nonce)
    case Restart(newNonce) => newNonce != 0 && newNonce !in s.used
    case Receive(p) => p in s.replies && p.client in s.clients
    case Return(c, xid) => c in s.clients && xid in s.clients[c].calls
    case Cancel(c) => c in s.clients
  }

  /** dispatch, up to the start of the handler. */
  function Dispatch(s: State, q: Request): State {
    if q.server != 0 && q.server != s.nonce then
      s.(replies := s.replies + {Reply(q.client, q.xid, OldServer)})
    else
      var (w, v) := Check(WindowOf(s, q.client), q.xid, q.rep);
      var u := s.(windows := s.windows[q.client := w]);
      match v
      case NEW => u.(ran := s.ran + [Run(s.nonce, q.client, q.xid)])
      case INPROGRESS => u
      case DONE(r) => u.(replies := s.replies + {Reply(q.client, q.xid, Ok(r))})
      case FORGOTTEN => u.(replies := s.replies + {Reply(q.client, q.xid, Forgotten)})
  }

  function Next(s: State, e: Event): State
    requires Enabled(s, e)
  {
    match e
    case NewClient(c) => s.(clients := s.clients[c := NEW_CLIENT])
    case Send(c, bind) =>
      var h := HeaderOf(s.clients[c]);
      s.(clients := s.clients[c := StartCall(s.clients[c], bind)],
         requests := s.requests + {Request(c, h.xid, h.server, h.rep, bind)})
    case Deliver(q) => Dispatch(s, q)
    case Finish(q, result) =>
      s.(windows := s.windows[q.client := AddReply(WindowOf(s, q.client), q.xid, result)],
         replies := s.replies + {Reply(q.client, q.xid, Ok(result))},
         results := s.results[Run(s.nonce, q.client, q.xid) := result])
    case Restart(newNonce) => s.(nonce := newNonce, used := s.used + {newNonce}, windows := map[])
    case Receive(p) => s.(clients := s.clients[p.client := GotPdu(s.clients[p.client], p.xid, p.outcome)])
    case Return(c, xid) =>
      s.(clients := s.clients[c := RpcClient.EndCall(s.clients[c], xid)],
         returned := s.returned[(c, xid) := s.clients[c].calls[xid].outcome])
    case Cancel(c) => s.(clients := s.clients[c := CancelAll(s.clients[c])])
  }

  predicate AnyRun(s: State, es: seq<Event>)
    decreases |es|
  {
    es == [] || (Enabled(s, es[0]) && AnyRun(Next(s, es[0]), es[1..]))
  }

  function After(s: State, es: seq<Event>): State
    requires AnyRun(s, es)
    decreases |es|
  {
    if es == [] then s else After(Next(s, es[0]), es[1..])
  }

  // ----- the invariant -----

  /** Some instance ran the call and its handler answered v. */
  ghost predicate Gave(s: State, c: nat, xid: nat, v: nat) {
    exists n: nat :: Run(n, c, xid) in s.results && s.results[Run(n, c, xid)] == v
  }

  /** The call was sent, as a bind call or not. */
  ghost predicate Sent(s: State, c: nat, xid: nat, bind: bool) {
    exists q :: q in s.requests && q.client == c && q.xid == xid && q.bind == bind
  }

  ghost predicate Asked(s: State, c: nat, xid: nat) { Sent(s, c, xid, true) || Sent(s, c, xid, false) }

  ghost predicate OutcomeOk(s: State, c: nat, xid: nat, o: Outcome) {
    o != Forgotten && (o.Ok? ==> Gave(s, c, xid, o.result))
  }

  ghost predicate ClientOk(s: State, c: nat, k: Client) {
    && k.next >= 1
    && (forall x | x in k.calls :: 1 <= x < k.next && Sent(s, c, x, k.calls[x].bind))
    && (forall x | x in k.reported :: 1 <= x < k.next)
    && (forall x | x in k.calls && k.calls[x].outcome.None? :: x !in k.reported)
    && (forall x | x in k.calls && k.calls[x].outcome.Some? :: OutcomeOk(s, c, x, k.calls[x].outcome.value))
    && (k.server.Some? ==> k.server.value != 0)
  }

  ghost predicate RequestOk(s: State, q: Request) {
    && q.client in s.clients && 1 <= q.xid < s.clients[q.client].next
    && q.rep < q.xid && q.rep <= Front(s.clients[q.client].reported)
    && (q.bind <==> q.server == 0)
  }

  ghost predicate SameCall(s: State) {
    forall q, r | q in s.requests && r in s.requests && q.client == r.client && q.xid == r.xid :: q == r
  }

  ghost predicate ReplyOk(s: State, p: Reply) {
    && p.client in s.clients && Asked(s, p.client, p.xid)
    && (p.outcome == Forgotten ==> p.xid in s.clients[p.client].reported)
    && (p.outcome.Ok? ==> Gave(s, p.client, p.xid, p.outcome.result))
  }

  ghost predicate WindowOk(s: State, c: nat, w: Win) {
    && c in s.clients && w.low <= Front(s.clients[c].reported)
    && (forall x | x in w.known :: Run(s.nonce, c, x) in s.ran)
    && (forall x | x in w.known ::
          if Run(s.nonce, c, x) in s.results then w.known[x] == Some(s.results[Run(s.nonce, c, x)])
          else w.known[x] == None)
  }

  ghost predicate RunOk(s: State, r: Run) {
    && r.server in s.used
    && (Sent(s, r.client, r.xid, true) || SentTo(s, r.client, r.xid, r.server))
    && (r.server == s.nonce ==> Seen(WindowOf(s, r.client), r.xid))
  }

  ghost predicate SentTo(s: State, c: nat, xid: nat, server: nat) {
    exists q :: q in s.requests && q.client == c && q.xid == xid && q.server == server
  }

  ghost predicate BindsGiveNonce(s: State) {
    forall q, r | q in s.requests && r in s.results && q.client == r.client && q.xid == r.xid && q.bind ::
      s.results[r] != 0
  }

  ghost predicate ClientsOk(s: State) { forall c | c in s.clients :: ClientOk(s, c, s.clients[c]) }
  ghost predicate RequestsOk(s: State) { forall q | q in s.requests :: RequestOk(s, q) }
  ghost predicate RepliesOk(s: State) { forall p | p in s.replies :: ReplyOk(s, p) }
  ghost predicate WindowsOk(s: State) { forall c | c in s.windows :: WindowOk(s, c, s.windows[c]) }
  ghost predicate RunsOk(s: State) { forall r | r in s.ran :: RunOk(s, r) }
  ghost predicate NoRepeat(s: State) { forall i, j | 0 <= i < j < |s.ran| :: s.ran[i] != s.ran[j] }
  ghost predicate ResultsOk(s: State) { BindsGiveNonce(s) && forall r | r in s.results :: r in s.ran }
  ghost predicate ReturnsOk(s: State) {
    forall k | k in s.returned && s.returned[k].Some? :: OutcomeOk(s, k.0, k.1, s.returned[k].value)
  }
  ghost predicate NoncesOk(s: State) { s.nonce in s.used && 0 !in s.used }

  ghost predicate Inv(s: State) {
    && NoncesOk(s) && ClientsOk(s) && RequestsOk(s) && SameCall(s) && RepliesOk(s)
    && WindowsOk(s) && RunsOk(s) && NoRepeat(s) && ResultsOk(s) && ReturnsOk(s)
  }
}
