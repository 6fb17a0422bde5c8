/** Clients with caching locks and write-back extent caches around an abstract lock server and
    extent store. A lock guards the extent of the same number. The server grants a lock only
    when it is free and keeps it owned until the owner's release is processed; every request is
    processed at most once, possibly after its caller gave up on it. */
module LockSystem {
  import opened Options
  import opened LockClient
  import E = Extent

  /** Where a thread is: in acquire(), holding the lock, or giving it back. */
  datatype Thread =
    | Idle
    | Looking(lid: nat)     // at the top of the loop in acquire()
    | Calling(lid: nat)     // acquire call sent
    | Granted(lid: nat)     // OK reply on its way
    | Waiting(lid: nat)     // on wait_cv_ or release_cv_, with no time-out
    | Denied(lid: nat)      // RETRY received: on retry_cv_, with a time-out
    | Holding(lid: nat)     // acquire() returned
    | Flushing(lid: nat)    // about to call dorelease()
    | Sending(lid: nat)     // release call sent
    | Returning(lid: nat)   // release processed, reply on its way

  /** A request whose caller gave up before the server processed it. */
  datatype Late = Late(id: nat, client: nat, lid: nat)

  datatype State = State(
    owner: map<nat, nat>, store: map<nat, string>,
    table: map<(nat, nat), Lock>, xids: map<nat, nat>, queues: map<nat, seq<(nat, nat)>>,
    threads: map<(nat, nat), Thread>, cache: map<(nat, nat), E.Entry>,
    lateAcquires: set<Late>, lateReleases: set<Late>, nextLate: nat,
    latest: map<nat, string>)  // what the last put or remove by any client left; no step reads it

  datatype Event =
    | Acquire(t: (nat, nat), lid: nat)
    | Turn(t: (nat, nat))
    | ServerGrant(t: (nat, nat))
    | ServerDeny(t: (nat, nat))   // RETRY; a caller that misses the reply looks again, as after a wake-up
    | TimeOut(t: (nat, nat))      // the wait on retry_cv_ times out
    | GotReply(t: (nat, nat))
    | CallFails(t: (nat, nat))    // the call gives up; the server may still get the request
    | ReplyLost(t: (nat, nat))
    | Wake(t: (nat, nat))
    | Release(t: (nat, nat))
    | FlushIt(t: (nat, nat))
    | ServerRelease(t: (nat, nat))
    | ReleaseFails(t: (nat, nat), forget: bool)
    | ReleaseReturns(t: (nat, nat))
    | LateGrant(l: Late)
    | LateRelease(l: Late)
    | RevokeQueued(c: nat, lid: nat, xid: nat)   // the handler with xids and a queue
    | RevokeInline(t: (nat, nat), lid: nat)      // the handler that releases by itself
    | RetryMsg(c: nat, lid: nat)
    | Dequeue(t: (nat, nat))                     // the releaser takes the next entry
    | UsePut(t: (nat, nat), buf: string)
    | UseGet(t: (nat, nat))
    | UseGetAttr(t: (nat, nat))
    | UseRemove(t: (nat, nat))

  function Init(threads: set<(nat, nat)>, store: map<nat, string>): State {
    State(map[], store, map[], map[], map[], map t | t in threads :: Idle, map[], {}, {}, 0, store)
  }

  function Stored(s: State, eid: nat): Option<string> {
    if eid in s.store then Some(s.store[eid]) else None
  }

  function Latest(s: State, eid: nat): Option<string> {
    if eid in s.latest then Some(s.latest[eid]) else None
  }

  function CacheAt(s: State, c: nat, eid: nat): Option<E.Entry> {
    if (c, eid) in s.cache then Some(s.cache[(c, eid)]) else None
  }

  function XidOf(s: State, c: nat): nat { if c in s.xids then s.xids[c] else 0 }

  function QueueOf(s: State, c: nat): seq<(nat, nat)> { if c in s.queues then s.queues[c] else [] }

  function WithMap(m: map<nat, string>, k: nat, v: Option<string>): map<nat, string> {
    if v.Some? then m[k := v.value] else m - {k}
  }

  function WithCache(s: State, c: nat, eid: nat, e: Option<E.Entry>): State {
    s.(cache := if e.Some? then s.cache[(c, eid) := e.value] else s.cache - {(c, eid)})
  }

  predicate Known(s: State, c: nat, lid: nat) { (c, lid) in s.table }

  predicate Enabled(s: State, e: Event) {
    match e
    case Acquire(t, _) => t in s.threads && s.threads[t] == Idle
    case Turn(t) => t in s.threads && s.threads[t].Looking? && Known(s, t.0, s.threads[t].lid)
    case ServerGrant(t) => t in s.threads && s.threads[t].Calling? && s.threads[t].lid !in s.owner
    case ServerDeny(t) => t in s.threads && s.threads[t].Calling?
    case GotReply(t) => t in s.threads && s.threads[t].Granted? && Known(s, t.0, s.threads[t].lid)
    case CallFails(t) => t in s.threads && s.threads[t].Calling?
    case ReplyLost(t) => t in s.threads && s.threads[t].Granted?
    case TimeOut(t) => t in s.threads && s.threads[t].Denied? && Known(s, t.0, s.threads[t].lid)
    case Wake(t) => t in s.threads && (s.threads[t].Waiting? || s.threads[t].Denied?)
    case Release(t) => t in s.threads && s.threads[t].Holding? && Known(s, t.0, s.threads[t].lid)
    case FlushIt(t) => t in s.threads && s.threads[t].Flushing?
    case ServerRelease(t) => t in s.threads && s.threads[t].Sending?
    case ReleaseFails(t, _) => t in s.threads && s.threads[t].Sending?
    case ReleaseReturns(t) => t in s.threads && s.threads[t].Returning? && Known(s, t.0, s.threads[t].lid)
    case LateGrant(l) => l in s.lateAcquires
    case LateRelease(l) => l in s.lateReleases
    case RevokeQueued(c, lid, xid) =>
      Known(s, c, lid) && s.table[(c, lid)].state != NONE && s.table[(c, lid)].xid == xid
    case RevokeInline(t, lid) =>
      t in s.threads && s.threads[t] == Idle && Known(s, t.0, lid) && s.table[(t.0, lid)].state != NONE
    case RetryMsg(c, lid) => Known(s, c, lid)
    case Dequeue(t) => t in s.threads && s.threads[t] == Idle && QueueOf(s, t.0) != []
    case UsePut(t, _) => t in s.threads && s.threads[t].Holding?
    case UseGet(t) => t in s.threads && s.threads[t].Holding?
    case UseGetAttr(t) => t in s.threads && s.threads[t].Holding?
    case UseRemove(t) => t in s.threads && s.threads[t].Holding?
  }

  function SetThread(s: State, t: (nat, nat), th: Thread): State { s.(threads := s.threads[t := th]) }

  function SetLock(s: State, c: nat, lid: nat, l: Lock): State { s.(table := s.table[(c, lid) := l]) }

  function LeaveAcquire(s: State, c: nat, lid: nat): State {
    s.(lateAcquires := s.lateAcquires + {Late(s.nextLate, c, lid)}, nextLate := s.nextLate + 1)
  }

  function LeaveRelease(s: State, c: nat, lid: nat): State {
    s.(lateReleases := s.lateReleases + {Late(s.nextLate, c, lid)}, nextLate := s.nextLate + 1)
  }

  /** The server processes a release: only the owner's has an effect. */
  function Freed(s: State, c: nat, lid: nat): State {
    if lid in s.owner && s.owner[lid] == c then s.(owner := s.owner - {lid}) else s
  }

  function Next(s: State, e: Event): State
    requires Enabled(s, e)
  {
    match e
    case Acquire(t, lid) =>
      SetThread(if Known(s, t.0, lid) then s else SetLock(s, t.0, lid, NEW_LOCK), t, Looking(lid))
    case Turn(t) =>
      var c, lid := t.0, s.threads[t].lid;
      var (l, act) := Look(s.table[(c, lid)], XidOf(s, c));
      SetThread(SetLock(if act.Call? then s.(xids := s.xids[c := act.xid + 1]) else s, c, lid, l), t,
                if act.Call? then Calling(lid) else if act.Return? then Holding(lid) else Waiting(lid))
    case ServerGrant(t) =>
      SetThread(s.(owner := s.owner[s.threads[t].lid := t.0]), t, Granted(s.threads[t].lid))
    case ServerDeny(t) => SetThread(s, t, Denied(s.threads[t].lid))
    case GotReply(t) =>
      var lid := s.threads[t].lid;
      SetThread(SetLock(s, t.0, lid, Grant(s.table[(t.0, lid)])), t, Holding(lid))
    case CallFails(t) =>
      SetThread(LeaveAcquire(s, t.0, s.threads[t].lid), t, Looking(s.threads[t].lid))
    case ReplyLost(t) => SetThread(s, t, Looking(s.threads[t].lid))
    case TimeOut(t) =>
      var lid := s.threads[t].lid;
      SetThread(SetLock(s, t.0, lid, Retry(s.table[(t.0, lid)])), t, Looking(lid))
    case Wake(t) => SetThread(s, t, Looking(s.threads[t].lid))
    case Release(t) =>
      var lid := s.threads[t].lid;
      var (l, give) := LetGo(s.table[(t.0, lid)]);
      SetThread(SetLock(s, t.0, lid, l), t, if give then Flushing(lid) else Idle)
    case FlushIt(t) =>
      var c, lid := t.0, s.threads[t].lid;
      SetThread(WithCache(s, c, lid, None), t, Sending(lid)).(
        store := WithMap(s.store, lid, E.Flush(CacheAt(s, c, lid), Stored(s, lid))))
    case ServerRelease(t) => SetThread(Freed(s, t.0, s.threads[t].lid), t, Returning(s.threads[t].lid))
    case ReleaseFails(t, forget) =>
      SetThread(LeaveRelease(s, t.0, s.threads[t].lid), t, if forget then Returning(s.threads[t].lid) else Idle)
    case ReleaseReturns(t) =>
      var lid := s.threads[t].lid;
      SetThread(SetLock(s, t.0, lid, Forget(s.table[(t.0, lid)])), t, Idle)
    case LateGrant(l) =>
      s.(lateAcquires := s.lateAcquires - {l},
         owner := if l.lid in s.owner then s.owner else s.owner[l.lid := l.client])
    case LateRelease(l) => Freed(s, l.client, l.lid).(lateReleases := s.lateReleases - {l})
    case RevokeQueued(c, lid, xid) =>
      var (l, give) := Revoke(s.table[(c, lid)]);
      SetLock(s, c, lid, l).(queues := if give then s.queues[c := QueueOf(s, c) + [(lid, xid)]] else s.queues)
    case RevokeInline(t, lid) =>
      var (l, give) := Revoke(s.table[(t.0, lid)]);
      SetThread(SetLock(s, t.0, lid, l), t, if give then Flushing(lid) else Idle)
    case RetryMsg(c, lid) => SetLock(s, c, lid, Retry(s.table[(c, lid)]))
    case Dequeue(t) =>
      SetThread(s, t, Flushing(QueueOf(s, t.0)[0].0)).(queues := s.queues[t.0 := QueueOf(s, t.0)[1..]])
    case UsePut(t, buf) =>
      var c, eid := t.0, s.threads[t].lid;
      var (x, st) := E.Put(CacheAt(s, c, eid), buf);
      WithCache(s, c, eid, x).(latest := if st == E.OK then s.latest[eid := buf] else s.latest)
    case UseGet(t) =>
      WithCache(s, t.0, s.threads[t].lid, E.Get(CacheAt(s, t.0, s.threads[t].lid), Stored(s, s.threads[t].lid)).0)
    case UseGetAttr(t) =>
      WithCache(s, t.0, s.threads[t].lid, E.GetAttr(CacheAt(s, t.0, s.threads[t].lid), Stored(s, s.threads[t].lid)).0)
    case UseRemove(t) =>
      var c, eid := t.0, s.threads[t].lid;
      WithCache(s, c, eid, E.Remove(CacheAt(s, c, eid)).0).(latest := s.latest - {eid})
  }

  predicate AnyRun(s: State, es: seq<Event>)
    decreases |es|
  {
    es == [] || (Enabled(s, es[0]) && AnyRun(Next(s, es[0]), es[1..]))
  }

  function After(s: State, es: seq<Event>): State
    requires AnyRun(s, es)
    decreases |es|
  {
    if es == [] then s else After(Next(s, es[0]), es[1..])
  }
}
