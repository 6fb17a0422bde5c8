/** What the lock and extent protocol guarantees in every run. */
module LockTheorems {
  import opened Options
  import opened LockClient
  import opened LockSystem
  import opened LockProofs
  import E = Extent

  ghost predicate Reached(s: State, threads: set<(nat, nat)>, store: map<nat, string>, es: seq<Event>) {
    AnyRun(Init(threads, store), es) && s == After(Init(threads, store), es)
  }

  lemma ReachedHolds(s: State, threads: set<(nat, nat)>, store: map<nat, string>, es: seq<Event>)
    requires Reached(s, threads, store, es)
    ensures Inv(s)
  {
    hide Inv, AnyRun, After;
    InitHolds(threads, store);
    RunKeepsInv(Init(threads, store), es);
  }

  /** A lock is in at most one place, and where that is at a client, the server's table says so. */
  lemma TokenIsUnique(s: State, threads: set<(nat, nat)>, store: map<nat, string>, es: seq<Event>,
                      lid: nat, a: Loc, b: Loc)
    requires Reached(s, threads, store, es) && At(s, lid, a) && At(s, lid, b)
    ensures a == b
    ensures a != Server ==> lid in s.owner && s.owner[lid] == Client(a)
  {
    ReachedHolds(s, threads, store, es);
  }

  /** No two threads, of one client or of two, hold a lock at once. */
  lemma MutualExclusion(s: State, threads: set<(nat, nat)>, store: map<nat, string>, es: seq<Event>,
                        lid: nat, t: (nat, nat), u: (nat, nat))
    requires Reached(s, threads, store, es)
    requires t in s.threads && s.threads[t] == Holding(lid) && u in s.threads && s.threads[u] == Holding(lid)
    ensures t == u
  {
    ReachedHolds(s, threads, store, es);
    assert At(s, lid, Hand(t)) && At(s, lid, Hand(u));
  }

  /** A holder's get and getattr answer with what the last put or remove by any client left. */
  lemma HolderReadsLatest(s: State, threads: set<(nat, nat)>, store: map<nat, string>, es: seq<Event>,
                          eid: nat, t: (nat, nat))
    requires Reached(s, threads, store, es) && t in s.threads && s.threads[t] == Holding(eid)
    ensures E.Get(CacheAt(s, t.0, eid), Stored(s, eid)).1 == Latest(s, eid)
    ensures var size := E.GetAttr(CacheAt(s, t.0, eid), Stored(s, eid)).1;
            (size.Some? <==> Latest(s, eid).Some?) && (size.Some? ==> size.value == |Latest(s, eid).value|)
  {
    ReachedHolds(s, threads, store, es);
    assert At(s, eid, Hand(t)) && ContentOk(s, eid);
    E.GetIsRead(CacheAt(s, t.0, eid), Stored(s, eid));
    E.GetAttrIsSize(CacheAt(s, t.0, eid), Stored(s, eid));
  }

  /** Once a release is on its way or done, no client caches the extent and the server has its
      latest content. */
  lemma FlushedBeforeRelease(s: State, threads: set<(nat, nat)>, store: map<nat, string>, es: seq<Event>,
                             eid: nat, a: Loc)
    requires Reached(s, threads, store, es) && At(s, eid, a) && (a == Server || a.InCall? || a.InLate?)
    ensures Stored(s, eid) == Latest(s, eid)
    ensures forall c: nat :: CacheAt(s, c, eid) == None
  {
    ReachedHolds(s, threads, store, es);
    assert ContentOk(s, eid);
    forall c: nat ensures CacheAt(s, c, eid) == None {}
  }

  // ----- what whole groups of events leave alone -----

  predicate Uses(e: Event) { e.UsePut? || e.UseGet? || e.UseGetAttr? || e.UseRemove? }

  /** A holder's use of its extent touches nothing of the lock protocol. */
  lemma UseFrame(s: State, e: Event)
    requires Enabled(s, e) && Uses(e)
    ensures Next(s, e) == s.(cache := Next(s, e).cache, latest := Next(s, e).latest)
  {
    hide E.Put, E.Get, E.GetAttr, E.Remove, Stored, CacheAt, WithMap;
    hide SetThread, SetLock, LeaveAcquire, LeaveRelease, Freed, Look, LetGo, Revoke;
  }

  /** The events from acquire() to its return. */
  predicate Acquiring(e: Event) {
    || e.Acquire? || e.Turn? || e.ServerGrant? || e.ServerDeny? || e.TimeOut? || e.GotReply?
    || e.CallFails? || e.ReplyLost? || e.Wake?
  }

  lemma AcquireFrame(s: State, e: Event)
    requires Enabled(s, e) && Acquiring(e)
    ensures var t := Next(s, e);
            t == s.(owner := t.owner, table := t.table, xids := t.xids, threads := t.threads,
                    lateAcquires := t.lateAcquires, nextLate := t.nextLate)
  {
    hide Look, Grant, Retry, XidOf;
  }

  // ----- a write is what every later reader sees -----

  predicate Writes(s: State, e: Event, eid: nat)
    requires Enabled(s, e)
  {
    (e.UsePut? || e.UseRemove?) && s.threads[e.t].lid == eid
  }

  predicate NoWrite(s: State, es: seq<Event>, eid: nat)
    requires AnyRun(s, es)
    decreases |es|
  {
    es == [] || (!Writes(s, es[0], eid) && NoWrite(Next(s, es[0]), es[1..], eid))
  }

  lemma StepKeepsLatest(s: State, e: Event, eid: nat)
    requires Enabled(s, e) && !Writes(s, e, eid)
    ensures Latest(Next(s, e), eid) == Latest(s, eid)
  {
    if Acquiring(e) { AcquireFrame(s, e); hide Next; }
    hide LetGo, Revoke, Forget, Retry, E.Put, E.Get, E.GetAttr, E.Remove, E.Flush, WithMap, Stored, CacheAt;
  }

  lemma {:induction false} RunKeepsLatest(s: State, es: seq<Event>, eid: nat)
    requires AnyRun(s, es) && NoWrite(s, es, eid)
    ensures Latest(After(s, es), eid) == Latest(s, eid)
    decreases |es|
  {
    hide Next, Enabled, Writes, Latest;
    if es == [] {
    } else {
      StepKeepsLatest(s, es[0], eid);
      RunKeepsLatest(Next(s, es[0]), es[1..], eid);
    }
  }

  lemma {:induction false} AfterSplits(s: State, es: seq<Event>, fs: seq<Event>)
    requires AnyRun(s, es) && AnyRun(After(s, es), fs)
    ensures AnyRun(s, es + fs) && After(s, es + fs) == After(After(s, es), fs)
    decreases |es|
  {
    hide Next, Enabled;
    if es == [] {
      assert es + fs == fs;
    } else {
      assert (es + fs)[0] == es[0] && (es + fs)[1..] == es[1..] + fs;
      AfterSplits(Next(s, es[0]), es[1..], fs);
    }
  }

  /** A put by one client that succeeds is what a holder at any client gets after any further
      steps that write no other content, whatever flushes, releases and grants lie between. */
  lemma PutIsSeenByNextHolder(s: State, threads: set<(nat, nat)>, store: map<nat, string>, es: seq<Event>,
                              t: (nat, nat), buf: string, fs: seq<Event>, eid: nat, u: (nat, nat))
    requires Reached(s, threads, store, es)
    requires Enabled(s, UsePut(t, buf)) && s.threads[t].lid == eid && E.Put(CacheAt(s, t.0, eid), buf).1 == E.OK
    requires AnyRun(Next(s, UsePut(t, buf)), fs) && NoWrite(Next(s, UsePut(t, buf)), fs, eid)
    requires var v := After(Next(s, UsePut(t, buf)), fs); u in v.threads && v.threads[u] == Holding(eid)
    ensures var v := After(Next(s, UsePut(t, buf)), fs);
            E.Get(CacheAt(v, u.0, eid), Stored(v, eid)).1 == Some(buf)
  {
    var s1 := Next(s, UsePut(t, buf));
    assert Latest(s1, eid) == Some(buf);
    RunKeepsLatest(s1, fs, eid);
    ReachesOn(s, threads, store, es, UsePut(t, buf), fs);
    HolderReadsLatest(After(s1, fs), threads, store, es + ([UsePut(t, buf)] + fs), eid, u);
  }

  lemma ReachesOn(s: State, threads: set<(nat, nat)>, store: map<nat, string>, es: seq<Event>, e: Event, fs: seq<Event>)
    requires Reached(s, threads, store, es) && Enabled(s, e) && AnyRun(Next(s, e), fs)
    ensures Reached(After(Next(s, e), fs), threads, store, es + ([e] + fs))
  {
    hide Next, Enabled;
    var g := [e] + fs;
    assert g[0] == e && g[1..] == fs;
    AfterSplits(Init(threads, store), es, g);
  }

  // ----- when the lock is lost -----

  /** The steps after which a lock is nowhere: its OK reply is lost, a late acquire takes it for
      a caller that is gone, or the return of an old release call overwrites a free record. */
  predicate Loses(s: State, e: Event, lid: nat)
    requires Enabled(s, e)
  {
    match e
    case ReplyLost(t) => s.threads[t] == Granted(lid)
    case LateGrant(l) => l.lid == lid && lid !in s.owner
    case ReleaseReturns(t) => s.threads[t].lid == lid && s.table[(t.0, lid)].state == FREE
    case _ => false
  }

  /** Where a lock is after a step. */
  function Where(s: State, e: Event, lid: nat, a: Loc): Loc
    requires Enabled(s, e)
  {
    match e
    case Turn(t) => if s.threads[t].lid == lid && a == Cached(t.0) then Hand(t) else a
    case ServerGrant(t) => if s.threads[t].lid == lid && a == Server then Reply(t) else a
    case GotReply(t) => if s.threads[t] == Granted(lid) && a == Reply(t) then Hand(t) else a
    case Release(t) =>
      if s.threads[t].lid == lid && a == Hand(t) then
        if s.table[(t.0, lid)].revoked then Giving(t) else Cached(t.0)
      else a
    case FlushIt(t) => if a == Giving(t) then InCall(t) else a
    case ServerRelease(t) => if a == InCall(t) then Server else a
    case ReleaseFails(t, _) => if a == InCall(t) then InLate(Late(s.nextLate, t.0, lid)) else a
    case LateRelease(l) => if a == InLate(l) then Server else a
    case RevokeQueued(c, l, _) => if l == lid && a == Cached(c) then Queued(c, |QueueOf(s, c)|) else a
    case RevokeInline(t, l) => if l == lid && a == Cached(t.0) then Giving(t) else a
    case Dequeue(t) =>
      if a == Queued(t.0, 0) then Giving(t)
      else if a.Queued? && a.c == t.0 && a.i > 0 then Queued(a.c, a.i - 1)
      else a
    case _ => a
  }

  /** A step keeps the lock, at the named place, exactly when it is not one of those. */
  lemma LostExactlyWhen(s: State, e: Event, lid: nat, a: Loc)
    requires Inv(s) && Enabled(s, e) && At(s, lid, a)
    ensures !Loses(s, e, lid) ==> At(Next(s, e), lid, Where(s, e, lid, a))
    ensures Loses(s, e, lid) ==> forall b :: !At(Next(s, e), lid, b)
  {
    if Loses(s, e, lid) { LoserLoses(s, e, lid, a); } else { KeeperKeeps(s, e, lid, a); }
  }

  lemma GoneIsNowhere(s: State, u: State, lid: nat, a: Loc)
    requires OneToken(s) && Quiet(s, u) && At(s, lid, a) && !At(u, lid, a)
    ensures forall b :: !At(u, lid, b)
  {
    assert forall b | At(u, lid, b) :: At(s, lid, b);
  }

  lemma LoserLoses(s: State, e: Event, lid: nat, a: Loc)
    requires OneToken(s) && Enabled(s, e) && At(s, lid, a) && Loses(s, e, lid)
    ensures forall b :: !At(Next(s, e), lid, b)
  {
    match e
    case ReplyLost(t) =>
      LostWaits(s, t);
      GoneIsNowhere(s, Next(s, e), lid, Reply(t));
    case LateGrant(l) => LateLoses(s, l);
    case ReleaseReturns(t) =>
      ReturnWaits(s, t);
      GoneIsNowhere(s, Next(s, e), lid, Cached(t.0));
  }

  lemma LateLoses(s: State, l: Late)
    requires OneToken(s) && Enabled(s, LateGrant(l)) && l.lid !in s.owner
    ensures forall b :: !At(Next(s, LateGrant(l)), l.lid, b)
  {
    assert At(s, l.lid, Server);
    assert forall b | At(s, l.lid, b) :: b == Server;
    assert forall b | At(Next(s, LateGrant(l)), l.lid, b) :: At(s, l.lid, b);
  }

  lemma KeeperKeeps(s: State, e: Event, lid: nat, a: Loc)
    requires Inv(s) && Enabled(s, e) && At(s, lid, a) && !Loses(s, e, lid)
    ensures At(Next(s, e), lid, Where(s, e, lid, a))
  {
    hide OneToken, OwnerHas, CacheOwned, AllContentOk, LateFresh, Next, Enabled, At, Where, Loses;
    match a
    case Server => ServerKeepsIt(s, e, lid);
    case Reply(t) => ThreadKeepsIt(s, e, lid, t, a);
    case Hand(t) => ThreadKeepsIt(s, e, lid, t, a);
    case Cached(c) => CacheKeepsIt(s, e, lid, c);
    case Giving(t) => ThreadKeepsIt(s, e, lid, t, a);
    case InCall(t) => CallKeepsIt(s, e, lid, t);
    case Queued(c, i) => QueueKeepsIt(s, e, lid, c, i);
    case InLate(l) => LateKeepsIt(s, e, lid, l);
  }

  /** Event e is a step of thread t. */
  predicate By(e: Event, t: (nat, nat)) {
    !e.LateGrant? && !e.LateRelease? && !e.RevokeQueued? && !e.RetryMsg? && e.t == t
  }

  lemma ThreadFrame(s: State, e: Event, t: (nat, nat))
    requires Enabled(s, e) && t in s.threads && !By(e, t)
    ensures t in Next(s, e).threads && Next(s, e).threads[t] == s.threads[t]
  {
    if Uses(e) { UseFrame(s, e); hide Next; }
    hide Look, LetGo, Revoke, Grant, Forget, Retry, E.Flush, WithMap, XidOf, Stored, CacheAt;
  }

  lemma OwnerFrame(s: State, e: Event)
    requires Enabled(s, e) && !e.ServerGrant? && !e.ServerRelease? && !e.LateGrant? && !e.LateRelease?
    ensures Next(s, e).owner == s.owner
  {
    if Uses(e) { UseFrame(s, e); hide Next; }
    hide Look, LetGo, Revoke, Grant, Forget, Retry, E.Flush, WithMap, XidOf, Stored, CacheAt;
  }

  lemma TableFrame(s: State, e: Event, c: nat, lid: nat)
    requires Enabled(s, e) && (c, lid) in s.table
    requires !e.Turn? && !e.GotReply? && !e.Release? && !e.ReleaseReturns? && !e.RevokeQueued? && !e.RevokeInline?
    ensures (c, lid) in Next(s, e).table && Next(s, e).table[(c, lid)].state == s.table[(c, lid)].state
  {
  }

  lemma QueueFrame(s: State, e: Event, c: nat)
    requires Enabled(s, e) && !e.RevokeQueued? && !e.Dequeue?
    ensures QueueOf(Next(s, e), c) == QueueOf(s, c)
  {
    if Uses(e) { UseFrame(s, e); hide Next; }
    if Acquiring(e) { AcquireFrame(s, e); hide Next; }
    hide Look, LetGo, Revoke, Grant, Forget, Retry, E.Flush, WithMap, XidOf, Stored, CacheAt;
  }

  lemma ServerKeepsIt(s: State, e: Event, lid: nat)
    requires Enabled(s, e) && At(s, lid, Server) && !Loses(s, e, lid)
    ensures At(Next(s, e), lid, Where(s, e, lid, Server))
  {
    if e.ServerGrant? || e.ServerRelease? || e.LateGrant? || e.LateRelease? {
      TableOwnerKeepsIt(s, e, lid);
    } else {
      OwnerFrame(s, e);
      hide Next;
    }
  }

  lemma TableOwnerKeepsIt(s: State, e: Event, lid: nat)
    requires Enabled(s, e) && At(s, lid, Server) && !Loses(s, e, lid)
    requires e.ServerGrant? || e.ServerRelease? || e.LateGrant? || e.LateRelease?
    ensures At(Next(s, e), lid, Where(s, e, lid, Server))
  {
  }

  lemma ThreadKeepsIt(s: State, e: Event, lid: nat, t: (nat, nat), a: Loc)
    requires a == Reply(t) || a == Hand(t) || a == Giving(t)
    requires Enabled(s, e) && At(s, lid, a) && !Loses(s, e, lid)
    ensures At(Next(s, e), lid, Where(s, e, lid, a))
  {
    if By(e, t) {
      ActorKeepsIt(s, e, lid, t, a);
    } else {
      ThreadFrame(s, e, t);
      hide Next;
    }
  }

  lemma ActorKeepsIt(s: State, e: Event, lid: nat, t: (nat, nat), a: Loc)
    requires a == Reply(t) || a == Hand(t) || a == Giving(t)
    requires Enabled(s, e) && At(s, lid, a) && !Loses(s, e, lid) && By(e, t)
    ensures At(Next(s, e), lid, Where(s, e, lid, a))
  {
  }

  lemma CacheKeepsIt(s: State, e: Event, lid: nat, c: nat)
    requires OneToken(s) && Enabled(s, e) && At(s, lid, Cached(c)) && !Loses(s, e, lid)
    ensures At(Next(s, e), lid, Where(s, e, lid, Cached(c)))
  {
    if e.RevokeQueued? {
      RevokeKeepsIt(s, e.c, e.lid, e.xid, lid, c);
    } else if e.Turn? || e.GotReply? || e.Release? || e.ReleaseReturns? || e.RevokeInline? {
      RecordKeepsIt(s, e, lid, c);
    } else {
      TableFrame(s, e, c, lid);
      hide Next;
    }
  }

  lemma RevokeKeepsIt(s: State, d: nat, l: nat, xid: nat, lid: nat, c: nat)
    requires Enabled(s, RevokeQueued(d, l, xid)) && At(s, lid, Cached(c))
    ensures At(Next(s, RevokeQueued(d, l, xid)), lid, Where(s, RevokeQueued(d, l, xid), lid, Cached(c)))
  {
    if d == c && l == lid {
      assert QueueOf(Next(s, RevokeQueued(d, l, xid)), c) == QueueOf(s, c) + [(lid, xid)];
    }
  }

  lemma RecordKeepsIt(s: State, e: Event, lid: nat, c: nat)
    requires OneToken(s) && Enabled(s, e) && At(s, lid, Cached(c)) && !Loses(s, e, lid)
    requires e.Turn? || e.GotReply? || e.Release? || e.ReleaseReturns? || e.RevokeInline?
    ensures At(Next(s, e), lid, Where(s, e, lid, Cached(c)))
  {
    if e.GotReply? { assert At(s, s.threads[e.t].lid, Reply(e.t)); }
    if e.Release? { assert At(s, s.threads[e.t].lid, Hand(e.t)); }
  }

  lemma CallKeepsIt(s: State, e: Event, lid: nat, t: (nat, nat))
    requires OwnerHas(s) && Enabled(s, e) && At(s, lid, InCall(t))
    ensures At(Next(s, e), lid, Where(s, e, lid, InCall(t)))
  {
    if By(e, t) {
      CallerKeepsIt(s, e, lid, t);
    } else {
      ThreadFrame(s, e, t);
      hide Next;
    }
  }

  lemma CallerKeepsIt(s: State, e: Event, lid: nat, t: (nat, nat))
    requires OwnerHas(s) && Enabled(s, e) && At(s, lid, InCall(t)) && By(e, t)
    ensures At(Next(s, e), lid, Where(s, e, lid, InCall(t)))
  {
    assert e.ServerRelease? || e.ReleaseFails?;
  }

  lemma QueueGrows(s: State, d: nat, l: nat, xid: nat, c: nat)
    requires Enabled(s, RevokeQueued(d, l, xid))
    ensures QueueOf(s, c) <= QueueOf(Next(s, RevokeQueued(d, l, xid)), c)
  {
  }

  lemma QueueKeepsIt(s: State, e: Event, lid: nat, c: nat, i: nat)
    requires Enabled(s, e) && At(s, lid, Queued(c, i))
    ensures At(Next(s, e), lid, Where(s, e, lid, Queued(c, i)))
  {
    if e.RevokeQueued? {
      QueueGrows(s, e.c, e.lid, e.xid, c);
      hide Next, QueueOf;
    } else if e.Dequeue? {
      hide Look, LetGo, Revoke, Grant, Forget, Retry;
    } else {
      QueueFrame(s, e, c);
      hide Next;
    }
  }

  lemma LateFrame(s: State, e: Event, l: Late)
    requires Enabled(s, e) && l in s.lateReleases && e != LateRelease(l)
    ensures l in Next(s, e).lateReleases
  {
    if Uses(e) { UseFrame(s, e); hide Next; }
    if Acquiring(e) { AcquireFrame(s, e); hide Next; }
    hide Look, LetGo, Revoke, Grant, Forget, Retry, E.Flush, WithMap, XidOf, Stored, CacheAt;
  }

  lemma LateKeepsIt(s: State, e: Event, lid: nat, l: Late)
    requires OwnerHas(s) && Enabled(s, e) && At(s, lid, InLate(l))
    ensures At(Next(s, e), lid, Where(s, e, lid, InLate(l)))
  {
    if e == LateRelease(l) {
      assert lid !in Next(s, LateRelease(l)).owner;
    } else {
      LateFrame(s, e, l);
      hide Next;
    }
  }

  // ----- a revoke is honoured -----

  /** Client c has been asked for the lock and has not given it back since. */
  predicate Pending(s: State, c: nat, lid: nat) { Known(s, c, lid) && s.table[(c, lid)].revoked }

  predicate Releases(s: State, e: Event, c: nat, lid: nat)
    requires Enabled(s, e)
  {
    e.Release? && e.t.0 == c && s.threads[e.t].lid == lid
  }

  predicate NoRelease(s: State, es: seq<Event>, c: nat, lid: nat)
    requires AnyRun(s, es)
    decreases |es|
  {
    es == [] || (!Releases(s, es[0], c, lid) && NoRelease(Next(s, es[0]), es[1..], c, lid))
  }

  lemma AcquiringKeepsPending(s: State, e: Event, c: nat, lid: nat)
    requires Enabled(s, e) && Acquiring(e) && Pending(s, c, lid)
    ensures Pending(Next(s, e), c, lid)
  {
  }

  lemma StepKeepsPending(s: State, e: Event, c: nat, lid: nat)
    requires Enabled(s, e) && Pending(s, c, lid) && !Releases(s, e, c, lid)
    ensures Pending(Next(s, e), c, lid)
  {
    if Uses(e) { UseFrame(s, e); hide Next; }
    if Acquiring(e) { AcquiringKeepsPending(s, e, c, lid); hide Next; }
    hide E.Flush, WithMap, Stored, CacheAt;
  }

  lemma {:induction false} RunKeepsPending(s: State, es: seq<Event>, c: nat, lid: nat)
    requires AnyRun(s, es) && Pending(s, c, lid) && NoRelease(s, es, c, lid)
    ensures Pending(After(s, es), c, lid)
    decreases |es|
  {
    hide Next, Enabled, Releases, Pending;
    if es == [] {
    } else {
      StepKeepsPending(s, es[0], c, lid);
      RunKeepsPending(Next(s, es[0]), es[1..], c, lid);
    }
  }

  /** Event e is a revoke of lid that client c takes, under either handler. */
  predicate Revokes(e: Event, c: nat, lid: nat) {
    (e.RevokeQueued? && e.c == c && e.lid == lid) || (e.RevokeInline? && e.t.0 == c && e.lid == lid)
  }

  /** In every run: a lock that is revoked while it is not free, whether held, being acquired or being
      given back, is given back by the client's next release of it, which uses the revoke up. */
  lemma RevokeIsHonoured(s: State, e: Event, c: nat, lid: nat, es: seq<Event>, t: (nat, nat))
    requires Enabled(s, e) && Revokes(e, c, lid) && s.table[(c, lid)].state != FREE
    requires AnyRun(Next(s, e), es) && NoRelease(Next(s, e), es, c, lid)
    requires var v := After(Next(s, e), es); Enabled(v, Release(t)) && Releases(v, Release(t), c, lid)
    ensures var w := Next(After(Next(s, e), es), Release(t));
            At(w, lid, Giving(t)) && w.table[(c, lid)].state == RELEASING && !Pending(w, c, lid)
  {
    assert Pending(Next(s, e), c, lid);
    RunKeepsPending(Next(s, e), es, c, lid);
    GivesBack(After(Next(s, e), es), c, lid, t);
    hide Next, After, AnyRun, NoRelease;
  }

  lemma GivesBack(s: State, c: nat, lid: nat, t: (nat, nat))
    requires Enabled(s, Release(t)) && Releases(s, Release(t), c, lid) && Pending(s, c, lid)
    ensures var w := Next(s, Release(t));
            (c, lid) in w.table && At(w, lid, Giving(t)) && w.table[(c, lid)].state == RELEASING && !Pending(w, c, lid)
  {
  }

  /** Revoked while it is free it goes to the releaser, or is given back by the handler's thread. */
  lemma FreeRevokeGivesBack(s: State, e: Event, c: nat, lid: nat)
    requires Enabled(s, e) && Revokes(e, c, lid) && s.table[(c, lid)].state == FREE
    ensures var w := Next(s, e);
            && w.table[(c, lid)].state == RELEASING
            && (e.RevokeQueued? ==> At(w, lid, Queued(c, |QueueOf(s, c)|)))
            && (e.RevokeInline? ==> At(w, lid, Giving(e.t)))
  {
  }
}
