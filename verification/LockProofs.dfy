/** The lock is a token that no step duplicates, and the extent it guards is one store to all
    clients. */
module LockProofs {
  import opened Options
  import opened LockClient
  import opened LockSystem
  import E = Extent

  /** The places a lock can be: free at the server, in an OK reply, held by a thread, cached by a
      client, with a thread about to flush or in its release call, in a release queue, or in a
      release call whose caller gave up. */
  datatype Loc =
    | Server
    | Reply(t: (nat, nat))
    | Hand(t: (nat, nat))
    | Cached(c: nat)
    | Giving(t: (nat, nat))
    | InCall(t: (nat, nat))
    | Queued(c: nat, i: nat)
    | InLate(l: Late)

  predicate At(s: State, lid: nat, a: Loc) {
    match a
    case Server => lid !in s.owner
    case Reply(t) => t in s.threads && s.threads[t] == Granted(lid)
    case Hand(t) => t in s.threads && s.threads[t] == Holding(lid)
    case Cached(c) => (c, lid) in s.table && s.table[(c, lid)].state == FREE
    case Giving(t) => t in s.threads && s.threads[t] == Flushing(lid)
    case InCall(t) => t in s.threads && s.threads[t] == Sending(lid)
    case Queued(c, i) => i < |QueueOf(s, c)| && QueueOf(s, c)[i].0 == lid
    case InLate(l) => l in s.lateReleases && l.lid == lid
  }

  function Client(a: Loc): nat
    requires a != Server
  {
    match a
    case Reply(t) => t.0
    case Hand(t) => t.0
    case Cached(c) => c
    case Giving(t) => t.0
    case InCall(t) => t.0
    case Queued(c, _) => c
    case InLate(l) => l.client
  }

  /** The lock is in at most one place. */
  ghost predicate OneToken(s: State) {
    forall lid: nat, a, b | At(s, lid, a) && At(s, lid, b) :: a == b
  }

  /** A client that has the lock anywhere is its owner at the server. */
  ghost predicate OwnerHas(s: State) {
    forall lid: nat, a | At(s, lid, a) && a != Server :: lid in s.owner && s.owner[lid] == Client(a)
  }

  /** Only the owner caches an extent, and not while its release is on its way. */
  ghost predicate CacheOwned(s: State) {
    && (forall c: nat, eid: nat | (c, eid) in s.cache :: eid in s.owner && s.owner[eid] == c)
    && (forall eid: nat, a | At(s, eid, a) && (a.InCall? || a.InLate?) :: (Client(a), eid) !in s.cache)
  }

  /** The owner's cache and the server together hold the latest content. */
  ghost predicate ContentOk(s: State, eid: nat) {
    var e := if eid in s.owner then CacheAt(s, s.owner[eid], eid) else None;
    E.Coherent(e, Stored(s, eid)) && E.Content(e, Stored(s, eid)) == Latest(s, eid)
  }

  ghost predicate AllContentOk(s: State) {
    forall eid: nat :: ContentOk(s, eid)
  }

  ghost predicate LateFresh(s: State) {
    forall l | l in s.lateReleases :: l.id < s.nextLate
  }

  ghost predicate Inv(s: State) {
    OneToken(s) && OwnerHas(s) && CacheOwned(s) && AllContentOk(s) && LateFresh(s)
  }

  // ----- moving the token -----

  /** In t lock `lid` may have moved from a to b; nothing else has the lock that had it not. */
  ghost predicate Moves(s: State, t: State, lid: nat, a: Loc, b: Loc) {
    && At(s, lid, a) && At(t, lid, b)
    && (forall x: nat, l | At(t, x, l) :: (x == lid && l == b) || (At(s, x, l) && !(x == lid && l == a)))
    && (forall x: nat | x != lid :: (x in t.owner <==> x in s.owner) && (x in s.owner ==> t.owner[x] == s.owner[x]))
    && (b != Server ==> lid in t.owner && t.owner[lid] == Client(b))
  }

  lemma MoveKeeps(s: State, t: State, lid: nat, a: Loc, b: Loc)
    requires OneToken(s) && OwnerHas(s) && Moves(s, t, lid, a, b)
    ensures OneToken(t) && OwnerHas(t)
  {
    assert forall l | At(s, lid, l) :: l == a;
    assert forall l | At(t, lid, l) :: l == b;
  }

  /** No place gains a lock and the server keeps its owners. */
  ghost predicate Keeps(s: State, t: State) {
    (forall x: nat, l | At(t, x, l) :: At(s, x, l)) && t.owner == s.owner
  }

  lemma KeepKeeps(s: State, t: State)
    requires OneToken(s) && OwnerHas(s) && Keeps(s, t)
    ensures OneToken(t) && OwnerHas(t)
  {
  }

  // ----- what leaves the extents alone -----

  ghost predicate SameExtents(s: State, t: State) {
    t.cache == s.cache && t.store == s.store && t.latest == s.latest && t.owner == s.owner
  }

  lemma ExtentsKeep(s: State, t: State)
    requires CacheOwned(s) && AllContentOk(s) && SameExtents(s, t)
    requires forall x: nat, l | At(t, x, l) && (l.InCall? || l.InLate?) :: (Client(l), x) !in s.cache
    ensures CacheOwned(t) && AllContentOk(t)
  {
    forall eid: nat ensures ContentOk(t, eid) { assert ContentOk(s, eid); }
  }

  // ----- the token under each step -----

  /** No new release call. */
  predicate SameSends(s: State, u: State) {
    && (forall t | t in u.threads && u.threads[t].Sending? :: t in s.threads && s.threads[t] == u.threads[t])
    && u.lateReleases == s.lateReleases
  }

  /** No owner, cache, store or release call changes. */
  ghost predicate SameBelow(s: State, u: State) {
    SameExtents(s, u) && SameSends(s, u) && u.nextLate >= s.nextLate
  }

  predicate Carries(th: Thread) { th.Granted? || th.Holding? || th.Flushing? || th.Sending? }

  /** No thread and no record gains the lock. */
  predicate Quiet(s: State, u: State) {
    && u.owner == s.owner && u.queues == s.queues && u.lateReleases == s.lateReleases
    && (forall k | k in u.table && u.table[k].state == FREE :: k in s.table && s.table[k].state == FREE)
    && (forall t | t in u.threads && Carries(u.threads[t]) :: t in s.threads && s.threads[t] == u.threads[t])
  }

  lemma QuietKeeps(s: State, u: State)
    requires OneToken(s) && OwnerHas(s) && Quiet(s, u)
    ensures OneToken(u) && OwnerHas(u)
  {
    assert Keeps(s, u);
    KeepKeeps(s, u);
  }

  /** Steps that only move threads about or change what they wait for. */
  ghost predicate OnlyWaits(s: State, u: State) {
    Quiet(s, u) && SameExtents(s, u) && u.nextLate >= s.nextLate
  }

  lemma AcquireWaits(s: State, t: (nat, nat), lid: nat)
    requires Enabled(s, Acquire(t, lid))
    ensures OnlyWaits(s, Next(s, Acquire(t, lid)))
  {
  }

  lemma DenyWaits(s: State, t: (nat, nat))
    requires Enabled(s, ServerDeny(t))
    ensures OnlyWaits(s, Next(s, ServerDeny(t)))
  {
  }

  lemma FailWaits(s: State, t: (nat, nat))
    requires Enabled(s, CallFails(t))
    ensures OnlyWaits(s, Next(s, CallFails(t)))
  {
  }

  lemma LostWaits(s: State, t: (nat, nat))
    requires Enabled(s, ReplyLost(t))
    ensures OnlyWaits(s, Next(s, ReplyLost(t)))
  {
  }

  lemma TimeOutWaits(s: State, t: (nat, nat))
    requires Enabled(s, TimeOut(t))
    ensures OnlyWaits(s, Next(s, TimeOut(t)))
  {
  }

  lemma WakeWaits(s: State, t: (nat, nat))
    requires Enabled(s, Wake(t))
    ensures OnlyWaits(s, Next(s, Wake(t)))
  {
  }

  lemma ReturnWaits(s: State, t: (nat, nat))
    requires Enabled(s, ReleaseReturns(t))
    ensures OnlyWaits(s, Next(s, ReleaseReturns(t)))
  {
  }

  lemma RetryWaits(s: State, c: nat, lid: nat)
    requires Enabled(s, RetryMsg(c, lid))
    ensures OnlyWaits(s, Next(s, RetryMsg(c, lid)))
  {
  }

  lemma TurnWaits(s: State, t: (nat, nat))
    requires Enabled(s, Turn(t)) && s.table[(t.0, s.threads[t].lid)].state != FREE
    ensures OnlyWaits(s, Next(s, Turn(t)))
  {
  }

  lemma TurnToken(s: State, t: (nat, nat))
    requires OneToken(s) && OwnerHas(s) && Enabled(s, Turn(t))
    requires s.table[(t.0, s.threads[t].lid)].state == FREE
    ensures OneToken(Next(s, Turn(t))) && OwnerHas(Next(s, Turn(t)))
    ensures SameBelow(s, Next(s, Turn(t)))
  {
    assert At(s, s.threads[t].lid, Cached(t.0));
    MoveKeeps(s, Next(s, Turn(t)), s.threads[t].lid, Cached(t.0), Hand(t));
  }

  lemma GrantToken(s: State, t: (nat, nat))
    requires OneToken(s) && OwnerHas(s) && Enabled(s, ServerGrant(t))
    ensures OneToken(Next(s, ServerGrant(t))) && OwnerHas(Next(s, ServerGrant(t)))
  {
    MoveKeeps(s, Next(s, ServerGrant(t)), s.threads[t].lid, Server, Reply(t));
  }

  lemma ReplyToken(s: State, t: (nat, nat))
    requires OneToken(s) && OwnerHas(s) && Enabled(s, GotReply(t))
    ensures OneToken(Next(s, GotReply(t))) && OwnerHas(Next(s, GotReply(t)))
    ensures SameBelow(s, Next(s, GotReply(t)))
  {
    assert At(s, s.threads[t].lid, Reply(t));
    MoveKeeps(s, Next(s, GotReply(t)), s.threads[t].lid, Reply(t), Hand(t));
  }

  lemma ReleaseToken(s: State, t: (nat, nat))
    requires OneToken(s) && OwnerHas(s) && Enabled(s, Release(t))
    ensures OneToken(Next(s, Release(t))) && OwnerHas(Next(s, Release(t)))
    ensures SameBelow(s, Next(s, Release(t)))
  {
    var u, lid := Next(s, Release(t)), s.threads[t].lid;
    assert At(s, lid, Hand(t));
    MoveKeeps(s, u, lid, Hand(t), if s.table[(t.0, lid)].revoked then Giving(t) else Cached(t.0));
  }

  lemma FlushToken(s: State, t: (nat, nat))
    requires OneToken(s) && OwnerHas(s) && Enabled(s, FlushIt(t))
    ensures OneToken(Next(s, FlushIt(t))) && OwnerHas(Next(s, FlushIt(t)))
  {
    assert At(s, s.threads[t].lid, Giving(t));
    MoveKeeps(s, Next(s, FlushIt(t)), s.threads[t].lid, Giving(t), InCall(t));
  }

  lemma ServerReleaseToken(s: State, t: (nat, nat))
    requires OneToken(s) && OwnerHas(s) && Enabled(s, ServerRelease(t))
    ensures OneToken(Next(s, ServerRelease(t))) && OwnerHas(Next(s, ServerRelease(t)))
  {
    assert At(s, s.threads[t].lid, InCall(t));
    MoveKeeps(s, Next(s, ServerRelease(t)), s.threads[t].lid, InCall(t), Server);
  }

  lemma ReleaseFailsToken(s: State, t: (nat, nat), forget: bool)
    requires OneToken(s) && OwnerHas(s) && LateFresh(s) && Enabled(s, ReleaseFails(t, forget))
    ensures OneToken(Next(s, ReleaseFails(t, forget))) && OwnerHas(Next(s, ReleaseFails(t, forget)))
  {
    var lid := s.threads[t].lid;
    assert At(s, lid, InCall(t));
    MoveKeeps(s, Next(s, ReleaseFails(t, forget)), lid, InCall(t), InLate(Late(s.nextLate, t.0, lid)));
  }

  lemma LateGrantToken(s: State, l: Late)
    requires OneToken(s) && OwnerHas(s) && Enabled(s, LateGrant(l))
    ensures OneToken(Next(s, LateGrant(l))) && OwnerHas(Next(s, LateGrant(l)))
  {
    var u := Next(s, LateGrant(l));
    if l.lid !in s.owner {
      assert At(s, l.lid, Server);
      assert forall a | At(s, l.lid, a) :: a == Server;
    }
    assert forall x: nat, a | At(u, x, a) :: At(s, x, a);
  }

  lemma LateReleaseToken(s: State, l: Late)
    requires OneToken(s) && OwnerHas(s) && Enabled(s, LateRelease(l))
    ensures OneToken(Next(s, LateRelease(l))) && OwnerHas(Next(s, LateRelease(l)))
  {
    assert At(s, l.lid, InLate(l));
    MoveKeeps(s, Next(s, LateRelease(l)), l.lid, InLate(l), Server);
  }

  lemma RevokeQueuedToken(s: State, c: nat, lid: nat, xid: nat)
    requires OneToken(s) && OwnerHas(s) && Enabled(s, RevokeQueued(c, lid, xid))
    ensures OneToken(Next(s, RevokeQueued(c, lid, xid))) && OwnerHas(Next(s, RevokeQueued(c, lid, xid)))
    ensures SameBelow(s, Next(s, RevokeQueued(c, lid, xid)))
  {
    var u := Next(s, RevokeQueued(c, lid, xid));
    if s.table[(c, lid)].state == FREE {
      assert At(s, lid, Cached(c));
      assert forall d | d != c :: QueueOf(u, d) == QueueOf(s, d);
      assert QueueOf(u, c) == QueueOf(s, c) + [(lid, xid)];
      MoveKeeps(s, u, lid, Cached(c), Queued(c, |QueueOf(s, c)|));
    } else {
      KeepKeeps(s, u);
    }
  }

  lemma RevokeInlineToken(s: State, t: (nat, nat), lid: nat)
    requires OneToken(s) && OwnerHas(s) && Enabled(s, RevokeInline(t, lid))
    ensures OneToken(Next(s, RevokeInline(t, lid))) && OwnerHas(Next(s, RevokeInline(t, lid)))
    ensures SameBelow(s, Next(s, RevokeInline(t, lid)))
  {
    var u := Next(s, RevokeInline(t, lid));
    if s.table[(t.0, lid)].state == FREE {
      assert At(s, lid, Cached(t.0));
      MoveKeeps(s, u, lid, Cached(t.0), Giving(t));
    } else {
      KeepKeeps(s, u);
    }
  }

  /** Where a place was before the head of c's queue moved to thread t. */
  function Before(a: Loc, t: (nat, nat)): Loc {
    if a == Giving(t) then Queued(t.0, 0)
    else if a.Queued? && a.c == t.0 then Queued(a.c, a.i + 1)
    else a
  }

  lemma DequeueToken(s: State, t: (nat, nat))
    requires OneToken(s) && OwnerHas(s) && Enabled(s, Dequeue(t))
    ensures OneToken(Next(s, Dequeue(t))) && OwnerHas(Next(s, Dequeue(t)))
    ensures SameBelow(s, Next(s, Dequeue(t)))
  {
    var u := Next(s, Dequeue(t));
    assert forall d | d != t.0 :: QueueOf(u, d) == QueueOf(s, d);
    assert QueueOf(u, t.0) == QueueOf(s, t.0)[1..];
    forall x: nat, a | At(u, x, a) ensures At(s, x, Before(a, t)) {}
    forall x: nat, a, b | At(u, x, a) && At(u, x, b) ensures a == b {
      assert Before(a, t) == Before(b, t);
    }
  }

  // ----- the extents under each step -----

  lemma SendsKeep(s: State, u: State)
    requires CacheOwned(s) && AllContentOk(s) && LateFresh(s)
    requires SameBelow(s, u)
    ensures CacheOwned(u) && AllContentOk(u) && LateFresh(u)
  {
    assert forall x: nat, l | At(u, x, l) && (l.InCall? || l.InLate?) :: At(s, x, l);
    ExtentsKeep(s, u);
  }

  lemma ReleaseFailsExtents(s: State, t: (nat, nat), forget: bool)
    requires CacheOwned(s) && AllContentOk(s) && LateFresh(s) && Enabled(s, ReleaseFails(t, forget))
    ensures CacheOwned(Next(s, ReleaseFails(t, forget))) && AllContentOk(Next(s, ReleaseFails(t, forget)))
    ensures LateFresh(Next(s, ReleaseFails(t, forget)))
  {
    var u, lid := Next(s, ReleaseFails(t, forget)), s.threads[t].lid;
    assert At(s, lid, InCall(t));
    assert forall x: nat, l | At(u, x, l) && (l.InCall? || l.InLate?) && !(x == lid && Client(l) == t.0) :: At(s, x, l);
    ExtentsKeep(s, u);
  }

  /** Only the extent eid changed, and its lock is in no release call. */
  ghost predicate OneExtent(s: State, u: State, eid: nat) {
    && ContentOk(u, eid)
    && (forall x: nat | x != eid ::
          && (x in u.owner <==> x in s.owner) && (x in s.owner ==> u.owner[x] == s.owner[x])
          && Stored(u, x) == Stored(s, x) && Latest(u, x) == Latest(s, x))
    && (forall c: nat, x: nat | x != eid :: CacheAt(u, c, x) == CacheAt(s, c, x))
    && (forall c: nat | (c, eid) in u.cache :: eid in u.owner && u.owner[eid] == c)
    && (forall l | At(u, eid, l) && (l.InCall? || l.InLate?) :: (Client(l), eid) !in u.cache)
    && (forall x: nat, l | x != eid && At(u, x, l) && (l.InCall? || l.InLate?) :: At(s, x, l))
  }

  lemma OneExtentKeeps(s: State, u: State, eid: nat)
    requires CacheOwned(s) && AllContentOk(s) && OneExtent(s, u, eid)
    ensures CacheOwned(u) && AllContentOk(u)
  {
    forall x: nat ensures ContentOk(u, x) {
      if x != eid { assert ContentOk(s, x); }
    }
    forall c: nat, x: nat | (c, x) in u.cache ensures x in u.owner && u.owner[x] == c {
      if x != eid { assert CacheAt(u, c, x) == CacheAt(s, c, x); }
    }
    forall x: nat, l | At(u, x, l) && (l.InCall? || l.InLate?) ensures (Client(l), x) !in u.cache {
      if x != eid { assert CacheAt(u, Client(l), x) == CacheAt(s, Client(l), x); }
    }
  }

  /** A grant by the server, in time or late: the new owner has nothing cached. */
  lemma GrantExtents(s: State, u: State, lid: nat, c: nat)
    requires CacheOwned(s) && AllContentOk(s) && lid !in s.owner
    requires u.owner == s.owner[lid := c] && u.cache == s.cache && u.store == s.store && u.latest == s.latest
    requires SameSends(s, u)
    ensures CacheOwned(u) && AllContentOk(u)
  {
    assert ContentOk(s, lid);
    assert forall x: nat, l | At(u, x, l) && (l.InCall? || l.InLate?) :: At(s, x, l);
    OneExtentKeeps(s, u, lid);
  }

  /** A release reaches the server: the owner has nothing cached. */
  lemma FreedExtents(s: State, u: State, lid: nat, c: nat)
    requires CacheOwned(s) && AllContentOk(s) && lid in s.owner && s.owner[lid] == c && (c, lid) !in s.cache
    requires u.owner == s.owner - {lid} && u.cache == s.cache && u.store == s.store && u.latest == s.latest
    requires forall x: nat, l | At(u, x, l) && (l.InCall? || l.InLate?) :: At(s, x, l)
    ensures CacheOwned(u) && AllContentOk(u)
  {
    assert ContentOk(s, lid);
    OneExtentKeeps(s, u, lid);
  }

  lemma FlushContent(s: State, t: (nat, nat))
    requires Enabled(s, FlushIt(t))
    requires var lid := s.threads[t].lid; ContentOk(s, lid) && lid in s.owner && s.owner[lid] == t.0
    ensures var u, lid := Next(s, FlushIt(t)), s.threads[t].lid;
            ContentOk(u, lid) && Stored(u, lid) == Latest(s, lid) == Latest(u, lid)
  {
    var lid := s.threads[t].lid;
    E.FlushKeepsContent(CacheAt(s, t.0, lid), Stored(s, lid));
  }

  /** The only new release call is t's. */
  lemma FlushCalls(s: State, t: (nat, nat))
    requires Enabled(s, FlushIt(t))
    ensures forall x: nat, l | At(Next(s, FlushIt(t)), x, l) && (l.InCall? || l.InLate?) ::
              At(s, x, l) || (x == s.threads[t].lid && l == InCall(t))
  {
    hide E.Flush, WithMap, Stored, CacheAt;
  }

  lemma FlushIsLocal(s: State, t: (nat, nat))
    requires OneToken(s) && CacheOwned(s) && Enabled(s, FlushIt(t))
    requires ContentOk(Next(s, FlushIt(t)), s.threads[t].lid)
    ensures OneExtent(s, Next(s, FlushIt(t)), s.threads[t].lid)
    ensures (t.0, s.threads[t].lid) !in Next(s, FlushIt(t)).cache
  {
    FlushCalls(s, t);
    hide ContentOk, E.Flush, OneToken, At;
  }

  lemma FlushExtents(s: State, t: (nat, nat))
    requires OneToken(s) && OwnerHas(s) && CacheOwned(s) && AllContentOk(s) && Enabled(s, FlushIt(t))
    ensures CacheOwned(Next(s, FlushIt(t))) && AllContentOk(Next(s, FlushIt(t)))
    ensures (t.0, s.threads[t].lid) !in Next(s, FlushIt(t)).cache
    ensures Stored(Next(s, FlushIt(t)), s.threads[t].lid) == Latest(s, s.threads[t].lid)
  {
    var u, lid := Next(s, FlushIt(t)), s.threads[t].lid;
    assert At(s, lid, Giving(t));
    assert ContentOk(s, lid);
    FlushContent(s, t);
    FlushIsLocal(s, t);
    hide Next, At, ContentOk, CacheOwned, AllContentOk, OneExtent;
    OneExtentKeeps(s, u, lid);
  }

  /** Only the cache entry of (c, eid) and the latest content of eid may differ. */
  ghost predicate OnlyUses(s: State, u: State, c: nat, eid: nat) {
    && u.owner == s.owner && u.store == s.store && u.threads == s.threads && u.lateReleases == s.lateReleases
    && u.queues == s.queues && u.table == s.table && u.nextLate == s.nextLate
    && (forall d: nat, x: nat | (d, x) != (c, eid) :: CacheAt(u, d, x) == CacheAt(s, d, x))
    && (forall x: nat | x != eid :: Latest(u, x) == Latest(s, x))
    && ContentOk(u, eid)
  }

  /** A holder's operation on its extent. */
  lemma UseKeeps(s: State, u: State, t: (nat, nat), eid: nat)
    requires Inv(s) && At(s, eid, Hand(t)) && OnlyUses(s, u, t.0, eid)
    ensures Inv(u)
  {
    assert Quiet(s, u);
    QuietKeeps(s, u);
    assert forall l | At(s, eid, l) :: l == Hand(t);
    assert forall x: nat, l | At(u, x, l) :: At(s, x, l);
    forall d: nat | (d, eid) in u.cache ensures s.owner[eid] == d {
      assert CacheAt(u, d, eid).Some?;
    }
    OneExtentKeeps(s, u, eid);
  }

  lemma UsePutKeeps(s: State, t: (nat, nat), buf: string)
    requires Inv(s) && Enabled(s, UsePut(t, buf))
    ensures Inv(Next(s, UsePut(t, buf)))
  {
    var eid := s.threads[t].lid;
    assert At(s, eid, Hand(t)) && ContentOk(s, eid);
    E.PutIsWrite(CacheAt(s, t.0, eid), Stored(s, eid), buf);
    UseKeeps(s, Next(s, UsePut(t, buf)), t, eid);
  }

  lemma UseGetKeeps(s: State, t: (nat, nat))
    requires Inv(s) && Enabled(s, UseGet(t))
    ensures Inv(Next(s, UseGet(t)))
  {
    var eid := s.threads[t].lid;
    assert At(s, eid, Hand(t)) && ContentOk(s, eid);
    E.GetIsRead(CacheAt(s, t.0, eid), Stored(s, eid));
    UseKeeps(s, Next(s, UseGet(t)), t, eid);
  }

  lemma UseGetAttrKeeps(s: State, t: (nat, nat))
    requires Inv(s) && Enabled(s, UseGetAttr(t))
    ensures Inv(Next(s, UseGetAttr(t)))
  {
    var eid := s.threads[t].lid;
    assert At(s, eid, Hand(t)) && ContentOk(s, eid);
    E.GetAttrIsSize(CacheAt(s, t.0, eid), Stored(s, eid));
    UseKeeps(s, Next(s, UseGetAttr(t)), t, eid);
  }

  lemma UseRemoveKeeps(s: State, t: (nat, nat))
    requires Inv(s) && Enabled(s, UseRemove(t))
    ensures Inv(Next(s, UseRemove(t)))
  {
    var eid := s.threads[t].lid;
    assert At(s, eid, Hand(t)) && ContentOk(s, eid);
    E.RemoveIsDelete(CacheAt(s, t.0, eid), Stored(s, eid));
    UseKeeps(s, Next(s, UseRemove(t)), t, eid);
  }

  // ----- every run -----

  lemma {:induction false} InitHolds(threads: set<(nat, nat)>, store: map<nat, string>)
    ensures Inv(Init(threads, store))
  {
    var s := Init(threads, store);
    assert forall lid: nat, a | At(s, lid, a) :: a == Server;
    forall eid: nat ensures ContentOk(s, eid) {}
  }

  lemma WaitsKeep(s: State, u: State)
    requires Inv(s) && OnlyWaits(s, u)
    ensures Inv(u)
  {
    QuietKeeps(s, u);
    SendsKeep(s, u);
  }

  lemma ServerKeeps(s: State, e: Event)
    requires Inv(s) && Enabled(s, e) && (e.ServerGrant? || e.ServerRelease?)
    ensures Inv(Next(s, e))
  {
    var u, lid := Next(s, e), s.threads[e.t].lid;
    if e.ServerGrant? {
      GrantToken(s, e.t);
      GrantExtents(s, u, lid, e.t.0);
    } else {
      ServerReleaseToken(s, e.t);
      assert At(s, lid, InCall(e.t));
      FreedExtents(s, u, lid, e.t.0);
    }
  }

  lemma LateKeeps(s: State, e: Event)
    requires Inv(s) && Enabled(s, e) && (e.LateGrant? || e.LateRelease?)
    ensures Inv(Next(s, e))
  {
    var u := Next(s, e);
    if e.LateGrant? {
      LateGrantToken(s, e.l);
      if e.l.lid in s.owner { SendsKeep(s, u); } else { GrantExtents(s, u, e.l.lid, e.l.client); }
    } else {
      LateReleaseToken(s, e.l);
      assert At(s, e.l.lid, InLate(e.l));
      FreedExtents(s, u, e.l.lid, e.l.client);
    }
  }

  lemma FlushKeeps(s: State, t: (nat, nat))
    requires Inv(s) && Enabled(s, FlushIt(t))
    ensures Inv(Next(s, FlushIt(t)))
  {
    hide OneToken, OwnerHas, CacheOwned, AllContentOk;
    FlushToken(s, t);
    FlushExtents(s, t);
  }

  lemma StepKeepsInv(s: State, e: Event)
    requires Inv(s) && Enabled(s, e)
    ensures Inv(Next(s, e))
  {
    hide Next, OneToken, OwnerHas, CacheOwned, AllContentOk, LateFresh, OnlyWaits, SameBelow;
    var u := Next(s, e);
    match e
    case Acquire(t, lid) => AcquireWaits(s, t, lid); WaitsKeep(s, u);
    case Turn(t) =>
      if s.table[(t.0, s.threads[t].lid)].state == FREE { TurnToken(s, t); SendsKeep(s, u); }
      else { TurnWaits(s, t); WaitsKeep(s, u); }
    case ServerGrant(t) => ServerKeeps(s, e);
    case ServerDeny(t) => DenyWaits(s, t); WaitsKeep(s, u);
    case GotReply(t) => ReplyToken(s, t); SendsKeep(s, u);
    case CallFails(t) => FailWaits(s, t); WaitsKeep(s, u);
    case ReplyLost(t) => LostWaits(s, t); WaitsKeep(s, u);
    case TimeOut(t) => TimeOutWaits(s, t); WaitsKeep(s, u);
    case Wake(t) => WakeWaits(s, t); WaitsKeep(s, u);
    case Release(t) => ReleaseToken(s, t); SendsKeep(s, u);
    case FlushIt(t) => FlushKeeps(s, t);
    case ServerRelease(t) => ServerKeeps(s, e);
    case ReleaseFails(t, forget) => ReleaseFailsToken(s, t, forget); ReleaseFailsExtents(s, t, forget);
    case ReleaseReturns(t) => ReturnWaits(s, t); WaitsKeep(s, u);
    case LateGrant(l) => LateKeeps(s, e);
    case LateRelease(l) => LateKeeps(s, e);
    case RevokeQueued(c, lid, xid) => RevokeQueuedToken(s, c, lid, xid); SendsKeep(s, u);
    case RevokeInline(t, lid) => RevokeInlineToken(s, t, lid); SendsKeep(s, u);
    case RetryMsg(c, lid) => RetryWaits(s, c, lid); WaitsKeep(s, u);
    case Dequeue(t) => DequeueToken(s, t); SendsKeep(s, u);
    case UsePut(t, buf) => UsePutKeeps(s, t, buf);
    case UseGet(t) => UseGetKeeps(s, t);
    case UseGetAttr(t) => UseGetAttrKeeps(s, t);
    case UseRemove(t) => UseRemoveKeeps(s, t);
  }

  lemma {:induction false} RunKeepsInv(s: State, es: seq<Event>)
    requires Inv(s) && AnyRun(s, es)
    ensures Inv(After(s, es))
    decreases |es|
  {
    hide Inv, Next, Enabled;
    if es == [] {
    } else {
      StepKeepsInv(s, es[0]);
      RunKeepsInv(Next(s, es[0]), es[1..]);
    }
  }
}
