/** A run with no failed call that loses a lock: the return of one thread's release call
    overwrites the record of a lock that another thread was granted since. */
module LockCounter {
  import opened LockClient
  import opened LockSystem
  import opened LockProofs
  import opened LockTheorems
  import opened LockLoss

  predicate Calm(e: Event) { !e.CallFails? && !e.ReplyLost? && !e.ReleaseFails? }

  ghost predicate Leads(s: State, es: seq<Event>, u: State) {
    AnyRun(s, es) && After(s, es) == u && forall e | e in es :: Calm(e)
  }

  lemma Go(s: State, es: seq<Event>, u: State, e: Event) returns (fs: seq<Event>, v: State)
    requires Leads(s, es, u) && Enabled(u, e) && Calm(e)
    ensures Leads(s, fs, v) && v == Next(u, e)
  {
    hide Next, Enabled, Calm;
    assert [e][0] == e && [e][1..] == [];
    assert AnyRun(u, [e]) && After(u, [e]) == Next(u, e);
    AfterSplits(s, es, [e]);
    fs, v := es + [e], Next(u, e);
  }

  // ----- what a thread goes through -----

  predicate In(u: State, t: (nat, nat), th: Thread) { t in u.threads && u.threads[t] == th }

  /** The first turn after Looking: the record is new, or a retry has come. */
  lemma Calls(s: State, es: seq<Event>, u: State, t: (nat, nat), lid: nat) returns (fs: seq<Event>, v: State)
    requires Leads(s, es, u) && In(u, t, Looking(lid)) && Known(u, t.0, lid)
    requires var l := u.table[(t.0, lid)]; l.state == NONE || (l.state == ACQUIRING && l.retry)
    ensures Leads(s, fs, v)
    ensures var x := XidOf(u, t.0);
            v == u.(threads := u.threads[t := Calling(lid)], xids := u.xids[t.0 := x + 1],
                    table := u.table[(t.0, lid) := Lock(ACQUIRING, u.table[(t.0, lid)].revoked, false, x)])
  {
    hide Leads;
    fs, v := Go(s, es, u, Turn(t));
  }

  lemma Asks(s: State, es: seq<Event>, u: State, t: (nat, nat), lid: nat) returns (fs: seq<Event>, v: State)
    requires Leads(s, es, u) && In(u, t, Idle)
    requires Known(u, t.0, lid) ==> u.table[(t.0, lid)].state == ACQUIRING && u.table[(t.0, lid)].retry
    ensures Leads(s, fs, v)
    ensures var x := XidOf(u, t.0);
            var revoked := Known(u, t.0, lid) && u.table[(t.0, lid)].revoked;
            v == u.(threads := u.threads[t := Calling(lid)], xids := u.xids[t.0 := x + 1],
                    table := u.table[(t.0, lid) := Lock(ACQUIRING, revoked, false, x)])
  {
    hide Leads;
    fs, v := Go(s, es, u, Acquire(t, lid));
    hide Next;
    fs, v := Calls(s, fs, v, t, lid);
    assert v.threads == u.threads[t := Calling(lid)];
  }

  lemma Gets(s: State, es: seq<Event>, u: State, t: (nat, nat), lid: nat) returns (fs: seq<Event>, v: State)
    requires Leads(s, es, u) && In(u, t, Calling(lid)) && Known(u, t.0, lid) && lid !in u.owner
    ensures Leads(s, fs, v)
    ensures v == u.(threads := u.threads[t := Holding(lid)], owner := u.owner[lid := t.0],
                    table := u.table[(t.0, lid) := u.table[(t.0, lid)].(state := LOCKED)])
  {
    hide Leads;
    fs, v := Go(s, es, u, ServerGrant(t));
    fs, v := Go(s, fs, v, GotReply(t));
    assert v.threads == u.threads[t := Holding(lid)];
  }

  lemma IsRevoked(s: State, es: seq<Event>, u: State, t: (nat, nat), lid: nat) returns (fs: seq<Event>, v: State)
    requires Leads(s, es, u) && In(u, t, Holding(lid)) && Known(u, t.0, lid) && u.table[(t.0, lid)].state == LOCKED
    ensures Leads(s, fs, v)
    ensures v == u.(threads := u.threads[t := Flushing(lid)],
                    table := u.table[(t.0, lid) := u.table[(t.0, lid)].(state := RELEASING, revoked := false)])
  {
    hide Leads;
    fs, v := Go(s, es, u, RevokeQueued(t.0, lid, u.table[(t.0, lid)].xid));
    fs, v := Go(s, fs, v, Release(t));
  }

  /** The holder is asked for the lock and gives it back; its release call has not returned. */
  lemma GivesBack(s: State, es: seq<Event>, u: State, t: (nat, nat), lid: nat) returns (fs: seq<Event>, v: State)
    requires Leads(s, es, u) && In(u, t, Holding(lid)) && Known(u, t.0, lid) && u.table[(t.0, lid)].state == LOCKED
    requires lid in u.owner && u.owner[lid] == t.0 && (t.0, lid) !in u.cache
    ensures Leads(s, fs, v)
    ensures v == u.(threads := u.threads[t := Returning(lid)], owner := u.owner - {lid},
                    table := u.table[(t.0, lid) := u.table[(t.0, lid)].(state := RELEASING, revoked := false)])
  {
    hide Leads;
    fs, v := IsRevoked(s, es, u, t, lid);
    fs, v := Go(s, fs, v, FlushIt(t));
    assert v.cache == u.cache && v.store == u.store;
    fs, v := Go(s, fs, v, ServerRelease(t));
    assert v.threads == u.threads[t := Returning(lid)];
  }

  // ----- the run -----

  const THREADS: set<(nat, nat)> := {(1, 1), (1, 2), (2, 1)}

  function Three(a: Thread, b: Thread, c: Thread): map<(nat, nat), Thread> {
    map[(1, 1) := a, (1, 2) := b, (2, 1) := c]
  }

  /** Lock 5, no extents and nothing late; x is client 1's xid. */
  predicate Shape(s: State, owner: map<nat, nat>, table: map<(nat, nat), Lock>, x: nat,
                  threads: map<(nat, nat), Thread>) {
    && s.owner == owner && s.table == table && XidOf(s, 1) == x
    && s.threads == threads && s.cache == map[] && s.queues == map[] && s.lateReleases == {}
  }

  function Two(l1: Lock, l2: Lock): map<(nat, nat), Lock> { map[(1, 5) := l1, (2, 5) := l2] }

  const GONE := Lock(NONE, false, false, 0)

  /** Client 2 gets the lock. */
  lemma OtherHolds() returns (es: seq<Event>, u: State)
    ensures Leads(Init(THREADS, map[]), es, u)
    ensures Shape(u, map[5 := 2], map[(2, 5) := Lock(LOCKED, false, false, 0)], 0, Three(Idle, Idle, Holding(5)))
  {
    var s := Init(THREADS, map[]);
    assert Leads(s, [], s);
    assert Shape(s, map[], map[], 0, Three(Idle, Idle, Idle));
    hide Leads, Init;
    es, u := Asks(s, [], s, (2, 1), 5);
    es, u := Gets(s, es, u, (2, 1), 5);
  }

  lemma FirstAsks(s: State, es: seq<Event>, u: State) returns (fs: seq<Event>, v: State)
    requires Leads(s, es, u)
    requires Shape(u, map[5 := 2], map[(2, 5) := Lock(LOCKED, false, false, 0)], 0, Three(Idle, Idle, Holding(5)))
    ensures Leads(s, fs, v)
    ensures Shape(v, map[5 := 2], Two(Lock(ACQUIRING, false, false, 0), Lock(LOCKED, false, false, 0)), 1,
                  Three(Calling(5), Idle, Holding(5)))
  {
    hide Leads;
    fs, v := Asks(s, es, u, (1, 1), 5);
  }

  lemma FirstIsDenied(s: State, es: seq<Event>, u: State) returns (fs: seq<Event>, v: State)
    requires Leads(s, es, u)
    requires Shape(u, map[5 := 2], Two(Lock(ACQUIRING, false, false, 0), Lock(LOCKED, false, false, 0)), 1,
                   Three(Calling(5), Idle, Holding(5)))
    ensures Leads(s, fs, v)
    ensures Shape(v, map[5 := 2], Two(Lock(ACQUIRING, false, false, 0), Lock(LOCKED, false, false, 0)), 1,
                  Three(Denied(5), Idle, Holding(5)))
  {
    hide Leads, Two;
    fs, v := IsDenied(s, es, u, (1, 1), 5);
  }

  /** Client 2 is asked for the lock and gives it back. */
  lemma OtherGivesBack(s: State, es: seq<Event>, u: State) returns (fs: seq<Event>, v: State)
    requires Leads(s, es, u)
    requires Shape(u, map[5 := 2], Two(Lock(ACQUIRING, false, false, 0), Lock(LOCKED, false, false, 0)), 1,
                   Three(Denied(5), Idle, Holding(5)))
    ensures Leads(s, fs, v)
    ensures Shape(v, map[], Two(Lock(ACQUIRING, false, false, 0), GONE), 1, Three(Denied(5), Idle, Idle))
  {
    hide Leads;
    fs, v := GivesBack(s, es, u, (2, 1), 5);
    fs, v := Returns(s, fs, v, (2, 1), 5);
  }

  lemma IsDenied(s: State, es: seq<Event>, u: State, t: (nat, nat), lid: nat) returns (fs: seq<Event>, v: State)
    requires Leads(s, es, u) && In(u, t, Calling(lid))
    ensures Leads(s, fs, v) && v == u.(threads := u.threads[t := Denied(lid)])
  {
    fs, v := Go(s, es, u, ServerDeny(t));
  }

  lemma Returns(s: State, es: seq<Event>, u: State, t: (nat, nat), lid: nat) returns (fs: seq<Event>, v: State)
    requires Leads(s, es, u) && In(u, t, Returning(lid)) && Known(u, t.0, lid)
    ensures Leads(s, fs, v)
    ensures v == u.(threads := u.threads[t := Idle],
                    table := u.table[(t.0, lid) := u.table[(t.0, lid)].(state := NONE)])
  {
    fs, v := Go(s, es, u, ReleaseReturns(t));
  }

  lemma TimesOut(s: State, es: seq<Event>, u: State, t: (nat, nat), lid: nat) returns (fs: seq<Event>, v: State)
    requires Leads(s, es, u) && In(u, t, Denied(lid)) && Known(u, t.0, lid)
    ensures Leads(s, fs, v)
    ensures v == u.(threads := u.threads[t := Looking(lid)],
                    table := u.table[(t.0, lid) := u.table[(t.0, lid)].(retry := true)])
  {
    fs, v := Go(s, es, u, TimeOut(t));
  }

  lemma IsTold(s: State, es: seq<Event>, u: State, c: nat, lid: nat) returns (fs: seq<Event>, v: State)
    requires Leads(s, es, u) && Known(u, c, lid)
    ensures Leads(s, fs, v) && v == u.(table := u.table[(c, lid) := u.table[(c, lid)].(retry := true)])
  {
    fs, v := Go(s, es, u, RetryMsg(c, lid));
  }

  /** The first thread's wait times out and it asks again. */
  lemma FirstAsksAgain(s: State, es: seq<Event>, u: State) returns (fs: seq<Event>, v: State)
    requires Leads(s, es, u)
    requires Shape(u, map[], Two(Lock(ACQUIRING, false, false, 0), GONE), 1, Three(Denied(5), Idle, Idle))
    ensures Leads(s, fs, v)
    ensures Shape(v, map[], Two(Lock(ACQUIRING, false, false, 1), GONE), 2, Three(Calling(5), Idle, Idle))
  {
    hide Leads;
    fs, v := TimesOut(s, es, u, (1, 1), 5);
    fs, v := Calls(s, fs, v, (1, 1), 5);
  }

  /** The retry message that the first thread's denial led to comes only now, so the second thread
      asks as well. */
  lemma SecondAsks(s: State, es: seq<Event>, u: State) returns (fs: seq<Event>, v: State)
    requires Leads(s, es, u)
    requires Shape(u, map[], Two(Lock(ACQUIRING, false, false, 1), GONE), 2, Three(Calling(5), Idle, Idle))
    ensures Leads(s, fs, v)
    ensures Shape(v, map[], Two(Lock(ACQUIRING, false, false, 2), GONE), 3, Three(Calling(5), Calling(5), Idle))
  {
    hide Leads;
    fs, v := IsTold(s, es, u, 1, 5);
    fs, v := Asks(s, fs, v, (1, 2), 5);
  }

  /** The second thread gets the lock, is asked for it under the xid it was granted under, and gives
      it back; its release call has not returned. */
  lemma SecondGivesBack(s: State, es: seq<Event>, u: State) returns (fs: seq<Event>, v: State)
    requires Leads(s, es, u)
    requires Shape(u, map[], Two(Lock(ACQUIRING, false, false, 2), GONE), 3, Three(Calling(5), Calling(5), Idle))
    ensures Leads(s, fs, v)
    ensures Shape(v, map[], Two(Lock(RELEASING, false, false, 2), GONE), 3, Three(Calling(5), Returning(5), Idle))
  {
    hide Leads;
    fs, v := Gets(s, es, u, (1, 2), 5);
    fs, v := GivesBack(s, fs, v, (1, 2), 5);
  }

  /** The first gets and caches the lock; then the second's release call returns. */
  lemma OldReturnLoses(s: State, es: seq<Event>, u: State) returns (fs: seq<Event>, v: State)
    requires Leads(s, es, u)
    requires Shape(u, map[], Two(Lock(RELEASING, false, false, 2), GONE), 3, Three(Calling(5), Returning(5), Idle))
    ensures Leads(s, fs, v)
    ensures Shape(v, map[5 := 1], Two(Lock(NONE, false, false, 2), GONE), 3, Three(Idle, Idle, Idle))
  {
    hide Leads;
    fs, v := Gets(s, es, u, (1, 1), 5);
    fs, v := Keeps(s, fs, v, (1, 1), 5);
    fs, v := Returns(s, fs, v, (1, 2), 5);
  }

  lemma Keeps(s: State, es: seq<Event>, u: State, t: (nat, nat), lid: nat) returns (fs: seq<Event>, v: State)
    requires Leads(s, es, u) && In(u, t, Holding(lid)) && Known(u, t.0, lid) && !u.table[(t.0, lid)].revoked
    ensures Leads(s, fs, v)
    ensures v == u.(threads := u.threads[t := Idle],
                    table := u.table[(t.0, lid) := u.table[(t.0, lid)].(state := FREE)])
  {
    fs, v := Go(s, es, u, Release(t));
  }

  lemma LostAtEnd(s: State)
    requires Shape(s, map[5 := 1], Two(Lock(NONE, false, false, 2), GONE), 3, Three(Idle, Idle, Idle))
    ensures Nowhere(s, 5)
  {
  }

  /** No call fails, the server has the client as owner, and the lock is in no place. */
  lemma LockCanBeLost() returns (es: seq<Event>)
    ensures AnyRun(Init(THREADS, map[]), es) && forall e | e in es :: Calm(e)
    ensures var s := After(Init(THREADS, map[]), es); Nowhere(s, 5) && s.owner == map[5 := 1]
  {
    var s, u := Init(THREADS, map[]), Init(THREADS, map[]);
    hide At, Init, Three, Two;
    es, u := OtherHolds();
    es, u := FirstAsks(s, es, u);
    es, u := FirstIsDenied(s, es, u);
    es, u := OtherGivesBack(s, es, u);
    es, u := FirstAsksAgain(s, es, u);
    es, u := SecondAsks(s, es, u);
    es, u := SecondGivesBack(s, es, u);
    es, u := OldReturnLoses(s, es, u);
    LostAtEnd(u);
  }
}
