/** A lost lock stays lost, so a run ends with the lock in a place exactly when no step of it was
    a losing one. */
module LockLoss {
  import opened LockSystem
  import opened LockProofs
  import opened LockTheorems

  /** The lock is in no place: nobody has it and the server will not grant it. */
  ghost predicate Nowhere(s: State, lid: nat) { forall a :: !At(s, lid, a) }

  // ----- what a step finds was somewhere before it -----

  lemma QuietFinds(s: State, u: State, lid: nat, b: Loc)
    requires Quiet(s, u) && At(u, lid, b)
    ensures !Nowhere(s, lid)
  {
    assert At(s, lid, b);
  }

  lemma TurnFinds(s: State, t: (nat, nat), lid: nat, b: Loc)
    requires Enabled(s, Turn(t)) && At(Next(s, Turn(t)), lid, b)
    ensures !Nowhere(s, lid)
  {
    assert At(s, lid, b) || At(s, lid, Cached(t.0));
  }

  lemma GrantFinds(s: State, t: (nat, nat), lid: nat, b: Loc)
    requires Enabled(s, ServerGrant(t)) && At(Next(s, ServerGrant(t)), lid, b)
    ensures !Nowhere(s, lid)
  {
    assert At(s, lid, b) || At(s, lid, Server);
  }

  lemma ReplyFinds(s: State, t: (nat, nat), lid: nat, b: Loc)
    requires Enabled(s, GotReply(t)) && At(Next(s, GotReply(t)), lid, b)
    ensures !Nowhere(s, lid)
  {
    assert At(s, lid, b) || At(s, lid, Reply(t));
  }

  lemma ReleaseFinds(s: State, t: (nat, nat), lid: nat, b: Loc)
    requires Enabled(s, Release(t)) && At(Next(s, Release(t)), lid, b)
    ensures !Nowhere(s, lid)
  {
    assert At(s, lid, b) || At(s, lid, Hand(t));
  }

  lemma FlushFinds(s: State, t: (nat, nat), lid: nat, b: Loc)
    requires Enabled(s, FlushIt(t)) && At(Next(s, FlushIt(t)), lid, b)
    ensures !Nowhere(s, lid)
  {
    assert At(s, lid, b) || At(s, lid, Giving(t));
  }

  lemma FreedFinds(s: State, t: (nat, nat), lid: nat, b: Loc)
    requires Enabled(s, ServerRelease(t)) && At(Next(s, ServerRelease(t)), lid, b)
    ensures !Nowhere(s, lid)
  {
    assert At(s, lid, b) || At(s, lid, InCall(t));
  }

  lemma FailedFinds(s: State, t: (nat, nat), forget: bool, lid: nat, b: Loc)
    requires Enabled(s, ReleaseFails(t, forget)) && At(Next(s, ReleaseFails(t, forget)), lid, b)
    ensures !Nowhere(s, lid)
  {
    assert At(s, lid, b) || At(s, lid, InCall(t));
  }

  lemma LateGrantFinds(s: State, l: Late, lid: nat, b: Loc)
    requires Enabled(s, LateGrant(l)) && At(Next(s, LateGrant(l)), lid, b)
    ensures !Nowhere(s, lid)
  {
    assert At(s, lid, b);
  }

  lemma LateReleaseFinds(s: State, l: Late, lid: nat, b: Loc)
    requires Enabled(s, LateRelease(l)) && At(Next(s, LateRelease(l)), lid, b)
    ensures !Nowhere(s, lid)
  {
    assert At(s, lid, b) || At(s, lid, InLate(l));
  }

  lemma RevokeFinds(s: State, c: nat, x: nat, xid: nat, lid: nat, b: Loc)
    requires Enabled(s, RevokeQueued(c, x, xid)) && At(Next(s, RevokeQueued(c, x, xid)), lid, b)
    ensures !Nowhere(s, lid)
  {
    var u := Next(s, RevokeQueued(c, x, xid));
    assert QueueOf(u, c) == QueueOf(s, c) || QueueOf(u, c) == QueueOf(s, c) + [(x, xid)];
    assert At(s, lid, b) || At(s, lid, Cached(c));
  }

  lemma InlineFinds(s: State, t: (nat, nat), x: nat, lid: nat, b: Loc)
    requires Enabled(s, RevokeInline(t, x)) && At(Next(s, RevokeInline(t, x)), lid, b)
    ensures !Nowhere(s, lid)
  {
    assert At(s, lid, b) || At(s, lid, Cached(t.0));
  }

  lemma DequeueFinds(s: State, t: (nat, nat), lid: nat, b: Loc)
    requires Enabled(s, Dequeue(t)) && At(Next(s, Dequeue(t)), lid, b)
    ensures !Nowhere(s, lid)
  {
    assert QueueOf(Next(s, Dequeue(t)), t.0) == QueueOf(s, t.0)[1..];
    assert At(s, lid, Before(b, t));
  }

  lemma StepFinds(s: State, e: Event, lid: nat, b: Loc)
    requires Enabled(s, e) && At(Next(s, e), lid, b)
    ensures !Nowhere(s, lid)
  {
    hide Next, At, Nowhere, Quiet;
    var u := Next(s, e);
    match e
    case Acquire(t, x) => AcquireWaits(s, t, x); QuietFinds(s, u, lid, b);
    case Turn(t) => TurnFinds(s, t, lid, b);
    case ServerGrant(t) => GrantFinds(s, t, lid, b);
    case ServerDeny(t) => DenyWaits(s, t); QuietFinds(s, u, lid, b);
    case TimeOut(t) => TimeOutWaits(s, t); QuietFinds(s, u, lid, b);
    case GotReply(t) => ReplyFinds(s, t, lid, b);
    case CallFails(t) => FailWaits(s, t); QuietFinds(s, u, lid, b);
    case ReplyLost(t) => LostWaits(s, t); QuietFinds(s, u, lid, b);
    case Wake(t) => WakeWaits(s, t); QuietFinds(s, u, lid, b);
    case Release(t) => ReleaseFinds(s, t, lid, b);
    case FlushIt(t) => FlushFinds(s, t, lid, b);
    case ServerRelease(t) => FreedFinds(s, t, lid, b);
    case ReleaseFails(t, forget) => FailedFinds(s, t, forget, lid, b);
    case ReleaseReturns(t) => ReturnWaits(s, t); QuietFinds(s, u, lid, b);
    case LateGrant(l) => LateGrantFinds(s, l, lid, b);
    case LateRelease(l) => LateReleaseFinds(s, l, lid, b);
    case RevokeQueued(c, x, xid) => RevokeFinds(s, c, x, xid, lid, b);
    case RevokeInline(t, x) => InlineFinds(s, t, x, lid, b);
    case RetryMsg(c, x) => RetryWaits(s, c, x); QuietFinds(s, u, lid, b);
    case Dequeue(t) => DequeueFinds(s, t, lid, b);
    case _ => UseFinds(s, e, lid, b);
  }

  lemma UseFinds(s: State, e: Event, lid: nat, b: Loc)
    requires Enabled(s, e) && Uses(e) && At(Next(s, e), lid, b)
    ensures !Nowhere(s, lid)
  {
    UseFrame(s, e);
    hide Next;
    QuietFinds(s, Next(s, e), lid, b);
  }

  lemma StepFindsNothing(s: State, e: Event, lid: nat)
    requires Enabled(s, e) && Nowhere(s, lid)
    ensures Nowhere(Next(s, e), lid)
  {
    hide Next, Enabled, At;
    forall b ensures !At(Next(s, e), lid, b) {
      if At(Next(s, e), lid, b) { StepFinds(s, e, lid, b); }
    }
  }

  // ----- whole runs -----

  predicate NoLoss(s: State, es: seq<Event>, lid: nat)
    requires AnyRun(s, es)
    decreases |es|
  {
    es == [] || (!Loses(s, es[0], lid) && NoLoss(Next(s, es[0]), es[1..], lid))
  }

  lemma {:induction false} LostStaysLost(s: State, es: seq<Event>, lid: nat)
    requires AnyRun(s, es) && Nowhere(s, lid)
    ensures Nowhere(After(s, es), lid)
    decreases |es|
  {
    hide Next, Enabled, Nowhere;
    if es == [] {
      assert After(s, es) == s;
    } else {
      StepFindsNothing(s, es[0], lid);
      LostStaysLost(Next(s, es[0]), es[1..], lid);
    }
  }

  lemma {:induction false} LossIsForGood(s: State, es: seq<Event>, lid: nat, a: Loc)
    requires Inv(s) && AnyRun(s, es) && At(s, lid, a)
    ensures NoLoss(s, es, lid) <==> !Nowhere(After(s, es), lid)
    decreases |es|
  {
    hide Inv, Next, Enabled, Loses, At, Where;
    if es == [] {
      assert After(s, es) == s;
    } else {
      LostExactlyWhen(s, es[0], lid, a);
      if Loses(s, es[0], lid) {
        LostStaysLost(Next(s, es[0]), es[1..], lid);
      } else {
        StepKeepsInv(s, es[0]);
        LossIsForGood(Next(s, es[0]), es[1..], lid, Where(s, es[0], lid, a));
      }
    }
  }

  /** In every run: the lock ends in a place, and then in exactly one, if and only if no step of
      the run was a losing one. */
  lemma ConservedExactlyWhen(threads: set<(nat, nat)>, store: map<nat, string>, es: seq<Event>, lid: nat)
    requires AnyRun(Init(threads, store), es)
    ensures NoLoss(Init(threads, store), es, lid) <==>
            exists a :: At(After(Init(threads, store), es), lid, a)
    ensures forall a, b | At(After(Init(threads, store), es), lid, a) && At(After(Init(threads, store), es), lid, b) ::
              a == b
  {
    var s := Init(threads, store);
    InitHolds(threads, store);
    LossIsForGood(s, es, lid, Server);
    RunKeepsInv(s, es);
    hide AnyRun, After, NoLoss;
  }
}
