/** The caching lock client: what each critical section does to a lock record, as functions and
    as the object that keeps the records, the xid counter and the release queue. */
module LockClient {
  datatype LockState = NONE | FREE | LOCKED | ACQUIRING | RELEASING

  datatype Lock = Lock(state: LockState, revoked: bool, retry: bool, xid: nat)

  const NEW_LOCK := Lock(NONE, false, false, 0)

  /** What a thread in acquire() does after looking at the record: call the server under a fresh
      xid, return with the lock, or wait. */
  datatype Action = Call(xid: nat) | Return | Wait

  function Look(l: Lock, xid: nat): (Lock, Action) {
    match l.state
    case NONE => (l.(state := ACQUIRING, retry := false, xid := xid), Call(xid))
    case FREE => (l.(state := LOCKED), Return)
    case LOCKED => (l, Wait)
    case ACQUIRING => if l.retry then (l.(retry := false, xid := xid), Call(xid)) else (l, Wait)
    case RELEASING => (l, Wait)
  }

  /** The server granted the lock. */
  function Grant(l: Lock): Lock { l.(state := LOCKED) }

  /** release(): true when the lock must go back to the server now. */
  function LetGo(l: Lock): (Lock, bool) {
    if l.revoked then (l.(revoked := false, state := RELEASING), true) else (l.(state := FREE), false)
  }

  /** The release call returned. */
  function Forget(l: Lock): Lock { l.(state := NONE) }

  /** A revoke that passed the checks: true when a free lock must go back to the server. */
  function Revoke(l: Lock): (Lock, bool) {
    if l.state == FREE then (l.(state := RELEASING), true) else (l.(revoked := true), false)
  }

  function Retry(l: Lock): Lock { l.(retry := true) }

  /** A revoke is not forgotten: a free lock goes back at once; any other goes back at the next
      release, also when the revoke comes before the grant, and that release uses it up. */
  lemma RevokeIsRemembered(l: Lock)
    ensures Revoke(l).1 <==> l.state == FREE
    ensures !Revoke(l).1 ==> LetGo(Revoke(l).0).1 && LetGo(Grant(Revoke(l).0)).1 && Revoke(l).0.state == l.state
    ensures !LetGo(l).0.revoked && !LetGo(Grant(LetGo(l).0)).1
    ensures Revoke(l).0.xid == l.xid && Revoke(l).0.retry == l.retry
  {
  }

  class LockClientCache {
    var table: map<nat, Lock>
    var xid: nat
    var queue: seq<(nat, nat)>

    constructor ()
      ensures table == map[] && xid == 0 && queue == []
    {
      table, xid, queue := map[], 0, [];
    }

    /** First lines of acquire(): afterwards the lock has a record. Records that were there stay
        as they are; on a new one the first turn calls the server and no revoke has an effect. */
    method Enter(lid: nat)
      modifies this`table
      ensures table.Keys == old(table).Keys + {lid}
      ensures forall x | x in old(table) :: table[x] == old(table)[x]
      ensures lid !in old(table) ==>
                && Look(table[lid], xid) == (table[lid].(state := ACQUIRING, xid := xid), Call(xid))
                && table[lid].state == NONE && !table[lid].revoked
    {
      if lid !in table { table := table[lid := NEW_LOCK]; }
    }

    /** One turn of the loop in acquire(). */
    method Turn(lid: nat) returns (act: Action)
      requires lid in table
      modifies this`table, this`xid
      ensures table.Keys == old(table).Keys
      ensures var l := old(table[lid]);
              && (act.Return? <==> l.state == FREE)
              && (act.Call? <==> l.state == NONE || (l.state == ACQUIRING && l.retry))
              && (act.Call? ==> act.xid == old(xid) && table[lid] == Lock(ACQUIRING, l.revoked, false, old(xid)))
              && (act.Return? ==> table[lid] == Lock(LOCKED, l.revoked, l.retry, l.xid))
              && (act.Wait? ==> table[lid] == l)
      ensures var (l, a) := Look(old(table[lid]), old(xid)); table == old(table)[lid := l] && act == a
      ensures xid == old(xid) + (if act.Call? then 1 else 0)
    {
      var l := table[lid];
      match l.state {
        case NONE =>
          table := table[lid := l.(state := ACQUIRING, retry := false, xid := xid)];
          act := Call(xid);
          xid := xid + 1;
        case FREE =>
          table := table[lid := l.(state := LOCKED)];
          act := Return;
        case LOCKED => act := Wait;
        case ACQUIRING =>
          if !l.retry {
            act := Wait;
          } else {
            table := table[lid := l.(retry := false, xid := xid)];
            act := Call(xid);
            xid := xid + 1;
          }
        case RELEASING => act := Wait;
      }
      if act.Wait? { assert table[lid := l] == table; }
    }

    /** None where the lock is unknown; otherwise whether flush and release must follow. */
    method Release(lid: nat) returns (known: bool, give: bool)
      modifies this`table
      ensures table.Keys == old(table).Keys && (known <==> lid in table)
      ensures known ==> (give <==> old(table[lid]).revoked) && !table[lid].revoked
      ensures known ==> table[lid].state == if give then RELEASING else FREE
      ensures known ==> var (l, g) := LetGo(old(table[lid])); table == old(table)[lid := l] && give == g
      ensures !known ==> table == old(table)
    {
      give := false;
      if lid !in table { return false, false; }
      known := true;
      var l := table[lid];
      if l.revoked {
        table := table[lid := l.(revoked := false, state := RELEASING)];
        give := true;
      } else {
        table := table[lid := l.(state := FREE)];
      }
    }

    /** The handler with xids: a free lock is queued for the releaser. False for an error reply. */
    method RevokeHandler(lid: nat, x: nat) returns (ok: bool)
      modifies this`table, this`queue
      ensures ok <==> lid in old(table) && old(table[lid]).state != NONE && old(table[lid]).xid == x
      ensures table.Keys == old(table).Keys
      ensures ok && old(table[lid]).state != FREE ==>
                table[lid] == old(table[lid]).(revoked := true) && queue == old(queue)
      ensures ok && old(table[lid]).state == FREE ==>
                table[lid] == old(table[lid]).(state := RELEASING) && queue == old(queue) + [(lid, x)]
      ensures ok ==> var (l, give) := Revoke(old(table[lid]));
                     table == old(table)[lid := l] && queue == old(queue) + (if give then [(lid, x)] else [])
      ensures !ok ==> table == old(table) && queue == old(queue)
    {
      if lid !in table || table[lid].state == NONE { return false; }
      var l := table[lid];
      if l.xid != x { return false; }
      if l.state == FREE {
        table := table[lid := l.(state := RELEASING)];
        queue := queue + [(lid, x)];
      } else {
        table := table[lid := l.(revoked := true)];
      }
      ok := true;
    }

    method RetryHandler(lid: nat) returns (ok: bool)
      modifies this`table
      ensures table.Keys == old(table).Keys && (ok <==> lid in table)
      ensures ok ==> table[lid].retry
      ensures table == if ok then old(table)[lid := Retry(old(table[lid]))] else old(table)
    {
      if lid !in table { return false; }
      table := table[lid := table[lid].(retry := true)];
      ok := true;
    }
  }
}
