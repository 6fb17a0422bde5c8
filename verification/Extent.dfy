/** The write-back extent cache of one client: each operation on one extent as a function of the
    cache entry and the content the server stores, and the object that runs them in place.
    Timestamps are left out; an attribute is the size. */
module Extent {
  import opened Options

  datatype ExtentState = DIRTY | REMOVE | NONE | CONSISTENT

  datatype Entry = Entry(buf: string, size: nat, state: ExtentState)

  datatype Status = OK | NOENT

  function Put(e: Option<Entry>, buf: string): (Option<Entry>, Status) {
    if e.Some? && e.value.state == REMOVE then (e, NOENT)
    else (Some(Entry(buf, |buf|, DIRTY)), OK)
  }

  function Get(e: Option<Entry>, stored: Option<string>): (Option<Entry>, Option<string>) {
    if e.None? || e.value.state == NONE then
      if stored.None? then (e, None)
      else (Some(Entry(stored.value, |stored.value|, CONSISTENT)), stored)
    else if e.value.state == REMOVE then (e, None)
    else (e, Some(e.value.buf))
  }

  function GetAttr(e: Option<Entry>, stored: Option<string>): (Option<Entry>, Option<nat>) {
    if e.None? then
      if stored.None? then (e, None)
      else (Some(Entry("", |stored.value|, NONE)), Some(|stored.value|))
    else if e.value.state == REMOVE then (e, None)
    else (e, Some(e.value.size))
  }

  function Remove(e: Option<Entry>): (Option<Entry>, Status) {
    if e.Some? && e.value.state == REMOVE then (e, NOENT)
    else (Some(if e.Some? then e.value.(state := REMOVE) else Entry("", 0, REMOVE)), OK)
  }

  /** The entry is dropped; what the server stores afterwards. */
  function Flush(e: Option<Entry>, stored: Option<string>): Option<string> {
    if e.None? then stored
    else if e.value.state == DIRTY then Some(e.value.buf)
    else if e.value.state == REMOVE then None
    else stored
  }

  // ----- the plain store the cache stands for -----

  /** What a user of the cache sees as the extent's content. */
  function Content(e: Option<Entry>, stored: Option<string>): Option<string> {
    if e.None? || e.value.state == NONE then stored
    else if e.value.state == REMOVE then None
    else Some(e.value.buf)
  }

  /** Clean entries match the server; sizes match contents. */
  predicate Coherent(e: Option<Entry>, stored: Option<string>) {
    e.Some? ==>
      && (e.value.state == CONSISTENT ==> stored == Some(e.value.buf))
      && (e.value.state == NONE ==> stored.Some? && e.value.size == |stored.value|)
      && (e.value.state == DIRTY || e.value.state == CONSISTENT ==> e.value.size == |e.value.buf|)
  }

  /** put writes the content; only an extent removed and not yet flushed refuses it. */
  lemma PutIsWrite(e: Option<Entry>, stored: Option<string>, buf: string)
    requires Coherent(e, stored)
    ensures var (e', st) := Put(e, buf);
            && Coherent(e', stored)
            && (st == OK <==> !(e.Some? && e.value.state == REMOVE))
            && Content(e', stored) == (if st == OK then Some(buf) else Content(e, stored))
  {
  }

  /** get returns the content and changes nothing a user can see. */
  lemma GetIsRead(e: Option<Entry>, stored: Option<string>)
    requires Coherent(e, stored)
    ensures var (e', r) := Get(e, stored);
            Coherent(e', stored) && r == Content(e, stored) && Content(e', stored) == Content(e, stored)
  {
  }

  lemma GetAttrIsSize(e: Option<Entry>, stored: Option<string>)
    requires Coherent(e, stored)
    ensures var (e', r) := GetAttr(e, stored);
            && Coherent(e', stored) && Content(e', stored) == Content(e, stored)
            && (r.None? <==> Content(e, stored).None?)
            && (r.Some? ==> r.value == |Content(e, stored).value|)
  {
  }

  lemma RemoveIsDelete(e: Option<Entry>, stored: Option<string>)
    requires Coherent(e, stored)
    ensures var (e', st) := Remove(e);
            && Coherent(e', stored) && Content(e', stored) == None
            && (st == NOENT <==> e.Some? && e.value.state == REMOVE)
  {
  }

  /** flush moves the content to the server: nothing a user sees changes, and no entry is left. */
  lemma FlushKeepsContent(e: Option<Entry>, stored: Option<string>)
    requires Coherent(e, stored)
    ensures Flush(e, stored) == Content(e, stored) && Content(None, Flush(e, stored)) == Content(e, stored)
  {
  }

  predicate Clean(e: Option<Entry>) { e.None? || e.value.state == NONE || e.value.state == CONSISTENT }

  /** Reading makes nothing to write back: whatever the server stores by then, a flush leaves it. */
  lemma ReadingWritesNothing(e: Option<Entry>, stored: Option<string>, later: Option<string>)
    requires Clean(e)
    ensures Clean(Get(e, stored).0) && Flush(Get(e, stored).0, later) == later
    ensures Clean(GetAttr(e, stored).0) && Flush(GetAttr(e, stored).0, later) == later
  {
  }

  // ----- whole histories against the plain store -----

  datatype Op = DoPut(buf: string) | DoGet | DoGetAttr | DoRemove | DoFlush

  datatype Answer = Wrote(ok: bool) | Read(content: Option<string>) | Sized(size: Option<nat>) | Flushed

  function CacheStep(e: Option<Entry>, stored: Option<string>, op: Op): (Option<Entry>, Option<string>, Answer) {
    match op
    case DoPut(buf) => var (e', st) := Put(e, buf); (e', stored, Wrote(st == OK))
    case DoGet => var (e', r) := Get(e, stored); (e', stored, Read(r))
    case DoGetAttr => var (e', r) := GetAttr(e, stored); (e', stored, Sized(r))
    case DoRemove => var (e', st) := Remove(e); (e', stored, Wrote(st == OK))
    case DoFlush => (None, Flush(e, stored), Flushed)
  }

  /** The plain store: the content, and whether a removal awaits the next flush. */
  function StoreStep(content: Option<string>, gone: bool, op: Op): (Option<string>, bool, Answer) {
    match op
    case DoPut(buf) => if gone then (content, gone, Wrote(false)) else (Some(buf), false, Wrote(true))
    case DoGet => (content, gone, Read(content))
    case DoGetAttr => (content, gone, Sized(if content.None? then None else Some(|content.value|)))
    case DoRemove => (None, true, Wrote(!gone))
    case DoFlush => (content, false, Flushed)
  }

  function CacheRun(e: Option<Entry>, stored: Option<string>, ops: seq<Op>): seq<Answer>
    decreases |ops|
  {
    if ops == [] then []
    else
      var (e', stored', a) := CacheStep(e, stored, ops[0]);
      [a] + CacheRun(e', stored', ops[1..])
  }

  function StoreRun(content: Option<string>, gone: bool, ops: seq<Op>): seq<Answer>
    decreases |ops|
  {
    if ops == [] then []
    else
      var (content', gone', a) := StoreStep(content, gone, ops[0]);
      [a] + StoreRun(content', gone', ops[1..])
  }

  predicate Gone(e: Option<Entry>) { e.Some? && e.value.state == REMOVE }

  lemma StepRefines(e: Option<Entry>, stored: Option<string>, op: Op)
    requires Coherent(e, stored)
    ensures var (e', stored', a) := CacheStep(e, stored, op);
            && Coherent(e', stored')
            && StoreStep(Content(e, stored), Gone(e), op) == (Content(e', stored'), Gone(e'), a)
  {
  }

  /** For every sequence of operations the cache answers exactly as the plain store does. */
  lemma {:induction false} CacheRefinesStore(e: Option<Entry>, stored: Option<string>, ops: seq<Op>)
    requires Coherent(e, stored)
    ensures CacheRun(e, stored, ops) == StoreRun(Content(e, stored), Gone(e), ops)
    decreases |ops|
  {
    if ops == [] {
    } else {
      var (e', stored', a) := CacheStep(e, stored, ops[0]);
      StepRefines(e, stored, ops[0]);
      CacheRefinesStore(e', stored', ops[1..]);
      hide CacheStep, StoreStep, Content, Coherent;
    }
  }

  // ----- the cache object -----

  class ExtentCache {
    var entries: map<nat, Entry>

    function At(eid: nat): Option<Entry>
      reads this
    {
      if eid in entries then Some(entries[eid]) else None
    }

    constructor ()
      ensures entries == map[]
    {
      entries := map[];
    }

    method PutExtent(eid: nat, buf: string) returns (ret: Status)
      modifies this
      ensures (At(eid), ret) == Put(old(At(eid)), buf)
      ensures forall d | d != eid :: At(d) == old(At(d))
    {
      if eid in entries && entries[eid].state == REMOVE { return NOENT; }
      entries := entries[eid := Entry(buf, |buf|, DIRTY)];
      ret := OK;
    }

    method GetExtent(eid: nat, stored: Option<string>) returns (buf: Option<string>)
      modifies this
      ensures (At(eid), buf) == Get(old(At(eid)), stored)
      ensures forall d | d != eid :: At(d) == old(At(d))
    {
      if eid !in entries || entries[eid].state == NONE {
        if stored.None? { return None; }
        buf := stored;
        entries := entries[eid := Entry(buf.value, |buf.value|, CONSISTENT)];
      } else if entries[eid].state == REMOVE {
        buf := None;
      } else {
        buf := Some(entries[eid].buf);
      }
    }

    method GetAttrExtent(eid: nat, stored: Option<string>) returns (size: Option<nat>)
      modifies this
      ensures (At(eid), size) == GetAttr(old(At(eid)), stored)
      ensures forall d | d != eid :: At(d) == old(At(d))
    {
      if eid !in entries {
        if stored.None? { return None; }
        size := Some(|stored.value|);
        entries := entries[eid := Entry("", |stored.value|, NONE)];
      } else {
        if entries[eid].state == REMOVE { return None; }
        size := Some(entries[eid].size);
      }
    }

    method RemoveExtent(eid: nat) returns (ret: Status)
      modifies this
      ensures (At(eid), ret) == Remove(old(At(eid)))
      ensures forall d | d != eid :: At(d) == old(At(d))
    {
      if eid !in entries { entries := entries[eid := Entry("", 0, DIRTY)]; }
      if entries[eid].state == REMOVE { return NOENT; }
      entries := entries[eid := entries[eid].(state := REMOVE)];
      ret := OK;
    }

    method FlushExtent(eid: nat, stored: Option<string>) returns (stored': Option<string>)
      modifies this
      ensures At(eid) == None && stored' == Flush(old(At(eid)), stored)
      ensures forall d | d != eid :: At(d) == old(At(d))
    {
      stored' := stored;
      if eid in entries {
        if entries[eid].state == DIRTY {
          stored' := Some(entries[eid].buf);
        } else if entries[eid].state == REMOVE {
          stored' := None;
        }
        entries := entries - {eid};
      }
    }
  }
}
