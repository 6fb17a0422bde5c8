/** The Paxos acceptor: its handlers as functions on acceptor states, its durability, and
    the object that runs the handlers in place. */
module Acceptor {
  import opened Options
  import opened Text
  import opened Proposal
  import opened PaxosLog

  /** Acceptor state; `log` holds the records of the log file. */
  datatype Acc = Acc(
    me: string, nh: Prop, na: Prop, va: string,
    ih: nat, values: map<nat, string>, log: seq<Record>)

  datatype PrepareRes = OldInstance(v: string) | Promise(na: Prop, va: string) | Reject

  datatype DecideRes = Fine(acc: Acc) | VerifyFailed

  function Zero(me: string): Prop { Prop(0, me) }

  function Fresh(me: string, file: seq<Record>): Acc {
    Acc(me, Zero(me), Zero(me), "", 0, map[], file)
  }

  /** values[i] of a std::map: the empty text where nothing is stored. */
  function ValueAt(values: map<nat, string>, i: nat): string {
    if i in values then values[i] else ""
  }

  function HandlePrepare(a: Acc, instance: nat, n: Prop): (Acc, PrepareRes) {
    if instance <= a.ih then (a, OldInstance(ValueAt(a.values, instance)))
    else if Greater(n, a.nh) then
      (a.(nh := n, log := a.log + [PropSeen(n)]), Promise(a.na, a.va))
    else (a, Reject)
  }

  /** The instance of an accept request is not looked at. */
  function HandleAccept(a: Acc, instance: nat, n: Prop, v: string): (Acc, bool) {
    if AtLeast(n, a.nh) then (a.(na := n, va := v, log := a.log + [Accepted(n, v)]), true)
    else (a, false)
  }

  function Commit(a: Acc, instance: nat, v: string): Acc {
    if instance > a.ih then
      a.(values := a.values[instance := v], log := a.log + [Done(instance, v)], ih := instance,
         nh := Zero(a.me), na := Zero(a.me), va := "")
    else a
  }

  function HandleDecide(a: Acc, instance: nat, v: string): DecideRes {
    if instance == a.ih + 1 then
      if a.va == v then Fine(Commit(a, instance, a.va)) else VerifyFailed
    else if instance <= a.ih then Fine(a)
    else VerifyFailed
  }

  // ----- reading the log -----

  function Apply(a: Acc, r: Record): Acc {
    match r
    case Done(i, v) =>
      a.(values := a.values[i := v], ih := i, va := "", nh := a.nh.(n := 0), na := a.na.(n := 0))
    case PropSeen(n) => a.(nh := n)
    case Accepted(n, v) => a.(na := n, va := v)
  }

  function ApplyAll(a: Acc, rs: seq<Record>): Acc
    decreases |rs|
  {
    if rs == [] then a else ApplyAll(Apply(a, rs[0]), rs[1..])
  }

  /** Parse the file and write what it says into the acceptor's fields. */
  function LogRead(a: Acc): Acc {
    match ReadLog(PrintLog(a.log))
    case Some(rs) => ApplyAll(a, rs)
    case None => a
  }

  /** Start of a process: read the log; the first node creates the first instance. */
  function Boot(me: string, first: bool, value: string, file: seq<Record>): Acc {
    var a := LogRead(Fresh(me, file));
    if a.ih == 0 && first then
      a.(values := a.values[1 := value], log := a.log + [Done(1, value)], ih := 1)
    else a
  }

  /** Replace the log by another node's dump and read it into the live fields. */
  function Restore(a: Acc, src: Acc): Acc {
    LogRead(a.(log := src.log))
  }

  lemma {:induction false} ApplyAllAppend(a: Acc, rs: seq<Record>, r: Record)
    ensures ApplyAll(a, rs + [r]) == Apply(ApplyAll(a, rs), r)
    decreases |rs|
  {
    if rs == [] {
      assert [r][1..] == [];
    } else {
      ApplyAllAppend(Apply(a, rs[0]), rs[1..], r);
      assert (rs + [r])[1..] == rs[1..] + [r];
    }
  }

  lemma {:induction false} ApplyAllKeepsFile(a: Acc, rs: seq<Record>)
    ensures ApplyAll(a, rs).log == a.log && ApplyAll(a, rs).me == a.me
    ensures forall file :: ApplyAll(a.(log := file), rs) == ApplyAll(a, rs).(log := file)
    decreases |rs|
  {
    if rs == [] {
    } else {
      ApplyAllKeepsFile(Apply(a, rs[0]), rs[1..]);
      forall file ensures ApplyAll(a.(log := file), rs) == ApplyAll(a, rs).(log := file) {
        assert Apply(a.(log := file), rs[0]) == Apply(a, rs[0]).(log := file);
      }
    }
  }

  lemma ReadableLogRead(a: Acc)
    requires forall r | r in a.log :: Readable(r)
    ensures LogRead(a) == ApplyAll(a, a.log)
  {
    ReadLogBack(a.log);
  }

  // ----- durability -----

  /** Equal, or both zero: no comparison with a proposed number tells zero numbers apart. */
  predicate SameProp(x: Prop, y: Prop) {
    x == y || (x.n == 0 && y.n == 0)
  }

  lemma ZeroNamesUnobservable(x: Prop, y: Prop, p: Prop)
    requires SameProp(x, y) && p.n > 0
    ensures Greater(p, x) <==> Greater(p, y)
    ensures AtLeast(p, x) <==> AtLeast(p, y)
    ensures Greater(x, p) <==> Greater(y, p)
  {
  }

  /** The same acceptor but for the names on zero proposal numbers. */
  predicate Same(a: Acc, b: Acc) {
    && a.me == b.me && a.ih == b.ih && a.values == b.values && a.va == b.va && a.log == b.log
    && SameProp(a.nh, b.nh) && SameProp(a.na, b.na)
  }

  /** Restarting from the log file gives the live acceptor back. */
  predicate Durable(a: Acc) {
    && (forall r | r in a.log :: Readable(r))
    && Same(ApplyAll(Fresh(a.me, a.log), a.log), a)
  }

  lemma BootIsLive(a: Acc, first: bool, value: string)
    requires Durable(a)
    requires first ==> a.ih > 0
    ensures Same(Boot(a.me, first, value, a.log), a)
  {
    ReadableLogRead(Fresh(a.me, a.log));
  }

  /** Appending one record keeps durability when the live fields change as the record says. */
  lemma DurableStep(a: Acc, b: Acc, r: Record)
    requires Durable(a) && Readable(r)
    requires b.log == a.log + [r] && b.me == a.me
    requires Same(Apply(a, r).(log := b.log), b)
    ensures Durable(b)
  {
    var f := Fresh(a.me, a.log);
    ApplyAllAppend(Fresh(a.me, b.log), a.log, r);
    ApplyAllKeepsFile(f, a.log);
    assert Fresh(a.me, b.log) == f.(log := b.log);
  }

  lemma PrepareKeepsDurable(a: Acc, instance: nat, n: Prop)
    requires Durable(a) && IsName(n.m)
    ensures Durable(HandlePrepare(a, instance, n).0)
  {
    if instance > a.ih && Greater(n, a.nh) {
      DurableStep(a, HandlePrepare(a, instance, n).0, PropSeen(n));
    }
  }

  lemma AcceptKeepsDurable(a: Acc, instance: nat, n: Prop, v: string)
    requires Durable(a) && IsName(n.m) && IsLine(v)
    ensures Durable(HandleAccept(a, instance, n, v).0)
  {
    if AtLeast(n, a.nh) {
      DurableStep(a, HandleAccept(a, instance, n, v).0, Accepted(n, v));
    }
  }

  lemma CommitKeepsDurable(a: Acc, instance: nat, v: string)
    requires Durable(a) && IsLine(v)
    ensures Durable(Commit(a, instance, v))
  {
    if instance > a.ih {
      DurableStep(a, Commit(a, instance, v), Done(instance, v));
    }
  }

  /** Whatever the starting fields, records that include a commit determine the rest. */
  lemma {:induction false} ApplyAllForgets(a: Acc, b: Acc, rs: seq<Record>)
    requires || (a.ih == b.ih && a.va == b.va && SameProp(a.nh, b.nh) && SameProp(a.na, b.na))
             || (exists r :: r in rs && r.Done?)
    ensures var x, y := ApplyAll(a, rs), ApplyAll(b, rs);
            x.ih == y.ih && x.va == y.va && SameProp(x.nh, y.nh) && SameProp(x.na, y.na)
    decreases |rs|
  {
    if rs == [] {
    } else {
      if rs[0].Done? {
      } else if !(a.ih == b.ih && a.va == b.va && SameProp(a.nh, b.nh) && SameProp(a.na, b.na)) {
        var r :| r in rs && r.Done?;
        assert r in rs[1..];
      }
      ApplyAllForgets(Apply(a, rs[0]), Apply(b, rs[0]), rs[1..]);
    }
  }

  lemma {:induction false} ApplyAllValues(a: Acc, z: Acc, rs: seq<Record>)
    requires z.values == map[]
    ensures ApplyAll(a, rs).values == a.values + ApplyAll(z, rs).values
    decreases |rs|
  {
    if rs == [] {
    } else {
      var a1, z1 := Apply(a, rs[0]), Apply(z, rs[0]);
      ApplyAllValues(a1, z1.(values := map[]), rs[1..]);
      ApplyAllValues(z1, z1.(values := map[]), rs[1..]);
    }
  }

  lemma {:induction false} CommitsNeedDone(a: Acc, rs: seq<Record>)
    ensures ApplyAll(a, rs).ih == a.ih || exists r :: r in rs && r.Done?
    decreases |rs|
  {
    if rs == [] {
    } else {
      assert rs[0] in rs;
      CommitsNeedDone(Apply(a, rs[0]), rs[1..]);
      if r :| r in rs[1..] && r.Done? {
        assert r in rs;
      }
    }
  }

  /** Taking over another node's log: the instances of both are kept, the taken-over ones winning,
      and once the log holds a commit the rest is the source's state under the taker's name. A node
      that had no instance the source lacks is durable again. */
  lemma RestoreCopies(a: Acc, src: Acc)
    requires Durable(src)
    ensures var b := Restore(a, src);
            && b.me == a.me && b.log == src.log && b.values == a.values + src.values
            && (src.ih > 0 ==> b.ih == src.ih && b.va == src.va && SameProp(b.nh, src.nh) && SameProp(b.na, src.na))
            && (src.ih > 0 && a.values.Keys <= src.values.Keys ==> Durable(b) && b.values == src.values)
  {
    var a0 := a.(log := src.log);
    var mine, theirs := Fresh(a.me, src.log), Fresh(src.me, src.log);
    ReadableLogRead(a0);
    CommitsNeedDone(theirs, src.log);
    if src.ih > 0 {
      ApplyAllForgets(a0, theirs, src.log);
      ApplyAllForgets(mine, theirs, src.log);
    }
    ApplyAllValues(a0, theirs, src.log);
    ApplyAllValues(mine, theirs, src.log);
    ApplyAllKeepsFile(a0, src.log);
    ApplyAllKeepsFile(mine, src.log);
    if a.values.Keys <= src.values.Keys { assert a.values + src.values == src.values; }
  }

  // ----- the acceptor object -----

  class AcceptorNode {
    const me: string
    var nH: Prop
    var nA: Prop
    var vA: string
    var instanceH: nat
    var values: map<nat, string>
    var file: string    // the log file
    var alive: bool     // false once a VERIFY has failed

    /** The fields; what goes to the file is said on the file. */
    function Fields(): Acc
      reads this
    {
      Acc(me, nH, nA, vA, instanceH, values, [])
    }

    /** Starts on any file: with a record it cannot read the process stops, else it is the acceptor
        the records describe, and the first node writes the first instance. */
    constructor (me: string, first: bool, value: string, text: string)
      ensures alive <==> ReadLog(text).Some?
      ensures alive ==> Fields() == Boot(me, first, value, ReadLog(text).value).(log := [])
      ensures alive ==> var empty := first && ApplyAll(Fresh(me, []), ReadLog(text).value).ih == 0;
                        file == text + PrintLog(if empty then [Done(1, value)] else [])
    {
      this.me := me;
      nH, nA, vA, instanceH, values, file, alive := Zero(me), Zero(me), "", 0, map[], text, true;
      new;
      ReadLogFile();
      if alive {
        ReadRecordsReadable(text);
        ghost var rs := ReadLog(text).value;
        ReadableLogRead(Fresh(me, rs));
        ApplyAllKeepsFile(Fresh(me, rs), rs);
        assert PrintLog([]) == "" && text + "" == text;
        if instanceH == 0 && first {
          values := values[1 := value];
          LogInstance(1, value);
          instanceH := 1;
        }
      }
    }

    /** The reading loop on any file: it stops at a record it cannot read, else the fields are the
        fold of the records. */
    method ReadLogFile()
      requires alive
      modifies this`nH, this`nA, this`vA, this`instanceH, this`values, this`alive
      ensures alive <==> ReadLog(file).Some?
      ensures alive ==> Fields() == ApplyAll(old(Fields()), ReadLog(file).value)
    {
      ghost var start := Fields();
      var from := file;
      while alive && SkipSpaces(from) != ""
        invariant ReadLog(file).Some? <==> alive && ReadLog(from).Some?
        invariant alive && ReadLog(from).Some? ==>
                    ApplyAll(Fields(), ReadLog(from).value) == ApplyAll(start, ReadLog(file).value)
        decreases |from|, alive
      {
        var rec := ReadRecord(from);
        if rec.None? {
          alive := false;
        } else {
          FoldStep(Fields(), from);
          ApplyRecord(rec.value.0);
          from := rec.value.1;
        }
      }
    }

    method ApplyRecord(r: Record)
      modifies this`nH, this`nA, this`vA, this`instanceH, this`values
      ensures Fields() == Apply(old(Fields()), r)
    {
      match r {
        case Done(instance, v) =>
          values := values[instance := v];
          instanceH := instance;
          vA := "";
          nH := nH.(n := 0);
          nA := nA.(n := 0);
        case PropSeen(n) =>
          nH := n;
        case Accepted(n, v) =>
          nA := n;
          vA := v;
      }
    }

    /** A file that holds some records holds one more. */
    method LogInstance(instance: nat, v: string)
      modifies this`file
      ensures file == old(file) + PrintLog([Done(instance, v)])
      ensures forall rs :: old(file) == PrintLog(rs) ==> file == PrintLog(rs + [Done(instance, v)])
    {
      file := file + "done" + " " + PrintNat(instance) + " " + v + "\n";
      Appended(old(file), file, Done(instance, v));
    }

    method LogProp(n: Prop)
      modifies this`file
      ensures file == old(file) + PrintLog([PropSeen(n)])
      ensures forall rs :: old(file) == PrintLog(rs) ==> file == PrintLog(rs + [PropSeen(n)])
    {
      file := file + "propseen" + " " + PrintNat(n.n) + " " + n.m + "\n";
      Appended(old(file), file, PropSeen(n));
    }

    method LogAccept(n: Prop, v: string)
      modifies this`file
      ensures file == old(file) + PrintLog([Accepted(n, v)])
      ensures forall rs :: old(file) == PrintLog(rs) ==> file == PrintLog(rs + [Accepted(n, v)])
    {
      file := file + "accepted" + " " + PrintNat(n.n) + " " + n.m + " " + v + "\n";
      Appended(old(file), file, Accepted(n, v));
    }

    method PrepareReq(instance: nat, n: Prop) returns (r: PrepareRes)
      modifies this`nH, this`file
      ensures r.OldInstance? <==> instance <= instanceH
      ensures r.OldInstance? ==> r.v == if instance in values then values[instance] else ""
      ensures r.Promise? <==> instance > instanceH && Greater(n, old(nH))
      ensures r.Promise? ==> r.na == nA && r.va == vA && nH == n && file == old(file) + PrintLog([PropSeen(n)])
      ensures !r.Promise? ==> nH == old(nH) && file == old(file)
      ensures var (a, x) := HandlePrepare(old(Fields()), instance, n);
              r == x && Fields() == a.(log := []) && file == old(file) + PrintLog(a.log)
    {
      if instance <= instanceH {
        r := OldInstance(ValueAt(values, instance));
      } else if Greater(n, nH) {
        r := Promise(nA, vA);
        nH := n;
        LogProp(nH);
      } else {
        r := Reject;
      }
    }

    method AcceptReq(instance: nat, n: Prop, v: string) returns (r: bool)
      modifies this`nA, this`vA, this`file
      ensures r <==> AtLeast(n, nH)
      ensures r ==> nA == n && vA == v && file == old(file) + PrintLog([Accepted(n, v)])
      ensures !r ==> nA == old(nA) && vA == old(vA) && file == old(file)
      ensures var (a, x) := HandleAccept(old(Fields()), instance, n, v);
              r == x && Fields() == a.(log := []) && file == old(file) + PrintLog(a.log)
    {
      if AtLeast(n, nH) {
        nA := n;
        vA := v;
        r := true;
        LogAccept(nA, vA);
      } else {
        r := false;
      }
    }

    method CommitWo(instance: nat, value: string)
      modifies this`values, this`instanceH, this`nH, this`nA, this`vA, this`file
      ensures instance <= old(instanceH) ==> Fields() == old(Fields()) && file == old(file)
      ensures instance > old(instanceH) ==>
                && instanceH == instance && values == old(values)[instance := value]
                && nH == nA == Prop(0, me) && vA == "" && file == old(file) + PrintLog([Done(instance, value)])
      ensures var a := Commit(old(Fields()), instance, value);
              Fields() == a.(log := []) && file == old(file) + PrintLog(a.log)
    {
      if instance > instanceH {
        values := values[instance := value];
        LogInstance(instance, value);
        instanceH := instance;
        nH := Zero(me);
        nA := Zero(me);
        vA := "";
      }
    }

    /** The process stops where a VERIFY of the handler fails. */
    method DecideReq(instance: nat, v: string)
      requires alive
      modifies this
      ensures alive <==> instance <= old(instanceH) || (instance == old(instanceH) + 1 && v == old(vA))
      ensures instance != old(instanceH) + 1 ==> Fields() == old(Fields()) && file == old(file)
      ensures alive && instance == old(instanceH) + 1 ==>
                instanceH == instance && values == old(values)[instance := v] && nH == nA == Prop(0, me)
      ensures alive <==> HandleDecide(old(Fields()), instance, v).Fine?
      ensures alive ==> var a := HandleDecide(old(Fields()), instance, v).acc;
                        Fields() == a.(log := []) && file == old(file) + PrintLog(a.log)
      ensures !alive ==> Fields() == old(Fields()) && file == old(file)
    {
      if instance == instanceH + 1 {
        if vA == v { CommitWo(instance, vA); } else { alive := false; }
      } else if instance <= instanceH {
        // ahead: ignore
      } else {
        alive := false;
      }
    }
  }

  /** One turn of the reading loop against the fold. */
  lemma FoldStep(a: Acc, from: string)
    requires SkipSpaces(from) != "" && ReadRecord(from).Some?
    ensures var rec := ReadRecord(from).value;
            && (ReadLog(from).Some? <==> ReadLog(rec.1).Some?)
            && (ReadLog(from).Some? ==>
                  ApplyAll(a, ReadLog(from).value) == ApplyAll(Apply(a, rec.0), ReadLog(rec.1).value))
  {
    hide ReadRecord, SkipSpaces, Apply;
    var rec := ReadRecord(from).value;
    if ReadLog(rec.1).Some? {
      var rs := [rec.0] + ReadLog(rec.1).value;
      assert ReadLog(from) == Some(rs) && rs[0] == rec.0 && rs[1..] == ReadLog(rec.1).value;
    }
  }

  /** Text appended to a file of records is a record appended to them. */
  lemma Appended(before: string, after: string, r: Record)
    requires after == before + PrintRecord(r)
    ensures after == before + PrintLog([r])
    ensures forall rs :: before == PrintLog(rs) ==> after == PrintLog(rs + [r])
  {
    hide PrintRecord;
    assert PrintLog([r]) == PrintRecord(r) + PrintLog([]) == PrintRecord(r);
    forall rs | before == PrintLog(rs) ensures after == PrintLog(rs + [r]) { PrintLogAppend(rs, r); }
  }

  // ----- the handlers on a file of records -----

  /** Handlers only add records to what the file held, so a file of the acceptor's records stays
      one: the object and the functions on states agree on the whole log. */
  lemma HandlersAppend(a: Acc, instance: nat, n: Prop, v: string)
    ensures var z := a.(log := []);
            && HandlePrepare(a, instance, n).0 == Prepend(a.log, HandlePrepare(z, instance, n).0)
            && HandleAccept(a, instance, n, v).0 == Prepend(a.log, HandleAccept(z, instance, n, v).0)
            && Commit(a, instance, v) == Prepend(a.log, Commit(z, instance, v))
  {
    assert forall r: Record :: a.log + ([] + [r]) == a.log + [r];
    assert a.log + [] == a.log;
  }

  function Prepend(rs: seq<Record>, a: Acc): Acc { a.(log := rs + a.log) }
}
