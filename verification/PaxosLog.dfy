/** The text log that makes an acceptor durable: records, how they are written and how
    they are read back. */
module PaxosLog {
  import opened Options
  import opened Text
  import opened Proposal

  datatype Record =
    | Done(instance: nat, v: string)
    | PropSeen(n: Prop)
    | Accepted(n: Prop, v: string)

  /** A record whose fields survive being written and read: names are tokens, values are lines. */
  predicate Readable(r: Record) {
    match r
    case Done(_, v) => IsLine(v)
    case PropSeen(n) => IsName(n.m)
    case Accepted(n, v) => IsName(n.m) && IsLine(v)
  }

  function PrintRecord(r: Record): (s: string)
    ensures s != ""
  {
    match r
    case Done(i, v) => "done" + (" " + PrintNat(i) + (" " + v + "\n"))
    case PropSeen(n) => "propseen" + (" " + PrintNat(n.n) + (" " + n.m + "\n"))
    case Accepted(n, v) => "accepted" + (" " + PrintNat(n.n) + (" " + n.m + (" " + v + "\n")))
  }

  /** The contents of the log file after appending the records in order. */
  function PrintLog(rs: seq<Record>): string {
    if rs == [] then "" else PrintRecord(rs[0]) + PrintLog(rs[1..])
  }

  /** Appending a record to the file is appending it to the list of records. */
  lemma {:induction false} PrintLogAppend(rs: seq<Record>, r: Record)
    ensures PrintLog(rs + [r]) == PrintLog(rs) + PrintRecord(r)
  {
    hide PrintRecord;
    if rs == [] {
      assert rs + [r] == [r] && [r][1..] == [];
      assert PrintRecord(r) + "" == PrintRecord(r) == "" + PrintRecord(r);
    } else {
      PrintLogAppend(rs[1..], r);
      assert (rs + [r])[1..] == rs[1..] + [r];
      assert PrintRecord(rs[0]) + (PrintLog(rs[1..]) + PrintRecord(r)) == PrintLog(rs) + PrintRecord(r);
    }
  }

  // ----- reading -----

  function ReadNat(s: string): (r: Option<(nat, string)>)
    ensures r.Some? ==> |r.value.1| < |s|
  {
    var t := SkipSpaces(s);
    var d := DigitsLength(t);
    if d == 0 then None else Some((ParseDigits(t[..d]), t[d..]))
  }

  function ReadToken(s: string): (r: Option<(string, string)>)
    ensures r.Some? ==> |r.value.1| < |s|
  {
    var t := SkipSpaces(s);
    if t == "" then None else Some((t[..TokenLength(t)], t[TokenLength(t)..]))
  }

  /** One get() and one getline(). */
  function ReadLine(s: string): (r: Option<(string, string)>)
    ensures r.Some? ==> |r.value.1| < |s|
  {
    if s == "" then None
    else
      var w := s[1..];
      var k := LineLength(w);
      Some((w[..k], if k < |w| then w[k + 1..] else ""))
  }

  /** One turn of the reading loop; None where the loop stops on a malformed record. */
  function ReadRecord(s: string): (r: Option<(Record, string)>)
    ensures r.Some? ==> |r.value.1| < |s|
  {
    match ReadToken(s)
    case None => None
    case Some((kind, u)) =>
      match ReadNat(u)
      case None => None
      case Some((n, w)) =>
        if kind == "done" then
          match ReadLine(w)
          case None => None
          case Some((v, rest)) => Some((Done(n, v), rest))
        else
          match ReadToken(w)
          case None => None
          case Some((m, x)) =>
            if kind == "propseen" then Some((PropSeen(Prop(n, m)), x))
            else if kind == "accepted" then
              match ReadLine(x)
              case None => None
              case Some((v, rest)) => Some((Accepted(Prop(n, m), v), rest))
            else None
  }

  function ReadLog(s: string): (r: Option<seq<Record>>)
    decreases |s|
  {
    if SkipSpaces(s) == "" then Some([])
    else
      match ReadRecord(s)
      case None => None
      case Some((rec, rest)) =>
        match ReadLog(rest)
        case None => None
        case Some(more) => Some([rec] + more)
  }

  // ----- reading what was written -----

  lemma ReadNatBack(n: nat, rest: string)
    requires rest != "" && IsSpace(rest[0])
    ensures ReadNat(" " + PrintNat(n) + rest) == Some((n, rest))
  {
    var s := " " + PrintNat(n) + rest;
    assert s[1..] == PrintNat(n) + rest;
    DigitsThenSpace(PrintNat(n), rest);
    assert SkipSpaces(s) == PrintNat(n) + rest;
    assert (PrintNat(n) + rest)[..|PrintNat(n)|] == PrintNat(n);
    assert (PrintNat(n) + rest)[|PrintNat(n)|..] == rest;
    PrintParseNat(n);
  }

  lemma ReadTokenBack(m: string, rest: string)
    requires IsName(m)
    requires rest != "" && IsSpace(rest[0])
    ensures ReadToken(m + rest) == Some((m, rest))
    ensures ReadToken(" " + m + rest) == Some((m, rest))
  {
    TokenThenSpace(m, rest);
    assert (" " + m + rest)[1..] == m + rest;
    assert (m + rest)[..|m|] == m;
    assert (m + rest)[|m|..] == rest;
  }

  lemma ReadLineBack(v: string, rest: string)
    requires IsLine(v)
    ensures ReadLine(" " + v + "\n" + rest) == Some((v, rest))
  {
    var s := " " + v + "\n" + rest;
    var w := v + ("\n" + rest);
    assert s[1..] == w;
    LineThenNewline(v, "\n" + rest);
    assert w[..|v|] == v;
    assert w[|v| + 1..] == rest;
  }

  lemma ReadDoneBack(i: nat, v: string, rest: string)
    requires IsLine(v)
    ensures ReadRecord(PrintRecord(Done(i, v)) + rest) == Some((Done(i, v), rest))
  {
    hide PrintNat, ReadToken, ReadNat, ReadLine;
    var tail := " " + v + "\n" + rest;
    var body := " " + PrintNat(i) + tail;
    assert PrintRecord(Done(i, v)) + rest == "done" + body;
    ReadTokenBack("done", body);
    ReadNatBack(i, tail);
    ReadLineBack(v, rest);
  }

  lemma ReadPropSeenBack(n: Prop, rest: string)
    requires IsName(n.m)
    ensures ReadRecord(PrintRecord(PropSeen(n)) + rest) == Some((PropSeen(n), "\n" + rest))
  {
    hide PrintNat, ReadToken, ReadNat, ReadLine;
    var tail := " " + n.m + ("\n" + rest);
    var body := " " + PrintNat(n.n) + tail;
    assert PrintRecord(PropSeen(n)) + rest == "propseen" + body;
    ReadTokenBack("propseen", body);
    ReadNatBack(n.n, tail);
    ReadTokenBack(n.m, "\n" + rest);
  }

  lemma ReadAcceptedBack(n: Prop, v: string, rest: string)
    requires IsName(n.m) && IsLine(v)
    ensures ReadRecord(PrintRecord(Accepted(n, v)) + rest) == Some((Accepted(n, v), rest))
  {
    hide PrintNat, ReadToken, ReadNat, ReadLine;
    var line := " " + v + "\n" + rest;
    var tail := " " + n.m + line;
    var body := " " + PrintNat(n.n) + tail;
    assert PrintRecord(Accepted(n, v)) + rest == "accepted" + body;
    ReadTokenBack("accepted", body);
    ReadNatBack(n.n, tail);
    ReadTokenBack(n.m, line);
    ReadLineBack(v, rest);
  }

  /** Reading stops right behind the record, or on the newline that ends it. */
  lemma ReadRecordBack(r: Record, rest: string)
    requires Readable(r)
    ensures ReadRecord(PrintRecord(r) + rest) ==
            Some((r, if r.PropSeen? then "\n" + rest else rest))
  {
    match r
    case Done(i, v) => ReadDoneBack(i, v, rest);
    case PropSeen(n) => ReadPropSeenBack(n, rest);
    case Accepted(n, v) => ReadAcceptedBack(n, v, rest);
  }

  lemma ReadLogSkipsNewline(s: string)
    ensures ReadLog("\n" + s) == ReadLog(s)
  {
    assert ("\n" + s)[1..] == s;
    assert SkipSpaces("\n" + s) == SkipSpaces(s);
  }

  /** The log read back is the log written, record for record. */
  lemma {:induction false} ReadLogBack(rs: seq<Record>)
    requires forall r | r in rs :: Readable(r)
    ensures ReadLog(PrintLog(rs)) == Some(rs)
  {
    if rs == [] {
    } else {
      var rest := PrintLog(rs[1..]);
      ReadLogBack(rs[1..]);
      ReadRecordBack(rs[0], rest);
      ReadLogSkipsNewline(rest);
      StartsWithKind(rs[0], rest);
      assert rs == [rs[0]] + rs[1..];
    }
  }

  lemma StartsWithKind(r: Record, rest: string)
    ensures SkipSpaces(PrintRecord(r) + rest) != ""
  {
    var s := PrintRecord(r) + rest;
    assert s[0] == PrintRecord(r)[0];
    assert !IsSpace(s[0]);
  }

  // ----- what can be read is what could have been written -----

  lemma ReadRecordReadable(s: string)
    requires ReadRecord(s).Some?
    ensures Readable(ReadRecord(s).value.0)
  {
  }

  lemma {:induction false} ReadRecordsReadable(s: string)
    requires ReadLog(s).Some?
    ensures forall r | r in ReadLog(s).value :: Readable(r)
    decreases |s|
  {
    hide ReadRecord, SkipSpaces, Readable;
    if SkipSpaces(s) == "" {
      assert ReadLog(s) == Some([]);
    } else {
      ReadRecordReadable(s);
      ReadRecordsReadable(ReadRecord(s).value.1);
    }
  }
}
