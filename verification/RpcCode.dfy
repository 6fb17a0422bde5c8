/** checkduplicate_and_update as its loop is written, on the list of one client: an entry that
    follows an erased one is not looked at for erasing, the head of the list stands in for a
    low-water mark, and reads can pass the end. */
module RpcCode {
  import opened Options
  import opened RpcServer

  // ----- one call of the code -----

  /** The entry is answered and older than what the client reports: the loop erases it. */
  predicate Gone(s: Slot, rep: nat) { s.xid < rep && s.reply.Some? }

  datatype Walked = Stray | Found(list: seq<Slot>, reply: Option<nat>) | Through(list: seq<Slot>)

  /** The loop from position i; Stray where it reads past the end of the list. */
  function Walk(l: seq<Slot>, i: nat, xid: nat, rep: nat): Walked
    requires i <= |l|
    decreases |l| - i
  {
    if i == |l| then Through(l)
    else
      var m := if Gone(l[i], rep) then l[..i] + l[i + 1..] else l;
      if i == |m| then Stray
      else if m[i].xid == xid then Found(m, m[i].reply)
      else Walk(m, i + 1, xid, rep)
  }

  /** Before the first entry with a larger xid, else at the end. */
  function Inserted(l: seq<Slot>, xid: nat): seq<Slot> {
    if l == [] then [Slot(xid, None)]
    else if l[0].xid > xid then [Slot(xid, None)] + l
    else [l[0]] + Inserted(l[1..], xid)
  }

  function HeadXid(l: seq<Slot>, junk: nat): nat { if l == [] then junk else l[0].xid }

  /** The new list and the verdict; None where the loop reads past the end. `junk` is the number
      found where the code reads the front of an empty list. */
  function CodeStep(l: seq<Slot>, xid: nat, rep: nat, junk: nat): Option<(seq<Slot>, Verdict)> {
    if HeadXid(l, junk) > xid then Some((l, FORGOTTEN))
    else match Walk(l, 0, xid, rep)
      case Stray => None
      case Found(m, r) => Some((m, if r.Some? then DONE(r.value) else INPROGRESS))
      case Through(m) => Some((Inserted(m, xid), NEW))
  }

  // ----- what the loop finds, and where it strays -----

  predicate Has(l: seq<Slot>, xid: nat) { exists i :: 0 <= i < |l| && l[i].xid == xid }

  lemma HasCons(s: Slot, l: seq<Slot>, xid: nat)
    ensures Has([s] + l, xid) <==> s.xid == xid || Has(l, xid)
  {
    var m := [s] + l;
    if s.xid == xid { assert m[0].xid == xid; }
    if i :| 0 <= i < |l| && l[i].xid == xid { assert m[i + 1].xid == xid; }
    if i :| 0 <= i < |m| && m[i].xid == xid && s.xid != xid { assert l[i - 1].xid == xid; }
  }

  predicate AllGone(l: seq<Slot>, rep: nat) { forall s | s in l :: Gone(s, rep) }

  /** How many entries at the end of the list the loop would erase. */
  function Tail(l: seq<Slot>, rep: nat): nat {
    if AllGone(l, rep) then |l| else Tail(l[1..], rep)
  }

  lemma TailStep(l: seq<Slot>, rep: nat)
    requires l != []
    ensures !Gone(l[0], rep) ==> Tail(l, rep) == Tail(l[1..], rep)
    ensures Gone(l[0], rep) && |l| >= 2 ==> Tail(l, rep) % 2 == Tail(l[2..], rep) % 2
    ensures Gone(l[0], rep) && |l| == 1 ==> Tail(l, rep) == 1
  {
    assert l == [l[0]] + l[1..];
    if |l| >= 2 {
      assert l[1..] == [l[1]] + l[2..] && l[1..][1..] == l[2..];
      assert AllGone(l, rep) <==> Gone(l[0], rep) && AllGone(l[1..], rep);
      assert AllGone(l[1..], rep) <==> Gone(l[1], rep) && AllGone(l[2..], rep);
    }
  }

  /** One turn where the entry is due: it goes, and the entry after it is passed over. */
  lemma WalkPasses(l: seq<Slot>, i: nat, xid: nat, rep: nat) returns (m: seq<Slot>)
    requires i + 1 < |l| && Gone(l[i], rep)
    ensures i < |m| < |l| && m[i] == l[i + 1] && m[i + 1..] == l[i + 2..]
    ensures Walk(l, i, xid, rep) == if m[i].xid == xid then Found(m, m[i].reply) else Walk(m, i + 1, xid, rep)
  {
    m := l[..i] + l[i + 1..];
  }

  /** The loop finds a call exactly when it is listed; else it strays exactly when an odd number of
      entries at the end is due for erasing. */
  lemma {:induction false} WalkExactly(l: seq<Slot>, i: nat, xid: nat, rep: nat)
    requires i <= |l| && rep <= xid
    ensures Walk(l, i, xid, rep).Found? <==> Has(l[i..], xid)
    ensures Walk(l, i, xid, rep).Stray? <==> !Has(l[i..], xid) && Tail(l[i..], rep) % 2 == 1
    decreases |l| - i
  {
    var t := l[i..];
    if i == |l| {
      assert t == [] && Tail(t, rep) == 0;
    } else {
      assert t[0] == l[i] && t == [t[0]] + t[1..];
      HasCons(t[0], t[1..], xid);
      TailStep(t, rep);
      hide Has, Tail;
      if !Gone(l[i], rep) {
        assert l[i + 1..] == t[1..];
        if l[i].xid != xid { WalkExactly(l, i + 1, xid, rep); }
      } else if |t| == 1 {
        assert l[..i] + l[i + 1..] == l[..i] && t[1..] == [];
        assert !Has([], xid) by { NoneListed(xid); }
      } else {
        var m := WalkPasses(l, i, xid, rep);
        hide Walk;
        assert m[i] == t[1] && m[i + 1..] == t[2..] && t[1..] == [t[1]] + t[2..];
        HasCons(t[1], t[2..], xid);
        if m[i].xid != xid { WalkExactly(m, i + 1, xid, rep); }
      }
    }
  }

  lemma NoneListed(xid: nat)
    ensures !Has([], xid)
  {
  }

  /** Every verdict of the code, for every list and request: forgotten by the head alone, known when
      listed, otherwise new, or undefined when an odd number of entries at the end is due. */
  lemma CodeExactly(l: seq<Slot>, xid: nat, rep: nat, junk: nat)
    requires rep <= xid
    ensures var c := CodeStep(l, xid, rep, junk);
            var below := HeadXid(l, junk) > xid;
            && (c.Some? && c.value.1 == FORGOTTEN <==> below)
            && (c.Some? && (c.value.1.DONE? || c.value.1 == INPROGRESS) <==> !below && Has(l, xid))
            && (c.None? <==> !below && !Has(l, xid) && Tail(l, rep) % 2 == 1)
            && (c.Some? && c.value.1 == NEW <==> !below && !Has(l, xid) && Tail(l, rep) % 2 == 0)
  {
    assert l[0..] == l;
    WalkExactly(l, 0, xid, rep);
  }

  // ----- runs of the code -----

  /** The list, and every start of a handler in order. */
  datatype Code = Code(list: seq<Slot>, ran: seq<nat>)

  datatype Step = Ask(xid: nat, rep: nat, junk: nat) | Answer(i: nat, reply: nat)

  predicate Can(c: Code, e: Step) {
    match e
    case Ask(xid, rep, junk) => rep <= xid && CodeStep(c.list, xid, rep, junk).Some?
    case Answer(i, _) => i < |c.list| && c.list[i].reply == None
  }

  function Do(c: Code, e: Step): Code
    requires Can(c, e)
  {
    match e
    case Ask(xid, rep, junk) =>
      var (l, v) := CodeStep(c.list, xid, rep, junk).value;
      Code(l, if v == NEW then c.ran + [xid] else c.ran)
    case Answer(i, reply) => c.(list := c.list[i := c.list[i].(reply := Some(reply))])
  }

  predicate CodeRun(c: Code, es: seq<Step>)
    decreases |es|
  {
    es == [] || (Can(c, es[0]) && CodeRun(Do(c, es[0]), es[1..]))
  }

  function CodeAfter(c: Code, es: seq<Step>): Code
    requires CodeRun(c, es)
    decreases |es|
  {
    if es == [] then c else CodeAfter(Do(c, es[0]), es[1..])
  }

  const NO_CALLS := Code([], [])

  predicate Ascending(l: seq<Slot>) { forall i, j | 0 <= i < j < |l| :: l[i].xid < l[j].xid }

  /** The list is in strict order and holds only calls that ran. */
  predicate CodeOk(c: Code) { Ascending(c.list) && forall s | s in c.list :: s.xid in c.ran }

  lemma {:induction false} WalkErases(l: seq<Slot>, i: nat, xid: nat, rep: nat)
    requires i <= |l| && Ascending(l)
    ensures var w := Walk(l, i, xid, rep);
            !w.Stray? ==> Ascending(w.list) && forall s | s in w.list :: s in l
    decreases |l| - i
  {
    if i == |l| {
      assert Walk(l, i, xid, rep) == Through(l);
    } else {
      var m := if Gone(l[i], rep) then l[..i] + l[i + 1..] else l;
      assert forall k | 0 <= k < |m| :: m[k] == if |m| == |l| || k < i then l[k] else l[k + 1];
      assert Ascending(m) && forall s | s in m :: s in l;
      if i < |m| && m[i].xid != xid { WalkErases(m, i + 1, xid, rep); }
    }
  }

  lemma {:induction false} InsertedHas(l: seq<Slot>, xid: nat)
    ensures forall s :: s in Inserted(l, xid) <==> s in l || s == Slot(xid, None)
  {
    if l == [] || l[0].xid > xid {
    } else {
      assert l == [l[0]] + l[1..];
      InsertedHas(l[1..], xid);
    }
  }

  lemma {:induction false} InsertedOrder(l: seq<Slot>, xid: nat)
    requires Ascending(l) && !Has(l, xid)
    ensures Ascending(Inserted(l, xid))
  {
    if l == [] || l[0].xid > xid {
      assert Inserted(l, xid) == [Slot(xid, None)] + l;
    } else {
      assert l == [l[0]] + l[1..];
      HasCons(l[0], l[1..], xid);
      InsertedOrder(l[1..], xid);
      InsertedHas(l[1..], xid);
      var m := Inserted(l[1..], xid);
      assert forall k | 0 <= k < |m| :: m[k] in m;
      assert forall s | s in l[1..] :: s.xid > l[0].xid;
    }
  }

  lemma NotListed(l: seq<Slot>, m: seq<Slot>, xid: nat)
    requires !Has(l, xid) && forall s | s in m :: s in l
    ensures !Has(m, xid)
  {
    forall i | 0 <= i < |m| ensures m[i].xid != xid { assert m[i] in m; }
  }

  lemma AskKeeps(c: Code, xid: nat, rep: nat, junk: nat)
    requires CodeOk(c) && Can(c, Ask(xid, rep, junk))
    ensures CodeOk(Do(c, Ask(xid, rep, junk)))
  {
    CodeExactly(c.list, xid, rep, junk);
    WalkErases(c.list, 0, xid, rep);
    var (l, v) := CodeStep(c.list, xid, rep, junk).value;
    if v == NEW {
      var m := Walk(c.list, 0, xid, rep).list;
      NotListed(c.list, m, xid);
      InsertedOrder(m, xid);
      InsertedHas(m, xid);
    }
  }

  lemma {:induction false} CodeRunKeeps(c: Code, es: seq<Step>)
    requires CodeOk(c) && CodeRun(c, es)
    ensures CodeOk(CodeAfter(c, es))
    decreases |es|
  {
    if es == [] {
      assert CodeAfter(c, es) == c;
    } else {
      match es[0] {
        case Ask(xid, rep, junk) => AskKeeps(c, xid, rep, junk);
        case Answer(i, reply) => AnswerKeeps(c, i, reply);
      }
      CodeRunKeeps(Do(c, es[0]), es[1..]);
    }
  }

  lemma AnswerKeeps(c: Code, i: nat, reply: nat)
    requires CodeOk(c) && Can(c, Answer(i, reply))
    ensures CodeOk(Do(c, Answer(i, reply)))
  {
    var d := Do(c, Answer(i, reply));
    forall s | s in d.list ensures s.xid in c.ran {
      var k :| 0 <= k < |d.list| && d.list[k] == s;
      assert c.list[k] in c.list;
    }
  }

  // ----- exactly when a call is run again, and exactly when an unseen one is refused -----

  /** In every run of the code, a request for a call that ran already starts its handler again if
      and only if the call was erased, the list is empty or an older call is still listed, and the
      loop does not stray. */
  lemma RunsAgainExactlyWhen(es: seq<Step>, xid: nat, rep: nat, junk: nat)
    requires CodeRun(NO_CALLS, es) && xid in CodeAfter(NO_CALLS, es).ran && rep <= xid
    ensures var c := CodeAfter(NO_CALLS, es);
            Can(c, Ask(xid, rep, junk)) && Do(c, Ask(xid, rep, junk)).ran == c.ran + [xid] <==>
            && !Has(c.list, xid) && Tail(c.list, rep) % 2 == 0
            && (if c.list == [] then junk <= xid else c.list[0].xid < xid)
  {
    CodeRunKeeps(NO_CALLS, es);
    var c := CodeAfter(NO_CALLS, es);
    CodeExactly(c.list, xid, rep, junk);
    if c.list != [] && !Has(c.list, xid) { assert c.list[0].xid != xid; }
  }

  /** A request for a call never seen is refused as forgotten if and only if every listed call is
      younger (or, on an empty list, the number read happens to be larger). The documented rule
      refuses only what the client itself has reported. */
  lemma RefusesUnseenExactlyWhen(es: seq<Step>, xid: nat, rep: nat, junk: nat)
    requires CodeRun(NO_CALLS, es) && xid !in CodeAfter(NO_CALLS, es).ran && rep <= xid
    ensures var c := CodeAfter(NO_CALLS, es);
            var s := CodeStep(c.list, xid, rep, junk);
            s.Some? && s.value.1 == FORGOTTEN <==>
            if c.list == [] then junk > xid else forall x | x in c.list :: x.xid > xid
  {
    CodeRunKeeps(NO_CALLS, es);
    var c := CodeAfter(NO_CALLS, es);
    CodeExactly(c.list, xid, rep, junk);
    if c.list != [] {
      assert c.list[0] in c.list;
      assert forall k | 0 < k < |c.list| :: c.list[0].xid < c.list[k].xid;
    }
  }

  lemma RuleRefusesOnlyReported(w: Win, xid: nat, rep: nat)
    ensures Check(w, xid, rep).1 == FORGOTTEN ==> xid <= Max(w.low, rep)
  {
  }

  // ----- what the body keeps all the same -----

  /** Every request so far reports at most f. */
  predicate RepsBelow(es: seq<Step>, f: nat) { forall e | e in es && e.Ask? :: e.rep <= f }

  /** Every call above f that ran is listed. */
  predicate ListedAbove(c: Code, f: nat) { forall x | x in c.ran && x > f :: Has(c.list, x) }

  lemma HasGrows(l: seq<Slot>, m: seq<Slot>, x: nat)
    requires Has(l, x) && forall s | s in l && s.xid == x :: s in m
    ensures Has(m, x)
  {
    var i :| 0 <= i < |l| && l[i].xid == x;
    assert l[i] in l;
    var j :| 0 <= j < |m| && m[j] == l[i];
  }

  lemma {:induction false} WalkKeepsAbove(l: seq<Slot>, i: nat, xid: nat, rep: nat, x: nat)
    requires i <= |l| && x >= rep
    ensures var w := Walk(l, i, xid, rep); !w.Stray? ==> forall s | s in l && s.xid == x :: s in w.list
    decreases |l| - i
  {
    if i == |l| {
    } else {
      var m := if Gone(l[i], rep) then l[..i] + l[i + 1..] else l;
      assert l == l[..i] + [l[i]] + l[i + 1..];
      if i < |m| && m[i].xid != xid { WalkKeepsAbove(m, i + 1, xid, rep, x); }
    }
  }

  lemma AskKeepsListed(c: Code, xid: nat, rep: nat, junk: nat, f: nat)
    requires ListedAbove(c, f) && Can(c, Ask(xid, rep, junk)) && rep <= f
    ensures ListedAbove(Do(c, Ask(xid, rep, junk)), f)
  {
    var d := Do(c, Ask(xid, rep, junk));
    forall x | x in d.ran && x > f ensures Has(d.list, x) {
      WalkKeepsAbove(c.list, 0, xid, rep, x);
      var w := Walk(c.list, 0, xid, rep);
      if w.Through? {
        InsertedHas(w.list, xid);
        if x == xid && d.ran != c.ran {
          assert Slot(xid, None) in d.list;
          var j :| 0 <= j < |d.list| && d.list[j] == Slot(xid, None);
        }
      }
      if x in c.ran { HasGrows(c.list, d.list, x); }
    }
  }

  lemma AnswerKeepsListed(c: Code, i: nat, reply: nat, f: nat)
    requires ListedAbove(c, f) && Can(c, Answer(i, reply))
    ensures ListedAbove(Do(c, Answer(i, reply)), f)
  {
    var d := Do(c, Answer(i, reply));
    forall x | x in d.ran && x > f ensures Has(d.list, x) {
      var j :| 0 <= j < |c.list| && c.list[j].xid == x;
      assert d.list[j].xid == x;
    }
  }

  lemma {:induction false} ListedStays(c: Code, es: seq<Step>, f: nat)
    requires ListedAbove(c, f) && CodeRun(c, es) && RepsBelow(es, f)
    ensures ListedAbove(CodeAfter(c, es), f)
    decreases |es|
  {
    hide ListedAbove, Can, Do;
    if es == [] {
    } else {
      assert es[0] in es && forall e | e in es[1..] :: e in es;
      match es[0] {
        case Ask(xid, rep, junk) => AskKeepsListed(c, xid, rep, junk, f);
        case Answer(i, reply) => AnswerKeepsListed(c, i, reply, f);
      }
      ListedStays(Do(c, es[0]), es[1..], f);
    }
  }

  /** In every run of the code: while no request has reported more than f, a call above f that ran is
      still listed, and no copy of its request starts the handler again, whatever the copy reports. */
  lemma WaitingCallIsKept(es: seq<Step>, f: nat, xid: nat, rep: nat, junk: nat)
    requires CodeRun(NO_CALLS, es) && RepsBelow(es, f) && xid > f && xid in CodeAfter(NO_CALLS, es).ran
    requires rep <= xid
    ensures var c := CodeAfter(NO_CALLS, es);
            && Has(c.list, xid)
            && (Can(c, Ask(xid, rep, junk)) ==> Do(c, Ask(xid, rep, junk)).ran == c.ran)
  {
    hide CodeRun, CodeAfter;
    ListedStays(NO_CALLS, es, f);
    CodeExactly(CodeAfter(NO_CALLS, es).list, xid, rep, junk);
  }

  // ----- runs of one client, its bind first -----

  lemma {:induction false} CodeOn(es: seq<Step>, c: Code, d: Code, e: Step)
    requires CodeRun(c, es) && CodeAfter(c, es) == d && Can(d, e)
    ensures CodeRun(c, es + [e]) && CodeAfter(c, es + [e]) == Do(d, e)
    decreases |es|
  {
    hide Can, Do;
    if es == [] {
      var f := [e];
      assert es + [e] == f && f[0] == e && f[1..] == [];
      assert CodeRun(Do(d, e), []) && CodeAfter(Do(d, e), []) == Do(d, e);
      assert CodeRun(d, f) && CodeAfter(d, f) == Do(d, e);
    } else {
      assert (es + [e])[0] == es[0] && (es + [e])[1..] == es[1..] + [e];
      CodeOn(es[1..], Do(c, es[0]), d, e);
    }
  }

  /** Where nothing is due the loop erases nothing. */
  lemma {:induction false} WalkKeepsAll(l: seq<Slot>, i: nat, xid: nat, rep: nat)
    requires i <= |l| && !Has(l[i..], xid) && forall s | s in l :: s.xid >= rep
    ensures Walk(l, i, xid, rep) == Through(l)
    decreases |l| - i
  {
    if i == |l| {
    } else {
      assert l[i] in l && l[i..] == [l[i]] + l[i + 1..];
      HasCons(l[i], l[i + 1..], xid);
      WalkKeepsAll(l, i + 1, xid, rep);
    }
  }

  lemma {:induction false} InsertedLast(l: seq<Slot>, xid: nat)
    requires forall s | s in l :: s.xid < xid
    ensures Inserted(l, xid) == l + [Slot(xid, None)]
  {
    if l == [] {
      assert Inserted(l, xid) == [Slot(xid, None)];
    } else {
      InsertedLast(l[1..], xid);
      assert l == [l[0]] + l[1..];
    }
  }

  function Done(xid: nat): Slot { Slot(xid, Some(xid)) }

  /** The code run from no calls is in state c. */
  ghost predicate Comes(es: seq<Step>, c: Code) { CodeRun(NO_CALLS, es) && CodeAfter(NO_CALLS, es) == c }

  lemma Goes(es: seq<Step>, c: Code, e: Step, d: Code) returns (fs: seq<Step>)
    requires Comes(es, c) && Can(c, e) && Do(c, e) == d
    ensures Comes(fs, d)
  {
    CodeOn(es, NO_CALLS, c, e);
    fs := es + [e];
  }

  /** A next call for which nothing is due, and its answer. */
  lemma Calls(es: seq<Step>, c: Code, xid: nat, rep: nat, l: seq<Slot>, ran: seq<nat>) returns (fs: seq<Step>)
    requires Comes(es, c) && rep <= xid && forall s | s in c.list :: rep <= s.xid < xid
    requires l == c.list + [Done(xid)] && ran == c.ran + [xid]
    ensures Comes(fs, Code(l, ran))
  {
    hide Comes;
    assert c.list[0..] == c.list && !Has(c.list, xid);
    WalkKeepsAll(c.list, 0, xid, rep);
    InsertedLast(c.list, xid);
    var d := Code(c.list + [Slot(xid, None)], ran);
    assert c.list != [] ==> c.list[0] in c.list;
    fs := Goes(es, c, Ask(xid, rep, 0), d);
    var i := |c.list|;
    assert d.list[i := d.list[i].(reply := Some(xid))] == l;
    fs := Goes(fs, d, Answer(i, xid), Code(l, ran));
  }

  lemma BindAnswered() returns (es: seq<Step>)
    ensures Comes(es, Code([Done(1)], [1]))
  {
    assert Comes([], NO_CALLS);
    es := Calls([], NO_CALLS, 1, 0, [Done(1)], [1]);
  }

  lemma FirstErased()
    ensures CodeStep([Done(1), Done(2)], 5, 3, 0) == Some(([Done(2), Slot(5, None)], NEW))
    ensures CodeStep([Done(2), Slot(5, None)], 6, 3, 0) == Some(([Slot(5, None), Slot(6, None)], NEW))
  {
    var a, b, c := [Done(1), Done(2)], [Done(2)], [Slot(5, None)];
    assert a[..0] + a[1..] == b && Walk(b, 1, 5, 3) == Through(b) && Walk(a, 0, 5, 3) == Through(b);
    InsertedLast(b, 5);
    assert b + [Slot(5, None)] == [Done(2), Slot(5, None)];
    var d := [Done(2), Slot(5, None)];
    assert d[..0] + d[1..] == c && Walk(c, 1, 6, 3) == Through(c) && Walk(d, 0, 6, 3) == Through(c);
    InsertedLast(c, 6);
    assert c + [Slot(6, None)] == [Slot(5, None), Slot(6, None)];
  }

  /** Calls 1 and 2 are answered and call 3 is given up; calls 5 and 6 arrive before call 4. The code
      refuses call 4, which it has never seen and whose caller is waiting; the documented rule runs it. */
  lemma CodeRefusesUnseenCall() returns (es: seq<Step>)
    ensures CodeRun(NO_CALLS, es) && CodeAfter(NO_CALLS, es).ran == [1, 2, 5, 6]
    ensures CodeStep(CodeAfter(NO_CALLS, es).list, 4, 3, 0) == Some(([Slot(5, None), Slot(6, None)], FORGOTTEN))
    ensures var w := Check(Win(0, map[1 := Some(1), 2 := Some(2)]), 5, 3).0;
            Check(Check(w, 6, 3).0, 4, 3).1 == NEW
  {
    es := BindAnswered();
    hide CodeRun, CodeAfter;
    es := Calls(es, Code([Done(1)], [1]), 2, 1, [Done(1), Done(2)], [1, 2]);
    FirstErased();
    assert [1, 2] + [5] == [1, 2, 5] && [1, 2, 5] + [6] == [1, 2, 5, 6];
    es := Goes(es, Code([Done(1), Done(2)], [1, 2]), Ask(5, 3, 0), Code([Done(2), Slot(5, None)], [1, 2, 5]));
    es := Goes(es, Code([Done(2), Slot(5, None)], [1, 2, 5]), Ask(6, 3, 0),
               Code([Slot(5, None), Slot(6, None)], [1, 2, 5, 6]));
  }

  lemma PassesTo(l: seq<Slot>, i: nat, xid: nat, rep: nat, m: seq<Slot>)
    requires i + 1 < |l| && Gone(l[i], rep) && m == l[..i] + l[i + 1..] && m[i].xid != xid
    ensures Walk(l, i, xid, rep) == Walk(m, i + 1, xid, rep)
  {
  }

  /** Call 6 reports calls 1 to 5: the loop erases 1 and 3 and skips 2 and 4. */
  lemma EveryOther()
    ensures CodeStep([Done(1), Done(2), Done(3), Done(4), Done(5)], 6, 5, 0) ==
            Some(([Done(2), Done(4), Done(5), Slot(6, None)], NEW))
  {
    var a, b := [Done(1), Done(2), Done(3), Done(4), Done(5)], [Done(2), Done(3), Done(4), Done(5)];
    var c := [Done(2), Done(4), Done(5)];
    LastStays(c);
    hide Walk, Inserted;
    PassesTo(a, 0, 6, 5, b);
    assert b[..1] + b[2..] == c;
    PassesTo(b, 1, 6, 5, c);
    assert c + [Slot(6, None)] == [Done(2), Done(4), Done(5), Slot(6, None)];
  }

  lemma LastStays(c: seq<Slot>)
    requires c == [Done(2), Done(4), Done(5)]
    ensures Walk(c, 2, 6, 5) == Through(c) && Inserted(c, 6) == c + [Slot(6, None)]
  {
    assert Walk(c, 3, 6, 5) == Through(c);
    InsertedLast(c, 6);
  }

  lemma FiveAnswered() returns (es: seq<Step>)
    ensures Comes(es, Code([Done(1), Done(2), Done(3), Done(4), Done(5)], [1, 2, 3, 4, 5]))
  {
    hide Comes;
    es := BindAnswered();
    es := Calls(es, Code([Done(1)], [1]), 2, 1, [Done(1), Done(2)], [1, 2]);
    es := Calls(es, Code([Done(1), Done(2)], [1, 2]), 3, 1, [Done(1), Done(2), Done(3)], [1, 2, 3]);
    es := Calls(es, Code([Done(1), Done(2), Done(3)], [1, 2, 3]), 4, 1,
                [Done(1), Done(2), Done(3), Done(4)], [1, 2, 3, 4]);
    es := Calls(es, Code([Done(1), Done(2), Done(3), Done(4)], [1, 2, 3, 4]), 5, 1,
                [Done(1), Done(2), Done(3), Done(4), Done(5)], [1, 2, 3, 4, 5]);
  }

  /** The bind and calls 2 to 5 are answered; call 6 reports them; then a late copy of the request for
      call 3 arrives: it runs a second time, where the documented rule has forgotten it. */
  lemma CodeRunsCallAgain() returns (es: seq<Step>)
    ensures CodeRun(NO_CALLS, es) && CodeAfter(NO_CALLS, es).ran == [1, 2, 3, 4, 5, 6, 3]
    ensures var w := Check(Win(0, map[1 := Some(1), 2 := Some(2), 3 := Some(3), 4 := Some(4), 5 := Some(5)]), 6, 5).0;
            Check(w, 3, 1).1 == FORGOTTEN
  {
    hide CodeRun, CodeAfter;
    es := FiveAnswered();
    EveryOther();
    var d := Code([Done(2), Done(4), Done(5), Slot(6, None)], [1, 2, 3, 4, 5, 6]);
    assert [1, 2, 3, 4, 5] + [6] == d.ran && d.ran + [3] == [1, 2, 3, 4, 5, 6, 3];
    es := Goes(es, Code([Done(1), Done(2), Done(3), Done(4), Done(5)], [1, 2, 3, 4, 5]), Ask(6, 5, 0), d);
    var l := d.list;
    assert l[0..] == l && !Has(l, 3);
    WalkKeepsAll(l, 0, 3, 1);
    es := Goes(es, d, Ask(3, 1, 0), Code(Inserted(l, 3), d.ran + [3]));
  }
}
