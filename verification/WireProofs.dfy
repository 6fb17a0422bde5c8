/** Reading gives back what was written, and a message cut short is noticed. */
module WireProofs {
  import opened Wire

  function Skip(u: Reader, n: nat): Reader { u.(ind := u.ind + n) }

  /** The bytes bs come next. */
  predicate Comes(u: Reader, bs: seq<byte>) {
    u.ind + |bs| <= |u.buf| && u.buf[u.ind..u.ind + |bs|] == bs
  }

  lemma ComesSplit(u: Reader, bs: seq<byte>, cs: seq<byte>)
    requires Comes(u, bs + cs)
    ensures Comes(u, bs) && Comes(Skip(u, |bs|), cs)
  {
    assert bs == (bs + cs)[..|bs|] == u.buf[u.ind..u.ind + |bs + cs|][..|bs|];
    assert cs == (bs + cs)[|bs|..] == u.buf[u.ind..u.ind + |bs + cs|][|bs|..];
  }

  lemma {:induction false} NumberComes(u: Reader, bs: seq<byte>)
    requires Comes(u, bs)
    ensures ReadNumber(u, |bs|) == (Skip(u, |bs|), Number(bs))
  {
    if bs == [] {
    } else {
      var init := bs[..|bs| - 1];
      assert bs == init + [bs[|bs| - 1]];
      ComesSplit(u, init, [bs[|bs| - 1]]);
      NumberComes(u, init);
    }
  }

  lemma {:induction false} PutKeyAppends(es: seq<Val>, e: Val)
    requires e.Pair? && Ordered(es + [e])
    ensures PutKey(es, e.a, e.b) == es + [e]
  {
    var all := es + [e];
    if es == [] {
    } else {
      assert all[0] in all && Below(all[0].a, all[|es|].a);
      assert es[1..] + [e] == all[1..];
      forall x | x in all[1..] ensures x in all {}
      PutKeyAppends(es[1..], e);
    }
  }

  // ----- the round trip -----

  lemma {:induction false} ReadBack(u: Reader, v: Val, ty: Ty)
    requires Fits(v, ty) && Comes(u, Encode(v, ty)) && u.ok
    ensures Read(u, ty) == (Skip(u, |Encode(v, ty)|), v)
    decreases Size(ty), 2, 0
  {
    match ty
    case TPair(a, b) =>
      ComesSplit(u, Encode(v.a, a), Encode(v.b, b));
      ReadBack(u, v.a, a);
      ReadBack(Skip(u, |Encode(v.a, a)|), v.b, b);
    case TVector(e) => VectorBack(u, v, e);
    case TMap(k, x) => MapBack(u, v, k, x);
    case TString => StringBack(u, v);
    case TUnsigned(w) => UnsignedBack(u, v, w);
    case TSigned(w) => SignedBack(u, v, w);
    case TUnit =>
    case TBool =>
  }

  lemma {:induction false} VectorBack(u: Reader, v: Val, e: Ty)
    requires Fits(v, TVector(e)) && Comes(u, Encode(v, TVector(e))) && u.ok
    ensures Read(u, TVector(e)) == (Skip(u, |Encode(v, TVector(e))|), v)
    decreases Size(TVector(e)), 1, 0
  {
    hide Bytes, ReadNumber, AllFit, EncodeAll, ReadMany;
    CountBack(u, |v.vs|, EncodeAll(v.vs, e));
    assert [] + v.vs == v.vs;
    ReadManyBack(Skip(u, 4), v.vs, e, []);
  }

  lemma {:induction false} MapBack(u: Reader, v: Val, k: Ty, x: Ty)
    requires Fits(v, TMap(k, x)) && Comes(u, Encode(v, TMap(k, x))) && u.ok
    ensures Read(u, TMap(k, x)) == (Skip(u, |Encode(v, TMap(k, x))|), v)
    decreases Size(TMap(k, x)), 1, 0
  {
    hide Bytes, ReadNumber, AllFit, EncodeAll, ReadEntries, Ordered;
    CountBack(u, |v.es|, EncodeAll(v.es, TPair(k, x)));
    assert [] + v.es == v.es;
    ReadEntriesBack(Skip(u, 4), v.es, k, x, []);
  }

  lemma StringBack(u: Reader, v: Val)
    requires Fits(v, TString) && Comes(u, Encode(v, TString)) && u.ok
    ensures Read(u, TString) == (Skip(u, |Encode(v, TString)|), v)
  {
    hide Bytes, ReadNumber;
    CountBack(u, |v.s|, v.s);
  }

  lemma UnsignedBack(u: Reader, v: Val, w: nat)
    requires Fits(v, TUnsigned(w)) && Comes(u, Encode(v, TUnsigned(w))) && u.ok
    ensures Read(u, TUnsigned(w)) == (Skip(u, |Encode(v, TUnsigned(w))|), v)
  {
    NumberOfBytes(v.n, w);
    NumberComes(u, Bytes(v.n, w));
  }

  lemma SignedBack(u: Reader, v: Val, w: nat)
    requires Fits(v, TSigned(w)) && Comes(u, Encode(v, TSigned(w))) && u.ok
    ensures Read(u, TSigned(w)) == (Skip(u, |Encode(v, TSigned(w))|), v)
  {
    hide Bytes, ReadNumber, Power, Comes, Number;
    var n := if v.n < 0 then v.n + Power(w) else v.n;
    NumberOfBytes(n, w);
    NumberComes(u, Bytes(n, w));
  }

  lemma CountBack(u: Reader, n: nat, rest: seq<byte>)
    requires n < TWO32 && Comes(u, Bytes(n, 4) + rest)
    ensures ReadNumber(u, 4) == (Skip(u, 4), n) && Comes(Skip(u, 4), rest)
  {
    ComesSplit(u, Bytes(n, 4), rest);
    assert Power(4) == TWO32;
    NumberOfBytes(n, 4);
    NumberComes(u, Bytes(n, 4));
  }

  lemma {:induction false} ReadManyBack(u: Reader, vs: seq<Val>, ty: Ty, acc: seq<Val>)
    requires AllFit(vs, ty) && Comes(u, EncodeAll(vs, ty)) && u.ok
    ensures ReadMany(u, ty, |vs|, acc) == (Skip(u, |EncodeAll(vs, ty)|), acc + vs)
    decreases Size(ty), 3, |vs|
  {
    hide Encode, Read, Fits;
    if vs == [] {
      assert acc + vs == acc;
    } else {
      ComesSplit(u, Encode(vs[0], ty), EncodeAll(vs[1..], ty));
      ReadBack(u, vs[0], ty);
      ReadManyBack(Skip(u, |Encode(vs[0], ty)|), vs[1..], ty, acc + [vs[0]]);
      assert acc + [vs[0]] + vs[1..] == acc + vs;
    }
  }

  lemma {:induction false} ReadEntriesBack(u: Reader, es: seq<Val>, k: Ty, x: Ty, acc: seq<Val>)
    requires AllFit(es, TPair(k, x)) && Comes(u, EncodeAll(es, TPair(k, x))) && u.ok && Ordered(acc + es)
    ensures ReadEntries(u, k, x, |es|, acc) == (Skip(u, |EncodeAll(es, TPair(k, x))|), acc + es)
    decreases Size(k) + Size(x) + 1, 3, |es|
  {
    hide Encode, Read, Fits, Ordered, PutKey;
    if es == [] {
      assert acc + es == acc;
    } else {
      var e, ty := es[0], TPair(k, x);
      ComesSplit(u, Encode(e, ty), EncodeAll(es[1..], ty));
      ReadBack(u, e, ty);
      EntryStep(u, k, x, |es|, acc);
      assert acc + es == acc + [e] + es[1..];
      OrderedPrefix(acc + [e], es[1..]);
      assert e.Pair? by { assert Fits(e, ty); PairsArePairs(e, k, x); }
      PutKeyAppends(acc, e);
      ReadEntriesBack(Skip(u, |Encode(e, ty)|), es[1..], k, x, acc + [e]);
    }
  }

  lemma PairsArePairs(e: Val, k: Ty, x: Ty)
    requires Fits(e, TPair(k, x))
    ensures e.Pair?
  {
  }

  /** Reading an entry is reading a pair. */
  lemma EntryStep(u: Reader, k: Ty, x: Ty, n: nat, acc: seq<Val>)
    requires n > 0
    ensures var (u2, e) := Read(u, TPair(k, x));
            e.Pair? && ReadEntries(u, k, x, n, acc) == ReadEntries(u2, k, x, n - 1, PutKey(acc, e.a, e.b))
  {
  }

  lemma OrderedPrefix(es: seq<Val>, fs: seq<Val>)
    requires Ordered(es + fs)
    ensures Ordered(es)
  {
    forall e | e in es ensures e.Pair? { assert e in es + fs; }
    forall i, j | 0 <= i < j < |es| ensures Below(es[i].a, es[j].a) {
      assert (es + fs)[i] == es[i] && (es + fs)[j] == es[j];
    }
  }

  // ----- the sticky flag -----

  lemma {:induction false} NumberSticks(u: Reader, w: nat)
    requires !u.ok
    ensures !ReadNumber(u, w).0.ok
  {
    if w == 0 {
    } else {
      NumberSticks(u, w - 1);
    }
  }

  lemma {:induction false} ReadSticks(u: Reader, ty: Ty)
    requires !u.ok
    ensures !Read(u, ty).0.ok
    decreases Size(ty), 0, 0
  {
    match ty
    case TBool =>
    case TUnsigned(w) => NumberSticks(u, w);
    case TSigned(w) => NumberSticks(u, w);
    case TString => NumberSticks(u, 4);
    case TUnit =>
    case TPair(a, b) =>
      ReadSticks(u, a);
      ReadSticks(Read(u, a).0, b);
    case TVector(e) =>
      NumberSticks(u, 4);
      ManySticks(ReadNumber(u, 4).0, e, ReadNumber(u, 4).1, []);
    case TMap(k, x) =>
      NumberSticks(u, 4);
      EntriesStick(ReadNumber(u, 4).0, k, x, ReadNumber(u, 4).1, []);
  }

  lemma {:induction false} ManySticks(u: Reader, ty: Ty, n: nat, acc: seq<Val>)
    requires !u.ok
    ensures !ReadMany(u, ty, n, acc).0.ok
    decreases Size(ty), 1, n
  {
    if n == 0 {
    } else {
      ReadSticks(u, ty);
      ManySticks(Read(u, ty).0, ty, n - 1, acc + [Read(u, ty).1]);
    }
  }

  lemma {:induction false} EntriesStick(u: Reader, k: Ty, x: Ty, n: nat, acc: seq<Val>)
    requires !u.ok
    ensures !ReadEntries(u, k, x, n, acc).0.ok
    decreases Size(k) + Size(x) + 1, 1, n
  {
    if n == 0 {
    } else {
      ReadSticks(u, k);
      var (u1, a) := Read(u, k);
      ReadSticks(u1, x);
      var (u2, b) := Read(u1, x);
      EntriesStick(u2, k, x, n - 1, PutKey(acc, a, b));
    }
  }

  // ----- messages cut short -----

  /** The buffer ends strictly inside bs. */
  predicate EndsIn(u: Reader, bs: seq<byte>) {
    u.ind <= |u.buf| < u.ind + |bs| && u.buf[u.ind..] == bs[..|u.buf| - u.ind]
  }

  lemma EndsInSplit(u: Reader, bs: seq<byte>, cs: seq<byte>)
    requires EndsIn(u, bs + cs)
    ensures EndsIn(u, bs) || (Comes(u, bs) && EndsIn(Skip(u, |bs|), cs))
  {
    var n := |u.buf| - u.ind;
    var left := u.buf[u.ind..];
    assert left == (bs + cs)[..n];
    if n < |bs| {
      assert left == bs[..n];
    } else {
      assert u.buf[u.ind..u.ind + |bs|] == left[..|bs|] == (bs + cs)[..n][..|bs|] == bs;
      assert u.buf[u.ind + |bs|..] == left[|bs|..] == (bs + cs)[..n][|bs|..] == cs[..n - |bs|];
    }
  }

  lemma {:induction false} NumberEndsIn(u: Reader, bs: seq<byte>)
    requires EndsIn(u, bs)
    ensures !ReadNumber(u, |bs|).0.ok
  {
    var init := bs[..|bs| - 1];
    assert bs == init + [bs[|bs| - 1]];
    EndsInSplit(u, init, [bs[|bs| - 1]]);
    if EndsIn(u, init) { NumberEndsIn(u, init); } else { NumberComes(u, init); }
  }

  lemma {:induction false} CutIsNoticed(u: Reader, v: Val, ty: Ty)
    requires Fits(v, ty) && EndsIn(u, Encode(v, ty)) && u.ok
    ensures !Read(u, ty).0.ok
    decreases Size(ty), 0, 0
  {
    match ty
    case TBool =>
    case TUnsigned(w) => NumberEndsIn(u, Bytes(v.n, w));
    case TSigned(w) => NumberEndsIn(u, Bytes(if v.n < 0 then v.n + Power(w) else v.n, w));
    case TString => CutCount(u, |v.s|, v.s);
    case TPair(a, b) =>
      EndsInSplit(u, Encode(v.a, a), Encode(v.b, b));
      if EndsIn(u, Encode(v.a, a)) {
        CutIsNoticed(u, v.a, a);
        ReadSticks(Read(u, a).0, b);
      } else {
        ReadBack(u, v.a, a);
        CutIsNoticed(Skip(u, |Encode(v.a, a)|), v.b, b);
      }
    case TVector(e) =>
      CutCount(u, |v.vs|, EncodeAll(v.vs, e));
      if ReadNumber(u, 4).0.ok { CutMany(Skip(u, 4), v.vs, e, []); }
      else { ManySticks(ReadNumber(u, 4).0, e, ReadNumber(u, 4).1, []); }
    case TMap(k, x) =>
      CutCount(u, |v.es|, EncodeAll(v.es, TPair(k, x)));
      if ReadNumber(u, 4).0.ok {
        assert [] + v.es == v.es;
        CutEntries(Skip(u, 4), v.es, k, x, []);
      } else {
        EntriesStick(ReadNumber(u, 4).0, k, x, ReadNumber(u, 4).1, []);
      }
  }

  /** Either the count is cut, or it is read and the rest is cut. */
  lemma CutCount(u: Reader, n: nat, rest: seq<byte>)
    requires n < TWO32 && EndsIn(u, Bytes(n, 4) + rest) && u.ok
    ensures ReadNumber(u, 4).0.ok ==> ReadNumber(u, 4) == (Skip(u, 4), n) && EndsIn(Skip(u, 4), rest)
  {
    EndsInSplit(u, Bytes(n, 4), rest);
    if EndsIn(u, Bytes(n, 4)) {
      NumberEndsIn(u, Bytes(n, 4));
    } else {
      assert Power(4) == TWO32;
      NumberOfBytes(n, 4);
      NumberComes(u, Bytes(n, 4));
    }
  }

  lemma {:induction false} CutMany(u: Reader, vs: seq<Val>, ty: Ty, acc: seq<Val>)
    requires AllFit(vs, ty) && EndsIn(u, EncodeAll(vs, ty)) && u.ok
    ensures !ReadMany(u, ty, |vs|, acc).0.ok
    decreases Size(ty), 1, |vs|
  {
    EndsInSplit(u, Encode(vs[0], ty), EncodeAll(vs[1..], ty));
    if EndsIn(u, Encode(vs[0], ty)) {
      CutIsNoticed(u, vs[0], ty);
      ManySticks(Read(u, ty).0, ty, |vs| - 1, acc + [Read(u, ty).1]);
    } else {
      ReadBack(u, vs[0], ty);
      CutMany(Skip(u, |Encode(vs[0], ty)|), vs[1..], ty, acc + [vs[0]]);
    }
  }

  lemma {:induction false} CutEntries(u: Reader, es: seq<Val>, k: Ty, x: Ty, acc: seq<Val>)
    requires AllFit(es, TPair(k, x)) && EndsIn(u, EncodeAll(es, TPair(k, x))) && u.ok
    ensures !ReadEntries(u, k, x, |es|, acc).0.ok
    decreases Size(k) + Size(x) + 1, 1, |es|
  {
    hide Read, ReadEntries, Encode, Fits, PutKey;
    var e, ty := es[0], TPair(k, x);
    EndsInSplit(u, Encode(e, ty), EncodeAll(es[1..], ty));
    EntryStep(u, k, x, |es|, acc);
    var (u2, f) := Read(u, ty);
    if EndsIn(u, Encode(e, ty)) {
      CutIsNoticed(u, e, ty);
      EntriesStick(u2, k, x, |es| - 1, PutKey(acc, f.a, f.b));
    } else {
      ReadBack(u, e, ty);
      CutEntries(u2, es[1..], k, x, PutKey(acc, f.a, f.b));
    }
  }

  // ----- whole messages -----

  const HEADER_SIZE := 24

  predicate OkDone(u: Reader) { u.ok && u.ind == |u.buf| }

  /** Unmarshalling the content of a message gives the value marshalled and ends exactly at its end;
      of any strict prefix it ends with the flag down. */
  lemma MessageRoundTrip(header: seq<byte>, v: Val, ty: Ty)
    requires |header| == HEADER_SIZE && Fits(v, ty)
    ensures var (u, x) := Read(Reader(header + Encode(v, ty), HEADER_SIZE, true), ty); OkDone(u) && x == v
    ensures forall n: nat | n < |Encode(v, ty)| ::
              !Read(Reader(header + Encode(v, ty)[..n], HEADER_SIZE, true), ty).0.ok
  {
    var bs := Encode(v, ty);
    var u := Reader(header + bs, HEADER_SIZE, true);
    assert u.buf[HEADER_SIZE..HEADER_SIZE + |bs|] == bs;
    ReadBack(u, v, ty);
    forall n: nat | n < |bs| ensures !Read(Reader(header + bs[..n], HEADER_SIZE, true), ty).0.ok {
      assert (header + bs[..n])[HEADER_SIZE..] == bs[..n];
      CutIsNoticed(Reader(header + bs[..n], HEADER_SIZE, true), v, ty);
    }
  }

  // ----- what the bytes are -----

  /** A string, vector or map starts with its count, in four bytes. */
  lemma CountFirst(v: Val, ty: Ty)
    requires Fits(v, ty) && (ty.TString? || ty.TVector? || ty.TMap?)
    ensures var bs := Encode(v, ty);
            |bs| >= 4 && Number(bs[..4]) == if ty.TString? then |v.s| else if ty.TVector? then |v.vs| else |v.es|
    ensures ty.TString? ==> Encode(v, ty)[4..] == v.s
  {
    var n := if ty.TString? then |v.s| else if ty.TVector? then |v.vs| else |v.es|;
    assert Power(4) == TWO32;
    NumberOfBytes(n, 4);
    assert Encode(v, ty)[..4] == Bytes(n, 4);
  }

  /** Numbers are written in two's complement; a flag is one byte; a pair is its first part, then its
      second. */
  lemma PartsInOrder(v: Val, ty: Ty)
    requires Fits(v, ty)
    ensures var bs := Encode(v, ty);
            && (ty.TBool? ==> bs == [if v.flag then 1 else 0])
            && (ty.TUnsigned? ==> |bs| == ty.w && Number(bs) == v.n)
            && (ty.TSigned? ==> |bs| == ty.w && (Number(bs) == v.n || Number(bs) == v.n + Power(ty.w)))
            && (ty.TPair? ==> bs == Encode(v.a, ty.a) + Encode(v.b, ty.b))
  {
    if ty.TUnsigned? {
      NumberOfBytes(v.n, ty.w);
    } else if ty.TSigned? {
      NumberOfBytes(if v.n < 0 then v.n + Power(ty.w) else v.n, ty.w);
    }
  }

  /** Any byte but zero reads as true; past the end a zero is read, the flag falls and the position
      stays. */
  lemma ByteReads(u: Reader)
    ensures u.ind < |u.buf| ==>
              ReadByte(u) == (Skip(u, 1), u.buf[u.ind]) && Read(u, TBool) == (Skip(u, 1), Bool(u.buf[u.ind] != 0))
    ensures u.ind >= |u.buf| ==> ReadByte(u) == (u.(ok := false), 0) && Read(u, TBool).1 == Bool(false)
  {
  }
}
