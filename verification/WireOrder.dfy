/** The order of keys is a strict total order on the values of a type, and whatever bytes come,
    reading gives a value of the type asked for. */
module WireOrder {
  import opened Wire

  lemma {:induction false} BytesOrder(s: seq<byte>, t: seq<byte>, r: seq<byte>)
    ensures !BytesBelow(s, s) && (BytesBelow(s, t) || s == t || BytesBelow(t, s))
    ensures BytesBelow(s, t) && BytesBelow(t, r) ==> BytesBelow(s, r)
  {
    if s != [] && t != [] && s[0] == t[0] {
      assert s == [s[0]] + s[1..] && t == [t[0]] + t[1..];
      BytesOrder(s[1..], t[1..], if r == [] then [] else r[1..]);
    } else if s != [] {
      BytesOrder(s[1..], [], []);
    }
  }

  lemma {:induction false} NotBelowItself(v: Val)
    ensures !Below(v, v)
    decreases v
  {
    match v
    case Bool(_) =>
    case Num(_) =>
    case Str(s) => BytesOrder(s, s, s);
    case Unit =>
    case Pair(a, b) => NotBelowItself(a); NotBelowItself(b);
    case Vec(vs) => NoneBelowItself(vs);
    case Map(es) => NoneBelowItself(es);
  }

  lemma {:induction false} NoneBelowItself(vs: seq<Val>)
    ensures !AllBelow(vs, vs)
    decreases vs
  {
    if vs == [] {
    } else {
      NotBelowItself(vs[0]);
      NoneBelowItself(vs[1..]);
    }
  }

  lemma {:induction false} BelowCarries(v: Val, w: Val, z: Val)
    requires Below(v, w) && Below(w, z)
    ensures Below(v, z)
    decreases v
  {
    match v
    case Bool(_) =>
    case Num(_) =>
    case Str(s) => BytesOrder(s, w.s, z.s);
    case Pair(a, b) =>
      if Below(a, w.a) && Below(w.a, z.a) { BelowCarries(a, w.a, z.a); }
      if Below(b, w.b) && Below(w.b, z.b) { BelowCarries(b, w.b, z.b); }
    case Vec(vs) => AllBelowCarries(vs, w.vs, z.vs);
    case Map(es) => AllBelowCarries(es, w.es, z.es);
  }

  lemma {:induction false} AllBelowCarries(vs: seq<Val>, ws: seq<Val>, zs: seq<Val>)
    requires AllBelow(vs, ws) && AllBelow(ws, zs)
    ensures AllBelow(vs, zs)
    decreases vs
  {
    if vs == [] {
    } else if Below(vs[0], ws[0]) && Below(ws[0], zs[0]) {
      BelowCarries(vs[0], ws[0], zs[0]);
    } else if vs[0] == ws[0] == zs[0] {
      AllBelowCarries(vs[1..], ws[1..], zs[1..]);
    }
  }

  /** Two values of one type are ordered one way or equal. */
  lemma {:induction false} OneWay(v: Val, w: Val, ty: Ty)
    requires Fits(v, ty) && Fits(w, ty)
    ensures Below(v, w) || v == w || Below(w, v)
    decreases Size(ty), 0
  {
    match ty
    case TString => BytesOrder(v.s, w.s, []);
    case TPair(a, b) => OneWay(v.a, w.a, a); OneWay(v.b, w.b, b);
    case TVector(e) => AllOneWay(v.vs, w.vs, e);
    case TMap(k, x) => AllOneWay(v.es, w.es, TPair(k, x));
    case _ =>
  }

  lemma {:induction false} AllOneWay(vs: seq<Val>, ws: seq<Val>, ty: Ty)
    requires AllFit(vs, ty) && AllFit(ws, ty)
    ensures AllBelow(vs, ws) || vs == ws || AllBelow(ws, vs)
    decreases Size(ty), |vs| + 1
  {
    if vs == [] || ws == [] {
    } else {
      assert vs == [vs[0]] + vs[1..] && ws == [ws[0]] + ws[1..];
      OneWay(vs[0], ws[0], ty);
      AllOneWay(vs[1..], ws[1..], ty);
    }
  }

  /** The order of keys is strict and total on each type. */
  lemma KeysAreOrdered(v: Val, w: Val, z: Val, ty: Ty)
    requires Fits(v, ty) && Fits(w, ty)
    ensures !Below(v, v) && (Below(v, w) || v == w || Below(w, v))
    ensures Below(v, w) && Below(w, z) ==> Below(v, z)
  {
    NotBelowItself(v);
    OneWay(v, w, ty);
    if Below(v, w) && Below(w, z) { BelowCarries(v, w, z); }
  }

  // ----- a map stays a map -----

  predicate KeysFit(es: seq<Val>, k: Ty) { forall e | e in es :: e.Pair? && Fits(e.a, k) }

  lemma OrderedRest(es: seq<Val>)
    requires es != [] && Ordered(es)
    ensures es[0].Pair? && Ordered(es[1..]) && forall f | f in es[1..] :: f in es && Below(es[0].a, f.a)
  {
    assert es[0] in es;
    forall f | f in es[1..] ensures f in es {}
    forall i, j | 0 <= i < j < |es[1..]| ensures Below(es[1..][i].a, es[1..][j].a) {
      assert es[1..][i] == es[i + 1] && es[1..][j] == es[j + 1];
    }
    forall f | f in es[1..] ensures Below(es[0].a, f.a) {
      var i :| 0 <= i < |es[1..]| && es[1..][i] == f;
      assert es[i + 1] == f;
    }
  }

  lemma OrderedMore(e: Val, es: seq<Val>)
    requires e.Pair? && Ordered(es) && forall f | f in es :: Below(e.a, f.a)
    ensures Ordered([e] + es)
  {
    var all := [e] + es;
    forall i, j | 0 <= i < j < |all| ensures Below(all[i].a, all[j].a) {
      assert all[j] == es[j - 1] && es[j - 1] in es;
      if i > 0 { assert all[i] == es[i - 1]; }
    }
  }

  /** The entries after d[k] = x: the new one, and the old ones under other keys. */
  ghost predicate Updates(es: seq<Val>, k: Val, x: Val, fs: seq<Val>) {
    && Ordered(fs) && |fs| <= |es| + 1
    && (forall e :: e in fs <==> e == Pair(k, x) || (e in es && e.Pair? && e.a != k))
  }

  lemma {:induction false} PutKeyUpdates(es: seq<Val>, k: Val, x: Val, key: Ty)
    requires Ordered(es) && KeysFit(es, key) && Fits(k, key)
    ensures Updates(es, k, x, PutKey(es, k, x))
  {
    if es == [] {
      OrderedMore(Pair(k, x), []);
    } else {
      OrderedRest(es);
      assert es[0] in es && es == [es[0]] + es[1..];
      OneWay(es[0].a, k, key);
      NotBelowItself(k);
      if Below(es[0].a, k) {
        PutKeyUpdates(es[1..], k, x, key);
        OrderedMore(es[0], PutKey(es[1..], k, x));
      } else if Below(k, es[0].a) {
        PutKeyInFront(es, k, x);
      } else {
        PutKeyInPlace(es, k, x);
      }
    }
  }

  lemma PutKeyInFront(es: seq<Val>, k: Val, x: Val)
    requires es != [] && Ordered(es) && es[0].Pair? && Below(k, es[0].a)
    ensures Updates(es, k, x, [Pair(k, x)] + es)
  {
    OrderedRest(es);
    assert es == [es[0]] + es[1..];
    forall f | f in es ensures Below(k, f.a) && f.a != k {
      if f != es[0] { BelowCarries(k, es[0].a, f.a); }
      NotBelowItself(k);
    }
    OrderedMore(Pair(k, x), es);
  }

  lemma PutKeyInPlace(es: seq<Val>, k: Val, x: Val)
    requires es != [] && Ordered(es) && es[0].Pair? && k == es[0].a
    ensures Updates(es, k, x, [Pair(k, x)] + es[1..])
  {
    OrderedRest(es);
    assert es == [es[0]] + es[1..];
    NotBelowItself(k);
    OrderedMore(Pair(k, x), es[1..]);
  }

  // ----- any bytes read as a value of the type -----

  lemma {:induction false} AllFitIs(vs: seq<Val>, ty: Ty)
    ensures AllFit(vs, ty) <==> forall v | v in vs :: Fits(v, ty)
  {
    if vs == [] {
    } else {
      assert vs[0] in vs && vs == [vs[0]] + vs[1..];
      AllFitIs(vs[1..], ty);
    }
  }

  lemma {:induction false} ReadFits(u: Reader, ty: Ty)
    ensures Fits(Read(u, ty).1, ty)
    decreases Size(ty), 0, 0
  {
    match ty
    case TBool =>
    case TUnsigned(w) =>
    case TSigned(w) =>
    case TString => CountFits(u);
    case TUnit =>
    case TPair(a, b) => ReadFits(u, a); ReadFits(Read(u, a).0, b);
    case TVector(e) =>
      CountFits(u);
      ManyFit(ReadNumber(u, 4).0, e, ReadNumber(u, 4).1, []);
    case TMap(k, x) =>
      CountFits(u);
      EntriesFit(ReadNumber(u, 4).0, k, x, ReadNumber(u, 4).1, []);
  }

  lemma CountFits(u: Reader)
    ensures ReadNumber(u, 4).1 < TWO32
  {
    assert Power(4) == TWO32;
  }

  lemma {:induction false} ManyFit(u: Reader, ty: Ty, n: nat, acc: seq<Val>)
    requires AllFit(acc, ty)
    ensures var vs := ReadMany(u, ty, n, acc).1; AllFit(vs, ty) && |vs| == |acc| + n
    decreases Size(ty), 1, n
  {
    hide Fits, Read, AllFit;
    if n == 0 {
    } else {
      var (u1, v) := Read(u, ty);
      ReadFits(u, ty);
      AllFitIs(acc, ty);
      AllFitIs(acc + [v], ty);
      ManyFit(u1, ty, n - 1, acc + [v]);
    }
  }

  lemma {:induction false} EntriesFit(u: Reader, k: Ty, x: Ty, n: nat, acc: seq<Val>)
    requires AllFit(acc, TPair(k, x)) && Ordered(acc)
    ensures var es := ReadEntries(u, k, x, n, acc).1;
            AllFit(es, TPair(k, x)) && Ordered(es) && |es| <= |acc| + n
    decreases Size(k) + Size(x) + 1, 1, n
  {
    hide Read, AllFit, Ordered, PutKey;
    if n == 0 {
    } else {
      var (u1, a) := Read(u, k);
      var (u2, b) := Read(u1, x);
      ReadFits(u, k);
      ReadFits(u1, x);
      EntryFits(acc, a, b, k, x);
      EntriesFit(u2, k, x, n - 1, PutKey(acc, a, b));
    }
  }

  lemma EntryFits(es: seq<Val>, a: Val, b: Val, k: Ty, x: Ty)
    requires AllFit(es, TPair(k, x)) && Ordered(es) && Fits(a, k) && Fits(b, x)
    ensures var fs := PutKey(es, a, b); AllFit(fs, TPair(k, x)) && Ordered(fs) && |fs| <= |es| + 1
  {
    hide AllFit, PutKey;
    AllFitIs(es, TPair(k, x));
    assert KeysFit(es, k);
    PutKeyUpdates(es, a, b, k);
    var fs := PutKey(es, a, b);
    assert Fits(Pair(a, b), TPair(k, x));
    assert forall e | e in fs :: Fits(e, TPair(k, x)) by { hide Fits, Ordered; }
    AllFitIs(fs, TPair(k, x));
  }
}
