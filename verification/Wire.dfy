/** The wire format: what marshalling a typed value writes and what unmarshalling reads back, with
    the reader's sticky failure flag. */
module Wire {
  type byte = x: int | 0 <= x < 256

  const TWO32 := 0x1_0000_0000

  // ----- fixed-width numbers, most significant byte first -----

  function Power(w: nat): nat { if w == 0 then 1 else 256 * Power(w - 1) }

  function Bytes(n: nat, w: nat): (bs: seq<byte>)
    ensures |bs| == w
  {
    if w == 0 then [] else Bytes(n / 256, w - 1) + [n % 256]
  }

  function Number(bs: seq<byte>): nat {
    if bs == [] then 0 else 256 * Number(bs[..|bs| - 1]) + bs[|bs| - 1]
  }

  lemma {:induction false} NumberOfBytes(n: nat, w: nat)
    requires n < Power(w)
    ensures Number(Bytes(n, w)) == n
  {
    if w == 0 {
    } else {
      assert n / 256 < Power(w - 1);
      NumberOfBytes(n / 256, w - 1);
      assert Bytes(n, w)[..w - 1] == Bytes(n / 256, w - 1);
    }
  }

  /** The earlier bytes weigh more. */
  lemma {:induction false} NumberSplits(a: seq<byte>, b: seq<byte>)
    ensures Number(a + b) == Number(a) * Power(|b|) + Number(b)
  {
    if b == [] {
      assert a + b == a;
    } else {
      var init := b[..|b| - 1];
      assert (a + b)[..|a + b| - 1] == a + init;
      NumberSplits(a, init);
      assert Number(a) * Power(|b|) == 256 * (Number(a) * Power(|init|));
    }
  }

  // ----- typed values -----

  /** Widths are in bytes; a struct is nested pairs ending in a unit. */
  datatype Ty =
    | TBool | TUnsigned(w: nat) | TSigned(w: nat) | TString
    | TUnit | TPair(a: Ty, b: Ty) | TVector(elem: Ty) | TMap(key: Ty, val: Ty)

  datatype Val =
    | Bool(flag: bool) | Num(n: int) | Str(s: seq<byte>)
    | Unit | Pair(a: Val, b: Val) | Vec(vs: seq<Val>) | Map(es: seq<Val>)  // entries are pairs, by key

  function Size(ty: Ty): nat {
    match ty
    case TPair(a, b) => Size(a) + Size(b) + 1
    case TVector(e) => Size(e) + 1
    case TMap(k, v) => Size(k) + Size(v) + 2
    case _ => 0
  }

  /** The order of keys: false before true, numbers by value, everything else by its first
      difference. */
  predicate Below(a: Val, b: Val)
    decreases a
  {
    match (a, b)
    case (Bool(x), Bool(y)) => !x && y
    case (Num(m), Num(n)) => m < n
    case (Str(s), Str(t)) => BytesBelow(s, t)
    case (Pair(p, q), Pair(r, t)) => Below(p, r) || (p == r && Below(q, t))
    case (Vec(vs), Vec(ws)) => AllBelow(vs, ws)
    case (Map(es), Map(fs)) => AllBelow(es, fs)
    case _ => false
  }

  predicate AllBelow(vs: seq<Val>, ws: seq<Val>)
    decreases vs
  {
    ws != [] && (vs == [] || Below(vs[0], ws[0]) || (vs[0] == ws[0] && AllBelow(vs[1..], ws[1..])))
  }

  predicate BytesBelow(s: seq<byte>, t: seq<byte>) {
    t != [] && (s == [] || s[0] < t[0] || (s[0] == t[0] && BytesBelow(s[1..], t[1..])))
  }

  predicate Ordered(es: seq<Val>) {
    && (forall e | e in es :: e.Pair?)
    && (forall i, j | 0 <= i < j < |es| :: Below(es[i].a, es[j].a))
  }

  predicate Fits(v: Val, ty: Ty)
    decreases Size(ty), 0
  {
    match ty
    case TBool => v.Bool?
    case TUnsigned(w) => v.Num? && 0 <= v.n < Power(w)
    case TSigned(w) => v.Num? && 0 <= 2 * v.n + Power(w) < 2 * Power(w)
    case TString => v.Str? && |v.s| < TWO32
    case TUnit => v.Unit?
    case TPair(a, b) => v.Pair? && Fits(v.a, a) && Fits(v.b, b)
    case TVector(e) => v.Vec? && |v.vs| < TWO32 && AllFit(v.vs, e)
    case TMap(k, x) => v.Map? && |v.es| < TWO32 && AllFit(v.es, TPair(k, x)) && Ordered(v.es)
  }

  predicate AllFit(vs: seq<Val>, ty: Ty)
    decreases Size(ty), |vs| + 1
  {
    vs == [] || (Fits(vs[0], ty) && AllFit(vs[1..], ty))
  }

  // ----- writing -----

  function Encode(v: Val, ty: Ty): seq<byte>
    requires Fits(v, ty)
    decreases Size(ty), 0
  {
    match ty
    case TBool => [if v.flag then 1 else 0]
    case TUnsigned(w) => Bytes(v.n, w)
    case TSigned(w) => Bytes(if v.n < 0 then v.n + Power(w) else v.n, w)
    case TString => Bytes(|v.s|, 4) + v.s
    case TUnit => []
    case TPair(a, b) => Encode(v.a, a) + Encode(v.b, b)
    case TVector(e) => Bytes(|v.vs|, 4) + EncodeAll(v.vs, e)
    case TMap(k, x) => Bytes(|v.es|, 4) + EncodeAll(v.es, TPair(k, x))
  }

  function EncodeAll(vs: seq<Val>, ty: Ty): seq<byte>
    requires AllFit(vs, ty)
    decreases Size(ty), |vs| + 1
  {
    if vs == [] then [] else Encode(vs[0], ty) + EncodeAll(vs[1..], ty)
  }

  // ----- reading -----

  datatype Reader = Reader(buf: seq<byte>, ind: nat, ok: bool)

  /** Past the end the flag falls and a zero is read. */
  function ReadByte(u: Reader): (Reader, byte) {
    if u.ind >= |u.buf| then (u.(ok := false), 0) else (u.(ind := u.ind + 1), u.buf[u.ind])
  }

  function ReadNumber(u: Reader, w: nat): (r: (Reader, nat))
    ensures r.1 < Power(w)
  {
    if w == 0 then (u, 0)
    else
      var (u1, n) := ReadNumber(u, w - 1);
      var (u2, b) := ReadByte(u1);
      (u2, 256 * n + b)
  }

  /** Too short a rest leaves the position and gives nothing. */
  function ReadBytes(u: Reader, n: nat): (Reader, seq<byte>) {
    if u.ind + n > |u.buf| then (u.(ok := false), []) else (u.(ind := u.ind + n), u.buf[u.ind..u.ind + n])
  }

  /** d[k] = x in a map kept by key. */
  function PutKey(es: seq<Val>, k: Val, x: Val): seq<Val> {
    if es == [] || !es[0].Pair? then [Pair(k, x)]
    else if Below(es[0].a, k) then [es[0]] + PutKey(es[1..], k, x)
    else if Below(k, es[0].a) then [Pair(k, x)] + es
    else [Pair(k, x)] + es[1..]
  }

  function Read(u: Reader, ty: Ty): (Reader, Val)
    decreases Size(ty), 0, 0
  {
    match ty
    case TBool => var (u1, b) := ReadByte(u); (u1, Bool(b != 0))
    case TUnsigned(w) => var (u1, n) := ReadNumber(u, w); (u1, Num(n))
    case TSigned(w) => var (u1, n) := ReadNumber(u, w); (u1, Num(if 2 * n >= Power(w) then n - Power(w) else n))
    case TString =>
      var (u1, n) := ReadNumber(u, 4);
      if u1.ok then var (u2, s) := ReadBytes(u1, n); (u2, Str(s)) else (u1, Str([]))
    case TUnit => (u, Unit)
    case TPair(a, b) =>
      var (u1, x) := Read(u, a);
      var (u2, y) := Read(u1, b);
      (u2, Pair(x, y))
    case TVector(e) =>
      var (u1, n) := ReadNumber(u, 4);
      var (u2, vs) := ReadMany(u1, e, n, []);
      (u2, Vec(vs))
    case TMap(k, x) =>
      var (u1, n) := ReadNumber(u, 4);
      var (u2, es) := ReadEntries(u1, k, x, n, []);
      (u2, Map(es))
  }

  function ReadMany(u: Reader, ty: Ty, n: nat, acc: seq<Val>): (Reader, seq<Val>)
    decreases Size(ty), 1, n
  {
    if n == 0 then (u, acc)
    else
      var (u1, v) := Read(u, ty);
      ReadMany(u1, ty, n - 1, acc + [v])
  }

  function ReadEntries(u: Reader, k: Ty, x: Ty, n: nat, acc: seq<Val>): (Reader, seq<Val>)
    decreases Size(k) + Size(x) + 1, 1, n
  {
    if n == 0 then (u, acc)
    else
      var (u1, a) := Read(u, k);
      var (u2, b) := Read(u1, x);
      ReadEntries(u2, k, x, n - 1, PutKey(acc, a, b))
  }
}
