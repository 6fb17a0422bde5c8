/** The growing buffer that marshalling writes and the cursor that unmarshalling moves. */
module Marshal {
  import opened Wire
  import opened WireProofs

  const DEFAULT_SIZE := 1024
  const SIZE_FIELD := 4  // left for the channel

  type Int32 = x: int | -0x8000_0000 <= x < 0x8000_0000
  type UInt32 = x: int | 0 <= x < 0x1_0000_0000

  datatype ReqHeader = ReqHeader(xid: Int32, proc: Int32, client: UInt32, server: UInt32, rep: Int32)

  datatype ReplyHeader = ReplyHeader(xid: Int32, ret: Int32)

  /** The four bytes of a signed or unsigned 32-bit number. */
  function Word(x: int): (bs: seq<byte>)
    requires -0x8000_0000 <= x < TWO32
    ensures |bs| == 4
  {
    Bytes(if x < 0 then x + TWO32 else x, 4)
  }

  function ReqBytes(h: ReqHeader): seq<byte> {
    Word(h.xid) + Word(h.proc) + Word(h.client) + Word(h.server) + Word(h.rep)
  }

  function ReplyBytes(h: ReplyHeader): seq<byte> { Word(h.xid) + Word(h.ret) }

  /** These four bytes, the first the most significant, are x in two's complement. */
  predicate Is32(x: int, bs: seq<byte>) { |bs| == 4 && (Number(bs) == x || Number(bs) == x + TWO32) }

  lemma WordIs(x: int)
    requires -0x8000_0000 <= x < TWO32
    ensures Is32(x, Word(x))
  {
    assert Power(4) == TWO32;
    NumberOfBytes(if x < 0 then x + TWO32 else x, 4);
  }

  lemma ReqLayout(h: ReqHeader)
    ensures var b := ReqBytes(h);
            && |b| == 20 && Is32(h.xid, b[0..4]) && Is32(h.proc, b[4..8]) && Is32(h.client, b[8..12])
            && Is32(h.server, b[12..16]) && Is32(h.rep, b[16..20])
  {
    WordIs(h.xid);
    WordIs(h.proc);
    WordIs(h.client);
    WordIs(h.server);
    WordIs(h.rep);
    hide Word, Is32;
    var b := ReqBytes(h);
    assert b[0..4] == Word(h.xid) && b[4..8] == Word(h.proc) && b[8..12] == Word(h.client);
    assert b[12..16] == Word(h.server) && b[16..20] == Word(h.rep);
  }

  lemma PartOfPart(b: seq<byte>, end: nat, j: nat)
    requires SIZE_FIELD + j + 4 <= end <= |b|
    ensures b[SIZE_FIELD + j..SIZE_FIELD + j + 4] == b[SIZE_FIELD..end][j..j + 4]
  {
    var x, y := b[SIZE_FIELD + j..SIZE_FIELD + j + 4], b[SIZE_FIELD..end][j..j + 4];
    forall i | 0 <= i < 4 ensures x[i] == y[i] {
      assert b[SIZE_FIELD..end][j + i] == b[SIZE_FIELD + (j + i)];
    }
  }

  lemma ReqFieldsAt(b: seq<byte>, h: ReqHeader)
    requires |b| >= HEADER_SIZE && b[SIZE_FIELD..HEADER_SIZE] == ReqBytes(h)
    ensures Is32(h.xid, b[4..8]) && Is32(h.proc, b[8..12]) && Is32(h.client, b[12..16])
    ensures Is32(h.server, b[16..20]) && Is32(h.rep, b[20..24])
  {
    ReqLayout(h);
    hide Is32, ReqBytes;
    PartOfPart(b, 24, 0);
    PartOfPart(b, 24, 4);
    PartOfPart(b, 24, 8);
    PartOfPart(b, 24, 12);
    PartOfPart(b, 24, 16);
  }

  lemma ReplyLayout(h: ReplyHeader)
    ensures var b := ReplyBytes(h); |b| == 8 && Is32(h.xid, b[0..4]) && Is32(h.ret, b[4..8])
  {
    WordIs(h.xid);
    WordIs(h.ret);
    hide Word, Is32;
    var b := ReplyBytes(h);
    assert b[0..4] == Word(h.xid) && b[4..8] == Word(h.ret);
  }

  lemma ReplyFieldsAt(b: seq<byte>, h: ReplyHeader)
    requires |b| >= HEADER_SIZE && b[SIZE_FIELD..SIZE_FIELD + 8] == ReplyBytes(h)
    ensures Is32(h.xid, b[4..8]) && Is32(h.ret, b[8..12])
  {
    ReplyLayout(h);
    hide Is32, ReplyBytes;
    PartOfPart(b, 12, 0);
    PartOfPart(b, 12, 4);
  }

  /** b with w written over it at position i. */
  function Overlay(b: seq<byte>, i: nat, w: seq<byte>): (r: seq<byte>)
    requires i + |w| <= |b|
    ensures |r| == |b| && r[i..i + |w|] == w && r[i + |w|..] == b[i + |w|..]
  {
    b[..i] + w + b[i + |w|..]
  }

  lemma OverlayTwice(b: seq<byte>, i: nat, v: seq<byte>, w: seq<byte>)
    requires i + |v| + |w| <= |b|
    ensures Overlay(Overlay(b, i, v), i + |v|, w) == Overlay(b, i, v + w)
  {
    var c := Overlay(b, i, v);
    assert c[..i + |v|] == b[..i] + v;
    assert c[i + |v| + |w|..] == b[i + |v| + |w|..];
  }

  lemma HeaderOnly(b: seq<byte>, c: seq<byte>, i: nat, w: seq<byte>, ind: nat)
    requires i + |w| <= HEADER_SIZE <= ind <= |b| && c == Overlay(b, i, w)
    ensures c[i..i + |w|] == w && c[HEADER_SIZE..] == b[HEADER_SIZE..] && c[HEADER_SIZE..ind] == b[HEADER_SIZE..ind]
  {
    assert c[HEADER_SIZE..] == c[i + |w|..][HEADER_SIZE - i - |w|..];
    assert c[HEADER_SIZE..ind] == c[HEADER_SIZE..][..ind - HEADER_SIZE];
    assert b[HEADER_SIZE..ind] == b[HEADER_SIZE..][..ind - HEADER_SIZE];
  }

  class Marshall {
    var buf: array<byte>
    var ind: nat

    ghost predicate Valid()
      reads this
    {
      ind <= buf.Length && buf.Length >= DEFAULT_SIZE
    }

    /** What was marshalled so far. */
    ghost function Content(): seq<byte>
      requires Valid() && ind >= HEADER_SIZE
      reads this, buf
    {
      buf[HEADER_SIZE..ind]
    }

    constructor ()
      ensures Valid() && fresh(buf) && ind == HEADER_SIZE && Content() == []
    {
      buf := new byte[DEFAULT_SIZE];
      ind := HEADER_SIZE;
    }

    method Grow(capacity: nat)
      requires Valid() && capacity >= buf.Length
      modifies this`buf
      ensures fresh(buf) && buf.Length == capacity && Valid()
      ensures buf[..ind] == old(buf[..ind])
    {
      var bigger := new byte[capacity];
      forall i | 0 <= i < buf.Length { bigger[i] := buf[i]; }
      buf := bigger;
    }

    method RawByte(x: byte)
      requires Valid()
      modifies this, buf
      ensures Valid() && ind == old(ind) + 1 && (buf == old(buf) || fresh(buf))
      ensures buf.Length == if old(ind) < old(buf.Length) then old(buf.Length) else 2 * old(buf.Length)
      ensures buf[..ind] == old(buf[..ind]) + [x]
      ensures old(ind) < old(buf.Length) ==> buf == old(buf) && buf[..] == old(buf[..])[old(ind) := x]
    {
      if ind >= buf.Length { Grow(2 * buf.Length); }
      buf[ind] := x;
      ind := ind + 1;
    }

    /** One growth always makes enough room. */
    method RawBytes(p: seq<byte>)
      requires Valid()
      modifies this, buf
      ensures Valid() && ind == old(ind) + |p| && (buf == old(buf) || fresh(buf))
      ensures buf[..ind] == old(buf[..ind]) + p
    {
      if ind + |p| > buf.Length {
        Grow(if buf.Length > |p| then 2 * buf.Length else buf.Length + |p|);
      }
      forall i | 0 <= i < |p| { buf[ind + i] := p[i]; }
      ind := ind + |p|;
    }

    method Pack(x: int)
      requires -0x8000_0000 <= x < TWO32
      requires Valid() && ind + 4 <= buf.Length
      modifies this, buf
      ensures Valid() && ind == old(ind) + 4 && buf == old(buf)
      ensures buf[..] == Overlay(old(buf[..]), old(ind), Word(x))
    {
      var b := Word(x);
      RawByte(b[0]);
      RawByte(b[1]);
      RawByte(b[2]);
      RawByte(b[3]);
    }

    /** The header goes in front of the content and leaves it as it is. */
    method PackReqHeader(h: ReqHeader)
      requires Valid() && ind >= HEADER_SIZE
      modifies this, buf
      ensures Valid() && ind == old(ind) && buf == old(buf)
      ensures Is32(h.xid, buf[4..8]) && Is32(h.proc, buf[8..12]) && Is32(h.client, buf[12..16])
      ensures Is32(h.server, buf[16..20]) && Is32(h.rep, buf[20..24])
      ensures buf[SIZE_FIELD..HEADER_SIZE] == ReqBytes(h)
      ensures buf[HEADER_SIZE..] == old(buf[HEADER_SIZE..]) && Content() == old(Content())
    {
      var saved := ind;
      ind := SIZE_FIELD;
      ghost var b := buf[..];
      Pack(h.xid);
      Pack(h.proc);
      OverlayTwice(b, SIZE_FIELD, Word(h.xid), Word(h.proc));
      Pack(h.client);
      OverlayTwice(b, SIZE_FIELD, Word(h.xid) + Word(h.proc), Word(h.client));
      Pack(h.server);
      OverlayTwice(b, SIZE_FIELD, Word(h.xid) + Word(h.proc) + Word(h.client), Word(h.server));
      Pack(h.rep);
      OverlayTwice(b, SIZE_FIELD, Word(h.xid) + Word(h.proc) + Word(h.client) + Word(h.server), Word(h.rep));
      ind := saved;
      HeaderOnly(b, buf[..], SIZE_FIELD, ReqBytes(h), ind);
      ReqFieldsAt(buf[..], h);
    }

    method PackReplyHeader(h: ReplyHeader)
      requires Valid() && ind >= HEADER_SIZE
      modifies this, buf
      ensures Valid() && ind == old(ind) && buf == old(buf)
      ensures Is32(h.xid, buf[4..8]) && Is32(h.ret, buf[8..12])
      ensures buf[SIZE_FIELD..SIZE_FIELD + 8] == ReplyBytes(h)
      ensures buf[HEADER_SIZE..] == old(buf[HEADER_SIZE..]) && Content() == old(Content())
    {
      var saved := ind;
      ind := SIZE_FIELD;
      ghost var b := buf[..];
      Pack(h.xid);
      Pack(h.ret);
      OverlayTwice(b, SIZE_FIELD, Word(h.xid), Word(h.ret));
      ind := saved;
      HeaderOnly(b, buf[..], SIZE_FIELD, ReplyBytes(h), ind);
      ReplyFieldsAt(buf[..], h);
    }

    method PutNumber(n: nat, w: nat)
      requires Valid() && ind >= HEADER_SIZE
      modifies this, buf
      ensures Valid() && ind >= HEADER_SIZE && (buf == old(buf) || fresh(buf))
      ensures Content() == old(Content()) + Bytes(n, w)
    {
      var b := Bytes(n, w);
      for i := 0 to w
        invariant Valid() && ind >= HEADER_SIZE && (buf == old(buf) || fresh(buf))
        invariant Content() == old(Content()) + b[..i]
      {
        ghost var was := buf[..ind];
        RawByte(b[i]);
        assert buf[..ind][HEADER_SIZE..] == was[HEADER_SIZE..] + [b[i]];
      }
    }

    method PutString(s: seq<byte>)
      requires Valid() && ind >= HEADER_SIZE
      modifies this, buf
      ensures Valid() && ind >= HEADER_SIZE && (buf == old(buf) || fresh(buf))
      ensures Content() == old(Content()) + (Bytes(|s|, 4) + s)
    {
      PutNumber(|s|, 4);
      ghost var was := buf[..ind];
      RawBytes(s);
      assert buf[..ind][HEADER_SIZE..] == was[HEADER_SIZE..] + s;
    }

    /** Marshals a typed value: the content grows by its encoding. */
    method Put(v: Val, ty: Ty)
      requires Valid() && ind >= HEADER_SIZE && Fits(v, ty)
      modifies this, buf
      ensures Valid() && ind >= HEADER_SIZE && (buf == old(buf) || fresh(buf))
      ensures Content() == old(Content()) + Encode(v, ty)
      decreases Size(ty), 0
    {
      match ty
      case TBool => PutNumber(if v.flag then 1 else 0, 1);
      case TUnsigned(w) => PutNumber(v.n, w);
      case TSigned(w) => PutNumber(if v.n < 0 then v.n + Power(w) else v.n, w);
      case TString => PutString(v.s);
      case TUnit =>
      case TPair(a, b) =>
        Put(v.a, a);
        Put(v.b, b);
      case TVector(e) => PutCounted(v.vs, e);
      case TMap(k, x) => PutCounted(v.es, TPair(k, x));
    }

    method PutCounted(vs: seq<Val>, ty: Ty)
      requires Valid() && ind >= HEADER_SIZE && AllFit(vs, ty)
      modifies this, buf
      ensures Valid() && ind >= HEADER_SIZE && (buf == old(buf) || fresh(buf))
      ensures Content() == old(Content()) + (Bytes(|vs|, 4) + EncodeAll(vs, ty))
      decreases Size(ty), 2
    {
      PutNumber(|vs|, 4);
      PutAll(vs, ty);
    }

    method PutAll(vs: seq<Val>, ty: Ty)
      requires Valid() && ind >= HEADER_SIZE && AllFit(vs, ty)
      modifies this, buf
      ensures Valid() && ind >= HEADER_SIZE && (buf == old(buf) || fresh(buf))
      ensures Content() == old(Content()) + EncodeAll(vs, ty)
      decreases Size(ty), 1
    {
      hide Fits, Encode;
      for i := 0 to |vs|
        invariant Valid() && ind >= HEADER_SIZE && (buf == old(buf) || fresh(buf))
        invariant AllFit(vs[..i], ty) && AllFit(vs[i..], ty)
        invariant Content() == old(Content()) + EncodeAll(vs[..i], ty)
      {
        assert vs[i..][1..] == vs[i + 1..];
        EncodeSnoc(vs[..i], vs[i], ty);
        assert vs[..i + 1] == vs[..i] + [vs[i]];
        Put(vs[i], ty);
      }
      assert vs[..|vs|] == vs;
    }
  }

  lemma {:induction false} EncodeSnoc(vs: seq<Val>, v: Val, ty: Ty)
    requires AllFit(vs, ty) && Fits(v, ty)
    ensures AllFit(vs + [v], ty) && EncodeAll(vs + [v], ty) == EncodeAll(vs, ty) + Encode(v, ty)
  {
    hide Fits, Encode;
    var all := vs + [v];
    if vs == [] {
      assert all == [v] && all[1..] == [] && EncodeAll(all[1..], ty) == [];
    } else {
      assert all[0] == vs[0] && all[1..] == vs[1..] + [v];
      EncodeSnoc(vs[1..], v, ty);
      var x, y, z := Encode(vs[0], ty), EncodeAll(vs[1..], ty), Encode(v, ty);
      assert x + (y + z) == (x + y) + z;
    }
  }

  class Unmarshall {
    const buf: seq<byte>
    var ind: nat
    var ok: bool

    ghost function State(): Reader
      reads this
    {
      Reader(buf, ind, ok)
    }

    constructor (b: seq<byte>)
      ensures State() == Reader(b, 0, true)
    {
      buf, ind, ok := b, 0, true;
    }

    /** take_in: past the header, and not ok where the header is cut. */
    constructor TakeIn(b: seq<byte>)
      ensures State() == Reader(b, HEADER_SIZE, |b| >= HEADER_SIZE)
    {
      buf, ind, ok := b, HEADER_SIZE, |b| >= HEADER_SIZE;
    }

    method RawByte() returns (c: byte)
      modifies this
      ensures (State(), c) == ReadByte(old(State()))
    {
      if ind >= |buf| {
        ok := false;
        c := 0;
      } else {
        c := buf[ind];
        ind := ind + 1;
      }
    }

    method GetNumber(w: nat) returns (n: nat)
      modifies this
      ensures (State(), n) == ReadNumber(old(State()), w)
    {
      n := 0;
      for i := 0 to w
        invariant (State(), n) == ReadNumber(old(State()), i)
      {
        var c := RawByte();
        n := 256 * n + c;
      }
    }

    method RawBytes(n: nat) returns (s: seq<byte>)
      modifies this
      ensures (State(), s) == ReadBytes(old(State()), n)
    {
      if ind + n > |buf| {
        ok := false;
        s := [];
      } else {
        s := buf[ind..ind + n];
        ind := ind + n;
      }
    }

    method Get(ty: Ty) returns (v: Val)
      modifies this
      ensures (State(), v) == Read(old(State()), ty)
      decreases Size(ty), 0
    {
      match ty
      case TBool =>
        var b := RawByte();
        v := Bool(b != 0);
      case TUnsigned(w) =>
        var n := GetNumber(w);
        v := Num(n);
      case TSigned(w) =>
        var n := GetNumber(w);
        v := Num(if 2 * n >= Power(w) then n - Power(w) else n);
      case TString =>
        var n := GetNumber(4);
        if ok {
          var s := RawBytes(n);
          v := Str(s);
        } else {
          v := Str([]);
        }
      case TUnit => v := Unit;
      case TPair(a, b) =>
        var x := Get(a);
        var y := Get(b);
        v := Pair(x, y);
      case TVector(e) =>
        var n := GetNumber(4);
        var vs := GetMany(e, n);
        v := Vec(vs);
      case TMap(k, x) =>
        var n := GetNumber(4);
        var es := GetEntries(k, x, n);
        v := Map(es);
    }

    method GetMany(ty: Ty, n: nat) returns (vs: seq<Val>)
      modifies this
      ensures (State(), vs) == ReadMany(old(State()), ty, n, [])
      decreases Size(ty), 1
    {
      vs := [];
      for i := 0 to n
        invariant ReadMany(old(State()), ty, n, []) == ReadMany(State(), ty, n - i, vs)
      {
        var v := Get(ty);
        vs := vs + [v];
      }
    }

    method GetEntries(k: Ty, x: Ty, n: nat) returns (es: seq<Val>)
      modifies this
      ensures (State(), es) == ReadEntries(old(State()), k, x, n, [])
      decreases Size(k) + Size(x) + 1, 1
    {
      es := [];
      for i := 0 to n
        invariant ReadEntries(old(State()), k, x, n, []) == ReadEntries(State(), k, x, n - i, es)
      {
        var a := Get(k);
        var b := Get(x);
        es := PutKey(es, a, b);
      }
    }

    method UnpackReqHeader() returns (h: ReqHeader)
      modifies this
      ensures (State(), h) == ReadReqHeader(old(State()))
    {
      ind := SIZE_FIELD;
      var xid := GetNumber(4);
      var proc := GetNumber(4);
      var client := GetNumber(4);
      var server := GetNumber(4);
      var rep := GetNumber(4);
      ind := HEADER_SIZE;
      h := ReqHeader(Signed(xid), Signed(proc), client, server, Signed(rep));
    }

    method UnpackReplyHeader() returns (h: ReplyHeader)
      modifies this
      ensures (State(), h) == ReadReplyHeader(old(State()))
    {
      ind := SIZE_FIELD;
      var xid := GetNumber(4);
      var ret := GetNumber(4);
      ind := HEADER_SIZE;
      h := ReplyHeader(Signed(xid), Signed(ret));
    }
  }

  // ----- headers read back -----

  /** The signed number with these 32 bits. */
  function Signed(n: nat): Int32
    requires n < TWO32
  {
    if n >= 0x8000_0000 then n - TWO32 else n
  }

  function ReadReqHeader(u: Reader): (Reader, ReqHeader) {
    var (u1, xid) := ReadNumber(u.(ind := SIZE_FIELD), 4);
    var (u2, proc) := ReadNumber(u1, 4);
    var (u3, client) := ReadNumber(u2, 4);
    var (u4, server) := ReadNumber(u3, 4);
    var (u5, rep) := ReadNumber(u4, 4);
    assert Power(4) == TWO32;
    (u5.(ind := HEADER_SIZE), ReqHeader(Signed(xid), Signed(proc), client, server, Signed(rep)))
  }

  function ReadReplyHeader(u: Reader): (Reader, ReplyHeader) {
    var (u1, xid) := ReadNumber(u.(ind := SIZE_FIELD), 4);
    var (u2, ret) := ReadNumber(u1, 4);
    assert Power(4) == TWO32;
    (u2.(ind := HEADER_SIZE), ReplyHeader(Signed(xid), Signed(ret)))
  }

  lemma WordComes(u: Reader, y: int)
    requires -0x8000_0000 <= y < TWO32 && Comes(u, Word(y))
    ensures ReadNumber(u, 4) == (Skip(u, 4), if y < 0 then y + TWO32 else y)
  {
    var n := if y < 0 then y + TWO32 else y;
    assert Power(4) == TWO32;
    NumberOfBytes(n, 4);
    NumberComes(u, Bytes(n, 4));
  }

  /** The header packed last is the header unpacked, and reading goes on at the content. */
  lemma ReqHeaderRoundTrip(b: seq<byte>, h: ReqHeader)
    requires |b| >= HEADER_SIZE && b[SIZE_FIELD..HEADER_SIZE] == ReqBytes(h)
    ensures ReadReqHeader(Reader(b, 0, true)) == (Reader(b, HEADER_SIZE, true), h)
  {
    hide Word, ReadNumber;
    var u := Reader(b, SIZE_FIELD, true);
    assert Comes(u, ReqBytes(h));
    var w1, w2, w3, w4, w5 := Word(h.xid), Word(h.proc), Word(h.client), Word(h.server), Word(h.rep);
    ComesSplit(u, w1 + w2 + w3 + w4, w5);
    ComesSplit(u, w1 + w2 + w3, w4);
    ComesSplit(u, w1 + w2, w3);
    ComesSplit(u, w1, w2);
    WordComes(u, h.xid);
    WordComes(Skip(u, 4), h.proc);
    WordComes(Skip(u, 8), h.client);
    WordComes(Skip(u, 12), h.server);
    WordComes(Skip(u, 16), h.rep);
  }

  lemma ReplyHeaderRoundTrip(b: seq<byte>, h: ReplyHeader)
    requires |b| >= HEADER_SIZE && b[SIZE_FIELD..SIZE_FIELD + 8] == ReplyBytes(h)
    ensures ReadReplyHeader(Reader(b, 0, true)) == (Reader(b, HEADER_SIZE, true), h)
  {
    hide Word, ReadNumber;
    var u := Reader(b, SIZE_FIELD, true);
    ComesSplit(u, Word(h.xid), Word(h.ret));
    WordComes(u, h.xid);
    WordComes(Skip(u, 4), h.ret);
  }

  // ----- a call and its reply over the wire -----

  /** A message with these header fields and this content. */
  predicate Carries(msg: seq<byte>, w: seq<byte>, content: seq<byte>) {
    && SIZE_FIELD + |w| <= HEADER_SIZE <= |msg|
    && msg[SIZE_FIELD..SIZE_FIELD + |w|] == w && msg[HEADER_SIZE..] == content
  }

  /** The message is the filled part of the buffer: header fields, then content to its end. */
  lemma MessageParts(b: seq<byte>, ind: nat, w: seq<byte>, content: seq<byte>)
    requires SIZE_FIELD + |w| <= HEADER_SIZE <= ind <= |b|
    requires b[SIZE_FIELD..SIZE_FIELD + |w|] == w && b[HEADER_SIZE..ind] == content
    ensures Carries(b[..ind], w, content)
  {
  }

  method MarshalRequest(h: ReqHeader, v: Val, ty: Ty) returns (msg: seq<byte>)
    requires Fits(v, ty)
    ensures Carries(msg, ReqBytes(h), Encode(v, ty))
  {
    hide Fits, Encode, ReqBytes, Carries;
    var m := new Marshall();
    m.Put(v, ty);
    assert m.Content() == Encode(v, ty);
    m.PackReqHeader(h);
    msg := m.buf[..m.ind];
    MessageParts(m.buf[..], m.ind, ReqBytes(h), m.Content());
  }

  method MarshalReply(h: ReplyHeader, v: Val, ty: Ty) returns (msg: seq<byte>)
    requires Fits(v, ty)
    ensures Carries(msg, ReplyBytes(h), Encode(v, ty))
  {
    hide Fits, Encode, ReplyBytes, Carries;
    var m := new Marshall();
    m.Put(v, ty);
    assert m.Content() == Encode(v, ty);
    m.PackReplyHeader(h);
    msg := m.buf[..m.ind];
    MessageParts(m.buf[..], m.ind, ReplyBytes(h), m.Content());
  }

  /** The content of a message read from behind its header. */
  lemma ContentBack(msg: seq<byte>, w: seq<byte>, v: Val, ty: Ty)
    requires Fits(v, ty) && Carries(msg, w, Encode(v, ty))
    ensures Read(Reader(msg, HEADER_SIZE, true), ty) == (Reader(msg, |msg|, true), v)
  {
    hide Fits, Encode, Read;
    assert msg[HEADER_SIZE..HEADER_SIZE + |Encode(v, ty)|] == msg[HEADER_SIZE..];
    ReadBack(Reader(msg, HEADER_SIZE, true), v, ty);
  }

  /** The arguments are marshalled, the header packed and the message sent; the server unpacks the
      header and unmarshals the arguments: both are what the caller gave, to the last byte. */
  method RequestOverWire(h: ReqHeader, v: Val, ty: Ty) returns (g: ReqHeader, x: Val, done: bool)
    requires Fits(v, ty)
    ensures g == h && x == v && done
  {
    hide Fits, Encode, Read, ReadReqHeader;
    var msg := MarshalRequest(h, v, ty);
    var req := new Unmarshall(msg);
    ReqHeaderRoundTrip(msg, h);
    g := req.UnpackReqHeader();
    ContentBack(msg, ReqBytes(h), v, ty);
    x := req.Get(ty);
    done := req.ok && req.ind == |msg|;
  }

  /** The reply likewise: the client unpacks its header, then takes the message in and unmarshals
      the result. */
  method ReplyOverWire(h: ReplyHeader, v: Val, ty: Ty) returns (g: ReplyHeader, x: Val, done: bool)
    requires Fits(v, ty)
    ensures g == h && x == v && done
  {
    hide Fits, Encode, Read, ReadReplyHeader;
    var msg := MarshalReply(h, v, ty);
    var rep := new Unmarshall(msg);
    ReplyHeaderRoundTrip(msg, h);
    g := rep.UnpackReplyHeader();
    var un := new Unmarshall.TakeIn(msg);
    ContentBack(msg, ReplyBytes(h), v, ty);
    x := un.Get(ty);
    done := un.ok && un.ind == |msg|;
  }
}
