/**
 The format of a pickle: aligned fields and their values, reading them from any bytes, the growth of
 the buffer they are written to, and the framing of serialized pickles in a stream.
 */
module PickleFormat {
  import opened Options

  type byte = x: int | 0 <= x < 256
  type int32 = x: int | -0x8000_0000 <= x < 0x8000_0000
  type int64 = x: int | -0x8000_0000_0000_0000 <= x < 0x8000_0000_0000_0000
  type uint16 = x: int | 0 <= x < 0x1_0000
  type uint32 = x: int | 0 <= x < 0x1_0000_0000
  type uint64 = x: int | 0 <= x < 0x1_0000_0000_0000_0000

  const INT32_MAX := 0x7fff_ffff
  const UINT32_MAX := 0xffff_ffff
  const TWO_32 := 0x1_0000_0000
  const TWO_64 := 0x1_0000_0000_0000_0000

  // ---------- Numbers as bytes ----------

  /** How many values `k` bytes take. */
  function Span(k: nat): (s: nat)
    ensures s > 0
  {
    if k == 0 then 1 else 256 * Span(k - 1)
  }

  /** The low `k` bytes of `n`, low byte first. */
  function Bytes(n: nat, k: nat): (b: seq<byte>)
    ensures |b| == k
    decreases k, n
  {
    if k == 0 then [] else [n % 256] + Bytes(n / 256, k - 1)
  }

  function Number(b: seq<byte>): (n: nat)
    ensures n < Span(|b|)
  {
    if |b| == 0 then 0 else b[0] + 256 * Number(b[1..])
  }

  lemma {:induction false} NumberOfBytes(n: nat, k: nat)
    requires n < Span(k)
    ensures Number(Bytes(n, k)) == n
    decreases k
  {
    if k > 0 {
      assert Bytes(n, k)[1..] == Bytes(n / 256, k - 1);
      NumberOfBytes(n / 256, k - 1);
    }
  }

  lemma NumberStep(x: byte, rest: seq<byte>)
    ensures Number([x] + rest) == x + 256 * Number(rest)
  {
    assert ([x] + rest)[1..] == rest;
  }

  /** Later bytes weigh more: low byte first. */
  lemma {:induction false} LowByteFirst(a: seq<byte>, b: seq<byte>)
    ensures Number(a + b) == Number(a) + Span(|a|) * Number(b)
  {
    hide Number;
    if |a| == 0 {
      assert a + b == b;
      EmptyNumber();
    } else {
      var rest := a[1..];
      assert a == [a[0]] + rest && a + b == [a[0]] + (rest + b);
      NumberStep(a[0], rest);
      NumberStep(a[0], rest + b);
      LowByteFirst(rest, b);
      Regroup(Number(rest), Span(|rest|), Number(b));
    }
  }

  lemma EmptyNumber()
    ensures Number([]) == 0
  {
  }

  lemma Regroup(k: nat, m: nat, n: nat)
    ensures 256 * (k + m * n) == 256 * k + 256 * m * n
  {
  }

  lemma Spans()
    ensures Span(2) == 0x1_0000 && Span(4) == TWO_32 && Span(8) == TWO_64
  {
    assert Span(1) == 256 && Span(3) == 256 * Span(2) && Span(5) == 256 * Span(4);
    assert Span(6) == 256 * Span(5) && Span(7) == 256 * Span(6);
  }

  /** Two's complement: the unsigned reading of a signed number, and back. */
  function Unsigned(i: int, span: nat): (n: nat)
    requires -2 * i <= span && 2 * i < span
    ensures n < span
  {
    if i < 0 then i + span else i
  }

  function Signed(n: nat, span: nat): (i: int)
    requires n < span
    ensures -2 * i <= span && 2 * i < span
  {
    if 2 * n < span then n else n - span
  }

  lemma SignedUnsigned(i: int, n: nat, span: nat)
    requires span % 2 == 0 && -2 * i <= span && 2 * i < span && n < span
    ensures Signed(Unsigned(i, span), span) == i && Unsigned(Signed(n, span), span) == n
  {
  }

  // ---------- Alignment ----------

  /** Rounding up to a multiple of 4 and, for capacities, of 64. */
  function Align4(i: nat): nat { i + (4 - i % 4) % 4 }

  function Align64(i: nat): nat { i + (64 - i % 64) % 64 }

  lemma Align4Is(i: nat)
    ensures Align4(i) % 4 == 0 && i <= Align4(i) < i + 4
    ensures i % 4 == 0 ==> Align4(i) == i
  {
    var q, r := i / 4, i % 4;
    assert r != 0 ==> Align4(i) == 4 * (q + 1);
  }

  lemma Align64Is(i: nat)
    ensures Align64(i) % 64 == 0 && i <= Align64(i) < i + 64
    ensures i % 64 == 0 ==> Align64(i) == i
  {
    var q, r := i / 64, i % 64;
    assert r != 0 ==> Align64(i) == 64 * (q + 1);
  }

  function Zeros(n: nat): (z: seq<byte>)
    ensures |z| == n && forall i :: 0 <= i < n ==> z[i] == 0
  {
    seq(n, _ => 0)
  }

  /** A field as it lies in the payload. */
  function Field(b: seq<byte>): (f: seq<byte>)
    ensures |f| == Align4(|b|) && f[..|b|] == b
  {
    b + Zeros(Align4(|b|) - |b|)
  }

  // ---------- Values and their encoding ----------

  datatype Value =
    | Int(i: int32)
    | UInt16(u16: uint16)
    | UInt32(u32: uint32)
    | Int64(i64: int64)
    | UInt64(u64: uint64)
    | String(s: seq<byte>)
    | String16(s16: seq<uint16>)
    | Data(data: seq<byte>)

  /** The lengths the source casts to `int` fit. */
  predicate Writable(v: Value) {
    match v
    case String(s) => |s| <= INT32_MAX
    case String16(s) => 2 * |s| <= INT32_MAX
    case Data(d) => |d| <= INT32_MAX
    case _ => true
  }

  function Units(s: seq<uint16>): (b: seq<byte>)
    ensures |b| == 2 * |s|
  {
    if |s| == 0 then [] else Bytes(s[0], 2) + Units(s[1..])
  }

  function FromUnits(b: seq<byte>): seq<uint16> {
    Spans();
    if |b| < 2 then [] else [Number(b[..2])] + FromUnits(b[2..])
  }

  lemma {:induction false} UnitsBack(s: seq<uint16>)
    ensures FromUnits(Units(s)) == s
  {
    if |s| > 0 {
      Spans();
      NumberOfBytes(s[0], 2);
      assert Units(s)[..2] == Bytes(s[0], 2) && Units(s)[2..] == Units(s[1..]);
      UnitsBack(s[1..]);
    }
  }

  function IntField(i: int32): (f: seq<byte>)
    ensures |f| == 4
  {
    Field(Bytes(Unsigned(i, TWO_32), 4))
  }

  function Encode(v: Value): seq<byte>
    requires Writable(v)
  {
    match v
    case Int(i) => IntField(i)
    case UInt16(n) => Field(Bytes(n, 2))
    case UInt32(n) => Field(Bytes(n, 4))
    case Int64(i) => Field(Bytes(Unsigned(i, TWO_64), 8))
    case UInt64(n) => Field(Bytes(n, 8))
    case String(s) => IntField(|s|) + Field(s)
    case String16(s) => IntField(|s|) + Field(Units(s))
    case Data(d) => IntField(|d|) + Field(d)
  }

  // ---------- Reading ----------

  /** The state of an iterator: a payload and how far it was read. */
  datatype Iter = Iter(payload: seq<byte>, read: nat)

  predicate Reading(it: Iter) {
    it.read <= |it.payload|
  }

  function AtEnd(it: Iter): Iter {
    it.(read := |it.payload|)
  }

  function Advance(it: Iter, size: nat): (after: Iter)
    requires Reading(it)
    ensures Reading(after)
  {
    if |it.payload| - it.read < Align4(size) then AtEnd(it) else it.(read := it.read + Align4(size))
  }

  /** The bytes a read hands out, if it succeeds, and the iterator after it. */
  datatype Got<T> = Got(value: Option<T>, it: Iter)

  function GetFixed(it: Iter, size: nat): (g: Got<seq<byte>>)
    requires Reading(it)
    ensures Reading(g.it)
    ensures g.value.Some? ==> |g.value.value| == size
  {
    if size > |it.payload| - it.read then Got(None, AtEnd(it))
    else Got(Some(it.payload[it.read..it.read + size]), Advance(it, size))
  }

  function GetBytes(it: Iter, numBytes: int): (g: Got<seq<byte>>)
    requires Reading(it)
    ensures Reading(g.it)
    ensures g.value.Some? ==> |g.value.value| == numBytes
  {
    if numBytes < 0 || |it.payload| - it.read < numBytes then Got(None, AtEnd(it))
    else Got(Some(it.payload[it.read..it.read + numBytes]), Advance(it, numBytes))
  }

  /** A byte count that overflows an `int` hands out nothing and does not move. */
  function GetElements(it: Iter, numElements: int, size: nat): (g: Got<seq<byte>>)
    requires Reading(it)
    ensures Reading(g.it)
  {
    var numBytes := numElements * size;
    if -INT32_MAX - 1 <= numBytes <= INT32_MAX then GetBytes(it, numBytes) else Got(None, it)
  }

  datatype Kind = IntKind | UInt16Kind | UInt32Kind | Int64Kind | UInt64Kind | StringKind | String16Kind | DataKind

  function KindOf(v: Value): Kind {
    match v
    case Int(_) => IntKind
    case UInt16(_) => UInt16Kind
    case UInt32(_) => UInt32Kind
    case Int64(_) => Int64Kind
    case UInt64(_) => UInt64Kind
    case String(_) => StringKind
    case String16(_) => String16Kind
    case Data(_) => DataKind
  }

  function ReadUnsigned(it: Iter, size: nat): (g: Got<nat>)
    requires Reading(it)
    ensures Reading(g.it) && (g.value.Some? ==> g.value.value < Span(size))
  {
    var g := GetFixed(it, size);
    Got(if g.value.Some? then Some(Number(g.value.value)) else None, g.it)
  }

  function ReadInt(it: Iter): (g: Got<int32>)
    requires Reading(it)
    ensures Reading(g.it)
  {
    Spans();
    var g := ReadUnsigned(it, 4);
    Got(if g.value.Some? then Some(Signed(g.value.value, TWO_32)) else None, g.it)
  }

  function ReadInt64(it: Iter): (g: Got<int64>)
    requires Reading(it)
    ensures Reading(g.it)
  {
    Spans();
    var g := ReadUnsigned(it, 8);
    Got(if g.value.Some? then Some(Signed(g.value.value, TWO_64)) else None, g.it)
  }

  /** A length, then that many bytes. */
  function ReadString(it: Iter): (g: Got<seq<byte>>)
    requires Reading(it)
    ensures Reading(g.it)
  {
    var len := ReadInt(it);
    if len.value.None? then Got(None, len.it) else GetBytes(len.it, len.value.value)
  }

  function ReadString16(it: Iter): (g: Got<seq<uint16>>)
    requires Reading(it)
    ensures Reading(g.it)
  {
    var len := ReadInt(it);
    if len.value.None? then Got(None, len.it)
    else
      var g := GetElements(len.it, len.value.value, 2);
      Got(if g.value.Some? then Some(FromUnits(g.value.value)) else None, g.it)
  }

  /** Reads one value of the given kind. */
  function Read(it: Iter, kind: Kind): (r: Got<Value>)
    requires Reading(it)
    ensures Reading(r.it)
  {
    Spans();
    match kind
    case IntKind =>
      var g := ReadInt(it);
      Got(if g.value.Some? then Some(Int(g.value.value)) else None, g.it)
    case UInt16Kind =>
      var g := ReadUnsigned(it, 2);
      Got(if g.value.Some? then Some(UInt16(g.value.value)) else None, g.it)
    case UInt32Kind =>
      var g := ReadUnsigned(it, 4);
      Got(if g.value.Some? then Some(UInt32(g.value.value)) else None, g.it)
    case Int64Kind =>
      var g := ReadInt64(it);
      Got(if g.value.Some? then Some(Int64(g.value.value)) else None, g.it)
    case UInt64Kind =>
      var g := ReadUnsigned(it, 8);
      Got(if g.value.Some? then Some(UInt64(g.value.value)) else None, g.it)
    case StringKind =>
      var g := ReadString(it);
      Got(if g.value.Some? then Some(String(g.value.value)) else None, g.it)
    case String16Kind =>
      var g := ReadString16(it);
      Got(if g.value.Some? then Some(String16(g.value.value)) else None, g.it)
    case DataKind =>
      var g := ReadString(it);
      Got(if g.value.Some? then Some(Data(g.value.value)) else None, g.it)
  }

  /** What is left to read starts with `b`. */
  predicate Holds(it: Iter, b: seq<byte>) {
    it.read + |b| <= |it.payload| && it.payload[it.read..it.read + |b|] == b
  }

  /** The iterator `n` bytes on. */
  function Skip(it: Iter, n: nat): Iter {
    it.(read := it.read + n)
  }

  lemma HoldsBoth(it: Iter, a: seq<byte>, b: seq<byte>)
    requires Holds(it, a + b)
    ensures Holds(it, a) && Holds(Skip(it, |a|), b) && Skip(it, |a + b|) == Skip(Skip(it, |a|), |b|)
  {
    assert (a + b)[..|a|] == a && (a + b)[|a|..] == b;
  }

  lemma {:induction false} ReadField(it: Iter, b: seq<byte>)
    requires Reading(it) && Holds(it, Field(b))
    ensures GetFixed(it, |b|) == Got(Some(b), Skip(it, |Field(b)|))
    ensures GetBytes(it, |b|) == Got(Some(b), Skip(it, |Field(b)|))
  {
    hide Align4, Align64;
    Align4Is(|b|);
    HoldsBoth(it, b, Zeros(Align4(|b|) - |b|));
  }

  lemma {:induction false} ReadIntField(it: Iter, i: int32)
    requires Reading(it) && Holds(it, IntField(i))
    ensures ReadInt(it) == Got(Some(i), Skip(it, 4))
  {
    hide Field, GetFixed, GetBytes, Bytes, Number, Span, Unsigned, Signed, Align4, Align64;
    Spans();
    var n := Unsigned(i, TWO_32);
    ReadField(it, Bytes(n, 4));
    NumberOfBytes(n, 4);
    SignedUnsigned(i, n, TWO_32);
  }

  /** One value read back from wherever it lies. */
  lemma {:induction false} ReadOne(it: Iter, v: Value)
    requires Writable(v) && Reading(it) && Holds(it, Encode(v))
    ensures Read(it, KindOf(v)) == Got(Some(v), Skip(it, |Encode(v)|))
  {
    hide Field, GetFixed, GetBytes, IntField, ReadInt, Bytes, Number, Span, Unsigned, Signed, Align4, Align64,
         Units, FromUnits, Skip;
    Spans();
    match v
    case Int(i) => ReadIntField(it, i);
    case UInt16(n) => ReadField(it, Bytes(n, 2)); NumberOfBytes(n, 2);
    case UInt32(n) => ReadField(it, Bytes(n, 4)); NumberOfBytes(n, 4);
    case Int64(i) =>
      var n := Unsigned(i, TWO_64);
      ReadField(it, Bytes(n, 8));
      NumberOfBytes(n, 8);
      SignedUnsigned(i, n, TWO_64);
    case UInt64(n) => ReadField(it, Bytes(n, 8)); NumberOfBytes(n, 8);
    case String(s) =>
      HoldsBoth(it, IntField(|s|), Field(s));
      ReadIntField(it, |s|);
      ReadField(Skip(it, 4), s);
    case String16(s) =>
      HoldsBoth(it, IntField(|s|), Field(Units(s)));
      ReadIntField(it, |s|);
      ReadField(Skip(it, 4), Units(s));
      UnitsBack(s);
    case Data(d) =>
      HoldsBoth(it, IntField(|d|), Field(d));
      ReadIntField(it, |d|);
      ReadField(Skip(it, 4), d);
  }

  function EncodeAll(vs: seq<Value>): seq<byte>
    requires forall v :: v in vs ==> Writable(v)
  {
    if |vs| == 0 then [] else EncodeAll(vs[..|vs| - 1]) + Encode(vs[|vs| - 1])
  }

  /** Reads one value of each kind in turn, as far as the reads succeed. */
  function ReadAll(it: Iter, kinds: seq<Kind>): Got<seq<Value>>
    requires Reading(it)
    decreases |kinds|
  {
    if |kinds| == 0 then Got(Some([]), it)
    else
      var g := Read(it, kinds[0]);
      if g.value.None? then Got(None, g.it)
      else
        var rest := ReadAll(g.it, kinds[1..]);
        if rest.value.None? then rest else Got(Some([g.value.value] + rest.value.value), rest.it)
  }

  function Kinds(vs: seq<Value>): (ks: seq<Kind>)
    ensures |ks| == |vs|
  {
    seq(|vs|, i requires 0 <= i < |vs| => KindOf(vs[i]))
  }

  lemma {:induction false} EncodeFirst(vs: seq<Value>)
    requires |vs| > 0 && forall v :: v in vs ==> Writable(v)
    ensures EncodeAll(vs) == Encode(vs[0]) + EncodeAll(vs[1..])
  {
    hide Encode;
    if |vs| == 1 {
      assert EncodeAll(vs[..0]) == [] && EncodeAll(vs[1..]) == [];
    } else {
      var last := vs[|vs| - 1];
      EncodeFirst(vs[..|vs| - 1]);
      assert vs[1..][..|vs| - 2] == vs[..|vs| - 1][1..];
    }
  }

  /** Every sequence of values reads back, and the iterator stops exactly where it was written to. */
  lemma {:induction false} ReadBack(it: Iter, vs: seq<Value>)
    requires (forall v :: v in vs ==> Writable(v)) && Reading(it) && Holds(it, EncodeAll(vs))
    ensures ReadAll(it, Kinds(vs)) == Got(Some(vs), Skip(it, |EncodeAll(vs)|))
    decreases |vs|
  {
    hide Encode, Read, Holds, Skip;
    if |vs| > 0 {
      var v, rest := vs[0], vs[1..];
      EncodeFirst(vs);
      HoldsBoth(it, Encode(v), EncodeAll(rest));
      ReadOne(it, v);
      ReadBack(Skip(it, |Encode(v)|), rest);
      assert Kinds(vs)[1..] == Kinds(rest) && vs == [v] + rest;
    } else {
      assert vs == [];
      SkipNone(it);
    }
  }

  lemma SkipNone(it: Iter)
    ensures Skip(it, 0) == it
  {
  }

  lemma {:induction false} FullRoundTrip(vs: seq<Value>)
    requires forall v :: v in vs ==> Writable(v)
    ensures ReadAll(Iter(EncodeAll(vs), 0), Kinds(vs)) == Got(Some(vs), AtEnd(Iter(EncodeAll(vs), 0)))
  {
    hide ReadAll, EncodeAll;
    ReadBack(Iter(EncodeAll(vs), 0), vs);
  }

  // ---------- Reading arbitrary bytes ----------

  /** One of the reads every typed read is made of. */
  datatype ReadOp = Fixed(size: nat) | Counted(count: int) | Elements(n: int, unit: nat)

  function Do(it: Iter, op: ReadOp): (g: Got<seq<byte>>)
    requires Reading(it)
    ensures Reading(g.it)
  {
    match op
    case Fixed(size) => GetFixed(it, size)
    case Counted(count) => GetBytes(it, count)
    case Elements(n, unit) => GetElements(it, n, unit)
  }

  /** The iterator after each of the reads. */
  function After(it: Iter, ops: seq<ReadOp>): (after: Iter)
    requires Reading(it)
    ensures Reading(after)
    decreases |ops|
  {
    if |ops| == 0 then it else After(Do(it, ops[0]).it, ops[1..])
  }

  predicate Aligned(it: Iter) {
    it.read % 4 == 0 || it.read == |it.payload|
  }

  /** What every read keeps: the position never decreases, stays in the payload and on a multiple of 4 until the end. */
  predicate Keeps(before: Iter, after: Iter) {
    && after.payload == before.payload
    && before.read <= after.read <= |before.payload|
    && (Aligned(before) ==> Aligned(after))
  }

  lemma {:induction false} AdvanceKeeps(it: Iter, size: nat)
    requires Reading(it)
    ensures Keeps(it, Advance(it, size))
    ensures it.read + size <= |it.payload| ==> it.read + size <= Advance(it, size).read
  {
    hide Align4, Align64;
    Align4Is(size);
  }

  lemma {:induction false} GetBytesKeeps(it: Iter, numBytes: int)
    requires Reading(it)
    ensures HandsOut(it, GetBytes(it, numBytes))
  {
    hide Advance;
    if numBytes >= 0 {
      AdvanceKeeps(it, numBytes);
    }
  }

  /** The iterator keeps what it must, and the bytes handed out lie in the payload, before its new position. */
  predicate HandsOut(it: Iter, g: Got<seq<byte>>) {
    && Keeps(it, g.it)
    && (g.value.Some? ==>
          && it.read + |g.value.value| <= g.it.read
          && g.value.value == it.payload[it.read..it.read + |g.value.value|])
  }

  lemma {:induction false} DoKeeps(it: Iter, op: ReadOp)
    requires Reading(it)
    ensures HandsOut(it, Do(it, op))
  {
    hide Advance, GetBytes;
    match op
    case Fixed(size) => AdvanceKeeps(it, size);
    case Counted(count) => GetBytesKeeps(it, count);
    case Elements(n, unit) => GetBytesKeeps(it, n * unit);
  }

  /** How many bytes a read asks for. */
  function Asked(op: ReadOp): int {
    match op
    case Fixed(size) => size
    case Counted(count) => count
    case Elements(n, unit) => n * unit
  }

  /** A number of elements whose bytes are not counted by an `int`. */
  predicate Overflows(op: ReadOp) {
    op.Elements? && !(-INT32_MAX - 1 <= Asked(op) <= INT32_MAX)
  }

  /**
   A read succeeds exactly if as many bytes are left as it asks for, and moves on by their number rounded
   up to a multiple of 4, but not past the end; one that fails moves to the end, or not at all if the
   number of bytes overflowed.
   */
  lemma {:induction false} DoExact(it: Iter, op: ReadOp)
    requires Reading(it)
    ensures var g, left := Do(it, op), |it.payload| - it.read;
            && (g.value.Some? <==> 0 <= Asked(op) <= left && !Overflows(op))
            && (g.value.Some? ==>
                  && g.value.value == it.payload[it.read..it.read + Asked(op)]
                  && (g.it == AtEnd(it) || (g.it.read - it.read) % 4 == 0)
                  && it.read + Asked(op) <= g.it.read < it.read + Asked(op) + 4)
            && (g.value.None? ==> g.it == if Overflows(op) then it else AtEnd(it))
  {
    hide Align4, Align64;
    if 0 <= Asked(op) {
      Align4Is(Asked(op));
    }
  }

  lemma {:induction false} ReadsKeep(it: Iter, ops: seq<ReadOp>)
    requires Reading(it)
    ensures Keeps(it, After(it, ops))
    decreases |ops|
  {
    hide Do;
    if |ops| > 0 {
      DoKeeps(it, ops[0]);
      ReadsKeep(Do(it, ops[0]).it, ops[1..]);
    }
  }

  /** A typed read is at most two of these. */
  lemma {:induction false} TypedRead(it: Iter, kind: Kind)
    requires Reading(it)
    ensures exists ops: seq<ReadOp> :: |ops| <= 2 && Read(it, kind).it == After(it, ops)
  {
    hide GetFixed, GetBytes, GetElements, Number, Signed, FromUnits, After;
    var first := match kind
      case UInt16Kind => Fixed(2)
      case Int64Kind => Fixed(8)
      case UInt64Kind => Fixed(8)
      case _ => Fixed(4);
    var g := Do(it, first);
    AfterOne(it, first);
    if (kind.StringKind? || kind.DataKind? || kind.String16Kind?) && g.value.Some? {
      var n := ReadInt(it).value.value;
      AfterTwo(it, first, if kind.String16Kind? then Elements(n, 2) else Counted(n));
    }
  }

  lemma AfterOne(it: Iter, op: ReadOp)
    requires Reading(it)
    ensures After(it, [op]) == Do(it, op).it
  {
    hide Do;
    assert [op][1..] == [];
  }

  lemma AfterTwo(it: Iter, op: ReadOp, next: ReadOp)
    requires Reading(it)
    ensures After(it, [op, next]) == Do(Do(it, op).it, next).it
  {
    hide Do;
    assert [op, next][1..] == [next];
    AfterOne(Do(it, op).it, next);
  }

  /**
   After one read that failed, but not by overflow, every later read that asks for any bytes fails, whatever
   is tried in between.
   */
  lemma {:induction false} FailureLasts(it: Iter, op: ReadOp, between: seq<ReadOp>, later: ReadOp)
    requires Reading(it) && Do(it, op).value.None? && !Overflows(op) && Asked(later) > 0
    ensures Do(After(Do(it, op).it, between), later).value.None?
  {
    hide Do;
    DoExact(it, op);
    ReadsKeep(Do(it, op).it, between);
    DoExact(After(Do(it, op).it, between), later);
  }

  // ---------- Growth ----------

  /** The write offset, the capacity behind the header, and how often and how much payload was moved by growing. */
  datatype Growth = Growth(offset: nat, capacity: nat, resizes: nat, moved: nat)

  const PAYLOAD_UNIT := 64

  function Max(a: nat, b: nat): nat { if a < b then b else a }

  /** The effect of writing `length` bytes. */
  function Grow(g: Growth, length: nat): Growth {
    var newSize := g.offset + Align4(length);
    if newSize > g.capacity then
      Growth(newSize, Align64(Max(g.capacity * 2, newSize)), g.resizes + 1, g.moved + g.offset)
    else
      g.(offset := newSize)
  }

  function GrowAll(g: Growth, lengths: seq<nat>): Growth
    decreases |lengths|
  {
    if |lengths| == 0 then g else GrowAll(Grow(g, lengths[0]), lengths[1..])
  }

  function Power2(n: nat): (p: nat)
    ensures p > 0
  {
    if n == 0 then 1 else 2 * Power2(n - 1)
  }

  predicate Bounded(g: Growth) {
    && g.offset % 4 == 0 && g.capacity % PAYLOAD_UNIT == 0
    && PAYLOAD_UNIT * Power2(g.resizes) <= g.capacity
    && g.offset <= g.capacity <= Max(PAYLOAD_UNIT, 2 * g.offset)
    && g.moved + PAYLOAD_UNIT <= g.capacity
  }

  lemma {:induction false} GrowBounded(g: Growth, length: nat)
    requires Bounded(g)
    ensures Bounded(Grow(g, length))
    ensures Grow(g, length).capacity != g.capacity ==> Grow(g, length).capacity >= 2 * g.capacity
    ensures g.offset + length <= Grow(g, length).offset < g.offset + length + 4
    ensures Grow(g, length).capacity != g.capacity <==> Grow(g, length).offset > g.capacity
    ensures Grow(g, length).resizes == if Grow(g, length).capacity != g.capacity then g.resizes + 1 else g.resizes
    ensures Grow(g, length).capacity < Max(2 * g.capacity, Grow(g, length).offset) + PAYLOAD_UNIT
  {
    hide Align4, Align64, Power2;
    var dataLen := Align4(length);
    var newSize := g.offset + dataLen;
    Align4Is(length);
    SumOfMultiples(g.offset, dataLen);
    if newSize > g.capacity {
      var c := Align64(Max(g.capacity * 2, newSize));
      NewCapacity(g.capacity, newSize);
      PowerStep(g.resizes);
      assert c >= 2 * g.capacity && c <= 2 * newSize;
    }
  }

  lemma PowerStep(n: nat)
    ensures Power2(n + 1) == 2 * Power2(n)
  {
  }

  lemma SumOfMultiples(a: nat, b: nat)
    requires a % 4 == 0 && b % 4 == 0
    ensures (a + b) % 4 == 0
  {
    assert a + b == 4 * (a / 4 + b / 4);
  }

  lemma NewCapacity(capacity: nat, newSize: nat)
    requires capacity % PAYLOAD_UNIT == 0 && PAYLOAD_UNIT <= capacity < newSize
    ensures var c := Align64(Max(capacity * 2, newSize));
            && c % PAYLOAD_UNIT == 0 && 2 * capacity <= c && newSize <= c <= 2 * newSize
            && c < Max(capacity * 2, newSize) + PAYLOAD_UNIT
  {
    hide Align4, Align64;
    var wanted := Max(capacity * 2, newSize);
    Align64Is(wanted);
    if wanted == capacity * 2 {
      Doubled(capacity);
    }
  }

  lemma Doubled(c: nat)
    requires c % 64 == 0
    ensures Align64(c * 2) == c * 2
  {
    hide Align4, Align64;
    var k := c / 64;
    TimesUnit(2 * k);
    Align64Is(c * 2);
  }

  lemma TimesUnit(k: nat)
    ensures 64 * k % 64 == 0
  {
  }

  /**
   Over any sequence of writes to a fresh pickle the payload moved by growing is less than twice what
   was written, and the capacity is a multiple of 64, at most twice what was written, and doubles each time.
   */
  lemma {:induction false} AmortizedGrowth(lengths: seq<nat>)
    ensures var g := GrowAll(Growth(0, PAYLOAD_UNIT, 0, 0), lengths);
            && Bounded(g)
            && (g.moved == 0 || g.moved < 2 * g.offset)
  {
    assert Power2(0) == 1;
    GrowAllBounded(Growth(0, PAYLOAD_UNIT, 0, 0), lengths);
  }

  lemma {:induction false} GrowAllBounded(g: Growth, lengths: seq<nat>)
    requires Bounded(g)
    ensures Bounded(GrowAll(g, lengths))
    decreases |lengths|
  {
    hide Grow, Bounded;
    if |lengths| > 0 {
      GrowBounded(g, lengths[0]);
      GrowAllBounded(Grow(g, lengths[0]), lengths[1..]);
    }
  }

  /** The byte counts of the writes that make up one value. */
  function Lengths(v: Value): seq<nat> {
    match v
    case Int(_) => [4]
    case UInt16(_) => [2]
    case UInt32(_) => [4]
    case Int64(_) => [8]
    case UInt64(_) => [8]
    case String(s) => [4, |s|]
    case String16(s) => [4, 2 * |s|]
    case Data(d) => [4, |d|]
  }

  function AllLengths(vs: seq<Value>): seq<nat> {
    if |vs| == 0 then [] else AllLengths(vs[..|vs| - 1]) + Lengths(vs[|vs| - 1])
  }

  lemma {:induction false} GrowAppend(g: Growth, a: seq<nat>, b: seq<nat>)
    ensures GrowAll(g, a + b) == GrowAll(GrowAll(g, a), b)
    decreases |a|
  {
    hide Grow;
    if |a| == 0 {
      assert a + b == b;
    } else {
      assert (a + b)[1..] == a[1..] + b;
      GrowAppend(Grow(g, a[0]), a[1..], b);
    }
  }

  lemma GrowOne(g: Growth, a: nat)
    ensures GrowAll(g, [a]) == Grow(g, a)
  {
    hide Grow;
    assert [a][1..] == [];
  }

  lemma GrowTwo(g: Growth, a: nat, b: nat)
    ensures GrowAll(g, [a, b]) == Grow(Grow(g, a), b)
  {
    hide Grow;
    assert [a, b][1..] == [b];
    GrowOne(Grow(g, a), b);
  }

  // ---------- Data that was not written here ----------

  /** The payload size a header states. */
  function Stated(data: seq<byte>): (n: uint32)
    requires |data| >= 4
  {
    Spans();
    Number(data[..4])
  }

  /** What is left in front of the stated payload, when that is a header: aligned and not empty. */
  function HeaderSize(data: seq<byte>): (h: nat)
    ensures h <= |data|
  {
    if |data| >= 4 && Stated(data) < |data| && (|data| - Stated(data)) % 4 == 0 then |data| - Stated(data) else 0
  }

  lemma WrappedDifference(n: nat, p: uint32)
    requires n <= INT32_MAX
    ensures (n - p) % TWO_32 == if p <= n then n - p else n - p + TWO_32
  {
  }

  /** The read-only constructor's header size, 0 when it refuses the data; the subtraction wraps at 2^32. */
  method OpenReadOnly(data: seq<byte>) returns (headerSize: nat)
    requires |data| <= INT32_MAX
    ensures headerSize == HeaderSize(data)
    ensures headerSize != 0 ==> headerSize >= 4 && headerSize + Stated(data) == |data|
    ensures if headerSize != 0 then IsMessage(headerSize, data) else forall h :: !IsMessage(h, data)
  {
    hide Stated, Align4, Align64;
    headerSize := 0;
    if |data| >= 4 {
      WrappedDifference(|data|, Stated(data));
      headerSize := (|data| - Stated(data)) % TWO_32;
    }
    if headerSize > |data| {
      headerSize := 0;
    }
    Align4Is(headerSize);
    if headerSize != Align4(headerSize) {
      headerSize := 0;
    }
  }

  /** Where the pickle at the start of `data` ends. */
  function FindNext(headerSize: nat, data: seq<byte>): (end: Option<nat>)
    ensures end.Some? ==> headerSize <= end.value <= |data| && 4 <= |data| && end.value == headerSize + Stated(data)
    ensures end.None? ==> |data| < 4 || |data| < headerSize + Stated(data)
  {
    if |data| < 4 then None
    else if |data| < headerSize || |data| - headerSize < Stated(data) then None
    else Some(headerSize + Stated(data))
  }

  /** A serialized pickle with a header of `h` bytes. */
  predicate IsMessage(h: nat, m: seq<byte>) {
    4 <= h <= |m| && h % 4 == 0 && Stated(m) == |m| - h
  }

  function Concat(ms: seq<seq<byte>>): seq<byte> {
    if |ms| == 0 then [] else ms[0] + Concat(ms[1..])
  }

  /** The pickles found in a stream one after the other, and the bytes after the last. */
  function Cut(h: nat, stream: seq<byte>): (seq<seq<byte>>, seq<byte>)
    requires h > 0
    decreases |stream|
  {
    var end := FindNext(h, stream);
    if end.None? then ([], stream)
    else
      var rest := Cut(h, stream[end.value..]);
      ([stream[..end.value]] + rest.0, rest.1)
  }

  lemma {:induction false} FindsFirst(h: nat, m: seq<byte>, rest: seq<byte>)
    requires IsMessage(h, m)
    ensures FindNext(h, m + rest) == Some(|m|)
  {
    assert (m + rest)[..4] == m[..4];
  }

  /** Any proper prefix of one pickle is not taken for a pickle. */
  lemma {:induction false} PrefixRefused(h: nat, m: seq<byte>, k: nat)
    requires IsMessage(h, m) && k < |m|
    ensures FindNext(h, m[..k]) == None
  {
    if k >= 4 {
      assert m[..k][..4] == m[..4];
    }
  }

  /**
   A stream of serialized pickles, possibly broken off inside the last, is cut at exactly the original
   boundaries, and each cut opens with the original header size.
   */
  lemma {:induction false} Framing(h: nat, ms: seq<seq<byte>>, last: seq<byte>, k: nat)
    requires (forall m :: m in ms ==> IsMessage(h, m)) && IsMessage(h, last) && k < |last|
    ensures Cut(h, Concat(ms) + last[..k]) == (ms, last[..k])
    ensures forall m :: m in ms ==> HeaderSize(m) == h
    decreases |ms|
  {
    hide FindNext, IsMessage, HeaderSize;
    if |ms| == 0 {
      assert Concat(ms) + last[..k] == last[..k];
      PrefixRefused(h, last, k);
      assert ms == [];
    } else {
      var m, rest := ms[0], Concat(ms[1..]) + last[..k];
      assert Concat(ms) + last[..k] == m + rest;
      FindsFirst(h, m, rest);
      MessagePositive(h, m);
      assert (m + rest)[|m|..] == rest && (m + rest)[..|m|] == m;
      Framing(h, ms[1..], last, k);
      assert ms == [m] + ms[1..];
    }
  }

  lemma MessagePositive(h: nat, m: seq<byte>)
    requires IsMessage(h, m)
    ensures |m| > 0 && h > 0 && HeaderSize(m) == h
  {
  }
}
