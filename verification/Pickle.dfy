/**
 Pickle: values appended to a growing, aligned buffer behind a header that holds the payload's size,
 and an iterator that reads them back.
 */
module Pickles {
  import opened Memory
  import opened Options
  import opened PickleFormat
  import Format = PickleFormat

  // ---------- The writer ----------

  /** The old bytes, as far as they fit the new buffer. */
  method Copied(from: array<byte>, length: nat) returns (copy: array<byte>)
    ensures fresh(copy) && copy.Length == length
    ensures forall i :: 0 <= i < length && i < from.Length ==> copy[i] == from[i]
  {
    copy := new byte[length];
    var n := if from.Length < length then from.Length else length;
    forall i | 0 <= i < n {
      copy[i] := from[i];
    }
  }

  /** Storing the payload size changes nothing behind it. */
  lemma {:induction false} SizeLaid(b: seq<byte>, h: nat, size: uint32)
    requires 4 <= h <= |b|
    ensures var r := Splice(b, 0, Bytes(size, 4));
            Stated(r[..h]) == size && r[4..] == b[4..]
  {
    hide Bytes, Number, Span;
    Spans();
    NumberOfBytes(size, 4);
    var r := Splice(b, 0, Bytes(size, 4));
    assert r[..h][..4] == Bytes(size, 4);
  }

  /** The three copies of one write. */
  lemma {:induction false} PutLaid(b: seq<byte>, h: nat, write: nat, data: seq<byte>, size: uint32)
    requires 4 <= h <= write && write + Align4(|data|) <= |b| && |data| <= Align4(|data|)
    ensures var copied := Splice(b, write, data);
            var filled := Splice(copied, write + |data|, Zeros(Align4(|data|) - |data|));
            var r := Splice(filled, 0, Bytes(size, 4));
            && Stated(r[..h]) == size
            && r[4..h] == b[4..h] && r[h..write] == b[h..write]
            && r[write..write + Align4(|data|)] == Field(data)
  {
    hide Align4, Stated, Bytes;
    var dataLen := Align4(|data|);
    var copied := Splice(b, write, data);
    var filled := Splice(copied, write + |data|, Zeros(dataLen - |data|));
    assert filled[..write] == b[..write];
    assert filled[write..write + dataLen] == Field(data);
    SizeLaid(filled, h, size);
    var r := Splice(filled, 0, Bytes(size, 4));
    Behind(r, filled, 4, h);
    Behind(r, filled, h, write);
    Behind(r, filled, write, write + dataLen);
    Before(filled, b, 4, h, write);
    Before(filled, b, h, write, write);
  }

  lemma Behind(r: seq<byte>, b: seq<byte>, from: nat, to: nat)
    requires |r| == |b| && 4 <= from <= to <= |b| && r[4..] == b[4..]
    ensures r[from..to] == b[from..to]
  {
    assert r[from..to] == r[4..][from - 4..to - 4];
    assert b[from..to] == b[4..][from - 4..to - 4];
  }

  lemma Before(r: seq<byte>, b: seq<byte>, from: nat, to: nat, end: nat)
    requires |r| == |b| && from <= to <= end <= |b| && r[..end] == b[..end]
    ensures r[from..to] == b[from..to]
  {
    assert r[from..to] == r[..end][from..to];
    assert b[from..to] == b[..end][from..to];
  }

  class Pickle {
    const headerSize: nat
    var buffer: array<byte>
    var capacity: nat
    var writeOffset: nat
    ghost var resizes: nat
    ghost var moved: nat

    ghost predicate Valid()
      reads this, buffer
    {
      && 4 <= headerSize <= PAYLOAD_UNIT && headerSize % 4 == 0
      && buffer.Length == headerSize + capacity
      && writeOffset <= capacity && writeOffset % 4 == 0
      && Stated(buffer[..headerSize]) == writeOffset
    }

    ghost function Payload(): (p: seq<byte>)
      requires Valid()
      reads this, buffer
      ensures |p| == writeOffset
    {
      buffer[headerSize..headerSize + writeOffset]
    }

    /** The part of the header behind the payload size, which belongs to the caller. */
    ghost function Extra(): seq<byte>
      requires Valid()
      reads this, buffer
    {
      buffer[4..headerSize]
    }

    ghost function Stats(): Growth
      reads this
    {
      Growth(writeOffset, capacity, resizes, moved)
    }

    constructor (requested: nat)
      requires 4 <= requested <= PAYLOAD_UNIT
      ensures Valid() && fresh(buffer) && Payload() == []
      ensures headerSize == Align4(requested)
      ensures Stats() == Growth(0, PAYLOAD_UNIT, 0, 0)
    {
      headerSize := Align4(requested);
      buffer := new byte[0];
      capacity := 0;
      writeOffset := 0;
      resizes := 0;
      moved := 0;
      new;
      Align4Is(requested);
      Resize(PAYLOAD_UNIT);
      resizes := 0;
      SizeLaid(buffer[..], headerSize, 0);
      Copy(buffer, 0, Bytes(0, 4));
    }

    method Resize(newCapacity: nat)
      modifies this`buffer, this`capacity, this`resizes, this`moved
      ensures fresh(buffer) && buffer.Length == headerSize + capacity
      ensures capacity == Align64(newCapacity)
      ensures forall i :: 0 <= i < buffer.Length && i < old(buffer.Length) ==> buffer[i] == old(buffer[i])
      ensures resizes == old(resizes) + 1 && moved == old(moved) + writeOffset
    {
      var aligned := Align64(newCapacity);
      Align64Is(newCapacity);
      buffer := Copied(buffer, headerSize + aligned);
      capacity := aligned;
      resizes := resizes + 1;
      moved := moved + writeOffset;
    }

    /** Makes room for `newSize` bytes of payload. */
    method Ensure(newSize: nat, ghost length: nat)
      requires Valid() && newSize == writeOffset + Align4(length)
      modifies this`buffer, this`capacity, this`resizes, this`moved
      ensures Valid() && newSize <= capacity && (buffer == old(buffer) || fresh(buffer))
      ensures Payload() == old(Payload()) && Extra() == old(Extra())
      ensures Growth(newSize, capacity, resizes, moved) == Grow(old(Stats()), length)
    {
      hide Align4, Align64, Stated;
      if newSize > capacity {
        ghost var before := buffer[..];
        Align64Is(Max(capacity * 2, newSize));
        Resize(Max(capacity * 2, newSize));
        assert buffer[..|before|] == before;
        assert buffer[..headerSize] == before[..headerSize];
      }
    }

    /** Lays `data` at `write`, filled up with zeros, and stores the payload size. */
    method Put(write: nat, data: seq<byte>, dataLen: nat, newSize: uint32)
      requires 4 <= headerSize <= write && write + dataLen <= buffer.Length
      requires dataLen == Align4(|data|)
      modifies buffer
      ensures buffer[4..headerSize] == old(buffer[4..headerSize])
      ensures buffer[headerSize..write] == old(buffer[headerSize..write])
      ensures buffer[write..write + dataLen] == Field(data)
      ensures Stated(buffer[..headerSize]) == newSize
    {
      hide Align4, Stated, Splice, Field, Bytes;
      Align4Is(|data|);
      ghost var before := buffer[..];
      Copy(buffer, write, data);
      Copy(buffer, write + |data|, Zeros(dataLen - |data|));
      Copy(buffer, 0, Bytes(newSize, 4));
      PutLaid(before, headerSize, write, data, newSize);
    }

    method WriteBytesCommon(data: seq<byte>)
      requires Valid() && writeOffset + Align4(|data|) <= UINT32_MAX
      modifies this, buffer
      ensures Valid() && (buffer == old(buffer) || fresh(buffer))
      ensures Payload() == old(Payload()) + Field(data) && Extra() == old(Extra())
      ensures Stats() == Grow(old(Stats()), |data|)
    {
      hide Align4, Align64, Stated, Field, Grow;
      var dataLen := Align4(|data|);
      Align4Is(|data|);
      SumOfMultiples(writeOffset, dataLen);
      var newSize := writeOffset + dataLen;
      Ensure(newSize, |data|);
      var write := headerSize + writeOffset;
      Put(write, data, dataLen, newSize);
      Adjoin(buffer[..], headerSize, write, write + dataLen);
      writeOffset := newSize;
    }

    /** Whether `v` still fits: the payload size is an unsigned 32-bit number. */
    ghost predicate Fits(v: Value)
      reads this
    {
      Writable(v) && writeOffset + |Encode(v)| <= UINT32_MAX
    }

    method WriteInt(i: int32)
      requires Valid() && Fits(Int(i))
      modifies this, buffer
      ensures Valid() && (buffer == old(buffer) || fresh(buffer))
      ensures Payload() == old(Payload()) + IntField(i) && Extra() == old(Extra())
      ensures Stats() == Grow(old(Stats()), 4)
    {
      WriteBytesCommon(Bytes(Unsigned(i, TWO_32), 4));
    }

    /** A length, then the bytes. */
    method WriteData(data: seq<byte>)
      requires Valid() && Fits(Data(data))
      modifies this, buffer
      ensures Valid() && (buffer == old(buffer) || fresh(buffer))
      ensures Payload() == old(Payload()) + (IntField(|data|) + Field(data)) && Extra() == old(Extra())
      ensures Stats() == Grow(Grow(old(Stats()), 4), |data|)
    {
      hide Grow, Field, IntField, Stated, Align4, Pickle.Valid, Pickle.Payload, Pickle.Extra;
      WriteInt(|data|);
      WriteBytesCommon(data);
    }

    method WriteString16(s: seq<uint16>)
      requires Valid() && Fits(String16(s))
      modifies this, buffer
      ensures Valid() && (buffer == old(buffer) || fresh(buffer))
      ensures Payload() == old(Payload()) + (IntField(|s|) + Field(Units(s))) && Extra() == old(Extra())
      ensures Stats() == Grow(Grow(old(Stats()), 4), 2 * |s|)
    {
      hide Grow, Field, IntField, Stated, Units, Align4, Pickle.Valid, Pickle.Payload, Pickle.Extra;
      WriteInt(|s|);
      WriteBytesCommon(Units(s));
    }

    method Write(v: Value)
      requires Valid() && Fits(v)
      modifies this, buffer
      ensures Valid() && (buffer == old(buffer) || fresh(buffer))
      ensures Payload() == old(Payload()) + Encode(v) && Extra() == old(Extra())
      ensures Stats() == GrowAll(old(Stats()), Lengths(v))
    {
      hide Grow, GrowAll, Field, IntField, Stated, Units, Pickle.Valid;
      match v {
        case Int(i) => WriteInt(i); GrowOne(old(Stats()), 4);
        case UInt16(n) => WriteBytesCommon(Bytes(n, 2)); GrowOne(old(Stats()), 2);
        case UInt32(n) => WriteBytesCommon(Bytes(n, 4)); GrowOne(old(Stats()), 4);
        case Int64(i) => WriteBytesCommon(Bytes(Unsigned(i, TWO_64), 8)); GrowOne(old(Stats()), 8);
        case UInt64(n) => WriteBytesCommon(Bytes(n, 8)); GrowOne(old(Stats()), 8);
        case String(s) => WriteData(s); GrowTwo(old(Stats()), 4, |s|);
        case String16(s) => WriteString16(s); GrowTwo(old(Stats()), 4, 2 * |s|);
        case Data(d) => WriteData(d); GrowTwo(old(Stats()), 4, |d|);
      }
    }
  }

  /** The bytes of a pickle, header and payload, are a message of the stream format and open with its header size. */
  lemma SerializedIsMessage(pickle: Pickle)
    requires pickle.Valid()
    ensures var bytes := pickle.buffer[..pickle.headerSize + pickle.writeOffset];
            IsMessage(pickle.headerSize, bytes) && HeaderSize(bytes) == pickle.headerSize
            && bytes[pickle.headerSize..] == pickle.Payload()
  {
    var bytes := pickle.buffer[..pickle.headerSize + pickle.writeOffset];
    assert bytes[..4] == pickle.buffer[..pickle.headerSize][..4];
  }

  // ---------- The reader ----------

  class PickleIterator {
    const payload: seq<byte>
    const endIndex: nat
    var readIndex: nat

    ghost predicate Valid()
      reads this
    {
      endIndex == |payload| && readIndex <= endIndex
    }

    ghost function State(): (it: Iter)
      requires Valid()
      reads this
      ensures Reading(it)
    {
      Iter(payload, readIndex)
    }

    constructor (pickle: Pickle)
      requires pickle.Valid()
      ensures Valid() && State() == Iter(pickle.Payload(), 0)
    {
      var size := Stated(pickle.buffer[..pickle.headerSize]);
      payload := pickle.buffer[pickle.headerSize..pickle.headerSize + size];
      endIndex := size;
      readIndex := 0;
    }

    method Advance(size: nat)
      requires Valid()
      modifies this
      ensures Valid() && State() == Format.Advance(old(State()), size)
    {
      var alignedSize := Align4(size);
      if endIndex - readIndex < alignedSize {
        readIndex := endIndex;
      } else {
        readIndex := readIndex + alignedSize;
      }
    }

    method GetFixed(size: nat) returns (read: Option<seq<byte>>)
      requires Valid()
      modifies this
      ensures Valid() && Got(read, State()) == Format.GetFixed(old(State()), size)
    {
      hide Format.Advance;
      if size > endIndex - readIndex {
        readIndex := endIndex;
        return None;
      }
      read := Some(payload[readIndex..readIndex + size]);
      Advance(size);
    }

    method GetBytes(numBytes: int) returns (read: Option<seq<byte>>)
      requires Valid()
      modifies this
      ensures Valid() && Got(read, State()) == Format.GetBytes(old(State()), numBytes)
    {
      hide Format.Advance;
      if numBytes < 0 || endIndex - readIndex < numBytes {
        readIndex := endIndex;
        return None;
      }
      read := Some(payload[readIndex..readIndex + numBytes]);
      Advance(numBytes);
    }

    method GetElements(numElements: int32, sizeElement: nat) returns (read: Option<seq<byte>>)
      requires Valid()
      modifies this
      ensures Valid() && Got(read, State()) == Format.GetElements(old(State()), numElements, sizeElement)
    {
      hide Format.GetBytes;
      var numBytes := numElements * sizeElement;
      if !(-INT32_MAX - 1 <= numBytes <= INT32_MAX) {
        return None;
      }
      read := GetBytes(numBytes);
    }

    method ReadUnsigned(size: nat) returns (result: Option<nat>)
      requires Valid()
      modifies this
      ensures Valid() && Got(result, State()) == Format.ReadUnsigned(old(State()), size)
      ensures result.Some? ==> result.value < Span(size)
    {
      hide Format.GetFixed;
      var readFrom := GetFixed(size);
      if readFrom.None? {
        return None;
      }
      result := Some(Number(readFrom.value));
    }

    method ReadInt() returns (result: Option<int32>)
      requires Valid()
      modifies this
      ensures Valid() && Got(result, State()) == Format.ReadInt(old(State()))
    {
      hide Format.ReadUnsigned;
      Spans();
      var n := ReadUnsigned(4);
      result := if n.None? then None else Some(Signed(n.value, TWO_32));
    }

    method ReadInt64() returns (result: Option<int64>)
      requires Valid()
      modifies this
      ensures Valid() && Got(result, State()) == Format.ReadInt64(old(State()))
    {
      hide Format.ReadUnsigned;
      Spans();
      var n := ReadUnsigned(8);
      result := if n.None? then None else Some(Signed(n.value, TWO_64));
    }

    method ReadString() returns (result: Option<seq<byte>>)
      requires Valid()
      modifies this
      ensures Valid() && Got(result, State()) == Format.ReadString(old(State()))
    {
      hide Format.ReadInt, Format.GetBytes;
      var len := ReadInt();
      if len.None? {
        return None;
      }
      result := GetBytes(len.value);
    }

    method ReadString16() returns (result: Option<seq<uint16>>)
      requires Valid()
      modifies this
      ensures Valid() && Got(result, State()) == Format.ReadString16(old(State()))
    {
      hide Format.ReadInt, Format.GetElements, FromUnits;
      var len := ReadInt();
      if len.None? {
        return None;
      }
      var readFrom := GetElements(len.value, 2);
      result := if readFrom.None? then None else Some(FromUnits(readFrom.value));
    }

    method Read(kind: Kind) returns (v: Option<Value>)
      requires Valid()
      modifies this
      ensures Valid() && Got(v, State()) == Format.Read(old(State()), kind)
    {
      hide Format.ReadInt, Format.ReadInt64, Format.ReadUnsigned, Format.ReadString, Format.ReadString16;
      Spans();
      match kind {
        case IntKind => var r := ReadInt(); v := if r.Some? then Some(Int(r.value)) else None;
        case UInt16Kind => var r := ReadUnsigned(2); v := if r.Some? then Some(UInt16(r.value)) else None;
        case UInt32Kind => var r := ReadUnsigned(4); v := if r.Some? then Some(UInt32(r.value)) else None;
        case Int64Kind => var r := ReadInt64(); v := if r.Some? then Some(Int64(r.value)) else None;
        case UInt64Kind => var r := ReadUnsigned(8); v := if r.Some? then Some(UInt64(r.value)) else None;
        case StringKind => var r := ReadString(); v := if r.Some? then Some(String(r.value)) else None;
        case String16Kind => var r := ReadString16(); v := if r.Some? then Some(String16(r.value)) else None;
        case DataKind => var r := ReadString(); v := if r.Some? then Some(Data(r.value)) else None;
      }
    }
  }

  /**
   What is written to a fresh pickle reads back, ends exactly at the end of the payload, and growing
   the buffer moved less than twice the bytes written.
   */
  method RoundTrip(requested: nat, vs: seq<Value>) returns (back: Option<seq<Value>>, atEnd: bool, ghost grown: Growth)
    requires 4 <= requested <= PAYLOAD_UNIT
    requires (forall v :: v in vs ==> Writable(v)) && |EncodeAll(vs)| <= UINT32_MAX
    ensures back == Some(vs) && atEnd
    ensures grown.offset == |EncodeAll(vs)| && Bounded(grown)
    ensures grown.moved == 0 || grown.moved < 2 * grown.offset
  {
    hide Encode, EncodeAll, Grow, GrowAll, Bounded, Pickle.Valid, Read, ReadAll, Kinds;
    var pickle := new Pickle(requested);
    WriteAll(pickle, vs);
    grown := pickle.Stats();
    GrownOffset(pickle);
    AmortizedGrowth(AllLengths(vs));
    var it := new PickleIterator(pickle);
    FullRoundTrip(vs);
    back := ReadEach(it, Kinds(vs));
    atEnd := it.readIndex == it.endIndex;
  }

  lemma GrownOffset(pickle: Pickle)
    requires pickle.Valid()
    ensures pickle.Stats().offset == |pickle.Payload()|
  {
  }

  method WriteAll(pickle: Pickle, vs: seq<Value>)
    requires pickle.Valid() && pickle.Payload() == [] && forall v :: v in vs ==> Writable(v)
    requires |EncodeAll(vs)| <= UINT32_MAX
    modifies pickle, pickle.buffer
    ensures pickle.Valid() && pickle.Payload() == EncodeAll(vs)
    ensures pickle.Stats() == GrowAll(old(pickle.Stats()), AllLengths(vs))
  {
    hide Encode, EncodeAll, Grow, GrowAll, AllLengths, Pickle.Valid, Pickle.Payload;
    ghost var before := pickle.Stats();
    WroteNone(before);
    var i := 0;
    while i < |vs|
      invariant 0 <= i <= |vs|
      invariant pickle.Valid() && (pickle.buffer == old(pickle.buffer) || fresh(pickle.buffer))
      invariant pickle.Payload() == EncodeAll(vs[..i])
      invariant pickle.Stats() == GrowAll(old(pickle.Stats()), AllLengths(vs[..i]))
    {
      WroteOneMore(before, vs, i);
      pickle.Write(vs[i]);
      i := i + 1;
    }
    assert vs[..i] == vs;
  }

  lemma WroteNone(g: Growth)
    ensures EncodeAll([]) == [] && GrowAll(g, AllLengths([])) == g
  {
  }

  lemma {:induction false} WroteOneMore(g: Growth, vs: seq<Value>, i: nat)
    requires i < |vs| && forall v :: v in vs ==> Writable(v)
    ensures EncodeAll(vs[..i + 1]) == EncodeAll(vs[..i]) + Encode(vs[i])
    ensures |EncodeAll(vs[..i + 1])| <= |EncodeAll(vs)|
    ensures GrowAll(g, AllLengths(vs[..i + 1])) == GrowAll(GrowAll(g, AllLengths(vs[..i])), Lengths(vs[i]))
  {
    hide Encode, Grow;
    assert vs[..i + 1][..i] == vs[..i];
    EncodePrefix(vs, i + 1);
    GrowAppend(g, AllLengths(vs[..i]), Lengths(vs[i]));
  }

  lemma {:induction false} EncodePrefix(vs: seq<Value>, i: nat)
    requires i <= |vs| && forall v :: v in vs ==> Writable(v)
    ensures |EncodeAll(vs[..i])| <= |EncodeAll(vs)|
    decreases |vs|
  {
    hide Encode;
    if i < |vs| {
      assert vs[..|vs| - 1][..i] == vs[..i];
      EncodePrefix(vs[..|vs| - 1], i);
    } else {
      assert vs[..i] == vs;
    }
  }

  /** Reads one value of each kind in turn. */
  method ReadEach(it: PickleIterator, kinds: seq<Kind>) returns (back: Option<seq<Value>>)
    requires it.Valid()
    modifies it
    ensures it.Valid() && Got(back, it.State()) == ReadAll(old(it.State()), kinds)
  {
    hide Read, PickleIterator.Valid;
    var got: seq<Value> := [];
    ghost var all := ReadAll(it.State(), kinds);
    assert kinds[0..] == kinds && (all.value.Some? ==> got + all.value.value == all.value.value);
    var i := 0;
    while i < |kinds|
      invariant 0 <= i <= |kinds| && it.Valid()
      invariant var rest := ReadAll(it.State(), kinds[i..]);
                ReadAll(old(it.State()), kinds)
                == if rest.value.Some? then Got(Some(got + rest.value.value), rest.it) else rest
    {
      assert kinds[i..][0] == kinds[i] && kinds[i..][1..] == kinds[i + 1..];
      var v := it.Read(kinds[i]);
      if v.None? {
        return None;
      }
      ghost var rest := ReadAll(it.State(), kinds[i + 1..]);
      assert rest.value.Some? ==> got + ([v.value] + rest.value.value) == got + [v.value] + rest.value.value;
      got := got + [v.value];
      i := i + 1;
    }
    assert got + [] == got;
    back := Some(got);
  }
}
