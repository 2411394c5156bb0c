/** The bytes of values and records, spelled out: what is written, and how whatever the other side writes is
    read, including the types that only the other side writes. */
module WireFormat {
  import opened Common
  import opened Packing
  import opened Codec
  import opened CodecLaws
  import opened RecordStream
  import opened RecordOutput

  // ---------------------------------------------------------------------------------------------
  // What is written
  // ---------------------------------------------------------------------------------------------

  /** Values with a fixed size. */
  lemma WrittenNumbers<X>(env: Env<X>, b: bool, i: int, bits: Double)
    ensures Encode(env, Null) == Some([0x1A])
    ensures Encode(env, Bool(b)) == Some([0x22, if b then 1 else 0])
    ensures FitsSigned(i, 8) ==>
              Encode(env, Int(i)) == Some([0x1F] + BigEndian(if i < 0 then i + Power(8) else i, 8))
    ensures Encode(env, Float(bits)) == Some([0x1E] + bits)
  {
    assert [0x1A] + [] == [0x1A];
    assert [0x22] + [if b then 1 else 0] == [0x22, if b then 1 else 0];
  }

  lemma LengthInFront(bs: Bytes)
    ensures WithLength(bs) == if |bs| < Power(4) then Some(BigEndian(|bs|, 4) + bs) else None
  {
  }

  lemma EncodeIs<X>(env: Env<X>, v: Value<X>, info: Bytes, d: Desc, payload: Bytes)
    requires TypeInfo(env, v) == Some(info) && SerializerOf(env, v) == Some(d)
    requires Serialize(env, d, v) == Some(payload)
    ensures Encode(env, v) == Some(info + payload)
  {
  }

  lemma BytesAre<X>(env: Env<X>, bs: Bytes)
    ensures TypeInfo(env, ByteArray(bs)) == Some([0x1B]) && SerializerOf(env, ByteArray(bs)) == Some(BytesD)
    ensures Serialize(env, BytesD, ByteArray(bs)) == WithLength(bs)
  {
  }

  /** Values with their length in front: byte arrays */
  lemma WrittenBytes<X>(env: Env<X>, bs: Bytes)
    requires |bs| < Power(4)
    ensures Encode(env, ByteArray(bs)) == Some([0x1B] + (BigEndian(|bs|, 4) + bs))
  {
    LengthInFront(bs);
    BytesAre(env, bs);
    EncodeIs(env, ByteArray(bs), [0x1B], BytesD, BigEndian(|bs|, 4) + bs);
  }

  /** and texts. */
  lemma WrittenText<X>(env: Env<X>, text: string)
    requires |env.encodeText(text)| < Power(4)
    ensures var t := env.encodeText(text); Encode(env, Str(text)) == Some([0x1C] + (BigEndian(|t|, 4) + t))
  {
    var t := env.encodeText(text);
    LengthInFront(t);
    EncodeIs(env, Str(text), [0x1C], StringD, BigEndian(|t|, 4) + t);
  }

  /** Objects of the type registered as number `k`; the first such type has the tag 126, the next 125. */
  lemma WrittenObject<X>(env: Env<X>, cls: nat, k: nat, x: X)
    requires Tagged(env.types) && FindClass(env.types, cls) == Some(k) && k < 126
    ensures var m := env.types[k].encode(x);
            FitsSigned(|m|, 4) ==> Encode(env, Custom(cls, x)) == Some([126 - k] + (BigEndian(|m|, 4) + m))
  {
    assert env.types[k].tag == TagOf(k);
  }

  /** Tuples and lists: the number of fields, the headers of all fields, the fields. */
  lemma WrittenTuple<X>(env: Env<X>, vs: seq<Value<X>>)
    requires |vs| < 256
    ensures Encode(env, List(vs)) == Encode(env, Tuple(vs))
    ensures Encode(env, Tuple(vs)).Some? ==>
              && TypeInfos(env, vs).Some? && SerializersOf(env, vs).Some?
              && SerializeAll(env, SerializersOf(env, vs).value, vs).Some?
              && Encode(env, Tuple(vs)).value ==
                 ([|vs|] + TypeInfos(env, vs).value) + SerializeAll(env, SerializersOf(env, vs).value, vs).value
  {
    ArityByte(|vs|);
    assert TypeInfo(env, Tuple(vs)) == TupleTypeInfo(env, vs) == TypeInfo(env, List(vs));
    assert SerializerOf(env, List(vs)) == SerializerOf(env, Tuple(vs));
    var ds := SerializersOf(env, vs);
    if Encode(env, Tuple(vs)).Some? {
      assert SerializerOf(env, Tuple(vs)) == Some(TupleD(ds.value));
      assert Serialize(env, TupleD(ds.value), Tuple(vs)) == SerializeAll(env, ds.value, vs);
    }
  }

  /** A value with its length in front. */
  ghost function Framed(content: Bytes): Bytes {
    BigEndian(|content|, 4) + content
  }

  ghost function FramedEach<X>(env: Env<X>, vs: seq<Value<X>>): Bytes
    requires forall i :: 0 <= i < |vs| ==> Encode(env, vs[i]).Some?
  {
    if vs == [] then [] else Framed(Encode(env, vs[0]).value) + FramedEach(env, vs[1..])
  }

  lemma BlockIsFramed<X>(env: Env<X>, v: Value<X>, info: Bytes, d: Desc)
    requires TypeInfo(env, v) == Some(info) && SerializerOf(env, v) == Some(d) && Block(env, info, d, v).Some?
    ensures Encode(env, v).Some? && Block(env, info, d, v) == Some(Framed(Encode(env, v).value))
  {
    BlockIs(env, v);
  }

  lemma {:induction false} BlocksAreFramed<X>(env: Env<X>, vs: seq<Value<X>>, infos: seq<Bytes>, ds: seq<Desc>)
    requires InfoOfEach(env, vs) == Some(infos) && SerializersOf(env, vs) == Some(ds)
    requires Blocks(env, infos, ds, vs).Some?
    ensures forall i :: 0 <= i < |vs| ==> Encode(env, vs[i]).Some?
    ensures Blocks(env, infos, ds, vs) == Some(FramedEach(env, vs))
  {
    if vs != [] {
      BlockIsFramed(env, vs[0], infos[0], ds[0]);
      assert infos[1..] == InfoOfEach(env, vs[1..]).value && ds[1..] == SerializersOf(env, vs[1..]).value;
      BlocksAreFramed(env, vs[1..], infos[1..], ds[1..]);
      assert forall i :: 0 < i < |vs| ==> vs[i] == vs[1..][i - 1];
    }
  }

  /** The message of a record: a value with its length in front, or the number of keys, the keys and the value. */
  lemma WrittenMessage<X>(env: Env<X>, keys: seq<Value<X>>, v: Value<X>)
    requires |keys| < 256
    ensures var s := Choose(env, Single(v));
            s.Some? && Message(env, s.value, Single(v)).Some? ==>
              Encode(env, v).Some? && Message(env, s.value, Single(v)).value == Framed(Encode(env, v).value)
    ensures var s := Choose(env, KeyValue(keys, v));
            s.Some? && Message(env, s.value, KeyValue(keys, v)).Some? ==>
              && (forall i :: 0 <= i < |keys| ==> Encode(env, keys[i]).Some?) && Encode(env, v).Some?
              && Message(env, s.value, KeyValue(keys, v)).value ==
                 ([|keys|] + FramedEach(env, keys)) + Framed(Encode(env, v).value)
  {
    var single, keyed := Choose(env, Single(v)), Choose(env, KeyValue(keys, v));
    if single.Some? && Message(env, single.value, Single(v)).Some? {
      BlockIsFramed(env, v, TypeInfo(env, v).value, SerializerOf(env, v).value);
    }
    if keyed.Some? && Message(env, keyed.value, KeyValue(keys, v)).Some? {
      ArityByte(|keys|);
      BlockIsFramed(env, v, TypeInfo(env, v).value, SerializerOf(env, v).value);
      BlocksAreFramed(env, keys, InfoOfEach(env, keys).value, SerializersOf(env, keys).value);
    }
  }

  // ---------------------------------------------------------------------------------------------
  // What the other side may write
  // ---------------------------------------------------------------------------------------------

  /** A header can describe `d`. */
  ghost predicate Describable<X>(env: Env<X>, d: Desc) {
    match d
    case TupleD(ds) => 1 <= |ds| <= 25 && AllDescribable(env, ds)
    case CustomD(k) => k < |env.types| && k < 92
    case _ => true
  }

  ghost predicate AllDescribable<X>(env: Env<X>, ds: seq<Desc>) {
    ds != [] ==> Describable(env, ds[0]) && AllDescribable(env, ds[1..])
  }

  ghost function Header<X>(env: Env<X>, d: Desc): Bytes
    requires Describable(env, d)
    decreases d, 1
  {
    match d
    case NullD => [0x1A]
    case BytesD => [0x1B]
    case StringD => [0x1C]
    case FloatD => [0x1D]
    case DoubleD => [0x1E]
    case LongD => [0x1F]
    case IntegerD => [0x20]
    case ByteD => [0x21]
    case BoolD => [0x22]
    case TupleD(ds) => [|ds|] + Headers(env, ds)
    case CustomD(k) => [126 - k]
  }

  ghost function Headers<X>(env: Env<X>, ds: seq<Desc>): Bytes
    requires AllDescribable(env, ds)
    decreases ds, 0
  {
    if ds == [] then [] else Header(env, ds[0]) + Headers(env, ds[1..])
  }

  /** `bytes` is a value `v` of the type `d`. */
  ghost predicate Represents<X(!new)>(env: Env<X>, d: Desc, bytes: Bytes, v: Value<X>)
    decreases d, 1
  {
    match d
    case NullD => bytes == [] && v == Null
    case BoolD => |bytes| == 1 && v == Bool(bytes[0] != 0)
    case ByteD => |bytes| == 1 && v == RawByte(bytes[0])
    case IntegerD => v.Int? && PackSigned(v.i, 4) == Some(bytes)
    case LongD => v.Int? && PackSigned(v.i, 8) == Some(bytes)
    case FloatD => |bytes| == 4 && v == Float(env.widen(bytes))
    case DoubleD => |bytes| == 8 && v == Float(bytes)
    case BytesD => v.ByteArray? && IsBlock(bytes, v.bytes)
    case StringD =>
      v.Str? && exists t :: IsBlock(bytes, t) && (if t == [] then v.text == "" else env.decodeText(t) == Some(v.text))
    case TupleD(ds) => v.Tuple? && AllRepresent(env, ds, bytes, v.fields)
    case CustomD(k) =>
      && v.Custom? && k < |env.types| && v.cls == env.types[k].cls && |bytes| >= 4
      && forall rest :: env.types[k].decode(bytes[4..] + rest) == Some((v.state, |bytes| - 4))
  }

  ghost predicate AllRepresent<X(!new)>(env: Env<X>, ds: seq<Desc>, bytes: Bytes, vs: seq<Value<X>>)
    decreases ds, 1
  {
    if ds == [] || vs == [] then ds == [] && vs == [] && bytes == []
    else exists k :: 0 <= k <= |bytes| && SplitAt(env, ds, bytes, vs, k)
  }

  ghost predicate SplitAt<X(!new)>(env: Env<X>, ds: seq<Desc>, bytes: Bytes, vs: seq<Value<X>>, k: nat)
    requires ds != [] && vs != [] && k <= |bytes|
    decreases ds, 0
  {
    Represents(env, ds[0], bytes[..k], vs[0]) && AllRepresent(env, ds[1..], bytes[k..], vs[1..])
  }

  /** A block of less than 2^31 bytes with its length in front. */
  ghost predicate IsBlock(bytes: Bytes, content: Bytes) {
    2 * |content| < Power(4) && bytes == BigEndian(|content|, 4) + content
  }

  // ---------------------------------------------------------------------------------------------
  // How it is read
  // ---------------------------------------------------------------------------------------------

  lemma {:induction false} HeaderIsRead<X>(env: Env<X>, d: Desc, rest: Bytes)
    requires Tagged(env.types) && Describable(env, d)
    ensures GetDeserializer(env, Header(env, d) + rest) == Some((d, rest))
    decreases d, 1
  {
    match d
    case TupleD(ds) =>
      HeadersAreRead(env, ds, rest);
      ReadTupleHeader(env, |ds|, Headers(env, ds) + rest);
      Associate([|ds|], Headers(env, ds), rest);
    case CustomD(k) =>
      DispatchIff(env.types, k);
      ReadBack([126 - k], rest);
    case _ =>
      ReadBack(Header(env, d), rest);
  }

  lemma {:induction false} HeadersAreRead<X>(env: Env<X>, ds: seq<Desc>, rest: Bytes)
    requires Tagged(env.types) && AllDescribable(env, ds)
    ensures GetDeserializers(env, |ds|, Headers(env, ds) + rest) == Some((ds, rest))
    decreases ds, 0
  {
    if ds == [] {
      assert [] + rest == rest;
    } else {
      HeaderIsRead(env, ds[0], Headers(env, ds[1..]) + rest);
      HeadersAreRead(env, ds[1..], rest);
      Associate(Header(env, ds[0]), Headers(env, ds[1..]), rest);
      assert [ds[0]] + ds[1..] == ds;
    }
  }

  lemma BlockIsRead(bytes: Bytes, content: Bytes, rest: Bytes)
    requires IsBlock(bytes, content)
    ensures ReadBlock(bytes + rest) == Some((content, rest))
  {
    BlockRoundTrip(content, rest);
  }

  /** Numbers that only the other side writes: 32-bit integers, single bytes and short floats. */
  lemma ShortNumberIsRead<X(!new)>(env: Env<X>, d: Desc, bytes: Bytes, v: Value<X>, rest: Bytes)
    requires d == IntegerD || d == LongD
    requires Represents(env, d, bytes, v)
    ensures Deserialize(env, d, bytes + rest) == Some((v, rest))
  {
    var width := if d == IntegerD then 4 else 8;
    SignedRoundTrip(v.i, width);
    ReadBack(bytes, rest);
  }

  lemma ObjectIsRead<X(!new)>(env: Env<X>, k: nat, bytes: Bytes, v: Value<X>, rest: Bytes)
    requires Represents(env, CustomD(k), bytes, v)
    ensures Deserialize(env, CustomD(k), bytes + rest) == Some((v, rest))
  {
    assert bytes == bytes[..4] + bytes[4..];
    Associate(bytes[..4], bytes[4..], rest);
    ReadBack(bytes[..4], bytes[4..] + rest);
    ReadBack(bytes[4..], rest);
  }

  /** Reading a value of the type `d` gives that value and consumes exactly its bytes. */
  lemma {:induction false} PayloadIsRead<X(!new)>(env: Env<X>, d: Desc, bytes: Bytes, v: Value<X>, rest: Bytes)
    requires Represents(env, d, bytes, v)
    ensures Deserialize(env, d, bytes + rest) == Some((v, rest))
    decreases d, 1
  {
    match d
    case NullD => assert [] + rest == rest;
    case TupleD(ds) => PayloadsAreRead(env, ds, bytes, v.fields, rest);
    case CustomD(k) => ObjectIsRead(env, k, bytes, v, rest);
    case IntegerD => ShortNumberIsRead(env, d, bytes, v, rest);
    case LongD => ShortNumberIsRead(env, d, bytes, v, rest);
    case BytesD => BlockIsRead(bytes, v.bytes, rest);
    case StringD =>
      var t :| IsBlock(bytes, t) && (if t == [] then v.text == "" else env.decodeText(t) == Some(v.text));
      BlockIsRead(bytes, t, rest);
    case _ => ReadBack(bytes, rest);
  }

  lemma {:induction false} PayloadsAreRead<X(!new)>(env: Env<X>, ds: seq<Desc>, bytes: Bytes, vs: seq<Value<X>>,
                                                    rest: Bytes)
    requires AllRepresent(env, ds, bytes, vs)
    ensures DeserializeAll(env, ds, bytes + rest) == Some((vs, rest))
    decreases ds, 0
  {
    if ds == [] {
      assert [] + rest == rest;
    } else {
      var k :| 0 <= k <= |bytes| && SplitAt(env, ds, bytes, vs, k);
      assert bytes == bytes[..k] + bytes[k..];
      Associate(bytes[..k], bytes[k..], rest);
      PayloadIsRead(env, ds[0], bytes[..k], vs[0], bytes[k..] + rest);
      PayloadsAreRead(env, ds[1..], bytes[k..], vs[1..], rest);
      assert [vs[0]] + vs[1..] == vs;
    }
  }

  /** MAIN: a value of any type that a header can describe, written by either side, is read back, whatever
      follows it; exactly its bytes are consumed. */
  lemma ForeignValueIsRead<X(!new)>(env: Env<X>, d: Desc, bytes: Bytes, v: Value<X>, rest: Bytes)
    requires Tagged(env.types) && Describable(env, d) && Represents(env, d, bytes, v)
    ensures Decode(env, (Header(env, d) + bytes) + rest) == Some((v, rest))
    ensures ReadField(env, (Header(env, d) + bytes) + rest) == Some((d, v, rest))
  {
    Associate(Header(env, d), bytes, rest);
    HeaderIsRead(env, d, bytes + rest);
    PayloadIsRead(env, d, bytes, v, rest);
  }

  /** The numbers that only the other side writes, byte by byte. */
  lemma ShortNumbersAreRead<X(!new)>(env: Env<X>, i: int, b: Byte, f: Bytes, rest: Bytes)
    requires Tagged(env.types) && FitsSigned(i, 4) && |f| == 4
    ensures Decode(env, ([0x20] + PackSigned(i, 4).value) + rest) == Some((Int(i), rest))
    ensures Decode(env, [0x21, b] + rest) == Some((RawByte(b), rest))
    ensures Decode(env, ([0x1D] + f) + rest) == Some((Float(env.widen(f)), rest))
    ensures Decode(env, [0x20, 0xFF, 0xFF, 0xFF, 0xFF] + rest) == Some((Int(-1), rest))
  {
    ForeignValueIsRead(env, IntegerD, PackSigned(i, 4).value, Int(i), rest);
    ForeignValueIsRead(env, ByteD, [b], RawByte(b), rest);
    assert [0x21] + [b] == [0x21, b];
    ForeignValueIsRead(env, FloatD, f, Float(env.widen(f)), rest);
    MinusOne();
    ForeignValueIsRead(env, IntegerD, [0xFF, 0xFF, 0xFF, 0xFF], Int(-1), rest);
    assert [0x20] + [0xFF, 0xFF, 0xFF, 0xFF] == [0x20, 0xFF, 0xFF, 0xFF, 0xFF];
  }

  lemma MinusOne()
    ensures PackSigned(-1, 4) == Some([0xFF, 0xFF, 0xFF, 0xFF])
  {
    PowerValues();
    MostSignificantFirst(0xFF, 0xFF, 0xFF, 0xFF);
  }

  // ---------------------------------------------------------------------------------------------
  // Records
  // ---------------------------------------------------------------------------------------------

  /** A value of a record, with its type and its bytes. */
  datatype Column<X> = Column(d: Desc, bytes: Bytes, v: Value<X>)

  /** A record as the other side sends it. */
  datatype Sent<X> =
    | SingleS(value: Column<X>)
    | KeyValueS(keys: seq<Column<X>>, value: Column<X>)
    | ValueValueS(first: Column<X>, second: Column<X>)

  ghost predicate Readable<X(!new)>(env: Env<X>, c: Column<X>) {
    Describable(env, c.d) && Represents(env, c.d, c.bytes, c.v)
  }

  ghost predicate AllReadable<X(!new)>(env: Env<X>, cs: seq<Column<X>>) {
    forall i :: 0 <= i < |cs| ==> Readable(env, cs[i])
  }

  ghost predicate RecordReadable<X(!new)>(env: Env<X>, w: Sent<X>) {
    match w
    case SingleS(c) => Readable(env, c)
    case KeyValueS(keys, c) => |keys| < 256 && AllReadable(env, keys) && Readable(env, c)
    case ValueValueS(c1, c2) => Readable(env, c1) && Readable(env, c2)
  }

  ghost function ColumnImage<X(!new)>(env: Env<X>, c: Column<X>): Bytes
    requires Readable(env, c)
  {
    Header(env, c.d) + c.bytes
  }

  ghost function ColumnImages<X(!new)>(env: Env<X>, cs: seq<Column<X>>): Bytes
    requires AllReadable(env, cs)
  {
    if cs == [] then [] else ColumnImage(env, cs[0]) + ColumnImages(env, cs[1..])
  }

  /** The bytes of a record. */
  ghost function Image<X(!new)>(env: Env<X>, w: Sent<X>): Bytes
    requires RecordReadable(env, w)
  {
    match w
    case SingleS(c) => [0x3F] + ColumnImage(env, c)
    case KeyValueS(keys, c) => [0x3E] + ([|keys|] + (ColumnImages(env, keys) + ColumnImage(env, c)))
    case ValueValueS(c1, c2) => [0x3D] + (ColumnImage(env, c1) + ColumnImage(env, c2))
  }

  ghost function Types<X>(cs: seq<Column<X>>): seq<Desc> {
    seq(|cs|, i requires 0 <= i < |cs| => cs[i].d)
  }

  ghost function Values<X>(cs: seq<Column<X>>): seq<Value<X>> {
    seq(|cs|, i requires 0 <= i < |cs| => cs[i].v)
  }

  lemma ColumnsCons<X>(cs: seq<Column<X>>)
    requires cs != []
    ensures Types(cs) == [cs[0].d] + Types(cs[1..]) && Values(cs) == [cs[0].v] + Values(cs[1..])
  {
  }

  ghost function RecordOf<X>(w: Sent<X>): Record<X> {
    match w
    case SingleS(c) => Single(c.v)
    case KeyValueS(keys, c) => KeyValue(Values(keys), c.v)
    case ValueValueS(c1, c2) => ValueValue(c1.v, c2.v)
  }

  ghost function SentLayout<X>(w: Sent<X>): Layout {
    match w
    case SingleS(c) => SingleL(c.d)
    case KeyValueS(keys, c) => KeyValueL(Types(keys), c.d)
    case ValueValueS(c1, c2) => ValueValueL(c1.d, c2.d)
  }

  lemma ColumnIsRead<X(!new)>(env: Env<X>, c: Column<X>, rest: Bytes)
    requires Tagged(env.types) && Readable(env, c)
    ensures ReadField(env, ColumnImage(env, c) + rest) == Some((c.d, c.v, rest))
  {
    ForeignValueIsRead(env, c.d, c.bytes, c.v, rest);
  }

  lemma ReadFieldsCons<X>(env: Env<X>, n: nat, s: Bytes, d: Desc, v: Value<X>, s1: Bytes)
    requires n > 0 && ReadField(env, s) == Some((d, v, s1)) && ReadFields(env, n - 1, s1).Some?
    ensures var (ds, vs, s2) := ReadFields(env, n - 1, s1).value;
            ReadFields(env, n, s) == Some(([d] + ds, [v] + vs, s2))
  {
  }

  lemma {:induction false} ColumnsAreRead<X(!new)>(env: Env<X>, cs: seq<Column<X>>, rest: Bytes)
    requires Tagged(env.types) && AllReadable(env, cs)
    ensures ReadFields(env, |cs|, ColumnImages(env, cs) + rest) == Some((Types(cs), Values(cs), rest))
  {
    if cs == [] {
      assert ColumnImages(env, cs) == [] && [] + rest == rest;
      assert Types(cs) == [] && Values(cs) == [];
    } else {
      var tail := ColumnImages(env, cs[1..]) + rest;
      ColumnIsRead(env, cs[0], tail);
      ColumnsAreRead(env, cs[1..], rest);
      Associate(ColumnImage(env, cs[0]), ColumnImages(env, cs[1..]), rest);
      ReadFieldsCons(env, |cs|, ColumnImage(env, cs[0]) + tail, cs[0].d, cs[0].v, tail);
      ColumnsCons(cs);
    }
  }

  /** A record is read with its layout, and exactly its bytes are consumed. */
  lemma RecordIsRead<X(!new)>(env: Env<X>, w: Sent<X>, rest: Bytes)
    requires Tagged(env.types) && RecordReadable(env, w)
    ensures ReadRecord(env, Image(env, w) + rest) == Some((SentLayout(w), RecordOf(w), rest))
  {
    match w
    case SingleS(c) =>
      ColumnIsRead(env, c, rest);
      ReadSingle(env, ColumnImage(env, c) + rest);
      Associate([0x3F], ColumnImage(env, c), rest);
    case KeyValueS(keys, c) =>
      var fields, last := ColumnImages(env, keys), ColumnImage(env, c);
      ColumnIsRead(env, c, rest);
      ColumnsAreRead(env, keys, last + rest);
      ReadKeyValue(env, |keys|, fields + (last + rest), last + rest);
      Associate(fields, last, rest);
      Associate([|keys|], fields + last, rest);
      Associate([0x3E], [|keys|] + (fields + last), rest);
    case ValueValueS(c1, c2) =>
      var s1, s2 := ColumnImage(env, c1), ColumnImage(env, c2);
      ColumnIsRead(env, c2, rest);
      ColumnIsRead(env, c1, s2 + rest);
      ReadBack([0x3D], s1 + (s2 + rest));
      Associate(s1, s2, rest);
      Associate([0x3D], s1 + s2, rest);
  }

  // ---------------------------------------------------------------------------------------------
  // Streams
  // ---------------------------------------------------------------------------------------------

  ghost predicate StreamReadable<X(!new)>(env: Env<X>, ws: seq<Sent<X>>) {
    forall i :: 0 <= i < |ws| ==> RecordReadable(env, ws[i])
  }

  ghost function StreamImage<X(!new)>(env: Env<X>, ws: seq<Sent<X>>): Bytes
    requires StreamReadable(env, ws)
  {
    if ws == [] then [] else Image(env, ws[0]) + StreamImage(env, ws[1..])
  }

  ghost function Layouts<X>(ws: seq<Sent<X>>): seq<Layout> {
    seq(|ws|, i requires 0 <= i < |ws| => SentLayout(ws[i]))
  }

  ghost function RecordsOf<X>(ws: seq<Sent<X>>): seq<Record<X>> {
    seq(|ws|, i requires 0 <= i < |ws| => RecordOf(ws[i]))
  }

  lemma SentCons<X>(ws: seq<Sent<X>>)
    requires ws != []
    ensures Layouts(ws) == [SentLayout(ws[0])] + Layouts(ws[1..])
    ensures RecordsOf(ws) == [RecordOf(ws[0])] + RecordsOf(ws[1..])
  {
  }

  lemma ReadRecordsCons<X>(env: Env<X>, s: Bytes, l: Layout, record: Record<X>, s1: Bytes)
    requires ReadRecord(env, s) == Some((l, record, s1)) && ReadRecords(env, s1).Some?
    ensures var (ls, records) := ReadRecords(env, s1).value;
            ReadRecords(env, s) == Some(([l] + ls, [record] + records))
  {
  }

  /** Reading every header gives the records that were sent. */
  lemma {:induction false} StreamIsRead<X(!new)>(env: Env<X>, ws: seq<Sent<X>>)
    requires Tagged(env.types) && StreamReadable(env, ws)
    ensures ReadRecords(env, StreamImage(env, ws)) == Some((Layouts(ws), RecordsOf(ws)))
  {
    if ws == [] {
      assert Layouts(ws) == [] && RecordsOf(ws) == [];
    } else {
      var tail := StreamImage(env, ws[1..]);
      RecordIsRead(env, ws[0], tail);
      StreamIsRead(env, ws[1..]);
      ReadRecordsCons(env, Image(env, ws[0]) + tail, SentLayout(ws[0]), RecordOf(ws[0]), tail);
      SentCons(ws);
    }
  }

  /** MAIN: an iterator, which looks at the headers of the first record only, yields the records that were
      sent, whatever types the other side uses, if all of them have one layout. */
  method ReadStream<X(!new)>(it: RecordIterator<X>, ghost ws: seq<Sent<X>>, ghost layout: Layout)
    returns (records: seq<Record<X>>)
    requires Tagged(it.env.types) && StreamReadable(it.env, ws)
    requires forall i :: 0 <= i < |ws| ==> SentLayout(ws[i]) == layout
    requires it.deserializer.None? && it.connection.rest == StreamImage(it.env, ws)
    modifies it, it.connection
    ensures |records| == |ws| && forall i :: 0 <= i < |ws| ==> records[i] == RecordOf(ws[i])
    ensures it.connection.rest == []
  {
    StreamIsRead(it.env, ws);
    records := it.ReadAll(layout);
  }
}
