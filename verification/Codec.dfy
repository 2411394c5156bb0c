/** The self-describing binary format of plan and record traffic: a type header, then the value. */
module Codec {
  import opened Common
  import opened Packing

  type Bytes = seq<Byte>

  /** The eight bytes of a floating-point number; what they mean is not looked into. */
  type Double = bs: Bytes | |bs| == 8 witness [0, 0, 0, 0, 0, 0, 0, 0]

  const TYPE_NULL: Byte := 0x1A
  const TYPE_BYTES: Byte := 0x1B
  const TYPE_STRING: Byte := 0x1C
  const TYPE_FLOAT: Byte := 0x1D
  const TYPE_DOUBLE: Byte := 0x1E
  const TYPE_LONG: Byte := 0x1F
  const TYPE_INTEGER: Byte := 0x20
  const TYPE_BYTE: Byte := 0x21
  const TYPE_BOOLEAN: Byte := 0x22

  /** A value of the host language. Objects of registered classes have a state of an arbitrary type. */
  datatype Value<X> =
    | Null
    | Bool(b: bool)
    | Int(i: int)
    | Float(bits: Double)
    | Str(text: string)
    | ByteArray(bytes: Bytes)
    | RawByte(byte: Byte)
    | Tuple(fields: seq<Value<X>>)
    | List(items: seq<Value<X>>)
    | Custom(cls: nat, state: X)

  /** A registered type: its tag, its class, and the serializer and deserializer given for it. The
      deserializer yields an object and the number of bytes it reads. */
  datatype Entry<!X> = Entry(tag: Byte, cls: nat, encode: X -> Bytes, decode: Bytes -> Option<(X, nat)>)

  /** The registered types, the text encoding, and the conversion of four-byte to eight-byte floats. */
  datatype Env<!X> = Env(
    types: seq<Entry<X>>,
    encodeText: string -> Bytes,
    decodeText: Bytes -> Option<string>,
    widen: Bytes -> Double)

  // ---------------------------------------------------------------------------------------------
  // Registered types
  // ---------------------------------------------------------------------------------------------

  /** The tag of the type registered as number `k`, counted from zero. */
  function TagOf(k: nat): Byte {
    (126 - k) % 256
  }

  class Registry<X> {
    var types: seq<Entry<X>>

    constructor ()
      ensures types == [] && Tagged(types)
    {
      types := [];
    }

    method RegisterType(cls: nat, encode: X -> Bytes, decode: Bytes -> Option<(X, nat)>)
      requires Tagged(types)
      modifies this
      ensures Tagged(types) && types == old(types) + [Entry(TagOf(|old(types)|), cls, encode, decode)]
    {
      types := types + [Entry((126 - |types|) % 256, cls, encode, decode)];
    }
  }

  ghost predicate Tagged<X>(types: seq<Entry<X>>) {
    forall k :: 0 <= k < |types| ==> types[k].tag == TagOf(k)
  }

  /** The first entry for a class. */
  function FindClass<X>(types: seq<Entry<X>>, cls: nat): (r: Option<nat>)
    ensures r.Some? ==> r.value < |types| && types[r.value].cls == cls
    ensures r.Some? ==> forall j :: 0 <= j < r.value ==> types[j].cls != cls
    ensures r.None? ==> forall j :: 0 <= j < |types| ==> types[j].cls != cls
  {
    FindClassFrom(types, cls, 0)
  }

  function FindClassFrom<X>(types: seq<Entry<X>>, cls: nat, i: nat): (r: Option<nat>)
    requires i <= |types| && forall j :: 0 <= j < i ==> types[j].cls != cls
    ensures r.Some? ==> r.value < |types| && types[r.value].cls == cls
    ensures r.Some? ==> forall j :: 0 <= j < r.value ==> types[j].cls != cls
    ensures r.None? ==> forall j :: 0 <= j < |types| ==> types[j].cls != cls
    decreases |types| - i
  {
    if i == |types| then None
    else if types[i].cls == cls then Some(i)
    else FindClassFrom(types, cls, i + 1)
  }

  /** The first entry with a tag. */
  function FindTag<X>(types: seq<Entry<X>>, tag: Byte, i: nat): (r: Option<nat>)
    requires i <= |types| && forall j :: 0 <= j < i ==> types[j].tag != tag
    ensures r.Some? ==> r.value < |types| && types[r.value].tag == tag
    ensures r.Some? ==> forall j :: 0 <= j < r.value ==> types[j].tag != tag
    ensures r.None? ==> forall j :: 0 <= j < |types| ==> types[j].tag != tag
    decreases |types| - i
  {
    if i == |types| then None
    else if types[i].tag == tag then Some(i)
    else FindTag(types, tag, i + 1)
  }

  // ---------------------------------------------------------------------------------------------
  // Serializing
  // ---------------------------------------------------------------------------------------------

  /** How a value is laid out: the tree of serializers, or of deserializers. */
  datatype Desc =
    | NullD | BoolD | IntegerD | LongD | FloatD | DoubleD | StringD | BytesD | ByteD
    | TupleD(fields: seq<Desc>)
    | CustomD(entry: nat)

  /** The type header of a value. */
  function TypeInfo<X>(env: Env<X>, v: Value<X>): Option<Bytes>
    decreases v
  {
    match v
    case Tuple(vs) => TupleTypeInfo(env, vs)
    case List(vs) => TupleTypeInfo(env, vs)
    case Null => Some([TYPE_NULL])
    case Str(_) => Some([TYPE_STRING])
    case Bool(_) => Some([TYPE_BOOLEAN])
    case Int(_) => Some([TYPE_LONG])
    case ByteArray(_) => Some([TYPE_BYTES])
    case Float(_) => Some([TYPE_DOUBLE])
    case RawByte(_) => None
    case Custom(cls, _) =>
      var k :- FindClass(env.types, cls);
      Some([env.types[k].tag])
  }

  function TupleTypeInfo<X>(env: Env<X>, vs: seq<Value<X>>): Option<Bytes>
    decreases vs, 1
  {
    var arity :- PackSigned(|vs|, 4);
    var infos :- TypeInfos(env, vs);
    Some([arity[3]] + infos)
  }

  function TypeInfos<X>(env: Env<X>, vs: seq<Value<X>>): Option<Bytes>
    decreases vs, 0
  {
    if vs == [] then Some([]) else
    var first :- TypeInfo(env, vs[0]);
    var rest :- TypeInfos(env, vs[1..]);
    Some(first + rest)
  }

  /** The serializer chosen for a value. */
  function SerializerOf<X>(env: Env<X>, v: Value<X>): Option<Desc>
    decreases v
  {
    match v
    case Tuple(vs) =>
      var ds :- SerializersOf(env, vs);
      Some(TupleD(ds))
    case List(vs) =>
      var ds :- SerializersOf(env, vs);
      Some(TupleD(ds))
    case Null => Some(NullD)
    case Str(_) => Some(StringD)
    case Bool(_) => Some(BoolD)
    case Int(_) => Some(LongD)
    case ByteArray(_) => Some(BytesD)
    case Float(_) => Some(DoubleD)
    case RawByte(_) => None
    case Custom(cls, _) =>
      var k :- FindClass(env.types, cls);
      Some(CustomD(k))
  }

  function SerializersOf<X>(env: Env<X>, vs: seq<Value<X>>): (r: Option<seq<Desc>>)
    ensures r.Some? ==> |r.value| == |vs|
    decreases vs
  {
    if vs == [] then Some([]) else
    var first :- SerializerOf(env, vs[0]);
    var rest :- SerializersOf(env, vs[1..]);
    Some([first] + rest)
  }

  function WithLength(bs: Bytes): Option<Bytes> {
    var length :- PackUnsigned(|bs|, 4);
    Some(length + bs)
  }

  /** What a serializer writes for a value of its own kind. */
  function Serialize<X>(env: Env<X>, d: Desc, v: Value<X>): Option<Bytes>
    decreases d
  {
    match (d, v)
    case (TupleD(ds), Tuple(vs)) => SerializeAll(env, ds, vs)
    case (TupleD(ds), List(vs)) => SerializeAll(env, ds, vs)
    case (NullD, _) => Some([])
    case (BoolD, Bool(b)) => Some([if b then 1 else 0])
    case (DoubleD, Float(bits)) => Some(bits)
    case (LongD, Int(i)) => PackSigned(i, 8)
    case (BytesD, ByteArray(bs)) => WithLength(bs)
    case (StringD, Str(text)) => WithLength(env.encodeText(text))
    case (CustomD(k), Custom(_, x)) =>
      if k >= |env.types| then None else
      var message := env.types[k].encode(x);
      var length :- PackSigned(|message|, 4);
      Some(length + message)
    case _ => None
  }

  function SerializeAll<X>(env: Env<X>, ds: seq<Desc>, vs: seq<Value<X>>): Option<Bytes>
    decreases ds
  {
    if vs == [] then Some([])
    else if ds == [] then None
    else
      var first :- Serialize(env, ds[0], vs[0]);
      var rest :- SerializeAll(env, ds[1..], vs[1..]);
      Some(first + rest)
  }

  /** What the plan collector writes for a value. */
  function Encode<X>(env: Env<X>, v: Value<X>): Option<Bytes> {
    var info :- TypeInfo(env, v);
    var serializer :- SerializerOf(env, v);
    var payload :- Serialize(env, serializer, v);
    Some(info + payload)
  }

  // ---------------------------------------------------------------------------------------------
  // Deserializing
  // ---------------------------------------------------------------------------------------------

  /** Takes `n` bytes off a stream. */
  function Read(n: int, s: Bytes): (r: Option<(Bytes, Bytes)>)
    ensures r.Some? <==> 0 <= n <= |s|
    ensures r.Some? ==> |r.value.0| == n && r.value.0 + r.value.1 == s
  {
    if 0 <= n <= |s| then Some((s[..n], s[n..])) else None
  }

  /** Reads a type header. */
  function GetDeserializer<X>(env: Env<X>, s: Bytes): (r: Option<(Desc, Bytes)>)
    ensures r.Some? ==> |r.value.1| < |s|
    decreases |s|, 0
  {
    var (tag, s1) :- Read(1, s);
    if 0 < tag[0] < 26 then
      var (ds, s2) :- GetDeserializers(env, tag[0], s1);
      Some((TupleD(ds), s2))
    else
      var d :- Dispatch(env.types, tag[0]);
      Some((d, s1))
  }

  /** The deserializer for a tag that is not an arity. */
  function Dispatch<X>(types: seq<Entry<X>>, tag: Byte): Option<Desc> {
    if tag == TYPE_BYTE then Some(ByteD)
    else if tag == TYPE_BYTES then Some(BytesD)
    else if tag == TYPE_BOOLEAN then Some(BoolD)
    else if tag == TYPE_FLOAT then Some(FloatD)
    else if tag == TYPE_DOUBLE then Some(DoubleD)
    else if tag == TYPE_INTEGER then Some(IntegerD)
    else if tag == TYPE_LONG then Some(LongD)
    else if tag == TYPE_STRING then Some(StringD)
    else if tag == TYPE_NULL then Some(NullD)
    else
      var k :- FindTag(types, tag, 0);
      Some(CustomD(k))
  }

  function GetDeserializers<X>(env: Env<X>, n: nat, s: Bytes): (r: Option<(seq<Desc>, Bytes)>)
    ensures r.Some? ==> |r.value.0| == n && |r.value.1| <= |s|
    decreases |s|, 1, n
  {
    if n == 0 then Some(([], s)) else
    var (first, s1) :- GetDeserializer(env, s);
    var (rest, s2) :- GetDeserializers(env, n - 1, s1);
    Some(([first] + rest, s2))
  }

  /** The length of the header that describes a deserializer. */
  function TypeInfoSize(d: Desc): nat {
    match d
    case TupleD(ds) => 1 + TypeInfoSizes(ds)
    case _ => 1
  }

  function TypeInfoSizes(ds: seq<Desc>): nat {
    if ds == [] then 0 else TypeInfoSize(ds[0]) + TypeInfoSizes(ds[1..])
  }

  /** A block with its length in front. No bytes are asked for when the length is zero. */
  function ReadBlock(s: Bytes): (r: Option<(Bytes, Bytes)>)
    ensures r.Some? ==> 2 * |r.value.0| < Power(4) && |r.value.1| <= |s|
  {
    var (length, s1) :- Read(4, s);
    if UnpackSigned(length) == 0 then Some(([], s1)) else Read(UnpackSigned(length), s1)
  }

  /** Reads a value that is laid out as `d`. */
  function Deserialize<X>(env: Env<X>, d: Desc, s: Bytes): (r: Option<(Value<X>, Bytes)>)
    ensures r.Some? ==> |r.value.1| <= |s|
    decreases d
  {
    match d
    case TupleD(ds) =>
      var (vs, rest) :- DeserializeAll(env, ds, s);
      Some((Tuple(vs), rest))
    case ByteD =>
      var (bs, rest) :- Read(1, s);
      Some((RawByte(bs[0]), rest))
    case BytesD =>
      var (bs, rest) :- ReadBlock(s);
      Some((ByteArray(bs), rest))
    case BoolD =>
      var (bs, rest) :- Read(1, s);
      Some((Bool(bs[0] != 0), rest))
    case FloatD =>
      var (bs, rest) :- Read(4, s);
      Some((Float(env.widen(bs)), rest))
    case DoubleD =>
      var (bs, rest) :- Read(8, s);
      Some((Float(bs), rest))
    case IntegerD =>
      var (bs, rest) :- Read(4, s);
      Some((Int(UnpackSigned(bs)), rest))
    case LongD =>
      var (bs, rest) :- Read(8, s);
      Some((Int(UnpackSigned(bs)), rest))
    case StringD =>
      var (bs, rest) :- ReadBlock(s);
      if bs == [] then Some((Str(""), rest)) else
      var text :- env.decodeText(bs);
      Some((Str(text), rest))
    case NullD => Some((Null, s))
    case CustomD(k) =>
      if k >= |env.types| then None else
      var (_, s1) :- Read(4, s);
      var (x, n) :- env.types[k].decode(s1);
      var (_, rest) :- Read(n, s1);
      Some((Custom(env.types[k].cls, x), rest))
  }

  function DeserializeAll<X>(env: Env<X>, ds: seq<Desc>, s: Bytes): (r: Option<(seq<Value<X>>, Bytes)>)
    ensures r.Some? ==> |r.value.0| == |ds| && |r.value.1| <= |s|
    decreases ds
  {
    if ds == [] then Some(([], s)) else
    var (first, s1) :- Deserialize(env, ds[0], s);
    var (rest, s2) :- DeserializeAll(env, ds[1..], s1);
    Some(([first] + rest, s2))
  }

  /** What the plan iterator reads. */
  function Decode<X>(env: Env<X>, s: Bytes): Option<(Value<X>, Bytes)> {
    var (d, s1) :- GetDeserializer(env, s);
    Deserialize(env, d, s1)
  }
}
