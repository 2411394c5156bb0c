/** Outgoing records: the collector that keeps the serializers chosen for its first record, and what
    a downstream operation reads of its messages. */
module RecordOutput {
  import opened Common
  import opened Packing
  import opened Codec
  import opened CodecLaws
  import opened RecordStream

  /** What a collector keeps: type headers and serializers. */
  datatype Serializers =
    | ArrayS(info: Bytes, value: Desc)
    | KeyValueS(keyInfos: seq<Bytes>, keys: seq<Desc>, info: Bytes, value: Desc)

  function InfoOfEach<X>(env: Env<X>, vs: seq<Value<X>>): (r: Option<seq<Bytes>>)
    ensures r.Some? ==> |r.value| == |vs|
  {
    if vs == [] then Some([]) else
    var first :- TypeInfo(env, vs[0]);
    var rest :- InfoOfEach(env, vs[1..]);
    Some([first] + rest)
  }

  /** The serializers for a record; a pair of values is never collected. */
  function Choose<X>(env: Env<X>, record: Record<X>): Option<Serializers> {
    match record
    case Single(v) =>
      var info :- TypeInfo(env, v);
      var d :- SerializerOf(env, v);
      Some(ArrayS(info, d))
    case KeyValue(keys, v) =>
      var keyInfos :- InfoOfEach(env, keys);
      var info :- TypeInfo(env, v);
      var ds :- SerializersOf(env, keys);
      var d :- SerializerOf(env, v);
      Some(KeyValueS(keyInfos, ds, info, d))
    case ValueValue(_, _) => None
  }

  /** Header and payload of one value with their common length in front. */
  function Block<X>(env: Env<X>, info: Bytes, d: Desc, v: Value<X>): Option<Bytes> {
    var payload :- Serialize(env, d, v);
    var length :- PackSigned(|payload| + |info|, 4);
    Some(length + (info + payload))
  }

  function Blocks<X>(env: Env<X>, infos: seq<Bytes>, ds: seq<Desc>, vs: seq<Value<X>>): Option<Bytes> {
    if vs == [] then Some([])
    else if infos == [] || ds == [] then None
    else
      var first :- Block(env, infos[0], ds[0], vs[0]);
      var rest :- Blocks(env, infos[1..], ds[1..], vs[1..]);
      Some(first + rest)
  }

  /** The message for a record. */
  function Message<X>(env: Env<X>, s: Serializers, record: Record<X>): Option<Bytes> {
    match (s, record)
    case (ArrayS(info, d), Single(v)) => Block(env, info, d, v)
    case (KeyValueS(keyInfos, ds, info, d), KeyValue(keys, v)) =>
      var count :- PackSigned(|keys|, 4);
      var keyBlocks :- Blocks(env, keyInfos, ds, keys);
      var block :- Block(env, info, d, v);
      Some([count[3]] + keyBlocks + block)
    case _ => None
  }

  // ---------------------------------------------------------------------------------------------
  // The collector
  // ---------------------------------------------------------------------------------------------

  /** The messages for a list of records, each with serializers of its own. */
  function Messages<X>(env: Env<X>, records: seq<Record<X>>): (r: Option<seq<Bytes>>)
    ensures r.Some? ==> |r.value| == |records|
  {
    if records == [] then Some([]) else
    var s :- Choose(env, records[0]);
    var message :- Message(env, s, records[0]);
    var rest :- Messages(env, records[1..]);
    Some([message] + rest)
  }

  ghost predicate SameSerializers<X>(env: Env<X>, records: seq<Record<X>>, s: Option<Serializers>) {
    forall i :: 0 <= i < |records| ==> Choose(env, records[i]) == s
  }

  class RecordCollector<X> {
    const env: Env<X>
    var serializers: Option<Serializers>
    var written: seq<Bytes>    // the messages handed to the connection

    constructor (env: Env<X>)
      ensures this.env == env && serializers == None && written == []
    {
      this.env, serializers, written := env, None, [];
    }

    /** The first record fixes the serializers for all later ones. */
    method Collect(record: Record<X>) returns (ok: bool)
      modifies this
      ensures old(serializers).Some? ==> serializers == old(serializers)
      ensures old(serializers).None? ==> serializers == Choose(env, record)
      ensures ok <==> serializers.Some? && Message(env, serializers.value, record).Some?
      ensures written == if ok then old(written) + [Message(env, serializers.value, record).value] else old(written)
    {
      if serializers.None? {
        serializers := Choose(env, record);
        if serializers.None? {
          return false;
        }
      }
      var message := Message(env, serializers.value, record);
      if message.None? {
        return false;
      }
      written := written + [message.value];
      return true;
    }

    /** Collecting records for which the same serializers would be chosen writes what choosing
        serializers for each would write. */
    method CollectAll(records: seq<Record<X>>, ghost s: Option<Serializers>)
      requires serializers.None? || serializers == s
      requires SameSerializers(env, records, s) && Messages(env, records).Some?
      modifies this
      ensures written == old(written) + Messages(env, records).value
    {
      var i := 0;
      while i < |records|
        invariant i <= |records| && (serializers.None? || serializers == s)
        invariant Messages(env, records[i..]).Some?
        invariant written + Messages(env, records[i..]).value == old(written) + Messages(env, records).value
      {
        ghost var before := written;
        assert records[i..][0] == records[i] && records[i..][1..] == records[i + 1..];
        Shift(before, Messages(env, records[i..]).value[0], Messages(env, records[i + 1..]).value);
        var _ := Collect(records[i]);
        i := i + 1;
      }
      assert written + [] == written;
    }
  }

  // ---------------------------------------------------------------------------------------------
  // What the next operation reads
  // ---------------------------------------------------------------------------------------------

  /** How messages reach the next operation: without the block lengths, and with the kind of record in
      front. This part is not in the Python code. */
  function Reframe(keyed: bool, message: Bytes): Option<Bytes> {
    if keyed then
      var (count, s) :- Read(1, message);
      var blocks :- DropLengths(s);
      Some([TYPE_KEY_VALUE] + count + blocks)
    else
      var block :- DropLengths(message);
      Some([TYPE_ARRAY] + block)
  }

  function DropLengths(s: Bytes): Option<Bytes>
    decreases |s|
  {
    if s == [] then Some([]) else
    var (length, s1) :- Read(4, s);
    var (block, s2) :- Read(UnpackSigned(length), s1);
    var rest :- DropLengths(s2);
    Some(block + rest)
  }

  function Delivered<X>(records: seq<Record<X>>, messages: seq<Bytes>): Option<Bytes>
    requires |records| == |messages|
  {
    if records == [] then Some([]) else
    var first :- Reframe(records[0].KeyValue?, messages[0]);
    var rest :- Delivered(records[1..], messages[1..]);
    Some(first + rest)
  }

  ghost predicate RecordFits<X>(env: Env<X>, record: Record<X>) {
    match record
    case Single(v) => Fits(env, v)
    case KeyValue(keys, v) => |keys| < 256 && AllFit(env, keys) && Fits(env, v)
    case ValueValue(_, _) => false
  }

  function NormalRecord<X>(record: Record<X>): Record<X> {
    match record
    case Single(v) => Single(Normal(v))
    case KeyValue(keys, v) => KeyValue(Normals(keys), Normal(v))
    case ValueValue(v, w) => ValueValue(Normal(v), Normal(w))
  }

  function NormalRecords<X>(records: seq<Record<X>>): seq<Record<X>> {
    if records == [] then [] else [NormalRecord(records[0])] + NormalRecords(records[1..])
  }

  function LayoutOf(s: Serializers): Layout {
    match s
    case ArrayS(_, d) => SingleL(d)
    case KeyValueS(_, ds, _, d) => KeyValueL(ds, d)
  }

  /** A header and payload, as written, is read back. */
  lemma FieldReadsBack<X(!new)>(env: Env<X>, v: Value<X>, rest: Bytes)
    requires InverseCodecs(env) && Fits(env, v)
    ensures Encode(env, v).Some?
    ensures ReadField(env, Encode(env, v).value + rest) == Some((SerializerOf(env, v).value, Normal(v), rest))
  {
    PayloadRoundTrip(env, v, rest);
    var info, payload := TypeInfo(env, v), Serialize(env, SerializerOf(env, v).value, v).value;
    HeaderRoundTrip(env, v, payload + rest);
    Associate(info.value, payload, rest);
  }

  lemma DropFirstLength(content: Bytes, rest: Bytes)
    requires FitsSigned(|content|, 4) && DropLengths(rest).Some?
    ensures DropLengths((PackSigned(|content|, 4).value + content) + rest) == Some(content + DropLengths(rest).value)
  {
    var length := PackSigned(|content|, 4).value;
    SignedRoundTrip(|content|, 4);
    assert (length + content) + rest == length + (content + rest);
    ReadBack(length, content + rest);
    ReadBack(content, rest);
  }

  lemma DropOneLength<X>(env: Env<X>, v: Value<X>, rest: Bytes)
    requires Encode(env, v).Some? && DropLengths(rest).Some?
    requires Block(env, TypeInfo(env, v).value, SerializerOf(env, v).value, v).Some?
    ensures DropLengths(Block(env, TypeInfo(env, v).value, SerializerOf(env, v).value, v).value + rest) ==
            Some(Encode(env, v).value + DropLengths(rest).value)
  {
    BlockIs(env, v);
    DropFirstLength(Encode(env, v).value, rest);
  }

  lemma BlockIs<X>(env: Env<X>, v: Value<X>)
    requires Encode(env, v).Some?
    requires Block(env, TypeInfo(env, v).value, SerializerOf(env, v).value, v).Some?
    ensures var content := Encode(env, v).value;
            FitsSigned(|content|, 4) &&
            Block(env, TypeInfo(env, v).value, SerializerOf(env, v).value, v) ==
            Some(PackSigned(|content|, 4).value + content)
  {
  }

  lemma LastBlockDropped<X(!new)>(env: Env<X>, v: Value<X>)
    requires InverseCodecs(env) && Fits(env, v) && TypeInfo(env, v).Some? && SerializerOf(env, v).Some?
    requires Block(env, TypeInfo(env, v).value, SerializerOf(env, v).value, v).Some?
    ensures Encode(env, v).Some?
    ensures DropLengths(Block(env, TypeInfo(env, v).value, SerializerOf(env, v).value, v).value) == Encode(env, v)
  {
    var block := Block(env, TypeInfo(env, v).value, SerializerOf(env, v).value, v).value;
    FieldReadsBack(env, v, []);
    DropOneLength(env, v, []);
    assert block + [] == block;
    var content := Encode(env, v).value;
    assert content + [] == content;
  }

  /** The headers and payloads of several values. */
  ghost function Fields<X>(env: Env<X>, vs: seq<Value<X>>): Option<Bytes> {
    if vs == [] then Some([]) else
    var first :- Encode(env, vs[0]);
    var rest :- Fields(env, vs[1..]);
    Some(first + rest)
  }

  lemma {:induction false} FieldsReadBack<X(!new)>(env: Env<X>, vs: seq<Value<X>>, rest: Bytes)
    requires InverseCodecs(env) && AllFit(env, vs)
    ensures FieldsRead(env, vs, rest)
  {
    if vs == [] {
      assert [] + rest == rest;
    } else {
      FieldsReadBack(env, vs[1..], rest);
      FieldReadsBack(env, vs[0], Fields(env, vs[1..]).value + rest);
      FieldsReadCons(env, vs, rest);
    }
  }

  ghost predicate FieldsRead<X>(env: Env<X>, vs: seq<Value<X>>, rest: Bytes) {
    && Fields(env, vs).Some? && SerializersOf(env, vs).Some?
    && ReadFields(env, |vs|, Fields(env, vs).value + rest) == Some((SerializersOf(env, vs).value, Normals(vs), rest))
  }

  lemma FieldsReadCons<X>(env: Env<X>, vs: seq<Value<X>>, rest: Bytes)
    requires vs != [] && FieldsRead(env, vs[1..], rest) && Encode(env, vs[0]).Some?
    requires var s := Fields(env, vs[1..]).value + rest;
             ReadField(env, Encode(env, vs[0]).value + s) == Some((SerializerOf(env, vs[0]).value, Normal(vs[0]), s))
    ensures FieldsRead(env, vs, rest)
  {
    var first, later := Encode(env, vs[0]).value, Fields(env, vs[1..]).value;
    Associate(first, later, rest);
  }

  lemma {:induction false} DropKeyLengths<X(!new)>(env: Env<X>, vs: seq<Value<X>>, rest: Bytes)
    requires InverseCodecs(env) && AllFit(env, vs)
    requires InfoOfEach(env, vs).Some? && SerializersOf(env, vs).Some? && DropLengths(rest).Some?
    requires Blocks(env, InfoOfEach(env, vs).value, SerializersOf(env, vs).value, vs).Some?
    ensures LengthsDropped(env, vs, rest)
  {
    if vs == [] {
      assert [] + rest == rest;
      assert [] + DropLengths(rest).value == DropLengths(rest).value;
    } else {
      var infos, ds := InfoOfEach(env, vs).value, SerializersOf(env, vs).value;
      assert infos[1..] == InfoOfEach(env, vs[1..]).value && ds[1..] == SerializersOf(env, vs[1..]).value;
      DropKeyLengths(env, vs[1..], rest);
      FieldReadsBack(env, vs[0], []);
      DropOneLength(env, vs[0], Blocks(env, infos[1..], ds[1..], vs[1..]).value + rest);
      LengthsDroppedCons(env, vs, rest);
    }
  }

  ghost predicate LengthsDropped<X>(env: Env<X>, vs: seq<Value<X>>, rest: Bytes) {
    && Fields(env, vs).Some? && InfoOfEach(env, vs).Some? && SerializersOf(env, vs).Some? && DropLengths(rest).Some?
    && var blocks := Blocks(env, InfoOfEach(env, vs).value, SerializersOf(env, vs).value, vs);
    && blocks.Some?
    && DropLengths(blocks.value + rest) == Some(Fields(env, vs).value + DropLengths(rest).value)
  }

  lemma BlocksCons<X>(env: Env<X>, infos: seq<Bytes>, ds: seq<Desc>, vs: seq<Value<X>>)
    requires vs != [] && infos != [] && ds != []
    requires Block(env, infos[0], ds[0], vs[0]).Some? && Blocks(env, infos[1..], ds[1..], vs[1..]).Some?
    ensures Blocks(env, infos, ds, vs) ==
            Some(Block(env, infos[0], ds[0], vs[0]).value + Blocks(env, infos[1..], ds[1..], vs[1..]).value)
  {
  }

  lemma LengthsDroppedCons<X>(env: Env<X>, vs: seq<Value<X>>, rest: Bytes)
    requires vs != [] && LengthsDropped(env, vs[1..], rest) && Encode(env, vs[0]).Some?
    requires var block := Block(env, TypeInfo(env, vs[0]).value, SerializerOf(env, vs[0]).value, vs[0]);
             var infos, ds := InfoOfEach(env, vs[1..]).value, SerializersOf(env, vs[1..]).value;
             var later := Blocks(env, infos, ds, vs[1..]).value + rest;
             block.Some? &&
             DropLengths(block.value + later) == Some(Encode(env, vs[0]).value + DropLengths(later).value)
    ensures LengthsDropped(env, vs, rest)
  {
    var infos, ds := InfoOfEach(env, vs).value, SerializersOf(env, vs).value;
    assert infos[1..] == InfoOfEach(env, vs[1..]).value && ds[1..] == SerializersOf(env, vs[1..]).value;
    var head, tail := Block(env, infos[0], ds[0], vs[0]).value, Blocks(env, infos[1..], ds[1..], vs[1..]).value;
    Associate(head, tail, rest);
    Associate(Encode(env, vs[0]).value, Fields(env, vs[1..]).value, DropLengths(rest).value);
    BlocksCons(env, infos, ds, vs);
  }

  /** One record, from the collector of one operation to the iterator of the next. */
  lemma RecordSurvives<X(!new)>(env: Env<X>, record: Record<X>, rest: Bytes)
    requires InverseCodecs(env) && RecordFits(env, record)
    requires Choose(env, record).Some? && Message(env, Choose(env, record).value, record).Some?
    ensures var s := Choose(env, record).value;
            var delivered := Reframe(record.KeyValue?, Message(env, s, record).value);
            delivered.Some? &&
              ReadRecord(env, delivered.value + rest) == Some((LayoutOf(s), NormalRecord(record), rest))
  {
    match record
    case Single(v) => SingleSurvives(env, v, rest);
    case KeyValue(keys, v) => KeyValueSurvives(env, keys, v, rest);
    case ValueValue(_, _) =>
  }

  lemma SingleSurvives<X(!new)>(env: Env<X>, v: Value<X>, rest: Bytes)
    requires InverseCodecs(env) && Fits(env, v)
    requires Choose(env, Single(v)).Some? && Message(env, Choose(env, Single(v)).value, Single(v)).Some?
    ensures var s := Choose(env, Single(v)).value;
            var delivered := Reframe(false, Message(env, s, Single(v)).value);
            delivered.Some? && ReadRecord(env, delivered.value + rest) == Some((LayoutOf(s), Single(Normal(v)), rest))
  {
    LastBlockDropped(env, v);
    FieldReadsBack(env, v, rest);
    var content := Encode(env, v).value;
    ReadSingle(env, content + rest);
    Associate([TYPE_ARRAY], content, rest);
  }

  lemma KeyValueSurvives<X(!new)>(env: Env<X>, keys: seq<Value<X>>, v: Value<X>, rest: Bytes)
    requires InverseCodecs(env) && RecordFits(env, KeyValue(keys, v))
    requires Choose(env, KeyValue(keys, v)).Some?
    requires Message(env, Choose(env, KeyValue(keys, v)).value, KeyValue(keys, v)).Some?
    ensures var s := Choose(env, KeyValue(keys, v)).value;
            var delivered := Reframe(true, Message(env, s, KeyValue(keys, v)).value);
            delivered.Some? &&
            ReadRecord(env, delivered.value + rest) == Some((LayoutOf(s), KeyValue(Normals(keys), Normal(v)), rest))
  {
    KeyValueDelivered(env, keys, v);
    KeyValueReadsBack(env, keys, v, rest);
  }

  /** What is delivered of a keyed record: the number of keys, the keys and the value. */
  lemma KeyValueDelivered<X(!new)>(env: Env<X>, keys: seq<Value<X>>, v: Value<X>)
    requires InverseCodecs(env) && RecordFits(env, KeyValue(keys, v))
    requires Choose(env, KeyValue(keys, v)).Some?
    requires Message(env, Choose(env, KeyValue(keys, v)).value, KeyValue(keys, v)).Some?
    ensures Fields(env, keys).Some? && Encode(env, v).Some?
    ensures var s := Choose(env, KeyValue(keys, v)).value;
            Reframe(true, Message(env, s, KeyValue(keys, v)).value) ==
            Some([TYPE_KEY_VALUE] + [|keys|] + (Fields(env, keys).value + Encode(env, v).value))
  {
    var s := Choose(env, KeyValue(keys, v)).value;
    var keyBlocks, block := Blocks(env, s.keyInfos, s.keys, keys).value, Block(env, s.info, s.value, v).value;
    ArityByte(|keys|);
    Associate([|keys|], keyBlocks, block);
    LastBlockDropped(env, v);
    DropKeyLengths(env, keys, block);
    ReframeKeyed(|keys|, keyBlocks + block);
  }

  lemma ReframeKeyed(n: Byte, blocks: Bytes)
    requires DropLengths(blocks).Some?
    ensures Reframe(true, [n] + blocks) == Some([TYPE_KEY_VALUE] + [n] + DropLengths(blocks).value)
  {
    ReadBack([n], blocks);
  }

  lemma ReadKeyValue<X>(env: Env<X>, n: Byte, s: Bytes, s': Bytes)
    requires ReadFields(env, n, s).Some? && ReadFields(env, n, s).value.2 == s' && ReadField(env, s').Some?
    ensures var (ds, keys, _) := ReadFields(env, n, s).value; var (d, v, rest) := ReadField(env, s').value;
            ReadRecord(env, [TYPE_KEY_VALUE] + ([n] + s)) == Some((KeyValueL(ds, d), KeyValue(keys, v), rest))
  {
    ReadBack([n], s);
    ReadBack([TYPE_KEY_VALUE], [n] + s);
  }

  lemma ReadSingle<X>(env: Env<X>, s: Bytes)
    requires ReadField(env, s).Some?
    ensures var (d, v, rest) := ReadField(env, s).value;
            ReadRecord(env, [TYPE_ARRAY] + s) == Some((SingleL(d), Single(v), rest))
  {
    ReadBack([TYPE_ARRAY], s);
  }

  lemma Regroup<T>(a: seq<T>, b: seq<T>, c: seq<T>, d: seq<T>, e: seq<T>)
    ensures (a + b + (c + d)) + e == a + (b + (c + (d + e)))
  {
  }

  lemma KeyValueReadsBack<X(!new)>(env: Env<X>, keys: seq<Value<X>>, v: Value<X>, rest: Bytes)
    requires InverseCodecs(env) && RecordFits(env, KeyValue(keys, v))
    ensures Fields(env, keys).Some? && Encode(env, v).Some? && SerializersOf(env, keys).Some? &&
            SerializerOf(env, v).Some?
    ensures ReadRecord(env, ([TYPE_KEY_VALUE] + [|keys|] + (Fields(env, keys).value + Encode(env, v).value)) + rest) ==
            Some((KeyValueL(SerializersOf(env, keys).value, SerializerOf(env, v).value),
              KeyValue(Normals(keys), Normal(v)), rest))
  {
    FieldReadsBack(env, v, rest);
    var content := Encode(env, v).value;
    FieldsReadBack(env, keys, content + rest);
    var fields := Fields(env, keys).value;
    var s2 := fields + (content + rest);
    ReadKeyValue(env, |keys|, s2, content + rest);
    Regroup([TYPE_KEY_VALUE], [|keys|], fields, content, rest);
  }

  /** MAIN: records that fit the format and share their serializers reach the next operation unchanged, up
      to lists becoming tuples, in order, and all in one layout, as its iterator requires. */
  lemma {:induction false} RecordsSurvive<X(!new)>(env: Env<X>, records: seq<Record<X>>, s: Serializers)
    requires InverseCodecs(env) && forall i :: 0 <= i < |records| ==> RecordFits(env, records[i])
    requires SameSerializers(env, records, Some(s)) && Messages(env, records).Some?
    ensures var delivered := Delivered(records, Messages(env, records).value);
            && delivered.Some? && ReadRecords(env, delivered.value).Some?
            && ReadRecords(env, delivered.value).value.1 == NormalRecords(records)
            && AllLaidOut(ReadRecords(env, delivered.value).value.0, LayoutOf(s))
  {
    if records != [] {
      RecordsSurvive(env, records[1..], s);
      var messages := Messages(env, records).value;
      assert messages[1..] == Messages(env, records[1..]).value;
      assert Choose(env, records[0]) == Some(s);
      var rest := Delivered(records[1..], messages[1..]).value;
      RecordSurvives(env, records[0], rest);
      LaidOutCons(LayoutOf(s), ReadRecords(env, rest).value.0);
    }
  }

  lemma LaidOutCons(l: Layout, layouts: seq<Layout>)
    requires AllLaidOut(layouts, l)
    ensures AllLaidOut([l] + layouts, l)
  {
  }
}
