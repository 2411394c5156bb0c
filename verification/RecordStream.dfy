/** Record traffic: the collector and the iterator, which choose serializers and deserializers at the
    first record and keep them. */
module RecordStream {
  import opened Common
  import opened Packing
  import opened Codec
  import opened CodecLaws

  const TYPE_ARRAY: Byte := 0x3F
  const TYPE_KEY_VALUE: Byte := 0x3E
  const TYPE_VALUE_VALUE: Byte := 0x3D

  datatype Record<X> =
    | Single(value: Value<X>)
    | KeyValue(keys: seq<Value<X>>, value: Value<X>)
    | ValueValue(first: Value<X>, second: Value<X>)

  /** How a record is laid out. */
  datatype Layout =
    | SingleL(value: Desc)
    | KeyValueL(keys: seq<Desc>, value: Desc)
    | ValueValueL(first: Desc, second: Desc)

  // ---------------------------------------------------------------------------------------------
  // Reading a record with its headers
  // ---------------------------------------------------------------------------------------------

  /** A header and the value it describes. */
  function ReadField<X>(env: Env<X>, s: Bytes): (r: Option<(Desc, Value<X>, Bytes)>)
    ensures r.Some? ==> |r.value.2| < |s|
  {
    var (d, s1) :- GetDeserializer(env, s);
    var (v, s2) :- Deserialize(env, d, s1);
    Some((d, v, s2))
  }

  function ReadFields<X>(env: Env<X>, n: nat, s: Bytes): (r: Option<(seq<Desc>, seq<Value<X>>, Bytes)>)
    ensures r.Some? ==> |r.value.2| <= |s| && |r.value.0| == |r.value.1| == n
  {
    if n == 0 then Some(([], [], s)) else
    var (d, v, s1) :- ReadField(env, s);
    var (ds, vs, s2) :- ReadFields(env, n - 1, s1);
    Some(([d] + ds, [v] + vs, s2))
  }

  function ReadRecord<X>(env: Env<X>, s: Bytes): (r: Option<(Layout, Record<X>, Bytes)>)
    ensures r.Some? ==> |r.value.2| < |s|
  {
    var (tag, s1) :- Read(1, s);
    if tag[0] == TYPE_ARRAY then
      var (d, v, s2) :- ReadField(env, s1);
      Some((SingleL(d), Single(v), s2))
    else if tag[0] == TYPE_KEY_VALUE then
      var (size, s2) :- Read(1, s1);
      var (ds, keys, s3) :- ReadFields(env, size[0], s2);
      var (d, v, s4) :- ReadField(env, s3);
      Some((KeyValueL(ds, d), KeyValue(keys, v), s4))
    else if tag[0] == TYPE_VALUE_VALUE then
      var (d1, v1, s2) :- ReadField(env, s1);
      var (d2, v2, s3) :- ReadField(env, s2);
      Some((ValueValueL(d1, d2), ValueValue(v1, v2), s3))
    else None
  }

  // ---------------------------------------------------------------------------------------------
  // Reading a record whose layout is known
  // ---------------------------------------------------------------------------------------------

  /** Skips the header of a value without looking at it. */
  function SkipField<X>(env: Env<X>, d: Desc, s: Bytes): Option<(Value<X>, Bytes)> {
    var (_, s1) :- Read(TypeInfoSize(d), s);
    Deserialize(env, d, s1)
  }

  function SkipFields<X>(env: Env<X>, ds: seq<Desc>, s: Bytes): (r: Option<(seq<Value<X>>, Bytes)>)
    ensures r.Some? ==> |r.value.0| == |ds|
  {
    if ds == [] then Some(([], s)) else
    var (v, s1) :- SkipField(env, ds[0], s);
    var (vs, s2) :- SkipFields(env, ds[1..], s1);
    Some(([v] + vs, s2))
  }

  function ReadCached<X>(env: Env<X>, layout: Layout, s: Bytes): Option<(Record<X>, Bytes)> {
    var (_, s1) :- Read(1, s);
    match layout
    case SingleL(d) =>
      var (v, s2) :- SkipField(env, d, s1);
      Some((Single(v), s2))
    case KeyValueL(ds, d) =>
      var (_, s2) :- Read(1, s1);
      var (keys, s3) :- SkipFields(env, ds, s2);
      var (v, s4) :- SkipField(env, d, s3);
      Some((KeyValue(keys, v), s4))
    case ValueValueL(d1, d2) =>
      var (v1, s2) :- SkipField(env, d1, s1);
      var (v2, s3) :- SkipField(env, d2, s2);
      Some((ValueValue(v1, v2), s3))
  }

  // ---------------------------------------------------------------------------------------------
  // The fast path refines the self-describing one
  // ---------------------------------------------------------------------------------------------

  /** The size computed for a deserializer is the length of the header it was read from, whatever the
      nesting. */
  lemma {:induction false} HeaderSizeIsExact<X>(env: Env<X>, s: Bytes)
    ensures var r := GetDeserializer(env, s);
            r.Some? ==> TypeInfoSize(r.value.0) <= |s| && r.value.1 == s[TypeInfoSize(r.value.0)..]
    decreases |s|, 0
  {
    if s != [] && 0 < s[0] < 26 {
      HeaderSizesAreExact(env, s[0], s[1..]);
    }
  }

  lemma {:induction false} HeaderSizesAreExact<X>(env: Env<X>, n: nat, s: Bytes)
    ensures var r := GetDeserializers(env, n, s);
            r.Some? ==> TypeInfoSizes(r.value.0) <= |s| && r.value.1 == s[TypeInfoSizes(r.value.0)..]
    decreases |s|, 1, n
  {
    if n > 0 && GetDeserializer(env, s).Some? {
      HeaderSizeIsExact(env, s);
      HeaderSizesAreExact(env, n - 1, GetDeserializer(env, s).value.1);
    }
  }

  lemma SkipFieldIsReadField<X>(env: Env<X>, s: Bytes)
    ensures var r := ReadField(env, s);
            r.Some? ==> SkipField(env, r.value.0, s) == Some((r.value.1, r.value.2))
  {
    HeaderSizeIsExact(env, s);
  }

  lemma SkipFieldsCons<X>(env: Env<X>, d: Desc, ds: seq<Desc>, s: Bytes)
    requires SkipField(env, d, s).Some? && SkipFields(env, ds, SkipField(env, d, s).value.1).Some?
    ensures var (v, s1) := SkipField(env, d, s).value; var (vs, s2) := SkipFields(env, ds, s1).value;
            SkipFields(env, [d] + ds, s) == Some(([v] + vs, s2))
  {
    assert ([d] + ds)[1..] == ds;
  }

  lemma ReadFieldsStep<X>(env: Env<X>, n: nat, s: Bytes)
    requires n > 0 && ReadFields(env, n, s).Some?
    ensures ReadField(env, s).Some? && ReadFields(env, n - 1, ReadField(env, s).value.2).Some?
    ensures var (d, v, s1) := ReadField(env, s).value; var (ds, vs, s2) := ReadFields(env, n - 1, s1).value;
            ReadFields(env, n, s) == Some(([d] + ds, [v] + vs, s2))
  {
  }

  lemma {:induction false} SkipFieldsIsReadFields<X>(env: Env<X>, n: nat, s: Bytes)
    requires ReadFields(env, n, s).Some?
    ensures var (ds, vs, rest) := ReadFields(env, n, s).value; SkipFields(env, ds, s) == Some((vs, rest))
    decreases n
  {
    if n > 0 {
      ReadFieldsStep(env, n, s);
      var (d, v, s1) := ReadField(env, s).value;
      SkipFieldIsReadField(env, s);
      SkipFieldsIsReadFields(env, n - 1, s1);
      SkipFieldsCons(env, d, ReadFields(env, n - 1, s1).value.0, s);
    }
  }

  /** A record that is read with its headers is read the same, and to the same end, by a deserializer
      kept from an earlier record of the same layout. */
  lemma CachedIsFresh<X>(env: Env<X>, s: Bytes)
    ensures var r := ReadRecord(env, s);
            r.Some? ==> ReadCached(env, r.value.0, s) == Some((r.value.1, r.value.2))
  {
    if ReadRecord(env, s).Some? {
      var s1 := s[1..];
      SkipFieldIsReadField(env, s1);
      if s[0] == TYPE_KEY_VALUE {
        var s2 := s1[1..];
        SkipFieldsIsReadFields(env, s1[0], s2);
        SkipFieldIsReadField(env, ReadFields(env, s1[0], s2).value.2);
      } else if s[0] == TYPE_VALUE_VALUE {
        SkipFieldIsReadField(env, ReadField(env, s1).value.2);
      }
    }
  }

  // ---------------------------------------------------------------------------------------------
  // The fast path is right for no other layout
  // ---------------------------------------------------------------------------------------------

  /** `d` is what a serializer of the Python side lays out: no short numbers, and the first entry of a class. */
  ghost predicate Written<X>(env: Env<X>, d: Desc) {
    match d
    case TupleD(ds) => AllWritten(env, ds)
    case CustomD(k) => k < |env.types| && FindClass(env.types, env.types[k].cls) == Some(k)
    case _ => d != ByteD && d != IntegerD && d != FloatD
  }

  ghost predicate AllWritten<X>(env: Env<X>, ds: seq<Desc>) {
    ds != [] ==> Written(env, ds[0]) && AllWritten(env, ds[1..])
  }

  ghost predicate WrittenLayout<X>(env: Env<X>, layout: Layout) {
    match layout
    case SingleL(d) => Written(env, d)
    case KeyValueL(ds, d) => AllWritten(env, ds) && Written(env, d)
    case ValueValueL(d1, d2) => Written(env, d1) && Written(env, d2)
  }

  /** The serializer chosen for a value is one of these, */
  lemma {:induction false} SerializerIsWritten<X>(env: Env<X>, v: Value<X>)
    ensures SerializerOf(env, v).Some? ==> Written(env, SerializerOf(env, v).value)
    decreases v, 0
  {
    match v
    case Tuple(vs) => SerializersAreWritten(env, vs);
    case List(vs) => SerializersAreWritten(env, vs);
    case _ =>
  }

  lemma {:induction false} SerializersAreWritten<X>(env: Env<X>, vs: seq<Value<X>>)
    ensures SerializersOf(env, vs).Some? ==> AllWritten(env, SerializersOf(env, vs).value)
    decreases vs, 1
  {
    if vs != [] && SerializersOf(env, vs).Some? {
      SerializerIsWritten(env, vs[0]);
      SerializersAreWritten(env, vs[1..]);
      var ds := SerializersOf(env, vs).value;
      assert ds[1..] == SerializersOf(env, vs[1..]).value;
    }
  }

  /** and a value that is read tells which of them it was read with. */
  lemma {:induction false} ReadWithItsSerializer<X>(env: Env<X>, d: Desc, s: Bytes)
    requires Written(env, d) && Deserialize(env, d, s).Some?
    ensures SerializerOf(env, Deserialize(env, d, s).value.0) == Some(d)
    decreases d, 0
  {
    match d
    case TupleD(ds) => AllReadWithTheirs(env, ds, s);
    case _ =>
  }

  lemma {:induction false} AllReadWithTheirs<X>(env: Env<X>, ds: seq<Desc>, s: Bytes)
    requires AllWritten(env, ds) && DeserializeAll(env, ds, s).Some?
    ensures SerializersOf(env, DeserializeAll(env, ds, s).value.0) == Some(ds)
    decreases ds, 1
  {
    if ds != [] {
      var (v, s1) := Deserialize(env, ds[0], s).value;
      ReadWithItsSerializer(env, ds[0], s);
      AllReadWithTheirs(env, ds[1..], s1);
      var vs := DeserializeAll(env, ds, s).value.0;
      assert vs[0] == v && vs[1..] == DeserializeAll(env, ds[1..], s1).value.0;
      assert [ds[0]] + ds[1..] == ds;
    }
  }

  lemma {:induction false} SkippedWithTheirs<X>(env: Env<X>, ds: seq<Desc>, s: Bytes)
    requires AllWritten(env, ds) && SkipFields(env, ds, s).Some?
    ensures SerializersOf(env, SkipFields(env, ds, s).value.0) == Some(ds)
  {
    if ds != [] {
      var (v, s1) := SkipField(env, ds[0], s).value;
      SkippedWithItsSerializer(env, ds[0], s);
      SkippedWithTheirs(env, ds[1..], s1);
      var vs := SkipFields(env, ds, s).value.0;
      assert vs[0] == v && vs[1..] == SkipFields(env, ds[1..], s1).value.0;
      assert [ds[0]] + ds[1..] == ds;
    }
  }

  lemma SkippedWithItsSerializer<X>(env: Env<X>, d: Desc, s: Bytes)
    requires Written(env, d) && SkipField(env, d, s).Some?
    ensures SerializerOf(env, SkipField(env, d, s).value.0) == Some(d)
  {
    ReadWithItsSerializer(env, d, s[TypeInfoSize(d)..]);
  }

  /** The layout that the serializers of a record's values have. */
  function RecordLayout<X>(env: Env<X>, record: Record<X>): Option<Layout> {
    match record
    case Single(v) =>
      var d :- SerializerOf(env, v);
      Some(SingleL(d))
    case KeyValue(keys, v) =>
      var ds :- SerializersOf(env, keys);
      var d :- SerializerOf(env, v);
      Some(KeyValueL(ds, d))
    case ValueValue(v1, v2) =>
      var d1 :- SerializerOf(env, v1);
      var d2 :- SerializerOf(env, v2);
      Some(ValueValueL(d1, d2))
  }

  lemma CachedHasLayout<X>(env: Env<X>, layout: Layout, s: Bytes)
    requires WrittenLayout(env, layout) && ReadCached(env, layout, s).Some?
    ensures RecordLayout(env, ReadCached(env, layout, s).value.0) == Some(layout)
  {
    var s1 := s[1..];
    match layout
    case SingleL(d) =>
      SkippedWithItsSerializer(env, d, s1);
    case KeyValueL(ds, d) =>
      SkippedWithTheirs(env, ds, s1[1..]);
      SkippedWithItsSerializer(env, d, SkipFields(env, ds, s1[1..]).value.1);
    case ValueValueL(d1, d2) =>
      SkippedWithItsSerializer(env, d1, s1);
      SkippedWithItsSerializer(env, d2, SkipField(env, d1, s1).value.1);
  }

  /** MAIN: among the layouts of the Python serializers, the kept deserializer gives the record and the rest
      that reading the headers gives if and only if it was kept from a record of the same layout. */
  lemma CachedIsFreshIff<X>(env: Env<X>, kept: Layout, s: Bytes)
    requires ReadRecord(env, s).Some? && WrittenLayout(env, ReadRecord(env, s).value.0) && WrittenLayout(env, kept)
    ensures var (layout, record, rest) := ReadRecord(env, s).value;
            ReadCached(env, kept, s) == Some((record, rest)) <==> kept == layout
  {
    var (layout, record, rest) := ReadRecord(env, s).value;
    CachedIsFresh(env, s);
    CachedHasLayout(env, layout, s);
    if ReadCached(env, kept, s) == Some((record, rest)) {
      CachedHasLayout(env, kept, s);
    }
  }

  /** All records of a stream, each read with its headers. */
  function ReadRecords<X>(env: Env<X>, s: Bytes): Option<(seq<Layout>, seq<Record<X>>)>
    decreases |s|
  {
    if s == [] then Some(([], [])) else
    var (layout, record, s1) :- ReadRecord(env, s);
    var (layouts, records) :- ReadRecords(env, s1);
    Some(([layout] + layouts, [record] + records))
  }

  ghost predicate AllLaidOut(layouts: seq<Layout>, layout: Layout) {
    forall l :: l in layouts ==> l == layout
  }

  /** Without a common layout the fast path goes wrong: after a null record, the record `true` is
      read as null too, and a byte of it is left over. */
  lemma MixedLayoutsAreMisread<X>(env: Env<X>)
    ensures var s := [TYPE_ARRAY, TYPE_BOOLEAN, 1];
            && ReadRecord(env, [TYPE_ARRAY, TYPE_NULL] + s) == Some((SingleL(NullD), Single(Null), s))
            && ReadRecord(env, s) == Some((SingleL(BoolD), Single(Bool(true)), []))
            && ReadCached(env, SingleL(NullD), s) == Some((Single(Null), [1]))
  {
    var s: Bytes := [TYPE_ARRAY, TYPE_BOOLEAN, 1];
    assert ([TYPE_ARRAY, TYPE_NULL] + s)[1..] == [TYPE_NULL] + s;
    assert ([TYPE_NULL] + s)[1..] == s;
    assert s[1..] == [TYPE_BOOLEAN, 1] && s[1..][1..] == [1];
  }

  // ---------------------------------------------------------------------------------------------
  // The iterator
  // ---------------------------------------------------------------------------------------------

  /** The incoming bytes. */
  class ByteStream {
    var rest: Bytes

    constructor (bytes: Bytes)
      ensures rest == bytes
    {
      rest := bytes;
    }

    method HasNext() returns (r: bool)
      ensures r <==> rest != []
    {
      r := rest != [];
    }

    method Take(n: int) returns (r: Option<Bytes>)
      modifies this
      ensures r.Some? <==> Read(n, old(rest)).Some?
      ensures r.Some? ==> Read(n, old(rest)) == Some((r.value, rest))
    {
      if 0 <= n <= |rest| {
        r := Some(rest[..n]);
        rest := rest[n..];
      } else {
        r := None;
      }
    }

    method TakeField<X>(env: Env<X>) returns (r: Option<(Desc, Value<X>)>)
      modifies this
      ensures r.Some? <==> ReadField(env, old(rest)).Some?
      ensures r.Some? ==> ReadField(env, old(rest)) == Some((r.value.0, r.value.1, rest))
    {
      var field := ReadField(env, rest);
      if field.None? {
        return None;
      }
      rest := field.value.2;
      return Some((field.value.0, field.value.1));
    }

    method SkipAndTake<X>(env: Env<X>, d: Desc) returns (r: Option<Value<X>>)
      modifies this
      ensures r.Some? <==> SkipField(env, d, old(rest)).Some?
      ensures r.Some? ==> SkipField(env, d, old(rest)) == Some((r.value, rest))
    {
      var header := Take(TypeInfoSize(d));
      if header.None? {
        return None;
      }
      var field := Deserialize(env, d, rest);
      if field.None? {
        return None;
      }
      rest := field.value.1;
      return Some(field.value.0);
    }
  }

  class RecordIterator<X> {
    const connection: ByteStream
    const env: Env<X>
    var deserializer: Option<Layout>

    constructor (connection: ByteStream, env: Env<X>)
      ensures this.connection == connection && this.env == env && deserializer == None
    {
      this.connection, this.env, deserializer := connection, env, None;
    }

    /** Reads the keys of the first record, and their deserializers. */
    method FirstKeys(size: nat) returns (ok: bool, ds: seq<Desc>, keys: seq<Value<X>>)
      modifies connection
      ensures ok <==> ReadFields(env, size, old(connection.rest)).Some?
      ensures ok ==> ReadFields(env, size, old(connection.rest)) == Some((ds, keys, connection.rest))
    {
      ghost var all := ReadFields(env, size, connection.rest);
      ok, ds, keys := true, [], [];
      NoFieldsYet(env, size, connection.rest);
      for i := 0 to size
        invariant FieldsSoFar(env, all, size - i, connection.rest, ds, keys)
      {
        ok, ds, keys := NextKey(ds, keys, all, size - i);
        if !ok {
          return;
        }
      }
      NoFieldsLeft(env, all, connection.rest, ds, keys);
    }

    method NextKey(ds: seq<Desc>, keys: seq<Value<X>>, ghost all: Option<(seq<Desc>, seq<Value<X>>, Bytes)>,
                   ghost n: nat)
      returns (ok: bool, ds': seq<Desc>, keys': seq<Value<X>>)
      requires n > 0 && FieldsSoFar(env, all, n, connection.rest, ds, keys)
      modifies connection
      ensures if ok then FieldsSoFar(env, all, n - 1, connection.rest, ds', keys') else all.None?
    {
      OneMoreField(env, all, n, connection.rest, ds, keys);
      var field := connection.TakeField(env);
      if field.None? {
        return false, ds, keys;
      }
      return true, ds + [field.value.0], keys + [field.value.1];
    }

    method FirstRecord() returns (r: Option<Record<X>>)
      modifies this, connection
      ensures r.Some? <==> ReadRecord(env, old(connection.rest)).Some?
      ensures r.Some? ==> deserializer.Some?
      ensures r.Some? ==> ReadRecord(env, old(connection.rest)) == Some((deserializer.value, r.value, connection.rest))
    {
      var tag := connection.Take(1);
      if tag.None? {
        return None;
      }
      if tag.value[0] == TYPE_ARRAY {
        var field := connection.TakeField(env);
        if field.None? {
          return None;
        }
        deserializer := Some(SingleL(field.value.0));
        return Some(Single(field.value.1));
      } else if tag.value[0] == TYPE_KEY_VALUE {
        r := FirstKeyValue();
      } else if tag.value[0] == TYPE_VALUE_VALUE {
        var field1 := connection.TakeField(env);
        if field1.None? {
          return None;
        }
        var field2 := connection.TakeField(env);
        if field2.None? {
          return None;
        }
        deserializer := Some(ValueValueL(field1.value.0, field2.value.0));
        return Some(ValueValue(field1.value.1, field2.value.1));
      } else {
        return None;
      }
    }

    method FirstKeyValue() returns (r: Option<Record<X>>)
      modifies this, connection
      ensures r.Some? <==> ReadRecord(env, [TYPE_KEY_VALUE] + old(connection.rest)).Some?
      ensures r.Some? ==> deserializer.Some?
      ensures r.Some? ==>
        ReadRecord(env, [TYPE_KEY_VALUE] + old(connection.rest)) == Some((deserializer.value, r.value, connection.rest))
    {
      var size := connection.Take(1);
      if size.None? {
        return None;
      }
      var ok, ds, keys := FirstKeys(size.value[0]);
      if !ok {
        return None;
      }
      var field := connection.TakeField(env);
      if field.None? {
        return None;
      }
      deserializer := Some(KeyValueL(ds, field.value.0));
      return Some(KeyValue(keys, field.value.1));
    }

    /** Reads the keys of a later record. */
    method LaterKeys(ds: seq<Desc>) returns (r: Option<seq<Value<X>>>)
      modifies connection
      ensures r.Some? <==> SkipFields(env, ds, old(connection.rest)).Some?
      ensures r.Some? ==> SkipFields(env, ds, old(connection.rest)) == Some((r.value, connection.rest))
    {
      ghost var s := connection.rest;
      var keys: seq<Value<X>> := [];
      SkipMoreFromStart(env, ds, s);
      while |keys| < |ds|
        invariant |keys| <= |ds|
        invariant SkipMore(env, ds, 0, s, []) == SkipMore(env, ds, |keys|, connection.rest, keys)
      {
        var v := connection.SkipAndTake(env, ds[|keys|]);
        if v.None? {
          return None;
        }
        keys := keys + [v.value];
      }
      return Some(keys);
    }

    method LaterRecord(layout: Layout) returns (r: Option<Record<X>>)
      modifies connection
      ensures r.Some? <==> ReadCached(env, layout, old(connection.rest)).Some?
      ensures r.Some? ==> ReadCached(env, layout, old(connection.rest)) == Some((r.value, connection.rest))
    {
      var tag := connection.Take(1);
      if tag.None? {
        return None;
      }
      match layout
      case SingleL(d) =>
        var v := connection.SkipAndTake(env, d);
        return if v.None? then None else Some(Single(v.value));
      case KeyValueL(ds, d) =>
        var count := connection.Take(1);
        if count.None? {
          return None;
        }
        var keys := LaterKeys(ds);
        if keys.None? {
          return None;
        }
        var v := connection.SkipAndTake(env, d);
        return if v.None? then None else Some(KeyValue(keys.value, v.value));
      case ValueValueL(d1, d2) =>
        var v1 := connection.SkipAndTake(env, d1);
        if v1.None? {
          return None;
        }
        var v2 := connection.SkipAndTake(env, d2);
        return if v2.None? then None else Some(ValueValue(v1.value, v2.value));
    }

    /** The next record; the first one fixes the deserializer for all later ones. */
    method Next() returns (r: Option<Record<X>>)
      modifies this, connection
      ensures old(deserializer).None? ==> (r.Some? <==> ReadRecord(env, old(connection.rest)).Some?)
      ensures old(deserializer).None? && r.Some? ==> deserializer.Some?
      ensures old(deserializer).None? && r.Some? ==>
        ReadRecord(env, old(connection.rest)) == Some((deserializer.value, r.value, connection.rest))
      ensures old(deserializer).Some? ==> deserializer == old(deserializer)
      ensures old(deserializer).Some? ==> (r.Some? <==> ReadCached(env, deserializer.value, old(connection.rest)).Some?)
      ensures old(deserializer).Some? && r.Some? ==>
        ReadCached(env, deserializer.value, old(connection.rest)) == Some((r.value, connection.rest))
    {
      if deserializer.None? {
        r := FirstRecord();
      } else {
        r := LaterRecord(deserializer.value);
      }
    }

    /** MAIN: on a stream whose records all have one layout, the iterator yields what reading every
        header would yield, and consumes the whole stream. */
    method ReadAll(ghost layout: Layout) returns (records: seq<Record<X>>)
      requires deserializer.None? || deserializer == Some(layout)
      requires ReadRecords(env, connection.rest).Some?
      requires AllLaidOut(ReadRecords(env, connection.rest).value.0, layout)
      modifies this, connection
      ensures records == old(ReadRecords(env, connection.rest)).value.1 && connection.rest == []
    {
      ghost var all := ReadRecords(env, connection.rest).value.1;
      records := [];
      var more := connection.HasNext();
      while more
        invariant more <==> connection.rest != []
        invariant deserializer.None? || deserializer == Some(layout)
        invariant ReadRecords(env, connection.rest).Some?
        invariant AllLaidOut(ReadRecords(env, connection.rest).value.0, layout)
        invariant records + ReadRecords(env, connection.rest).value.1 == all
        decreases |connection.rest|
      {
        ghost var s := connection.rest;
        ReadRecordsStep(env, s, layout, records);
        CachedIsFresh(env, s);
        var record := Next();
        records := records + [record.value];
        more := connection.HasNext();
      }
      assert records + [] == records;
    }
  }

  lemma ReadRecordsStep<X>(env: Env<X>, s: Bytes, layout: Layout, done: seq<Record<X>>)
    requires s != [] && ReadRecords(env, s).Some? && AllLaidOut(ReadRecords(env, s).value.0, layout)
    ensures ReadRecord(env, s).Some? && ReadRecord(env, s).value.0 == layout
    ensures var rest := ReadRecord(env, s).value.2;
            ReadRecords(env, rest).Some? && AllLaidOut(ReadRecords(env, rest).value.0, layout)
    ensures var (_, record, rest) := ReadRecord(env, s).value;
            done + ReadRecords(env, s).value.1 == (done + [record]) + ReadRecords(env, rest).value.1
  {
    var (l, record, rest) := ReadRecord(env, s).value;
    var (layouts, records) := ReadRecords(env, rest).value;
    assert ReadRecords(env, s) == Some(([l] + layouts, [record] + records));
    LaidOutTail(l, layouts, layout);
    Shift(done, record, records);
  }

  lemma LaidOutTail(l: Layout, layouts: seq<Layout>, layout: Layout)
    requires AllLaidOut([l] + layouts, layout)
    ensures l == layout && AllLaidOut(layouts, layout)
  {
    assert l in [l] + layouts;
    assert forall m :: m in layouts ==> m in [l] + layouts;
  }

  ghost function Prepend<X>(ds: seq<Desc>, vs: seq<Value<X>>, r: Option<(seq<Desc>, seq<Value<X>>, Bytes)>):
    Option<(seq<Desc>, seq<Value<X>>, Bytes)>
  {
    if r.None? then None else Some((ds + r.value.0, vs + r.value.1, r.value.2))
  }

  lemma PrependShift<X>(ds: seq<Desc>, vs: seq<Value<X>>, d: Desc, v: Value<X>,
                        r: Option<(seq<Desc>, seq<Value<X>>, Bytes)>)
    ensures Prepend(ds, vs, Prepend([d], [v], r)) == Prepend(ds + [d], vs + [v], r)
  {
    if r.Some? {
      Shift(ds, d, r.value.0);
      Shift(vs, v, r.value.1);
    }
  }

  /** Reads `n` more fields after `ds` and `vs`. */
  ghost function ReadMore<X>(env: Env<X>, n: nat, s: Bytes, ds: seq<Desc>, vs: seq<Value<X>>):
    Option<(seq<Desc>, seq<Value<X>>, Bytes)>
    decreases n
  {
    if n == 0 then Some((ds, vs, s)) else
    var (d, v, s1) :- ReadField(env, s);
    ReadMore(env, n - 1, s1, ds + [d], vs + [v])
  }

  lemma {:induction false} ReadMoreIsReadFields<X>(env: Env<X>, n: nat, s: Bytes, ds: seq<Desc>, vs: seq<Value<X>>)
    ensures ReadMore(env, n, s, ds, vs) == Prepend(ds, vs, ReadFields(env, n, s))
    decreases n
  {
    if n == 0 {
      assert ds + [] == ds && vs + [] == vs;
    } else if ReadField(env, s).Some? {
      var (d, v, s1) := ReadField(env, s).value;
      ReadMoreIsReadFields(env, n - 1, s1, ds + [d], vs + [v]);
      PrependShift(ds, vs, d, v, ReadFields(env, n - 1, s1));
    }
  }

  /** Reading `n` more fields from `s`, after `ds` and `vs`, gives `r`. */
  ghost predicate FieldsSoFar<X>(env: Env<X>, r: Option<(seq<Desc>, seq<Value<X>>, Bytes)>, n: nat, s: Bytes,
                                 ds: seq<Desc>, vs: seq<Value<X>>) {
    (ReadMore(env, n, s, ds, vs) == r) == true
  }

  lemma OneMoreField<X>(env: Env<X>, r: Option<(seq<Desc>, seq<Value<X>>, Bytes)>, n: nat, s: Bytes,
                        ds: seq<Desc>, vs: seq<Value<X>>)
    requires n > 0 && FieldsSoFar(env, r, n, s, ds, vs)
    ensures var field := ReadField(env, s);
            if field.None? then r.None?
            else FieldsSoFar(env, r, n - 1, field.value.2, ds + [field.value.0], vs + [field.value.1])
  {
  }

  lemma NoFieldsYet<X>(env: Env<X>, n: nat, s: Bytes)
    ensures FieldsSoFar(env, ReadFields(env, n, s), n, s, [], [])
  {
    ReadMoreIsReadFields(env, n, s, [], []);
    var r := ReadFields(env, n, s);
    if r.Some? {
      assert [] + r.value.0 == r.value.0 && [] + r.value.1 == r.value.1;
    }
  }

  lemma NoFieldsLeft<X>(env: Env<X>, r: Option<(seq<Desc>, seq<Value<X>>, Bytes)>, s: Bytes,
                        ds: seq<Desc>, vs: seq<Value<X>>)
    requires FieldsSoFar(env, r, 0, s, ds, vs)
    ensures r == Some((ds, vs, s))
  {
  }

  /** Skips and reads the fields from number `i` on, after `vs`. */
  ghost function SkipMore<X>(env: Env<X>, ds: seq<Desc>, i: nat, s: Bytes,
                             vs: seq<Value<X>>): Option<(seq<Value<X>>, Bytes)>
    requires i <= |ds|
    decreases |ds| - i
  {
    if i == |ds| then Some((vs, s)) else
    var (v, s1) :- SkipField(env, ds[i], s);
    SkipMore(env, ds, i + 1, s1, vs + [v])
  }

  lemma {:induction false} SkipMoreIsSkipFields<X>(env: Env<X>, ds: seq<Desc>, i: nat, s: Bytes, vs: seq<Value<X>>)
    requires i <= |ds|
    ensures var r := SkipFields(env, ds[i..], s);
            SkipMore(env, ds, i, s, vs) == if r.None? then None else Some((vs + r.value.0, r.value.1))
    decreases |ds| - i
  {
    if i == |ds| {
      assert vs + [] == vs;
    } else if SkipField(env, ds[i], s).Some? {
      var (v, s1) := SkipField(env, ds[i], s).value;
      assert ds[i..][1..] == ds[i + 1..];
      SkipMoreIsSkipFields(env, ds, i + 1, s1, vs + [v]);
      var r := SkipFields(env, ds[i + 1..], s1);
      if r.Some? {
        Shift(vs, v, r.value.0);
      }
    }
  }

  lemma SkipMoreFromStart<X>(env: Env<X>, ds: seq<Desc>, s: Bytes)
    ensures SkipMore(env, ds, 0, s, []) == SkipFields(env, ds, s)
  {
    SkipMoreIsSkipFields(env, ds, 0, s, []);
    assert ds[0..] == ds;
    var r := SkipFields(env, ds, s);
    if r.Some? {
      assert [] + r.value.0 == r.value.0;
    }
  }
}
