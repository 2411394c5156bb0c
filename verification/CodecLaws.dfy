/** Decoding inverts encoding, on exactly the values for which the format has room. */
module CodecLaws {
  import opened Common
  import opened Packing
  import opened Codec

  /** Registered codecs and the text encoding are inverse pairs; a class is registered once. */
  ghost predicate InverseCodecs<X(!new)>(env: Env<X>) {
    Inverses(env) == true  // compared with `true` so that the verifier treats it as one fact
  }

  ghost predicate Inverses<X(!new)>(env: Env<X>) {
    && Tagged(env.types)
    && (forall j, k :: 0 <= j < k < |env.types| ==> env.types[j].cls != env.types[k].cls)
    && (forall k, x, rest {:trigger env.types[k].decode(env.types[k].encode(x) + rest)} ::
          0 <= k < |env.types| ==>
            env.types[k].decode(env.types[k].encode(x) + rest) == Some((x, |env.types[k].encode(x)|)))
    && (forall text :: env.decodeText(env.encodeText(text)) == Some(text))
    && (forall bs, text :: env.decodeText(bs) == Some(text) ==> env.encodeText(text) == bs)
    && env.encodeText("") == []
  }

  /** Lists come back as tuples. */
  function Normal<X>(v: Value<X>): Value<X>
    decreases v
  {
    match v
    case Tuple(vs) => Tuple(Normals(vs))
    case List(vs) => Tuple(Normals(vs))
    case _ => v
  }

  function Normals<X>(vs: seq<Value<X>>): (r: seq<Value<X>>)
    ensures |r| == |vs|
    decreases vs
  {
    if vs == [] then [] else [Normal(vs[0])] + Normals(vs[1..])
  }

  // ---------------------------------------------------------------------------------------------
  // Tags of registered types
  // ---------------------------------------------------------------------------------------------

  predicate Dispatchable(k: nat) {
    k < 92 || 126 <= k < 256
  }

  /** MAIN: reading the tag of the type registered as number `k` leads back to it exactly for the
      first 92 types and, after a gap, for numbers 126 to 255. Number 92 reads as a boolean. */
  lemma DispatchIff<X>(types: seq<Entry<X>>, k: nat)
    requires Tagged(types) && k < |types|
    ensures !(0 < TagOf(k) < 26) && Dispatch(types, TagOf(k)) == Some(CustomD(k)) <==> Dispatchable(k)
    ensures k == 92 ==> Dispatch(types, TagOf(k)) == Some(BoolD)
  {
    if k >= 256 {
      assert types[k % 256].tag == TagOf(k % 256) == TagOf(k);
    } else if Dispatchable(k) {
      var j := FindTag(types, TagOf(k), 0);
      assert types[k].tag == TagOf(k);
      assert types[j.value].tag == TagOf(j.value);
    }
  }

  /** For up to 92 registered types all tags differ, from each other, from arities and from the tags
      of built-in types; 92 is the largest such bound. */
  lemma TagsUnambiguousIff(n: nat)
    ensures (forall j, k {:trigger TagOf(j), TagOf(k)} :: 0 <= j < k < n ==> TagOf(j) != TagOf(k)) &&
            (forall k {:trigger TagOf(k)} :: 0 <= k < n ==> TagOf(k) > 34)
            <==> n <= 92
  {
    if n > 92 {
      assert TagOf(92) == 34;
    }
  }

  // ---------------------------------------------------------------------------------------------
  // Which values fit
  // ---------------------------------------------------------------------------------------------

  /** Arities 1 to 25, 64-bit numbers, blocks shorter than 2^31, supported and dispatchable types. */
  ghost predicate Fits<X>(env: Env<X>, v: Value<X>)
    decreases v
  {
    match v
    case Tuple(vs) => 1 <= |vs| <= 25 && AllFit(env, vs)
    case List(vs) => 1 <= |vs| <= 25 && AllFit(env, vs)
    case Int(i) => FitsSigned(i, 8)
    case ByteArray(bs) => 2 * |bs| < Power(4)
    case Str(text) => 2 * |env.encodeText(text)| < Power(4)
    case RawByte(_) => false
    case Custom(cls, x) =>
      var k := FindClass(env.types, cls);
      k.Some? && Dispatchable(k.value) && FitsSigned(|env.types[k.value].encode(x)|, 4)
    case _ => true
  }

  ghost predicate AllFit<X>(env: Env<X>, vs: seq<Value<X>>)
    decreases vs
  {
    vs != [] ==> Fits(env, vs[0]) && AllFit(env, vs[1..])
  }

  // ---------------------------------------------------------------------------------------------
  // Round trip
  // ---------------------------------------------------------------------------------------------

  /** Reading a written header yields the deserializer that mirrors the serializer, and no more than
      the header is read. */
  lemma {:induction false} HeaderRoundTrip<X>(env: Env<X>, v: Value<X>, rest: Bytes)
    requires Tagged(env.types) && Fits(env, v)
    ensures TypeInfo(env, v).Some? && SerializerOf(env, v).Some?
    ensures GetDeserializer(env, TypeInfo(env, v).value + rest) == Some((SerializerOf(env, v).value, rest))
    decreases v
  {
    match v
    case Tuple(vs) => TupleHeaderRoundTrip(env, v, vs, rest);
    case List(vs) => TupleHeaderRoundTrip(env, v, vs, rest);
    case Custom(cls, _) =>
      var k := FindClass(env.types, cls).value;
      DispatchIff(env.types, k);
      assert ([env.types[k].tag] + rest)[1..] == rest;
    case RawByte(_) =>
    case _ =>
      assert (TypeInfo(env, v).value + rest)[1..] == rest;
  }

  lemma TupleHeaderRoundTrip<X>(env: Env<X>, v: Value<X>, vs: seq<Value<X>>, rest: Bytes)
    requires Tagged(env.types) && (v == Tuple(vs) || v == List(vs)) && Fits(env, v)
    ensures TypeInfo(env, v).Some? && SerializerOf(env, v).Some?
    ensures GetDeserializer(env, TypeInfo(env, v).value + rest) == Some((SerializerOf(env, v).value, rest))
    decreases vs, 1
  {
    HeadersRoundTrip(env, vs, rest);
    ArityByte(|vs|);
    var infos := TypeInfos(env, vs).value;
    ReadTupleHeader(env, |vs|, infos + rest);
    assert ([|vs|] + infos) + rest == [|vs|] + (infos + rest);
  }

  lemma ArityByte(n: nat)
    requires n < 256
    ensures PackSigned(n, 4).Some? && [PackSigned(n, 4).value[3]] == [n]
  {
    PowerValues();
    LowByte(n, 4);
  }

  lemma ReadTupleHeader<X>(env: Env<X>, n: Byte, s: Bytes)
    requires 0 < n < 26 && GetDeserializers(env, n, s).Some?
    ensures GetDeserializer(env, [n] + s) ==
            Some((TupleD(GetDeserializers(env, n, s).value.0), GetDeserializers(env, n, s).value.1))
  {
    ReadBack([n], s);
  }

  lemma {:induction false} HeadersRoundTrip<X>(env: Env<X>, vs: seq<Value<X>>, rest: Bytes)
    requires Tagged(env.types) && AllFit(env, vs)
    ensures TypeInfos(env, vs).Some? && SerializersOf(env, vs).Some?
    ensures GetDeserializers(env, |vs|, TypeInfos(env, vs).value + rest) == Some((SerializersOf(env, vs).value, rest))
    decreases vs, 0
  {
    if vs == [] {
      assert [] + rest == rest;
    } else {
      HeadersRoundTrip(env, vs[1..], rest);
      var info, infos := TypeInfo(env, vs[0]), TypeInfos(env, vs[1..]).value;
      HeaderRoundTrip(env, vs[0], infos + rest);
      assert (info.value + infos) + rest == info.value + (infos + rest);
    }
  }

  /** Reading what `d` writes for `v` yields the value, and no more than that is read. */
  ghost predicate ReadsBack<X>(env: Env<X>, d: Option<Desc>, v: Value<X>, rest: Bytes) {
    && d.Some?
    && var written := Serialize(env, d.value, v);
    && written.Some?
    && Deserialize(env, d.value, written.value + rest) == Some((Normal(v), rest))
  }

  lemma {:induction false} PayloadRoundTrip<X(!new)>(env: Env<X>, v: Value<X>, rest: Bytes)
    requires InverseCodecs(env) && Fits(env, v)
    ensures ReadsBack(env, SerializerOf(env, v), v, rest)
    decreases v
  {
    match v
    case Tuple(vs) =>
      PayloadsRoundTrip(env, vs, rest);
      TupleReadsBack(env, v, vs, rest);
    case List(vs) =>
      PayloadsRoundTrip(env, vs, rest);
      TupleReadsBack(env, v, vs, rest);
    case Int(i) => NumberRoundTrip(env, i, rest);
    case Str(text) => TextRoundTrip(env, text, rest);
    case Custom(cls, x) => ObjectRoundTrip(env, cls, x, rest);
    case _ => BlockOrFixedRoundTrip(env, v, rest);
  }

  ghost predicate AllReadBack<X>(env: Env<X>, ds: Option<seq<Desc>>, vs: seq<Value<X>>, rest: Bytes) {
    && ds.Some?
    && var written := SerializeAll(env, ds.value, vs);
    && written.Some?
    && DeserializeAll(env, ds.value, written.value + rest) == Some((Normals(vs), rest))
  }

  lemma TupleReadsBack<X>(env: Env<X>, v: Value<X>, vs: seq<Value<X>>, rest: Bytes)
    requires (v == Tuple(vs) || v == List(vs)) && AllReadBack(env, SerializersOf(env, vs), vs, rest)
    ensures ReadsBack(env, SerializerOf(env, v), v, rest)
  {
  }

  lemma BlockOrFixedRoundTrip<X>(env: Env<X>, v: Value<X>, rest: Bytes)
    requires Fits(env, v) && (v.Null? || v.Bool? || v.Float? || v.ByteArray?)
    ensures ReadsBack(env, SerializerOf(env, v), v, rest)
  {
    match v
    case Null => assert [] + rest == rest;
    case Bool(b) => ReadBack([if b then 1 else 0], rest);
    case Float(bits) => ReadBack(bits, rest);
    case ByteArray(bs) => BlockRoundTrip(bs, rest);
  }

  lemma NumberRoundTrip<X>(env: Env<X>, i: int, rest: Bytes)
    requires FitsSigned(i, 8)
    ensures ReadsBack(env, Some(LongD), Int(i), rest)
  {
    SignedRoundTrip(i, 8);
    ReadBack(PackSigned(i, 8).value, rest);
  }

  lemma TextRoundTrip<X(!new)>(env: Env<X>, text: string, rest: Bytes)
    requires InverseCodecs(env) && Fits(env, Str(text))
    ensures ReadsBack(env, Some(StringD), Str(text), rest)
  {
    BlockRoundTrip(env.encodeText(text), rest);
    assert env.decodeText(env.encodeText("")) == Some("");
  }

  lemma ObjectRoundTrip<X(!new)>(env: Env<X>, cls: nat, x: X, rest: Bytes)
    requires InverseCodecs(env) && Fits(env, Custom(cls, x))
    ensures ReadsBack(env, Some(CustomD(FindClass(env.types, cls).value)), Custom(cls, x), rest)
  {
    var k := FindClass(env.types, cls).value;
    var message := env.types[k].encode(x);
    var length := PackSigned(|message|, 4).value;
    assert (length + message) + rest == length + (message + rest);
    ReadBack(length, message + rest);
    ReadBack(message, rest);
  }

  lemma ReadBack(bs: Bytes, rest: Bytes)
    ensures Read(|bs|, bs + rest) == Some((bs, rest))
  {
  }

  lemma BlockRoundTrip(bs: Bytes, rest: Bytes)
    requires 2 * |bs| < Power(4)
    ensures WithLength(bs).Some? && ReadBlock(WithLength(bs).value + rest) == Some((bs, rest))
  {
    LengthRoundTripIff(|bs|, 4);
    var length := PackUnsigned(|bs|, 4).value;
    assert (length + bs) + rest == length + (bs + rest);
    ReadBack(length, bs + rest);
    ReadBack(bs, rest);
    assert [] + rest == rest;
  }

  lemma {:induction false} PayloadsRoundTrip<X(!new)>(env: Env<X>, vs: seq<Value<X>>, rest: Bytes)
    requires InverseCodecs(env) && AllFit(env, vs)
    ensures AllReadBack(env, SerializersOf(env, vs), vs, rest)
    decreases vs
  {
    if vs == [] {
      assert [] + rest == rest;
    } else {
      PayloadsRoundTrip(env, vs[1..], rest);
      var d, ds := SerializerOf(env, vs[0]), SerializersOf(env, vs[1..]).value;
      var tail := SerializeAll(env, ds, vs[1..]).value;
      PayloadRoundTrip(env, vs[0], tail + rest);
      var all := [d.value] + ds;
      assert all[0] == d.value && all[1..] == ds;
      var head := Serialize(env, d.value, vs[0]).value;
      assert (head + tail) + rest == head + (tail + rest);
    }
  }

  // ---------------------------------------------------------------------------------------------
  // Nothing else comes back
  // ---------------------------------------------------------------------------------------------

  /** Deserializers that a header can describe. */
  ghost predicate FromHeader(d: Desc)
    decreases d
  {
    match d
    case TupleD(ds) => 1 <= |ds| <= 25 && AllFromHeader(ds)
    case CustomD(k) => Dispatchable(k)
    case _ => true
  }

  ghost predicate AllFromHeader(ds: seq<Desc>)
    decreases ds
  {
    ds != [] ==> FromHeader(ds[0]) && AllFromHeader(ds[1..])
  }

  lemma {:induction false} ReadHeaderIsFromHeader<X>(env: Env<X>, s: Bytes)
    requires Tagged(env.types)
    ensures var r := GetDeserializer(env, s); r.Some? ==> FromHeader(r.value.0)
    decreases |s|, 0
  {
    if s != [] {
      if 0 < s[0] < 26 {
        ReadHeadersAreFromHeader(env, s[0], s[1..]);
      } else if Dispatch(env.types, s[0]).Some? && Dispatch(env.types, s[0]).value.CustomD? {
        DispatchIff(env.types, Dispatch(env.types, s[0]).value.entry);
      }
    }
  }

  lemma {:induction false} ReadHeadersAreFromHeader<X>(env: Env<X>, n: nat, s: Bytes)
    requires Tagged(env.types)
    ensures var r := GetDeserializers(env, n, s); r.Some? ==> AllFromHeader(r.value.0)
    decreases |s|, 1, n
  {
    if n > 0 && GetDeserializer(env, s).Some? {
      ReadHeaderIsFromHeader(env, s);
      var s1 := GetDeserializer(env, s).value.1;
      ReadHeadersAreFromHeader(env, n - 1, s1);
    }
  }

  /** The conditions of `Fits` that show in a decoded value; the size of an object's bytes does not. */
  ghost predicate Expressible<X>(env: Env<X>, v: Value<X>)
    decreases v
  {
    match v
    case Tuple(vs) => 1 <= |vs| <= 25 && AllExpressible(env, vs)
    case List(_) => false
    case Int(i) => FitsSigned(i, 8)
    case ByteArray(bs) => 2 * |bs| < Power(4)
    case Str(text) => 2 * |env.encodeText(text)| < Power(4)
    case Custom(cls, _) =>
      var k := FindClass(env.types, cls);
      k.Some? && Dispatchable(k.value)
    case _ => true
  }

  ghost predicate AllExpressible<X>(env: Env<X>, vs: seq<Value<X>>)
    decreases vs
  {
    vs != [] ==> Expressible(env, vs[0]) && AllExpressible(env, vs[1..])
  }

  lemma {:induction false} DeserializedIsExpressible<X(!new)>(env: Env<X>, d: Desc, s: Bytes)
    requires InverseCodecs(env) && FromHeader(d)
    ensures var r := Deserialize(env, d, s); r.Some? ==> Expressible(env, r.value.0)
    decreases d
  {
    match d
    case TupleD(ds) => AllDeserializedAreExpressible(env, ds, s);
    case IntegerD => PowerValues();
    case _ =>
  }

  lemma {:induction false} AllDeserializedAreExpressible<X(!new)>(env: Env<X>, ds: seq<Desc>, s: Bytes)
    requires InverseCodecs(env) && AllFromHeader(ds)
    ensures var r := DeserializeAll(env, ds, s); r.Some? ==> AllExpressible(env, r.value.0)
    decreases ds
  {
    if ds != [] && Deserialize(env, ds[0], s).Some? {
      DeserializedIsExpressible(env, ds[0], s);
      AllDeserializedAreExpressible(env, ds[1..], Deserialize(env, ds[0], s).value.1);
    }
  }

  /** A value that can be written and whose normal form can come back fits the format. */
  lemma {:induction false} ExpressibleFits<X>(env: Env<X>, v: Value<X>)
    requires Expressible(env, Normal(v)) && SerializerOf(env, v).Some?
    requires Serialize(env, SerializerOf(env, v).value, v).Some?
    ensures Fits(env, v)
    decreases v
  {
    match v
    case Tuple(vs) => AllExpressibleFit(env, vs);
    case List(vs) => AllExpressibleFit(env, vs);
    case _ =>
  }

  lemma {:induction false} AllExpressibleFit<X>(env: Env<X>, vs: seq<Value<X>>)
    requires AllExpressible(env, Normals(vs)) && SerializersOf(env, vs).Some?
    requires SerializeAll(env, SerializersOf(env, vs).value, vs).Some?
    ensures AllFit(env, vs)
    decreases vs
  {
    if vs != [] {
      ExpressibleFits(env, vs[0]);
      var ds := SerializersOf(env, vs).value;
      assert ds[1..] == SerializersOf(env, vs[1..]).value;
      assert Normals(vs)[1..] == Normals(vs[1..]);
      AllExpressibleFit(env, vs[1..]);
    }
  }

  /** What is written for `v` is read back as `v`, lists as tuples, whatever follows it; exactly the
      written bytes are consumed. */
  ghost predicate RoundTrips<X>(env: Env<X>, v: Value<X>) {
    Encode(env, v).Some? &&
    forall rest :: Decode(env, Encode(env, v).value + rest) == Some((Normal(v), rest))
  }

  /** MAIN: a value makes the round trip if and only if it fits the format. */
  lemma RoundTripIff<X(!new)>(env: Env<X>, v: Value<X>)
    requires InverseCodecs(env)
    ensures RoundTrips(env, v) <==> Fits(env, v)
  {
    if Fits(env, v) {
      FittingRoundTrips(env, v);
    }
    if RoundTrips(env, v) {
      assert Decode(env, Encode(env, v).value + []) == Some((Normal(v), []));
      DecodedIsExpressible(env, Encode(env, v).value + []);
      ExpressibleFits(env, v);
    }
  }

  lemma DecodedIsExpressible<X(!new)>(env: Env<X>, s: Bytes)
    requires InverseCodecs(env)
    ensures var r := Decode(env, s); r.Some? ==> Expressible(env, r.value.0)
  {
    var r := GetDeserializer(env, s);
    if r.Some? {
      ReadHeaderIsFromHeader(env, s);
      DeserializedIsExpressible(env, r.value.0, r.value.1);
    }
  }

  lemma DecodeWritten<X>(env: Env<X>, v: Value<X>, info: Bytes, payload: Bytes, rest: Bytes)
    requires SerializerOf(env, v).Some? && Serialize(env, SerializerOf(env, v).value, v) == Some(payload)
    requires GetDeserializer(env, info + (payload + rest)) == Some((SerializerOf(env, v).value, payload + rest))
    requires ReadsBack(env, SerializerOf(env, v), v, rest)
    ensures Decode(env, (info + payload) + rest) == Some((Normal(v), rest))
  {
    assert (info + payload) + rest == info + (payload + rest);
  }

  lemma FittingRoundTrips<X(!new)>(env: Env<X>, v: Value<X>)
    requires InverseCodecs(env) && Fits(env, v)
    ensures RoundTrips(env, v)
  {
    PayloadRoundTrip(env, v, []);
    HeaderRoundTrip(env, v, []);
    var info, payload := TypeInfo(env, v).value, Serialize(env, SerializerOf(env, v).value, v).value;
    forall rest ensures Decode(env, Encode(env, v).value + rest) == Some((Normal(v), rest)) {
      HeaderRoundTrip(env, v, payload + rest);
      PayloadRoundTrip(env, v, rest);
      DecodeWritten(env, v, info, payload, rest);
    }
  }
}
