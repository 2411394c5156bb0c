/** Iterating over groups of consecutive records with equal keys, and the reducers driven by it. */
module GroupIteration {
  import opened Common

  /** A keyed record: the tuple of key fields and the value. */
  datatype Rec<K, V> = Rec(fields: seq<K>, value: V)

  datatype Group<K, V> = Group(key: seq<K>, vals: seq<V>)

  /** The key positions exist in every record. */
  ghost predicate KeysOk<K, V>(xs: seq<Rec<K, V>>, keys: seq<nat>) {
    forall x, k :: x in xs && k in keys ==> k < |x.fields|
  }

  function Key<K, V>(x: Rec<K, V>, keys: seq<nat>): seq<K>
    requires forall k :: k in keys ==> k < |x.fields|
  {
    seq(|keys|, i requires 0 <= i < |keys| => assert keys[i] in keys; x.fields[keys[i]])
  }

  /** Two records have equal keys exactly when they agree in every key field. */
  lemma SameKeyIff<K, V>(x: Rec<K, V>, y: Rec<K, V>, keys: seq<nat>)
    requires KeysOk([x, y], keys)
    ensures forall k :: k in keys ==> k < |x.fields| && k < |y.fields|
    ensures Key(x, keys) == Key(y, keys) <==> forall k :: k in keys ==> x.fields[k] == y.fields[k]
  {
    assert x in [x, y] && y in [x, y];
    if Key(x, keys) == Key(y, keys) {
      forall k | k in keys ensures x.fields[k] == y.fields[k] {
        var i :| 0 <= i < |keys| && keys[i] == k;
        assert Key(x, keys)[i] == Key(y, keys)[i];
      }
    }
  }

  function Vals<K, V>(xs: seq<Rec<K, V>>): (vs: seq<V>)
    ensures |vs| == |xs|
  {
    seq(|xs|, i requires 0 <= i < |xs| => xs[i].value)
  }

  // ---------------------------------------------------------------------------------------------
  // Runs: the specification
  // ---------------------------------------------------------------------------------------------

  /** How many records at the front of `xs` have the given key. */
  ghost function RunLength<K, V>(key: seq<K>, xs: seq<Rec<K, V>>, keys: seq<nat>): (n: nat)
    requires KeysOk(xs, keys)
    ensures n <= |xs|
  {
    if xs == [] || Key(xs[0], keys) != key then 0 else 1 + RunLength(key, xs[1..], keys)
  }

  /** The maximal runs of equal keys. */
  ghost function Runs<K, V>(xs: seq<Rec<K, V>>, keys: seq<nat>): seq<Group<K, V>>
    requires KeysOk(xs, keys)
    decreases |xs|
  {
    if xs == [] then [] else
    var key := Key(xs[0], keys);
    var n := RunLength(key, xs, keys);
    [Group(key, Vals(xs[..n]))] + Runs(xs[n..], keys)
  }

  ghost function Concat<K, V>(gs: seq<Group<K, V>>): seq<V> {
    if gs == [] then [] else gs[0].vals + Concat(gs[1..])
  }

  lemma {:induction false} RunLengthIsMaximal<K, V>(key: seq<K>, xs: seq<Rec<K, V>>, keys: seq<nat>)
    requires KeysOk(xs, keys)
    ensures var n := RunLength(key, xs, keys);
            && (forall i :: 0 <= i < n ==> Key(xs[i], keys) == key)
            && (n < |xs| ==> Key(xs[n], keys) != key)
  {
    if xs != [] && Key(xs[0], keys) == key {
      RunLengthIsMaximal(key, xs[1..], keys);
      forall i | 0 <= i < RunLength(key, xs, keys) ensures Key(xs[i], keys) == key {
        assert i > 0 ==> xs[i] == xs[1..][i - 1];
      }
    }
  }

  /** Taking the first record off a run takes its value off the front. */
  lemma RunAdvances<K, V>(key: seq<K>, xs: seq<Rec<K, V>>, keys: seq<nat>)
    requires KeysOk(xs, keys) && xs != [] && RunLength(key, xs, keys) > 0
    ensures KeysOk(xs[1..], keys) && RunLength(key, xs, keys) == 1 + RunLength(key, xs[1..], keys)
    ensures var vs := Vals(xs[..RunLength(key, xs, keys)]);
            vs[0] == xs[0].value && vs[1..] == Vals(xs[1..][..RunLength(key, xs[1..], keys)])
  {
  }

  /** The runs hold every value once, in input order. */
  lemma {:induction false} RunsConserve<K, V>(xs: seq<Rec<K, V>>, keys: seq<nat>)
    requires KeysOk(xs, keys)
    ensures Concat(Runs(xs, keys)) == Vals(xs)
    decreases |xs|
  {
    if xs != [] {
      var n := RunLength(Key(xs[0], keys), xs, keys);
      RunsConserve(xs[n..], keys);
      assert xs == xs[..n] + xs[n..];
      assert Vals(xs) == Vals(xs[..n]) + Vals(xs[n..]);
    }
  }

  /** No group is empty and neighbours differ in key. */
  ghost predicate Separated<K, V>(gs: seq<Group<K, V>>) {
    gs != [] ==> gs[0].vals != [] && (|gs| > 1 ==> gs[0].key != gs[1].key) && Separated(gs[1..])
  }

  lemma {:induction false} RunsAreSeparated<K, V>(xs: seq<Rec<K, V>>, keys: seq<nat>)
    requires KeysOk(xs, keys)
    ensures Separated(Runs(xs, keys))
    decreases |xs|
  {
    if xs != [] {
      var key := Key(xs[0], keys);
      var n := RunLength(key, xs, keys);
      RunLengthIsMaximal(key, xs, keys);
      RunsAreSeparated(xs[n..], keys);
      assert n < |xs| ==> Runs(xs[n..], keys)[0].key == Key(xs[n], keys);
    }
  }

  // ---------------------------------------------------------------------------------------------
  // The input
  // ---------------------------------------------------------------------------------------------

  /** The stream of incoming records. */
  class Source<T> {
    var rest: seq<T>

    constructor (records: seq<T>)
      ensures rest == records
    {
      rest := records;
    }

    method HasNext() returns (r: bool)
      ensures r <==> rest != []
    {
      r := rest != [];
    }

    method Next() returns (x: T)
      requires rest != []
      modifies this
      ensures x == old(rest)[0] && rest == old(rest)[1..]
    {
      x := rest[0];
      rest := rest[1..];
    }
  }

  class GroupIterator<K(==), V> {
    const input: Source<Rec<K, V>>
    const keys: seq<nat>
    var cur: Option<Rec<K, V>>
    var key: seq<K>
    var empty: bool

    constructor (input: Source<Rec<K, V>>, keys: seq<nat>)
      ensures this.input == input && this.keys == keys && cur == None
    {
      this.input, this.keys := input, keys;
      cur, key, empty := None, [], false;
    }

    /** The records that were not delivered yet. */
    ghost function Pending(): seq<Rec<K, V>>
      reads this, input
    {
      if cur.Some? then [cur.value] + input.rest else []
    }

    ghost predicate Valid()
      reads this, input
    {
      LookaheadOk() == true  // compared with `true` so that the verifier treats it as one fact
    }

    /** The looked-ahead record is the first pending one, and `empty` tells that it does not belong
        to the current group. */
    ghost predicate LookaheadOk()
      reads this, input
    {
      && (cur.None? ==> input.rest == [])
      && KeysOk(Pending(), keys)
      && (empty <==> RunLength(key, Pending(), keys) == 0)
    }

    /** The values that are left in the current group. */
    ghost function Current(): seq<V>
      requires Valid()
      reads this, input
    {
      Vals(Pending()[..RunLength(key, Pending(), keys)])
    }

    method Init()
      requires KeysOk(input.rest, keys) && cur == None
      modifies this, input
      ensures Valid() && Pending() == old(input.rest)
    {
      var more := input.HasNext();
      if more {
        empty := false;
        var x := input.Next();
        cur := Some(x);
        key := Key(x, keys);
      } else {
        empty := true;
      }
    }

    method HasNext() returns (r: bool)
      requires Valid()
      ensures r <==> Current() != []
    {
      if empty {
        return false;
      }
      return key == Key(cur.value, keys);
    }

    /** The next value of the current group, or nothing when the group is used up. */
    method Next() returns (v: Option<V>)
      requires Valid()
      modifies this, input
      ensures Valid() && key == old(key)
      ensures v.Some? <==> old(Current()) != []
      ensures v.Some? ==> v.value == old(Current())[0] && Current() == old(Current())[1..]
      ensures v.Some? ==> Pending() == old(Pending())[1..]
      ensures v.None? ==> Pending() == old(Pending())
    {
      var more := HasNext();
      if !more {
        return None;
      }
      var tmp := cur.value;
      ghost var before := Pending();
      RunAdvances(key, before, keys);
      assert before[1..] == input.rest;
      var moreRecords := input.HasNext();
      if moreRecords {
        var x := input.Next();
        cur := Some(x);
        assert Pending() == before[1..];
        if key != Key(x, keys) {
          empty := true;
        }
      } else {
        cur := None;
        empty := true;
      }
      return Some(tmp.value);
    }

    method HasGroup() returns (r: bool)
      requires Valid()
      ensures r <==> Pending() != []
    {
      r := cur.Some?;
    }

    /** Makes the group of the next pending record the current one. */
    method NextGroup()
      requires Valid() && Pending() != []
      modifies this
      ensures Valid() && Pending() == old(Pending()) && input.rest == old(input.rest)
      ensures key == Key(Pending()[0], keys) && Current() != []
    {
      assert cur.value in Pending();
      key := Key(cur.value, keys);
      empty := false;
    }
  }
}
