/** Co-grouping two inputs: a merge of the groups of both sides, in key order. */
module CoGroup {
  import opened Common
  import opened GroupIteration
  import opened Reducers

  // ---------------------------------------------------------------------------------------------
  // The order of keys
  // ---------------------------------------------------------------------------------------------

  /** `lt` orders the values of one key field. */
  ghost predicate StrictOrder<K(!new)>(lt: (K, K) -> bool) {
    && (forall a, b :: lt(a, b) || a == b || lt(b, a))
    && (forall a, b :: lt(a, b) ==> a != b && !lt(b, a))
    && (forall a, b, c :: lt(a, b) && lt(b, c) ==> lt(a, c))
  }

  /** Lists of key fields are compared at the first position where they differ. */
  predicate Less<K(==)>(lt: (K, K) -> bool, a: seq<K>, b: seq<K>) {
    if a == [] || b == [] then a == [] && b != []
    else if a[0] == b[0] then Less(lt, a[1..], b[1..])
    else lt(a[0], b[0])
  }

  /** `a` and `b` agree before position `i`, and there `a` ends or has the smaller field. */
  ghost predicate SmallerAt<K>(lt: (K, K) -> bool, a: seq<K>, b: seq<K>, i: nat) {
    && i <= |a| && i < |b| && a[..i] == b[..i]
    && (i < |a| ==> a[i] != b[i] && lt(a[i], b[i]))
  }

  /** MAIN: keys compare at the first position where they differ, by the comparison of the key fields, and a
      key comes before its extensions; this is so for every comparison of fields. */
  lemma {:induction false} LessIff<K>(lt: (K, K) -> bool, a: seq<K>, b: seq<K>)
    ensures Less(lt, a, b) <==> exists i: nat :: SmallerAt(lt, a, b, i)
  {
    if a == [] || b == [] {
      assert b != [] ==> SmallerAt(lt, a, b, 0);
    } else if a[0] == b[0] {
      LessIff(lt, a[1..], b[1..]);
      if i: nat :| SmallerAt(lt, a[1..], b[1..], i) {
        assert a == [a[0]] + a[1..] && b == [b[0]] + b[1..];
        assert a[..i + 1] == [a[0]] + a[1..][..i];
        assert b[..i + 1] == [b[0]] + b[1..][..i];
        assert SmallerAt(lt, a, b, i + 1);
      }
      if i: nat :| SmallerAt(lt, a, b, i) {
        SmallerInTail(lt, a, b, i);
      }
    } else {
      assert lt(a[0], b[0]) ==> SmallerAt(lt, a, b, 0);
      if i: nat :| SmallerAt(lt, a, b, i) {
        assert i > 0 ==> a[..i][0] == b[..i][0];
      }
    }
  }

  lemma SmallerInTail<K>(lt: (K, K) -> bool, a: seq<K>, b: seq<K>, i: nat)
    requires a != [] && b != [] && a[0] == b[0] && SmallerAt(lt, a, b, i)
    ensures i > 0 && SmallerAt(lt, a[1..], b[1..], i - 1)
  {
    assert a[1..][..i - 1] == a[..i][1..] && b[1..][..i - 1] == b[..i][1..];
  }

  lemma {:induction false} LessTotal<K(!new)>(lt: (K, K) -> bool, a: seq<K>, b: seq<K>)
    requires StrictOrder(lt)
    ensures Less(lt, a, b) || a == b || Less(lt, b, a)
    ensures !(Less(lt, a, b) && Less(lt, b, a)) && (a == b ==> !Less(lt, a, b))
  {
    if a != [] && b != [] {
      LessTotal(lt, a[1..], b[1..]);
      assert a[0] == b[0] && a[1..] == b[1..] ==> a == [a[0]] + a[1..] == [b[0]] + b[1..] == b;
    }
  }

  lemma {:induction false} LessTransitive<K(!new)>(lt: (K, K) -> bool, a: seq<K>, b: seq<K>, c: seq<K>)
    requires StrictOrder(lt) && Less(lt, a, b) && Less(lt, b, c)
    ensures Less(lt, a, c)
  {
    if a != [] {
      if a[0] == b[0] && b[0] == c[0] {
        LessTransitive(lt, a[1..], b[1..], c[1..]);
      } else if a[0] != b[0] && b[0] != c[0] {
        assert lt(a[0], b[0]) && lt(b[0], c[0]);
      }
    }
  }

  // ---------------------------------------------------------------------------------------------
  // The merge: the specification
  // ---------------------------------------------------------------------------------------------

  /** One call of the co-group function: the key, and the values presented from each side. */
  datatype Call<K, V1, V2> = Call(key: seq<K>, vals1: seq<V1>, vals2: seq<V2>)

  function Merge<K(==), V1, V2>(lt: (K, K) -> bool, r1: seq<Group<K, V1>>, r2: seq<Group<K, V2>>): seq<Call<K, V1, V2>>
    decreases |r1| + |r2|
  {
    if r1 == [] && r2 == [] then []
    else if r1 == [] then [Call(r2[0].key, [], r2[0].vals)] + Merge(lt, r1, r2[1..])
    else if r2 == [] then [Call(r1[0].key, r1[0].vals, [])] + Merge(lt, r1[1..], r2)
    else if r1[0].key == r2[0].key then [Call(r1[0].key, r1[0].vals, r2[0].vals)] + Merge(lt, r1[1..], r2[1..])
    else if Less(lt, r1[0].key, r2[0].key) then [Call(r1[0].key, r1[0].vals, [])] + Merge(lt, r1[1..], r2)
    else [Call(r2[0].key, [], r2[0].vals)] + Merge(lt, r1, r2[1..])
  }

  // ---------------------------------------------------------------------------------------------
  // Conservation: no order needed
  // ---------------------------------------------------------------------------------------------

  function Concat1<K, V1, V2>(cs: seq<Call<K, V1, V2>>): seq<V1> {
    if cs == [] then [] else cs[0].vals1 + Concat1(cs[1..])
  }

  function Concat2<K, V1, V2>(cs: seq<Call<K, V1, V2>>): seq<V2> {
    if cs == [] then [] else cs[0].vals2 + Concat2(cs[1..])
  }

  /** Whatever the groups, the calls present every value of each side once, in input order. */
  lemma {:induction false} MergeConserves<K, V1, V2>(lt: (K, K) -> bool, r1: seq<Group<K, V1>>, r2: seq<Group<K, V2>>)
    ensures Concat1(Merge(lt, r1, r2)) == Concat(r1) && Concat2(Merge(lt, r1, r2)) == Concat(r2)
    decreases |r1| + |r2|
  {
    if r1 == [] && r2 == [] {
    } else if r1 == [] {
      MergeConserves(lt, r1, r2[1..]);
    } else if r2 == [] {
      MergeConserves(lt, r1[1..], r2);
    } else if r1[0].key == r2[0].key {
      MergeConserves(lt, r1[1..], r2[1..]);
    } else if Less(lt, r1[0].key, r2[0].key) {
      MergeConserves(lt, r1[1..], r2);
    } else {
      MergeConserves(lt, r1, r2[1..]);
    }
  }

  // ---------------------------------------------------------------------------------------------
  // Full outer merge of sorted inputs
  // ---------------------------------------------------------------------------------------------

  /** Keys increase strictly from each group to the next, starting above `low` if given. */
  ghost predicate Ascending<K, V>(lt: (K, K) -> bool, gs: seq<Group<K, V>>, low: Option<seq<K>>) {
    gs != [] ==> (low.Some? ==> Less(lt, low.value, gs[0].key)) && Ascending(lt, gs[1..], Some(gs[0].key))
  }

  ghost predicate CallsAscending<K, V1, V2>(lt: (K, K) -> bool, cs: seq<Call<K, V1, V2>>, low: Option<seq<K>>) {
    cs != [] ==> (low.Some? ==> Less(lt, low.value, cs[0].key)) && CallsAscending(lt, cs[1..], Some(cs[0].key))
  }

  /** The values a side has for a key. */
  ghost function ValuesFor<K, V>(gs: seq<Group<K, V>>, key: seq<K>): seq<V> {
    if gs == [] then [] else if gs[0].key == key then gs[0].vals else ValuesFor(gs[1..], key)
  }

  ghost predicate HasKey<K, V>(gs: seq<Group<K, V>>, key: seq<K>) {
    exists i :: 0 <= i < |gs| && gs[i].key == key
  }

  /** Calls with a given key. */
  ghost function CallsFor<K, V1, V2>(cs: seq<Call<K, V1, V2>>, key: seq<K>): seq<Call<K, V1, V2>> {
    if cs == [] then []
    else if cs[0].key == key then [cs[0]] + CallsFor(cs[1..], key)
    else CallsFor(cs[1..], key)
  }

  lemma {:induction false} LowerBound<K(!new), V>(lt: (K, K) -> bool, gs: seq<Group<K, V>>, low: seq<K>, key: seq<K>)
    requires StrictOrder(lt) && Ascending(lt, gs, Some(low)) && (key == low || Less(lt, key, low))
    ensures ValuesFor(gs, key) == [] && !HasKey(gs, key)
  {
    if gs != [] {
      if key != low {
        LessTransitive(lt, key, low, gs[0].key);
      }
      LessTotal(lt, key, gs[0].key);
      LowerBound(lt, gs[1..], gs[0].key, key);
      forall i | 0 <= i < |gs| ensures gs[i].key != key {
        assert i > 0 ==> gs[i] == gs[1..][i - 1];
      }
    }
  }

  /** Where the next call comes from: the side with the smaller key, or both. */
  lemma {:induction false} MergeAscends<K(!new), V1, V2>(lt: (K, K) -> bool, r1: seq<Group<K, V1>>,
                                                         r2: seq<Group<K, V2>>, low: Option<seq<K>>)
    requires StrictOrder(lt) && Ascending(lt, r1, low) && Ascending(lt, r2, low)
    ensures CallsAscending(lt, Merge(lt, r1, r2), low)
    decreases |r1| + |r2|
  {
    if r1 == [] && r2 == [] {
    } else if r1 == [] {
      MergeAscends(lt, r1, r2[1..], Some(r2[0].key));
    } else if r2 == [] {
      MergeAscends(lt, r1[1..], r2, Some(r1[0].key));
    } else if r1[0].key == r2[0].key {
      MergeAscends(lt, r1[1..], r2[1..], Some(r1[0].key));
    } else if Less(lt, r1[0].key, r2[0].key) {
      assert Ascending(lt, r2, Some(r1[0].key));
      MergeAscends(lt, r1[1..], r2, Some(r1[0].key));
    } else {
      LessTotal(lt, r1[0].key, r2[0].key);
      assert Ascending(lt, r1, Some(r2[0].key));
      MergeAscends(lt, r1, r2[1..], Some(r2[0].key));
    }
  }

  /** For each key of either side there is exactly one call, and it presents exactly what each side
      has for the key; for other keys there is none. */
  lemma {:induction false} MergeIsOuterJoin<K(!new), V1, V2>(lt: (K, K) -> bool, r1: seq<Group<K, V1>>,
                                                             r2: seq<Group<K, V2>>, low: Option<seq<K>>, key: seq<K>)
    requires StrictOrder(lt) && Ascending(lt, r1, low) && Ascending(lt, r2, low)
    ensures CallsFor(Merge(lt, r1, r2), key) ==
      if HasKey(r1, key) || HasKey(r2, key) then [Call(key, ValuesFor(r1, key), ValuesFor(r2, key))] else []
    decreases |r1| + |r2|
  {
    if r1 == [] && r2 == [] {
    } else if r2 == [] || (r1 != [] && Less(lt, r1[0].key, r2[0].key)) {
      TakeFirst(lt, r1, r2, low, key);
    } else if r1 == [] || r1[0].key != r2[0].key {
      TakeSecond(lt, r1, r2, low, key);
    } else {
      HasKeyHead(r1, key);
      HasKeyHead(r2, key);
      if key == r1[0].key {
        LowerBound(lt, r1[1..], key, key);
        LowerBound(lt, r2[1..], key, key);
      }
      MergeIsOuterJoin(lt, r1[1..], r2[1..], Some(r1[0].key), key);
    }
  }

  lemma HasKeyHead<K, V>(gs: seq<Group<K, V>>, key: seq<K>)
    requires gs != []
    ensures HasKey(gs, key) <==> gs[0].key == key || HasKey(gs[1..], key)
  {
    if HasKey(gs[1..], key) {
      var i :| 0 <= i < |gs[1..]| && gs[1..][i].key == key;
      assert gs[i + 1].key == key;
    }
    if HasKey(gs, key) && gs[0].key != key {
      var i :| 0 <= i < |gs| && gs[i].key == key;
      assert gs[1..][i - 1].key == key;
    }
  }

  lemma TakeFirst<K(!new), V1, V2>(lt: (K, K) -> bool, r1: seq<Group<K, V1>>, r2: seq<Group<K, V2>>,
                                   low: Option<seq<K>>, key: seq<K>)
    requires StrictOrder(lt) && Ascending(lt, r1, low) && Ascending(lt, r2, low)
    requires r1 != [] && (r2 == [] || Less(lt, r1[0].key, r2[0].key))
    ensures CallsFor(Merge(lt, r1, r2), key) ==
      if HasKey(r1, key) || HasKey(r2, key) then [Call(key, ValuesFor(r1, key), ValuesFor(r2, key))] else []
    decreases |r1| + |r2|, 0
  {
    LessTotal(lt, r1[0].key, if r2 == [] then [] else r2[0].key);
    HasKeyHead(r1, key);
    assert Ascending(lt, r2, Some(r1[0].key));
    if key == r1[0].key {
      LowerBound(lt, r1[1..], key, key);
      LowerBound(lt, r2, key, key);
    }
    MergeIsOuterJoin(lt, r1[1..], r2, Some(r1[0].key), key);
  }

  lemma TakeSecond<K(!new), V1, V2>(lt: (K, K) -> bool, r1: seq<Group<K, V1>>, r2: seq<Group<K, V2>>,
                                    low: Option<seq<K>>, key: seq<K>)
    requires StrictOrder(lt) && Ascending(lt, r1, low) && Ascending(lt, r2, low)
    requires r2 != [] && (r1 == [] || (r1[0].key != r2[0].key && !Less(lt, r1[0].key, r2[0].key)))
    ensures CallsFor(Merge(lt, r1, r2), key) ==
      if HasKey(r1, key) || HasKey(r2, key) then [Call(key, ValuesFor(r1, key), ValuesFor(r2, key))] else []
    decreases |r1| + |r2|, 0
  {
    LessTotal(lt, if r1 == [] then [] else r1[0].key, r2[0].key);
    HasKeyHead(r2, key);
    assert Ascending(lt, r1, Some(r2[0].key));
    if key == r2[0].key {
      LowerBound(lt, r1, key, key);
      LowerBound(lt, r2[1..], key, key);
    }
    MergeIsOuterJoin(lt, r1, r2[1..], Some(r2[0].key), key);
  }

  // ---------------------------------------------------------------------------------------------
  // Groups of a sorted input
  // ---------------------------------------------------------------------------------------------

  /** No record has a smaller key than an earlier one. */
  ghost predicate Sorted<K, V>(lt: (K, K) -> bool, xs: seq<Rec<K, V>>, keys: seq<nat>)
    requires KeysOk(xs, keys)
  {
    forall i, j :: 0 <= i < j < |xs| ==> !Less(lt, Key(xs[j], keys), Key(xs[i], keys))
  }

  /** The values of all records with the given key. */
  ghost function ValuesWith<K, V>(xs: seq<Rec<K, V>>, keys: seq<nat>, key: seq<K>): seq<V>
    requires KeysOk(xs, keys)
  {
    if xs == [] then []
    else if Key(xs[0], keys) == key then [xs[0].value] + ValuesWith(xs[1..], keys, key)
    else ValuesWith(xs[1..], keys, key)
  }

  lemma {:induction false} ValuesWithConcat<K, V>(xs: seq<Rec<K, V>>, ys: seq<Rec<K, V>>, keys: seq<nat>, key: seq<K>)
    requires KeysOk(xs, keys) && KeysOk(ys, keys) && KeysOk(xs + ys, keys)
    ensures ValuesWith(xs + ys, keys, key) == ValuesWith(xs, keys, key) + ValuesWith(ys, keys, key)
  {
    if xs == [] {
      assert xs + ys == ys;
    } else {
      assert (xs + ys)[1..] == xs[1..] + ys;
      ValuesWithConcat(xs[1..], ys, keys, key);
    }
  }

  lemma {:induction false} ValuesWithOneKey<K, V>(xs: seq<Rec<K, V>>, keys: seq<nat>, runKey: seq<K>, key: seq<K>)
    requires KeysOk(xs, keys) && forall i :: 0 <= i < |xs| ==> Key(xs[i], keys) == runKey
    ensures ValuesWith(xs, keys, key) == if key == runKey then Vals(xs) else []
  {
    if xs != [] {
      ValuesWithOneKey(xs[1..], keys, runKey, key);
      assert Vals(xs) == [xs[0].value] + Vals(xs[1..]);
    }
  }

  lemma {:induction false} NoValuesBelow<K(!new), V>(lt: (K, K) -> bool, xs: seq<Rec<K, V>>, keys: seq<nat>,
                                                     key: seq<K>)
    requires StrictOrder(lt) && KeysOk(xs, keys) && forall i :: 0 <= i < |xs| ==> Less(lt, key, Key(xs[i], keys))
    ensures ValuesWith(xs, keys, key) == []
  {
    if xs != [] {
      LessTotal(lt, key, Key(xs[0], keys));
      NoValuesBelow(lt, xs[1..], keys, key);
    }
  }

  /** After the first run of a sorted input all keys are larger. */
  lemma RestIsLarger<K(!new), V>(lt: (K, K) -> bool, xs: seq<Rec<K, V>>, keys: seq<nat>)
    requires StrictOrder(lt) && KeysOk(xs, keys) && Sorted(lt, xs, keys) && xs != []
    ensures var key := Key(xs[0], keys); var n := RunLength(key, xs, keys);
            && 0 < n && KeysOk(xs[n..], keys) && Sorted(lt, xs[n..], keys)
            && (forall i :: 0 <= i < |xs[n..]| ==> Less(lt, key, Key(xs[n..][i], keys)))
  {
    var key := Key(xs[0], keys);
    var n := RunLength(key, xs, keys);
    RunLengthIsMaximal(key, xs, keys);
    forall i | 0 <= i < |xs[n..]| ensures Less(lt, key, Key(xs[n..][i], keys)) {
      assert xs[n..][i] == xs[n + i];
      LessTotal(lt, key, Key(xs[n], keys));
      if i > 0 {
        LessTotal(lt, Key(xs[n], keys), Key(xs[n + i], keys));
        if Less(lt, Key(xs[n], keys), Key(xs[n + i], keys)) {
          LessTransitive(lt, key, Key(xs[n], keys), Key(xs[n + i], keys));
        }
      }
    }
  }

  lemma {:induction false} RunsAscend<K(!new), V>(lt: (K, K) -> bool, xs: seq<Rec<K, V>>, keys: seq<nat>,
                                                  low: Option<seq<K>>)
    requires StrictOrder(lt) && KeysOk(xs, keys) && Sorted(lt, xs, keys)
    requires low.Some? && xs != [] ==> Less(lt, low.value, Key(xs[0], keys))
    ensures Ascending(lt, Runs(xs, keys), low)
    decreases |xs|
  {
    if xs != [] {
      RestIsLarger(lt, xs, keys);
      var key := Key(xs[0], keys);
      RunsAscend(lt, xs[RunLength(key, xs, keys)..], keys, Some(key));
    }
  }

  /** The values with the key of the first run are those of the run. */
  lemma FirstRunIsComplete<K(!new), V>(lt: (K, K) -> bool, xs: seq<Rec<K, V>>, keys: seq<nat>, key: seq<K>)
    requires StrictOrder(lt) && KeysOk(xs, keys) && Sorted(lt, xs, keys) && xs != []
    ensures var first := Key(xs[0], keys); var n := RunLength(first, xs, keys);
            && 0 < n && KeysOk(xs[n..], keys) && Sorted(lt, xs[n..], keys)
            && ValuesWith(xs, keys, key) == if key == first then Vals(xs[..n]) else ValuesWith(xs[n..], keys, key)
  {
    var first := Key(xs[0], keys);
    var n := RunLength(first, xs, keys);
    RestIsLarger(lt, xs, keys);
    RunLengthIsMaximal(first, xs, keys);
    assert xs == xs[..n] + xs[n..];
    ValuesWithConcat(xs[..n], xs[n..], keys, key);
    ValuesWithOneKey(xs[..n], keys, first, key);
    if key == first {
      NoValuesBelow(lt, xs[n..], keys, key);
    }
  }

  /** In a sorted input the group of a key holds all records with that key. */
  lemma {:induction false} GroupsAreComplete<K(!new), V>(lt: (K, K) -> bool, xs: seq<Rec<K, V>>, keys: seq<nat>,
                                                         key: seq<K>)
    requires StrictOrder(lt) && KeysOk(xs, keys) && Sorted(lt, xs, keys)
    ensures ValuesFor(Runs(xs, keys), key) == ValuesWith(xs, keys, key)
    ensures HasKey(Runs(xs, keys), key) <==> ValuesWith(xs, keys, key) != []
    decreases |xs|
  {
    if xs != [] {
      var n := RunLength(Key(xs[0], keys), xs, keys);
      FirstRunIsComplete(lt, xs, keys, key);
      GroupsAreComplete(lt, xs[n..], keys, key);
      HasKeyHead(Runs(xs, keys), key);
    }
  }

  /** MAIN: for sorted inputs the calls are a full outer merge. Keys increase strictly from call to
      call; a key that occurs on either side gets exactly one call, with exactly the values each side
      has for it (none if the side lacks it); no other key gets a call. */
  lemma CoGroupIsFullOuterMerge<K(!new), V1, V2>(lt: (K, K) -> bool, xs: seq<Rec<K, V1>>, keys1: seq<nat>,
                                                 ys: seq<Rec<K, V2>>, keys2: seq<nat>)
    requires StrictOrder(lt) && KeysOk(xs, keys1) && Sorted(lt, xs, keys1) && KeysOk(ys, keys2) && Sorted(lt, ys, keys2)
    ensures var calls := Merge(lt, Runs(xs, keys1), Runs(ys, keys2));
            && CallsAscending(lt, calls, None)
            && (forall key {:trigger CallsFor(calls, key)} ::
                 var vs, ws := ValuesWith(xs, keys1, key), ValuesWith(ys, keys2, key);
                 CallsFor(calls, key) == if vs != [] || ws != [] then [Call(key, vs, ws)] else [])
  {
    var r1, r2 := Runs(xs, keys1), Runs(ys, keys2);
    RunsAscend(lt, xs, keys1, None);
    RunsAscend(lt, ys, keys2, None);
    MergeAscends(lt, r1, r2, None);
    forall key
      ensures var vs, ws := ValuesWith(xs, keys1, key), ValuesWith(ys, keys2, key);
              CallsFor(Merge(lt, r1, r2), key) == if vs != [] || ws != [] then [Call(key, vs, ws)] else []
    {
      MergeIsOuterJoin(lt, r1, r2, None, key);
      GroupsAreComplete(lt, xs, keys1, key);
      GroupsAreComplete(lt, ys, keys2, key);
    }
  }

  // ---------------------------------------------------------------------------------------------
  // One key field, without the order on keys
  // ---------------------------------------------------------------------------------------------

  /** The field at position `k` never decreases. */
  ghost predicate NeverDecreases<K, V>(lt: (K, K) -> bool, xs: seq<Rec<K, V>>, k: nat)
    requires forall x :: x in xs ==> k < |x.fields|
  {
    forall i, j :: 0 <= i < j < |xs| ==> !lt(xs[j].fields[k], xs[i].fields[k])
  }

  /** The values of the records with `f` at position `k`, in order. */
  ghost function ValuesAt<K, V>(xs: seq<Rec<K, V>>, k: nat, f: K): seq<V>
    requires forall x :: x in xs ==> k < |x.fields|
  {
    if xs == [] then []
    else (if xs[0].fields[k] == f then [xs[0].value] else []) + ValuesAt(xs[1..], k, f)
  }

  lemma OneField<K, V>(x: Rec<K, V>, k: nat)
    requires k < |x.fields|
    ensures Key(x, [k]) == [x.fields[k]]
  {
  }

  lemma {:induction false} ValuesAtIsValuesWith<K, V>(xs: seq<Rec<K, V>>, k: nat, f: K)
    requires forall x :: x in xs ==> k < |x.fields|
    ensures KeysOk(xs, [k]) && ValuesWith(xs, [k], [f]) == ValuesAt(xs, k, f)
  {
    if xs != [] {
      ValuesAtIsValuesWith(xs[1..], k, f);
      OneField(xs[0], k);
    }
  }

  lemma {:induction false} OtherKeysHaveNoValues<K, V>(xs: seq<Rec<K, V>>, k: nat, key: seq<K>)
    requires KeysOk(xs, [k]) && |key| != 1
    ensures ValuesWith(xs, [k], key) == []
  {
    if xs != [] {
      OtherKeysHaveNoValues(xs[1..], k, key);
    }
  }

  lemma SortedByField<K(!new), V>(lt: (K, K) -> bool, xs: seq<Rec<K, V>>, k: nat)
    requires StrictOrder(lt) && (forall x :: x in xs ==> k < |x.fields|) && NeverDecreases(lt, xs, k)
    ensures KeysOk(xs, [k]) && Sorted(lt, xs, [k])
  {
    forall i, j | 0 <= i < j < |xs| ensures !Less(lt, Key(xs[j], [k]), Key(xs[i], [k])) {
      assert xs[i] in xs && xs[j] in xs;
      OneField(xs[i], k);
      OneField(xs[j], k);
    }
  }

  lemma {:induction false} AscendingCalls<K(!new), V1, V2>(lt: (K, K) -> bool, cs: seq<Call<K, V1, V2>>,
                                                           low: Option<seq<K>>, i: nat)
    requires StrictOrder(lt) && CallsAscending(lt, cs, low) && i < |cs|
    ensures low.Some? ==> Less(lt, low.value, cs[i].key)
    ensures forall j :: i < j < |cs| ==> Less(lt, cs[i].key, cs[j].key)
    decreases |cs|
  {
    if i > 0 {
      AscendingCalls(lt, cs[1..], Some(cs[0].key), i - 1);
      if low.Some? {
        LessTransitive(lt, low.value, cs[0].key, cs[i].key);
      }
      assert forall j :: i < j < |cs| ==> cs[1..][j - 1] == cs[j];
    } else {
      forall j | 0 < j < |cs| ensures Less(lt, cs[0].key, cs[j].key) {
        AscendingCalls(lt, cs[1..], Some(cs[0].key), j - 1);
      }
    }
  }

  lemma {:induction false} CallIsFound<K, V1, V2>(cs: seq<Call<K, V1, V2>>, i: nat)
    requires i < |cs|
    ensures cs[i] in CallsFor(cs, cs[i].key)
  {
    if i > 0 {
      CallIsFound(cs[1..], i - 1);
    }
  }

  lemma {:induction false} FoundCall<K, V1, V2>(cs: seq<Call<K, V1, V2>>, key: seq<K>) returns (i: nat)
    requires CallsFor(cs, key) != []
    ensures i < |cs| && cs[i] == CallsFor(cs, key)[0] && cs[i].key == key
  {
    if cs[0].key == key {
      i := 0;
    } else {
      i := FoundCall(cs[1..], key);
      i := i + 1;
    }
  }

  /** A call for one field, with the values of either side for it. */
  ghost predicate FieldCall<K, V1, V2>(call: Call<K, V1, V2>, xs: seq<Rec<K, V1>>, k1: nat,
                                       ys: seq<Rec<K, V2>>, k2: nat)
    requires (forall x :: x in xs ==> k1 < |x.fields|) && (forall y :: y in ys ==> k2 < |y.fields|)
  {
    && |call.key| == 1 && (call.vals1 != [] || call.vals2 != [])
    && call.vals1 == ValuesAt(xs, k1, call.key[0]) && call.vals2 == ValuesAt(ys, k2, call.key[0])
  }

  lemma CallHasField<K, V1, V2>(call: Call<K, V1, V2>, calls: seq<Call<K, V1, V2>>, xs: seq<Rec<K, V1>>, k1: nat,
                                ys: seq<Rec<K, V2>>, k2: nat)
    requires (forall x :: x in xs ==> k1 < |x.fields|) && (forall y :: y in ys ==> k2 < |y.fields|)
    requires KeysOk(xs, [k1]) && KeysOk(ys, [k2]) && call in CallsFor(calls, call.key)
    requires var vs, ws := ValuesWith(xs, [k1], call.key), ValuesWith(ys, [k2], call.key);
             CallsFor(calls, call.key) == if vs != [] || ws != [] then [Call(call.key, vs, ws)] else []
    ensures FieldCall(call, xs, k1, ys, k2)
  {
    if |call.key| == 1 {
      assert call.key == [call.key[0]];
      ValuesAtIsValuesWith(xs, k1, call.key[0]);
      ValuesAtIsValuesWith(ys, k2, call.key[0]);
    } else {
      OtherKeysHaveNoValues(xs, k1, call.key);
      OtherKeysHaveNoValues(ys, k2, call.key);
    }
  }

  /** The calls are one for every field of a record of either side. */
  ghost predicate OneCallPerField<K(!new), V1, V2>(calls: seq<Call<K, V1, V2>>, xs: seq<Rec<K, V1>>, k1: nat,
                                                   ys: seq<Rec<K, V2>>, k2: nat)
    requires (forall x :: x in xs ==> k1 < |x.fields|) && (forall y :: y in ys ==> k2 < |y.fields|)
  {
    && (forall i :: 0 <= i < |calls| ==> FieldCall(calls[i], xs, k1, ys, k2))
    && (forall f {:trigger ValuesAt(xs, k1, f)} {:trigger ValuesAt(ys, k2, f)} ::
          ValuesAt(xs, k1, f) != [] || ValuesAt(ys, k2, f) != [] ==>
            exists i :: 0 <= i < |calls| && calls[i].key == [f])
  }

  lemma FieldsHaveCalls<K(!new), V1, V2>(calls: seq<Call<K, V1, V2>>, xs: seq<Rec<K, V1>>, k1: nat,
                                         ys: seq<Rec<K, V2>>, k2: nat)
    requires (forall x :: x in xs ==> k1 < |x.fields|) && (forall y :: y in ys ==> k2 < |y.fields|)
    requires KeysOk(xs, [k1]) && KeysOk(ys, [k2])
    requires forall key {:trigger CallsFor(calls, key)} ::
               var vs, ws := ValuesWith(xs, [k1], key), ValuesWith(ys, [k2], key);
               CallsFor(calls, key) == if vs != [] || ws != [] then [Call(key, vs, ws)] else []
    ensures OneCallPerField(calls, xs, k1, ys, k2)
  {
    forall i | 0 <= i < |calls| ensures FieldCall(calls[i], xs, k1, ys, k2) {
      CallIsFound(calls, i);
      CallHasField(calls[i], calls, xs, k1, ys, k2);
    }
    forall f | ValuesAt(xs, k1, f) != [] || ValuesAt(ys, k2, f) != []
      ensures exists i :: 0 <= i < |calls| && calls[i].key == [f]
    {
      ValuesAtIsValuesWith(xs, k1, f);
      ValuesAtIsValuesWith(ys, k2, f);
      var i := FoundCall(calls, [f]);
    }
  }

  lemma FieldsIncrease<K(!new), V1, V2>(lt: (K, K) -> bool, calls: seq<Call<K, V1, V2>>, i: nat, j: nat)
    requires StrictOrder(lt) && CallsAscending(lt, calls, None) && i < j < |calls|
    requires |calls[i].key| == 1 && |calls[j].key| == 1
    ensures lt(calls[i].key[0], calls[j].key[0])
  {
    AscendingCalls(lt, calls, None, i);
    assert !Less(lt, calls[i].key[1..], calls[j].key[1..]);
  }

  /** MAIN: with one key field and two inputs in which it never decreases, the fields of the calls increase
      strictly; each call has exactly the values of each side for its field, and every field of a record of
      either side has a call. */
  lemma OneFieldOuterMerge<K(!new), V1, V2>(lt: (K, K) -> bool, xs: seq<Rec<K, V1>>, k1: nat,
                                            ys: seq<Rec<K, V2>>, k2: nat)
    requires StrictOrder(lt)
    requires (forall x :: x in xs ==> k1 < |x.fields|) && NeverDecreases(lt, xs, k1)
    requires (forall y :: y in ys ==> k2 < |y.fields|) && NeverDecreases(lt, ys, k2)
    ensures KeysOk(xs, [k1]) && KeysOk(ys, [k2])
    ensures var calls := Merge(lt, Runs(xs, [k1]), Runs(ys, [k2]));
            && OneCallPerField(calls, xs, k1, ys, k2)
            && forall i, j :: 0 <= i < j < |calls| ==> lt(calls[i].key[0], calls[j].key[0])
  {
    SortedByField(lt, xs, k1);
    SortedByField(lt, ys, k2);
    CoGroupIsFullOuterMerge(lt, xs, [k1], ys, [k2]);
    var calls := Merge(lt, Runs(xs, [k1]), Runs(ys, [k2]));
    FieldsHaveCalls(calls, xs, k1, ys, k2);
    forall i, j | 0 <= i < j < |calls| ensures lt(calls[i].key[0], calls[j].key[0]) {
      assert FieldCall(calls[i], xs, k1, ys, k2) && FieldCall(calls[j], xs, k1, ys, k2);
      FieldsIncrease(lt, calls, i, j);
    }
  }

  // ---------------------------------------------------------------------------------------------
  // The iterator over both sides
  // ---------------------------------------------------------------------------------------------

  /** What the last step left behind. */
  datatype Match = Start | NoneRemained | FirstRemained | SecondRemained | FirstEmpty | SecondEmpty

  class CoGroupIterator<K(==), V1, V2> {
    const lt: (K, K) -> bool          // the comparison of key fields
    const i1: GroupIterator<K, V1>
    const i2: GroupIterator<K, V2>
    var p1: GroupIterator?<K, V1>   // what the function reads; null stands for an empty iterator
    var p2: GroupIterator?<K, V2>
    var match_: Match
    var key: seq<K>

    constructor (lt: (K, K) -> bool, c1: Source<Rec<K, V1>>, c2: Source<Rec<K, V2>>, k1: seq<nat>, k2: seq<nat>)
      ensures fresh(i1) && fresh(i2) && i1.input == c1 && i2.input == c2 && i1.keys == k1 && i2.keys == k2
      ensures this.lt == lt && i1.cur == None && i2.cur == None && match_ == Start
    {
      this.lt := lt;
      i1 := new GroupIterator<K, V1>(c1, k1);
      i2 := new GroupIterator<K, V2>(c2, k2);
      p1, p2, match_, key := null, null, Start, [];
    }

    /** The two sides do not share state. */
    ghost predicate Separate()
      reads this
    {
      var a: set<object>, b: set<object> := {i1, i1.input}, {i2, i2.input};
      a !! b && this !in a && this !in b
    }

    /** Between two steps: a side that remained stands at an untouched group, and a side that was
        empty stays empty. */
    ghost predicate Valid()
      reads this, i1, i1.input, i2, i2.input
    {
      && i1.Valid() && i2.Valid()
      && (match_.FirstEmpty? ==> i1.Pending() == [])
      && (match_.SecondEmpty? ==> i2.Pending() == [])
      && (match_.FirstRemained? ==> i1.Current() != [] && key == i1.key)
      && (match_.SecondRemained? ==> i2.Current() != [])
    }

    /** The groups that were not presented yet. */
    ghost function Groups1(): seq<Group<K, V1>>
      requires i1.Valid()
      reads this, i1, i1.input
    {
      Runs(i1.Pending(), i1.keys)
    }

    ghost function Groups2(): seq<Group<K, V2>>
      requires i2.Valid()
      reads this, i2, i2.input
    {
      Runs(i2.Pending(), i2.keys)
    }

    method Init()
      requires Separate() && i1.cur == None && i2.cur == None && match_ == Start
      requires KeysOk(i1.input.rest, i1.keys) && KeysOk(i2.input.rest, i2.keys)
      modifies i1, i1.input, i2, i2.input
      ensures Ready(Merge(lt, Runs(old(i1.input.rest), i1.keys), Runs(old(i2.input.rest), i2.keys)))
    {
      i1.Init();
      i2.Init();
    }

    /** Opens the next group of a side that has one, unless a group remained open. */
    method OpenFirst() returns (firstEmpty: bool)
      requires Separate() && Valid()
      modifies this`key, i1
      ensures Valid() && i1.Pending() == old(i1.Pending()) && i1.input.rest == old(i1.input.rest)
      ensures firstEmpty <==> i1.Pending() == []
      ensures !firstEmpty ==> i1.Current() != [] && key == i1.key
    {
      firstEmpty := true;
      if match_ != FirstEmpty {
        if match_ == FirstRemained {
          firstEmpty := false;
        } else {
          var hasGroup := i1.HasGroup();
          if hasGroup {
            i1.NextGroup();
            key := i1.key;
            firstEmpty := false;
          }
        }
      }
    }

    method OpenSecond() returns (secondEmpty: bool)
      requires Separate() && Valid()
      modifies i2
      ensures Valid() && i2.Pending() == old(i2.Pending()) && i2.input.rest == old(i2.input.rest)
      ensures secondEmpty <==> i2.Pending() == []
      ensures !secondEmpty ==> i2.Current() != []
    {
      secondEmpty := true;
      if match_ != SecondEmpty {
        if match_ == SecondRemained {
          secondEmpty := false;
        } else {
          var hasGroup := i2.HasGroup();
          if hasGroup {
            i2.NextGroup();
            secondEmpty := false;
          }
        }
      }
    }

    /** The records of a side that come after the next call. */
    ghost function Rest1(): seq<Rec<K, V1>>
      requires i1.Valid()
      reads this, i1, i1.input
    {
      if p1 == null then i1.Pending() else i1.Pending()[|i1.Current()|..]
    }

    ghost function Rest2(): seq<Rec<K, V2>>
      requires i2.Valid()
      reads this, i2, i2.input
    {
      if p2 == null then i2.Pending() else i2.Pending()[|i2.Current()|..]
    }

    /** What the next call is to see, and what it is to leave behind. */
    ghost predicate Chosen(call: Call<K, V1, V2>, later: seq<Call<K, V1, V2>>)
      reads this, i1, i1.input, i2, i2.input
    {
      ChosenOk(call, later) == true
    }

    ghost predicate ChosenOk(call: Call<K, V1, V2>, later: seq<Call<K, V1, V2>>)
      reads this, i1, i1.input, i2, i2.input
    {
      && Valid()
      && (p1 == null || p1 == i1) && (p2 == null || p2 == i2)
      && call.vals1 == (if p1 == null then [] else i1.Current())
      && call.vals2 == (if p2 == null then [] else i2.Current())
      && call.key == CurrentKey()
      && later == Merge(lt, Runs(Rest1(), i1.keys), Runs(Rest2(), i2.keys))
      // a side that remained, or was empty, is not read
      && (match_.FirstEmpty? || match_.FirstRemained? ==> p1 == null)
      && (match_.SecondEmpty? || match_.SecondRemained? ==> p2 == null)
    }

    /** The key of the groups the function reads. */
    function CurrentKey(): seq<K>
      reads this, i1, i2
    {
      if p1 == null then i2.key else i1.key
    }

    /** Between two steps, with the given calls to come. */
    ghost predicate Ready(later: seq<Call<K, V1, V2>>)
      reads this, i1, i1.input, i2, i2.input
    {
      (Valid() && Merge(lt, Groups1(), Groups2()) == later) == true
    }

    /** A side that the function did not read is as it was. */
    ghost predicate Kept1(pending: seq<Rec<K, V1>>)
      reads this, i1, i1.input
    {
      (p1 == null ==>
         i1.Valid() && i1.Pending() == pending && (match_.FirstEmpty? ==> pending == []) &&
         (match_.FirstRemained? ==> i1.Current() != [] && key == i1.key)) == true
    }

    ghost predicate Kept2(pending: seq<Rec<K, V2>>)
      reads this, i2, i2.input
    {
      (p2 == null ==>
         i2.Valid() && i2.Pending() == pending && (match_.SecondEmpty? ==> pending == []) &&
         (match_.SecondRemained? ==> i2.Current() != [])) == true
    }

    lemma Open(call: Call<K, V1, V2>, later: seq<Call<K, V1, V2>>)
      requires Separate() && Chosen(call, later)
      ensures Reading(p1, p2, call.vals1, i1.Pending(), call.vals2, i2.Pending(), [], [])
      ensures Footprint(p1) !! Footprint(p2)
      ensures Kept1(i1.Pending()) && Kept2(i2.Pending())
      ensures (p1 == null || p1 == i1) && (p2 == null || p2 == i2)
      ensures Follows(call, later, i1.Pending(), i2.Pending())
    {
    }

    /** The facts about a chosen call that outlive the call. */
    ghost predicate Follows(call: Call<K, V1, V2>, later: seq<Call<K, V1, V2>>, pending1: seq<Rec<K, V1>>,
                            pending2: seq<Rec<K, V2>>)
      reads this
    {
      && (p1 == null || p1 == i1) && (p2 == null || p2 == i2)
      && (match_.FirstEmpty? || match_.FirstRemained? ==> p1 == null)
      && (match_.SecondEmpty? || match_.SecondRemained? ==> p2 == null)
      && var rest1 := if p1 == null || |call.vals1| > |pending1| then pending1 else pending1[|call.vals1|..];
      && var rest2 := if p2 == null || |call.vals2| > |pending2| then pending2 else pending2[|call.vals2|..];
      && KeysOk(rest1, i1.keys) && KeysOk(rest2, i2.keys)
      && later == Merge(lt, Runs(rest1, i1.keys), Runs(rest2, i2.keys))
    }

    lemma Resume(call: Call<K, V1, V2>, later: seq<Call<K, V1, V2>>, pending1: seq<Rec<K, V1>>,
                 pending2: seq<Rec<K, V2>>)
      requires Follows(call, later, pending1, pending2) && Kept1(pending1) && Kept2(pending2)
      requires AtOpt(p1, call.vals1, pending1, |call.vals1|) && AtOpt(p2, call.vals2, pending2, |call.vals2|)
      ensures Ready(later)
    {
    }

    lemma OpenGroup1()
      requires i1.Valid() && i1.Current() != []
      ensures Groups1() == [Group(i1.key, i1.Current())] + Runs(i1.Pending()[|i1.Current()|..], i1.keys)
    {
    }

    lemma OpenGroup2()
      requires i2.Valid() && i2.Current() != []
      ensures Groups2() == [Group(i2.key, i2.Current())] + Runs(i2.Pending()[|i2.Current()|..], i2.keys)
    {
    }

    /** The first side has the next key alone. */
    lemma FirstIsNext()
      requires Valid() && p1 == i1 && p2 == null && i1.Current() != []
      requires (match_.SecondEmpty? && i2.Pending() == []) ||
               (match_.SecondRemained? && i2.Current() != [] && i1.key != i2.key && Less(lt, i1.key, i2.key))
      ensures NextCall(Merge(lt, Groups1(), Groups2()))
    {
      OpenGroup1();
      if match_.SecondRemained? {
        OpenGroup2();
      }
    }

    lemma SecondIsNext()
      requires Valid() && p1 == null && p2 == i2 && i2.Current() != []
      requires (match_.FirstEmpty? && i1.Pending() == []) ||
               (match_.FirstRemained? && i1.Current() != [] && i1.key != i2.key && !Less(lt, i1.key, i2.key))
      ensures NextCall(Merge(lt, Groups1(), Groups2()))
    {
      OpenGroup2();
      if match_.FirstRemained? {
        OpenGroup1();
      }
    }

    lemma BothAreNext()
      requires Valid() && p1 == i1 && p2 == i2 && i1.Current() != [] && i2.Current() != []
      requires match_.NoneRemained? && i1.key == i2.key
      ensures NextCall(Merge(lt, Groups1(), Groups2()))
    {
      OpenGroup1();
      OpenGroup2();
    }

    ghost predicate NextCall(calls: seq<Call<K, V1, V2>>)
      reads this, i1, i1.input, i2, i2.input
    {
      calls != [] && Chosen(calls[0], calls[1..])
    }

    /** Selects the next key and opens the groups that have it. */
    method Next() returns (more: bool)
      requires Separate() && Valid()
      modifies this, i1, i2
      ensures Separate() && Valid()
      ensures i1.Pending() == old(i1.Pending()) && i2.Pending() == old(i2.Pending())
      ensures !more ==> Merge(lt, Groups1(), Groups2()) == []
      ensures more ==> NextCall(Merge(lt, Groups1(), Groups2()))
    {
      var firstEmpty := OpenFirst();
      var secondEmpty := OpenSecond();
      if firstEmpty && secondEmpty {
        return false;
      } else if firstEmpty {
        p1, p2, match_ := null, i2, FirstEmpty;
        SecondIsNext();
      } else if secondEmpty {
        p1, p2, match_ := i1, null, SecondEmpty;
        FirstIsNext();
      } else if key == i2.key {
        p1, p2, match_ := i1, i2, NoneRemained;
        BothAreNext();
      } else if Less(lt, key, i2.key) {
        p1, p2, match_ := i1, null, SecondRemained;
        FirstIsNext();
      } else {
        p1, p2, match_ := null, i2, FirstRemained;
        SecondIsNext();
      }
      return true;
    }

    method Advance(ghost calls: seq<Call<K, V1, V2>>) returns (more: bool)
      requires Separate() && Ready(calls)
      modifies this, i1, i2
      ensures Separate() && if more then NextCall(calls) else calls == []
    {
      more := Next();
    }
  }

  // ---------------------------------------------------------------------------------------------
  // The driver
  // ---------------------------------------------------------------------------------------------

  /** Like `At`; a null iterator is at the end of an empty group. */
  ghost predicate AtOpt<K, V>(p: GroupIterator?<K, V>, all: seq<V>, pending: seq<Rec<K, V>>, k: nat)
    reads Footprint(p)
  {
    (if p == null then all == [] && k == 0 else At(p, all, pending, k)) == true
  }

  ghost function Footprint<K, V>(p: GroupIterator?<K, V>): set<object> {
    if p == null then {} else {p, p.input}
  }

  method HasNextOpt<K(==), V>(p: GroupIterator?<K, V>, ghost all: seq<V>, ghost pending: seq<Rec<K, V>>, ghost k: nat)
    returns (r: bool)
    requires AtOpt(p, all, pending, k)
    ensures k <= |all| && (r <==> k < |all|)
  {
    if p == null {
      r := false;
    } else {
      r := HasNextAt(p, all, pending, k);
    }
  }

  /** Reads one value of one side; the other side stays where it is. */
  method NextOpt<K(==), V, W>(p: GroupIterator?<K, V>, ghost all: seq<V>, ghost pending: seq<Rec<K, V>>, ghost k: nat,
                       ghost q: GroupIterator?<K, W>, ghost all': seq<W>, ghost pending': seq<Rec<K, W>>, ghost k': nat)
    returns (v: V)
    requires AtOpt(p, all, pending, k) && k < |all| && AtOpt(q, all', pending', k') && Footprint(p) !! Footprint(q)
    modifies Footprint(p)
    ensures AtOpt(p, all, pending, k + 1) && AtOpt(q, all', pending', k') && v == all[k]
  {
    assert p != null;
    v := NextAt(p, all, pending, k);
  }

  /** Reads one more value of one side if there is one. */
  method TryNext<K(==), V, W>(p: GroupIterator?<K, V>, ghost all: seq<V>, ghost pending: seq<Rec<K, V>>, seen: seq<V>,
                       ghost q: GroupIterator?<K, W>, ghost all': seq<W>, ghost pending': seq<Rec<K, W>>, ghost k': nat)
    returns (read: seq<V>)
    requires AtOpt(p, all, pending, |seen|) && seen <= all && AtOpt(q, all', pending', k') &&
             Footprint(p) !! Footprint(q)
    modifies Footprint(p)
    ensures AtOpt(p, all, pending, |read|) && AtOpt(q, all', pending', k') && seen <= read <= all
  {
    read := seen;
    var left := HasNextOpt(p, all, pending, |seen|);
    if left {
      var v := NextOpt(p, all, pending, |seen|, q, all', pending', k');
      read := seen + [v];
    }
  }

  /** Where a co-group call stands: what was read of each side so far, and what is still to be read. */
  ghost predicate Reading<K, V1, V2>(p1: GroupIterator?<K, V1>, p2: GroupIterator?<K, V2>,
                                  all1: seq<V1>, pending1: seq<Rec<K, V1>>,
                                  all2: seq<V2>, pending2: seq<Rec<K, V2>>, read1: seq<V1>, read2: seq<V2>)
    reads Footprint(p1), Footprint(p2)
  {
    (&& AtOpt(p1, all1, pending1, |read1|) && AtOpt(p2, all2, pending2, |read2|)
     && read1 <= all1 && read2 <= all2) == true
  }

  /** One step of a co-group function: it reads a value of either side, or ends. */
  method UserStep<K(==), V1, V2>(p1: GroupIterator?<K, V1>, p2: GroupIterator?<K, V2>,
                          ghost all1: seq<V1>, ghost pending1: seq<Rec<K, V1>>,
                          ghost all2: seq<V2>, ghost pending2: seq<Rec<K, V2>>, seen1: seq<V1>, seen2: seq<V2>)
    returns (read1: seq<V1>, read2: seq<V2>)
    requires Reading(p1, p2, all1, pending1, all2, pending2, seen1, seen2) && Footprint(p1) !! Footprint(p2)
    modifies Footprint(p1), Footprint(p2)
    ensures Reading(p1, p2, all1, pending1, all2, pending2, read1, read2)
    ensures |seen1| <= |read1| <= |all1| && |seen2| <= |read2| <= |all2|
  {
    read1, read2 := seen1, seen2;
    var choice: int := *;
    if choice == 1 {
      read1 := TryNext(p1, all1, pending1, seen1, p2, all2, pending2, |seen2|);
    } else if choice == 2 {
      read2 := TryNext(p2, all2, pending2, seen2, p1, all1, pending1, |seen1|);
    }
  }

  /** A co-group function, as far as its iterators see it: it reads any number of values from either
      side, in any order. */
  method UserFunction<K(==), V1, V2>(p1: GroupIterator?<K, V1>, p2: GroupIterator?<K, V2>,
                              ghost all1: seq<V1>, ghost pending1: seq<Rec<K, V1>>,
                              ghost all2: seq<V2>, ghost pending2: seq<Rec<K, V2>>)
    returns (read1: seq<V1>, read2: seq<V2>)
    requires Reading(p1, p2, all1, pending1, all2, pending2, [], []) && Footprint(p1) !! Footprint(p2)
    modifies Footprint(p1), Footprint(p2)
    ensures Reading(p1, p2, all1, pending1, all2, pending2, read1, read2)
  {
    read1, read2 := [], [];
    var more := true;
    while more
      invariant Reading(p1, p2, all1, pending1, all2, pending2, read1, read2)
      decreases |all1| - |read1| + |all2| - |read2|, more
    {
      var before := |read1| + |read2|;
      read1, read2 := UserStep(p1, p2, all1, pending1, all2, pending2, read1, read2);
      more := |read1| + |read2| > before;
    }
  }

  lemma SliceGrows<T>(s: seq<T>, i: nat, j: nat)
    requires i <= j < |s|
    ensures s[i..j + 1] == s[i..j] + [s[j]]
  {
  }

  /** Skips what is left of the group of one side. */
  method Drain<K(==), V>(p: GroupIterator<K, V>, ghost all: seq<V>, ghost pending: seq<Rec<K, V>>, ghost k: nat)
    returns (skipped: seq<V>)
    requires At(p, all, pending, k)
    modifies p, p.input
    ensures At(p, all, pending, |all|) && k <= |all| && skipped == all[k..]
  {
    skipped := [];
    var left := HasNextAt(p, all, pending, k);
    ghost var j := k;
    while left
      invariant k <= j <= |all| && At(p, all, pending, j)
      invariant skipped == all[k..j]
      invariant left <==> j < |all|
      decreases |all| - j
    {
      SliceGrows(all, k, j);
      var v := NextAt(p, all, pending, j);
      skipped := skipped + [v];
      j := j + 1;
      left := HasNextAt(p, all, pending, j);
    }
  }

  method DrainOpt<K(==), V, W>(p: GroupIterator?<K, V>, ghost all: seq<V>, ghost pending: seq<Rec<K, V>>, ghost k: nat,
                        ghost q: GroupIterator?<K, W>, ghost all': seq<W>, ghost pending': seq<Rec<K, W>>,
                        ghost k': nat)
    returns (skipped: seq<V>)
    requires AtOpt(p, all, pending, k) && AtOpt(q, all', pending', k') && Footprint(p) !! Footprint(q)
    modifies Footprint(p)
    ensures AtOpt(p, all, pending, |all|) && AtOpt(q, all', pending', k')
    ensures k <= |all| && skipped == all[k..]
  {
    if p == null {
      skipped := [];
    } else {
      skipped := Drain(p, all, pending, k);
    }
  }

  lemma PrefixAndRest<T>(read: seq<T>, rest: seq<T>, all: seq<T>)
    requires read <= all && rest == all[|read|..]
    ensures read + rest == all
  {
  }

  /** One call of the function and the skipping of what it left: what each side presented. */
  method Present<K(==), V1, V2>(p1: GroupIterator?<K, V1>, p2: GroupIterator?<K, V2>,
                         ghost all1: seq<V1>, ghost pending1: seq<Rec<K, V1>>,
                         ghost all2: seq<V2>, ghost pending2: seq<Rec<K, V2>>)
    returns (presented1: seq<V1>, presented2: seq<V2>)
    requires Reading(p1, p2, all1, pending1, all2, pending2, [], []) && Footprint(p1) !! Footprint(p2)
    modifies Footprint(p1), Footprint(p2)
    ensures AtOpt(p1, all1, pending1, |all1|) && AtOpt(p2, all2, pending2, |all2|)
    ensures presented1 == all1 && presented2 == all2
  {
    var read1, read2 := UserFunction(p1, p2, all1, pending1, all2, pending2);
    var rest1 := DrainOpt(p1, all1, pending1, |read1|, p2, all2, pending2, |read2|);
    var rest2 := DrainOpt(p2, all2, pending2, |read2|, p1, all1, pending1, |all1|);
    PrefixAndRest(read1, rest1, all1);
    PrefixAndRest(read2, rest2, all2);
    presented1, presented2 := read1 + rest1, read2 + rest2;
  }

  method Turn<K(==), V1, V2>(it: CoGroupIterator<K, V1, V2>, ghost call: Call<K, V1, V2>,
                             ghost later: seq<Call<K, V1, V2>>)
    returns (presented: Call<K, V1, V2>)
    requires it.Separate() && it.Chosen(call, later)
    modifies it.i1, it.i1.input, it.i2, it.i2.input
    ensures it.Ready(later) && presented == call
  {
    var key := it.CurrentKey();
    ghost var pending1, pending2 := it.i1.Pending(), it.i2.Pending();
    it.Open(call, later);
    var vs, ws := Present(it.p1, it.p2, call.vals1, pending1, call.vals2, pending2);
    presented := Call(key, vs, ws);
    it.Resume(call, later, pending1, pending2);
  }

  /** Presents the next call and selects the one after it. */
  method Round<K(==), V1, V2>(it: CoGroupIterator<K, V1, V2>, ghost calls: seq<Call<K, V1, V2>>)
    returns (presented: Call<K, V1, V2>, more: bool)
    requires it.Separate() && it.NextCall(calls)
    modifies it, it.i1, it.i1.input, it.i2, it.i2.input
    ensures it.Separate() && calls != [] && presented == calls[0]
    ensures if more then it.NextCall(calls[1..]) else calls[1..] == []
  {
    presented := Turn(it, calls[0], calls[1..]);
    more := it.Advance(calls[1..]);
  }

  ghost predicate JoinedTo<T>(done: seq<T>, todo: seq<T>, all: seq<T>) {
    done + todo == all
  }

  lemma Rejoin<T>(done: seq<T>, todo: seq<T>, all: seq<T>)
    requires JoinedTo(done, todo, all) && todo != []
    ensures JoinedTo(done + [todo[0]], todo[1..], all)
  {
  }

  /** MAIN: whatever the co-group function reads, the run presents to it, group by group, the merge
      of the groups of both inputs; and it terminates. */
  method RunCoGroup<K(==), V1, V2>(it: CoGroupIterator<K, V1, V2>) returns (calls: seq<Call<K, V1, V2>>)
    requires it.Separate() && it.i1.cur == None && it.i2.cur == None && it.match_ == Start
    requires KeysOk(it.i1.input.rest, it.i1.keys) && KeysOk(it.i2.input.rest, it.i2.keys)
    modifies it, it.i1, it.i1.input, it.i2, it.i2.input
    ensures calls == Merge(it.lt, Runs(old(it.i1.input.rest), it.i1.keys), Runs(old(it.i2.input.rest), it.i2.keys))
  {
    ghost var all := Merge(it.lt, Runs(it.i1.input.rest, it.i1.keys), Runs(it.i2.input.rest, it.i2.keys));
    ghost var cs := all;
    calls := [];
    it.Init();
    var more := it.Advance(all);
    while more
      invariant it.Separate() && if more then it.NextCall(cs) else cs == []
      invariant JoinedTo(calls, cs, all)
      decreases |cs|
    {
      Rejoin(calls, cs, all);
      var call;
      call, more := Round(it, cs);
      calls := calls + [call];
      cs := cs[1..];
    }
    assert calls + [] == calls;
  }
}
