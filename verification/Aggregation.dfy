/** Aggregations: several aggregators in one pass over a group. */
module Aggregation {
  import opened Common

  datatype Kind = Sum | Min | Max

  /** What aggregators do with the values of a column: the empty sum, addition, and comparison. */
  datatype Arithmetic<!V> = Arithmetic(zero: V, plus: (V, V) -> V, less: (V, V) -> bool)

  // ---------------------------------------------------------------------------------------------
  // What an aggregation computes
  // ---------------------------------------------------------------------------------------------

  /** The fold of a column, nothing for the extrema of no values. */
  function Fold<V>(ar: Arithmetic<V>, kind: Kind, vs: seq<V>): Option<V> {
    if vs == [] then (if kind == Sum then Some(ar.zero) else None)
    else Include(ar, kind, Fold(ar, kind, vs[..|vs| - 1]), vs[|vs| - 1])
  }

  /** One more value. */
  function Include<V>(ar: Arithmetic<V>, kind: Kind, agg: Option<V>, v: V): Option<V> {
    match (kind, agg)
    case (Sum, _) => Some(ar.plus(if agg.Some? then agg.value else ar.zero, v))
    case (_, None) => Some(v)
    case (Min, Some(a)) => if ar.less(v, a) then Some(v) else agg
    case (Max, Some(a)) => if ar.less(a, v) then Some(v) else agg
  }

  function Column<V>(group: seq<seq<V>>, field: nat): (c: seq<V>)
    requires forall x :: x in group ==> field < |x|
    ensures |c| == |group|
  {
    seq(|group|, i requires 0 <= i < |group| => assert group[i] in group; group[i][field])
  }

  /** The values added up from the left. */
  function Total<V>(ar: Arithmetic<V>, vs: seq<V>): V {
    if vs == [] then ar.zero else ar.plus(Total(ar, vs[..|vs| - 1]), vs[|vs| - 1])
  }

  /** Comparison is a strict weak order; values that are not less than each other may differ. */
  ghost predicate Ordered<V(!new)>(less: (V, V) -> bool) {
    && (forall a, b :: less(a, b) ==> !less(b, a))
    && (forall a, b, c {:trigger less(a, b), less(b, c)} :: less(a, c) ==> less(a, b) || less(b, c))
  }

  lemma {:induction false} FoldIsSome<V>(ar: Arithmetic<V>, kind: Kind, vs: seq<V>)
    requires vs != []
    ensures Fold(ar, kind, vs).Some?
  {
    if |vs| > 1 {
      FoldIsSome(ar, kind, vs[..|vs| - 1]);
    }
  }

  ghost predicate NoneLess<V(!new)>(less: (V, V) -> bool, vs: seq<V>, m: V) {
    forall v :: v in vs ==> !less(v, m)
  }

  lemma NoneLessNext<V(!new)>(less: (V, V) -> bool, vs: seq<V>, m: V, x: V)
    requires Ordered(less) && NoneLess(less, vs, m)
    ensures NoneLess(less, vs + [x], if less(x, m) then x else m)
  {
    forall v | v in vs + [x] ensures !less(v, if less(x, m) then x else m) {
      assert less(v, x) ==> !less(x, v);
      assert v in vs ==> !less(v, m);
    }
  }

  /** No value of the column lies beyond the fold. */
  lemma {:induction false} FoldIsBound<V(!new)>(ar: Arithmetic<V>, kind: Kind, vs: seq<V>, less: (V, V) -> bool)
    requires vs != [] && Ordered(less)
    requires kind != Sum && forall a, b :: less(a, b) <==> if kind == Min then ar.less(a, b) else ar.less(b, a)
    ensures Fold(ar, kind, vs).Some? && NoneLess(less, vs, Fold(ar, kind, vs).value)
    ensures Fold(ar, kind, vs).value in vs
  {
    var n := |vs| - 1;
    assert vs == vs[..n] + [vs[n]];
    if n > 0 {
      FoldIsBound(ar, kind, vs[..n], less);
      NoneLessNext(less, vs[..n], Fold(ar, kind, vs[..n]).value, vs[n]);
    } else {
      assert !less(vs[0], vs[0]);
    }
  }

  lemma {:induction false} FoldIsTotal<V>(ar: Arithmetic<V>, vs: seq<V>)
    ensures Fold(ar, Sum, vs) == Some(Total(ar, vs))
  {
    if vs != [] {
      FoldIsTotal(ar, vs[..|vs| - 1]);
    }
  }

  /** Min and Max are attained bounds of the column, Sum is its total. */
  lemma FoldIsExtremum<V(!new)>(ar: Arithmetic<V>, kind: Kind, vs: seq<V>)
    requires vs != [] && (kind != Sum ==> Ordered(ar.less))
    ensures Fold(ar, kind, vs).Some?
    ensures kind == Sum ==> Fold(ar, kind, vs).value == Total(ar, vs)
    ensures kind != Sum ==> Fold(ar, kind, vs).value in vs
    ensures kind == Min ==> forall v :: v in vs ==> !ar.less(v, Fold(ar, kind, vs).value)
    ensures kind == Max ==> forall v :: v in vs ==> !ar.less(Fold(ar, kind, vs).value, v)
  {
    match kind
    case Sum =>
      FoldIsTotal(ar, vs);
    case Min =>
      FoldIsBound(ar, kind, vs, ar.less);
    case Max =>
      FoldIsBound(ar, kind, vs, (a, b) => ar.less(b, a));
  }

  /** `m` is the first of the values that no other value precedes. */
  ghost predicate FirstOfLeast<V(!new)>(less: (V, V) -> bool, vs: seq<V>, m: V, i: nat) {
    && i < |vs| && vs[i] == m
    && (forall j :: 0 <= j < |vs| ==> !less(vs[j], m))
    && (forall j :: 0 <= j < i ==> less(m, vs[j]))
  }

  /** Of several equal extrema the first one is kept. */
  lemma {:induction false} FoldIsFirst<V(!new)>(ar: Arithmetic<V>, kind: Kind, vs: seq<V>, less: (V, V) -> bool)
    requires vs != [] && Ordered(less)
    requires kind != Sum && forall a, b :: less(a, b) <==> if kind == Min then ar.less(a, b) else ar.less(b, a)
    ensures Fold(ar, kind, vs).Some? && exists i :: FirstOfLeast(less, vs, Fold(ar, kind, vs).value, i)
  {
    var n := |vs| - 1;
    FoldIsBound(ar, kind, vs, less);
    var m := Fold(ar, kind, vs).value;
    if n == 0 {
      assert FirstOfLeast(less, vs, m, 0);
    } else {
      FoldIsFirst(ar, kind, vs[..n], less);
      var before := Fold(ar, kind, vs[..n]).value;
      var i: nat :| FirstOfLeast(less, vs[..n], before, i);
      if less(vs[n], before) {
        forall j | 0 <= j < n ensures less(vs[n], vs[j]) {
          assert !less(vs[..n][j], before);
        }
        assert FirstOfLeast(less, vs, m, n);
      } else {
        assert FirstOfLeast(less, vs, m, i);
      }
    }
  }

  /** Sums are taken in order: adding up texts gives the texts one after the other. */
  lemma {:induction false} SumInOrder<T>(ar: Arithmetic<seq<T>>, vs: seq<seq<T>>)
    requires ar.zero == [] && forall a, b :: ar.plus(a, b) == a + b
    ensures Fold(ar, Sum, vs) == Some(Joined(vs))
  {
    if vs != [] {
      SumInOrder(ar, vs[..|vs| - 1]);
      JoinedLast(vs);
    }
  }

  /** An aggregator as it was registered. */
  datatype Spec = Spec(kind: Kind, field: nat)

  ghost predicate FieldsExist<V>(specs: seq<Spec>, group: seq<seq<V>>) {
    forall s, x :: s in specs && x in group ==> s.field < |x|
  }

  /** The last of the first `n` aggregators for a field. */
  function LastFor(specs: seq<Spec>, n: nat, field: nat): (r: Option<nat>)
    requires n <= |specs|
    ensures r.Some? ==> r.value < n && specs[r.value].field == field
    ensures forall j :: (if r.Some? then r.value + 1 else 0) <= j < n ==> specs[j].field != field
  {
    if n == 0 then None
    else if specs[n - 1].field == field then Some(n - 1)
    else LastFor(specs, n - 1, field)
  }

  /** What a field of the result is: the fold of the last aggregator registered for it, and otherwise
      what the first tuple of the group has. */
  ghost function ResultField<V>(ar: Arithmetic<V>, specs: seq<Spec>, n: nat, group: seq<seq<V>>, field: nat): Option<V>
    requires FieldsExist(specs, group) && n <= |specs| && group != [] && field < |group[0]|
  {
    var k := LastFor(specs, n, field);
    if k.None? then Some(group[0][field]) else
    assert specs[k.value] in specs;
    Fold(ar, specs[k.value].kind, Column(group, field))
  }

  ghost predicate IsResult<V>(ar: Arithmetic<V>, specs: seq<Spec>, group: seq<seq<V>>, r: Option<seq<V>>)
    requires FieldsExist(specs, group)
  {
    if group == [] then r == None
    else r.Some? && |r.value| == |group[0]| &&
         forall f :: 0 <= f < |r.value| ==> Some(r.value[f]) == ResultField(ar, specs, |specs|, group, f)
  }

  // ---------------------------------------------------------------------------------------------
  // The aggregators
  // ---------------------------------------------------------------------------------------------

  class Aggregator<V(==)> {
    const ar: Arithmetic<V>
    const kind: Kind
    const field: nat
    var agg: Option<V>

    constructor (ar: Arithmetic<V>, kind: Kind, field: nat)
      ensures this.ar == ar && this.kind == kind && this.field == field
    {
      this.ar := ar;
      this.kind, this.field, agg := kind, field, None;
    }

    method Initialize()
      modifies this
      ensures agg == Fold(ar, kind, [])
    {
      agg := if kind == Sum then Some(ar.zero) else None;
    }

    method Aggregate(value: V)
      modifies this
      ensures agg == Include(ar, kind, old(agg), value)
    {
      match kind
      case Sum =>
        agg := Some(ar.plus(if agg.Some? then agg.value else ar.zero, value));
      case Min =>
        if agg != None {
          if ar.less(value, agg.value) {
            agg := Some(value);
          }
        } else {
          agg := Some(value);
        }
      case Max =>
        if agg != None {
          if ar.less(agg.value, value) {
            agg := Some(value);
          }
        } else {
          agg := Some(value);
        }
    }
  }

  ghost function Specs<V>(aggs: seq<Aggregator<V>>): seq<Spec> {
    seq(|aggs|, i requires 0 <= i < |aggs| => Spec(aggs[i].kind, aggs[i].field))
  }

  class AggregationFunction<V(==)> {
    const ar: Arithmetic<V>
    var aggregations: seq<Aggregator<V>>

    constructor (ar: Arithmetic<V>, kind: Kind, field: nat)
      ensures this.ar == ar && Valid() && fresh(aggregations[0]) && Specs(aggregations) == [Spec(kind, field)]
    {
      var first := new Aggregator(ar, kind, field);
      this.ar := ar;
      aggregations := [first];
    }

    ghost predicate Valid()
      reads this
    {
      && aggregations != [] && (forall i :: 0 <= i < |aggregations| ==> aggregations[i].ar == ar)
      && forall i, j :: 0 <= i < j < |aggregations| ==> aggregations[i] != aggregations[j]
    }

    method AddAggregation(kind: Kind, field: nat)
      requires Valid()
      modifies this
      ensures Valid() && Specs(aggregations) == old(Specs(aggregations)) + [Spec(kind, field)]
      ensures fresh(aggregations[|aggregations| - 1]) && aggregations[..|aggregations| - 1] == old(aggregations)
    {
      var next := new Aggregator(ar, kind, field);
      aggregations := aggregations + [next];
    }

    /** Every aggregator holds the fold of its column of `seen`. */
    ghost predicate Holding(seen: seq<seq<V>>)
      requires FieldsExist(Specs(aggregations), seen)
      reads this, aggregations
    {
      forall i :: 0 <= i < |aggregations| ==> HoldsAt(i, seen)
    }

    ghost predicate HoldsAt(i: nat, seen: seq<seq<V>>)
      requires i < |aggregations| && FieldsExist(Specs(aggregations), seen)
      reads this, aggregations[i]
    {
      assert Spec(aggregations[i].kind, aggregations[i].field) == Specs(aggregations)[i];
      aggregations[i].agg == Fold(ar, aggregations[i].kind, Column(seen, aggregations[i].field))
    }

    method Reset()
      requires Valid()
      modifies aggregations
      ensures Holding([])
    {
      for i := 0 to |aggregations|
        invariant forall j :: 0 <= j < i ==> HoldsAt(j, [])
      {
        aggregations[i].Initialize();
      }
    }

    method Accumulate(x: seq<V>, ghost seen: seq<seq<V>>)
      requires Valid() && FieldsExist(Specs(aggregations), seen + [x])
      requires FieldsExist(Specs(aggregations), seen) && Holding(seen)
      modifies aggregations
      ensures Holding(seen + [x])
    {
      for i := 0 to |aggregations|
        invariant forall j :: 0 <= j < i ==> HoldsAt(j, seen + [x])
        invariant forall j :: i <= j < |aggregations| ==> HoldsAt(j, seen)
      {
        var aggregator := aggregations[i];
        assert HoldsAt(i, seen);
        assert Specs(aggregations)[i].field < |x| by {
          assert x in seen + [x] && Specs(aggregations)[i] in Specs(aggregations);
        }
        ColumnNext(ar, seen, x, aggregator.field);
        aggregator.Aggregate(x[aggregator.field]);
      }
    }

    method FillIn(first: seq<V>, ghost group: seq<seq<V>>) returns (item: seq<V>)
      requires Valid() && FieldsExist(Specs(aggregations), group) && Holding(group)
      requires group != [] && first == group[0]
      ensures IsResult(ar, Specs(aggregations), group, Some(item))
    {
      item := first;
      ghost var specs := Specs(aggregations);
      for i := 0 to |aggregations|
        invariant |item| == |first|
        invariant forall f :: 0 <= f < |item| ==> Some(item[f]) == ResultField(ar, specs, i, group, f)
      {
        assert HoldsAt(i, group);
        assert specs[i] in specs && group[0] in group;
        FoldIsSome(ar, aggregations[i].kind, Column(group, aggregations[i].field));
        item := item[aggregations[i].field := aggregations[i].agg.value];
      }
    }

    /** MAIN: the result is the first tuple with each aggregated field replaced by the fold of the last
        aggregator registered for it, whatever the aggregators held before; an empty group is an error. */
    method Reduce(group: seq<seq<V>>) returns (r: Option<seq<V>>)
      requires Valid() && FieldsExist(Specs(aggregations), group)
      modifies aggregations
      ensures IsResult(ar, Specs(aggregations), group, r)
    {
      Reset();
      var item: Option<seq<V>> := None;
      assert group[..0] == [];
      for i := 0 to |group|
        invariant FieldsExist(Specs(aggregations), group[..i]) && Holding(group[..i])
        invariant if i == 0 then item == None else item == Some(group[0])
      {
        if item == None {
          item := Some(group[i]);
        }
        assert group[..i + 1] == group[..i] + [group[i]];
        Accumulate(group[i], group[..i]);
      }
      assert group[..|group|] == group;
      if item.None? {
        return None;
      }
      var result := FillIn(item.value, group);
      return Some(result);
    }

    /** No state leaks from one group to the next. */
    method ReduceAll(groups: seq<seq<seq<V>>>) returns (rs: seq<Option<seq<V>>>)
      requires Valid() && forall g :: g in groups ==> FieldsExist(Specs(aggregations), g)
      modifies aggregations
      ensures |rs| == |groups|
      ensures forall i :: 0 <= i < |rs| ==> groups[i] in groups && IsResult(ar, Specs(aggregations), groups[i], rs[i])
    {
      rs := [];
      for i := 0 to |groups|
        invariant |rs| == i
        invariant forall j :: 0 <= j < i ==> groups[j] in groups && IsResult(ar, Specs(aggregations), groups[j], rs[j])
      {
        assert groups[i] in groups;
        var r := Reduce(groups[i]);
        rs := rs + [r];
      }
    }
  }

  lemma ColumnNext<V>(ar: Arithmetic<V>, seen: seq<seq<V>>, x: seq<V>, field: nat)
    requires field < |x| && forall y :: y in seen ==> field < |y|
    ensures forall y :: y in seen + [x] ==> field < |y|
    ensures Column(seen + [x], field) == Column(seen, field) + [x[field]]
    ensures forall kind ::
              Fold(ar, kind, Column(seen + [x], field)) ==
              Include(ar, kind, Fold(ar, kind, Column(seen, field)), x[field])
  {
    var c := Column(seen + [x], field);
    assert c[..|c| - 1] == Column(seen, field);
  }

  /** The field `f` of a result for which the aggregator number `k` is the last one. */
  lemma LastAggregatorDecides<V>(ar: Arithmetic<V>, specs: seq<Spec>, group: seq<seq<V>>, r: seq<V>, k: nat)
    requires FieldsExist(specs, group) && group != [] && IsResult(ar, specs, group, Some(r))
    requires k < |specs| && forall j :: k < j < |specs| ==> specs[j].field != specs[k].field
    ensures specs[k].field < |r| && forall x :: x in group ==> specs[k].field < |x|
    ensures Some(r[specs[k].field]) == Fold(ar, specs[k].kind, Column(group, specs[k].field))
  {
    assert specs[k] in specs && group[0] in group;
  }

  /** MAIN: a field aggregated by Min or Max has that field of the first record for which it is extreme, */
  lemma ExtremumOfRecords<V(!new)>(ar: Arithmetic<V>, specs: seq<Spec>, group: seq<seq<V>>, r: seq<V>, k: nat)
    requires FieldsExist(specs, group) && group != [] && IsResult(ar, specs, group, Some(r))
    requires k < |specs| && forall j :: k < j < |specs| ==> specs[j].field != specs[k].field
    requires specs[k].kind != Sum && Ordered(ar.less)
    ensures var f := specs[k].field; f < |r| && forall x :: x in group ==> f < |x|
    ensures var f := specs[k].field;
            exists i :: 0 <= i < |group| && f < |group[i]| && r[f] == group[i][f] &&
                        forall j :: 0 <= j < |group| && f < |group[j]| ==>
                          var a, b := r[f], group[j][f];
                          if specs[k].kind == Min then !ar.less(b, a) && (j < i ==> ar.less(a, b))
                          else !ar.less(a, b) && (j < i ==> ar.less(b, a))
  {
    LastAggregatorDecides(ar, specs, group, r, k);
    var f, kind := specs[k].field, specs[k].kind;
    var less := if kind == Min then ar.less else (a, b) => ar.less(b, a);
    var column := Column(group, f);
    FoldIsFirst(ar, kind, column, less);
    var i: nat :| FirstOfLeast(less, column, r[f], i);
    assert group[i] in group && column[i] == group[i][f];
    forall j | 0 <= j < |group| && f < |group[j]|
      ensures var a, b := r[f], group[j][f];
              if kind == Min then !ar.less(b, a) && (j < i ==> ar.less(a, b))
              else !ar.less(a, b) && (j < i ==> ar.less(b, a))
    {
      assert column[j] == group[j][f];
    }
  }

  /** and a field without an aggregator is that of the first record. */
  lemma OtherFieldsOfFirst<V>(ar: Arithmetic<V>, specs: seq<Spec>, group: seq<seq<V>>, r: seq<V>, f: nat)
    requires FieldsExist(specs, group) && group != [] && IsResult(ar, specs, group, Some(r)) && f < |r|
    requires forall j :: 0 <= j < |specs| ==> specs[j].field != f
    ensures |r| == |group[0]| && r[f] == group[0][f]
  {
  }
}
