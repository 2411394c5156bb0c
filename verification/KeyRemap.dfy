/** Rewriting the keys of a grouping: records become pairs of a key tuple and the record, and keys become
    positions in the key tuple. */
module KeyRemap {
  import opened Common
  import opened GroupIteration

  /** A key: a position in the record, or a function of the record. */
  datatype Selector<!R, V> = Index(k: nat) | Func(f: R -> V)

  /** What a key selects from a record; `field` is the indexing of the records. */
  function Select<R, V>(field: (R, nat) -> V, key: Selector<R, V>, x: R): V {
    match key
    case Index(k) => field(x, k)
    case Func(f) => f(x)
  }

  /** The key tuple that the installed map function puts in front of a record. */
  function Extract<R, V>(field: (R, nat) -> V, extractors: seq<Selector<R, V>>, x: R): (t: seq<V>)
    ensures |t| == |extractors|
  {
    seq(|extractors|, i requires 0 <= i < |extractors| => Select(field, extractors[i], x))
  }

  // ---------------------------------------------------------------------------------------------
  // Ascending lists
  // ---------------------------------------------------------------------------------------------

  ghost predicate Ascending(ks: seq<nat>) {
    forall i, j :: 0 <= i < j < |ks| ==> ks[i] < ks[j]
  }

  /** Sorts a set. */
  method SortKeys(ks: set<nat>) returns (r: seq<nat>)
    ensures Ascending(r) && forall k :: k in r <==> k in ks
  {
    r := [];
    var rest := ks;
    while rest != {}
      invariant Ascending(r) && rest <= ks
      invariant forall k :: k in r <==> k in ks && k !in rest
      decreases rest
    {
      var k :| k in rest;
      r := Insert(r, k);
      rest := rest - {k};
    }
  }

  method Insert(ks: seq<nat>, k: nat) returns (r: seq<nat>)
    requires Ascending(ks) && k !in ks
    ensures Ascending(r) && forall m :: m in r <==> m == k || m in ks
  {
    var i := 0;
    while i < |ks| && ks[i] < k
      invariant i <= |ks| && forall j :: 0 <= j < i ==> ks[j] < k
    {
      i := i + 1;
    }
    assert i < |ks| ==> ks[i] in ks;
    InsertedAscends(ks, i, k);
    r := ks[..i] + [k] + ks[i..];
    assert ks == ks[..i] + ks[i..];
  }

  lemma InsertedAscends(ks: seq<nat>, i: nat, k: nat)
    requires Ascending(ks) && i <= |ks| && (i > 0 ==> ks[i - 1] < k) && (i < |ks| ==> k < ks[i])
    ensures Ascending(ks[..i] + [k] + ks[i..])
  {
    var r := ks[..i] + [k] + ks[i..];
    forall a, b | 0 <= a < b < |r| ensures r[a] < r[b] {
      assert r[a] == if a < i then ks[a] else if a == i then k else ks[a - 1];
      assert r[b] == if b < i then ks[b] else if b == i then k else ks[b - 1];
    }
  }

  /** The position of a key in a list that has it. */
  function IndexOf(ks: seq<nat>, k: nat): (i: nat)
    requires k in ks
    ensures i < |ks| && ks[i] == k
  {
    if ks[0] == k then 0 else 1 + IndexOf(ks[1..], k)
  }

  // ---------------------------------------------------------------------------------------------
  // The grouping
  // ---------------------------------------------------------------------------------------------

  /** Positions only, or one function. */
  ghost predicate GroupKeysOk<R, V>(keys: seq<Selector<R, V>>) {
    keys != [] && (keys[0].Func? ==> |keys| == 1) && (keys[0].Index? ==> forall k :: k in keys ==> k.Index?)
  }

  /** `key` is a position in the key tuple, where the tuple has what `was` selects from the record. */
  ghost predicate Points<R(!new), V>(field: (R, nat) -> V, extractors: seq<Selector<R, V>>, key: Selector<R, V>,
                           was: Selector<R, V>) {
    key.Index? && key.k < |extractors| &&
    forall x {:trigger Select(field, was, x)} :: Select(field, extractors[key.k], x) == Select(field, was, x)
  }

  ghost predicate AllPoint<R(!new), V>(field: (R, nat) -> V, extractors: seq<Selector<R, V>>,
                                       keys: seq<Selector<R, V>>, were: seq<Selector<R, V>>) {
    |keys| == |were| && forall i :: 0 <= i < |keys| ==> Points(field, extractors, keys[i], were[i])
  }

  /** At the position `key` the key tuple of every record has the field of the record that `was` names, or
      what the function `was` gives for the record. */
  ghost predicate Delivers<R(!new), V>(field: (R, nat) -> V, extractors: seq<Selector<R, V>>, key: Selector<R, V>,
                                       was: Selector<R, V>) {
    && key.Index? && key.k < |extractors|
    && match was
       case Index(k) => forall x :: Extract(field, extractors, x)[key.k] == field(x, k)
       case Func(f) => forall x :: Extract(field, extractors, x)[key.k] == f(x)
  }

  ghost predicate AllDeliver<R(!new), V>(field: (R, nat) -> V, extractors: seq<Selector<R, V>>,
                                         keys: seq<Selector<R, V>>, were: seq<Selector<R, V>>) {
    |keys| == |were| && forall i :: 0 <= i < |keys| ==> Delivers(field, extractors, keys[i], were[i])
  }

  lemma PointingDelivers<R(!new), V>(field: (R, nat) -> V, extractors: seq<Selector<R, V>>,
                                     keys: seq<Selector<R, V>>, were: seq<Selector<R, V>>)
    requires AllPoint(field, extractors, keys, were)
    ensures AllDeliver(field, extractors, keys, were)
  {
    forall i | 0 <= i < |keys| ensures Delivers(field, extractors, keys[i], were[i]) {
      assert Points(field, extractors, keys[i], were[i]);
      forall x ensures Extract(field, extractors, x)[keys[i].k] == Select(field, were[i], x) {
      }
    }
  }

  /** Each position is extracted at most once. */
  ghost predicate PositionsOnce<R, V>(extractors: seq<Selector<R, V>>) {
    forall i, j :: 0 <= i < j < |extractors| && extractors[i].Index? && extractors[j].Index? ==>
      extractors[i].k != extractors[j].k
  }

  function FunctionsOf<R, V>(sorts: seq<Selector<R, V>>): seq<Selector<R, V>> {
    if sorts == [] then []
    else FunctionsOf(sorts[..|sorts| - 1]) + if sorts[|sorts| - 1].Func? then [sorts[|sorts| - 1]] else []
  }

  /** `fs` are the sorts with these numbers. */
  ghost predicate Picks<R, V>(sorts: seq<Selector<R, V>>, numbers: seq<nat>, fs: seq<Selector<R, V>>) {
    |fs| == |numbers| && forall i :: 0 <= i < |fs| ==> numbers[i] < |sorts| && sorts[numbers[i]] == fs[i]
  }

  /** `numbers` are those of the functions among the first `j` sorts. */
  ghost predicate PicksFunctions<R, V>(sorts: seq<Selector<R, V>>, j: nat, numbers: seq<nat>)
    requires j <= |sorts|
  {
    Picks(sorts, numbers, FunctionsOf(sorts[..j])) == true  // one fact
  }

  lemma PicksNext<R, V>(sorts: seq<Selector<R, V>>, j: nat, numbers: seq<nat>, next: seq<nat>)
    requires j < |sorts| && PicksFunctions(sorts, j, numbers)
    requires next == if sorts[j].Func? then numbers + [j] else numbers
    ensures PicksFunctions(sorts, j + 1, next)
  {
    assert sorts[..j + 1][..j] == sorts[..j];
  }

  /** The key tuple: the `n` positions that are used, ascending, then what the grouping function gives, then
      what the sorting functions give. */
  ghost predicate LaidOut<R, V>(extractors: seq<Selector<R, V>>, n: nat, keys: seq<Selector<R, V>>,
                                sorts: seq<Selector<R, V>>)
    requires keys != []
  {
    && n <= |extractors|
    && (forall i :: 0 <= i < n ==> extractors[i].Index?)
    && (forall i, j :: 0 <= i < j < n ==> extractors[i].k < extractors[j].k)
    && (forall k :: Index(k) in extractors[..n] <==> Index(k) in keys || Index(k) in sorts)
    && extractors[n..] == (if keys[0].Func? then [keys[0]] else []) + FunctionsOf(sorts)
  }

  ghost predicate InOrder<R, V>(extractors: seq<Selector<R, V>>, keys: seq<Selector<R, V>>,
                                sorts: seq<Selector<R, V>>)
    requires keys != []
  {
    (exists n :: LaidOut(extractors, n, keys, sorts)) == true  // one fact
  }

  /** The positions `usedKeys` are extracted, then what `group` gives if it is a function, then what the sorts
      number `functionSorts` give. */
  ghost predicate Extracts<R, V>(extractors: seq<Selector<R, V>>, usedKeys: seq<nat>, group: Selector<R, V>,
                                 sorts: seq<Selector<R, V>>, functionSorts: seq<nat>) {
    var offset := |usedKeys| + if group.Func? then 1 else 0;
    && |extractors| == offset + |functionSorts|
    && (forall i :: 0 <= i < |usedKeys| ==> extractors[i] == Index(usedKeys[i]))
    && (group.Func? ==> extractors[|usedKeys|] == group)
    && (forall i :: 0 <= i < |functionSorts| ==>
          functionSorts[i] < |sorts| && extractors[offset + i] == sorts[functionSorts[i]])
  }

  class Grouping<!R(!new), V> {
    var keys: seq<Selector<R, V>>          // of the grouping
    var sorts: seq<Selector<R, V>>         // the field of each sort operation after it
    var extractors: seq<Selector<R, V>>    // the map function installed on the parent

    constructor (keys: seq<Selector<R, V>>, sorts: seq<Selector<R, V>>)
      ensures this.keys == keys && this.sorts == sorts
    {
      this.keys, this.sorts, extractors := keys, sorts, [];
    }

    /** Collects the positions used, and which sorts are by position and which by function. */
    method Gather() returns (indexKeys: set<nat>, indexSorts: seq<nat>, functionSorts: seq<nat>)
      requires GroupKeysOk(keys)
      ensures forall k :: k in indexKeys <==> Index(k) in keys || Index(k) in sorts
      ensures Split(sorts, indexSorts, functionSorts)
    {
      indexKeys, indexSorts, functionSorts := {}, [], [];
      if keys[0].Index? {
        indexKeys := Positions(keys);
      }
      assert forall k :: k in indexKeys <==> Index(k) in keys;
      var j := 0;
      while j < |sorts|
        invariant j <= |sorts|
        invariant forall k :: k in indexKeys <==> Index(k) in keys || Index(k) in sorts[..j]
        invariant Split(sorts[..j], indexSorts, functionSorts)
      {
        assert sorts[..j + 1] == sorts[..j] + [sorts[j]];
        if sorts[j].Index? {
          indexKeys := indexKeys + {sorts[j].k};
          indexSorts := indexSorts + [j];
        } else {
          functionSorts := functionSorts + [j];
        }
        j := j + 1;
      }
      assert sorts[..j] == sorts;
    }

    /** What the installed map function computes for a record: the positions used, then the grouping
        function, then the sorting functions. */
    method Install(usedKeys: seq<nat>, functionSorts: seq<nat>)
      requires keys != [] && forall i :: 0 <= i < |functionSorts| ==> functionSorts[i] < |sorts|
      modifies this`extractors
      ensures Extracts(extractors, usedKeys, keys[0], sorts, functionSorts)
    {
      var lambdas: seq<Selector<R, V>> := [];
      for i := 0 to |usedKeys|
        invariant |lambdas| == i && forall j :: 0 <= j < i ==> lambdas[j] == Index(usedKeys[j])
      {
        lambdas := lambdas + [Index(usedKeys[i])];
      }
      if keys[0].Func? {
        lambdas := lambdas + [keys[0]];
      }
      ghost var start := lambdas;
      for i := 0 to |functionSorts|
        invariant |lambdas| == |start| + i && lambdas[..|start|] == start
        invariant forall j :: 0 <= j < i ==> lambdas[|start| + j] == sorts[functionSorts[j]]
      {
        lambdas := lambdas + [sorts[functionSorts[i]]];
      }
      assert forall j :: 0 <= j < |start| ==> lambdas[j] == lambdas[..|start|][j];
      extractors := lambdas;
    }

    /** Points the grouping keys into the key tuple. */
    method RewriteKeys(usedKeys: seq<nat>, ghost field: (R, nat) -> V) returns (offset: nat)
      requires GroupKeysOk(keys) && |usedKeys| <= |extractors|
      requires forall k :: Index(k) in keys ==> k in usedKeys
      requires forall i :: 0 <= i < |usedKeys| ==> extractors[i] == Index(usedKeys[i])
      requires keys[0].Func? ==> |usedKeys| < |extractors| && extractors[|usedKeys|] == keys[0]
      modifies this`keys
      ensures AllPoint(field, extractors, keys, old(keys))
      ensures offset == |usedKeys| + if old(keys)[0].Func? then 1 else 0
    {
      offset := |usedKeys|;
      if keys[0].Index? {
        forall i | 0 <= i < |keys| ensures keys[i].Index? && keys[i].k in usedKeys {
          assert keys[i] in keys;
        }
        keys := seq(|keys|, i requires 0 <= i < |keys| && keys[i].Index? && keys[i].k in usedKeys reads this =>
          Index(IndexOf(usedKeys, keys[i].k)));
      } else {
        keys := [Index(offset)];
        offset := offset + 1;
      }
    }

    /** Points the sort fields into the key tuple. */
    method RewriteSorts(usedKeys: seq<nat>, indexSorts: seq<nat>, functionSorts: seq<nat>, offset: nat,
                        ghost field: (R, nat) -> V)
      requires Split(sorts, indexSorts, functionSorts) && |usedKeys| <= offset &&
               offset + |functionSorts| == |extractors|
      requires forall k :: Index(k) in sorts ==> k in usedKeys
      requires forall i :: 0 <= i < |usedKeys| ==> extractors[i] == Index(usedKeys[i])
      requires forall i :: 0 <= i < |functionSorts| ==> extractors[offset + i] == sorts[functionSorts[i]]
      modifies this`sorts
      ensures AllPoint(field, extractors, sorts, old(sorts))
    {
      ghost var were := sorts;
      for i := 0 to |indexSorts|
        invariant |sorts| == |were|
        invariant forall j :: 0 <= j < i ==> Points(field, extractors, sorts[indexSorts[j]], were[indexSorts[j]])
        invariant forall j :: 0 <= j < |were| && (were[j].Func? || j in indexSorts[i..]) ==> sorts[j] == were[j]
      {
        var j := indexSorts[i];
        assert j in indexSorts[i..] && were[j] in were;
        assert indexSorts[i..] == [j] + indexSorts[i + 1..];
        sorts := sorts[j := Index(IndexOf(usedKeys, sorts[j].k))];
      }
      for i := 0 to |functionSorts|
        invariant |sorts| == |were|
        invariant forall j :: 0 <= j < |indexSorts| ==>
                  Points(field, extractors, sorts[indexSorts[j]], were[indexSorts[j]])
        invariant forall j :: 0 <= j < i ==> Points(field, extractors, sorts[functionSorts[j]], were[functionSorts[j]])
      {
        var j := functionSorts[i];
        sorts := sorts[j := Index(offset + i)];
      }
      forall j | 0 <= j < |sorts| ensures Points(field, extractors, sorts[j], were[j]) {
        if j in indexSorts {
          var i :| 0 <= i < |indexSorts| && indexSorts[i] == j;
        } else {
          assert j in functionSorts;
          var i :| 0 <= i < |functionSorts| && functionSorts[i] == j;
        }
      }
    }

    /** Gathers what is used and installs the map function for it. */
    method ChooseExtractors() returns (usedKeys: seq<nat>, indexSorts: seq<nat>, functionSorts: seq<nat>)
      requires GroupKeysOk(keys)
      modifies this`extractors
      ensures InOrder(extractors, keys, sorts) && PositionsOnce(extractors)
      ensures Split(sorts, indexSorts, functionSorts)
      ensures forall k :: k in usedKeys <==> Index(k) in keys || Index(k) in sorts
      ensures Extracts(extractors, usedKeys, keys[0], sorts, functionSorts)
    {
      var indexKeys;
      indexKeys, indexSorts, functionSorts := Gather();
      usedKeys := SortKeys(indexKeys);
      Install(usedKeys, functionSorts);
      ExtractedOnce(extractors, usedKeys, keys[0], sorts, functionSorts);
      SplitPicks(sorts, indexSorts, functionSorts);
      Installed(extractors, usedKeys, functionSorts, keys, sorts);
    }

    /** MAIN: after the rewriting, each grouping key and each sort field is a position in the key tuple at
        which the tuple has, for every record, what the key or field selected from the record itself; no
        position of the record is extracted twice. */
    method Finalize(ghost field: (R, nat) -> V)
      requires GroupKeysOk(keys)
      modifies this
      ensures AllPoint(field, extractors, keys, old(keys)) && AllPoint(field, extractors, sorts, old(sorts))
      ensures AllDeliver(field, extractors, keys, old(keys)) && AllDeliver(field, extractors, sorts, old(sorts))
      ensures PositionsOnce(extractors) && InOrder(extractors, old(keys), old(sorts))
    {
      var usedKeys, indexSorts, functionSorts := ChooseExtractors();
      var offset := RewriteKeys(usedKeys, field);
      RewriteSorts(usedKeys, indexSorts, functionSorts, offset, field);
      PointingDelivers(field, extractors, keys, old(keys));
      PointingDelivers(field, extractors, sorts, old(sorts));
    }

    /** Without sorts: all keys are extracted, in order. */
    method FinalizeUnsorted(ghost field: (R, nat) -> V)
      requires GroupKeysOk(keys)
      modifies this
      ensures AllPoint(field, extractors, keys, old(keys)) && |extractors| == |old(keys)|
      ensures AllDeliver(field, extractors, keys, old(keys))
      ensures sorts == old(sorts)
    {
      extractors := keys;
      keys := seq(|keys|, i requires 0 <= i => Index(i));
      PointingDelivers(field, extractors, keys, old(keys));
    }
  }

  /** The functions among the sorts have these numbers. */
  ghost predicate FunctionNumbers<R, V>(sorts: seq<Selector<R, V>>, numbers: seq<nat>) {
    && Ascending(numbers)
    && (forall i :: 0 <= i < |numbers| ==> numbers[i] < |sorts| && sorts[numbers[i]].Func?)
    && (forall j :: 0 <= j < |sorts| && sorts[j].Func? ==> j in numbers)
  }

  /** `n` of the numbers are below `j`. */
  ghost predicate Below(numbers: seq<nat>, j: nat, n: nat) {
    n <= |numbers| && forall i :: 0 <= i < |numbers| ==> (numbers[i] < j <==> i < n)
  }

  lemma LastBelow<R, V>(sorts: seq<Selector<R, V>>, numbers: seq<nat>, j: nat, n: nat)
    requires FunctionNumbers(sorts, numbers) && 0 < j <= |sorts| && Below(numbers, j, n)
    ensures sorts[j - 1].Func? ==> n > 0 && numbers[n - 1] == j - 1 && Below(numbers, j - 1, n - 1)
    ensures !sorts[j - 1].Func? ==> Below(numbers, j - 1, n)
  {
    if sorts[j - 1].Func? {
      var i :| 0 <= i < |numbers| && numbers[i] == j - 1;
    }
  }

  lemma {:induction false} PickedUpTo<R, V>(sorts: seq<Selector<R, V>>, numbers: seq<nat>, j: nat, n: nat)
    requires FunctionNumbers(sorts, numbers) && j <= |sorts| && Below(numbers, j, n)
    ensures PicksFunctions(sorts, j, numbers[..n])
  {
    if j > 0 {
      LastBelow(sorts, numbers, j, n);
      var m := if sorts[j - 1].Func? then n - 1 else n;
      assert numbers[..n] == if sorts[j - 1].Func? then numbers[..m] + [j - 1] else numbers[..m];
      PickedUpTo(sorts, numbers, j - 1, m);
      PicksNext(sorts, j - 1, numbers[..m], numbers[..n]);
    }
  }

  lemma SplitPicks<R, V>(sorts: seq<Selector<R, V>>, indexSorts: seq<nat>, functionSorts: seq<nat>)
    requires Split(sorts, indexSorts, functionSorts)
    ensures PicksFunctions(sorts, |sorts|, functionSorts)
  {
    forall j | 0 <= j < |sorts| && sorts[j].Func? ensures j in functionSorts {
      assert forall i :: 0 <= i < |indexSorts| ==> sorts[indexSorts[i]] != sorts[j];
    }
    PickedUpTo(sorts, functionSorts, |sorts|, |functionSorts|);
    assert functionSorts[..|functionSorts|] == functionSorts;
  }

  lemma PositionsInOrder<R, V>(extractors: seq<Selector<R, V>>, usedKeys: seq<nat>, group: Selector<R, V>,
                               sorts: seq<Selector<R, V>>, functionSorts: seq<nat>)
    requires Ascending(usedKeys) && Extracts(extractors, usedKeys, group, sorts, functionSorts)
    ensures var n := |usedKeys|;
            && n <= |extractors| && (forall i :: 0 <= i < n ==> extractors[i].Index?)
            && (forall i, j :: 0 <= i < j < n ==> extractors[i].k < extractors[j].k)
            && (forall k :: Index(k) in extractors[..n] <==> k in usedKeys)
  {
    var n := |usedKeys|;
    forall k ensures Index(k) in extractors[..n] <==> k in usedKeys {
      if k in usedKeys {
        var i :| 0 <= i < n && usedKeys[i] == k;
        assert extractors[..n][i] == Index(k);
      }
    }
  }

  lemma FunctionsInOrder<R, V>(extractors: seq<Selector<R, V>>, usedKeys: seq<nat>, group: Selector<R, V>,
                               sorts: seq<Selector<R, V>>, functionSorts: seq<nat>, fs: seq<Selector<R, V>>)
    requires Picks(sorts, functionSorts, fs)
    requires Extracts(extractors, usedKeys, group, sorts, functionSorts)
    ensures |usedKeys| <= |extractors|
    ensures extractors[|usedKeys|..] == (if group.Func? then [group] else []) + fs
  {
    var n, start := |usedKeys|, if group.Func? then [group] else [];
    forall i | 0 <= i < |fs| ensures extractors[n + |start| + i] == fs[i] {
    }
  }

  lemma Installed<R, V>(extractors: seq<Selector<R, V>>, usedKeys: seq<nat>, functionSorts: seq<nat>,
                        keys: seq<Selector<R, V>>, sorts: seq<Selector<R, V>>)
    requires keys != [] && Ascending(usedKeys) && PicksFunctions(sorts, |sorts|, functionSorts)
    requires forall k :: k in usedKeys <==> Index(k) in keys || Index(k) in sorts
    requires Extracts(extractors, usedKeys, keys[0], sorts, functionSorts)
    ensures InOrder(extractors, keys, sorts)
  {
    PositionsInOrder(extractors, usedKeys, keys[0], sorts, functionSorts);
    assert sorts[..|sorts|] == sorts;
    FunctionsInOrder(extractors, usedKeys, keys[0], sorts, functionSorts, FunctionsOf(sorts));
    assert LaidOut(extractors, |usedKeys|, keys, sorts);
  }

  lemma ExtractedOnce<R, V>(extractors: seq<Selector<R, V>>, usedKeys: seq<nat>, group: Selector<R, V>,
                            sorts: seq<Selector<R, V>>, functionSorts: seq<nat>)
    requires Ascending(usedKeys) && Extracts(extractors, usedKeys, group, sorts, functionSorts)
    requires forall i :: 0 <= i < |functionSorts| ==> sorts[functionSorts[i]].Func?
    ensures PositionsOnce(extractors)
  {
    var offset := |usedKeys| + if group.Func? then 1 else 0;
    forall i | |usedKeys| <= i < |extractors| ensures extractors[i].Func? {
      if i >= offset {
        assert extractors[offset + (i - offset)] == sorts[functionSorts[i - offset]];
      }
    }
  }

  /** The numbers of the sorts by position, and of those by function, each in order. */
  ghost predicate Split<R, V>(sorts: seq<Selector<R, V>>, indexSorts: seq<nat>, functionSorts: seq<nat>) {
    && Ascending(indexSorts) && Ascending(functionSorts)
    && (forall i :: 0 <= i < |indexSorts| ==> indexSorts[i] < |sorts| && sorts[indexSorts[i]].Index?)
    && (forall i :: 0 <= i < |functionSorts| ==> functionSorts[i] < |sorts| && sorts[functionSorts[i]].Func?)
    && (forall j :: 0 <= j < |sorts| ==> j in indexSorts || j in functionSorts)
  }

  /** MAIN: grouping the extracted pairs by the rewritten keys is grouping the records by the original
      ones: the key of a pair is the tuple of what the original keys select. */
  lemma RemappedKeyIsOriginal<R(!new), V>(field: (R, nat) -> V, extractors: seq<Selector<R, V>>,
                                          keys: seq<Selector<R, V>>, were: seq<Selector<R, V>>, positions: seq<nat>,
                                          x: R)
    requires AllPoint(field, extractors, keys, were)
    requires |positions| == |keys| && forall i :: 0 <= i < |keys| ==> keys[i] == Index(positions[i])
    ensures forall k :: k in positions ==> k < |extractors|
    ensures Key(Rec(Extract(field, extractors, x), x), positions) == Extract(field, were, x)
  {
    forall i | 0 <= i < |keys|
      ensures positions[i] < |extractors| && Select(field, extractors[positions[i]], x) == Select(field, were[i], x)
    {
      assert Points(field, extractors, keys[i], were[i]);
    }
  }

  /** MAIN: records grouped by the positions `ks` are grouped by those fields: the key of a pair has them in
      order, and two pairs have equal keys exactly when the records agree in all of them. */
  lemma GroupedByFields<R(!new), V>(field: (R, nat) -> V, extractors: seq<Selector<R, V>>,
                                    keys: seq<Selector<R, V>>, were: seq<Selector<R, V>>, ks: seq<nat>,
                                    positions: seq<nat>, x: R, y: R)
    requires AllDeliver(field, extractors, keys, were)
    requires |ks| == |were| && forall i :: 0 <= i < |ks| ==> were[i] == Index(ks[i])
    requires |positions| == |keys| && forall i :: 0 <= i < |keys| ==> keys[i] == Index(positions[i])
    ensures forall k :: k in positions ==> k < |extractors|
    ensures var key := Key(Rec(Extract(field, extractors, x), x), positions);
            |key| == |ks| && forall i :: 0 <= i < |ks| ==> key[i] == field(x, ks[i])
    ensures Key(Rec(Extract(field, extractors, x), x), positions) ==
            Key(Rec(Extract(field, extractors, y), y), positions)
            <==> forall k :: k in ks ==> field(x, k) == field(y, k)
  {
    forall i | 0 <= i < |keys|
      ensures positions[i] < |extractors|
      ensures forall z :: Extract(field, extractors, z)[positions[i]] == field(z, ks[i])
    {
      assert Delivers(field, extractors, keys[i], were[i]);
    }
    var a := Key(Rec(Extract(field, extractors, x), x), positions);
    var b := Key(Rec(Extract(field, extractors, y), y), positions);
    if a == b {
      forall k | k in ks ensures field(x, k) == field(y, k) {
        var i :| 0 <= i < |ks| && ks[i] == k;
        assert a[i] == b[i];
      }
    }
  }

  /** Records grouped by a function are grouped by its result. */
  lemma GroupedByFunction<R(!new), V>(field: (R, nat) -> V, extractors: seq<Selector<R, V>>,
                                      keys: seq<Selector<R, V>>, f: R -> V, position: nat, x: R)
    requires AllDeliver(field, extractors, keys, [Func(f)]) && keys == [Index(position)]
    ensures position < |extractors| && Key(Rec(Extract(field, extractors, x), x), [position]) == [f(x)]
  {
    assert Delivers(field, extractors, keys[0], [Func(f)][0]);
  }

  method Positions<R, V>(keys: seq<Selector<R, V>>) returns (ks: set<nat>)
    requires forall k :: k in keys ==> k.Index?
    ensures forall k :: k in ks <==> Index(k) in keys
  {
    ks := {};
    for i := 0 to |keys|
      invariant forall k :: k in ks <==> Index(k) in keys[..i]
    {
      assert keys[..i + 1] == keys[..i] + [keys[i]];
      ks := ks + {keys[i].k};
    }
    assert keys[..|keys|] == keys;
  }
}
