/** The drivers of reduce and group-reduce functions. */
module Reducers {
  import opened Common
  import opened GroupIteration

  // ---------------------------------------------------------------------------------------------
  // Reduce
  // ---------------------------------------------------------------------------------------------

  /** Left fold of a non-empty group. */
  function Fold<V>(f: (V, V) -> V, vs: seq<V>): V
    requires vs != []
  {
    if |vs| == 1 then vs[0] else f(Fold(f, vs[..|vs| - 1]), vs[|vs| - 1])
  }

  /** The fold takes the values in order: joining texts gives the texts one after the other. */
  lemma {:induction false} FoldInOrder<T>(f: (seq<T>, seq<T>) -> seq<T>, vs: seq<seq<T>>)
    requires vs != [] && forall a, b :: f(a, b) == a + b
    ensures Fold(f, vs) == Joined(vs)
  {
    if |vs| > 1 {
      FoldInOrder(f, vs[..|vs| - 1]);
    }
    JoinedLast(vs);
  }

  lemma FoldNext<V>(f: (V, V) -> V, vs: seq<V>, n: nat)
    requires 0 < n < |vs|
    ensures Fold(f, vs[..n + 1]) == f(Fold(f, vs[..n]), vs[n])
  {
    assert vs[..n + 1][..n] == vs[..n];
  }

  /** One folded value per group, in order. */
  ghost function FoldGroups<K, V>(f: (V, V) -> V, gs: seq<Group<K, V>>): seq<V>
    requires Separated(gs)
  {
    if gs == [] then [] else [Fold(f, gs[0].vals)] + FoldGroups(f, gs[1..])
  }

  method RunAllReduce<V>(input: Source<V>, f: (V, V) -> V) returns (out: seq<V>)
    modifies input
    ensures out == if old(input.rest) == [] then [] else [Fold(f, old(input.rest))]
    ensures input.rest == []
  {
    ghost var xs := input.rest;
    out := [];
    var more := input.HasNext();
    if more {
      var base := input.Next();
      ghost var n := 1;
      more := input.HasNext();
      while more
        invariant 1 <= n <= |xs| && input.rest == xs[n..] && (more <==> input.rest != [])
        invariant base == Fold(f, xs[..n])
        decreases |input.rest|
      {
        var value := input.Next();
        FoldNext(f, xs, n);
        base := f(base, value);
        n := n + 1;
        more := input.HasNext();
      }
      assert xs[..n] == xs;
      out := [base];
    }
  }

  lemma SliceNext<T>(s: seq<T>, i: nat)
    requires i < |s|
    ensures s[i..][0] == s[i] && s[i..][1..] == s[i + 1..]
  {
  }

  /** `k` values were delivered of a group that started out as `all`, with `pending` to come. */
  ghost predicate At<K, V>(it: GroupIterator<K, V>, all: seq<V>, pending: seq<Rec<K, V>>, k: nat)
    reads it, it.input
  {
    (it.Valid() && k <= |all| <= |pending| && it.Current() == all[k..] && it.Pending() == pending[k..]) == true
  }

  method HasNextAt<K(==), V>(it: GroupIterator<K, V>, ghost all: seq<V>, ghost pending: seq<Rec<K, V>>, ghost k: nat)
    returns (r: bool)
    requires At(it, all, pending, k)
    ensures k <= |all| && (r <==> k < |all|)
  {
    r := it.HasNext();
  }

  method NextAt<K(==), V>(it: GroupIterator<K, V>, ghost all: seq<V>, ghost pending: seq<Rec<K, V>>, ghost k: nat)
    returns (v: V)
    requires At(it, all, pending, k) && k < |all|
    modifies it, it.input
    ensures At(it, all, pending, k + 1) && it.key == old(it.key) && v == all[k]
  {
    SliceNext(all, k);
    SliceNext(pending, k);
    var x := it.Next();
    v := x.value;
  }

  /** What the fold of the group is after `k` of its values. */
  ghost predicate FoldedAt<V>(f: (V, V) -> V, all: seq<V>, k: nat, base: V) {
    (0 < k <= |all| && base == Fold(f, all[..k])) == true
  }

  method ReduceFirst<K(==), V>(it: GroupIterator<K, V>, ghost f: (V, V) -> V, ghost all: seq<V>,
                               ghost pending: seq<Rec<K, V>>)
    returns (base: V)
    requires At(it, all, pending, 0) && all != []
    modifies it, it.input
    ensures At(it, all, pending, 1) && FoldedAt(f, all, 1, base)
  {
    base := NextAt(it, all, pending, 0);
  }

  /** Folds one more value of the group. */
  method ReduceOne<K(==), V>(it: GroupIterator<K, V>, f: (V, V) -> V, base: V,
                             ghost all: seq<V>, ghost pending: seq<Rec<K, V>>, ghost k: nat)
    returns (next: V)
    requires At(it, all, pending, k) && k < |all| && FoldedAt(f, all, k, base)
    modifies it, it.input
    ensures At(it, all, pending, k + 1) && FoldedAt(f, all, k + 1, next)
  {
    var value := NextAt(it, all, pending, k);
    FoldNext(f, all, k);
    next := f(base, value);
  }

  /** Folds the group the iterator stands at, and uses it up. */
  method ReduceAt<K(==), V>(it: GroupIterator<K, V>, f: (V, V) -> V, ghost all: seq<V>, ghost pending: seq<Rec<K, V>>)
    returns (base: V)
    requires At(it, all, pending, 0) && all != []
    modifies it, it.input
    ensures At(it, all, pending, |all|) && FoldedAt(f, all, |all|, base)
  {
    base := ReduceFirst(it, f, all, pending);
    ghost var n := 1;
    var left := HasNextAt(it, all, pending, n);
    while left
      invariant At(it, all, pending, n) && FoldedAt(f, all, n, base)
      invariant left <==> n < |all|
      decreases |all| - n
    {
      base := ReduceOne(it, f, base, all, pending, n);
      n := n + 1;
      left := HasNextAt(it, all, pending, n);
    }
  }

  method ReduceGroup<K(==), V>(it: GroupIterator<K, V>, f: (V, V) -> V) returns (base: V)
    requires it.Valid() && it.Current() != []
    modifies it, it.input
    ensures it.Valid() && base == Fold(f, old(it.Current()))
    ensures it.Pending() == old(it.Pending())[|old(it.Current())|..]
  {
    ghost var vs, pending := it.Current(), it.Pending();
    assert At(it, vs, pending, 0);
    base := ReduceAt(it, f, vs, pending);
    assert vs[..|vs|] == vs;
  }

  /** The groups still to come are `gs`. */
  ghost predicate AtGroups<K, V>(it: GroupIterator<K, V>, gs: seq<Group<K, V>>)
    reads it, it.input
  {
    (it.Valid() && Runs(it.Pending(), it.keys) == gs && Separated(gs)) == true
  }

  method InitGroups<K(==), V>(it: GroupIterator<K, V>)
    requires KeysOk(it.input.rest, it.keys) && it.cur == None
    modifies it, it.input
    ensures AtGroups(it, Runs(old(it.input.rest), it.keys))
  {
    RunsAreSeparated(it.input.rest, it.keys);
    it.Init();
  }

  method HasGroupAt<K(==), V>(it: GroupIterator<K, V>, ghost gs: seq<Group<K, V>>) returns (r: bool)
    requires AtGroups(it, gs)
    ensures r <==> gs != []
  {
    r := it.HasGroup();
  }

  /** Folds the next group and leaves the later ones. */
  method ReduceNextGroup<K(==), V>(it: GroupIterator<K, V>, f: (V, V) -> V, ghost gs: seq<Group<K, V>>)
    returns (base: V)
    requires AtGroups(it, gs) && gs != []
    modifies it, it.input
    ensures AtGroups(it, gs[1..]) && gs[0].vals != [] && base == Fold(f, gs[0].vals)
  {
    it.NextGroup();
    assert gs[0].vals == it.Current();
    base := ReduceGroup(it, f);
  }

  lemma FoldGroupsNext<K, V>(f: (V, V) -> V, gs: seq<Group<K, V>>, out: seq<V>)
    requires Separated(gs) && gs != []
    ensures (out + [Fold(f, gs[0].vals)]) + FoldGroups(f, gs[1..]) == out + FoldGroups(f, gs)
  {
  }

  /** Grouped reduce: for every input, the left fold of each maximal run of equal keys, in order. */
  method RunGroupedReduce<K(==), V>(it: GroupIterator<K, V>, f: (V, V) -> V) returns (out: seq<V>)
    requires KeysOk(it.input.rest, it.keys) && it.cur == None
    modifies it, it.input
    ensures Separated(Runs(old(it.input.rest), it.keys))
    ensures out == FoldGroups(f, Runs(old(it.input.rest), it.keys))
    ensures var gs := Runs(old(it.input.rest), it.keys);
            |out| == |gs| && forall i :: 0 <= i < |gs| ==> gs[i].vals != [] && out[i] == Fold(f, gs[i].vals)
  {
    ghost var all := Runs(it.input.rest, it.keys);
    RunsAreSeparated(it.input.rest, it.keys);
    out := [];
    InitGroups(it);
    ghost var gs := all;
    var more := HasGroupAt(it, gs);
    while more
      invariant AtGroups(it, gs) && Separated(gs) && (more <==> gs != [])
      invariant out + FoldGroups(f, gs) == FoldGroups(f, all)
      decreases |gs|
    {
      FoldGroupsNext(f, gs, out);
      var base := ReduceNextGroup(it, f, gs);
      out := out + [base];
      gs := gs[1..];
      more := HasGroupAt(it, gs);
    }
    FoldOfEach(f, all);
  }

  lemma {:induction false} FoldOfEach<K, V>(f: (V, V) -> V, gs: seq<Group<K, V>>)
    requires Separated(gs)
    ensures var out := FoldGroups(f, gs);
            |out| == |gs| && forall i :: 0 <= i < |gs| ==> gs[i].vals != [] && out[i] == Fold(f, gs[i].vals)
  {
    if gs != [] {
      FoldOfEach(f, gs[1..]);
    }
  }

  // ---------------------------------------------------------------------------------------------
  // Group reduce
  // ---------------------------------------------------------------------------------------------

  /** One call: the function gets the group of the first record and reads some of it, perhaps nothing. What
      it leaves unread is `rest`. */
  ghost predicate IsCall<K, V>(xs: seq<Rec<K, V>>, keys: seq<nat>, call: Group<K, V>, rest: seq<Rec<K, V>>)
    requires KeysOk(xs, keys)
  {
    && xs != [] && call.key == Key(xs[0], keys)
    && |call.vals| <= RunLength(call.key, xs, keys)
    && call.vals == Vals(xs[..|call.vals|]) && rest == xs[|call.vals|..]
  }

  /** The function can be called like this on the records `xs`, one call after the other, with `rest` left.
      Nothing is said about how it decides what to read: it may keep state from call to call. */
  ghost predicate CallsFrom<K, V>(xs: seq<Rec<K, V>>, keys: seq<nat>, calls: seq<Group<K, V>>, rest: seq<Rec<K, V>>)
    requires KeysOk(xs, keys)
    decreases |calls|
  {
    if calls == [] then rest == xs
    else
      && |calls[0].vals| <= |xs|
      && IsCall(xs, keys, calls[0], xs[|calls[0].vals|..])
      && CallsFrom(xs[|calls[0].vals|..], keys, calls[1..], rest)
  }

  /** Every call reads its group to the end. */
  ghost predicate ReadToEnd<K, V>(xs: seq<Rec<K, V>>, keys: seq<nat>, calls: seq<Group<K, V>>)
    requires KeysOk(xs, keys)
    decreases |calls|
  {
    calls != [] ==>
      && |calls[0].vals| <= |xs| && |calls[0].vals| == RunLength(calls[0].key, xs, keys)
      && ReadToEnd(xs[|calls[0].vals|..], keys, calls[1..])
  }

  /** MAIN: in a run that used up its input, the calls are one per group, with the whole group, if and only
      if every call read its group to the end. The driver does not skip what is left unread. */
  lemma {:induction false} OneCallPerGroupIff<K, V>(xs: seq<Rec<K, V>>, keys: seq<nat>, calls: seq<Group<K, V>>)
    requires KeysOk(xs, keys) && CallsFrom(xs, keys, calls, [])
    ensures calls == Runs(xs, keys) <==> ReadToEnd(xs, keys, calls)
    decreases |calls|
  {
    if calls != [] {
      var n := |calls[0].vals|;
      OneCallPerGroupIff(xs[n..], keys, calls[1..]);
      FirstRun(xs, keys);
      assert calls == [calls[0]] + calls[1..];
    }
  }

  lemma FirstRun<K, V>(xs: seq<Rec<K, V>>, keys: seq<nat>)
    requires KeysOk(xs, keys) && xs != []
    ensures var key := Key(xs[0], keys); var n := RunLength(key, xs, keys);
            && KeysOk(xs[n..], keys) && Runs(xs, keys) != []
            && Runs(xs, keys)[0] == Group(key, Vals(xs[..n])) && Runs(xs, keys)[1..] == Runs(xs[n..], keys)
  {
  }

  /** What a call leaves of its group goes to another call with the same key. */
  lemma SplitGroupIsSeen<K, V>(xs: seq<Rec<K, V>>, keys: seq<nat>, calls: seq<Group<K, V>>)
    requires KeysOk(xs, keys) && CallsFrom(xs, keys, calls, []) && calls != []
    ensures |calls[0].vals| < RunLength(calls[0].key, xs, keys) ==> |calls| > 1 && calls[1].key == calls[0].key
  {
    RunLengthIsMaximal(calls[0].key, xs, keys);
  }

  /** MAIN: this shows in the calls alone: none is empty, and neighbours differ in key. */
  lemma {:induction false} SeparatedCallsAreGroups<K, V>(xs: seq<Rec<K, V>>, keys: seq<nat>, calls: seq<Group<K, V>>)
    requires KeysOk(xs, keys) && CallsFrom(xs, keys, calls, [])
    ensures calls == Runs(xs, keys) <==> Separated(calls)
    decreases |calls|
  {
    RunsAreSeparated(xs, keys);
    if calls != [] && Separated(calls) {
      var n := |calls[0].vals|;
      SeparatedCallsAreGroups(xs[n..], keys, calls[1..]);
      SplitGroupIsSeen(xs, keys, calls);
      FirstRun(xs, keys);
      assert calls == [calls[0]] + calls[1..];
    }
  }

  /** MAIN: however little it reads at a time, every value reaches the function at most once, in input order,
      and nothing is skipped. */
  lemma {:induction false} CallsConserve<K, V>(xs: seq<Rec<K, V>>, keys: seq<nat>, calls: seq<Group<K, V>>,
                                               rest: seq<Rec<K, V>>)
    requires KeysOk(xs, keys) && CallsFrom(xs, keys, calls, rest)
    ensures Concat(calls) + Vals(rest) == Vals(xs)
    decreases |calls|
  {
    if calls != [] {
      var n := |calls[0].vals|;
      CallsConserve(xs[n..], keys, calls[1..], rest);
      assert Vals(xs) == Vals(xs[..n]) + Vals(xs[n..]);
      Associate(calls[0].vals, Concat(calls[1..]), Vals(rest));
    }
  }

  /** If every call reads something, the driver comes to an end. */
  lemma {:induction false} FewCalls<K, V>(xs: seq<Rec<K, V>>, keys: seq<nat>, calls: seq<Group<K, V>>,
                                          rest: seq<Rec<K, V>>)
    requires KeysOk(xs, keys) && CallsFrom(xs, keys, calls, rest)
    requires forall i :: 0 <= i < |calls| ==> calls[i].vals != []
    ensures |calls| + |rest| <= |xs|
    decreases |calls|
  {
    if calls != [] {
      FewCalls(xs[|calls[0].vals|..], keys, calls[1..], rest);
    }
  }

  function EmptyCalls<K, V>(key: seq<K>, n: nat): seq<Group<K, V>> {
    if n == 0 then [] else [Group(key, [])] + EmptyCalls(key, n - 1)
  }

  /** If the function reads nothing, it can be called any number of times for the same group. */
  lemma {:induction false} StuckCalls<K, V>(xs: seq<Rec<K, V>>, keys: seq<nat>, n: nat)
    requires KeysOk(xs, keys) && xs != []
    ensures CallsFrom(xs, keys, EmptyCalls(Key(xs[0], keys), n), xs)
    ensures |EmptyCalls<K, V>(Key(xs[0], keys), n)| == n
    decreases n
  {
    if n > 0 {
      var calls: seq<Group<K, V>> := EmptyCalls(Key(xs[0], keys), n);
      assert xs[0..] == xs && Vals(xs[..0]) == [];
      assert calls[1..] == EmptyCalls(Key(xs[0], keys), n - 1);
      StuckCalls(xs, keys, n - 1);
    }
  }

  lemma {:induction false} OneMoreCall<K, V>(xs: seq<Rec<K, V>>, keys: seq<nat>, calls: seq<Group<K, V>>,
                                             mid: seq<Rec<K, V>>, call: Group<K, V>, rest: seq<Rec<K, V>>)
    requires KeysOk(xs, keys) && CallsFrom(xs, keys, calls, mid) && KeysOk(mid, keys) && IsCall(mid, keys, call, rest)
    ensures CallsFrom(xs, keys, calls + [call], rest)
    decreases |calls|
  {
    if calls == [] {
      assert calls + [call] == [call] && [call][1..] == [];
    } else {
      OneMoreCall(xs[|calls[0].vals|..], keys, calls[1..], mid, call, rest);
      assert (calls + [call])[1..] == calls[1..] + [call];
    }
  }

  /** The values `vs` were read of the group. */
  ghost predicate ReadAt<K, V>(it: GroupIterator<K, V>, all: seq<V>, pending: seq<Rec<K, V>>, vs: seq<V>, key: seq<K>)
    reads it, it.input
  {
    (At(it, all, pending, |vs|) && it.key == key && vs <= all) == true
  }

  method ReadOne<K(==), V>(it: GroupIterator<K, V>, ghost all: seq<V>, ghost pending: seq<Rec<K, V>>, vs: seq<V>,
                           ghost key: seq<K>)
    returns (next: seq<V>)
    requires ReadAt(it, all, pending, vs, key) && |vs| < |all|
    modifies it, it.input
    ensures ReadAt(it, all, pending, next, key) && |next| == |vs| + 1
  {
    var v := NextAt(it, all, pending, |vs|);
    next := vs + [v];
  }

  method MoreAt<K(==), V>(it: GroupIterator<K, V>, ghost all: seq<V>, ghost pending: seq<Rec<K, V>>, ghost vs: seq<V>,
                          ghost key: seq<K>)
    returns (r: bool)
    requires ReadAt(it, all, pending, vs, key)
    ensures r <==> |vs| < |all|
  {
    r := HasNextAt(it, all, pending, |vs|);
  }

  /** The reading of a call: the function stops whenever it likes. */
  method ReadSome<K(==), V>(it: GroupIterator<K, V>, ghost all: seq<V>, ghost pending: seq<Rec<K, V>>,
                            ghost key: seq<K>)
    returns (vs: seq<V>)
    requires ReadAt(it, all, pending, [], key)
    modifies it, it.input
    ensures ReadAt(it, all, pending, vs, key)
  {
    vs := [];
    var left := MoreAt(it, all, pending, [], key);
    var more: bool := *;
    while left && more
      invariant ReadAt(it, all, pending, vs, key)
      invariant left <==> |vs| < |all|
      decreases |all| - |vs|
    {
      vs := ReadOne(it, all, pending, vs, key);
      left := MoreAt(it, all, pending, vs, key);
      more := *;
    }
  }

  /** One call of the function, which reads as much as it likes. */
  method CallFunction<K(==), V>(it: GroupIterator<K, V>) returns (vs: seq<V>)
    requires it.Valid()
    modifies it, it.input
    ensures it.Valid() && it.key == old(it.key) && |vs| <= |old(it.Current())| <= |old(it.Pending())|
    ensures vs == old(it.Current())[..|vs|] && it.Pending() == old(it.Pending())[|vs|..]
  {
    ghost var all, pending := it.Current(), it.Pending();
    assert At(it, all, pending, 0);
    vs := ReadSome(it, all, pending, it.key);
  }

  /** The function was called as `calls` on the records `xs`, and the others are still to come. */
  ghost predicate AtCall<K, V>(it: GroupIterator<K, V>, xs: seq<Rec<K, V>>, calls: seq<Group<K, V>>)
    reads it, it.input
  {
    (it.Valid() && KeysOk(xs, it.keys) && CallsFrom(xs, it.keys, calls, it.Pending())) == true
  }

  method HasCallAt<K(==), V>(it: GroupIterator<K, V>, ghost xs: seq<Rec<K, V>>, ghost calls: seq<Group<K, V>>)
    returns (r: bool)
    requires AtCall(it, xs, calls)
    ensures !r ==> it.Pending() == [] && KeysOk(xs, it.keys) && CallsFrom(xs, it.keys, calls, [])
    ensures r ==> it.Pending() != []
  {
    r := it.HasGroup();
  }

  method CallForNextGroup<K(==), V>(it: GroupIterator<K, V>, ghost xs: seq<Rec<K, V>>, calls: seq<Group<K, V>>)
    returns (next: seq<Group<K, V>>)
    requires AtCall(it, xs, calls) && it.Pending() != []
    modifies it, it.input
    ensures AtCall(it, xs, next) && |next| == |calls| + 1
  {
    it.NextGroup();
    ghost var mid := it.Pending();
    var vs := CallFunction(it);
    var call := Group(it.key, vs);
    assert IsCall(mid, it.keys, call, it.Pending());
    OneMoreCall(xs, it.keys, calls, mid, call, it.Pending());
    next := calls + [call];
  }

  /** Grouped group-reduce, followed for at most `rounds` iterations of the driver: the calls it makes, in
      order, and whether it came to an end. */
  method RunGroupedGroupReduce<K(==), V>(it: GroupIterator<K, V>, rounds: nat)
    returns (calls: seq<Group<K, V>>, done: bool)
    requires KeysOk(it.input.rest, it.keys) && it.cur == None
    modifies it, it.input
    ensures CallsFrom(old(it.input.rest), it.keys, calls, it.Pending())
    ensures done ==> it.Pending() == []
    ensures !done ==> |calls| == rounds && it.Pending() != []
    ensures (forall i :: 0 <= i < |calls| ==> calls[i].vals != []) && |old(it.input.rest)| <= rounds ==> done
  {
    ghost var xs := it.input.rest;
    calls := [];
    it.Init();
    assert AtCall(it, xs, calls);
    var more := HasCallAt(it, xs, calls);
    while more && |calls| < rounds
      invariant AtCall(it, xs, calls) && |calls| <= rounds && (more <==> it.Pending() != [])
      decreases rounds - |calls|
    {
      calls := CallForNextGroup(it, xs, calls);
      more := HasCallAt(it, xs, calls);
    }
    done := !more;
    if forall i :: 0 <= i < |calls| ==> calls[i].vals != [] {
      FewCalls(xs, it.keys, calls, it.Pending());
    }
  }
}
