/** Running a chain of record-wise operators: each operator pushes what it emits straight into the
    next one, and the last one into the collector of the subtask. */
module FusedChain {
  import opened Common
  import opened Stages

  /** User functions; `S` is whatever state a user function keeps between calls. A flat map emits
      records through the collector it is given and may also return some. */
  datatype Udf<!D, !S> =
    | MapUdf(map_: (S, D) -> (S, D))
    | FilterUdf(filter: (S, D) -> (S, bool))
    | FlatMapUdf(flatMap: (S, D) -> (S, seq<D>, Option<seq<D>>))

  /** State after one call, and all records the call hands on, in order. */
  function Emit<D, S>(u: Udf<D, S>, s: S, x: D): (S, seq<D>) {
    match u
    case MapUdf(f) => var (s', y) := f(s, x); (s', [y])
    case FilterUdf(f) => var (s', keep) := f(s, x); (s', if keep then [x] else [])
    case FlatMapUdf(f) =>
      var (s', emitted, returned) := f(s, x);
      (s', emitted + if returned.Some? then returned.value else [])
  }

  function AsStage<D, S>(u: Udf<D, S>, init: S): Stage<D, S> {
    Stage(init, (s, x) => Emit(u, s, x))
  }

  // ---------------------------------------------------------------------------------------------
  // Staged and pushed execution
  // ---------------------------------------------------------------------------------------------

  /** Staged execution: every operator processes a whole list before the next one starts. Returns the
      final states and the output. */
  function Staged<D, S>(us: seq<Udf<D, S>>, ss: seq<S>, xs: seq<D>): (r: (seq<S>, seq<D>))
    requires |us| == |ss|
    ensures |r.0| == |ss|
    decreases |us|
  {
    if us == [] then ([], xs) else
    var (s, ys) := RunFrom(AsStage(us[0], ss[0]), ss[0], xs);
    var (rest, out) := Staged(us[1..], ss[1..], ys);
    ([s] + rest, out)
  }

  /** Pushed execution of one record: what it leads to runs through the whole chain at once. */
  function Push<D, S>(us: seq<Udf<D, S>>, ss: seq<S>, x: D): (r: (seq<S>, seq<D>))
    requires |us| == |ss|
    ensures |r.0| == |ss|
    decreases |us|, 0
  {
    if us == [] then ([], [x]) else
    var (s, ys) := Emit(us[0], ss[0], x);
    var (rest, out) := PushAll(us[1..], ss[1..], ys);
    ([s] + rest, out)
  }

  function PushAll<D, S>(us: seq<Udf<D, S>>, ss: seq<S>, xs: seq<D>): (r: (seq<S>, seq<D>))
    requires |us| == |ss|
    ensures |r.0| == |ss|
    decreases |us|, |xs|
  {
    if xs == [] then (ss, []) else
    var (ss1, out) := Push(us, ss, xs[0]);
    var (ss2, rest) := PushAll(us, ss1, xs[1..]);
    (ss2, out + rest)
  }

  lemma {:induction false} PushAllConcat<D, S>(us: seq<Udf<D, S>>, ss: seq<S>, xs: seq<D>, ys: seq<D>)
    requires |us| == |ss|
    ensures var (ss1, out1) := PushAll(us, ss, xs);
            var (ss2, out2) := PushAll(us, ss1, ys);
            PushAll(us, ss, xs + ys) == (ss2, out1 + out2)
    decreases |xs|
  {
    if xs == [] {
      assert xs + ys == ys;
      assert [] + PushAll(us, ss, ys).1 == PushAll(us, ss, ys).1;
    } else {
      var (ss0, out) := Push(us, ss, xs[0]);
      PushAllConcat(us, ss0, xs[1..], ys);
      assert (xs + ys)[1..] == xs[1..] + ys;
      var (ss1, out1) := PushAll(us, ss0, xs[1..]);
      var (ss2, out2) := PushAll(us, ss1, ys);
      assert out + (out1 + out2) == (out + out1) + out2;
    }
  }

  /** Pushing through a chain is running its first operator on everything and pushing the result
      through the rest. */
  lemma {:induction false} PushAllHead<D, S>(us: seq<Udf<D, S>>, ss: seq<S>, xs: seq<D>)
    requires |us| == |ss| && us != []
    ensures var (s, ys) := RunFrom(AsStage(us[0], ss[0]), ss[0], xs);
            var (rest, out) := PushAll(us[1..], ss[1..], ys);
            PushAll(us, ss, xs) == ([s] + rest, out)
    decreases |xs|
  {
    if xs == [] {
      assert [ss[0]] + ss[1..] == ss;
    } else {
      var (s1, ys1) := Emit(us[0], ss[0], xs[0]);
      var (ss1, out1) := Push(us, ss, xs[0]);
      PushAllHead(us, ss1, xs[1..]);
      InitIrrelevant(us[0], ss[0], ss1[0], ss1[0], xs[1..]);
      assert ss1[1..] == PushAll(us[1..], ss[1..], ys1).0;
      PushAllConcat(us[1..], ss[1..], ys1, RunFrom(AsStage(us[0], ss1[0]), ss1[0], xs[1..]).1);
    }
  }

  lemma {:induction false} InitIrrelevant<D, S>(u: Udf<D, S>, a: S, b: S, s: S, xs: seq<D>)
    ensures RunFrom(AsStage(u, a), s, xs) == RunFrom(AsStage(u, b), s, xs)
  {
    if xs != [] {
      InitIrrelevant(u, a, b, Emit(u, s, xs[0]).0, xs[1..]);
    }
  }

  /** MAIN: pushing records one by one through a chain of stateful operators yields, in order, the
      output of running the operators one after another on whole lists, and the same final states. */
  lemma {:induction false} PushedIsStaged<D, S>(us: seq<Udf<D, S>>, ss: seq<S>, xs: seq<D>)
    requires |us| == |ss|
    ensures PushAll(us, ss, xs) == Staged(us, ss, xs)
    decreases |us|
  {
    if us == [] {
      PushNothing<D, S>(xs);
    } else {
      PushAllHead(us, ss, xs);
      PushedIsStaged(us[1..], ss[1..], RunFrom(AsStage(us[0], ss[0]), ss[0], xs).1);
    }
  }

  lemma {:induction false} PushNothing<D, S>(xs: seq<D>)
    ensures PushAll<D, S>([], [], xs) == ([], xs)
  {
    if xs != [] {
      PushNothing<D, S>(xs[1..]);
      assert [xs[0]] + xs[1..] == xs;
    }
  }

  // ---------------------------------------------------------------------------------------------
  // What each kind of operator makes of its input
  // ---------------------------------------------------------------------------------------------

  /** The state of a user function once it was called for the first `i` records. */
  function StateAt<D, S>(next: (S, D) -> S, s: S, xs: seq<D>, i: nat): S
    requires i <= |xs|
  {
    if i == 0 then s else next(StateAt(next, s, xs, i - 1), xs[i - 1])
  }

  /** The results of a map function, one per record. */
  function Mapped<D, S>(f: (S, D) -> (S, D), s: S, xs: seq<D>): seq<D> {
    seq(|xs|, i requires 0 <= i < |xs| => f(StateAt((t, x) => f(t, x).0, s, xs, i), xs[i]).1)
  }

  /** The records among the first `n` for which a filter function says yes. */
  function Kept<D, S>(f: (S, D) -> (S, bool), s: S, xs: seq<D>, n: nat): seq<D>
    requires n <= |xs|
  {
    if n == 0 then []
    else if f(StateAt((t, x) => f(t, x).0, s, xs, n - 1), xs[n - 1]).1 then Kept(f, s, xs, n - 1) + [xs[n - 1]]
    else Kept(f, s, xs, n - 1)
  }

  /** What a flat map function emits, and after it what it returns, for each of the first `n` records. */
  function Spread<D, S>(f: (S, D) -> (S, seq<D>, Option<seq<D>>), s: S, xs: seq<D>, n: nat): seq<D>
    requires n <= |xs|
  {
    if n == 0 then [] else
    var (_, emitted, returned) := f(StateAt((t, x) => f(t, x).0, s, xs, n - 1), xs[n - 1]);
    Spread(f, s, xs, n - 1) + emitted + (if returned.Some? then returned.value else [])
  }

  lemma {:induction false} RunFromSnoc<D, S>(st: Stage<D, S>, s: S, xs: seq<D>, x: D)
    ensures var (s1, out) := RunFrom(st, s, xs);
            RunFrom(st, s, xs + [x]) == (st.step(s1, x).0, out + st.step(s1, x).1)
  {
    if xs == [] {
      var (s1, out) := st.step(s, x);
      assert ([] + [x])[1..] == [] && [] + [x] == [x];
      assert out + [] == out && [] + out == out;
    } else {
      var (s1, out) := st.step(s, xs[0]);
      RunFromSnoc(st, s1, xs[1..], x);
      assert (xs + [x])[1..] == xs[1..] + [x];
      var (s2, rest) := RunFrom(st, s1, xs[1..]);
      Associate(out, rest, st.step(s2, x).1);
    }
  }

  /** What a single operator does with the first `n` records. */
  function RunOf<D, S>(u: Udf<D, S>, s: S, xs: seq<D>, n: nat): (S, seq<D>)
    requires n <= |xs|
  {
    RunFrom(AsStage(u, s), s, xs[..n])
  }

  lemma RunOfNext<D, S>(u: Udf<D, S>, s: S, xs: seq<D>, n: nat)
    requires n < |xs|
    ensures var (s1, out) := RunOf(u, s, xs, n);
            RunOf(u, s, xs, n + 1) == (Emit(u, s1, xs[n]).0, out + Emit(u, s1, xs[n]).1)
  {
    assert xs[..n + 1] == xs[..n] + [xs[n]];
    RunFromSnoc(AsStage(u, s), s, xs[..n], xs[n]);
  }

  lemma {:induction false} MapRuns<D, S>(f: (S, D) -> (S, D), s: S, xs: seq<D>, n: nat)
    requires n <= |xs|
    ensures RunOf(MapUdf(f), s, xs, n) == (StateAt((t, x) => f(t, x).0, s, xs, n), Mapped(f, s, xs)[..n])
  {
    if n > 0 {
      MapRuns(f, s, xs, n - 1);
      RunOfNext(MapUdf(f), s, xs, n - 1);
      assert Mapped(f, s, xs)[..n] == Mapped(f, s, xs)[..n - 1] + [Mapped(f, s, xs)[n - 1]];
    }
  }

  lemma {:induction false} FilterRuns<D, S>(f: (S, D) -> (S, bool), s: S, xs: seq<D>, n: nat)
    requires n <= |xs|
    ensures RunOf(FilterUdf(f), s, xs, n) == (StateAt((t, x) => f(t, x).0, s, xs, n), Kept(f, s, xs, n))
  {
    if n > 0 {
      FilterRuns(f, s, xs, n - 1);
      RunOfNext(FilterUdf(f), s, xs, n - 1);
      assert Kept(f, s, xs, n - 1) + [] == Kept(f, s, xs, n - 1);
    }
  }

  lemma {:induction false} FlatMapRuns<D, S>(f: (S, D) -> (S, seq<D>, Option<seq<D>>), s: S, xs: seq<D>, n: nat)
    requires n <= |xs|
    ensures RunOf(FlatMapUdf(f), s, xs, n) == (StateAt((t, x) => f(t, x).0, s, xs, n), Spread(f, s, xs, n))
  {
    if n > 0 {
      FlatMapRuns(f, s, xs, n - 1);
      RunOfNext(FlatMapUdf(f), s, xs, n - 1);
      var (_, emitted, returned) := f(StateAt((t, x) => f(t, x).0, s, xs, n - 1), xs[n - 1]);
      Associate(Spread(f, s, xs, n - 1), emitted, if returned.Some? then returned.value else []);
    }
  }

  lemma StagedOne<D, S>(u: Udf<D, S>, s: S, xs: seq<D>)
    ensures Staged([u], [s], xs).1 == RunOf(u, s, xs, |xs|).1
  {
    assert xs[..|xs|] == xs;
    var ys := RunFrom(AsStage(u, s), s, xs).1;
    assert [u][1..] == [] && [s][1..] == [] && Staged<D, S>([], [], ys) == ([], ys);
  }

  /** MAIN: a map hands on its result for each record, in order, whatever state it keeps. */
  lemma MapOutput<D, S>(f: (S, D) -> (S, D), s: S, xs: seq<D>)
    ensures Staged([MapUdf(f)], [s], xs).1 == Mapped(f, s, xs)
  {
    StagedOne(MapUdf(f), s, xs);
    MapRuns(f, s, xs, |xs|);
  }

  /** MAIN: a filter hands on exactly the records for which it says yes, in order. */
  lemma FilterOutput<D, S>(f: (S, D) -> (S, bool), s: S, xs: seq<D>)
    ensures Staged([FilterUdf(f)], [s], xs).1 == Kept(f, s, xs, |xs|)
  {
    StagedOne(FilterUdf(f), s, xs);
    FilterRuns(f, s, xs, |xs|);
  }

  /** MAIN: a flat map hands on, record by record, what it emits and after it what it returns. */
  lemma FlatMapOutput<D, S>(f: (S, D) -> (S, seq<D>, Option<seq<D>>), s: S, xs: seq<D>)
    ensures Staged([FlatMapUdf(f)], [s], xs).1 == Spread(f, s, xs, |xs|)
  {
    StagedOne(FlatMapUdf(f), s, xs);
    FlatMapRuns(f, s, xs, |xs|);
  }

  lemma StagedRecord<D, S>(u: Udf<D, S>, s: S, x: D)
    ensures Staged([u], [s], [x]).1 == Emit(u, s, x).1
  {
    StagedOne(u, s, [x]);
    var (s', ys) := Emit(u, s, x);
    assert [x][..1] == [x] && [x][1..] == [] && ys + [] == ys;
    assert RunFrom(AsStage(u, s), s', []) == (s', []);
    assert RunFrom(AsStage(u, s), s, [x]) == (s', ys);
  }

  /** What becomes of a single record. */
  lemma OneRecord<D, S>(m: (S, D) -> (S, D), p: (S, D) -> (S, bool), f: (S, D) -> (S, seq<D>, Option<seq<D>>),
                        s: S, x: D)
    ensures Staged([MapUdf(m)], [s], [x]).1 == [m(s, x).1]
    ensures Staged([FilterUdf(p)], [s], [x]).1 == if p(s, x).1 then [x] else []
    ensures var (_, collected, returned) := f(s, x);
            Staged([FlatMapUdf(f)], [s], [x]).1 == collected + if returned.Some? then returned.value else []
  {
    StagedRecord(MapUdf(m), s, x);
    StagedRecord(FilterUdf(p), s, x);
    StagedRecord(FlatMapUdf(f), s, x);
  }

  /** What one operator makes of its input, by kind. */
  function Output<D, S>(u: Udf<D, S>, s: S, xs: seq<D>): seq<D> {
    match u
    case MapUdf(f) => Mapped(f, s, xs)
    case FilterUdf(f) => Kept(f, s, xs, |xs|)
    case FlatMapUdf(f) => Spread(f, s, xs, |xs|)
  }

  lemma OutputOfOne<D, S>(u: Udf<D, S>, s: S, xs: seq<D>)
    ensures Staged([u], [s], xs).1 == Output(u, s, xs)
  {
    match u
    case MapUdf(f) => MapOutput(f, s, xs);
    case FilterUdf(f) => FilterOutput(f, s, xs);
    case FlatMapUdf(f) => FlatMapOutput(f, s, xs);
  }

  /** What a chain makes of its input: each operator works on the output of the one before. */
  function Outputs<D, S>(us: seq<Udf<D, S>>, ss: seq<S>, xs: seq<D>): seq<D>
    requires |us| == |ss|
  {
    if us == [] then xs else Outputs(us[1..], ss[1..], Output(us[0], ss[0], xs))
  }

  lemma ChainOutput<D, S>(us: seq<Udf<D, S>>, ss: seq<S>, xs: seq<D>)
    requires |us| == |ss| && us != []
    ensures Staged(us, ss, xs).1 == Staged(us[1..], ss[1..], Staged([us[0]], [ss[0]], xs).1).1
  {
    StagedOne(us[0], ss[0], xs);
    assert xs[..|xs|] == xs;
  }

  /** MAIN: what comes out of a chain, by the kinds of its operators. */
  lemma {:induction false} StagedIsOutputs<D, S>(us: seq<Udf<D, S>>, ss: seq<S>, xs: seq<D>)
    requires |us| == |ss|
    ensures Staged(us, ss, xs).1 == Outputs(us, ss, xs)
    decreases |us|
  {
    if us != [] {
      ChainOutput(us, ss, xs);
      OutputOfOne(us[0], ss[0], xs);
      StagedIsOutputs(us[1..], ss[1..], Output(us[0], ss[0], xs));
    }
  }

  /** A filter that keeps no state hands on the records with its property, each as often as it came. */
  lemma {:induction false} StatelessFilter<D(!new), S>(p: D -> bool, s: S, xs: seq<D>)
    ensures var out := Staged([FilterUdf((t, x) => (t, p(x)))], [s], xs).1;
            forall x :: multiset(out)[x] == if p(x) then multiset(xs)[x] else 0
  {
    var f := (t: S, x: D) => (t, p(x));
    FilterOutput(f, s, xs);
    assert xs[..|xs|] == xs;
    forall x ensures multiset(Kept(f, s, xs, |xs|))[x] == if p(x) then multiset(xs)[x] else 0 {
      KeptCounts(p, f, s, xs, |xs|, x);
    }
  }

  lemma CountLast<D>(xs: seq<D>, y: D, x: D)
    ensures multiset(xs + [y])[x] == multiset(xs)[x] + if x == y then 1 else 0
  {
  }

  lemma {:induction false} KeptCounts<D, S>(p: D -> bool, f: (S, D) -> (S, bool), s: S, xs: seq<D>, n: nat, x: D)
    requires n <= |xs| && forall t, y :: f(t, y).1 == p(y)
    ensures multiset(Kept(f, s, xs, n))[x] == if p(x) then multiset(xs[..n])[x] else 0
  {
    if n > 0 {
      var y := xs[n - 1];
      KeptCounts(p, f, s, xs, n - 1, x);
      assert xs[..n] == xs[..n - 1] + [y];
      CountLast(xs[..n - 1], y, x);
      var kept := Kept(f, s, xs, n - 1);
      CountLast(kept, y, x);
      assert Kept(f, s, xs, n) == if p(y) then kept + [y] else kept;
    }
  }

  // ---------------------------------------------------------------------------------------------
  // The operators as objects
  // ---------------------------------------------------------------------------------------------

  datatype Event<D> = Record(value: D) | End

  function Records<D>(xs: seq<D>): seq<Event<D>> {
    seq(|xs|, i requires 0 <= i < |xs| => Record(xs[i]))
  }

  lemma RecordsConcat<D>(xs: seq<D>, ys: seq<D>)
    ensures Records(xs + ys) == Records(xs) + Records(ys)
  {
  }

  /** The collector of a subtask: what it writes and the end signals it sends. */
  class Collector<D> {
    var log: seq<Event<D>>

    constructor ()
      ensures log == []
    {
      log := [];
    }

    method Collect(value: D)
      modifies this
      ensures log == old(log) + [Record(value)]
    {
      log := log + [Record(value)];
    }

    method Close()
      modifies this
      ensures log == old(log) + [End]
    {
      log := log + [End];
    }
  }

  /** The chaining information of a plan node: an operator and what is chained to it. */
  datatype Info<!D, !S> = Info(operator: Operator<D, S>, chainedInfo: Option<Info<D, S>>)

  function Operators<D, S>(info: Info<D, S>): (ops: seq<Operator<D, S>>)
    ensures |ops| > 0 && ops[0] == info.operator
  {
    [info.operator] + if info.chainedInfo.Some? then Operators(info.chainedInfo.value) else []
  }

  ghost predicate Distinct<T>(s: seq<T>) {
    forall i, j :: 0 <= i < j < |s| ==> s[i] != s[j]
  }

  ghost function Udfs<D, S>(ops: seq<Operator<D, S>>): seq<Udf<D, S>> {
    seq(|ops|, i requires 0 <= i < |ops| => ops[i].udf)
  }

  ghost function States<D, S>(ops: seq<Operator<D, S>>): seq<S>
    reads ops
  {
    seq(|ops|, i requires 0 <= i < |ops| reads ops => ops[i].state)
  }

  /** Each operator pushes into the next one and the last one into `col`. */
  ghost predicate Wired<D, S>(ops: seq<Operator<D, S>>, col: Collector<D>)
    reads ops
  {
    && Distinct(ops)
    && (forall i :: 0 <= i < |ops| - 1 ==> ops[i].next == ops[i + 1])
    && (|ops| > 0 ==> ops[|ops| - 1].next == null && ops[|ops| - 1].sink == col)
  }

  class Operator<!D, !S> {
    const udf: Udf<D, S>
    var state: S
    var next: Operator?<D, S>    // the collector of this operator when it is another operator
    var sink: Collector?<D>      // the collector of this operator otherwise

    constructor (udf: Udf<D, S>, init: S)
      ensures this.udf == udf && state == init && next == null && sink == null
    {
      this.udf, state, next, sink := udf, init, null, null;
    }

    /** Wires this operator, and everything chained to it, to the collector of the subtask. */
    method ConfigureChain(collector: Collector<D>, info: Info<D, S>)
      requires info.operator == this && Distinct(Operators(info))
      modifies (set op | op in Operators(info))`next, (set op | op in Operators(info))`sink
      ensures Wired(Operators(info), collector)
      decreases info
    {
      if info.chainedInfo.None? {
        next, sink := null, collector;
      } else {
        var rest := info.chainedInfo.value;
        DistinctTail(this, Operators(rest));
        next := rest.operator;
        rest.operator.ConfigureChain(collector, rest);
        WiredCons(this, Operators(rest), collector);
      }
    }

    /** Hands one record on to whatever this operator pushes into. */
    method HandOn(y: D, ghost rest: seq<Operator<D, S>>, ghost col: Collector<D>)
      requires Wired([this] + rest, col)
      modifies (set op | op in rest)`state, col
      ensures States(rest) == Push(Udfs(rest), old(States(rest)), y).0
      ensures col.log == old(col.log) + Records(Push(Udfs(rest), old(States(rest)), y).1)
      decreases |rest|, 1
    {
      WiredEnd(this, rest, col);
      if next != null {
        WiredTail(this, rest, col);
        assert [rest[0]] + rest[1..] == rest;
        next.Collect(y, rest[1..], col);
      } else {
        sink.Collect(y);
        assert Records([y]) == [Record(y)];
      }
    }

    /** Hands records on, one after the other. */
    method Forward(ys: seq<D>, ghost rest: seq<Operator<D, S>>, ghost col: Collector<D>)
      requires Wired([this] + rest, col)
      modifies (set op | op in rest)`state, col
      ensures States(rest) == PushAll(Udfs(rest), old(States(rest)), ys).0
      ensures col.log == old(col.log) + Records(PushAll(Udfs(rest), old(States(rest)), ys).1)
      decreases |rest|, 2
    {
      ghost var us, ss, log := Udfs(rest), States(rest), col.log;
      var i := 0;
      while i < |ys|
        invariant i <= |ys| && Wired([this] + rest, col)
        invariant States(rest) == PushAll(us, ss, ys[..i]).0
        invariant col.log == log + Records(PushAll(us, ss, ys[..i]).1)
      {
        PushAllNext(us, ss, ys, i);
        HandOn(ys[i], rest, col);
        i := i + 1;
      }
      assert ys[..i] == ys;
    }

    /** Calls the flat map function and hands on what it emits and what it returns. */
    method FlatMap(value: D, ghost rest: seq<Operator<D, S>>, ghost col: Collector<D>)
      requires udf.FlatMapUdf? && Wired([this] + rest, col)
      modifies this`state, (set op | op in rest)`state, col
      ensures state == Emit(udf, old(state), value).0
      ensures States(rest) == PushAll(Udfs(rest), old(States(rest)), Emit(udf, old(state), value).1).0
      ensures col.log ==
              old(col.log) + Records(PushAll(Udfs(rest), old(States(rest)), Emit(udf, old(state), value).1).1)
      decreases |rest|, 3
    {
      ghost var us, ss := Udfs(rest), States(rest);
      DistinctTail(this, rest);
      var (s, emitted, returned) := udf.flatMap(state, value);
      state := s;
      assert States(rest) == ss;
      Forward(emitted, rest, col);
      if returned.Some? {
        PushAllConcat(us, ss, emitted, returned.value);
        RecordsConcat(PushAll(us, ss, emitted).1, PushAll(us, States(rest), returned.value).1);
        Forward(returned.value, rest, col);
      } else {
        assert emitted + [] == emitted;
      }
    }

    /** Runs the user function on one record and hands its output on. */
    method Process(value: D, ghost rest: seq<Operator<D, S>>, ghost col: Collector<D>)
      requires Wired([this] + rest, col)
      modifies this`state, (set op | op in rest)`state, col
      ensures state == Emit(udf, old(state), value).0
      ensures States(rest) == PushAll(Udfs(rest), old(States(rest)), Emit(udf, old(state), value).1).0
      ensures col.log ==
              old(col.log) + Records(PushAll(Udfs(rest), old(States(rest)), Emit(udf, old(state), value).1).1)
      decreases |rest|, 4
    {
      ghost var us, ss := Udfs(rest), States(rest);
      DistinctTail(this, rest);
      match udf {
        case MapUdf(f) =>
          var (s, y) := f(state, value);
          state := s;
          PushOne(us, ss, y);
          assert States(rest) == ss;
          HandOn(y, rest, col);
        case FilterUdf(f) =>
          var (s, keep) := f(state, value);
          state := s;
          PushOne(us, ss, value);
          assert States(rest) == ss;
          if keep {
            HandOn(value, rest, col);
          }
        case FlatMapUdf(f) =>
          FlatMap(value, rest, col);
      }
    }

    /** One record arrives from the operator before. */
    method Collect(value: D, ghost rest: seq<Operator<D, S>>, ghost col: Collector<D>)
      requires Wired([this] + rest, col)
      modifies (set op | op in [this] + rest)`state, col
      ensures States([this] + rest) == Push(Udfs([this] + rest), old(States([this] + rest)), value).0
      ensures col.log == old(col.log) + Records(Push(Udfs([this] + rest), old(States([this] + rest)), value).1)
      decreases |rest|, 5
    {
      PushCons(udf, Udfs(rest), state, States(rest), value);
      assert Udfs([this] + rest) == [udf] + Udfs(rest);
      assert States([this] + rest) == [state] + States(rest);
      Process(value, rest, col);
      assert States([this] + rest) == [state] + States(rest);
    }

    /** Closing an operator closes what it pushes into. */
    method Close(ghost rest: seq<Operator<D, S>>, ghost col: Collector<D>)
      requires Wired([this] + rest, col)
      modifies col
      ensures col.log == old(col.log) + [End]
      decreases |rest|
    {
      WiredEnd(this, rest, col);
      if next != null {
        WiredTail(this, rest, col);
        assert [rest[0]] + rest[1..] == rest;
        next.Close(rest[1..], col);
      } else {
        sink.Close();
      }
    }

    /** The operator at the head of the chain consumes its input and closes its collector. */
    method Run(input: seq<D>, ghost rest: seq<Operator<D, S>>, ghost col: Collector<D>)
      requires Wired([this] + rest, col)
      modifies (set op | op in [this] + rest)`state, col
      ensures col.log ==
              old(col.log) + Records(Staged(Udfs([this] + rest), old(States([this] + rest)), input).1) + [End]
      ensures States([this] + rest) == Staged(Udfs([this] + rest), old(States([this] + rest)), input).0
      ensures col.log ==
              old(col.log) + Records(Outputs(Udfs([this] + rest), old(States([this] + rest)), input)) + [End]
    {
      ghost var us, ss, log := Udfs([this] + rest), States([this] + rest), col.log;
      var i := 0;
      while i < |input|
        invariant i <= |input| && Wired([this] + rest, col)
        invariant States([this] + rest) == PushAll(us, ss, input[..i]).0
        invariant col.log == log + Records(PushAll(us, ss, input[..i]).1)
      {
        PushAllNext(us, ss, input, i);
        Collect(input[i], rest, col);
        i := i + 1;
      }
      assert input[..i] == input;
      PushedIsStaged(us, ss, input);
      Close(rest, col);
      StagedIsOutputs(us, ss, input);
    }

    /** A whole subtask: the run closes the collector, and the environment closes the operator again. */
    method Execute(input: seq<D>, ghost rest: seq<Operator<D, S>>, ghost col: Collector<D>)
      requires Wired([this] + rest, col)
      modifies (set op | op in [this] + rest)`state, col
      ensures col.log ==
              old(col.log) + Records(Staged(Udfs([this] + rest), old(States([this] + rest)), input).1) + [End, End]
      ensures col.log ==
              old(col.log) + Records(Outputs(Udfs([this] + rest), old(States([this] + rest)), input)) + [End, End]
    {
      Run(input, rest, col);
      Close(rest, col);
    }
  }

  lemma WiredEnd<D, S>(op: Operator<D, S>, rest: seq<Operator<D, S>>, col: Collector<D>)
    requires Wired([op] + rest, col)
    ensures op.next == null <==> rest == []
    ensures rest == [] ==> op.sink == col
  {
    var ops := [op] + rest;
    assert ops[0] == op;
    if rest != [] {
      assert ops[0].next == ops[1];
    }
  }

  lemma PushCons<D, S>(u: Udf<D, S>, us: seq<Udf<D, S>>, s: S, ss: seq<S>, x: D)
    requires |us| == |ss|
    ensures var (s', ys) := Emit(u, s, x);
            var (rest, out) := PushAll(us, ss, ys);
            Push([u] + us, [s] + ss, x) == ([s'] + rest, out)
  {
    assert ([u] + us)[1..] == us && ([s] + ss)[1..] == ss;
  }

  lemma PushAllNext<D, S>(us: seq<Udf<D, S>>, ss: seq<S>, ys: seq<D>, i: nat)
    requires |us| == |ss| && i < |ys|
    ensures var (ss1, out1) := PushAll(us, ss, ys[..i]);
            var (ss2, out2) := Push(us, ss1, ys[i]);
            PushAll(us, ss, ys[..i + 1]) == (ss2, out1 + out2) && Records(out1 + out2) == Records(out1) + Records(out2)
  {
    PushAllConcat(us, ss, ys[..i], [ys[i]]);
    assert ys[..i + 1] == ys[..i] + [ys[i]];
    PushOne(us, PushAll(us, ss, ys[..i]).0, ys[i]);
    RecordsConcat(PushAll(us, ss, ys[..i]).1, Push(us, PushAll(us, ss, ys[..i]).0, ys[i]).1);
  }

  lemma PushOne<D, S>(us: seq<Udf<D, S>>, ss: seq<S>, x: D)
    requires |us| == |ss|
    ensures PushAll(us, ss, [x]) == Push(us, ss, x)
  {
    assert PushAll(us, Push(us, ss, x).0, []) == (Push(us, ss, x).0, []);
    assert Push(us, ss, x).1 + [] == Push(us, ss, x).1;
  }

  lemma DistinctTail<T>(x: T, rest: seq<T>)
    requires Distinct([x] + rest)
    ensures Distinct(rest) && x !in rest
  {
    forall i, j | 0 <= i < j < |rest| ensures rest[i] != rest[j] {
      assert ([x] + rest)[i + 1] != ([x] + rest)[j + 1];
    }
    forall j | 0 <= j < |rest| ensures x != rest[j] {
      assert ([x] + rest)[0] != ([x] + rest)[j + 1];
    }
  }

  lemma WiredCons<D, S>(op: Operator<D, S>, rest: seq<Operator<D, S>>, col: Collector<D>)
    requires rest != [] && op !in rest && Wired(rest, col) && op.next == rest[0]
    ensures Wired([op] + rest, col)
  {
  }

  lemma WiredTail<D, S>(op: Operator<D, S>, rest: seq<Operator<D, S>>, col: Collector<D>)
    requires rest != [] && Wired([op] + rest, col)
    ensures op !in rest && Wired(rest, col) && op.next == rest[0]
  {
    DistinctTail(op, rest);
    var ops := [op] + rest;
    assert ops[0].next == ops[1];
    assert forall i :: 0 <= i < |rest| ==> rest[i] == ops[i + 1];
  }
}
