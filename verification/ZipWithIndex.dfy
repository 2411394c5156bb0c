/** Consecutive numbering of the elements of all partitions. */
module ZipWithIndex {
  import opened Common

  /** A subtask and the number of elements in its partition. */
  datatype Count = Count(subtask: int, elements: nat)

  method CountElements<T>(subtask: nat, values: seq<T>) returns (c: Count)
    ensures c == Count(subtask, |values|)
  {
    var counter := 0;
    for i := 0 to |values|
      invariant counter == i
    {
      counter := counter + 1;
    }
    c := Count(subtask, counter);
  }

  /** One count per subtask, by subtask number. */
  function Counts<T>(parts: seq<seq<T>>): (cs: seq<Count>)
    ensures |cs| == |parts|
  {
    seq(|parts|, t requires 0 <= t < |parts| => Count(t, |parts[t]|))
  }

  /** The counts of all subtasks, in some order of arrival. */
  ghost predicate Arrived<T>(cs: seq<Count>, parts: seq<seq<T>>) {
    multiset(cs) == multiset(Counts(parts))
  }

  // ---------------------------------------------------------------------------------------------
  // Sorting the counts
  // ---------------------------------------------------------------------------------------------

  ghost predicate Sorted(cs: seq<Count>) {
    forall i, j :: 0 <= i < j < |cs| ==> cs[i].subtask <= cs[j].subtask
  }

  ghost predicate DistinctSubtasks(cs: seq<Count>) {
    forall i, j :: 0 <= i < j < |cs| ==> cs[i].subtask < cs[j].subtask
  }

  method Insert(cs: seq<Count>, c: Count) returns (r: seq<Count>)
    requires Sorted(cs)
    ensures Sorted(r) && multiset(r) == multiset(cs) + multiset{c}
  {
    var i := |cs|;
    while i > 0 && cs[i - 1].subtask > c.subtask
      invariant 0 <= i <= |cs| && (i < |cs| ==> cs[i].subtask > c.subtask)
    {
      i := i - 1;
    }
    InsertedIsSorted(cs, i, c);
    InsertedKeepsElements(cs, i, c);
    r := cs[..i] + [c] + cs[i..];
  }

  lemma InsertedKeepsElements(cs: seq<Count>, i: nat, c: Count)
    requires i <= |cs|
    ensures multiset(cs[..i] + [c] + cs[i..]) == multiset(cs) + multiset{c}
  {
    assert cs[..i] + cs[i..] == cs;
  }

  lemma InsertedIsSorted(cs: seq<Count>, i: nat, c: Count)
    requires Sorted(cs) && i <= |cs|
    requires i > 0 ==> cs[i - 1].subtask <= c.subtask
    requires i < |cs| ==> c.subtask < cs[i].subtask
    ensures Sorted(cs[..i] + [c] + cs[i..])
  {
    var r := cs[..i] + [c] + cs[i..];
    forall j, k | 0 <= j < k < |r| ensures r[j].subtask <= r[k].subtask {
      assert r[j] == if j < i then cs[j] else if j == i then c else cs[j - 1];
      assert r[k] == if k < i then cs[k] else if k == i then c else cs[k - 1];
    }
  }

  /** Sorts by subtask; counts of one subtask keep their order. */
  method SortBySubtask(cs: seq<Count>) returns (r: seq<Count>)
    ensures Sorted(r) && multiset(r) == multiset(cs)
  {
    r := [];
    for i := 0 to |cs|
      invariant Sorted(r) && multiset(r) == multiset(cs[..i])
    {
      assert cs[..i + 1] == cs[..i] + [cs[i]];
      r := Insert(r, cs[i]);
    }
    assert cs[..|cs|] == cs;
  }

  /** There is only one sorted order of counts with different subtasks. */
  lemma {:induction false} SortedIsUnique(a: seq<Count>, b: seq<Count>)
    requires Sorted(a) && multiset(a) == multiset(b)
    requires DistinctSubtasks(b)
    ensures a == b
  {
    SameSize(a, b);
    if a != [] {
      var n := |a| - 1;
      LastIsSame(a, b);
      DropLast(a);
      DropLast(b);
      PrefixOrdered(a, b, n);
      SortedIsUnique(a[..n], b[..n]);
      SamePrefixAndLast(a, b);
    }
  }

  lemma SamePrefixAndLast<T>(a: seq<T>, b: seq<T>)
    requires a != [] && |a| == |b| && a[..|a| - 1] == b[..|b| - 1] && a[|a| - 1] == b[|b| - 1]
    ensures a == b
  {
    assert a == a[..|a| - 1] + [a[|a| - 1]] && b == b[..|b| - 1] + [b[|b| - 1]];
  }

  lemma PrefixOrdered(a: seq<Count>, b: seq<Count>, n: nat)
    requires Sorted(a) && DistinctSubtasks(b) && n <= |a| && n <= |b|
    ensures Sorted(a[..n]) && DistinctSubtasks(b[..n])
  {
  }

  lemma LastIsSame(a: seq<Count>, b: seq<Count>)
    requires a != [] && |a| == |b| && Sorted(a) && multiset(a) == multiset(b)
    requires DistinctSubtasks(b)
    ensures a[|a| - 1] == b[|b| - 1]
  {
    var n := |a| - 1;
    assert a[n] in multiset(b) && b[n] in multiset(a);
    var i :| 0 <= i < |a| && a[i] == b[n];
    var j :| 0 <= j < |b| && b[j] == a[n];
  }

  lemma DropLast<T>(s: seq<T>)
    requires s != []
    ensures multiset(s[..|s| - 1]) == multiset(s) - multiset{s[|s| - 1]}
  {
    assert s == s[..|s| - 1] + [s[|s| - 1]];
  }

  lemma SameSize<T>(a: seq<T>, b: seq<T>)
    requires multiset(a) == multiset(b)
    ensures |a| == |b|
  {
    assert |multiset(a)| == |a| && |multiset(b)| == |b|;
  }

  // ---------------------------------------------------------------------------------------------
  // The ids
  // ---------------------------------------------------------------------------------------------

  /** How many elements the first `t` partitions have. */
  function Before<T>(parts: seq<seq<T>>, t: nat): nat
    requires t <= |parts|
  {
    if t == 0 then 0 else Before(parts, t - 1) + |parts[t - 1]|
  }

  /** The elements of a partition with consecutive ids from `first` on. */
  function Numbered<T>(first: int, values: seq<T>): seq<(int, T)> {
    seq(|values|, j requires 0 <= j < |values| => (first + j, values[j]))
  }

  class ZipWithIndexMapper<T> {
    var start: int

    constructor ()
      ensures start == -1
    {
      start := -1;
    }

    /** Runs one subtask. The counts of all subtasks arrive in any order. */
    method Run(counts: seq<Count>, subtask: nat, values: seq<T>, ghost parts: seq<seq<T>>) returns (out: seq<(int, T)>)
      requires start == -1 && Arrived(counts, parts) && subtask < |parts| && parts[subtask] == values
      modifies this
      ensures out == Numbered(Before(parts, subtask), values)
    {
      var offsets := SortBySubtask(counts);
      SortedIsUnique(offsets, Counts(parts));
      for i := 0 to subtask
        invariant start == Before(parts, i) - 1
      {
        start := start + offsets[i].elements;
      }
      out := MapPartition(values);
    }

    method MapPartition(values: seq<T>) returns (out: seq<(int, T)>)
      modifies this
      ensures out == Numbered(old(start) + 1, values) && start == old(start) + |values|
    {
      out := [];
      for i := 0 to |values|
        invariant start == old(start) + i && out == Numbered(old(start) + 1, values[..i])
      {
        assert values[..i + 1] == values[..i] + [values[i]];
        start := start + 1;
        out := out + [(start, values[i])];
      }
      assert values[..|values|] == values;
    }
  }

  function Flatten<T>(parts: seq<seq<T>>): seq<T> {
    if parts == [] then [] else Flatten(parts[..|parts| - 1]) + parts[|parts| - 1]
  }

  /** MAIN: whatever the number and the sizes of the partitions, and in whatever order the counts reach
      each subtask, the ids over all partitions are 0, 1, ..., N - 1, by subtask and then by position. */
  method ZipAll<T>(parts: seq<seq<T>>, arrivals: seq<seq<Count>>) returns (out: seq<seq<(int, T)>>)
    requires |arrivals| == |parts| && forall t :: 0 <= t < |parts| ==> Arrived(arrivals[t], parts)
    ensures |out| == |parts|
    ensures Flatten(out) == Numbered(0, Flatten(parts))
    ensures forall t :: 0 <= t < |parts| ==> |out[t]| == |parts[t]|
    ensures forall t, j :: 0 <= t < |parts| && 0 <= j < |parts[t]| ==>
              out[t][j] == (|Flatten(parts[..t])| + j, parts[t][j])
  {
    out := [];
    for t := 0 to |parts|
      invariant ZippedUpTo(parts, out, t)
    {
      var mapper := new ZipWithIndexMapper<T>();
      var zipped := mapper.Run(arrivals[t], t, parts[t], parts);
      ZipNext(parts, out, t);
      out := out + [zipped];
    }
    AllZipped(parts, out);
  }

  /** The first `t` partitions are numbered. */
  ghost predicate ZippedUpTo<T>(parts: seq<seq<T>>, out: seq<seq<(int, T)>>, t: nat) {
    && |out| == t <= |parts|
    && Flatten(out) == Numbered(0, Flatten(parts[..t]))
    && forall u :: 0 <= u < t ==> IsNumbered(parts, out, u)
  }

  ghost predicate IsNumbered<T>(parts: seq<seq<T>>, out: seq<seq<(int, T)>>, u: nat)
    requires u < |parts| && u < |out|
  {
    (out[u] == Numbered(Before(parts, u), parts[u])) == true
  }

  lemma NumberedConcat<T>(a: seq<T>, b: seq<T>)
    ensures Numbered(0, a + b) == Numbered(0, a) + Numbered(|a|, b)
  {
  }

  lemma ZipNext<T>(parts: seq<seq<T>>, out: seq<seq<(int, T)>>, t: nat)
    requires t < |parts| && ZippedUpTo(parts, out, t)
    ensures ZippedUpTo(parts, out + [Numbered(Before(parts, t), parts[t])], t + 1)
  {
    var next := out + [Numbered(Before(parts, t), parts[t])];
    FlattenNext(parts, t);
    LengthIsBefore(parts, t);
    NumberedConcat(Flatten(parts[..t]), parts[t]);
    assert next[..t] == out;
    forall u | 0 <= u < t + 1 ensures IsNumbered(parts, next, u) {
      assert u < t ==> IsNumbered(parts, out, u);
    }
  }

  lemma AllZipped<T>(parts: seq<seq<T>>, out: seq<seq<(int, T)>>)
    requires ZippedUpTo(parts, out, |parts|)
    ensures Flatten(out) == Numbered(0, Flatten(parts))
    ensures forall t :: 0 <= t < |parts| ==> |out[t]| == |parts[t]|
    ensures forall t, j :: 0 <= t < |parts| && 0 <= j < |parts[t]| ==>
              out[t][j] == (|Flatten(parts[..t])| + j, parts[t][j])
  {
    assert parts[..|parts|] == parts;
    forall t | 0 <= t < |parts| ensures |out[t]| == |parts[t]| {
      assert IsNumbered(parts, out, t);
    }
    forall t, j | 0 <= t < |parts| && 0 <= j < |parts[t]|
      ensures out[t][j] == (|Flatten(parts[..t])| + j, parts[t][j])
    {
      assert IsNumbered(parts, out, t);
      LengthIsBefore(parts, t);
    }
  }

  lemma FlattenNext<T>(parts: seq<seq<T>>, t: nat)
    requires t < |parts|
    ensures Flatten(parts[..t + 1]) == Flatten(parts[..t]) + parts[t]
  {
    assert parts[..t + 1][..t] == parts[..t];
  }

  lemma {:induction false} LengthIsBefore<T>(parts: seq<seq<T>>, t: nat)
    requires t <= |parts|
    ensures |Flatten(parts[..t])| == Before(parts, t)
  {
    if t > 0 {
      LengthIsBefore(parts, t - 1);
      FlattenNext(parts, t - 1);
    }
  }

  /** What consecutive numbering means: every id below the number of elements belongs to exactly one
      element, and later elements have larger ids. */
  lemma NumberedIsBijection<T>(values: seq<T>, id: int)
    ensures var out := Numbered(0, values);
            && |out| == |values|
            && (0 <= id < |values| <==> exists j :: 0 <= j < |out| && out[j].0 == id)
            && (forall i, j :: 0 <= i < j < |out| ==> out[i].0 < out[j].0)
            && forall j :: 0 <= j < |out| ==> out[j] == (j, values[j])
  {
    if 0 <= id < |values| {
      assert Numbered(0, values)[id].0 == id;
    }
  }
}
