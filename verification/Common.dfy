/** Optional results, and regrouping of sequences. */
module Common {
  /** `None` stands for an absent value or, as the result of an operation, for a raised exception. */
  datatype Option<+T> = None | Some(value: T) {
    predicate IsFailure() {
      None?
    }

    function PropagateFailure<U>(): Option<U>
      requires None?
    {
      None
    }

    function Extract(): T
      requires Some?
    {
      value
    }
  }

  lemma Associate<T>(a: seq<T>, b: seq<T>, c: seq<T>)
    ensures (a + b) + c == a + (b + c)
  {
  }

  /** Moving the first of the items to do behind those that are done. */
  lemma Shift<T>(done: seq<T>, x: T, todo: seq<T>)
    ensures done + ([x] + todo) == (done + [x]) + todo
  {
  }

  function Joined<T>(parts: seq<seq<T>>): seq<T> {
    if parts == [] then [] else parts[0] + Joined(parts[1..])
  }

  lemma {:induction false} JoinedLast<T>(parts: seq<seq<T>>)
    requires parts != []
    ensures Joined(parts) == Joined(parts[..|parts| - 1]) + parts[|parts| - 1]
  {
    if |parts| > 1 {
      var tail, front := parts[1..], parts[..|parts| - 1];
      JoinedLast(tail);
      assert front[1..] == tail[..|tail| - 1];
      Associate(parts[0], Joined(front[1..]), parts[|parts| - 1]);
    }
  }
}
