/** User functions that consume one record at a time and may keep state between records. */
module Stages {

  /** `step` maps the state and one record to the next state and the records emitted for it. */
  datatype Stage<!D, !S> = Stage(init: S, step: (S, D) -> (S, seq<D>))

  function RunFrom<D, S>(st: Stage<D, S>, s: S, xs: seq<D>): (S, seq<D>) {
    if xs == [] then (s, []) else
    var (s1, out) := st.step(s, xs[0]);
    var (s2, rest) := RunFrom(st, s1, xs[1..]);
    (s2, out + rest)
  }

  /** The whole output of a stage for the whole input. */
  function Run<D, S>(st: Stage<D, S>, xs: seq<D>): seq<D> {
    RunFrom(st, st.init, xs).1
  }
}
