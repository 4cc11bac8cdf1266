/** Types shared by the whole model. */
module Common {

  datatype Option<+T> = None | Some(value: T)

  newtype byte = x: int | 0 <= x < 0x100

  /** Nanoseconds in one second: durations and instants are counted in nanoseconds. */
  const SECOND: int := 1_000_000_000

  /** The elements of a list of lists, in order. */
  function Flatten<T>(parts: seq<seq<T>>): seq<T> {
    if parts == [] then [] else Flatten(parts[..|parts| - 1]) + parts[|parts| - 1]
  }

  lemma FlattenSnoc<T>(parts: seq<seq<T>>, last: seq<T>)
    ensures Flatten(parts + [last]) == Flatten(parts) + last
  {
    assert (parts + [last])[..|parts|] == parts;
  }
}

/**
 A concurrent component is given by a step function: `step(s, e)` is the state after the atomic
 action `e`, or `None` where `e` cannot happen in `s`. A run is a sequence of actions, so a fact
 about all sequences of actions is a fact about all interleavings.
 */
module Executions {
  import opened Common

  function Exec<S, E>(step: (S, E) -> Option<S>, start: S, es: seq<E>): Option<S> {
    if es == [] then Some(start)
    else
      match Exec(step, start, es[..|es| - 1])
      case None => None
      case Some(s) => step(s, es[|es| - 1])
  }

  lemma ExecSnoc<S, E>(step: (S, E) -> Option<S>, start: S, es: seq<E>, e: E)
    requires Exec(step, start, es).Some?
    ensures Exec(step, start, es + [e]) == step(Exec(step, start, es).value, e)
  {
    assert (es + [e])[..|es|] == es;
  }
}
