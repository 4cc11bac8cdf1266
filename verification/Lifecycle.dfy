/** The command lifecycle and its transition table (state.go). */
module Lifecycle {

  datatype State = Created | Starting | Running | Stopping | Killing | Done

  function ValidTransitions(from: State): seq<State> {
    match from
    case Created => [Starting]
    case Starting => [Running, Done]
    case Running => [Stopping, Done]
    case Stopping => [Killing, Done]
    case Killing => [Done]
    case Done => []
  }

  predicate CanTransition(from: State, to: State) {
    to in ValidTransitions(from)
  }

  /** The order in which the lifecycle visits its states. */
  function Rank(s: State): nat {
    match s
    case Created => 0
    case Starting => 1
    case Running => 2
    case Stopping => 3
    case Killing => 4
    case Done => 5
  }

  /** A history that only takes steps of the table. */
  ghost predicate Path(hist: seq<State>) {
    forall i :: 0 < i < |hist| ==> CanTransition(hist[i - 1], hist[i])
  }

  /** Paths climb the ranks strictly. */
  lemma {:induction false} PathClimbs(hist: seq<State>, i: nat, j: nat)
    requires Path(hist) && i < j < |hist|
    ensures Rank(hist[i]) < Rank(hist[j])
  {
    assert CanTransition(hist[j - 1], hist[j]);
    if i < j - 1 {
      PathClimbs(hist, i, j - 1);
    }
  }

  /** Done is terminal: a path visits it only at its end. */
  lemma EndsAtDone(hist: seq<State>, i: nat)
    requires Path(hist) && i < |hist| && hist[i] == Done
    ensures i == |hist| - 1
  {
    if i + 1 < |hist| {
      PathClimbs(hist, i, i + 1);
    }
  }

  /** The complete lifecycles of a command that started: the documented three. */
  const NATURAL := [Created, Starting, Running, Done]
  const GRACEFUL := [Created, Starting, Running, Stopping, Done]
  const FORCED := [Created, Starting, Running, Stopping, Killing, Done]

  /** The table admits exactly the three documented lifecycles, and the failed start. */
  lemma {:induction false} CompleteLifecycles(hist: seq<State>)
    requires hist != [] && hist[0] == Created && hist[|hist| - 1] == Done
    ensures Path(hist) <==> hist in {[Created, Starting, Done], NATURAL, GRACEFUL, FORCED}
  {
    if Path(hist) {
      assert |hist| > 1 && CanTransition(hist[0], hist[1]);
      assert |hist| > 2 && CanTransition(hist[1], hist[2]);
      if hist[2] == Done {
        EndsAtDone(hist, 2);
        assert hist == [Created, Starting, Done];
      } else {
        assert |hist| > 3 && CanTransition(hist[2], hist[3]);
        if hist[3] == Done {
          EndsAtDone(hist, 3);
          assert hist == NATURAL;
        } else {
          assert |hist| > 4 && CanTransition(hist[3], hist[4]);
          if hist[4] == Done {
            EndsAtDone(hist, 4);
            assert hist == GRACEFUL;
          } else {
            assert |hist| > 5 && CanTransition(hist[4], hist[5]);
            EndsAtDone(hist, 5);
            assert hist == FORCED;
          }
        }
      }
    }
  }
}
