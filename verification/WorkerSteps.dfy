/**
 The restart loop of a supervised worker (supervisor/worker.go) statement by statement, as its
 goroutine takes it while others act in between. Whatever the order, the rounds that a goroutine has
 been through form a stream on which it behaves as module Worker says.
 */
module WorkerSteps {
  import opened Common
  import opened Worker

  /** The next statement. `Executing` is inside runner.Run; in `Deciding` the loop checks the context,
      the policy and the budget; `Sleeping` is the backoff select. */
  datatype Place = Idle | Head | Executing | Deciding | Sleeping | Storing | Leaving | Gone

  /** A worker and its goroutine: its status fields, and what its last run or its loop returned. */
  datatype Goroutine = Goroutine(
    spec: Spec, place: Place, running: bool, restarts: nat, last: Option<Result>, returned: Option<Result>)

  function Registered(spec: Spec): Goroutine {
    Goroutine(spec, Idle, false, 0, None, None)
  }

  function OutcomeOf(returned: Option<Result>): Outcome {
    match returned case None => Failed case Some(r) => Finished(r)
  }

  /** One statement of the loop. `wake` says that the backoff timer wins its select. */
  function Advance(g: Goroutine, cancelled: bool, wake: bool, outcome: Outcome): Option<Goroutine> {
    match g.place
    case Head =>
      Some(if cancelled then g.(place := Storing, running := false, returned := g.last)
           else g.(place := Executing, running := true))
    case Executing =>
      var result := ResultOf(outcome);
      Some(g.(place := Deciding, running := false, returned := result,
              last := if result.Some? then result else g.last))
    case Deciding =>
      if cancelled || !WantsRestart(g.spec.policy, OutcomeOf(g.returned)) then Some(g.(place := Storing))
      else if g.spec.maxRestarts > 0 && g.restarts >= g.spec.maxRestarts then Some(g.(place := Storing))
      else Some(g.(place := Sleeping, restarts := g.restarts + 1))
    case Sleeping =>
      if wake then Some(g.(place := Head)) else if cancelled then Some(g.(place := Storing)) else None
    case _ => None
  }

  // ------------------------------------------------------------------------------------------
  // The rounds behind it
  // ------------------------------------------------------------------------------------------

  const AT_HEAD := Round(true, Failed, false, 0.0, false)

  /** The rounds so far, after the statement that `Advance` takes. The draw of the backoff only decides
      how long a goroutine sleeps, and is left open here. */
  function Recorded(past: seq<Round>, g: Goroutine, cancelled: bool, wake: bool, outcome: Outcome): seq<Round> {
    var n := |past|;
    match g.place
    case Head => if cancelled then past + [AT_HEAD] else past
    case Executing => past + [Round(false, outcome, false, 0.0, false)]
    case Deciding => if n > 0 && cancelled then past[n - 1 := past[n - 1].(cancelledAfter := true)] else past
    case Sleeping => if n > 0 && !wake then past[n - 1 := past[n - 1].(cancelledInBackoff := true)] else past
    case _ => past
  }

  /** The rounds as a stream. */
  function Stream(past: seq<Round>): Rounds {
    (k: nat) => if k < |past| then past[k] else AT_HEAD
  }

  ghost predicate Continues(spec: Spec, past: seq<Round>, n: nat)
    requires n <= |past|
  {
    forall j: nat :: j < n ==> End(spec, past[j], j) == Continue
  }

  /** The loop of a worker with this specification, on the stream of these rounds, returns in the last
      of them, and returns `result`. */
  ghost predicate Refines(spec: Spec, past: seq<Round>, result: Option<Result>) {
    && past != []
    && StopsAt(spec, Stream(past), |past| - 1)
    && result == Returned(spec, Stream(past), |past| - 1)
  }

  /** What the rounds behind it say about a goroutine. */
  ghost predicate Tells(g: Goroutine, past: seq<Round>) {
    match g.place
    case Idle => past == [] && g.restarts == 0 && g.last == None
    case Head | Executing =>
      |past| == g.restarts && Continues(g.spec, past, g.restarts) && g.last == LastResult(Stream(past), g.restarts)
    case Deciding =>
      && |past| == g.restarts + 1 && Continues(g.spec, past, g.restarts)
      && past[g.restarts] == Round(false, OutcomeOf(g.returned), false, 0.0, false)
      && g.last == LastResult(Stream(past), g.restarts + 1)
    case Sleeping =>
      && |past| == g.restarts > 0 && Continues(g.spec, past, g.restarts)
      && g.returned == ResultOf(past[g.restarts - 1].outcome)
      && g.last == LastResult(Stream(past), g.restarts)
    case _ =>
      Refines(g.spec, past, g.returned) && g.restarts == Restarts(g.spec, Stream(past), |past| - 1)
  }

  lemma {:induction false} SameResults(a: Rounds, b: Rounds, n: nat)
    requires forall j: nat :: j < n ==> a(j).outcome == b(j).outcome
    ensures LastResult(a, n) == LastResult(b, n)
  {
    if n > 0 {
      SameResults(a, b, n - 1);
    }
  }

  lemma HeadTells(g: Goroutine, past: seq<Round>, cancelled: bool)
    requires Tells(g, past) && g.place == Head
    ensures Tells(Advance(g, cancelled, false, Failed).value, Recorded(past, g, cancelled, false, Failed))
  {
    if cancelled {
      SameResults(Stream(past), Stream(past + [AT_HEAD]), g.restarts);
    }
  }

  lemma ExecutingTells(g: Goroutine, past: seq<Round>, outcome: Outcome)
    requires Tells(g, past) && g.place == Executing
    ensures Tells(Advance(g, false, false, outcome).value, Recorded(past, g, false, false, outcome))
  {
    SameResults(Stream(past), Stream(Recorded(past, g, false, false, outcome)), g.restarts);
  }

  lemma DecidingTells(g: Goroutine, past: seq<Round>, cancelled: bool)
    requires Tells(g, past) && g.place == Deciding
    ensures Tells(Advance(g, cancelled, false, Failed).value, Recorded(past, g, cancelled, false, Failed))
  {}

  lemma SleepingTells(g: Goroutine, past: seq<Round>, cancelled: bool, wake: bool)
    requires Tells(g, past) && g.place == Sleeping && Advance(g, cancelled, wake, Failed).Some?
    ensures Tells(Advance(g, cancelled, wake, Failed).value, Recorded(past, g, cancelled, wake, Failed))
  {}

  /** Every statement of a goroutine is one that its rounds account for. */
  lemma AdvanceTells(g: Goroutine, past: seq<Round>, cancelled: bool, wake: bool, outcome: Outcome)
    requires Tells(g, past) && Advance(g, cancelled, wake, outcome).Some?
    ensures Tells(Advance(g, cancelled, wake, outcome).value, Recorded(past, g, cancelled, wake, outcome))
  {
    match g.place {
      case Head => HeadTells(g, past, cancelled);
      case Executing => ExecutingTells(g, past, outcome);
      case Deciding => DecidingTells(g, past, cancelled);
      case Sleeping => SleepingTells(g, past, cancelled, wake);
      case _ =>
    }
  }

  /** What a refining loop returns, in terms of its rounds alone: the last run's result, none if it did
      not start; but after a cancellation at the loop head the result of the latest run that gave one. */
  lemma RefinedResult(spec: Spec, past: seq<Round>, result: Option<Result>)
    requires Refines(spec, past, result)
    ensures var last := past[|past| - 1];
            && (!last.cancelledAtHead ==> last.outcome == OutcomeOf(result))
            && (last.cancelledAtHead && result == None ==>
                  forall j :: 0 <= j < |past| - 1 ==> past[j].outcome.Failed?)
            && (last.cancelledAtHead && result.Some? ==>
                  exists j :: 0 <= j < |past| - 1 && past[j].outcome == Finished(result.value)
                              && forall i :: j < i < |past| - 1 ==> past[i].outcome.Failed?)
  {
    var env, stop := Stream(past), |past| - 1;
    ReturnsLastRun(spec, env, stop);
    LatestResult(env, stop);
    if past[stop].cancelledAtHead {
      forall j | 0 <= j < stop
        ensures env(j) == past[j]
      {}
      if result.Some? {
        var j: nat :| j < stop && env(j).outcome == Finished(result.value)
                      && forall i: nat :: j < i < stop ==> env(i).outcome.Failed?;
        assert past[j].outcome == Finished(result.value);
        forall i | j < i < stop
          ensures past[i].outcome.Failed?
        {
          assert env(i).outcome.Failed?;
        }
      } else {
        forall j | 0 <= j < stop
          ensures past[j].outcome.Failed?
        {
          assert env(j).outcome.Failed?;
        }
      }
    }
  }
}
