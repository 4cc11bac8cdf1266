/**
 The restart loop of a supervised worker (supervisor/worker.go). The outcomes of the runs, the
 moments of cancellation and the random draws form a stream of rounds; the loop is proved against
 pure functions of that stream.
 */
module Worker {
  import opened Common
  import RunnerSystem
  import Backoff

  type Result = RunnerSystem.Result

  datatype Policy = RestartNever | RestartAlways | RestartOnFailure | Unknown(code: int)

  datatype Spec = Spec(policy: Policy, maxRestarts: int, backoff: Backoff.Backoff)

  /** What runner.Run returned: a result, or an error because the command did not start. */
  datatype Outcome = Finished(result: Result) | Failed

  /** One turn of the loop: is the context cancelled when the loop is entered; what the run gives;
      is the context cancelled then; the random draw; does cancellation win over the backoff timer. */
  datatype Round = Round(cancelledAtHead: bool, outcome: Outcome, cancelledAfter: bool, draw: real,
                         cancelledInBackoff: bool)

  type Rounds = nat -> Round

  ghost predicate Draws(env: Rounds) {
    forall k: nat :: 0.0 <= env(k).draw < 1.0
  }

  function ResultOf(o: Outcome): Option<Result> {
    match o case Finished(r) => Some(r) case Failed => None
  }

  predicate Succeeds(o: Outcome) {
    o.Finished? && o.result.Success()
  }

  predicate WantsRestart(policy: Policy, o: Outcome) {
    match policy
    case RestartAlways => true
    case RestartOnFailure => !Succeeds(o)
    case RestartNever => false
    case Unknown(_) => false
  }

  /** How round `k`, entered after `k` restarts, ends. */
  datatype Ending = Continue | AtHead | AfterRun | NotWanted | BudgetSpent | InBackoff

  function End(spec: Spec, r: Round, k: nat): Ending {
    if r.cancelledAtHead then AtHead
    else if r.cancelledAfter then AfterRun
    else if !WantsRestart(spec.policy, r.outcome) then NotWanted
    else if spec.maxRestarts > 0 && k >= spec.maxRestarts then BudgetSpent
    else if r.cancelledInBackoff then InBackoff
    else Continue
  }

  /** The loop returns in round `stop`. */
  ghost predicate StopsAt(spec: Spec, env: Rounds, stop: nat) {
    && End(spec, env(stop), stop) != Continue
    && forall j: nat :: j < stop ==> End(spec, env(j), j) == Continue
  }

  function Runs(spec: Spec, env: Rounds, stop: nat): nat {
    if End(spec, env(stop), stop) == AtHead then stop else stop + 1
  }

  function Restarts(spec: Spec, env: Rounds, stop: nat): nat {
    if End(spec, env(stop), stop) == InBackoff then stop + 1 else stop
  }

  /** The latest result among the first `n` runs; runs that did not start leave none. */
  function LastResult(env: Rounds, n: nat): Option<Result> {
    if n == 0 then None
    else
      match env(n - 1).outcome
      case Finished(r) => Some(r)
      case Failed => LastResult(env, n - 1)
  }

  /** What the worker returns: at the loop head the latest result, elsewhere the last run's. */
  function Returned(spec: Spec, env: Rounds, stop: nat): Option<Result> {
    if End(spec, env(stop), stop) == AtHead then LastResult(env, stop) else ResultOf(env(stop).outcome)
  }

  /** The delays scheduled before the first `n` restarts. */
  function Delays(spec: Spec, env: Rounds, n: nat): seq<int> {
    if n == 0 then [] else Delays(spec, env, n - 1) + [Backoff.Delay(spec.backoff, n, env(n - 1).draw)]
  }

  class Worker {
    const spec: Spec
    var running: bool
    var restarts: nat
    var lastExitCode: int
    var lastDuration: int
    var lastResult: Option<Result>

    /** The runs made and the delays scheduled. */
    ghost var runs: nat
    ghost var delays: seq<int>

    constructor (spec: Spec)
      ensures Fresh() && this.spec == spec
    {
      this.spec := spec;
      running, restarts, lastExitCode, lastDuration, lastResult := false, 0, 0, 0, None;
      runs, delays := 0, [];
    }

    ghost predicate Fresh()
      reads this
    {
      !running && restarts == 0 && lastResult == None && lastExitCode == 0 && lastDuration == 0
      && runs == 0 && delays == []
    }

    /** What the status fields say after the first `n` runs. */
    ghost predicate Reports(env: Rounds, n: nat)
      reads `runs, `lastResult, `lastDuration, `lastExitCode
    {
      && runs == n
      && lastResult == LastResult(env, n)
      && lastDuration == (match LastResult(env, n) case None => 0 case Some(r) => r.duration)
      && lastExitCode == (if n == 0 then 0
                          else match env(n - 1).outcome case Finished(r) => r.exitCode case Failed => -1)
    }

    lemma FreshReports(env: Rounds)
      requires Fresh()
      ensures Reports(env, 0) && lastResult == LastResult(env, 0)
    {}

    lemma ReportsMean(env: Rounds, n: nat)
      requires Reports(env, n)
      ensures lastResult == LastResult(env, n)
      ensures lastResult.Some? ==> lastDuration == lastResult.value.duration
      ensures n > 0 ==> lastExitCode == match env(n - 1).outcome case Finished(r) => r.exitCode case Failed => -1
    {}

    /** The loop, on any stream of rounds in which it returns; see `Halts` for when it does. */
    method Run(env: Rounds, ghost stop: nat) returns (result: Option<Result>)
      requires Fresh() && Draws(env) && StopsAt(spec, env, stop)
      modifies this
      ensures result == Returned(spec, env, stop)
      ensures !running && Reports(env, Runs(spec, env, stop))
      ensures runs > 0 ==>
                lastExitCode == match env(runs - 1).outcome case Finished(r) => r.exitCode case Failed => -1
      ensures lastResult == LastResult(env, runs)
      ensures lastResult.Some? ==> lastDuration == lastResult.value.duration
      ensures restarts == Restarts(spec, env, stop)
      ensures delays == Delays(spec, env, restarts)
    {
      hide LastResult, Reports, Backoff.Delay;
      FreshReports(env);
      var attempt := 1;
      while true
        invariant attempt == restarts + 1 && restarts <= stop
        invariant !running && Reports(env, restarts)
        invariant runs == restarts && lastResult == LastResult(env, restarts)
        invariant delays == Delays(spec, env, restarts)
        decreases stop + 1 - attempt
      {
        var round := env(restarts);
        assert restarts < stop ==> End(spec, round, restarts) == Continue;
        if round.cancelledAtHead {
          ReportsMean(env, runs);
          running := false;
          return lastResult;
        }
        running := true;
        var outcome := round.outcome;
        RecordRun(outcome, env);
        ReportsMean(env, runs);
        result := ResultOf(outcome);
        if round.cancelledAfter {
          return;
        }
        var shouldRestart := ShouldRestart(outcome);
        if !shouldRestart {
          return;
        }
        if spec.maxRestarts > 0 && restarts >= spec.maxRestarts {
          return;
        }
        restarts := restarts + 1;
        var delay := Backoff.Duration(spec.backoff, attempt, round.draw);
        delays := delays + [delay];
        attempt := attempt + 1;
        if round.cancelledInBackoff {
          return;
        }
      }
    }

    /** Does the policy ask for another run? */
    method ShouldRestart(outcome: Outcome) returns (shouldRestart: bool)
      ensures shouldRestart <==> WantsRestart(spec.policy, outcome)
    {
      shouldRestart := false;
      match spec.policy {
        case RestartAlways =>
          shouldRestart := true;
        case RestartOnFailure =>
          if outcome.Finished? && !outcome.result.Success() {
            shouldRestart := true;
          } else if outcome.Failed? {
            shouldRestart := true;
          }
        case RestartNever =>
          shouldRestart := false;
        case Unknown(_) =>
      }
    }

    /** The status fields after a run. */
    method RecordRun(outcome: Outcome, ghost env: Rounds)
      requires running && Reports(env, runs) && env(runs).outcome == outcome
      modifies this`running, this`lastExitCode, this`lastDuration, this`lastResult, this`runs
      ensures !running && runs == old(runs) + 1 && Reports(env, runs) && lastResult == LastResult(env, runs)
    {
      running := false;
      match outcome {
        case Finished(result) =>
          lastExitCode := result.exitCode;
          lastDuration := result.duration;
          lastResult := Some(result);
        case Failed =>
          lastExitCode := -1;
      }
      runs := runs + 1;
    }
  }

  // ------------------------------------------------------------------------------------------
  // Runs that are never cancelled
  // ------------------------------------------------------------------------------------------

  ghost predicate NeverCancelled(env: Rounds) {
    forall k: nat :: !env(k).cancelledAtHead && !env(k).cancelledAfter && !env(k).cancelledInBackoff
  }

  /** RestartNever runs the command exactly once. */
  lemma NeverRunsOnce(spec: Spec, env: Rounds, stop: nat)
    requires spec.policy == RestartNever && NeverCancelled(env)
    ensures StopsAt(spec, env, stop) <==> stop == 0
    ensures StopsAt(spec, env, stop) ==> Runs(spec, env, stop) == 1 && Restarts(spec, env, stop) == 0
  {
    assert End(spec, env(0), 0) == NotWanted;
  }

  /** RestartAlways with a budget of n restarts runs it exactly n + 1 times. */
  lemma AlwaysSpendsTheBudget(spec: Spec, env: Rounds, stop: nat)
    requires spec.policy == RestartAlways && spec.maxRestarts > 0 && NeverCancelled(env)
    ensures StopsAt(spec, env, stop) <==> stop == spec.maxRestarts
    ensures StopsAt(spec, env, stop) ==>
              Runs(spec, env, stop) == spec.maxRestarts + 1 && Restarts(spec, env, stop) == spec.maxRestarts
  {
    var n := spec.maxRestarts;
    assert End(spec, env(n), n) == BudgetSpent;
    forall j: nat | j < n
      ensures End(spec, env(j), j) == Continue
    {}
  }

  /** RestartOnFailure runs it up to the first success, or until the budget, if any, is spent. */
  lemma OnFailureRunsToFirstSuccess(spec: Spec, env: Rounds, stop: nat)
    requires spec.policy == RestartOnFailure && NeverCancelled(env)
    ensures StopsAt(spec, env, stop) <==>
              && (forall j: nat :: j < stop ==> !Succeeds(env(j).outcome))
              && (Succeeds(env(stop).outcome) || (spec.maxRestarts > 0 && stop >= spec.maxRestarts))
              && (spec.maxRestarts > 0 ==> stop <= spec.maxRestarts)
    ensures StopsAt(spec, env, stop) ==>
              Runs(spec, env, stop) == stop + 1 && Restarts(spec, env, stop) == stop
  {
    if StopsAt(spec, env, stop) {
      forall j: nat | j < stop
        ensures !Succeeds(env(j).outcome) && (spec.maxRestarts > 0 ==> j < spec.maxRestarts)
      {
        assert End(spec, env(j), j) == Continue;
      }
      if stop > 0 {
        assert End(spec, env(stop - 1), stop - 1) == Continue;
      }
    }
  }

  /** Whatever the policy, an uncancelled worker returns the last run's result after one restart
      less than it made runs. */
  lemma UncancelledReturn(spec: Spec, env: Rounds, stop: nat)
    requires NeverCancelled(env) && StopsAt(spec, env, stop)
    ensures Restarts(spec, env, stop) == Runs(spec, env, stop) - 1
    ensures Returned(spec, env, stop) == ResultOf(env(Runs(spec, env, stop) - 1).outcome)
  {}

  // ------------------------------------------------------------------------------------------
  // What ends the loop, and what it leaves, in terms of the configuration and the rounds alone
  // ------------------------------------------------------------------------------------------

  /** The policy wants another run after this outcome. */
  predicate Wants(policy: Policy, o: Outcome) {
    || policy == RestartAlways
    || (policy == RestartOnFailure
        && !(o.Finished? && o.result.exitCode == 0 && !o.result.cancelled && o.result.error == None))
  }

  /** The loop goes on after round `k`: no cancellation at any of its three places, a policy that wants
      another run, and a budget that is not spent. */
  predicate GoesOn(spec: Spec, r: Round, k: nat) {
    && !r.cancelledAtHead && !r.cancelledAfter && !r.cancelledInBackoff
    && Wants(spec.policy, r.outcome)
    && (spec.maxRestarts > 0 ==> k < spec.maxRestarts)
  }

  /** The loop returns in the first round after which it does not go on; in that round the command
      runs unless the cancellation came before, and it has counted one more restart only if nothing but
      a cancellation of the backoff ended it. */
  lemma StopsExactly(spec: Spec, env: Rounds, stop: nat)
    ensures StopsAt(spec, env, stop) <==>
              !GoesOn(spec, env(stop), stop) && forall j: nat :: j < stop ==> GoesOn(spec, env(j), j)
    ensures StopsAt(spec, env, stop) ==>
              && Runs(spec, env, stop) == (if env(stop).cancelledAtHead then stop else stop + 1)
              && Restarts(spec, env, stop) ==
                 if GoesOn(spec, env(stop).(cancelledInBackoff := false), stop) then stop + 1 else stop
  {
    assert forall j: nat :: End(spec, env(j), j) == Continue <==> GoesOn(spec, env(j), j);
  }

  /** The latest result is that of a run after which none gave a result; there is none if no run gave
      one. */
  lemma {:induction false} LatestResult(env: Rounds, n: nat)
    ensures var last := LastResult(env, n);
            && (last == None <==> forall j: nat :: j < n ==> env(j).outcome.Failed?)
            && (last.Some? ==>
                  exists j: nat :: j < n && env(j).outcome == Finished(last.value)
                                   && forall i: nat :: j < i < n ==> env(i).outcome.Failed?)
  {
    if n > 0 {
      LatestResult(env, n - 1);
      if env(n - 1).outcome.Failed? && LastResult(env, n - 1).Some? {
        var last := LastResult(env, n - 1).value;
        var j: nat :| j < n - 1 && env(j).outcome == Finished(last)
                      && forall i: nat :: j < i < n - 1 ==> env(i).outcome.Failed?;
        assert j < n && env(j).outcome == Finished(last);
      }
    }
  }

  /** What the worker returns: the last run's result, or none if that run did not start; but where the
      cancellation came between two runs, or before the first, the latest result of any run. */
  lemma ReturnsLastRun(spec: Spec, env: Rounds, stop: nat)
    requires StopsAt(spec, env, stop)
    ensures env(stop).cancelledAtHead ==> Returned(spec, env, stop) == LastResult(env, stop)
    ensures !env(stop).cancelledAtHead ==>
              && (env(stop).outcome == Failed <==> Returned(spec, env, stop) == None)
              && (Returned(spec, env, stop).Some? ==> env(stop).outcome == Finished(Returned(spec, env, stop).value))
  {}

  /** The delay before restart k + 1 is the backoff of attempt k + 1: for a sound configuration without
      jitter, the smaller of Max and Min * Factor^k. */
  lemma {:induction false} DelayOfRestart(spec: Spec, env: Rounds, n: nat, k: nat)
    requires k < n
    ensures |Delays(spec, env, n)| == n
    ensures Delays(spec, env, n)[k] == Backoff.Delay(spec.backoff, k + 1, env(k).draw)
    ensures var b := spec.backoff;
            0 < b.min <= b.max && b.factor > 1.0 && b.jitter <= 0.0 ==>
              var exact := (b.min as real * Backoff.Pow(b.factor, k)).Floor;
              Delays(spec, env, n)[k] == if exact <= b.max then exact else b.max
  {
    hide Delays, Backoff.Delay, Backoff.Pow;
    DelayAt(spec, env, n, k);
    var b := spec.backoff;
    if 0 < b.min <= b.max && b.factor > 1.0 && b.jitter <= 0.0 {
      Backoff.ClosedForm(b, k + 1, env(k).draw);
    }
  }

  lemma {:induction false} DelayAt(spec: Spec, env: Rounds, n: nat, k: nat)
    requires k < n
    ensures |Delays(spec, env, n)| == n
    ensures Delays(spec, env, n)[k] == Backoff.Delay(spec.backoff, k + 1, env(k).draw)
  {
    hide Backoff.Delay;
    if n > 1 {
      DelayAt(spec, env, n - 1, if k < n - 1 then k else 0);
    }
  }

  // ------------------------------------------------------------------------------------------
  // Every run, cancelled or not
  // ------------------------------------------------------------------------------------------

  /** The loop returns exactly when some round does not continue, in the first such round; with a
      budget it always does, after at most MaxRestarts restarts. */
  lemma Halts(spec: Spec, env: Rounds)
    ensures (exists stop: nat :: StopsAt(spec, env, stop)) <==> exists k: nat :: End(spec, env(k), k) != Continue
    ensures spec.maxRestarts > 0 ==> exists stop: nat :: stop <= spec.maxRestarts && StopsAt(spec, env, stop)
  {
    if spec.maxRestarts > 0 {
      assert End(spec, env(spec.maxRestarts), spec.maxRestarts) != Continue;
      var stop := FirstStop(spec, env, spec.maxRestarts);
    }
    if k: nat :| End(spec, env(k), k) != Continue {
      var stop := FirstStop(spec, env, k);
    }
  }

  lemma FirstStop(spec: Spec, env: Rounds, k: nat) returns (stop: nat)
    requires End(spec, env(k), k) != Continue
    ensures stop <= k && StopsAt(spec, env, stop)
  {
    stop := 0;
    while End(spec, env(stop), stop) == Continue
      invariant stop <= k
      invariant forall j: nat :: j < stop ==> End(spec, env(j), j) == Continue
      decreases k - stop
    {
      stop := stop + 1;
    }
  }

  function Sum(xs: seq<int>): int {
    if xs == [] then 0 else Sum(xs[..|xs| - 1]) + xs[|xs| - 1]
  }

  /** Restart accounting over a whole run, whatever the backoff: restarts is runs or runs - 1, and runs
      exactly when the worker was cancelled between two runs or before the first; a positive budget is
      respected. For 0 < Min <= Max the delays scheduled total at least Min and at most Max for each
      restart. */
  lemma Accounting(spec: Spec, env: Rounds, stop: nat)
    requires StopsAt(spec, env, stop)
    ensures var runs, restarts := Runs(spec, env, stop), Restarts(spec, env, stop);
            var total := Sum(Delays(spec, env, restarts));
            && restarts == (if End(spec, env(stop), stop) in {AtHead, InBackoff} then runs else runs - 1)
            && (spec.maxRestarts > 0 ==> restarts <= spec.maxRestarts)
            && (Draws(env) && 0 < spec.backoff.min <= spec.backoff.max ==>
                  && restarts * spec.backoff.min <= total <= restarts * spec.backoff.max
                  && (spec.maxRestarts > 0 ==> total <= spec.maxRestarts * spec.backoff.max))
  {
    var restarts := Restarts(spec, env, stop);
    if spec.maxRestarts > 0 && stop > 0 {
      assert End(spec, env(stop - 1), stop - 1) == Continue;
    }
    if Draws(env) && 0 < spec.backoff.min <= spec.backoff.max {
      DelaysBounded(spec, env, restarts);
      if spec.maxRestarts > 0 {
        MulMonotone(restarts, spec.maxRestarts, spec.backoff.max);
      }
    }
  }

  lemma MulMonotone(a: int, b: int, x: int)
    requires a <= b && x >= 0
    ensures a * x <= b * x
  {}

  lemma {:induction false} DelaysBounded(spec: Spec, env: Rounds, n: nat)
    requires Draws(env) && 0 < spec.backoff.min <= spec.backoff.max
    ensures |Delays(spec, env, n)| == n
    ensures n * spec.backoff.min <= Sum(Delays(spec, env, n)) <= n * spec.backoff.max
  {
    EachDelayBounded(spec, env, n);
    SumBounded(Delays(spec, env, n), spec.backoff.min, spec.backoff.max);
  }

  lemma {:induction false} EachDelayBounded(spec: Spec, env: Rounds, n: nat)
    requires Draws(env) && 0 < spec.backoff.min <= spec.backoff.max
    ensures |Delays(spec, env, n)| == n
    ensures forall i :: 0 <= i < n ==> spec.backoff.min <= Delays(spec, env, n)[i] <= spec.backoff.max
  {
    if n > 0 {
      EachDelayBounded(spec, env, n - 1);
      Backoff.InRangeIff(spec.backoff, n, env(n - 1).draw);
    }
  }

  lemma {:induction false} SumBounded(xs: seq<int>, low: int, high: int)
    requires forall i :: 0 <= i < |xs| ==> low <= xs[i] <= high
    ensures |xs| * low <= Sum(xs) <= |xs| * high
  {
    if xs != [] {
      SumBounded(xs[..|xs| - 1], low, high);
    }
  }
}
