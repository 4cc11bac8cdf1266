/**
 The worker pool (supervisor/supervisor.go). One goroutine per worker runs the restart loop of
 supervisor/worker.go (module WorkerSteps), stores its result under the lock, and leaves the wait group;
 Start, Wait, Stop and the cancellation of the context interleave with all of them.
 */
module Supervisor {
  import opened Common
  import opened Executions
  import opened WorkerSteps
  import W = Worker

  type Result = W.Result

  datatype StopCall = NotCalled | Cancelling | Draining | Stopped

  /** What the goroutines of the workers share. */
  datatype Crew = Crew(workers: map<string, Goroutine>, results: map<string, Option<Result>>, wg: nat)

  /** `past` are the rounds that each worker's loop has been through. */
  datatype Pool = Pool(
    crew: Crew, past: map<string, seq<W.Round>>, started: bool, launching: set<string>, startReturned: bool,
    stopped: bool, stop: StopCall, cancelled: bool)

  const EMPTY := Pool(Crew(map[], map[], 0), map[], false, {}, false, false, NotCalled, false)

  datatype Event =
    | Add(name: string, spec: W.Spec)
    | BeginStart
    | Launch(name: string)                                    // wg.Add(1) and the go statement
    | EndStart
    | Move(name: string, wake: bool, outcome: W.Outcome)      // one statement of a worker's goroutine
    | Cancel                                                  // the parent context ends
    | BeginStop
    | CancelAll                                               // Stop calls cancel
    | EndStop                                                 // Stop's wg.Wait returns

  function With(c: Crew, name: string, w: Goroutine): Crew {
    c.(workers := c.workers[name := w])
  }

  /** One statement of the goroutine of worker `name`. */
  function MoveStep(c: Crew, cancelled: bool, name: string, wake: bool, outcome: W.Outcome): Option<Crew> {
    if name !in c.workers then None
    else
      var w := c.workers[name];
      match w.place
      case Idle | Gone => None
      case Storing => Some(With(c, name, w.(place := Leaving)).(results := c.results[name := w.returned]))
      case Leaving => if c.wg == 0 then None else Some(With(c, name, w.(place := Gone)).(wg := c.wg - 1))
      case _ =>
        match Advance(w, cancelled, wake, outcome)
        case None => None
        case Some(next) => Some(With(c, name, next))
  }

  function Remember(p: Pool, name: string, wake: bool, outcome: W.Outcome): map<string, seq<W.Round>> {
    if name !in p.past || name !in p.crew.workers then p.past
    else p.past[name := Recorded(p.past[name], p.crew.workers[name], p.cancelled, wake, outcome)]
  }

  function Step(p: Pool, e: Event): Option<Pool> {
    match e
    case Add(name, spec) =>
      // every refused call returns an error and changes nothing
      Some(if !p.started && name != "" && name !in p.crew.workers
           then p.(crew := With(p.crew, name, Registered(spec)), past := p.past[name := []]) else p)
    case BeginStart => Some(if p.started then p else p.(started := true, launching := p.crew.workers.Keys))
    case Launch(name) =>
      if name !in p.launching || name !in p.crew.workers then None
      else Some(p.(crew := With(p.crew, name, p.crew.workers[name].(place := Head)).(wg := p.crew.wg + 1),
                   launching := p.launching - {name}))
    case EndStart => if !p.started || p.launching != {} then None else Some(p.(startReturned := true))
    case Move(name, wake, outcome) =>
      (match MoveStep(p.crew, p.cancelled, name, wake, outcome)
       case None => None
       case Some(crew) => Some(p.(crew := crew, past := Remember(p, name, wake, outcome))))
    case Cancel => Some(p.(cancelled := true))
    case BeginStop =>
      // not to race with Start; an error before Start, and a second call returns at once
      if p.started && !p.startReturned then None
      else Some(if !p.started || p.stopped then p else p.(stopped := true, stop := Cancelling))
    case CancelAll => if p.stop == Cancelling then Some(p.(cancelled := true, stop := Draining)) else None
    case EndStop => if p.stop == Draining && p.crew.wg == 0 then Some(p.(stop := Stopped)) else None
  }

  /** The goroutines that the wait group counts. */
  function Counted(workers: map<string, Goroutine>): set<string> {
    set n | n in workers && workers[n].place != Idle && workers[n].place != Gone
  }

  ghost predicate CrewInv(c: Crew) {
    && c.wg == |Counted(c.workers)|
    && "" !in c.workers
    && (forall n :: n in c.results ==> n in c.workers)
    && (forall n :: n in c.workers ==> WorkerInv(c, n))
  }

  /** A worker is marked running exactly while its command runs, and its result is published
      exactly from the store on. */
  ghost predicate WorkerInv(c: Crew, n: string)
    requires n in c.workers
  {
    var w := c.workers[n];
    && (w.running <==> w.place == Executing)
    && (n in c.results <==> w.place == Leaving || w.place == Gone)
    && (n in c.results ==> c.results[n] == w.returned)
  }

  ghost predicate LaunchInv(p: Pool) {
    && p.launching <= p.crew.workers.Keys
    && (forall n :: n in p.crew.workers ==>
          (p.crew.workers[n].place == Idle <==> !p.started || n in p.launching))
    && (!p.started ==> p.launching == {})
    && (p.startReturned ==> p.started && p.launching == {})
  }

  ghost predicate StopInv(p: Pool) {
    && (p.stop != NotCalled ==> p.startReturned && p.stopped)
    && (p.stop == Draining || p.stop == Stopped ==> p.cancelled)
  }

  /** Every worker has behaved, in the rounds behind it, as module Worker says. */
  ghost predicate PastInv(p: Pool) {
    p.past.Keys == p.crew.workers.Keys && forall n :: n in p.past ==> Tells(p.crew.workers[n], p.past[n])
  }

  ghost predicate Inv(p: Pool) {
    CrewInv(p.crew) && LaunchInv(p) && StopInv(p) && PastInv(p)
  }

  lemma CountedUpdate(workers: map<string, Goroutine>, name: string, w: Goroutine)
    requires name in workers
    ensures w.place != Idle && w.place != Gone ==> Counted(workers[name := w]) == Counted(workers) + {name}
    ensures w.place == Idle || w.place == Gone ==> Counted(workers[name := w]) == Counted(workers) - {name}
  {}

  lemma RegisteredTells(spec: W.Spec)
    ensures Tells(Registered(spec), [])
  {}

  lemma LaunchTells(w: Goroutine, past: seq<W.Round>)
    ensures w.place == Idle && Tells(w, past) ==> Tells(w.(place := Head), past)
  {}

  lemma AddKeepsInv(p: Pool, name: string, spec: W.Spec)
    requires Inv(p)
    ensures Inv(Step(p, Add(name, spec)).value)
  {
    hide Tells;
    assert Tells(Registered(spec), []) by { RegisteredTells(spec); }
    var c, c' := p.crew, Step(p, Add(name, spec)).value.crew;
    assert Counted(c'.workers) == Counted(c.workers);
    forall n | n in c'.workers
      ensures WorkerInv(c', n)
    {
      if n in c.workers { assert WorkerInv(c, n); }
    }
  }

  lemma LaunchKeepsCrew(p: Pool, name: string)
    requires CrewInv(p.crew) && LaunchInv(p) && Step(p, Launch(name)).Some?
    ensures CrewInv(Step(p, Launch(name)).value.crew)
  {
    var c, c' := p.crew, Step(p, Launch(name)).value.crew;
    CountedUpdate(c.workers, name, c'.workers[name]);
    assert c.workers[name].place == Idle;
    assert name !in Counted(c.workers);
    forall n | n in c'.workers
      ensures WorkerInv(c', n)
    {
      assert WorkerInv(c, n);
    }
  }

  lemma LaunchKeepsInv(p: Pool, name: string)
    requires Inv(p) && Step(p, Launch(name)).Some?
    ensures Inv(Step(p, Launch(name)).value)
  {
    hide Tells, CrewInv;
    LaunchKeepsCrew(p, name);
    LaunchTells(p.crew.workers[name], p.past[name]);
  }

  lemma MoveKeepsPlaces(c: Crew, cancelled: bool, name: string, wake: bool, outcome: W.Outcome)
    requires MoveStep(c, cancelled, name, wake, outcome).Some?
    ensures var c' := MoveStep(c, cancelled, name, wake, outcome).value;
            && c'.workers.Keys == c.workers.Keys
            && c.workers[name].place != Idle && c'.workers[name].place != Idle && c.workers[name].place != Gone
            && forall n :: n in c.workers && n != name ==> c'.workers[n] == c.workers[n]
  {
    var c' := MoveStep(c, cancelled, name, wake, outcome).value;
    assert c'.workers == c.workers[name := c'.workers[name]];
  }

  lemma MoveKeepsCount(c: Crew, cancelled: bool, name: string, wake: bool, outcome: W.Outcome)
    requires c.wg == |Counted(c.workers)| && MoveStep(c, cancelled, name, wake, outcome).Some?
    ensures var c' := MoveStep(c, cancelled, name, wake, outcome).value;
            c'.wg == |Counted(c'.workers)|
  {
    var c' := MoveStep(c, cancelled, name, wake, outcome).value;
    MoveKeepsPlaces(c, cancelled, name, wake, outcome);
    assert c'.workers == c.workers[name := c'.workers[name]];
    CountedUpdate(c.workers, name, c'.workers[name]);
    assert name in Counted(c.workers);
    assert Counted(c.workers) + {name} == Counted(c.workers);
  }

  lemma MoveKeepsCrew(c: Crew, cancelled: bool, name: string, wake: bool, outcome: W.Outcome)
    requires CrewInv(c) && MoveStep(c, cancelled, name, wake, outcome).Some?
    ensures CrewInv(MoveStep(c, cancelled, name, wake, outcome).value)
  {
    var c' := MoveStep(c, cancelled, name, wake, outcome).value;
    MoveKeepsCount(c, cancelled, name, wake, outcome);
    forall n | n in c'.workers
      ensures WorkerInv(c', n)
    {
      assert WorkerInv(c, n);
    }
  }

  lemma MoveKeepsPast(p: Pool, name: string, wake: bool, outcome: W.Outcome)
    requires PastInv(p) && Step(p, Move(name, wake, outcome)).Some?
    ensures PastInv(Step(p, Move(name, wake, outcome)).value)
  {
    hide Tells, Recorded, Advance;
    var q, w := Step(p, Move(name, wake, outcome)).value, p.crew.workers[name];
    MoveKeepsPlaces(p.crew, p.cancelled, name, wake, outcome);
    if w.place == Storing || w.place == Leaving {
      EndedTells(w, p.past[name], p.cancelled, wake, outcome);
    } else {
      AdvanceTells(w, p.past[name], p.cancelled, wake, outcome);
    }
  }

  lemma EndedTells(w: Goroutine, past: seq<W.Round>, cancelled: bool, wake: bool, outcome: W.Outcome)
    requires Tells(w, past) && (w.place == Storing || w.place == Leaving)
    ensures forall place :: place == Leaving || place == Gone ==> Tells(w.(place := place), past)
    ensures Recorded(past, w, cancelled, wake, outcome) == past
  {}

  lemma MoveKeepsInv(p: Pool, name: string, wake: bool, outcome: W.Outcome)
    requires Inv(p) && Step(p, Move(name, wake, outcome)).Some?
    ensures Inv(Step(p, Move(name, wake, outcome)).value)
  {
    hide CrewInv, PastInv, MoveStep, Remember;
    assert CrewInv(p.crew) && PastInv(p);
    MoveKeepsCrew(p.crew, p.cancelled, name, wake, outcome);
    MoveKeepsPlaces(p.crew, p.cancelled, name, wake, outcome);
    MoveKeepsPast(p, name, wake, outcome);
  }

  lemma CallKeepsInv(p: Pool, e: Event)
    requires Inv(p) && Step(p, e).Some? && !e.Add? && !e.Launch? && !e.Move?
    ensures Inv(Step(p, e).value)
  {
    hide CrewInv, Tells;
    match e {
      case BeginStart => case EndStart => case Cancel => case BeginStop => case CancelAll => case EndStop =>
    }
  }

  lemma StepKeepsInv(p: Pool, e: Event)
    requires Inv(p) && Step(p, e).Some?
    ensures Inv(Step(p, e).value)
  {
    hide Inv, Step;
    match e {
      case Add(name, spec) => AddKeepsInv(p, name, spec);
      case Launch(name) => LaunchKeepsInv(p, name);
      case Move(name, wake, outcome) => MoveKeepsInv(p, name, wake, outcome);
      case _ => CallKeepsInv(p, e);
    }
  }

  lemma {:induction false} RunKeepsInv(p: Pool, es: seq<Event>)
    requires Inv(p) && Exec(Step, p, es).Some?
    ensures Inv(Exec(Step, p, es).value)
  {
    if es != [] {
      RunKeepsInv(p, es[..|es| - 1]);
      StepKeepsInv(Exec(Step, p, es[..|es| - 1]).value, es[|es| - 1]);
    }
  }

  // ------------------------------------------------------------------------------------------
  // What Wait and Stop can rely on
  // ------------------------------------------------------------------------------------------

  /** Every worker's loop has ended and its result is published. */
  ghost predicate Drained(c: Crew) {
    && (forall n :: n in c.workers ==> c.workers[n].place == Gone && !c.workers[n].running)
    && c.results.Keys == c.workers.Keys
    && (forall n :: n in c.results ==> c.results[n] == c.workers[n].returned)
  }

  /** Every published result is what the loop of its worker returns on the rounds behind it. */
  ghost predicate Published(p: Pool) {
    && p.past.Keys == p.crew.workers.Keys
    && forall n :: n in p.crew.results ==>
         && n in p.past && Refines(p.crew.workers[n].spec, p.past[n], p.crew.results[n])
         && (p.past[n][|p.past[n]| - 1].cancelledAtHead
             || p.past[n][|p.past[n]| - 1].outcome == OutcomeOf(p.crew.results[n]))
  }

  lemma ResultsArePublished(p: Pool)
    requires Inv(p)
    ensures Published(p)
  {
    forall n | n in p.crew.results
      ensures n in p.past && Refines(p.crew.workers[n].spec, p.past[n], p.crew.results[n])
      ensures p.past[n][|p.past[n]| - 1].cancelledAtHead
              || p.past[n][|p.past[n]| - 1].outcome == OutcomeOf(p.crew.results[n])
    {
      assert WorkerInv(p.crew, n) && Tells(p.crew.workers[n], p.past[n]);
      RefinedResult(p.crew.workers[n].spec, p.past[n], p.crew.results[n]);
    }
  }

  /** The outcomes of the runs of a worker in a run of the pool, as runner.Run gave them. */
  ghost function Ran(es: seq<Event>, name: string): seq<W.Outcome> {
    if es == [] then []
    else
      var less, e := es[..|es| - 1], es[|es| - 1];
      Ran(less, name) + if e.Move? && e.name == name && IsRunning(less, name) then [e.outcome] else []
  }

  ghost predicate IsRunning(es: seq<Event>, name: string) {
    match Exec(Step, EMPTY, es)
    case None => false
    case Some(p) => name in p.crew.workers && p.crew.workers[name].place == Executing
  }

  /** The outcomes in the rounds of a worker. */
  function Outcomes(past: seq<W.Round>): seq<W.Outcome> {
    if past == [] then []
    else Outcomes(past[..|past| - 1]) + if past[|past| - 1].cancelledAtHead then [] else [past[|past| - 1].outcome]
  }

  lemma OutcomesSnoc(past: seq<W.Round>, r: W.Round)
    ensures Outcomes(past + [r]) == Outcomes(past) + if r.cancelledAtHead then [] else [r.outcome]
  {
    assert (past + [r])[..|past|] == past;
  }

  lemma OutcomesUpdate(past: seq<W.Round>, r: W.Round)
    requires past != []
    requires r.outcome == past[|past| - 1].outcome && r.cancelledAtHead == past[|past| - 1].cancelledAtHead
    ensures Outcomes(past[|past| - 1 := r]) == Outcomes(past)
  {
    assert past[|past| - 1 := r][..|past| - 1] == past[..|past| - 1];
  }

  lemma OutcomesRecorded(past: seq<W.Round>, g: Goroutine, cancelled: bool, wake: bool, outcome: W.Outcome)
    ensures Outcomes(Recorded(past, g, cancelled, wake, outcome)) ==
            Outcomes(past) + if g.place == Executing then [outcome] else []
  {
    hide Outcomes;
    match g.place {
      case Head => OutcomesSnoc(past, AT_HEAD);
      case Executing => OutcomesSnoc(past, W.Round(false, outcome, false, 0.0, false));
      case Deciding =>
        if past != [] { OutcomesUpdate(past, past[|past| - 1].(cancelledAfter := true)); }
      case Sleeping =>
        if past != [] { OutcomesUpdate(past, past[|past| - 1].(cancelledInBackoff := true)); }
      case _ =>
    }
  }

  /** The rounds of a worker hold the outcomes of its runs, each once and in order. */
  lemma {:induction false} RoundsAreRuns(es: seq<Event>, name: string)
    requires Exec(Step, EMPTY, es).Some?
    ensures var p := Exec(Step, EMPTY, es).value;
            && p.past.Keys == p.crew.workers.Keys
            && (name in p.past ==> Outcomes(p.past[name]) == Ran(es, name))
            && (name !in p.past ==> Ran(es, name) == [])
  {
    if es != [] {
      var less, e := es[..|es| - 1], es[|es| - 1];
      RoundsAreRuns(less, name);
      RunsOfStep(Exec(Step, EMPTY, less).value, e, name);
    }
  }

  lemma RunsOfStep(p: Pool, e: Event, name: string)
    requires p.past.Keys == p.crew.workers.Keys && Step(p, e).Some?
    ensures var q := Step(p, e).value;
            && q.past.Keys == q.crew.workers.Keys && p.past.Keys <= q.past.Keys
            && (name in p.past ==>
                  Outcomes(q.past[name]) ==
                  Outcomes(p.past[name]) +
                  if e.Move? && e.name == name && p.crew.workers[name].place == Executing then [e.outcome] else [])
            && (name !in p.past && name in q.past ==> q.past[name] == [])
  {
    hide Outcomes, Recorded, Advance;
    if e.Move? {
      MoveKeepsPlaces(p.crew, p.cancelled, e.name, e.wake, e.outcome);
      if e.name == name {
        OutcomesRecorded(p.past[name], p.crew.workers[name], p.cancelled, e.wake, e.outcome);
      }
    }
  }

  /** For every schedule: once Start has returned, the wait group is zero exactly when the pool is
      drained; and no worker has the empty name. */
  lemma WaitGroupZeroIffDrained(es: seq<Event>)
    requires Exec(Step, EMPTY, es).Some? && Exec(Step, EMPTY, es).value.startReturned
    ensures Exec(Step, EMPTY, es).value.crew.wg == 0 <==> Drained(Exec(Step, EMPTY, es).value.crew)
    ensures "" !in Exec(Step, EMPTY, es).value.crew.workers
  {
    assert Counted(EMPTY.crew.workers) == {};
    RunKeepsInv(EMPTY, es);
    DrainedIff(Exec(Step, EMPTY, es).value);
  }

  lemma DrainedIff(p: Pool)
    requires Inv(p) && p.startReturned
    ensures p.crew.wg == 0 <==> Drained(p.crew)
  {
    var c := p.crew;
    if c.wg == 0 {
      assert Counted(c.workers) == {};
      forall n | n in c.workers
        ensures c.workers[n].place == Gone && !c.workers[n].running && n in c.results
      {
        assert n !in Counted(c.workers) && WorkerInv(c, n);
      }
      assert c.results.Keys == c.workers.Keys;
      forall n | n in c.results
        ensures c.results[n] == c.workers[n].returned
      {
        assert WorkerInv(c, n);
      }
    } else {
      assert Counted(c.workers) != {};
      var n :| n in Counted(c.workers);
    }
  }

  lemma NothingBeforeStart(p: Pool)
    requires Inv(p) && !p.started
    ensures p.crew.wg == 0 && p.crew.results == map[]
  {
    var c := p.crew;
    assert Counted(c.workers) == {};
    assert forall n :: n in c.workers ==> WorkerInv(c, n) && n !in c.results;
  }

  lemma NoMoveBeforeStart(p: Pool, name: string, wake: bool, outcome: W.Outcome)
    requires Inv(p)
    ensures !p.started ==> MoveStep(p.crew, p.cancelled, name, wake, outcome) == None
  {
    hide Tells, Advance;
  }

  /** The set of workers is frozen from Start on; and once Start has returned, a drained pool stays
      as it is, whatever is called afterwards. */
  lemma {:induction false} DrainedIsFinal(p: Pool, es: seq<Event>)
    requires Inv(p) && p.started && Exec(Step, p, es).Some?
    ensures var q := Exec(Step, p, es).value;
            && q.started && q.crew.workers.Keys == p.crew.workers.Keys
            && (p.startReturned && Drained(p.crew) ==> q.startReturned && q.crew == p.crew)
  {
    if es != [] {
      DrainedIsFinal(p, es[..|es| - 1]);
      RunKeepsInv(p, es[..|es| - 1]);
      DrainedStays(Exec(Step, p, es[..|es| - 1]).value, es[|es| - 1]);
    }
  }

  lemma DrainedStays(p: Pool, e: Event)
    requires LaunchInv(p) && p.started && Step(p, e).Some?
    ensures var q := Step(p, e).value;
            && q.started && q.crew.workers.Keys == p.crew.workers.Keys
            && (p.startReturned && Drained(p.crew) ==> q.startReturned && q.crew == p.crew)
  {
    match e {
      case Move(name, wake, outcome) => MoveKeepsPlaces(p.crew, p.cancelled, name, wake, outcome);
      case Add(name, spec) => case BeginStart => case Launch(name) => case EndStart => case Cancel =>
      case BeginStop => case CancelAll => case EndStop =>
    }
  }

  /** After a cancellation, the statements each goroutine still executes. */
  function Left(w: Goroutine): nat {
    match w.place
    case Idle => 0
    case Executing => 6
    case Deciding => 5
    case Sleeping => 4
    case Head => 3
    case Storing => 2
    case Leaving => 1
    case Gone => 0
  }

  /** After a cancellation, every statement of a worker's goroutine brings it closer to its end, and
      a goroutine that has not ended can always take one; so the first Stop drains the pool, provided
      that every runner.Run returns: here it is one statement, which a run of module RunnerEdgeRuns
      shows can take any time. */
  lemma CancelledWorkersDrain(p: Pool, name: string, wake: bool, outcome: W.Outcome)
    requires Inv(p) && p.cancelled && name in p.crew.workers
    ensures var w, next := p.crew.workers[name], Step(p, Move(name, wake, outcome));
            && (next.Some? ==> Left(next.value.crew.workers[name]) < Left(w))
            && (w.place != Idle && w.place != Gone ==> next.Some?)
  {
    hide Tells, Recorded;
    if p.crew.workers[name].place == Leaving {
      assert name in Counted(p.crew.workers);
    }
  }

  // ------------------------------------------------------------------------------------------
  // The supervisor
  // ------------------------------------------------------------------------------------------

  class Supervisor {
    var workers: map<string, Goroutine>
    var results: map<string, Option<Result>>
    var wg: nat
    var started: bool
    var stopped: bool
    var cancelled: bool

    ghost var past: map<string, seq<W.Round>>
    ghost var launching: set<string>
    ghost var startReturned: bool
    ghost var stop: StopCall

    function Shared(): Crew
      reads this
    {
      Crew(workers, results, wg)
    }

    ghost function View(): Pool
      reads this
    {
      Pool(Shared(), past, started, launching, startReturned, stopped, stop, cancelled)
    }

    ghost predicate Valid()
      reads this
    {
      Inv(View())
    }

    constructor ()
      ensures Valid() && View() == EMPTY
    {
      workers, results, wg, started, stopped, cancelled := map[], map[], 0, false, false, false;
      past, launching, startReturned, stop := map[], {}, false, NotCalled;
      new;
      assert Counted(workers) == {};
    }

    method Add(name: string, spec: W.Spec) returns (ok: bool)
      requires Valid()
      modifies this`workers, this`past
      ensures Valid() && Step(old(View()), Event.Add(name, spec)) == Some(View())
      ensures ok <==> !old(started) && name != "" && name !in old(workers)
      ensures workers == if ok then old(workers)[name := Registered(spec)] else old(workers)
    {
      StepKeepsInv(View(), Event.Add(name, spec));
      if started || name == "" || name in workers {
        return false;
      }
      workers, past := workers[name := Registered(spec)], past[name := []];
      return true;
    }

    /** One statement of a worker's goroutine, or the end of the parent context, if possible now. */
    method EnvironmentAct(e: Event)
      requires Valid()
      modifies this`workers, this`past, this`results, this`wg, this`cancelled
      ensures Valid()
      ensures View() == old(View()) || Step(old(View()), e) == Some(View())
      ensures workers.Keys == old(workers.Keys) && (!started ==> Shared() == old(Shared()))
    {
      hide Inv, MoveStep, Remember;
      if e.Cancel? {
        StepKeepsInv(View(), e);
        cancelled := true;
      } else if e.Move? {
        NoMoveBeforeStart(View(), e.name, e.wake, e.outcome);
        var next := MoveStep(Shared(), cancelled, e.name, e.wake, e.outcome);
        if next.Some? {
          StepKeepsInv(View(), e);
          MoveKeepsPlaces(Shared(), cancelled, e.name, e.wake, e.outcome);
          past := Remember(View(), e.name, e.wake, e.outcome);
          workers, results, wg := next.value.workers, next.value.results, next.value.wg;
        }
      }
    }

    /** Any finite number of actions of the goroutines and of the owner of the context. */
    method Interfere() returns (ghost es: seq<Event>)
      requires Valid()
      modifies this`workers, this`past, this`results, this`wg, this`cancelled
      ensures Valid()
      ensures Exec(Step, old(View()), es) == Some(View())
      ensures workers.Keys == old(workers.Keys) && (!started ==> Shared() == old(Shared()))
    {
      es := [];
      var budget: nat := *;
      while budget > 0
        invariant Valid()
        invariant workers.Keys == old(workers.Keys) && (!started ==> Shared() == old(Shared()))
        invariant Exec(Step, old(View()), es) == Some(View())
      {
        ghost var before := View();
        var e: Event := *;
        EnvironmentAct(e);
        if View() != before {
          ExecSnoc(Step, old(View()), es, e);
          es := es + [e];
        }
        budget := budget - 1;
      }
    }

    /** Launch one goroutine for every registered worker; the ones launched run meanwhile. */
    method Start() returns (ok: bool)
      requires Valid()
      modifies this
      ensures Valid() && started && (ok <==> !old(started))
      ensures !ok ==> View() == old(View())
      ensures ok ==> startReturned && workers.Keys == old(workers.Keys)
      ensures ok ==> forall n :: n in workers ==> workers[n].place != Idle
    {
      hide Inv, Step;
      if started {
        return false;
      }
      ClaimStart();
      var names := workers.Keys;
      while names != {}
        invariant Valid() && started && names == launching && workers.Keys == old(workers.Keys)
        decreases |names|
      {
        var name :| name in names;
        LaunchWorker(name);
        names := names - {name};
        var es := Interfere();
      }
      FinishStart();
      return true;
    }

    method ClaimStart()
      requires Valid() && !started
      modifies this`started, this`launching
      ensures Valid() && started && launching == workers.Keys
    {
      StepKeepsInv(View(), BeginStart);
      started, launching := true, workers.Keys;
    }

    ghost method FinishStart()
      requires Valid() && started && launching == {}
      modifies this`startReturned
      ensures Valid() && startReturned
      ensures forall n :: n in workers ==> workers[n].place != Idle
    {
      StepKeepsInv(View(), EndStart);
      startReturned := true;
    }

    method LaunchWorker(name: string)
      requires Valid() && started && name in launching
      modifies this`workers, this`wg, this`launching
      ensures Valid() && workers.Keys == old(workers.Keys) && launching == old(launching) - {name}
    {
      hide Tells, Counted;
      StepKeepsInv(View(), Launch(name));
      wg, launching := wg + 1, launching - {name};
      workers := workers[name := workers[name].(place := Head)];
    }

    /** Block until all workers are done and copy the results; `None` says that it is blocked. After
        Start it returns only when the pool is drained, with one entry for each registered worker;
        before Start it returns at once, with no entry. */
    method Wait() returns (copy: Option<map<string, Option<Result>>>)
      requires Valid() && (started ==> startReturned)
      modifies this`workers, this`past, this`results, this`wg, this`cancelled
      ensures Valid() && workers.Keys == old(workers.Keys)
      ensures started && copy.Some? ==> Drained(Shared()) && copy.value == results && copy.value.Keys == workers.Keys
      ensures started && copy.Some? ==>
                forall n :: n in workers ==>
                  && n in past && Refines(workers[n].spec, past[n], copy.value[n])
                  && var last := past[n][|past[n]| - 1];
                     last.cancelledAtHead || last.outcome == OutcomeOf(copy.value[n])
      ensures copy == None ==> started && wg != 0 && !Drained(Shared())
      ensures !started ==> copy == Some(map[])
    {
      if !started {
        NothingBeforeStart(View());
      }
      var es := Interfere();
      if started {
        DrainedIff(View());
      }
      if wg != 0 { return None; }
      ResultsArePublished(View());
      var resCopy := CopyResults();
      return Some(resCopy);
    }

    method CopyResults() returns (copy: map<string, Option<Result>>)
      ensures copy == results
    {
      copy := map[];
      var names := results.Keys;
      while names != {}
        invariant names <= results.Keys
        invariant copy == map n | n in results.Keys - names :: results[n]
        decreases |names|
      {
        var n :| n in names;
        copy := copy[n := results[n]];
        names := names - {n};
      }
    }

    /** Cancel all workers and wait for them; `None` says that it is blocked, `Some(false)` is the error
        before Start. The first call returns only when the pool is drained; later calls return at
        once. */
    method Stop() returns (ok: Option<bool>)
      requires Valid() && (started ==> startReturned)
      modifies this
      ensures Valid() && workers.Keys == old(workers.Keys)
      ensures !old(started) ==> ok == Some(false) && View() == old(View())
      ensures old(started) && old(stopped) ==> ok == Some(true) && View() == old(View())
      ensures old(started) && !old(stopped) ==> stopped && cancelled && ok != Some(false)
      ensures old(started) && !old(stopped) && ok == Some(true) ==> Drained(Shared())
      ensures ok == None ==> wg != 0 && !Drained(Shared())
    {
      if !started {
        return Some(false);
      }
      if stopped {
        return Some(true);
      }
      BeginStopping();
      ok := AwaitDrain();
    }

    method BeginStopping()
      requires Valid() && startReturned && !stopped
      modifies this
      ensures Valid() && started && startReturned && stopped && cancelled && stop == Draining
      ensures workers.Keys == old(workers.Keys)
    {
      hide Tells, Counted, WorkerInv;
      StepKeepsInv(View(), BeginStop);
      stopped, stop := true, Cancelling;
      var es := Interfere();
      StepKeepsInv(View(), CancelAll);
      cancelled, stop := true, Draining;
    }

    method AwaitDrain() returns (ok: Option<bool>)
      requires Valid() && startReturned && stop == Draining
      modifies this`workers, this`past, this`results, this`wg, this`cancelled, this`stop
      ensures Valid() && cancelled && ok != Some(false) && workers.Keys == old(workers.Keys)
      ensures ok == Some(true) ==> Drained(Shared())
      ensures ok == None ==> wg != 0 && !Drained(Shared())
    {
      hide CrewInv, PastInv, LaunchInv;
      var es := Interfere();
      DrainedIff(View());
      if wg != 0 { return None; }
      StepKeepsInv(View(), EndStop);
      stop := Stopped;
      return Some(true);
    }

    /** Which workers are running a command right now. */
    method Status() returns (running: map<string, bool>)
      requires Valid()
      ensures running.Keys == workers.Keys
      ensures forall n :: n in workers ==> (running[n] <==> workers[n].place == Executing)
    {
      assert forall n :: n in workers ==> WorkerInv(Shared(), n);
      running := map n | n in workers :: workers[n].running;
    }
  }
}
