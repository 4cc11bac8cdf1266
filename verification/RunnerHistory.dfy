/** What the fields of a runner record of its run: the child's exit, the snapshots, the time it took. */
module RunnerHistory {
  import opened Common
  import opened Executions
  import opened Lifecycle
  import opened RunnerSystem
  import opened RunnerInvariants
  import opened RunnerTheorems
  import Pipes
  import RunnerDeadlines

  /** How the child ended, once cmd.Wait has returned. */
  function ExitOf(es: seq<Event>): Option<Exit> {
    if es == [] then None
    else
      var e := es[|es| - 1];
      if e.Reap? then Some(e.exit) else ExitOf(es[..|es| - 1])
  }

  /** The counts of live processes that the poller was told, in order. */
  function Counts(es: seq<Event>): seq<nat> {
    if es == [] then []
    else Counts(es[..|es| - 1]) + if es[|es| - 1].PollEmit? then [es[|es| - 1].active] else []
  }

  /** The process is being started, or has been, and Wait has not returned. */
  predicate Running(pc: Pc) {
    match pc
    case InStart(at) => at == Activate || at == ToRunning || at == Launch
    case NotStarted | StartFailed | Returned => false
    case _ => true
  }

  /** The time that passed from the start of the process to the return of Wait. */
  function Lasted(cfg: Config, now: int, es: seq<Event>): int {
    if es == [] then 0
    else
      var less, e := es[..|es| - 1], es[|es| - 1];
      var before := After(cfg, now, less);
      Lasted(cfg, now, less) + if e.Tick? && before.Some? && Running(before.value.pc) then e.d else 0
  }

  ghost predicate ChildInv(child: Child, exit: Option<Exit>) {
    && (child.reaper == Reaped || child.reaper == Closed <==> exit.Some?)
    && (exit.Some? ==> child.procErr == exit.value)
  }

  ghost predicate SnapInv(snaps: seq<Snap>, counts: seq<nat>) {
    && |snaps| == |counts|
    && forall i :: 0 <= i < |snaps| ==>
         snaps[i].active == if counts[i] == 0 && snaps[i].state == State.Running then 1 else counts[i]
  }

  ghost predicate LastedInv(pc: Pc, clock: Clock, result: Option<Result>, lasted: int) {
    && (Running(pc) ==> clock.now - clock.startTime == lasted)
    && (pc == NotStarted || (pc.InStart? && !Running(pc)) ==> pc == InStart(Abort) || lasted == 0)
    && (pc == Returned ==> result.Some? && result.value.duration == lasted)
  }

  /** PIDs are remembered only by the shutdown. */
  ghost predicate TrackedInv(pc: Pc, tracked: seq<int>) {
    pc.NotStarted? || pc.InStart? || pc.Idle? || pc.Select? || pc.Snapshot? ==> tracked == []
  }

  ghost predicate RecordInv(s: Sys, exit: Option<Exit>, counts: seq<nat>, lasted: int) {
    && ChildInv(s.child, exit)
    && SnapInv(s.poll.snaps, counts)
    && LastedInv(s.pc, s.clock, s.result, lasted)
    && TrackedInv(s.pc, s.group.tracked)
  }

  // ------------------------------------------------------------------------------------------
  // Every action keeps them
  // ------------------------------------------------------------------------------------------

  /** What the statements of Start and Wait leave alone. */
  ghost predicate LeavesRecords(s: Sys, t: Sys) {
    && t.poll.snaps == s.poll.snaps
    && t.clock.now == s.clock.now
    && (t.child == s.child || (s.child.reaper != Reaped && s.child.reaper != Closed && t.child.reaper == Waiting))
  }

  lemma StartLeaves(s: Sys, at: StartPc, ok: bool)
    requires s.pc == InStart(at) && s.child.reaper != Reaped && s.child.reaper != Closed
    ensures LeavesRecords(s, StartStep(s, at, ok))
  {
    match at {
      case ToStarting => case NewGroup => case Setup => case StdoutPipe => case StderrPipe =>
      case Spawn => case Activate => case ToRunning => case Launch => case Abort =>
    }
  }

  lemma StartLasts(s: Sys, at: StartPc, ok: bool, lasted: int)
    requires s.pc == InStart(at) && LastedInv(s.pc, s.clock, s.result, lasted) && TrackedInv(s.pc, s.group.tracked)
    ensures var t := StartStep(s, at, ok);
            LastedInv(t.pc, t.clock, t.result, lasted) && TrackedInv(t.pc, t.group.tracked)
  {
    match at {
      case ToStarting => case NewGroup => case Setup => case StdoutPipe => case StderrPipe =>
      case Spawn => case Activate => case ToRunning => case Launch => case Abort =>
    }
  }

  lemma SoftRecords(s: Sys, at: SoftPc, ok: bool, lasted: int)
    requires s.pc == Soft(at) && SoftStep(s, at, ok).Some? && LastedInv(s.pc, s.clock, s.result, lasted)
    ensures var t := SoftStep(s, at, ok).value;
            LeavesRecords(s, t) && LastedInv(t.pc, t.clock, t.result, lasted) && TrackedInv(t.pc, t.group.tracked)
  {
    match at {
      case ToStopping => case SignalGroup => case AwaitExit => case ArmGrace => case GraceWait =>
    }
  }

  lemma HardRecords(s: Sys, at: HardPc, ok: bool, pids: Option<seq<int>>, lasted: int)
    requires s.pc == Hard(at) && HardStep(s, at, ok, pids).Some? && LastedInv(s.pc, s.clock, s.result, lasted)
    ensures var t := HardStep(s, at, ok, pids).value;
            LeavesRecords(s, t) && LastedInv(t.pc, t.clock, t.result, lasted) && TrackedInv(t.pc, t.group.tracked)
  {
    match at {
      case ZeroKill => case Refresh => case ToKilling => case TerminateGroup => case ArmKill =>
      case KillWait => case CloseAtDeadline =>
    }
  }

  lemma CleanRecords(s: Sys, at: CleanPc, ok: bool, lasted: int)
    requires s.pc == Cleanup(at) && CleanStep(s, at, ok).Some? && LastedInv(s.pc, s.clock, s.result, lasted)
    ensures var t := CleanStep(s, at, ok).value;
            LeavesRecords(s, t) && LastedInv(t.pc, t.clock, t.result, lasted) && TrackedInv(t.pc, t.group.tracked)
  {
    match at {
      case PipeWait => case PipeForceClose => case PipeDrain => case CloseGroup => case ToDone =>
    }
  }

  lemma MiddleRecords(s: Sys, ok: bool, pids: Option<seq<int>>, lasted: int)
    requires s.pc.Select? || s.pc.Snapshot? || s.pc.Build?
    requires MainStep(s, ok, pids).Some?
    requires LastedInv(s.pc, s.clock, s.result, lasted) && TrackedInv(s.pc, s.group.tracked)
    ensures var t := MainStep(s, ok, pids).value;
            LeavesRecords(s, t) && LastedInv(t.pc, t.clock, t.result, lasted) && TrackedInv(t.pc, t.group.tracked)
  {
    hide StartStep, SoftStep, HardStep, CleanStep;
  }

  lemma MainRecords(s: Sys, ok: bool, pids: Option<seq<int>>, lasted: int)
    requires MainStep(s, ok, pids).Some?
    requires s.pc.InStart? ==> s.child.reaper != Reaped && s.child.reaper != Closed
    requires LastedInv(s.pc, s.clock, s.result, lasted) && TrackedInv(s.pc, s.group.tracked)
    ensures var t := MainStep(s, ok, pids).value;
            LeavesRecords(s, t) && LastedInv(t.pc, t.clock, t.result, lasted) && TrackedInv(t.pc, t.group.tracked)
  {
    hide StartStep, SelectStep, SnapshotStep, SoftStep, HardStep, BuildStep, CleanStep;
    hide LeavesRecords, LastedInv, TrackedInv;
    match s.pc {
      case InStart(at) =>
        StartLeaves(s, at, ok);
        StartLasts(s, at, ok, lasted);
      case Soft(at) => SoftRecords(s, at, ok, lasted);
      case Hard(at) => HardRecords(s, at, ok, pids, lasted);
      case Cleanup(at) => CleanRecords(s, at, ok, lasted);
      case Select => MiddleRecords(s, ok, pids, lasted);
      case Snapshot => MiddleRecords(s, ok, pids, lasted);
      case Build(cancelled, graceful, forced) => MiddleRecords(s, ok, pids, lasted);
      case _ =>
    }
  }

  /** The records after one more action. */
  lemma OtherRecords(s: Sys, e: Event, exit: Option<Exit>, counts: seq<nat>, lasted: int)
    requires Step(s, e).Some? && !e.Main? && RecordInv(s, exit, counts, lasted)
    requires CallInv(s.pc, s.started, s.waited, s.group.open)
    ensures RecordInv(Step(s, e).value,
                      if e.Reap? then Some(e.exit) else exit,
                      counts + (if e.PollEmit? then [e.active] else []),
                      lasted + if e.Tick? && Running(s.pc) then e.d else 0)
  {
    hide Pipes.Step;
    match e {
      case Attach(out, err) => case CallStart => case CallWait => case Reap(exit) => case CloseProcDone =>
      case Cancel => case Tick(d) => case PollTick => case PollDone => case PollEmit(active) => case Io(io) =>
    }
  }

  lemma RecordStep(s: Sys, e: Event, exit: Option<Exit>, counts: seq<nat>, lasted: int)
    requires Inv(s) && Step(s, e).Some? && RecordInv(s, exit, counts, lasted)
    ensures RecordInv(Step(s, e).value,
                      if e.Reap? then Some(e.exit) else exit,
                      counts + (if e.PollEmit? then [e.active] else []),
                      lasted + if e.Tick? && Running(s.pc) then e.d else 0)
  {
    hide LastedInv, TrackedInv, SnapInv, MainStep;
    if e.Main? {
      assert counts + [] == counts;
      MainRecords(s, e.ok, e.pids, lasted);
    } else {
      OtherRecords(s, e, exit, counts, lasted);
    }
  }

  lemma {:induction false} RunIsRecorded(cfg: Config, now: int, es: seq<Event>)
    requires After(cfg, now, es).Some?
    ensures Inv(After(cfg, now, es).value)
    ensures RecordInv(After(cfg, now, es).value, ExitOf(es), Counts(es), Lasted(cfg, now, es))
  {
    hide Inv, Step, RecordInv;
    Reachable(cfg, now, es);
    if es == [] {
      FreshIsRecorded(cfg, now);
    } else {
      var less, e := es[..|es| - 1], es[|es| - 1];
      RunIsRecorded(cfg, now, less);
      RecordStep(After(cfg, now, less).value, e, ExitOf(less), Counts(less), Lasted(cfg, now, less));
    }
  }

  lemma FreshIsRecorded(cfg: Config, now: int)
    ensures RecordInv(Init(cfg, now), None, [], 0)
  {}

  // ------------------------------------------------------------------------------------------
  // What follows for every run
  // ------------------------------------------------------------------------------------------

  /** The result reports the exit that cmd.Wait reported. The source documents an ExitError for every
      cancellation-related kill and exit code -1 for a process killed before it could exit. That holds
      exactly if cmd.Wait had reported an error when the result was built; a result built before it
      reported anything is a force-killed one with exit code 0 and no error, built five seconds after
      terminate or later. */
  lemma ResultReportsTheChild(cfg: Config, now: int, es: seq<Event>)
    requires After(cfg, now, es).Some? && After(cfg, now, es).value.pc == Returned
    ensures var s := After(cfg, now, es).value;
            && s.result.Some?
            && (s.result.value.error.Some? <==>
                  s.notes.reapedAtBuild && ExitOf(es).Some? && ExitOf(es).value != Clean)
            && (s.notes.reapedAtBuild ==> ExitOf(es).Some? && ReportsExit(s.result.value, ExitOf(es).value))
            && (!s.notes.reapedAtBuild ==>
                  && s.notes.deadlineHit && s.result.value.forceKilled
                  && s.result.value.exitCode == 0 && s.result.value.error == None
                  && s.group.sent != []
                  && s.notes.builtAt >= s.group.sent[|s.group.sent| - 1].at + 5_000_000_000)
  {
    hide Step;
    RunIsRecorded(cfg, now, es);
    RunnerDeadlines.UnreapedResultWaitsForTheDeadline(cfg, now, es);
    ForceKilledReportsErrorIffReaped(cfg, now, es);
  }

  /** Every snapshot carries the count that the poller was told, except that a running command with none
      counts as one process. */
  lemma SnapshotsCarryTheCounts(cfg: Config, now: int, es: seq<Event>, i: nat)
    requires After(cfg, now, es).Some? && i < |After(cfg, now, es).value.poll.snaps|
    ensures var snaps := After(cfg, now, es).value.poll.snaps;
            && |snaps| == |Counts(es)|
            && snaps[i].active == if Counts(es)[i] == 0 && snaps[i].state == State.Running then 1 else Counts(es)[i]
  {
    hide Step;
    RunIsRecorded(cfg, now, es);
  }

  /** The duration of a returned result is the time that passed from the start of the process. */
  lemma DurationIsTheTimeItRan(cfg: Config, now: int, es: seq<Event>)
    requires After(cfg, now, es).Some? && After(cfg, now, es).value.pc == Returned
    ensures After(cfg, now, es).value.result.Some?
    ensures After(cfg, now, es).value.result.value.duration == Lasted(cfg, now, es)
  {
    hide Step;
    RunIsRecorded(cfg, now, es);
  }

  /** A poller that is waiting takes one snapshot, of the current state, when the ticker fires, unless
      that state is Done; and when the child has been reaped, one more, its last. */
  lemma EachWakeTakesOneSnapshot(s: Sys, active: nat)
    requires s.poll.poller == Looping
    ensures var seen := Snap(s.life.state, if active == 0 && s.life.state == State.Running then 1 else active);
            && (s.life.state != Done ==>
                  Wakes(s, PollTick, active) == Some(Poll(Looping, s.poll.snaps + [seen])))
            && (s.child.reaper == Closed ==>
                  Wakes(s, PollDone, active) == Some(Poll(Stopped, s.poll.snaps + [seen])))
  {}

  /** The poller after waking up and emitting, with nothing in between. */
  function Wakes(s: Sys, e: Event, active: nat): Option<Poll> {
    match Step(s, e)
    case None => None
    case Some(t) =>
      match Step(t, PollEmit(active))
      case None => None
      case Some(u) => Some(u.poll)
  }
}
