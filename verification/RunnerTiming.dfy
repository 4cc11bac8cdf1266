/** How long the shutdown escalation takes when due timers are served before the clock moves on. */
module RunnerTiming {
  import opened Common
  import opened Executions
  import opened RunnerSystem
  import opened RunnerInvariants
  import opened RunnerTheorems
  import Pipes

  function Grace(cfg: Config): int {
    if cfg.grace <= 0 then 0 else cfg.grace
  }

  function IoTimeout(cfg: Config): int {
    if cfg.ioTimeout <= 0 then 0 else cfg.ioTimeout
  }

  /** How long Wait can wait for the copiers once the result is built. */
  ghost predicate DrainInv(pc: Pc, cfg: Config, clock: Clock, notes: Notes) {
    && (pc == Cleanup(PipeWait) ==>
          && clock.timer == notes.builtAt + cfg.ioTimeout
          && clock.now <= notes.builtAt + IoTimeout(cfg))
    && (Finishing(pc) && pc != Cleanup(PipeWait) ==> notes.drainAt <= notes.builtAt + IoTimeout(cfg))
  }

  /** How far the clock can be from the moment the cancellation was taken. */
  ghost predicate TimelyInv(pc: Pc, cfg: Config, clock: Clock, notes: Notes, result: Option<Result>) {
    var taken, limit := notes.cancelAt, notes.cancelAt + Grace(cfg) + KILL_DEADLINE;
    && (match pc
        case Snapshot => clock.now == taken
        case Soft(at) => if at == GraceWait then clock.now <= clock.timer == taken + Grace(cfg)
                         else at != AwaitExit ==> clock.now == taken
        case Hard(at) => if at == KillWait then clock.now <= clock.timer <= limit
                         else if at == CloseAtDeadline then clock.now <= limit
                         else clock.now <= taken + Grace(cfg)
        case Build(cancelled, _, _) => cancelled && !notes.gone ==> clock.now <= limit
        case _ => true)
    && (result.Some? && result.value.cancelled && !notes.gone ==> notes.builtAt <= limit)
    && (notes.gone ==> pc == Soft(AwaitExit) || pc.Build? || Finishing(pc))
    && (pc == Soft(AwaitExit) ==> notes.gone)
  }

  ghost predicate Timely(s: Sys) {
    && VerdictInv(s.pc, s.cfg.grace, s.result)
    && TimelyInv(s.pc, s.cfg, s.clock, s.notes, s.result)
  }

  lemma StartTimely(s: Sys, at: StartPc, ok: bool)
    requires Timely(s) && s.pc == InStart(at) && !s.notes.gone
    ensures var t := StartStep(s, at, ok);
            TimelyInv(t.pc, t.cfg, t.clock, t.notes, t.result)
  {
    match at {
      case ToStarting => case NewGroup => case Setup => case StdoutPipe => case StderrPipe =>
      case Spawn => case Activate => case ToRunning => case Launch => case Abort =>
    }
  }

  lemma SoftTimely(s: Sys, at: SoftPc, ok: bool)
    requires Timely(s) && s.pc == Soft(at) && SoftStep(s, at, ok).Some?
    ensures var t := SoftStep(s, at, ok).value;
            TimelyInv(t.pc, t.cfg, t.clock, t.notes, t.result)
  {
    match at {
      case ToStopping => case SignalGroup => case AwaitExit => case ArmGrace => case GraceWait =>
    }
  }

  lemma HardTimely(s: Sys, at: HardPc, ok: bool, pids: Option<seq<int>>)
    requires Timely(s) && s.pc == Hard(at) && HardStep(s, at, ok, pids).Some?
    ensures var t := HardStep(s, at, ok, pids).value;
            TimelyInv(t.pc, t.cfg, t.clock, t.notes, t.result)
  {
    match at {
      case ZeroKill => case Refresh => case ToKilling => case TerminateGroup => case ArmKill =>
      case KillWait => case CloseAtDeadline =>
    }
  }

  lemma CleanTimely(s: Sys, at: CleanPc, ok: bool)
    requires Timely(s) && s.pc == Cleanup(at) && CleanStep(s, at, ok).Some?
    ensures var t := CleanStep(s, at, ok).value;
            TimelyInv(t.pc, t.cfg, t.clock, t.notes, t.result)
  {
    match at {
      case PipeWait => case PipeForceClose => case PipeDrain => case CloseGroup => case ToDone =>
    }
  }

  lemma OthersTimely(s: Sys, e: Event)
    requires Timely(s) && !e.Main? && UrgentStep(s, e).Some?
    requires CallInv(s.pc, s.started, s.waited, s.group.open)
    ensures var t := Step(s, e).value;
            TimelyInv(t.pc, t.cfg, t.clock, t.notes, t.result)
  {
    match e {
      case Attach(out, err) => case CallStart => case CallWait => case Reap(exit) => case CloseProcDone =>
      case Cancel => case Tick(d) => case PollTick => case PollDone => case PollEmit(active) => case Io(io) =>
    }
  }

  // ------------------------------------------------------------------------------------------
  // The wait for the copiers
  // ------------------------------------------------------------------------------------------

  lemma SoftIsEarlier(s: Sys, at: SoftPc, ok: bool)
    requires SoftStep(s, at, ok).Some?
    ensures !Finishing(SoftStep(s, at, ok).value.pc)
  {
    match at {
      case ToStopping => case SignalGroup => case AwaitExit => case ArmGrace => case GraceWait =>
    }
  }

  lemma HardIsEarlier(s: Sys, at: HardPc, ok: bool, pids: Option<seq<int>>)
    requires HardStep(s, at, ok, pids).Some?
    ensures !Finishing(HardStep(s, at, ok, pids).value.pc)
  {
    match at {
      case ZeroKill => case Refresh => case ToKilling => case TerminateGroup => case ArmKill =>
      case KillWait => case CloseAtDeadline =>
    }
  }

  lemma BuildDrains(s: Sys, pids: Option<seq<int>>, cancelled: bool, graceful: bool, forced: bool)
    ensures var t := BuildStep(s, pids, cancelled, graceful, forced);
            DrainInv(t.pc, t.cfg, t.clock, t.notes)
  {}

  lemma CleanDrains(s: Sys, at: CleanPc, ok: bool)
    requires s.pc == Cleanup(at) && CleanStep(s, at, ok).Some? && DrainInv(s.pc, s.cfg, s.clock, s.notes)
    ensures var t := CleanStep(s, at, ok).value;
            DrainInv(t.pc, t.cfg, t.clock, t.notes)
  {
    match at {
      case PipeWait => case PipeForceClose => case PipeDrain => case CloseGroup => case ToDone =>
    }
  }

  lemma OthersDrain(s: Sys, e: Event)
    requires !e.Main? && UrgentStep(s, e).Some? && DrainInv(s.pc, s.cfg, s.clock, s.notes)
    ensures var t := Step(s, e).value;
            DrainInv(t.pc, t.cfg, t.clock, t.notes)
  {
    match e {
      case Attach(out, err) => case CallStart => case CallWait => case Reap(exit) => case CloseProcDone =>
      case Cancel => case Tick(d) => case PollTick => case PollDone => case PollEmit(active) => case Io(io) =>
    }
  }

  lemma EarlierDrains(s: Sys)
    requires !Finishing(s.pc)
    ensures DrainInv(s.pc, s.cfg, s.clock, s.notes)
  {}

  lemma SelectIsEarlier(s: Sys, ok: bool)
    requires SelectStep(s, ok).Some?
    ensures !Finishing(SelectStep(s, ok).value.pc)
  {}

  lemma MainDrains(s: Sys, ok: bool, pids: Option<seq<int>>)
    requires MainStep(s, ok, pids).Some? && DrainInv(s.pc, s.cfg, s.clock, s.notes)
    ensures var t := MainStep(s, ok, pids).value;
            DrainInv(t.pc, t.cfg, t.clock, t.notes)
  {
    hide DrainInv, StartStep, SelectStep, SoftStep, HardStep, BuildStep, CleanStep;
    match s.pc {
      case InStart(at) =>
        StartSendsNothing(s, at, ok);
        EarlierDrains(StartStep(s, at, ok));
      case Select =>
        SelectIsEarlier(s, ok);
        EarlierDrains(SelectStep(s, ok).value);
      case Snapshot => EarlierDrains(SnapshotStep(s, pids));
      case Soft(at) =>
        SoftIsEarlier(s, at, ok);
        EarlierDrains(SoftStep(s, at, ok).value);
      case Hard(at) =>
        HardIsEarlier(s, at, ok, pids);
        EarlierDrains(HardStep(s, at, ok, pids).value);
      case Build(cancelled, graceful, forced) => BuildDrains(s, pids, cancelled, graceful, forced);
      case Cleanup(at) => CleanDrains(s, at, ok);
      case _ =>
    }
  }

  lemma {:induction false} UrgentRunIsTimely(cfg: Config, now: int, es: seq<Event>)
    requires Exec(UrgentStep, Init(cfg, now), es).Some?
    ensures var s := Exec(UrgentStep, Init(cfg, now), es).value;
            && Inv(s) && s.cfg == cfg && TimelyInv(s.pc, s.cfg, s.clock, s.notes, s.result)
            && DrainInv(s.pc, s.cfg, s.clock, s.notes)
  {
    if es != [] {
      var less, e := es[..|es| - 1], es[|es| - 1];
      UrgentRunIsTimely(cfg, now, less);
      UrgentStepIsTimely(Exec(UrgentStep, Init(cfg, now), less).value, e);
    }
  }

  lemma UrgentStepIsTimely(s: Sys, e: Event)
    requires Inv(s) && TimelyInv(s.pc, s.cfg, s.clock, s.notes, s.result) && UrgentStep(s, e).Some?
    requires DrainInv(s.pc, s.cfg, s.clock, s.notes)
    ensures var t := Step(s, e).value;
            && Inv(t) && t.cfg == s.cfg && TimelyInv(t.pc, t.cfg, t.clock, t.notes, t.result)
            && DrainInv(t.pc, t.cfg, t.clock, t.notes)
  {
    hide DrainInv, TimelyInv;
    StepKeepsInv(s, e);
    CfgConstant(s, e);
    if !e.Main? {
      OthersTimely(s, e);
      OthersDrain(s, e);
    } else {
      MainTimely(s, e.ok, e.pids);
      MainDrains(s, e.ok, e.pids);
    }
  }

  lemma SelectTimely(s: Sys, ok: bool)
    requires Timely(s) && s.pc == Select && SelectStep(s, ok).Some?
    ensures var t := SelectStep(s, ok).value;
            TimelyInv(t.pc, t.cfg, t.clock, t.notes, t.result)
  {}

  lemma SnapshotTimely(s: Sys, pids: Option<seq<int>>)
    requires Timely(s) && s.pc == Snapshot
    ensures var t := SnapshotStep(s, pids);
            TimelyInv(t.pc, t.cfg, t.clock, t.notes, t.result)
  {}

  lemma BuildTimely(s: Sys, pids: Option<seq<int>>, cancelled: bool, graceful: bool, forced: bool)
    requires Timely(s) && s.pc == Build(cancelled, graceful, forced)
    ensures var t := BuildStep(s, pids, cancelled, graceful, forced);
            TimelyInv(t.pc, t.cfg, t.clock, t.notes, t.result)
  {}

  lemma MainTimely(s: Sys, ok: bool, pids: Option<seq<int>>)
    requires Timely(s) && MainStep(s, ok, pids).Some?
    ensures var t := MainStep(s, ok, pids).value;
            TimelyInv(t.pc, t.cfg, t.clock, t.notes, t.result)
  {
    match s.pc {
      case InStart(at) => StartTimely(s, at, ok);
      case Select => SelectTimely(s, ok);
      case Snapshot => SnapshotTimely(s, pids);
      case Build(cancelled, graceful, forced) => BuildTimely(s, pids, cancelled, graceful, forced);
      case Soft(at) => SoftTimely(s, at, ok);
      case Hard(at) => HardTimely(s, at, ok, pids);
      case Cleanup(at) => CleanTimely(s, at, ok);
      case _ =>
    }
  }

  /** With urgent timers, the result of a cancelled command is built within the grace period plus
      the five seconds of the kill deadline of taking the cancellation, unless the graceful signal
      found the group gone, in which case the code waits for the child without a deadline. */
  lemma CancellationIsBounded(cfg: Config, now: int, es: seq<Event>)
    requires Exec(UrgentStep, Init(cfg, now), es).Some?
    ensures var s := Exec(UrgentStep, Init(cfg, now), es).value;
            s.result.Some? && s.result.value.cancelled && !s.notes.gone ==>
              s.notes.builtAt <= s.notes.cancelAt + Grace(cfg) + 5_000_000_000
  {
    UrgentRunIsTimely(cfg, now, es);
  }

  /** With urgent timers, Wait stops waiting for the copiers within the I/O timeout of building the
      result: by then they have all ended, or it closes every read end, after which they can only end
      (`Pipes.ForcedCloseDrains`). */
  lemma CleanupIsBounded(cfg: Config, now: int, es: seq<Event>)
    requires Exec(UrgentStep, Init(cfg, now), es).Some?
    ensures var s := Exec(UrgentStep, Init(cfg, now), es).value;
            && (s.pc == Cleanup(PipeWait) ==> s.clock.now <= s.notes.builtAt + IoTimeout(cfg))
            && (Finishing(s.pc) && s.pc != Cleanup(PipeWait) ==>
                  && s.notes.drainAt <= s.notes.builtAt + IoTimeout(cfg)
                  && (s.pc == Cleanup(PipeForceClose)
                      || (s.pc == Cleanup(PipeDrain) && Pipes.AllClosed(s.io))
                      || Pipes.AllEnded(s.io)))
  {
    UrgentRunIsTimely(cfg, now, es);
  }
}
