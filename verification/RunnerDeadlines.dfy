/**
 What may not happen too early: a forced close of the pipes before the deadline that calls for it, a
 result for a child that has not been reaped, a cancellation without one.
 */
module RunnerDeadlines {
  import opened Common
  import opened Executions
  import opened RunnerSystem
  import opened RunnerInvariants
  import opened RunnerTheorems
  import Pipes

  /** Five seconds after the last signal: the kill deadline. */
  predicate Overdue(sent: seq<Sent>, at: int) {
    sent != [] && at >= sent[|sent| - 1].at + 5_000_000_000
  }

  /** The kill deadline is served no earlier than five seconds after terminate. */
  ghost predicate KillInv(pc: Pc, sent: seq<Sent>, clock: Clock, notes: Notes) {
    && (pc == Hard(ArmKill) || pc == Hard(KillWait) || pc == Hard(CloseAtDeadline) ==> sent != [])
    && (pc == Hard(ArmKill) ==> clock.now >= sent[|sent| - 1].at)
    && (pc == Hard(KillWait) ==> Overdue(sent, clock.timer))
    && (pc == Hard(CloseAtDeadline) || (pc.Build? && notes.deadlineHit) ==> Overdue(sent, clock.now))
    && (Finishing(pc) && notes.deadlineHit ==> Overdue(sent, notes.builtAt))
    && (notes.deadlineHit ==> pc == Hard(CloseAtDeadline) || pc.Build? || Finishing(pc))
    && (pc == Hard(CloseAtDeadline) ==> notes.deadlineHit)
  }

  /** The forced close of the cleanup comes no earlier than the I/O timeout. */
  ghost predicate ExpiryInv(pc: Pc, cfg: Config, clock: Clock, notes: Notes) {
    && (pc == Cleanup(PipeWait) ==> clock.timer == notes.builtAt + cfg.ioTimeout)
    && (notes.ioExpired ==> notes.drainAt >= notes.builtAt + cfg.ioTimeout)
    && (notes.ioExpired ==> Finishing(pc) && pc != Cleanup(PipeWait))
    && (pc == Cleanup(PipeForceClose) || pc == Cleanup(PipeDrain) ==> notes.ioExpired)
  }

  /** The read ends are closed exactly by the two forced closes. */
  ghost predicate ClosedInv(pc: Pc, notes: Notes, io: Pipes.IO) {
    && (ForcedClosed(pc, notes) ==> Pipes.AllClosed(io))
    && (!ForcedClosed(pc, notes) ==> NoneClosed(io))
  }

  /** One of the two forced closes has been made. */
  predicate ForcedClosed(pc: Pc, notes: Notes) {
    || (notes.deadlineHit && pc != Hard(CloseAtDeadline))
    || (notes.ioExpired && pc != Cleanup(PipeForceClose))
  }

  predicate NoneClosed(io: Pipes.IO) {
    forall i :: 0 <= i < |io.pipes| ==> !io.pipes[i].closed
  }

  /** A command counts as cancelled only if its context is done. */
  ghost predicate CancelInv(pc: Pc, ctxDone: bool, result: Option<Result>) {
    && (pc.Snapshot? || pc.Soft? || pc.Hard? || (pc.Build? && pc.cancelled) ==> ctxDone)
    && (result.Some? && result.value.cancelled ==> ctxDone)
  }

  ghost predicate DueInv(s: Sys) {
    && KillInv(s.pc, s.group.sent, s.clock, s.notes)
    && ExpiryInv(s.pc, s.cfg, s.clock, s.notes)
    && ClosedInv(s.pc, s.notes, s.io)
    && CancelInv(s.pc, s.ctxDone, s.result)
  }

  // ------------------------------------------------------------------------------------------
  // Every action keeps them
  // ------------------------------------------------------------------------------------------

  lemma StartKeepsNotes(s: Sys, at: StartPc, ok: bool)
    ensures var t := StartStep(s, at, ok);
            && t.notes == s.notes && t.result == s.result && t.ctxDone == s.ctxDone && t.cfg == s.cfg
            && (t.pc.InStart? || t.pc.StartFailed? || t.pc.Idle?)
            && (NoneClosed(s.io) ==> NoneClosed(t.io))
  {
    match at {
      case ToStarting => case NewGroup => case Setup => case StdoutPipe => case StderrPipe =>
      case Spawn => case Activate => case ToRunning => case Launch => case Abort =>
    }
  }

  lemma StartKeepsDue(s: Sys, at: StartPc, ok: bool)
    requires s.pc == InStart(at) && DueInv(s)
    ensures DueInv(StartStep(s, at, ok))
  {
    hide StartStep, NoneClosed, Pipes.AllClosed;
    StartKeepsNotes(s, at, ok);
  }

  lemma SoftKeepsDue(s: Sys, at: SoftPc, ok: bool)
    requires s.pc == Soft(at) && DueInv(s) && SoftStep(s, at, ok).Some?
    ensures DueInv(SoftStep(s, at, ok).value)
  {
    match at {
      case ToStopping => case SignalGroup => case AwaitExit => case ArmGrace => case GraceWait =>
    }
  }

  lemma HardKeepsKill(s: Sys, at: HardPc, ok: bool, pids: Option<seq<int>>)
    requires s.pc == Hard(at) && HardStep(s, at, ok, pids).Some?
    requires KillInv(s.pc, s.group.sent, s.clock, s.notes)
    ensures var t := HardStep(s, at, ok, pids).value;
            KillInv(t.pc, t.group.sent, t.clock, t.notes)
  {
    match at {
      case ZeroKill => case Refresh => case ToKilling => case TerminateGroup => case ArmKill =>
      case KillWait => case CloseAtDeadline =>
    }
  }

  lemma ForcedIsClosed(io: Pipes.IO)
    ensures Pipes.AllClosed(Pipes.ForceClosed(io))
  {}

  lemma HardKeepsRest(s: Sys, at: HardPc, ok: bool, pids: Option<seq<int>>)
    requires s.pc == Hard(at) && HardStep(s, at, ok, pids).Some? && DueInv(s)
    ensures var t := HardStep(s, at, ok, pids).value;
            && ExpiryInv(t.pc, t.cfg, t.clock, t.notes)
            && ClosedInv(t.pc, t.notes, t.io)
            && CancelInv(t.pc, t.ctxDone, t.result)
  {
    hide Pipes.AllClosed, NoneClosed, Pipes.ForceClosed;
    ForcedIsClosed(s.io);
    match at {
      case ZeroKill => case Refresh => case ToKilling => case TerminateGroup => case ArmKill =>
      case KillWait => case CloseAtDeadline =>
    }
  }

  lemma BuildKeepsDue(s: Sys, pids: Option<seq<int>>, cancelled: bool, graceful: bool, forced: bool)
    requires s.pc == Build(cancelled, graceful, forced) && DueInv(s)
    ensures DueInv(BuildStep(s, pids, cancelled, graceful, forced))
  {}

  lemma CleanKeepsTimes(s: Sys, at: CleanPc, ok: bool)
    requires s.pc == Cleanup(at) && CleanStep(s, at, ok).Some? && DueInv(s)
    ensures var t := CleanStep(s, at, ok).value;
            && KillInv(t.pc, t.group.sent, t.clock, t.notes)
            && ExpiryInv(t.pc, t.cfg, t.clock, t.notes)
            && CancelInv(t.pc, t.ctxDone, t.result)
  {
    hide ClosedInv, Overdue;
    match at {
      case PipeWait => case PipeForceClose => case PipeDrain => case CloseGroup => case ToDone =>
    }
  }

  lemma CleanKeepsClosed(s: Sys, at: CleanPc, ok: bool)
    requires s.pc == Cleanup(at) && CleanStep(s, at, ok).Some? && DueInv(s)
    ensures var t := CleanStep(s, at, ok).value;
            ClosedInv(t.pc, t.notes, t.io)
  {
    hide Pipes.AllClosed, NoneClosed, Pipes.ForceClosed, Overdue, CancelInv, KillInv;
    ForcedIsClosed(s.io);
    match at {
      case PipeWait => case PipeForceClose => case PipeDrain => case CloseGroup => case ToDone =>
    }
  }

  lemma CleanKeepsDue(s: Sys, at: CleanPc, ok: bool)
    requires s.pc == Cleanup(at) && CleanStep(s, at, ok).Some? && DueInv(s)
    ensures DueInv(CleanStep(s, at, ok).value)
  {
    hide CleanStep, KillInv, ExpiryInv, ClosedInv, CancelInv;
    CleanKeepsTimes(s, at, ok);
    CleanKeepsClosed(s, at, ok);
  }

  lemma SelectKeepsDue(s: Sys, ok: bool)
    requires s.pc == Select && SelectStep(s, ok).Some? && DueInv(s)
    ensures DueInv(SelectStep(s, ok).value)
  {}

  lemma SnapshotKeepsDue(s: Sys, pids: Option<seq<int>>)
    requires s.pc == Snapshot && DueInv(s)
    ensures DueInv(SnapshotStep(s, pids))
  {}

  lemma MainKeepsDue(s: Sys, ok: bool, pids: Option<seq<int>>)
    requires MainStep(s, ok, pids).Some? && DueInv(s)
    ensures DueInv(MainStep(s, ok, pids).value)
  {
    hide StartStep, SelectStep, SnapshotStep, SoftStep, HardStep, BuildStep, CleanStep;
    match s.pc {
      case InStart(at) => StartKeepsDue(s, at, ok);
      case Select => SelectKeepsDue(s, ok);
      case Snapshot => SnapshotKeepsDue(s, pids);
      case Soft(at) => SoftKeepsDue(s, at, ok);
      case Hard(at) =>
        HardKeepsKill(s, at, ok, pids);
        HardKeepsRest(s, at, ok, pids);
      case Build(cancelled, graceful, forced) => BuildKeepsDue(s, pids, cancelled, graceful, forced);
      case Cleanup(at) => CleanKeepsDue(s, at, ok);
      case _ =>
    }
  }

  lemma CopierKeepsClosed(io: Pipes.IO, e: Pipes.Event)
    requires Pipes.Step(io, e).Some?
    ensures Pipes.AllClosed(io) ==> Pipes.AllClosed(Pipes.Step(io, e).value)
    ensures NoneClosed(io) ==> NoneClosed(Pipes.Step(io, e).value)
  {}

  lemma OthersKeepDue(s: Sys, e: Event)
    requires Step(s, e).Some? && !e.Main? && DueInv(s) && CallInv(s.pc, s.started, s.waited, s.group.open)
    ensures DueInv(Step(s, e).value)
  {
    hide Pipes.AllClosed, NoneClosed, Pipes.Step;
    if e.Io? {
      CopierKeepsClosed(s.io, e.io);
    }
    match e {
      case Attach(out, err) => case CallStart => case CallWait => case Reap(exit) => case CloseProcDone =>
      case Cancel => case Tick(d) => case PollTick => case PollDone => case PollEmit(active) => case Io(io) =>
    }
  }

  lemma {:induction false} RunIsDue(cfg: Config, now: int, es: seq<Event>)
    requires After(cfg, now, es).Some?
    ensures Inv(After(cfg, now, es).value) && DueInv(After(cfg, now, es).value)
  {
    hide Inv, Step, MainStep;
    Reachable(cfg, now, es);
    if es == [] {
      FreshIsDue(cfg, now);
    } else {
      var less, e := es[..|es| - 1], es[|es| - 1];
      RunIsDue(cfg, now, less);
      DueStep(After(cfg, now, less).value, e);
    }
  }

  lemma FreshIsDue(cfg: Config, now: int)
    ensures DueInv(Init(cfg, now))
  {}

  lemma DueStep(s: Sys, e: Event)
    requires Inv(s) && DueInv(s) && Step(s, e).Some?
    ensures DueInv(Step(s, e).value)
  {
    hide DueInv;
    if e.Main? {
      MainKeepsDue(s, e.ok, e.pids);
    } else {
      OthersKeepDue(s, e);
    }
  }

  // ------------------------------------------------------------------------------------------
  // What follows for every run
  // ------------------------------------------------------------------------------------------

  /** A result that is built without the child's exit, or after the kill deadline, comes five seconds
      after terminate or later. */
  lemma UnreapedResultWaitsForTheDeadline(cfg: Config, now: int, es: seq<Event>)
    requires After(cfg, now, es).Some? && After(cfg, now, es).value.result.Some?
    ensures var s := After(cfg, now, es).value;
            !s.notes.reapedAtBuild || s.notes.deadlineHit ==>
              && s.group.sent != [] && s.group.sent[|s.group.sent| - 1].kind == Terminate
              && s.notes.builtAt >= s.group.sent[|s.group.sent| - 1].at + 5_000_000_000
  {
    RunIsDue(cfg, now, es);
  }

  /** Read ends are closed by force only when it is due, five seconds after terminate or the I/O timeout
      after the result was built; and then all of them are. */
  lemma ReadEndsCloseWhenDue(cfg: Config, now: int, es: seq<Event>)
    requires After(cfg, now, es).Some?
    ensures var s := After(cfg, now, es).value;
            && (Pipes.AllClosed(s.io) || NoneClosed(s.io))
            && (!NoneClosed(s.io) ==>
                  || (s.notes.deadlineHit
                      && Overdue(s.group.sent, if s.result.Some? then s.notes.builtAt else s.clock.now))
                  || (s.notes.ioExpired && s.notes.drainAt >= s.notes.builtAt + cfg.ioTimeout))
            && (s.pc == Returned && (s.notes.deadlineHit || s.notes.ioExpired) ==> Pipes.AllClosed(s.io))
  {
    hide Inv, Step, NoneClosed, Pipes.AllClosed;
    RunIsDue(cfg, now, es);
    Reachable(cfg, now, es);
    ResultOfFinishing(cfg, now, es);
  }

  lemma ResultOfFinishing(cfg: Config, now: int, es: seq<Event>)
    requires After(cfg, now, es).Some?
    ensures After(cfg, now, es).value.result.Some? <==> Finishing(After(cfg, now, es).value.pc)
  {
    Reachable(cfg, now, es);
  }

  /** A cancelled result needs a context that is done. */
  lemma CancelledOnlyByTheContext(cfg: Config, now: int, es: seq<Event>)
    requires After(cfg, now, es).Some? && After(cfg, now, es).value.result.Some?
    ensures After(cfg, now, es).value.result.value.cancelled ==> Cancel in es
  {
    RunIsDue(cfg, now, es);
    ContextNeedsCancel(cfg, now, es);
  }

  lemma {:induction false} ContextNeedsCancel(cfg: Config, now: int, es: seq<Event>)
    requires After(cfg, now, es).Some?
    ensures After(cfg, now, es).value.ctxDone <==> Cancel in es
  {
    if es != [] {
      var less, e := es[..|es| - 1], es[|es| - 1];
      ContextNeedsCancel(cfg, now, less);
      StepKeepsContext(After(cfg, now, less).value, e);
      assert es == less + [e];
    }
  }

  lemma StartKeepsContext(s: Sys, at: StartPc, ok: bool)
    ensures StartStep(s, at, ok).ctxDone == s.ctxDone
  {
    match at {
      case ToStarting => case NewGroup => case Setup => case StdoutPipe => case StderrPipe =>
      case Spawn => case Activate => case ToRunning => case Launch => case Abort =>
    }
  }

  lemma SoftKeepsContext(s: Sys, at: SoftPc, ok: bool)
    requires SoftStep(s, at, ok).Some?
    ensures SoftStep(s, at, ok).value.ctxDone == s.ctxDone
  {}

  lemma HardKeepsContext(s: Sys, at: HardPc, ok: bool, pids: Option<seq<int>>)
    requires HardStep(s, at, ok, pids).Some?
    ensures HardStep(s, at, ok, pids).value.ctxDone == s.ctxDone
  {}

  lemma CleanKeepsContext(s: Sys, at: CleanPc, ok: bool)
    requires CleanStep(s, at, ok).Some?
    ensures CleanStep(s, at, ok).value.ctxDone == s.ctxDone
  {}

  lemma StepKeepsContext(s: Sys, e: Event)
    requires Step(s, e).Some?
    ensures Step(s, e).value.ctxDone == (s.ctxDone || e == Cancel)
  {
    hide Pipes.Step, PollStep, StartStep, SoftStep, HardStep, CleanStep;
    if e.Main? {
      match s.pc {
        case InStart(at) => StartKeepsContext(s, at, e.ok);
        case Soft(at) => SoftKeepsContext(s, at, e.ok);
        case Hard(at) => HardKeepsContext(s, at, e.ok, e.pids);
        case Cleanup(at) => CleanKeepsContext(s, at, e.ok);
        case _ =>
      }
    }
  }
}
