/** Invariants of the runner protocol, and the proof that every action keeps them. */
module RunnerInvariants {
  import opened Common
  import opened Executions
  import opened Lifecycle
  import opened RunnerSystem
  import Pipes

  // ------------------------------------------------------------------------------------------
  // Invariants
  // ------------------------------------------------------------------------------------------

  const STARTING := [Created] + [Starting]
  const RUNNING := STARTING + [Running]
  const STOPPING := RUNNING + [Stopping]
  const KILLING := STOPPING + [Killing]

  /** The states visited before Done by a command with this verdict. */
  function Visited(grace: int, cancelled: bool, forced: bool): seq<State> {
    if !cancelled || (forced && grace <= 0) then RUNNING
    else if !forced then STOPPING
    else KILLING
  }

  function VisitedBy(grace: int, result: Option<Result>): seq<State> {
    match result
    case None => RUNNING
    case Some(r) => Visited(grace, r.cancelled, r.forceKilled)
  }

  /** The signals sent so far: none, the graceful one, terminate, or both in this order. */
  datatype Signals = NoSignal | OnlyGraceful | OnlyTerminate | Both

  /** The signals sent to the group of a command with this verdict. */
  function SignalsOf(grace: int, cancelled: bool, forced: bool): Signals {
    if !cancelled then NoSignal
    else if !forced then OnlyGraceful
    else if grace <= 0 then OnlyTerminate
    else Both
  }

  function SignalsBy(grace: int, result: Option<Result>): Signals {
    match result
    case None => NoSignal
    case Some(r) => SignalsOf(grace, r.cancelled, r.forceKilled)
  }

  predicate Records(sent: seq<Sent>, signals: Signals) {
    match signals
    case NoSignal => |sent| == 0
    case OnlyGraceful => |sent| == 1 && sent[0].kind == Graceful
    case OnlyTerminate => |sent| == 1 && sent[0].kind == Terminate
    case Both => |sent| == 2 && sent[0].kind == Graceful && sent[1].kind == Terminate
  }

  predicate Finishing(pc: Pc) {
    pc.Cleanup? || pc.Returned?
  }

  function HistoryAt(pc: Pc, grace: int, result: Option<Result>): seq<State> {
    match pc
    case NotStarted => [Created]
    case StartFailed => STARTING + [Done]
    case InStart(at) => if at == ToStarting then [Created] else if at == Launch then RUNNING else STARTING
    case Idle | Select | Snapshot => RUNNING
    case Soft(at) => if at == ToStopping then RUNNING else STOPPING
    case Hard(at) =>
      if at == ZeroKill then RUNNING
      else if at == Refresh || at == ToKilling then STOPPING
      else Visited(grace, true, true)
    case Build(cancelled, graceful, forced) => Visited(grace, cancelled, forced)
    case Cleanup(_) => VisitedBy(grace, result)
    case Returned => VisitedBy(grace, result) + [Done]
  }

  function SignalsAt(pc: Pc, grace: int, result: Option<Result>): Signals {
    match pc
    case Soft(at) => if at == ToStopping || at == SignalGroup then NoSignal else OnlyGraceful
    case Hard(at) =>
      (match at
       case ZeroKill => NoSignal
       case Refresh | ToKilling => OnlyGraceful
       case TerminateGroup => if grace <= 0 then NoSignal else OnlyGraceful
       case _ => SignalsOf(grace, true, true))
    case Build(cancelled, graceful, forced) => SignalsOf(grace, cancelled, forced)
    case Cleanup(_) | Returned => SignalsBy(grace, result)
    case _ => NoSignal
  }

  /** Which of the two shutdown branches a statement belongs to. */
  predicate BranchOk(pc: Pc, grace: int) {
    match pc
    case Soft(_) => grace > 0
    case Hard(at) => (at == ZeroKill ==> grace <= 0) && (at == Refresh || at == ToKilling ==> grace > 0)
    case _ => true
  }

  ghost predicate HistInv(pc: Pc, grace: int, life: Life, result: Option<Result>) {
    && life.hist == HistoryAt(pc, grace, result)
    && life.hist != [] && life.state == life.hist[|life.hist| - 1]
  }

  ghost predicate SentInv(pc: Pc, grace: int, sent: seq<Sent>, result: Option<Result>) {
    Records(sent, SignalsAt(pc, grace, result))
  }

  ghost predicate VerdictInv(pc: Pc, grace: int, result: Option<Result>) {
    && BranchOk(pc, grace)
    && (result.Some? <==> Finishing(pc))
    && (pc.Build? ==> Verdict(pc.cancelled, pc.graceful, pc.forced))
    && (result.Some? ==> Verdict(result.value.cancelled, result.value.graceful, result.value.forceKilled))
  }

  /** The verdicts that reach buildResult. */
  predicate Verdict(cancelled: bool, graceful: bool, forced: bool) {
    cancelled == (graceful || forced) && !(graceful && forced)
  }

  ghost predicate CallInv(pc: Pc, started: bool, waited: bool, open: bool) {
    && GroupHeld(pc, open)
    && (started <==> pc != NotStarted)
    && (waited <==> !pc.InStart? && pc != NotStarted && pc != StartFailed && pc != Idle)
  }

  /** The exit code and the error of a result are those of a child that exited with `exit`. */
  predicate ReportsExit(r: Result, exit: Exit) {
    match exit
    case Clean => r.exitCode == 0 && r.error == None
    case Code(c) => r.exitCode == c && r.error == Some(Exited(ExitError(c, Word(r.forceKilled), r.cancelled)))
    case Broken => r.exitCode == -1 && r.error == Some(Exited(ExitError(-1, Word(r.forceKilled), r.cancelled)))
  }

  function Word(forced: bool): string {
    if forced then "killed" else ""
  }

  ghost predicate ResultInv(pc: Pc, result: Option<Result>, notes: Notes, child: Child) {
    && (result.Some? ==>
          && result.value.cleaned == |result.value.pids|
          && (!notes.deadlineHit ==> notes.reapedAtBuild)
          && (notes.deadlineHit ==> result.value.forceKilled)
          && (notes.reapedAtBuild ==> child.reaper == Reaped || child.reaper == Closed)
          && ReportsExit(result.value, if notes.reapedAtBuild then child.procErr else Clean))
    && (pc.Build? && !notes.deadlineHit ==> child.reaper == Closed)
    && (pc.Build? && notes.deadlineHit ==> pc.forced)
    && (pc == Hard(CloseAtDeadline) ==> notes.deadlineHit)
    && (notes.deadlineHit ==> pc == Hard(CloseAtDeadline) || pc.Build? || Finishing(pc))
    && (child.reaper == NotLaunched <==> pc.InStart? || pc == NotStarted || pc == StartFailed)
    && (child.reaper == NotLaunched || child.reaper == Waiting ==> child.procErr == Clean)
  }

  /** The grace timer runs in full between the graceful signal and terminate. */
  ghost predicate TimeInv(pc: Pc, grace: int, sent: seq<Sent>, clock: Clock) {
    && (forall i :: 0 <= i < |sent| ==> sent[i].at <= clock.now)
    && (pc == Soft(GraceWait) ==> |sent| == 1 && clock.timer >= sent[0].at + grace)
    && (pc.Hard? && |sent| == 1 && sent[0].kind == Graceful ==> clock.now >= sent[0].at + grace)
    && (|sent| == 2 ==> sent[1].at >= sent[0].at + grace)
  }

  /** How many pipes exist at each statement, given which outputs are captured. */
  predicate PipeCount(pc: Pc, out: bool, err: bool, n: nat) {
    match pc
    case NotStarted => n == 0
    case StartFailed => true
    case InStart(at) =>
      (match at
       case ToStarting | NewGroup | Setup | StdoutPipe => n == 0
       case StderrPipe => n == if out then 1 else 0
       case Abort => true
       case _ => n == (if out then 1 else 0) + (if err then 1 else 0))
    case _ => n == (if out then 1 else 0) + (if err then 1 else 0)
  }

  /** The process group is held from newProcessGroup to close. */
  predicate GroupHeld(pc: Pc, open: bool) {
    match pc
    case NotStarted | StartFailed | Returned => !open
    case InStart(at) =>
      if at == ToStarting || at == NewGroup then !open else at != Abort ==> open
    case Cleanup(at) => open <==> at != ToDone
    case _ => open
  }

  ghost predicate IoInv(pc: Pc, out: bool, err: bool, io: Pipes.IO) {
    && Pipes.Inv(io)
    && PipeCount(pc, out, err, |io.pipes|)
    && (pc == Cleanup(CloseGroup) || pc == Cleanup(ToDone) || pc == Returned ==> Pipes.AllEnded(io))
    && (pc == Cleanup(PipeDrain) ==> Pipes.AllClosed(io))
  }

  ghost predicate PollInv(poll: Poll, state: State) {
    && (forall i, j :: 0 <= i < j < |poll.snaps| ==> Rank(poll.snaps[i].state) <= Rank(poll.snaps[j].state))
    && (forall i :: 0 <= i < |poll.snaps| ==> Rank(poll.snaps[i].state) <= Rank(state))
    && (forall i :: 0 <= i < |poll.snaps| && poll.snaps[i].state == Done ==>
          i == |poll.snaps| - 1 && poll.poller == Stopped)
    && (forall i :: 0 <= i < |poll.snaps| && poll.snaps[i].state == Running ==> poll.snaps[i].active > 0)
    && (poll.poller.Emitting? ==>
          && Rank(poll.poller.seen) <= Rank(state)
          && (poll.poller.seen == Done ==> poll.poller.final)
          && forall i :: 0 <= i < |poll.snaps| ==> Rank(poll.snaps[i].state) <= Rank(poll.poller.seen))
  }

  ghost predicate Inv(s: Sys) {
    && HistInv(s.pc, s.cfg.grace, s.life, s.result)
    && SentInv(s.pc, s.cfg.grace, s.group.sent, s.result)
    && VerdictInv(s.pc, s.cfg.grace, s.result)
    && CallInv(s.pc, s.started, s.waited, s.group.open)
    && ResultInv(s.pc, s.result, s.notes, s.child)
    && TimeInv(s.pc, s.cfg.grace, s.group.sent, s.clock)
    && IoInv(s.pc, s.wantOut, s.wantErr, s.io)
    && PollInv(s.poll, s.life.state)
  }

  // ------------------------------------------------------------------------------------------
  // Every action keeps them
  // ------------------------------------------------------------------------------------------

  predicate PollAction(e: Event) {
    e.PollTick? || e.PollDone? || e.PollEmit?
  }

  lemma StartHistKept(s: Sys, at: StartPc, ok: bool)
    requires s.pc == InStart(at) && HistInv(s.pc, s.cfg.grace, s.life, s.result)
    ensures var t := StartStep(s, at, ok);
            HistInv(t.pc, t.cfg.grace, t.life, t.result) && Rank(s.life.state) <= Rank(t.life.state)
  {
    match at {
      case ToStarting => case NewGroup => case Setup => case StdoutPipe => case StderrPipe =>
      case Spawn => case Activate => case ToRunning => case Launch => case Abort =>
    }
  }

  lemma StartCallKept(s: Sys, at: StartPc, ok: bool)
    requires s.pc == InStart(at)
    requires SentInv(s.pc, s.cfg.grace, s.group.sent, s.result) && VerdictInv(s.pc, s.cfg.grace, s.result)
    requires CallInv(s.pc, s.started, s.waited, s.group.open)
    ensures var t := StartStep(s, at, ok);
            && SentInv(t.pc, t.cfg.grace, t.group.sent, t.result)
            && VerdictInv(t.pc, t.cfg.grace, t.result)
            && CallInv(t.pc, t.started, t.waited, t.group.open)
  {
    match at {
      case ToStarting => case NewGroup => case Setup => case StdoutPipe => case StderrPipe =>
      case Spawn => case Activate => case ToRunning => case Launch => case Abort =>
    }
  }

  lemma StartResultKept(s: Sys, at: StartPc, ok: bool)
    requires s.pc == InStart(at)
    requires ResultInv(s.pc, s.result, s.notes, s.child)
    ensures var t := StartStep(s, at, ok);
            ResultInv(t.pc, t.result, t.notes, t.child)
  {
    match at {
      case ToStarting => case NewGroup => case Setup => case StdoutPipe => case StderrPipe =>
      case Spawn => case Activate => case ToRunning => case Launch => case Abort =>
    }
  }

  lemma StartTimeKept(s: Sys, at: StartPc, ok: bool)
    requires s.pc == InStart(at)
    requires TimeInv(s.pc, s.cfg.grace, s.group.sent, s.clock)
    ensures var t := StartStep(s, at, ok);
            TimeInv(t.pc, t.cfg.grace, t.group.sent, t.clock)
  {
    StartSendsNothing(s, at, ok);
  }

  lemma StartSendsNothing(s: Sys, at: StartPc, ok: bool)
    ensures var t := StartStep(s, at, ok);
            && t.cfg == s.cfg && t.group.sent == s.group.sent && t.clock.now == s.clock.now
            && (t.pc.InStart? || t.pc.StartFailed? || t.pc.Idle?)
  {
    match at {
      case ToStarting => case NewGroup => case Setup => case StdoutPipe => case StderrPipe =>
      case Spawn => case Activate => case ToRunning => case Launch => case Abort =>
    }
  }

  lemma StartIoKept(s: Sys, at: StartPc, ok: bool)
    requires s.pc == InStart(at)
    requires IoInv(s.pc, s.wantOut, s.wantErr, s.io)
    ensures var t := StartStep(s, at, ok);
            IoInv(t.pc, t.wantOut, t.wantErr, t.io)
  {
    if at == StdoutPipe || at == StderrPipe {
      Pipes.StartedKeepsInv(s.io);
    } else {
      StartLeavesPipes(s, at, ok);
    }
  }

  lemma StartLeavesPipes(s: Sys, at: StartPc, ok: bool)
    requires s.pc == InStart(at) && at != StdoutPipe && at != StderrPipe
    requires PipeCount(s.pc, s.wantOut, s.wantErr, |s.io.pipes|)
    ensures var t := StartStep(s, at, ok);
            && t.io == s.io && t.wantOut == s.wantOut && t.wantErr == s.wantErr
            && PipeCount(t.pc, t.wantOut, t.wantErr, |t.io.pipes|)
            && !t.pc.Cleanup? && t.pc != Returned
  {
    match at {
      case ToStarting => case NewGroup => case Setup => case StdoutPipe => case StderrPipe =>
      case Spawn => case Activate => case ToRunning => case Launch => case Abort =>
    }
  }

  lemma SoftHistKept(s: Sys, at: SoftPc, ok: bool)
    requires s.pc == Soft(at) && SoftStep(s, at, ok).Some?
    requires HistInv(s.pc, s.cfg.grace, s.life, s.result)
    requires VerdictInv(s.pc, s.cfg.grace, s.result)
    ensures var t := SoftStep(s, at, ok).value;
            && HistInv(t.pc, t.cfg.grace, t.life, t.result)
            && Rank(s.life.state) <= Rank(t.life.state) && t.poll == s.poll && t.cfg == s.cfg
  {
    match at {
      case ToStopping => case SignalGroup => case AwaitExit => case ArmGrace => case GraceWait =>
    }
  }

  lemma SoftSentKept(s: Sys, at: SoftPc, ok: bool)
    requires s.pc == Soft(at) && SoftStep(s, at, ok).Some?
    requires SentInv(s.pc, s.cfg.grace, s.group.sent, s.result)
    requires VerdictInv(s.pc, s.cfg.grace, s.result)
    requires CallInv(s.pc, s.started, s.waited, s.group.open)
    ensures var t := SoftStep(s, at, ok).value;
            && SentInv(t.pc, t.cfg.grace, t.group.sent, t.result)
            && VerdictInv(t.pc, t.cfg.grace, t.result)
            && CallInv(t.pc, t.started, t.waited, t.group.open)
  {
    match at {
      case ToStopping => case SignalGroup => case AwaitExit => case ArmGrace => case GraceWait =>
    }
  }

  lemma SoftTimeKept(s: Sys, at: SoftPc, ok: bool)
    requires s.pc == Soft(at) && SoftStep(s, at, ok).Some?
    requires SentInv(s.pc, s.cfg.grace, s.group.sent, s.result)
    requires TimeInv(s.pc, s.cfg.grace, s.group.sent, s.clock)
    ensures var t := SoftStep(s, at, ok).value;
            TimeInv(t.pc, t.cfg.grace, t.group.sent, t.clock)
  {
    match at {
      case ToStopping => case SignalGroup => case AwaitExit => case ArmGrace => case GraceWait =>
    }
  }

  lemma SoftRestKept(s: Sys, at: SoftPc, ok: bool)
    requires s.pc == Soft(at) && SoftStep(s, at, ok).Some?
    requires VerdictInv(s.pc, s.cfg.grace, s.result)
    requires ResultInv(s.pc, s.result, s.notes, s.child)
    requires IoInv(s.pc, s.wantOut, s.wantErr, s.io)
    ensures var t := SoftStep(s, at, ok).value;
            ResultInv(t.pc, t.result, t.notes, t.child) && IoInv(t.pc, t.wantOut, t.wantErr, t.io)
  {
    match at {
      case ToStopping => case SignalGroup => case AwaitExit => case ArmGrace => case GraceWait =>
    }
  }

  lemma HardHistKept(s: Sys, at: HardPc, ok: bool, pids: Option<seq<int>>)
    requires s.pc == Hard(at) && HardStep(s, at, ok, pids).Some?
    requires HistInv(s.pc, s.cfg.grace, s.life, s.result)
    requires VerdictInv(s.pc, s.cfg.grace, s.result)
    ensures var t := HardStep(s, at, ok, pids).value;
            && HistInv(t.pc, t.cfg.grace, t.life, t.result)
            && Rank(s.life.state) <= Rank(t.life.state) && t.poll == s.poll && t.cfg == s.cfg
  {
    match at {
      case ZeroKill => case Refresh => case ToKilling => case TerminateGroup => case ArmKill =>
      case KillWait => case CloseAtDeadline =>
    }
  }

  lemma HardSentKept(s: Sys, at: HardPc, ok: bool, pids: Option<seq<int>>)
    requires s.pc == Hard(at) && HardStep(s, at, ok, pids).Some?
    requires SentInv(s.pc, s.cfg.grace, s.group.sent, s.result)
    requires VerdictInv(s.pc, s.cfg.grace, s.result)
    requires CallInv(s.pc, s.started, s.waited, s.group.open)
    ensures var t := HardStep(s, at, ok, pids).value;
            && SentInv(t.pc, t.cfg.grace, t.group.sent, t.result)
            && VerdictInv(t.pc, t.cfg.grace, t.result)
            && CallInv(t.pc, t.started, t.waited, t.group.open)
  {
    match at {
      case ZeroKill => case Refresh => case ToKilling => case TerminateGroup => case ArmKill =>
      case KillWait => case CloseAtDeadline =>
    }
  }

  lemma HardTimeKept(s: Sys, at: HardPc, ok: bool, pids: Option<seq<int>>)
    requires s.pc == Hard(at) && HardStep(s, at, ok, pids).Some?
    requires SentInv(s.pc, s.cfg.grace, s.group.sent, s.result)
    requires VerdictInv(s.pc, s.cfg.grace, s.result)
    requires TimeInv(s.pc, s.cfg.grace, s.group.sent, s.clock)
    ensures var t := HardStep(s, at, ok, pids).value;
            TimeInv(t.pc, t.cfg.grace, t.group.sent, t.clock)
  {
    match at {
      case ZeroKill => case Refresh => case ToKilling => case TerminateGroup => case ArmKill =>
      case KillWait => case CloseAtDeadline =>
    }
  }

  lemma HardResultKept(s: Sys, at: HardPc, ok: bool, pids: Option<seq<int>>)
    requires s.pc == Hard(at) && HardStep(s, at, ok, pids).Some?
    requires VerdictInv(s.pc, s.cfg.grace, s.result)
    requires ResultInv(s.pc, s.result, s.notes, s.child)
    ensures var t := HardStep(s, at, ok, pids).value;
            ResultInv(t.pc, t.result, t.notes, t.child)
  {
    match at {
      case ZeroKill => case Refresh => case ToKilling => case TerminateGroup => case ArmKill =>
      case KillWait => case CloseAtDeadline =>
    }
  }

  lemma HardIoKept(s: Sys, at: HardPc, ok: bool, pids: Option<seq<int>>)
    requires s.pc == Hard(at) && HardStep(s, at, ok, pids).Some?
    requires IoInv(s.pc, s.wantOut, s.wantErr, s.io)
    ensures var t := HardStep(s, at, ok, pids).value;
            IoInv(t.pc, t.wantOut, t.wantErr, t.io)
  {
    Pipes.ForceClosedKeepsInv(s.io);
    match at {
      case ZeroKill => case Refresh => case ToKilling => case TerminateGroup => case ArmKill =>
      case KillWait => case CloseAtDeadline =>
    }
  }

  lemma CleanHistKept(s: Sys, at: CleanPc, ok: bool)
    requires s.pc == Cleanup(at) && CleanStep(s, at, ok).Some?
    requires HistInv(s.pc, s.cfg.grace, s.life, s.result)
    requires VerdictInv(s.pc, s.cfg.grace, s.result)
    ensures var t := CleanStep(s, at, ok).value;
            && HistInv(t.pc, t.cfg.grace, t.life, t.result)
            && Rank(s.life.state) <= Rank(t.life.state) && t.poll == s.poll && t.cfg == s.cfg
  {
    match at {
      case PipeWait => case PipeForceClose => case PipeDrain => case CloseGroup => case ToDone =>
    }
  }

  lemma CleanSentKept(s: Sys, at: CleanPc, ok: bool)
    requires s.pc == Cleanup(at) && CleanStep(s, at, ok).Some?
    requires SentInv(s.pc, s.cfg.grace, s.group.sent, s.result)
    requires VerdictInv(s.pc, s.cfg.grace, s.result)
    requires CallInv(s.pc, s.started, s.waited, s.group.open)
    ensures var t := CleanStep(s, at, ok).value;
            && SentInv(t.pc, t.cfg.grace, t.group.sent, t.result)
            && VerdictInv(t.pc, t.cfg.grace, t.result)
            && CallInv(t.pc, t.started, t.waited, t.group.open)
  {
    match at {
      case PipeWait => case PipeForceClose => case PipeDrain => case CloseGroup => case ToDone =>
    }
  }

  lemma CleanResultKept(s: Sys, at: CleanPc, ok: bool)
    requires s.pc == Cleanup(at) && CleanStep(s, at, ok).Some?
    requires VerdictInv(s.pc, s.cfg.grace, s.result)
    requires ResultInv(s.pc, s.result, s.notes, s.child)
    ensures var t := CleanStep(s, at, ok).value;
            ResultInv(t.pc, t.result, t.notes, t.child)
  {
    match at {
      case PipeWait => case PipeForceClose => case PipeDrain => case CloseGroup => case ToDone =>
    }
  }

  lemma CleanTimeKept(s: Sys, at: CleanPc, ok: bool)
    requires s.pc == Cleanup(at) && CleanStep(s, at, ok).Some?
    requires TimeInv(s.pc, s.cfg.grace, s.group.sent, s.clock)
    ensures var t := CleanStep(s, at, ok).value;
            TimeInv(t.pc, t.cfg.grace, t.group.sent, t.clock)
  {
    match at {
      case PipeWait => case PipeForceClose => case PipeDrain => case CloseGroup => case ToDone =>
    }
  }

  lemma CleanIoKept(s: Sys, at: CleanPc, ok: bool)
    requires s.pc == Cleanup(at) && CleanStep(s, at, ok).Some?
    requires IoInv(s.pc, s.wantOut, s.wantErr, s.io)
    ensures var t := CleanStep(s, at, ok).value;
            IoInv(t.pc, t.wantOut, t.wantErr, t.io)
  {
    Pipes.LiveZero(s.io.pipes);
    Pipes.ForceClosedKeepsInv(s.io);
    match at {
      case PipeWait => case PipeForceClose => case PipeDrain => case CloseGroup => case ToDone =>
    }
  }

  /** The poller's snapshots stay in order while the state moves forward. */
  lemma PollForward(poll: Poll, before: State, after: State)
    requires PollInv(poll, before) && Rank(before) <= Rank(after)
    ensures PollInv(poll, after)
  {}

  lemma PollStepKept(poll: Poll, state: State, procDone: bool, e: Event)
    requires PollInv(poll, state)
    requires PollAction(e)
    requires PollStep(poll, state, procDone, e).Some?
    ensures PollInv(PollStep(poll, state, procDone, e).value, state)
  {
    match e {
      case PollTick => case PollDone => case PollEmit(active) =>
    }
  }

  lemma PollLaunched(poll: Poll, poller: Poller, state: State)
    requires PollInv(poll, state) && state != Done && (poller == Off || poller == Looping)
    ensures PollInv(poll.(poller := poller), state)
  {}

  lemma StartLeavesPoll(s: Sys, at: StartPc, ok: bool)
    ensures at != Launch ==> StartStep(s, at, ok).poll == s.poll
  {
    match at {
      case ToStarting => case NewGroup => case Setup => case StdoutPipe => case StderrPipe =>
      case Spawn => case Activate => case ToRunning => case Launch => case Abort =>
    }
  }

  lemma StartPollKept(s: Sys, at: StartPc, ok: bool)
    requires s.pc == InStart(at) && PollInv(s.poll, s.life.state) && HistInv(s.pc, s.cfg.grace, s.life, s.result)
    ensures var t := StartStep(s, at, ok);
            PollInv(t.poll, t.life.state)
  {
    hide PollInv;
    if at == Launch {
      PollLaunched(s.poll, if s.cfg.polled then Looping else Off, s.life.state);
    } else {
      StartLeavesPoll(s, at, ok);
      StartHistKept(s, at, ok);
      PollForward(s.poll, s.life.state, StartStep(s, at, ok).life.state);
    }
  }

  lemma StartKeepsInv(s: Sys, at: StartPc, ok: bool)
    requires Inv(s) && s.pc == InStart(at)
    ensures Inv(StartStep(s, at, ok))
  {
    hide HistInv, SentInv, VerdictInv, CallInv, ResultInv, TimeInv, IoInv, PollInv, StartStep;
    StartHistKept(s, at, ok);
    StartCallKept(s, at, ok);
    StartResultKept(s, at, ok);
    StartTimeKept(s, at, ok);
    StartIoKept(s, at, ok);
    StartPollKept(s, at, ok);
  }

  lemma SoftKeepsInv(s: Sys, at: SoftPc, ok: bool)
    requires Inv(s) && s.pc == Soft(at) && SoftStep(s, at, ok).Some?
    ensures Inv(SoftStep(s, at, ok).value)
  {
    hide HistInv, SentInv, VerdictInv, CallInv, ResultInv, TimeInv, IoInv, PollInv, SoftStep;
    SoftHistKept(s, at, ok);
    SoftSentKept(s, at, ok);
    SoftTimeKept(s, at, ok);
    SoftRestKept(s, at, ok);
    PollForward(s.poll, s.life.state, SoftStep(s, at, ok).value.life.state);
  }

  lemma HardKeepsInv(s: Sys, at: HardPc, ok: bool, pids: Option<seq<int>>)
    requires Inv(s) && s.pc == Hard(at) && HardStep(s, at, ok, pids).Some?
    ensures Inv(HardStep(s, at, ok, pids).value)
  {
    hide HistInv, SentInv, VerdictInv, CallInv, ResultInv, TimeInv, IoInv, PollInv, HardStep;
    HardHistKept(s, at, ok, pids);
    HardSentKept(s, at, ok, pids);
    HardTimeKept(s, at, ok, pids);
    HardResultKept(s, at, ok, pids);
    HardIoKept(s, at, ok, pids);
    PollForward(s.poll, s.life.state, HardStep(s, at, ok, pids).value.life.state);
  }

  lemma CleanKeepsInv(s: Sys, at: CleanPc, ok: bool)
    requires Inv(s) && s.pc == Cleanup(at) && CleanStep(s, at, ok).Some?
    ensures Inv(CleanStep(s, at, ok).value)
  {
    hide HistInv, SentInv, VerdictInv, CallInv, ResultInv, TimeInv, IoInv, PollInv, CleanStep;
    CleanHistKept(s, at, ok);
    CleanSentKept(s, at, ok);
    CleanResultKept(s, at, ok);
    CleanTimeKept(s, at, ok);
    CleanIoKept(s, at, ok);
    PollForward(s.poll, s.life.state, CleanStep(s, at, ok).value.life.state);
  }

  lemma SelectKeepsInv(s: Sys, ok: bool)
    requires Inv(s) && s.pc == Select && SelectStep(s, ok).Some?
    ensures Inv(SelectStep(s, ok).value)
  {}

  lemma SnapshotKeepsInv(s: Sys, pids: Option<seq<int>>)
    requires Inv(s) && s.pc == Snapshot
    ensures Inv(SnapshotStep(s, pids))
  {}

  lemma BuildKeepsInv(s: Sys, pids: Option<seq<int>>, cancelled: bool, graceful: bool, forced: bool)
    requires Inv(s) && s.pc == Build(cancelled, graceful, forced)
    ensures Inv(BuildStep(s, pids, cancelled, graceful, forced))
  {}

  lemma MainKeepsInv(s: Sys, ok: bool, pids: Option<seq<int>>)
    requires Inv(s) && MainStep(s, ok, pids).Some?
    ensures Inv(MainStep(s, ok, pids).value)
  {
    match s.pc {
      case InStart(at) => StartKeepsInv(s, at, ok);
      case Select => SelectKeepsInv(s, ok);
      case Snapshot => SnapshotKeepsInv(s, pids);
      case Soft(at) => SoftKeepsInv(s, at, ok);
      case Hard(at) => HardKeepsInv(s, at, ok, pids);
      case Build(cancelled, graceful, forced) => BuildKeepsInv(s, pids, cancelled, graceful, forced);
      case Cleanup(at) => CleanKeepsInv(s, at, ok);
      case _ =>
    }
  }

  lemma CallKeepsInv(s: Sys, e: Event)
    requires Inv(s) && Step(s, e).Some?
    requires e.Attach? || e.CallStart? || e.CallWait?
    ensures Inv(Step(s, e).value)
  {
    match e {
      case Attach(out, err) => case CallStart => case CallWait =>
    }
  }

  lemma ChildKeepsInv(s: Sys, e: Event)
    requires Inv(s) && Step(s, e).Some?
    requires e.Reap? || e.CloseProcDone? || e.Cancel? || e.Tick?
    ensures Inv(Step(s, e).value)
  {
    match e {
      case Reap(exit) => case CloseProcDone => case Cancel => case Tick(d) =>
    }
  }

  lemma CopierKeepsInv(s: Sys, e: Pipes.Event)
    requires Inv(s) && Step(s, Io(e)).Some?
    ensures Inv(Step(s, Io(e)).value)
  {
    hide HistInv, SentInv, VerdictInv, CallInv, ResultInv, TimeInv, PollInv, Pipes.Inv;
    Pipes.StepKeepsInv(s.io, e);
    if Pipes.AllClosed(s.io) {
      Pipes.ClosedCopiersProgress(s.io, e);
    }
  }

  lemma PollerKeepsInv(s: Sys, e: Event)
    requires Inv(s) && Step(s, e).Some? && PollAction(e)
    ensures Inv(Step(s, e).value)
  {
    PollStepKept(s.poll, s.life.state, s.child.reaper == Closed, e);
  }

  lemma StepKeepsInv(s: Sys, e: Event)
    requires Inv(s) && Step(s, e).Some?
    ensures Inv(Step(s, e).value)
  {
    if e.Attach? || e.CallStart? || e.CallWait? {
      CallKeepsInv(s, e);
    } else if PollAction(e) {
      PollerKeepsInv(s, e);
    } else if e.Io? {
      CopierKeepsInv(s, e.io);
    } else if e.Main? {
      MainKeepsInv(s, e.ok, e.pids);
    } else {
      ChildKeepsInv(s, e);
    }
  }
}
