/**
 The runner protocol (runner.go) as a step system. Taking turns, in any order, are
   - the goroutine that calls Start and then Wait, through Wait's shutdown escalation,
   - the goroutine that reaps the child (waitForProcess),
   - the metrics poller (pollMetrics),
   - the I/O copiers and the child (module Pipes),
   - the owner of the context, which may cancel it at any moment,
   - the clock, and late callers of Start and Wait.
 What the kernel answers (does the group signal find a process, which PIDs are alive, does a start
 step fail) and which ready branch a select takes are part of the action.
 */
module RunnerSystem {
  import opened Common
  import opened Lifecycle
  import Pipes

  /** What cmd.Wait reports: nil, an *exec.ExitError, or any other error. */
  datatype Exit = Clean | Code(code: int) | Broken

  datatype ExitError = ExitError(code: int, signal: string, cancelled: bool)

  datatype RunError = AlreadyStarted | Exited(detail: ExitError)

  datatype Result = Result(exitCode: int, cancelled: bool, graceful: bool, forceKilled: bool,
                           duration: int, cleaned: nat, pids: seq<int>, error: Option<RunError>)
  {
    predicate Success() { exitCode == 0 && !cancelled && error == None }
  }

  datatype Kind = Graceful | Terminate

  /** A call of the group's signal or terminate. */
  datatype Sent = Sent(kind: Kind, at: int)

  /** `grace` and `ioTimeout` as configured; `polled` says that onMetrics is set. */
  datatype Config = Config(grace: int, ioTimeout: int, polled: bool)

  const KILL_DEADLINE: int := 5 * SECOND

  // The next statement of the goroutine that runs Start and Wait.

  datatype StartPc =
    ToStarting | NewGroup | Setup | StdoutPipe | StderrPipe | Spawn | Activate | ToRunning | Launch | Abort

  /** shutdownSequence: the graceful phase. */
  datatype SoftPc = ToStopping | SignalGroup | AwaitExit | ArmGrace | GraceWait

  /** shutdownSequence: the forced phase, entered at `ZeroKill` without a grace period and at
      `Refresh` after it. */
  datatype HardPc = ZeroKill | Refresh | ToKilling | TerminateGroup | ArmKill | KillWait | CloseAtDeadline

  /** The cleanup of Wait. */
  datatype CleanPc = PipeWait | PipeForceClose | PipeDrain | CloseGroup | ToDone

  datatype Pc =
    | NotStarted
    | InStart(start: StartPc)
    | StartFailed
    | Idle                                  // between a successful Start and Wait
    | Select                                // runLifecycle
    | Snapshot                              // the head of shutdownSequence
    | Soft(soft: SoftPc)
    | Hard(hard: HardPc)
    | Build(cancelled: bool, graceful: bool, forced: bool)
    | Cleanup(clean: CleanPc)
    | Returned

  datatype Reaper = NotLaunched | Waiting | Reaped | Closed

  datatype Snap = Snap(state: State, active: nat)

  datatype Poller = Off | Looping | Emitting(seen: State, final: bool) | Stopped

  /** The current state and all states visited so far. */
  datatype Life = Life(state: State, hist: seq<State>)

  datatype Child = Child(reaper: Reaper, procErr: Exit)

  /** `timer` is the deadline the main goroutine waits for, if it waits for one. */
  datatype Clock = Clock(now: int, timer: int, startTime: int)

  /** The process group: held open, the PIDs remembered, the signals sent to it. */
  datatype Group = Group(open: bool, tracked: seq<int>, sent: seq<Sent>)

  datatype Poll = Poll(poller: Poller, snaps: seq<Snap>)

  /** What happened at the moments the guarantees speak of. */
  datatype Notes = Notes(cancelAt: int, gone: bool, deadlineHit: bool, builtAt: int, reapedAtBuild: bool,
                         drainAt: int, ioExpired: bool)

  const NO_NOTES := Notes(0, false, false, 0, false, 0, false)

  datatype Sys = Sys(
    cfg: Config, wantOut: bool, wantErr: bool, started: bool, waited: bool,
    pc: Pc, life: Life, group: Group, result: Option<Result>, notes: Notes,
    child: Child, ctxDone: bool, clock: Clock, io: Pipes.IO, poll: Poll)

  function Init(cfg: Config, now: int): Sys {
    Sys(cfg, false, false, false, false,
        NotStarted, Life(Created, [Created]), Group(false, [], []), None, NO_NOTES,
        Child(NotLaunched, Clean), false, Clock(now, 0, 0), Pipes.EMPTY, Poll(Off, []))
  }

  datatype Event =
    | Attach(out: bool, err: bool)                 // configure stdout and stderr before Start
    | CallStart
    | CallWait
    | Main(ok: bool, pids: Option<seq<int>>)       // one statement of Start or Wait
    | Reap(exit: Exit)                             // cmd.Wait returns
    | CloseProcDone                                // close(r.procDone)
    | Cancel
    | Tick(d: nat)
    | PollTick
    | PollDone
    | PollEmit(active: nat)
    | Io(io: Pipes.Event)

  /** forceTransition */
  function Force(life: Life, to: State): Life {
    Life(to, life.hist + [to])
  }

  /** transition: refused unless the state is `from` and the table has the edge. */
  function Transition(life: Life, from: State, to: State): Life {
    if life.state == from && CanTransition(from, to) then Force(life, to) else life
  }

  function Send(group: Group, kind: Kind, at: int): Group {
    group.(sent := group.sent + [Sent(kind, at)])
  }

  function Listed(pids: Option<seq<int>>): seq<int> {
    match pids case None => [] case Some(list) => list
  }

  /** buildResult */
  function Assemble(procErr: Exit, tracked: seq<int>, alive: Option<seq<int>>,
                    cancelled: bool, graceful: bool, forced: bool): Result {
    var pids := if tracked == [] then Listed(alive) else tracked;
    var code := match procErr case Clean => 0 case Code(c) => c case Broken => -1;
    var error :=
      if procErr == Clean then None
      else Some(Exited(ExitError(code, if forced then "killed" else "", cancelled)));
    Result(code, cancelled, graceful, forced, 0, |pids|, pids, error)
  }

  function StartStep(s: Sys, at: StartPc, ok: bool): Sys {
    match at
    case ToStarting =>
      if s.life.state == Created
      then s.(life := Transition(s.life, Created, Starting), pc := InStart(NewGroup))
      else s.(pc := StartFailed)
    case NewGroup =>
      if ok then s.(group := s.group.(open := true), pc := InStart(Setup)) else s.(pc := InStart(Abort))
    case Setup => s.(pc := InStart(if ok then StdoutPipe else Abort))
    case StdoutPipe =>
      if s.wantOut && !ok then s.(pc := InStart(Abort))
      else s.(io := if s.wantOut then Pipes.Started(s.io) else s.io, pc := InStart(StderrPipe))
    case StderrPipe =>
      if s.wantErr && !ok then s.(pc := InStart(Abort))
      else s.(io := if s.wantErr then Pipes.Started(s.io) else s.io, pc := InStart(Spawn))
    case Spawn =>
      s.(clock := s.clock.(startTime := s.clock.now), pc := InStart(if ok then Activate else Abort))
    case Activate => s.(pc := InStart(if ok then ToRunning else Abort))
    case ToRunning => s.(life := Transition(s.life, Starting, Running), pc := InStart(Launch))
    case Launch =>
      s.(child := s.child.(reaper := Waiting),
         poll := s.poll.(poller := if s.cfg.polled then Looping else Off), pc := Idle)
    case Abort => s.(life := Force(s.life, Done), group := s.group.(open := false), pc := StartFailed)
  }

  /** runLifecycle, and the head of shutdownSequence. In a select, `ok` chooses the branch on
      procDone; the other branch needs its own channel. */
  function SelectStep(s: Sys, ok: bool): Option<Sys> {
    if ok then
      if s.child.reaper == Closed then Some(s.(pc := Build(false, false, false))) else None
    else if s.ctxDone then Some(s.(notes := s.notes.(cancelAt := s.clock.now), pc := Snapshot))
    else None
  }

  function SnapshotStep(s: Sys, pids: Option<seq<int>>): Sys {
    s.(group := s.group.(tracked := Listed(pids)),
       pc := if s.cfg.grace <= 0 then Hard(ZeroKill) else Soft(ToStopping))
  }

  function SoftStep(s: Sys, at: SoftPc, ok: bool): Option<Sys> {
    match at
    case ToStopping => Some(s.(life := Transition(s.life, Running, Stopping), pc := Soft(SignalGroup)))
    case SignalGroup =>
      // ok: any answer but os.ErrProcessDone
      Some(s.(group := Send(s.group, Graceful, s.clock.now), notes := s.notes.(gone := !ok),
              pc := Soft(if ok then ArmGrace else AwaitExit)))
    case AwaitExit => if s.child.reaper == Closed then Some(s.(pc := Build(true, true, false))) else None
    case ArmGrace => Some(s.(clock := s.clock.(timer := s.clock.now + s.cfg.grace), pc := Soft(GraceWait)))
    case GraceWait =>
      if ok then (if s.child.reaper == Closed then Some(s.(pc := Build(true, true, false))) else None)
      else if s.clock.now >= s.clock.timer then Some(s.(pc := Hard(Refresh))) else None
  }

  function HardStep(s: Sys, at: HardPc, ok: bool, pids: Option<seq<int>>): Option<Sys> {
    match at
    case ZeroKill => Some(s.(life := Transition(s.life, Running, Killing), pc := Hard(TerminateGroup)))
    case Refresh =>
      Some(s.(group := if Listed(pids) != [] then s.group.(tracked := Listed(pids)) else s.group,
              pc := Hard(ToKilling)))
    case ToKilling => Some(s.(life := Transition(s.life, Stopping, Killing), pc := Hard(TerminateGroup)))
    case TerminateGroup => Some(s.(group := Send(s.group, Terminate, s.clock.now), pc := Hard(ArmKill)))
    case ArmKill => Some(s.(clock := s.clock.(timer := s.clock.now + KILL_DEADLINE), pc := Hard(KillWait)))
    case KillWait =>
      if ok then (if s.child.reaper == Closed then Some(s.(pc := Build(true, false, true))) else None)
      else if s.clock.now >= s.clock.timer
      then Some(s.(notes := s.notes.(deadlineHit := true), pc := Hard(CloseAtDeadline)))
      else None
    case CloseAtDeadline => Some(s.(io := Pipes.ForceClosed(s.io), pc := Build(true, false, true)))
  }

  function NoteBuild(notes: Notes, now: int, reaper: Reaper): Notes {
    notes.(builtAt := now, reapedAtBuild := reaper == Reaped || reaper == Closed)
  }

  function BuildStep(s: Sys, pids: Option<seq<int>>, cancelled: bool, graceful: bool, forced: bool): Sys {
    s.(result := Some(Assemble(s.child.procErr, s.group.tracked, pids, cancelled, graceful, forced)),
       notes := NoteBuild(s.notes, s.clock.now, s.child.reaper),
       clock := s.clock.(timer := s.clock.now + s.cfg.ioTimeout), pc := Cleanup(PipeWait))
  }

  /** The wait for the copiers is over, by their end or by the timeout. */
  function LeavePipeWait(s: Sys, next: CleanPc): Sys {
    s.(notes := s.notes.(drainAt := s.clock.now, ioExpired := next == PipeForceClose), pc := Cleanup(next))
  }

  /** The cleanup of Wait. */
  function CleanStep(s: Sys, at: CleanPc, ok: bool): Option<Sys> {
    match at
    case PipeWait =>
      if ok then (if s.io.wg == 0 then Some(LeavePipeWait(s, CloseGroup)) else None)
      else if s.clock.now >= s.clock.timer then Some(LeavePipeWait(s, PipeForceClose)) else None
    case PipeForceClose => Some(s.(io := Pipes.ForceClosed(s.io), pc := Cleanup(PipeDrain)))
    case PipeDrain => if s.io.wg == 0 then Some(s.(pc := Cleanup(CloseGroup))) else None
    case CloseGroup => Some(s.(group := s.group.(open := false), pc := Cleanup(ToDone)))
    case ToDone =>
      if s.result == None then None
      else
        Some(s.(life := Force(s.life, Done),
                result := Some(s.result.value.(duration := s.clock.now - s.clock.startTime)), pc := Returned))
  }

  /** One statement of the goroutine that runs Start and Wait. */
  function MainStep(s: Sys, ok: bool, pids: Option<seq<int>>): Option<Sys> {
    match s.pc
    case InStart(at) => Some(StartStep(s, at, ok))
    case Select => SelectStep(s, ok)
    case Snapshot => Some(SnapshotStep(s, pids))
    case Soft(at) => SoftStep(s, at, ok)
    case Hard(at) => HardStep(s, at, ok, pids)
    case Build(cancelled, graceful, forced) => Some(BuildStep(s, pids, cancelled, graceful, forced))
    case Cleanup(at) => CleanStep(s, at, ok)
    case NotStarted | StartFailed | Idle | Returned => None
  }

  function PollStep(poll: Poll, state: State, procDone: bool, e: Event): Option<Poll>
    requires e.PollTick? || e.PollDone? || e.PollEmit?
  {
    match e
    case PollTick =>
      if poll.poller != Looping then None
      else Some(poll.(poller := if state == Done then Stopped else Emitting(state, false)))
    case PollDone =>
      if poll.poller != Looping || !procDone then None else Some(poll.(poller := Emitting(state, true)))
    case PollEmit(active) =>
      if !poll.poller.Emitting? then None
      else
        var count := if active == 0 && poll.poller.seen == Running then 1 else active;
        Some(Poll(if poll.poller.final then Stopped else Looping, poll.snaps + [Snap(poll.poller.seen, count)]))
  }

  function Step(s: Sys, e: Event): Option<Sys> {
    match e
    case Attach(out, err) =>
      // Start is the only reader of these options
      if s.started then None else Some(s.(wantOut := out, wantErr := err))
    case CallStart =>
      // every call but the first returns ErrAlreadyStarted
      Some(if s.started then s else s.(started := true, pc := InStart(ToStarting)))
    case CallWait =>
      // Wait is for after a successful Start; every call but the first is turned away
      if s.pc == NotStarted || s.pc == StartFailed || s.pc.InStart? then None
      else Some(if s.waited then s else s.(waited := true, pc := Select))
    case Main(ok, pids) => MainStep(s, ok, pids)
    case Reap(exit) =>
      if s.child.reaper == Waiting then Some(s.(child := Child(Reaped, exit))) else None
    case CloseProcDone =>
      if s.child.reaper == Reaped then Some(s.(child := s.child.(reaper := Closed))) else None
    case Cancel => Some(s.(ctxDone := true))
    case Tick(d) => Some(s.(clock := s.clock.(now := s.clock.now + d)))
    case Io(ioEvent) =>
      (match Pipes.Step(s.io, ioEvent)
       case None => None
       case Some(io) => Some(s.(io := io)))
    case _ =>
      match PollStep(s.poll, s.life.state, s.child.reaper == Closed, e)
      case None => None
      case Some(poll) => Some(s.(poll := poll))
  }

  /** The goroutine inside Wait is blocked: none of the channels and timers it waits for is ready. */
  predicate Stuck(s: Sys) {
    match s.pc
    case Select => s.child.reaper != Closed && !s.ctxDone
    case Soft(at) => BlockedSoft(at, s.child.reaper, s.clock)
    case Hard(at) => at == KillWait && s.child.reaper != Closed && s.clock.now < s.clock.timer
    case Cleanup(at) => BlockedClean(at, s.io.wg, s.clock)
    case _ => false
  }

  predicate BlockedSoft(at: SoftPc, reaper: Reaper, clock: Clock) {
    && reaper != Closed
    && (at == AwaitExit || (at == GraceWait && clock.now < clock.timer))
  }

  predicate BlockedClean(at: CleanPc, wg: nat, clock: Clock) {
    && wg != 0
    && (at == PipeDrain || (at == PipeWait && clock.now < clock.timer))
  }

  /** A statement at which the main goroutine can block. */
  predicate Blocking(pc: Pc) {
    match pc
    case NotStarted | StartFailed | Idle | Select | Returned => true
    case Soft(at) => at == AwaitExit || at == GraceWait
    case Hard(at) => at == KillWait
    case Cleanup(at) => at == PipeWait || at == PipeDrain
    case _ => false
  }

  /** The statements at which it waits for a timer. */
  predicate Timed(pc: Pc) {
    pc == Soft(GraceWait) || pc == Hard(KillWait) || pc == Cleanup(PipeWait)
  }

  /** Time passes only while the main goroutine is blocked, and not beyond the timer it waits for:
      a timer that is due is served before the clock moves on. */
  predicate Urgent(s: Sys, e: Event) {
    e.Tick? && e.d > 0 ==> Blocking(s.pc) && (Timed(s.pc) ==> s.clock.now + e.d <= s.clock.timer)
  }

  function UrgentStep(s: Sys, e: Event): Option<Sys> {
    if Urgent(s, e) then Step(s, e) else None
  }
}
