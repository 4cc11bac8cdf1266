/**
 The Runner object (runner.go). Its methods are the code of the goroutine that calls Start and
 Wait; between any two of its atomic actions the other parties may take any finite number of
 theirs (`Interfere`). `Valid` says that the object is in the state that the runner protocol
 reaches by the actions logged so far, so whatever holds of every run of the protocol holds of
 the object.

 A method that can block returns `None` (or false, where its comment says so) when it is blocked:
 none of the channels and timers that the code waits for there is ready.
 */
module Runner {
  import opened Common
  import opened Executions
  import opened Lifecycle
  import opened RunnerSystem
  import opened RunnerInvariants
  import opened RunnerTheorems
  import Pipes
  import RunnerDeadlines
  import RunnerHistory

  /** What the kernel answers during Start: does each of its steps succeed. */
  datatype StartAnswers = StartAnswers(
    group: bool, setup: bool, outPipe: bool, errPipe: bool, spawn: bool, activate: bool)

  /** What the kernel answers during Wait, if it is asked: the living processes at the cancellation, after
      the grace period and when the result is built; does the graceful signal find the group. */
  datatype WaitAnswers = WaitAnswers(
    snapshot: Option<seq<int>>, found: bool, refresh: Option<seq<int>>, alive: Option<seq<int>>)

  const TURNED_AWAY := Result(-1, false, false, false, 0, 0, [], Some(AlreadyStarted))

  class Runner {
    const cfg: Config
    var stdout: bool
    var stderr: bool

    // OS resources
    var groupOpen: bool
    const pipes: Pipes.PipeManager
    var trackedPIDs: seq<int>

    // lifecycle
    var state: State
    var startTime: int
    var started: bool
    var waited: bool

    // written by the other goroutines, the owner of the context, and the clock
    var reaper: Reaper
    var procErr: Exit
    var ctxDone: bool
    var now: int
    var poll: Poll

    // the history, and the position of the main goroutine
    ghost const born: int
    ghost var captured: (bool, bool)
    ghost var pc: Pc
    ghost var hist: seq<State>
    ghost var sent: seq<Sent>
    var timer: int
    ghost var notes: Notes
    ghost var outcome: Option<Result>
    ghost var log: seq<Event>

    ghost function View(): Sys
      reads this, pipes
    {
      Sys(cfg, captured.0, captured.1, started, waited,
          pc, Life(state, hist), Group(groupOpen, trackedPIDs, sent), outcome, notes,
          Child(reaper, procErr), ctxDone, Clock(now, timer, startTime), pipes.View(), poll)
    }

    ghost predicate Valid()
      reads this, pipes
    {
      && After(cfg, born, log) == Some(View())
      && (!started ==> captured == (stdout, stderr))
    }

    constructor (cfg: Config, now: int)
      ensures Valid() && fresh(pipes)
      ensures pc == NotStarted && !stdout && !stderr && this.cfg == cfg
    {
      this.cfg := cfg;
      stdout, stderr := false, false;
      groupOpen := false;
      pipes := new Pipes.PipeManager();
      trackedPIDs := [];
      state, startTime, started, waited := Created, 0, false, false;
      reaper, procErr, ctxDone, this.now, poll := NotLaunched, Clean, false, now, Poll(Off, []);
      born := now;
      captured, pc, hist, sent, timer := (false, false), NotStarted, [Created], [], 0;
      notes, outcome, log := NO_NOTES, None, [];
    }

    /** The action just performed is the protocol's action `e`. */
    ghost method Commit(e: Event, before: Sys)
      requires After(cfg, born, log) == Some(before)
      requires Step(before, e) == Some(View())
      requires !started ==> captured == (stdout, stderr)
      modifies this`log
      ensures Valid() && log == old(log) + [e]
    {
      hide Step;
      ExecSnoc(Step, Init(cfg, born), log, e);
      log := log + [e];
    }

    ghost method CommitStart(at: StartPc, ok: bool, before: Sys)
      requires After(cfg, born, log) == Some(before)
      requires before.pc == InStart(at) && StartStep(before, at, ok) == View()
      requires !started ==> captured == (stdout, stderr)
      modifies this`log
      ensures Valid()
      ensures old(log) <= log
    {
      Commit(Main(ok, None), before);
    }

    ghost method CommitSelect(ok: bool, before: Sys)
      requires After(cfg, born, log) == Some(before)
      requires before.pc == Select && SelectStep(before, ok) == Some(View())
      requires !started ==> captured == (stdout, stderr)
      modifies this`log
      ensures Valid()
      ensures old(log) <= log
    {
      Commit(Main(ok, None), before);
    }

    ghost method CommitSoft(at: SoftPc, ok: bool, before: Sys)
      requires After(cfg, born, log) == Some(before)
      requires before.pc == Soft(at) && SoftStep(before, at, ok) == Some(View())
      requires !started ==> captured == (stdout, stderr)
      modifies this`log
      ensures Valid()
      ensures old(log) <= log
    {
      Commit(Main(ok, None), before);
    }

    ghost method CommitHard(at: HardPc, ok: bool, pids: Option<seq<int>>, before: Sys)
      requires After(cfg, born, log) == Some(before)
      requires before.pc == Hard(at) && HardStep(before, at, ok, pids) == Some(View())
      requires !started ==> captured == (stdout, stderr)
      modifies this`log
      ensures Valid()
      ensures old(log) <= log
    {
      Commit(Main(ok, pids), before);
    }

    ghost method CommitBuild(alive: Option<seq<int>>, cancelled: bool, graceful: bool, forced: bool, before: Sys)
      requires After(cfg, born, log) == Some(before)
      requires before.pc == Build(cancelled, graceful, forced)
      requires BuildStep(before, alive, cancelled, graceful, forced) == View()
      requires !started ==> captured == (stdout, stderr)
      modifies this`log
      ensures Valid()
      ensures old(log) <= log
    {
      Commit(Main(true, alive), before);
    }

    ghost method CommitClean(at: CleanPc, ok: bool, before: Sys)
      requires After(cfg, born, log) == Some(before)
      requires before.pc == Cleanup(at) && CleanStep(before, at, ok) == Some(View())
      requires !started ==> captured == (stdout, stderr)
      modifies this`log
      ensures Valid()
      ensures old(log) <= log
    {
      Commit(Main(ok, None), before);
    }

    /** An action of one of the other parties, if it is possible now. */
    method EnvironmentAct(e: Event)
      requires Valid()
      modifies this`reaper, this`procErr, this`ctxDone, this`now, this`poll, this`log, pipes
      ensures Valid() && now >= old(now)
      ensures old(log) <= log
    {
      if e.PollTick? || e.PollDone? || e.PollEmit? {
        PollerAct(e);
      } else if e.Io? {
        CopierAct(e.io);
      } else if e.Reap? || e.CloseProcDone? {
        ReaperAct(e);
      } else if e.Cancel? || e.Tick? || (e.CallStart? && started) {
        OutsideAct(e);
      }
    }

    method ReaperAct(e: Event)
      requires Valid() && (e.Reap? || e.CloseProcDone?)
      modifies this`reaper, this`procErr, this`log
      ensures Valid()
      ensures old(log) <= log
    {
      ghost var s := View();
      if e.Reap? && reaper == Waiting {
        procErr, reaper := e.exit, Reaped;
        Commit(e, s);
      } else if e.CloseProcDone? && reaper == Reaped {
        reaper := Closed;
        Commit(e, s);
      }
    }

    method OutsideAct(e: Event)
      requires Valid() && (e.Cancel? || e.Tick? || (e.CallStart? && started))
      modifies this`ctxDone, this`now, this`log
      ensures Valid() && now >= old(now)
      ensures old(log) <= log
    {
      ghost var s := View();
      if e.Cancel? {
        ctxDone := true;
      } else if e.Tick? {
        now := now + e.d;
      }
      Commit(e, s);
    }

    method PollerAct(e: Event)
      requires Valid() && (e.PollTick? || e.PollDone? || e.PollEmit?)
      modifies this`poll, this`log
      ensures Valid()
      ensures old(log) <= log
    {
      ghost var s := View();
      var next := PollStep(poll, state, reaper == Closed, e);
      if next.Some? {
        poll := next.value;
        Commit(e, s);
      }
    }

    method CopierAct(e: Pipes.Event)
      requires Valid()
      modifies this`log, pipes
      ensures Valid()
      ensures old(log) <= log
    {
      ghost var s := View();
      if Pipes.Step(pipes.View(), e).Some? {
        pipes.Act(e);
        Commit(Io(e), s);
      }
    }

    /** Any finite number of actions of the other parties. */
    method Interfere()
      requires Valid()
      modifies this`reaper, this`procErr, this`ctxDone, this`now, this`poll, this`log, pipes
      ensures Valid() && now >= old(now)
      ensures old(log) <= log
    {
      var budget: nat := *;
      while budget > 0
        invariant Valid() && old(log) <= log && now >= old(now)
      {
        var e: Event := *;
        EnvironmentAct(e);
        budget := budget - 1;
      }
    }

    // ----------------------------------------------------------------------------------------
    // State changes and results
    // ----------------------------------------------------------------------------------------

    method Transition(from: State, to: State) returns (done: bool)
      modifies this`state, this`hist
      ensures Life(state, hist) == RunnerSystem.Transition(Life(old(state), old(hist)), from, to)
      ensures done <==> old(state) == from && CanTransition(from, to)
    {
      if state != from || !CanTransition(from, to) {
        return false;
      }
      state, hist := to, hist + [to];
      return true;
    }

    method ForceTransition(to: State)
      modifies this`state, this`hist
      ensures Life(state, hist) == Force(Life(old(state), old(hist)), to)
    {
      state, hist := to, hist + [to];
    }

    /** buildResult; `alive` is the answer of the kernel to the second PID query. The result reports
        the child's exit as recorded so far, is a success exactly if no error and no cancellation is,
        and lists the tracked PIDs, or the living ones where none are tracked. */
    method BuildResult(alive: Option<seq<int>>, cancelled: bool, graceful: bool, forceKilled: bool)
      returns (result: Result)
      ensures result == Assemble(procErr, trackedPIDs, alive, cancelled, graceful, forceKilled)
      ensures ReportsExit(result, procErr) && (result.Success() <==> procErr == Clean && !cancelled)
      ensures result.cancelled == cancelled && result.graceful == graceful && result.forceKilled == forceKilled
      ensures result.exitCode == match procErr case Clean => 0 case Code(code) => code case Broken => -1
      ensures result.error ==
              if procErr == Clean then None
              else Some(Exited(ExitError(result.exitCode, if forceKilled then "killed" else "", cancelled)))
      ensures result.pids == if trackedPIDs != [] then trackedPIDs else Listed(alive)
      ensures result.cleaned == |result.pids|
    {
      var pids := trackedPIDs;
      if |pids| == 0 {
        pids := Listed(alive);
      }
      result := Result(0, cancelled, graceful, forceKilled, 0, |pids|, pids, None);
      if procErr != Clean {
        var code := -1;
        if procErr.Code? {
          code := procErr.code;
        }
        var sig := "";
        if forceKilled {
          sig := "killed";
        }
        result := result.(exitCode := code, error := Some(Exited(ExitError(code, sig, cancelled))));
      }
    }

    method ReturnResult(alive: Option<seq<int>>, cancelled: bool, graceful: bool, forceKilled: bool)
      returns (r: Option<Result>)
      requires Valid() && pc == Build(cancelled, graceful, forceKilled)
      modifies this`outcome, this`timer, this`notes, this`pc
      modifies this`reaper, this`procErr, this`ctxDone, this`now, this`poll, this`log, pipes
      ensures Valid() && pc == Cleanup(PipeWait) && r.Some? && outcome == r
      ensures r.value.cancelled == cancelled && r.value.graceful == graceful && r.value.forceKilled == forceKilled
      ensures r.value.pids == if trackedPIDs != [] then trackedPIDs else Listed(alive)
      ensures old(log) <= log
    {
      hide *;
      Interfere();
      var result := BuildResult(alive, cancelled, graceful, forceKilled);
      StoreResult(result, alive, cancelled, graceful, forceKilled);
      r := Some(result);
    }

    method StoreResult(result: Result, alive: Option<seq<int>>, cancelled: bool, graceful: bool, forceKilled: bool)
      requires Valid() && pc == Build(cancelled, graceful, forceKilled)
      requires result == Assemble(procErr, trackedPIDs, alive, cancelled, graceful, forceKilled)
      modifies this`outcome, this`timer, this`notes, this`pc, this`log
      ensures Valid() && pc == Cleanup(PipeWait) && outcome == Some(result)
      ensures old(log) <= log
    {
      hide After;
      hide Assemble;
      hide NoteBuild;
      ghost var s := View();
      outcome, pc, timer := Some(result), Cleanup(PipeWait), now + cfg.ioTimeout;
      notes := NoteBuild(notes, now, reaper);
      CommitBuild(alive, cancelled, graceful, forceKilled, s);
    }

    // ----------------------------------------------------------------------------------------
    // Start
    // ----------------------------------------------------------------------------------------

    /** Start; false stands for its error. A call after the first changes nothing. The first leaves
        a running command, or, with the group closed and no signal sent, the state Done. */
    method Start(k: StartAnswers) returns (ok: bool)
      requires Valid()
      modifies this, pipes
      ensures Valid()
      ensures started && (old(started) ==> !ok && View() == old(View()))
      ensures !old(started) ==> pc == (if ok then Idle else StartFailed)
      ensures !old(started) ==>
                (ok <==> && k.group && k.setup && (stdout ==> k.outPipe) && (stderr ==> k.errPipe)
                         && k.spawn && k.activate)
      ensures !old(started) && ok ==>
                && reaper == Waiting && (poll.poller == Looping <==> cfg.polled)
                && |pipes.pipes| == (if stdout then 1 else 0) + (if stderr then 1 else 0)
                && old(now) <= startTime <= now
      ensures !old(started) ==> hist == if ok then RUNNING else [Created, Starting, Done]
      ensures !old(started) ==> groupOpen == ok && sent == []
      ensures !old(started) ==> captured == (stdout, stderr) == old((stdout, stderr)) && waited == old(waited)
      ensures old(log) <= log
    {
      hide *;
      if started {
        RefuseStart();
        return false;
      }
      ClaimStart();
      ok := StartOnce(k);
      StartAgrees();
    }

    lemma StartAgrees()
      requires Valid() && (pc == Idle || pc == StartFailed)
      ensures hist == if pc == Idle then RUNNING else [Created, Starting, Done]
      ensures groupOpen == (pc == Idle) && sent == []
      ensures pc == Idle ==> |pipes.pipes| == (if captured.0 then 1 else 0) + (if captured.1 then 1 else 0)
    {
      Reachable(cfg, born, log);
      EveryRunFollowsTheTable(cfg, born, log);
    }

    method RefuseStart()
      requires Valid() && started
      modifies this`log
      ensures Valid() && View() == old(View())
      ensures old(log) <= log
    {
      Commit(CallStart, View());
    }

    method StartOnce(k: StartAnswers) returns (ok: bool)
      requires Valid() && pc == InStart(ToStarting) && started && captured == (stdout, stderr)
      modifies this`state, this`hist, this`groupOpen, this`startTime, this`pc
      modifies this`reaper, this`procErr, this`ctxDone, this`now, this`poll, this`log, pipes
      ensures Valid() && pc == if ok then Idle else StartFailed
      ensures ok <==> && k.group && k.setup && (stdout ==> k.outPipe) && (stderr ==> k.errPipe)
                      && k.spawn && k.activate
      ensures ok ==> reaper == Waiting && (poll.poller == Looping <==> cfg.polled) && old(now) <= startTime <= now
      ensures old(log) <= log
    {
      hide *;
      ok := MoveToStarting();
      if !ok { return; }
      ok := Prepare(k);
      if ok {
        ok := SpawnChild(k);
      }
      if !ok {
        Fail();
        return;
      }
      MoveToRunning();
      LaunchGoroutines();
    }

    /** Start, up to the point where the process can be started. */
    method Prepare(k: StartAnswers) returns (ok: bool)
      requires Valid() && pc == InStart(NewGroup) && started && captured == (stdout, stderr)
      modifies this`groupOpen, this`pc
      modifies this`reaper, this`procErr, this`ctxDone, this`now, this`poll, this`log, pipes
      ensures Valid() && pc == InStart(if ok then Spawn else Abort)
      ensures ok <==> k.group && k.setup && (stdout ==> k.outPipe) && (stderr ==> k.errPipe)
      ensures now >= old(now)
      ensures old(log) <= log
    {
      hide *;
      ok := OpenGroup(k.group);
      if !ok { return; }
      ok := SetUpGroup(k.setup);
      if !ok { return; }
      ok := OpenPipe(false, k.outPipe);
      if !ok { return; }
      ok := OpenPipe(true, k.errPipe);
    }

    method ClaimStart()
      requires Valid() && !started
      modifies this`started, this`pc, this`log
      ensures Valid() && started && pc == InStart(ToStarting) && captured == (stdout, stderr)
      ensures old(log) <= log
    {
      ghost var s := View();
      started, pc := true, InStart(ToStarting);
      Commit(CallStart, s);
    }

    method MoveToStarting() returns (ok: bool)
      requires Valid() && pc == InStart(ToStarting) && started
      modifies this`state, this`hist, this`pc
      modifies this`reaper, this`procErr, this`ctxDone, this`now, this`poll, this`log, pipes
      ensures Valid() && pc == if ok then InStart(NewGroup) else StartFailed
      ensures ok
      ensures now >= old(now)
      ensures old(log) <= log
    {
      hide After;
      Interfere();
      NothingStarted();
      ghost var s := View();
      ok := Transition(Created, Starting);
      pc := if ok then InStart(NewGroup) else StartFailed;
      CommitStart(ToStarting, true, s);
    }

    lemma NothingStarted()
      requires Valid() && pc == InStart(ToStarting)
      ensures state == Created
    {
      Reachable(cfg, born, log);
    }

    /** Leave Start with an error: close the group and force the state to Done. */
    method Fail()
      requires Valid() && pc == InStart(Abort) && started
      modifies this`state, this`hist, this`groupOpen, this`pc
      modifies this`reaper, this`procErr, this`ctxDone, this`now, this`poll, this`log, pipes
      ensures Valid() && pc == StartFailed
      ensures old(log) <= log
    {
      hide After;
      Interfere();
      ghost var s := View();
      groupOpen := false;
      ForceTransition(Done);
      pc := StartFailed;
      CommitStart(Abort, true, s);
    }

    method OpenGroup(answer: bool) returns (ok: bool)
      requires Valid() && pc == InStart(NewGroup) && started
      modifies this`groupOpen, this`pc
      modifies this`reaper, this`procErr, this`ctxDone, this`now, this`poll, this`log, pipes
      ensures Valid() && pc == InStart(if ok then Setup else Abort)
      ensures ok == answer
      ensures now >= old(now)
      ensures old(log) <= log
    {
      hide After;
      Interfere();
      ghost var s := View();
      ok := answer;
      groupOpen, pc := groupOpen || ok, InStart(if ok then Setup else Abort);
      CommitStart(NewGroup, ok, s);
    }

    method SetUpGroup(answer: bool) returns (ok: bool)
      requires Valid() && pc == InStart(Setup) && started
      modifies this`pc
      modifies this`reaper, this`procErr, this`ctxDone, this`now, this`poll, this`log, pipes
      ensures Valid() && pc == InStart(if ok then StdoutPipe else Abort)
      ensures ok == answer
      ensures now >= old(now)
      ensures old(log) <= log
    {
      hide After;
      Interfere();
      ghost var s := View();
      ok := answer;
      pc := InStart(if ok then StdoutPipe else Abort);
      CommitStart(Setup, ok, s);
    }

    /** Capture one output stream, if an output is set for it. */
    method OpenPipe(isErr: bool, created: bool) returns (ok: bool)
      requires Valid() && pc == InStart(if isErr then StderrPipe else StdoutPipe) && started
      requires captured == (stdout, stderr)
      modifies this`pc
      modifies this`reaper, this`procErr, this`ctxDone, this`now, this`poll, this`log, pipes
      ensures Valid() && pc == InStart(if !ok then Abort else if isErr then Spawn else StderrPipe)
      ensures ok <==> ((if isErr then stderr else stdout) ==> created)
      ensures now >= old(now)
      ensures old(log) <= log
    {
      hide After;
      Interfere();
      ghost var s := View();
      var wanted := if isErr then stderr else stdout;
      ok := created || !wanted;
      if wanted && created {
        pipes.StartCopy();
      }
      pc := InStart(if !ok then Abort else if isErr then Spawn else StderrPipe);
      CommitStart(if isErr then StderrPipe else StdoutPipe, created, s);
    }

    /** Start the process and activate its group. */
    method SpawnChild(k: StartAnswers) returns (ok: bool)
      requires Valid() && pc == InStart(Spawn) && started
      modifies this`startTime, this`pc
      modifies this`reaper, this`procErr, this`ctxDone, this`now, this`poll, this`log, pipes
      ensures Valid() && pc == InStart(if ok then ToRunning else Abort)
      ensures (ok <==> k.spawn && k.activate) && old(now) <= startTime <= now
      ensures old(log) <= log
    {
      hide *;
      ok := StartProcess(k.spawn);
      if !ok { return; }
      ok := ActivateGroup(k.activate);
    }

    method StartProcess(answer: bool) returns (ok: bool)
      requires Valid() && pc == InStart(Spawn) && started
      modifies this`startTime, this`pc
      modifies this`reaper, this`procErr, this`ctxDone, this`now, this`poll, this`log, pipes
      ensures Valid() && pc == InStart(if ok then Activate else Abort)
      ensures ok == answer && old(now) <= startTime <= now
      ensures now >= old(now)
      ensures old(log) <= log
    {
      hide After;
      Interfere();
      ghost var s := View();
      ok := answer;
      startTime, pc := now, InStart(if ok then Activate else Abort);
      CommitStart(Spawn, ok, s);
    }

    method ActivateGroup(answer: bool) returns (ok: bool)
      requires Valid() && pc == InStart(Activate) && started
      modifies this`pc
      modifies this`reaper, this`procErr, this`ctxDone, this`now, this`poll, this`log, pipes
      ensures Valid() && pc == InStart(if ok then ToRunning else Abort)
      ensures ok == answer
      ensures now >= old(now)
      ensures old(log) <= log
    {
      hide After;
      Interfere();
      ghost var s := View();
      ok := answer;
      pc := InStart(if ok then ToRunning else Abort);
      CommitStart(Activate, ok, s);
    }

    method MoveToRunning()
      requires Valid() && pc == InStart(ToRunning) && started
      modifies this`state, this`hist, this`pc
      modifies this`reaper, this`procErr, this`ctxDone, this`now, this`poll, this`log, pipes
      ensures Valid() && pc == InStart(Launch)
      ensures now >= old(now)
      ensures old(log) <= log
    {
      hide After;
      Interfere();
      ghost var s := View();
      var moved := Transition(Starting, Running);
      pc := InStart(Launch);
      CommitStart(ToRunning, true, s);
    }

    method LaunchGoroutines()
      requires Valid() && pc == InStart(Launch) && started
      modifies this`pc
      modifies this`reaper, this`procErr, this`ctxDone, this`now, this`poll, this`log, pipes
      ensures Valid() && pc == Idle
      ensures reaper == Waiting && (poll.poller == Looping <==> cfg.polled)
      ensures now >= old(now)
      ensures old(log) <= log
    {
      hide After;
      Interfere();
      ghost var s := View();
      reaper, pc := Waiting, Idle;
      poll := poll.(poller := if cfg.polled then Looping else Off);
      CommitStart(Launch, true, s);
    }

    // ----------------------------------------------------------------------------------------
    // Wait
    // ----------------------------------------------------------------------------------------

    /** Wait, after a successful Start. A call after the first is turned away. When it returns,
        result, history and signals agree, every copier has ended, and every captured output holds
        its whole stream unless its copier recorded an error. */
    method Wait(k: WaitAnswers) returns (r: Option<Result>)
      requires Valid() && started && pc != StartFailed && !pc.InStart? && pc != NotStarted
      modifies this, pipes
      ensures Valid() && captured == old(captured) && stdout == old(stdout) && stderr == old(stderr)
      ensures old(waited) ==> r == Some(TURNED_AWAY) && View() == old(View())
      ensures old(waited) ==> r.value.exitCode == -1 && r.value.error == Some(AlreadyStarted)
      ensures r == None ==> Stuck(View())
      ensures !old(waited) && r.Some? ==>
                && pc == Returned && outcome == r && state == Done && !groupOpen
                && Agreement(cfg.grace, r.value, hist, Kinds(sent))
                && Pipes.AllEnded(pipes.View()) && Pipes.Complete(pipes.View())
                && OnTime() && (r.value.cancelled ==> ctxDone)
                && r.value.duration == now - startTime && startTime == old(startTime)
      ensures !old(waited) && r.Some? ==>
                r.value.pids ==
                if r.value.forceKilled && cfg.grace > 0 && Listed(k.refresh) != [] then Listed(k.refresh)
                else if r.value.cancelled && Listed(k.snapshot) != [] then Listed(k.snapshot)
                else Listed(k.alive)
      ensures !old(waited) && r.Some? && r.value.cancelled && cfg.grace > 0 && !k.found ==> r.value.graceful
      ensures old(log) <= log
    {
      hide *;
      if waited {
        var refusal := RefuseWait();
        return Some(refusal);
      }
      IdleBeforeWait();
      NothingTracked();
      ClaimWait();
      r := WaitOnce(k);
      if r.Some? {
        ReturnedAgrees();
      }
    }

    method RefuseWait() returns (refusal: Result)
      requires Valid() && waited && started && pc != StartFailed && !pc.InStart? && pc != NotStarted
      modifies this`log
      ensures Valid() && View() == old(View())
      ensures refusal == TURNED_AWAY && refusal.exitCode == -1 && refusal.error == Some(AlreadyStarted)
      ensures old(log) <= log
    {
      Commit(CallWait, View());
      refusal := TURNED_AWAY;
    }

    method WaitOnce(k: WaitAnswers) returns (r: Option<Result>)
      requires Valid() && pc == Select && started && trackedPIDs == []
      modifies this`state, this`hist, this`groupOpen, this`trackedPIDs
      modifies this`sent, this`timer, this`outcome, this`notes, this`pc
      modifies this`reaper, this`procErr, this`ctxDone, this`now, this`poll, this`log, pipes
      ensures Valid()
      ensures r.Some? ==> pc == Returned && outcome == r
      ensures r.Some? ==> r.value.duration == now - startTime
      ensures r.Some? ==>
                r.value.pids ==
                if r.value.forceKilled && cfg.grace > 0 && Listed(k.refresh) != [] then Listed(k.refresh)
                else if r.value.cancelled && Listed(k.snapshot) != [] then Listed(k.snapshot)
                else Listed(k.alive)
      ensures r.Some? && r.value.cancelled && cfg.grace > 0 && !k.found ==> r.value.graceful
      ensures r == None ==> Stuck(View())
      ensures old(log) <= log
    {
      hide *;
      r := RunLifecycle(k);
      if r == None { return; }
      var drained := WaitForPipes();
      if !drained { return None; }
      CloseTheGroup();
      var result := Finish(r.value);
      r := Some(result);
    }

    /** The history and the signals are those of the result's verdict, a full grace period lies between
        the graceful signal and terminate, and the verdict is one of the three. */
    ghost predicate Accounts(r: Result)
      reads this
    {
      && Verdict(r.cancelled, r.graceful, r.forceKilled)
      && hist == Visited(cfg.grace, r.cancelled, r.forceKilled)
      && Records(sent, SignalsOf(cfg.grace, r.cancelled, r.forceKilled))
      && (|sent| == 2 ==> sent[1].at >= sent[0].at + cfg.grace)
    }

    /** A result for a child that had not been reaped, or after the kill deadline, was built five seconds
        after terminate or later. */
    ghost predicate OnTime()
      reads this
    {
      !notes.reapedAtBuild || notes.deadlineHit ==>
        sent != [] && notes.builtAt >= sent[|sent| - 1].at + 5_000_000_000
    }

    lemma NothingTracked()
      requires Valid() && pc == Idle
      ensures trackedPIDs == []
    {
      RunnerHistory.RunIsRecorded(cfg, born, log);
    }

    lemma IdleBeforeWait()
      requires Valid() && !waited && started && pc != StartFailed && !pc.InStart? && pc != NotStarted
      ensures pc == Idle
    {
      Reachable(cfg, born, log);
    }

    lemma BuiltAccounts(r: Result)
      requires Valid() && pc == Cleanup(PipeWait) && outcome == Some(r)
      ensures Accounts(r) && OnTime() && (r.cancelled ==> ctxDone)
    {
      hide Step;
      Reachable(cfg, born, log);
      RunnerDeadlines.RunIsDue(cfg, born, log);
      RunnerDeadlines.UnreapedResultWaitsForTheDeadline(cfg, born, log);
    }

    lemma ReturnedAgrees()
      requires Valid() && pc == Returned
      ensures outcome.Some? && state == Done && !groupOpen
      ensures Agreement(cfg.grace, outcome.value, hist, Kinds(sent))
      ensures OnTime() && (outcome.value.cancelled ==> ctxDone)
      ensures Pipes.AllEnded(pipes.View()) && Pipes.Complete(pipes.View())
    {
      EveryRunFollowsTheTable(cfg, born, log);
      Reachable(cfg, born, log);
      Pipes.EndedIsComplete(pipes.View());
      RunnerDeadlines.RunIsDue(cfg, born, log);
      RunnerDeadlines.UnreapedResultWaitsForTheDeadline(cfg, born, log);
    }

    method ClaimWait()
      requires Valid() && !waited && started && pc != StartFailed && !pc.InStart? && pc != NotStarted
      modifies this`waited, this`pc, this`log
      ensures Valid() && waited && pc == Select
      ensures old(log) <= log
    {
      ghost var s := View();
      waited, pc := true, Select;
      Commit(CallWait, s);
    }

    method RunLifecycle(k: WaitAnswers) returns (r: Option<Result>)
      requires Valid() && pc == Select && started && trackedPIDs == []
      modifies this`state, this`hist, this`trackedPIDs, this`sent, this`timer, this`outcome, this`notes, this`pc
      modifies this`reaper, this`procErr, this`ctxDone, this`now, this`poll, this`log, pipes
      ensures Valid()
      ensures r.Some? ==> pc == Cleanup(PipeWait) && outcome == r
      ensures r.Some? ==> Accounts(r.value) && OnTime() && (r.value.cancelled ==> ctxDone)
      ensures r.Some? ==>
                r.value.pids ==
                if r.value.forceKilled && cfg.grace > 0 && Listed(k.refresh) != [] then Listed(k.refresh)
                else if r.value.cancelled && Listed(k.snapshot) != [] then Listed(k.snapshot)
                else Listed(k.alive)
      ensures r.Some? && r.value.cancelled && cfg.grace > 0 && !k.found ==> r.value.graceful
      ensures r == None ==> Stuck(View())
      ensures old(log) <= log
    {
      hide *;
      var exited := AwaitExitOrCancel();
      if exited == None { return None; }
      if exited.value {
        r := ReturnResult(k.alive, false, false, false);
      } else {
        r := ShutdownSequence(k);
      }
      if r.Some? { BuiltAccounts(r.value); }
    }

    /** The select of runLifecycle: `Some(true)` if it takes the branch of the child's exit. */
    method AwaitExitOrCancel() returns (exited: Option<bool>)
      requires Valid() && pc == Select && started
      modifies this`notes, this`pc
      modifies this`reaper, this`procErr, this`ctxDone, this`now, this`poll, this`log, pipes
      ensures Valid()
      ensures exited.Some? ==> pc == if exited.value then Build(false, false, false) else Snapshot
      ensures exited == None ==> pc == Select && reaper != Closed && !ctxDone && Stuck(View())
      ensures old(log) <= log
    {
      hide After;
      Interfere();
      ghost var s := View();
      var first: bool := *;
      if reaper == Closed && (first || !ctxDone) {
        pc := Build(false, false, false);
        CommitSelect(true, s);
        return Some(true);
      } else if ctxDone {
        notes, pc := notes.(cancelAt := now), Snapshot;
        CommitSelect(false, s);
        return Some(false);
      } else {
        return None;
      }
    }

    method SnapshotPIDs(alive: Option<seq<int>>)
      requires Valid() && pc == Snapshot && started
      modifies this`trackedPIDs, this`pc
      modifies this`reaper, this`procErr, this`ctxDone, this`now, this`poll, this`log, pipes
      ensures Valid() && pc == if cfg.grace <= 0 then Hard(ZeroKill) else Soft(ToStopping)
      ensures trackedPIDs == Listed(alive)
      ensures old(log) <= log
    {
      hide After;
      Interfere();
      ghost var s := View();
      trackedPIDs, pc := Listed(alive), if cfg.grace <= 0 then Hard(ZeroKill) else Soft(ToStopping);
      Commit(Main(true, alive), s);
    }

    method ShutdownSequence(k: WaitAnswers) returns (r: Option<Result>)
      requires Valid() && pc == Snapshot && started
      modifies this`state, this`hist, this`trackedPIDs, this`sent, this`timer, this`outcome, this`notes, this`pc
      modifies this`reaper, this`procErr, this`ctxDone, this`now, this`poll, this`log, pipes
      ensures Valid()
      ensures r.Some? ==> pc == Cleanup(PipeWait) && outcome == r
      ensures r.Some? ==> r.value.cancelled && Accounts(r.value) && OnTime() && ctxDone
      ensures r.Some? ==>
                r.value.pids ==
                if r.value.forceKilled && cfg.grace > 0 && Listed(k.refresh) != [] then Listed(k.refresh)
                else if r.value.cancelled && Listed(k.snapshot) != [] then Listed(k.snapshot)
                else Listed(k.alive)
      ensures r.Some? && r.value.cancelled && cfg.grace > 0 && !k.found ==> r.value.graceful
      ensures r == None ==> Stuck(View())
      ensures old(log) <= log
    {
      hide *;
      SnapshotPIDs(k.snapshot);
      if cfg.grace <= 0 {
        SkipToKill();
        r := Kill(k.alive);
        if r.Some? { BuiltAccounts(r.value); }
        return;
      }
      MoveToStopping();
      SendGraceful(k.found);
      if !k.found {
        r := AwaitChild(k.alive);
        if r.Some? { BuiltAccounts(r.value); }
        return;
      }
      ArmGraceTimer();
      r := GraceOrKill(k);
      if r.Some? { BuiltAccounts(r.value); }
    }

    /** The grace period, and the escalation that follows if the child outlives it. */
    method GraceOrKill(k: WaitAnswers) returns (r: Option<Result>)
      requires Valid() && pc == Soft(GraceWait) && started
      modifies this`state, this`hist, this`trackedPIDs, this`sent, this`timer, this`outcome, this`notes, this`pc
      modifies this`reaper, this`procErr, this`ctxDone, this`now, this`poll, this`log, pipes
      ensures Valid()
      ensures r.Some? ==> pc == Cleanup(PipeWait) && outcome == r
      ensures r.Some? ==> r.value.cancelled
      ensures r.Some? ==>
                r.value.pids ==
                if r.value.forceKilled && Listed(k.refresh) != [] then Listed(k.refresh)
                else if old(trackedPIDs) != [] then old(trackedPIDs) else Listed(k.alive)
      ensures r == None ==> Stuck(View())
      ensures old(log) <= log
    {
      hide *;
      var exited := AwaitGrace();
      if exited == None { return None; }
      if exited.value {
        r := ReturnResult(k.alive, true, true, false);
        return;
      }
      RefreshPIDs(k.refresh);
      MoveToKilling();
      r := Kill(k.alive);
    }

    /** No grace period: the transition to Killing, which the table refuses. */
    method SkipToKill()
      requires Valid() && pc == Hard(ZeroKill) && started
      modifies this`state, this`hist, this`pc
      modifies this`reaper, this`procErr, this`ctxDone, this`now, this`poll, this`log, pipes
      ensures Valid() && pc == Hard(TerminateGroup)
      ensures old(log) <= log
    {
      hide After;
      Interfere();
      ghost var s := View();
      var moved := Transition(Running, Killing);
      pc := Hard(TerminateGroup);
      CommitHard(ZeroKill, true, None, s);
    }

    method MoveToStopping()
      requires Valid() && pc == Soft(ToStopping) && started
      modifies this`state, this`hist, this`pc
      modifies this`reaper, this`procErr, this`ctxDone, this`now, this`poll, this`log, pipes
      ensures Valid() && pc == Soft(SignalGroup)
      ensures old(log) <= log
    {
      hide After;
      Interfere();
      ghost var s := View();
      var moved := Transition(Running, Stopping);
      pc := Soft(SignalGroup);
      CommitSoft(ToStopping, true, s);
    }

    /** The graceful signal; `found` is false if it returned os.ErrProcessDone. */
    method SendGraceful(found: bool)
      requires Valid() && pc == Soft(SignalGroup) && started
      modifies this`sent, this`notes, this`pc
      modifies this`reaper, this`procErr, this`ctxDone, this`now, this`poll, this`log, pipes
      ensures Valid() && pc == if found then Soft(ArmGrace) else Soft(AwaitExit)
      ensures old(log) <= log
    {
      hide After;
      Interfere();
      ghost var s := View();
      sent, notes := sent + [Sent(Graceful, now)], notes.(gone := !found);
      pc := if found then Soft(ArmGrace) else Soft(AwaitExit);
      CommitSoft(SignalGroup, found, s);
    }

    /** The race between exit and cancellation: wait for the child without a deadline. */
    method AwaitChild(alive: Option<seq<int>>) returns (r: Option<Result>)
      requires Valid() && pc == Soft(AwaitExit) && started
      modifies this`outcome, this`timer, this`notes, this`pc
      modifies this`reaper, this`procErr, this`ctxDone, this`now, this`poll, this`log, pipes
      ensures Valid()
      ensures r.Some? ==> pc == Cleanup(PipeWait) && outcome == r
      ensures r.Some? ==> r.value.cancelled && r.value.graceful && !r.value.forceKilled
      ensures r.Some? ==> r.value.pids == if old(trackedPIDs) != [] then old(trackedPIDs) else Listed(alive)
      ensures r == None ==> Stuck(View())
      ensures old(log) <= log
    {
      hide *;
      var exited := AwaitReaper();
      if !exited { return None; }
      r := ReturnResult(alive, true, true, false);
    }

    method AwaitReaper() returns (exited: bool)
      requires Valid() && pc == Soft(AwaitExit) && started
      modifies this`pc
      modifies this`reaper, this`procErr, this`ctxDone, this`now, this`poll, this`log, pipes
      ensures Valid() && (exited ==> pc == Build(true, true, false))
      ensures !exited ==> pc == Soft(AwaitExit) && reaper != Closed && Stuck(View())
      ensures old(log) <= log
    {
      hide After;
      Interfere();
      ghost var s := View();
      exited := reaper == Closed;
      if exited {
        pc := Build(true, true, false);
        CommitSoft(AwaitExit, true, s);
      }
    }

    method ArmGraceTimer()
      requires Valid() && pc == Soft(ArmGrace) && started
      modifies this`timer, this`pc
      modifies this`reaper, this`procErr, this`ctxDone, this`now, this`poll, this`log, pipes
      ensures Valid() && pc == Soft(GraceWait)
      ensures old(log) <= log
    {
      hide After;
      Interfere();
      ghost var s := View();
      timer, pc := now + cfg.grace, Soft(GraceWait);
      CommitSoft(ArmGrace, true, s);
    }

    /** Wait for the child or the end of the grace period: `Some(true)` if the child came first. */
    method AwaitGrace() returns (exited: Option<bool>)
      requires Valid() && pc == Soft(GraceWait) && started
      modifies this`pc
      modifies this`reaper, this`procErr, this`ctxDone, this`now, this`poll, this`log, pipes
      ensures Valid()
      ensures exited.Some? ==> pc == if exited.value then Build(true, true, false) else Hard(Refresh)
      ensures exited == None ==> pc == Soft(GraceWait) && reaper != Closed && now < timer && Stuck(View())
      ensures old(log) <= log
    {
      hide After;
      Interfere();
      ghost var s := View();
      var first: bool := *;
      if reaper == Closed && (first || now < timer) {
        pc := Build(true, true, false);
        CommitSoft(GraceWait, true, s);
        return Some(true);
      } else if now >= timer {
        pc := Hard(Refresh);
        CommitSoft(GraceWait, false, s);
        return Some(false);
      } else {
        return None;
      }
    }

    /** The grace period expired: refresh the PIDs. */
    method RefreshPIDs(alive: Option<seq<int>>)
      requires Valid() && pc == Hard(Refresh) && started
      modifies this`trackedPIDs, this`pc
      modifies this`reaper, this`procErr, this`ctxDone, this`now, this`poll, this`log, pipes
      ensures Valid() && pc == Hard(ToKilling)
      ensures trackedPIDs == if Listed(alive) != [] then Listed(alive) else old(trackedPIDs)
      ensures old(log) <= log
    {
      hide After;
      Interfere();
      ghost var s := View();
      var live := Listed(alive);
      if live != [] {
        trackedPIDs := live;
      }
      pc := Hard(ToKilling);
      CommitHard(Refresh, true, alive, s);
    }

    method MoveToKilling()
      requires Valid() && pc == Hard(ToKilling) && started
      modifies this`state, this`hist, this`pc
      modifies this`reaper, this`procErr, this`ctxDone, this`now, this`poll, this`log, pipes
      ensures Valid() && pc == Hard(TerminateGroup)
      ensures old(log) <= log
    {
      hide After;
      Interfere();
      ghost var s := View();
      var moved := Transition(Stopping, Killing);
      pc := Hard(TerminateGroup);
      CommitHard(ToKilling, true, None, s);
    }

    method SendTerminate()
      requires Valid() && pc == Hard(TerminateGroup) && started
      modifies this`sent, this`pc
      modifies this`reaper, this`procErr, this`ctxDone, this`now, this`poll, this`log, pipes
      ensures Valid() && pc == Hard(ArmKill)
      ensures old(log) <= log
    {
      hide After;
      Interfere();
      ghost var s := View();
      sent, pc := sent + [Sent(Terminate, now)], Hard(ArmKill);
      CommitHard(TerminateGroup, true, None, s);
    }

    method ArmKillDeadline()
      requires Valid() && pc == Hard(ArmKill) && started
      modifies this`timer, this`pc
      modifies this`reaper, this`procErr, this`ctxDone, this`now, this`poll, this`log, pipes
      ensures Valid() && pc == Hard(KillWait)
      ensures timer >= old(now) + 5_000_000_000
      ensures old(log) <= log
    {
      hide After;
      Interfere();
      ghost var s := View();
      timer, pc := now + KILL_DEADLINE, Hard(KillWait);
      CommitHard(ArmKill, true, None, s);
    }

    /** terminate, and wait for the child, but no longer than the kill deadline. */
    method Kill(alive: Option<seq<int>>) returns (r: Option<Result>)
      requires Valid() && pc == Hard(TerminateGroup) && started
      modifies this`sent, this`timer, this`outcome, this`notes, this`pc
      modifies this`reaper, this`procErr, this`ctxDone, this`now, this`poll, this`log, pipes
      ensures Valid()
      ensures r.Some? ==> pc == Cleanup(PipeWait) && outcome == r
      ensures r.Some? ==> r.value.cancelled && r.value.forceKilled
      ensures r.Some? ==> r.value.pids == if old(trackedPIDs) != [] then old(trackedPIDs) else Listed(alive)
      ensures r == None ==> Stuck(View())
      ensures old(log) <= log
    {
      hide *;
      SendTerminate();
      ArmKillDeadline();
      var over := AwaitKillDeadline();
      if !over { return None; }
      r := ReturnResult(alive, true, false, true);
    }

    method AwaitKillDeadline() returns (over: bool)
      requires Valid() && pc == Hard(KillWait) && started
      modifies this`notes, this`pc
      modifies this`reaper, this`procErr, this`ctxDone, this`now, this`poll, this`log, pipes
      ensures Valid() && (over ==> pc == Build(true, false, true))
      ensures !over ==> pc == Hard(KillWait) && reaper != Closed && now < timer && Stuck(View())
      ensures old(log) <= log
    {
      hide *;
      var exited := AwaitKilled();
      if exited == None { return false; }
      if !exited.value {
        CloseStuckPipes();
      }
      return true;
    }

    /** The select after terminate: `Some(true)` if the child came before the kill deadline. */
    method AwaitKilled() returns (exited: Option<bool>)
      requires Valid() && pc == Hard(KillWait) && started
      modifies this`notes, this`pc
      modifies this`reaper, this`procErr, this`ctxDone, this`now, this`poll, this`log, pipes
      ensures Valid()
      ensures exited.Some? ==> pc == if exited.value then Build(true, false, true) else Hard(CloseAtDeadline)
      ensures exited == None ==> pc == Hard(KillWait) && reaper != Closed && now < timer && Stuck(View())
      ensures old(log) <= log
    {
      hide After;
      Interfere();
      ghost var s := View();
      var first: bool := *;
      if reaper == Closed && (first || now < timer) {
        pc := Build(true, false, true);
        CommitHard(KillWait, true, None, s);
        return Some(true);
      } else if now >= timer {
        notes, pc := notes.(deadlineHit := true), Hard(CloseAtDeadline);
        CommitHard(KillWait, false, None, s);
        return Some(false);
      } else {
        return None;
      }
    }

    method CloseStuckPipes()
      requires Valid() && pc == Hard(CloseAtDeadline) && started
      modifies this`pc
      modifies this`reaper, this`procErr, this`ctxDone, this`now, this`poll, this`log, pipes
      ensures Valid() && pc == Build(true, false, true)
      ensures old(log) <= log
    {
      hide After;
      Interfere();
      ghost var s := View();
      pipes.ForceClose();
      pc := Build(true, false, true);
      CommitHard(CloseAtDeadline, true, None, s);
    }

    /** pipes.wait, statement by statement, so that the other parties act in between; what it does with
        the copiers alone is PipeManager.Wait. False if it is blocked. */
    method WaitForPipes() returns (drained: bool)
      requires Valid() && pc == Cleanup(PipeWait) && started
      modifies this`notes, this`pc
      modifies this`reaper, this`procErr, this`ctxDone, this`now, this`poll, this`log, pipes
      ensures Valid() && (drained ==> pc == Cleanup(CloseGroup))
      ensures !drained ==> pipes.wg != 0 && Stuck(View())
      ensures old(log) <= log
    {
      hide *;
      var inTime := AwaitCopiers();
      if inTime == None { return false; }
      if inTime.value { return true; }
      drained := DrainPipes();
    }

    /** The select of pipes.wait: `Some(true)` if the copiers ended before the timeout. */
    method AwaitCopiers() returns (inTime: Option<bool>)
      requires Valid() && pc == Cleanup(PipeWait) && started
      modifies this`notes, this`pc
      modifies this`reaper, this`procErr, this`ctxDone, this`now, this`poll, this`log, pipes
      ensures Valid()
      ensures inTime.Some? ==> pc == Cleanup(if inTime.value then CloseGroup else PipeForceClose)
      ensures inTime == None ==> pc == Cleanup(PipeWait) && pipes.wg != 0 && now < timer && Stuck(View())
      ensures old(log) <= log
    {
      hide After;
      Interfere();
      ghost var s := View();
      var first: bool := *;
      if pipes.wg == 0 && (first || now < timer) {
        notes, pc := notes.(drainAt := now, ioExpired := false), Cleanup(CloseGroup);
        CommitClean(PipeWait, true, s);
        return Some(true);
      } else if now >= timer {
        notes, pc := notes.(drainAt := now, ioExpired := true), Cleanup(PipeForceClose);
        CommitClean(PipeWait, false, s);
        return Some(false);
      } else {
        return None;
      }
    }

    method DrainPipes() returns (drained: bool)
      requires Valid() && pc == Cleanup(PipeForceClose) && started
      modifies this`pc
      modifies this`reaper, this`procErr, this`ctxDone, this`now, this`poll, this`log, pipes
      ensures Valid() && (drained ==> pc == Cleanup(CloseGroup))
      ensures !drained ==> pipes.wg != 0 && Stuck(View())
      ensures old(log) <= log
    {
      hide *;
      ForceClosePipes();
      drained := AwaitDrain();
    }

    method ForceClosePipes()
      requires Valid() && pc == Cleanup(PipeForceClose) && started
      modifies this`pc
      modifies this`reaper, this`procErr, this`ctxDone, this`now, this`poll, this`log, pipes
      ensures Valid() && pc == Cleanup(PipeDrain)
      ensures old(log) <= log
    {
      hide After;
      Interfere();
      ghost var s := View();
      pipes.ForceClose();
      pc := Cleanup(PipeDrain);
      CommitClean(PipeForceClose, true, s);
    }

    method AwaitDrain() returns (drained: bool)
      requires Valid() && pc == Cleanup(PipeDrain) && started
      modifies this`pc
      modifies this`reaper, this`procErr, this`ctxDone, this`now, this`poll, this`log, pipes
      ensures Valid() && (drained ==> pc == Cleanup(CloseGroup))
      ensures !drained ==> pipes.wg != 0 && Stuck(View())
      ensures old(log) <= log
    {
      hide After;
      Interfere();
      ghost var s := View();
      drained := pipes.wg == 0;
      if drained {
        pc := Cleanup(CloseGroup);
        CommitClean(PipeDrain, true, s);
      }
    }

    method CloseTheGroup()
      requires Valid() && pc == Cleanup(CloseGroup) && started
      modifies this`groupOpen, this`pc
      modifies this`reaper, this`procErr, this`ctxDone, this`now, this`poll, this`log, pipes
      ensures Valid() && pc == Cleanup(ToDone)
      ensures old(log) <= log
    {
      hide After;
      Interfere();
      ghost var s := View();
      groupOpen, pc := false, Cleanup(ToDone);
      CommitClean(CloseGroup, true, s);
    }

    /** Reach Done whatever the state, and stamp the duration. */
    method Finish(built: Result) returns (result: Result)
      requires Valid() && pc == Cleanup(ToDone) && started && outcome == Some(built)
      modifies this`state, this`hist, this`outcome, this`pc
      modifies this`reaper, this`procErr, this`ctxDone, this`now, this`poll, this`log, pipes
      ensures Valid() && pc == Returned && outcome == Some(result)
      ensures result == built.(duration := now - startTime)
      ensures old(log) <= log
    {
      hide After;
      Interfere();
      ghost var s := View();
      ForceTransition(Done);
      result := built.(duration := now - startTime);
      outcome, pc := Some(result), Returned;
      CommitClean(ToDone, true, s);
    }

    // ----------------------------------------------------------------------------------------
    // Run and CombinedOutput
    // ----------------------------------------------------------------------------------------

    /** CombinedOutput on a runner that was not started. It refuses if an output is set; otherwise,
        when it returns, its buffer is an order-preserving interleaving of a prefix of stdout and a
        prefix of stderr, whole where the copier recorded no error, and final: whatever the others
        still do, the buffer stays as returned. */
    method CombinedOutput(start: StartAnswers, wait: WaitAnswers)
      returns (output: Option<seq<byte>>, r: Option<Result>)
      requires Valid() && pc == NotStarted && !waited && !started
      modifies this, pipes
      ensures Valid()
      ensures old(stdout || stderr) ==> output == None && r == None && View() == old(View())
      ensures !old(stdout || stderr) && output == None ==> r == None && (pc == StartFailed || Stuck(View()))
      ensures pc == StartFailed ==>
                !(start.group && start.setup && start.outPipe && start.errPipe && start.spawn && start.activate)
      ensures output.Some? ==>
                && r.Some? && outcome == r && pc == Returned && output.value == Pipes.Buffer(pipes.out)
                && |pipes.pipes| == 2
                && (exists a, b ::
                      && a <= pipes.pipes[0].source && b <= pipes.pipes[1].source
                      && Pipes.Interleaving(output.value, a, b)
                      && (0 !in pipes.errors ==> pipes.pipes[0].eof && a == pipes.pipes[0].source)
                      && (1 !in pipes.errors ==> pipes.pipes[1].eof && b == pipes.pipes[1].source))
                && (forall es :: Exec(Step, View(), es).Some? ==>
                      Pipes.Buffer(Exec(Step, View(), es).value.io.out) == output.value)
      ensures old(log) <= log
    {
      if stdout || stderr {
        return None, None;
      }
      hide *;
      AttachBuffer();
      var ok := Start(start);
      if !ok {
        return None, None;
      }
      r := Wait(wait);
      if r == None {
        return None, None;
      }
      output := Some(Pipes.Buffer(pipes.out));
      OutputIsFinal(output.value);
    }

    method AttachBuffer()
      requires Valid() && !started
      modifies this`stdout, this`stderr, this`captured, this`log
      ensures Valid() && stdout && stderr && captured == (true, true)
      ensures old(log) <= log
    {
      ghost var s := View();
      stdout, stderr, captured := true, true, (true, true);
      Commit(Attach(true, true), s);
    }

    lemma OutputIsFinal(output: seq<byte>)
      requires Valid() && pc == Returned && captured == (true, true) && output == Pipes.Buffer(pipes.out)
      ensures |pipes.pipes| == 2
      ensures exists a, b ::
                && a <= pipes.pipes[0].source && b <= pipes.pipes[1].source
                && Pipes.Interleaving(output, a, b)
                && (0 !in pipes.errors ==> pipes.pipes[0].eof && a == pipes.pipes[0].source)
                && (1 !in pipes.errors ==> pipes.pipes[1].eof && b == pipes.pipes[1].source)
      ensures forall es :: Exec(Step, View(), es).Some? ==>
                Pipes.Buffer(Exec(Step, View(), es).value.io.out) == output
    {
      Reachable(cfg, born, log);
      ReturnedOutputInterleaves(View());
      forall es | Exec(Step, View(), es).Some?
        ensures Pipes.Buffer(Exec(Step, View(), es).value.io.out) == output
      {
        NothingHappensAfterReturn(View(), es);
      }
    }
  }
}
