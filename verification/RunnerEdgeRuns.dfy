/**
 Two families of runs at the edge of the shutdown guarantees, for every configuration: a force-killed
 command that reports success, and a cancelled one whose result comes arbitrarily late. Both keep to
 the urgent clock, so neither is the fault of a timer served late.
 */
module RunnerEdgeRuns {
  import opened Common
  import opened Executions
  import opened Lifecycle
  import opened RunnerSystem
  import Pipes

  function Urgently(cfg: Config, es: seq<Event>): Option<Sys> {
    Exec(UrgentStep, Init(cfg, 0), es)
  }

  lemma Then(cfg: Config, es: seq<Event>, s: Sys, e: Event) returns (es': seq<Event>, s': Sys)
    requires Urgently(cfg, es) == Some(s) && UrgentStep(s, e).Some?
    ensures Urgently(cfg, es') == Some(s') && Step(s, e) == Some(s')
  {
    ExecSnoc(UrgentStep, Init(cfg, 0), es, e);
    es', s' := es + [e], Step(s, e).value;
  }

  function StepsToIdle(pc: Pc): nat {
    if !pc.InStart? then 0
    else
      match pc.start
      case ToStarting => 9
      case NewGroup => 8
      case Setup => 7
      case StdoutPipe => 6
      case StderrPipe => 5
      case Spawn => 4
      case Activate => 3
      case ToRunning => 2
      case Launch => 1
      case Abort => 0
  }

  /** Nothing is captured, and the child has not been reaped. */
  ghost predicate Quiet(s: Sys, cfg: Config) {
    s.cfg == cfg && s.child == Child(Waiting, Clean) && s.io == Pipes.EMPTY
  }

  lemma StartedRun(cfg: Config) returns (es: seq<Event>, s: Sys)
    ensures Urgently(cfg, es) == Some(s) && Quiet(s, cfg) && s.pc == Idle && !s.waited && s.clock.now == 0
  {
    es, s := Then(cfg, [], Init(cfg, 0), CallStart);
    while s.pc != Idle
      invariant Urgently(cfg, es) == Some(s) && s.cfg == cfg
      invariant (s.pc.InStart? && s.pc.start != Abort) || s.pc == Idle
      invariant s.pc == InStart(ToStarting) ==> s.life.state == Created
      invariant !s.wantOut && !s.wantErr && !s.waited && s.io == Pipes.EMPTY && s.clock.now == 0
      invariant s.child == Child(if s.pc == Idle then Waiting else NotLaunched, Clean)
      decreases StepsToIdle(s.pc)
    {
      es, s := Then(cfg, es, s, Main(true, None));
    }
  }

  lemma CancelledRun(cfg: Config) returns (es: seq<Event>, s: Sys)
    ensures Urgently(cfg, es) == Some(s) && Quiet(s, cfg)
    ensures s.pc == Snapshot && s.clock.now == 0 && s.notes.cancelAt == 0
  {
    es, s := StartedRun(cfg);
    es, s := Then(cfg, es, s, CallWait);
    es, s := Then(cfg, es, s, Cancel);
    es, s := Then(cfg, es, s, Main(false, None));
  }

  // ------------------------------------------------------------------------------------------
  // The group does not end when it is terminated
  // ------------------------------------------------------------------------------------------

  lemma KilledAtOnce(cfg: Config) returns (es: seq<Event>, s: Sys)
    requires cfg.grace <= 0
    ensures Urgently(cfg, es) == Some(s) && Quiet(s, cfg) && s.pc == Hard(TerminateGroup)
  {
    es, s := CancelledRun(cfg);
    es, s := Then(cfg, es, s, Main(true, None));
    assert s.pc == Hard(ZeroKill);
    es, s := Then(cfg, es, s, Main(true, None));
  }

  lemma InGrace(cfg: Config) returns (es: seq<Event>, s: Sys)
    requires cfg.grace > 0
    ensures Urgently(cfg, es) == Some(s) && Quiet(s, cfg) && s.pc == Soft(SignalGroup)
    ensures s.clock.now == s.notes.cancelAt == 0
  {
    es, s := CancelledRun(cfg);
    es, s := Then(cfg, es, s, Main(true, None));
    assert s.pc == Soft(ToStopping);
    es, s := Then(cfg, es, s, Main(true, None));
  }

  lemma GraceExpired(cfg: Config) returns (es: seq<Event>, s: Sys)
    requires cfg.grace > 0
    ensures Urgently(cfg, es) == Some(s) && Quiet(s, cfg) && s.pc == Hard(Refresh)
  {
    es, s := InGrace(cfg);
    es, s := Then(cfg, es, s, Main(true, None));
    assert s.pc == Soft(ArmGrace);
    es, s := Then(cfg, es, s, Main(true, None));
    assert s.pc == Soft(GraceWait);
    es, s := Then(cfg, es, s, Tick(cfg.grace));
    es, s := Then(cfg, es, s, Main(false, None));
  }

  lemma KilledAfterGrace(cfg: Config) returns (es: seq<Event>, s: Sys)
    requires cfg.grace > 0
    ensures Urgently(cfg, es) == Some(s) && Quiet(s, cfg) && s.pc == Hard(TerminateGroup)
  {
    es, s := GraceExpired(cfg);
    es, s := Then(cfg, es, s, Main(true, None));
    assert s.pc == Hard(ToKilling);
    es, s := Then(cfg, es, s, Main(true, None));
  }

  lemma DeadlinePassed(cfg: Config) returns (es: seq<Event>, s: Sys)
    ensures Urgently(cfg, es) == Some(s) && Quiet(s, cfg) && s.pc == Hard(CloseAtDeadline)
  {
    if cfg.grace <= 0 {
      es, s := KilledAtOnce(cfg);
    } else {
      es, s := KilledAfterGrace(cfg);
    }
    es, s := Then(cfg, es, s, Main(true, None));
    assert s.pc == Hard(ArmKill);
    es, s := Then(cfg, es, s, Main(true, None));
    assert s.pc == Hard(KillWait);
    es, s := Then(cfg, es, s, Tick(KILL_DEADLINE));
    es, s := Then(cfg, es, s, Main(false, None));
  }

  lemma BuiltAfterDeadline(cfg: Config) returns (es: seq<Event>, s: Sys)
    ensures Urgently(cfg, es) == Some(s) && s.pc == Cleanup(PipeWait) && s.io.wg == 0 && s.result.Some?
    ensures s.result.value.forceKilled && s.result.value.exitCode == 0 && s.result.value.error == None
  {
    es, s := DeadlinePassed(cfg);
    es, s := Then(cfg, es, s, Main(true, None));
    assert s.pc == Build(true, false, true) && s.io.wg == 0 && s.child.procErr == Clean;
    es, s := Then(cfg, es, s, Main(true, None));
  }

  /** Whatever the configuration, there is a run in which the command is force-killed and Wait
      reports exit code 0 and no error. */
  lemma HungChildReportsSuccess(cfg: Config) returns (es: seq<Event>, s: Sys)
    ensures Urgently(cfg, es) == Some(s) && s.pc == Returned && s.result.Some?
    ensures s.result.value.forceKilled && s.result.value.exitCode == 0 && s.result.value.error == None
  {
    es, s := BuiltAfterDeadline(cfg);
    es, s := Then(cfg, es, s, Main(true, None));
    assert s.pc == Cleanup(CloseGroup);
    es, s := Then(cfg, es, s, Main(true, None));
    assert s.pc == Cleanup(ToDone);
    es, s := Then(cfg, es, s, Main(true, None));
  }

  // ------------------------------------------------------------------------------------------
  // The group is gone when it is signalled
  // ------------------------------------------------------------------------------------------

  lemma ReapedLate(cfg: Config, delay: nat) returns (es: seq<Event>, s: Sys)
    requires cfg.grace > 0
    ensures Urgently(cfg, es) == Some(s) && s.cfg == cfg && s.pc == Soft(AwaitExit) && s.child.reaper == Closed
    ensures s.notes.gone && s.notes.cancelAt == 0 && s.clock.now == delay
  {
    es, s := InGrace(cfg);
    es, s := Then(cfg, es, s, Main(false, None));
    assert s.pc == Soft(AwaitExit);
    es, s := Then(cfg, es, s, Tick(delay));
    es, s := Then(cfg, es, s, Reap(Clean));
    es, s := Then(cfg, es, s, CloseProcDone);
  }

  /** With any positive grace period, no bound at all holds once the graceful signal found the group
      gone: the result can come as late as the child is reaped. */
  lemma VanishedGroupHasNoDeadline(cfg: Config, delay: nat) returns (es: seq<Event>, s: Sys)
    requires cfg.grace > 0
    ensures Urgently(cfg, es) == Some(s) && s.result.Some? && s.result.value.cancelled && s.notes.gone
    ensures s.notes.builtAt == s.notes.cancelAt + delay
  {
    es, s := ReapedLate(cfg, delay);
    es, s := Then(cfg, es, s, Main(true, None));
    assert s.pc == Build(true, true, false);
    es, s := Then(cfg, es, s, Main(true, None));
  }
}
