/** What every interleaving of the runner protocol guarantees. */
module RunnerTheorems {
  import opened Common
  import opened Executions
  import opened Lifecycle
  import opened RunnerSystem
  import opened RunnerInvariants
  import Pipes

  /** The state of a fresh runner after the actions `es`, if they are possible in this order. */
  function After(cfg: Config, now: int, es: seq<Event>): Option<Sys> {
    Exec(Step, Init(cfg, now), es)
  }

  lemma {:induction false} RunKeepsInv(s: Sys, es: seq<Event>)
    requires Inv(s) && Exec(Step, s, es).Some?
    ensures Inv(Exec(Step, s, es).value) && Exec(Step, s, es).value.cfg == s.cfg
  {
    if es != [] {
      var less := es[..|es| - 1];
      RunKeepsInv(s, less);
      StepKeepsInv(Exec(Step, s, less).value, es[|es| - 1]);
      CfgConstant(Exec(Step, s, less).value, es[|es| - 1]);
    }
  }

  lemma CfgConstant(s: Sys, e: Event)
    requires Step(s, e).Some?
    ensures Step(s, e).value.cfg == s.cfg
  {
    if e.Main? {
      match s.pc {
        case InStart(at) => StartSendsNothing(s, at, e.ok);
        case Soft(at) => SoftCfg(s, at, e.ok);
        case Hard(at) => HardCfg(s, at, e.ok, e.pids);
        case Cleanup(at) => CleanCfg(s, at, e.ok);
        case _ =>
      }
    }
  }

  lemma SoftCfg(s: Sys, at: SoftPc, ok: bool)
    requires SoftStep(s, at, ok).Some?
    ensures SoftStep(s, at, ok).value.cfg == s.cfg
  {}

  lemma HardCfg(s: Sys, at: HardPc, ok: bool, pids: Option<seq<int>>)
    requires HardStep(s, at, ok, pids).Some?
    ensures HardStep(s, at, ok, pids).value.cfg == s.cfg
  {}

  lemma CleanCfg(s: Sys, at: CleanPc, ok: bool)
    requires CleanStep(s, at, ok).Some?
    ensures CleanStep(s, at, ok).value.cfg == s.cfg
  {}

  lemma Reachable(cfg: Config, now: int, es: seq<Event>)
    requires After(cfg, now, es).Some?
    ensures Inv(After(cfg, now, es).value) && After(cfg, now, es).value.cfg == cfg
  {
    RunKeepsInv(Init(cfg, now), es);
  }

  /** Stuck says exactly that the goroutine inside Wait has no next action, whatever the kernel
      answers and a select chooses. */
  lemma StuckIffNoAction(s: Sys)
    requires !(s.pc.NotStarted? || s.pc.StartFailed? || s.pc.Idle? || s.pc.Returned?)
    requires s.pc == Cleanup(ToDone) ==> s.result.Some?
    ensures Stuck(s) <==> forall ok, pids :: MainStep(s, ok, pids) == None
  {
    assert MainStep(s, true, None) == None && MainStep(s, false, None) == None ==> Stuck(s);
  }

  function Kinds(sent: seq<Sent>): seq<Kind> {
    seq(|sent|, i requires 0 <= i < |sent| => sent[i].kind)
  }

  lemma KindsOf(sent: seq<Sent>, signals: Signals)
    requires Records(sent, signals)
    ensures Kinds(sent) ==
            match signals
            case NoSignal => []
            case OnlyGraceful => [Graceful]
            case OnlyTerminate => [Terminate]
            case Both => [Graceful, Terminate]
  {}

  /** How result, history and signals agree once Wait has returned. */
  ghost predicate Agreement(grace: int, r: Result, hist: seq<State>, kinds: seq<Kind>) {
    && (r.cancelled <==> r.graceful || r.forceKilled)
    && !(r.graceful && r.forceKilled)
    && (!r.cancelled ==> hist == NATURAL && kinds == [])
    && (r.graceful ==> hist == GRACEFUL && kinds == [Graceful])
    && (r.forceKilled && grace > 0 ==> hist == FORCED && kinds == [Graceful, Terminate])
    && (r.forceKilled && grace <= 0 ==> hist == NATURAL && kinds == [Terminate])
    && r.cleaned == |r.pids|
  }

  /** For every interleaving: the states visited form a path of the transition table although
      forceTransition never consults it; a failed Start and a returned Wait end in Done with the
      group closed; and the result fixes the history and the signals. */
  lemma EveryRunFollowsTheTable(cfg: Config, now: int, es: seq<Event>)
    requires After(cfg, now, es).Some?
    ensures var s := After(cfg, now, es).value;
            && s.life.hist != [] && s.life.hist[0] == Created && Path(s.life.hist)
            && s.life.state == s.life.hist[|s.life.hist| - 1]
            && (s.pc == StartFailed ==>
                  s.life.hist == [Created, Starting, Done] && s.group.sent == [] && !s.group.open)
            && (s.pc == Returned ==>
                  && s.result.Some? && !s.group.open
                  && Agreement(cfg.grace, s.result.value, s.life.hist, Kinds(s.group.sent)))
  {
    Reachable(cfg, now, es);
    var s := After(cfg, now, es).value;
    HistoriesArePaths(s);
    KindsOf(s.group.sent, SignalsAt(s.pc, cfg.grace, s.result));
    if s.pc == Returned {
      ReturnedHistory(s);
    }
  }

  lemma ReturnedHistory(s: Sys)
    requires HistInv(s.pc, s.cfg.grace, s.life, s.result) && s.pc == Returned && s.result.Some?
    ensures var r := s.result.value;
            && (!r.cancelled || (r.forceKilled && s.cfg.grace <= 0) ==> s.life.hist == NATURAL)
            && (r.cancelled && !r.forceKilled ==> s.life.hist == GRACEFUL)
            && (r.cancelled && r.forceKilled && s.cfg.grace > 0 ==> s.life.hist == FORCED)
  {
    assert RUNNING + [Done] == NATURAL && STOPPING + [Done] == GRACEFUL && KILLING + [Done] == FORCED;
  }

  lemma HistoriesArePaths(s: Sys)
    requires HistInv(s.pc, s.cfg.grace, s.life, s.result)
    ensures s.life.hist != [] && s.life.hist[0] == Created && Path(s.life.hist)
  {
    HistoriesAreKnown(s);
    KnownHistoriesArePaths(s.life.hist);
  }

  lemma KnownHistoriesArePaths(hist: seq<State>)
    requires hist <= FORCED || hist == NATURAL || hist == GRACEFUL || hist == [Created, Starting, Done]
    ensures Path(hist)
    ensures hist != [] ==> hist[0] == Created
  {
    assert Path(FORCED);
  }

  lemma HistoriesAreKnown(s: Sys)
    requires HistInv(s.pc, s.cfg.grace, s.life, s.result)
    ensures s.life.hist != []
    ensures s.life.hist <= FORCED || s.life.hist == NATURAL || s.life.hist == GRACEFUL
            || s.life.hist == [Created, Starting, Done]
    ensures s.life.state == Done ==> s.pc == Returned || s.pc == StartFailed
  {
    assert RUNNING + [Done] == NATURAL && STOPPING + [Done] == GRACEFUL && KILLING + [Done] == FORCED;
    assert RUNNING <= FORCED && STOPPING <= FORCED && KILLING <= FORCED && STARTING <= FORCED;
    assert STARTING + [Done] == [Created, Starting, Done];
  }

  /** For every interleaving, at every moment: at most one graceful signal and at most one
      terminate, in this order, the terminate no earlier than a full grace period later. */
  lemma EscalationWaitsForTheGracePeriod(cfg: Config, now: int, es: seq<Event>)
    requires After(cfg, now, es).Some?
    ensures var sent := After(cfg, now, es).value.group.sent;
            && Kinds(sent) in {[], [Graceful], [Terminate], [Graceful, Terminate]}
            && (cfg.grace > 0 && Terminate in Kinds(sent) ==> Kinds(sent) == [Graceful, Terminate])
            && (|sent| == 2 ==> sent[1].at >= sent[0].at + cfg.grace)
  {
    Reachable(cfg, now, es);
    var s := After(cfg, now, es).value;
    KindsOf(s.group.sent, SignalsAt(s.pc, cfg.grace, s.result));
  }

  /** For every interleaving: snapshots follow the lifecycle order; Done is reported at most once,
      as the last snapshot, by a poller that has then stopped; and a snapshot of a running command
      counts an active process. */
  lemma SnapshotsFollowTheLifecycle(cfg: Config, now: int, es: seq<Event>, i: nat, j: nat)
    requires After(cfg, now, es).Some?
    requires i <= j < |After(cfg, now, es).value.poll.snaps|
    ensures var poll := After(cfg, now, es).value.poll;
            && Rank(poll.snaps[i].state) <= Rank(poll.snaps[j].state)
            && (i < j ==> poll.snaps[i].state != Done)
            && (poll.snaps[j].state == Done ==> j == |poll.snaps| - 1 && poll.poller == Stopped)
            && (poll.snaps[i].state == Running ==> poll.snaps[i].active > 0)
  {
    Reachable(cfg, now, es);
  }

  function PollActions(es: seq<Event>): nat {
    if es == [] then 0
    else PollActions(es[..|es| - 1]) + if PollAction(es[|es| - 1]) then 1 else 0
  }

  /** The most actions the poller can still take once the state is Done. */
  function PollBudget(poller: Poller): nat {
    match poller
    case Off | Stopped => 0
    case Looping => 2
    case Emitting(_, final) => if final then 1 else 3
  }

  /** Once the state is Done, the poller takes at most three more actions, whatever the others
      do; and while it loops, its next tick stops it, even if the child is never reaped. */
  lemma {:induction false} PollerStopsAfterDone(s: Sys, es: seq<Event>)
    requires Inv(s) && s.life.state == Done && Exec(Step, s, es).Some?
    ensures var t := Exec(Step, s, es).value;
            && t.life.state == Done
            && PollActions(es) + PollBudget(t.poll.poller) <= PollBudget(s.poll.poller) <= 3
            && (t.poll.poller == Looping ==>
                  Step(t, PollTick).Some? && Step(t, PollTick).value.poll.poller == Stopped)
  {
    if es != [] {
      var less, e := es[..|es| - 1], es[|es| - 1];
      PollerStopsAfterDone(s, less);
      DoneIsKept(s, less, e);
    }
    if Exec(Step, s, es).value.poll.poller == Looping {
      TickStopsPoller(Exec(Step, s, es).value);
    }
  }

  lemma TickStopsPoller(s: Sys)
    requires s.life.state == Done && s.poll.poller == Looping
    ensures Step(s, PollTick).Some? && Step(s, PollTick).value.poll.poller == Stopped
  {}

  lemma DoneIsKept(s: Sys, less: seq<Event>, e: Event)
    requires Inv(s) && Exec(Step, s, less).Some?
    requires var t := Exec(Step, s, less).value; t.life.state == Done && Step(t, e).Some?
    ensures var t, u := Exec(Step, s, less).value, Step(Exec(Step, s, less).value, e).value;
            && u.life.state == Done
            && PollBudget(u.poll.poller) + (if PollAction(e) then 1 else 0) <= PollBudget(t.poll.poller)
  {
    RunKeepsInv(s, less);
    var t := Exec(Step, s, less).value;
    HistoriesAreKnown(t);
    DoneStays(t, e);
  }

  lemma DoneStays(s: Sys, e: Event)
    requires CallInv(s.pc, s.started, s.waited, s.group.open) && (s.pc == Returned || s.pc == StartFailed)
    requires s.life.state == Done && Step(s, e).Some?
    ensures var t := Step(s, e).value;
            && t.pc == s.pc && t.life == s.life && t.result == s.result && t.group == s.group
            && PollBudget(t.poll.poller) + (if PollAction(e) then 1 else 0) <= PollBudget(s.poll.poller)
            && (t.io == s.io || (e.Io? && Pipes.Step(s.io, e.io) == Some(t.io)))
  {
    match e {
      case PollTick => case PollDone => case PollEmit(active) => case Io(io) => case _ =>
    }
  }

  lemma ReturnedStays(s: Sys, e: Event)
    requires Inv(s) && s.pc == Returned && Step(s, e).Some?
    ensures var t := Step(s, e).value;
            && t.pc == Returned && t.result == s.result && t.life == s.life && t.group == s.group
            && t.io.out == s.io.out && t.io.errors == s.io.errors
  {
    hide Step;
    DoneStays(s, e);
    if e.Io? && Pipes.Step(s.io, e.io).Some? {
      Pipes.EndedStays(s.io, e.io);
    }
  }

  /** Once Wait has returned, no action changes the result, the history, the signals, or a byte
      of captured output. */
  lemma {:induction false} NothingHappensAfterReturn(s: Sys, es: seq<Event>)
    requires Inv(s) && s.pc == Returned && Exec(Step, s, es).Some?
    ensures var t := Exec(Step, s, es).value;
            && t.pc == Returned && t.result == s.result && t.life == s.life && t.group == s.group
            && t.io.out == s.io.out && t.io.errors == s.io.errors
  {
    hide Inv, Step;
    if es != [] {
      var less, e := es[..|es| - 1], es[|es| - 1];
      NothingHappensAfterReturn(s, less);
      RunKeepsInv(s, less);
      ReturnedStays(Exec(Step, s, less).value, e);
    }
  }

  /** Captured by CombinedOutput: when Wait has returned, the shared buffer interleaves a prefix of
      each stream, the whole of it if its copier recorded no error. */
  lemma ReturnedOutputInterleaves(s: Sys)
    requires Inv(s) && s.pc == Returned && s.wantOut && s.wantErr
    ensures |s.io.pipes| == 2 && Pipes.AllEnded(s.io)
    ensures exists a, b ::
              && a <= s.io.pipes[0].source && b <= s.io.pipes[1].source
              && Pipes.Interleaving(Pipes.Buffer(s.io.out), a, b)
              && (0 !in s.io.errors ==> s.io.pipes[0].eof && a == s.io.pipes[0].source)
              && (1 !in s.io.errors ==> s.io.pipes[1].eof && b == s.io.pipes[1].source)
  {
    Pipes.CombinedOutputInterleaves(s.io);
  }

  /** The exit code and error of a force-killed command. The source documents an ExitError for
      every cancellation-related kill and exit code -1 for a process killed before it could exit;
      after the kill deadline this holds exactly when the child had been reaped, with an error,
      before the result was built. */
  lemma ForceKilledReportsErrorIffReaped(cfg: Config, now: int, es: seq<Event>)
    requires After(cfg, now, es).Some?
    requires After(cfg, now, es).value.pc == Returned
    ensures var s := After(cfg, now, es).value;
            && s.result.Some?
            && (s.result.value.error.Some? <==> s.notes.reapedAtBuild && s.child.procErr != Clean)
            && (!s.notes.reapedAtBuild ==>
                  s.notes.deadlineHit && s.result.value.forceKilled && s.result.value.exitCode == 0)
            && (s.notes.reapedAtBuild ==> ReportsExit(s.result.value, s.child.procErr))
  {
    Reachable(cfg, now, es);
  }
}
