/**
 The Reloader object (watcher/reloader.go). Run is its loop; between two of its atomic actions the
 watcher, the owner of the context and the current workload may act.
 */
module Reloader {
  import opened Common
  import opened Diff
  import opened Executions
  import opened Live

  /** How a call of Run ended: refused, with the watcher's error, with nil; or it is blocked, or has
      made all the turns it was observed for. */
  datatype End = AlreadyRunning | WatcherFailed | Completed | Blocked | StillRunning

  /** No workload was added, one that had ended is as it was, and none turned into a failed start. */
  predicate Settled(before: seq<Workload>, after: seq<Workload>) {
    && |after| == |before|
    && (forall i :: 0 <= i < |before| && before[i] != Unfinished ==> after[i] == before[i])
    && (forall i :: 0 <= i < |before| && before[i] == Unfinished ==> after[i] != StartFailed)
  }

  /** The workloads there were are still failed starts exactly where they were. */
  predicate StartsKept(before: seq<Workload>, after: seq<Workload>) {
    |before| <= |after| && forall i :: 0 <= i < |before| ==> (after[i] == StartFailed <==> before[i] == StartFailed)
  }

  /** The workloads so far failed to start exactly where they were to. */
  predicate Started(starts: seq<bool>, workloads: seq<Workload>) {
    |workloads| <= |starts| && forall i :: 0 <= i < |workloads| ==> (workloads[i] == StartFailed <==> !starts[i])
  }

  class Reloader {
    const hooked: bool
    const debounce: int
    var running: bool

    // Run's attempt counter and workloads
    var attempt: nat
    var workloads: seq<Workload>

    // the watcher, the channel, and the context
    var watch: Watch
    var changeCh: seq<Batch>
    var closed: bool
    var ctxDone: bool

    ghost var pc: Pc
    ghost var consumed: seq<Batch>
    ghost var calls: seq<(nat, Batch)>
    ghost var origin: Sys
    ghost var log: seq<Event>

    ghost function View(): Sys
      reads this
    {
      Sys(watch, changeCh, closed, ctxDone, Reload(hooked, pc, running, attempt, workloads, consumed, calls))
    }

    ghost predicate Valid()
      reads this
    {
      After(origin, log) == Some(View()) && Initial(origin)
    }

    constructor (hooked: bool, debounce: int)
      ensures !running && this.hooked == hooked && this.debounce == debounce
    {
      this.hooked, this.debounce := hooked, debounce;
      running := false;
    }

    ghost method Commit(e: Event, before: Sys)
      requires Initial(origin) && After(origin, log) == Some(before) && Step(before, e) == Some(View())
      modifies this`log
      ensures Valid()
      ensures old(log) <= log
    {
      hide Step, Initial;
      ExecSnoc(Step, origin, log, e);
      log := log + [e];
    }

    /** An action of the watcher, of the owner of the context, or of the workload. */
    method EnvironmentAct(e: Event)
      requires Valid()
      modifies this`watch, this`changeCh, this`closed, this`ctxDone, this`workloads, this`log
      ensures Valid() && Settled(old(workloads), workloads)
      ensures old(log) <= log
    {
      ghost var s := View();
      match e {
        case Watching(we) => WatcherAct(we);
        case Reloading(re) =>
          if re.Finish? && |workloads| > 0 && workloads[|workloads| - 1] == Unfinished {
            workloads := workloads[|workloads| - 1 := Finished];
            Commit(e, s);
          }
        case Cancel =>
          ctxDone := true;
          Commit(e, s);
      }
    }

    method WatcherAct(e: WatchEvent)
      requires Valid()
      modifies this`watch, this`changeCh, this`closed, this`log
      ensures Valid()
      ensures old(log) <= log
    {
      ghost var s := View();
      if (e.Send? && |changeCh| >= CAPACITY) || (e.Quit? && !ctxDone) {
        return;
      }
      var next := WatchStep(watch, e);
      if next.Some? {
        if e.Send? {
          changeCh := changeCh + [watch.loop.batch];
        }
        watch, closed := next.value, closed || e.Quit?;
        Commit(Watching(e), s);
      }
    }

    /** Any finite number of actions of the others. */
    method Interfere()
      requires Valid()
      modifies this`watch, this`changeCh, this`closed, this`ctxDone, this`workloads, this`log
      ensures Valid() && Settled(old(workloads), workloads)
      ensures old(log) <= log
    {
      var budget: nat := *;
      while budget > 0
        invariant Valid() && Settled(old(workloads), workloads) && old(log) <= log
      {
        var e: Event := *;
        EnvironmentAct(e);
        budget := budget - 1;
      }
    }

    /** Run, observed for one turn of its loop for each of `starts`, which says whether the workload of
        that turn starts. A second call while it runs is refused and changes
        nothing; every way it returns leaves the running flag off and no workload unfinished. Until it
        returns or is blocked, each turn starts one workload. `baseline` is the first scan, `None` if the
        watcher could not be started. */
    method Run(baseline: Option<Files>, now: int, starts: seq<bool>) returns (end: End)
      modifies this
      ensures end == AlreadyRunning <==> old(running)
      ensures old(running) ==> running && View() == old(View())
      ensures end == WatcherFailed <==> !old(running) && baseline == None
      ensures end == WatcherFailed ==> !running
      ensures !old(running) && baseline.Some? ==>
                Valid() && origin == Init(debounce, now, baseline.value, hooked) && Started(starts, workloads)
      ensures end == Completed ==> !running && pc == Returned
      ensures end == Completed ==> forall i :: 0 <= i < |workloads| ==> workloads[i] != Unfinished
      ensures end == Blocked ==> running && RunStuck(View())
      ensures end == StillRunning ==> running && pc == Launching && |workloads| == |starts| && attempt == |starts| + 1
    {
      if running {
        return AlreadyRunning;
      }
      running := true;
      if baseline == None {
        running := false;
        return WatcherFailed;
      }
      end := Loop(baseline.value, now, starts);
    }

    method Loop(baseline: Files, now: int, starts: seq<bool>) returns (end: End)
      requires running
      modifies this
      ensures Valid() && origin == Init(debounce, now, baseline, hooked) && Started(starts, workloads)
      ensures end in {Completed, Blocked, StillRunning}
      ensures end == Completed ==> !running && pc == Returned
      ensures end == Completed ==> forall i :: 0 <= i < |workloads| ==> workloads[i] != Unfinished
      ensures end == Blocked ==> running && RunStuck(View())
      ensures end == StillRunning ==> running && pc == Launching && |workloads| == |starts| && attempt == |starts| + 1
    {
      hide Valid, Init, RunStuck, View;
      Begin(baseline, now);
      for i := 0 to |starts|
        invariant Valid() && origin == Init(debounce, now, baseline, hooked) && Started(starts, workloads)
        invariant pc == Launching && running && |workloads| == i && attempt == i + 1
      {
        var goOn := RunWorkload(starts[i]);
        if goOn == None {
          StillGoing();
          return Blocked;
        }
        if !goOn.value {
          AllFinished();
          return Completed;
        }
      }
      return StillRunning;
    }

    lemma AllFinished()
      requires Valid() && pc == Returned
      ensures !running && forall i :: 0 <= i < |workloads| ==> workloads[i] != Unfinished
    {
      Reachable(origin, log);
    }

    lemma StillGoing()
      requires Valid() && pc != Returned
      ensures running
    {
      Reachable(origin, log);
    }

    /** The loop starts with the watcher's baseline and an empty channel. */
    method Begin(baseline: Files, now: int)
      requires running
      modifies this
      ensures Valid() && origin == Init(debounce, now, baseline, hooked)
      ensures pc == Launching && running && workloads == [] && attempt == 1
    {
      OpenChannel(baseline, now);
      EnterLoop();
      origin, log := View(), [];
      assert origin == Init(debounce, now, baseline, hooked);
    }

    method OpenChannel(baseline: Files, now: int)
      modifies this`watch, this`changeCh, this`closed, this`ctxDone
      ensures watch == Baseline(debounce, now, baseline) && changeCh == [] && !closed && !ctxDone
    {
      watch, changeCh, closed, ctxDone := Baseline(debounce, now, baseline), [], false, false;
    }

    method EnterLoop()
      requires running
      modifies this`attempt, this`workloads, this`pc, this`consumed, this`calls
      ensures View().r == Begun(hooked)
    {
      attempt, workloads := 1, [];
      pc, consumed, calls := Launching, [], [];
    }

    /** One turn of the loop, which starts one workload: `Some(true)` to go on, after taking one batch,
        `Some(false)` when Run has returned, `None` when it is blocked. */
    method RunWorkload(starts: bool) returns (goOn: Option<bool>)
      requires Valid() && pc == Launching && running
      modifies this`attempt, this`running, this`pc, this`consumed, this`calls, this`workloads, this`watch
      modifies this`changeCh, this`closed, this`ctxDone, this`log
      ensures Valid() && |workloads| == |old(workloads)| + 1
      ensures StartsKept(old(workloads), workloads)
      ensures workloads[|old(workloads)|] == StartFailed <==> !starts
      ensures goOn == Some(true) ==> pc == Launching && running && attempt == old(attempt) + 1
      ensures goOn == Some(true) ==> |consumed| == |old(consumed)| + 1
      ensures goOn == Some(false) ==> pc == Returned
      ensures goOn == None ==> RunStuck(View()) && pc != Returned
      ensures old(log) <= log
    {
      hide Valid, RunStuck, View;
      var ok, left := StartWorkload(starts);
      if left {
        return Some(false);
      }
      if ok {
        goOn := Attend();
      } else {
        goOn := AwaitChange();
      }
      if goOn == Some(true) { StillGoing(); }
    }

    /** runner.Start; if it fails and the context is done, Run returns. */
    method StartWorkload(starts: bool) returns (ok: bool, left: bool)
      requires Valid() && pc == Launching && running
      modifies this`workloads, this`running, this`pc, this`watch, this`changeCh, this`closed, this`ctxDone, this`log
      ensures Valid() && pc == if ok then Attending else if left then Returned else Retrying
      ensures |workloads| == |old(workloads)| + 1 && StartsKept(old(workloads), workloads)
      ensures workloads[|workloads| - 1] == if ok then Unfinished else StartFailed
      ensures ok == starts && (left <==> !ok && ctxDone)
      ensures running == !left
      ensures old(log) <= log
    {
      Interfere();
      ghost var s := View();
      ok := starts;
      left := !ok && ctxDone;
      workloads := workloads + [if ok then Unfinished else StartFailed];
      running := !left;
      pc := if ok then Attending else if left then Returned else Retrying;
      Commit(Reloading(Launch(ok)), s);
    }

    /** No workload is running: wait for a change. It goes on with one batch, returns when the context
        or the channel is done, and is blocked (`None`) when there is neither. */
    method AwaitChange() returns (goOn: Option<bool>)
      requires Valid() && (pc == Retrying || pc == Exited) && running
      modifies this`attempt, this`running, this`pc, this`consumed, this`calls, this`workloads, this`watch
      modifies this`changeCh, this`closed, this`ctxDone, this`log
      ensures Valid() && |workloads| == |old(workloads)|
      ensures Settled(old(workloads), workloads) && StartsKept(old(workloads), workloads)
      ensures goOn == Some(true) ==>
                pc == Launching && attempt == old(attempt) + 1 && |consumed| == |old(consumed)| + 1
      ensures goOn == Some(false) ==> pc == Returned && !running && (ctxDone || (closed && changeCh == []))
      ensures goOn == None ==> pc == old(pc) && !ctxDone && !closed && changeCh == [] && RunStuck(View())
      ensures old(log) <= log
    {
      hide After, Initial, Step;
      Interfere();
      var first: bool := *;
      if ctxDone && (first || changeCh == []) {
        Return(Leave);
        return Some(false);
      } else if changeCh != [] {
        var changedFiles := TakeBatch();
        OnRestart(changedFiles);
        return Some(true);
      } else if closed {
        Return(ReloadEvent.Closed);
        return Some(false);
      } else {
        return None;
      }
    }

    /** The workload runs: wait for the context, a change, or its exit. It goes on, with one batch, or
        returns only after the workload's Wait has returned; it is blocked (`None`) when no channel is
        ready, or while it waits for that. */
    method Attend() returns (goOn: Option<bool>)
      requires Valid() && pc == Attending && workloads != [] && running
      modifies this`attempt, this`running, this`pc, this`consumed, this`calls, this`workloads, this`watch
      modifies this`changeCh, this`closed, this`ctxDone, this`log
      ensures Valid() && |workloads| == |old(workloads)| && StartsKept(old(workloads), workloads)
      ensures goOn == Some(true) ==>
                pc == Launching && attempt == old(attempt) + 1 && |consumed| == |old(consumed)| + 1
      ensures goOn == Some(false) ==> pc == Returned
      ensures goOn.Some? ==> workloads[|workloads| - 1] == Finished
      ensures goOn == None ==> RunStuck(View()) && pc != Returned
      ensures old(log) <= log
    {
      hide After, Initial, Step;
      Interfere();
      var choice: nat := *;
      var exited := workloads[|workloads| - 1] == Finished;
      if exited && (choice == 0 || (changeCh == [] && !ctxDone && !closed)) {
        ExitSeen();
        goOn := AwaitChange();
      } else if changeCh != [] && (choice == 1 || !ctxDone) {
        var changedFiles := TakeBatch();
        goOn := Restart(changedFiles);
      } else if ctxDone && (choice == 2 || !closed || changeCh != []) {
        CancelWorkload(Leave);
        goOn := Finish();
      } else if closed && changeCh == [] {
        CancelWorkload(ReloadEvent.Closed);
        goOn := Finish();
      } else {
        return None;
      }
    }

    /** A change came while the workload ran: wait for its end, then go on. */
    method Restart(changedFiles: Batch) returns (goOn: Option<bool>)
      requires Valid() && pc == Draining(Some(changedFiles)) && workloads != [] && running
      modifies this`attempt, this`running, this`pc, this`calls, this`workloads, this`watch
      modifies this`changeCh, this`closed, this`ctxDone, this`log
      ensures Valid() && |workloads| == |old(workloads)| && StartsKept(old(workloads), workloads) && goOn != Some(false)
      ensures goOn == Some(true) ==> pc == Launching && attempt == old(attempt) + 1
      ensures goOn.Some? ==> workloads[|workloads| - 1] == Finished
      ensures goOn == None ==> RunStuck(View()) && pc != Returned
      ensures old(log) <= log
    {
      hide Valid, RunStuck, View;
      var drained := Drain(Some(changedFiles));
      if !drained { return None; }
      OnRestart(changedFiles);
      return Some(true);
    }

    /** The context or the channel is done while the workload ran: wait for its end, then return. */
    method Finish() returns (goOn: Option<bool>)
      requires Valid() && pc == Draining(None) && workloads != [] && running
      modifies this`running, this`pc, this`workloads, this`watch, this`changeCh, this`closed, this`ctxDone, this`log
      ensures Valid() && |workloads| == |old(workloads)| && StartsKept(old(workloads), workloads) && goOn != Some(true)
      ensures goOn == Some(false) ==> pc == Returned
      ensures goOn.Some? ==> workloads[|workloads| - 1] == Finished
      ensures goOn == None ==> RunStuck(View()) && pc != Returned
      ensures old(log) <= log
    {
      hide Valid, RunStuck, View;
      var drained := Drain(None);
      return if drained then Some(false) else None;
    }

    method Return(e: ReloadEvent)
      requires Valid() && (pc == Retrying || pc == Exited)
      requires (e.Leave? && ctxDone) || (e.Closed? && closed && changeCh == [])
      modifies this`running, this`pc, this`log
      ensures Valid() && pc == Returned && !running
      ensures old(log) <= log
    {
      ghost var s := View();
      running, pc := false, Returned;
      Commit(Reloading(e), s);
    }

    method ExitSeen()
      requires Valid() && pc == Attending && workloads != [] && workloads[|workloads| - 1] == Finished
      modifies this`pc, this`log
      ensures Valid() && pc == Exited
      ensures old(log) <= log
    {
      ghost var s := View();
      pc := Exited;
      Commit(Reloading(SeeExit), s);
    }

    method CancelWorkload(e: ReloadEvent)
      requires Valid() && pc == Attending
      requires (e.Leave? && ctxDone) || (e.Closed? && closed && changeCh == [])
      modifies this`pc, this`log
      ensures Valid() && pc == Draining(None)
      ensures old(log) <= log
    {
      ghost var s := View();
      pc := Draining(None);
      Commit(Reloading(e), s);
    }

    /** Receive a batch; a running workload is cancelled. */
    method TakeBatch() returns (batch: Batch)
      requires Valid() && changeCh != [] && (pc == Retrying || pc == Exited || pc == Attending)
      modifies this`pc, this`consumed, this`changeCh, this`log
      ensures Valid() && batch == old(changeCh)[0] && consumed == old(consumed) + [batch]
      ensures pc == if old(pc) == Attending then Draining(Some(batch)) else Notifying(batch)
      ensures old(log) <= log
    {
      ghost var s := View();
      batch, changeCh := changeCh[0], changeCh[1..];
      consumed := consumed + [batch];
      pc := if pc == Attending then Draining(Some(batch)) else Notifying(batch);
      Commit(Reloading(Take), s);
    }

    /** Wait until the cancelled workload's Wait has returned; false says that it has not. */
    method Drain(next: Option<Batch>) returns (drained: bool)
      requires Valid() && pc == Draining(next) && workloads != [] && running
      modifies this`running, this`pc, this`workloads, this`watch, this`changeCh, this`closed, this`ctxDone, this`log
      ensures Valid() && |workloads| == |old(workloads)| && StartsKept(old(workloads), workloads)
      ensures drained ==> pc == if next.Some? then Notifying(next.value) else Returned
      ensures drained ==> workloads[|workloads| - 1] == Finished
      ensures !drained ==> pc == old(pc) && RunStuck(View())
      ensures old(log) <= log
    {
      Interfere();
      if workloads[|workloads| - 1] != Finished { return false; }
      ghost var s := View();
      if next == None {
        running := false;
      }
      pc := if next.Some? then Notifying(next.value) else Returned;
      Commit(Reloading(SeeExit), s);
      return true;
    }

    /** Call OnRestart, if set, with the attempt and the batch, and count the attempt. */
    method OnRestart(changedFiles: Batch)
      requires Valid() && pc == Notifying(changedFiles)
      modifies this`attempt, this`pc, this`calls, this`log
      ensures Valid() && pc == Launching && attempt == old(attempt) + 1
      ensures calls == if hooked then old(calls) + [(old(attempt), changedFiles)] else old(calls)
      ensures old(log) <= log
    {
      ghost var s := View();
      if hooked {
        calls := calls + [(attempt, changedFiles)];
      }
      attempt, pc := attempt + 1, Launching;
      Commit(Reloading(Notify), s);
    }
  }
}
