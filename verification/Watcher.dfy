/**
 The Watcher object (watcher/watcher.go). PollLoop is the code of its goroutine; between two of its
 atomic actions the clock, the owner of the context and the reloader may act. `Valid` says that the
 object is in the state that the live-reload system reaches by the actions logged so far.
 */
module Watcher {
  import opened Common
  import opened Diff
  import opened Executions
  import opened Live
  import Scan

  /** How the loop stands: it goes on, is asleep in its select with nothing ready, is blocked in a
      send, or has returned. */
  datatype Progress = Going | Asleep | Blocked | Left

  /** The branches of the loop's select: the context, the debounce timer, the ticker. */
  datatype Branch = Done | Due | Ticked

  /** What meets one turn of the loop: has the ticker fired, which branch does the select prefer, what
      do the watched trees hold. */
  datatype Input = Input(ticked: bool, choice: Branch, trees: seq<Scan.Root>)

  predicate Ready(s: Sys, ticked: bool, branch: Branch) {
    match branch
    case Done => s.ctxDone
    case Due => s.w.timer.Some? && s.w.now >= s.w.timer.value
    case Ticked => ticked
  }

  predicate NothingReady(s: Sys, ticked: bool) {
    !Ready(s, ticked, Done) && !Ready(s, ticked, Due) && !Ready(s, ticked, Ticked)
  }

  predicate Takes(e: Event, branch: Branch) {
    match branch
    case Done => e == Watching(Quit)
    case Due => e == Watching(Expire)
    case Ticked => e.Watching? && e.w.Poll?
  }

  /** At position `at` of the log the loop was in its select and took a branch that was ready: the one
      the input prefers if that was; and a tick saw what the input says the trees hold. */
  ghost predicate Serves(t: Scan.Tables, filter: Scan.Filter, origin: Sys, log: seq<Event>, input: Input, at: nat) {
    && at < |log| && After(origin, log[..at]).Some?
    && var s, e := After(origin, log[..at]).value, log[at];
       && s.w.loop == Selecting
       && (exists branch :: Ready(s, input.ticked, branch) && Takes(e, branch))
       && (Ready(s, input.ticked, input.choice) ==> Takes(e, input.choice))
       && (Takes(e, Ticked) ==> Scan.Complete(t, filter, input.trees, e.w.files))
  }

  lemma ServesLonger(t: Scan.Tables, filter: Scan.Filter, origin: Sys, log: seq<Event>, more: seq<Event>,
                     input: Input, at: nat)
    requires Serves(t, filter, origin, log, input, at) && log <= more
    ensures Serves(t, filter, origin, more, input, at)
  {
    assert log[..at] == more[..at];
  }

  predicate IsTurn(e: Event) {
    e.Watching? && (e.w.Poll? || e.w.Expire?)
  }

  /** The turns of the poll loop in a run: ticks, and expiries of the debounce window. */
  function Turns(log: seq<Event>): nat {
    if log == [] then 0 else Turns(log[..|log| - 1]) + if IsTurn(log[|log| - 1]) then 1 else 0
  }

  lemma TurnsSnoc(log: seq<Event>, e: Event)
    ensures Turns(log + [e]) == Turns(log) + if IsTurn(e) then 1 else 0
  {
    assert (log + [e])[..|log|] == log;
  }

  class Watcher {
    const tables: Scan.Tables
    const filter: Scan.Filter
    const debounce: int
    var knownFiles: Files
    var stopped: bool

    // the goroutine's pending paths and timer, and the channel
    var pendingChanges: Batch
    var debounceTimer: Option<int>
    var outCh: seq<Batch>
    var closed: bool

    // the clock, the context, and the reloader at the other end of the channel
    var now: int
    var ctxDone: bool
    var consumer: Reload

    ghost var loop: Loop
    ghost var diffs: seq<Batch>
    ghost var lastDiff: int
    ghost var emitted: seq<Emission>
    ghost var mirror: Files
    ghost var origin: Sys
    ghost var log: seq<Event>

    ghost function View(): Sys
      reads this
    {
      Sys(Watch(debounce, now, knownFiles, pendingChanges, debounceTimer, loop, diffs, lastDiff, emitted, mirror),
          outCh, closed, ctxDone, consumer)
    }

    ghost predicate Valid()
      reads this
    {
      After(origin, log) == Some(View())
    }

    /** The defaults of New; a debounce time that is not positive becomes 150 ms. */
    constructor (tables: Scan.Tables, filter: Scan.Filter, debounce: int)
      ensures this.debounce == (if debounce <= 0 then 150_000_000 else debounce) && this.debounce > 0
      ensures knownFiles == map[] && !stopped
    {
      this.tables, this.filter := tables, filter;
      this.debounce := if debounce <= 0 then 150_000_000 else debounce;
      knownFiles, stopped := map[], false;
    }

    ghost method Commit(e: Event, before: Sys)
      requires After(origin, log) == Some(before) && Step(before, e) == Some(View())
      modifies this`log
      ensures Valid() && log == old(log) + [e]
      ensures Turns(log) == Turns(old(log)) + if IsTurn(e) then 1 else 0
    {
      hide Step;
      ExecSnoc(Step, origin, log, e);
      TurnsSnoc(log, e);
      log := log + [e];
    }

    /** Take the baseline and open the channel; false for the error of a stopped watcher. A scan never
        fails, so there is no other error. `hooked` describes the reloader that will consume. */
    method Start(roots: seq<Scan.Root>, hooked: bool) returns (ok: bool)
      modifies this
      ensures ok <==> !old(stopped)
      ensures stopped == old(stopped) && now == old(now)
      ensures ok ==> Valid() && origin == Init(debounce, now, knownFiles, hooked) && loop == Selecting && log == []
      ensures ok ==> Scan.Complete(tables, filter, roots, knownFiles)
      ensures !ok ==> knownFiles == old(knownFiles)
    {
      if stopped {
        return false;
      }
      var failed, initial := Scan.Scan(tables, filter, roots);
      if failed {
        return false;
      }
      Begin(initial, hooked);
      return true;
    }

    method Begin(initial: Files, hooked: bool)
      modifies this
      ensures Valid() && origin == Init(debounce, now, initial, hooked) && loop == Selecting && log == []
      ensures knownFiles == initial && stopped == old(stopped) && now == old(now)
    {
      StartLoop(initial);
      OpenChannel(hooked);
      origin, log := View(), [];
    }

    /** Nothing is pending yet. */
    method StartLoop(initial: Files)
      modifies this`knownFiles, this`pendingChanges, this`debounceTimer, this`loop
      modifies this`diffs, this`lastDiff, this`emitted, this`mirror
      ensures View().w == Baseline(debounce, now, initial) && knownFiles == initial
    {
      knownFiles, pendingChanges, debounceTimer := initial, [], None;
      loop, diffs, lastDiff, emitted, mirror := Selecting, [], now, [], initial;
    }

    method OpenChannel(hooked: bool)
      modifies this`outCh, this`closed, this`ctxDone, this`consumer
      ensures View() == Sys(old(View().w), [], false, false, Begun(hooked))
    {
      hide Begun;
      outCh, closed, ctxDone, consumer := [], false, false, Begun(hooked);
    }

    method EnvironmentAct(e: Event)
      requires Valid()
      modifies this`now, this`ctxDone, this`outCh, this`consumer, this`log
      ensures Valid() && old(log) <= log && Turns(log) == Turns(old(log))
    {
      ghost var s := View();
      match e {
        case Watching(we) =>
          if we.Tick? {
            now := now + we.d;
            Commit(e, s);
          }
        case Reloading(re) =>
          var next := ReloadStep(consumer, outCh, closed, ctxDone, re);
          if next.Some? {
            consumer, outCh := next.value.0, next.value.1;
            Commit(e, s);
          }
        case Cancel =>
          ctxDone := true;
          Commit(e, s);
      }
    }

    /** Any finite number of actions of the others. */
    method Interfere()
      requires Valid()
      modifies this`now, this`ctxDone, this`outCh, this`consumer, this`log
      ensures Valid() && old(log) <= log && Turns(log) == Turns(old(log))
    {
      var budget: nat := *;
      while budget > 0
        invariant Valid() && old(log) <= log && Turns(log) == Turns(old(log))
      {
        var e: Event := *;
        EnvironmentAct(e);
        budget := budget - 1;
      }
    }

    /** The loop, for the turns that meet `inputs`. Each takes a branch of the select that is ready, the
        preferred one if that is (`Serves`, at the position of the log that `served` gives), and no
        other turn is made. The loop stops earlier only asleep, with nothing ready; blocked, in a send on
        a full channel with the context alive; or returned, with the context done and the channel closed. */
    method PollLoop(inputs: seq<Input>) returns (progress: Progress, ghost served: seq<nat>)
      requires Valid() && loop == Selecting
      modifies this
      ensures Valid() && origin == old(origin) && stopped == old(stopped) && old(log) <= log
      ensures |served| <= |inputs|
      ensures forall i :: 0 <= i < |served| ==>
                |old(log)| <= served[i] && Serves(tables, filter, origin, log, inputs[i], served[i])
      ensures forall i, j :: 0 <= i < j < |served| ==> served[i] < served[j]
      ensures progress != Left ==> Turns(log) == Turns(old(log)) + |served|
      ensures progress == Going ==> |served| == |inputs| && loop == Selecting
      ensures progress == Asleep ==>
                |served| < |inputs| && loop == Selecting && NothingReady(View(), inputs[|served|].ticked)
      ensures progress == Blocked ==> |served| > 0 && SendStuck(View())
      ensures progress == Left ==> |served| > 0 && loop.Ended? && closed && ctxDone
      ensures progress == Left ==> Turns(log) <= Turns(old(log)) + |served|
    {
      hide *;
      served := [];
      progress := Going;
      for i := 0 to |inputs|
        invariant Valid() && loop == Selecting && origin == old(origin) && stopped == old(stopped)
        invariant old(log) <= log && |served| == i && Turns(log) == Turns(old(log)) + i && progress == Going
        invariant forall k :: 0 <= k < i ==>
                    |old(log)| <= served[k] < |log| && Serves(tables, filter, origin, log, inputs[k], served[k])
        invariant forall k, j :: 0 <= k < j < i ==> served[k] < served[j]
      {
        ghost var before := log;
        ghost var at;
        progress, at := Turn(inputs[i]);
        forall k | 0 <= k < i
          ensures Serves(tables, filter, origin, log, inputs[k], served[k])
        {
          ServesLonger(tables, filter, origin, before, log, inputs[k], served[k]);
        }
        if progress != Asleep {
          served := served + [at];
        }
        if progress != Going { return; }
      }
    }

    /** One turn of the loop. */
    method Turn(input: Input) returns (progress: Progress, ghost at: nat)
      requires Valid() && loop == Selecting
      modifies this
      ensures Valid() && origin == old(origin) && stopped == old(stopped) && old(log) <= log
      ensures progress != Asleep ==>
                |old(log)| <= at < |log| && Serves(tables, filter, origin, log, input, at)
      ensures progress == Going ==> loop == Selecting && Turns(log) == Turns(old(log)) + 1
      ensures progress == Asleep ==>
                loop == Selecting && NothingReady(View(), input.ticked) && Turns(log) == Turns(old(log))
      ensures progress == Blocked ==> SendStuck(View()) && Turns(log) == Turns(old(log)) + 1
      ensures progress == Left ==> loop.Ended? && closed && ctxDone && Turns(log) <= Turns(old(log)) + 1
    {
      hide After, Turns, SendStuck, Scan.Complete, Serves, Ready, NothingReady, View;
      Interfere();
      at := |log|;
      ghost var s, before := View(), log;
      var branch := SelectBranch(input);
      if branch == None {
        return Asleep, at;
      }
      match branch.value {
        case Done =>
          CloseChannel();
          progress := Left;
        case Due =>
          progress := EmitPending();
        case Ticked =>
          Poll(input.trees);
          progress := Going;
      }
      Served(input, at, s, before, branch.value);
    }

    /** The select: a ready branch, the preferred one if that is ready, none if no branch is. */
    method SelectBranch(input: Input) returns (branch: Option<Branch>)
      ensures View().w.loop == loop
      ensures branch == None ==> NothingReady(View(), input.ticked)
      ensures branch.Some? ==> Ready(View(), input.ticked, branch.value)
      ensures branch.Some? && Ready(View(), input.ticked, input.choice) ==> branch.value == input.choice
      ensures branch == Some(Done) ==> ctxDone
      ensures branch == Some(Due) ==> debounceTimer.Some? && now >= debounceTimer.value
    {
      var due := debounceTimer.Some? && now >= debounceTimer.value;
      var preferred := match input.choice case Done => ctxDone case Due => due case Ticked => input.ticked;
      if preferred {
        return Some(input.choice);
      } else if ctxDone {
        return Some(Done);
      } else if due {
        return Some(Due);
      } else if input.ticked {
        return Some(Ticked);
      } else {
        return None;
      }
    }

    lemma Served(input: Input, at: nat, s: Sys, before: seq<Event>, branch: Branch)
      requires After(origin, before) == Some(s) && s.w.loop == Selecting
      requires before < log && at == |before| && Takes(log[at], branch)
      requires Ready(s, input.ticked, branch) && (Ready(s, input.ticked, input.choice) ==> branch == input.choice)
      requires branch == Ticked ==> Scan.Complete(tables, filter, input.trees, log[at].w.files)
      ensures Serves(tables, filter, origin, log, input, at)
    {
      assert log[..at] == before;
    }

    /** The context is done: return, closing the channel. */
    method CloseChannel()
      requires Valid() && !loop.Ended? && ctxDone
      modifies this`closed, this`loop, this`log
      ensures Valid() && closed && loop == Ended(if old(loop).Sending? then old(loop).batch else [])
      ensures log == old(log) + [Watching(Quit)] && Turns(log) == Turns(old(log))
    {
      ghost var s := View();
      closed, loop := true, Ended(if loop.Sending? then loop.batch else []);
      Commit(Watching(Quit), s);
    }

    /** The debounce window is over: the pending paths, if any, are sent as one batch, unless the channel
        is full; then this is blocked, or, once the context is done, the batch is lost. */
    method EmitPending() returns (progress: Progress)
      requires Valid() && loop == Selecting && debounceTimer.Some? && now >= debounceTimer.value
      modifies this`pendingChanges, this`debounceTimer, this`outCh, this`closed, this`loop, this`emitted
      modifies this`mirror, this`now, this`ctxDone, this`consumer, this`log
      ensures Valid() && pendingChanges == [] && debounceTimer == None && old(log) <= log
      ensures Turns(log) == Turns(old(log)) + 1 && old(log) + [Watching(Expire)] <= log
      ensures progress != Asleep
      ensures progress == Going ==> loop == Selecting
      ensures progress == Going ==>
                emitted == old(emitted)
                           + if old(pendingChanges) == [] then [] else [Emission(old(pendingChanges), now, lastDiff)]
      ensures progress == Blocked ==> loop == Sending(old(pendingChanges)) && SendStuck(View())
      ensures progress == Left ==> loop == Ended(old(pendingChanges)) && closed && ctxDone
    {
      hide Valid, Turns;
      var changesToSend := TakePending();
      if |changesToSend| > 0 {
        Interfere();
        var first: bool := *;
        if |outCh| < CAPACITY && (first || !ctxDone) {
          Deliver(changesToSend);
        } else if ctxDone {
          CloseChannel();
          return Left;
        } else {
          return Blocked;
        }
      }
      return Going;
    }

    method TakePending() returns (changesToSend: Batch)
      requires Valid() && loop == Selecting && debounceTimer.Some? && now >= debounceTimer.value
      modifies this`pendingChanges, this`debounceTimer, this`loop, this`log
      ensures Valid() && changesToSend == old(pendingChanges) && pendingChanges == [] && debounceTimer == None
      ensures loop == if changesToSend != [] then Sending(changesToSend) else Selecting
      ensures log == old(log) + [Watching(Expire)] && Turns(log) == Turns(old(log)) + 1
    {
      ghost var s := View();
      changesToSend := pendingChanges;
      pendingChanges, debounceTimer := [], None;
      loop := if changesToSend != [] then Sending(changesToSend) else Selecting;
      Commit(Watching(Expire), s);
    }

    method Deliver(changes: Batch)
      requires Valid() && loop == Sending(changes) && |outCh| < CAPACITY
      modifies this`outCh, this`loop, this`emitted, this`mirror, this`log
      ensures Valid() && loop == Selecting && outCh == old(outCh) + [changes]
      ensures emitted == old(emitted) + [Emission(changes, now, lastDiff)]
      ensures log == old(log) + [Watching(Send)] && Turns(log) == Turns(old(log))
    {
      hide Refresh, After;
      ghost var s := View();
      outCh := outCh + [changes];
      loop, emitted := Selecting, emitted + [Emission(changes, now, lastDiff)];
      mirror := Refresh(mirror, knownFiles, changes);
      Commit(Watching(Send), s);
    }

    /** A tick, when the trees are `roots`: the known files become a complete scan, the difference is
        recorded, and if there is one, its paths are pending and the timer is armed or reset. */
    method Poll(roots: seq<Scan.Root>)
      requires Valid() && loop == Selecting
      modifies this`knownFiles, this`pendingChanges, this`debounceTimer, this`diffs, this`lastDiff, this`log
      ensures Valid() && Scan.Complete(tables, filter, roots, knownFiles)
      ensures |diffs| == |old(diffs)| + 1 && diffs[..|old(diffs)|] == old(diffs)
      ensures var changed := diffs[|diffs| - 1];
              && IsDiff(old(knownFiles), knownFiles, changed)
              && log == old(log) + [Watching(WatchEvent.Poll(knownFiles, changed))]
              && pendingChanges == old(pendingChanges) + changed
              && debounceTimer == (if changed == [] then old(debounceTimer) else Some(now + debounce))
              && lastDiff == (if changed == [] then old(lastDiff) else now)
      ensures Turns(log) == Turns(old(log)) + 1
    {
      hide *;
      var failed, currentMap := Scan.Scan(tables, filter, roots);
      if failed {
        return;
      }
      var changed := DetectDiff(knownFiles, currentMap);
      Record(currentMap, changed);
    }

    method Record(currentMap: Files, changed: Batch)
      requires Valid() && loop == Selecting && IsDiff(knownFiles, currentMap, changed)
      modifies this`knownFiles, this`pendingChanges, this`debounceTimer, this`diffs, this`lastDiff, this`log
      ensures Valid() && knownFiles == currentMap && diffs == old(diffs) + [changed]
      ensures log == old(log) + [Watching(WatchEvent.Poll(currentMap, changed))]
      ensures Turns(log) == Turns(old(log)) + 1
      ensures pendingChanges == old(pendingChanges) + changed
      ensures changed == [] ==> debounceTimer == old(debounceTimer) && lastDiff == old(lastDiff)
      ensures changed != [] ==> debounceTimer == Some(now + debounce) && lastDiff == now
    {
      hide IsDiff, After;
      ghost var s := View();
      knownFiles, diffs := currentMap, diffs + [changed];
      if |changed| > 0 {
        pendingChanges := pendingChanges + changed;
        debounceTimer, lastDiff := Some(now + debounce), now;
      }
      Commit(Watching(WatchEvent.Poll(currentMap, changed)), s);
    }
  }
}
