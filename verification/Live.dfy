/**
 Live reload (watcher/watcher.go, watcher/reloader.go) as a step system: the poll loop scans,
 compares, debounces and sends batches of changed paths on a channel of capacity 16; the reloader
 takes batches and restarts the workload. The clock, the scans, the context, the workload's own
 exit, and the choice a select makes between ready branches are free.
 */
module Live {
  import opened Common
  import opened Diff
  import opened Executions

  const CAPACITY: nat := 16

  type Batch = seq<string>

  // ------------------------------------------------------------------------------------------
  // The watcher
  // ------------------------------------------------------------------------------------------

  /** Where the poll loop stands: in its select, blocked in a send, or returned; a batch caught in a
      send by the cancellation is lost. */
  datatype Loop = Selecting | Sending(batch: Batch) | Ended(lost: Batch)

  /** A batch sent, when, and when the last non-empty difference before it was seen. */
  datatype Emission = Emission(batch: Batch, at: int, lastDiff: int)

  /** `mirror` is what a consumer holds that started from the baseline and refreshed, at each
      emission, the emitted paths only. */
  datatype Watch = Watch(
    debounce: int, now: int,
    known: Files, pending: Batch, timer: Option<int>, loop: Loop,
    diffs: seq<Batch>, lastDiff: int, emitted: seq<Emission>, mirror: Files)

  function Baseline(debounce: int, now: int, files: Files): Watch {
    Watch(debounce, now, files, [], None, Selecting, [], now, [], files)
  }

  datatype WatchEvent =
    | Poll(files: Files, changed: Batch)   // a tick: scan, compare, arm or reset the timer
    | Expire                               // the debounce window is over
    | Send
    | Quit
    | Tick(d: nat)

  function WatchStep(w: Watch, e: WatchEvent): Option<Watch> {
    match e
    case Poll(files, changed) =>
      if w.loop != Selecting || !IsDiff(w.known, files, changed) then None
      else if changed == [] then Some(w.(known := files, diffs := w.diffs + [changed]))
      else Some(w.(known := files, diffs := w.diffs + [changed], pending := w.pending + changed,
                   timer := Some(w.now + w.debounce), lastDiff := w.now))
    case Expire =>
      if w.loop != Selecting || w.timer == None || w.now < w.timer.value then None
      else Some(w.(pending := [], timer := None, loop := if w.pending != [] then Sending(w.pending) else Selecting))
    case Send =>
      if !w.loop.Sending? then None
      else Some(w.(loop := Selecting, emitted := w.emitted + [Emission(w.loop.batch, w.now, w.lastDiff)],
                   mirror := Refresh(w.mirror, w.known, w.loop.batch)))
    case Quit =>
      (match w.loop
       case Selecting => Some(w.(loop := Ended([])))
       case Sending(batch) => Some(w.(loop := Ended(batch)))
       case Ended(_) => None)
    case Tick(d) => Some(w.(now := w.now + d))
  }

  /** The batch that is neither pending nor emitted. */
  function InFlight(w: Watch): Batch {
    match w.loop case Selecting => [] case Sending(batch) => batch case Ended(lost) => lost
  }

  function Batches(emitted: seq<Emission>): seq<Batch> {
    seq(|emitted|, i requires 0 <= i < |emitted| => emitted[i].batch)
  }

  ghost predicate DebounceInv(w: Watch) {
    && (w.timer.Some? <==> w.pending != [])
    && (w.timer.Some? ==> w.timer.value == w.lastDiff + w.debounce)
    && (w.loop.Sending? ==> w.loop.batch != [] && w.pending == [] && w.now >= w.lastDiff + w.debounce)
    && (forall i :: 0 <= i < |w.emitted| ==>
          w.emitted[i].batch != [] && w.emitted[i].at >= w.emitted[i].lastDiff + w.debounce)
  }

  ghost predicate ConservationInv(w: Watch) {
    Flatten(Batches(w.emitted)) + InFlight(w) + w.pending == Flatten(w.diffs)
  }

  ghost predicate MirrorInv(w: Watch) {
    Changed(w.mirror, w.known) <= Elements(InFlight(w) + w.pending)
  }

  ghost predicate WatchInv(w: Watch) {
    DebounceInv(w) && ConservationInv(w) && MirrorInv(w)
  }

  lemma DebounceKept(w: Watch, e: WatchEvent)
    requires DebounceInv(w) && WatchStep(w, e).Some?
    ensures DebounceInv(WatchStep(w, e).value)
  {}

  lemma Regroup(a: Batch, b: Batch, c: Batch, d: Batch)
    ensures a + b + (c + d) == a + b + c + d
    ensures a + b + c == a + (b + c)
    ensures a + [] + c == a + c + []
  {}

  lemma ConservationKept(w: Watch, e: WatchEvent)
    requires DebounceInv(w) && ConservationInv(w) && WatchStep(w, e).Some?
    ensures ConservationInv(WatchStep(w, e).value)
  {
    match e {
      case Poll(files, changed) => PollConserves(w, files, changed);
      case Expire => ExpireConserves(w);
      case Send => SendConserves(w);
      case Quit => case Tick(d) =>
    }
  }

  lemma PollConserves(w: Watch, files: Files, changed: Batch)
    requires ConservationInv(w) && WatchStep(w, Poll(files, changed)).Some?
    ensures ConservationInv(WatchStep(w, Poll(files, changed)).value)
  {
    hide Flatten, IsDiff;
    var sent, flying := Flatten(Batches(w.emitted)), InFlight(w);
    FlattenSnoc(w.diffs, changed);
    Regroup(sent, flying, w.pending, changed);
    assert Flatten(w.diffs) + changed == sent + flying + (w.pending + changed);
    if changed == [] {
      assert w.pending + changed == w.pending;
    }
  }

  lemma ExpireConserves(w: Watch)
    requires ConservationInv(w) && WatchStep(w, Expire).Some?
    ensures ConservationInv(WatchStep(w, Expire).value)
  {
    hide Flatten;
    Regroup(Flatten(Batches(w.emitted)), [], w.pending, []);
  }

  lemma SendConserves(w: Watch)
    requires DebounceInv(w) && ConservationInv(w) && w.loop.Sending?
    ensures ConservationInv(WatchStep(w, Send).value)
  {
    hide Flatten;
    var w' := WatchStep(w, Send).value;
    FlattenSnoc(Batches(w.emitted), w.loop.batch);
    assert Batches(w'.emitted) == Batches(w.emitted) + [w.loop.batch];
    assert w'.pending == [];
    assert Flatten(Batches(w'.emitted)) + [] + [] == Flatten(Batches(w.emitted)) + w.loop.batch + [];
  }

  lemma MirrorKept(w: Watch, e: WatchEvent)
    requires DebounceInv(w) && MirrorInv(w) && WatchStep(w, e).Some?
    ensures MirrorInv(WatchStep(w, e).value)
    ensures e.Send? ==> WatchStep(w, e).value.mirror == w.known
  {
    match e {
      case Poll(files, changed) =>
        Triangle(w.mirror, w.known, files);
        assert Elements(InFlight(w) + w.pending) + Elements(changed) <= Elements(InFlight(w) + (w.pending + changed));
      case Expire =>
        assert [] + w.pending == w.pending + [];
      case Send =>
        assert w.loop.batch + [] == w.loop.batch;
        RefreshRepairs(w.mirror, w.known, w.loop.batch);
        assert Changed(w.known, w.known) == {};
      case Quit =>
      case Tick(d) =>
    }
  }

  lemma WatchStepKeepsInv(w: Watch, e: WatchEvent)
    requires WatchInv(w) && WatchStep(w, e).Some?
    ensures WatchInv(WatchStep(w, e).value)
  {
    DebounceKept(w, e);
    ConservationKept(w, e);
    MirrorKept(w, e);
  }

  lemma BaselineInv(debounce: int, now: int, files: Files)
    ensures WatchInv(Baseline(debounce, now, files))
  {
    assert Changed(files, files) == {};
  }

  // ------------------------------------------------------------------------------------------
  // The reloader
  // ------------------------------------------------------------------------------------------

  /** A workload: its Start failed, its Wait has not returned yet, or it has. */
  datatype Workload = StartFailed | Unfinished | Finished

  /** The next statement of Reloader.Run's loop. */
  datatype Pc =
    | Launching                        // create the runner and start it
    | Retrying                         // the start failed: wait for a change
    | Attending                        // the select over context, changes and exit
    | Draining(next: Option<Batch>)    // cancelled the workload: wait for its Wait to return
    | Exited                           // the workload ended on its own: wait for a change
    | Notifying(batch: Batch)          // OnRestart, and the next attempt
    | Returned

  /** `hooked` says that OnRestart is set; `calls` are its calls; `consumed` the batches taken. */
  datatype Reload = Reload(
    hooked: bool, pc: Pc, running: bool, attempt: nat,
    workloads: seq<Workload>, consumed: seq<Batch>, calls: seq<(nat, Batch)>)

  function Begun(hooked: bool): Reload {
    Reload(hooked, Launching, true, 1, [], [], [])
  }

  datatype ReloadEvent =
    | Launch(ok: bool)
    | Leave                            // the context branch of a select
    | Take                             // a batch arrives
    | Closed                           // the channel is closed and empty
    | SeeExit                          // procFinished
    | Notify
    | Finish                           // the current workload's Wait returns

  /** The last workload's Wait has returned. */
  predicate ProcFinished(r: Reload) {
    r.workloads != [] && r.workloads[|r.workloads| - 1] == Finished
  }

  function Leaving(r: Reload): Reload {
    r.(pc := Returned, running := false)
  }

  function ReloadStep(r: Reload, queue: seq<Batch>, closed: bool, ctxDone: bool, e: ReloadEvent)
    : Option<(Reload, seq<Batch>)>
  {
    match e
    case Launch(ok) =>
      if r.pc != Launching then None
      else if ok then Some((r.(workloads := r.workloads + [Unfinished], pc := Attending), queue))
      else
        var failed := r.(workloads := r.workloads + [StartFailed]);
        Some((if ctxDone then Leaving(failed) else failed.(pc := Retrying), queue))
    case Leave =>
      if !ctxDone then None
      else if r.pc == Retrying || r.pc == Exited then Some((Leaving(r), queue))
      else if r.pc == Attending then Some((r.(pc := Draining(None)), queue))
      else None
    case Take =>
      if queue == [] then None
      else
        var taken := r.(consumed := r.consumed + [queue[0]]);
        if r.pc == Retrying || r.pc == Exited then Some((taken.(pc := Notifying(queue[0])), queue[1..]))
        else if r.pc == Attending then Some((taken.(pc := Draining(Some(queue[0]))), queue[1..]))
        else None
    case Closed =>
      if queue != [] || !closed then None
      else if r.pc == Retrying || r.pc == Exited then Some((Leaving(r), queue))
      else if r.pc == Attending then Some((r.(pc := Draining(None)), queue))
      else None
    case SeeExit =>
      if !ProcFinished(r) then None
      else if r.pc == Attending then Some((r.(pc := Exited), queue))
      else if r.pc == Draining(None) then Some((Leaving(r), queue))
      else if r.pc.Draining? then Some((r.(pc := Notifying(r.pc.next.value)), queue))
      else None
    case Notify =>
      if !r.pc.Notifying? then None
      else Some((r.(pc := Launching, attempt := r.attempt + 1,
                    calls := if r.hooked then r.calls + [(r.attempt, r.pc.batch)] else r.calls), queue))
    case Finish =>
      if r.workloads == [] || r.workloads[|r.workloads| - 1] != Unfinished then None
      else Some((r.(workloads := r.workloads[|r.workloads| - 1 := Finished]), queue))
  }

  /** A batch has been taken and the next Start is still to come. */
  predicate BetweenTakeAndStart(pc: Pc) {
    match pc
    case Launching | Notifying(_) => true
    case Draining(next) => next.Some?
    case _ => false
  }

  ghost predicate CountInv(r: Reload) {
    && |r.workloads| == |r.consumed| + (if BetweenTakeAndStart(r.pc) then 0 else 1)
    && (r.pc.Notifying? ==> r.consumed != [] && r.pc.batch == r.consumed[|r.consumed| - 1])
    && (r.pc.Draining? && r.pc.next.Some? ==> r.consumed != [] && r.pc.next.value == r.consumed[|r.consumed| - 1])
    && r.attempt == |r.consumed| + (if r.pc.Notifying? || (r.pc.Draining? && r.pc.next.Some?) then 0 else 1)
  }

  ghost predicate CallInv(r: Reload) {
    && |r.calls| == (if r.hooked then r.attempt - 1 else 0)
    && (r.hooked ==> r.attempt - 1 <= |r.consumed|)
    && forall i :: 0 <= i < |r.calls| && i < |r.consumed| ==> r.calls[i] == (i + 1, r.consumed[i])
  }

  ghost predicate WorkloadInv(r: Reload) {
    && (forall i :: 0 <= i < |r.workloads| - 1 ==> r.workloads[i] != Unfinished)
    && (!r.pc.Attending? && !r.pc.Draining? ==> forall i :: 0 <= i < |r.workloads| ==> r.workloads[i] != Unfinished)
    && (r.pc.Attending? || r.pc.Draining? || r.pc.Exited? ==>
          r.workloads != [] && r.workloads[|r.workloads| - 1] != StartFailed)
    && (r.running <==> r.pc != Returned)
  }

  ghost predicate ReloadInv(r: Reload) {
    r.attempt >= 1 && CountInv(r) && CallInv(r) && WorkloadInv(r)
  }

  lemma CountKept(r: Reload, queue: seq<Batch>, closed: bool, ctxDone: bool, e: ReloadEvent)
    requires ReloadInv(r) && ReloadStep(r, queue, closed, ctxDone, e).Some?
    ensures var r' := ReloadStep(r, queue, closed, ctxDone, e).value.0;
            CountInv(r') && CallInv(r') && r'.attempt >= 1
  {
    match e {
      case Launch(ok) => case Leave => case Take => case Closed => case SeeExit => case Notify => case Finish =>
    }
  }

  lemma WorkloadKept(r: Reload, queue: seq<Batch>, closed: bool, ctxDone: bool, e: ReloadEvent)
    requires WorkloadInv(r) && ReloadStep(r, queue, closed, ctxDone, e).Some?
    ensures WorkloadInv(ReloadStep(r, queue, closed, ctxDone, e).value.0)
  {
    match e {
      case Launch(ok) => case Leave => case Take => case Closed => case SeeExit => case Notify => case Finish =>
    }
  }

  // ------------------------------------------------------------------------------------------
  // Both, connected by the channel
  // ------------------------------------------------------------------------------------------

  datatype Sys = Sys(w: Watch, queue: seq<Batch>, closed: bool, ctxDone: bool, r: Reload)

  function Init(debounce: int, now: int, files: Files, hooked: bool): Sys {
    Sys(Baseline(debounce, now, files), [], false, false, Begun(hooked))
  }

  datatype Event = Watching(w: WatchEvent) | Reloading(r: ReloadEvent) | Cancel

  function Step(s: Sys, e: Event): Option<Sys> {
    match e
    case Watching(we) =>
      if (we.Send? && |s.queue| >= CAPACITY) || (we.Quit? && !s.ctxDone) then None
      else
        (match WatchStep(s.w, we)
         case None => None
         case Some(w) =>
           Some(s.(w := w, closed := s.closed || we.Quit?,
                   queue := if we.Send? then s.queue + [s.w.loop.batch] else s.queue)))
    case Reloading(re) =>
      (match ReloadStep(s.r, s.queue, s.closed, s.ctxDone, re)
       case None => None
       case Some((r, queue)) => Some(s.(r := r, queue := queue)))
    case Cancel => Some(s.(ctxDone := true))
  }

  ghost predicate ChannelInv(s: Sys) {
    && Batches(s.w.emitted) == s.r.consumed + s.queue
    && |s.queue| <= CAPACITY
    && (s.closed <==> s.w.loop.Ended?)
  }

  ghost predicate Inv(s: Sys) {
    WatchInv(s.w) && ReloadInv(s.r) && ChannelInv(s)
  }

  lemma SendKeepsChannel(s: Sys)
    requires ChannelInv(s) && Step(s, Watching(Send)).Some?
    ensures ChannelInv(Step(s, Watching(Send)).value)
  {
    var s', batch := Step(s, Watching(Send)).value, s.w.loop.batch;
    assert Batches(s'.w.emitted) == Batches(s.w.emitted) + [batch];
    assert s.r.consumed + s.queue + [batch] == s.r.consumed + (s.queue + [batch]);
  }

  lemma WatchKeepsChannel(s: Sys, e: WatchEvent)
    requires ChannelInv(s) && Step(s, Watching(e)).Some? && !e.Send?
    ensures ChannelInv(Step(s, Watching(e)).value)
  {}

  lemma ReloadKeepsChannel(s: Sys, e: ReloadEvent)
    requires ChannelInv(s) && Step(s, Reloading(e)).Some?
    ensures ChannelInv(Step(s, Reloading(e)).value)
  {
    if e.Take? {
      assert s.r.consumed + s.queue == s.r.consumed + [s.queue[0]] + s.queue[1..];
    }
  }

  lemma StepKeepsInv(s: Sys, e: Event)
    requires Inv(s) && Step(s, e).Some?
    ensures Inv(Step(s, e).value)
  {
    match e {
      case Watching(we) =>
        WatchStepKeepsInv(s.w, we);
        if we.Send? { SendKeepsChannel(s); } else { WatchKeepsChannel(s, we); }
      case Reloading(re) =>
        ReloadKeepsChannel(s, re);
        CountKept(s.r, s.queue, s.closed, s.ctxDone, re);
        WorkloadKept(s.r, s.queue, s.closed, s.ctxDone, re);
      case Cancel =>
    }
  }

  // ------------------------------------------------------------------------------------------
  // What every run guarantees
  // ------------------------------------------------------------------------------------------

  function After(start: Sys, es: seq<Event>): Option<Sys> {
    Exec(Step, start, es)
  }

  ghost predicate Initial(s: Sys) {
    exists debounce, now, files, hooked :: s == Init(debounce, now, files, hooked)
  }

  lemma InitialInv(s: Sys)
    requires Initial(s)
    ensures Inv(s)
  {
    var debounce, now, files, hooked :| s == Init(debounce, now, files, hooked);
    BaselineInv(debounce, now, files);
  }

  lemma {:induction false} Reachable(start: Sys, es: seq<Event>)
    requires Initial(start) && After(start, es).Some?
    ensures Inv(After(start, es).value)
  {
    InitialInv(start);
    if es != [] {
      Reachable(start, es[..|es| - 1]);
      StepKeepsInv(After(start, es[..|es| - 1]).value, es[|es| - 1]);
    }
  }

  /** The poll loop is blocked: in a send on a full channel, with the context alive. Its select can
      always be woken by the ticker. */
  predicate SendStuck(s: Sys) {
    s.w.loop.Sending? && |s.queue| >= CAPACITY && !s.ctxDone
  }

  lemma SendStuckIffNoAction(s: Sys)
    requires s.w.loop.Sending?
    ensures SendStuck(s) <==> forall e: WatchEvent :: !e.Tick? ==> Step(s, Watching(e)) == None
  {
    assert Step(s, Watching(Send)) == None && Step(s, Watching(Quit)) == None ==> SendStuck(s);
  }

  /** Reloader.Run is blocked: no channel that its select waits for is ready. */
  predicate RunStuck(s: Sys) {
    match s.r.pc
    case Retrying | Exited => !s.ctxDone && !s.closed && s.queue == []
    case Attending => !s.ctxDone && !s.closed && s.queue == [] && !ProcFinished(s.r)
    case Draining(_) => !ProcFinished(s.r)
    case _ => false
  }

  lemma RunStuckIffNoAction(s: Sys)
    requires s.r.pc != Returned
    ensures RunStuck(s) <==> forall e: ReloadEvent :: !e.Finish? ==> Step(s, Reloading(e)) == None
  {
    if !RunStuck(s) {
      var e :=
        match s.r.pc
        case Launching => Launch(true)
        case Notifying(_) => Notify
        case Draining(_) => SeeExit
        case _ => if s.ctxDone then Leave else if s.queue != [] then Take else if s.closed then Closed else SeeExit;
      assert Step(s, Reloading(e)).Some?;
    }
  }

  /** The differences that the ticks of a run found, in order. */
  function Changes(es: seq<Event>): seq<Batch> {
    if es == [] then []
    else
      var e := es[|es| - 1];
      Changes(es[..|es| - 1]) + if e.Watching? && e.w.Poll? then [e.w.changed] else []
  }

  /** What the last tick saw, or the baseline. */
  function LastScan(start: Sys, es: seq<Event>): Files {
    if es == [] then start.w.known
    else
      var e := es[|es| - 1];
      if e.Watching? && e.w.Poll? then e.w.files else LastScan(start, es[..|es| - 1])
  }

  /** How much time has passed. */
  function Elapsed(es: seq<Event>): nat {
    if es == [] then 0
    else
      var e := es[|es| - 1];
      Elapsed(es[..|es| - 1]) + if e.Watching? && e.w.Tick? then e.w.d else 0
  }

  /** How much time had passed when a tick last found a difference; 0 if none did. */
  function LastChange(es: seq<Event>): nat {
    if es == [] then 0
    else
      var e := es[|es| - 1];
      if e.Watching? && e.w.Poll? && e.w.changed != [] then Elapsed(es) else LastChange(es[..|es| - 1])
  }

  /** The fields of the watcher record what happened. */
  ghost predicate Records(start: Sys, es: seq<Event>, w: Watch) {
    && w.debounce == start.w.debounce
    && w.known == LastScan(start, es)
    && w.diffs == Changes(es)
    && w.now == start.w.now + Elapsed(es)
    && w.lastDiff == start.w.now + LastChange(es)
  }

  lemma {:induction false} RunIsRecorded(start: Sys, es: seq<Event>)
    requires Initial(start) && After(start, es).Some?
    ensures Records(start, es, After(start, es).value.w)
  {
    if es == [] {
      var debounce, now, files, hooked :| start == Init(debounce, now, files, hooked);
    } else {
      RunIsRecorded(start, es[..|es| - 1]);
      StepIsRecorded(start, es, After(start, es[..|es| - 1]).value);
    }
  }

  lemma StepIsRecorded(start: Sys, es: seq<Event>, s: Sys)
    requires es != [] && Records(start, es[..|es| - 1], s.w) && Step(s, es[|es| - 1]).Some?
    ensures Records(start, es, Step(s, es[|es| - 1]).value.w)
  {
    hide IsDiff, Refresh, ReloadStep;
    var e := es[|es| - 1];
    if e.Watching? {
      match e.w {
        case Poll(files, changed) => case Expire => case Send => case Quit => case Tick(d) =>
      }
    }
  }

  /** Each tick reports the difference between what it saw and what the tick before it saw. */
  lemma TicksReportDifferences(start: Sys, es: seq<Event>, files: Files, changed: Batch)
    requires Initial(start) && After(start, es).Some?
    requires Step(After(start, es).value, Watching(Poll(files, changed))).Some?
    ensures IsDiff(LastScan(start, es), files, changed)
  {
    RunIsRecorded(start, es);
  }

  /** Conservation: all differences found, in order, are the batches emitted, then the batch
      being sent or, after a cancellation, the one lost in a send, then the pending paths. */
  lemma NoChangeIsLost(start: Sys, es: seq<Event>)
    requires Initial(start) && After(start, es).Some?
    ensures var w := After(start, es).value.w;
            && Flatten(Changes(es)) == Flatten(Batches(w.emitted)) + InFlight(w) + w.pending
            && (InFlight(w) != [] ==> w.loop.Sending? || After(start, es).value.closed)
  {
    Reachable(start, es);
    RunIsRecorded(start, es);
  }

  /** The timer is armed exactly when paths are pending; no batch is empty; and each is emitted no
      sooner than the debounce time after the last difference seen before it. */
  lemma BatchesWaitForQuiet(start: Sys, es: seq<Event>, i: nat)
    requires Initial(start) && After(start, es).Some?
    ensures var w := After(start, es).value.w;
            && (w.timer.Some? <==> w.pending != [])
            && (i < |w.emitted| ==>
                  w.emitted[i].batch != [] && w.emitted[i].at >= w.emitted[i].lastDiff + w.debounce)
  {
    Reachable(start, es);
  }

  /** The debounce window, in terms of what happened: when a batch is sent, at least the debounce time
      has passed since a tick last found a difference; and while the loop selects, it can take up the
      pending paths exactly when there are some and that time has passed. */
  lemma QuietWindow(start: Sys, es: seq<Event>)
    requires Initial(start) && After(start, es).Some?
    ensures var s := After(start, es).value;
            && (Step(s, Watching(Send)).Some? ==> Elapsed(es) >= LastChange(es) + start.w.debounce)
            && (s.w.loop == Selecting ==>
                  (Step(s, Watching(Expire)).Some? <==>
                     s.w.pending != [] && Elapsed(es) >= LastChange(es) + start.w.debounce))
  {
    hide IsDiff, Refresh;
    Reachable(start, es);
    RunIsRecorded(start, es);
  }

  /** A consumer that refreshes only the emitted paths holds exactly what the last tick saw after each
      emission, and in between is wrong at most on paths not emitted yet. */
  lemma MirrorAgrees(start: Sys, es: seq<Event>, e: Event)
    requires Initial(start) && After(start, es).Some? && Step(After(start, es).value, e).Some?
    ensures var s, s' := After(start, es).value, Step(After(start, es).value, e).value;
            && Changed(s.w.mirror, LastScan(start, es)) <= Elements(InFlight(s.w) + s.w.pending)
            && (e == Watching(Send) ==> s'.w.mirror == LastScan(start, es))
  {
    Reachable(start, es);
    RunIsRecorded(start, es);
    if e == Watching(Send) {
      MirrorKept(After(start, es).value.w, Send);
    }
  }

  /** End to end: the batches emitted are the batches consumed, then those in the channel, at most
      16; the i-th OnRestart call carries attempt i and the i-th batch; and the number of Start calls
      is one more than the batches consumed, except from taking a batch to the next Start. */
  lemma EndToEnd(start: Sys, es: seq<Event>)
    requires Initial(start) && After(start, es).Some?
    ensures var s := After(start, es).value;
            && Batches(s.w.emitted) == s.r.consumed + s.queue && |s.queue| <= CAPACITY
            && |s.r.calls| <= |s.r.consumed|
            && (forall i :: 0 <= i < |s.r.calls| ==> s.r.calls[i] == (i + 1, s.r.consumed[i]))
            && (s.r.hooked && s.r.pc == Launching ==> |s.r.calls| == |s.r.consumed|)
            && |s.r.workloads| == |s.r.consumed| + (if BetweenTakeAndStart(s.r.pc) then 0 else 1)
  {
    Reachable(start, es);
  }

  /** Never two unfinished workloads: when a workload is started, every earlier one that started has
      finished; and when Run has returned none is unfinished and the running flag is off. */
  lemma OneWorkloadAtATime(start: Sys, es: seq<Event>, i: nat)
    requires Initial(start) && After(start, es).Some?
    ensures var r := After(start, es).value.r;
            && (i < |r.workloads| && r.workloads[i] == Unfinished ==>
                  i == |r.workloads| - 1 && r.pc != Launching && r.pc != Returned)
            && (r.running <==> r.pc != Returned)
  {
    Reachable(start, es);
  }
}
