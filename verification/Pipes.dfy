/**
 The I/O copy goroutines (pipe.go). Each copier moves one pipe's bytes to its destination with
 io.Copy: read a chunk, write it, until end of file or an error; then it records the error, if
 any, and leaves the wait group. The child writing, the copiers, and the forced close of the
 read ends interleave freely.
 */
module Pipes {
  import opened Common
  import opened Executions

  /** Where a copier stands. `Writing` holds the chunk just read. */
  datatype Phase = Reading | Writing(chunk: seq<byte>) | Returning(failed: bool) | Leaving | Ended

  /** One pipe and its copier: `source` is all that was ever written to the write end, `eof` says
      that no write end is left open, `taken` counts the bytes read, `closed` is the read end. */
  datatype Pipe = Pipe(source: seq<byte>, eof: bool, taken: nat, closed: bool, phase: Phase)

  /** One Write call on a destination, by copier `id`. */
  datatype Chunk = Chunk(id: nat, data: seq<byte>)

  /** `out` is the order in which Write calls took effect, over all destinations; a shared
      destination, guarded by syncWriter's mutex, receives exactly this order. */
  datatype IO = IO(pipes: seq<Pipe>, out: seq<Chunk>, errors: seq<nat>, wg: nat)

  const EMPTY := IO([], [], [], 0)

  datatype Event =
    | Produce(i: nat, data: seq<byte>)      // the child side writes
    | HangUp(i: nat)                        // the last write end goes away
    | Read(i: nat, n: nat)
    | ReadEof(i: nat)
    | ReadFail(i: nat)                      // a closed read end, or any other read error
    | Write(i: nat, n: nat, ok: bool)       // n bytes arrive; a short write is an error
    | Record(i: nat)                        // append to pm.errors
    | Leave(i: nat)                         // wg.Done

  function With(io: IO, i: nat, p: Pipe): IO
    requires i < |io.pipes|
  {
    io.(pipes := io.pipes[i := p])
  }

  function Step(io: IO, e: Event): Option<IO> {
    if e.i >= |io.pipes| then None
    else
      var p := io.pipes[e.i];
      match e
      case Produce(i, data) =>
        if p.eof || p.closed then None
        else Some(With(io, i, p.(source := p.source + data)))
      case HangUp(i) =>
        Some(With(io, i, p.(eof := true)))
      case Read(i, n) =>
        if p.phase != Reading || p.closed || n == 0 || p.taken + n > |p.source| then None
        else Some(With(io, i, p.(taken := p.taken + n, phase := Writing(p.source[p.taken..p.taken + n]))))
      case ReadEof(i) =>
        if p.phase != Reading || p.closed || !p.eof || p.taken != |p.source| then None
        else Some(With(io, i, p.(phase := Returning(false))))
      case ReadFail(i) =>
        if p.phase != Reading then None
        else Some(With(io, i, p.(phase := Returning(true))))
      case Write(i, n, ok) =>
        if !p.phase.Writing? || n > |p.phase.chunk| || (ok && n < |p.phase.chunk|) then None
        else
          Some(With(io, i, p.(phase := if ok then Reading else Returning(true)))
               .(out := io.out + [Chunk(i, p.phase.chunk[..n])]))
      case Record(i) =>
        if p.phase != Returning(true) then None
        else Some(With(io, i, p.(phase := Leaving)).(errors := io.errors + [i]))
      case Leave(i) =>
        if (p.phase != Returning(false) && p.phase != Leaving) || io.wg == 0 then None
        else Some(With(io, i, p.(phase := Ended)).(wg := io.wg - 1))
  }

  /** startCopy: track a fresh pipe and launch its copier. */
  function Started(io: IO): IO {
    io.(pipes := io.pipes + [Pipe([], false, 0, false, Reading)], wg := io.wg + 1)
  }

  /** forceClose: close every tracked read end. */
  function ForceClosed(io: IO): IO {
    io.(pipes := seq(|io.pipes|, i requires 0 <= i < |io.pipes| => io.pipes[i].(closed := true)))
  }

  /** What copier `i` has delivered so far. */
  function Delivered(out: seq<Chunk>, i: nat): seq<byte> {
    if out == [] then []
    else
      var last := out[|out| - 1];
      Delivered(out[..|out| - 1], i) + (if last.id == i then last.data else [])
  }

  /** The contents of a destination that all copiers share. */
  function Buffer(out: seq<Chunk>): seq<byte> {
    if out == [] then [] else Buffer(out[..|out| - 1]) + out[|out| - 1].data
  }

  function Live(pipes: seq<Pipe>): nat {
    if pipes == [] then 0
    else Live(pipes[..|pipes| - 1]) + (if pipes[|pipes| - 1].phase == Ended then 0 else 1)
  }

  predicate AllEnded(io: IO) {
    forall i :: 0 <= i < |io.pipes| ==> io.pipes[i].phase == Ended
  }

  ghost predicate CopierInv(io: IO, i: nat)
    requires i < |io.pipes|
  {
    var p, d := io.pipes[i], Delivered(io.out, i);
    && p.taken <= |p.source|
    && d <= p.source
    && (i in io.errors ==> p.phase in {Leaving, Ended})
    && (i !in io.errors ==>
          match p.phase
          case Reading => d == p.source[..p.taken]
          case Writing(chunk) => d + chunk == p.source[..p.taken]
          case Returning(failed) => !failed ==> p.eof && d == p.source
          case Leaving => false
          case Ended => p.eof && d == p.source)
  }

  /** Every destination holds a prefix of its stream, and all of it up to end of file where the
      copier recorded no error. */
  ghost predicate Complete(io: IO) {
    forall i :: 0 <= i < |io.pipes| ==>
      && Delivered(io.out, i) <= io.pipes[i].source
      && (i !in io.errors ==> io.pipes[i].eof && Delivered(io.out, i) == io.pipes[i].source)
  }

  ghost predicate Inv(io: IO) {
    && (forall i :: 0 <= i < |io.pipes| ==> CopierInv(io, i))
    && (forall k :: 0 <= k < |io.out| ==> io.out[k].id < |io.pipes|)
    && (forall k :: 0 <= k < |io.errors| ==> io.errors[k] < |io.pipes|)
    && (forall j, k :: 0 <= j < k < |io.errors| ==> io.errors[j] != io.errors[k])
    && io.wg == Live(io.pipes)
  }

  lemma {:induction false} LiveUpdate(pipes: seq<Pipe>, i: nat, p: Pipe)
    requires i < |pipes|
    ensures Live(pipes[i := p]) ==
            Live(pipes) - (if pipes[i].phase == Ended then 0 else 1) + (if p.phase == Ended then 0 else 1)
  {
    var n := |pipes| - 1;
    if i == n {
      assert pipes[i := p][..n] == pipes[..n];
    } else {
      LiveUpdate(pipes[..n], i, p);
      assert pipes[i := p][..n] == pipes[..n][i := p];
    }
  }

  /** The wait group reaches zero exactly when every copier goroutine has ended. */
  lemma {:induction false} LiveZero(pipes: seq<Pipe>)
    ensures Live(pipes) == 0 <==> forall i :: 0 <= i < |pipes| ==> pipes[i].phase == Ended
  {
    if pipes != [] {
      LiveZero(pipes[..|pipes| - 1]);
      assert forall i :: 0 <= i < |pipes| - 1 ==> pipes[i] == pipes[..|pipes| - 1][i];
    }
  }

  lemma DeliveredSnoc(out: seq<Chunk>, c: Chunk, i: nat)
    ensures Delivered(out + [c], i) == Delivered(out, i) + if c.id == i then c.data else []
  {
    assert (out + [c])[..|out|] == out;
  }

  /** Every action of a copier or of the child keeps the invariant. */
  lemma StepKeepsInv(io: IO, e: Event)
    requires Inv(io) && Step(io, e).Some?
    ensures Inv(Step(io, e).value)
  {
    hide Delivered, Live;
    var io' := Step(io, e).value;
    LiveUpdate(io.pipes, e.i, io'.pipes[e.i]);
    assert CopierInv(io, e.i);
    forall j | 0 <= j < |io.pipes|
      ensures CopierInv(io', j)
    {
      assert CopierInv(io, j);
      if e.Write? {
        DeliveredSnoc(io.out, Chunk(e.i, io.pipes[e.i].phase.chunk[..e.n]), j);
        if j == e.i {
          WriteKeepsPrefix(io, e);
        }
      }
    }
  }

  /** A write moves a prefix of the chunk, so what was delivered stays a prefix of the stream. */
  lemma WriteKeepsPrefix(io: IO, e: Event)
    requires Inv(io) && e.Write? && Step(io, e).Some?
    ensures CopierInv(Step(io, e).value, e.i)
  {
    var p := io.pipes[e.i];
    var d, chunk := Delivered(io.out, e.i), p.phase.chunk;
    assert CopierInv(io, e.i);
    DeliveredSnoc(io.out, Chunk(e.i, chunk[..e.n]), e.i);
    assert d + chunk[..e.n] == (d + chunk)[..|d| + e.n];
  }

  lemma StartedKeepsInv(io: IO)
    requires Inv(io)
    ensures Inv(Started(io))
  {
    var io', n := Started(io), |io.pipes|;
    assert io'.pipes[..n] == io.pipes;
    DeliveredFresh(io.out, n);
    forall j | 0 <= j <= n
      ensures CopierInv(io', j)
    {
      if j < n { assert CopierInv(io, j); }
    }
  }

  lemma {:induction false} DeliveredFresh(out: seq<Chunk>, i: nat)
    requires forall k :: 0 <= k < |out| ==> out[k].id < i
    ensures Delivered(out, i) == []
  {
    if out != [] {
      DeliveredFresh(out[..|out| - 1], i);
    }
  }

  lemma ForceClosedKeepsInv(io: IO)
    requires Inv(io)
    ensures Inv(ForceClosed(io))
  {
    LiveClosed(io, |io.pipes|);
    var io' := ForceClosed(io);
    assert io.pipes[..|io.pipes|] == io.pipes && io'.pipes[..|io.pipes|] == io'.pipes;
    forall j | 0 <= j < |io.pipes|
      ensures CopierInv(io', j)
    {
      assert CopierInv(io, j);
    }
  }

  lemma {:induction false} LiveClosed(io: IO, n: nat)
    requires n <= |io.pipes|
    ensures Live(ForceClosed(io).pipes[..n]) == Live(io.pipes[..n])
  {
    if n > 0 {
      LiveClosed(io, n - 1);
      assert io.pipes[..n][..n - 1] == io.pipes[..n - 1];
      assert ForceClosed(io).pipes[..n][..n - 1] == ForceClosed(io).pipes[..n - 1];
    }
  }

  // ------------------------------------------------------------------------------------------
  // Completeness and interleaving
  // ------------------------------------------------------------------------------------------

  /** `whole` is made of the elements of `a` and of `b`, each in its own order. */
  ghost predicate Interleaving(whole: seq<byte>, a: seq<byte>, b: seq<byte>) {
    if whole == [] then a == [] && b == []
    else
      var n := |whole| - 1;
      || (a != [] && a[|a| - 1] == whole[n] && Interleaving(whole[..n], a[..|a| - 1], b))
      || (b != [] && b[|b| - 1] == whole[n] && Interleaving(whole[..n], a, b[..|b| - 1]))
  }

  lemma {:induction false} InterleavingExtends(whole: seq<byte>, a: seq<byte>, b: seq<byte>, more: seq<byte>)
    requires Interleaving(whole, a, b)
    ensures Interleaving(whole + more, a + more, b)
    ensures Interleaving(whole + more, a, b + more)
    decreases |more|
  {
    if more == [] {
      assert whole + more == whole && a + more == a && b + more == b;
    } else {
      var less, n := more[..|more| - 1], |more| - 1;
      InterleavingExtends(whole, a, b, less);
      assert (whole + more)[..|whole| + n] == whole + less;
      assert (a + more)[..|a| + n] == a + less;
      assert (b + more)[..|b| + n] == b + less;
    }
  }

  /** With two copiers, the shared buffer interleaves the two delivered streams. */
  lemma {:induction false} BufferInterleaves(out: seq<Chunk>)
    requires forall k :: 0 <= k < |out| ==> out[k].id < 2
    ensures Interleaving(Buffer(out), Delivered(out, 0), Delivered(out, 1))
  {
    if out != [] {
      var less, last := out[..|out| - 1], out[|out| - 1];
      BufferInterleaves(less);
      InterleavingExtends(Buffer(less), Delivered(less, 0), Delivered(less, 1), last.data);
      assert Delivered(less, 0) + [] == Delivered(less, 0);
      assert Delivered(less, 1) + [] == Delivered(less, 1);
    }
  }

  /** The combined output of a command: at any moment it is an order-preserving interleaving of a
      prefix of each stream; and once the copiers have ended, of the whole of every stream whose
      copier recorded no error. */
  lemma CombinedOutputInterleaves(io: IO)
    requires Inv(io) && |io.pipes| == 2
    ensures exists a, b ::
              && a <= io.pipes[0].source && b <= io.pipes[1].source
              && Interleaving(Buffer(io.out), a, b)
              && (AllEnded(io) && 0 !in io.errors ==> io.pipes[0].eof && a == io.pipes[0].source)
              && (AllEnded(io) && 1 !in io.errors ==> io.pipes[1].eof && b == io.pipes[1].source)
  {
    BufferInterleaves(io.out);
    assert CopierInv(io, 0) && CopierInv(io, 1);
  }

  lemma EndedIsComplete(io: IO)
    requires Inv(io) && AllEnded(io)
    ensures Complete(io)
  {
    forall i | 0 <= i < |io.pipes|
      ensures Delivered(io.out, i) <= io.pipes[i].source
      ensures i !in io.errors ==> io.pipes[i].eof && Delivered(io.out, i) == io.pipes[i].source
    {
      assert CopierInv(io, i);
    }
  }

  /** Once every copier has ended nothing is written any more. */
  lemma EndedStays(io: IO, e: Event)
    requires AllEnded(io) && Step(io, e).Some?
    ensures var io' := Step(io, e).value;
            AllEnded(io') && io'.out == io.out && io'.errors == io.errors && io'.wg == io.wg
  {}

  // ------------------------------------------------------------------------------------------
  // Closing the read ends makes the copiers end
  // ------------------------------------------------------------------------------------------

  /** The most actions a copier whose read end is closed can still take. */
  function Remaining(p: Pipe): nat {
    match p.phase
    case Ended => 0
    case Leaving => 1
    case Returning(_) => 2
    case Reading => 3
    case Writing(_) => 4
  }

  function TotalRemaining(pipes: seq<Pipe>): nat {
    if pipes == [] then 0
    else TotalRemaining(pipes[..|pipes| - 1]) + Remaining(pipes[|pipes| - 1])
  }

  predicate AllClosed(io: IO) {
    forall i :: 0 <= i < |io.pipes| ==> io.pipes[i].closed
  }

  lemma {:induction false} TotalUpdate(pipes: seq<Pipe>, i: nat, p: Pipe)
    requires i < |pipes|
    ensures TotalRemaining(pipes[i := p]) == TotalRemaining(pipes) - Remaining(pipes[i]) + Remaining(p)
  {
    var n := |pipes| - 1;
    if i == n {
      assert pipes[i := p][..n] == pipes[..n];
    } else {
      TotalUpdate(pipes[..n], i, p);
      assert pipes[i := p][..n] == pipes[..n][i := p];
    }
  }

  predicate CopierAction(e: Event) {
    !e.Produce? && !e.HangUp?
  }

  /** After the forced close, every action of a copier brings the end of the copying closer. */
  lemma ClosedCopiersProgress(io: IO, e: Event)
    requires AllClosed(io) && Step(io, e).Some?
    ensures AllClosed(Step(io, e).value)
    ensures CopierAction(e) ==> TotalRemaining(Step(io, e).value.pipes) < TotalRemaining(io.pipes)
    ensures !CopierAction(e) ==> TotalRemaining(Step(io, e).value.pipes) == TotalRemaining(io.pipes)
  {
    TotalUpdate(io.pipes, e.i, Step(io, e).value.pipes[e.i]);
  }

  function CountCopierActions(es: seq<Event>): nat {
    if es == [] then 0
    else CountCopierActions(es[..|es| - 1]) + if CopierAction(es[|es| - 1]) then 1 else 0
  }

  /** So `wait` cannot hang after its forced close: the copiers take at most four actions each,
      and as long as one of them has not ended, some copier can act. */
  lemma {:induction false} ForcedCloseDrains(io: IO, es: seq<Event>)
    requires Inv(io) && AllClosed(io) && Exec(Step, io, es).Some?
    ensures var io' := Exec(Step, io, es).value;
            && Inv(io') && AllClosed(io')
            && CountCopierActions(es) + TotalRemaining(io'.pipes) <= TotalRemaining(io.pipes) <= 4 * |io.pipes|
            && (AllEnded(io') <==> io'.wg == 0)
            && (!AllEnded(io') ==> exists e :: CopierAction(e) && Step(io', e).Some?)
    decreases |es|
  {
    if es == [] {
      TotalBounded(io.pipes);
    } else {
      var less := es[..|es| - 1];
      ForcedCloseDrains(io, less);
      var before := Exec(Step, io, less).value;
      StepKeepsInv(before, es[|es| - 1]);
      ClosedCopiersProgress(before, es[|es| - 1]);
    }
    var io' := Exec(Step, io, es).value;
    LiveZero(io'.pipes);
    if !AllEnded(io') {
      SomeCopierCanAct(io');
    }
  }

  lemma {:induction false} TotalBounded(pipes: seq<Pipe>)
    ensures TotalRemaining(pipes) <= 4 * |pipes|
  {
    if pipes != [] {
      TotalBounded(pipes[..|pipes| - 1]);
    }
  }

  lemma SomeCopierCanAct(io: IO)
    requires Inv(io) && !AllEnded(io)
    ensures exists e :: CopierAction(e) && Step(io, e).Some?
  {
    LiveZero(io.pipes);
    var i :| 0 <= i < |io.pipes| && io.pipes[i].phase != Ended;
    var phase := io.pipes[i].phase;
    var e :=
      if phase.Reading? then ReadFail(i)
      else if phase.Writing? then Write(i, |phase.chunk|, true)
      else if phase == Returning(true) then Record(i)
      else Leave(i);
    assert CopierAction(e) && Step(io, e).Some?;
  }

  // ------------------------------------------------------------------------------------------
  // The pipe manager
  // ------------------------------------------------------------------------------------------

  class PipeManager {
    var pipes: seq<Pipe>
    var errors: seq<nat>
    var wg: nat
    var out: seq<Chunk>

    function View(): IO
      reads this
    {
      IO(pipes, out, errors, wg)
    }

    constructor ()
      ensures View() == EMPTY
    {
      pipes, errors, wg, out := [], [], 0, [];
    }

    method StartCopy()
      modifies this
      ensures View() == Started(old(View()))
    {
      pipes := pipes + [Pipe([], false, 0, false, Reading)];
      wg := wg + 1;
    }

    method ForceClose()
      modifies this`pipes
      ensures View() == ForceClosed(old(View()))
    {
      var i := 0;
      while i < |pipes|
        invariant 0 <= i <= |pipes| == |old(pipes)|
        invariant forall k :: 0 <= k < i ==> pipes[k] == old(pipes)[k].(closed := true)
        invariant forall k :: i <= k < |pipes| ==> pipes[k] == old(pipes)[k]
      {
        pipes := pipes[i := pipes[i].(closed := true)];
        i := i + 1;
      }
    }

    /** One action of a copier goroutine or of the child. */
    method Act(e: Event)
      requires Step(View(), e).Some?
      modifies this
      ensures Step(old(View()), e) == Some(View())
    {
      var io := Step(View(), e).value;
      pipes, errors, wg, out := io.pipes, io.errors, io.wg, io.out;
    }

    /** Any finite number of actions of the copiers and the child. */
    method Interfere() returns (ghost es: seq<Event>)
      modifies this
      ensures Exec(Step, old(View()), es) == Some(View())
    {
      es := [];
      var budget: nat := *;
      while budget > 0
        invariant Exec(Step, old(View()), es) == Some(View())
      {
        var e: Event := *;
        if Step(View(), e).Some? {
          Act(e);
          ExecSnoc(Step, old(View()), es, e);
          es := es + [e];
        }
        budget := budget - 1;
      }
    }

    /** Wait for the copiers, and close the read ends if `timedOut` says that the timeout came
        first. `None` says that wait is still blocked: some copier has not ended. Whichever branch is
        taken, and whether or not the pipes were closed before, wait returns only when every
        copier has ended: then every destination holds a prefix of its stream, all of it unless
        the copier recorded an error, and nothing is written afterwards. */
    method Wait(timedOut: bool) returns (finished: Option<bool>)
      requires Inv(View())
      modifies this
      ensures Inv(View()) && |pipes| == |old(pipes)| && old(out) <= out
      ensures finished.Some? ==> AllEnded(View()) && Complete(View())
      ensures finished == None ==> !AllEnded(View())
      ensures finished != Some(true) && timedOut ==> AllClosed(View())
      ensures finished == Some(true) ==> !timedOut
    {
      var es := Interfere();
      RunKeepsInv(old(View()), es);
      if !timedOut {
        LiveZero(pipes);
        if wg != 0 { return None; }
        EndedIsComplete(View());
        return Some(true);
      }
      ForceClosedKeepsInv(View());
      ForceClose();
      ghost var closed := View();
      es := Interfere();
      RunKeepsInv(closed, es);
      ForcedCloseDrains(closed, es);
      if wg != 0 { return None; }
      EndedIsComplete(View());
      return Some(false);
    }
  }

  lemma {:induction false} RunKeepsInv(io: IO, es: seq<Event>)
    requires Inv(io) && Exec(Step, io, es).Some?
    ensures var io' := Exec(Step, io, es).value;
            Inv(io') && |io'.pipes| == |io.pipes| && io.out <= io'.out
  {
    if es != [] {
      RunKeepsInv(io, es[..|es| - 1]);
      StepKeepsInv(Exec(Step, io, es[..|es| - 1]).value, es[|es| - 1]);
    }
  }
}
