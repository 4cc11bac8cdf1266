/**
 Finding the members of a process group through /proc (group_unix.go). A stat record is
 `pid (comm) state ppid pgrp ...`; the command name may hold any bytes, spaces and parentheses
 included, so the parser cuts at the last closing parenthesis.
 */
module ProcStat {
  import opened Common

  const SPACE: byte := 32
  const LPAREN: byte := 40
  const RPAREN: byte := 41
  const PLUS: byte := 43
  const MINUS: byte := 45
  const ZERO: byte := 48

  /** ASCII white space, the separators of strings.Fields. */
  predicate IsSpace(b: byte) {
    9 <= b <= 13 || b == SPACE
  }

  predicate IsDigit(b: byte) {
    ZERO <= b <= 57
  }

  /** bytes.LastIndexByte */
  function LastIndex(s: seq<byte>, b: byte): (i: int)
    ensures -1 <= i < |s|
    ensures i >= 0 ==> s[i] == b
    ensures forall j :: i < j < |s| ==> s[j] != b
  {
    if s == [] then -1
    else if s[|s| - 1] == b then |s| - 1
    else LastIndex(s[..|s| - 1], b)
  }

  function TokenEnd(s: seq<byte>): (n: nat)
    ensures n <= |s|
    ensures forall i :: 0 <= i < n ==> !IsSpace(s[i])
    ensures n < |s| ==> IsSpace(s[n])
  {
    if s == [] || IsSpace(s[0]) then 0 else 1 + TokenEnd(s[1..])
  }

  /** strings.Fields */
  function Fields(s: seq<byte>): seq<seq<byte>>
    decreases |s|
  {
    if s == [] then []
    else if IsSpace(s[0]) then Fields(s[1..])
    else [s[..TokenEnd(s)]] + Fields(s[TokenEnd(s)..])
  }

  function Number(s: seq<byte>): Option<nat> {
    if s == [] then Some(0)
    else
      match Number(s[..|s| - 1])
      case None => None
      case Some(high) =>
        if IsDigit(s[|s| - 1]) then Some(10 * high + (s[|s| - 1] - ZERO) as nat) else None
  }

  const MAX_INT: int := 0x7fff_ffff_ffff_ffff

  /** strconv.Atoi for 64-bit int: a sign, digits, and a range check. */
  function Atoi(s: seq<byte>): Option<int> {
    var negative := s != [] && s[0] == MINUS;
    var digits := if s != [] && (s[0] == MINUS || s[0] == PLUS) then s[1..] else s;
    if digits == [] then None
    else
      match Number(digits)
      case None => None
      case Some(n) =>
        var v: int := n;
        if negative then (if v <= MAX_INT + 1 then Some(-v) else None)
        else if v <= MAX_INT then Some(v) else None
  }

  /** The process group recorded in a stat record, as findGroupPIDs reads it. */
  function ParsePgrp(stat: seq<byte>): Option<int> {
    var rparen := LastIndex(stat, RPAREN);
    if rparen == -1 || |stat| <= rparen + 2 then None
    else
      var fields := Fields(stat[rparen + 2..]);
      if |fields| >= 3 then Atoi(fields[2]) else None
  }

  // ------------------------------------------------------------------------------------------
  // The record layout of proc_pid_stat(5), and the round trip
  // ------------------------------------------------------------------------------------------

  function ItoaNat(n: nat): (s: seq<byte>)
    ensures s != [] && forall i :: 0 <= i < |s| ==> IsDigit(s[i])
  {
    if n < 10 then [ZERO + n as byte] else ItoaNat(n / 10) + [ZERO + (n % 10) as byte]
  }

  function Itoa(n: int): seq<byte> {
    if n < 0 then [MINUS] + ItoaNat(-n) else ItoaNat(n)
  }

  datatype Record = Record(comm: seq<byte>, state: seq<byte>, ppid: int, pgrp: int, rest: seq<byte>)

  /** What the kernel guarantees: a state token and, after it, no closing parenthesis; numbers in
      the range of a process ID. The command name is unconstrained. */
  ghost predicate WellFormed(r: Record) {
    && r.state != [] && (forall i :: 0 <= i < |r.state| ==> !IsSpace(r.state[i]) && r.state[i] != RPAREN)
    && (forall i :: 0 <= i < |r.rest| ==> r.rest[i] != RPAREN)
    && -0x8000_0000 <= r.pgrp < 0x8000_0000
  }

  function Tail(r: Record): seq<byte> {
    r.state + [SPACE] + (Itoa(r.ppid) + [SPACE] + (Itoa(r.pgrp) + [SPACE] + r.rest))
  }

  function Format(pid: int, r: Record): seq<byte> {
    Itoa(pid) + [SPACE, LPAREN] + r.comm + [RPAREN, SPACE] + Tail(r)
  }

  lemma {:induction false} NumberOfItoa(n: nat)
    ensures Number(ItoaNat(n)) == Some(n)
  {
    if n < 10 {
      assert ItoaNat(n)[..0] == [];
      assert Number([]) == Some(0);
    } else {
      NumberOfItoa(n / 10);
      assert ItoaNat(n)[..|ItoaNat(n)| - 1] == ItoaNat(n / 10);
    }
  }

  /** Formatting an int in range and parsing it gives the int back. */
  lemma AtoiOfItoa(n: int)
    requires -MAX_INT - 1 <= n <= MAX_INT
    ensures Atoi(Itoa(n)) == Some(n)
  {
    if n < 0 {
      NumberOfItoa(-n);
      assert Itoa(n)[1..] == ItoaNat(-n);
    } else {
      NumberOfItoa(n);
      assert IsDigit(ItoaNat(n)[0]);
    }
  }

  lemma ItoaIsToken(n: int)
    ensures Itoa(n) != []
    ensures forall i :: 0 <= i < |Itoa(n)| ==> !IsSpace(Itoa(n)[i]) && Itoa(n)[i] != RPAREN
  {}

  lemma {:induction false} TokenEndOf(token: seq<byte>, rest: seq<byte>)
    requires forall i :: 0 <= i < |token| ==> !IsSpace(token[i])
    requires rest == [] || IsSpace(rest[0])
    ensures TokenEnd(token + rest) == |token|
  {
    if token == [] {
      assert token + rest == rest;
    } else {
      TokenEndOf(token[1..], rest);
      assert (token + rest)[1..] == token[1..] + rest;
    }
  }

  lemma FieldsOfToken(token: seq<byte>, rest: seq<byte>)
    requires token != [] && forall i :: 0 <= i < |token| ==> !IsSpace(token[i])
    ensures Fields(token + [SPACE] + rest) == [token] + Fields(rest)
  {
    var s := token + [SPACE] + rest;
    assert s == token + ([SPACE] + rest);
    TokenEndOf(token, [SPACE] + rest);
    assert s[0] == token[0];
    assert s[..|token|] == token && s[|token|..] == [SPACE] + rest;
    assert ([SPACE] + rest)[1..] == rest;
  }

  /** The last closing parenthesis of a record is the one that ends the command name. */
  lemma CutOfFormat(pid: int, r: Record)
    requires WellFormed(r)
    ensures var cut := LastIndex(Format(pid, r), RPAREN);
            0 <= cut && cut + 2 < |Format(pid, r)| && Format(pid, r)[cut + 2..] == Tail(r)
  {
    hide Tail, Itoa, LastIndex, WellFormed;
    var tail, head, stat := Tail(r), Itoa(pid) + [SPACE, LPAREN] + r.comm, Format(pid, r);
    TailHasNoParen(r);
    assert stat == head + ([RPAREN, SPACE] + tail);
    LastIndexOf(head, [SPACE] + tail);
    assert [RPAREN] + ([SPACE] + tail) == [RPAREN, SPACE] + tail;
    assert stat[|head| + 2..] == tail;
  }

  lemma LastIndexOf(head: seq<byte>, rest: seq<byte>)
    requires forall j :: 0 <= j < |rest| ==> rest[j] != RPAREN
    ensures LastIndex(head + ([RPAREN] + rest), RPAREN) == |head|
  {
    var s := head + ([RPAREN] + rest);
    var i := LastIndex(s, RPAREN);
    assert s[|head|] == RPAREN;
    NoParenAfter(head, rest, i);
  }

  lemma NoParenAfter(head: seq<byte>, rest: seq<byte>, i: int)
    requires forall j :: 0 <= j < |rest| ==> rest[j] != RPAREN
    ensures |head| < i < |head| + 1 + |rest| ==> (head + ([RPAREN] + rest))[i] != RPAREN
  {
    if |head| < i < |head| + 1 + |rest| {
      assert (head + ([RPAREN] + rest))[i] == rest[i - |head| - 1];
    }
  }

  lemma FieldsOfTail(r: Record)
    requires WellFormed(r)
    ensures Fields(Tail(r)) == [r.state, Itoa(r.ppid), Itoa(r.pgrp)] + Fields(r.rest)
  {
    hide Fields, Itoa;
    ItoaIsToken(r.ppid);
    ItoaIsToken(r.pgrp);
    var last := Itoa(r.pgrp) + [SPACE] + r.rest;
    FieldsOfToken(r.state, Itoa(r.ppid) + [SPACE] + last);
    FieldsOfToken(Itoa(r.ppid), last);
    FieldsOfToken(Itoa(r.pgrp), r.rest);
  }

  /** The round trip: for every command name, parsing a formatted record recovers its group. */
  lemma ParseOfFormat(pid: int, r: Record)
    requires WellFormed(r)
    ensures ParsePgrp(Format(pid, r)) == Some(r.pgrp)
  {
    CutOfFormat(pid, r);
    var fields := Fields(Tail(r));
    assert |fields| >= 3 && fields[2] == Itoa(r.pgrp) by {
      FieldsOfTail(r);
    }
    AtoiOfItoa(r.pgrp);
  }

  lemma TailHasNoParen(r: Record)
    requires WellFormed(r)
    ensures Tail(r) != [] && forall j :: 0 <= j < |Tail(r)| ==> Tail(r)[j] != RPAREN
  {
    ItoaIsToken(r.ppid);
    ItoaIsToken(r.pgrp);
    var last := Itoa(r.pgrp) + [SPACE] + r.rest;
    assert forall j :: 0 <= j < |last| ==> last[j] != RPAREN;
    var middle := Itoa(r.ppid) + [SPACE] + last;
    assert forall j :: 0 <= j < |middle| ==> middle[j] != RPAREN;
  }

  /** A number is accepted exactly if all its bytes are digits. */
  lemma {:induction false} NumberIff(s: seq<byte>)
    ensures Number(s).Some? <==> forall i :: 0 <= i < |s| ==> IsDigit(s[i])
  {
    if s != [] {
      NumberIff(s[..|s| - 1]);
    }
  }

  /** Atoi accepts an optional sign and at least one digit, within the range of a 64-bit int, and
      nothing else. */
  lemma AtoiAccepts(s: seq<byte>)
    ensures var digits := if s != [] && (s[0] == 45 || s[0] == 43) then s[1..] else s;
            Atoi(s).Some? <==>
              && digits != [] && (forall i :: 0 <= i < |digits| ==> 48 <= digits[i] <= 57)
              && Number(digits).Some?
              && Number(digits).value <= if s[0] == 45 then 0x8000_0000_0000_0000 else 0x7fff_ffff_ffff_ffff
  {
    NumberIff(if s != [] && (s[0] == 45 || s[0] == 43) then s[1..] else s);
  }

  /** Bytes without a closing parenthesis, or with less than two bytes after the last one, at `last`,
      are skipped. */
  lemma ParseNeedsTail(stat: seq<byte>, last: nat)
    requires || (forall j :: 0 <= j < |stat| ==> stat[j] != 41)
             || (last < |stat| <= last + 2 && stat[last] == 41 && forall j :: last < j < |stat| ==> stat[j] != 41)
    ensures ParsePgrp(stat) == None
  {
    assert LastIndex(stat, RPAREN) == -1 || LastIndex(stat, RPAREN) == last;
  }

  // ------------------------------------------------------------------------------------------
  // findGroupPIDs
  // ------------------------------------------------------------------------------------------

  datatype Entry = Entry(isDir: bool, name: seq<byte>)

  /** The PID that an entry of /proc stands for. */
  function PidOf(e: Entry): Option<int> {
    if !e.isDir then None
    else
      match Atoi(e.name)
      case None => None
      case Some(pid) => if pid <= 0 then None else Some(pid)
  }

  /** The PIDs, in listing order, whose readable record names the target group. */
  function Members(entries: seq<Entry>, read: int -> Option<seq<byte>>, target: int): seq<int> {
    if entries == [] then []
    else
      var e := entries[|entries| - 1];
      Members(entries[..|entries| - 1], read, target)
      + if PidOf(e).Some? && read(PidOf(e).value).Some? && ParsePgrp(read(PidOf(e).value).value) == Some(target)
        then [PidOf(e).value] else []
  }

  /** The entry is a directory named by a positive PID whose stat record names the target group. */
  ghost predicate IsMember(e: Entry, read: int -> Option<seq<byte>>, target: int, pid: int) {
    && e.isDir && Atoi(e.name) == Some(pid) && pid > 0
    && read(pid).Some? && ParsePgrp(read(pid).value) == Some(target)
  }

  /** `pids` are the PIDs of the members of the listing: of the entries at the positions `at`, in order,
      and of no others. */
  ghost predicate Finds(entries: seq<Entry>, read: int -> Option<seq<byte>>, target: int,
                        pids: seq<int>, at: seq<nat>) {
    && |at| == |pids|
    && (forall i, j :: 0 <= i < j < |at| ==> at[i] < at[j])
    && (forall i :: 0 <= i < |at| ==> at[i] < |entries| && IsMember(entries[at[i]], read, target, pids[i]))
    && (forall k, pid :: 0 <= k < |entries| && IsMember(entries[k], read, target, pid) ==> k in at)
  }

  lemma NothingFound(read: int -> Option<seq<byte>>, target: int)
    ensures Finds([], read, target, [], [])
  {}

  lemma FindsSkips(entries: seq<Entry>, read: int -> Option<seq<byte>>, target: int,
                   pids: seq<int>, at: seq<nat>, e: Entry)
    requires Finds(entries, read, target, pids, at) && forall pid :: !IsMember(e, read, target, pid)
    ensures Finds(entries + [e], read, target, pids, at)
  {
    hide IsMember;
  }

  lemma FindsAdds(entries: seq<Entry>, read: int -> Option<seq<byte>>, target: int,
                  pids: seq<int>, at: seq<nat>, e: Entry, pid: int)
    requires Finds(entries, read, target, pids, at) && IsMember(e, read, target, pid)
    ensures Finds(entries + [e], read, target, pids + [pid], at + [|entries|])
  {
    hide IsMember;
    var all, at' := entries + [e], at + [|entries|];
    forall k, p | 0 <= k < |all| && IsMember(all[k], read, target, p)
      ensures k in at'
    {
      if k == |entries| {
        assert at'[|at|] == k;
      } else {
        assert IsMember(entries[k], read, target, p);
        var i :| 0 <= i < |at| && at[i] == k;
        assert at'[i] == k;
      }
    }
  }

  /** `entries` is the listing of /proc, `None` if it failed; `read` answers /proc/<pid>/stat. */
  method FindGroupPIDs(entries: Option<seq<Entry>>, read: int -> Option<seq<byte>>, target: int)
    returns (pids: seq<int>, ghost at: seq<nat>)
    ensures entries == None ==> pids == [target]
    ensures entries.Some? ==> pids == Members(entries.value, read, target)
    ensures entries.Some? ==> Finds(entries.value, read, target, pids, at)
  {
    hide Finds, Atoi, ParsePgrp;
    at := [];
    if entries == None {
      return [target], at;
    }
    NothingFound(read, target);
    pids := [];
    for i := 0 to |entries.value|
      invariant pids == Members(entries.value[..i], read, target)
      invariant Finds(entries.value[..i], read, target, pids, at)
    {
      var e := entries.value[i];
      ghost var before := entries.value[..i];
      assert entries.value[..i + 1] == before + [e] && entries.value[..i + 1][..i] == before;
      ghost var member := exists p :: IsMember(e, read, target, p);
      if !member {
        FindsSkips(before, read, target, pids, at, e);
      }
      if !e.isDir {
        continue;
      }
      var pid := Atoi(e.name);
      if pid == None || pid.value <= 0 {
        continue;
      }
      var stat := read(pid.value);
      if stat == None {
        continue;
      }
      var pgrp := ParsePgrp(stat.value);
      if pgrp.Some? && pgrp.value == target {
        FindsAdds(before, read, target, pids, at, e, pid.value);
        pids, at := pids + [pid.value], at + [i];
      }
    }
    assert entries.value[..|entries.value|] == entries.value;
  }

  /** Reading /proc/<pid>/stat shows the process table `procs`: the records of its processes, and for
      every other PID nothing, or bytes that the parser skips. */
  ghost predicate Shows(read: int -> Option<seq<byte>>, procs: map<int, Record>) {
    forall pid :: ShowsAt(read, procs, pid)
  }

  ghost predicate ShowsAt(read: int -> Option<seq<byte>>, procs: map<int, Record>, pid: int) {
    if pid in procs then WellFormed(procs[pid]) && read(pid) == Some(Format(pid, procs[pid]))
    else read(pid) == None || ParsePgrp(read(pid).value) == None
  }

  /** What the search is for: the listed processes of the target group. */
  function InGroup(entries: seq<Entry>, procs: map<int, Record>, target: int): seq<int> {
    if entries == [] then []
    else
      var pid := PidOf(entries[|entries| - 1]);
      InGroup(entries[..|entries| - 1], procs, target)
      + if pid.Some? && pid.value in procs && procs[pid.value].pgrp == target then [pid.value] else []
  }

  /** On every process table, whatever the command names, the search finds exactly the listed
      processes of the target group. */
  lemma {:induction false} MembersAreTheGroup(entries: seq<Entry>, read: int -> Option<seq<byte>>,
                                              procs: map<int, Record>, target: int)
    requires Shows(read, procs)
    ensures Members(entries, read, target) == InGroup(entries, procs, target)
  {
    if entries != [] {
      MembersAreTheGroup(entries[..|entries| - 1], read, procs, target);
      var pid := PidOf(entries[|entries| - 1]);
      if pid.Some? {
        assert ShowsAt(read, procs, pid.value);
        if pid.value in procs {
          ParseOfFormat(pid.value, procs[pid.value]);
        }
      }
    }
  }

  /** On every process table, whatever the command names: only processes of the target group are found,
      each with a directory in the listing, and a process whose directory is listed is found if and only
      if its group is the target. */
  lemma FoundExactly(entries: seq<Entry>, read: int -> Option<seq<byte>>, procs: map<int, Record>, target: int,
                     pids: seq<int>, at: seq<nat>)
    requires Shows(read, procs) && Finds(entries, read, target, pids, at)
    ensures forall pid :: pid in pids ==> pid > 0 && pid in procs && procs[pid].pgrp == target
    ensures forall i :: 0 <= i < |pids| ==>
              at[i] < |entries| && entries[at[i]].isDir && Atoi(entries[at[i]].name) == Some(pids[i])
    ensures forall pid :: pid in procs && 0 < pid <= MAX_INT && Entry(true, Itoa(pid)) in entries ==>
              (pid in pids <==> procs[pid].pgrp == target)
  {
    hide Atoi, ParsePgrp, Itoa, Format;
    forall i | 0 <= i < |pids|
      ensures pids[i] > 0 && pids[i] in procs && procs[pids[i]].pgrp == target
    {
      assert ShowsAt(read, procs, pids[i]);
      assert IsMember(entries[at[i]], read, target, pids[i]);
      ParsedGroup(read, procs, pids[i]);
    }
    forall pid | pid in procs && 0 < pid <= MAX_INT && Entry(true, Itoa(pid)) in entries
      ensures pid in pids <==> procs[pid].pgrp == target
    {
      if procs[pid].pgrp == target {
        var k :| 0 <= k < |entries| && entries[k] == Entry(true, Itoa(pid));
        AtoiOfItoa(pid);
        assert ShowsAt(read, procs, pid);
        ParsedGroup(read, procs, pid);
        assert IsMember(entries[k], read, target, pid);
        var i :| 0 <= i < |at| && at[i] == k;
        assert IsMember(entries[at[i]], read, target, pids[i]);
      }
    }
  }

  lemma ParsedGroup(read: int -> Option<seq<byte>>, procs: map<int, Record>, pid: int)
    requires ShowsAt(read, procs, pid) && pid in procs
    ensures read(pid).Some? && ParsePgrp(read(pid).value) == Some(procs[pid].pgrp)
  {
    ParseOfFormat(pid, procs[pid]);
  }

  // ------------------------------------------------------------------------------------------
  // The Unix process group
  // ------------------------------------------------------------------------------------------

  datatype Signal = SIGTERM | SIGINT | SIGHUP | SIGKILL | Other(code: int)

  /** The answer of kill(2). */
  datatype Answer = Sent | NoSuchProcess | Refused

  datatype Error = ProcessDone | Unsupported | Failed

  function SyscallNumber(sig: Signal): Option<int> {
    match sig
    case SIGTERM => Some(15)
    case SIGINT => Some(2)
    case SIGHUP => Some(1)
    case SIGKILL => Some(9)
    case Other(_) => None
  }

  class UnixProcessGroup {
    var pgid: int
    /** The kill(2) calls made: target and signal number. */
    var kills: seq<(int, int)>
    /** The child this group was activated for, 0 before. */
    ghost var child: int

    /** Signals only ever go to the group of the child: never to a single process, never, with
        target 0, to the caller's own group. */
    ghost predicate Valid()
      reads this
    {
      && child >= 0 && (pgid == 0 || pgid == child)
      && (forall i :: 0 <= i < |kills| ==> child > 0 && kills[i].0 == -child)
    }

    constructor ()
      ensures Valid() && pgid == 0 && kills == [] && child == 0
    {
      pgid, kills, child := 0, [], 0;
    }

    method Activate(pid: int)
      requires Valid() && child == 0 && pid > 0
      modifies this
      ensures Valid() && pgid == child == pid && kills == old(kills)
    {
      pgid, child := pid, pid;
    }

    method Signal(sig: Signal, answer: Answer) returns (err: Option<Error>)
      requires Valid()
      modifies this`kills
      ensures Valid()
      ensures pgid == 0 ==> err == Some(ProcessDone)
      ensures pgid == 0 || sig.Other? ==> kills == old(kills)
      ensures pgid != 0 && sig == SIGTERM ==> kills == old(kills) + [(-pgid, 15)]
      ensures pgid != 0 && sig == SIGINT ==> kills == old(kills) + [(-pgid, 2)]
      ensures pgid != 0 && sig == SIGHUP ==> kills == old(kills) + [(-pgid, 1)]
      ensures pgid != 0 && sig == SIGKILL ==> kills == old(kills) + [(-pgid, 9)]
      ensures pgid != 0 ==>
                err == if sig.Other? then Some(Unsupported)
                       else match answer
                         case Sent => None
                         case NoSuchProcess => Some(ProcessDone)
                         case Refused => Some(Failed)
    {
      if pgid == 0 {
        return Some(ProcessDone);
      }
      var s := SyscallNumber(sig);
      if s == None {
        return Some(Unsupported);
      }
      kills := kills + [(-pgid, s.value)];
      match answer {
        case Sent => return None;
        case NoSuchProcess => return Some(ProcessDone);
        case Refused => return Some(Failed);
      }
    }

    method Terminate(answer: Answer) returns (err: Option<Error>)
      requires Valid()
      modifies this`kills
      ensures Valid()
      ensures kills == if pgid != 0 then old(kills) + [(-pgid, 9)] else old(kills)
      ensures pgid == 0 ==> err == Some(ProcessDone)
      ensures pgid != 0 ==> (err == None <==> answer == Sent)
    {
      err := Signal(SIGKILL, answer);
    }

    method Close()
      requires Valid()
      modifies this`pgid
      ensures Valid() && pgid == 0
    {
      pgid := 0;
    }

    /** Never empty while the group is active, and, where the records can be read, never outside the
        group: exactly its listed members, or its leader if there is none. */
    method Pids(entries: Option<seq<Entry>>, read: int -> Option<seq<byte>>, ghost procs: map<int, Record>)
      returns (pids: seq<int>)
      requires Valid()
      ensures pgid == 0 ==> pids == []
      ensures pgid != 0 ==> pids != []
      ensures pgid != 0 && entries == None ==> pids == [pgid]
      ensures pgid != 0 && entries.Some? ==>
                var members := Members(entries.value, read, pgid);
                pids == if members != [] then members else [pgid]
      ensures pgid != 0 && entries.Some? && Shows(read, procs) ==>
                var group := InGroup(entries.value, procs, pgid);
                pids == if group != [] then group else [pgid]
      ensures pgid != 0 && entries.Some? && Shows(read, procs) ==>
                && (forall pid :: pid in pids ==> pids == [pgid] || (pid in procs && procs[pid].pgrp == pgid))
                && (forall pid :: pid in procs && 0 < pid <= MAX_INT && Entry(true, Itoa(pid)) in entries.value ==>
                      procs[pid].pgrp == pgid ==> pid in pids)
    {
      hide Itoa, Atoi, InGroup, Members, Finds, ParsePgrp;
      if pgid <= 0 {
        return [];
      }
      ghost var at;
      pids, at := FindGroupPIDs(entries, read, pgid);
      if entries.Some? && Shows(read, procs) {
        MembersAreTheGroup(entries.value, read, procs, pgid);
        FoundExactly(entries.value, read, procs, pgid, pids, at);
      }
      if |pids| == 0 {
        return [pgid];
      }
    }
  }
}
