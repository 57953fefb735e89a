/**
 * The `/exec` handler cannot get stuck: once the process and whoever shares its
 * pipes have closed them, the goroutines' own steps lead to the end of the
 * response, from wherever they are.
 */
module ExecProgress {
  import opened Common
  import opened ExecEvents
  import opened ExecServer
  import opened Ndjson
  import Channel
  import Utf8

  /** Steps a writer has still to take to be idle, or gone. */
  function Left(w: Writer): nat {
    match w
    case Stopped => 0
    case Idle => 1
    case Writing(_, rest) => if rest == [] then 2 else 3
    case Pending(_) => 4
  }

  function ReaderLeft(p: Pipe, w: Writer): int { 4 * (|p.written| - p.taken) + Left(w) }

  function PhaseLeft(s: State): nat {
    match s.phase
    case Announcing => 20 + Left(s.main)
    case Serving => 10
    case Closing => Left(s.main)
  }

  function TotalLeft(s: State): int {
    PhaseLeft(s) + ReaderLeft(s.out, s.outReader) + ReaderLeft(s.err, s.errReader)
  }

  predicate BothClosed(s: State) { s.out.closed && s.err.closed }

  /** What some goroutine can do next: its line, when it holds the mutex; else
      take the mutex; else read; else wait for the process. */
  function Next(s: State, wait: Action): Action
    requires wait.Waits?
  {
    match s.lock
    case Some(who) =>
      var w := s.WriterOf(who);
      if w.Writing? && w.rest != [] then Emits(who, |w.rest|) else Unlocks(who)
    case None =>
      if s.main.Pending? then Locks(Main)
      else if s.outReader.Pending? then Locks(Out)
      else if s.errReader.Pending? then Locks(Err)
      else if s.outReader == Idle then NextRead(s.out, Out)
      else if s.errReader == Idle then NextRead(s.err, Err)
      else wait
  }

  function NextRead(p: Pipe, who: Who): Action {
    if p.taken < |p.written| then Reads(who, Min(CHUNK_SIZE, |p.written| - p.taken)) else SeesEof(who)
  }

  lemma {:induction false} HolderWrites(s: State, pid: int)
    requires Inv(s, pid) && s.lock.Some?
    ensures s.WriterOf(s.lock.value).Writing?
  {
    hide LinesBytes, Carried, OutInv, ErrInv, Shape;
  }

  lemma {:induction false} EmitsLess(s: State, who: Who)
    requires s.WriterOf(who).Writing? && s.WriterOf(who).rest != [] && s.lock == Some(who)
    requires s.phase == Serving ==> s.main == Idle
    ensures var a := Emits(who, |s.WriterOf(who).rest|); Enabled(s, a) && TotalLeft(Apply(s, a)) < TotalLeft(s)
  {
    var rest := s.WriterOf(who).rest;
    assert rest[|rest|..] == [];
  }

  lemma {:induction false} UnlocksLess(s: State, who: Who)
    requires s.WriterOf(who).Writing? && s.WriterOf(who).rest == [] && s.lock == Some(who)
    requires s.phase == Serving ==> s.main == Idle
    ensures Enabled(s, Unlocks(who)) && TotalLeft(Apply(s, Unlocks(who))) < TotalLeft(s)
  {
  }

  lemma {:induction false} ServingIsIdle(s: State, pid: int)
    requires Inv(s, pid)
    ensures s.phase == Serving ==> s.main == Idle
  {
    hide WireInv, OutInv, ErrInv, PidThenOutput;
  }

  lemma {:induction false} NextWrites(s: State, pid: int, wait: Action)
    requires Inv(s, pid) && wait.Waits? && s.lock.Some?
    ensures Enabled(s, Next(s, wait)) && TotalLeft(Apply(s, Next(s, wait))) < TotalLeft(s)
  {
    hide Inv, Enabled, Apply, TotalLeft;
    var who := s.lock.value;
    HolderWrites(s, pid);
    ServingIsIdle(s, pid);
    if s.WriterOf(who).rest != [] {
      EmitsLess(s, who);
    } else {
      UnlocksLess(s, who);
    }
  }

  lemma {:induction false} LocksLess(s: State, who: Who)
    requires s.lock == None && s.WriterOf(who).Pending? && (s.phase == Serving ==> s.main == Idle)
    ensures Enabled(s, Locks(who)) && TotalLeft(Apply(s, Locks(who))) < TotalLeft(s)
  {
    hide LineBytes;
  }

  lemma {:induction false} ReadsLess(s: State, who: Who)
    requires who != Main && s.phase == Serving && s.WriterOf(who) == Idle
    requires s.PipeOf(who).closed && s.PipeOf(who).taken <= |s.PipeOf(who).written|
    ensures var a := NextRead(s.PipeOf(who), who); Enabled(s, a) && TotalLeft(Apply(s, a)) < TotalLeft(s)
  {
  }

  lemma {:induction false} WaitsLess(s: State, wait: Action)
    requires wait.Waits? && s.phase == Serving && s.outReader == Stopped && s.errReader == Stopped
    ensures Enabled(s, wait) && TotalLeft(Apply(s, wait)) < TotalLeft(s)
  {
    hide FinalEvent;
  }

  /** With the mutex free and nobody wanting it, the handler is serving. */
  lemma {:induction false} FreeIsServing(s: State, pid: int)
    requires Inv(s, pid) && s.lock == None && s.main != Stopped && !s.main.Pending?
    ensures s.phase == Serving
    ensures !s.outReader.Writing? && !s.errReader.Writing?
  {
    hide OutInv, ErrInv, PidThenOutput, IsFinal, LinesBytes;
  }

  lemma {:induction false} TakenInRange(s: State, pid: int)
    requires Inv(s, pid)
    ensures s.out.taken <= |s.out.written| && s.err.taken <= |s.err.written|
  {
    hide WireInv, Shape, Carried, IsOutput, Drained;
  }

  lemma {:induction false} NextReads(s: State, pid: int, wait: Action)
    requires Inv(s, pid) && wait.Waits? && s.lock == None && BothClosed(s) && s.main != Stopped
    ensures Enabled(s, Next(s, wait)) && TotalLeft(Apply(s, Next(s, wait))) < TotalLeft(s)
  {
    hide Inv, Enabled, Apply, TotalLeft, NextRead;
    ServingIsIdle(s, pid);
    if s.main.Pending? {
      LocksLess(s, Main);
    } else if s.outReader.Pending? {
      LocksLess(s, Out);
    } else if s.errReader.Pending? {
      LocksLess(s, Err);
    } else {
      FreeIsServing(s, pid);
      TakenInRange(s, pid);
      if s.outReader == Idle {
        ReadsLess(s, Out);
      } else if s.errReader == Idle {
        ReadsLess(s, Err);
      } else {
        WaitsLess(s, wait);
      }
    }
  }

  lemma {:induction false} LeftIsNat(s: State, pid: int)
    requires Inv(s, pid)
    ensures TotalLeft(s) >= 0
  {
    hide WireInv, Shape, Carried, IsOutput;
  }

  lemma {:induction false} PipesKept(s: State, a: Action)
    requires Enabled(s, a) && !a.Writes? && !a.Closes?
    ensures Apply(s, a).out.written == s.out.written && Apply(s, a).err.written == s.err.written
    ensures BothClosed(s) ==> BothClosed(Apply(s, a))
    ensures s.outReader == Stopped ==> Apply(s, a).outReader == Stopped && Apply(s, a).out == s.out
  {
    hide LineBytes;
  }

  lemma {:induction false} NextIsOwn(s: State, wait: Action)
    requires wait.Waits?
    ensures !Next(s, wait).Writes? && !Next(s, wait).Closes? && !Next(s, wait).ReadFails?
    ensures Next(s, wait).Waits? ==> Next(s, wait) == wait
  {
  }

  /** No deadlock, and no livelock of the goroutines: from every state in order
      with both pipes closed they come to the end of the response by their own
      steps, with the same output to report. */
  lemma {:induction false} ComesToTheEnd(s: State, pid: int, wait: Action) returns (actions: seq<Action>)
    requires Inv(s, pid) && BothClosed(s) && wait.Waits?
    ensures ValidRun(s, actions) && After(s, actions).main == Stopped
    ensures After(s, actions).out.written == s.out.written && After(s, actions).err.written == s.err.written
    ensures s.outReader == Stopped ==> After(s, actions).out == s.out
    ensures forall k :: 0 <= k < |actions| ==>
              !actions[k].Writes? && !actions[k].Closes? && !actions[k].ReadFails?
              && (actions[k].Waits? ==> actions[k] == wait)
    decreases TotalLeft(s)
  {
    hide Inv, Apply, Enabled, TotalLeft, BothClosed, Next;
    if s.main == Stopped {
      actions := [];
    } else {
      var a := Next(s, wait);
      LeftIsNat(s, pid);
      if s.lock.Some? {
        NextWrites(s, pid, wait);
      } else {
        NextReads(s, pid, wait);
      }
      NextIsOwn(s, wait);
      PipesKept(s, a);
      StepKeepsInv(s, pid, a);
      var rest := ComesToTheEnd(Apply(s, a), pid, wait);
      actions := [a] + rest;
      assert actions[1..] == rest;
    }
  }

  /** So every run can be brought to an end that Channel.ExecEndToEnd speaks of:
      the pipes close, and the rest follows. */
  lemma {:induction false} EveryRunCanEnd(pid: int, run: seq<Action>, wait: Action) returns (actions: seq<Action>)
    requires ValidRun(Init(pid), run) && wait.Waits?
    ensures ValidRun(Init(pid), run + actions) && After(Init(pid), run + actions).main == Stopped
    ensures After(Init(pid), run + actions).out.written == After(Init(pid), run).out.written
    ensures After(Init(pid), run + actions).err.written == After(Init(pid), run).err.written
    ensures forall k :: 0 <= k < |actions| ==> !actions[k].ReadFails? && (actions[k].Waits? ==> actions[k] == wait)
  {
    hide *;
    InitInv(pid);
    RunKeepsInv(Init(pid), pid, run);
    var s := After(Init(pid), run);
    var closes := ClosePipes(s, pid);
    var rest := ComesToTheEnd(After(s, closes), pid, wait);
    Concat(s, closes, rest);
    Concat(Init(pid), run, closes + rest);
    actions := closes + rest;
  }

  /**
   * Whatever a process prints and however it ends, there is a run in which the
   * client is told so: the text of both pipes and the exit code.
   */
  lemma {:induction false} AnythingIsReported(pid: int, out: string, err: string, wait: Action) returns (run: seq<Action>)
    requires wait.Waits? && !wait.error.OtherError? && !wait.timedOut
    ensures ValidRun(Init(pid), run) && After(Init(pid), run).main == Stopped
    ensures var (events, ok) := StreamValues(After(Init(pid), run).wire, ParseEvent);
            Channel.RunResultOf(events, ok) == Channel.Completed(out, err, wait.code)
  {
    var first := [Writes(Out, Utf8.Encode(out)), Writes(Err, Utf8.Encode(err))];
    ProcessWrites(pid, Utf8.Encode(out), Utf8.Encode(err));
    hide *;
    var more := EveryRunCanEnd(pid, first, wait);
    run := first + more;
    var s := After(Init(pid), run);
    NoFailures(first, more, wait);
    PipesOfRun(pid, run);
    OnePiece(s.wire);
    EndedRun(pid, run);
    var j :| 0 <= j < |run| && run[j].Waits?;
    Channel.TextIsReported(pid, run, [s.wire], j, out, err);
  }

  lemma {:induction false} ProcessWrites(pid: int, out: seq<byte>, err: seq<byte>)
    ensures var run := [Writes(Out, out), Writes(Err, err)];
            ValidRun(Init(pid), run) && After(Init(pid), run).out.written == out && After(Init(pid), run).err.written == err
            && forall k :: 0 <= k < |run| ==> !run[k].ReadFails? && !run[k].Waits?
  {
    var a, b := Writes(Out, out), Writes(Err, err);
    assert [a, b][1..] == [b] && [b][1..] == [];
    assert [] + out == out && [] + err == err;
    One(Apply(Init(pid), a), b);
  }

  lemma {:induction false} NoFailures(a: seq<Action>, b: seq<Action>, wait: Action)
    requires forall k :: 0 <= k < |a| ==> !a[k].ReadFails? && !a[k].Waits?
    requires forall k :: 0 <= k < |b| ==> !b[k].ReadFails? && (b[k].Waits? ==> b[k] == wait)
    ensures ReadFails(Out) !in a + b && ReadFails(Err) !in a + b
    ensures forall k :: 0 <= k < |a + b| && (a + b)[k].Waits? ==> (a + b)[k] == wait
  {
  }

  /**
   * A read of a pipe that fails is not reported. From any state in which the
   * reader of stdout may fail, the run can end so that the client completes the
   * command with an exit code, and with the text of no more than had been read.
   */
  lemma {:induction false} FailedReadTruncates(pid: int, run: seq<Action>, wait: Action) returns (more: seq<Action>)
    requires ValidRun(Init(pid), run) && After(Init(pid), run).phase == Serving && After(Init(pid), run).outReader == Idle
    requires wait.Waits? && !wait.error.OtherError? && !wait.timedOut
    ensures ValidRun(Init(pid), run + more)
    ensures var s, t := After(Init(pid), run), After(Init(pid), run + more);
            var (events, ok) := StreamValues(t.wire, ParseEvent);
            var result := Channel.RunResultOf(events, ok);
            && t.main == Stopped && t.out.written == s.out.written
            && result.Completed? && result.exitCode == wait.code && result.stdout == Utf8.ToText(Received(s.out))
  {
    hide *;
    more := EndsAfterFailure(pid, run, wait);
    var s, t := After(Init(pid), run), After(Init(pid), run + more);
    OnePiece(t.wire);
    Channel.ExecEndToEnd(pid, run + more, [t.wire]);
    ReportsOfExit(wait, Received(t.out), Received(t.err));
    SameReceived(s.out, t.out);
    OnlyWaitAt(run + more, wait);
  }

  lemma {:induction false} EndsAfterFailure(pid: int, run: seq<Action>, wait: Action) returns (more: seq<Action>)
    requires ValidRun(Init(pid), run) && After(Init(pid), run).phase == Serving && After(Init(pid), run).outReader == Idle
    requires wait.Waits?
    ensures ValidRun(Init(pid), run + more)
    ensures var s, t := After(Init(pid), run), After(Init(pid), run + more);
            t.main == Stopped && t.out.written == s.out.written && t.out.taken == s.out.taken
    ensures OnlyWait(run + more, wait)
  {
    ReaderFails(After(Init(pid), run));
    hide *;
    InitInv(pid);
    RunKeepsInv(Init(pid), pid, run);
    var s := After(Init(pid), run);
    var t := Apply(s, ReadFails(Out));
    StepKeepsInv(s, pid, ReadFails(Out));
    One(s, ReadFails(Out));
    var closes := ClosePipes(t, pid);
    var rest := ComesToTheEnd(After(t, closes), pid, wait);
    Concat(t, closes, rest);
    Concat(s, [ReadFails(Out)], closes + rest);
    more := [ReadFails(Out)] + (closes + rest);
    Concat(Init(pid), run, more);
    NoWaitSoFar(pid, run, wait);
    OnlyWaitAppends(closes, rest, wait);
    OnlyWaitAppends([ReadFails(Out)], closes + rest, wait);
    OnlyWaitAppends(run, more, wait);
  }

  /** The steps hold no other Wait. */
  predicate OnlyWait(run: seq<Action>, wait: Action) {
    forall k :: 0 <= k < |run| ==> run[k].Waits? ==> run[k] == wait
  }

  lemma {:induction false} OnlyWaitAppends(a: seq<Action>, b: seq<Action>, wait: Action)
    ensures (forall k :: 0 <= k < |a| ==> !a[k].Waits?) ==> OnlyWait(a, wait)
    ensures (forall k :: 0 <= k < |b| ==> b[k].Waits? ==> b[k] == wait) ==> OnlyWait(b, wait)
    ensures OnlyWait(a, wait) && OnlyWait(b, wait) ==> OnlyWait(a + b, wait)
  {
  }

  lemma {:induction false} OnlyWaitAt(run: seq<Action>, wait: Action)
    requires OnlyWait(run, wait)
    ensures forall k :: 0 <= k < |run| && run[k].Waits? ==> run[k] == wait
  {
  }

  lemma {:induction false} NoWaitSoFar(pid: int, run: seq<Action>, wait: Action)
    requires ValidRun(Init(pid), run) && After(Init(pid), run).phase == Serving
    ensures OnlyWait(run, wait)
  {
    hide Inv, ValidRun, After;
    InitInv(pid);
    LastIsOfWait(Init(pid), pid, run);
  }

  lemma {:induction false} ReaderFails(s: State)
    requires s.phase == Serving && s.outReader == Idle
    ensures Enabled(s, ReadFails(Out))
    ensures var t := Apply(s, ReadFails(Out));
            t.outReader == Stopped && t.out.taken == s.out.taken && t.out.written == s.out.written
  {
  }

  lemma {:induction false} OnePiece(piece: seq<byte>)
    ensures Flatten([piece]) == piece
  {
    assert [piece][1..] == [] && piece + [] == piece;
  }

  lemma {:induction false} SameReceived(p: Pipe, q: Pipe)
    requires p.taken == q.taken && p.written == q.written
    ensures Received(p) == Received(q)
  {
  }

  lemma {:induction false} ReportsOfExit(wait: Action, out: seq<byte>, err: seq<byte>)
    requires wait.Waits? && !wait.error.OtherError? && !wait.timedOut
    ensures forall result :: Channel.Reports(result, wait, out, err) ==>
              result == Channel.Completed(Utf8.ToText(out), Utf8.ToText(err), wait.code)
  {
    hide Utf8.ToText;
  }

  lemma {:induction false} ClosePipes(s: State, pid: int) returns (actions: seq<Action>)
    requires Inv(s, pid)
    ensures ValidRun(s, actions) && Inv(After(s, actions), pid) && BothClosed(After(s, actions))
    ensures After(s, actions).out.written == s.out.written && After(s, actions).err.written == s.err.written
    ensures After(s, actions).outReader == s.outReader && After(s, actions).out.taken == s.out.taken
    ensures forall k :: 0 <= k < |actions| ==> actions[k].Closes?
  {
    hide Inv;
    actions := (if s.out.closed then [] else [Closes(Out)]) + (if s.err.closed then [] else [Closes(Err)]);
    if s.out.closed {
      if !s.err.closed { One(s, Closes(Err)); assert actions == [Closes(Err)]; }
    } else {
      One(s, Closes(Out));
      var t := Apply(s, Closes(Out));
      if s.err.closed {
        assert actions == [Closes(Out)];
      } else {
        One(t, Closes(Err));
        Concat(s, [Closes(Out)], [Closes(Err)]);
      }
    }
    RunKeepsInv(s, pid, actions);
  }

  lemma {:induction false} One(s: State, a: Action)
    requires Enabled(s, a)
    ensures ValidRun(s, [a]) && After(s, [a]) == Apply(s, a)
  {
    hide Enabled, Apply;
    assert [a][1..] == [];
  }

  lemma {:induction false} Concat(s: State, run: seq<Action>, more: seq<Action>)
    requires ValidRun(s, run) && ValidRun(After(s, run), more)
    ensures ValidRun(s, run + more) && After(s, run + more) == After(After(s, run), more)
    decreases |run|
  {
    hide Enabled, Apply;
    if run == [] {
      assert run + more == more;
    } else {
      Concat(Apply(s, run[0]), run[1..], more);
      assert (run + more)[1..] == run[1..] + more;
    }
  }
}
