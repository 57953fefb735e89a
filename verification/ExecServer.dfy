/**
 * The agent's `/exec` handler: two goroutines read the process's pipes while
 * it runs, and they and the handler share one response body through a mutex.
 * A state and its actions; any order of actions is a run.
 */
module ExecServer {
  import opened Common
  import opened ExecEvents

  /** At most this many bytes in one output event. */
  const CHUNK_SIZE: nat := 32 * 1024

  /** A pipe of the process: all that was ever written to it, how much of that
      its reader has taken, whether its last holder has closed it, and whether a
      read of it has failed. */
  datatype Pipe = Pipe(written: seq<byte>, taken: nat, closed: bool, failed: bool)

  /** What its reader has had of it. */
  function Received(p: Pipe): seq<byte> {
    if p.taken <= |p.written| then p.written[..p.taken] else p.written
  }

  /** The reader has no more to expect. */
  predicate Drained(p: Pipe) {
    p.failed || (p.closed && p.taken == |p.written|)
  }

  datatype Who = Main | Out | Err

  /** A goroutine as the event writer knows it: reading, wanting the mutex for
      an event, holding it with `rest` of the line to go, or gone. */
  datatype Writer = Idle | Pending(event: ExecEvent) | Writing(event: ExecEvent, rest: seq<byte>) | Stopped

  datatype Phase = Announcing | Serving | Closing

  datatype State = State(
    out: Pipe, err: Pipe, main: Writer, outReader: Writer, errReader: Writer,
    lock: Option<Who>, phase: Phase, wire: seq<byte>, sent: seq<ExecEvent>)
  {
    function PipeOf(who: Who): Pipe { if who == Err then err else out }

    function WriterOf(who: Who): Writer {
      match who
      case Main => main
      case Out => outReader
      case Err => errReader
    }

    function WithWriter(who: Who, w: Writer): State {
      match who
      case Main => this.(main := w)
      case Out => this.(outReader := w)
      case Err => this.(errReader := w)
    }

    function WithPipe(who: Who, p: Pipe): State {
      if who == Err then this.(err := p) else this.(out := p)
    }
  }

  /** How `cmd.Wait` ended: its error, if any, is an ordinary exit or another. */
  datatype WaitError = NoError | ExitError | OtherError(message: string)

  datatype Action =
    | Writes(who: Who, bytes: seq<byte>)
    | Closes(who: Who)
    | Reads(who: Who, n: nat)
    | SeesEof(who: Who)
    | ReadFails(who: Who)
    | Waits(error: WaitError, code: int, timedOut: bool)
    | Locks(who: Who)
    | Emits(who: Who, n: nat)
    | Unlocks(who: Who)

  function Init(pid: int): State {
    State(Pipe([], 0, false, false), Pipe([], 0, false, false), Pending(PidEvent(pid)), Idle, Idle,
          None, Announcing, [], [])
  }

  function OutputEvent(who: Who, chunk: seq<byte>): ExecEvent {
    if who == Err then StderrEvent(chunk) else StdoutEvent(chunk)
  }

  function FinalEvent(error: WaitError, code: int, timedOut: bool): ExecEvent {
    match error
    case OtherError(message) => if code == 0 then ErrorEvent(message) else ExitEvent(code, timedOut)
    case _ => ExitEvent(code, timedOut)
  }

  predicate Enabled(s: State, a: Action) {
    match a
    case Writes(who, _) => who != Main && !s.PipeOf(who).closed
    case Closes(who) => who != Main && !s.PipeOf(who).closed
    case Reads(who, n) =>
      who != Main && s.phase == Serving && s.WriterOf(who) == Idle
      && 0 < n <= CHUNK_SIZE && s.PipeOf(who).taken + n <= |s.PipeOf(who).written|
    case SeesEof(who) =>
      who != Main && s.phase == Serving && s.WriterOf(who) == Idle
      && s.PipeOf(who).closed && s.PipeOf(who).taken == |s.PipeOf(who).written|
    case ReadFails(who) => who != Main && s.phase == Serving && s.WriterOf(who) == Idle
    case Waits(_, _, _) => s.phase == Serving && s.outReader == Stopped && s.errReader == Stopped
    case Locks(who) => s.lock == None && s.WriterOf(who).Pending?
    case Emits(who, n) => s.lock == Some(who) && s.WriterOf(who).Writing? && 0 < n <= |s.WriterOf(who).rest|
    case Unlocks(who) => s.lock == Some(who) && s.WriterOf(who).Writing? && s.WriterOf(who).rest == []
  }

  function Apply(s: State, a: Action): State
    requires Enabled(s, a)
  {
    match a
    case Writes(who, bytes) => s.WithPipe(who, s.PipeOf(who).(written := s.PipeOf(who).written + bytes))
    case Closes(who) => s.WithPipe(who, s.PipeOf(who).(closed := true))
    case Reads(who, n) =>
      var p := s.PipeOf(who);
      s.WithPipe(who, p.(taken := p.taken + n))
       .WithWriter(who, Pending(OutputEvent(who, p.written[p.taken..p.taken + n])))
    case SeesEof(who) => s.WithWriter(who, Stopped)
    case ReadFails(who) => s.WithPipe(who, s.PipeOf(who).(failed := true)).WithWriter(who, Stopped)
    case Waits(error, code, timedOut) =>
      s.(main := Pending(FinalEvent(error, code, timedOut)), phase := Closing)
    case Locks(who) =>
      s.WithWriter(who, Writing(s.WriterOf(who).event, LineBytes(s.WriterOf(who).event))).(lock := Some(who))
    case Emits(who, n) =>
      var w := s.WriterOf(who);
      s.WithWriter(who, w.(rest := w.rest[n..])).(wire := s.wire + w.rest[..n])
    case Unlocks(who) =>
      var next := s.(sent := s.sent + [s.WriterOf(who).event], lock := None);
      if who != Main then next.WithWriter(who, Idle)
      else if s.phase == Announcing then next.(main := Idle, phase := Serving)
      else next.(main := Stopped)
  }

  ghost predicate ValidRun(s: State, actions: seq<Action>)
    decreases |actions|
  {
    actions == [] || (Enabled(s, actions[0]) && ValidRun(Apply(s, actions[0]), actions[1..]))
  }

  ghost function After(s: State, actions: seq<Action>): State
    requires ValidRun(s, actions)
    decreases |actions|
  {
    if actions == [] then s else After(Apply(s, actions[0]), actions[1..])
  }

  predicate IsOutput(e: ExecEvent) {
    || (e.stdout != [] && |e.stdout| <= CHUNK_SIZE && e == StdoutEvent(e.stdout))
    || (e.stderr != [] && |e.stderr| <= CHUNK_SIZE && e == StderrEvent(e.stderr))
  }

  /** The bytes of one stream that the events carry. */
  function Carried(events: seq<ExecEvent>, who: Who): seq<byte> {
    if events == [] then []
    else Carried(events[..|events| - 1], who) + CarriedBy(events[|events| - 1], who)
  }

  function CarriedBy(e: ExecEvent, who: Who): seq<byte> {
    if who == Err then e.stderr else e.stdout
  }

  /** The bytes a reader has taken and not yet sent. */
  function InHand(w: Writer, who: Who): seq<byte> {
    if w.Pending? || w.Writing? then CarriedBy(w.event, who) else []
  }

  /** One pipe and its reader: nothing taken is lost, and the reader is gone
      only once the pipe is closed and drained, or a read of it has failed. */
  predicate ReaderInv(p: Pipe, w: Writer, carried: seq<byte>, phase: Phase, who: Who) {
    && p.taken <= |p.written|
    && carried + InHand(w, who) == p.written[..p.taken]
    && (w.Pending? || w.Writing? ==> IsOutput(w.event) && w.event == OutputEvent(who, CarriedBy(w.event, who)))
    && (w.Stopped? ==> Drained(p))
    && (phase == Announcing ==> w == Idle)
    && (phase == Closing ==> w == Stopped)
  }

  predicate OutInv(s: State) { ReaderInv(s.out, s.outReader, Carried(s.sent, Out), s.phase, Out) }

  predicate ErrInv(s: State) { ReaderInv(s.err, s.errReader, Carried(s.sent, Err), s.phase, Err) }

  /** The body is whole lines but for the one its writer has `rest` to go of. */
  predicate LineOpen(wire: seq<byte>, sent: seq<ExecEvent>, w: Writer) {
    w.Writing? && wire + w.rest == LinesBytes(sent + [w.event])
  }

  /** Only the holder of the mutex is writing. */
  predicate WireInv(s: State) {
    && (s.main.Writing? ==> s.lock == Some(Main))
    && (s.outReader.Writing? ==> s.lock == Some(Out))
    && (s.errReader.Writing? ==> s.lock == Some(Err))
    && match s.lock
       case None => s.wire == LinesBytes(s.sent)
       case Some(who) => LineOpen(s.wire, s.sent, s.WriterOf(who))
  }

  predicate IsFinal(e: ExecEvent) {
    e.stdout == [] && e.stderr == [] && (e.exit.Some? ==> e == ExitEvent(e.exit.value, e.timedOut))
    && (e.exit.None? ==> e == ErrorEvent(e.error))
  }

  predicate PidThenOutput(sent: seq<ExecEvent>, pid: int) {
    sent != [] && sent[0] == PidEvent(pid) && forall i :: 0 < i < |sent| ==> IsOutput(sent[i])
  }

  /** The pid first, then output, and one final event last. */
  predicate Shape(phase: Phase, main: Writer, sent: seq<ExecEvent>, pid: int) {
    match phase
    case Announcing => sent == [] && (main.Pending? || main.Writing?) && main.event == PidEvent(pid)
    case Serving => main == Idle && PidThenOutput(sent, pid)
    case Closing =>
      if main == Stopped then
        |sent| >= 2 && PidThenOutput(sent[..|sent| - 1], pid) && IsFinal(sent[|sent| - 1])
      else (main.Pending? || main.Writing?) && IsFinal(main.event) && PidThenOutput(sent, pid)
  }

  predicate Inv(s: State, pid: int) {
    WireInv(s) && OutInv(s) && ErrInv(s) && Shape(s.phase, s.main, s.sent, pid)
  }

  lemma {:induction false} InitInv(pid: int)
    ensures Inv(Init(pid), pid)
  {
  }

  lemma {:induction false} LinesTextSnoc(events: seq<ExecEvent>, e: ExecEvent)
    ensures LinesText(events + [e]) == LinesText(events) + Line(e)
  {
    if events == [] {
      assert [e][1..] == [] && events + [e] == [e];
      assert Line(e) + "" == Line(e) && "" + Line(e) == Line(e);
    } else {
      assert (events + [e])[1..] == events[1..] + [e];
      LinesTextSnoc(events[1..], e);
      Regroup(Line(events[0]), LinesText(events[1..]), Line(e));
    }
  }

  lemma {:induction false} LinesBytesSnoc(events: seq<ExecEvent>, e: ExecEvent)
    ensures LinesBytes(events + [e]) == LinesBytes(events) + LineBytes(e)
  {
    LinesTextSnoc(events, e);
    Utf8.EncodeAppend(LinesText(events), Line(e));
  }

  lemma {:induction false} CarriedSnoc(events: seq<ExecEvent>, e: ExecEvent, who: Who)
    ensures Carried(events + [e], who) == Carried(events, who) + CarriedBy(e, who)
  {
    assert (events + [e])[..|events|] == events;
  }

  lemma {:induction false} LineOpens(wire: seq<byte>, sent: seq<ExecEvent>, e: ExecEvent)
    requires wire == LinesBytes(sent)
    ensures LineOpen(wire, sent, Writing(e, LineBytes(e)))
  {
    LinesBytesSnoc(sent, e);
  }

  lemma {:induction false} LineContinues(wire: seq<byte>, sent: seq<ExecEvent>, w: Writer, n: nat)
    requires LineOpen(wire, sent, w) && n <= |w.rest|
    ensures LineOpen(wire + w.rest[..n], sent, w.(rest := w.rest[n..]))
  {
    assert w.rest == w.rest[..n] + w.rest[n..];
    Regroup(wire, w.rest[..n], w.rest[n..]);
  }

  /** A reader takes some of its pipe. */
  lemma {:induction false} ReaderTakes(p: Pipe, carried: seq<byte>, phase: Phase, who: Who, n: nat)
    requires who != Main && ReaderInv(p, Idle, carried, phase, who)
    requires phase == Serving && 0 < n <= CHUNK_SIZE && p.taken + n <= |p.written|
    ensures ReaderInv(p.(taken := p.taken + n), Pending(OutputEvent(who, p.written[p.taken..p.taken + n])), carried, phase, who)
  {
    assert p.written[..p.taken] + p.written[p.taken..p.taken + n] == p.written[..p.taken + n];
    assert carried + [] == carried;
  }

  lemma {:induction false} PipeGrows(p: Pipe, w: Writer, carried: seq<byte>, phase: Phase, who: Who, bytes: seq<byte>)
    requires ReaderInv(p, w, carried, phase, who) && !p.closed
    ensures ReaderInv(p.(written := p.written + bytes), w, carried, phase, who)
  {
    assert (p.written + bytes)[..p.taken] == p.written[..p.taken];
  }

  lemma {:induction false} ReaderSends(p: Pipe, w: Writer, sent: seq<ExecEvent>, phase: Phase, who: Who)
    requires who != Main && ReaderInv(p, w, Carried(sent, who), phase, who) && w.Writing?
    ensures ReaderInv(p, Idle, Carried(sent + [w.event], who), phase, who)
  {
    CarriedSnoc(sent, w.event, who);
    assert Carried(sent + [w.event], who) + [] == Carried(sent + [w.event], who);
  }

  lemma {:induction false} OthersSend(sent: seq<ExecEvent>, e: ExecEvent, who: Who)
    requires CarriedBy(e, who) == []
    ensures Carried(sent + [e], who) == Carried(sent, who)
  {
    CarriedSnoc(sent, e, who);
    assert Carried(sent, who) + [] == Carried(sent, who);
  }

  lemma {:induction false} PipeActionKeepsInv(s: State, pid: int, a: Action)
    requires Inv(s, pid) && Enabled(s, a) && (a.Writes? || a.Closes?)
    ensures Inv(Apply(s, a), pid)
  {
    hide LinesBytes, LineBytes, Carried;
    if a.Writes? {
      if a.who == Out {
        PipeGrows(s.out, s.outReader, Carried(s.sent, Out), s.phase, Out, a.bytes);
      } else {
        PipeGrows(s.err, s.errReader, Carried(s.sent, Err), s.phase, Err, a.bytes);
      }
    }
  }

  lemma {:induction false} ReadsKeepInv(s: State, pid: int, who: Who, n: nat)
    requires Inv(s, pid) && Enabled(s, Reads(who, n))
    ensures Inv(Apply(s, Reads(who, n)), pid)
  {
    hide LinesBytes, LineBytes, Carried, ReaderInv, Shape, OutputEvent;
    if who == Out {
      ReaderTakes(s.out, Carried(s.sent, Out), s.phase, Out, n);
    } else {
      ReaderTakes(s.err, Carried(s.sent, Err), s.phase, Err, n);
    }
  }

  lemma {:induction false} EofKeepsInv(s: State, pid: int, who: Who)
    requires Inv(s, pid) && Enabled(s, SeesEof(who))
    ensures Inv(Apply(s, SeesEof(who)), pid)
  {
    hide LinesBytes, LineBytes, Carried;
  }

  lemma {:induction false} FailKeepsInv(s: State, pid: int, who: Who)
    requires Inv(s, pid) && Enabled(s, ReadFails(who))
    ensures Inv(Apply(s, ReadFails(who)), pid)
  {
    hide LinesBytes, LineBytes, Carried, PidThenOutput;
  }

  lemma {:induction false} WaitKeepsInv(s: State, pid: int, error: WaitError, code: int, timedOut: bool)
    requires Inv(s, pid) && Enabled(s, Waits(error, code, timedOut))
    ensures Inv(Apply(s, Waits(error, code, timedOut)), pid)
  {
    hide LinesBytes, LineBytes, Carried;
  }

  lemma {:induction false} LockKeepsInv(s: State, pid: int, who: Who)
    requires Inv(s, pid) && Enabled(s, Locks(who))
    ensures Inv(Apply(s, Locks(who)), pid)
  {
    hide LinesBytes, LineBytes, Carried, ReaderInv, PidThenOutput, IsFinal;
    var e := s.WriterOf(who).event;
    LineOpens(s.wire, s.sent, e);
    if who == Out {
      ReaderLocks(s.out, e, LineBytes(e), Carried(s.sent, Out), s.phase, Out);
    } else if who == Err {
      ReaderLocks(s.err, e, LineBytes(e), Carried(s.sent, Err), s.phase, Err);
    }
  }

  lemma {:induction false} ReaderLocks(
    p: Pipe, e: ExecEvent, rest: seq<byte>, carried: seq<byte>, phase: Phase, who: Who)
    requires ReaderInv(p, Pending(e), carried, phase, who)
    ensures ReaderInv(p, Writing(e, rest), carried, phase, who)
  {
  }

  lemma {:induction false} EmitKeepsInv(s: State, pid: int, who: Who, n: nat)
    requires Inv(s, pid) && Enabled(s, Emits(who, n))
    ensures Inv(Apply(s, Emits(who, n)), pid)
  {
    LineContinues(s.wire, s.sent, s.WriterOf(who), n);
  }

  lemma {:induction false} UnlockReaders(s: State, pid: int, who: Who)
    requires Inv(s, pid) && Enabled(s, Unlocks(who))
    ensures OutInv(Apply(s, Unlocks(who))) && ErrInv(Apply(s, Unlocks(who)))
  {
    hide LinesBytes, LineBytes, Carried, WireInv, PidThenOutput;
    var e := s.WriterOf(who).event;
    if who == Out {
      hide Shape;
      ReaderSends(s.out, s.outReader, s.sent, s.phase, Out);
    } else {
      hide IsOutput;
      OthersSend(s.sent, e, Out);
    }
    if who == Err {
      hide Shape;
      ReaderSends(s.err, s.errReader, s.sent, s.phase, Err);
    } else {
      OthersSend(s.sent, e, Err);
    }
  }

  lemma {:induction false} UnlockWire(s: State, who: Who)
    requires WireInv(s) && Enabled(s, Unlocks(who))
    ensures WireInv(Apply(s, Unlocks(who)))
  {
    hide LinesBytes, LineBytes;
    assert s.wire + [] == s.wire;
  }

  lemma {:induction false} UnlockShape(s: State, pid: int, who: Who)
    requires Inv(s, pid) && Enabled(s, Unlocks(who))
    ensures var t := Apply(s, Unlocks(who)); Shape(t.phase, t.main, t.sent, pid)
  {
    hide LinesBytes, LineBytes, Carried, WireInv;
    var e := s.WriterOf(who).event;
    assert (s.sent + [e])[..|s.sent|] == s.sent;
    hide IsFinal, IsOutput;
  }

  lemma {:induction false} UnlockKeepsInv(s: State, pid: int, who: Who)
    requires Inv(s, pid) && Enabled(s, Unlocks(who))
    ensures Inv(Apply(s, Unlocks(who)), pid)
  {
    hide Apply, Enabled, WireInv, OutInv, ErrInv, Shape;
    UnlockWire(s, who);
    UnlockReaders(s, pid, who);
    UnlockShape(s, pid, who);
  }

  lemma {:induction false} StepKeepsInv(s: State, pid: int, a: Action)
    requires Inv(s, pid) && Enabled(s, a)
    ensures Inv(Apply(s, a), pid)
  {
    hide *;
    match a
    case Reads(who, n) => ReadsKeepInv(s, pid, who, n);
    case SeesEof(who) => EofKeepsInv(s, pid, who);
    case ReadFails(who) => FailKeepsInv(s, pid, who);
    case Waits(error, code, timedOut) => WaitKeepsInv(s, pid, error, code, timedOut);
    case Locks(who) => LockKeepsInv(s, pid, who);
    case Emits(who, n) => EmitKeepsInv(s, pid, who, n);
    case Unlocks(who) => UnlockKeepsInv(s, pid, who);
    case _ => PipeActionKeepsInv(s, pid, a);
  }

  lemma {:induction false} RunKeepsInv(s: State, pid: int, actions: seq<Action>)
    requires Inv(s, pid) && ValidRun(s, actions)
    ensures Inv(After(s, actions), pid)
    decreases |actions|
  {
    if actions != [] {
      StepKeepsInv(s, pid, actions[0]);
      RunKeepsInv(Apply(s, actions[0]), pid, actions[1..]);
    }
  }

  lemma {:induction false} EndedState(s: State, pid: int)
    requires Inv(s, pid) && s.main == Stopped
    ensures Ended(s, pid)
  {
    hide LinesBytes, Carried;
    assert s.phase == Closing && s.lock == None;
    assert Carried(s.sent, Out) + [] == Carried(s.sent, Out);
    assert Carried(s.sent, Err) + [] == Carried(s.sent, Err);
    var body := s.sent[..|s.sent| - 1];
    assert body[0] == s.sent[0];
    assert forall i :: 0 < i < |s.sent| - 1 ==> body[i] == s.sent[i];
  }

  /** What a finished response amounts to: the pid, then only output, then one
      final event, as whole lines in order, and the output is exactly what was
      read of each pipe before it was closed, or a read of it failed. */
  predicate Ended(s: State, pid: int) {
    && |s.sent| >= 2 && s.sent[0] == PidEvent(pid) && IsFinal(s.sent[|s.sent| - 1])
    && (forall i :: 0 < i < |s.sent| - 1 ==> IsOutput(s.sent[i]))
    && s.wire == LinesBytes(s.sent)
    && Drained(s.out) && Drained(s.err)
    && Carried(s.sent, Out) == Received(s.out) && Carried(s.sent, Err) == Received(s.err)
  }

  // ---- the final event ----

  /** The event the handler sends once cmd.Wait has returned. */
  function FinalOf(a: Action): ExecEvent
    requires a.Waits?
  {
    FinalEvent(a.error, a.code, a.timedOut)
  }

  /** The final event, on its way or sent. */
  function Last(s: State): Option<ExecEvent> {
    if s.phase != Closing then None
    else if s.main == Stopped then if s.sent == [] then None else Some(s.sent[|s.sent| - 1])
    else if s.main == Idle then None
    else Some(s.main.event)
  }

  /** Once it is on its way nothing changes it, or comes after it. */
  lemma {:induction false} LastStays(s: State, pid: int, a: Action)
    requires Inv(s, pid) && Enabled(s, a) && s.phase == Closing
    ensures Apply(s, a).phase == Closing && Last(Apply(s, a)) == Last(s) && !a.Waits?
  {
    hide LinesBytes, LineBytes, Carried, LineOpen, PidThenOutput, IsOutput, IsFinal;
  }

  lemma {:induction false} LastOfRun(s: State, pid: int, actions: seq<Action>)
    requires Inv(s, pid) && ValidRun(s, actions) && s.phase == Closing
    ensures After(s, actions).phase == Closing && Last(After(s, actions)) == Last(s)
    ensures forall j :: 0 <= j < |actions| ==> !actions[j].Waits?
    decreases |actions|
  {
    hide Inv, Enabled, Apply, Last;
    if actions != [] {
      LastStays(s, pid, actions[0]);
      StepKeepsInv(s, pid, actions[0]);
      LastOfRun(Apply(s, actions[0]), pid, actions[1..]);
    }
  }

  /** The one Wait of a run that has one, or comes to its close. */
  lemma {:induction false} LastIsOfWait(s: State, pid: int, actions: seq<Action>)
    requires Inv(s, pid) && ValidRun(s, actions) && s.phase != Closing
    ensures After(s, actions).phase == Closing <==> exists j :: 0 <= j < |actions| && actions[j].Waits?
    ensures forall j :: 0 <= j < |actions| && actions[j].Waits? ==>
              Last(After(s, actions)) == Some(FinalOf(actions[j]))
    decreases |actions|
  {
    hide Inv, Enabled, Apply, Last, FinalOf;
    if actions != [] {
      var next := Apply(s, actions[0]);
      StepKeepsInv(s, pid, actions[0]);
      WaitCloses(s, actions[0]);
      if actions[0].Waits? {
        LastOfRun(next, pid, actions[1..]);
        assert forall k :: 0 < k < |actions| ==> actions[k] == actions[1..][k - 1];
      } else {
        LastIsOfWait(next, pid, actions[1..]);
        forall j | 0 <= j < |actions| && actions[j].Waits? ensures actions[1..][j - 1] == actions[j] {
        }
        if j :| 0 <= j < |actions[1..]| && actions[1..][j].Waits? {
          assert actions[j + 1].Waits?;
        }
      }
    }
  }

  lemma {:induction false} WaitCloses(s: State, a: Action)
    requires Enabled(s, a) && s.phase != Closing
    ensures Apply(s, a).phase == Closing <==> a.Waits?
    ensures a.Waits? ==> Last(Apply(s, a)) == Some(FinalOf(a))
  {
    hide LineBytes;
  }

  /** What a process has written to one of its pipes, in the order it did. */
  function WrittenBy(actions: seq<Action>, who: Who): seq<byte> {
    if actions == [] then []
    else WrittenBy(actions[..|actions| - 1], who) + WrittenIn(actions[|actions| - 1], who)
  }

  function WrittenIn(a: Action, who: Who): seq<byte> {
    if a.Writes? && a.who == who then a.bytes else []
  }

  lemma {:induction false} WrittenNext(a: Action, rest: seq<Action>, who: Who)
    ensures WrittenBy([a] + rest, who) == WrittenIn(a, who) + WrittenBy(rest, who)
    decreases |rest|
  {
    hide WrittenIn;
    var run := [a] + rest;
    if rest == [] {
      assert run == [a] && run[..0] == [];
      assert [] + WrittenIn(a, who) == WrittenIn(a, who) == WrittenIn(a, who) + [];
    } else {
      var n := |rest| - 1;
      assert run[..n + 1] == [a] + rest[..n] && run[n + 1] == rest[n];
      WrittenNext(a, rest[..n], who);
      Regroup(WrittenIn(a, who), WrittenBy(rest[..n], who), WrittenIn(rest[n], who));
    }
  }

  /** What was written to a pipe in a run is what its process wrote in it, and
      the pipe is closed when a step has closed it. */
  lemma {:induction false} WrittenExactly(s: State, actions: seq<Action>, who: Who)
    requires ValidRun(s, actions) && who != Main
    ensures After(s, actions).PipeOf(who).written == s.PipeOf(who).written + WrittenBy(actions, who)
    ensures After(s, actions).PipeOf(who).closed <==> s.PipeOf(who).closed || Closes(who) in actions
    decreases |actions|
  {
    hide Apply, Enabled, WrittenBy, WrittenIn;
    if actions == [] {
      WrittenNothing(who);
      assert s.PipeOf(who).written + [] == s.PipeOf(who).written;
    } else {
      var a, rest := actions[0], actions[1..];
      WritesInStep(s, a, who);
      WrittenExactly(Apply(s, a), rest, who);
      WrittenNext(a, rest, who);
      assert actions == [a] + rest;
      Regroup(s.PipeOf(who).written, WrittenIn(a, who), WrittenBy(rest, who));
    }
  }

  lemma {:induction false} WrittenNothing(who: Who)
    ensures WrittenBy([], who) == []
  {
  }

  lemma {:induction false} WritesInStep(s: State, a: Action, who: Who)
    requires Enabled(s, a) && who != Main
    ensures Apply(s, a).PipeOf(who).written
         == s.PipeOf(who).written + WrittenIn(a, who)
    ensures Apply(s, a).PipeOf(who).closed <==> s.PipeOf(who).closed || a == Closes(who)
  {
    hide LineBytes;
    assert s.PipeOf(who).written + [] == s.PipeOf(who).written;
  }

  /** Every run that ends, whatever order its steps took; and its final event is
      what its one cmd.Wait returned. */
  lemma {:induction false} EndedRun(pid: int, actions: seq<Action>)
    requires ValidRun(Init(pid), actions) && After(Init(pid), actions).main == Stopped
    ensures Ended(After(Init(pid), actions), pid)
    ensures var s := After(Init(pid), actions);
            && Carried(s.sent, Out) <= WrittenBy(actions, Out) && Carried(s.sent, Err) <= WrittenBy(actions, Err)
            && (ReadFails(Out) !in actions ==> Closes(Out) in actions && Carried(s.sent, Out) == WrittenBy(actions, Out))
            && (ReadFails(Err) !in actions ==> Closes(Err) in actions && Carried(s.sent, Err) == WrittenBy(actions, Err))
    ensures exists j :: 0 <= j < |actions| && actions[j].Waits?
    ensures forall j :: 0 <= j < |actions| && actions[j].Waits? ==>
              var a, sent := actions[j], After(Init(pid), actions).sent;
              sent != [] && sent[|sent| - 1] ==
                if a.error.OtherError? && a.code == 0 then ErrorEvent(a.error.message) else ExitEvent(a.code, a.timedOut)
  {
    hide WireInv, OutInv, ErrInv, FinalOf, ValidRun, After, LinesBytes, Carried, Received, Drained, IsOutput, IsFinal;
    InitInv(pid);
    RunKeepsInv(Init(pid), pid, actions);
    var s := After(Init(pid), actions);
    EndedState(s, pid);
    LastIsOfWait(Init(pid), pid, actions);
    PipesOfRun(pid, actions);
    WaitReported(actions);
  }

  /** What each pipe of a run has received, of what was written to it. */
  lemma {:induction false} PipesOfRun(pid: int, actions: seq<Action>)
    requires ValidRun(Init(pid), actions)
    ensures var s := After(Init(pid), actions);
            && Received(s.out) <= s.out.written == WrittenBy(actions, Out)
            && Received(s.err) <= s.err.written == WrittenBy(actions, Err)
            && (Drained(s.out) && ReadFails(Out) !in actions ==> Closes(Out) in actions && Received(s.out) == s.out.written)
            && (Drained(s.err) && ReadFails(Err) !in actions ==> Closes(Err) in actions && Received(s.err) == s.err.written)
  {
    hide ValidRun, After, WrittenBy, Received, Drained;
    var s := After(Init(pid), actions);
    FailedExactly(Init(pid), actions, Out);
    FailedExactly(Init(pid), actions, Err);
    WrittenExactly(Init(pid), actions, Out);
    WrittenExactly(Init(pid), actions, Err);
    assert [] + WrittenBy(actions, Out) == WrittenBy(actions, Out);
    assert [] + WrittenBy(actions, Err) == WrittenBy(actions, Err);
    ReceivedPrefix(s.out);
    ReceivedPrefix(s.err);
    if Drained(s.out) && !s.out.failed { AllReceived(s.out); }
    if Drained(s.err) && !s.err.failed { AllReceived(s.err); }
  }

  lemma {:induction false} ReceivedPrefix(p: Pipe)
    ensures Received(p) <= p.written
  {
  }

  lemma {:induction false} WaitReported(actions: seq<Action>)
    ensures forall j :: 0 <= j < |actions| && actions[j].Waits? ==>
              var a := actions[j];
              FinalOf(a) == if a.error.OtherError? && a.code == 0 then ErrorEvent(a.error.message)
                            else ExitEvent(a.code, a.timedOut)
  {
  }

  /** Of a pipe of which no read failed, all that was written is received. */
  lemma {:induction false} AllReceived(p: Pipe)
    requires Drained(p) && !p.failed
    ensures p.closed && Received(p) == p.written
  {
  }

  /** A pipe has failed when a step of the run says so. */
  lemma {:induction false} FailedExactly(s: State, actions: seq<Action>, who: Who)
    requires ValidRun(s, actions) && who != Main
    ensures After(s, actions).PipeOf(who).failed <==> s.PipeOf(who).failed || ReadFails(who) in actions
    decreases |actions|
  {
    hide Apply, Enabled;
    if actions != [] {
      FailsInStep(s, actions[0], who);
      FailedExactly(Apply(s, actions[0]), actions[1..], who);
    }
  }

  lemma {:induction false} FailsInStep(s: State, a: Action, who: Who)
    requires Enabled(s, a) && who != Main
    ensures Apply(s, a).PipeOf(who).failed <==> s.PipeOf(who).failed || a == ReadFails(who)
  {
    hide LineBytes;
  }

  /** Whatever has reached the body by now is a prefix of whole lines; and no
      exit is among them before both pipes are drained. */
  lemma {:induction false} BodySoFar(s: State, pid: int) returns (events: seq<ExecEvent>, more: seq<byte>)
    requires Inv(s, pid)
    ensures s.wire + more == LinesBytes(events)
    ensures forall i :: 0 <= i < |events| && events[i].exit.Some? ==>
              && i == |events| - 1 && IsFinal(events[i]) && s.phase == Closing
              && ((s.main.Writing? && s.main.event == events[i]) || (s.main.Stopped? && events == s.sent))
              && Drained(s.out) && Drained(s.err)
              && Carried(events, Out) == Received(s.out) && Carried(events, Err) == Received(s.err)
  {
    hide LinesBytes, Carried;
    match s.lock
    case None =>
      events, more := s.sent, [];
      assert s.wire + [] == s.wire;
      ExitComesLast(s, pid, s.sent);
    case Some(who) =>
      events, more := s.sent + [s.WriterOf(who).event], s.WriterOf(who).rest;
      if who == Main && s.phase == Closing {
        OthersSend(s.sent, s.main.event, Out);
        OthersSend(s.sent, s.main.event, Err);
      }
      ExitComesLast(s, pid, events);
  }

  lemma {:induction false} ExitComesLast(s: State, pid: int, events: seq<ExecEvent>)
    requires Inv(s, pid)
    requires (events == s.sent && s.lock == None)
          || (s.lock.Some? && events == s.sent + [s.WriterOf(s.lock.value).event])
    requires s.lock == Some(Main) && s.phase == Closing ==>
               Carried(events, Out) == Carried(s.sent, Out) && Carried(events, Err) == Carried(s.sent, Err)
    ensures forall i :: 0 <= i < |events| && events[i].exit.Some? ==>
              && i == |events| - 1 && IsFinal(events[i]) && s.phase == Closing
              && ((s.main.Writing? && s.main.event == events[i]) || (s.main.Stopped? && events == s.sent))
              && Drained(s.out) && Drained(s.err)
              && Carried(events, Out) == Received(s.out) && Carried(events, Err) == Received(s.err)
  {
    hide LinesBytes, Carried;
    assert Carried(s.sent, Out) + [] == Carried(s.sent, Out);
    assert Carried(s.sent, Err) + [] == Carried(s.sent, Err);
    if s.main == Stopped {
      assert forall i :: 0 <= i < |s.sent| - 1 ==> s.sent[..|s.sent| - 1][i] == s.sent[i];
    }
  }

  /** The read end of one pipe. */
  class PipeSource {
    const data: seq<byte>
    /** How much the kernel hands over at a time, whatever is asked for. */
    const ready: nat -> nat
    /** Whether reading on from there fails. */
    const broken: nat -> bool
    var pos: nat

    constructor (data: seq<byte>, ready: nat -> nat, broken: nat -> bool)
      ensures this.data == data && this.ready == ready && this.broken == broken && pos == 0
    {
      this.data, this.ready, this.broken, pos := data, ready, broken, 0;
    }

    /** `ended` is an error, end of file among them. */
    method Read(buf: array<byte>) returns (n: nat, ended: bool)
      requires pos <= |data| && buf.Length > 0
      modifies this`pos, buf
      ensures n <= buf.Length && pos == old(pos) + n <= |data|
      ensures buf[..n] == data[old(pos)..pos]
      ensures ended <==> old(pos) == |data| || broken(old(pos))
      ensures ended <==> n == 0
    {
      if pos == |data| || broken(pos) {
        return 0, true;
      }
      n, ended := Min(buf.Length, Min(|data| - pos, 1 + ready(pos))), false;
      forall i | 0 <= i < n {
        buf[i] := data[pos + i];
      }
      pos := pos + n;
    }
  }

  /** What each array holds now, which is what a caller of `send` may still
      be reading. */
  function Contents(arrays: seq<array<byte>>): (c: seq<seq<byte>>)
    reads arrays
    ensures |c| == |arrays| && forall i :: 0 <= i < |c| ==> c[i] == arrays[i][..]
  {
    if arrays == [] then [] else [arrays[0][..]] + Contents(arrays[1..])
  }

  /** `forward`, run to the end of its pipe or to an error: one buffer is read
      into over and over, so each chunk is copied out of it before it is sent,
      and all that was read is. */
  method Forward(pipe: PipeSource) returns (sent: seq<array<byte>>)
    requires pipe.pos == 0
    modifies pipe`pos
    ensures forall i :: 0 <= i < |sent| ==> fresh(sent[i]) && 0 < sent[i].Length <= CHUNK_SIZE
    ensures pipe.pos <= |pipe.data| && Flatten(Contents(sent)) == pipe.data[..pipe.pos]
    ensures pipe.pos == |pipe.data| || pipe.broken(pipe.pos)
  {
    var buf := new byte[CHUNK_SIZE];
    sent := [];
    ghost var chunks: seq<seq<byte>> := [];
    var ended := false;
    while !ended
      invariant pipe.pos <= |pipe.data| && (ended ==> pipe.pos == |pipe.data| || pipe.broken(pipe.pos))
      invariant |chunks| == |sent| && Flatten(chunks) == pipe.data[..pipe.pos]
      invariant fresh(buf) && buf.Length == CHUNK_SIZE
      invariant forall i :: 0 <= i < |sent| ==> fresh(sent[i]) && sent[i] != buf && 0 < sent[i].Length <= CHUNK_SIZE
      invariant forall i :: 0 <= i < |sent| ==> sent[i][..] == chunks[i]
      decreases !ended, |pipe.data| - pipe.pos
    {
      var n;
      ghost var before := pipe.pos;
      n, ended := pipe.Read(buf);
      if n > 0 {
        var chunk := new byte[n];
        forall i | 0 <= i < n {
          chunk[i] := buf[i];
        }
        assert chunk[..] == buf[..n];
        FlattenSnoc(chunks, chunk[..]);
        assert pipe.data[..before] + pipe.data[before..pipe.pos] == pipe.data[..pipe.pos];
        sent, chunks := sent + [chunk], chunks + [chunk[..]];
      }
    }
    assert Contents(sent) == chunks;
  }
}
