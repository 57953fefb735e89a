/**
 * The client's side of `/exec`: `AgentChannel.run` collects the events of a
 * response, and what it reports is tied to what the process did.
 */
module Channel {
  import opened Common
  import opened Ndjson
  import opened ExecEvents
  import opened ExecServer
  import Base64
  import Utf8

  /** How `run` ends; a rejection other than the agent's own deadline is Failed. */
  datatype RunResult =
    | Completed(stdout: string, stderr: string, exitCode: int)
    | TimedOut
    | Failed

  function FromBase64(text: Option<string>): seq<byte> {
    if text.Some? then Base64.Decode(text.value) else []
  }

  function Text(e: AgentEvent, who: Who): Option<string> {
    if who == Err then e.stderr else e.stdout
  }

  /** The decoded output of one stream, joined in order. */
  function Joined(events: seq<AgentEvent>, who: Who): seq<byte> {
    if events == [] then []
    else Joined(events[..|events| - 1], who) + FromBase64(Text(events[|events| - 1], who))
  }

  /** The last event that carries an exit status. */
  function LastExit(events: seq<AgentEvent>): (e: Option<AgentEvent>)
    ensures e.Some? ==> e.value.exit.Some? && e.value in events
  {
    if events == [] then None
    else if events[|events| - 1].exit.Some? then Some(events[|events| - 1])
    else LastExit(events[..|events| - 1])
  }

  /** What `run` makes of the values of a response and of how it ended: any
      error event, or any failure to read, fails the call. */
  function RunResultOf(events: seq<AgentEvent>, ok: bool): RunResult {
    if !ok || exists e :: e in events && e.error.Some? then Failed
    else match LastExit(events)
      case None => Failed
      case Some(exit) =>
        if exit.timedOut then TimedOut
        else Completed(Utf8.ToText(Joined(events, Out)), Utf8.ToText(Joined(events, Err)), exit.exit.value)
  }

  /** In full: the call fails exactly when the body could not be read to its end,
      or an event reports an error, or none has an exit; else it is the last
      exit that counts, a timeout exactly when that says so. */
  lemma {:induction false} ResultExactly(events: seq<AgentEvent>, ok: bool, n: nat)
    requires n < |events| && events[n].exit.Some? && forall k :: n < k < |events| ==> events[k].exit == None
    ensures RunResultOf(events, ok) == Failed <==> !ok || exists k :: 0 <= k < |events| && events[k].error.Some?
    ensures RunResultOf(events, ok) != Failed ==>
              RunResultOf(events, ok) ==
                if events[n].timedOut then TimedOut
                else Completed(Utf8.ToText(Joined(events, Out)), Utf8.ToText(Joined(events, Err)), events[n].exit.value)
  {
    hide Joined, Utf8.ToText;
    LastExitAt(events, n);
  }

  lemma {:induction false} LastExitAt(events: seq<AgentEvent>, n: nat)
    requires n < |events| && events[n].exit.Some? && forall k :: n < k < |events| ==> events[k].exit == None
    ensures LastExit(events) == Some(events[n])
    decreases |events|
  {
    var last := |events| - 1;
    if n < last {
      assert forall k :: n < k < last ==> events[..last][k] == events[k];
      LastExitAt(events[..last], n);
    }
  }

  lemma {:induction false} NoExitFails(events: seq<AgentEvent>, ok: bool)
    requires forall k :: 0 <= k < |events| ==> events[k].exit == None
    ensures RunResultOf(events, ok) == Failed
  {
    hide Joined;
    if LastExit(events).Some? {
      assert LastExit(events).value in events;
    }
  }

  lemma {:induction false} OneMoreEvent(events: seq<AgentEvent>, i: nat, out: seq<seq<byte>>, who: Who)
    requires i < |events| && Flatten(out) == Joined(events[..i], who)
    ensures Flatten(if Text(events[i], who).Some? then out + [Base64.Decode(Text(events[i], who).value)] else out)
            == Joined(events[..i + 1], who)
    ensures LastExit(events[..i + 1]) == if events[i].exit.Some? then Some(events[i]) else LastExit(events[..i])
  {
    assert events[..i + 1][..i] == events[..i] && events[..i + 1][i] == events[i];
    match Text(events[i], who)
    case Some(text) => FlattenSnoc(out, Base64.Decode(text));
    case None => assert Joined(events[..i], who) + [] == Joined(events[..i], who);
  }

  lemma {:induction false} NothingYet(events: seq<AgentEvent>)
    ensures Joined(events[..0], Out) == Joined(events[..0], Err) == [] && LastExit(events[..0]) == None
  {
  }

  /** `broken` is a connection that breaks after these chunks. */
  method Run(chunks: seq<seq<byte>>, broken: bool) returns (result: RunResult)
    ensures var (events, ok) := StreamValues(Flatten(chunks), ParseEvent);
            result == if broken then Failed else RunResultOf(events, ok)
  {
    hide Joined, LastExit, StreamValues, Values, Base64.Decode, Utf8.ToText;
    var events, ok := ReadNdjson(chunks, broken, ParseEvent);
    var out: seq<seq<byte>>, err: seq<seq<byte>>, exit: Option<AgentEvent> := [], [], None;
    NothingYet(events);
    for i := 0 to |events|
      invariant Flatten(out) == Joined(events[..i], Out) && Flatten(err) == Joined(events[..i], Err)
      invariant exit == LastExit(events[..i])
      invariant forall k :: 0 <= k < i ==> events[k].error.None?
    {
      var event := events[i];
      OneMoreEvent(events, i, out, Out);
      OneMoreEvent(events, i, err, Err);
      if event.stdout.Some? {
        out := out + [Base64.Decode(event.stdout.value)];
      }
      if event.stderr.Some? {
        err := err + [Base64.Decode(event.stderr.value)];
      }
      if event.error.Some? {
        return Failed;
      }
      if event.exit.Some? {
        exit := Some(event);
      }
    }
    assert events[..|events|] == events;
    match exit
    case None => return Failed;
    case Some(e) =>
      if !ok {
        return Failed;
      } else if e.timedOut {
        return TimedOut;
      }
      return Completed(Utf8.ToText(Flatten(out)), Utf8.ToText(Flatten(err)), e.exit.value);
  }

  lemma {:induction false} ViewsAt(events: seq<ExecEvent>)
    ensures |Views(events)| == |events|
    ensures forall i :: 0 <= i < |events| ==> Views(events)[i] == View(events[i])
  {
    if events != [] {
      ViewsAt(events[1..]);
    }
  }

  /** What the client joins is what the events carry. */
  lemma {:induction false} JoinedViews(events: seq<ExecEvent>, who: Who)
    ensures Joined(Views(events), who) == Carried(events, who)
  {
    if events != [] {
      var n := |events| - 1;
      ViewsAt(events);
      ViewsAt(events[..n]);
      JoinedViews(events[..n], who);
      assert Views(events)[..n] == Views(events[..n]);
      Base64.RoundTrip(CarriedBy(events[n], who));
    }
  }

  /** The values of any prefix of a response are those of its first events. */
  lemma {:induction false} ReadPrefix(events: seq<ExecEvent>, received: seq<byte>, more: seq<byte>) returns (k: nat)
    requires received + more == LinesBytes(events)
    ensures k <= |events|
    ensures StreamValues(received, ParseEvent).0 == Views(events[..k])
    ensures more == [] ==> k == |events| && StreamValues(received, ParseEvent).1
  {
    var text := LinesText(events);
    Utf8.DecodeEncode(text);
    assert text != "" ==> text[0] == '{';
    assert Utf8.Decode(received + more) == text;
    Utf8.FeedAppend(Utf8.Initial, received, more);
    var rest := Utf8.Feed(Utf8.Feed(Utf8.Initial, received).0, more).1;
    assert more == [] ==> rest == "";
    k := CutText(events, Utf8.Decode(received), rest);
  }

  /** What `run` should report of a process that ended so. */
  function Expected(final: ExecEvent, out: seq<byte>, err: seq<byte>): RunResult {
    if final.exit.None? then Failed
    else if final.timedOut then TimedOut
    else Completed(Utf8.ToText(out), Utf8.ToText(err), final.exit.value)
  }

  lemma {:induction false} ResultOfEnded(events: seq<ExecEvent>, pid: int)
    requires |events| >= 2 && events[0] == PidEvent(pid) && IsFinal(events[|events| - 1])
    requires forall i :: 0 < i < |events| - 1 ==> IsOutput(events[i])
    ensures RunResultOf(Views(events), true) ==
            Expected(events[|events| - 1], Carried(events, Out), Carried(events, Err))
  {
    hide Carried, Joined, Utf8.ToText;
    ViewsAt(events);
    JoinedViews(events, Out);
    JoinedViews(events, Err);
    var views, n := Views(events), |events| - 1;
    var final := events[n];
    assert views[n] == View(final);
    if final.exit.None? {
      NoExit(views[..n], events[..n]);
      assert LastExit(views) == None;
    } else {
      assert forall i :: 0 <= i < |views| ==> views[i].error.None?;
    }
  }

  lemma {:induction false} NoExit(views: seq<AgentEvent>, events: seq<ExecEvent>)
    requires |views| == |events| && forall i :: 0 <= i < |views| ==> views[i] == View(events[i])
    requires forall i :: 0 <= i < |events| ==> events[i].exit.None?
    ensures LastExit(views) == None
  {
    if views != [] {
      NoExit(views[..|views| - 1], events[..|views| - 1]);
    }
  }

  /** The result tells how cmd.Wait ended, and only of an exit in time the text:
      an error other than an exit that left no code fails the call, a deadline
      that had passed is a timeout. */
  predicate Reports(result: RunResult, wait: Action, out: seq<byte>, err: seq<byte>)
    requires wait.Waits?
  {
    var failed := wait.error.OtherError? && wait.code == 0;
    && (result == Failed <==> failed)
    && (result == TimedOut <==> !failed && wait.timedOut)
    && (result.Completed? <==> !failed && !wait.timedOut)
    && (result.Completed? ==> result == Completed(Utf8.ToText(out), Utf8.ToText(err), wait.code))
  }

  lemma {:induction false} WaitReports(wait: Action, final: ExecEvent, out: seq<byte>, err: seq<byte>)
    requires wait.Waits?
    requires final == if wait.error.OtherError? && wait.code == 0 then ErrorEvent(wait.error.message)
                      else ExitEvent(wait.code, wait.timedOut)
    ensures Reports(Expected(final, out, err), wait, out, err)
  {
    hide Utf8.ToText;
  }

  lemma {:induction false} EndedOutput(s: State, pid: int)
    requires Ended(s, pid)
    ensures |s.sent| >= 2 && s.sent[0] == PidEvent(pid) && IsFinal(s.sent[|s.sent| - 1])
    ensures forall i :: 0 < i < |s.sent| - 1 ==> IsOutput(s.sent[i])
    ensures s.wire == LinesBytes(s.sent)
    ensures Carried(s.sent, Out) == Received(s.out) && Carried(s.sent, Err) == Received(s.err)
  {
    hide LinesBytes, Carried, Received, IsOutput, IsFinal, Drained;
  }

  /**
   * End to end: whatever the order in which the two readers and the handler
   * took their steps and the mutex, whatever sizes the pipes were read in, and
   * wherever the network cut the body, the client reports the text of the
   * bytes the process wrote to each pipe, as far as it was read, and how
   * cmd.Wait said it ended. Only a read of the pipe that failed leaves any out.
   */
  lemma {:induction false} ExecEndToEnd(pid: int, actions: seq<Action>, chunks: seq<seq<byte>>)
    requires ValidRun(Init(pid), actions) && After(Init(pid), actions).main == Stopped
    requires Flatten(chunks) == After(Init(pid), actions).wire
    ensures var s := After(Init(pid), actions);
            var (events, ok) := StreamValues(Flatten(chunks), ParseEvent);
            && (exists j :: 0 <= j < |actions| && actions[j].Waits?)
            && (forall j :: 0 <= j < |actions| && actions[j].Waits? ==>
                  Reports(RunResultOf(events, ok), actions[j], Received(s.out), Received(s.err)))
            && Received(s.out) <= WrittenBy(actions, Out) && Received(s.err) <= WrittenBy(actions, Err)
            && (ReadFails(Out) !in actions ==> Closes(Out) in actions && Received(s.out) == WrittenBy(actions, Out))
            && (ReadFails(Err) !in actions ==> Closes(Err) in actions && Received(s.err) == WrittenBy(actions, Err))
  {
    hide *;
    EndedRun(pid, actions);
    var s := After(Init(pid), actions);
    EndedOutput(s, pid);
    assert s.wire + [] == s.wire;
    var k := ReadPrefix(s.sent, s.wire, []);
    assert s.sent[..k] == s.sent;
    ResultOfEnded(s.sent, pid);
    forall j | 0 <= j < |actions| && actions[j].Waits?
      ensures Reports(Expected(s.sent[|s.sent| - 1], Received(s.out), Received(s.err)), actions[j], Received(s.out), Received(s.err)) {
      WaitReports(actions[j], s.sent[|s.sent| - 1], Received(s.out), Received(s.err));
    }
  }

  /**
   * A connection cut at any byte, at any moment of any run, never passes for
   * a finished command: if the client completes, both pipes had been drained,
   * and it reports all that was read of them and the true exit.
   */
  lemma {:induction false} CutConnectionNeverCompletes(pid: int, actions: seq<Action>, chunks: seq<seq<byte>>, lost: seq<byte>)
    requires ValidRun(Init(pid), actions)
    requires Flatten(chunks) + lost == After(Init(pid), actions).wire
    ensures var s := After(Init(pid), actions);
            var (events, ok) := StreamValues(Flatten(chunks), ParseEvent);
            var result := RunResultOf(events, ok);
            result.Completed? ==>
              && s.phase == Closing && Drained(s.out) && Drained(s.err)
              && result.stdout == Utf8.ToText(Received(s.out)) && result.stderr == Utf8.ToText(Received(s.err))
              && ((s.main.Writing? && s.main.event == ExitEvent(result.exitCode, false))
                  || (s.main.Stopped? && s.sent != [] && s.sent[|s.sent| - 1] == ExitEvent(result.exitCode, false)))
              && Received(s.out) <= WrittenBy(actions, Out) && Received(s.err) <= WrittenBy(actions, Err)
              && (ReadFails(Out) !in actions ==> Closes(Out) in actions && Received(s.out) == WrittenBy(actions, Out))
              && (ReadFails(Err) !in actions ==> Closes(Err) in actions && Received(s.err) == WrittenBy(actions, Err))
  {
    hide *;
    InitInv(pid);
    RunKeepsInv(Init(pid), pid, actions);
    var s := After(Init(pid), actions);
    CutBodyNeverCompletes(s, pid, Flatten(chunks), lost);
    PipesOfRun(pid, actions);
  }

  lemma {:induction false} CutBodyNeverCompletes(s: State, pid: int, received: seq<byte>, lost: seq<byte>)
    requires Inv(s, pid) && received + lost == s.wire
    ensures var (events, ok) := StreamValues(received, ParseEvent);
            var result := RunResultOf(events, ok);
            result.Completed? ==>
              && s.phase == Closing && Drained(s.out) && Drained(s.err)
              && result.stdout == Utf8.ToText(Received(s.out)) && result.stderr == Utf8.ToText(Received(s.err))
              && ((s.main.Writing? && s.main.event == ExitEvent(result.exitCode, false))
                  || (s.main.Stopped? && s.sent != [] && s.sent[|s.sent| - 1] == ExitEvent(result.exitCode, false)))
  {
    hide StreamValues, LinesBytes, Carried, Joined, Views, RunResultOf, Utf8.ToText;
    var events, more := BodySoFar(s, pid);
    Regroup(received, lost, more);
    var k := ReadPrefix(events, received, lost + more);
    var (views, ok) := StreamValues(received, ParseEvent);
    ViewsAt(events[..k]);
    if RunResultOf(views, ok).Completed? {
      var i := CompletedExit(views, ok);
      assert views[i] == View(events[i]) && events[i].exit.Some?;
      assert k == |events| && events[..k] == events;
      JoinedViews(events, Out);
      JoinedViews(events, Err);
    }
  }

  /** A command completes with the text joined and an exit that was in time. */
  lemma {:induction false} CompletedExit(views: seq<AgentEvent>, ok: bool) returns (i: nat)
    requires RunResultOf(views, ok).Completed?
    ensures i < |views| && views[i].exit.Some? && !views[i].timedOut
    ensures RunResultOf(views, ok)
         == Completed(Utf8.ToText(Joined(views, Out)), Utf8.ToText(Joined(views, Err)), views[i].exit.value)
  {
    hide Joined, Utf8.ToText;
    var exit := LastExit(views).value;
    i :| 0 <= i < |views| && views[i] == exit;
  }

  /** So a process that prints text and exits in time has just that reported,
      unless a read of its pipes fails. */
  lemma {:induction false} TextIsReported(
    pid: int, actions: seq<Action>, chunks: seq<seq<byte>>, j: nat, out: string, err: string)
    requires ValidRun(Init(pid), actions) && After(Init(pid), actions).main == Stopped
    requires Flatten(chunks) == After(Init(pid), actions).wire
    requires j < |actions| && actions[j].Waits? && !actions[j].error.OtherError? && !actions[j].timedOut
    requires ReadFails(Out) !in actions && ReadFails(Err) !in actions
    requires WrittenBy(actions, Out) == Utf8.Encode(out) && WrittenBy(actions, Err) == Utf8.Encode(err)
    ensures var (events, ok) := StreamValues(Flatten(chunks), ParseEvent);
            RunResultOf(events, ok) == Completed(out, err, actions[j].code)
  {
    hide StreamValues, RunResultOf, ValidRun, After, Received, WrittenBy, Utf8.ToText, Utf8.Encode;
    ExecEndToEnd(pid, actions, chunks);
    Utf8.ToTextEncode(out);
    Utf8.ToTextEncode(err);
  }
}
