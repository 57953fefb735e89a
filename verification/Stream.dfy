/**
 * `AgentChannel.stream`: a pull-driven reader of the `/exec` response, with a
 * timer and a consumer that may cancel while a pull is waiting. A state and
 * its actions, for one response.
 */
module Stream {
  import opened Common
  import opened ExecEvents
  import Base64

  /** What a line of the response is: an event, a value that is not one, or no
      JSON at all. */
  datatype Item = Event(event: AgentEvent) | NotAnEvent | Unparsable

  /** The lines of a response, in order. */
  type Response = seq<Item>

  datatype Output = Open | Closed | Errored | Cancelled

  /** The generator has `have` lines of the response, the last of them if
      `done`, and the first `taken` of those were pulled, `shown` of them while
      the output was still open. Lines had and not yet taken are its buffer. */
  datatype State = State(
    enqueued: seq<seq<byte>>, output: Output, pulling: bool, aborted: bool, timer: bool,
    have: nat, done: bool, taken: nat, shown: nat)

  function Init(timer: bool): State {
    State([], Open, false, false, timer, 0, false, 0, 0)
  }

  datatype Action =
    | Pull
    | Receives(n: nat, last: bool)
    | Delivers
    | Ends
    | Throws
    | TimerFires
    | Cancel

  /** The generator reads the network only when its buffer is empty, and an
      aborted response gives it nothing more. */
  predicate Enabled(s: State, a: Action, r: Response) {
    match a
    case Pull => s.output == Open && !s.pulling
    case Receives(n, last) =>
      s.pulling && s.taken == s.have && !s.done && !s.aborted && s.have + n <= |r| && (last ==> s.have + n == |r|)
    case Delivers => s.pulling && s.taken < s.have <= |r|
    case Ends => s.pulling && s.taken == s.have && s.done
    case Throws => s.pulling && s.taken == s.have && !s.done
    case TimerFires => s.timer
    case Cancel => s.output == Open
  }

  /** The value makes `pull` fail the stream: an error event, or no event. */
  predicate Bad(item: Item) {
    item.NotAnEvent? || (item.Event? && item.event.error.Some?)
  }

  function Stdout(item: Item): seq<seq<byte>> {
    if item.Event? && item.event.error.None? && item.event.stdout.Some?
    then [Base64.Decode(item.event.stdout.value)] else []
  }

  /** The stdout chunks of a response, one for each event that has any. */
  function Chunks(r: Response): seq<seq<byte>> {
    if r == [] then [] else Chunks(r[..|r| - 1]) + Stdout(r[|r| - 1])
  }

  /** Fails the stream, which only an open one can. */
  function Fail(s: State): State {
    s.(pulling := false, timer := false, output := if s.output == Open then Errored else s.output)
  }

  function Close(s: State): State {
    s.(pulling := false, timer := false, output := if s.output == Open then Closed else s.output)
  }

  function Apply(s: State, a: Action, r: Response): State
    requires Enabled(s, a, r)
  {
    match a
    case Pull => s.(pulling := true)
    case Receives(n, last) => s.(have := s.have + n, done := last)
    case Delivers =>
      var open := s.output == Open;
      var next := s.(taken := s.taken + 1, shown := if open then s.shown + 1 else s.shown);
      (match r[s.taken]
       case Unparsable => if s.aborted then Close(next) else Fail(next)
       case NotAnEvent => Fail(next).(timer := s.timer)
       case Event(event) =>
         if event.error.Some? then Fail(next)
         else if event.stdout.Some? then
           // Enqueueing on a stream that is no longer open throws, to no effect.
           next.(pulling := false, enqueued := if open then s.enqueued + Stdout(r[s.taken]) else s.enqueued)
         else next)
    case Ends => Close(s)
    case Throws => if s.aborted then Close(s) else Fail(s)
    case TimerFires => s.(aborted := true, timer := false)
    case Cancel => s.(output := Cancelled, aborted := true, timer := false)
  }

  ghost predicate ValidRun(s: State, actions: seq<Action>, r: Response)
    decreases |actions|
  {
    actions == [] || (Enabled(s, actions[0], r) && ValidRun(Apply(s, actions[0], r), actions[1..], r))
  }

  ghost function After(s: State, actions: seq<Action>, r: Response): State
    requires ValidRun(s, actions, r)
    decreases |actions|
  {
    if actions == [] then s else After(Apply(s, actions[0], r), actions[1..], r)
  }

  predicate Inv(s: State, r: Response) {
    && s.shown <= s.taken <= s.have <= |r|
    && (s.done ==> s.have == |r|)
    && s.enqueued == Chunks(r[..s.shown])
    && (s.output == Open ==> s.shown == s.taken)
    && (s.output == Closed && !s.aborted ==> s.shown == |r|)
  }

  lemma {:induction false} ChunksNext(r: Response, n: nat)
    requires n < |r|
    ensures Chunks(r[..n + 1]) == Chunks(r[..n]) + Stdout(r[n])
  {
    hide Stdout;
    assert r[..n + 1][..n] == r[..n] && r[..n + 1][n] == r[n];
  }

  lemma {:induction false} DeliversKeepsInv(s: State, r: Response)
    requires Inv(s, r) && Enabled(s, Delivers, r)
    ensures Inv(Apply(s, Delivers, r), r)
  {
    hide Chunks, Base64.Decode;
    if s.output == Open {
      ChunksNext(r, s.taken);
      if Stdout(r[s.taken]) == [] {
        assert s.enqueued + Stdout(r[s.taken]) == s.enqueued;
      }
    }
  }

  lemma {:induction false} StepKeepsInv(s: State, a: Action, r: Response)
    requires Inv(s, r) && Enabled(s, a, r)
    ensures Inv(Apply(s, a, r), r)
  {
    if a == Delivers {
      hide *;
      DeliversKeepsInv(s, r);
    } else {
      hide Chunks, Stdout;
    }
  }

  lemma {:induction false} RunKeepsInv(s: State, actions: seq<Action>, r: Response)
    requires Inv(s, r) && ValidRun(s, actions, r)
    ensures Inv(After(s, actions, r), r)
    decreases |actions|
  {
    hide Inv, Apply, Enabled;
    if actions != [] {
      StepKeepsInv(s, actions[0], r);
      RunKeepsInv(Apply(s, actions[0], r), actions[1..], r);
    }
  }

  lemma {:induction false} InitKeepsInv(timer: bool, r: Response)
    ensures Inv(Init(timer), r)
  {
    assert r[..0] == [];
  }

  /** In every run, what the consumer is given is the stdout of the first so
      many events, and all of it once the response has ended by itself, unless
      the consumer cancelled before. */
  lemma {:induction false} FaithfulPrefix(timer: bool, actions: seq<Action>, r: Response)
    requires ValidRun(Init(timer), actions, r)
    ensures var s := After(Init(timer), actions, r);
            && s.shown <= |r| && s.enqueued == Chunks(r[..s.shown])
            && (Ends in actions && Cancel !in actions ==> s.output == Closed && s.enqueued == Chunks(r))
            && (s.output == Closed && !s.aborted ==> Ends in actions && s.enqueued == Chunks(r))
  {
    hide Chunks, Apply, Enabled;
    InitKeepsInv(timer, r);
    RunKeepsInv(Init(timer), actions, r);
    NaturalEnd(Init(timer), actions, r);
    assert r[..|r|] == r;
  }

  /** A response that has ended was taken to its end while the stream was open,
      unless that was cancelled. */
  lemma {:induction false} NaturalEnd(s: State, actions: seq<Action>, r: Response)
    requires ValidRun(s, actions, r) && Inv(s, r) && (s.pulling ==> s.output == Open || s.output == Cancelled)
    ensures var t := After(s, actions, r);
            && (Ends in actions && s.output == Open && Cancel !in actions ==> t.output == Closed && t.shown == |r|)
            && (s.output == Open && t.output == Closed && !t.aborted ==> Ends in actions)
    decreases |actions|
  {
    hide Chunks, Stdout, Apply, Enabled, Inv;
    if actions != [] {
      var next := Apply(s, actions[0], r);
      StepKeepsInv(s, actions[0], r);
      EndsStep(s, actions[0], r);
      NaturalEnd(next, actions[1..], r);
      assert forall a :: a in actions <==> a == actions[0] || a in actions[1..];
      if next.output != Open {
        NothingAfterTheEnd(next, actions[1..], r);
        if !next.pulling {
          NoPullAfterTheEnd(next, actions[1..], r);
        }
      }
      if next.aborted {
        AbortStays(next, actions[1..], r);
      }
    }
  }

  lemma {:induction false} NoPullAfterTheEnd(s: State, actions: seq<Action>, r: Response)
    requires ValidRun(s, actions, r) && s.output != Open && !s.pulling
    ensures Ends !in actions
    decreases |actions|
  {
    if actions != [] {
      NoPullAfterTheEnd(Apply(s, actions[0], r), actions[1..], r);
      assert forall a :: a in actions <==> a == actions[0] || a in actions[1..];
    }
  }

  lemma {:induction false} EndsStep(s: State, a: Action, r: Response)
    requires Inv(s, r) && Enabled(s, a, r) && (s.pulling ==> s.output == Open || s.output == Cancelled)
    ensures var t := Apply(s, a, r);
            && (t.pulling ==> t.output == Open || t.output == Cancelled)
            && (a == Ends && s.output == Open ==> t.output == Closed && t.shown == |r|)
            && (s.output == Open && t.output == Closed ==> a == Ends || t.aborted)
            && (s.output == Open && a != Cancel && t.output != Open && a != Ends ==>
                  !t.pulling && (t.output == Closed || t.output == Errored))
  {
    hide Chunks, Stdout;
  }

  lemma {:induction false} AbortStays(s: State, actions: seq<Action>, r: Response)
    requires ValidRun(s, actions, r) && s.aborted
    ensures After(s, actions, r).aborted
    decreases |actions|
  {
    if actions != [] {
      AbortStays(Apply(s, actions[0], r), actions[1..], r);
    }
  }

  /** Nothing is enqueued once the stream has closed, failed or been cancelled,
      and it never leaves that state. */
  lemma {:induction false} NothingAfterTheEnd(s: State, actions: seq<Action>, r: Response)
    requires ValidRun(s, actions, r) && s.output != Open
    ensures After(s, actions, r).output == s.output && After(s, actions, r).enqueued == s.enqueued
    ensures After(s, actions, r).shown == s.shown
    decreases |actions|
  {
    if actions != [] {
      NothingAfterTheEnd(Apply(s, actions[0], r), actions[1..], r);
    }
  }

  /** A line on which the stream cannot go on. */
  predicate Fatal(item: Item) { Bad(item) || item.Unparsable? }

  predicate CauseInv(s: State, r: Response, threw: bool) {
    && s.shown <= s.taken <= s.have <= |r|
    && (s.output == Open ==> s.shown == s.taken)
    && (s.output != Open && s.output != Cancelled ==> !s.pulling)
    && (s.output == Cancelled ==> s.aborted)
    && (!s.aborted ==> (s.output == Errored <==> threw || exists i :: 0 <= i < s.shown && Fatal(r[i])))
  }

  lemma {:induction false} CauseKept(s: State, a: Action, r: Response, threw: bool)
    requires CauseInv(s, r, threw) && Enabled(s, a, r)
    ensures CauseInv(Apply(s, a, r), r, threw || a == Throws)
  {
    hide Chunks, Stdout;
    if a == Delivers && s.output == Open && Fatal(r[s.taken]) {
      assert Apply(s, a, r).shown == s.taken + 1;
    }
  }

  lemma {:induction false} CauseOfRun(s: State, actions: seq<Action>, r: Response, threw: bool)
    requires CauseInv(s, r, threw) && ValidRun(s, actions, r)
    ensures CauseInv(After(s, actions, r), r, threw || Throws in actions)
    decreases |actions|
  {
    hide CauseInv, Apply, Enabled;
    if actions != [] {
      CauseKept(s, actions[0], r, threw);
      CauseOfRun(Apply(s, actions[0], r), actions[1..], r, threw || actions[0] == Throws);
      assert Throws in actions <==> actions[0] == Throws || Throws in actions[1..];
    }
  }

  /** In every run a stream that was not aborted has failed if and only if the
      connection did, or a line on which it cannot go on was pulled. */
  lemma {:induction false} FailsExactlyWhen(timer: bool, actions: seq<Action>, r: Response)
    requires ValidRun(Init(timer), actions, r) && !After(Init(timer), actions, r).aborted
    ensures var s := After(Init(timer), actions, r);
            s.shown <= |r| && (s.output == Errored <==> Throws in actions || exists i :: 0 <= i < s.shown && Fatal(r[i]))
  {
    hide Apply, Enabled, Fatal;
    CauseOfRun(Init(timer), actions, r, false);
  }

  /** Of a response without values to refuse, a stream that was aborted, by its
      timer or its consumer, has not failed and never will. */
  lemma {:induction false} AbortNeverFails(s: State, actions: seq<Action>, r: Response)
    requires ValidRun(s, actions, r) && (s.output == Errored ==> !s.aborted && !s.timer)
    requires forall i :: 0 <= i < |r| ==> !Bad(r[i])
    ensures After(s, actions, r).aborted ==> After(s, actions, r).output != Errored
    decreases |actions|
  {
    if actions != [] {
      AbortNeverFails(Apply(s, actions[0], r), actions[1..], r);
    }
  }

  // ---- how a stream ends ----

  /** The state in which step k of the run is taken. */
  ghost function Before(s: State, actions: seq<Action>, k: nat, r: Response): State
    requires ValidRun(s, actions, r) && k <= |actions|
    decreases k
  {
    if k == 0 then s else Before(Apply(s, actions[0], r), actions[1..], k - 1, r)
  }

  /** The generator ends; or it throws, for a broken connection or a line that
      is no JSON, once the abort was ours. */
  predicate Closing(s: State, a: Action, r: Response) {
    a == Ends || (s.aborted && Throwing(s, a, r))
  }

  predicate Throwing(s: State, a: Action, r: Response) {
    a == Throws || (a == Delivers && s.taken < |r| && r[s.taken].Unparsable?)
  }

  /** It throws and the abort was not ours; or it yields a value to be refused. */
  predicate Failing(s: State, a: Action, r: Response) {
    (!s.aborted && Throwing(s, a, r)) || (a == Delivers && s.taken < |r| && Bad(r[s.taken]))
  }

  lemma {:induction false} StepOutcome(s: State, a: Action, r: Response)
    requires Enabled(s, a, r) && s.output == Open
    ensures var t := Apply(s, a, r);
            && (t.output == Closed <==> Closing(s, a, r)) && (t.output == Errored <==> Failing(s, a, r))
            && (t.output == Cancelled <==> a == Cancel)
            && t.aborted == (s.aborted || a == TimerFires || a == Cancel)
            && (t.output == Open ==> t.timer == (s.timer && a != TimerFires))
  {
    hide Stdout;
  }

  lemma {:induction false} EndedBefore(s: State, actions: seq<Action>, k: nat, r: Response)
    requires ValidRun(s, actions, r) && k <= |actions| && s.output != Open
    ensures Before(s, actions, k, r).output != Open
    decreases k
  {
    if k > 0 {
      EndedBefore(Apply(s, actions[0], r), actions[1..], k - 1, r);
    }
  }

  predicate MetAt(s: State, a: Action, r: Response, kind: (State, Action, Response) -> bool) {
    s.output == Open && kind(s, a, r)
  }

  /** Some step that met the open stream was of this kind. */
  ghost predicate MetOpen(s: State, actions: seq<Action>, r: Response, kind: (State, Action, Response) -> bool)
    requires ValidRun(s, actions, r)
  {
    exists k :: 0 <= k < |actions| && MetAt(Before(s, actions, k, r), actions[k], r, kind)
  }

  lemma {:induction false} MetNext(s: State, actions: seq<Action>, r: Response, kind: (State, Action, Response) -> bool)
    requires actions != [] && ValidRun(s, actions, r)
    ensures MetOpen(s, actions, r, kind)
            <==> (s.output == Open && kind(s, actions[0], r)) || MetOpen(Apply(s, actions[0], r), actions[1..], r, kind)
  {
    hide Apply, Enabled;
    var next, rest := Apply(s, actions[0], r), actions[1..];
    if k :| 0 <= k < |rest| && MetAt(Before(next, rest, k, r), rest[k], r, kind) {
      assert Before(s, actions, k + 1, r) == Before(next, rest, k, r) && actions[k + 1] == rest[k];
    }
    if k :| 0 <= k < |actions| && MetAt(Before(s, actions, k, r), actions[k], r, kind) {
      if k > 0 {
        assert Before(s, actions, k, r) == Before(next, rest, k - 1, r) && actions[k] == rest[k - 1];
      }
    }
  }

  lemma {:induction false} MetNoneEnded(s: State, actions: seq<Action>, r: Response, kind: (State, Action, Response) -> bool)
    requires ValidRun(s, actions, r) && s.output != Open
    ensures !MetOpen(s, actions, r, kind)
  {
    forall k | 0 <= k < |actions| ensures Before(s, actions, k, r).output != Open {
      EndedBefore(s, actions, k, r);
    }
  }

  lemma {:induction false} OutcomeOfRun(s: State, actions: seq<Action>, r: Response)
    requires ValidRun(s, actions, r)
    ensures s.output == Open ==>
              && (After(s, actions, r).output == Closed <==> MetOpen(s, actions, r, Closing))
              && (After(s, actions, r).output == Errored <==> MetOpen(s, actions, r, Failing))
    decreases |actions|
  {
    hide Apply, Enabled, Closing, Failing, MetOpen;
    if actions == [] {
      MetNoneYet(s, r, Closing);
      MetNoneYet(s, r, Failing);
    } else if s.output == Open {
      var next, rest := Apply(s, actions[0], r), actions[1..];
      StepOutcome(s, actions[0], r);
      MetNext(s, actions, r, Closing);
      MetNext(s, actions, r, Failing);
      OutcomeOfRun(next, rest, r);
      if next.output != Open {
        NothingAfterTheEnd(next, rest, r);
        MetNoneEnded(next, rest, r, Closing);
        MetNoneEnded(next, rest, r, Failing);
      }
    }
  }

  lemma {:induction false} MetNoneYet(s: State, r: Response, kind: (State, Action, Response) -> bool)
    ensures !MetOpen(s, [], r, kind)
  {
  }

  lemma {:induction false} AbortOfRun(s: State, actions: seq<Action>, r: Response)
    requires ValidRun(s, actions, r)
    ensures After(s, actions, r).aborted == (s.aborted || TimerFires in actions || Cancel in actions)
    ensures s.output != Cancelled ==> (After(s, actions, r).output == Cancelled <==> Cancel in actions)
    ensures After(s, actions, r).output == Open ==> After(s, actions, r).timer == (s.timer && TimerFires !in actions)
    decreases |actions|
  {
    hide Apply, Enabled;
    if actions != [] {
      AbortOfStep(s, actions[0], r);
      var next, rest := Apply(s, actions[0], r), actions[1..];
      AbortOfRun(next, rest, r);
      assert forall a :: a in actions <==> a == actions[0] || a in rest;
      if next.output != Open {
        NothingAfterTheEnd(next, rest, r);
      }
    }
  }

  lemma {:induction false} AbortOfStep(s: State, a: Action, r: Response)
    requires Enabled(s, a, r)
    ensures var t := Apply(s, a, r);
            && t.aborted == (s.aborted || a == TimerFires || a == Cancel)
            && (t.output == Cancelled <==> s.output == Cancelled || a == Cancel)
            && (t.output == Open ==> s.output == Open && t.timer == (s.timer && a != TimerFires))
  {
    hide Stdout;
  }

  /** It yields a value that is no event, which is noticed outside any `try`. */
  predicate Unguarded(s: State, a: Action, r: Response) {
    a == Delivers && s.taken < |r| && r[s.taken].NotAnEvent?
  }

  lemma {:induction false} TimerOfStep(s: State, a: Action, r: Response)
    requires Enabled(s, a, r)
    ensures var t := Apply(s, a, r);
            && (s.output == Open ==>
                  (t.timer <==> s.timer && a != TimerFires && (t.output == Open || Unguarded(s, a, r))))
            && (s.output != Open && !s.pulling ==> !t.pulling && (t.timer <==> s.timer && a != TimerFires))
            && (s.output != Open && !s.timer ==> !t.timer)
            && (s.output == Open && t.output != Open ==> !t.pulling || (t.output == Cancelled && !t.timer))
  {
    hide Stdout;
  }

  lemma {:induction false} TimerAfterEnd(s: State, actions: seq<Action>, r: Response)
    requires ValidRun(s, actions, r) && s.output != Open && (!s.pulling || !s.timer)
    ensures After(s, actions, r).timer <==> s.timer && TimerFires !in actions
    decreases |actions|
  {
    hide Apply, Enabled;
    if actions != [] {
      var next, rest := Apply(s, actions[0], r), actions[1..];
      TimerOfStep(s, actions[0], r);
      OneStep(s, actions[0], r);
      NothingAfterTheEnd(s, [actions[0]], r);
      TimerAfterEnd(next, rest, r);
      assert forall a :: a in actions <==> a == actions[0] || a in rest;
    }
  }

  lemma {:induction false} OneStep(s: State, a: Action, r: Response)
    requires Enabled(s, a, r)
    ensures ValidRun(s, [a], r) && After(s, [a], r) == Apply(s, a, r)
  {
    hide Enabled, Apply;
    assert [a][1..] == [];
  }

  lemma {:induction false} TimerOfRun(s: State, actions: seq<Action>, r: Response)
    requires ValidRun(s, actions, r) && s.output == Open
    ensures After(s, actions, r).timer <==>
            s.timer && TimerFires !in actions
            && (After(s, actions, r).output == Open || MetOpen(s, actions, r, Unguarded))
    decreases |actions|
  {
    hide Apply, Enabled, Unguarded, MetOpen;
    if actions == [] {
      MetNoneYet(s, r, Unguarded);
    } else {
      var next, rest := Apply(s, actions[0], r), actions[1..];
      TimerOfStep(s, actions[0], r);
      MetNext(s, actions, r, Unguarded);
      assert forall a :: a in actions <==> a == actions[0] || a in rest;
      if next.output == Open {
        TimerOfRun(next, rest, r);
        StillOpen(s, actions[0], r);
      } else {
        NothingAfterTheEnd(next, rest, r);
        MetNoneEnded(next, rest, r, Unguarded);
        TimerAfterEnd(next, rest, r);
      }
    }
  }

  lemma {:induction false} StillOpen(s: State, a: Action, r: Response)
    requires Enabled(s, a, r) && Apply(s, a, r).output == Open
    ensures !Unguarded(s, a, r)
  {
    hide Stdout;
  }

  /** How a stream ends, in every run: closed exactly when the open stream met
      the end of the response, or an exception after an abort of its own; failed
      exactly when it met another, or a value to be refused; cancelled exactly
      by its consumer. The response is aborted by the timer and the consumer,
      and by nothing else; and the timer is cleared with the end, but for that
      by a value that is no event. */
  lemma {:induction false} EndsExactly(timer: bool, actions: seq<Action>, r: Response)
    requires ValidRun(Init(timer), actions, r)
    ensures var s := After(Init(timer), actions, r);
            && (s.output == Closed <==> MetOpen(Init(timer), actions, r, Closing))
            && (s.output == Errored <==> MetOpen(Init(timer), actions, r, Failing))
            && (s.output == Cancelled <==> Cancel in actions)
            && (s.aborted <==> TimerFires in actions || Cancel in actions)
            && (s.timer <==>
                  timer && TimerFires !in actions && (s.output == Open || MetOpen(Init(timer), actions, r, Unguarded)))
  {
    hide Apply, Enabled, Closing, Failing, Unguarded, MetOpen, After;
    OutcomeOfRun(Init(timer), actions, r);
    TimerOfRun(Init(timer), actions, r);
    AbortOfRun(Init(timer), actions, r);
  }

  /** Steps of the consumer's pulls and of the generator. */
  predicate IsPulling(a: Action) { a.Pull? || a.Receives? || a.Delivers? || a.Ends? || a.Throws? }

  /** The next such step of a stream to which the rest of the response comes. */
  function NextPull(s: State, r: Response): Action
    requires s.have <= |r|
  {
    if !s.pulling then Pull
    else if s.taken < s.have then Delivers
    else if s.done then Ends
    else if s.aborted then Throws
    else Receives(|r| - s.have, true)
  }

  function PullsLeft(s: State, r: Response): int {
    4 * (|r| - s.taken) + (if s.pulling then 0 else 2) + (if s.done then 0 else 1)
  }

  lemma {:induction false} NextPullLess(s: State, r: Response)
    requires Inv(s, r) && s.output == Open
    ensures Enabled(s, NextPull(s, r), r) && IsPulling(NextPull(s, r))
    ensures var t := Apply(s, NextPull(s, r), r);
            && (t.output == Open ==> 0 <= PullsLeft(t, r) < PullsLeft(s, r))
            && t.output != Cancelled && t.aborted == s.aborted && t.taken >= s.taken
            && (!s.aborted && (forall i :: s.taken <= i < |r| ==> !Fatal(r[i])) ==> t.output == Open || t.output == Closed)
  {
    hide Chunks, Stdout;
  }

  /** A consumer that goes on pulling comes to an end: from every open state, as
      the rest of the response arrives, the stream closes or fails; and it
      closes if no line is left on which it cannot go on. */
  lemma {:induction false} PullsToTheEnd(s: State, r: Response) returns (actions: seq<Action>)
    requires Inv(s, r) && s.output == Open
    ensures ValidRun(s, actions, r) && forall k :: 0 <= k < |actions| ==> IsPulling(actions[k])
    ensures After(s, actions, r).output == Closed || After(s, actions, r).output == Errored
    ensures !s.aborted && (forall i :: s.taken <= i < |r| ==> !Fatal(r[i])) ==> After(s, actions, r).output == Closed
    decreases PullsLeft(s, r)
  {
    hide Inv, Enabled, Apply, IsPulling, NextPull, PullsLeft, Fatal;
    var a := NextPullOf(s, r);
    NextPullLess(s, r);
    StepKeepsInv(s, a, r);
    var rest: seq<Action> := [];
    if Apply(s, a, r).output == Open {
      rest := PullsToTheEnd(Apply(s, a, r), r);
    }
    Prepend(s, a, rest, r);
    actions := [a] + rest;
  }

  lemma {:induction false} NextPullOf(s: State, r: Response) returns (a: Action)
    requires Inv(s, r)
    ensures s.have <= |r| && a == NextPull(s, r)
  {
    a := NextPull(s, r);
  }

  /** The consumer can cancel an open stream at any time, its timer can fire,
      and what was cancelled stays so. */
  lemma {:induction false} CancelsAtAnyTime(s: State, more: seq<Action>, r: Response)
    requires s.output == Open
    ensures Enabled(s, Cancel, r) && (s.timer ==> Enabled(s, TimerFires, r))
    ensures ValidRun(Apply(s, Cancel, r), more, r) ==> After(Apply(s, Cancel, r), more, r).output == Cancelled
                                                       && After(Apply(s, Cancel, r), more, r).enqueued == s.enqueued
  {
    var t := Apply(s, Cancel, r);
    if ValidRun(t, more, r) {
      NothingAfterTheEnd(t, more, r);
    }
  }

  function Pulls(actions: seq<Action>): nat {
    if actions == [] then 0 else (if actions[0].Pull? then 1 else 0) + Pulls(actions[1..])
  }

  /** No more is enqueued than was pulled; and a pull of an open stream goes on,
      over lines without stdout, until it has enqueued exactly one chunk. */
  lemma {:induction false} OneChunkAPull(timer: bool, actions: seq<Action>, r: Response)
    requires ValidRun(Init(timer), actions, r)
    ensures var s := After(Init(timer), actions, r);
            && |s.enqueued| <= Pulls(actions)
            && (s.output == Open ==> |s.enqueued| + (if s.pulling then 1 else 0) == Pulls(actions))
  {
    ChunksOfRun(Init(timer), actions, r);
  }

  function Pending(s: State): nat { if s.pulling then 1 else 0 }

  lemma {:induction false} ChunksOfRun(s: State, actions: seq<Action>, r: Response)
    requires ValidRun(s, actions, r)
    ensures var t := After(s, actions, r);
            && |t.enqueued| + Pending(t) <= |s.enqueued| + Pending(s) + Pulls(actions)
            && (t.output == Open ==> |t.enqueued| + Pending(t) == |s.enqueued| + Pending(s) + Pulls(actions))
    decreases |actions|
  {
    hide Stdout, Apply, Enabled, Pending;
    if actions != [] {
      var next := Apply(s, actions[0], r);
      ChunksOfStep(s, actions[0], r);
      ChunksOfRun(next, actions[1..], r);
      if next.output != Open {
        NothingAfterTheEnd(next, actions[1..], r);
      }
    }
  }

  lemma {:induction false} ChunksOfStep(s: State, a: Action, r: Response)
    requires Enabled(s, a, r)
    ensures var t, pull := Apply(s, a, r), if a.Pull? then 1 else 0;
            && |t.enqueued| + Pending(t) <= |s.enqueued| + Pending(s) + pull
            && (t.output == Open ==> |t.enqueued| + Pending(t) == |s.enqueued| + Pending(s) + pull)
  {
  }

  // ---- the adapter's own abort ----

  /** Among the lines the generator has buffered is a value to be refused, and
      none before it that is no JSON, which would end the generator first. */
  predicate RefusalBuffered(s: State, r: Response)
    requires s.have <= |r|
  {
    exists k :: s.taken <= k < s.have && Bad(r[k]) && forall j :: s.taken <= j < k ==> !r[j].Unparsable?
  }

  /** The consumer can pull that far, and then the stream fails. */
  lemma {:induction false} FailingRun(s: State, r: Response, k: nat) returns (actions: seq<Action>)
    requires s.aborted && s.output == Open && s.taken <= k < s.have <= |r|
    requires Bad(r[k]) && forall j :: s.taken <= j < k ==> !r[j].Unparsable?
    ensures ValidRun(s, actions, r) && After(s, actions, r).output == Errored
    decreases k - s.taken, !s.pulling
  {
    var a := if s.pulling then Delivers else Pull;
    var next := Apply(s, a, r);
    var rest: seq<Action> := [];
    if next.output == Open {
      rest := FailingRun(next, r, k);
    }
    actions := [a] + rest;
    assert actions[1..] == rest;
  }

  /** Nothing is added to the buffer of an aborted stream, and a line that is
      no JSON closes it. */
  lemma {:induction false} RefusalWasBuffered(s: State, a: Action, r: Response)
    requires s.aborted && s.have <= |r| && Enabled(s, a, r) && Apply(s, a, r).output == Open
    requires RefusalBuffered(Apply(s, a, r), r)
    ensures RefusalBuffered(s, r)
  {
    hide Chunks, Stdout;
    var t := Apply(s, a, r);
    assert t.have == s.have && t.taken == if a == Delivers then s.taken + 1 else s.taken;
    assert a == Delivers ==> !r[s.taken].Unparsable?;
    hide Apply, Enabled;
    var k :| t.taken <= k < t.have && Bad(r[k]) && forall j :: t.taken <= j < k ==> !r[j].Unparsable?;
    assert s.taken <= k < s.have;
  }

  lemma {:induction false} NeverFails(s: State, actions: seq<Action>, r: Response)
    requires s.aborted && s.have <= |r| && ValidRun(s, actions, r) && s.output != Errored
    requires s.output == Open ==> !RefusalBuffered(s, r)
    ensures After(s, actions, r).output != Errored
    decreases |actions|
  {
    if actions != [] {
      var next := Apply(s, actions[0], r);
      AbortedStep(s, actions[0], r);
      hide Apply, Enabled, RefusalBuffered;
      NeverFails(next, actions[1..], r);
    }
  }

  lemma {:induction false} AbortedStep(s: State, a: Action, r: Response)
    requires s.aborted && s.have <= |r| && Enabled(s, a, r) && s.output != Errored
    requires s.output == Open ==> !RefusalBuffered(s, r)
    ensures var t := Apply(s, a, r);
            t.aborted && t.have <= |r| && t.output != Errored && (t.output == Open ==> !RefusalBuffered(t, r))
  {
    var t := Apply(s, a, r);
    assert t.have == s.have;
    if a == Delivers && s.output == Open && Bad(r[s.taken]) {
      assert false;
    }
    hide RefusalBuffered;
    if t.output == Open && RefusalBuffered(t, r) {
      RefusalWasBuffered(s, a, r);
    }
  }

  /** Exactly when a stream that the adapter itself has aborted can still fail:
      when a value it must refuse was buffered by then, ahead of any line that
      is no JSON. Otherwise every run closes it, or leaves it cancelled. */
  lemma {:induction false} AbortedFailsExactly(s: State, r: Response)
    requires s.aborted && s.output == Open && s.have <= |r|
    ensures RefusalBuffered(s, r)
            <==> exists actions :: ValidRun(s, actions, r) && After(s, actions, r).output == Errored
  {
    if RefusalBuffered(s, r) {
      var k :| s.taken <= k < s.have && Bad(r[k]) && forall j :: s.taken <= j < k ==> !r[j].Unparsable?;
      var actions := FailingRun(s, r, k);
    } else {
      forall actions | ValidRun(s, actions, r) ensures After(s, actions, r).output != Errored {
        NeverFails(s, actions, r);
      }
    }
  }

  /** Such a run from the start: output and an error event come in one chunk,
      the consumer takes the output, the timer fires, and the next pull fails. */
  lemma {:induction false} ReceivedErrorFailsAfterTimeout(chunk: string, message: string)
    ensures var r := [Event(AgentEvent(Some(chunk), None, None, false, None)),
                      Event(AgentEvent(None, None, None, false, Some(message)))];
            var actions := [Pull, Receives(2, false), Delivers, TimerFires, Pull, Delivers];
            && ValidRun(Init(true), actions, r)
            && After(Init(true), actions, r).aborted && After(Init(true), actions, r).output == Errored
  {
    hide Chunks, Base64.Decode;
    var r := [Event(AgentEvent(Some(chunk), None, None, false, None)),
              Event(AgentEvent(None, None, None, false, Some(message)))];
    var s1 := Apply(Init(true), Pull, r);
    var s2 := Apply(s1, Receives(2, false), r);
    var s3 := Apply(s2, Delivers, r);
    var s4 := Apply(s3, TimerFires, r);
    var s5 := Apply(s4, Pull, r);
    Prepend(s5, Delivers, [], r);
    Prepend(s4, Pull, [Delivers], r);
    Prepend(s3, TimerFires, [Pull, Delivers], r);
    Prepend(s2, Delivers, [TimerFires, Pull, Delivers], r);
    Prepend(s1, Receives(2, false), [Delivers, TimerFires, Pull, Delivers], r);
    Prepend(Init(true), Pull, [Receives(2, false), Delivers, TimerFires, Pull, Delivers], r);
  }

  lemma {:induction false} Prepend(s: State, a: Action, rest: seq<Action>, r: Response)
    requires Enabled(s, a, r) && ValidRun(Apply(s, a, r), rest, r)
    ensures ValidRun(s, [a] + rest, r) && After(s, [a] + rest, r) == After(Apply(s, a, r), rest, r)
  {
    hide Enabled, Apply;
    assert ([a] + rest)[1..] == rest;
  }
}
